/**
 * The pricing logic of the shopping-cart page: the rows loaded from the server,
 * the quantity buttons, the subtotal and shipping, the discount the server
 * grants, and the list of items sent to the payment provider at checkout.
 *
 * Amounts are exact reals (no floating-point rounding and no two-decimal
 * formatting). Server replies are parameters of the methods that receive them.
 */
module CartPage {
  import opened Common
  import Models

  /** A product row as the cart endpoint sends it (the fields the page uses). */
  datatype Product = Product(idProducto: int, nombre: string, precio: real, imagen: string)

  /** A row of the page's cart: the product's fields plus the quantity the buyer picked. */
  datatype CartItem = CartItem(product: Product, quantity: int)

  /** The fixed shipping charge added to every order. */
  const SHIPPING: real := 50.0

  function LineTotal(item: CartItem): real {
    item.product.precio * item.quantity as real
  }

  /** Price times quantity summed over the cart, accumulated from the first row to the last. */
  function Subtotal(cart: seq<CartItem>): real
    decreases |cart|
  {
    if cart == [] then 0.0 else Subtotal(cart[..|cart| - 1]) + LineTotal(cart[|cart| - 1])
  }

  lemma {:induction false} SubtotalNonNegative(cart: seq<CartItem>)
    requires forall i :: 0 <= i < |cart| ==> cart[i].product.precio >= 0.0 && cart[i].quantity >= 0
    ensures Subtotal(cart) >= 0.0
    decreases |cart|
  {
    if cart != [] {
      SubtotalNonNegative(cart[..|cart| - 1]);
    }
  }

  /** Changing one row of a cart changes the subtotal by exactly that row's change. */
  lemma {:induction false} SubtotalPointChange(a: seq<CartItem>, b: seq<CartItem>, k: int)
    requires |a| == |b| && 0 <= k < |a|
    requires forall i :: 0 <= i < |a| && i != k ==> a[i] == b[i]
    ensures Subtotal(b) == Subtotal(a) - LineTotal(a[k]) + LineTotal(b[k])
    decreases |a|
  {
    var n := |a| - 1;
    if k == n {
      assert a[..n] == b[..n];
    } else {
      SubtotalPointChange(a[..n], b[..n], k);
    }
  }

  // ------------------------------------------------------ loading the cart

  /** The sum of the listed prices, added up from the last product to the first. */
  function PriceSum(ps: seq<Product>): real {
    if ps == [] then 0.0 else ps[0].precio + PriceSum(ps[1..])
  }

  lemma {:induction false} PriceSumLast(ps: seq<Product>)
    requires ps != []
    ensures PriceSum(ps) == PriceSum(ps[..|ps| - 1]) + ps[|ps| - 1].precio
    decreases |ps|
  {
    if |ps| > 1 {
      PriceSumLast(ps[1..]);
      assert ps[1..][..|ps| - 2] == ps[..|ps| - 1][1..];
    }
  }

  /** Every product the server sends becomes a row with quantity 1, in the order received. */
  function WithQuantityOne(ps: seq<Product>): (cart: seq<CartItem>)
    ensures |cart| == |ps|
    ensures forall i :: 0 <= i < |ps| ==> cart[i].product == ps[i] && cart[i].quantity == 1
  {
    seq(|ps|, i requires 0 <= i < |ps| => CartItem(ps[i], 1))
  }

  /** A freshly loaded cart costs the sum of its products' prices. */
  lemma {:induction false} FreshCartSubtotal(ps: seq<Product>)
    ensures Subtotal(WithQuantityOne(ps)) == PriceSum(ps)
    decreases |ps|
  {
    if ps != [] {
      var n := |ps| - 1;
      assert WithQuantityOne(ps)[..n] == WithQuantityOne(ps[..n]);
      FreshCartSubtotal(ps[..n]);
      PriceSumLast(ps);
    }
  }

  // ----------------------------------------------------- changing a quantity

  /**
   * The cart with every row of the given product set to quantity `q`: the same
   * rows in the same order, and only the quantity of matching rows differs.
   */
  function SetQuantity(cart: seq<CartItem>, id: int, q: int): (r: seq<CartItem>)
    ensures |r| == |cart|
    ensures forall i :: 0 <= i < |cart| ==> r[i].product == cart[i].product
    ensures forall i :: 0 <= i < |cart| && cart[i].product.idProducto != id ==> r[i] == cart[i]
    ensures forall i :: 0 <= i < |cart| && cart[i].product.idProducto == id ==> r[i].quantity == q
  {
    seq(|cart|, i requires 0 <= i < |cart| =>
      if cart[i].product.idProducto == id then CartItem(cart[i].product, q) else cart[i])
  }

  /** Setting the same quantity twice is the same as setting it once. */
  lemma SetQuantityIdempotent(cart: seq<CartItem>, id: int, q: int)
    ensures SetQuantity(SetQuantity(cart, id, q), id, q) == SetQuantity(cart, id, q)
  {
  }

  /**
   * When exactly one row holds the product, setting its quantity to `q`
   * replaces that row's line total in the subtotal and leaves the rest alone.
   */
  lemma SetQuantitySubtotal(cart: seq<CartItem>, id: int, q: int, k: int)
    requires 0 <= k < |cart| && cart[k].product.idProducto == id
    requires forall i :: 0 <= i < |cart| && i != k ==> cart[i].product.idProducto != id
    ensures Subtotal(SetQuantity(cart, id, q))
            == Subtotal(cart) - LineTotal(cart[k]) + LineTotal(CartItem(cart[k].product, q))
  {
    var r := SetQuantity(cart, id, q);
    assert forall i :: 0 <= i < |cart| && i != k ==> r[i] == cart[i];
    SubtotalPointChange(cart, r, k);
  }

  /** The "+" button on a product held by one row raises the subtotal by that product's price. */
  lemma IncrementAddsOnePrice(cart: seq<CartItem>, k: int)
    requires 0 <= k < |cart|
    requires forall i :: 0 <= i < |cart| && i != k ==> cart[i].product.idProducto != cart[k].product.idProducto
    ensures Subtotal(SetQuantity(cart, cart[k].product.idProducto, cart[k].quantity + 1))
            == Subtotal(cart) + cart[k].product.precio
  {
    var item := cart[k];
    SetQuantitySubtotal(cart, item.product.idProducto, item.quantity + 1, k);
    assert LineTotal(CartItem(item.product, item.quantity + 1)) == LineTotal(item) + item.product.precio;
  }

  // -------------------------------------------------------------- discount

  /**
   * The amount taken off for a discount figure `d`: the page treats `d` as a
   * percentage and takes `d / 100` of the subtotal.
   */
  function DiscountTaken(subtotal: real, d: real): real {
    subtotal * (d / 100.0)
  }

  /** The discounted subtotal plus the shipping charge. */
  function DiscountedTotal(subtotal: real, d: real): real {
    (subtotal - DiscountTaken(subtotal, d)) + SHIPPING
  }

  /**
   * Shipping is never discounted: for a percentage in [0, 100] the total lies
   * between the shipping charge and the undiscounted total, and a 100 percent
   * discount leaves exactly the shipping charge.
   */
  lemma ShippingNeverDiscounted(subtotal: real, d: real)
    requires subtotal >= 0.0 && 0.0 <= d <= 100.0
    ensures SHIPPING <= DiscountedTotal(subtotal, d) <= subtotal + SHIPPING
    ensures d == 100.0 ==> DiscountedTotal(subtotal, d) == SHIPPING
    ensures d == 0.0 ==> DiscountedTotal(subtotal, d) == subtotal + SHIPPING
  {
    assert 0.0 <= subtotal * (d / 100.0) <= subtotal;
  }

  /**
   * The backend stores a discount's percentage as a fraction in [0, 1]; read
   * as a percentage by the page, such a value takes at most one hundredth of
   * the subtotal off.
   */
  lemma BackendFractionTakesAtMostOnePercent(subtotal: real, p: real)
    requires subtotal >= 0.0 && Models.Passes(Models.PERCENTAGE, p)
    ensures 0.0 <= DiscountTaken(subtotal, p) <= subtotal / 100.0
  {
    Models.PercentageIsUnitInterval(p);
    assert 0.0 <= p / 100.0 <= 1.0 / 100.0;
  }

  /**
   * For a cart of non-negative prices and a percentage in [0, 100], the page
   * charges at least the shipping charge, so the amount is one the
   * non-negative validator of the cart and invoice totals accepts
   * (`Models.NonNegativeIsZeroOrMore`).
   */
  lemma ChargedTotalAtLeastShipping(cart: seq<CartItem>, d: real)
    requires forall i :: 0 <= i < |cart| ==> cart[i].product.precio >= 0.0 && cart[i].quantity >= 1
    requires 0.0 <= d <= 100.0
    ensures DiscountedTotal(Subtotal(cart), d) >= SHIPPING
  {
    SubtotalNonNegative(cart);
    ShippingNeverDiscounted(Subtotal(cart), d);
  }

  // ----------------------------------------------------- checkout item list

  datatype ItemKey = ProductKey(id: int) | DiscountKey | ShippingKey

  /** An entry of the payment request: key, title, quantity and unit price. */
  datatype CheckoutItem = CheckoutItem(key: ItemKey, title: string, quantity: int, unitPrice: real)

  function LineItem(item: CartItem): CheckoutItem {
    CheckoutItem(ProductKey(item.product.idProducto), item.product.nombre, item.quantity, item.product.precio)
  }

  /** The discount as one negative-priced entry. */
  function DiscountItem(taken: real): CheckoutItem {
    CheckoutItem(DiscountKey, "Descuento aplicado", 1, -taken)
  }

  const SHIPPING_ITEM: CheckoutItem := CheckoutItem(ShippingKey, "Costo de envío", 1, SHIPPING)

  /** One entry per cart row, in cart order. */
  function LineItems(cart: seq<CartItem>): (items: seq<CheckoutItem>)
    ensures |items| == |cart|
    ensures forall i :: 0 <= i < |cart| ==> items[i] == LineItem(cart[i])
  {
    seq(|cart|, i requires 0 <= i < |cart| => LineItem(cart[i]))
  }

  /** Quantity times unit price summed over the entries, from the first to the last. */
  function ItemsSum(items: seq<CheckoutItem>): real
    decreases |items|
  {
    if items == [] then 0.0
    else ItemsSum(items[..|items| - 1]) + items[|items| - 1].quantity as real * items[|items| - 1].unitPrice
  }

  /** The product entries of a cart add up to its subtotal. */
  lemma {:induction false} LineItemsSum(cart: seq<CartItem>)
    ensures ItemsSum(LineItems(cart)) == Subtotal(cart)
    decreases |cart|
  {
    if cart != [] {
      var n := |cart| - 1;
      assert LineItems(cart)[..n] == LineItems(cart[..n]);
      LineItemsSum(cart[..n]);
    }
  }

  /**
   * The payment request's entries add up to the subtotal, less the discount
   * when its entry is present, plus shipping.
   */
  lemma PaymentItemsSum(cart: seq<CartItem>, taken: real)
    ensures ItemsSum(LineItems(cart) + [DiscountItem(taken)] + [SHIPPING_ITEM]) == Subtotal(cart) - taken + SHIPPING
    ensures ItemsSum(LineItems(cart) + [SHIPPING_ITEM]) == Subtotal(cart) + SHIPPING
  {
    var lines := LineItems(cart);
    LineItemsSum(cart);
    ItemsSumAppendOne(lines, DiscountItem(taken));
    ItemsSumAppendOne(lines + [DiscountItem(taken)], SHIPPING_ITEM);
    ItemsSumAppendOne(lines, SHIPPING_ITEM);
  }

  /** An entry of quantity one adds its unit price. */
  lemma ItemsSumAppendOne(items: seq<CheckoutItem>, x: CheckoutItem)
    requires x.quantity == 1
    ensures ItemsSum(items + [x]) == ItemsSum(items) + x.unitPrice
  {
    var q, u := x.quantity as real, x.unitPrice;
    assert q == 1.0;
    assert q * u == u;
    assert (items + [x])[..|items|] == items;
  }

  // ---------------------------------------------------------- the page state

  /** The displayed total: the number 0 until first computed, then a formatted amount. */
  datatype Total = Unset | Shown(amount: real)

  /** What the cart request brings back: a failure, an error reply, or the cart's products. */
  datatype FetchReply = RequestFailed | ErrorReply(message: string) | Products(productos: seq<Product>)

  /** What the discount request brings back: a refusal, or the discount figure granted. */
  datatype DiscountReply = Refused(message: string) | Granted(descuento: real)

  /** What checkout does: warn of an empty cart, warn of missing data, or send a payment request. */
  datatype CheckoutOutcome =
    | EmptyCart
    | MissingData
    | PaymentRequest(items: seq<CheckoutItem>, payerEmail: string)

  /** A session e-mail counts only when it is present and not empty. */
  predicate SignedIn(email: Option<string>) {
    email.Some? && email.value != ""
  }

  class Cart {
    const userEmail: Option<string>
    var cart: seq<CartItem>
    var loading: bool
    var total: Total
    var discountCode: string
    var discountApplied: bool
    var discountAmount: real

    /**
     * Every row has quantity at least 1, the total is still unset only while
     * the cart is empty, no discount figure is held before one is granted, and
     * a shown total is either the undiscounted one or, once a discount was
     * granted, the discounted one.
     */
    ghost predicate Valid()
      reads this
    {
      && (forall i :: 0 <= i < |cart| ==> cart[i].quantity >= 1)
      && (total.Unset? ==> cart == [])
      && (!discountApplied ==> discountAmount == 0.0)
      && (total.Shown? ==>
            || total.amount == Subtotal(cart) + SHIPPING
            || (discountApplied && total.amount == DiscountedTotal(Subtotal(cart), discountAmount)))
    }

    /**
     * The shown total is the subtotal less the discount held, plus shipping:
     * the amount checkout charges whenever the discount taken is not negative
     * (a negative one adds no checkout entry). Quantity changes and reloads as
     * written break this once a discount is granted; the corrected handlers
     * keep it.
     */
    ghost predicate ShowsCharge()
      reads this
    {
      total.Shown? ==> total.amount == DiscountedTotal(Subtotal(cart), discountAmount)
    }

    constructor (userEmail: Option<string>)
      ensures Valid()
      ensures this.userEmail == userEmail && cart == [] && loading && total == Unset
      ensures discountCode == "" && !discountApplied && discountAmount == 0.0
    {
      this.userEmail := userEmail;
      cart := [];
      loading := true;
      total := Unset;
      discountCode := "";
      discountApplied := false;
      discountAmount := 0.0;
    }

    /**
     * Loading the cart: without a session e-mail nothing happens (the page
     * keeps loading); a failed or refused request only ends loading; otherwise
     * each product becomes a row with quantity 1 and the total is recomputed.
     */
    method FetchCart(reply: FetchReply)
      requires Valid()
      modifies this
      ensures Valid()
      ensures !SignedIn(userEmail) ==> unchanged(this)
      ensures SignedIn(userEmail) ==> !loading
      ensures SignedIn(userEmail) && reply.Products? ==>
                cart == WithQuantityOne(reply.productos) && total == Shown(Subtotal(cart) + SHIPPING)
      ensures !reply.Products? ==> cart == old(cart) && total == old(total)
      ensures discountCode == old(discountCode) && discountApplied == old(discountApplied)
      ensures discountAmount == old(discountAmount)
      ensures !discountApplied && old(ShowsCharge()) ==> ShowsCharge()
    {
      if !SignedIn(userEmail) {
        return;
      }
      match reply
      case RequestFailed =>
        loading := false;
      case ErrorReply(_) =>
        loading := false;
      case Products(productos) =>
        cart := WithQuantityOne(productos);
        total := Shown(Subtotal(cart) + SHIPPING);
        loading := false;
    }

    /**
     * Loading the cart with a granted discount kept: as `FetchCart`, but the
     * total is recomputed as checkout will charge it, so a reload (also the one
     * after removing a product) leaves the shown total equal to the charge.
     */
    method FetchCartKeepingDiscount(reply: FetchReply)
      requires Valid()
      modifies this
      ensures Valid()
      ensures !SignedIn(userEmail) ==> unchanged(this)
      ensures SignedIn(userEmail) ==> !loading
      ensures SignedIn(userEmail) && reply.Products? ==>
                cart == WithQuantityOne(reply.productos)
                && total == Shown(DiscountedTotal(Subtotal(cart), discountAmount))
      ensures !reply.Products? ==> cart == old(cart) && total == old(total)
      ensures discountCode == old(discountCode) && discountApplied == old(discountApplied)
      ensures discountAmount == old(discountAmount)
      ensures (SignedIn(userEmail) && reply.Products?) || old(ShowsCharge()) ==> ShowsCharge()
    {
      if !SignedIn(userEmail) {
        return;
      }
      match reply
      case RequestFailed =>
        loading := false;
      case ErrorReply(_) =>
        loading := false;
      case Products(productos) =>
        cart := WithQuantityOne(productos);
        var subtotal := Subtotal(cart);
        var taken := DiscountTaken(subtotal, discountAmount);
        total := Shown((subtotal - taken) + SHIPPING);
        loading := false;
    }

    /**
     * A quantity button: a new quantity of zero or less is ignored; otherwise
     * the product's rows take the new quantity and the total is recomputed
     * from the subtotal plus shipping, without any discount granted earlier.
     */
    method UpdateQuantity(productId: int, newQuantity: int)
      requires Valid()
      modifies this
      ensures Valid()
      ensures newQuantity <= 0 ==> unchanged(this)
      ensures newQuantity > 0 ==>
                cart == SetQuantity(old(cart), productId, newQuantity)
                && total == Shown(Subtotal(cart) + SHIPPING)
      ensures loading == old(loading) && discountCode == old(discountCode)
      ensures discountApplied == old(discountApplied) && discountAmount == old(discountAmount)
    {
      if newQuantity <= 0 {
        return;
      }
      cart := SetQuantity(cart, productId, newQuantity);
      total := Shown(Subtotal(cart) + SHIPPING);
    }

    /**
     * A quantity button that keeps a granted discount: the total is
     * recomputed as checkout will charge it, so the shown total and the
     * charge stay equal.
     */
    method UpdateQuantityKeepingDiscount(productId: int, newQuantity: int)
      requires Valid()
      modifies this
      ensures Valid()
      ensures newQuantity > 0 || old(ShowsCharge()) ==> ShowsCharge()
      ensures newQuantity <= 0 ==> unchanged(this)
      ensures newQuantity > 0 ==>
                cart == SetQuantity(old(cart), productId, newQuantity)
                && total == Shown(DiscountedTotal(Subtotal(cart), discountAmount))
      ensures loading == old(loading) && discountCode == old(discountCode)
      ensures discountApplied == old(discountApplied) && discountAmount == old(discountAmount)
    {
      if newQuantity <= 0 {
        return;
      }
      cart := SetQuantity(cart, productId, newQuantity);
      var subtotal := Subtotal(cart);
      var taken := DiscountTaken(subtotal, discountAmount);
      total := Shown((subtotal - taken) + SHIPPING);
    }

    /** Typing in the discount-code box. */
    method EnterDiscountCode(code: string)
      requires Valid()
      modifies this
      ensures Valid()
      ensures discountCode == code
      ensures cart == old(cart) && total == old(total) && loading == old(loading)
      ensures discountApplied == old(discountApplied) && discountAmount == old(discountAmount)
      ensures old(ShowsCharge()) ==> ShowsCharge()
    {
      discountCode := code;
    }

    /**
     * Applying a discount: with no code typed, or when the server refuses,
     * nothing changes; otherwise the granted figure is recorded and the total
     * becomes the discounted subtotal plus the undiscounted shipping.
     */
    method ApplyDiscount(reply: DiscountReply)
      requires Valid()
      modifies this
      ensures Valid()
      ensures discountCode == "" || reply.Refused? ==> unchanged(this)
      ensures discountCode != "" && reply.Granted? ==>
                && discountApplied && discountAmount == reply.descuento
                && total == Shown(Subtotal(cart) - Subtotal(cart) * (reply.descuento / 100.0) + SHIPPING)
      ensures cart == old(cart) && loading == old(loading) && discountCode == old(discountCode)
      ensures discountCode != "" && reply.Granted? ==> ShowsCharge()
      ensures old(ShowsCharge()) ==> ShowsCharge()
    {
      if discountCode == "" {
        return;
      }
      match reply
      case Refused(_) =>
        return;
      case Granted(d) =>
        discountApplied := true;
        discountAmount := d;
        var subtotal := Subtotal(cart);
        var taken := subtotal * (d / 100.0);
        total := Shown((subtotal - taken) + SHIPPING);
    }

    /**
     * Checkout: an empty cart sends nothing; a missing total or e-mail sends
     * nothing; otherwise the request lists one entry per row in cart order,
     * then a negative discount entry exactly when the discount taken is
     * positive, then the shipping entry last. When the discount taken is not
     * negative the entries add up to the discounted subtotal plus shipping.
     */
    method Checkout() returns (outcome: CheckoutOutcome)
      ensures outcome == EmptyCart <==> |cart| == 0
      ensures outcome == MissingData <==> |cart| > 0 && (total.Unset? || !SignedIn(userEmail))
      ensures Valid() && |cart| > 0 && SignedIn(userEmail) ==> outcome.PaymentRequest?
      ensures outcome.PaymentRequest? ==>
                var items, taken := outcome.items, DiscountTaken(Subtotal(cart), discountAmount);
                && outcome.payerEmail == userEmail.value
                && |items| == |cart| + (if taken > 0.0 then 2 else 1)
                && (forall i :: 0 <= i < |cart| ==> items[i] == LineItem(cart[i]))
                && (taken > 0.0 ==> items[|cart|] == DiscountItem(taken))
                && items[|items| - 1] == SHIPPING_ITEM
                && (taken >= 0.0 ==> ItemsSum(items) == DiscountedTotal(Subtotal(cart), discountAmount))
                && (taken < 0.0 ==> ItemsSum(items) == Subtotal(cart) + SHIPPING)
      ensures ShowsCharge() && outcome.PaymentRequest? && DiscountTaken(Subtotal(cart), discountAmount) >= 0.0 ==>
                ItemsSum(outcome.items) == total.amount
    {
      if |cart| == 0 {
        return EmptyCart;
      }
      if total.Unset? || !SignedIn(userEmail) {
        return MissingData;
      }
      var subtotal := Subtotal(cart);
      var taken := DiscountTaken(subtotal, discountAmount);
      var items := LineItems(cart);
      PaymentItemsSum(cart, taken);
      if taken > 0.0 {
        items := items + [DiscountItem(taken)];
      }
      items := items + [SHIPPING_ITEM];
      assert DiscountedTotal(subtotal, discountAmount) == subtotal - taken + SHIPPING;
      outcome := PaymentRequest(items, userEmail.value);
    }
  }

  // -------------------------------- a granted discount and a quantity change

  /** A figure at 100 for the scenarios below. */
  const FIGURE: Product := Product(1, "Funko Pop", 100.0, "")

  /**
   * As written: a discount of 10 is granted on one figure, then its quantity is
   * set to 2. The page shows 200 + 50 = 250, while checkout charges
   * 200 - 20 + 50 = 230.
   */
  method DiscountDroppedOnQuantityChange() returns (shown: real, charged: real)
    ensures shown == 250.0 && charged == 230.0
  {
    var page := new Cart(Some("cliente@funko.com"));
    page.FetchCart(Products([FIGURE]));
    page.EnterDiscountCode("FUNKO10");
    page.ApplyDiscount(Granted(10.0));
    page.UpdateQuantity(FIGURE.idProducto, 2);
    assert page.cart == [CartItem(FIGURE, 2)];
    assert Subtotal(page.cart) == 200.0;
    var outcome := page.Checkout();
    shown := page.total.amount;
    charged := ItemsSum(outcome.items);
  }

  /** Corrected: the same steps with the discount kept show the 230 that checkout charges. */
  method DiscountKeptOnQuantityChange() returns (shown: real, charged: real)
    ensures shown == 230.0 && charged == 230.0
  {
    var page := new Cart(Some("cliente@funko.com"));
    page.FetchCart(Products([FIGURE]));
    page.EnterDiscountCode("FUNKO10");
    page.ApplyDiscount(Granted(10.0));
    page.UpdateQuantityKeepingDiscount(FIGURE.idProducto, 2);
    assert page.cart == [CartItem(FIGURE, 2)];
    assert Subtotal(page.cart) == 200.0;
    var outcome := page.Checkout();
    shown := page.total.amount;
    charged := ItemsSum(outcome.items);
  }

  /** A second figure at 100. */
  const SECOND_FIGURE: Product := Product(2, "Funko Pop Especial", 100.0, "")

  /**
   * As written: with two figures in the cart a discount of 10 is granted, then
   * one figure is removed and the cart reloaded. The page shows 100 + 50 = 150,
   * while checkout charges 100 - 10 + 50 = 140.
   */
  method DiscountDroppedOnReload() returns (shown: real, charged: real)
    ensures shown == 150.0 && charged == 140.0
  {
    var page := new Cart(Some("cliente@funko.com"));
    page.FetchCart(Products([FIGURE, SECOND_FIGURE]));
    page.EnterDiscountCode("FUNKO10");
    page.ApplyDiscount(Granted(10.0));
    page.FetchCart(Products([FIGURE]));
    assert page.cart == [CartItem(FIGURE, 1)];
    assert Subtotal(page.cart) == 100.0;
    var outcome := page.Checkout();
    shown := page.total.amount;
    charged := ItemsSum(outcome.items);
  }

  /** Corrected: the same steps with the discount kept on reload show the 140 that checkout charges. */
  method DiscountKeptOnReload() returns (shown: real, charged: real)
    ensures shown == 140.0 && charged == 140.0
  {
    var page := new Cart(Some("cliente@funko.com"));
    page.FetchCartKeepingDiscount(Products([FIGURE, SECOND_FIGURE]));
    page.EnterDiscountCode("FUNKO10");
    page.ApplyDiscount(Granted(10.0));
    page.FetchCartKeepingDiscount(Products([FIGURE]));
    assert page.cart == [CartItem(FIGURE, 1)];
    assert Subtotal(page.cart) == 100.0;
    var outcome := page.Checkout();
    shown := page.total.amount;
    charged := ItemsSum(outcome.items);
  }
}
