# Funko Import: validation rules and cart pricing, in Dafny

This project models the parts of the Funko Import store that have behaviour
you can state exactly:

- **Entity invariants** (`funko_import/models.py`). Each entity is a record with a
  `Valid…` predicate. The predicate runs the field's declared `MinValueValidator` /
  `MaxValueValidator` list, written as data (`Models.PERCENTAGE`,
  `Models.NON_NEGATIVE`, `Models.AT_LEAST_ONE`, `Models.RATING`). Lemmas restate each
  entity's validity as plain bounds. `PeticionProducto.clean` is a checking function.
  The unique index on `Descuento.codigoDescuento` is an insert that refuses a
  duplicate code, and inserts are proved to keep codes distinct.
- **Form `clean` hooks** (`funko_import/forms.py`). `cleaned_data` is a map from field
  name to value, and each hook is a function of that map, plus `today` for the
  two hooks that compare dates. The date
  window check and the percentage check are shared by the discount and promotion
  forms. Both are chains in which the first failing check raises. They are
  modelled as written, including two hooks that read keys their forms do not
  declare (see Findings).
- **Cart page pricing** (`frontend/src/pages/user/Cart.jsx`). The React component is a
  class `CartPage.Cart` with fields for its state (`cart`, `total`, `discountCode`,
  `discountApplied`, `discountAmount`, `loading`). Its methods model the handlers.
  Pure functions model the `reduce`/`map` expressions. The invariant `Valid()`
  says four things:
  - every quantity is at least 1;
  - the total is unset only while the cart is empty;
  - no discount figure is held before one is granted;
  - a shown total is either the undiscounted total or the discounted one.

  A second predicate, `ShowsCharge()`, says the shown total is the subtotal
  less the discount held, plus shipping. That is exactly what checkout charges
  when the discount taken is not negative; a negative figure adds no entry at
  checkout (Cart.jsx:218). The page as written does not keep `ShowsCharge()`
  (see Findings). Entity fields keep the source's names, so a promotion has
  `fecha_inicio`/`fecha_fin` while a discount has `fechaInicio`/`fechaFin`.

  The page divides the discount figure by 100, while the backend keeps
  percentages in [0, 1]. Both are modelled as written and not reconciled.
  `CartPage.BackendFractionTakesAtMostOnePercent` states what follows when a
  backend fraction reaches the page: at most 1% comes off.

Dates are day numbers. Decimal and float amounts are exact reals. The current
date is a `today` parameter. Server replies are parameters of the methods that
receive them.

## Model

| member | source | states |
|---|---|---|
| `Models.CarritoBounds` | funko_import/models.py:34 | a cart record is valid exactly when its total is at least 0 |
| `Models.DescuentoBounds` | funko_import/models.py:49 | a discount is valid exactly when its percentage lies in [0, 1], both ends included |
| `Models.ProductoBounds` | funko_import/models.py:59-65 | a product is valid exactly when its number is at least 1, its price at least 0 and its stock at least 0 |
| `Models.PromocionBounds` | funko_import/models.py:76 | a promotion is valid exactly when its percentage lies in [0, 1], both ends included |
| `Models.IngresoStockBounds` | funko_import/models.py:87 | a stock intake is valid exactly when it adds at least 1 unit |
| `Models.ResenaBounds` | funko_import/models.py:112 | a review is valid exactly when its rating is between 1 and 5 |
| `Models.FacturaBounds` | funko_import/models.py:142 | an invoice is valid exactly when its total paid is at least 0 |
| `Models.LineaFacturaBounds` | funko_import/models.py:152 | an invoice line is valid exactly when its quantity is at least 1 |
| `Models.ProductoCarritoBounds` | funko_import/models.py:170-171 | a cart line is valid exactly when its quantity is at least 1 and its price at least 0 |
| `Models.PeticionProductoClean` | funko_import/models.py:98-106 | with a date present, a product request passes exactly when its date is strictly after today and otherwise fails with the request-date message; without a date the comparison raises a type error instead, exactly then |
| `Models.InsertDescuento` | funko_import/models.py:46 | storing a discount is refused exactly when its code is already in the table; otherwise the row is appended; distinct codes stay distinct |
| `Models.InsertsKeepCodesDistinct` | funko_import/models.py:46 | any sequence of attempted inserts into a table with distinct codes leaves the codes distinct |
| `Forms.MessagesIdentifyErrors` | funko_import/forms.py:95-122 | two different form errors are raised with different texts, so the text identifies the failed check |
| `Forms.CheckWindow` | funko_import/forms.py:93-99 | the window passes exactly when a missing date or today <= start <= end holds; start after end is reported first; start before today exactly when start <= end and start < today; the end-before-today error is never produced |
| `Forms.CheckPercentage` | funko_import/forms.py:101-103 | the percentage passes exactly when it is missing or lies in [0, 1]; a failure is the percentage error |
| `Forms.CleanWindowAndPercentage` | funko_import/forms.py:87-105 | the shared chain succeeds exactly when the window and the percentage both pass, and then returns the data unchanged; any window error is returned as it is, whatever the percentage; once the window passes, the only error is the percentage error |
| `Forms.PromocionFormClean` | funko_import/forms.py:87-105 | start after end gives the start-after-end error; a success with both dates gives today <= start <= end and a percentage in [0, 1]; the end-before-today error never occurs; with a date missing, only the percentage can refuse; once the dates pass, the only error is the percentage error; success returns the data unchanged |
| `Forms.PercentageBoundaries` | funko_import/forms.py:101-103 | with no start date, a promotion is refused exactly when its percentage is below 0 or above 1; 0 and 1 pass |
| `Forms.DateErrorTakesPrecedence` | funko_import/forms.py:93-103 | when the dates fail, changing the percentage does not change the result |
| `Forms.DescuentoFormClean` | funko_import/forms.py:40-57 | on data holding only the discount form's fields, the result is an error exactly when the percentage is out of [0, 1], and that error is the percentage error; success returns the data unchanged |
| `Forms.DescuentoFormCleanIntended` | funko_import/forms.py:40-57 | the same chain over the form's own date fields: start after end is refused; a success with both dates gives today <= start <= end |
| `Forms.DescuentoWindowUnchecked` | funko_import/forms.py:42-47 | a discount from day 10 to day 5 passes the hook as written and is refused by the intended one |
| `Forms.PercentageCheckMatchesModel` | funko_import/forms.py:54-56 | the form's percentage check accepts exactly the values the model's range validators accept |
| `Forms.ProductoFormClean` | funko_import/forms.py:68-76 | the product form fails exactly when a stock count is present and negative, with the stock error; otherwise it returns the data unchanged (so 0 passes) |
| `Forms.StockCheckMatchesModel` | funko_import/forms.py:72-74 | the form's stock check accepts exactly the counts the model's stock validator accepts |
| `Forms.IngresoStockFormClean` | funko_import/forms.py:115-124 | the hook fails exactly when a `cantidad` entry below 1 is present; on data with only the form's declared fields it always returns the data |
| `Forms.IngresoStockFormCleanIntended` | funko_import/forms.py:115-124 | reading the declared quantity field, the hook accepts exactly the quantities the model's at-least-one validator accepts, and fails with the intake error otherwise |
| `Forms.IngresoStockAcceptsZero` | funko_import/forms.py:110-121 | an intake of 0 units passes the hook as written; the model refuses it and the intended hook reports the intake error |
| `CartPage.SubtotalNonNegative` | frontend/src/pages/user/Cart.jsx:66 | with prices and quantities at least 0, the subtotal is at least 0 |
| `CartPage.SubtotalPointChange` | frontend/src/pages/user/Cart.jsx:66 | two carts that differ in one row have subtotals that differ by exactly that row's line totals |
| `CartPage.WithQuantityOne` | frontend/src/pages/user/Cart.jsx:49 | every product loaded becomes a row with quantity 1, same length and order |
| `CartPage.FreshCartSubtotal` | frontend/src/pages/user/Cart.jsx:49-51 | a freshly loaded cart's subtotal equals the sum of its products' prices, added up the other way round |
| `CartPage.SetQuantity` | frontend/src/pages/user/Cart.jsx:117-119 | same length and order; every row keeps its product; rows of other products are unchanged; rows of the product get the new quantity |
| `CartPage.SetQuantityIdempotent` | frontend/src/pages/user/Cart.jsx:117-119 | setting the same quantity twice equals setting it once |
| `CartPage.SetQuantitySubtotal` | frontend/src/pages/user/Cart.jsx:114-123 | when one row holds the product, the new subtotal is the old one with that row's line total replaced |
| `CartPage.IncrementAddsOnePrice` | frontend/src/pages/user/Cart.jsx:312 | the "+" button on a product held by one row raises the subtotal by exactly its price |
| `CartPage.ShippingNeverDiscounted` | frontend/src/pages/user/Cart.jsx:156-158 | for a percentage in [0, 100], the discounted total lies between 50 and the subtotal plus 50; a 100% discount leaves exactly 50, a 0% discount leaves the full total |
| `CartPage.BackendFractionTakesAtMostOnePercent` | frontend/src/pages/user/Cart.jsx:157 | a percentage stored the backend's way, in [0, 1], takes between 0 and one hundredth of the subtotal off on the page |
| `CartPage.ChargedTotalAtLeastShipping` | frontend/src/pages/user/Cart.jsx:204-208 | with prices at least 0, quantities at least 1 and a percentage in [0, 100], the discounted total is at least the 50 shipping charge, so never negative as the cart and invoice totals require |
| `CartPage.LineItems` | frontend/src/pages/user/Cart.jsx:210-215 | one payment entry per cart row, in cart order, carrying its id, name, quantity and price |
| `CartPage.LineItemsSum` | frontend/src/pages/user/Cart.jsx:204-215 | the product entries' quantity times unit price add up to the cart subtotal |
| `CartPage.PaymentItemsSum` | frontend/src/pages/user/Cart.jsx:209-233 | the payment entries add up to the subtotal plus 50, less the discount taken when its entry is present |
| `CartPage.Cart.constructor` | frontend/src/pages/user/Cart.jsx:9-14 | the page starts loading, with an empty cart, an unset total, an empty code and no discount, and satisfies the invariant |
| `CartPage.Cart.FetchCart` | frontend/src/pages/user/Cart.jsx:20-57 | without a session e-mail nothing changes; otherwise loading ends; on a product reply the cart becomes those products with quantity 1 and the total becomes subtotal + 50; the discount state is untouched, so a granted discount is dropped from the shown total; the invariant is kept |
| `CartPage.Cart.FetchCartKeepingDiscount` | frontend/src/pages/user/Cart.jsx:20-57 | corrected reload: as `FetchCart`, but on a product reply the total becomes the subtotal less the discount held, plus 50, so `ShowsCharge()` then holds and, when the discount taken is not negative, the shown total is the amount checkout charges; a reload that changes nothing keeps `ShowsCharge()` |
| `CartPage.Cart.UpdateQuantity` | frontend/src/pages/user/Cart.jsx:114-123 | a quantity at most 0 changes nothing; otherwise the cart is `SetQuantity` of the old one and the total is subtotal + 50, without the discount; the invariant is kept |
| `CartPage.Cart.UpdateQuantityKeepingDiscount` | frontend/src/pages/user/Cart.jsx:114-123 | corrected quantity change: as `UpdateQuantity` and from any valid state, but the total becomes the discounted subtotal plus 50, so after an accepted quantity `ShowsCharge()` holds and, when the discount taken is not negative, the shown total is the amount checkout charges; an ignored quantity keeps `ShowsCharge()` |
| `CartPage.Cart.EnterDiscountCode` | frontend/src/pages/user/Cart.jsx:348 | the code becomes the typed text, nothing else changes |
| `CartPage.Cart.ApplyDiscount` | frontend/src/pages/user/Cart.jsx:125-176 | with no code, or when the server refuses, nothing changes; otherwise the discount is marked applied and the total becomes subtotal - subtotal*d/100 + 50 (shipping undiscounted); the cart is untouched; a grant establishes `ShowsCharge()` (the shown total is the charge when the discount taken is not negative), and nothing breaks it |
| `CartPage.Cart.Checkout` | frontend/src/pages/user/Cart.jsx:179-233 | an empty cart sends nothing; a missing total or e-mail sends nothing, which never happens for a non-empty cart while signed in; otherwise the items are one per row in order, then a negative discount entry exactly when the discount taken is positive, then shipping at 50; their sum is the discounted total when the discount taken is at least 0, and subtotal + 50 when it is negative; so under `ShowsCharge()`, when the discount taken is not negative, the entries add up to the shown total |
| `CartPage.DiscountDroppedOnQuantityChange` | frontend/src/pages/user/Cart.jsx:121-122 | one figure at 100, a discount of 10 granted, then quantity 2: the page shows 250 while checkout charges 230 |
| `CartPage.DiscountKeptOnQuantityChange` | frontend/src/pages/user/Cart.jsx:114-123 | the same steps with the corrected quantity change show 230, which is what checkout charges |
| `CartPage.DiscountDroppedOnReload` | frontend/src/pages/user/Cart.jsx:49-51 | two figures at 100, a discount of 10 granted, then a reload with one figure: the page shows 150 while checkout charges 140 |
| `CartPage.DiscountKeptOnReload` | frontend/src/pages/user/Cart.jsx:20-57 | the same steps with the corrected reload show 140, which is what checkout charges |

## Left out

- Django persistence, foreign-key cascades, `__str__` methods and the REST routes
  in `funko_import/urls.py` are not modelled. They hold no rules, only storage and
  routing.
- The migration `0003_alter_descuento_porcentaje_and_more.py` only repeats the
  percentage validators, which the model already has.
- Field constraints other than the numeric validators and the unique code are not
  modelled: `max_length`, `max_digits`/`decimal_places`, the database's integer
  range, required (non-blank) fields and e-mail format.
- `DescuentoForm.Meta.save` is not modelled. It calls a method the model does not
  define, and it sits inside `Meta`, so Django never calls it. The form module also
  imports a `Venta` model that does not exist and declares a nested `ventaForm`;
  both are left out.
- As given, `funko_import/forms.py` cannot load. Line 2 imports `Venta`, which
  `models.py` does not define, so the import fails. Also, `productoForm.Meta.fields`
  (forms.py:63) names `imagen`, but `Producto` has `URLImagen` (models.py:66), and
  Django's model-form metaclass refuses an unknown field. The four `clean` hooks are
  modelled as if the module loaded.
- Models.PeticionProductoClean: Django's `full_clean` calls the model's `clean`
  even after a field failed. The only form for this model,
  `PeticionProductoForm` (forms.py:126-129), leaves out `fechapedido`. The date is
  therefore optional in the model, and a missing one gives `TypeErrorRaised`. What
  Django then does with that exception is not modelled.
- CartPage.Cart.ApplyDiscount, CartPage.Cart.Valid: each handler runs to the end
  without interruption, and handlers never interleave. In the source,
  `applyDiscount` reads `cart` after its two `await`s (Cart.jsx:136, 147, 156), from
  the render in which the button was clicked. If a quantity changes during the
  request, the total is set from the old cart's subtotal, a state `Valid()` does
  not allow. That stale read is not captured.
- Rules that exist only as comments in `models.py` are not modelled, because no code
  enforces them:
  - at most one discount per cart;
  - unique product numbers within a collection;
  - stock decreases on purchase;
  - reviews only after a purchase.
- Forms.GetDate, Forms.GetDecimal, Forms.GetInt: a value of another kind under a key reads as missing. Django's typed fields make that impossible for declared keys, so comparing mismatched Python types is not modelled.
- Django's own pipeline around a form's `clean` is not modelled: field cleaning, the
  model's `full_clean` and the error dictionary. Each hook is modelled on the
  cleaned data it receives.
- `datetime.now()` and `timezone.now()` become the `today` parameter.
- On the cart page, network requests, alerts, `sessionStorage`, navigation, the
  payment-provider redirect, the disabled checkout button and the JSX rendering
  are left out. A server reply is a method parameter. Checkout returns the
  request body it would send.
- `removeProduct` is not modelled as a method of its own. It is a server call
  followed by `fetchCart` (Cart.jsx:96), which is modelled; that reload drops a
  granted discount from the shown total (see Findings).
- Amounts are exact reals. JavaScript floating-point rounding, `toFixed(2)`
  formatting and `parseFloat` of malformed text (NaN) are not modelled. The
  `total` state is 0 until first computed and a formatted string afterwards, so
  the checkout guard `!total` is modelled as "the total is still unset".
- The page's discount figure is divided by 100, while the backend's percentages
  lie in [0, 1]. The two scales are not reconciled.

## Findings

| source | as written | input that shows it | evidently intended | confidence | as-written member | corrected member |
|---|---|---|---|---|---|---|
| funko_import/forms.py:42-43 | `DescuentoForm.clean` reads dates under `fecha_inicio`/`fecha_fin`, but the form's fields are `fechaInicio`/`fechaFin`, so its date checks never run | a discount from day 10 to day 5 with percentage 0.1 passes | the same date-window checks as the promotion form, on the form's own fields | high (not executed) | `Forms.DescuentoWindowUnchecked` | `Forms.DescuentoFormCleanIntended` |
| funko_import/forms.py:118 | `IngresoStockForm.clean` reads the quantity under `cantidad`, but the form's field is `cantidadIngresa`, so its check never runs | an intake of 0 units passes the hook | refuse an intake below 1, matching the model's validator | high (not executed) | `Forms.IngresoStockAcceptsZero` | `Forms.IngresoStockFormCleanIntended` |
| frontend/src/pages/user/Cart.jsx:121-122 | after a discount is granted, `updateQuantity` recomputes the shown total as subtotal + 50, dropping the discount, while checkout (Cart.jsx:206, 218-224) still takes it off | one figure at 100, discount 10 granted, quantity set to 2: the page shows 250, checkout charges 230 | recompute the total with the granted discount, so the shown total is what is charged | high (not executed) | `CartPage.DiscountDroppedOnQuantityChange` | `CartPage.Cart.UpdateQuantityKeepingDiscount` |
| frontend/src/pages/user/Cart.jsx:49-51 | after a discount is granted, the reload that follows removing a product (Cart.jsx:96) recomputes the shown total as subtotal + 50, dropping the discount, while checkout still takes it off | two figures at 100, discount 10 granted, reload with one figure: the page shows 150, checkout charges 140 | recompute the reloaded total with the granted discount | high (not executed) | `CartPage.DiscountDroppedOnReload` | `CartPage.Cart.FetchCartKeepingDiscount` |

In the first two rows, the as-written hook (`Forms.DescuentoFormClean`,
`Forms.IngresoStockFormClean`) is kept as the model of the source. The corrected
hook stands beside it with its intended property proved. No other member depends
on form cleaning.

In the third and fourth rows, `CartPage.Cart.UpdateQuantity` and
`CartPage.Cart.FetchCart` model the handlers as written.
`CartPage.Cart.UpdateQuantityKeepingDiscount` and
`CartPage.Cart.FetchCartKeepingDiscount` are the corrected handlers. Each
establishes `ShowsCharge()` when it recomputes the total and keeps it otherwise.
`ApplyDiscount` and `EnterDiscountCode` keep it too, so a page that uses the
corrected handlers shows what it charges whenever the discount taken is not
negative. `CartPage.Cart.Checkout` proves that under `ShowsCharge()`, when the
discount taken is not negative, the payment entries add up to the shown total.
