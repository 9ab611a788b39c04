/**
 * The Django entities of the store, each as a record with the numeric validators
 * its fields declare, the one model-level `clean` (on a product request) and the
 * database uniqueness of discount codes.
 *
 * Foreign keys are kept as the referenced row's id; text fields as strings.
 */
module Models {
  import opened Common

  /** A numeric field validator, as listed in a field's `validators` argument. */
  datatype Validator = MinValue(limit: real) | MaxValue(limit: real)

  /** A minimum rejects values below it; a maximum rejects values above it. */
  predicate Accepts(v: Validator, x: real) {
    match v
    case MinValue(limit) => limit <= x
    case MaxValue(limit) => x <= limit
  }

  /**
   * The validators of a field that reject `x`, in declaration order: every
   * validator runs and each failure is reported, so the field is valid exactly
   * when this list is empty.
   */
  function Rejecting(vs: seq<Validator>, x: real): (r: seq<Validator>)
    ensures |r| <= |vs|
    ensures forall v :: v in r ==> v in vs && !Accepts(v, x)
    ensures forall v :: v in vs && !Accepts(v, x) ==> v in r
    ensures r == [] <==> forall i :: 0 <= i < |vs| ==> Accepts(vs[i], x)
  {
    if vs == [] then []
    else (if Accepts(vs[0], x) then [] else [vs[0]]) + Rejecting(vs[1..], x)
  }

  predicate Passes(vs: seq<Validator>, x: real) {
    Rejecting(vs, x) == []
  }

  /** The validator lists the model declares. */
  const PERCENTAGE: seq<Validator> := [MinValue(0.0), MaxValue(1.0)]
  const NON_NEGATIVE: seq<Validator> := [MinValue(0.0)]
  const AT_LEAST_ONE: seq<Validator> := [MinValue(1.0)]
  const RATING: seq<Validator> := [MinValue(1.0), MaxValue(5.0)]

  lemma PercentageIsUnitInterval(x: real)
    ensures Passes(PERCENTAGE, x) <==> 0.0 <= x <= 1.0
  {
    assert PERCENTAGE[0] == MinValue(0.0) && PERCENTAGE[1] == MaxValue(1.0);
  }

  lemma NonNegativeIsZeroOrMore(x: real)
    ensures Passes(NON_NEGATIVE, x) <==> 0.0 <= x
  {
    assert MinValue(0.0) in NON_NEGATIVE;
  }

  lemma AtLeastOneIsOneOrMore(x: real)
    ensures Passes(AT_LEAST_ONE, x) <==> 1.0 <= x
  {
    assert MinValue(1.0) in AT_LEAST_ONE;
  }

  lemma RatingIsOneToFive(x: real)
    ensures Passes(RATING, x) <==> 1.0 <= x <= 5.0
  {
    assert RATING[0] == MinValue(1.0) && RATING[1] == MaxValue(5.0);
  }

  // ---------------------------------------------------------------- entities

  datatype Carrito = Carrito(idCarrito: int, total: real, idUsuario: int)

  predicate ValidCarrito(c: Carrito) {
    Passes(NON_NEGATIVE, c.total)
  }

  datatype Descuento = Descuento(
    idDescuento: int, codigoDescuento: string, fechaInicio: Day, fechaFin: Day, porcentaje: real)

  predicate ValidDescuento(d: Descuento) {
    Passes(PERCENTAGE, d.porcentaje)
  }

  datatype Producto = Producto(
    idProducto: int, nombre: string, numero: int, nombreEdicion: Option<string>,
    esEspecial: bool, descripcion: string, brilla: bool, precio: real,
    cantidadDisp: int, URLImagen: string, idColeccion: int)

  predicate ValidProducto(p: Producto) {
    && Passes(AT_LEAST_ONE, p.numero as real)
    && Passes(NON_NEGATIVE, p.precio)
    && Passes(NON_NEGATIVE, p.cantidadDisp as real)
  }

  /**
   * Field names follow the source: a promotion's dates are `fecha_inicio` and
   * `fecha_fin`, unlike a discount's `fechaInicio` and `fechaFin`.
   */
  datatype Promocion = Promocion(
    id_promocion: int, porcentaje: real, fecha_inicio: Day, fecha_fin: Day, id_producto: int)

  predicate ValidPromocion(p: Promocion) {
    Passes(PERCENTAGE, p.porcentaje)
  }

  datatype IngresoStock = IngresoStock(idStock: int, cantidadIngresa: int, idProducto: int)

  predicate ValidIngresoStock(s: IngresoStock) {
    Passes(AT_LEAST_ONE, s.cantidadIngresa as real)
  }

  /**
   * A product request. Its date is declared required, but an instance built by
   * a form that does not include the date reaches `clean` without one.
   */
  datatype PeticionProducto = PeticionProducto(
    id_peticion: int, peticion: string, correo: string, telefono: string,
    fechapedido: Option<Day>, id_Usuario: int)

  datatype ResenaComentario = ResenaComentario(
    idResenaComentario: int, resena: int, comentario: string, idUsuario: int, idProducto: int)

  predicate ValidResena(r: ResenaComentario) {
    Passes(RATING, r.resena as real)
  }

  datatype Factura = Factura(
    id_factura: int, pago_total: real, forma_pago: string, fecha_venta: Day, id_Usuario: int)

  predicate ValidFactura(f: Factura) {
    Passes(NON_NEGATIVE, f.pago_total)
  }

  datatype LineaFactura = LineaFactura(idLineaFactura: int, cantidad: int, idProducto: int, idFactura: int)

  predicate ValidLineaFactura(l: LineaFactura) {
    Passes(AT_LEAST_ONE, l.cantidad as real)
  }

  datatype ProductoCarrito = ProductoCarrito(
    id_producto_carrito: int, cantidad: int, precio: real, id_producto: int, id_carrito: int)

  predicate ValidProductoCarrito(l: ProductoCarrito) {
    Passes(AT_LEAST_ONE, l.cantidad as real) && Passes(NON_NEGATIVE, l.precio)
  }

  // ---------------------------------------------- field bounds, in closed form

  lemma CarritoBounds(c: Carrito)
    ensures ValidCarrito(c) <==> c.total >= 0.0
  {
    NonNegativeIsZeroOrMore(c.total);
  }

  lemma DescuentoBounds(d: Descuento)
    ensures ValidDescuento(d) <==> 0.0 <= d.porcentaje <= 1.0
  {
    PercentageIsUnitInterval(d.porcentaje);
  }

  lemma ProductoBounds(p: Producto)
    ensures ValidProducto(p) <==> p.numero >= 1 && p.precio >= 0.0 && p.cantidadDisp >= 0
  {
    AtLeastOneIsOneOrMore(p.numero as real);
    NonNegativeIsZeroOrMore(p.precio);
    NonNegativeIsZeroOrMore(p.cantidadDisp as real);
  }

  lemma PromocionBounds(p: Promocion)
    ensures ValidPromocion(p) <==> 0.0 <= p.porcentaje <= 1.0
  {
    PercentageIsUnitInterval(p.porcentaje);
  }

  lemma IngresoStockBounds(s: IngresoStock)
    ensures ValidIngresoStock(s) <==> s.cantidadIngresa >= 1
  {
    AtLeastOneIsOneOrMore(s.cantidadIngresa as real);
  }

  lemma ResenaBounds(r: ResenaComentario)
    ensures ValidResena(r) <==> 1 <= r.resena <= 5
  {
    RatingIsOneToFive(r.resena as real);
  }

  lemma FacturaBounds(f: Factura)
    ensures ValidFactura(f) <==> f.pago_total >= 0.0
  {
    NonNegativeIsZeroOrMore(f.pago_total);
  }

  lemma LineaFacturaBounds(l: LineaFactura)
    ensures ValidLineaFactura(l) <==> l.cantidad >= 1
  {
    AtLeastOneIsOneOrMore(l.cantidad as real);
  }

  lemma ProductoCarritoBounds(l: ProductoCarrito)
    ensures ValidProductoCarrito(l) <==> l.cantidad >= 1 && l.precio >= 0.0
  {
    AtLeastOneIsOneOrMore(l.cantidad as real);
    NonNegativeIsZeroOrMore(l.precio);
  }

  // ------------------------------------------------ PeticionProducto.clean

  const ORDER_DATE_MESSAGE: string := "La fecha del pedido debe ser posterior a la fecha actual."

  /**
   * How a model `clean` ends badly: a validation error with its text, or an
   * exception other than a validation error, which Django does not catch.
   */
  datatype CleanError = Invalid(message: string) | TypeErrorRaised

  /**
   * The model-level check on a product request: its date must lie strictly
   * after today. A missing date is compared with today all the same, which
   * raises a type error instead of a validation error.
   */
  function PeticionProductoClean(p: PeticionProducto, today: Day): (r: Outcome<CleanError>)
    ensures r == Fail(TypeErrorRaised) <==> p.fechapedido.None?
    ensures p.fechapedido.Some? ==> (r == Pass <==> p.fechapedido.value > today)
    ensures p.fechapedido.Some? && r != Pass ==> r == Fail(Invalid(ORDER_DATE_MESSAGE))
  {
    match p.fechapedido
    case None => Fail(TypeErrorRaised)
    case Some(day) => if day <= today then Fail(Invalid(ORDER_DATE_MESSAGE)) else Pass
  }

  // ------------------------------------- unique discount codes (database side)

  /** No two stored discounts share a code. */
  predicate DistinctCodes(table: seq<Descuento>) {
    forall i, j :: 0 <= i < j < |table| ==> table[i].codigoDescuento != table[j].codigoDescuento
  }

  predicate CodeTaken(table: seq<Descuento>, code: string) {
    exists i :: 0 <= i < |table| && table[i].codigoDescuento == code
  }

  datatype DbError = DuplicateCode

  /**
   * Storing a discount: the unique index on the code refuses a second row with
   * the same code; nothing else is checked on save (the range validators run
   * only when a form or `full_clean` validates the record).
   */
  function InsertDescuento(table: seq<Descuento>, d: Descuento): (r: Result<seq<Descuento>, DbError>)
    ensures r.Err? <==> CodeTaken(table, d.codigoDescuento)
    ensures r.Ok? ==> r.value == table + [d]
    ensures DistinctCodes(table) && r.Ok? ==> DistinctCodes(r.value)
  {
    if CodeTaken(table, d.codigoDescuento) then Err(DuplicateCode) else Ok(table + [d])
  }

  /** Any sequence of inserts into a table whose codes are distinct keeps them distinct. */
  lemma {:induction false} InsertsKeepCodesDistinct(table: seq<Descuento>, ds: seq<Descuento>)
    requires DistinctCodes(table)
    ensures DistinctCodes(InsertAll(table, ds))
    decreases ds
  {
    if ds != [] {
      var r := InsertDescuento(table, ds[0]);
      var next := if r.Ok? then r.value else table;
      InsertsKeepCodesDistinct(next, ds[1..]);
    }
  }

  /** The table after trying to insert each discount in turn; refused inserts leave it as it was. */
  function InsertAll(table: seq<Descuento>, ds: seq<Descuento>): seq<Descuento>
    decreases ds
  {
    if ds == [] then table
    else
      var r := InsertDescuento(table, ds[0]);
      InsertAll(if r.Ok? then r.value else table, ds[1..])
  }
}
