/**
 * The `clean` hooks of the admin forms: each reads values out of the form's
 * cleaned data by key, runs an if/elif chain in which the first failing check
 * raises, and otherwise hands the cleaned data back untouched.
 *
 * Cleaned data is a dictionary from field name to the value Django produced for
 * that field; a lookup of a key that is not there yields nothing, which the
 * checks treat as "skip". Dates are day numbers, decimals are exact reals.
 */
module Forms {
  import opened Common
  import Models

  /** The value a form field cleans to. */
  datatype Value =
    | DateValue(day: Day)
    | DecimalValue(amount: real)
    | IntValue(n: int)
    | TextValue(text: string)
    | ChoiceValue(id: int)

  type CleanedData = map<string, Value>

  /** The date under `key`, if there is one. */
  function GetDate(data: CleanedData, key: string): Option<Day> {
    if key in data && data[key].DateValue? then Some(data[key].day) else None
  }

  /** The decimal under `key`, if there is one. */
  function GetDecimal(data: CleanedData, key: string): Option<real> {
    if key in data && data[key].DecimalValue? then Some(data[key].amount) else None
  }

  /** The integer under `key`, if there is one. */
  function GetInt(data: CleanedData, key: string): Option<int> {
    if key in data && data[key].IntValue? then Some(data[key].n) else None
  }

  /** The fields each form declares; cleaned data holds at most these keys. */
  const DESCUENTO_FIELDS: set<string> := {"codigoDescuento", "fechaInicio", "fechaFin", "porcentaje"}
  const INGRESO_STOCK_FIELDS: set<string> := {"cantidadIngresa", "idProducto"}

  datatype FormError =
    | StartAfterEnd
    | StartBeforeToday
    | EndBeforeToday
    | PercentageOutOfRange
    | NegativeStock
    | IntakeBelowOne

  /** The text each form error is raised with. */
  function Message(e: FormError): string {
    match e
    case StartAfterEnd => "La fecha de inicio no puede ser mayor que la fecha de fin."
    case StartBeforeToday => "La fecha de inicio no puede ser menor a la fecha actual."
    case EndBeforeToday => "La fecha de fin no puede ser menor a la fecha actual."
    case PercentageOutOfRange => "El porcentaje debe estar entre 0 y 1."
    case NegativeStock => "La cantidad disponible debe ser mayor o igual a 0."
    case IntakeBelowOne => "Para ingresar stock, la cantidad debe ser igual o mayor a 1."
  }

  /** Each error has a text of its own, so the text raised identifies the check that failed. */
  lemma MessagesIdentifyErrors(e1: FormError, e2: FormError)
    ensures e1 != e2 ==> Message(e1) != Message(e2)
  {
    if e1 != e2 {
      var n1, n2 := MessageLength(e1), MessageLength(e2);
      assert n1 != n2;
    }
  }

  /** The lengths of the texts, all different. */
  function MessageLength(e: FormError): (n: nat)
    ensures n == |Message(e)|
  {
    match e
    case StartAfterEnd => 58
    case StartBeforeToday => 56
    case EndBeforeToday => 53
    case PercentageOutOfRange => 37
    case NegativeStock => 50
    case IntakeBelowOne => 60
  }

  // ------------------------------------------------- shared validation steps

  /**
   * The validity-window check: it runs only when both dates are present, and
   * then rejects, in this order, a start after the end, a start before today
   * and an end before today. The third branch can never be taken: a start that
   * is neither after the end nor before today puts the end on or after today.
   */
  function CheckWindow(start: Option<Day>, end: Option<Day>, today: Day): (r: Outcome<FormError>)
    ensures r == Pass <==> (start.Some? && end.Some? ==> today <= start.value <= end.value)
    ensures start.Some? && end.Some? && start.value > end.value ==> r == Fail(StartAfterEnd)
    ensures r == Fail(StartBeforeToday) <==>
              start.Some? && end.Some? && start.value <= end.value && start.value < today
    ensures r != Fail(EndBeforeToday)
  {
    if start.Some? && end.Some? then
      if start.value > end.value then Fail(StartAfterEnd)
      else if start.value < today then Fail(StartBeforeToday)
      else if end.value < today then Fail(EndBeforeToday)
      else Pass
    else Pass
  }

  /** The percentage check: it runs only when a percentage is present and keeps it within [0, 1]. */
  function CheckPercentage(pct: Option<real>): (r: Outcome<FormError>)
    ensures r == Pass <==> (pct.Some? ==> 0.0 <= pct.value <= 1.0)
    ensures r != Pass ==> r == Fail(PercentageOutOfRange)
  {
    if pct.Some? && (pct.value < 0.0 || pct.value > 1.0) then Fail(PercentageOutOfRange) else Pass
  }

  /** The window check on the dates under the two keys, then the percentage check. */
  function CleanWindowAndPercentage(data: CleanedData, startKey: string, endKey: string, today: Day)
    : (r: Result<CleanedData, FormError>)
    ensures r.Ok? ==> r.value == data
    ensures r.Ok? <==>
              CheckWindow(GetDate(data, startKey), GetDate(data, endKey), today) == Pass
              && CheckPercentage(GetDecimal(data, "porcentaje")) == Pass
    ensures CheckWindow(GetDate(data, startKey), GetDate(data, endKey), today).Fail? ==>
              r == Err(CheckWindow(GetDate(data, startKey), GetDate(data, endKey), today).error)
    ensures CheckWindow(GetDate(data, startKey), GetDate(data, endKey), today) == Pass && r.Err? ==>
              r.error == PercentageOutOfRange
  {
    var window := CheckWindow(GetDate(data, startKey), GetDate(data, endKey), today);
    if window.Fail? then Err(window.error)
    else
      var pct := CheckPercentage(GetDecimal(data, "porcentaje"));
      if pct.Fail? then Err(pct.error) else Ok(data)
  }

  // ------------------------------------------------------ promocionForm.clean

  /**
   * Validation of a promotion. A start after the end is reported before any
   * other problem; data that passes with both dates present has
   * today <= start <= end; a percentage is checked only after the dates pass.
   */
  function PromocionFormClean(data: CleanedData, today: Day): (r: Result<CleanedData, FormError>)
    ensures r.Ok? ==> r.value == data
    ensures r != Err(EndBeforeToday)
    ensures GetDate(data, "fecha_inicio").Some? && GetDate(data, "fecha_fin").Some?
            && GetDate(data, "fecha_inicio").value > GetDate(data, "fecha_fin").value
            ==> r == Err(StartAfterEnd)
    ensures r.Ok? && GetDate(data, "fecha_inicio").Some? && GetDate(data, "fecha_fin").Some? ==>
              today <= GetDate(data, "fecha_inicio").value <= GetDate(data, "fecha_fin").value
    ensures r.Ok? && GetDecimal(data, "porcentaje").Some? ==>
              0.0 <= GetDecimal(data, "porcentaje").value <= 1.0
    ensures GetDate(data, "fecha_inicio").None? || GetDate(data, "fecha_fin").None? ==>
              (r.Err? <==> CheckPercentage(GetDecimal(data, "porcentaje")).Fail?)
    ensures CheckWindow(GetDate(data, "fecha_inicio"), GetDate(data, "fecha_fin"), today) == Pass && r.Err? ==>
              r.error == PercentageOutOfRange
  {
    CleanWindowAndPercentage(data, "fecha_inicio", "fecha_fin", today)
  }

  /** A percentage is refused exactly outside [0, 1]; the bounds 0 and 1 themselves pass. */
  lemma PercentageBoundaries(data: CleanedData, today: Day, p: real)
    requires GetDate(data, "fecha_inicio").None?
    ensures PromocionFormClean(data["porcentaje" := DecimalValue(p)], today).Err?
            <==> p < 0.0 || p > 1.0
    ensures PromocionFormClean(data["porcentaje" := DecimalValue(0.0)], today).Ok?
    ensures PromocionFormClean(data["porcentaje" := DecimalValue(1.0)], today).Ok?
  {
    var d0, d1, dp := data["porcentaje" := DecimalValue(0.0)], data["porcentaje" := DecimalValue(1.0)],
                      data["porcentaje" := DecimalValue(p)];
    assert GetDate(d0, "fecha_inicio").None? && GetDate(d1, "fecha_inicio").None?;
    assert GetDate(dp, "fecha_inicio").None?;
  }

  /** A date error wins over a percentage error: the percentage is never looked at. */
  lemma DateErrorTakesPrecedence(data: CleanedData, today: Day, p: real)
    requires CheckWindow(GetDate(data, "fecha_inicio"), GetDate(data, "fecha_fin"), today).Fail?
    ensures PromocionFormClean(data["porcentaje" := DecimalValue(p)], today)
            == PromocionFormClean(data, today)
  {
    var dp := data["porcentaje" := DecimalValue(p)];
    assert GetDate(dp, "fecha_inicio") == GetDate(data, "fecha_inicio");
    assert GetDate(dp, "fecha_fin") == GetDate(data, "fecha_fin");
  }

  // ------------------------------------------------------ DescuentoForm.clean

  /**
   * Validation of a discount, as written: it looks the dates up under the
   * promotion's key names, which are not among this form's fields, so on the
   * form's own cleaned data only the percentage check can refuse.
   */
  function DescuentoFormClean(data: CleanedData, today: Day): (r: Result<CleanedData, FormError>)
    ensures r.Ok? ==> r.value == data
    ensures data.Keys <= DESCUENTO_FIELDS ==>
              (r.Err? <==> CheckPercentage(GetDecimal(data, "porcentaje")).Fail?)
    ensures data.Keys <= DESCUENTO_FIELDS && r.Err? ==> r.error == PercentageOutOfRange
  {
    assert "fecha_inicio" !in DESCUENTO_FIELDS;
    CleanWindowAndPercentage(data, "fecha_inicio", "fecha_fin", today)
  }

  /**
   * Validation of a discount as evidently intended: the same chain over the
   * form's own date fields.
   */
  function DescuentoFormCleanIntended(data: CleanedData, today: Day): (r: Result<CleanedData, FormError>)
    ensures r.Ok? ==> r.value == data
    ensures GetDate(data, "fechaInicio").Some? && GetDate(data, "fechaFin").Some?
            && GetDate(data, "fechaInicio").value > GetDate(data, "fechaFin").value
            ==> r == Err(StartAfterEnd)
    ensures r.Ok? && GetDate(data, "fechaInicio").Some? && GetDate(data, "fechaFin").Some? ==>
              today <= GetDate(data, "fechaInicio").value <= GetDate(data, "fechaFin").value
    ensures r.Ok? && GetDecimal(data, "porcentaje").Some? ==>
              0.0 <= GetDecimal(data, "porcentaje").value <= 1.0
  {
    CleanWindowAndPercentage(data, "fechaInicio", "fechaFin", today)
  }

  /** A discount ending before it starts passes the hook as written and fails the intended one. */
  lemma DescuentoWindowUnchecked()
    ensures var data := map["codigoDescuento" := TextValue("PROMO10"), "fechaInicio" := DateValue(10),
                            "fechaFin" := DateValue(5), "porcentaje" := DecimalValue(0.1)];
            && DescuentoFormClean(data, 0) == Ok(data)
            && DescuentoFormCleanIntended(data, 0) == Err(StartAfterEnd)
  {
    var data := map["codigoDescuento" := TextValue("PROMO10"), "fechaInicio" := DateValue(10),
                    "fechaFin" := DateValue(5), "porcentaje" := DecimalValue(0.1)];
    assert data.Keys <= DESCUENTO_FIELDS;
    assert GetDate(data, "fechaInicio") == Some(10) && GetDate(data, "fechaFin") == Some(5);
    assert GetDecimal(data, "porcentaje") == Some(0.1);
  }

  /** The form's percentage check and the model's range validators accept the same values. */
  lemma PercentageCheckMatchesModel(p: real)
    ensures CheckPercentage(Some(p)) == Pass <==> Models.Passes(Models.PERCENTAGE, p)
  {
    Models.PercentageIsUnitInterval(p);
  }

  // -------------------------------------------------------- productoForm.clean

  /** Validation of a product: a stock count, when present, must not be negative. */
  function ProductoFormClean(data: CleanedData): (r: Result<CleanedData, FormError>)
    ensures r.Ok? ==> r.value == data
    ensures r.Err? <==> GetInt(data, "cantidadDisp").Some? && GetInt(data, "cantidadDisp").value < 0
    ensures r.Err? ==> r.error == NegativeStock
  {
    var stock := GetInt(data, "cantidadDisp");
    if stock.Some? && stock.value < 0 then Err(NegativeStock) else Ok(data)
  }

  /** The form's stock check and the model's validator on the same field accept the same counts. */
  lemma StockCheckMatchesModel(data: CleanedData, n: int)
    requires GetInt(data, "cantidadDisp") == Some(n)
    ensures ProductoFormClean(data).Ok? <==> Models.Passes(Models.NON_NEGATIVE, n as real)
  {
    Models.NonNegativeIsZeroOrMore(n as real);
  }

  // ----------------------------------------------------- IngresoStockForm.clean

  /**
   * Validation of a stock intake, as written: it looks the quantity up under a
   * key the form does not declare, so on the form's own cleaned data it never
   * refuses.
   */
  function IngresoStockFormClean(data: CleanedData): (r: Result<CleanedData, FormError>)
    ensures r.Ok? ==> r.value == data
    ensures r.Err? <==> GetInt(data, "cantidad").Some? && GetInt(data, "cantidad").value < 1
    ensures data.Keys <= INGRESO_STOCK_FIELDS ==> r == Ok(data)
  {
    var qty := GetInt(data, "cantidad");
    if qty.Some? && qty.value < 1 then Err(IntakeBelowOne) else Ok(data)
  }

  /** Validation of a stock intake as evidently intended: the declared quantity field must be at least 1. */
  function IngresoStockFormCleanIntended(data: CleanedData): (r: Result<CleanedData, FormError>)
    ensures r.Ok? ==> r.value == data
    ensures r.Err? ==> r.error == IntakeBelowOne
    ensures forall n :: GetInt(data, "cantidadIngresa") == Some(n) ==>
              (r.Ok? <==> Models.Passes(Models.AT_LEAST_ONE, n as real))
  {
    match GetInt(data, "cantidadIngresa")
    case None => Ok(data)
    case Some(n) =>
      Models.AtLeastOneIsOneOrMore(n as real);
      if n < 1 then Err(IntakeBelowOne) else Ok(data)
  }

  /**
   * An intake of zero units passes the hook as written; the model's own
   * minimum-1 validator, run when the form validates the instance, refuses it.
   */
  lemma IngresoStockAcceptsZero()
    ensures var data := map["cantidadIngresa" := IntValue(0), "idProducto" := ChoiceValue(1)];
            && IngresoStockFormClean(data) == Ok(data)
            && !Models.ValidIngresoStock(Models.IngresoStock(1, 0, 1))
            && IngresoStockFormCleanIntended(data) == Err(IntakeBelowOne)
  {
    var data := map["cantidadIngresa" := IntValue(0), "idProducto" := ChoiceValue(1)];
    assert data.Keys <= INGRESO_STOCK_FIELDS;
    assert GetInt(data, "cantidadIngresa") == Some(0);
    Models.IngresoStockBounds(Models.IngresoStock(1, 0, 1));
  }
}
