/**
 * The operations of `BCRAConnector` built on `_make_request`: argument
 * validation and query parameters, the entity and variable look-ups, the
 * reported-check test and the latest-quotations table. The result of each
 * request is a parameter, as `_make_request` returns or raises it.
 */
module Connector {
  import opened Results
  import opened Text
  import opened JsonModel
  import opened IsoDate
  import opened Executor
  import C = Cheques
  import E = EstadisticasCambiarias

  /** A query parameter value: the connector sends strings and integers. */
  datatype ParamValue = PStr(s: string) | PInt(i: int)

  type Params = map<string, ParamValue>

  /** What `_make_request` is called with: an endpoint and, possibly, parameters. */
  datatype Request = Request(endpoint: string, params: Option<Params>)

  /** `ValueError` raised by a validator, or a `BCRAApiError`. */
  datatype ConnectorError = Invalid(message: string) | Api(error: ApiError)

  /** `params if params else None`. */
  function NoneIfEmpty(p: Params): (o: Option<Params>)
    ensures o.None? <==> p == map[]
    ensures o.Some? ==> o.value == p
  {
    if p == map[] then None else Some(p)
  }

  /** `str(e)` of the exception a record constructor raised. */
  function FieldErrorText(e: FieldError): string {
    match e
    case KeyMissing(k) => "'" + k + "'"
    case WrongType(k) => "wrong type for '" + k + "'"
    case BadValue(k) => "invalid value for '" + k + "'"
    case NotAnObject => "record is not an object"
  }

  // ---------------------------------------------------------------------
  // get_datos_variable (API v3.0)
  // ---------------------------------------------------------------------

  function AddIfPresent(p: Params, key: string, v: Option<ParamValue>): (q: Params)
    ensures v.None? ==> q == p
    ensures v.Some? ==> q == p[key := v.value]
  {
    if v.Some? then p[key := v.value] else p
  }

  function DateParam(t: Option<DateTime>): (v: Option<ParamValue>)
    requires t.Some? ==> ValidDateTime(t.value)
    ensures v.Some? <==> t.Some?
    ensures v.Some? ==> v.value == PStr(FormatDate(t.value.date))
  {
    if t.Some? then Some(PStr(FormatDate(t.value.date))) else None
  }

  function IntParam(n: Option<int>): (v: Option<ParamValue>)
    ensures v.Some? <==> n.Some?
    ensures v.Some? ==> v.value == PInt(n.value)
  {
    if n.Some? then Some(PInt(n.value)) else None
  }

  /** The query parameters `get_datos_variable` sends: exactly the arguments supplied. */
  function DatosVariableParams(desde: Option<DateTime>, hasta: Option<DateTime>,
                               limit: Option<int>, offset: Option<int>): (p: Params)
    requires desde.Some? ==> ValidDateTime(desde.value)
    requires hasta.Some? ==> ValidDateTime(hasta.value)
    ensures p.Keys <= {"desde", "hasta", "limit", "offset"}
    ensures ("desde" in p <==> desde.Some?) && ("hasta" in p <==> hasta.Some?)
    ensures ("limit" in p <==> limit.Some?) && ("offset" in p <==> offset.Some?)
    ensures desde.Some? ==> p["desde"] == PStr(FormatDate(desde.value.date))
    ensures hasta.Some? ==> p["hasta"] == PStr(FormatDate(hasta.value.date))
    ensures limit.Some? ==> p["limit"] == PInt(limit.value)
    ensures offset.Some? ==> p["offset"] == PInt(offset.value)
  {
    AddIfPresent(AddIfPresent(AddIfPresent(AddIfPresent(map[],
      "desde", DateParam(desde)), "hasta", DateParam(hasta)), "limit", IntParam(limit)), "offset", IntParam(offset))
  }

  /** Whether `desde` is after `hasta`, which `get_datos_variable` refuses. */
  predicate Inverted(desde: Option<DateTime>, hasta: Option<DateTime>) {
    desde.Some? && hasta.Some? && Later(desde.value, hasta.value)
  }

  /**
   * The request `get_datos_variable` makes, or the `ValueError` its
   * validation raises. Datetimes are always valid in Python.
   */
  function DatosVariableRequest(id: int, desde: Option<DateTime>, hasta: Option<DateTime>,
                                limit: Option<int>, offset: Option<int>): (r: Result<Request, ConnectorError>)
    requires desde.Some? ==> ValidDateTime(desde.value)
    requires hasta.Some? ==> ValidDateTime(hasta.value)
    ensures Inverted(desde, hasta) ==> r == Err(Invalid("'desde' date must be earlier than or equal to 'hasta' date"))
    ensures !Inverted(desde, hasta) && limit.Some? && !(10 <= limit.value <= 3000) ==>
              r == Err(Invalid("Limit must be between 10 and 3000"))
    ensures !Inverted(desde, hasta) && (limit.Some? ==> 10 <= limit.value <= 3000) && offset.Some? && offset.value < 0 ==>
              r == Err(Invalid("Offset must be non-negative"))
    ensures r.Ok? <==> !Inverted(desde, hasta) && (limit.Some? ==> 10 <= limit.value <= 3000)
                       && (offset.Some? ==> offset.value >= 0)
    ensures r.Ok? ==> r.value.endpoint == "estadisticas/v3.0/monetarias/" + IntToString(id)
    ensures r.Ok? ==> r.value.params == NoneIfEmpty(DatosVariableParams(desde, hasta, limit, offset))
    ensures r.Ok? ==> (r.value.params.None? <==> desde.None? && hasta.None? && limit.None? && offset.None?)
  {
    if Inverted(desde, hasta) then
      Err(Invalid("'desde' date must be earlier than or equal to 'hasta' date"))
    else if limit.Some? && !(10 <= limit.value <= 3000) then
      Err(Invalid("Limit must be between 10 and 3000"))
    else if offset.Some? && offset.value < 0 then
      Err(Invalid("Offset must be non-negative"))
    else
      var p := DatosVariableParams(desde, hasta, limit, offset);
      assert desde.None? && hasta.None? && limit.None? && offset.None? ==> p == map[];
      Ok(Request("estadisticas/v3.0/monetarias/" + IntToString(id), NoneIfEmpty(p)))
  }

  /** The boundary values of `limit` and `offset` are accepted, and a range may start and end at the same instant. */
  lemma DatosVariableBounds(id: int, t: DateTime)
    requires ValidDateTime(t)
    ensures DatosVariableRequest(id, Some(t), Some(t), Some(10), Some(0)).Ok?
    ensures DatosVariableRequest(id, None, None, Some(3000), None).Ok?
    ensures DatosVariableRequest(id, None, None, Some(9), None) == Err(Invalid("Limit must be between 10 and 3000"))
    ensures DatosVariableRequest(id, None, None, Some(3001), None) == Err(Invalid("Limit must be between 10 and 3000"))
    ensures DatosVariableRequest(id, None, None, None, Some(-1)) == Err(Invalid("Offset must be non-negative"))
    ensures DatosVariableRequest(id, None, None, None, None) == Ok(Request("estadisticas/v3.0/monetarias/" + IntToString(id), None))
  {
  }

  /** The date parameters carry exactly the calendar dates of `desde` and `hasta`. */
  lemma DateParamsParseBack(id: int, desde: DateTime, hasta: DateTime)
    requires ValidDateTime(desde) && ValidDateTime(hasta) && !Later(desde, hasta)
    ensures var r := DatosVariableRequest(id, Some(desde), Some(hasta), None, None);
            r.Ok? && r.value.params.Some?
            && "desde" in r.value.params.value && "hasta" in r.value.params.value
            && ParseDate(r.value.params.value["desde"].s) == Some(desde.date)
            && ParseDate(r.value.params.value["hasta"].s) == Some(hasta.date)
  {
    FormatThenParse(desde.date);
    FormatThenParse(hasta.date);
  }

  // ---------------------------------------------------------------------
  // get_evolucion_moneda
  // ---------------------------------------------------------------------

  /** The request `get_evolucion_moneda` makes; `limit` and `offset` are always sent. */
  function EvolucionMonedaRequest(moneda: string, fechaDesde: Option<string>, fechaHasta: Option<string>,
                                  limit: int, offset: int): (r: Result<Request, ConnectorError>)
    ensures !(10 <= limit <= 1000) ==> r == Err(Invalid("Limit must be between 10 and 1000"))
    ensures 10 <= limit <= 1000 && offset < 0 ==> r == Err(Invalid("Offset must be non-negative"))
    ensures r.Ok? <==> 10 <= limit <= 1000 && offset >= 0
    ensures r.Ok? ==> r.value.endpoint == "estadisticascambiarias/v1.0/Cotizaciones/" + moneda
    ensures r.Ok? ==> r.value.params.Some?
    ensures r.Ok? ==>
              var p := r.value.params.value;
              p.Keys <= {"fechaDesde", "fechaHasta", "limit", "offset"}
              && "limit" in p && "offset" in p && p["limit"] == PInt(limit) && p["offset"] == PInt(offset)
              && ("fechaDesde" in p <==> fechaDesde.Some?) && ("fechaHasta" in p <==> fechaHasta.Some?)
              && (fechaDesde.Some? ==> p["fechaDesde"] == PStr(fechaDesde.value))
              && (fechaHasta.Some? ==> p["fechaHasta"] == PStr(fechaHasta.value))
  {
    if !(10 <= limit <= 1000) then Err(Invalid("Limit must be between 10 and 1000"))
    else if offset < 0 then Err(Invalid("Offset must be non-negative"))
    else
      var p := AddIfPresent(AddIfPresent(map["limit" := PInt(limit), "offset" := PInt(offset)],
                 "fechaDesde", if fechaDesde.Some? then Some(PStr(fechaDesde.value)) else None),
                 "fechaHasta", if fechaHasta.Some? then Some(PStr(fechaHasta.value)) else None);
      assert "limit" in p;
      Ok(Request("estadisticascambiarias/v1.0/Cotizaciones/" + moneda, NoneIfEmpty(p)))
  }

  /** The defaults (`limit=1000`, `offset=0`) pass validation. */
  lemma EvolucionMonedaDefaults(moneda: string)
    ensures EvolucionMonedaRequest(moneda, None, None, 1000, 0)
            == Ok(Request("estadisticascambiarias/v1.0/Cotizaciones/" + moneda, Some(map["limit" := PInt(1000), "offset" := PInt(0)])))
  {
  }

  /** The list of dated quotations `get_evolucion_moneda` builds from a successful response. */
  function EvolucionMonedaResults(moneda: string, data: JsonObject): (r: Result<seq<E.CotizacionFecha>, ApiError>)
    ensures ("results" !in data || !data["results"].JArr?) ==>
              r == Err(ApiError(UnexpectedFormat, "Invalid response format for currency evolution endpoint (" + moneda + ")"))
    ensures r.Ok? <==> "results" in data && data["results"].JArr?
                       && MapAll(data["results"].items, E.CotizacionFechaFromJson).Ok?
    ensures r.Ok? ==> MapAll(data["results"].items, E.CotizacionFechaFromJson) == Ok(r.value)
    ensures "results" in data && data["results"].JArr? && MapAll(data["results"].items, E.CotizacionFechaFromJson).Err? ==>
              var e := MapAll(data["results"].items, E.CotizacionFechaFromJson).error;
              r == Err(ApiError(UnexpectedFormat, EvolucionErrorPrefix(moneda, e) + FieldErrorText(e)))
  {
    if "results" !in data || !data["results"].JArr? then
      Err(ApiError(UnexpectedFormat, "Invalid response format for currency evolution endpoint (" + moneda + ")"))
    else
      match MapAll(data["results"].items, E.CotizacionFechaFromJson)
      case Ok(v) => Ok(v)
      case Err(e) => Err(ApiError(UnexpectedFormat, EvolucionErrorPrefix(moneda, e) + FieldErrorText(e)))
  }

  /**
   * `get_evolucion_moneda` words a `KeyError` or `ValueError` as a format
   * problem, and any other exception (a `TypeError`) as a failed fetch.
   */
  function EvolucionErrorPrefix(moneda: string, e: FieldError): (p: string)
    ensures IsTypeError(e) ==> p == "Error fetching evolution for " + moneda + ": "
    ensures !IsTypeError(e) <==> p == "Unexpected response format or data for " + moneda + ": "
  {
    if IsTypeError(e) then "Error fetching evolution for " + moneda + ": "
    else "Unexpected response format or data for " + moneda + ": "
  }

  // ---------------------------------------------------------------------
  // Cheques: entities, reported checks and check_denunciado
  // ---------------------------------------------------------------------

  /** What `get_entidades` returns or raises for the result of its request. */
  function Entidades(response: Result<JsonObject, ApiError>): (r: Result<seq<C.Entidad>, ApiError>)
    ensures response.Err? ==> r == Err(ApiError(response.error.kind, "Error fetching financial entities: " + response.error.message))
    ensures r.Ok? <==> response.Ok? && "results" in response.value && response.value["results"].JArr?
                       && MapAll(response.value["results"].items, C.EntidadFromJson).Ok?
    ensures r.Ok? ==> MapAll(response.value["results"].items, C.EntidadFromJson) == Ok(r.value)
  {
    match response
    case Err(e) => Err(ApiError(e.kind, "Error fetching financial entities: " + e.message))
    case Ok(data) =>
      if "results" !in data || !data["results"].JArr? then
        Err(ApiError(UnexpectedFormat, "Error fetching financial entities: Invalid response format for entities endpoint"))
      else
        match MapAll(data["results"].items, C.EntidadFromJson)
        case Ok(v) => Ok(v)
        case Err(KeyMissing(k)) => Err(ApiError(UnexpectedFormat, "Unexpected response format: " + FieldErrorText(KeyMissing(k))))
        case Err(e) => Err(ApiError(UnexpectedFormat, "Error fetching financial entities: " + FieldErrorText(e)))
  }

  function ChequeEndpoint(codigoEntidad: int, numeroCheque: int): string {
    "cheques/v1.0/denunciados/" + IntToString(codigoEntidad) + "/" + IntToString(numeroCheque)
  }

  /** What `get_cheque_denunciado` returns or raises for the result of its request. */
  function ChequeDenunciado(numeroCheque: int, response: Result<JsonObject, ApiError>): (r: Result<C.Cheque, ApiError>)
    ensures response.Err? ==> r == response.PropagateFailure()
    ensures response.Ok? && ("results" !in response.value || !response.value["results"].JObj?) ==>
              r == Err(ApiError(UnexpectedFormat, "Invalid response format for reported check endpoint"))
    ensures r.Ok? <==> response.Ok? && "results" in response.value && response.value["results"].JObj?
                       && C.ChequeFromJson(response.value["results"]).Ok?
    ensures r.Ok? ==> C.ChequeFromJson(response.value["results"]) == Ok(r.value)
  {
    match response
    case Err(e) => Err(e)
    case Ok(data) =>
      if "results" !in data || !data["results"].JObj? then
        Err(ApiError(UnexpectedFormat, "Invalid response format for reported check endpoint"))
      else
        match C.ChequeFromJson(data["results"])
        case Ok(c) => Ok(c)
        case Err(KeyMissing(k)) => Err(ApiError(UnexpectedFormat, "Unexpected response format: " + FieldErrorText(KeyMissing(k))))
        case Err(e) => Err(ApiError(UnexpectedFormat, "Error fetching reported check " + IntToString(numeroCheque) + ": " + FieldErrorText(e)))
  }

  /** `entity_name.lower().strip()`, the form in which a query is compared. */
  function Normalized(query: string): string {
    Strip(Lower(query))
  }

  /** An entity with a present, non-empty name whose lower-cased form is the normalized query `key`. */
  predicate HasName(e: C.Entidad, key: string) {
    e.denominacion.Some? && e.denominacion.value != "" && Lower(e.denominacion.value) == key
  }

  /** An entity whose name matches, ignoring case and surrounding blanks of the query. */
  predicate NamesEntity(e: C.Entidad, name: string) {
    HasName(e, Normalized(name))
  }

  /** The index of the first entity from `from` on that has the name `key`, or -1. */
  function FindEntityFrom(es: seq<C.Entidad>, key: string, from: nat): (i: int)
    requires from <= |es|
    ensures i == -1 || from <= i < |es|
    ensures i == -1 ==> forall k :: from <= k < |es| ==> !HasName(es[k], key)
    ensures i >= 0 ==> HasName(es[i], key) && forall k :: from <= k < i ==> !HasName(es[k], key)
    decreases |es| - from
  {
    if from == |es| then -1
    else if HasName(es[from], key) then from
    else FindEntityFrom(es, key, from + 1)
  }

  /** The first entity named `name`, as `next(...)` over the entities finds it. */
  function FindEntity(es: seq<C.Entidad>, name: string): (r: Option<C.Entidad>)
    ensures r.None? <==> forall i :: 0 <= i < |es| ==> !NamesEntity(es[i], name)
    ensures r.Some? ==> exists i :: 0 <= i < |es| && es[i] == r.value && NamesEntity(es[i], name)
                                    && forall k :: 0 <= k < i ==> !NamesEntity(es[k], name)
  {
    var i := FindEntityFrom(es, Normalized(name), 0);
    if i < 0 then None else Some(es[i])
  }

  /**
   * `check_denunciado` as written: any API error whose text contains
   * "404" is read as "the check is not reported". `fetch` is
   * `get_cheque_denunciado(code, checkNumber)` for an entity code.
   */
  function CheckDenunciadoAsWritten(entityName: string, checkNumber: int,
                                    entities: Result<seq<C.Entidad>, ApiError>,
                                    fetch: int -> Result<C.Cheque, ApiError>): (r: Result<bool, ConnectorError>)
    ensures checkNumber <= 0 ==> r == Err(Invalid("Check number must be positive."))
    ensures checkNumber > 0 && entities.Err? ==> r == Err(Api(entities.error))
    ensures checkNumber > 0 && entities.Ok? && FindEntity(entities.value, entityName).None? ==>
              r == Err(Invalid("Entity '" + entityName + "' not found"))
    ensures r.Ok? <==> checkNumber > 0 && entities.Ok? && FindEntity(entities.value, entityName).Some?
                       && var f := fetch(FindEntity(entities.value, entityName).value.codigoEntidad);
                          f.Ok? || Contains(f.error.message, "404")
    ensures r.Ok? ==> var f := fetch(FindEntity(entities.value, entityName).value.codigoEntidad);
                      r.value == (f.Ok? && f.value.denunciado)
    ensures checkNumber > 0 && entities.Ok? && FindEntity(entities.value, entityName).Some?
            && fetch(FindEntity(entities.value, entityName).value.codigoEntidad).Err?
            && Contains(fetch(FindEntity(entities.value, entityName).value.codigoEntidad).error.message, "404")
            ==> r == Ok(false)
    ensures checkNumber > 0 && entities.Ok? && FindEntity(entities.value, entityName).Some?
            && fetch(FindEntity(entities.value, entityName).value.codigoEntidad).Err?
            && !Contains(fetch(FindEntity(entities.value, entityName).value.codigoEntidad).error.message, "404")
            ==> r == Err(Api(fetch(FindEntity(entities.value, entityName).value.codigoEntidad).error))
  {
    if checkNumber <= 0 then Err(Invalid("Check number must be positive."))
    else
      match entities
      case Err(e) => Err(Api(e))
      case Ok(es) =>
        match FindEntity(es, entityName)
        case None => Err(Invalid("Entity '" + entityName + "' not found"))
        case Some(entity) =>
          match fetch(entity.codigoEntidad)
          case Ok(cheque) => Ok(cheque.denunciado)
          case Err(e) => if Contains(e.message, "404") then Ok(false) else Err(Api(e))
  }

  /**
   * `check_denunciado` as intended: only a 404 answer for the check means
   * it is not reported; every other API error is raised.
   */
  function CheckDenunciado(entityName: string, checkNumber: int,
                           entities: Result<seq<C.Entidad>, ApiError>,
                           fetch: int -> Result<C.Cheque, ApiError>): (r: Result<bool, ConnectorError>)
    ensures checkNumber <= 0 ==> r == Err(Invalid("Check number must be positive."))
    ensures checkNumber > 0 && entities.Err? ==> r == Err(Api(entities.error))
    ensures checkNumber > 0 && entities.Ok? && FindEntity(entities.value, entityName).None? ==>
              r == Err(Invalid("Entity '" + entityName + "' not found"))
    ensures r.Ok? <==> checkNumber > 0 && entities.Ok? && FindEntity(entities.value, entityName).Some?
                       && var f := fetch(FindEntity(entities.value, entityName).value.codigoEntidad);
                          f.Ok? || f.error.kind == NotFound
    ensures r.Ok? ==> var f := fetch(FindEntity(entities.value, entityName).value.codigoEntidad);
                      r.value == (f.Ok? && f.value.denunciado)
    ensures checkNumber > 0 && entities.Ok? && FindEntity(entities.value, entityName).Some?
            && fetch(FindEntity(entities.value, entityName).value.codigoEntidad).Err?
            && fetch(FindEntity(entities.value, entityName).value.codigoEntidad).error.kind != NotFound
            ==> r == Err(Api(fetch(FindEntity(entities.value, entityName).value.codigoEntidad).error))
  {
    if checkNumber <= 0 then Err(Invalid("Check number must be positive."))
    else
      match entities
      case Err(e) => Err(Api(e))
      case Ok(es) =>
        match FindEntity(es, entityName)
        case None => Err(Invalid("Entity '" + entityName + "' not found"))
        case Some(entity) =>
          match fetch(entity.codigoEntidad)
          case Ok(cheque) => Ok(cheque.denunciado)
          case Err(e) => if e.kind == NotFound then Ok(false) else Err(Api(e))
  }

  /** Both versions agree whenever the check request succeeds or answers 404. */
  lemma CheckDenunciadoVersionsAgreeOnNotFound(entityName: string, checkNumber: int,
                                               entities: Result<seq<C.Entidad>, ApiError>,
                                               fetch: int -> Result<C.Cheque, ApiError>)
    requires checkNumber > 0 && entities.Ok? && FindEntity(entities.value, entityName).Some?
    requires var f := fetch(FindEntity(entities.value, entityName).value.codigoEntidad);
             f.Ok? || (f.error.kind == NotFound && Contains(f.error.message, "404"))
    ensures CheckDenunciadoAsWritten(entityName, checkNumber, entities, fetch)
            == CheckDenunciado(entityName, checkNumber, entities, fetch)
  {
  }

  /** Every 404 the executor produces says "404", so the intended version loses no not-found case. */
  lemma NotFoundErrorsMention404(url: string, reason: string, body: Body, bodyText: string)
    ensures HttpError(404, url, reason, body, bodyText).kind == NotFound
    ensures Contains(HttpError(404, url, reason, body, bodyText).message, "404")
  {
    NotFoundMessage(url, reason, body, bodyText);
  }

  /** Three timeouts for the check request. */
  function TimedOutTransport(): seq<Outcome> {
    [TimedOut("read timed out"), TimedOut("read timed out"), TimedOut("read timed out")]
  }

  /** `get_cheque_denunciado` for check 404 when every attempt times out. */
  function FetchCheck404TimingOut(codigoEntidad: int): Result<C.Cheque, ApiError> {
    ChequeDenunciado(404, RequestResult(ChequeEndpoint(codigoEntidad, 404), TimedOutTransport()))
  }

  /** For any entity, the timeout error for check 404 ends with the check number, so it mentions "404". */
  lemma FetchCheck404TimesOut(codigoEntidad: int)
    ensures FetchCheck404TimingOut(codigoEntidad)
            == Err(ApiError(Timeout, "Request timed out after 3 attempts to " + Url(ChequeEndpoint(codigoEntidad, 404))))
    ensures Contains(FetchCheck404TimingOut(codigoEntidad).error.message, "404")
  {
    AllTimeouts(ChequeEndpoint(codigoEntidad, 404), TimedOutTransport());
    var m := "Request timed out after 3 attempts to " + Url(ChequeEndpoint(codigoEntidad, 404));
    var head := "Request timed out after 3 attempts to " + (BaseUrl + "/" + ("cheques/v1.0/denunciados/" + IntToString(codigoEntidad) + "/"));
    Str404();
    assert m == head + IntToString(404);
    ContainsAfterPrefix(head, "404", m);
  }

  /** An entity without a name is skipped, not an error: the query "bna" finds the next entity, named "BNA". */
  lemma FindBna()
    ensures FindEntity([C.Entidad(11, None), C.Entidad(12, Some("BNA"))], "bna") == Some(C.Entidad(12, Some("BNA")))
  {
    assert Lower("bna") == "bna" && Lower("BNA") == "bna";
    assert TrimStart("bna") == "bna" && TrimEnd("bna") == "bna";
    assert NamesEntity(C.Entidad(12, Some("BNA")), "bna");
  }

  /**
   * Check number 404 at any entity that is found (such as entity 11,
   * "BNA", for the query "bna"), with the check request timing out three
   * times: the timeout message ends with the URL, which ends in "/404", so
   * the source reports the check as not reported. The intended version
   * raises the timeout.
   */
  lemma TimeoutOnCheck404ReadAsNotReported(name: string, entities: seq<C.Entidad>, e: C.Entidad)
    requires FindEntity(entities, name) == Some(e)
    ensures FetchCheck404TimingOut(e.codigoEntidad).Err? && FetchCheck404TimingOut(e.codigoEntidad).error.kind == Timeout
    ensures CheckDenunciadoAsWritten(name, 404, Ok(entities), FetchCheck404TimingOut) == Ok(false)
    ensures CheckDenunciado(name, 404, Ok(entities), FetchCheck404TimingOut)
            == Err(Api(FetchCheck404TimingOut(e.codigoEntidad).error))
  {
    FetchCheck404TimesOut(e.codigoEntidad);
  }

  // ---------------------------------------------------------------------
  // Look-ups by name and by currency
  // ---------------------------------------------------------------------

  /** The fields of a principal variable the look-up by name uses. */
  datatype Variable = Variable(idVariable: int, descripcion: string)

  /** The normalized query `key` occurs in the variable's non-empty lower-cased description. */
  predicate HasInDescription(v: Variable, key: string) {
    v.descripcion != "" && Contains(Lower(v.descripcion), key)
  }

  /** The lower-cased, stripped name occurs in the variable's lower-cased description. */
  predicate DescribedBy(v: Variable, name: string) {
    HasInDescription(v, Normalized(name))
  }

  /**
   * `get_variable_by_name`: the first variable whose description contains
   * the name; nothing when none does or when the variables cannot be fetched.
   */
  method VariableByName(name: string, variables: Result<seq<Variable>, ApiError>) returns (r: Option<Variable>)
    ensures variables.Err? ==> r.None?
    ensures variables.Ok? && r.None? ==> forall i :: 0 <= i < |variables.value| ==> !DescribedBy(variables.value[i], name)
    ensures r.Some? ==> variables.Ok?
                        && exists i :: 0 <= i < |variables.value| && variables.value[i] == r.value
                                       && DescribedBy(r.value, name)
                                       && forall k :: 0 <= k < i ==> !DescribedBy(variables.value[k], name)
  {
    if variables.Err? {
      return None;
    }
    var vs := variables.value;
    var normalized := Normalized(name);
    for i := 0 to |vs|
      invariant forall k :: 0 <= k < i ==> !HasInDescription(vs[k], normalized)
    {
      if HasInDescription(vs[i], normalized) {
        return Some(vs[i]);
      }
    }
    return None;
  }

  /** An empty or blank name matches the first variable that has a description. */
  lemma {:induction false} BlankNameMatchesAnyDescription(v: Variable)
    requires v.descripcion != ""
    ensures DescribedBy(v, "  ")
  {
    assert Lower("  ") == "  ";
    assert TrimStart("  ") == "";
    assert Strip(Lower("  ")) == "";
    assert "" <= Lower(v.descripcion);
  }

  /**
   * `_get_cotizacion_detalle`: the first quotation of the date for the
   * currency code, or the `ValueError` for an empty date or a missing code.
   * A Python `date` is always a valid calendar date.
   */
  method CotizacionDetalleFor(cf: E.CotizacionFecha, code: string) returns (r: Result<E.CotizacionDetalle, ConnectorError>)
    requires ValidDate(cf.fecha)
    ensures cf.detalle == [] ==> r == Err(Invalid("Invalid CotizacionFecha object provided for currency " + code + "."))
    ensures r.Ok? ==> exists i :: 0 <= i < |cf.detalle| && cf.detalle[i] == r.value && r.value.codigoMoneda == code
                                  && forall k :: 0 <= k < i ==> cf.detalle[k].codigoMoneda != code
    ensures r.Err? && cf.detalle != [] ==>
              (forall i :: 0 <= i < |cf.detalle| ==> cf.detalle[i].codigoMoneda != code)
              && r == Err(Invalid("Currency " + code + " not found in cotizacion for date " + FormatDate(cf.fecha)))
    ensures r.Err? <==> forall i :: 0 <= i < |cf.detalle| ==> cf.detalle[i].codigoMoneda != code
  {
    if cf.detalle == [] {
      return Err(Invalid("Invalid CotizacionFecha object provided for currency " + code + "."));
    }
    for i := 0 to |cf.detalle|
      invariant forall k :: 0 <= k < i ==> cf.detalle[k].codigoMoneda != code
    {
      if cf.detalle[i].codigoMoneda == code {
        return Ok(cf.detalle[i]);
      }
    }
    return Err(Invalid("Currency " + code + " not found in cotizacion for date " + FormatDate(cf.fecha)));
  }

  // ---------------------------------------------------------------------
  // get_latest_quotations
  // ---------------------------------------------------------------------

  /** The index of the last quotation for `code`, or -1 when there is none. */
  function LastQuoted(ds: seq<E.CotizacionDetalle>, code: string): (r: int)
    ensures -1 <= r < |ds|
    ensures r >= 0 ==> ds[r].codigoMoneda == code && forall j :: r < j < |ds| ==> ds[j].codigoMoneda != code
    ensures r == -1 ==> forall j :: 0 <= j < |ds| ==> ds[j].codigoMoneda != code
  {
    if ds == [] then -1
    else if ds[|ds| - 1].codigoMoneda == code then |ds| - 1
    else LastQuoted(ds[..|ds| - 1], code)
  }

  /** `{d.codigo_moneda: d.tipo_cotizacion for d in ds if d.codigo_moneda}`. */
  function QuotationTable(ds: seq<E.CotizacionDetalle>): map<string, real> {
    if ds == [] then map[]
    else
      var m := QuotationTable(ds[..|ds| - 1]);
      var last := ds[|ds| - 1];
      if last.codigoMoneda != "" then m[last.codigoMoneda := last.tipoCotizacion] else m
  }

  /**
   * Every non-empty quoted code is a key of the table, and its value comes
   * from the last quotation with that code.
   */
  lemma {:induction false} QuotationTableLastWins(ds: seq<E.CotizacionDetalle>, code: string)
    ensures code in QuotationTable(ds) <==> code != "" && LastQuoted(ds, code) >= 0
    ensures code in QuotationTable(ds) ==> QuotationTable(ds)[code] == ds[LastQuoted(ds, code)].tipoCotizacion
  {
    if ds != [] {
      var front := ds[..|ds| - 1];
      QuotationTableLastWins(front, code);
      if ds[|ds| - 1].codigoMoneda != code {
        assert LastQuoted(ds, code) == LastQuoted(front, code);
        if LastQuoted(front, code) >= 0 {
          assert ds[LastQuoted(ds, code)] == front[LastQuoted(front, code)];
        }
      }
    }
  }

  /** What `get_latest_quotations` returns or raises for the result of `get_cotizaciones`. */
  function LatestQuotations(cotizaciones: Result<E.CotizacionFecha, ApiError>): (r: Result<map<string, real>, ApiError>)
    ensures cotizaciones.Err? ==> r == Err(cotizaciones.error)
    ensures cotizaciones.Ok? ==> r.Ok? && forall code ::
              (code in r.value <==> code != "" && LastQuoted(cotizaciones.value.detalle, code) >= 0)
              && (code in r.value ==> r.value[code] == cotizaciones.value.detalle[LastQuoted(cotizaciones.value.detalle, code)].tipoCotizacion)
  {
    match cotizaciones
    case Err(e) => Err(e)
    case Ok(cf) =>
      forall code | true
        ensures (code in QuotationTable(cf.detalle) <==> code != "" && LastQuoted(cf.detalle, code) >= 0)
                && (code in QuotationTable(cf.detalle) ==> QuotationTable(cf.detalle)[code] == cf.detalle[LastQuoted(cf.detalle, code)].tipoCotizacion)
      {
        QuotationTableLastWins(cf.detalle, code);
      }
      if cf.detalle == [] then Ok(map[]) else Ok(QuotationTable(cf.detalle))
  }

  /** A code quoted twice keeps its later quotation. */
  lemma LaterDuplicateWins(a: E.CotizacionDetalle, b: E.CotizacionDetalle)
    requires a.codigoMoneda == b.codigoMoneda != ""
    ensures QuotationTable([a, b]) == map[a.codigoMoneda := b.tipoCotizacion]
  {
    assert [a, b][..1] == [a];
    assert [a][..0] == [];
    assert QuotationTable([a]) == map[a.codigoMoneda := a.tipoCotizacion];
  }
}
