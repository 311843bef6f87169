/**
 * The first connector (statistics API v2.0): a retry loop that retries
 * every failure the `requests` library reports, including HTTP error
 * statuses, the one-year range check of `get_datos_variable`, and the
 * latest value by date.
 */
module LegacyConnector {
  import opened Results
  import opened Text
  import opened JsonModel
  import opened IsoDate
  import Executor

  const LegacyBaseUrl: string := "https://api.bcra.gob.ar/estadisticas/v2.0"

  function LegacyUrl(endpoint: string): string {
    LegacyBaseUrl + "/" + endpoint
  }

  /**
   * How the first connector fails: a validator's `ValueError`, a
   * `BCRAApiError`, or an exception it does not handle (a `TypeError` or
   * `ValueError` raised while reading a record), carried as the field
   * problem that caused it.
   */
  datatype LegacyError = Invalid(message: string) | Api(message: string) | Unhandled(problem: FieldError)

  /** `str(e)` of the `HTTPError` that `raise_for_status` raises. */
  function HttpErrorText(status: int, reason: string, url: string): string
    requires Executor.IsHttpError(status)
  {
    IntToString(status) + (if status < 500 then " Client Error: " else " Server Error: ") + reason + " for url: " + url
  }

  /** The text of the request exception an outcome raises, if any. */
  function FailureText(o: Executor.Outcome): Option<string> {
    match o
    case TimedOut(t) => Some(t)
    case ConnectionFailed(_, t) => Some(t)
    case OtherFailure(t) => Some(t)
    case Responded(status, url, reason, body, _) =>
      if Executor.IsHttpError(status) then Some(HttpErrorText(status, reason, url))
      else if body.Undecodable? then Some(body.complaint)
      else None
  }

  /** One attempt of the loop: the decoded body, a final error, or another attempt. */
  datatype Verdict = Done(result: Result<Json, string>) | Retry

  function Classify(o: Executor.Outcome, attempt: nat): (v: Verdict)
    requires attempt < Executor.MaxRetries
    ensures v.Retry? <==> FailureText(o).Some? && attempt < Executor.MaxRetries - 1
    ensures FailureText(o).None? ==> v == Done(Ok(o.body.value))
  {
    match FailureText(o)
    case None => Done(Ok(o.body.value))
    case Some(text) =>
      if attempt == Executor.MaxRetries - 1 then Done(Err("API request failed after 3 attempts: " + text)) else Retry
  }

  function RunFrom(outcomes: seq<Executor.Outcome>, attempt: nat): (res: (Result<Json, string>, nat))
    requires attempt < Executor.MaxRetries <= |outcomes|
    ensures attempt < res.1 <= Executor.MaxRetries
    ensures Classify(outcomes[res.1 - 1], res.1 - 1) == Done(res.0)
    ensures forall k :: attempt <= k < res.1 - 1 ==> Classify(outcomes[k], k) == Retry
    decreases Executor.MaxRetries - attempt
  {
    match Classify(outcomes[attempt], attempt)
    case Done(r) => (r, attempt + 1)
    case Retry => RunFrom(outcomes, attempt + 1)
  }

  lemma {:induction false} RunFromFirstDecisive(outcomes: seq<Executor.Outcome>, from: nat, k: nat)
    requires from <= k < Executor.MaxRetries <= |outcomes|
    requires forall j :: from <= j < k ==> Classify(outcomes[j], j) == Retry
    requires Classify(outcomes[k], k).Done?
    ensures RunFrom(outcomes, from) == (Classify(outcomes[k], k).result, k + 1)
    decreases k - from
  {
    if from < k {
      RunFromFirstDecisive(outcomes, from + 1, k);
    }
  }

  /**
   * `_make_request` of the first connector, for a scripted transport:
   * the result, how many GETs were sent and the back-off sleeps between them.
   */
  method MakeRequest(outcomes: seq<Executor.Outcome>) returns (r: Result<Json, string>, gets: int, backoffs: seq<real>)
    requires Executor.MaxRetries <= |outcomes|
    ensures (r, gets) == RunFrom(outcomes, 0)
    ensures 1 <= gets <= Executor.MaxRetries
    ensures |backoffs| == gets - 1 && forall i :: 0 <= i < |backoffs| ==> backoffs[i] == Executor.Backoff(i)
  {
    backoffs := [];
    for attempt := 0 to Executor.MaxRetries
      invariant |backoffs| == attempt
      invariant forall k :: 0 <= k < attempt ==> Classify(outcomes[k], k) == Retry
      invariant forall i :: 0 <= i < attempt ==> backoffs[i] == Executor.Backoff(i)
    {
      var verdict := Classify(outcomes[attempt], attempt);
      if verdict.Done? {
        r, gets := verdict.result, attempt + 1;
        RunFromFirstDecisive(outcomes, 0, attempt);
        return;
      }
      backoffs := backoffs + [Executor.Backoff(attempt)];
    }
    LastAttemptDecides(outcomes[Executor.MaxRetries - 1]);
    assert false;
    r, gets := Err("unreachable"), 0;
  }

  /** The last attempt never retries. */
  lemma LastAttemptDecides(o: Executor.Outcome)
    ensures Classify(o, Executor.MaxRetries - 1).Done?
  {
  }

  /** `requests` words a 404 as a client error. */
  lemma NotFoundText(url: string)
    ensures HttpErrorText(404, "Not Found", url) == "404" + " Client Error: " + "Not Found" + " for url: " + url
  {
    Executor.Str404();
  }

  /** Unlike the current connector, an HTTP 404 is retried: three 404s cost three GETs. */
  lemma NotFoundRetried(outcomes: seq<Executor.Outcome>, url: string, body: Executor.Body, bodyText: string)
    requires |outcomes| == 3 && forall i :: 0 <= i < 3 ==> outcomes[i] == Executor.Responded(404, url, "Not Found", body, bodyText)
    ensures RunFrom(outcomes, 0) == (Err("API request failed after 3 attempts: " + HttpErrorText(404, "Not Found", url)), 3)
  {
    RunFromFirstDecisive(outcomes, 0, 2);
  }

  /** A good response ends the loop at any attempt, with its decoded body. */
  lemma SuccessEndsLoop(outcomes: seq<Executor.Outcome>, k: nat)
    requires k < Executor.MaxRetries <= |outcomes|
    requires forall j :: 0 <= j < k ==> FailureText(outcomes[j]).Some?
    requires FailureText(outcomes[k]).None?
    ensures RunFrom(outcomes, 0) == (Ok(outcomes[k].body.value), k + 1)
  {
    RunFromFirstDecisive(outcomes, 0, k);
  }

  // ---------------------------------------------------------------------
  // Records
  // ---------------------------------------------------------------------

  /** A principal variable of API v2.0. */
  datatype PrincipalVariable = PrincipalVariable(idVariable: int, cdSerie: int, descripcion: string, fecha: string, valor: real)

  /** A data point of a variable: the date stays the API's text. */
  datatype DatosVariable = DatosVariable(idVariable: int, fecha: string, valor: real)

  function PrincipalVariableFromJson(j: Json): (r: Result<PrincipalVariable, FieldError>)
    ensures !j.JObj? ==> r == Err(NotAnObject)
    ensures r.Ok? <==> GetInt(j, "idVariable").Ok? && GetInt(j, "cdSerie").Ok? && GetStr(j, "descripcion").Ok?
                       && GetStr(j, "fecha").Ok? && GetFloat(j, "valor").Ok?
    ensures r.Ok? ==> r.value == PrincipalVariable(j.fields["idVariable"].i, j.fields["cdSerie"].i,
                                   j.fields["descripcion"].s, j.fields["fecha"].s, AsFloat(j.fields["valor"]))
  {
    var id :- GetInt(j, "idVariable");
    var serie :- GetInt(j, "cdSerie");
    var descripcion :- GetStr(j, "descripcion");
    var fecha :- GetStr(j, "fecha");
    var valor :- GetFloat(j, "valor");
    Ok(PrincipalVariable(id, serie, descripcion, fecha, valor))
  }

  function DatosVariableFromJson(j: Json): (r: Result<DatosVariable, FieldError>)
    ensures !j.JObj? ==> r == Err(NotAnObject)
    ensures r.Ok? <==> GetInt(j, "idVariable").Ok? && GetStr(j, "fecha").Ok? && GetFloat(j, "valor").Ok?
    ensures r.Ok? ==> r.value == DatosVariable(j.fields["idVariable"].i, j.fields["fecha"].s, AsFloat(j.fields["valor"]))
  {
    var id :- GetInt(j, "idVariable");
    var fecha :- GetStr(j, "fecha");
    var valor :- GetFloat(j, "valor");
    Ok(DatosVariable(id, fecha, valor))
  }

  /**
   * `[make(item) for item in data['results']]` under `except KeyError`: a
   * missing key becomes the "Unexpected response format" API error; any
   * other problem escapes unhandled. The items of a non-empty dictionary
   * are its keys, strings that every record constructor rejects as not an
   * object, so that case escapes as `NotAnObject`.
   */
  function ReadResults<T>(data: Json, make: Json -> Result<T, FieldError>): (r: Result<seq<T>, LegacyError>)
    ensures !data.JObj? ==> r == Err(Unhandled(NotAnObject))
    ensures data.JObj? && "results" !in data.fields ==> r == Err(Api("Unexpected response format: '" + "results" + "'"))
    ensures r.Ok? <==> data.JObj? && "results" in data.fields && Iterated(data.fields["results"]).Some?
                       && MapAll(Iterated(data.fields["results"]).value, make).Ok?
    ensures r.Ok? ==> MapAll(Iterated(data.fields["results"]).value, make) == Ok(r.value)
    ensures data.JObj? && "results" in data.fields && data.fields["results"] in [JObj(map[]), JStr(""), JArr([])] ==> r == Ok([])
    ensures r.Err? && r.error.Api? ==> "Unexpected response format: '" <= r.error.message
  {
    if !data.JObj? then Err(Unhandled(NotAnObject))
    else if "results" !in data.fields then Err(Api("Unexpected response format: '" + "results" + "'"))
    else
      match Iterated(data.fields["results"])
      case None => Err(Unhandled(if data.fields["results"].JObj? then NotAnObject else WrongType("results")))
      case Some(items) =>
        match MapAll(items, make)
        case Ok(v) => Ok(v)
        case Err(KeyMissing(k)) => Err(Api("Unexpected response format: '" + k + "'"))
        case Err(e) => Err(Unhandled(e))
  }

  /** `get_principales_variables` of the first connector, for the result of its request. */
  function PrincipalesVariables(response: Result<Json, string>): (r: Result<seq<PrincipalVariable>, LegacyError>)
    ensures response.Err? ==> r == Err(Api(response.error))
    ensures response.Ok? ==> r == ReadResults(response.value, PrincipalVariableFromJson)
  {
    match response
    case Err(m) => Err(Api(m))
    case Ok(data) => ReadResults(data, PrincipalVariableFromJson)
  }

  // ---------------------------------------------------------------------
  // get_datos_variable and get_latest_value
  // ---------------------------------------------------------------------

  const OneYearMicros: int := 365 * MicrosPerDay

  /**
   * The endpoint `get_datos_variable` requests for a valid range, or the
   * `ValueError` of its checks: the range may not be inverted and may
   * span at most 365 days, to the microsecond.
   */
  function DatosVariableEndpoint(id: int, desde: DateTime, hasta: DateTime): (r: Result<string, LegacyError>)
    requires ValidDateTime(desde) && ValidDateTime(hasta)
    ensures Later(desde, hasta) ==> r == Err(Invalid("'desde' date must be earlier than or equal to 'hasta' date"))
    ensures !Later(desde, hasta) && SpanMicros(desde, hasta) > OneYearMicros ==> r == Err(Invalid("Date range must not exceed 1 year"))
    ensures r.Ok? <==> !Later(desde, hasta) && SpanMicros(desde, hasta) <= OneYearMicros
    ensures r.Ok? ==> r.value == "DatosVariable/" + IntToString(id) + "/" + FormatDate(desde.date) + "/" + FormatDate(hasta.date)
  {
    if Later(desde, hasta) then Err(Invalid("'desde' date must be earlier than or equal to 'hasta' date"))
    else if SpanMicros(desde, hasta) > OneYearMicros then Err(Invalid("Date range must not exceed 1 year"))
    else Ok("DatosVariable/" + IntToString(id) + "/" + FormatDate(desde.date) + "/" + FormatDate(hasta.date))
  }

  /** Exactly 365 days is accepted; one microsecond more is refused. */
  lemma YearLimitIsInclusive(id: int)
    ensures DatosVariableEndpoint(id, DateTime(Date(2023, 1, 1), 0), DateTime(Date(2024, 1, 1), 0)).Ok?
    ensures DatosVariableEndpoint(id, DateTime(Date(2023, 1, 1), 0), DateTime(Date(2024, 1, 1), 1))
            == Err(Invalid("Date range must not exceed 1 year"))
  {
    assert Ordinal(Date(2024, 1, 1)) - Ordinal(Date(2023, 1, 1)) == 365;
  }

  /** A leap year's 366 days are too many. */
  lemma LeapYearTooLong(id: int)
    ensures DatosVariableEndpoint(id, DateTime(Date(2024, 1, 1), 0), DateTime(Date(2025, 1, 1), 0))
            == Err(Invalid("Date range must not exceed 1 year"))
  {
    assert Ordinal(Date(2025, 1, 1)) - Ordinal(Date(2024, 1, 1)) == 366;
  }

  /** `get_datos_variable` of the first connector, for the result of its request. */
  function DatosVariableResult(response: Result<Json, string>): (r: Result<seq<DatosVariable>, LegacyError>)
    ensures response.Err? ==> r == Err(Api(response.error))
    ensures response.Ok? ==> r == ReadResults(response.value, DatosVariableFromJson)
  {
    match response
    case Err(m) => Err(Api(m))
    case Ok(data) => ReadResults(data, DatosVariableFromJson)
  }

  /** The ordering of dates is total: of two different dates one is before the other. */
  lemma BeforeTotal(a: Date, b: Date)
    ensures a == b || Before(a, b) || Before(b, a)
  {
  }

  /**
   * `max(dates)` by position: the first index holding a latest date.
   * Python's `max` keeps the first of equal maxima.
   */
  function FirstLatest(dates: seq<Date>): (r: nat)
    requires |dates| > 0
    ensures r < |dates|
    ensures forall j :: 0 <= j < |dates| ==> !Before(dates[r], dates[j])
    ensures forall j :: 0 <= j < r ==> Before(dates[j], dates[r])
  {
    if |dates| == 1 then 0
    else
      var front := dates[..|dates| - 1];
      var best := FirstLatest(front);
      assert forall j :: 0 <= j < |front| ==> front[j] == dates[j];
      BeforeTotal(dates[best], dates[|dates| - 1]);
      if Before(dates[best], dates[|dates| - 1]) then
        assert forall j :: 0 <= j < |front| ==> !Before(dates[|dates| - 1], dates[j]);
        |dates| - 1
      else best
  }

  /** The dates of the data points, parsed in order; the first that does not parse stops the scan. */
  function PointDates(data: seq<DatosVariable>): (r: Result<seq<Date>, FieldError>)
    ensures r.Ok? <==> forall i :: 0 <= i < |data| ==> ParseDate(data[i].fecha).Some?
    ensures r.Err? ==> r.error == BadValue("fecha")
    ensures r.Ok? ==> |r.value| == |data| && forall i :: 0 <= i < |data| ==> Some(r.value[i]) == ParseDate(data[i].fecha)
  {
    if data == [] then Ok([])
    else
      match ParseDate(data[0].fecha)
      case None => Err(BadValue("fecha"))
      case Some(d) =>
        var rest := PointDates(data[1..]);
        assert forall i :: 1 <= i < |data| ==> data[1..][i - 1] == data[i];
        if rest.Err? then Err(rest.error) else Ok([d] + rest.value)
  }

  /**
   * `get_latest_value` of the first connector, for the result of its
   * 30-day query: the first data point with the latest date.
   */
  function LatestValue(id: int, data: Result<seq<DatosVariable>, LegacyError>): (r: Result<DatosVariable, LegacyError>)
    ensures data.Err? ==> r == Err(data.error)
    ensures data == Ok([]) ==> r == Err(Api("No data available for variable " + IntToString(id)))
    ensures data.Ok? && data.value != [] && PointDates(data.value).Err? ==> r == Err(Unhandled(BadValue("fecha")))
    ensures r.Ok? ==> data.Ok? && PointDates(data.value).Ok?
                      && (exists i :: 0 <= i < |data.value| && r.value == data.value[i]
                            && (var ds := PointDates(data.value).value;
                                (forall j :: 0 <= j < |ds| ==> !Before(ds[i], ds[j]))
                                && (forall j :: 0 <= j < i ==> Before(ds[j], ds[i]))))
    ensures data.Ok? && data.value != [] && PointDates(data.value).Ok? ==> r.Ok?
  {
    match data
    case Err(e) => Err(e)
    case Ok(points) =>
      if points == [] then Err(Api("No data available for variable " + IntToString(id)))
      else
        match PointDates(points)
        case Err(e) => Err(Unhandled(e))
        case Ok(ds) =>
          var i := FirstLatest(ds);
          Ok(points[i])
  }

  /** Two points on the same latest date: the first one is returned. */
  lemma TieGoesToFirst(a: DatosVariable, b: DatosVariable)
    requires a.fecha == b.fecha && ParseDate(a.fecha).Some?
    ensures LatestValue(1, Ok([a, b])) == Ok(a)
  {
    var ds := PointDates([a, b]).value;
    assert ds[0] == ds[1];
    assert [a, b][..1] == [a];
  }
}
