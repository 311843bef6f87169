# bcra-connector in Dafny

A Dafny model of the core of `bcra-connector`, a Python client for the public
APIs of the Banco Central de la República Argentina (BCRA). The APIs covered
are monetary statistics, reported checks ("cheques denunciados") and exchange
statistics ("estadísticas cambiarias"). The model covers seven parts of the
connector:

- **`RateLimiting`** (`rate_limiter.dfy`): the rate limiter. It is a sliding
  window of admission timestamps with a burst ceiling, written as a class whose
  window is a `seq<real>`. The clock is explicit: every operation receives the
  reading `now`, and `Acquire` also receives the `slack` by which the clock
  moved past the end of its wait.
- **`Executor`** (`executor.dfy`): the request executor `_make_request` of the
  current connector. The transport is a script with one outcome per attempt.
  The executor is a loop of at most three GETs, with rate limiting before each
  GET and exponential back-off between attempts. It sorts each outcome into a
  decoded JSON object, a retry, or an API error, with the source's messages.
- **`Connector`** (`connector.dfy`): the operations built on the executor.
  These are the argument validation and query parameters of
  `get_datos_variable` and `get_evolucion_moneda`, and the entity and check
  queries. They also include `check_denunciado`, the look-up by variable name,
  the look-up of a currency in a date's quotations, and the table of latest
  quotations. The result of each request is a parameter.
- **`LegacyConnector`** (`legacy_connector.dfy`): the first connector, for
  statistics API v2.0. It has its own retry loop, its 365-day range check and
  its latest value by date.
- **`Cheques`** and **`EstadisticasCambiarias`** (`cheques.dfy`,
  `estadisticas_cambiarias.dfy`): the record types and their `from_dict` /
  `to_dict` conversions over decoded JSON (`JsonModel`, `json.dfy`).
- **`SemVer`** (`semver.dfy`): the package's `Version`. It covers parsing and
  printing, the increments and the compatibility test.
- **Shared modules:**
  - `Results` holds `Option` and `Result`.
  - `Text` holds digit strings, ASCII case mapping, `strip`, substring
    search, and `join`/`split`.
  - `IsoDate` holds calendar dates in the extended format of ISO 8601
    (`YYYY-MM-DD`, section 4.1.2.2 of ISO 8601:2004), and also date ordinals and
    naive datetimes.

The copy of `cheques.py` at the repository root is identical, in lines 1-91, to
`src/bcra_connector/cheques/cheques.py`. The members of `Cheques` that model
`Entidad`, `ChequeDetalle` and `Cheque` model both copies.

`src/bcra_connector/cheques/cheques.py` holds the check records. The exchange
records are modelled on the root file `estadisticas_cambiarias.py`.

## Model

| member | source | states |
|---|---|---|
| RateLimiting.NewConfig | src/bcra_connector/rate_limiter.py:25-42 | succeeds iff `calls > 0`, `period > 0` and an explicit burst is at least `calls`; the checks fail in this order; an omitted burst becomes `calls`; the result satisfies `0 < calls <= burst` and `period > 0` |
| RateLimiting.ValidConfigsConstruct | src/bcra_connector/rate_limiter.py:25-36 | every configuration with `0 < calls <= burst` and `period > 0` can be constructed; when `burst == calls` it can also be constructed without an explicit burst |
| RateLimiting.PurgeCount | src/bcra_connector/rate_limiter.py:58-62 | the purge pops exactly a prefix of entries that are more than `period` old, and stops at the first entry at most `period` old |
| RateLimiting.PurgedSortedWithinPeriod | src/bcra_connector/rate_limiter.py:58-62 | on a sorted window, what the purge keeps is sorted and lies within `period` of `now`, and no entry within `period` is lost |
| RateLimiting.Delay | src/bcra_connector/rate_limiter.py:64-79 | the delay is never negative; it is 0 below the burst ceiling; otherwise waiting it makes the `calls`-th newest admission at least `period` old, and exactly `period` old when the delay is positive; the fallback return cannot be reached |
| RateLimiting.AcquireKeepsOrder | src/bcra_connector/rate_limiter.py:81-92 | with a clock that never goes back, the window after an acquire stays sorted oldest-first, and its new last entry is not before `now` |
| RateLimiting.Remaining | src/bcra_connector/rate_limiter.py:114-118 | the remaining count is never negative; it is 0 iff the purged size reaches `calls`, and otherwise it is `calls - size` |
| RateLimiting.RateLimiter.constructor | src/bcra_connector/rate_limiter.py:48-56 | a new limiter has the given configuration and an empty window |
| RateLimiting.RateLimiter.CleanOldTimestamps | src/bcra_connector/rate_limiter.py:58-62 | the loop leaves the window as the purge of the old window |
| RateLimiting.RateLimiter.GetDelay | src/bcra_connector/rate_limiter.py:64-79 | purges the window and returns `Delay` of the purged window |
| RateLimiting.RateLimiter.Acquire | src/bcra_connector/rate_limiter.py:81-92 | returns the delay it waited; the new window is the purged window plus exactly one stamp, taken after the wait; a sorted window stays sorted |
| RateLimiting.RateLimiter.Reset | src/bcra_connector/rate_limiter.py:94-98 | the window is empty afterwards |
| RateLimiting.RateLimiter.CurrentUsage | src/bcra_connector/rate_limiter.py:100-105 | purges the window and returns its size |
| RateLimiting.RateLimiter.IsLimited | src/bcra_connector/rate_limiter.py:107-112 | purges the window; the result holds iff the purged size is at least `calls` |
| RateLimiting.RateLimiter.RemainingCalls | src/bcra_connector/rate_limiter.py:114-118 | purges the window and returns `max(0, calls - size)` |
| RateLimiting.BurstThenDelay | src/bcra_connector/rate_limiter.py:72-77 | from an empty window, `burst` acquires at one instant all return 0; the next acquire waits exactly `period`, which is positive |
| RateLimiting.ResetThenAcquire | src/bcra_connector/rate_limiter.py:94-105 | after `reset` the usage is 0, the next acquire waits nothing, and that acquire is the only entry in the window |
| Executor.StatusDetailCases | src/bcra_connector/bcra_connector.py:140-154 | what follows "HTTP {code} for {url}": ": " and the reason phrase for an undecodable body; ": " and the error messages joined by ", " when the body carries them; ": " and the body text for any other object; nothing for a decoded body that is not an object |
| Executor.NotFoundError | src/bcra_connector/bcra_connector.py:127-138 | a 404 answer raises an error of kind `NotFound`; its exact message is stated by `NotFoundErrorMessage` |
| Executor.NotFoundErrorMessage | src/bcra_connector/bcra_connector.py:127-138 | the 404 message starts with "HTTP 404: Resource not found at" and the URL, and so with "HTTP 404"; with `errorMessages` it is that head, ": " and the messages joined by ", "; without them it is the head alone |
| Executor.StatusHead | src/bcra_connector/bcra_connector.py:140 | the head of a non-404 message starts with "HTTP " and the code |
| Executor.StatusError | src/bcra_connector/bcra_connector.py:140-156 | any other error status raises an error whose kind carries the status; its exact message is stated by `StatusErrorMessage` |
| Executor.StatusErrorMessage | src/bcra_connector/bcra_connector.py:140-156 | the message starts with "HTTP " and the code; it is "HTTP {code} for {url}" followed by the joined error messages, the reason phrase of an undecodable body, the text of an object body without error messages, or nothing for a decoded body that is not an object |
| Executor.HttpError | src/bcra_connector/bcra_connector.py:123-156 | a 404 gives kind `NotFound`, and any other status a kind carrying its code; the exact message for each body is stated by `HttpErrorMessage` |
| Executor.HttpErrorMessage | src/bcra_connector/bcra_connector.py:123-156 | every HTTP error message starts with "HTTP " and the code; a 404 message starts with "HTTP 404: Resource not found at" and the URL; the exact message for each body: joined error messages after either head, the bare 404 head, and for other statuses the reason phrase, the object's text, or the head alone |
| Executor.AsDict | src/bcra_connector/bcra_connector.py:159 | `dict()` of a decoded body succeeds iff it is an object, an empty list or an empty string; an object is kept and the other two give an empty object |
| Executor.Classify | src/bcra_connector/bcra_connector.py:105-196 | an attempt is retried iff its outcome is a timeout, a connection failure that does not look like SSL, or another request failure, and it is not the last attempt |
| Executor.ClassifyDecides | src/bcra_connector/bcra_connector.py:123-196 | the last timeout, connection failure or request failure raises its message ("Request timed out after 3 attempts to", "API request failed: Connection error to", "API request failed after 3 attempts: " and the exception text); an SSL failure raises "SSL verification failed for" at any attempt; an error status raises `HttpError`; a good status returns the body's `dict()`, or raises "Invalid JSON response from" and the URL when `dict()` fails |
| Executor.RunFrom | src/bcra_connector/bcra_connector.py:105-199 | the loop makes between 1 and 3 GETs; its result is the verdict of the last GET, and every earlier attempt was retried |
| Executor.SendTime | src/bcra_connector/bcra_connector.py:107-113 | the GET leaves at the admission stamp the limiter recorded for it |
| Executor.Pace | src/bcra_connector/bcra_connector.py:107-113 | acquires exactly once before the GET; returns the limiter's delay; the window is `AfterAcquire` of the old one; the GET leaves at `SendTime` (the intended pacing) |
| Executor.PaceAsWritten | src/bcra_connector/bcra_connector.py:107-113 | the same acquire, but the GET leaves at `SendTimeAsWritten`, which sleeps the returned delay a second time |
| Executor.PacedGetKeepsRate | src/bcra_connector/bcra_connector.py:107-113 | once `burst` admissions are in the window, a paced GET leaves at least `period` after the admission `calls` places back, and exactly then when it had to wait |
| Executor.AsWrittenWaitsTwice | src/bcra_connector/bcra_connector.py:107-113 | as written, a GET that had to wait leaves one whole extra delay after its admission stamp; a GET that did not wait leaves on time |
| Executor.DoubleWaitExample | src/bcra_connector/bcra_connector.py:107-113 | for one call per 2 seconds and a call at time 0, the next GET should leave at 2; as written it leaves at 4 |
| Executor.TracesSpaced | src/bcra_connector/bcra_connector.py:107-196 | with no negative slack or duration, each GET leaves no earlier than the clock reading before its acquire, and no earlier than the previous GET plus its back-off |
| Executor.PacedGet | src/bcra_connector/bcra_connector.py:107-120 | one acquire and the GET after it: one more admission, the window moves to `AfterAcquire` and is recorded, and the GET's time is recorded as its `SendTime` |
| Executor.RetryStep | src/bcra_connector/bcra_connector.py:163-196 | an attempt that retries leaves the next attempt with its back-off recorded on schedule, the clock at the GET's end plus that back-off, and the same final result still ahead |
| Executor.DoneStep | src/bcra_connector/bcra_connector.py:105-199 | the first attempt that does not retry gives the request's result, makes the GET count one more than its index, and leaves every GET spaced by its back-off |
| Executor.Attempt | src/bcra_connector/bcra_connector.py:105-196 | one pass of the loop: one acquire and one GET; a retry is never the last attempt and sets up the next pass; any other verdict is the request's result, with the whole record of windows, clock readings, send times and back-offs |
| Executor.MakeRequest | src/bcra_connector/bcra_connector.py:99-199 | the result and the number of GETs are those of `RunFrom`; there are 1 to 3 GETs, each paced by exactly one acquire; GET `i` leaves at `SendTime` of window `i` and clock reading `i`, and the window after it is `AfterAcquire` of them; the first window is the limiter's and the last is what the limiter holds afterwards; the clock reading before each attempt is the previous GET's end plus its back-off of `1 * 2^attempt`; each GET leaves no earlier than the previous GET plus its back-off |
| Executor.RunFromFirstDecisive | src/bcra_connector/bcra_connector.py:105-196 | if the attempts before index k retry and attempt k does not, the loop returns attempt k's result after k + 1 GETs |
| Executor.BackoffSchedule | src/bcra_connector/bcra_connector.py:171 | the back-off sleeps are 1 and then 2 seconds |
| Executor.AllTimeouts | src/bcra_connector/bcra_connector.py:163-171 | three timeouts make three GETs and raise "Request timed out after 3 attempts to" followed by the URL |
| Executor.ThreeRequestFailures | src/bcra_connector/bcra_connector.py:187-196 | three other request failures make three GETs and raise "API request failed after 3 attempts: " followed by the text of the third exception |
| Executor.ThreeConnectionFailures | src/bcra_connector/bcra_connector.py:173-185 | three connection failures that do not look like SSL make three GETs and raise "API request failed: Connection error to" followed by the URL |
| Executor.TwoFailuresThenSuccess | src/bcra_connector/bcra_connector.py:105-185 | two connection failures followed by a good response return that response's object after exactly three GETs |
| Executor.SslFailsAtOnce | src/bcra_connector/bcra_connector.py:173-176 | a connection failure that looks like SSL ends the loop at any attempt with "SSL verification failed for" followed by the URL |
| Executor.SslTextDetected | src/bcra_connector/bcra_connector.py:175 | "ssl" anywhere in the error text, in any letter case, counts as an SSL failure |
| Executor.FirstResponseDecides | src/bcra_connector/bcra_connector.py:123-161 | the first response ends the loop after one GET; an error status raises exactly its `HttpError`, whose message starts with "HTTP" and the code; a good status returns the body's `dict()` (an empty list gives an empty object), or raises "Invalid JSON response from" followed by the URL when `dict()` fails |
| Executor.NotFoundMessage | src/bcra_connector/bcra_connector.py:127-138 | a 404 error has kind `NotFound`, and its message contains "404" |
| Connector.NoneIfEmpty | src/bcra_connector/bcra_connector.py:323 | no parameters are sent iff the map is empty; otherwise the map itself is sent |
| Connector.DateParam | src/bcra_connector/bcra_connector.py:309-312 | a supplied datetime is sent as the `YYYY-MM-DD` text of its date; an absent one is not sent |
| Connector.DatosVariableParams | src/bcra_connector/bcra_connector.py:308-316 | the parameters hold exactly the arguments supplied, with dates as `YYYY-MM-DD` and integers unchanged |
| Connector.DatosVariableRequest | src/bcra_connector/bcra_connector.py:292-323 | rejects an inverted range, then a limit outside 10..3000, then a negative offset, each with the source's message; it succeeds iff none applies; then the endpoint is `estadisticas/v3.0/monetarias/{id}` and parameters are sent only if an argument was supplied |
| Connector.DatosVariableBounds | src/bcra_connector/bcra_connector.py:300-304 | limits 10 and 3000, offset 0 and a one-instant range are accepted; 9, 3001 and offset -1 are rejected; with no arguments no parameters are sent |
| Connector.DateParamsParseBack | src/bcra_connector/bcra_connector.py:309-312 | the sent date parameters parse back to exactly the calendar dates of `desde` and `hasta` |
| Connector.EvolucionMonedaRequest | src/bcra_connector/bcra_connector.py:541-557 | rejects a limit outside 10..1000, then a negative offset; it succeeds iff neither applies; it always sends `limit` and `offset`, and sends the two dates only when given |
| Connector.EvolucionMonedaDefaults | src/bcra_connector/bcra_connector.py:520-527 | the default arguments `limit=1000` and `offset=0` pass, and only those two parameters are sent |
| Connector.EvolucionMonedaResults | src/bcra_connector/bcra_connector.py:559-579 | a missing or non-list `results` raises the invalid-format error naming the currency; otherwise it succeeds iff every element converts, and the result is those elements in order; a failing element raises its error text after the prefix `EvolucionErrorPrefix` picks |
| Connector.EvolucionErrorPrefix | src/bcra_connector/bcra_connector.py:569-578 | a `TypeError` (a non-object, or a value of a type the constructor cannot take) gets "Error fetching evolution for {moneda}: "; a `KeyError` or `ValueError` gets "Unexpected response format or data for {moneda}: ", and only those |
| Connector.Entidades | src/bcra_connector/bcra_connector.py:404-425 | a request error is re-raised with the prefix "Error fetching financial entities: "; it succeeds iff `results` is a list whose elements all convert, and the result is those entities in order |
| Connector.ChequeDenunciado | src/bcra_connector/bcra_connector.py:427-456 | a request error is re-raised unchanged; a missing or non-object `results` raises the invalid-format error; otherwise it succeeds iff the check record converts |
| Connector.FindEntityFrom | src/bcra_connector/bcra_connector.py:696-704 | -1 iff no entity from the start index has a present, non-empty name whose lower-cased form is the key; otherwise the first index that has it |
| Connector.FindEntity | src/bcra_connector/bcra_connector.py:696-704 | none iff no entity has a present, non-empty name equal, ignoring case, to the stripped, lower-cased query; otherwise the first such entity; an entity without a name never matches |
| Connector.CheckDenunciadoAsWritten | src/bcra_connector/bcra_connector.py:687-724 | rejects a check number that is not positive; re-raises an entities error; rejects an unknown entity; otherwise succeeds iff the check request succeeds or fails with any error whose text contains "404", giving `denunciado` or false; every other API error is re-raised |
| Connector.CheckDenunciado | src/bcra_connector/bcra_connector.py:687-724 | rejects a check number that is not positive; re-raises an entities error; rejects an unknown entity; otherwise succeeds iff the check request succeeds or answers 404, giving `denunciado` or false; it re-raises every other API error |
| Connector.CheckDenunciadoVersionsAgreeOnNotFound | src/bcra_connector/bcra_connector.py:713-719 | the two versions agree whenever the check request succeeds or answers a 404 whose text mentions 404 |
| Connector.NotFoundErrorsMention404 | src/bcra_connector/bcra_connector.py:127-138 | every 404 error of the executor has kind `NotFound` and says "404", so the corrected test loses no not-found case |
| Connector.FetchCheck404TimesOut | src/bcra_connector/bcra_connector.py:163-170 | for any entity code, fetching check 404 with three timeouts raises the timeout error naming the check URL, so its message contains "404" |
| Connector.FindBna | src/bcra_connector/bcra_connector.py:696-704 | the query "bna" skips an entity without a name and finds the entity named "BNA" |
| Connector.TimeoutOnCheck404ReadAsNotReported | src/bcra_connector/bcra_connector.py:713-719 | for any entity the name finds, the code as written reads a timeout on check 404 as "not reported", while the corrected reading raises the timeout |
| Connector.VariableByName | src/bcra_connector/bcra_connector.py:583-606 | nothing when the variables cannot be fetched or none matches; otherwise the first variable whose lower-cased, non-empty description contains the stripped, lower-cased name |
| Connector.BlankNameMatchesAnyDescription | src/bcra_connector/bcra_connector.py:598-602 | a blank name matches every variable that has a description |
| Connector.CotizacionDetalleFor | src/bcra_connector/bcra_connector.py:840-861 | empty details raise the invalid-object error; otherwise it returns the first detail with the code, or raises "not found" with the date iff no detail has it |
| Connector.LastQuoted | src/bcra_connector/bcra_connector.py:753-757 | the index of the last detail with the code, or -1 iff no detail has it |
| Connector.QuotationTableLastWins | src/bcra_connector/bcra_connector.py:753-757 | a code is in the table iff it is non-empty and quoted; its value is the quotation of its last detail |
| Connector.LatestQuotations | src/bcra_connector/bcra_connector.py:734-757 | an error from `get_cotizaciones` is re-raised; otherwise the keys are exactly the non-empty quoted codes, and each maps to its last quotation |
| Connector.LaterDuplicateWins | src/bcra_connector/bcra_connector.py:753-757 | of two details with the same code, the later one's quotation is kept |
| LegacyConnector.Classify | bcra_connector.py:98-107 | an attempt is retried iff it raised a request exception and it is not the last attempt; a good response ends the loop with its decoded body |
| LegacyConnector.RunFrom | bcra_connector.py:98-107 | between 1 and 3 GETs; the result is the verdict of the last GET, and every earlier attempt was retried |
| LegacyConnector.RunFromFirstDecisive | bcra_connector.py:98-107 | the loop returns the result of the first attempt that does not retry, after that many GETs |
| LegacyConnector.MakeRequest | bcra_connector.py:96-107 | the result and GET count are those of `RunFrom`; 1 to 3 GETs, with back-off sleeps of `1 * 2^attempt` between them |
| LegacyConnector.LastAttemptDecides | bcra_connector.py:105-106 | the third attempt never retries |
| LegacyConnector.NotFoundText | bcra_connector.py:101 | `raise_for_status` words a 404 as "404 Client Error: Not Found for url:" followed by the URL |
| LegacyConnector.NotFoundRetried | bcra_connector.py:98-107 | three 404 responses are each retried; after three GETs the loop raises "API request failed after 3 attempts:" with the HTTP error text |
| LegacyConnector.SuccessEndsLoop | bcra_connector.py:98-102 | the first good response ends the loop with its decoded body, after exactly that many GETs |
| LegacyConnector.PrincipalVariableFromJson | bcra_connector.py:121-128 | succeeds iff the five fields are present with their types; the record carries their values |
| LegacyConnector.DatosVariableFromJson | bcra_connector.py:160-165 | succeeds iff `idVariable`, `fecha` and `valor` are present with their types; the record carries their values |
| LegacyConnector.ReadResults | bcra_connector.py:160-169 | data that is not an object escapes unhandled; a missing `results` key, or a missing key in an element, becomes "Unexpected response format: '<key>'"; it succeeds iff `results` can be iterated (a list, a string, or an empty object) and every item converts, and the result is the converted items in order; an empty object, an empty string and an empty list give no records |
| JsonModel.Iterated | bcra_connector.py:166 | what `for item in ...` yields: the items of a list, the one-character strings of a string, nothing for an empty object; null, numbers and booleans cannot be iterated, and a non-empty object is not iterated because every caller fails on its first key |
| JsonModel.GetIterable | src/bcra_connector/cheques/cheques.py:110 | the items `for x in data[key]` visits; a missing key is reported; null, numbers and booleans are a type error; a non-empty object fails as its keys would, as non-objects |
| LegacyConnector.PrincipalesVariables | bcra_connector.py:119-132 | a request failure is raised as an API error; otherwise as `ReadResults` with the principal-variable record |
| LegacyConnector.DatosVariableEndpoint | bcra_connector.py:150-159 | rejects `desde > hasta`, then a span over 365 days measured to the microsecond; it succeeds iff neither applies; the endpoint is `DatosVariable/{id}/{desde date}/{hasta date}` |
| LegacyConnector.YearLimitIsInclusive | bcra_connector.py:153-154 | exactly 365 days is accepted; one microsecond more is rejected |
| LegacyConnector.LeapYearTooLong | bcra_connector.py:153-154 | a whole leap year (366 days) is rejected |
| LegacyConnector.DatosVariableResult | bcra_connector.py:156-169 | a request failure is raised as an API error; otherwise as `ReadResults` with the data-point record |
| LegacyConnector.FirstLatest | bcra_connector.py:191 | the index of a date that no other date follows, and the first such index |
| LegacyConnector.PointDates | bcra_connector.py:191 | succeeds iff every `fecha` parses; the dates keep their order |
| LegacyConnector.LatestValue | bcra_connector.py:184-191 | empty data raises "No data available for variable {id}"; a date that does not parse escapes as an unhandled error; otherwise the result is the first data point with the latest date |
| LegacyConnector.TieGoesToFirst | bcra_connector.py:191 | of two points with the same date, the first is returned |
| Cheques.EntidadFromJson | src/bcra_connector/cheques/cheques.py:17-23 | a non-object is refused; a missing `codigoEntidad` is reported first; succeeds iff `codigoEntidad` is an integer and `denominacion` is a string or null; the entity carries the code and the name, a null name being absent |
| Cheques.ChequeDetalleFromJson | src/bcra_connector/cheques/cheques.py:39-46 | succeeds iff `sucursal`, `numeroCuenta` and `causal` are present with their types; `numeroCuenta` becomes the account number |
| Cheques.DetallesFromJson | src/bcra_connector/cheques/cheques.py:74 | an absent `detalles` gives no details; a present one succeeds iff it can be iterated and every item converts to a detail, and the details are those items converted in order; a list is converted element by element |
| Cheques.ChequeFromJson | src/bcra_connector/cheques/cheques.py:66-75 | a non-object is refused and a missing `numeroCheque` is reported first; an object succeeds iff the four fields and the details all read; every field is read from its key; the processing date is a valid `YYYY-MM-DD` date |
| Cheques.MissingDetallesMeansNone | src/bcra_connector/cheques/cheques.py:74 | a check without `detalles` decodes iff its four other fields read, and then it has no details |
| Cheques.EntidadResponseFromJson | src/bcra_connector/cheques/cheques.py:105-111 | a non-object is refused; succeeds iff `status` is an integer and `results` can be iterated with every item converting to an entity; the status and the entities, in order, come from those keys; an empty object, an empty string or an empty list under `results` gives no entities |
| Cheques.ChequeResponseFromJson | src/bcra_connector/cheques/cheques.py:125-131 | a non-object is refused; succeeds iff `status` is an integer and `results` is present and converts to a check; the status and the check come from those keys |
| Cheques.ErrorResponseFromJson | src/bcra_connector/cheques/cheques.py:145-151 | a non-object is refused; succeeds iff `status` is an integer and `errorMessages` is a list of strings; the list is carried unchanged |
| Cheques.ChequeToJson | src/bcra_connector/cheques/cheques.py:77-91 | writes exactly the five keys of a check |
| Cheques.EntidadRoundTrip | src/bcra_connector/cheques/cheques.py:17-23 | an entity, with or without a name, survives encoding followed by `from_dict` |
| Cheques.DetalleRoundTrip | src/bcra_connector/cheques/cheques.py:39-46 | a detail survives `to_dict`'s detail encoding followed by `from_dict` |
| Cheques.ChequeRoundTrip | src/bcra_connector/cheques/cheques.py:66-91 | `from_dict(to_dict(c)) == c` for every check |
| Cheques.DetalleFromJsonInverts | src/bcra_connector/cheques/cheques.py:39-46 | a decoded detail that carries exactly the three keys of a detail is the encoding of the detail built from it |
| Cheques.ChequeFromJsonInverts | src/bcra_connector/cheques/cheques.py:66-91 | a decoded check that carries exactly the keys `to_dict` writes, with a list of details, is `to_dict` of the check built from it |
| EstadisticasCambiarias.DivisaFromJson | estadisticas_cambiarias.py:17-23 | succeeds iff `codigo` and `denominacion` are strings; a missing `codigo` is reported first |
| EstadisticasCambiarias.CotizacionDetalleFromJson | estadisticas_cambiarias.py:41-49 | succeeds iff the two texts are strings and the two rates are numbers `float()` accepts; the rates are their float values |
| EstadisticasCambiarias.CotizacionFechaFromJson | estadisticas_cambiarias.py:63-69 | a non-object is refused; a missing `fecha`, then a missing `detalle`, is reported; succeeds iff the date parses and `detalle` can be iterated with every item converting; the details are those items converted in order |
| EstadisticasCambiarias.CotizacionFechaToJson | estadisticas_cambiarias.py:71-83 | writes exactly `fecha` and `detalle`, with one entry per detail |
| EstadisticasCambiarias.DivisaRoundTrip | estadisticas_cambiarias.py:17-23 | a currency survives encoding followed by `from_dict` |
| EstadisticasCambiarias.CotizacionFechaRoundTrip | estadisticas_cambiarias.py:63-83 | `from_dict(to_dict(c)) == c` for every date's quotations |
| EstadisticasCambiarias.CotizacionFechaFromJsonInverts | estadisticas_cambiarias.py:63-83 | a decoded object with exactly the keys `to_dict` writes, a list of details and float rates, is `to_dict` of what it builds |
| EstadisticasCambiarias.IntegerRateBecomesFloat | estadisticas_cambiarias.py:47-48 | an integer rate is read as a float, so after a round trip it is a float |
| IsoDate.FormatThenParse | src/bcra_connector/cheques/cheques.py:72 | every date parses back from its `isoformat` text |
| IsoDate.ParseThenFormat | src/bcra_connector/cheques/cheques.py:82 | a string that parses is exactly the `isoformat` text of its date |
| JsonModel.GetOptStr | src/bcra_connector/cheques/cheques.py:21 | succeeds iff the key holds a string or null; a string is carried, and null reads as absent |
| JsonModel.MapAll | src/bcra_connector/cheques/cheques.py:74 | a list comprehension over a constructor that may fail: it succeeds iff every element converts, in order; otherwise it gives the first failing element's error |
| JsonModel.GetDate | src/bcra_connector/cheques/cheques.py:72 | succeeds iff the key holds a string that parses as a date, and that string is the date's `isoformat` text; a value that is not a string is a type error and a string that does not parse a value error, as `date.fromisoformat` raises them |
| JsonModel.GetFloat | estadisticas_cambiarias.py:47-48 | succeeds iff the key holds an integer, float or boolean, giving its float value; any string is a value error (numeric strings are not parsed) and any other value a type error |
| SemVer.IsValidMeansThreeRuns | src/bcra_connector/_version.py:37-41 | the test holds iff the string is three non-empty digit runs joined by single dots |
| SemVer.FromStr | src/bcra_connector/_version.py:26-35 | fails iff the string is not valid, with an error that carries the string; otherwise the components are the decimal values of the three runs |
| SemVer.RoundTrip | src/bcra_connector/_version.py:22-35 | `from_str(str(v)) == v` for non-negative components |
| SemVer.LeadingZeroIgnored | src/bcra_connector/_version.py:34 | `int` ignores a leading zero: "0" followed by a digit string denotes the same number |
| SemVer.LeadingZerosNormalised | src/bcra_connector/_version.py:34 | any version printed with a zero in front reads back as that version, so reading and printing does not return such input |
| SemVer.IncrementsAdvance | src/bcra_connector/_version.py:51-61 | each increment gives a later version; every version between `v` and `increment_major(v)` has `v`'s major, and every version with `v`'s major comes before it; every version between `v` and `increment_minor(v)` has `v`'s major and minor, and every version with both comes before it; nothing lies between `v` and `increment_patch(v)`; no increment has a negative component |
| SemVer.MajorIncrementIsDetermined | src/bcra_connector/_version.py:51-53 | a later non-negative version that every `(M, _, _)` precedes and with nothing else in between is exactly `(M+1, 0, 0)` |
| SemVer.MinorIncrementIsDetermined | src/bcra_connector/_version.py:55-57 | a later version that every `(M, m, _)` precedes and with nothing else in between is exactly `(M, m+1, 0)` |
| SemVer.CompatibilityIsEquivalence | src/bcra_connector/_version.py:63-65 | compatibility is reflexive, symmetric and transitive |
| SemVer.IncrementsAndCompatibility | src/bcra_connector/_version.py:51-65 | minor and patch increments stay compatible; a major increment is never compatible |
| SemVer.DevVersionIsNotRelease | src/bcra_connector/_version.py:43-45 | the `.dev0` string of a version is not a valid release version |
| SemVer.RcVersionIsNotRelease | src/bcra_connector/_version.py:47-49 | an `rc` string of a version is not a valid release version |
| SemVer.VersionInfo | src/bcra_connector/_version.py:68-69 | "0.3.3" parses to version 0.3.3 |
| Text.ParseNatToString | src/bcra_connector/_version.py:24 | reading the decimal text of a natural number gives the number back |

## Left out

**Not modelled at all**

- HTTP transport, sessions, headers and `verify_ssl`: each GET is a scripted outcome. The URL, the reason phrase and `str()` of a decoded body are opaque text.
- The lock, threads and `time.sleep` of the rate limiter and the executor: they are single-threaded, and the clock is explicit.
- `_last_check` of the rate limiter: it is set but never read.
- Logging, and `TimeoutConfig`: timeouts are just one kind of outcome.

**Simplified**

- RateLimiting.RateLimiter.GetDelay: `_get_delay` reads the clock twice. Once directly, and once inside `_clean_old_timestamps`. The model uses one reading for both.
- RateLimiting.RateLimiter.Acquire: the clock reading after the wait is `now + delay + slack`. It does not model a clock that jumps.

**Versions and parsing**

- SemVer.IsValidMeansThreeRuns: the `$` of the pattern also accepts one trailing newline, and `\d` accepts non-ASCII digits. The model accepts neither.
- SemVer.FromStr: the same inputs are left out.

**Executor and responses**

- Executor.MakeRequest: the GET leaves when `acquire` returns (`Pace`, `SendTime`), not after the second sleep of the returned delay that the source adds (`PaceAsWritten`, see Findings).
- Executor.Classify: `dict()` of a decoded body that is neither an object, an empty list nor an empty string is always the "Invalid JSON response" error here. Python instead:
  - builds an object from a list whose items are each two-item lists, two-character strings or two-key objects (an object gives its two keys as the pair);
  - raises `ValueError`, which is that error, for a non-empty string and for a list whose first bad item is a string, list or object of another length;
  - raises `TypeError`, which escapes `_make_request`, for null, numbers and booleans, and for a list whose first bad item is null, a number, a boolean, or a pair whose key is a list or an object.
- Executor.ErrorMessages: a list of strings and a string (joined character by character) are modelled. For other `errorMessages` values the model sees no messages, but Python:
  - joins the keys of an object;
  - raises an escaping `TypeError` for a list with an item that is not a string, and for null, numbers and booleans.
- Executor.HttpError: an error body that decodes to null, a number or a boolean makes `"errorMessages" in error_data` raise `TypeError`, which escapes `_make_request`. So does a string or list body that contains the text "errorMessages". The model reads such bodies as having no messages.
- Executor.StatusError: `str(error_data)` of an object body is the opaque `bodyText`, not Python's `repr` of the dict.
- Error kinds: the structured `kind` of an API error is an addition. The source has only the message, and the model keeps the source's messages.
- LegacyConnector.Classify: a good status with an undecodable body is retried. This matches how `requests` 2.27 and later raise `JSONDecodeError` as a `RequestException`.
- LegacyConnector.ReadResults: iterating a non-empty object yields its keys, and each one fails as a string. The model reports the same unhandled failure without iterating the keys.

**Record fields and text**

The record constructors copy whatever value a key holds, and the model requires the type the source declares:

- Cheques.EntidadFromJson: `denominacion` must be a string or null.
- Cheques.ChequeDetalleFromJson: the three fields must have their types.
- Cheques.ChequeFromJson: every field must have its type.
- Cheques.EntidadResponseFromJson: `status` must be an integer.
- Cheques.ChequeResponseFromJson: `status` must be an integer.
- Cheques.ErrorResponseFromJson: `status` must be an integer and `errorMessages` a list of strings.
- EstadisticasCambiarias.DivisaFromJson: both fields must be strings.
- EstadisticasCambiarias.CotizacionDetalleFromJson: the texts must be strings. `float()` takes integers, floats and booleans here, but not numeric strings.
- JsonModel.GetFloat: every string is refused with `ValueError`. Python's `float()` parses numeric text such as `"1.5"`, and the model does not parse decimal text.
- LegacyConnector.PrincipalVariableFromJson: the five fields must have their types.
- LegacyConnector.DatosVariableFromJson: the three fields must have their types.
- Dates must be strict `YYYY-MM-DD`.
  - Python 3.11 `date.fromisoformat` and the legacy `strptime` accept more forms.
  - `strftime` pads years before 1000 differently.
- Connector.FieldErrorText: the text of a constructor's exception is invented for wrong types, bad values and non-objects. Only the `KeyError` text `'<key>'` follows Python.
- Text.Lower, Text.Upper, Text.Strip: these cover ASCII only. Python's case mapping and whitespace cover all of Unicode.

**Operations not modelled**

- Floating-point analytics: `get_currency_pair_evolution`'s rate division and the statistics helpers after it.
- The other v3.0 and exchange endpoints:
  - `get_principales_variables` (v3.0), `get_variable_history` and `get_currency_evolution`;
  - the current connector's `get_latest_value`;
  - `get_divisas` and `get_cotizaciones`.

  Their results are parameters where a modelled operation uses them.
- Fields of a principal variable other than its id and description. Only those two are used by `get_variable_by_name`.
- src/bcra_connector/estadisticas_cambiarias/estadisticas_cambiarias.py is not part of this model. The root `estadisticas_cambiarias.py` is modelled instead.

## Findings

| source | as written | input that shows it | evidently intended | confidence | as-written member | corrected member |
|---|---|---|---|---|---|---|
| src/bcra_connector/bcra_connector.py:107-113 | `acquire` has already slept the delay, and the connector sleeps the returned delay again before the GET | one call per 2 s, a call at time 0, the next request at time 0: the GET leaves at 4 s instead of 2 s | the GET leaves when `acquire` returns | not executed | Executor.PaceAsWritten, Executor.DoubleWaitExample, Executor.AsWrittenWaitsTwice | Executor.Pace, Executor.PacedGetKeepsRate (used by Executor.MakeRequest through Executor.PacedGet) |
| src/bcra_connector/bcra_connector.py:713-719 | any API error whose text contains "404" is read as "check not reported" | `check_denunciado("bna", 404)` for entity 11 when the check request times out three times: the timeout message ends in the URL `…/11/404`, so the result is False | only a 404 answer means "not reported"; other errors are raised | not executed | Connector.CheckDenunciadoAsWritten, Connector.TimeoutOnCheck404ReadAsNotReported | Connector.CheckDenunciado, Connector.NotFoundErrorsMention404 |
