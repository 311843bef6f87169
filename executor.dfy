/**
 * `BCRAConnector._make_request`: up to three attempts, each paced by the
 * rate limiter and followed by a GET whose outcome is classified into a
 * decoded JSON object or one uniform API error.
 *
 * The transport is a script: one `Step` per possible attempt, giving the
 * outcome of the GET, the clock slack of the limiter's wait and the time
 * the GET took. The error carries a structured `kind` next to the message
 * the source builds.
 */
module Executor {
  import opened Results
  import opened Text
  import opened JsonModel
  import opened RateLimiting

  const BaseUrl: string := "https://api.bcra.gob.ar"
  const MaxRetries: nat := 3
  const RetryDelay: real := 1.0

  /** `f"{self.BASE_URL}/{endpoint}"`. */
  function Url(endpoint: string): string {
    BaseUrl + "/" + endpoint
  }

  /** What `response.json()` gives: a decoded value, or the decoder's complaint. */
  datatype Body = Undecodable(complaint: string) | Decoded(value: Json)

  /** One GET as the transport reports it. */
  datatype Outcome =
    | TimedOut(text: string)                          // requests.Timeout
    | ConnectionFailed(sslError: bool, text: string)  // requests.ConnectionError; sslError: an SSLError instance
    | OtherFailure(text: string)                      // any other requests.RequestException
    | Responded(status: int, url: string, reason: string, body: Body, bodyText: string)
      // a response; url, reason and bodyText (`str()` of a decoded body) are opaque text

  datatype Step = Step(outcome: Outcome, slack: real, elapsed: real)

  datatype ErrorKind =
    | Timeout
    | ConnectionFailure
    | SslVerification
    | RequestFailure
    | NotFound
    | HttpStatus(code: int)
    | MalformedResponse
    | UnexpectedFormat
    | Unexpected

  /** `BCRAApiError`, with a discriminant beside its message. */
  datatype ApiError = ApiError(kind: ErrorKind, message: string)

  type JsonObject = map<string, Json>

  /** `response.raise_for_status()` raises for client and server errors. */
  predicate IsHttpError(status: int) {
    400 <= status < 600
  }

  /** The connection error is an `SSLError`, or its text mentions SSL in any case. */
  predicate LooksLikeSsl(sslError: bool, text: string) {
    sslError || Contains(Upper(text), "SSL")
  }

  /** The failures the loop retries. */
  predicate Transient(o: Outcome) {
    o.TimedOut? || o.OtherFailure? || (o.ConnectionFailed? && !LooksLikeSsl(o.sslError, o.text))
  }

  /** The one-character strings `join` takes from a string it is given. */
  function Characters(s: string): (cs: seq<string>)
    ensures |cs| == |s| && forall i :: 0 <= i < |s| ==> cs[i] == [s[i]]
  {
    seq(|s|, i requires 0 <= i < |s| => [s[i]])
  }

  /**
   * What `', '.join(error_data['errorMessages'])` joins, for a decoded
   * object body: the strings of a list of strings, or the characters of a
   * string.
   */
  function ErrorMessages(body: Body): Option<seq<string>> {
    if body.Decoded? && body.value.JObj? && "errorMessages" in body.value.fields then
      match body.value.fields["errorMessages"]
      case JArr(items) => if AllStrings(items) then Some(Strings(items)) else None
      case JStr(text) => Some(Characters(text))
      case _ => None
    else None
  }

  function Suffix(ms: Option<seq<string>>): string {
    if ms.Some? then ": " + Join(ms.value, ", ") else ""
  }

  /** What follows "HTTP {code} for {url}" in the message for a status other than 404. */
  function StatusDetail(reason: string, body: Body, bodyText: string): string {
    match body
    case Undecodable(_) => ": " + reason
    case Decoded(v) =>
      if ErrorMessages(body).Some? then Suffix(ErrorMessages(body))
      else if v.JObj? then ": " + bodyText
      else ""
  }

  /** The detail is the decoding error, the joined error messages, the whole body text of an object, or nothing. */
  lemma StatusDetailCases(reason: string, body: Body, bodyText: string)
    ensures body.Undecodable? ==> StatusDetail(reason, body, bodyText) == ": " + reason
    ensures ErrorMessages(body).Some? ==> StatusDetail(reason, body, bodyText) == ": " + Join(ErrorMessages(body).value, ", ")
    ensures body.Decoded? && ErrorMessages(body).None? && body.value.JObj? ==> StatusDetail(reason, body, bodyText) == ": " + bodyText
    ensures body.Decoded? && !body.value.JObj? ==> StatusDetail(reason, body, bodyText) == ""
  {
  }

  /** Proof helper: the decimal text of 404, used by the 404 message lemmas. */
  lemma Str404()
    ensures IntToString(404) == "404"
  {
    assert NatToString(404) == NatToString(40) + [DigitChar(4)];
  }

  /** Proof helper: the 404 message starts with the status head `HTTP 404`. */
  lemma NotFoundHeadNamesCode()
    ensures "HTTP " + IntToString(404) <= "HTTP 404: Resource not found at "
  {
    Str404();
    assert "HTTP 404: Resource not found at " == "HTTP " + "404" + ": Resource not found at ";
  }

  /** Proof helper: the prefix order on strings is transitive. */
  lemma PrefixTrans(a: string, b: string, c: string)
    requires a <= b && b <= c
    ensures a <= c
  {
    assert c[..|a|] == b[..|a|];
  }

  /** Proof helper: a string is a prefix of any extension of it. */
  lemma PrefixOfConcat(a: string, b: string)
    ensures a <= a + b
  {
    assert (a + b)[..|a|] == a;
  }

  /** The error raised for a 404 answer. */
  function NotFoundError(url: string, body: Body): (e: ApiError)
    ensures e.kind == NotFound
  {
    ApiError(NotFound, "HTTP 404: Resource not found at " + url + Suffix(ErrorMessages(body)))
  }

  /** The 404 message names the URL, then the joined error messages when the body carries them. */
  lemma NotFoundErrorMessage(url: string, body: Body)
    ensures "HTTP 404: Resource not found at " + url <= NotFoundError(url, body).message
    ensures "HTTP " + IntToString(404) <= NotFoundError(url, body).message
    ensures ErrorMessages(body).Some? ==>
              NotFoundError(url, body).message == "HTTP 404: Resource not found at " + url + ": " + Join(ErrorMessages(body).value, ", ")
    ensures ErrorMessages(body).None? ==> NotFoundError(url, body).message == "HTTP 404: Resource not found at " + url
  {
    var head := "HTTP 404: Resource not found at " + url;
    assert NotFoundError(url, body).message == head + Suffix(ErrorMessages(body));
    PrefixOfConcat(head, Suffix(ErrorMessages(body)));
    NotFoundHeadNamesCode();
    PrefixOfConcat("HTTP 404: Resource not found at ", url);
    PrefixTrans("HTTP " + IntToString(404), "HTTP 404: Resource not found at ", head);
    PrefixTrans("HTTP " + IntToString(404), head, head + Suffix(ErrorMessages(body)));
  }

  /** `f"HTTP {status_code} for {response.url}"`, the start of the message for a status other than 404. */
  function StatusHead(status: int, url: string): (h: string)
    ensures "HTTP " + IntToString(status) <= h
  {
    PrefixOfConcat("HTTP " + IntToString(status), " for " + url);
    assert "HTTP " + IntToString(status) + " for " + url == "HTTP " + IntToString(status) + (" for " + url);
    "HTTP " + IntToString(status) + " for " + url
  }

  /** The error raised for any other client or server error status. */
  function StatusError(status: int, url: string, reason: string, body: Body, bodyText: string): (e: ApiError)
    ensures e.kind == HttpStatus(status)
  {
    ApiError(HttpStatus(status), StatusHead(status, url) + StatusDetail(reason, body, bodyText))
  }

  /** The message of a non-404 error starts with the code and URL, followed by the detail `_make_request` picks. */
  lemma StatusErrorMessage(status: int, url: string, reason: string, body: Body, bodyText: string)
    ensures "HTTP " + IntToString(status) <= StatusError(status, url, reason, body, bodyText).message
    ensures ErrorMessages(body).Some? ==>
              StatusError(status, url, reason, body, bodyText).message == StatusHead(status, url) + ": " + Join(ErrorMessages(body).value, ", ")
    ensures body.Undecodable? ==> StatusError(status, url, reason, body, bodyText).message == StatusHead(status, url) + ": " + reason
    ensures body.Decoded? && ErrorMessages(body).None? && body.value.JObj? ==>
              StatusError(status, url, reason, body, bodyText).message == StatusHead(status, url) + ": " + bodyText
    ensures body.Decoded? && !body.value.JObj? ==> StatusError(status, url, reason, body, bodyText).message == StatusHead(status, url)
  {
    var head := StatusHead(status, url);
    var detail := StatusDetail(reason, body, bodyText);
    StatusDetailCases(reason, body, bodyText);
    PrefixOfConcat(head, detail);
    PrefixTrans("HTTP " + IntToString(status), head, head + detail);
  }

  /** The error raised for a response that fails `raise_for_status`. */
  function HttpError(status: int, url: string, reason: string, body: Body, bodyText: string): (e: ApiError)
    ensures status == 404 ==> e.kind == NotFound
    ensures status != 404 ==> e.kind == HttpStatus(status)
  {
    if status == 404 then NotFoundError(url, body) else StatusError(status, url, reason, body, bodyText)
  }

  /** The message of any HTTP error names its code, and ends as the 404 or non-404 rules say. */
  lemma HttpErrorMessage(status: int, url: string, reason: string, body: Body, bodyText: string)
    ensures status == 404 ==> "HTTP 404: Resource not found at " + url <= HttpError(status, url, reason, body, bodyText).message
    ensures "HTTP " + IntToString(status) <= HttpError(status, url, reason, body, bodyText).message
    ensures ErrorMessages(body).Some? ==>
              HttpError(status, url, reason, body, bodyText).message
              == (if status == 404 then "HTTP 404: Resource not found at " + url else StatusHead(status, url))
                 + ": " + Join(ErrorMessages(body).value, ", ")
    ensures status == 404 && ErrorMessages(body).None? ==>
              HttpError(status, url, reason, body, bodyText).message == "HTTP 404: Resource not found at " + url
    ensures status != 404 && body.Undecodable? ==>
              HttpError(status, url, reason, body, bodyText).message == StatusHead(status, url) + ": " + reason
    ensures status != 404 && body.Decoded? && ErrorMessages(body).None? && body.value.JObj? ==>
              HttpError(status, url, reason, body, bodyText).message == StatusHead(status, url) + ": " + bodyText
    ensures status != 404 && body.Decoded? && !body.value.JObj? ==>
              HttpError(status, url, reason, body, bodyText).message == StatusHead(status, url)
  {
    if status == 404 {
      NotFoundErrorMessage(url, body);
    } else {
      StatusErrorMessage(status, url, reason, body, bodyText);
    }
  }

  /**
   * Python's `dict(...)` of a decoded body, where it succeeds: an object is
   * kept, and an empty list or an empty string gives an empty object.
   */
  function AsDict(v: Json): (r: Option<JsonObject>)
    ensures v.JObj? ==> r == Some(v.fields)
    ensures v == JArr([]) || v == JStr("") ==> r == Some(map[])
    ensures r.Some? <==> v.JObj? || v == JArr([]) || v == JStr("")
  {
    if v.JObj? then Some(v.fields)
    else if v == JArr([]) || v == JStr("") then Some(map[])
    else None
  }

  /** What one attempt decides: a result to hand back (or raise), or another attempt. */
  datatype Verdict = Done(result: Result<JsonObject, ApiError>) | Retry

  /** The body of the loop for one outcome of the GET at index `attempt`. */
  function Classify(url: string, o: Outcome, attempt: nat): (v: Verdict)
    requires attempt < MaxRetries
    ensures v.Retry? <==> Transient(o) && attempt < MaxRetries - 1
  {
    var last := attempt == MaxRetries - 1;
    match o
    case TimedOut(_) =>
      if last then Done(Err(ApiError(Timeout, "Request timed out after 3 attempts to " + url))) else Retry
    case ConnectionFailed(sslError, text) =>
      if LooksLikeSsl(sslError, text) then Done(Err(ApiError(SslVerification, "SSL verification failed for " + url)))
      else if last then Done(Err(ApiError(ConnectionFailure, "API request failed: Connection error to " + url)))
      else Retry
    case OtherFailure(text) =>
      if last then Done(Err(ApiError(RequestFailure, "API request failed after 3 attempts: " + text))) else Retry
    case Responded(status, respUrl, reason, body, bodyText) =>
      if IsHttpError(status) then Done(Err(HttpError(status, respUrl, reason, body, bodyText)))
      else if body.Decoded? && AsDict(body.value).Some? then Done(Ok(AsDict(body.value).value))
      else Done(Err(ApiError(MalformedResponse, "Invalid JSON response from " + url)))
  }

  /**
   * What each outcome decides: the final timeout, connection and request
   * errors on the last attempt, an SSL failure at once, the HTTP error of a
   * failing status, the decoded object of a good response, and the invalid
   * JSON error otherwise.
   */
  lemma ClassifyDecides(url: string, o: Outcome, attempt: nat)
    requires attempt < MaxRetries
    ensures o.TimedOut? && attempt == MaxRetries - 1 ==>
              Classify(url, o, attempt) == Done(Err(ApiError(Timeout, "Request timed out after 3 attempts to " + url)))
    ensures o.ConnectionFailed? && LooksLikeSsl(o.sslError, o.text) ==>
              Classify(url, o, attempt) == Done(Err(ApiError(SslVerification, "SSL verification failed for " + url)))
    ensures o.ConnectionFailed? && !LooksLikeSsl(o.sslError, o.text) && attempt == MaxRetries - 1 ==>
              Classify(url, o, attempt) == Done(Err(ApiError(ConnectionFailure, "API request failed: Connection error to " + url)))
    ensures o.OtherFailure? && attempt == MaxRetries - 1 ==>
              Classify(url, o, attempt) == Done(Err(ApiError(RequestFailure, "API request failed after 3 attempts: " + o.text)))
    ensures o.Responded? && IsHttpError(o.status) ==>
              Classify(url, o, attempt) == Done(Err(HttpError(o.status, o.url, o.reason, o.body, o.bodyText)))
    ensures o.Responded? && !IsHttpError(o.status) && o.body.Decoded? && AsDict(o.body.value).Some? ==>
              Classify(url, o, attempt) == Done(Ok(AsDict(o.body.value).value))
    ensures o.Responded? && !IsHttpError(o.status) && !(o.body.Decoded? && AsDict(o.body.value).Some?) ==>
              Classify(url, o, attempt) == Done(Err(ApiError(MalformedResponse, "Invalid JSON response from " + url)))
  {
  }

  /**
   * The loop from attempt `attempt` on: the result and the number of GETs.
   * The result is the verdict of the first attempt that does not retry.
   */
  function RunFrom(url: string, outcomes: seq<Outcome>, attempt: nat): (res: (Result<JsonObject, ApiError>, nat))
    requires attempt < MaxRetries <= |outcomes|
    ensures attempt < res.1 <= MaxRetries
    ensures Classify(url, outcomes[res.1 - 1], res.1 - 1) == Done(res.0)
    ensures forall k :: attempt <= k < res.1 - 1 ==> Classify(url, outcomes[k], k) == Retry
    decreases MaxRetries - attempt
  {
    match Classify(url, outcomes[attempt], attempt)
    case Done(r) => (r, attempt + 1)
    case Retry => RunFrom(url, outcomes, attempt + 1)
  }

  function Outcomes(steps: seq<Step>): (os: seq<Outcome>)
    ensures |os| == |steps| && forall i :: 0 <= i < |steps| ==> os[i] == steps[i].outcome
  {
    seq(|steps|, i requires 0 <= i < |steps| => steps[i].outcome)
  }

  /** The result `_make_request` returns or raises for a scripted transport. */
  function RequestResult(endpoint: string, outcomes: seq<Outcome>): Result<JsonObject, ApiError>
    requires MaxRetries <= |outcomes|
  {
    RunFrom(Url(endpoint), outcomes, 0).0
  }

  /** How many GETs `_make_request` issues for a scripted transport. */
  function GetCount(endpoint: string, outcomes: seq<Outcome>): nat
    requires MaxRetries <= |outcomes|
  {
    RunFrom(Url(endpoint), outcomes, 0).1
  }

  function Pow2(n: nat): (p: nat)
    ensures p >= 1
  {
    if n == 0 then 1 else 2 * Pow2(n - 1)
  }

  /** `RETRY_DELAY * 2 ** attempt`. */
  function Backoff(attempt: nat): real {
    RetryDelay * Pow2(attempt) as real
  }

  /** The wait `acquire` imposes on a limiter whose window is `w`. */
  function WaitFor(cfg: RateLimitConfig, w: seq<real>, now: real): (d: real)
    requires cfg.Valid()
    ensures d >= 0.0
  {
    Delay(cfg, Purged(w, now, cfg.period), now)
  }

  /**
   * When the GET leaves if the connector relies on `acquire`'s own wait: at
   * the stamp the limiter records for it.
   */
  function SendTime(cfg: RateLimitConfig, w: seq<real>, now: real, slack: real): (t: real)
    requires cfg.Valid()
    ensures t == AfterAcquire(cfg, w, now, slack)[|AfterAcquire(cfg, w, now, slack)| - 1]
  {
    now + WaitFor(cfg, w, now) + slack
  }

  /** When the GET leaves as the connector is written: the delay is slept a second time. */
  function SendTimeAsWritten(cfg: RateLimitConfig, w: seq<real>, now: real, slack: real): real
    requires cfg.Valid()
  {
    var d := WaitFor(cfg, w, now);
    if d > 0.0 then now + d + slack + d else now + d + slack
  }

  /** Rate limiting before a GET, as intended: `acquire` has already waited. */
  method Pace(limiter: RateLimiter, now: real, slack: real) returns (sendAt: real, delay: real)
    requires limiter.Valid() && slack >= 0.0
    modifies limiter`window, limiter`admissions
    ensures delay == WaitFor(limiter.config, old(limiter.window), now)
    ensures limiter.window == AfterAcquire(limiter.config, old(limiter.window), now, slack)
    ensures limiter.admissions == old(limiter.admissions) + 1
    ensures sendAt == SendTime(limiter.config, old(limiter.window), now, slack)
    ensures sendAt >= now
  {
    delay := limiter.Acquire(now, slack);
    sendAt := now + delay + slack;
  }

  /** Rate limiting before a GET as the connector is written: it sleeps the returned delay again. */
  method PaceAsWritten(limiter: RateLimiter, now: real, slack: real) returns (sendAt: real, delay: real)
    requires limiter.Valid() && slack >= 0.0
    modifies limiter`window, limiter`admissions
    ensures delay == WaitFor(limiter.config, old(limiter.window), now)
    ensures limiter.window == AfterAcquire(limiter.config, old(limiter.window), now, slack)
    ensures limiter.admissions == old(limiter.admissions) + 1
    ensures sendAt == SendTimeAsWritten(limiter.config, old(limiter.window), now, slack)
  {
    delay := limiter.Acquire(now, slack);
    sendAt := now + delay + slack;
    if delay > 0.0 {
      sendAt := sendAt + delay;
    }
  }

  /**
   * Paced GETs keep the configured rate: once the window holds `burst`
   * admissions, the GET leaves no earlier than `period` after the one
   * `calls` admissions back, and, when it had to wait, exactly then.
   */
  lemma PacedGetKeepsRate(cfg: RateLimitConfig, w: seq<real>, now: real, slack: real)
    requires cfg.Valid() && slack >= 0.0
    requires |Purged(w, now, cfg.period)| >= cfg.burst
    ensures var p := Purged(w, now, cfg.period);
            SendTime(cfg, w, now, slack) - p[|p| - cfg.calls] >= cfg.period
    ensures var p := Purged(w, now, cfg.period);
            WaitFor(cfg, w, now) > 0.0 && slack == 0.0 ==> SendTime(cfg, w, now, slack) == p[|p| - cfg.calls] + cfg.period
  {
  }

  /** As written, a GET that had to wait leaves a whole extra delay after its admission stamp. */
  lemma AsWrittenWaitsTwice(cfg: RateLimitConfig, w: seq<real>, now: real, slack: real)
    requires cfg.Valid()
    ensures WaitFor(cfg, w, now) > 0.0 ==>
              SendTimeAsWritten(cfg, w, now, slack) == SendTime(cfg, w, now, slack) + WaitFor(cfg, w, now)
    ensures WaitFor(cfg, w, now) == 0.0 ==> SendTimeAsWritten(cfg, w, now, slack) == SendTime(cfg, w, now, slack)
  {
  }

  /**
   * One call per two seconds, a call at time 0: the next GET, asked for at
   * time 0, should leave at 2 but as written leaves at 4.
   */
  lemma DoubleWaitExample()
    ensures var cfg := RateLimitConfig(1, 2.0, 1);
            WaitFor(cfg, [0.0], 0.0) == 2.0
            && SendTime(cfg, [0.0], 0.0, 0.0) == 2.0
            && SendTimeAsWritten(cfg, [0.0], 0.0, 0.0) == 4.0
  {
    var cfg := RateLimitConfig(1, 2.0, 1);
    assert PurgeCount([0.0], 0.0, 2.0) == 0;
    assert Purged([0.0], 0.0, 2.0) == [0.0];
  }

  /**
   * The limiter's side of the GETs so far: before GET `i` the window was
   * `windows[i]` and the clock read `clocks[i]`; the acquire turned the
   * window into `windows[i + 1]`, and the GET left at the stamp it recorded.
   */
  ghost predicate PacedTrace(cfg: RateLimitConfig, steps: seq<Step>, windows: seq<seq<real>>, clocks: seq<real>, getTimes: seq<real>) {
    cfg.Valid() && |clocks| == |getTimes| <= |steps| && |windows| == |getTimes| + 1
    && forall i :: 0 <= i < |getTimes| ==>
         windows[i + 1] == AfterAcquire(cfg, windows[i], clocks[i], steps[i].slack)
         && getTimes[i] == SendTime(cfg, windows[i], clocks[i], steps[i].slack)
  }

  /** After GET `i` the clock advances by the time the GET took and the back-off sleep. */
  ghost predicate ClockTrace(steps: seq<Step>, clocks: seq<real>, getTimes: seq<real>, backoffs: seq<real>) {
    |clocks| == |getTimes| && |backoffs| <= |getTimes| <= |steps|
    && forall i :: 0 <= i < |backoffs| && i + 1 < |clocks| ==> clocks[i + 1] == getTimes[i] + steps[i].elapsed + backoffs[i]
  }

  lemma PacedTraceExtends(cfg: RateLimitConfig, steps: seq<Step>, windows: seq<seq<real>>, clocks: seq<real>, getTimes: seq<real>,
                          now: real, w: seq<real>, t: real)
    requires PacedTrace(cfg, steps, windows, clocks, getTimes) && |getTimes| < |steps|
    requires w == AfterAcquire(cfg, windows[|getTimes|], now, steps[|getTimes|].slack)
    requires t == SendTime(cfg, windows[|getTimes|], now, steps[|getTimes|].slack)
    ensures PacedTrace(cfg, steps, windows + [w], clocks + [now], getTimes + [t])
  {
    var ws, cs, ts := windows + [w], clocks + [now], getTimes + [t];
    forall i | 0 <= i < |ts|
      ensures ws[i + 1] == AfterAcquire(cfg, ws[i], cs[i], steps[i].slack) && ts[i] == SendTime(cfg, ws[i], cs[i], steps[i].slack)
    {
      if i < |getTimes| {
        assert ws[i + 1] == windows[i + 1] && ws[i] == windows[i] && cs[i] == clocks[i] && ts[i] == getTimes[i];
      }
    }
  }

  lemma ClockTraceExtends(steps: seq<Step>, clocks: seq<real>, getTimes: seq<real>, backoffs: seq<real>, now: real, t: real)
    requires ClockTrace(steps, clocks, getTimes, backoffs) && |getTimes| < |steps| && |backoffs| == |getTimes|
    requires |getTimes| > 0 ==> now == getTimes[|getTimes| - 1] + steps[|getTimes| - 1].elapsed + backoffs[|getTimes| - 1]
    ensures ClockTrace(steps, clocks + [now], getTimes + [t], backoffs)
  {
  }

  /** The back-off sleeps so far follow the schedule. */
  ghost predicate OnSchedule(backoffs: seq<real>) {
    forall i :: 0 <= i < |backoffs| ==> backoffs[i] == Backoff(i)
  }

  lemma OnScheduleExtends(backoffs: seq<real>)
    requires OnSchedule(backoffs)
    ensures OnSchedule(backoffs + [Backoff(|backoffs|)])
  {
  }

  /** A GET leaves no earlier than the clock reading before its acquire, so GETs are spaced by their back-offs. */
  lemma TracesSpaced(cfg: RateLimitConfig, steps: seq<Step>, windows: seq<seq<real>>, clocks: seq<real>, getTimes: seq<real>,
                     backoffs: seq<real>)
    requires PacedTrace(cfg, steps, windows, clocks, getTimes) && ClockTrace(steps, clocks, getTimes, backoffs)
    requires |backoffs| < |getTimes| && forall i :: 0 <= i < |getTimes| ==> steps[i].slack >= 0.0 && steps[i].elapsed >= 0.0
    ensures forall i :: 0 <= i < |getTimes| ==> getTimes[i] >= clocks[i]
    ensures forall i :: 0 <= i < |backoffs| ==> getTimes[i + 1] >= getTimes[i] + backoffs[i]
  {
    forall i | 0 <= i < |getTimes|
      ensures getTimes[i] >= clocks[i]
    {
      assert getTimes[i] == clocks[i] + WaitFor(cfg, windows[i], clocks[i]) + steps[i].slack;
    }
  }

  /**
   * The traces before the next GET: they record every GET so far, the
   * first from clock reading `start` and window `w0`, and the clock now
   * reads `now`, the back-off after the last GET having been slept.
   */
  ghost predicate Traced(cfg: RateLimitConfig, steps: seq<Step>, start: real, w0: seq<real>,
                         windows: seq<seq<real>>, clocks: seq<real>, getTimes: seq<real>, backoffs: seq<real>, now: real) {
    |backoffs| == |getTimes| < |steps|
    && PacedTrace(cfg, steps, windows, clocks, getTimes) && ClockTrace(steps, clocks, getTimes, backoffs)
    && windows[0] == w0
    && (|getTimes| == 0 ==> now == start)
    && (|getTimes| > 0 ==> clocks[0] == start && now == getTimes[|getTimes| - 1] + steps[|getTimes| - 1].elapsed + backoffs[|getTimes| - 1])
  }

  /** The traces just after a GET, before its back-off. */
  ghost predicate Sent(cfg: RateLimitConfig, steps: seq<Step>, start: real, w0: seq<real>,
                       windows: seq<seq<real>>, clocks: seq<real>, getTimes: seq<real>, backoffs: seq<real>) {
    |backoffs| + 1 == |getTimes|
    && PacedTrace(cfg, steps, windows, clocks, getTimes) && ClockTrace(steps, clocks, getTimes, backoffs)
    && windows[0] == w0 && clocks[0] == start
  }

  /** Before attempt `attempt`: the traces hold, the back-offs so far followed the schedule, and every earlier attempt retried. */
  ghost predicate Retrying(cfg: RateLimitConfig, url: string, steps: seq<Step>, start: real, w0: seq<real>, attempt: nat,
                           windows: seq<seq<real>>, clocks: seq<real>, getTimes: seq<real>, backoffs: seq<real>, now: real) {
    Traced(cfg, steps, start, w0, windows, clocks, getTimes, backoffs, now)
    && |getTimes| == attempt < MaxRetries <= |steps| && OnSchedule(backoffs)
    && RunFrom(url, Outcomes(steps), attempt) == RunFrom(url, Outcomes(steps), 0)
  }

  /** The paced GET of one attempt, recorded in the traces. */
  method PacedGet(limiter: RateLimiter, steps: seq<Step>, start: real, ghost w0: seq<real>, now: real,
                  getTimes: seq<real>, backoffs: seq<real>, ghost windows: seq<seq<real>>, ghost clocks: seq<real>)
    returns (sendAt: real, getTimes': seq<real>, ghost windows': seq<seq<real>>, ghost clocks': seq<real>)
    requires limiter.Valid() && Traced(limiter.config, steps, start, w0, windows, clocks, getTimes, backoffs, now)
    requires limiter.window == windows[|getTimes|] && steps[|getTimes|].slack >= 0.0
    modifies limiter`window, limiter`admissions
    ensures Sent(limiter.config, steps, start, w0, windows', clocks', getTimes', backoffs)
    ensures getTimes' == getTimes + [sendAt] && |windows'| == |getTimes| + 2
    ensures limiter.window == windows'[|getTimes| + 1] && limiter.admissions == old(limiter.admissions) + 1
  {
    var delay;
    sendAt, delay := Pace(limiter, now, steps[|getTimes|].slack);
    PacedTraceExtends(limiter.config, steps, windows, clocks, getTimes, now, limiter.window, sendAt);
    ClockTraceExtends(steps, clocks, getTimes, backoffs, now, sendAt);
    windows', clocks', getTimes' := windows + [limiter.window], clocks + [now], getTimes + [sendAt];
  }

  /** An attempt that retries sets up the next one, after the scheduled back-off. */
  lemma RetryStep(cfg: RateLimitConfig, url: string, steps: seq<Step>, start: real, w0: seq<real>, attempt: nat,
                  windows: seq<seq<real>>, clocks: seq<real>, getTimes: seq<real>, backoffs: seq<real>)
    requires Sent(cfg, steps, start, w0, windows, clocks, getTimes, backoffs) && |getTimes| == attempt + 1
    requires attempt < MaxRetries <= |steps| && OnSchedule(backoffs)
    requires RunFrom(url, Outcomes(steps), attempt) == RunFrom(url, Outcomes(steps), 0)
    requires Classify(url, steps[attempt].outcome, attempt) == Retry
    ensures Retrying(cfg, url, steps, start, w0, attempt + 1, windows, clocks, getTimes, backoffs + [Backoff(attempt)],
                     getTimes[attempt] + steps[attempt].elapsed + Backoff(attempt))
  {
    assert Outcomes(steps)[attempt] == steps[attempt].outcome;
    OnScheduleExtends(backoffs);
  }

  /** An attempt that does not retry fixes everything `MakeRequest` promises. */
  lemma DoneStep(cfg: RateLimitConfig, endpoint: string, steps: seq<Step>, start: real, w0: seq<real>, attempt: nat,
                 windows: seq<seq<real>>, clocks: seq<real>, getTimes: seq<real>, backoffs: seq<real>)
    requires Sent(cfg, steps, start, w0, windows, clocks, getTimes, backoffs) && |getTimes| == attempt + 1
    requires attempt < MaxRetries <= |steps| && OnSchedule(backoffs)
    requires RunFrom(Url(endpoint), Outcomes(steps), attempt) == RunFrom(Url(endpoint), Outcomes(steps), 0)
    requires Classify(Url(endpoint), steps[attempt].outcome, attempt).Done?
    requires forall i :: 0 <= i < |steps| ==> steps[i].slack >= 0.0 && steps[i].elapsed >= 0.0
    ensures Classify(Url(endpoint), steps[attempt].outcome, attempt).result == RequestResult(endpoint, Outcomes(steps))
    ensures |getTimes| == GetCount(endpoint, Outcomes(steps)) && 1 <= |getTimes| <= MaxRetries
    ensures |backoffs| == |getTimes| - 1 && OnSchedule(backoffs)
    ensures PacedTrace(cfg, steps, windows, clocks, getTimes) && windows[0] == w0 && clocks[0] == start
    ensures ClockTrace(steps, clocks, getTimes, backoffs)
    ensures getTimes[0] >= start
    ensures forall i :: 0 <= i < |backoffs| ==> getTimes[i + 1] >= getTimes[i] + backoffs[i]
  {
    assert Outcomes(steps)[attempt] == steps[attempt].outcome;
    TracesSpaced(cfg, steps, windows, clocks, getTimes, backoffs);
  }

  /**
   * One pass of the loop: the paced GET, then what its outcome decides.
   * A retry sets up the next pass; anything else settles the request.
   */
  method Attempt(limiter: RateLimiter, endpoint: string, steps: seq<Step>, start: real, ghost w0: seq<real>, attempt: nat, now: real,
                 getTimes: seq<real>, backoffs: seq<real>, ghost windows: seq<seq<real>>, ghost clocks: seq<real>)
    returns (verdict: Verdict, sendAt: real, getTimes': seq<real>, ghost windows': seq<seq<real>>, ghost clocks': seq<real>)
    requires limiter.Valid() && attempt < MaxRetries
    requires forall i :: 0 <= i < |steps| ==> steps[i].slack >= 0.0 && steps[i].elapsed >= 0.0
    requires Retrying(limiter.config, Url(endpoint), steps, start, w0, attempt, windows, clocks, getTimes, backoffs, now)
    requires limiter.window == windows[attempt]
    modifies limiter`window, limiter`admissions
    ensures |getTimes'| == attempt + 1 && |windows'| == attempt + 2 && sendAt == getTimes'[attempt]
    ensures limiter.window == windows'[attempt + 1] && limiter.admissions == old(limiter.admissions) + 1
    ensures verdict.Retry? ==>
              attempt < MaxRetries - 1
              && Retrying(limiter.config, Url(endpoint), steps, start, w0, attempt + 1, windows', clocks', getTimes',
                          backoffs + [Backoff(attempt)], sendAt + steps[attempt].elapsed + Backoff(attempt))
    ensures verdict.Done? ==>
              verdict.result == RequestResult(endpoint, Outcomes(steps))
              && |getTimes'| == GetCount(endpoint, Outcomes(steps)) && 1 <= |getTimes'| <= MaxRetries
              && |backoffs| == |getTimes'| - 1 && OnSchedule(backoffs)
              && PacedTrace(limiter.config, steps, windows', clocks', getTimes') && windows'[0] == w0 && clocks'[0] == start
              && ClockTrace(steps, clocks', getTimes', backoffs)
              && getTimes'[0] >= start
              && forall i :: 0 <= i < |backoffs| ==> getTimes'[i + 1] >= getTimes'[i] + backoffs[i]
  {
    var url := Url(endpoint);
    sendAt, getTimes', windows', clocks' := PacedGet(limiter, steps, start, w0, now, getTimes, backoffs, windows, clocks);
    verdict := Classify(url, steps[attempt].outcome, attempt);
    if verdict.Done? {
      DoneStep(limiter.config, endpoint, steps, start, w0, attempt, windows', clocks', getTimes', backoffs);
    } else {
      RetryStep(limiter.config, url, steps, start, w0, attempt, windows', clocks', getTimes', backoffs);
    }
  }

  /**
   * `_make_request` with an explicit clock starting at `start`, paced as
   * intended (see `Pace`). Returns the result and, for the record, the
   * clock reading of every GET and every back-off sleep; the ghost
   * `windows` and `clocks` are the limiter's window and the clock before
   * each acquire.
   */
  method MakeRequest(limiter: RateLimiter, endpoint: string, steps: seq<Step>, start: real)
    returns (r: Result<JsonObject, ApiError>, getTimes: seq<real>, backoffs: seq<real>,
             ghost windows: seq<seq<real>>, ghost clocks: seq<real>)
    requires limiter.Valid() && MaxRetries <= |steps|
    requires forall i :: 0 <= i < |steps| ==> steps[i].slack >= 0.0 && steps[i].elapsed >= 0.0
    modifies limiter`window, limiter`admissions
    ensures r == RequestResult(endpoint, Outcomes(steps))
    ensures |getTimes| == GetCount(endpoint, Outcomes(steps)) && 1 <= |getTimes| <= MaxRetries
    ensures |backoffs| == |getTimes| - 1 && OnSchedule(backoffs)
    ensures limiter.admissions == old(limiter.admissions) + |getTimes|
    ensures PacedTrace(limiter.config, steps, windows, clocks, getTimes) && limiter.window == windows[|getTimes|]
    ensures windows[0] == old(limiter.window) && clocks[0] == start
    ensures ClockTrace(steps, clocks, getTimes, backoffs)
    ensures getTimes[0] >= start
    ensures forall i :: 0 <= i < |backoffs| ==> getTimes[i + 1] >= getTimes[i] + backoffs[i]
  {
    var now := start;
    getTimes, backoffs := [], [];
    windows, clocks := [limiter.window], [];
    for attempt := 0 to MaxRetries
      invariant Retrying(limiter.config, Url(endpoint), steps, start, old(limiter.window), attempt, windows, clocks, getTimes, backoffs, now)
      invariant limiter.window == windows[attempt] && limiter.admissions == old(limiter.admissions) + attempt
    {
      var verdict, sendAt;
      verdict, sendAt, getTimes, windows, clocks := Attempt(limiter, endpoint, steps, start, old(limiter.window), attempt, now,
                                                            getTimes, backoffs, windows, clocks);
      if verdict.Done? {
        r := verdict.result;
        return;
      }
      var pause := Backoff(attempt);
      backoffs := backoffs + [pause];
      now := sendAt + steps[attempt].elapsed + pause;
    }
    assert false;
    r := Err(ApiError(Unexpected, "Maximum retry attempts reached"));
  }

  /** The loop's result is that of the first attempt that does not retry. */
  lemma {:induction false} RunFromFirstDecisive(url: string, outcomes: seq<Outcome>, from: nat, k: nat)
    requires from <= k < MaxRetries <= |outcomes|
    requires forall j :: from <= j < k ==> Classify(url, outcomes[j], j) == Retry
    requires Classify(url, outcomes[k], k).Done?
    ensures RunFrom(url, outcomes, from) == (Classify(url, outcomes[k], k).result, k + 1)
    decreases k - from
  {
    if from < k {
      RunFromFirstDecisive(url, outcomes, from + 1, k);
    }
  }

  /** The back-off sleeps between the three attempts are 1 and then 2 seconds. */
  lemma BackoffSchedule()
    ensures Backoff(0) == 1.0 && Backoff(1) == 2.0
  {
  }

  /** Three timeouts: three GETs, then the timeout error. */
  lemma AllTimeouts(endpoint: string, outcomes: seq<Outcome>)
    requires |outcomes| == MaxRetries && forall i :: 0 <= i < |outcomes| ==> outcomes[i].TimedOut?
    ensures GetCount(endpoint, outcomes) == 3
    ensures RequestResult(endpoint, outcomes)
            == Err(ApiError(Timeout, "Request timed out after 3 attempts to " + Url(endpoint)))
  {
    RunFromFirstDecisive(Url(endpoint), outcomes, 0, 2);
  }

  /** Three failures of any other kind: three GETs, then the last failure's text in the error. */
  lemma ThreeRequestFailures(endpoint: string, outcomes: seq<Outcome>)
    requires |outcomes| >= MaxRetries && forall i :: 0 <= i < 3 ==> outcomes[i].OtherFailure?
    ensures GetCount(endpoint, outcomes) == 3
    ensures RequestResult(endpoint, outcomes)
            == Err(ApiError(RequestFailure, "API request failed after 3 attempts: " + outcomes[2].text))
  {
    RunFromFirstDecisive(Url(endpoint), outcomes, 0, 2);
  }

  /** Three plain connection failures exhaust the attempts (indices 0, 1 and 2 only). */
  lemma ThreeConnectionFailures(endpoint: string, outcomes: seq<Outcome>)
    requires |outcomes| >= MaxRetries
    requires forall i :: 0 <= i < 3 ==> outcomes[i].ConnectionFailed? && !LooksLikeSsl(outcomes[i].sslError, outcomes[i].text)
    ensures GetCount(endpoint, outcomes) == 3
    ensures RequestResult(endpoint, outcomes)
            == Err(ApiError(ConnectionFailure, "API request failed: Connection error to " + Url(endpoint)))
  {
    RunFromFirstDecisive(Url(endpoint), outcomes, 0, 2);
  }

  /** Two connection failures and then a good response: that response, after exactly three GETs. */
  lemma TwoFailuresThenSuccess(endpoint: string, outcomes: seq<Outcome>, m: JsonObject)
    requires |outcomes| >= MaxRetries
    requires forall i :: 0 <= i < 2 ==> outcomes[i].ConnectionFailed? && !LooksLikeSsl(outcomes[i].sslError, outcomes[i].text)
    requires outcomes[2].Responded? && !IsHttpError(outcomes[2].status) && outcomes[2].body == Decoded(JObj(m))
    ensures GetCount(endpoint, outcomes) == 3
    ensures RequestResult(endpoint, outcomes) == Ok(m)
  {
    RunFromFirstDecisive(Url(endpoint), outcomes, 0, 2);
  }

  /** A failure that looks like SSL ends the loop on the spot, whatever the attempt. */
  lemma SslFailsAtOnce(url: string, sslError: bool, text: string, attempt: nat)
    requires attempt < MaxRetries && LooksLikeSsl(sslError, text)
    ensures Classify(url, ConnectionFailed(sslError, text), attempt)
            == Done(Err(ApiError(SslVerification, "SSL verification failed for " + url)))
  {
  }

  /** "SSL" anywhere in the error text, in any letter case, counts as an SSL failure. */
  lemma SslTextDetected(before: string, after: string)
    ensures LooksLikeSsl(false, before + "ssl" + after)
  {
    var t := before + "ssl" + after;
    assert Upper(t) == Upper(before) + "SSL" + Upper(after);
    ContainsInMiddle(Upper(before), "SSL", Upper(after));
  }

  /** A response, successful or not, is never retried: the first one ends the loop. */
  lemma FirstResponseDecides(endpoint: string, outcomes: seq<Outcome>)
    requires |outcomes| >= MaxRetries && outcomes[0].Responded?
    ensures GetCount(endpoint, outcomes) == 1
    ensures IsHttpError(outcomes[0].status) ==>
              RequestResult(endpoint, outcomes).Err? && "HTTP " + IntToString(outcomes[0].status) <= RequestResult(endpoint, outcomes).error.message
    ensures IsHttpError(outcomes[0].status) ==>
              RequestResult(endpoint, outcomes)
              == Err(HttpError(outcomes[0].status, outcomes[0].url, outcomes[0].reason, outcomes[0].body, outcomes[0].bodyText))
    ensures !IsHttpError(outcomes[0].status) && outcomes[0].body.Decoded? && AsDict(outcomes[0].body.value).Some? ==>
              RequestResult(endpoint, outcomes) == Ok(AsDict(outcomes[0].body.value).value)
    ensures !IsHttpError(outcomes[0].status) && outcomes[0].body == Decoded(JArr([])) ==>
              RequestResult(endpoint, outcomes) == Ok(map[])
    ensures !IsHttpError(outcomes[0].status) && !(outcomes[0].body.Decoded? && AsDict(outcomes[0].body.value).Some?) ==>
              RequestResult(endpoint, outcomes) == Err(ApiError(MalformedResponse, "Invalid JSON response from " + Url(endpoint)))
  {
    RunFromFirstDecisive(Url(endpoint), outcomes, 0, 0);
    var o := outcomes[0];
    HttpErrorMessage(o.status, o.url, o.reason, o.body, o.bodyText);
  }

  /** A 404 error message names the status code. */
  lemma NotFoundMessage(url: string, reason: string, body: Body, bodyText: string)
    ensures HttpError(404, url, reason, body, bodyText).kind == NotFound
    ensures Contains(HttpError(404, url, reason, body, bodyText).message, "404")
  {
    var m := HttpError(404, url, reason, body, bodyText).message;
    HttpErrorMessage(404, url, reason, body, bodyText);
    Str404();
    assert "HTTP " + "404" <= m;
    ContainsAfterPrefix("HTTP ", "404", m);
  }

  lemma ContainsAfterPrefix(a: string, sub: string, m: string)
    requires a + sub <= m
    ensures Contains(m, sub)
  {
    var b := m[|a| + |sub|..];
    assert m == a + sub + b;
    ContainsInMiddle(a, sub, b);
  }
}
