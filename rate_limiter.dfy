/**
 * The sliding-window rate limiter with burst tolerance. The limiter keeps
 * the admission timestamps of recent calls, oldest first; every query
 * first purges the entries older than `period` from the front.
 *
 * Time is explicit: each operation receives the reading `now` of the
 * monotonic clock, and `Acquire` receives the `slack` by which the clock
 * has moved past the end of its wait when it stamps the admission.
 */
module RateLimiting {
  import opened Results

  datatype ConfigError = CallsNotPositive | PeriodNotPositive | BurstBelowCalls

  datatype RateLimitConfig = RateLimitConfig(calls: int, period: real, burst: int) {
    /** What construction guarantees: `burst >= calls > 0` and `period > 0`. */
    predicate Valid() {
      0 < calls <= burst && period > 0.0
    }
  }

  /** `RateLimitConfig(calls, period, _burst)` with its `__post_init__` checks, in their order. */
  function NewConfig(calls: int, period: real, burst: Option<int>): (r: Result<RateLimitConfig, ConfigError>)
    ensures r.Ok? <==> calls > 0 && period > 0.0 && (burst.Some? ==> burst.value >= calls)
    ensures r.Ok? ==> r.value.Valid() && r.value.calls == calls && r.value.period == period
    ensures r.Ok? ==> r.value.burst == (if burst.Some? then burst.value else calls)
    ensures calls <= 0 ==> r == Err(CallsNotPositive)
    ensures calls > 0 && period <= 0.0 ==> r == Err(PeriodNotPositive)
    ensures calls > 0 && period > 0.0 && burst.Some? && burst.value < calls ==> r == Err(BurstBelowCalls)
  {
    if calls <= 0 then Err(CallsNotPositive)
    else if period <= 0.0 then Err(PeriodNotPositive)
    else if burst.Some? && burst.value < calls then Err(BurstBelowCalls)
    else Ok(RateLimitConfig(calls, period, if burst.Some? then burst.value else calls))
  }

  /** Every configuration the invariant allows can be constructed, with or without an explicit burst. */
  lemma ValidConfigsConstruct(c: RateLimitConfig)
    requires c.Valid()
    ensures NewConfig(c.calls, c.period, Some(c.burst)) == Ok(c)
    ensures c.burst == c.calls ==> NewConfig(c.calls, c.period, None) == Ok(c)
  {
  }

  /** The connector's `DEFAULT_RATE_LIMIT`: 10 calls per second, bursts of 20. */
  const DefaultRateLimit: RateLimitConfig := RateLimitConfig(10, 1.0, 20)

  predicate Sorted(w: seq<real>) {
    forall i, j :: 0 <= i <= j < |w| ==> w[i] <= w[j]
  }

  /** How many entries the purge loop pops: it stops at the first entry at most `period` old. */
  function PurgeCount(w: seq<real>, now: real, period: real): (k: nat)
    ensures k <= |w|
    ensures forall i :: 0 <= i < k ==> now - w[i] > period
    ensures k < |w| ==> now - w[k] <= period
  {
    if w != [] && now - w[0] > period then 1 + PurgeCount(w[1..], now, period) else 0
  }

  /** The window `_clean_old_timestamps` leaves. */
  function Purged(w: seq<real>, now: real, period: real): seq<real> {
    w[PurgeCount(w, now, period)..]
  }

  /**
   * On a sorted window the purge removes exactly the entries more than
   * `period` old: what stays is sorted and within `period` of `now`, and
   * nothing within `period` is lost.
   */
  lemma PurgedSortedWithinPeriod(w: seq<real>, now: real, period: real)
    requires Sorted(w)
    ensures Sorted(Purged(w, now, period))
    ensures forall i :: 0 <= i < |Purged(w, now, period)| ==> now - Purged(w, now, period)[i] <= period
    ensures forall i :: 0 <= i < |w| && now - w[i] <= period ==> w[i] in Purged(w, now, period)
  {
    var k := PurgeCount(w, now, period);
    var p := Purged(w, now, period);
    forall i | 0 <= i < |p|
      ensures now - p[i] <= period
    {
      assert p[i] == w[k + i] && w[k] <= w[k + i];
    }
    forall i | 0 <= i < |w| && now - w[i] <= period
      ensures w[i] in p
    {
      assert i >= k;
      assert p[i - k] == w[i];
    }
  }

  function Max0(x: real): (r: real)
    ensures r >= 0.0 && r >= x && (r == 0.0 || r == x)
  {
    if x > 0.0 then x else 0.0
  }

  /**
   * `_get_delay` on a purged window `w`: no wait below the burst ceiling;
   * otherwise wait until the `calls`-th newest admission is a full period old.
   */
  function Delay(cfg: RateLimitConfig, w: seq<real>, now: real): (d: real)
    requires cfg.Valid()
    ensures d >= 0.0
    ensures |w| < cfg.burst ==> d == 0.0
    ensures |w| >= cfg.burst ==> now + d - w[|w| - cfg.calls] >= cfg.period
    ensures d > 0.0 ==> now + d - w[|w| - cfg.calls] == cfg.period
  {
    if |w| < cfg.burst then 0.0
    else if |w| >= cfg.calls then Max0(w[|w| - cfg.calls] + cfg.period - now)
    else assert false; 0.0
  }

  /** The window after one `acquire` at clock reading `now` (a specification of `RateLimiter.Acquire`). */
  function AfterAcquire(cfg: RateLimitConfig, w: seq<real>, now: real, slack: real): seq<real>
    requires cfg.Valid()
  {
    var p := Purged(w, now, cfg.period);
    p + [now + Delay(cfg, p, now) + slack]
  }

  /** With a non-decreasing clock the window stays sorted oldest-first. */
  lemma AcquireKeepsOrder(cfg: RateLimitConfig, w: seq<real>, now: real, slack: real)
    requires cfg.Valid() && slack >= 0.0
    requires Sorted(w) && (w != [] ==> w[|w| - 1] <= now)
    ensures Sorted(AfterAcquire(cfg, w, now, slack))
    ensures AfterAcquire(cfg, w, now, slack)[|AfterAcquire(cfg, w, now, slack)| - 1] >= now
  {
    var p := Purged(w, now, cfg.period);
    PurgedSortedWithinPeriod(w, now, cfg.period);
    var t := now + Delay(cfg, p, now) + slack;
    var a := p + [t];
    forall i, j | 0 <= i <= j < |a|
      ensures a[i] <= a[j]
    {
      if j == |a| - 1 && i < j {
        assert a[i] == p[i] == w[PurgeCount(w, now, cfg.period) + i];
        assert w[PurgeCount(w, now, cfg.period) + i] <= w[|w| - 1];
      }
    }
  }

  /** `remaining_calls` for a purged window of `size` entries. */
  function Remaining(cfg: RateLimitConfig, size: int): (r: int)
    ensures r >= 0
    ensures r == 0 <==> size >= cfg.calls
    ensures size < cfg.calls ==> r == cfg.calls - size
  {
    if cfg.calls - size > 0 then cfg.calls - size else 0
  }

  class RateLimiter {
    const config: RateLimitConfig
    /** `_window`: admission timestamps, oldest first. */
    var window: seq<real>
    /** How many calls `Acquire` has admitted since construction. */
    ghost var admissions: nat

    predicate Valid() {
      config.Valid()
    }

    constructor (config: RateLimitConfig)
      requires config.Valid()
      ensures Valid() && this.config == config
      ensures window == [] && admissions == 0
    {
      this.config := config;
      window := [];
      admissions := 0;
    }

    /** `_clean_old_timestamps`: pop the front while it is more than `period` old. */
    method CleanOldTimestamps(now: real)
      modifies this`window
      ensures window == Purged(old(window), now, config.period)
    {
      while window != [] && now - window[0] > config.period
        invariant Purged(window, now, config.period) == Purged(old(window), now, config.period)
        decreases |window|
      {
        window := window[1..];
      }
    }

    /** `_get_delay`. */
    method GetDelay(now: real) returns (delay: real)
      requires Valid()
      modifies this`window
      ensures window == Purged(old(window), now, config.period)
      ensures delay == Delay(config, window, now)
    {
      CleanOldTimestamps(now);
      if |window| < config.burst {
        return 0.0;
      }
      if |window| >= config.calls {
        var nextAvailable := window[|window| - config.calls] + config.period;
        return Max0(nextAvailable - now);
      }
      assert false;
      return 0.0;
    }

    /**
     * `acquire`: compute the delay, wait it out, and stamp the admission
     * with the clock reading after the wait.
     */
    method Acquire(now: real, slack: real) returns (delay: real)
      requires Valid() && slack >= 0.0
      modifies this`window, this`admissions
      ensures delay == Delay(config, Purged(old(window), now, config.period), now)
      ensures window == Purged(old(window), now, config.period) + [now + delay + slack]
      ensures window == AfterAcquire(config, old(window), now, slack)
      ensures Sorted(old(window)) && (old(window) != [] ==> old(window)[|old(window)| - 1] <= now)
              ==> Sorted(window)
      ensures admissions == old(admissions) + 1
    {
      ghost var before := window;
      delay := GetDelay(now);
      window := window + [now + delay + slack];
      admissions := admissions + 1;
      if Sorted(before) && (before != [] ==> before[|before| - 1] <= now) {
        AcquireKeepsOrder(config, before, now, slack);
      }
    }

    /** `reset`. */
    method Reset()
      modifies this`window
      ensures window == []
    {
      window := [];
    }

    /** `current_usage`. */
    method CurrentUsage(now: real) returns (n: nat)
      modifies this`window
      ensures window == Purged(old(window), now, config.period)
      ensures n == |window|
    {
      CleanOldTimestamps(now);
      n := |window|;
    }

    /** `is_limited`: whether the purged window has reached the steady-state count. */
    method IsLimited(now: real) returns (limited: bool)
      modifies this`window
      ensures window == Purged(old(window), now, config.period)
      ensures limited <==> |window| >= config.calls
    {
      CleanOldTimestamps(now);
      limited := |window| >= config.calls;
    }

    /** `remaining_calls`. */
    method RemainingCalls(now: real) returns (n: int)
      modifies this`window
      ensures window == Purged(old(window), now, config.period)
      ensures n == Remaining(config, |window|)
    {
      CleanOldTimestamps(now);
      n := if config.calls - |window| > 0 then config.calls - |window| else 0;
    }
  }

  /**
   * From an empty window, `burst` acquires at one instant are all admitted
   * without delay, and the next one must wait a full period.
   */
  method BurstThenDelay(cfg: RateLimitConfig, t: real) returns (delays: seq<real>, next: real)
    requires cfg.Valid()
    ensures |delays| == cfg.burst
    ensures forall i :: 0 <= i < |delays| ==> delays[i] == 0.0
    ensures next == cfg.period && next > 0.0
  {
    var limiter := new RateLimiter(cfg);
    delays := [];
    while |delays| < cfg.burst
      invariant |delays| <= cfg.burst
      invariant limiter.window == seq(|delays|, _ => t)
      invariant forall i :: 0 <= i < |delays| ==> delays[i] == 0.0
    {
      var d := limiter.Acquire(t, 0.0);
      delays := delays + [d];
    }
    next := limiter.Acquire(t, 0.0);
  }

  /** After `reset` the usage is zero and the next call is admitted at once. */
  method ResetThenAcquire(limiter: RateLimiter, now: real, slack: real) returns (usage: nat, delay: real)
    requires limiter.Valid() && slack >= 0.0
    modifies limiter
    ensures usage == 0 && delay == 0.0
    ensures limiter.window == [now + slack]
  {
    limiter.Reset();
    usage := limiter.CurrentUsage(now);
    delay := limiter.Acquire(now, slack);
  }
}
