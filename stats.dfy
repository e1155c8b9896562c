/**
 * `RateLimitStats` (src/mcp_telegram/rate_limiter.py): the counters every
 * admission and every retry outcome updates, the daily "resolve" counter
 * with its rollover, and the two derived rates.
 *
 * `datetime.now()` is replaced by an explicit clock reading `now` in seconds;
 * "at least one day has elapsed" (`timedelta.days >= 1`) is `now - last >= 86400`.
 */
module Stats {
  import opened Options

  const SecondsPerDay: real := 86400.0

  /** The value of a `RateLimitStats` object at one moment. */
  datatype Counters = Counters(
    totalRequests: nat,
    successfulRequests: nat,
    rateLimitedRequests: nat,
    floodErrors: nat,
    lastRequestTime: Option<real>,
    lastFloodTime: Option<real>,
    resolveRequestsToday: nat,
    resolveLastReset: Option<real>)

  /** A freshly constructed `RateLimitStats()`. */
  function Initial(): Counters
  {
    Counters(0, 0, 0, 0, None, None, 0, None)
  }

  /** The rollover test: never reset yet, or at least one whole day since the last reset. */
  predicate DayElapsed(lastReset: Option<real>, now: real)
  {
    lastReset.None? || now - lastReset.value >= SecondsPerDay
  }

  /** The reset shared by `record_resolve_request` and `check_resolve_limit`. */
  function Rollover(c: Counters, now: real): Counters
  {
    if DayElapsed(c.resolveLastReset, now) then c.(resolveRequestsToday := 0, resolveLastReset := Some(now)) else c
  }

  function WithRequest(c: Counters, now: real): Counters
  {
    c.(totalRequests := c.totalRequests + 1, lastRequestTime := Some(now))
  }

  function WithSuccess(c: Counters): Counters
  {
    c.(successfulRequests := c.successfulRequests + 1)
  }

  function WithRateLimited(c: Counters): Counters
  {
    c.(rateLimitedRequests := c.rateLimitedRequests + 1)
  }

  function WithFloodError(c: Counters, now: real): Counters
  {
    c.(floodErrors := c.floodErrors + 1, lastFloodTime := Some(now))
  }

  /**
   * `record_resolve_request`: after a rollover the counter restarts at exactly
   * one (not zero) and the reset time is now; otherwise it grows by exactly one.
   * No other counter moves.
   */
  function WithResolveRequest(c: Counters, now: real): (r: Counters)
    ensures DayElapsed(c.resolveLastReset, now) ==>
      r.resolveRequestsToday == 1 && r.resolveLastReset == Some(now)
    ensures !DayElapsed(c.resolveLastReset, now) ==>
      r.resolveRequestsToday == c.resolveRequestsToday + 1 && r.resolveLastReset == c.resolveLastReset
    ensures r.(resolveRequestsToday := c.resolveRequestsToday, resolveLastReset := c.resolveLastReset) == c
  {
    var d := Rollover(c, now);
    d.(resolveRequestsToday := d.resolveRequestsToday + 1)
  }

  /** The resolve quota after a rollover at `now`: the value `check_resolve_limit` returns. */
  predicate QuotaLeft(c: Counters, now: real, dailyLimit: int)
  {
    Rollover(c, now).resolveRequestsToday < dailyLimit
  }

  /** `resolve` requests recorded one after another, at the given clock readings. */
  function WithResolveRequests(c: Counters, times: seq<real>): Counters
    decreases |times|
  {
    if times == [] then c else WithResolveRequests(WithResolveRequest(c, times[0]), times[1..])
  }

  /**
   * Within one day of the last reset the counter counts the resolve requests
   * exactly, and the reset time stays put.
   */
  lemma {:induction false} ResolvesWithinDay(c: Counters, last: real, times: seq<real>)
    requires c.resolveLastReset == Some(last)
    requires forall i :: 0 <= i < |times| ==> times[i] - last < SecondsPerDay
    ensures WithResolveRequests(c, times).resolveRequestsToday == c.resolveRequestsToday + |times|
    ensures WithResolveRequests(c, times).resolveLastReset == Some(last)
    decreases |times|
  {
    if times != [] {
      ResolvesWithinDay(WithResolveRequest(c, times[0]), last, times[1..]);
    }
  }

  /**
   * The daily quota: starting from a counter that was never reset, after
   * `n` resolve requests within one day of the first, the quota check answers
   * "left" exactly when `n` is below the limit, at every moment before the
   * day is over; once the day is over it answers "left" again for any
   * positive limit.
   */
  lemma DailyQuota(c: Counters, times: seq<real>, now: real, dailyLimit: int)
    requires c.resolveLastReset.None?
    requires |times| > 0
    requires forall i :: 0 <= i < |times| ==> times[i] - times[0] < SecondsPerDay
    ensures var after := WithResolveRequests(c, times);
      && after.resolveRequestsToday == |times|
      && (now - times[0] < SecondsPerDay ==> (QuotaLeft(after, now, dailyLimit) <==> |times| < dailyLimit))
      && (now - times[0] >= SecondsPerDay && dailyLimit > 0 ==> QuotaLeft(after, now, dailyLimit))
  {
    var first := WithResolveRequest(c, times[0]);
    assert first.resolveRequestsToday == 1 && first.resolveLastReset == Some(times[0]);
    ResolvesWithinDay(first, times[0], times[1..]);
  }

  /**
   * `successful / total` or `flood / total` as the properties compute it:
   * 0.0 for an empty stream, otherwise the exact ratio.
   */
  function Rate(part: nat, total: nat): (r: real)
    ensures r >= 0.0
    ensures total == 0 ==> r == 0.0
    ensures total > 0 ==> r * (total as real) == part as real
  {
    if total == 0 then 0.0 else (part as real) / (total as real)
  }

  /** A rate is at most one when its numerator never exceeds the total. */
  lemma RateAtMostOne(part: nat, total: nat)
    ensures part <= total ==> Rate(part, total) <= 1.0
  {
    if part <= total && total > 0 {
      var r := Rate(part, total);
      var t := total as real;
      ScaleStrict(t, r, 1.0);
      assert t * r == part as real && t * 1.0 == t;
    }
  }

  /** A rate is zero exactly when nothing was counted or nothing was requested. */
  lemma RateZero(part: nat, total: nat)
    ensures Rate(part, total) == 0.0 <==> part == 0 || total == 0
  {
  }

  /**
   * Comparing a rate with a fraction `p / q` is comparing integers:
   * the health thresholds 0.8 and 0.1 become `5 * successful > 4 * total`
   * and `10 * flood < total`.
   */
  lemma RateCompare(part: nat, total: nat, p: nat, q: nat)
    requires total > 0 && q > 0
    ensures Rate(part, total) > (p as real) / (q as real) <==> q * part > p * total
    ensures Rate(part, total) < (p as real) / (q as real) <==> q * part < p * total
  {
    var r := Rate(part, total);
    var t := total as real;
    var qr := q as real;
    var f := (p as real) / qr;
    var lhs, rhs := q * part, p * total;
    var x, y := qr * (t * r), qr * (t * f);
    assert lhs as real == x by {
      assert lhs as real == qr * (part as real);
    }
    assert rhs as real == y by {
      assert f * qr == p as real;
      assert rhs as real == (p as real) * t;
    }
    assert (r > f <==> t * r > t * f) && (r < f <==> t * r < t * f) by {
      ScaleStrict(t, r, f);
    }
    assert (t * r > t * f <==> x > y) && (t * r < t * f <==> x < y) by {
      ScaleStrict(qr, t * r, t * f);
    }
    CastOrder(lhs, rhs);
    assert (r > f <==> lhs > rhs) && (r < f <==> lhs < rhs);
  }

  /** Converting integers to reals keeps their order. */
  lemma CastOrder(a: int, b: int)
    ensures a as real < b as real <==> a < b
    ensures a as real > b as real <==> a > b
  {
  }

  /** Multiplying by a positive factor keeps strict comparisons. */
  lemma ScaleStrict(a: real, x: real, y: real)
    requires a > 0.0
    ensures x > y <==> a * x > a * y
    ensures x < y <==> a * x < a * y
  {
    assert a * x - a * y == a * (x - y);
    if x > y {
      assert a * (x - y) > 0.0;
    } else if x < y {
      assert a * (y - x) > 0.0;
    }
  }

  /** A `RateLimitStats` object, updated in place by the limiter and the retry loop. */
  class RateLimitStats {
    var totalRequests: nat
    var successfulRequests: nat
    var rateLimitedRequests: nat
    var floodErrors: nat
    var lastRequestTime: Option<real>
    var lastFloodTime: Option<real>
    var resolveRequestsToday: nat
    var resolveLastReset: Option<real>

    function View(): Counters
      reads this
    {
      Counters(totalRequests, successfulRequests, rateLimitedRequests, floodErrors,
               lastRequestTime, lastFloodTime, resolveRequestsToday, resolveLastReset)
    }

    constructor ()
      ensures View() == Initial()
    {
      totalRequests, successfulRequests, rateLimitedRequests, floodErrors := 0, 0, 0, 0;
      lastRequestTime, lastFloodTime := None, None;
      resolveRequestsToday, resolveLastReset := 0, None;
    }

    method RecordRequest(now: real)
      modifies this
      ensures View() == WithRequest(old(View()), now)
    {
      totalRequests := totalRequests + 1;
      lastRequestTime := Some(now);
    }

    method RecordSuccess()
      modifies this
      ensures View() == WithSuccess(old(View()))
    {
      successfulRequests := successfulRequests + 1;
    }

    method RecordRateLimited()
      modifies this
      ensures View() == WithRateLimited(old(View()))
    {
      rateLimitedRequests := rateLimitedRequests + 1;
    }

    method RecordFloodError(now: real)
      modifies this
      ensures View() == WithFloodError(old(View()), now)
    {
      floodErrors := floodErrors + 1;
      lastFloodTime := Some(now);
    }

    method RecordResolveRequest(now: real)
      modifies this
      ensures View() == WithResolveRequest(old(View()), now)
      ensures DayElapsed(old(resolveLastReset), now) ==> resolveRequestsToday == 1 && resolveLastReset == Some(now)
      ensures !DayElapsed(old(resolveLastReset), now) ==>
        resolveRequestsToday == old(resolveRequestsToday) + 1 && resolveLastReset == old(resolveLastReset)
    {
      if DayElapsed(resolveLastReset, now) {
        resolveRequestsToday := 0;
        resolveLastReset := Some(now);
      }
      resolveRequestsToday := resolveRequestsToday + 1;
    }

    /** The `success_rate` property. */
    function SuccessRate(): (r: real)
      reads this
      ensures r >= 0.0
      ensures totalRequests == 0 ==> r == 0.0
      ensures totalRequests > 0 ==> r * (totalRequests as real) == successfulRequests as real
      ensures successfulRequests <= totalRequests ==> r <= 1.0
    {
      RateAtMostOne(successfulRequests, totalRequests);
      Rate(successfulRequests, totalRequests)
    }

    /** The `flood_rate` property; it has no upper bound, since one request can meet several floods. */
    function FloodRate(): (r: real)
      reads this
      ensures r >= 0.0
      ensures totalRequests == 0 ==> r == 0.0
      ensures totalRequests > 0 ==> r * (totalRequests as real) == floodErrors as real
    {
      Rate(floodErrors, totalRequests)
    }
  }
}
