/**
 * The sliding windows of `RateLimiter` (src/mcp_telegram/rate_limiter.py):
 * a queue of admission timestamps, oldest first, from which the expired
 * prefix is popped before each check, followed by the wait (when the window
 * is full) and the append of the current timestamp.
 */
module Window {

  /** Timestamps were appended in clock order. */
  predicate NonDecreasing(q: seq<real>)
  {
    forall i, j :: 0 <= i <= j < |q| ==> q[i] <= q[j]
  }

  /**
   * The length of the expired prefix: the leading entries at or before
   * `cutoff`. It is the maximal such prefix, so the first survivor (if any)
   * lies after the cutoff.
   */
  function EvictCount(q: seq<real>, cutoff: real): (k: nat)
    ensures k <= |q|
    ensures forall i :: 0 <= i < k ==> q[i] <= cutoff
    ensures k < |q| ==> q[k] > cutoff
    decreases |q|
  {
    if |q| > 0 && q[0] <= cutoff then 1 + EvictCount(q[1..], cutoff) else 0
  }

  /** The queue once the entries older than the window have been dropped. */
  function Evicted(q: seq<real>, now: real, windowSeconds: real): seq<real>
  {
    q[EvictCount(q, now - windowSeconds)..]
  }

  /**
   * `_cleanup_old_requests`: pop from the left while the oldest entry is at or
   * before `now - window_seconds`. The deque becomes the queue without its
   * maximal expired prefix, survivors in their original order.
   */
  method CleanupOldRequests(queue: seq<real>, windowSeconds: real, now: real) returns (kept: seq<real>)
    ensures kept == queue[EvictCount(queue, now - windowSeconds)..]
    ensures forall i :: 0 <= i < |queue| - |kept| ==> queue[i] <= now - windowSeconds
    ensures kept != [] ==> kept[0] > now - windowSeconds
  {
    kept := queue;
    ghost var popped: nat := 0;
    while |kept| > 0 && kept[0] <= now - windowSeconds
      invariant popped <= |queue| && kept == queue[popped..]
      invariant forall i :: 0 <= i < popped ==> queue[i] <= now - windowSeconds
      decreases |kept|
    {
      kept := kept[1..];
      popped := popped + 1;
    }
  }

  /** In a queue kept in clock order every survivor of the eviction is inside the window. */
  lemma SurvivorsInsideWindow(q: seq<real>, now: real, windowSeconds: real)
    requires NonDecreasing(q)
    ensures forall t :: t in Evicted(q, now, windowSeconds) ==> now - t < windowSeconds
    ensures NonDecreasing(Evicted(q, now, windowSeconds))
  {
    var k := EvictCount(q, now - windowSeconds);
    forall t | t in q[k..]
      ensures now - t < windowSeconds
    {
      var j :| k <= j < |q| && q[j] == t;
      assert q[k] <= q[j];
    }
  }

  /**
   * What one window check leaves behind: either the call passes, after
   * waiting `wait` seconds (zero when it did not sleep), with the
   * pre-sleep `now` appended; or the check faults on `queue[0]` of an empty
   * queue, which only a limit of zero or less can bring about.
   */
  datatype Outcome = Passed(queue: seq<real>, wait: real) | IndexFault(queue: seq<real>)

  /**
   * The body of `_wait_for_global_limit` / `_wait_for_chat_limit` on one
   * queue: evict, sleep `window - (now - queue[0])` when the window is full and
   * that is positive, then append `now`.
   */
  function WindowCheck(q: seq<real>, now: real, windowSeconds: real, limit: int): (r: Outcome)
  {
    var kept := q[EvictCount(q, now - windowSeconds)..];
    if |kept| >= limit then
      if kept == [] then IndexFault(kept)
      else
        var w := windowSeconds - (now - kept[0]);
        Passed(kept + [now], if w > 0.0 then w else 0.0)
    else
      Passed(kept + [now], 0.0)
  }

  /**
   * What a window check means. It faults exactly when the limit is zero or
   * less and nothing survives the eviction. A passed check appends the
   * pre-sleep `now` to the survivors, one timestamp per check. A full window
   * always sleeps, since its oldest survivor lies after the cutoff, and the
   * call resumes exactly when that entry leaves the window; a window that is
   * not full does not sleep.
   */
  lemma WindowCheckOutcome(q: seq<real>, now: real, windowSeconds: real, limit: int)
    ensures var o := WindowCheck(q, now, windowSeconds, limit);
      var kept := Evicted(q, now, windowSeconds);
      && (o.IndexFault? <==> limit <= 0 && kept == [])
      && (o.IndexFault? ==> o.queue == kept)
      && (o.Passed? ==> o.queue == kept + [now] && |o.queue| == |kept| + 1)
      && (o.Passed? ==> (o.wait > 0.0 <==> |kept| >= limit))
      && (o.Passed? && |kept| < limit ==> o.wait == 0.0)
      && (o.Passed? && |kept| >= limit ==> now + o.wait == kept[0] + windowSeconds)
  {
  }

  /** Appending the pre-sleep clock reading keeps the queue in clock order when the clock does not run backwards. */
  lemma CheckKeepsOrder(q: seq<real>, now: real, windowSeconds: real, limit: int)
    requires NonDecreasing(q)
    requires forall i :: 0 <= i < |q| ==> q[i] <= now
    ensures NonDecreasing(WindowCheck(q, now, windowSeconds, limit).queue)
  {
    SurvivorsInsideWindow(q, now, windowSeconds);
    var kept := Evicted(q, now, windowSeconds);
    assert forall t :: t in kept ==> t in q;
  }

  /**
   * No re-eviction happens after the sleep, so a window can hold `limit + 1`
   * entries, but never more when calls come one after another: if a queue of
   * `limit + 1` entries is checked no earlier than the moment the previous
   * call resumed, its oldest entry has expired. The postcondition hands the
   * same promise on to the next call.
   */
  lemma {:induction false} SequentialChecksStayBounded(q: seq<real>, now: real, windowSeconds: real, limit: int)
    requires limit >= 1 && |q| <= limit + 1
    requires |q| == limit + 1 ==> now >= q[0] + windowSeconds
    ensures var o := WindowCheck(q, now, windowSeconds, limit);
      && o.Passed? && |o.queue| <= limit + 1
      && (|o.queue| == limit + 1 ==> now + o.wait >= o.queue[0] + windowSeconds)
  {
    var k := EvictCount(q, now - windowSeconds);
    if |q| == limit + 1 {
      assert q[0] <= now - windowSeconds;
      assert k >= 1;
    }
  }

  /**
   * Because the stamp is taken before the sleep, a window of one call per
   * 60 s lets two calls through ten seconds apart: calls at 0, 10 and 60.5
   * are admitted at 0, 60 and 70.
   */
  lemma StampBeforeSleepAdmitsEarly()
    ensures var o1 := WindowCheck([], 0.0, 60.0, 1);
      var o2 := WindowCheck(o1.queue, 10.0, 60.0, 1);
      var o3 := WindowCheck(o2.queue, 60.5, 60.0, 1);
      && o1 == Passed([0.0], 0.0)
      && o2 == Passed([0.0, 10.0], 50.0)
      && o3 == Passed([10.0, 60.5], 9.5)
      && (60.5 + o3.wait) - (10.0 + o2.wait) < 60.0
  {
    FirstCallAtZero();
    SecondCallAtTen();
    ThirdCallAtSixtyAndAHalf();
  }

  /** The first call of the example finds an empty window and passes at once. */
  lemma FirstCallAtZero()
    ensures WindowCheck([], 0.0, 60.0, 1) == Passed([0.0], 0.0)
  {
    assert EvictCount([], 0.0 - 60.0) == 0;
  }

  /** The second call of the example finds the window full and waits 50 s. */
  lemma SecondCallAtTen()
    ensures WindowCheck([0.0], 10.0, 60.0, 1) == Passed([0.0, 10.0], 50.0)
  {
    assert EvictCount([0.0], 10.0 - 60.0) == 0;
  }

  /** The third call of the example evicts the first stamp and waits for the second, taken at 10. */
  lemma ThirdCallAtSixtyAndAHalf()
    ensures WindowCheck([0.0, 10.0], 60.5, 60.0, 1) == Passed([10.0, 60.5], 9.5)
  {
    var q := [0.0, 10.0];
    assert q[1..] == [10.0];
    assert EvictCount([10.0], 60.5 - 60.0) == 0;
    assert EvictCount(q, 60.5 - 60.0) == 1;
    assert [10.0] + [60.5] == [10.0, 60.5];
  }


}
