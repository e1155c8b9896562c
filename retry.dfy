/**
 * `_execute_with_retry` (src/mcp_telegram/tools.py): call the wrapped
 * coroutine, and on a `FloodWaitError` of at most 60 seconds sleep that long
 * and call again, up to `max_retries` retries.
 *
 * The wrapped call is not visible here; its behaviour is the function
 * `attempt`, which gives the outcome of the k-th call (k from 0).
 */
module Retry {
  import opened Options
  import opened Stats
  import Limiter

  /** The longest flood wait the loop sleeps through (the literal 60 of the source). */
  const LongestWait: int := 60

  /** What one call of the wrapped coroutine does. */
  datatype Attempt =
    | Returns(reply: string)       // it returned
    | FloodWait(seconds: int)      // it raised `FloodWaitError`
    | Fails(error: string)         // it raised any other exception

  /** How the loop ends. */
  datatype Outcome =
    | Returned(reply: string)
    | RaisedFlood(seconds: int)
    | RaisedOther(error: string)
    | NoResult                     // the trailing `return None`

  /**
   * One run of the loop: how it ended, how many times the coroutine was
   * called, the sleeps in order, and how many flood errors were met.
   */
  datatype Run = Run(outcome: Outcome, calls: nat, sleeps: seq<int>, floods: nat)

  /** A flood error the loop may sleep through. */
  predicate ShortFlood(a: Attempt)
  {
    a.FloodWait? && a.seconds <= LongestWait
  }

  /** How a call that is not slept through ends the loop. */
  function Decisive(a: Attempt): Outcome
  {
    match a
    case Returns(r) => Returned(r)
    case FloodWait(s) => RaisedFlood(s)
    case Fails(e) => RaisedOther(e)
  }

  /** The loop entered with `retries` retries already spent. */
  function RetryFrom(attempt: nat -> Attempt, maxRetries: int, retries: nat): Run
    decreases if retries <= maxRetries then maxRetries - retries + 1 else 0
  {
    if retries > maxRetries then Run(NoResult, 0, [], 0)
    else match attempt(retries)
      case Returns(r) => Run(Returned(r), 1, [], 0)
      case Fails(e) => Run(RaisedOther(e), 1, [], 0)
      case FloodWait(s) =>
        if s > LongestWait || retries + 1 > maxRetries then Run(RaisedFlood(s), 1, [], 1)
        else
          var rest := RetryFrom(attempt, maxRetries, retries + 1);
          Run(rest.outcome, rest.calls + 1, [s] + rest.sleeps, rest.floods + 1)
  }

  /**
   * Unless the loop never ran, it ends the way its last call ended: the
   * value that call returned, or the exception it raised. A re-raised flood
   * error is one of more than 60 seconds, or one met on the last retry.
   */
  lemma {:induction false} LastCallDecides(attempt: nat -> Attempt, maxRetries: int, retries: nat)
    ensures var run := RetryFrom(attempt, maxRetries, retries);
      && (run.outcome != NoResult ==> run.calls >= 1 && run.outcome == Decisive(attempt(retries + run.calls - 1)))
      && (run.outcome.RaisedFlood? ==> run.outcome.seconds > LongestWait || retries + run.calls - 1 == maxRetries)
    decreases if retries <= maxRetries then maxRetries - retries + 1 else 0
  {
    if retries <= maxRetries && ShortFlood(attempt(retries)) && retries + 1 <= maxRetries {
      LastCallDecides(attempt, maxRetries, retries + 1);
      var rest := RetryFrom(attempt, maxRetries, retries + 1);
      assert retries + RetryFrom(attempt, maxRetries, retries).calls - 1 == retries + 1 + rest.calls - 1;
    }
  }

  /** `k` floods slept through, followed by the rest of the run. */
  function After(k: nat, sleeps: seq<int>, rest: Run): Run
  {
    Run(rest.outcome, k + rest.calls, sleeps + rest.sleeps, k + rest.floods)
  }

  /** The stats after `n` calls of `record_flood_error` at the clock reading `now`. */
  function WithFloodErrors(c: Counters, n: nat, now: real): (r: Counters)
    ensures r.floodErrors == c.floodErrors + n
    ensures r.lastFloodTime == if n == 0 then c.lastFloodTime else Some(now)
    ensures r.(floodErrors := c.floodErrors, lastFloodTime := c.lastFloodTime) == c
    decreases n
  {
    if n == 0 then c else WithFloodError(WithFloodErrors(c, n - 1, now), now)
  }

  /**
   * The run is decided by the first call that is not a short flood, or by
   * the call that uses the last retry: the coroutine is called up to and
   * including that call, every earlier call was a flood slept through for
   * exactly its own seconds, and the loop ends the way that call does.
   */
  lemma {:induction false} FirstDecisive(attempt: nat -> Attempt, maxRetries: int, retries: nat, k: nat)
    requires retries <= k <= maxRetries
    requires forall j :: retries <= j < k ==> ShortFlood(attempt(j))
    requires !ShortFlood(attempt(k)) || k == maxRetries
    ensures var run := RetryFrom(attempt, maxRetries, retries);
      && run.outcome == Decisive(attempt(k))
      && run.calls == k - retries + 1
      && |run.sleeps| == k - retries
      && (forall j :: 0 <= j < |run.sleeps| ==> attempt(retries + j) == FloodWait(run.sleeps[j]))
      && run.floods == k - retries + (if attempt(k).FloodWait? then 1 else 0)
    decreases k - retries
  {
    if retries < k {
      assert ShortFlood(attempt(retries));
      FirstDecisive(attempt, maxRetries, retries + 1, k);
      var rest := RetryFrom(attempt, maxRetries, retries + 1);
      var run := RetryFrom(attempt, maxRetries, retries);
      assert run.sleeps == [attempt(retries).seconds] + rest.sleeps;
      forall j | 0 <= j < |run.sleeps|
        ensures attempt(retries + j) == FloodWait(run.sleeps[j])
      {
        if j > 0 {
          assert run.sleeps[j] == rest.sleeps[j - 1];
          assert attempt(retries + 1 + (j - 1)) == FloodWait(rest.sleeps[j - 1]);
        }
      }
    }
  }

  /**
   * The bounds of the loop: at most `max_retries + 1` calls and at most
   * `max_retries` sleeps, one fewer sleep than calls, every sleep at most
   * 60 seconds and exactly the seconds of the flood that caused it, one
   * flood error per sleep plus possibly the one that ended the run. The
   * trailing `return None` is reached exactly when `max_retries` is negative.
   */
  lemma {:induction false} RetryBounds(attempt: nat -> Attempt, maxRetries: int, retries: nat)
    ensures var run := RetryFrom(attempt, maxRetries, retries);
      && (run.outcome == NoResult <==> retries > maxRetries)
      && (retries <= maxRetries ==>
            && 1 <= run.calls <= maxRetries - retries + 1
            && |run.sleeps| == run.calls - 1
            && (run.floods == |run.sleeps| || run.floods == |run.sleeps| + 1))
      && (forall j :: 0 <= j < |run.sleeps| ==>
            attempt(retries + j) == FloodWait(run.sleeps[j]) && run.sleeps[j] <= LongestWait)
    decreases if retries <= maxRetries then maxRetries - retries + 1 else 0
  {
    if retries <= maxRetries && ShortFlood(attempt(retries)) && retries + 1 <= maxRetries {
      RetryBounds(attempt, maxRetries, retries + 1);
      var rest := RetryFrom(attempt, maxRetries, retries + 1);
      var run := RetryFrom(attempt, maxRetries, retries);
      assert run.sleeps == [attempt(retries).seconds] + rest.sleeps;
      forall j | 0 <= j < |run.sleeps|
        ensures attempt(retries + j) == FloodWait(run.sleeps[j]) && run.sleeps[j] <= LongestWait
      {
        if j > 0 {
          assert run.sleeps[j] == rest.sleeps[j - 1];
          assert attempt(retries + 1 + (j - 1)) == FloodWait(rest.sleeps[j - 1]);
        }
      }
    }
  }

  /**
   * When every call floods for at most 60 seconds, the `(max_retries + 1)`-th
   * flood error is re-raised after `max_retries` sleeps.
   */
  lemma ExhaustedRetriesRaise(attempt: nat -> Attempt, maxRetries: nat)
    requires forall j :: 0 <= j <= maxRetries ==> ShortFlood(attempt(j))
    ensures var run := RetryFrom(attempt, maxRetries, 0);
      && run.outcome.RaisedFlood? && attempt(maxRetries) == FloodWait(run.outcome.seconds)
      && run.calls == maxRetries + 1 && |run.sleeps| == maxRetries && run.floods == maxRetries + 1
  {
    FirstDecisive(attempt, maxRetries, 0, maxRetries);
  }

  /**
   * A first call that raises anything but a short flood ends the loop at
   * once: one call, no sleep, the exception re-raised (a flood of more than
   * 60 seconds still counts as one flood error).
   */
  lemma FirstFailureIsFinal(attempt: nat -> Attempt, maxRetries: nat)
    requires !ShortFlood(attempt(0)) && !attempt(0).Returns?
    ensures var run := RetryFrom(attempt, maxRetries, 0);
      && run.outcome == Decisive(attempt(0)) && !run.outcome.Returned?
      && run.calls == 1 && run.sleeps == []
      && run.floods == if attempt(0).FloodWait? then 1 else 0
  {
    FirstDecisive(attempt, maxRetries, 0, 0);
  }

  /** A call that is not slept through, or that uses the last retry, ends the run the way it ends. */
  lemma StopsHere(attempt: nat -> Attempt, maxRetries: int, retries: nat, sleeps: seq<int>)
    requires retries <= maxRetries && (!ShortFlood(attempt(retries)) || retries + 1 > maxRetries)
    ensures After(retries, sleeps, RetryFrom(attempt, maxRetries, retries)) ==
      Run(Decisive(attempt(retries)), retries + 1, sleeps, retries + if attempt(retries).FloodWait? then 1 else 0)
  {
    assert sleeps + [] == sleeps;
  }

  /** A short flood with a retry left adds its seconds to the sleeps and moves on to the next call. */
  lemma SleepsThrough(attempt: nat -> Attempt, maxRetries: int, retries: nat, sleeps: seq<int>)
    requires retries + 1 <= maxRetries && ShortFlood(attempt(retries))
    ensures After(retries, sleeps, RetryFrom(attempt, maxRetries, retries)) ==
      After(retries + 1, sleeps + [attempt(retries).seconds], RetryFrom(attempt, maxRetries, retries + 1))
  {
    var rest := RetryFrom(attempt, maxRetries, retries + 1);
    var s := attempt(retries).seconds;
    assert sleeps + ([s] + rest.sleeps) == (sleeps + [s]) + rest.sleeps;
  }

  /**
   * The loop. With a limiter, every flood error is recorded on its stats
   * before anything else happens; without one, nothing is recorded.
   */
  method ExecuteWithRetry(attempt: nat -> Attempt, maxRetries: int, limiter: Limiter.RateLimiter?, now: real)
    returns (run: Run)
    modifies if limiter != null then {limiter.stats} else {}
    ensures run == RetryFrom(attempt, maxRetries, 0)
    ensures limiter != null ==> limiter.stats.View() == WithFloodErrors(old(limiter.stats.View()), run.floods, now)
  {
    ghost var c0 := if limiter != null then limiter.stats.View() else Initial();
    var retries: nat := 0;
    var sleeps: seq<int> := [];
    while retries <= maxRetries
      invariant |sleeps| == retries
      invariant After(retries, sleeps, RetryFrom(attempt, maxRetries, retries)) == RetryFrom(attempt, maxRetries, 0)
      invariant limiter != null ==> limiter.stats.View() == WithFloodErrors(c0, retries, now)
      decreases maxRetries - retries
    {
      match attempt(retries)
      case Returns(r) =>
        StopsHere(attempt, maxRetries, retries, sleeps);
        return Run(Returned(r), retries + 1, sleeps, retries);
      case Fails(e) =>
        StopsHere(attempt, maxRetries, retries, sleeps);
        return Run(RaisedOther(e), retries + 1, sleeps, retries);
      case FloodWait(s) =>
        RecordFlood(limiter, now);
        if s > LongestWait || retries + 1 > maxRetries {
          StopsHere(attempt, maxRetries, retries, sleeps);
          return Run(RaisedFlood(s), retries + 1, sleeps, retries + 1);
        }
        SleepsThrough(attempt, maxRetries, retries, sleeps);
        retries := retries + 1;
        sleeps := sleeps + [s];
    }
    assert sleeps + [] == sleeps;
    return Run(NoResult, retries, sleeps, retries);
  }

  /** `limiter.stats.record_flood_error()` when there is a limiter; nothing otherwise. */
  method RecordFlood(limiter: Limiter.RateLimiter?, now: real)
    modifies if limiter != null then {limiter.stats} else {}
    ensures limiter != null ==> limiter.stats.View() == WithFloodError(old(limiter.stats.View()), now)
  {
    if limiter != null {
      limiter.stats.RecordFloodError(now);
    }
  }
}
