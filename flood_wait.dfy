/**
 * The wrapper `handle_flood_wait` builds around every tool
 * (src/mcp_telegram/tools.py): it derives the scope id and the priority of
 * the call, turns away resolve-set calls once the daily quota is used up,
 * asks the limiter for a grant and runs the retry loop under it.
 *
 * A tool's arguments are pydantic objects; one is modelled by the map from
 * its attribute names to their values, so `hasattr` is membership.
 */
module FloodWait {
  import opened Options
  import opened PyValues
  import opened Config
  import opened Stats
  import opened Limiter
  import opened Retry
  import Strings

  /** The attributes tried for the scope id, in order. */
  const ScopeAttributes: seq<string> := ["chat_id", "from_chat_id", "peer_id", "channel_id", "user_id"]

  /** The position of the first of `names` that the object has, if any. */
  function FirstPresent(obj: map<string, PyValue>, names: seq<string>): (r: Option<nat>)
    ensures r.None? <==> forall i :: 0 <= i < |names| ==> names[i] !in obj
    ensures r.Some? ==> r.value < |names| && names[r.value] in obj
                        && forall j :: 0 <= j < r.value ==> names[j] !in obj
    decreases |names|
  {
    if names == [] then None
    else if names[0] in obj then Some(0)
    else
      var r := FirstPresent(obj, names[1..]);
      if r.Some? then Some(r.value + 1) else None
  }

  /**
   * The scope id handed to `acquire`: the attribute of the first positional
   * argument named first in `ScopeAttributes` that it has, even when its
   * value is `None`; `None` without positional arguments or without any of
   * those attributes.
   */
  function ScopeId(args: seq<map<string, PyValue>>): (id: PyValue)
    ensures args == [] ==> id == PyNone
    ensures args != [] && (forall i :: 0 <= i < |ScopeAttributes| ==> ScopeAttributes[i] !in args[0]) ==> id == PyNone
    ensures args != [] ==>
      forall i :: 0 <= i < |ScopeAttributes| && ScopeAttributes[i] in args[0] &&
                  (forall j :: 0 <= j < i ==> ScopeAttributes[j] !in args[0])
                  ==> id == args[0][ScopeAttributes[i]]
  {
    if args == [] then PyNone
    else
      var r := FirstPresent(args[0], ScopeAttributes);
      if r.Some? then args[0][ScopeAttributes[r.value]] else PyNone
  }

  const HighPriority: set<string> := {
    "send_message", "reply_to_message", "get_me", "get_user_info",
    "edit_message", "delete_message", "forward_message"
  }
  const MediumPriority: set<string> := {
    "send_file", "get_chat_info", "get_chat_history", "get_chat_members",
    "search_messages", "download_file"
  }
  const LowPriority: set<string> := {
    "get_all_chats", "get_folders", "search_global", "get_entity_info"
  }

  /** The priority tier of a tool: 5, 3 or 1 for the three fixed sets, tried in that order, 2 for any other name. */
  function Priority(methodName: string): (p: int)
    ensures p == 1 || p == 2 || p == 3 || p == 5
    ensures p == 5 <==> methodName in HighPriority
    ensures p == 3 <==> methodName in MediumPriority
    ensures p == 1 <==> methodName in LowPriority
  {
    if methodName in HighPriority then 5
    else if methodName in MediumPriority then 3
    else if methodName in LowPriority then 1
    else 2
  }

  /** The names the wrapper checks against the daily resolve quota before asking for a grant. */
  const ResolveMethods: set<string> := {
    "resolve_username", "search_global", "search_chats", "search_users",
    "get_entity_info", "resolve_phone", "check_username"
  }

  /**
   * The wrapper's resolve set and `acquire`'s test ("resolve" in the
   * lower-cased name) disagree: of the seven names only `resolve_username`
   * and `resolve_phone` are counted against the daily quota when admitted.
   */
  lemma ResolveSetVersusSubstring(methodName: string)
    requires methodName in ResolveMethods
    ensures IsResolveClass(methodName) <==> methodName == "resolve_username" || methodName == "resolve_phone"
  {
    if methodName == "resolve_username" || methodName == "resolve_phone" {
      ResolvePrefix(methodName);
    } else {
      NoVNoResolve(methodName);
    }
  }

  const DailyLimitText: string := "Error: Daily limit for resolve operations exceeded. Please try tomorrow."
  const RateLimitText: string := "Error: Rate limit exceeded. Please try again later."

  /** What the wrapper returns: one of its two error texts, or whatever the retry loop ended with. */
  datatype Reply = ErrorText(text: string) | Completed(run: Run)

  /**
   * The wrapper with the limiter in use, as a function of the limiter's
   * configuration and state: the quota pre-check for resolve-set names, the
   * admission, the retry loop while the grant is held (its flood errors
   * recorded on the limiter's stats), and the release. Returns the reply and
   * the limiter state afterwards.
   */
  function Wrap(config: RateLimitConfig, v: Snapshot, maxRetries: int, methodName: string,
                args: seq<map<string, PyValue>>, attempt: nat -> Attempt, now: real, baseDelay: real): (r: (Reply, Snapshot))
    ensures r.0.ErrorText? ==> r.0.text == DailyLimitText || r.0.text == RateLimitText
    ensures r.0.ErrorText? && r.0.text == DailyLimitText ==>
      methodName in ResolveMethods && !QuotaLeft(v.counters, now, config.resolveDailyLimit)
  {
    var gate := CheckResolve(config, v, now);
    if methodName in ResolveMethods && !gate.ok then (ErrorText(DailyLimitText), gate.view)
    else
      var v1 := if methodName in ResolveMethods then gate.view else v;
      var s := Admit(config, v1, methodName, ScopeId(args), Priority(methodName), now, baseDelay);
      if !s.ok then (ErrorText(RateLimitText), s.view)
      else
        AdmitGrant(config, v1, methodName, ScopeId(args), Priority(methodName), now, baseDelay);
        var run := RetryFrom(attempt, maxRetries, 0);
        (Completed(run), AfterRelease(s.view.(counters := WithFloodErrors(s.view.counters, run.floods, now)), true))
  }

  /**
   * Both short-circuits keep the wrapped coroutine from running and leave the
   * success count alone: a resolve-set name with the quota used up gets the
   * daily-limit text and no request is recorded; a denied admission gets the
   * rate-limit text. Otherwise the reply is the run of the retry loop, and
   * the grant is released with one success recorded; every flood error met
   * is counted. When that run ends in an exception, the reply records the
   * exception the loop raised; the `RuntimeError` the context manager then
   * raises in its place is not modelled (see the README).
   */
  lemma WrapOutcomes(config: RateLimitConfig, v: Snapshot, maxRetries: int, methodName: string,
                     args: seq<map<string, PyValue>>, attempt: nat -> Attempt, now: real, baseDelay: real)
    ensures var (reply, after) := Wrap(config, v, maxRetries, methodName, args, attempt, now, baseDelay);
      && (methodName in ResolveMethods && !QuotaLeft(v.counters, now, config.resolveDailyLimit) ==>
            reply == ErrorText(DailyLimitText) && after.counters.totalRequests == v.counters.totalRequests
            && after.inFlight == v.inFlight)
      && (reply.ErrorText? ==>
            && after.counters.successfulRequests == v.counters.successfulRequests
            && after.counters.floodErrors == v.counters.floodErrors
            && after.inFlight == v.inFlight)
      && (reply.Completed? ==>
            && reply.run == RetryFrom(attempt, maxRetries, 0)
            && after.counters.totalRequests == v.counters.totalRequests + 1
            && after.counters.successfulRequests == v.counters.successfulRequests + 1
            && after.counters.floodErrors == v.counters.floodErrors + reply.run.floods
            && after.inFlight == v.inFlight)
  {
    if methodName in ResolveMethods && !QuotaLeft(v.counters, now, config.resolveDailyLimit) {
      WrapQuotaShortCircuit(config, v, maxRetries, methodName, args, attempt, now, baseDelay);
    }
    WrapErrorCounts(config, v, maxRetries, methodName, args, attempt, now, baseDelay);
    WrapCompletedCounts(config, v, maxRetries, methodName, args, attempt, now, baseDelay);
  }

  /** A resolve-set name with the quota used up: the daily-limit text, and no counter or permit touched. */
  lemma WrapQuotaShortCircuit(config: RateLimitConfig, v: Snapshot, maxRetries: int, methodName: string,
                              args: seq<map<string, PyValue>>, attempt: nat -> Attempt, now: real, baseDelay: real)
    requires methodName in ResolveMethods && !QuotaLeft(v.counters, now, config.resolveDailyLimit)
    ensures var (reply, after) := Wrap(config, v, maxRetries, methodName, args, attempt, now, baseDelay);
      && reply == ErrorText(DailyLimitText) && after.counters.totalRequests == v.counters.totalRequests
      && after.inFlight == v.inFlight
  {
    assert !CheckResolve(config, v, now).ok;
  }

  /** Either error text: no success, no flood error and no permit recorded. */
  lemma WrapErrorCounts(config: RateLimitConfig, v: Snapshot, maxRetries: int, methodName: string,
                        args: seq<map<string, PyValue>>, attempt: nat -> Attempt, now: real, baseDelay: real)
    ensures var (reply, after) := Wrap(config, v, maxRetries, methodName, args, attempt, now, baseDelay);
      reply.ErrorText? ==>
        && after.counters.successfulRequests == v.counters.successfulRequests
        && after.counters.floodErrors == v.counters.floodErrors
        && after.inFlight == v.inFlight
  {
    var gate := CheckResolve(config, v, now);
    if !(methodName in ResolveMethods && !gate.ok) {
      var v1 := if methodName in ResolveMethods then gate.view else v;
      AdmitFrame(config, v1, methodName, ScopeId(args), Priority(methodName), now, baseDelay);
    }
  }

  /** A completed run: one request and one success recorded, every flood error met counted, the permit given back. */
  lemma WrapCompletedCounts(config: RateLimitConfig, v: Snapshot, maxRetries: int, methodName: string,
                            args: seq<map<string, PyValue>>, attempt: nat -> Attempt, now: real, baseDelay: real)
    ensures var (reply, after) := Wrap(config, v, maxRetries, methodName, args, attempt, now, baseDelay);
      reply.Completed? ==>
        && reply.run == RetryFrom(attempt, maxRetries, 0)
        && after.counters.totalRequests == v.counters.totalRequests + 1
        && after.counters.successfulRequests == v.counters.successfulRequests + 1
        && after.counters.floodErrors == v.counters.floodErrors + reply.run.floods
        && after.inFlight == v.inFlight
  {
    var gate := CheckResolve(config, v, now);
    if !(methodName in ResolveMethods && !gate.ok) {
      var v1 := if methodName in ResolveMethods then gate.view else v;
      if Admit(config, v1, methodName, ScopeId(args), Priority(methodName), now, baseDelay).ok {
        AdmitFrame(config, v1, methodName, ScopeId(args), Priority(methodName), now, baseDelay);
        AdmitGrant(config, v1, methodName, ScopeId(args), Priority(methodName), now, baseDelay);
      }
    }
  }

  /**
   * Under a configuration with positive limits (every preset) a call is
   * turned away only for the daily quota: by the wrapper's pre-check for the
   * resolve set, or by `acquire`'s own check for names containing "resolve".
   * Every priority tier is non-zero, so the pacing delay never fails.
   */
  lemma OnlyQuotaTurnsAway(config: RateLimitConfig, v: Snapshot, maxRetries: int, methodName: string,
                           args: seq<map<string, PyValue>>, attempt: nat -> Attempt, now: real, baseDelay: real)
    requires PositiveLimits(config)
    ensures Wrap(config, v, maxRetries, methodName, args, attempt, now, baseDelay).0.ErrorText? <==>
      (methodName in ResolveMethods || IsResolveClass(methodName)) && !QuotaLeft(v.counters, now, config.resolveDailyLimit)
  {
    var gate := CheckResolve(config, v, now);
    var v1 := if methodName in ResolveMethods then gate.view else v;
    OnlyQuotaOrPriorityDeny(config, v1, methodName, ScopeId(args), Priority(methodName), now, baseDelay);
    assert Rollover(gate.view.counters, now) == Rollover(v.counters, now);
  }

  /** The retry loop while a grant is held: only the limiter's stats change, by the flood errors met. */
  method RetryUnderGrant(limiter: RateLimiter, maxRetries: int, attempt: nat -> Attempt, now: real) returns (run: Run)
    modifies limiter.stats
    ensures run == RetryFrom(attempt, maxRetries, 0)
    ensures limiter.View() == old(limiter.View()).(counters := WithFloodErrors(old(limiter.View()).counters, run.floods, now))
  {
    run := ExecuteWithRetry(attempt, maxRetries, limiter, now);
  }

  /** The wrapper's body on a given limiter: the pre-check, `acquire`, the retry loop under the grant, the release. */
  method WrapWith(limiter: RateLimiter, maxRetries: int, methodName: string,
                  args: seq<map<string, PyValue>>, attempt: nat -> Attempt, now: real, baseDelay: real)
    returns (reply: Reply)
    requires limiter.Valid()
    modifies limiter, limiter.stats
    ensures (reply, limiter.View()) == Wrap(limiter.config, old(limiter.View()), maxRetries, methodName, args, attempt, now, baseDelay)
    ensures limiter.Valid()
  {
    ghost var v0 := limiter.View();
    var chatId := ScopeId(args);
    var priority := Priority(methodName);
    if methodName in ResolveMethods {
      var quotaLeft := limiter.CheckResolveLimit(now);
      if !quotaLeft {
        return ErrorText(DailyLimitText);
      }
    }
    ghost var v1 := limiter.View();
    assert v1 == if methodName in ResolveMethods then CheckResolve(limiter.config, v0, now).view else v0;
    var acquired, slept := limiter.Acquire(methodName, chatId, priority, now, baseDelay);
    if !acquired {
      limiter.Release(false);
      return ErrorText(RateLimitText);
    }
    AdmitGrant(limiter.config, v1, methodName, chatId, priority, now, baseDelay);
    var run := RetryUnderGrant(limiter, maxRetries, attempt, now);
    limiter.Release(true);
    reply := Completed(run);
  }

  /**
   * `handle_flood_wait(max_retries, use_rate_limiter)` applied to a tool and
   * called: with the limiter, it fetches the shared limiter from the
   * registry (building one with the default configuration on first use) and
   * behaves as `Wrap` on it; without, it only runs the retry loop.
   */
  method HandleFloodWait(registry: Registry, useRateLimiter: bool, maxRetries: int, methodName: string,
                         args: seq<map<string, PyValue>>, attempt: nat -> Attempt, now: real, baseDelay: real)
    returns (reply: Reply)
    requires registry.instance != null ==> registry.instance.Valid()
    modifies registry, registry.instance, if registry.instance != null then {registry.instance.stats} else {}
    ensures !useRateLimiter ==>
      reply == Completed(RetryFrom(attempt, maxRetries, 0)) && registry.instance == old(registry.instance)
      && (registry.instance != null ==> registry.instance.View() == old(registry.instance.View()))
    ensures useRateLimiter ==> registry.instance != null && registry.instance.Valid()
    ensures useRateLimiter && old(registry.instance) != null ==>
      registry.instance == old(registry.instance) &&
      (reply, registry.instance.View()) ==
        Wrap(registry.instance.config, old(registry.instance.View()), maxRetries, methodName, args, attempt, now, baseDelay)
    ensures useRateLimiter && old(registry.instance) == null ==>
      fresh(registry.instance) &&
      (reply, registry.instance.View()) == Wrap(Default(), InitialSnapshot(), maxRetries, methodName, args, attempt, now, baseDelay)
  {
    if !useRateLimiter {
      var run := ExecuteWithRetry(attempt, maxRetries, null, now);
      return Completed(run);
    }
    var limiter := registry.GetRateLimiter(None);
    reply := WrapWith(limiter, maxRetries, methodName, args, attempt, now, baseDelay);
  }
}
