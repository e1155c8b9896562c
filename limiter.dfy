/**
 * `RateLimiter` (src/mcp_telegram/rate_limiter.py): the admission sequence
 * in front of every Telegram call.
 *
 * The asynchronous context manager `acquire` is split at its `yield`:
 * `Acquire` runs everything up to the grant or denial, `Release` is its
 * `finally` block. Sleeps are returned as durations; the clock reading of the
 * chat-window check is the initial reading plus the global wait. The
 * semaphore is a count of held permits.
 */
module Limiter {
  import opened Options
  import opened Config
  import opened Stats
  import opened Window
  import opened PyValues
  import Strings

  const GlobalWindowSeconds: real := 60.0
  const GroupWindowSeconds: real := 60.0
  const ChatWindowSeconds: real := 1.0

  /** The names `_determine_chat_type` treats as group operations. */
  const GroupMethods: set<string> := {
    "get_chat_members", "get_chat_admins", "ban_chat_member",
    "unban_chat_member", "kick_chat_member", "promote_to_admin",
    "add_chat_member", "get_chat_online_count"
  }

  /** `_determine_chat_type`: decided by the lower-cased method name alone; the chat id is not consulted. */
  function DetermineChatType(chatId: PyValue, methodName: string): bool
  {
    Strings.Lower(methodName) in GroupMethods
  }

  /** No group operation is of the resolve class, so a call never meets both the group window and the quota. */
  lemma GroupNotResolve(chatId: PyValue, methodName: string)
    requires DetermineChatType(chatId, methodName)
    ensures !IsResolveClass(methodName)
  {
    var low := Strings.Lower(methodName);
    GroupNamesHaveNoV(low);
    NoVNotContained(low);
  }

  /** None of the group operation names has a 'v'. */
  lemma GroupNamesHaveNoV(name: string)
    requires name in GroupMethods
    ensures 'v' !in name
  {
  }

  /** The window and limit of a chat check: 60 s and the group limit for group operations, else 1 s and the chat limit. */
  function ChatWindow(config: RateLimitConfig, isGroup: bool): (r: (real, int))
  {
    if isGroup then (GroupWindowSeconds, config.groupLimit) else (ChatWindowSeconds, config.chatLimit)
  }

  /**
   * The classification ignores the chat id and the letter case of the name,
   * and selects the one-minute group window exactly for the eight group
   * operations.
   */
  lemma ChatTypeByNameOnly(a: PyValue, b: PyValue, methodName: string, config: RateLimitConfig)
    ensures DetermineChatType(a, methodName) == DetermineChatType(b, Strings.Lower(methodName))
    ensures ChatWindow(config, DetermineChatType(a, methodName)) ==
      if Strings.Lower(methodName) in GroupMethods then (60.0, config.groupLimit) else (1.0, config.chatLimit)
  {
    Strings.LowerIdempotent(methodName);
  }

  /** The test `acquire` applies: "resolve" occurs in the lower-cased name. */
  predicate IsResolveClass(methodName: string)
    ensures IsResolveClass(methodName) ==> |methodName| >= 7
  {
    Strings.Contains(Strings.Lower(methodName), "resolve")
  }

  /** A name without 'v' or 'V' does not contain "resolve" once lower-cased. */
  lemma NoVNoResolve(methodName: string)
    requires 'v' !in methodName && 'V' !in methodName
    ensures !IsResolveClass(methodName)
  {
    var low := Strings.Lower(methodName);
    assert forall j :: 0 <= j < |low| ==> low[j] != 'v';
    NoVNotContained(low);
  }

  /** A string without 'v' does not contain "resolve". */
  lemma NoVNotContained(s: string)
    requires 'v' !in s
    ensures !Strings.Contains(s, "resolve")
  {
    Strings.ContainsIffOccurs(s, "resolve");
    forall i: nat
      ensures !Strings.OccursAt(s, "resolve", i)
    {
      Strings.OccursAtChar(s, "resolve", i, 5);
    }
  }

  /** A name that starts with "resolve" is of the resolve class. */
  lemma ResolvePrefix(methodName: string)
    requires |methodName| >= 7 && methodName[..7] == "resolve"
    ensures IsResolveClass(methodName)
  {
    var low := Strings.Lower(methodName);
    Strings.ContainsIffOccurs(low, "resolve");
    assert low[..7] == "resolve";
    assert Strings.OccursAt(low, "resolve", 0);
  }

  /** The state of a limiter: its stats, its windows and the semaphore permits held. */
  datatype Snapshot = Snapshot(
    counters: Counters,
    globalQueue: seq<real>,
    chatQueues: map<string, seq<real>>,
    inFlight: nat)

  function InitialSnapshot(): Snapshot
  {
    Snapshot(Initial(), [], map[], 0)
  }

  /** The result of one step: the new state, whether the sequence goes on, and the time slept. */
  datatype Step = Step(view: Snapshot, ok: bool, slept: real)

  /** `check_resolve_limit`: roll the daily counter over if a day has passed, then compare it with the limit. */
  function CheckResolve(config: RateLimitConfig, v: Snapshot, now: real): (r: Step)
    ensures r.ok <==> QuotaLeft(v.counters, now, config.resolveDailyLimit)
    ensures r.view.(counters := v.counters) == v && r.slept == 0.0
    ensures r.view.counters.resolveRequestsToday <= v.counters.resolveRequestsToday
    ensures r.view.counters.totalRequests == v.counters.totalRequests
  {
    var c := Rollover(v.counters, now);
    Step(v.(counters := c), c.resolveRequestsToday < config.resolveDailyLimit, 0.0)
  }

  /** The chat window stored under `key`; `defaultdict(deque)` starts it empty. */
  function ChatQueue(v: Snapshot, key: string): seq<real>
  {
    if key in v.chatQueues then v.chatQueues[key] else []
  }

  /** `_wait_for_global_limit`: a window check on the global queue; a sleep is counted as rate-limited. */
  function GlobalStep(config: RateLimitConfig, v: Snapshot, now: real): (r: Step)
  {
    var o := WindowCheck(v.globalQueue, now, GlobalWindowSeconds, config.globalLimit);
    var c := if o.Passed? && o.wait > 0.0 then WithRateLimited(v.counters) else v.counters;
    Step(v.(globalQueue := o.queue, counters := c), o.Passed?, if o.Passed? then o.wait else 0.0)
  }

  /** `_wait_for_chat_limit`: the same check on the chat's own queue, which exists from now on. */
  function ChatStep(config: RateLimitConfig, v: Snapshot, key: string, isGroup: bool, now: real): (r: Step)
  {
    var window := ChatWindow(config, isGroup);
    var o := WindowCheck(ChatQueue(v, key), now, window.0, window.1);
    var c := if o.Passed? && o.wait > 0.0 then WithRateLimited(v.counters) else v.counters;
    Step(v.(chatQueues := v.chatQueues[key := o.queue], counters := c), o.Passed?, if o.Passed? then o.wait else 0.0)
  }

  /**
   * Past the quota check: the resolve request (after the rollover) for a
   * resolve-class name, a permit taken, and `record_request`.
   */
  function Entered(config: RateLimitConfig, v: Snapshot, methodName: string, now: real): Snapshot
  {
    var c1 := if IsResolveClass(methodName) then WithResolveRequest(Rollover(v.counters, now), now) else v.counters;
    v.(counters := WithRequest(c1, now), inFlight := v.inFlight + 1)
  }

  /** The global window, then, for a truthy chat id, that chat's window read after the global wait. */
  function Windows(config: RateLimitConfig, v: Snapshot, methodName: string, chatId: PyValue, now: real): Step
  {
    var g := GlobalStep(config, v, now);
    if !g.ok || !Truthy(chatId) then g
    else
      var ch := ChatStep(config, g.view, Str(chatId), DetermineChatType(chatId, methodName), now + g.slept);
      Step(ch.view, ch.ok, g.slept + ch.slept)
  }

  /** `_add_human_delay`: the drawn delay divided by the priority; a negative one does not sleep. */
  function PacingDelay(baseDelay: real, priority: int): (r: real)
    requires priority != 0
    ensures r >= 0.0
    ensures priority > 0 && baseDelay <= 0.0 ==> r == 0.0
    ensures priority >= 1 && baseDelay >= 0.0 ==> r <= baseDelay
  {
    var delay := baseDelay / (priority as real);
    if delay > 0.0 then
      assert priority >= 1 && baseDelay >= 0.0 ==> delay * (priority as real) == baseDelay;
      delay
    else 0.0
  }

  /**
   * The admission sequence of `acquire`, up to its `yield`, in the source's order:
   * the resolve quota (a denial here touches nothing but the rollover),
   * the semaphore, `record_request`, the global window, the chat window when
   * the chat id is truthy, the pacing delay `base_delay / priority`, the grant.
   * An exception raised on the way (an empty window under a limit of zero or
   * less, or a priority of zero) releases the semaphore and denies.
   */
  function Admit(config: RateLimitConfig, v: Snapshot, methodName: string, chatId: PyValue,
                 priority: int, now: real, baseDelay: real): (r: Step)
    ensures r.slept >= 0.0
    ensures r.ok ==> priority != 0 && (IsResolveClass(methodName) ==> QuotaLeft(v.counters, now, config.resolveDailyLimit))
  {
    var gate := CheckResolve(config, v, now);
    if IsResolveClass(methodName) && !gate.ok then gate
    else
      var w := Windows(config, Entered(config, v, methodName, now), methodName, chatId, now);
      if !w.ok || priority == 0 then Step(w.view.(inFlight := v.inFlight), false, w.slept)
      else Step(w.view, true, w.slept + PacingDelay(baseDelay, priority))
  }

  /** Past the quota check, the admission is decided by the window checks and the priority. */
  lemma AdmitPastGate(config: RateLimitConfig, v: Snapshot, methodName: string, chatId: PyValue,
                      priority: int, now: real, baseDelay: real)
    requires !IsResolveClass(methodName) || CheckResolve(config, v, now).ok
    ensures var w := Windows(config, Entered(config, v, methodName, now), methodName, chatId, now);
      Admit(config, v, methodName, chatId, priority, now, baseDelay) ==
        if !w.ok || priority == 0 then Step(w.view.(inFlight := v.inFlight), false, w.slept)
        else Step(w.view, true, w.slept + PacingDelay(baseDelay, priority))
  {
  }

  /** The `finally` of `acquire`: a grant is always matched by one success record and frees its permit. */
  function AfterRelease(v: Snapshot, acquired: bool): Snapshot
    requires acquired ==> v.inFlight > 0
  {
    if acquired then v.(counters := WithSuccess(v.counters), inFlight := v.inFlight - 1) else v
  }

  /** Successes plus grants still held never exceed the requests recorded. */
  predicate Consistent(v: Snapshot)
  {
    v.counters.successfulRequests + v.inFlight <= v.counters.totalRequests
  }

  /** One global check: only the global window and the rate-limited count move. */
  lemma GlobalStepEffect(config: RateLimitConfig, v: Snapshot, now: real)
    ensures var g := GlobalStep(config, v, now);
      var o := WindowCheck(v.globalQueue, now, GlobalWindowSeconds, config.globalLimit);
      var full := |Evicted(v.globalQueue, now, GlobalWindowSeconds)| >= config.globalLimit;
      && g.ok == o.Passed?
      && g.view.inFlight == v.inFlight && g.view.chatQueues == v.chatQueues
      && g.view.counters == v.counters.(rateLimitedRequests := g.view.counters.rateLimitedRequests)
      && g.view.counters.rateLimitedRequests == v.counters.rateLimitedRequests + (if g.ok && full then 1 else 0)
      && (g.ok ==> g.view.globalQueue == Evicted(v.globalQueue, now, GlobalWindowSeconds) + [now] && g.slept == o.wait)
  {
  }

  /** One chat check: only that chat's window and the rate-limited count move. */
  lemma ChatStepEffect(config: RateLimitConfig, v: Snapshot, key: string, isGroup: bool, now: real)
    ensures var ch := ChatStep(config, v, key, isGroup, now);
      var window := ChatWindow(config, isGroup);
      var o := WindowCheck(ChatQueue(v, key), now, window.0, window.1);
      var full := |Evicted(ChatQueue(v, key), now, window.0)| >= window.1;
      && ch.ok == o.Passed?
      && ch.view.inFlight == v.inFlight && ch.view.globalQueue == v.globalQueue
      && ch.view.chatQueues == v.chatQueues[key := o.queue]
      && ch.view.counters == v.counters.(rateLimitedRequests := ch.view.counters.rateLimitedRequests)
      && ch.view.counters.rateLimitedRequests == v.counters.rateLimitedRequests + (if ch.ok && full then 1 else 0)
      && (ch.ok ==> o.queue == Evicted(ChatQueue(v, key), now, window.0) + [now] && ch.slept == o.wait)
  {
  }

  /** A chat check faults only on an empty window under a limit of zero or less; the evicted window is kept. */
  lemma ChatStepFaults(config: RateLimitConfig, v: Snapshot, key: string, isGroup: bool, now: real)
    requires var window := ChatWindow(config, isGroup);
      var kept := Evicted(ChatQueue(v, key), now, window.0);
      |kept| >= window.1 && kept == []
    ensures ChatStep(config, v, key, isGroup, now) == Step(v.(chatQueues := v.chatQueues[key := []]), false, 0.0)
  {
    var window := ChatWindow(config, isGroup);
    assert WindowCheck(ChatQueue(v, key), now, window.0, window.1) == IndexFault([]);
  }

  /** A chat check that does not fault appends `now` to the evicted window and sleeps `waited`, counted when positive. */
  lemma ChatStepPasses(config: RateLimitConfig, v: Snapshot, key: string, isGroup: bool, now: real, waited: real)
    requires var window := ChatWindow(config, isGroup);
      var kept := Evicted(ChatQueue(v, key), now, window.0);
      && !(|kept| >= window.1 && kept == [])
      && waited == if |kept| >= window.1 && window.0 - (now - kept[0]) > 0.0 then window.0 - (now - kept[0]) else 0.0
    ensures var kept := Evicted(ChatQueue(v, key), now, ChatWindow(config, isGroup).0);
      ChatStep(config, v, key, isGroup, now) ==
        Step(v.(chatQueues := v.chatQueues[key := kept + [now]],
                counters := if waited > 0.0 then WithRateLimited(v.counters) else v.counters), true, waited)
  {
    var window := ChatWindow(config, isGroup);
    var kept := Evicted(ChatQueue(v, key), now, window.0);
    assert WindowCheck(ChatQueue(v, key), now, window.0, window.1) == Passed(kept + [now], waited);
  }

  /** With a truthy chat id and a passed global check, the windows are the global step followed by the chat step. */
  lemma WindowsThroughChat(config: RateLimitConfig, v: Snapshot, methodName: string, chatId: PyValue, now: real)
    requires Truthy(chatId) && GlobalStep(config, v, now).ok
    ensures var g := GlobalStep(config, v, now);
      var ch := ChatStep(config, g.view, Str(chatId), DetermineChatType(chatId, methodName), now + g.slept);
      Windows(config, v, methodName, chatId, now) == Step(ch.view, ch.ok, g.slept + ch.slept)
  {
  }

  /** Without a truthy chat id, or when the global check fails, the windows are the global step alone. */
  lemma WindowsWithoutChat(config: RateLimitConfig, v: Snapshot, methodName: string, chatId: PyValue, now: real)
    requires !Truthy(chatId) || !GlobalStep(config, v, now).ok
    ensures Windows(config, v, methodName, chatId, now) == GlobalStep(config, v, now)
  {
  }

  /** The two window checks change only the windows and the rate-limited count, which can only grow. */
  lemma {:induction false} WindowsFrame(config: RateLimitConfig, v: Snapshot, methodName: string, chatId: PyValue, now: real)
    ensures var w := Windows(config, v, methodName, chatId, now);
      && w.view.inFlight == v.inFlight
      && w.view.counters == v.counters.(rateLimitedRequests := w.view.counters.rateLimitedRequests)
      && w.view.counters.rateLimitedRequests >= v.counters.rateLimitedRequests
  {
    var g := GlobalStep(config, v, now);
    GlobalStepEffect(config, v, now);
    if g.ok && Truthy(chatId) {
      WindowsThroughChat(config, v, methodName, chatId, now);
      ChatStepEffect(config, g.view, Str(chatId), DetermineChatType(chatId, methodName), now + g.slept);
    } else {
      WindowsWithoutChat(config, v, methodName, chatId, now);
    }
  }

  /**
   * When both window checks pass, each window got exactly one timestamp appended
   * after its eviction (the chat window the reading after the global wait,
   * every other chat window untouched), and the rate-limited count grew by
   * one for each window that was full.
   */
  lemma {:induction false} WindowsEffect(config: RateLimitConfig, v: Snapshot, methodName: string, chatId: PyValue, now: real)
    ensures var w := Windows(config, v, methodName, chatId, now);
      var g := WindowCheck(v.globalQueue, now, GlobalWindowSeconds, config.globalLimit);
      var globalFull := |Evicted(v.globalQueue, now, GlobalWindowSeconds)| >= config.globalLimit;
      w.ok ==>
        && g.Passed?
        && w.view.globalQueue == Evicted(v.globalQueue, now, GlobalWindowSeconds) + [now]
        && (!Truthy(chatId) ==>
              && w.view.chatQueues == v.chatQueues
              && w.view.counters.rateLimitedRequests == v.counters.rateLimitedRequests + (if globalFull then 1 else 0))
        && (Truthy(chatId) ==>
              var key := Str(chatId);
              var window := ChatWindow(config, DetermineChatType(chatId, methodName));
              var t := now + g.wait;
              var chatFull := |Evicted(ChatQueue(v, key), t, window.0)| >= window.1;
              && w.view.chatQueues == v.chatQueues[key := Evicted(ChatQueue(v, key), t, window.0) + [t]]
              && w.view.counters.rateLimitedRequests ==
                   v.counters.rateLimitedRequests + (if globalFull then 1 else 0) + (if chatFull then 1 else 0))
  {
    var g := GlobalStep(config, v, now);
    GlobalStepEffect(config, v, now);
    if g.ok && Truthy(chatId) {
      var key := Str(chatId);
      var isGroup := DetermineChatType(chatId, methodName);
      var t := now + g.slept;
      WindowsThroughChat(config, v, methodName, chatId, now);
      assert ChatQueue(g.view, key) == ChatQueue(v, key);
      ChatStepEffect(config, g.view, key, isGroup, t);
    } else {
      WindowsWithoutChat(config, v, methodName, chatId, now);
    }
  }

  /**
   * What a grant does: exactly one `record_request`, one permit held, no
   * success recorded yet, exactly one timestamp appended to the global
   * window (the clock reading `now`, after the eviction), and, for a truthy
   * chat id, exactly one appended to that chat's window (the reading after
   * the global wait) with every other chat window untouched; without a chat
   * id no chat window is touched.
   */
  lemma {:induction false} AdmitGrant(config: RateLimitConfig, v: Snapshot, methodName: string, chatId: PyValue,
                                      priority: int, now: real, baseDelay: real)
    requires Admit(config, v, methodName, chatId, priority, now, baseDelay).ok
    ensures var s := Admit(config, v, methodName, chatId, priority, now, baseDelay);
      && priority != 0
      && s.view.counters.totalRequests == v.counters.totalRequests + 1
      && s.view.counters.successfulRequests == v.counters.successfulRequests
      && s.view.inFlight == v.inFlight + 1
      && s.view.globalQueue == Evicted(v.globalQueue, now, GlobalWindowSeconds) + [now]
      && (Truthy(chatId) ==>
            var key := Str(chatId);
            var window := ChatWindow(config, DetermineChatType(chatId, methodName));
            var t := now + WindowCheck(v.globalQueue, now, GlobalWindowSeconds, config.globalLimit).wait;
            && s.view.chatQueues == v.chatQueues[key := Evicted(ChatQueue(v, key), t, window.0) + [t]])
      && (!Truthy(chatId) ==> s.view.chatQueues == v.chatQueues)
  {
    var e := Entered(config, v, methodName, now);
    WindowsFrame(config, e, methodName, chatId, now);
    WindowsEffect(config, e, methodName, chatId, now);
    assert ChatQueue(e, Str(chatId)) == ChatQueue(v, Str(chatId));
  }

  /**
   * A resolve-class call with the daily quota used up is denied at once: it
   * takes no permit, records no request, touches no window and sleeps not at
   * all; only the day rollover of the quota check may have happened.
   */
  lemma ResolveDenial(config: RateLimitConfig, v: Snapshot, methodName: string, chatId: PyValue,
                      priority: int, now: real, baseDelay: real)
    requires IsResolveClass(methodName) && !QuotaLeft(v.counters, now, config.resolveDailyLimit)
    ensures var s := Admit(config, v, methodName, chatId, priority, now, baseDelay);
      && !s.ok && s.slept == 0.0
      && s.view == v.(counters := Rollover(v.counters, now))
      && s.view.counters.totalRequests == v.counters.totalRequests
  {
  }

  /**
   * With quota left a resolve-class call records its resolve request (after
   * the rollover) before anything else, whatever happens next; calls whose
   * name lacks "resolve" never touch the daily counter.
   */
  lemma {:induction false} ResolveAccounting(config: RateLimitConfig, v: Snapshot, methodName: string, chatId: PyValue,
                                             priority: int, now: real, baseDelay: real)
    ensures var s := Admit(config, v, methodName, chatId, priority, now, baseDelay);
      && (IsResolveClass(methodName) && QuotaLeft(v.counters, now, config.resolveDailyLimit) ==>
            s.view.counters.resolveRequestsToday == Rollover(v.counters, now).resolveRequestsToday + 1)
      && (!IsResolveClass(methodName) ==>
            s.view.counters.resolveRequestsToday == v.counters.resolveRequestsToday &&
            s.view.counters.resolveLastReset == v.counters.resolveLastReset)
  {
    if !IsResolveClass(methodName) || QuotaLeft(v.counters, now, config.resolveDailyLimit) {
      WindowsFrame(config, Entered(config, v, methodName, now), methodName, chatId, now);
    }
  }

  /**
   * With positive limits the windows only ever delay: a call is denied
   * exactly when it is resolve-class with no quota left or its priority is
   * zero (the division of the pacing delay fails).
   */
  lemma {:induction false} OnlyQuotaOrPriorityDeny(config: RateLimitConfig, v: Snapshot, methodName: string,
                                                   chatId: PyValue, priority: int, now: real, baseDelay: real)
    requires PositiveLimits(config)
    ensures Admit(config, v, methodName, chatId, priority, now, baseDelay).ok <==>
      (!IsResolveClass(methodName) || QuotaLeft(v.counters, now, config.resolveDailyLimit)) && priority != 0
  {
    if !IsResolveClass(methodName) || QuotaLeft(v.counters, now, config.resolveDailyLimit) {
      var g := GlobalStep(config, Entered(config, v, methodName, now), now);
      assert g.ok;
      if Truthy(chatId) {
        var isGroup := DetermineChatType(chatId, methodName);
        assert ChatWindow(config, isGroup).1 >= 1;
        assert ChatStep(config, g.view, Str(chatId), isGroup, now + g.slept).ok;
      }
    }
  }

  /**
   * Every full window on the way is counted once as rate-limited, and
   * nothing else is: on a grant the count grows by the number of full windows.
   */
  lemma {:induction false} RateLimitedCounting(config: RateLimitConfig, v: Snapshot, methodName: string,
                                               chatId: PyValue, priority: int, now: real, baseDelay: real)
    requires Admit(config, v, methodName, chatId, priority, now, baseDelay).ok
    ensures var s := Admit(config, v, methodName, chatId, priority, now, baseDelay);
      var g := WindowCheck(v.globalQueue, now, GlobalWindowSeconds, config.globalLimit);
      var globalFull := |Evicted(v.globalQueue, now, GlobalWindowSeconds)| >= config.globalLimit;
      && (!Truthy(chatId) ==>
            s.view.counters.rateLimitedRequests == v.counters.rateLimitedRequests + (if globalFull then 1 else 0))
      && (Truthy(chatId) ==>
            var key := Str(chatId);
            var window := ChatWindow(config, DetermineChatType(chatId, methodName));
            var chatFull := |Evicted(ChatQueue(v, key), now + g.wait, window.0)| >= window.1;
            s.view.counters.rateLimitedRequests ==
              v.counters.rateLimitedRequests + (if globalFull then 1 else 0) + (if chatFull then 1 else 0))
  {
    var e := Entered(config, v, methodName, now);
    WindowsFrame(config, e, methodName, chatId, now);
    WindowsEffect(config, e, methodName, chatId, now);
    assert ChatQueue(e, Str(chatId)) == ChatQueue(v, Str(chatId));
  }

  /**
   * Admission never touches the success and flood counters, and a denial
   * leaves no permit held.
   */
  lemma {:induction false} AdmitFrame(config: RateLimitConfig, v: Snapshot, methodName: string, chatId: PyValue,
                                      priority: int, now: real, baseDelay: real)
    ensures var s := Admit(config, v, methodName, chatId, priority, now, baseDelay);
      && s.view.counters.successfulRequests == v.counters.successfulRequests
      && s.view.counters.floodErrors == v.counters.floodErrors
      && s.view.counters.lastFloodTime == v.counters.lastFloodTime
      && (!s.ok ==> s.view.inFlight == v.inFlight)
  {
    if !IsResolveClass(methodName) || QuotaLeft(v.counters, now, config.resolveDailyLimit) {
      WindowsFrame(config, Entered(config, v, methodName, now), methodName, chatId, now);
    }
  }

  /** Admissions keep successes plus held grants within the recorded requests. */
  lemma {:induction false} AdmitConsistent(config: RateLimitConfig, v: Snapshot, methodName: string, chatId: PyValue,
                                           priority: int, now: real, baseDelay: real)
    requires Consistent(v)
    ensures Consistent(Admit(config, v, methodName, chatId, priority, now, baseDelay).view)
  {
    if !IsResolveClass(methodName) || QuotaLeft(v.counters, now, config.resolveDailyLimit) {
      WindowsFrame(config, Entered(config, v, methodName, now), methodName, chatId, now);
    }
  }

  /** Releasing keeps the invariant, so successes never exceed requests and `success_rate` stays at most one. */
  lemma ReleaseConsistent(v: Snapshot, acquired: bool)
    requires Consistent(v) && (acquired ==> v.inFlight > 0)
    ensures Consistent(AfterRelease(v, acquired))
    ensures Rate(AfterRelease(v, acquired).counters.successfulRequests, AfterRelease(v, acquired).counters.totalRequests) <= 1.0
  {
    var r := AfterRelease(v, acquired);
    RateAtMostOne(r.counters.successfulRequests, r.counters.totalRequests);
  }

  /**
   * A `RateLimiter` object. `stats` is the `RateLimitStats` object the
   * limiter owns and shares with the retry loop.
   */
  class RateLimiter {
    const config: RateLimitConfig
    const stats: RateLimitStats
    var globalQueue: seq<real>
    var chatQueues: map<string, seq<real>>
    var inFlight: nat

    function View(): Snapshot
      reads this, stats
    {
      Snapshot(stats.View(), globalQueue, chatQueues, inFlight)
    }

    ghost predicate Valid()
      reads this, stats
    {
      Consistent(View())
    }

    /** `RateLimiter(config)`: `config or RateLimitConfig()`, fresh stats, empty windows. */
    constructor (config: Option<RateLimitConfig>)
      ensures this.config == if config.Some? then config.value else Default()
      ensures fresh(stats)
      ensures View() == InitialSnapshot() && Valid()
    {
      this.config := if config.Some? then config.value else Default();
      stats := new RateLimitStats();
      globalQueue := [];
      chatQueues := map[];
      inFlight := 0;
    }

    /** `check_resolve_limit`. */
    method CheckResolveLimit(now: real) returns (ok: bool)
      modifies stats
      ensures View() == CheckResolve(config, old(View()), now).view
      ensures ok == CheckResolve(config, old(View()), now).ok
      ensures ok <==> QuotaLeft(old(stats.View()), now, config.resolveDailyLimit)
    {
      if DayElapsed(stats.resolveLastReset, now) {
        stats.resolveRequestsToday := 0;
        stats.resolveLastReset := Some(now);
      }
      ok := stats.resolveRequestsToday < config.resolveDailyLimit;
    }

    /** `_wait_for_global_limit`. */
    method WaitForGlobalLimit(now: real) returns (ok: bool, waited: real)
      modifies this, stats
      ensures Step(View(), ok, waited) == GlobalStep(config, old(View()), now)
    {
      globalQueue := CleanupOldRequests(globalQueue, GlobalWindowSeconds, now);
      waited := 0.0;
      if |globalQueue| >= config.globalLimit {
        if globalQueue == [] {
          return false, 0.0;
        }
        var waitTime := GlobalWindowSeconds - (now - globalQueue[0]);
        if waitTime > 0.0 {
          waited := waitTime;
          stats.RecordRateLimited();
        }
      }
      globalQueue := globalQueue + [now];
      ok := true;
    }

    /** `_wait_for_chat_limit`. */
    method WaitForChatLimit(chatId: string, isGroup: bool, now: real) returns (ok: bool, waited: real)
      modifies this, stats
      ensures Step(View(), ok, waited) == ChatStep(config, old(View()), chatId, isGroup, now)
    {
      ghost var v0 := View();
      var chatQueue := if chatId in chatQueues then chatQueues[chatId] else [];
      var windowSeconds, maxRequests := ChatWindowSeconds, config.chatLimit;
      if isGroup {
        windowSeconds, maxRequests := GroupWindowSeconds, config.groupLimit;
      }
      assert (windowSeconds, maxRequests) == ChatWindow(config, isGroup);
      chatQueue := CleanupOldRequests(chatQueue, windowSeconds, now);
      assert chatQueue == Evicted(ChatQueue(v0, chatId), now, windowSeconds);
      waited := 0.0;
      if |chatQueue| >= maxRequests {
        if chatQueue == [] {
          chatQueues := chatQueues[chatId := chatQueue];
          ChatStepFaults(config, v0, chatId, isGroup, now);
          return false, 0.0;
        }
        var waitTime := windowSeconds - (now - chatQueue[0]);
        if waitTime > 0.0 {
          waited := waitTime;
          stats.RecordRateLimited();
          assert stats.View() == WithRateLimited(v0.counters);
        }
      }
      assert waited == if |chatQueue| >= maxRequests && windowSeconds - (now - chatQueue[0]) > 0.0
                       then windowSeconds - (now - chatQueue[0]) else 0.0;
      ChatStepPasses(config, v0, chatId, isGroup, now, waited);
      chatQueues := chatQueues[chatId := chatQueue + [now]];
      ok := true;
    }

    /** The two window checks of `acquire`, the chat check only for a truthy chat id. */
    method WaitForWindows(methodName: string, chatId: PyValue, now: real) returns (ok: bool, slept: real)
      modifies this, stats
      ensures Step(View(), ok, slept) == Windows(config, old(View()), methodName, chatId, now)
    {
      ghost var v0 := View();
      var globalWait;
      ok, globalWait := WaitForGlobalLimit(now);
      ghost var g := Step(View(), ok, globalWait);
      assert g == GlobalStep(config, v0, now);
      slept := globalWait;
      if ok && Truthy(chatId) {
        var isGroup := DetermineChatType(chatId, methodName);
        var chatWait;
        ok, chatWait := WaitForChatLimit(Str(chatId), isGroup, now + globalWait);
        ghost var ch := Step(View(), ok, chatWait);
        assert ch == ChatStep(config, g.view, Str(chatId), isGroup, now + g.slept);
        WindowsThroughChat(config, v0, methodName, chatId, now);
        slept := slept + chatWait;
      } else {
        WindowsWithoutChat(config, v0, methodName, chatId, now);
      }
    }

    /**
     * `acquire` up to its `yield`: returns whether the call is granted and how
     * long the admission slept (window waits and pacing delay).
     */
    method Acquire(methodName: string, chatId: PyValue, priority: int, now: real, baseDelay: real)
      returns (acquired: bool, slept: real)
      requires Valid()
      modifies this, stats
      ensures Step(View(), acquired, slept) == Admit(config, old(View()), methodName, chatId, priority, now, baseDelay)
      ensures Valid()
    {
      ghost var v0 := View();
      AdmitConsistent(config, v0, methodName, chatId, priority, now, baseDelay);
      if IsResolveClass(methodName) {
        var quotaLeft := CheckResolveLimit(now);
        if !quotaLeft {
          return false, 0.0;
        }
        stats.RecordResolveRequest(now);
      }
      acquired, slept := UnderPermit(methodName, chatId, priority, now, baseDelay, v0);
    }

    /**
     * The body of `async with self.semaphore` in `acquire`: a permit taken,
     * `record_request`, the window checks and the pacing delay; a failure on
     * the way gives the permit back and denies.
     */
    method UnderPermit(methodName: string, chatId: PyValue, priority: int, now: real, baseDelay: real, ghost v0: Snapshot)
      returns (acquired: bool, slept: real)
      requires !IsResolveClass(methodName) || CheckResolve(config, v0, now).ok
      requires View() == if IsResolveClass(methodName) then v0.(counters := WithResolveRequest(Rollover(v0.counters, now), now)) else v0
      modifies this, stats
      ensures Step(View(), acquired, slept) == Admit(config, v0, methodName, chatId, priority, now, baseDelay)
    {
      AdmitPastGate(config, v0, methodName, chatId, priority, now, baseDelay);
      inFlight := inFlight + 1;
      stats.RecordRequest(now);
      ghost var e := View();
      assert e == Entered(config, v0, methodName, now);
      WindowsFrame(config, e, methodName, chatId, now);
      var windowsOk;
      windowsOk, slept := WaitForWindows(methodName, chatId, now);
      if !windowsOk || priority == 0 {
        inFlight := inFlight - 1;
        return false, slept;
      }
      var delay := baseDelay / (priority as real);
      if delay > 0.0 {
        slept := slept + delay;
      }
      acquired := true;
    }

    /** The `finally` of `acquire`. */
    method Release(acquired: bool)
      requires Valid() && (acquired ==> inFlight > 0)
      modifies this, stats
      ensures View() == AfterRelease(old(View()), acquired)
      ensures Valid()
    {
      if acquired {
        inFlight := inFlight - 1;
        stats.RecordSuccess();
      }
      ReleaseConsistent(old(View()), acquired);
    }

    /**
     * `is_healthy`: an unused limiter is healthy; otherwise the success rate
     * must exceed 0.8, the flood rate stay below 0.1 and the daily resolve
     * quota not be used up. In integers: `5 * successful > 4 * total`,
     * `10 * flood_errors < total`.
     */
    function IsHealthy(): (healthy: bool)
      reads this, stats
      ensures stats.totalRequests == 0 ==> healthy
      ensures stats.totalRequests > 0 ==>
        (healthy <==> 5 * stats.successfulRequests > 4 * stats.totalRequests
                      && 10 * stats.floodErrors < stats.totalRequests
                      && stats.resolveRequestsToday < config.resolveDailyLimit)
    {
      if stats.totalRequests == 0 then true
      else
        RateCompare(stats.successfulRequests, stats.totalRequests, 4, 5);
        RateCompare(stats.floodErrors, stats.totalRequests, 1, 10);
        stats.SuccessRate() > 0.8 && stats.FloodRate() < 0.1
        && stats.resolveRequestsToday < config.resolveDailyLimit
    }
  }

  /** The module-level `_global_rate_limiter` with `get_rate_limiter` and `reset_rate_limiter`. */
  class Registry {
    var instance: RateLimiter?

    constructor ()
      ensures instance == null
    {
      instance := null;
    }

    /** The first call builds the limiter from its argument; every later call returns that same object and ignores the argument. */
    method GetRateLimiter(config: Option<RateLimitConfig>) returns (limiter: RateLimiter)
      modifies this
      ensures old(instance) != null ==> limiter == old(instance)
      ensures old(instance) == null ==>
        fresh(limiter) && fresh(limiter.stats) && limiter.View() == InitialSnapshot() && limiter.Valid()
        && limiter.config == if config.Some? then config.value else Default()
      ensures instance == limiter
    {
      if instance == null {
        instance := new RateLimiter(config);
      }
      limiter := instance;
    }

    /** Drop the limiter, so that the next `GetRateLimiter` builds a new one. */
    method ResetRateLimiter()
      modifies this
      ensures instance == null
    {
      instance := null;
    }
  }

  /** `create_rate_limiter_from_settings`: a new limiter, outside the registry, configured by `from_env`. */
  method CreateRateLimiterFromSettings(globalLimit: Option<int>, chatLimit: Option<int>, groupLimit: Option<int>,
                                       resolveDailyLimit: Option<int>, enabled: bool)
    returns (limiter: RateLimiter)
    ensures fresh(limiter) && fresh(limiter.stats)
    ensures limiter.config == FromEnv(globalLimit, chatLimit, groupLimit, resolveDailyLimit, enabled)
    ensures limiter.View() == InitialSnapshot() && limiter.Valid()
  {
    limiter := new RateLimiter(Some(FromEnv(globalLimit, chatLimit, groupLimit, resolveDailyLimit, enabled)));
  }
}
