# Admission and pacing layer of 45telega, in Dafny

This project models the layer that sits in front of every Telegram call
made by the 45telega MCP server. It has two parts:

- `src/mcp_telegram/rate_limiter.py`:
  - the `RateLimitConfig` presets;
  - the `RateLimitStats` counters, with their daily "resolve" counter and
    the two rates;
  - the `RateLimiter` object: a global sliding window, one window per chat,
    the resolve quota, the semaphore and the `acquire` admission sequence;
  - `is_healthy`, and the module-level registry
    (`get_rate_limiter`/`reset_rate_limiter`).
- `src/mcp_telegram/tools.py`:
  - the `handle_flood_wait` decorator: scope id, priority tier, the
    resolve-set pre-check and the two error short-circuits;
  - its retry loop `_execute_with_retry`;
  - the invite-hash extraction used by `join_chat_by_invite` and
    `check_chat_invite`.

Files:

| file | models |
|---|---|
| `options.dfy` | `Optional[...]` |
| `strings.dfy` | the Python string operations used: `str.lower()`, `in`, `str(int)`, `str.split` / `join` |
| `pyvalues.dfy` | id values (`None`, an int, a str), Python truthiness, `str(chat_id)` |
| `config.dfy` | `RateLimitConfig` and `from_env` |
| `stats.dfy` | `RateLimitStats`: a `class` whose `record_*` methods update fields in place; `Counters` is its value |
| `window.dfy` | `_cleanup_old_requests` (a `while` loop), and one window check as a function |
| `limiter.dfy` | `RateLimiter` as a `class`, with `Snapshot` as its value; `acquire`, `is_healthy`, the registry |
| `retry.dfy` | `_execute_with_retry` (a `while` loop), and the run it performs as a recursive function |
| `invite.dfy` | the invite-hash extraction |
| `flood_wait.dfy` | the wrapper built by `handle_flood_wait` |

How the model is built:

- The operations that update an object in place are `method`s of a
  `class`: `RateLimitStats.RecordRequest` …, `RateLimiter.WaitForGlobalLimit`,
  `RateLimiter.Acquire`. Each is proved against a specification function on
  the object's value (`View()`), for example
  `ensures Step(View(), ok, waited) == ChatStep(config, old(View()), …)`.
- The module-level registry is a `Registry` object holding the shared limiter.
  `GetRateLimiter` states its contract directly on that field: the first call
  stores a fresh limiter built from its argument (the default configuration
  when none is given), and later calls return the stored one.
- The two loops of the source are module-level methods with `while` loops:
  - `CleanupOldRequests` takes a window and returns what survives the eviction;
  - `ExecuteWithRetry` records its flood errors on the limiter's stats object.

  Each is proved equal to a function: `Evicted` for the first, `RetryFrom`
  for the second.
- What the source promises is then proved as lemmas about those functions:
  - how a window check evicts and appends;
  - the resolve counter's rollover;
  - what a grant does to every counter and window;
  - that successes never exceed requests;
  - the retry bounds;
  - the wrapper's short-circuits.

The clock, the random pacing delay and the wrapped coroutine are inputs:

- `now` is one clock reading in seconds, a `real`.
- `baseDelay` is the value drawn by `random.uniform`.
- `attempt(k)` is the outcome of the k-th call of the wrapped coroutine:
  it returns, raises `FloodWaitError(seconds)`, or raises something else.

A sleep is returned as a duration, not performed. The chat-window check
reads the clock as `now` plus the global wait.

Points where the code's behaviour is easy to misread:

- **Retry bounds.** The retry loop gives up on floods of more than 60
  seconds. That is the literal at `tools.py:134`, not `max_flood_wait`
  (300). The retry bound is the decorator's `max_retries` argument, not
  the configuration's.
- **What counts as "resolve".** There are two different tests:
  - the wrapper pre-checks a fixed name set (`tools.py:86-90`);
  - `acquire` counts a name against the quota when `"resolve"` occurs in
    its lower-cased form (`rate_limiter.py:262`).

  Of the wrapper's seven names, only `resolve_username` and
  `resolve_phone` are ever counted (`FloodWait.ResolveSetVersusSubstring`).
- **Admission can be denied.** `acquire` can deny for reasons other than
  the quota:
  - an `IndexError` on `queue[0]` when a limit is zero or less and the
    evicted window is empty;
  - a `ZeroDivisionError` when the priority is 0.

  Both are caught and become a denial. Under positive limits only the
  quota and priority 0 deny (`Limiter.OnlyQuotaOrPriorityDeny`).
- **The timestamp is taken before the sleep.** A window records the clock
  reading from before its sleep, and nothing is evicted again after the
  sleep. So a window of one call per 60 s can admit two calls about 10 s
  apart (`Window.StampBeforeSleepAdmitsEarly`), and a window briefly holds
  `limit + 1` entries (`Window.SequentialChecksStayBounded`).
- **`flood_rate` has no upper bound.** One request can meet several
  flood errors, so it can exceed 1.
- **A grant always records one success.** `record_success` runs in the
  `finally` of `acquire` for every grant, even when the wrapped call
  raised. In that case `record_success` runs when `contextlib` closes the
  generator, just before the caller receives a `RuntimeError` (see "## Left out").
- **`return None` is reachable.** The trailing `return None` of
  `_execute_with_retry` is reached exactly when `max_retries` is negative
  (`Retry.RetryBounds`).

## Model

| member | source | states |
|---|---|---|
| Strings.Lower | src/mcp_telegram/rate_limiter.py:229 | `lower()` keeps the length and folds each character on its own |
| Strings.LowerIdempotent | src/mcp_telegram/rate_limiter.py:229 | lower-casing a lower-cased name changes nothing |
| Strings.Contains | src/mcp_telegram/rate_limiter.py:262 | Python's `sub in s`: it holds only when `sub` is no longer than `s`, and the empty string is in every string |
| Strings.ContainsIffOccurs | src/mcp_telegram/rate_limiter.py:262 | the substring test `sub in s` holds exactly when `sub` occurs at some offset of `s` |
| Strings.DigitsRoundTrip | src/mcp_telegram/rate_limiter.py:279 | the decimal digits of a natural number read back as that number |
| Strings.DecimalString | src/mcp_telegram/rate_limiter.py:279 | `str(n)` has at least one character and starts with '-' exactly when `n` is negative |
| Strings.DecimalRoundTrip | src/mcp_telegram/rate_limiter.py:279 | `str(n)` parses back to `n` for every integer, negative ones included |
| Strings.DecimalStringInjective | src/mcp_telegram/rate_limiter.py:279 | distinct integers print differently |
| Strings.Split | src/mcp_telegram/tools.py:654 | `split` returns at least one part, and no part holds the separator |
| Strings.JoinSplit | src/mcp_telegram/tools.py:654 | joining the parts with the separator rebuilds the string, so splitting loses nothing |
| Strings.SplitFirst | src/mcp_telegram/tools.py:656 | the first part is the text before the first separator; the other parts are the split of the text after it |
| Strings.SplitLast | src/mcp_telegram/tools.py:654 | the last part is a suffix of the string, preceded by the separator unless it is the whole string |
| Strings.SplitNoSep | src/mcp_telegram/tools.py:655 | a string without the separator splits into itself |
| Strings.SplitAppend | src/mcp_telegram/tools.py:654 | splitting `a + sep + b` gives the parts of `a` followed by the parts of `b` |
| PyValues.Truthy | src/mcp_telegram/rate_limiter.py:277 | `if chat_id:`: `None`, `0` and `""` are false, every other id is true; it decides whether a chat window is consulted (`Limiter.WindowsEffect`) |
| PyValues.Str | src/mcp_telegram/rate_limiter.py:279 | `str(chat_id)`, the key of a chat window: for an integer id it is non-empty and starts with '-' exactly for a negative id |
| PyValues.IntKeysDistinct | src/mcp_telegram/rate_limiter.py:279 | two integer chat ids share a window key only when they are equal |
| Config.FromEnv | src/mcp_telegram/rate_limiter.py:48-66 | enabled: each supplied limit unless falsy, else 30/1/20/200; disabled: 1000/100/1000/10000 whatever is supplied; the other fields keep their defaults |
| Config.FromEnvPositive | src/mcp_telegram/rate_limiter.py:56-66 | both presets have every limit at least 1 unless a negative limit is supplied |
| Config.FromEnvDefault | src/mcp_telegram/rate_limiter.py:32-60 | the enabled preset with nothing supplied is the dataclass default |
| Config.FromEnvDisabledIgnoresArguments | src/mcp_telegram/rate_limiter.py:61-66 | the disabled preset does not depend on its arguments |
| Stats.WithResolveRequest | src/mcp_telegram/rate_limiter.py:99-109 | after a rollover (never reset, or a day since the reset) the counter is exactly 1 and the reset time is now; otherwise it grows by exactly 1; nothing else changes |
| Stats.Rollover | src/mcp_telegram/rate_limiter.py:102-107 | the day reset shared by `record_resolve_request` and `check_resolve_limit` (lines 234-238): with no reset yet, or a whole day since the last one, the daily count is 0 and the reset time is now; otherwise nothing changes. Its effect within `WithResolveRequest` and the quota is stated by `Stats.WithResolveRequest` and `Stats.DailyQuota` |
| Stats.ResolvesWithinDay | src/mcp_telegram/rate_limiter.py:104-109 | within a day of the last reset, n resolve requests add exactly n and keep the reset time |
| Stats.DailyQuota | src/mcp_telegram/rate_limiter.py:231-240 | after n resolve requests within a day, the quota check answers "left" iff n is below the limit until the day ends, and "left" again afterwards |
| Stats.Rate | src/mcp_telegram/rate_limiter.py:111-123 | a rate is 0.0 when nothing was requested and the exact ratio otherwise, never negative |
| Stats.RateAtMostOne | src/mcp_telegram/rate_limiter.py:111-116 | a numerator no larger than the total gives a rate of at most one |
| Stats.RateZero | src/mcp_telegram/rate_limiter.py:111-123 | a rate is 0.0 exactly when the numerator or the total is zero |
| Stats.RateCompare | src/mcp_telegram/rate_limiter.py:324-325 | comparing a rate with `p / q` is comparing `q * part` with `p * total` |
| Stats.RateLimitStats.constructor | src/mcp_telegram/rate_limiter.py:69-79 | a new stats object holds zero counters and no timestamps |
| Stats.RateLimitStats.RecordRequest | src/mcp_telegram/rate_limiter.py:81-84 | one more request, stamped now; nothing else changes |
| Stats.RateLimitStats.RecordSuccess | src/mcp_telegram/rate_limiter.py:86-88 | one more success; nothing else changes |
| Stats.RateLimitStats.RecordRateLimited | src/mcp_telegram/rate_limiter.py:90-92 | one more rate-limited wait; nothing else changes |
| Stats.RateLimitStats.RecordFloodError | src/mcp_telegram/rate_limiter.py:94-97 | one more flood error, stamped now; nothing else changes |
| Stats.RateLimitStats.RecordResolveRequest | src/mcp_telegram/rate_limiter.py:99-109 | the rollover, then one more resolve request: exactly 1 after a rollover, one more otherwise |
| Stats.RateLimitStats.SuccessRate | src/mcp_telegram/rate_limiter.py:111-116 | 0.0 with no requests, else `successful / total`; at most one while successes do not exceed requests |
| Stats.RateLimitStats.FloodRate | src/mcp_telegram/rate_limiter.py:118-123 | 0.0 with no requests, else `flood_errors / total` |
| Window.EvictCount | src/mcp_telegram/rate_limiter.py:161-162 | the expired prefix is maximal: every entry in it is at or before the cutoff, and the first entry after it is later |
| Window.CleanupOldRequests | src/mcp_telegram/rate_limiter.py:158-162 | the loop pops exactly the maximal expired prefix; survivors keep their order, and the first lies after the cutoff |
| Window.SurvivorsInsideWindow | src/mcp_telegram/rate_limiter.py:158-162 | in a clock-ordered queue every survivor is younger than the window, and the survivors stay ordered |
| Window.WindowCheck | src/mcp_telegram/rate_limiter.py:170-181 | one window check on one queue: evict, sleep `window - (now - queue[0])` when the window is full and that is positive, append the pre-sleep `now`; an empty full window faults on `queue[0]`. What it means is stated by `Window.WindowCheckOutcome` |
| Window.WindowCheckOutcome | src/mcp_telegram/rate_limiter.py:172-181 | a check faults only for a non-positive limit on an empty window; otherwise it appends the pre-sleep `now` to the survivors, sleeps iff the window is full, and resumes exactly when the oldest survivor expires |
| Window.CheckKeepsOrder | src/mcp_telegram/rate_limiter.py:181 | appending the clock reading keeps a window in clock order |
| Window.SequentialChecksStayBounded | src/mcp_telegram/rate_limiter.py:170-181 | with no re-eviction after the sleep a window can hold `limit + 1` entries, but never more when calls come one after another |
| Window.StampBeforeSleepAdmitsEarly | src/mcp_telegram/rate_limiter.py:203-210 | with one call per 60 s, calls at 0, 10 and 60.5 resume at 0, 60 and 70: two admissions 10 s apart |
| Limiter.ChatTypeByNameOnly | src/mcp_telegram/rate_limiter.py:219-229 | the group test ignores the chat id and the letter case of the name; a group window is (60 s, `group_limit`), any other (1 s, `chat_limit`) |
| Limiter.DetermineChatType | src/mcp_telegram/rate_limiter.py:219-229 | `_determine_chat_type`: true exactly for the eight group operation names, after lower-casing; its properties are `Limiter.ChatTypeByNameOnly` and `Limiter.GroupNotResolve` |
| Limiter.ChatWindow | src/mcp_telegram/rate_limiter.py:189-196 | the window of a chat check: 60 s and `group_limit` for a group operation, 1 s and `chat_limit` otherwise; stated for every name by `Limiter.ChatTypeByNameOnly` |
| Limiter.GroupNotResolve | src/mcp_telegram/rate_limiter.py:219-229 | no group operation is of the resolve class, so no call meets both the one-minute group window and the daily quota |
| Limiter.IsResolveClass | src/mcp_telegram/rate_limiter.py:262 | the quota test of `acquire`: "resolve" occurs in the lower-cased name, which therefore has at least seven characters |
| Limiter.NoVNoResolve | src/mcp_telegram/rate_limiter.py:262 | a name without a 'v' is never of the resolve class |
| Limiter.ResolvePrefix | src/mcp_telegram/rate_limiter.py:262 | a name starting with "resolve" is of the resolve class |
| Limiter.CheckResolve | src/mcp_telegram/rate_limiter.py:231-240 | `check_resolve_limit`: answers "quota left" exactly when the daily count after the rollover is below the limit; it changes nothing but the counters, never raises the daily count and never records a request |
| Limiter.GlobalStep | src/mcp_telegram/rate_limiter.py:164-181 | `_wait_for_global_limit` on a limiter state: the window check on the global queue, a sleep counted as rate-limited. What it changes is stated by `Limiter.GlobalStepEffect` |
| Limiter.ChatStep | src/mcp_telegram/rate_limiter.py:183-210 | `_wait_for_chat_limit` on a limiter state: the window check on `chat_queues[key]` with the window the chat type selects. What it changes is stated by `Limiter.ChatStepEffect` |
| Limiter.Windows | src/mcp_telegram/rate_limiter.py:273-279 | the global check, then, only for a truthy chat id and a passed global check, the chat check at the clock reading after the global wait; the waits add up. Its effect is stated by `Limiter.WindowsFrame` and `Limiter.WindowsEffect` |
| Limiter.Entered | src/mcp_telegram/rate_limiter.py:262-271 | past the quota check: the resolve request (after the rollover) for a resolve-class name, one permit taken, `record_request`; used by `Limiter.ResolveAccounting` and `Limiter.AdmitGrant` |
| Limiter.AfterRelease | src/mcp_telegram/rate_limiter.py:292-295 | leaving the semaphore (line 270) and the `finally`: a grant records one success and gives its permit back, a denial changes nothing; it keeps successes within requests (`Limiter.ReleaseConsistent`) |
| Limiter.PacingDelay | src/mcp_telegram/rate_limiter.py:212-217 | `base_delay / priority`, where a non-positive delay does not sleep: never negative, zero for a non-positive draw, and for a priority of at least 1 never longer than the draw |
| Limiter.Admit | src/mcp_telegram/rate_limiter.py:258-291 | the admission sequence of `acquire` up to its `yield`: it never sleeps a negative time, and a grant implies a non-zero priority and, for a resolve-class name, quota left. Its effects are stated by `Limiter.AdmitGrant`, `Limiter.ResolveDenial` and `Limiter.OnlyQuotaOrPriorityDeny` |
| Limiter.GlobalStepEffect | src/mcp_telegram/rate_limiter.py:164-181 | the global check touches only the global window and the rate-limited count, which grows by one exactly when the window was full |
| Limiter.ChatStepEffect | src/mcp_telegram/rate_limiter.py:183-210 | a chat check touches only that chat's window and the rate-limited count, which grows by one exactly when the window was full |
| Limiter.WindowsFrame | src/mcp_telegram/rate_limiter.py:273-279 | the window checks leave the permits and every counter but the rate-limited one alone, and that one never shrinks |
| Limiter.WindowsEffect | src/mcp_telegram/rate_limiter.py:273-279 | when both checks pass, the global window and (for a truthy chat id only) the chat window each get exactly one timestamp after eviction, and every full window is counted once |
| Limiter.AdmitGrant | src/mcp_telegram/rate_limiter.py:258-287 | a grant records exactly one request and no success, holds one permit, and appends exactly one timestamp to the global window and, for a truthy chat id, one to that chat's window |
| Limiter.ResolveDenial | src/mcp_telegram/rate_limiter.py:262-266 | a resolve-class call with no quota left is denied at once: no permit, no request, no window, no sleep; only the rollover happens |
| Limiter.ResolveAccounting | src/mcp_telegram/rate_limiter.py:262-267 | with quota left a resolve-class call records its resolve request; other calls never touch the daily counter |
| Limiter.OnlyQuotaOrPriorityDeny | src/mcp_telegram/rate_limiter.py:258-291 | under positive limits a call is denied exactly when it is resolve-class with no quota left, or its priority is 0 |
| Limiter.RateLimitedCounting | src/mcp_telegram/rate_limiter.py:173-178 | on a grant the rate-limited count grows by the number of full windows met |
| Limiter.AdmitFrame | src/mcp_telegram/rate_limiter.py:258-291 | admission never touches the success and flood counters, and a denial leaves no permit held |
| Limiter.AdmitConsistent | src/mcp_telegram/rate_limiter.py:270-287 | admission keeps successes plus held grants within the recorded requests |
| Limiter.ReleaseConsistent | src/mcp_telegram/rate_limiter.py:292-294 | the `finally` keeps that invariant, so `success_rate` stays at most one |
| Limiter.RateLimiter.constructor | src/mcp_telegram/rate_limiter.py:138-144 | `config or RateLimitConfig()`, fresh stats, empty windows, no permit held |
| Limiter.RateLimiter.CheckResolveLimit | src/mcp_telegram/rate_limiter.py:231-240 | applies the rollover and answers whether the daily count is below the limit |
| Limiter.RateLimiter.WaitForGlobalLimit | src/mcp_telegram/rate_limiter.py:164-181 | the global check, as `GlobalStep` |
| Limiter.RateLimiter.WaitForChatLimit | src/mcp_telegram/rate_limiter.py:183-210 | the chat check on `chat_queues[str(chat_id)]`, with the window the chat type selects, as `ChatStep` |
| Limiter.RateLimiter.WaitForWindows | src/mcp_telegram/rate_limiter.py:273-279 | the global check, then the chat check only for a truthy chat id, as `Windows` |
| Limiter.RateLimiter.Acquire | src/mcp_telegram/rate_limiter.py:258-287 | the admission sequence up to the `yield`, as `Admit`, keeping the successes-within-requests invariant |
| Limiter.RateLimiter.UnderPermit | src/mcp_telegram/rate_limiter.py:270-287 | the body under the semaphore: a permit, `record_request`, the windows and the pacing delay; a failure gives the permit back |
| Limiter.RateLimiter.Release | src/mcp_telegram/rate_limiter.py:292-295 | a grant records one success and frees its permit; a denial changes nothing |
| Limiter.RateLimiter.IsHealthy | src/mcp_telegram/rate_limiter.py:314-336 | healthy when unused; otherwise iff `5 * successful > 4 * total`, `10 * flood_errors < total` and the daily count is below the limit |
| Limiter.Registry.GetRateLimiter | src/mcp_telegram/rate_limiter.py:343-350 | the first call builds the limiter from its argument; later calls return the same object and ignore the argument |
| Limiter.Registry.ResetRateLimiter | src/mcp_telegram/rate_limiter.py:353-356 | forgets the limiter, so the next call builds a new one |
| Limiter.CreateRateLimiterFromSettings | src/mcp_telegram/rate_limiter.py:360-385 | a new limiter, outside the registry, with the `from_env` configuration |
| Retry.WithFloodErrors | src/mcp_telegram/tools.py:131-132 | n flood records add n to the flood count and stamp the last one; nothing else changes |
| Retry.RetryFrom | src/mcp_telegram/tools.py:124-151 | the run the loop performs from a given retry count: how it ends, the calls, the sleeps and the floods met. Its properties are `Retry.FirstDecisive`, `Retry.RetryBounds` and `Retry.LastCallDecides` |
| Retry.LastCallDecides | src/mcp_telegram/tools.py:124-149 | unless the loop never ran, it ends the way its last call ended; a re-raised flood lasts more than 60 s or came on the last retry |
| Retry.FirstDecisive | src/mcp_telegram/tools.py:124-149 | the run ends as the first call that is not a short flood (or that uses the last retry) ends; every earlier call was a flood slept through for exactly its own seconds |
| Retry.RetryBounds | src/mcp_telegram/tools.py:124-151 | at most `max_retries + 1` calls, one sleep fewer than calls, each sleep at most 60 s and equal to its flood's seconds; `return None` iff `max_retries` is negative |
| Retry.ExhaustedRetriesRaise | src/mcp_telegram/tools.py:138-141 | when every call floods briefly, the `(max_retries + 1)`-th flood is re-raised after `max_retries` sleeps |
| Retry.FirstFailureIsFinal | src/mcp_telegram/tools.py:130-149 | a first call raising anything but a short flood ends the loop: one call, no sleep |
| Retry.ExecuteWithRetry | src/mcp_telegram/tools.py:122-151 | the loop performs exactly the run `RetryFrom` describes, and records every flood error on the limiter's stats when there is a limiter, none otherwise |
| Retry.RecordFlood | src/mcp_telegram/tools.py:131-132 | one flood record with a limiter, nothing without |
| Invite.LastSegment | src/mcp_telegram/tools.py:654 | the last '/'-separated segment: a suffix of the link holding no '/', preceded by a '/' unless it is the whole link |
| Invite.SecondPart | src/mcp_telegram/tools.py:656 | `split(sep)[1]` is the text after the first separator, up to the next one |
| Invite.InviteHash | src/mcp_telegram/tools.py:654-656 | the hash holds no '/' and no '+'; it is the last segment when that has no '+', else the text after its first '+' up to the next |
| Invite.InviteHashRoundTrip | src/mcp_telegram/tools.py:766-768 | links `<prefix>/+<hash>` and `<prefix>/<hash>` give back `<hash>` |
| FloodWait.FirstPresent | src/mcp_telegram/tools.py:52-61 | the first attribute in order that the object has, or none |
| FloodWait.ScopeId | src/mcp_telegram/tools.py:48-61 | the first of `chat_id`, `from_chat_id`, `peer_id`, `channel_id`, `user_id` present on the first argument, even when `None`; `None` without arguments or attributes |
| FloodWait.Priority | src/mcp_telegram/tools.py:63-83 | 5, 3 or 1 exactly for the high, medium and low sets, tried in that order, and 2 otherwise |
| FloodWait.ResolveSetVersusSubstring | src/mcp_telegram/tools.py:86-90 | of the seven resolve-set names only `resolve_username` and `resolve_phone` contain "resolve" |
| FloodWait.Wrap | src/mcp_telegram/tools.py:92-113 | the wrapper with the limiter in use, on the limiter's state: only the two error texts are ever returned, and the daily-limit text only for a resolve-set name with no quota left |
| FloodWait.WrapOutcomes | src/mcp_telegram/tools.py:92-113 | the two short-circuits, and a completed run |
| FloodWait.WrapQuotaShortCircuit | src/mcp_telegram/tools.py:96-101 | a resolve-set name with no quota left gets the daily-limit text, records no request and takes no permit |
| FloodWait.WrapErrorCounts | src/mcp_telegram/tools.py:104-110 | either error text: no success, no flood error, no permit recorded, and the wrapped call never runs |
| FloodWait.WrapCompletedCounts | src/mcp_telegram/tools.py:104-113 | a completed run is the retry loop's own; one request and one success recorded, every flood counted, the permit given back |
| FloodWait.OnlyQuotaTurnsAway | src/mcp_telegram/tools.py:92-110 | under positive limits an error text comes only from the daily quota, through either resolve test |
| FloodWait.RetryUnderGrant | src/mcp_telegram/tools.py:113 | the retry loop under a grant changes only the stats, by the flood errors met |
| FloodWait.WrapWith | src/mcp_telegram/tools.py:92-113 | the wrapper on a given limiter: exactly `Wrap`, keeping the limiter's invariant |
| FloodWait.HandleFloodWait | src/mcp_telegram/tools.py:35-118 | without the limiter only the retry loop runs; with it, the shared limiter (built with the default configuration on first use) is run through `Wrap` |

## Left out

- Concurrency: the `asyncio.Semaphore`, the locks, cancellation and interleaving. Admissions run one after another, and the semaphore is a count of held permits that never blocks. With one admission at a time, a caller never waits for a permit.
- Real time: `time.time()` and `datetime.now()` are replaced by one clock input `now` in seconds, a `real`. `_cleanup_old_requests` reads the clock again (line 160); the model reuses the caller's reading. "A day has passed" (`timedelta.days >= 1`) is `now - last >= 86400`.
- Floating point: timestamps, waits and rates are exact reals. Rounding in `time.time()` arithmetic and in the rate divisions is not modelled.
- `_add_human_delay`: the random draw from `[min_delay, max_delay]` is the input `baseDelay`. The division by the priority and "a non-positive delay does not sleep" are modelled.
- `Retry.ExecuteWithRetry`: the flood records of one run are all stamped with the same clock reading `now`. The source reads the clock for each one.
- `Limiter.RateLimiter.WaitForChatLimit`: the chat window is stored once, at the end of the check. The source mutates the deque in place at the eviction and again at the append. The final state is the same; no other task can observe the state in between.
- The generator protocol of `@asynccontextmanager`. Suppose the retry loop raises while the grant is held: a flood of more than 60 s, retries used up, or any other exception. That exception is thrown into `acquire` at `yield True` (`rate_limiter.py:287`):
  - It first leaves `async with self.semaphore` (line 270), which releases the permit at once.
  - The `except` branch (lines 289-291) catches it and yields `False` a second time.
  - `contextlib` then raises `RuntimeError("generator didn't stop after athrow()")` and closes the generator. Closing it runs the `finally` (lines 292-295), so `record_success` is made before the caller sees that error.

  The model keeps the permit release and the success record. What it drops is the exception the caller receives: the reply records the loop's own exception, not the `RuntimeError`.
- `str.lower()` folds ASCII letters only; Unicode case folding is not modelled. Every name it meets in the source is ASCII.
- Logging and `log_stats`. `get_stats` only returns the `stats` object, the `stats` field of the model.
- The tool bodies of `src/mcp_telegram/tools.py` (Telethon calls and formatting), `server.py`, `telegram.py`, `qr_auth.py`, `tools_extended.py` and `setup.py` are not part of this model. The wrapped coroutine is the input `attempt`.
