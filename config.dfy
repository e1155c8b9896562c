/**
 * `RateLimitConfig` (src/mcp_telegram/rate_limiter.py): the limits the
 * admission layer enforces, fixed once at start-up, and the two presets
 * `from_env` builds.
 */
module Config {
  import opened Options

  datatype RateLimitConfig = RateLimitConfig(
    globalLimit: int,        // admissions per 60 s, all chats together
    chatLimit: int,          // admissions per 1 s into one private chat
    groupLimit: int,         // admissions per 60 s into one group
    resolveDailyLimit: int,  // "resolve" admissions per day
    maxRetries: int,
    maxFloodWait: int,
    maxConcurrent: int,
    minDelay: real,          // bounds of the random pacing delay, seconds
    maxDelay: real)

  /** The dataclass defaults, `RateLimitConfig()`. */
  function Default(): RateLimitConfig
  {
    RateLimitConfig(30, 1, 20, 200, 3, 300, 5, 0.1, 0.5)
  }

  /** Python's `value or default` on an optional integer: `None` and `0` are falsy. */
  function OrElse(value: Option<int>, default: int): int
  {
    if value.Some? && value.value != 0 then value.value else default
  }

  /**
   * `RateLimitConfig.from_env`: with rate limiting enabled each supplied limit
   * is kept unless it is falsy; disabled, the arguments are ignored and the
   * limits are raised to values that never bind in practice. The retry,
   * concurrency and delay fields keep their defaults in both presets.
   */
  function FromEnv(globalLimit: Option<int>, chatLimit: Option<int>, groupLimit: Option<int>,
                   resolveDailyLimit: Option<int>, enabled: bool): (c: RateLimitConfig)
    ensures c.maxRetries == 3 && c.maxFloodWait == 300 && c.maxConcurrent == 5
    ensures c.minDelay == 0.1 && c.maxDelay == 0.5
    ensures enabled && globalLimit.Some? && globalLimit.value != 0 ==> c.globalLimit == globalLimit.value
    ensures enabled && (globalLimit.None? || globalLimit.value == 0) ==> c.globalLimit == 30
    ensures enabled && chatLimit.Some? && chatLimit.value != 0 ==> c.chatLimit == chatLimit.value
    ensures enabled && (chatLimit.None? || chatLimit.value == 0) ==> c.chatLimit == 1
    ensures enabled && groupLimit.Some? && groupLimit.value != 0 ==> c.groupLimit == groupLimit.value
    ensures enabled && (groupLimit.None? || groupLimit.value == 0) ==> c.groupLimit == 20
    ensures enabled && resolveDailyLimit.Some? && resolveDailyLimit.value != 0 ==> c.resolveDailyLimit == resolveDailyLimit.value
    ensures enabled && (resolveDailyLimit.None? || resolveDailyLimit.value == 0) ==> c.resolveDailyLimit == 200
    ensures !enabled ==> c.globalLimit == 1000 && c.chatLimit == 100 && c.groupLimit == 1000 && c.resolveDailyLimit == 10000
  {
    if enabled then
      Default().(globalLimit := OrElse(globalLimit, 30),
                 chatLimit := OrElse(chatLimit, 1),
                 groupLimit := OrElse(groupLimit, 20),
                 resolveDailyLimit := OrElse(resolveDailyLimit, 200))
    else
      Default().(globalLimit := 1000, chatLimit := 100, groupLimit := 1000, resolveDailyLimit := 10000)
  }

  /** Every limit of the configuration is at least one, so no window ever refuses outright. */
  predicate PositiveLimits(c: RateLimitConfig)
  {
    c.globalLimit >= 1 && c.chatLimit >= 1 && c.groupLimit >= 1 && c.resolveDailyLimit >= 1
  }

  /**
   * Both presets have positive limits as long as no supplied limit is negative
   * (a negative number is truthy in Python, so `from_env` passes it through).
   */
  lemma FromEnvPositive(globalLimit: Option<int>, chatLimit: Option<int>, groupLimit: Option<int>,
                        resolveDailyLimit: Option<int>, enabled: bool)
    requires globalLimit.Some? ==> globalLimit.value >= 0
    requires chatLimit.Some? ==> chatLimit.value >= 0
    requires groupLimit.Some? ==> groupLimit.value >= 0
    requires resolveDailyLimit.Some? ==> resolveDailyLimit.value >= 0
    ensures PositiveLimits(FromEnv(globalLimit, chatLimit, groupLimit, resolveDailyLimit, enabled))
  {
  }

  /** With nothing supplied the enabled preset is exactly the dataclass default. */
  lemma FromEnvDefault()
    ensures FromEnv(None, None, None, None, true) == Default()
  {
  }

  /** The disabled preset does not depend on the supplied limits. */
  lemma FromEnvDisabledIgnoresArguments(g: Option<int>, c: Option<int>, p: Option<int>, r: Option<int>,
                                        g': Option<int>, c': Option<int>, p': Option<int>, r': Option<int>)
    ensures FromEnv(g, c, p, r, false) == FromEnv(g', c', p', r', false)
  {
  }
}
