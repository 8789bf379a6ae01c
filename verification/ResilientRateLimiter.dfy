/**
  The failover limiter of one process. Each function is one uninterrupted segment of the source: what
  runs between two awaits. The class at the end holds the fields the source mutates and is proved,
  segment by segment, against the functions.
*/
module ResilientRateLimiter {
  import opened Options
  import opened MemoryRateLimiter

  datatype Mode = MemoryPrimary | RedisPrimary | MemoryFallback

  datatype Driver = MemoryDriver | RedisDriver

  datatype Settings = Settings(driver: Driver, fallbackEnabled: bool, probeCooldownMs: nat, memory: Config)

  datatype State = State(mode: Mode, nextProbeAt: int, probeInProgress: bool, lastProbeFailureLogAt: int,
    buckets: Buckets)

  /** A request's answer; Unavailable is the fail-closed 429 error. */
  datatype Answer = Allowed | Denied | Unavailable

  function AnswerOf(allowed: bool): Answer {
    if allowed then Answer.Allowed else Denied
  }

  /** How a segment of consume ends. */
  datatype Next =
    | Answered(answer: Answer, fromMemory: bool)
    | AskRedis(probe: Option<int>)
    | Yielded

  datatype Segment = Segment(state: State, next: Next)

  function Initial(s: Settings): State {
    State(if s.driver == RedisDriver then RedisPrimary else MemoryPrimary, 0, false, 0, EMPTY)
  }

  function ActivateFallback(s: Settings, st: State, now: int): State {
    st.(mode := MemoryFallback, nextProbeAt := now + s.probeCooldownMs)
  }

  function OnModuleInit(s: Settings, st: State, redisHealthy: bool, now: int): State {
    if s.driver != RedisDriver || redisHealthy || !s.fallbackEnabled then st
    else ActivateFallback(s, st, now)
  }

  /** consumeWithMemoryFailClosed; the in-memory limiter itself never throws. */
  function AskMemory(s: Settings, st: State, p: Params, now: int): Segment {
    var r := Decide(s.memory, st.buckets, p, now);
    Segment(st.(buckets := r.buckets), Answered(AnswerOf(r.allowed), true))
  }

  /** consume up to its first await. */
  function Begin(s: Settings, st: State, p: Params, now: int): Segment {
    if s.driver == MemoryDriver then AskMemory(s, st, p, now)
    else if st.mode == RedisPrimary then Segment(st, AskRedis(None))
    else if now < st.nextProbeAt || st.probeInProgress then Segment(st, Yielded)
    else Segment(st.(probeInProgress := true), AskRedis(Some(now)))
  }

  /** The Redis call resolved with a decision. */
  function OnRedisDecision(st: State, probe: Option<int>, allowed: bool): Segment {
    Segment(if probe.Some? then st.(mode := RedisPrimary, nextProbeAt := 0, probeInProgress := false) else st,
            Answered(AnswerOf(allowed), false))
  }

  predicate LogsProbeFailure(s: Settings, st: State, probedAt: int) {
    probedAt >= st.lastProbeFailureLogAt + s.probeCooldownMs
  }

  /** The Redis call was rejected. */
  function OnRedisError(s: Settings, st: State, probe: Option<int>, p: Params, now: int): Segment {
    match probe
    case Some(probedAt) =>
      Segment(st.(nextProbeAt := probedAt + s.probeCooldownMs,
                  lastProbeFailureLogAt := if LogsProbeFailure(s, st, probedAt) then probedAt
                    else st.lastProbeFailureLogAt,
                  probeInProgress := false), Yielded)
    case None =>
      if !s.fallbackEnabled then Segment(st, Answered(Unavailable, false))
      else AskMemory(s, ActivateFallback(s, st, now), p, now)
  }

  function OnTimer(st: State, now: int): State {
    st.(buckets := Purge(st.buckets, now))
  }

  class ResilientLimiter {
    const settings: Settings
    const memory: MemoryLimiter
    var mode: Mode
    var nextProbeAt: int
    var probeInProgress: bool
    var lastProbeFailureLogAt: int

    ghost predicate Valid()
      reads this, memory
    {
      memory.Valid() && memory.Settings() == settings.memory
    }

    ghost function View(): State
      reads this, memory
    {
      State(mode, nextProbeAt, probeInProgress, lastProbeFailureLogAt, memory.View())
    }

    constructor (settings: Settings)
      ensures Valid() && fresh(memory) && this.settings == settings
      ensures View() == Initial(settings)
    {
      this.settings := settings;
      mode := if settings.driver == RedisDriver then RedisPrimary else MemoryPrimary;
      nextProbeAt := 0;
      probeInProgress := false;
      lastProbeFailureLogAt := 0;
      memory := new MemoryLimiter(Some(settings.memory.maxEntries), Some(settings.memory.minimumTtlSeconds));
    }

    method ModuleInit(redisHealthy: bool, now: int)
      requires Valid()
      modifies this
      ensures Valid() && View() == OnModuleInit(settings, old(View()), redisHealthy, now)
    {
      if settings.driver != RedisDriver {
        return;
      }
      if redisHealthy {
        return;
      }
      if !settings.fallbackEnabled {
        return;
      }
      EnterFallback(now);
    }

    method EnterFallback(now: int)
      requires Valid()
      modifies this
      ensures Valid() && View() == ActivateFallback(settings, old(View()), now)
    {
      mode := MemoryFallback;
      nextProbeAt := now + settings.probeCooldownMs;
    }

    method ConsumeWithMemory(p: Params, now: int) returns (next: Next)
      requires Valid()
      modifies memory
      ensures Valid() && Segment(View(), next) == AskMemory(settings, old(View()), p, now)
    {
      var allowed := memory.Consume(p, now);
      next := Answered(AnswerOf(allowed), true);
    }

    method BeginConsume(p: Params, now: int) returns (next: Next)
      requires Valid()
      modifies this, memory
      ensures Valid() && Segment(View(), next) == Begin(settings, old(View()), p, now)
    {
      if settings.driver == MemoryDriver {
        next := ConsumeWithMemory(p, now);
        return;
      }
      if mode == RedisPrimary {
        return AskRedis(None);
      }
      if now < nextProbeAt || probeInProgress {
        return Yielded;
      }
      probeInProgress := true;
      return AskRedis(Some(now));
    }

    method RedisDecided(probe: Option<int>, allowed: bool) returns (next: Next)
      requires Valid()
      modifies this
      ensures Valid() && Segment(View(), next) == OnRedisDecision(old(View()), probe, allowed)
    {
      if probe.Some? {
        mode := RedisPrimary;
        nextProbeAt := 0;
        probeInProgress := false;
      }
      return Answered(AnswerOf(allowed), false);
    }

    method RedisFailed(probe: Option<int>, p: Params, now: int) returns (next: Next)
      requires Valid()
      modifies this, memory
      ensures Valid() && Segment(View(), next) == OnRedisError(settings, old(View()), probe, p, now)
    {
      if probe.Some? {
        nextProbeAt := probe.value + settings.probeCooldownMs;
        LogProbeFailureThrottled(probe.value);
        probeInProgress := false;
        return Yielded;
      }
      if !settings.fallbackEnabled {
        return Answered(Unavailable, false);
      }
      EnterFallback(now);
      next := ConsumeWithMemory(p, now);
    }

    method LogProbeFailureThrottled(probedAt: int)
      modifies `lastProbeFailureLogAt
      ensures lastProbeFailureLogAt
           == if probedAt >= old(lastProbeFailureLogAt) + settings.probeCooldownMs then probedAt
             else old(lastProbeFailureLogAt)
    {
      if probedAt < lastProbeFailureLogAt + settings.probeCooldownMs {
        return;
      }
      lastProbeFailureLogAt := probedAt;
    }

    method CleanupTimer(now: int)
      requires Valid()
      modifies memory
      ensures Valid() && View() == OnTimer(old(View()), now)
    {
      memory.Cleanup(now);
    }
  }
}
