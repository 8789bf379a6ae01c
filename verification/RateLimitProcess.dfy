/**
  One process: its failover limiter and the requests it has in flight, interleaved at every await in
  any order. The proofs say how the mode moves and how Redis is probed, over every sequence of inputs.
*/
module RateLimitProcess {
  import opened Options
  import opened MemoryRateLimiter
  import opened ResilientRateLimiter

  /**
    How far a request's Redis call is: sent or executed, INCR or EXPIRE; index is the INCR's place in the server's log.
  */
  datatype Stage = IncrSent | IncrDone(count: nat, index: nat) | ExpireSent(index: nat) | ExpireDone(index: nat)

  datatype Task =
    | AwaitRedis(params: Params, probe: Option<int>, stage: Stage)
    | AwaitMemory(params: Params)

  /**
    The last four fields are history: the request that probes, when probes started, and how many failed and were logged.
  */
  datatype Process = Process(state: State, trace: Trace, tasks: map<nat, Task>,
                             probeTask: Option<nat>, probeStarts: seq<int>, probeFailures: nat, probeLogs: nat)

  /** Everything that can make a process take its next segment. */
  datatype Input =
    | Arrive(id: nat, params: Params)
    | IncrExecuted(id: nat, count: nat, index: nat)
    | IncrReplied(id: nat)
    | ExpireExecuted(id: nat)
    | ExpireReplied(id: nat)
    | CallFailed(id: nat)
    | Resumed(id: nat)
    | TimerFired

  datatype Source = FromRedis(index: nat) | FromMemory(index: nat) | FailClosed

  datatype Verdict = Verdict(id: nat, params: Params, answer: Answer, source: Source)

  datatype Reaction = Reaction(process: Process, verdict: Option<Verdict>)

  function Boot(s: Settings, redisHealthy: bool, now: int): Process {
    Process(OnModuleInit(s, Initial(s), redisHealthy, now), [], map[], None, [], 0, 0)
  }

  /** Carry on with a request after one of its segments. */
  function Proceed(pr: Process, id: nat, p: Params, now: int, seg: Segment, redis: Source): Reaction {
    match seg.next
    case Answered(answer, fromMemory) =>
      var source := if fromMemory then FromMemory(|pr.trace|) else redis;
      var trace := if fromMemory then pr.trace + [Request(id, p, now)] else pr.trace;
      Reaction(pr.(state := seg.state, trace := trace, tasks := pr.tasks - {id}), Some(Verdict(id, p, answer, source)))
    case AskRedis(probe) =>
      Reaction(pr.(state := seg.state, tasks := pr.tasks[id := AwaitRedis(p, probe, IncrSent)]), None)
    case Yielded =>
      Reaction(pr.(state := seg.state, tasks := pr.tasks[id := AwaitMemory(p)]), None)
  }

  function ProbeStarted(pr: Process, id: nat, next: Next): Process {
    if next.AskRedis? && next.probe.Some? then
      pr.(probeTask := Some(id), probeStarts := pr.probeStarts + [next.probe.value])
    else pr
  }

  function ProbeEnded(s: Settings, pr: Process, probe: Option<int>, failed: bool): Process {
    if probe.None? then pr
    else if !failed then pr.(probeTask := None)
    else pr.(probeTask := None, probeFailures := pr.probeFailures + 1,
             probeLogs := pr.probeLogs + if LogsProbeFailure(s, pr.state, probe.value) then 1 else 0)
  }

  function Decision(s: Settings, pr: Process, id: nat, t: Task, now: int, allowed: bool, index: nat): Reaction
    requires t.AwaitRedis?
  {
    Proceed(ProbeEnded(s, pr, t.probe, false), id, t.params, now, OnRedisDecision(pr.state, t.probe, allowed),
      FromRedis(index))
  }

  function Stay(pr: Process): Reaction {
    Reaction(pr, None)
  }

  function Advance(pr: Process, id: nat, stage: Stage): Reaction
    requires id in pr.tasks && pr.tasks[id].AwaitRedis?
  {
    Reaction(pr.(tasks := pr.tasks[id := pr.tasks[id].(stage := stage)]), None)
  }

  /** A Redis call of request id is at this stage. */
  predicate At(pr: Process, id: nat) {
    id in pr.tasks && pr.tasks[id].AwaitRedis?
  }

  /** The next segment of a process; an input that fits no request changes nothing. */
  function React(s: Settings, pr: Process, now: int, input: Input): Reaction {
    match input
    case Arrive(id, p) =>
      var seg := Begin(s, pr.state, p, now);
      if id in pr.tasks then Stay(pr)
      else Proceed(ProbeStarted(pr, id, seg.next), id, p, now, seg, FailClosed)
    case IncrExecuted(id, count, index) =>
      if At(pr, id) && pr.tasks[id].stage.IncrSent? then Advance(pr, id, IncrDone(count, index)) else Stay(pr)
    case IncrReplied(id) =>
      if At(pr, id) && pr.tasks[id].stage.IncrDone? then
        var done := pr.tasks[id].stage;
        if done.count == 1 then Advance(pr, id, ExpireSent(done.index))
        else Decision(s, pr, id, pr.tasks[id], now, done.count <= pr.tasks[id].params.limit, done.index)
      else Stay(pr)
    case ExpireExecuted(id) =>
      if At(pr, id) && pr.tasks[id].stage.ExpireSent? then Advance(pr, id, ExpireDone(pr.tasks[id].stage.index))
        else Stay(pr)
    case ExpireReplied(id) =>
      if At(pr, id) && pr.tasks[id].stage.ExpireDone? then
        Decision(s, pr, id, pr.tasks[id], now, 1 <= pr.tasks[id].params.limit, pr.tasks[id].stage.index)
      else Stay(pr)
    case CallFailed(id) =>
      if At(pr, id) then
        var t := pr.tasks[id];
        Proceed(ProbeEnded(s, pr, t.probe, true), id, t.params, now, OnRedisError(s, pr.state, t.probe, t.params, now),
          FailClosed)
      else Stay(pr)
    case Resumed(id) =>
      if id in pr.tasks && pr.tasks[id].AwaitMemory? then
        Proceed(pr, id, pr.tasks[id].params, now, AskMemory(s, pr.state, pr.tasks[id].params, now), FailClosed)
      else Stay(pr)
    case TimerFired =>
      Reaction(pr.(state := OnTimer(pr.state, now), trace := pr.trace + [Timer(now)]), None)
  }

  // ---------------------------------------------------------------------------------------------
  // Modes
  // ---------------------------------------------------------------------------------------------

  /** The modes a configuration allows, and no Redis call at all under the memory driver. */
  ghost predicate ModeDiscipline(s: Settings, pr: Process) {
    && (s.driver == MemoryDriver ==>
          pr.state.mode == MemoryPrimary && forall id :: id in pr.tasks ==> !pr.tasks[id].AwaitRedis?)
    && (s.driver == RedisDriver ==> pr.state.mode != MemoryPrimary)
    && (!s.fallbackEnabled ==> pr.state.mode != MemoryFallback)
  }

  lemma BootModes(s: Settings, redisHealthy: bool, now: int)
    ensures ModeDiscipline(s, Boot(s, redisHealthy, now))
  {
  }

  lemma ReactModes(s: Settings, pr: Process, now: int, input: Input)
    requires ModeDiscipline(s, pr)
    ensures ModeDiscipline(s, React(s, pr, now, input).process)
  {
  }

  /** The input delivers the decision of a Redis call made as a probe. */
  predicate DecidesProbe(pr: Process, input: Input) {
    && (input.IncrReplied? || input.ExpireReplied?)
    && At(pr, input.id)
    && pr.tasks[input.id].probe.Some?
    && (input.IncrReplied? ==> pr.tasks[input.id].stage.IncrDone? && pr.tasks[input.id].stage.count != 1)
    && (input.ExpireReplied? ==> pr.tasks[input.id].stage.ExpireDone?)
  }

  /** The input is the rejection of a Redis call that was not a probe. */
  predicate FailsPrimary(pr: Process, input: Input) {
    input.CallFailed? && At(pr, input.id) && pr.tasks[input.id].probe.None?
  }

  /** Exactly what moves the mode: a probe whose Redis call succeeded, and a failed primary call. */
  lemma ModeMoves(s: Settings, pr: Process, now: int, input: Input)
    requires ModeDiscipline(s, pr)
    ensures var after := React(s, pr, now, input).process.state.mode;
      after == (if DecidesProbe(pr, input) then RedisPrimary
                else if FailsPrimary(pr, input) && s.fallbackEnabled then MemoryFallback
                else pr.state.mode)
  {
  }

  // ---------------------------------------------------------------------------------------------
  // Probes
  // ---------------------------------------------------------------------------------------------

  function LastProbe(pr: Process): int
    requires pr.probeStarts != []
  {
    pr.probeStarts[|pr.probeStarts| - 1]
  }

  ghost predicate Spaced(starts: seq<int>, gap: nat) {
    forall i, j :: 0 <= i < j < |starts| ==> starts[i] + gap <= starts[j]
  }

  /** At most one request probes, and it is the one that started last. */
  ghost predicate OneProbe(pr: Process) {
    && pr.state.probeInProgress == pr.probeTask.Some?
    && (forall id :: id in pr.tasks && pr.tasks[id].AwaitRedis? && pr.tasks[id].probe.Some? ==>
          && pr.probeTask == Some(id)
          && pr.probeStarts != []
          && pr.tasks[id].probe.value == LastProbe(pr))
    && (pr.probeTask.Some? ==> At(pr, pr.probeTask.value) && pr.tasks[pr.probeTask.value].probe.Some?)
  }

  /** When the next probe may start, and what the log throttle has seen. */
  ghost predicate ProbeClock(s: Settings, pr: Process, now: int) {
    && (pr.probeStarts != [] ==> s.probeCooldownMs <= pr.probeStarts[0] && LastProbe(pr) <= now)
    && (pr.state.probeInProgress ==>
          && pr.state.mode == MemoryFallback
          && pr.probeStarts != []
          && pr.state.lastProbeFailureLogAt + s.probeCooldownMs <= LastProbe(pr))
    && (pr.state.mode != RedisPrimary && !pr.state.probeInProgress && s.driver == RedisDriver ==>
          && s.probeCooldownMs <= pr.state.nextProbeAt
          && (pr.probeStarts != [] ==> LastProbe(pr) + s.probeCooldownMs <= pr.state.nextProbeAt))
    && pr.state.lastProbeFailureLogAt <= (if pr.probeStarts == [] then 0 else LastProbe(pr))
  }

  ghost predicate ProbeDiscipline(s: Settings, pr: Process, now: int) {
    && ModeDiscipline(s, pr)
    && OneProbe(pr)
    && ProbeClock(s, pr, now)
    && Spaced(pr.probeStarts, s.probeCooldownMs)
    && pr.probeLogs == pr.probeFailures
  }

  lemma BootProbes(s: Settings, redisHealthy: bool, now: int)
    requires 0 <= now
    ensures ProbeDiscipline(s, Boot(s, redisHealthy, now), now)
  {
  }

  lemma LaterProbes(s: Settings, pr: Process, now: int, later: int)
    requires ProbeDiscipline(s, pr, now) && now <= later
    ensures ProbeDiscipline(s, pr, later)
  {
  }

  lemma AdvanceProbes(s: Settings, pr: Process, now: int, id: nat, stage: Stage)
    requires ProbeDiscipline(s, pr, now) && At(pr, id)
    ensures ProbeDiscipline(s, Advance(pr, id, stage).process, now)
  {
  }

  lemma ArriveProbes(s: Settings, pr: Process, now: int, id: nat, p: Params)
    requires ProbeDiscipline(s, pr, now) && 0 <= now && id !in pr.tasks
    ensures ProbeDiscipline(s, React(s, pr, now, Arrive(id, p)).process, now)
  {
    ReactModes(s, pr, now, Arrive(id, p));
    var seg := Begin(s, pr.state, p, now);
    var after := React(s, pr, now, Arrive(id, p)).process;
    if seg.next == AskRedis(Some(now)) {
      assert after.probeStarts == pr.probeStarts + [now];
      assert LastProbe(after) == now;
    } else {
      assert after.probeStarts == pr.probeStarts && after.probeTask == pr.probeTask;
    }
  }

  lemma DecisionProbes(s: Settings, pr: Process, now: int, id: nat, allowed: bool, index: nat)
    requires ProbeDiscipline(s, pr, now) && At(pr, id)
    ensures ProbeDiscipline(s, Decision(s, pr, id, pr.tasks[id], now, allowed, index).process, now)
  {
    var after := Decision(s, pr, id, pr.tasks[id], now, allowed, index).process;
    assert after.tasks == pr.tasks - {id} && after.probeStarts == pr.probeStarts;
  }

  lemma FailedProbes(s: Settings, pr: Process, now: int, id: nat)
    requires ProbeDiscipline(s, pr, now) && 0 <= now && At(pr, id)
    ensures ProbeDiscipline(s, React(s, pr, now, CallFailed(id)).process, now)
  {
    ReactModes(s, pr, now, CallFailed(id));
    var after := React(s, pr, now, CallFailed(id)).process;
    assert after.probeStarts == pr.probeStarts;
    if pr.tasks[id].probe.Some? {
      assert after.tasks == pr.tasks[id := AwaitMemory(pr.tasks[id].params)];
    } else {
      assert after.tasks == pr.tasks - {id};
    }
  }

  lemma ReactProbes(s: Settings, pr: Process, now: int, input: Input)
    requires ProbeDiscipline(s, pr, now) && 0 <= now
    ensures ProbeDiscipline(s, React(s, pr, now, input).process, now)
  {
    match input
    case Arrive(id, p) =>
      if id !in pr.tasks { ArriveProbes(s, pr, now, id, p); }
    case IncrExecuted(id, count, index) =>
      if At(pr, id) { AdvanceProbes(s, pr, now, id, IncrDone(count, index)); }
    case IncrReplied(id) =>
      if At(pr, id) && pr.tasks[id].stage.IncrDone? {
        var done := pr.tasks[id].stage;
        AdvanceProbes(s, pr, now, id, ExpireSent(done.index));
        DecisionProbes(s, pr, now, id, done.count <= pr.tasks[id].params.limit, done.index);
      }
    case ExpireExecuted(id) =>
      if At(pr, id) && pr.tasks[id].stage.ExpireSent? {
        AdvanceProbes(s, pr, now, id, ExpireDone(pr.tasks[id].stage.index));
      }
    case ExpireReplied(id) =>
      if At(pr, id) && pr.tasks[id].stage.ExpireDone? {
        DecisionProbes(s, pr, now, id, 1 <= pr.tasks[id].params.limit, pr.tasks[id].stage.index);
      }
    case CallFailed(id) =>
      if At(pr, id) { FailedProbes(s, pr, now, id); }
    case Resumed(id) =>
      if id in pr.tasks && pr.tasks[id].AwaitMemory? { ResumedProbes(s, pr, now, id); }
    case TimerFired =>
  }

  lemma ResumedProbes(s: Settings, pr: Process, now: int, id: nat)
    requires ProbeDiscipline(s, pr, now) && id in pr.tasks && pr.tasks[id].AwaitMemory?
    ensures ProbeDiscipline(s, React(s, pr, now, Resumed(id)).process, now)
  {
    var after := React(s, pr, now, Resumed(id)).process;
    assert after.tasks == pr.tasks - {id} && after.probeStarts == pr.probeStarts;
  }
}
