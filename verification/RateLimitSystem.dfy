/**
  Any number of processes, each with its own in-memory limiter, in front of one Redis. A run is any
  list of labels: requests arrive, Redis executes commands, replies return or get lost, timers fire
  and time passes, in any order. A label that fits no request changes nothing, so every list is a run.
*/
module RateLimitSystem {
  import opened MemoryRateLimiter
  import opened RedisRateLimiter
  import opened ResilientRateLimiter
  import opened RateLimitProcess

  /** How a request was settled, by which process, and on the word of which backend. */
  datatype Settlement = Settlement(proc: nat, params: Params, answer: Answer, source: Source)

  datatype System = System(now: int, log: Log, procs: seq<Process>, nextId: nat, settled: map<nat, Settlement>)

  datatype Label =
    | Tick(ms: nat)
    | Arrival(proc: nat, params: Params)
    | ExecIncr(proc: nat, id: nat)
    | ReplyIncr(proc: nat, id: nat)
    | ExecExpire(proc: nat, id: nat)
    | ReplyExpire(proc: nat, id: nat)
    | Fail(proc: nat, id: nat)
    | Resume(proc: nat, id: nat)
    | Cleanup(proc: nat)

  function Start(s: Settings, healthy: seq<bool>, now: int): System {
    System(now, [], seq(|healthy|, i requires 0 <= i < |healthy| => Boot(s, healthy[i], now)), 0, map[])
  }

  function Deliver(s: Settings, y: System, i: nat, input: Input): System
    requires i < |y.procs|
  {
    var r := React(s, y.procs[i], y.now, input);
    var settled := match r.verdict
      case None => y.settled
      case Some(v) => y.settled[v.id := Settlement(i, v.params, v.answer, v.source)];
    y.(procs := y.procs[i := r.process], settled := settled)
  }

  predicate Waits(pr: Process, id: nat, stage: Stage) {
    At(pr, id) && pr.tasks[id].stage == stage
  }

  predicate WaitsForExpire(pr: Process, id: nat) {
    At(pr, id) && pr.tasks[id].stage.ExpireSent?
  }

  function Step(s: Settings, y: System, l: Label): System {
    if l.Tick? then y.(now := y.now + l.ms)
    else if l.proc >= |y.procs| then y
    else
      var pr := y.procs[l.proc];
      match l
      case Arrival(i, p) => Deliver(s, y, i, Arrive(y.nextId, p)).(nextId := y.nextId + 1)
      case ExecIncr(i, id) =>
        if !Waits(pr, id, IncrSent) then y
        else
          var p := pr.tasks[id].params;
          Deliver(s, y, i, IncrExecuted(id, IncrReply(Replay(y.log), p.key, y.now), |y.log|))
          .(log := y.log + [Incr(id, p, y.now)])
      case ExecExpire(i, id) =>
        if !WaitsForExpire(pr, id) then y
        else Deliver(s, y, i, ExpireExecuted(id)).(log := y.log + [Expire(id, pr.tasks[id].params, y.now)])
      case ReplyIncr(i, id) => Deliver(s, y, i, IncrReplied(id))
      case ReplyExpire(i, id) => Deliver(s, y, i, ExpireReplied(id))
      case Fail(i, id) => Deliver(s, y, i, CallFailed(id))
      case Resume(i, id) => Deliver(s, y, i, Resumed(id))
      case Cleanup(i) => Deliver(s, y, i, TimerFired)
  }

  function RunOf(s: Settings, start: System, labels: seq<Label>): System {
    if labels == [] then start
    else Step(s, RunOf(s, start, labels[..|labels| - 1]), labels[|labels| - 1])
  }

  // ---------------------------------------------------------------------------------------------
  // Modes and probes, over every run
  // ---------------------------------------------------------------------------------------------

  ghost predicate AllDisciplined(s: Settings, y: System) {
    0 <= y.now && forall i :: 0 <= i < |y.procs| ==> ProbeDiscipline(s, y.procs[i], y.now)
  }

  lemma DeliverDisciplined(s: Settings, y: System, i: nat, input: Input)
    requires AllDisciplined(s, y) && i < |y.procs|
    ensures AllDisciplined(s, Deliver(s, y, i, input))
  {
    ReactProbes(s, y.procs[i], y.now, input);
  }

  lemma StepDisciplined(s: Settings, y: System, l: Label)
    requires AllDisciplined(s, y)
    ensures AllDisciplined(s, Step(s, y, l))
  {
    match l
    case Tick(ms) =>
      forall i | 0 <= i < |y.procs| ensures ProbeDiscipline(s, y.procs[i], y.now + ms) {
        LaterProbes(s, y.procs[i], y.now, y.now + ms);
      }
    case Arrival(i, p) => if i < |y.procs| { DeliverDisciplined(s, y, i, Arrive(y.nextId, p)); }
    case ExecIncr(i, id) =>
      if i < |y.procs| && Waits(y.procs[i], id, IncrSent) {
        DeliverDisciplined(s, y, i, IncrExecuted(id, IncrReply(Replay(y.log), y.procs[i].tasks[id].params.key, y.now),
          |y.log|));
      }
    case ExecExpire(i, id) => if i < |y.procs| { DeliverDisciplined(s, y, i, ExpireExecuted(id)); }
    case ReplyIncr(i, id) => if i < |y.procs| { DeliverDisciplined(s, y, i, IncrReplied(id)); }
    case ReplyExpire(i, id) => if i < |y.procs| { DeliverDisciplined(s, y, i, ExpireReplied(id)); }
    case Fail(i, id) => if i < |y.procs| { DeliverDisciplined(s, y, i, CallFailed(id)); }
    case Resume(i, id) => if i < |y.procs| { DeliverDisciplined(s, y, i, Resumed(id)); }
    case Cleanup(i) => if i < |y.procs| { DeliverDisciplined(s, y, i, TimerFired); }
  }

  lemma {:induction false} RunDisciplined(s: Settings, healthy: seq<bool>, now: int, labels: seq<Label>)
    requires 0 <= now
    ensures AllDisciplined(s, RunOf(s, Start(s, healthy, now), labels))
  {
    if labels == [] {
      forall i | 0 <= i < |healthy| ensures ProbeDiscipline(s, Boot(s, healthy[i], now), now) {
        BootProbes(s, healthy[i], now);
      }
    } else {
      var pre := labels[..|labels| - 1];
      RunDisciplined(s, healthy, now, pre);
      StepDisciplined(s, RunOf(s, Start(s, healthy, now), pre), labels[|labels| - 1]);
    }
  }

  /**
    In every run each process probes with at most one request at a time, probe starts are at least a
    cooldown apart, and the log throttle has never suppressed a probe-failure message.
  */
  lemma ProbesInEveryRun(s: Settings, healthy: seq<bool>, now: int, labels: seq<Label>, i: nat, a: nat, b: nat)
    requires 0 <= now
    requires i < |RunOf(s, Start(s, healthy, now), labels).procs|
    ensures var pr := RunOf(s, Start(s, healthy, now), labels).procs[i];
      && (At(pr, a) && pr.tasks[a].probe.Some? && At(pr, b) && pr.tasks[b].probe.Some? ==> a == b)
      && (forall j :: 0 <= j < |pr.probeStarts| - 1 ==> pr.probeStarts[j] + s.probeCooldownMs <= pr.probeStarts[j + 1])
      && pr.probeLogs == pr.probeFailures
  {
    RunDisciplined(s, healthy, now, labels);
    assert ProbeDiscipline(s, RunOf(s, Start(s, healthy, now), labels).procs[i],
      RunOf(s, Start(s, healthy, now), labels).now);
  }

  /** In every run the mode stays among those the configuration allows. */
  lemma ModesInEveryRun(s: Settings, healthy: seq<bool>, now: int, labels: seq<Label>, i: nat)
    requires 0 <= now
    requires i < |RunOf(s, Start(s, healthy, now), labels).procs|
    ensures var mode := RunOf(s, Start(s, healthy, now), labels).procs[i].state.mode;
      && (s.driver == MemoryDriver <==> mode == MemoryPrimary)
      && (s.driver == RedisDriver && !s.fallbackEnabled ==> mode == RedisPrimary)
  {
    RunDisciplined(s, healthy, now, labels);
    assert ProbeDiscipline(s, RunOf(s, Start(s, healthy, now), labels).procs[i],
      RunOf(s, Start(s, healthy, now), labels).now);
  }

  /** Under the memory driver no run calls Redis: no request ever waits for it, and it executes nothing. */
  lemma {:induction false} MemoryDriverNeverCallsRedis(s: Settings, healthy: seq<bool>, now: int, labels: seq<Label>)
    requires 0 <= now && s.driver == MemoryDriver
    ensures var y := RunOf(s, Start(s, healthy, now), labels);
      && y.log == []
      && forall i, id :: 0 <= i < |y.procs| ==> !At(y.procs[i], id)
  {
    RunDisciplined(s, healthy, now, labels);
    var z := RunOf(s, Start(s, healthy, now), labels);
    forall i, id | 0 <= i < |z.procs| ensures !At(z.procs[i], id) {
      assert ProbeDiscipline(s, z.procs[i], z.now);
    }
    if labels == [] {
    } else {
      var pre := labels[..|labels| - 1];
      MemoryDriverNeverCallsRedis(s, healthy, now, pre);
      RunDisciplined(s, healthy, now, pre);
      var y, l := RunOf(s, Start(s, healthy, now), pre), labels[|labels| - 1];
      if !l.Tick? && l.proc < |y.procs| {
        assert ProbeDiscipline(s, y.procs[l.proc], y.now);
      }
    }
  }
}
