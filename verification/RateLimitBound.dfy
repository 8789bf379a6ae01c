/**
  What the whole rate-limiting system admits: every admitted request was granted by one counter that
  had room for it, so the bounds of the single counters add up.
*/
module RateLimitBound {
  import opened Options
  import opened MemoryRateLimiter
  import opened RedisRateLimiter
  import opened ResilientRateLimiter
  import opened RateLimitProcess
  import opened RateLimitSystem

  // ---------------------------------------------------------------------------------------------
  // Every grant is backed by an entry of some backend's history
  // ---------------------------------------------------------------------------------------------

  /** Position index of the server's log is request id's INCR, and the reply was count. */
  ghost predicate Replied(log: Log, index: nat, id: nat, p: Params, count: nat) {
    && index < |log|
    && log[index].Incr? && log[index].id == id && log[index].params == p
    && IncrReply(Replay(log[..index]), p.key, log[index].now) == count
  }

  ghost predicate StageBacked(log: Log, id: nat, t: Task) {
    t.AwaitRedis? ==>
      match t.stage
      case IncrSent => true
      case IncrDone(count, index) => Replied(log, index, id, t.params, count)
      case ExpireSent(index) => Replied(log, index, id, t.params, 1)
      case ExpireDone(index) => Replied(log, index, id, t.params, 1)
  }

  ghost predicate TasksBacked(log: Log, nextId: nat, pr: Process) {
    forall id :: id in pr.tasks ==> id < nextId && StageBacked(log, id, pr.tasks[id])
  }

  ghost predicate TraceBacked(s: Settings, now: int, pr: Process) {
    && pr.state.buckets == Run(s.memory, pr.trace)
    && Ordered(pr.trace)
    && (pr.trace != [] ==> Last(pr.trace).now <= now)
  }

  /** A settlement's word: the counter it names decided this request, and as it was answered. */
  ghost predicate SettlementBacked(s: Settings, log: Log, procs: seq<Process>, id: nat, x: Settlement) {
    match x.source
    case FromRedis(index) =>
      && index < |log| && log[index].Incr? && log[index].id == id && log[index].params == x.params
      && x.answer == AnswerOf(Admits(Replay(log[..index]), log[index]))
    case FromMemory(index) =>
      && x.proc < |procs| && index < |procs[x.proc].trace|
      && procs[x.proc].trace[index].Request?
      && procs[x.proc].trace[index].id == id && procs[x.proc].trace[index].params == x.params
      && x.answer == AnswerOf(MemoryRateLimiter.Allowed(s.memory, procs[x.proc].trace, index))
    case FailClosed => x.answer == Unavailable
  }

  ghost predicate Backed(s: Settings, y: System) {
    && InOrder(y.log) && (y.log != [] ==> Final(y.log).now <= y.now)
    && (forall i :: 0 <= i < |y.procs| ==>
       TasksBacked(y.log, y.nextId, y.procs[i]) && TraceBacked(s, y.now, y.procs[i]))
    && (forall id :: id in y.settled ==> SettlementBacked(s, y.log, y.procs, id, y.settled[id]))
  }

  lemma RepliedGrows(log: Log, cmd: Command, index: nat, id: nat, p: Params, count: nat)
    requires Replied(log, index, id, p, count)
    ensures Replied(log + [cmd], index, id, p, count)
  {
    assert (log + [cmd])[..index] == log[..index];
  }

  lemma TasksBackedGrow(log: Log, cmd: Command, nextId: nat, pr: Process)
    requires TasksBacked(log, nextId, pr)
    ensures TasksBacked(log + [cmd], nextId, pr)
  {
    forall id | id in pr.tasks ensures id < nextId && StageBacked(log + [cmd], id, pr.tasks[id]) {
      var t := pr.tasks[id];
      if t.AwaitRedis? {
        match t.stage
        case IncrSent =>
        case IncrDone(count, index) => RepliedGrows(log, cmd, index, id, t.params, count);
        case ExpireSent(index) => RepliedGrows(log, cmd, index, id, t.params, 1);
        case ExpireDone(index) => RepliedGrows(log, cmd, index, id, t.params, 1);
      }
    }
  }

  /** The verdict of a segment names a counter that decided the request so. */
  ghost predicate VerdictBacked(s: Settings, log: Log, pr: Process, v: Verdict) {
    match v.source
    case FromRedis(index) =>
      && index < |log| && log[index].Incr? && log[index].id == v.id && log[index].params == v.params
      && v.answer == AnswerOf(Admits(Replay(log[..index]), log[index]))
    case FromMemory(index) =>
      && index < |pr.trace| && pr.trace[index].Request?
      && pr.trace[index].id == v.id && pr.trace[index].params == v.params
      && v.answer == AnswerOf(MemoryRateLimiter.Allowed(s.memory, pr.trace, index))
    case FailClosed => v.answer == Unavailable
  }

  /** What one segment keeps, for the process that takes it. */
  ghost predicate ReactionBacked(s: Settings, log: Log, now: int, before: Process, r: Reaction) {
    && TraceBacked(s, now, r.process)
    && before.trace <= r.process.trace
    && (r.verdict.Some? ==> VerdictBacked(s, log, r.process, r.verdict.value))
  }

  /** A request put to the in-memory limiter: its trace grows by that request, and decides it. */
  lemma MemoryBacked(s: Settings, log: Log, pr: Process, st: State, id: nat, p: Params, now: int)
    requires TraceBacked(s, now, pr) && st.buckets == pr.state.buckets
    ensures ReactionBacked(s, log, now, pr, Proceed(pr, id, p, now, AskMemory(s, st, p, now), FailClosed))
  {
    var e := Request(id, p, now);
    var trace := pr.trace + [e];
    RunExtended(s.memory, pr.trace, e);
    assert trace[..|pr.trace|] == pr.trace;
    assert trace[|pr.trace|] == e;
    OrderedExtended(pr.trace, e);
  }

  lemma OrderedExtended(trace: Trace, e: Event)
    requires Ordered(trace) && (trace != [] ==> Last(trace).now <= e.now)
    ensures Ordered(trace + [e]) && Last(trace + [e]) == e
  {
  }

  /** A Redis decision is the one the request's INCR fixed. */
  lemma DecisionBacked(s: Settings, log: Log, pr: Process, id: nat, now: int, count: nat, index: nat)
    requires TraceBacked(s, now, pr) && At(pr, id)
    requires Replied(log, index, id, pr.tasks[id].params, count)
    ensures ReactionBacked(s, log, now, pr,
      Decision(s, pr, id, pr.tasks[id], now, count <= pr.tasks[id].params.limit, index))
  {
  }

  /** A rejected Redis call is settled by the in-memory limiter, refused, or left waiting. */
  lemma FailureBacked(s: Settings, log: Log, pr: Process, now: int, id: nat)
    requires TraceBacked(s, now, pr) && At(pr, id)
    ensures ReactionBacked(s, log, now, pr, React(s, pr, now, CallFailed(id)))
  {
    if pr.tasks[id].probe.None? && s.fallbackEnabled {
      MemoryBacked(s, log, pr, ActivateFallback(s, pr.state, now), id, pr.tasks[id].params, now);
    }
  }

  lemma ArrivalBacked(s: Settings, log: Log, pr: Process, now: int, id: nat, p: Params)
    requires TraceBacked(s, now, pr)
    ensures ReactionBacked(s, log, now, pr, React(s, pr, now, Arrive(id, p)))
  {
    if s.driver == MemoryDriver {
      MemoryBacked(s, log, pr, pr.state, id, p, now);
    }
  }

  lemma ReactBacked(s: Settings, log: Log, nextId: nat, pr: Process, now: int, input: Input)
    requires TasksBacked(log, nextId, pr) && TraceBacked(s, now, pr)
    ensures ReactionBacked(s, log, now, pr, React(s, pr, now, input))
  {
    match input
    case Arrive(id, p) => ArrivalBacked(s, log, pr, now, id, p);
    case IncrExecuted(id, count, index) =>
    case IncrReplied(id) =>
      if At(pr, id) && pr.tasks[id].stage.IncrDone? && pr.tasks[id].stage.count != 1 {
        assert StageBacked(log, id, pr.tasks[id]);
        DecisionBacked(s, log, pr, id, now, pr.tasks[id].stage.count, pr.tasks[id].stage.index);
      }
    case ExpireExecuted(id) =>
    case ExpireReplied(id) =>
      if At(pr, id) && pr.tasks[id].stage.ExpireDone? {
        assert StageBacked(log, id, pr.tasks[id]);
        DecisionBacked(s, log, pr, id, now, 1, pr.tasks[id].stage.index);
      }
    case CallFailed(id) => if At(pr, id) { FailureBacked(s, log, pr, now, id); }
    case Resumed(id) =>
      if id in pr.tasks && pr.tasks[id].AwaitMemory? {
        MemoryBacked(s, log, pr, pr.state, id, pr.tasks[id].params, now);
      }
    case TimerFired => TimerBacked(s, log, pr, now);
  }

  lemma TimerBacked(s: Settings, log: Log, pr: Process, now: int)
    requires TraceBacked(s, now, pr)
    ensures ReactionBacked(s, log, now, pr, React(s, pr, now, TimerFired))
  {
    RunExtended(s.memory, pr.trace, Timer(now));
    OrderedExtended(pr.trace, Timer(now));
  }

  /** The tasks a segment leaves are backed too. */
  lemma ReactTasks(s: Settings, log: Log, nextId: nat, pr: Process, now: int, input: Input)
    requires TasksBacked(log, nextId, pr)
    requires input.Arrive? ==> input.id < nextId
    requires input.IncrExecuted? && At(pr, input.id) ==>
      Replied(log, input.index, input.id, pr.tasks[input.id].params, input.count)
    ensures TasksBacked(log, nextId, React(s, pr, now, input).process)
  {
    var after := React(s, pr, now, input).process;
    forall id | id in after.tasks ensures id < nextId && StageBacked(log, id, after.tasks[id]) {
      if id in pr.tasks {
        assert StageBacked(log, id, pr.tasks[id]);
      }
    }
  }

  /** A settlement stays backed while histories only grow. */
  lemma SettlementGrows(s: Settings, log: Log, log': Log, procs: seq<Process>, procs': seq<Process>, id: nat,
                        x: Settlement)
    requires SettlementBacked(s, log, procs, id, x)
    requires log <= log' && |procs| == |procs'|
    requires forall i :: 0 <= i < |procs| ==> procs[i].trace <= procs'[i].trace
    ensures SettlementBacked(s, log', procs', id, x)
  {
    match x.source
    case FromRedis(index) => assert log'[..index] == log[..index];
    case FromMemory(index) => assert procs'[x.proc].trace[..index] == procs[x.proc].trace[..index];
    case FailClosed =>
  }

  /** Delivering an input to one process, with the server's log possibly grown by the command it executed. */
  lemma DeliverBacked(s: Settings, y: System, log: Log, nextId: nat, i: nat, input: Input)
    requires Backed(s, y) && i < |y.procs| && y.nextId <= nextId
    requires log == y.log || exists cmd :: log == y.log + [cmd]
    requires InOrder(log) && (log != [] ==> Final(log).now <= y.now)
    requires input.Arrive? ==> input.id < nextId
    requires input.IncrExecuted? && At(y.procs[i], input.id) ==>
      Replied(log, input.index, input.id, y.procs[i].tasks[input.id].params, input.count)
    ensures Backed(s, Deliver(s, y, i, input).(log := log, nextId := nextId))
  {
    var z := Deliver(s, y, i, input).(log := log, nextId := nextId);
    var r := React(s, y.procs[i], y.now, input);
    forall j | 0 <= j < |z.procs| ensures TasksBacked(log, nextId, z.procs[j]) && TraceBacked(s, z.now, z.procs[j]) {
      if log != y.log {
        var cmd :| log == y.log + [cmd];
        TasksBackedGrow(y.log, cmd, y.nextId, y.procs[j]);
      }
      assert TasksBacked(log, nextId, y.procs[j]);
      if j == i {
        ReactTasks(s, log, nextId, y.procs[i], y.now, input);
        ReactBacked(s, log, nextId, y.procs[i], y.now, input);
      }
    }
    assert TasksBacked(log, nextId, y.procs[i]) by {
      if log != y.log {
        var cmd :| log == y.log + [cmd];
        TasksBackedGrow(y.log, cmd, y.nextId, y.procs[i]);
      }
    }
    ReactBacked(s, log, nextId, y.procs[i], y.now, input);
    forall id | id in z.settled ensures SettlementBacked(s, log, z.procs, id, z.settled[id]) {
      if r.verdict.Some? && r.verdict.value.id == id {
      } else {
        SettlementGrows(s, y.log, log, y.procs, z.procs, id, y.settled[id]);
      }
    }
  }

  lemma InOrderExtended(log: Log, cmd: Command)
    requires InOrder(log) && (log != [] ==> Final(log).now <= cmd.now)
    ensures InOrder(log + [cmd]) && Final(log + [cmd]) == cmd
  {
  }

  lemma ExecBacked(s: Settings, y: System, l: Label)
    requires Backed(s, y) && (l.ExecIncr? || l.ExecExpire?) && l.proc < |y.procs|
    ensures Backed(s, Step(s, y, l))
  {
    var i, log, id := l.proc, y.log, l.id;
    if l.ExecIncr? && Waits(y.procs[i], id, IncrSent) {
      var p := y.procs[i].tasks[id].params;
      var cmd := Incr(id, p, y.now);
      InOrderExtended(log, cmd);
      assert (log + [cmd])[..|log|] == log;
      DeliverBacked(s, y, log + [cmd], y.nextId, i, IncrExecuted(id, IncrReply(Replay(log), p.key, y.now), |log|));
    }
    if l.ExecExpire? && WaitsForExpire(y.procs[i], id) {
      var cmd := Expire(id, y.procs[i].tasks[id].params, y.now);
      InOrderExtended(log, cmd);
      DeliverBacked(s, y, log + [cmd], y.nextId, i, ExpireExecuted(id));
    }
  }

  lemma StepBacked(s: Settings, y: System, l: Label)
    requires Backed(s, y)
    ensures Backed(s, Step(s, y, l))
  {
    if l.Tick? || l.proc >= |y.procs| {
    } else {
      var i, log := l.proc, y.log;
      match l
      case Arrival(_, p) => DeliverBacked(s, y, log, y.nextId + 1, i, Arrive(y.nextId, p));
      case ExecIncr(_, id) => ExecBacked(s, y, l);
      case ExecExpire(_, id) => ExecBacked(s, y, l);
      case ReplyIncr(_, id) => DeliverBacked(s, y, log, y.nextId, i, IncrReplied(id));
      case ReplyExpire(_, id) => DeliverBacked(s, y, log, y.nextId, i, ExpireReplied(id));
      case Fail(_, id) => DeliverBacked(s, y, log, y.nextId, i, CallFailed(id));
      case Resume(_, id) => DeliverBacked(s, y, log, y.nextId, i, Resumed(id));
      case Cleanup(_) => DeliverBacked(s, y, log, y.nextId, i, TimerFired);
    }
  }

  /** Every settlement of every run names the one counter that decided it. */
  lemma {:induction false} RunBacked(s: Settings, healthy: seq<bool>, now: int, labels: seq<Label>)
    ensures Backed(s, RunOf(s, Start(s, healthy, now), labels))
  {
    if labels == [] {
    } else {
      RunBacked(s, healthy, now, labels[..|labels| - 1]);
      StepBacked(s, RunOf(s, Start(s, healthy, now), labels[..|labels| - 1]), labels[|labels| - 1]);
    }
  }

  // ---------------------------------------------------------------------------------------------
  // One limit and one window per key
  // ---------------------------------------------------------------------------------------------

  predicate Uses(p: Params, key: string, limit: nat, windowSeconds: nat) {
    p.key == key ==> p.limit == limit && p.windowSeconds == windowSeconds
  }

  ghost predicate ProcessUses(pr: Process, key: string, limit: nat, windowSeconds: nat) {
    && (forall id :: id in pr.tasks ==> Uses(pr.tasks[id].params, key, limit, windowSeconds))
    && (forall i :: 0 <= i < |pr.trace| && pr.trace[i].Request? ==> Uses(pr.trace[i].params, key, limit, windowSeconds))
  }

  ghost predicate SystemUses(y: System, key: string, limit: nat, windowSeconds: nat) {
    && (forall i :: 0 <= i < |y.log| ==> Uses(y.log[i].params, key, limit, windowSeconds))
    && (forall i :: 0 <= i < |y.procs| ==> ProcessUses(y.procs[i], key, limit, windowSeconds))
  }

  /** All requests of a run that carry the key agree on its limit and its window. */
  ghost predicate LabelsUse(labels: seq<Label>, key: string, limit: nat, windowSeconds: nat) {
    forall i :: 0 <= i < |labels| && labels[i].Arrival? ==> Uses(labels[i].params, key, limit, windowSeconds)
  }

  lemma ReactUses(s: Settings, pr: Process, now: int, input: Input, key: string, limit: nat, windowSeconds: nat)
    requires ProcessUses(pr, key, limit, windowSeconds)
    requires input.Arrive? ==> Uses(input.params, key, limit, windowSeconds)
    ensures ProcessUses(React(s, pr, now, input).process, key, limit, windowSeconds)
  {
  }

  lemma StepUses(s: Settings, y: System, l: Label, key: string, limit: nat, windowSeconds: nat)
    requires SystemUses(y, key, limit, windowSeconds)
    requires l.Arrival? ==> Uses(l.params, key, limit, windowSeconds)
    ensures SystemUses(Step(s, y, l), key, limit, windowSeconds)
  {
    if l.Tick? || l.proc >= |y.procs| {
    } else {
      var pr := y.procs[l.proc];
      match l
      case Arrival(_, p) => ReactUses(s, pr, y.now, Arrive(y.nextId, p), key, limit, windowSeconds);
      case ExecIncr(_, id) =>
        if Waits(pr, id, IncrSent) {
          ReactUses(s, pr, y.now, IncrExecuted(id, IncrReply(Replay(y.log), pr.tasks[id].params.key, y.now), |y.log|),
                    key, limit, windowSeconds);
        }
      case ExecExpire(_, id) => ReactUses(s, pr, y.now, ExpireExecuted(id), key, limit, windowSeconds);
      case ReplyIncr(_, id) => ReactUses(s, pr, y.now, IncrReplied(id), key, limit, windowSeconds);
      case ReplyExpire(_, id) => ReactUses(s, pr, y.now, ExpireReplied(id), key, limit, windowSeconds);
      case Fail(_, id) => ReactUses(s, pr, y.now, CallFailed(id), key, limit, windowSeconds);
      case Resume(_, id) => ReactUses(s, pr, y.now, Resumed(id), key, limit, windowSeconds);
      case Cleanup(_) => ReactUses(s, pr, y.now, TimerFired, key, limit, windowSeconds);
    }
  }

  lemma {:induction false} RunUses(s: Settings, healthy: seq<bool>, now: int, labels: seq<Label>, key: string,
                                   limit: nat, windowSeconds: nat)
    requires LabelsUse(labels, key, limit, windowSeconds)
    ensures SystemUses(RunOf(s, Start(s, healthy, now), labels), key, limit, windowSeconds)
  {
    if labels == [] {
    } else {
      var pre := labels[..|labels| - 1];
      RunUses(s, healthy, now, pre, key, limit, windowSeconds);
      StepUses(s, RunOf(s, Start(s, healthy, now), pre), labels[|labels| - 1], key, limit, windowSeconds);
    }
  }

  // ---------------------------------------------------------------------------------------------
  // Counting
  // ---------------------------------------------------------------------------------------------

  /** When the deciding counter granted a settled request: its INCR, or its in-memory consume. */
  function GrantedAt(y: System, x: Settlement): Option<int> {
    match x.source
    case FromRedis(index) => if index < |y.log| then Some(y.log[index].now) else None
    case FromMemory(index) =>
      if x.proc < |y.procs| && index < |y.procs[x.proc].trace| then Some(y.procs[x.proc].trace[index].now) else None
    case FailClosed => None
  }

  predicate IsAdmitted(y: System, key: string, from: int, until: int, id: nat) {
    && id in y.settled && y.settled[id].answer == Answer.Allowed && y.settled[id].params.key == key
    && var t := GrantedAt(y, y.settled[id]); t.Some? && from <= t.value < until
  }

  /** The requests of key the system admitted, counted at the time of their grant. */
  function AdmittedIds(y: System, key: string, from: int, until: int): set<nat> {
    set id | id in y.settled && IsAdmitted(y, key, from, until, id)
  }

  /** Those that Redis granted. */
  function FromRedisIds(y: System, key: string, from: int, until: int): set<nat> {
    set id | id in y.settled && IsAdmitted(y, key, from, until, id) && y.settled[id].source.FromRedis?
  }

  /** Those that the memory of process i granted. */
  function FromMemoryIds(y: System, key: string, from: int, until: int, i: nat): set<nat> {
    set id | id in y.settled && IsAdmitted(y, key, from, until, id) && y.settled[id].source.FromMemory?
      && y.settled[id].proc == i
  }

  /** Those that Redis or the memory of one of the first n processes granted. */
  function AdmittedUpTo(y: System, key: string, from: int, until: int, n: nat): set<nat> {
    set id | id in y.settled && IsAdmitted(y, key, from, until, id)
      && (y.settled[id].source.FromRedis? || y.settled[id].proc < n)
  }

  ghost function RedisIds(log: Log, key: string, from: int, until: int): set<nat> {
    if log == [] then {}
    else
      var cmd := Final(log);
      RedisIds(Prefix(log), key, from, until)
      + if from <= cmd.now < until && Admits(Replay(Prefix(log)), cmd) && cmd.params.key == key then {cmd.id} else {}
  }

  lemma {:induction false} RedisIdsCount(log: Log, key: string, from: int, until: int)
    ensures |RedisIds(log, key, from, until)| <= Admitted(log, key, from, until)
  {
    if log == [] {
    } else {
      RedisIdsCount(Prefix(log), key, from, until);
      AddOne(RedisIds(Prefix(log), key, from, until), Final(log).id);
    }
  }

  lemma AddOne(s: set<nat>, x: nat)
    ensures |s + {x}| <= |s| + 1
  {
    if x in s {
      assert s + {x} == s;
    } else {
      assert s + {x} - {x} == s;
    }
  }

  lemma {:induction false} RedisIdsHold(log: Log, key: string, from: int, until: int, index: nat)
    requires index < |log| && Admits(Replay(log[..index]), log[index])
    requires log[index].params.key == key && from <= log[index].now < until
    ensures log[index].id in RedisIds(log, key, from, until)
  {
    if index < |log| - 1 {
      assert Prefix(log)[..index] == log[..index] && Prefix(log)[index] == log[index];
      RedisIdsHold(Prefix(log), key, from, until, index);
    }
  }

  /** The requests an in-memory limiter granted. */
  ghost function MemoryIds(c: Config, trace: Trace, key: string, from: int, until: int): set<nat> {
    set i | i in GrantMoments(c, trace, key, from, until) :: trace[i].id
  }

  /** An image is no larger than what it is the image of. */
  lemma {:induction false} ImageCount(moments: set<nat>, trace: Trace, ids: set<nat>)
    requires forall i :: i in moments ==> i < |trace| && trace[i].Request?
    requires ids == set i | i in moments :: trace[i].id
    ensures |ids| <= |moments|
    decreases |moments|
  {
    if moments == {} {
      assert ids == {};
    } else {
      var i :| i in moments;
      var rest := moments - {i};
      var others := set j | j in rest :: trace[j].id;
      ImageCount(rest, trace, others);
      assert ids == others + {trace[i].id};
      AddOne(others, trace[i].id);
    }
  }

  lemma MemoryIdsCount(c: Config, trace: Trace, key: string, from: int, until: int)
    ensures |MemoryIds(c, trace, key, from, until)| <= Grants(c, trace, key, from, until)
  {
    ImageCount(GrantMoments(c, trace, key, from, until), trace, MemoryIds(c, trace, key, from, until));
  }

  lemma MemoryIdsHold(c: Config, trace: Trace, key: string, from: int, until: int, index: nat)
    requires index < |trace| && MemoryRateLimiter.Allowed(c, trace, index)
    requires trace[index].params.key == key && from <= trace[index].now < until
    ensures trace[index].id in MemoryIds(c, trace, key, from, until)
  {
    assert index in GrantMoments(c, trace, key, from, until);
  }

  /** The evictions of the key within the interval, process by process. */
  ghost predicate EvictedAtMost(c: Config, procs: seq<Process>, key: string, from: int, until: int,
                                evictions: seq<nat>) {
    && |evictions| == |procs|
    && (forall i {:trigger Evictions(c, procs[i].trace, key, from, until)} :: 0 <= i < |procs| ==>
          Evictions(c, procs[i].trace, key, from, until) <= evictions[i])
  }

  ghost function Sum(ns: seq<nat>, n: nat): nat
    requires n <= |ns|
  {
    if n == 0 then 0 else Sum(ns, n - 1) + ns[n - 1]
  }

  /** Windows the backends may fill: two of Redis, two of each process, and one for each eviction. */
  ghost function Windows(evictions: seq<nat>, n: nat): nat
    requires n <= |evictions|
  {
    if n == 0 then 2 else Windows(evictions, n - 1) + (2 + evictions[n - 1])
  }

  lemma {:induction false} WindowsCounted(evictions: seq<nat>, n: nat)
    requires n <= |evictions|
    ensures Windows(evictions, n) == 2 * (n + 1) + Sum(evictions, n)
  {
    if n == 0 {
    } else {
      WindowsCounted(evictions, n - 1);
    }
  }

  lemma {:induction false} QuotaGrows(a: nat, b: nat, limit: nat)
    requires a <= b
    ensures Quota(a, limit) <= Quota(b, limit)
  {
    if a < b {
      QuotaGrows(a, b - 1, limit);
    }
  }

  lemma {:induction false} QuotaAdds(a: nat, b: nat, limit: nat)
    ensures Quota(a + b, limit) == Quota(a, limit) + Quota(b, limit)
  {
    if a == 0 {
    } else {
      QuotaAdds(a - 1, b, limit);
    }
  }

  lemma UnionCount(a: set<nat>, b: set<nat>)
    ensures |a + b| <= |a| + |b|
  {
    assert a + b == a + (b - a);
    assert |a + (b - a)| == |a| + |b - a|;
    SubsetCount(b - a, b);
  }

  lemma SubsetCount(a: set<nat>, b: set<nat>)
    requires a <= b
    ensures |a| <= |b|
  {
    assert b == a + (b - a);
  }

  lemma RedisGranted(s: Settings, y: System, key: string, from: int, until: int)
    requires Backed(s, y)
    ensures FromRedisIds(y, key, from, until) <= RedisIds(y.log, key, from, until)
  {
    forall id | id in FromRedisIds(y, key, from, until) ensures id in RedisIds(y.log, key, from, until) {
      var x := y.settled[id];
      assert SettlementBacked(s, y.log, y.procs, id, x);
      RedisIdsHold(y.log, key, from, until, x.source.index);
    }
  }

  /** Redis's share of the admitted requests: two limits. */
  lemma RedisShare(s: Settings, y: System, key: string, limit: nat, windowSeconds: nat, from: int, until: int)
    requires Backed(s, y) && SystemUses(y, key, limit, windowSeconds)
    requires until <= from + windowSeconds * 1000
    ensures |FromRedisIds(y, key, from, until)| <= Quota(2, limit)
  {
    RedisGranted(s, y, key, from, until);
    SubsetCount(FromRedisIds(y, key, from, until), RedisIds(y.log, key, from, until));
    RedisIdsCount(y.log, key, from, until);
    AdmittedBounded(y.log, key, limit, windowSeconds * 1000, from, until);
    QuotaIsProduct(2, limit);
  }

  lemma MemoryGranted(s: Settings, y: System, key: string, from: int, until: int, i: nat)
    requires Backed(s, y) && i < |y.procs|
    ensures FromMemoryIds(y, key, from, until, i) <= MemoryIds(s.memory, y.procs[i].trace, key, from, until)
  {
    forall id | id in FromMemoryIds(y, key, from, until, i)
      ensures id in MemoryIds(s.memory, y.procs[i].trace, key, from, until) {
      var x := y.settled[id];
      assert SettlementBacked(s, y.log, y.procs, id, x);
      MemoryIdsHold(s.memory, y.procs[i].trace, key, from, until, x.source.index);
    }
  }

  lemma TraceCount(c: Config, trace: Trace, key: string, limit: nat, windowMs: nat, from: int, until: int,
                   evictions: nat)
    requires Ordered(trace) && KeyUses(c, trace, key, limit, windowMs)
    requires until <= from + windowMs
    requires Evictions(c, trace, key, from, until) <= evictions
    ensures Grants(c, trace, key, from, until) <= Quota(2 + evictions, limit)
  {
    GrantsCovered(c, trace, key, limit, windowMs, from, until);
    QuotaGrows(2 + Evictions(c, trace, key, from, until), 2 + evictions, limit);
  }

  lemma TraceShare(s: Settings, procs: seq<Process>, now: int, key: string, limit: nat, windowSeconds: nat, from: int,
                   until: int, i: nat, evictions: seq<nat>)
    requires i < |procs| && TraceBacked(s, now, procs[i]) && ProcessUses(procs[i], key, limit, windowSeconds)
    requires until <= from + windowSeconds * 1000
    requires EvictedAtMost(s.memory, procs, key, from, until, evictions)
    ensures Grants(s.memory, procs[i].trace, key, from, until) <= Quota(2 + evictions[i], limit)
  {
    var windowMs := EffectiveWindowMs(s.memory, windowSeconds);
    assert windowMs >= windowSeconds * 1000;
    TraceCount(s.memory, procs[i].trace, key, limit, windowMs, from, until, evictions[i]);
  }

  lemma MemoryCount(s: Settings, y: System, key: string, from: int, until: int, i: nat)
    requires Backed(s, y) && i < |y.procs|
    ensures |FromMemoryIds(y, key, from, until, i)| <= Grants(s.memory, y.procs[i].trace, key, from, until)
  {
    MemoryGranted(s, y, key, from, until, i);
    SubsetCount(FromMemoryIds(y, key, from, until, i), MemoryIds(s.memory, y.procs[i].trace, key, from, until));
    MemoryIdsCount(s.memory, y.procs[i].trace, key, from, until);
  }

  /** One process's share: two limits, and one more for each eviction of the key. */
  lemma MemoryShare(s: Settings, y: System, key: string, limit: nat, windowSeconds: nat, from: int, until: int, i: nat,
                    evictions: seq<nat>)
    requires Backed(s, y) && SystemUses(y, key, limit, windowSeconds) && i < |y.procs|
    requires until <= from + windowSeconds * 1000
    requires EvictedAtMost(s.memory, y.procs, key, from, until, evictions)
    ensures |FromMemoryIds(y, key, from, until, i)| <= Quota(2 + evictions[i], limit)
  {
    MemoryCount(s, y, key, from, until, i);
    TraceShare(s, y.procs, y.now, key, limit, windowSeconds, from, until, i, evictions);
  }

  lemma UpToSplits(y: System, key: string, from: int, until: int, n: nat)
    ensures AdmittedUpTo(y, key, from, until, 0) <= FromRedisIds(y, key, from, until)
    ensures n > 0 ==>
      AdmittedUpTo(y, key, from, until, n)
      <= AdmittedUpTo(y, key, from, until, n - 1) + FromMemoryIds(y, key, from, until, n - 1)
  {
  }

  lemma SharesAdd(all: set<nat>, before: set<nat>, more: set<nat>, windows: nat, extra: nat, limit: nat)
    requires all <= before + more && |before| <= Quota(windows, limit) && |more| <= Quota(extra, limit)
    ensures |all| <= Quota(windows + extra, limit)
  {
    SubsetCount(all, before + more);
    UnionCount(before, more);
    QuotaAdds(windows, extra, limit);
  }

  lemma OneMoreShare(y: System, key: string, limit: nat, from: int, until: int, evictions: seq<nat>, n: nat)
    requires 0 < n <= |evictions|
    requires |AdmittedUpTo(y, key, from, until, n - 1)| <= Quota(Windows(evictions, n - 1), limit)
    requires |FromMemoryIds(y, key, from, until, n - 1)| <= Quota(2 + evictions[n - 1], limit)
    ensures |AdmittedUpTo(y, key, from, until, n)| <= Quota(Windows(evictions, n), limit)
  {
    UpToSplits(y, key, from, until, n);
    SharesAdd(AdmittedUpTo(y, key, from, until, n), AdmittedUpTo(y, key, from, until, n - 1),
              FromMemoryIds(y, key, from, until, n - 1), Windows(evictions, n - 1), 2 + evictions[n - 1], limit);
  }

  lemma FirstShare(s: Settings, y: System, key: string, limit: nat, windowSeconds: nat, from: int, until: int)
    requires Backed(s, y) && SystemUses(y, key, limit, windowSeconds)
    requires until <= from + windowSeconds * 1000
    ensures |AdmittedUpTo(y, key, from, until, 0)| <= Quota(2, limit)
  {
    RedisShare(s, y, key, limit, windowSeconds, from, until);
    UpToSplits(y, key, from, until, 0);
    SubsetCount(AdmittedUpTo(y, key, from, until, 0), FromRedisIds(y, key, from, until));
  }

  /** Every process keeps to its share. */
  ghost predicate SharesKept(y: System, key: string, limit: nat, from: int, until: int, evictions: seq<nat>) {
    forall i: nat {:trigger FromMemoryIds(y, key, from, until, i)} :: i < |evictions| ==>
      |FromMemoryIds(y, key, from, until, i)| <= Quota(2 + evictions[i], limit)
  }

  lemma AllKeepShares(s: Settings, y: System, key: string, limit: nat, windowSeconds: nat, from: int, until: int,
                      evictions: seq<nat>)
    requires Backed(s, y) && SystemUses(y, key, limit, windowSeconds)
    requires until <= from + windowSeconds * 1000
    requires EvictedAtMost(s.memory, y.procs, key, from, until, evictions)
    ensures SharesKept(y, key, limit, from, until, evictions)
  {
    forall i: nat | i < |evictions| ensures |FromMemoryIds(y, key, from, until, i)| <= Quota(2 + evictions[i], limit) {
      MemoryShare(s, y, key, limit, windowSeconds, from, until, i, evictions);
    }
  }

  /** Shares of two limits and one more per eviction add up. */
  lemma {:induction false} SharesUpTo(y: System, key: string, limit: nat, from: int, until: int, evictions: seq<nat>,
                                      n: nat)
    requires n <= |evictions| && SharesKept(y, key, limit, from, until, evictions)
    requires |AdmittedUpTo(y, key, from, until, 0)| <= Quota(2, limit)
    ensures |AdmittedUpTo(y, key, from, until, n)| <= Quota(Windows(evictions, n), limit)
  {
    if n == 0 {
    } else {
      SharesUpTo(y, key, limit, from, until, evictions, n - 1);
      assert |FromMemoryIds(y, key, from, until, n - 1)| <= Quota(2 + evictions[n - 1], limit);
      OneMoreShare(y, key, limit, from, until, evictions, n);
    }
  }

  /** Every admitted request was granted by Redis or by the memory of some process. */
  lemma AllUpTo(s: Settings, y: System, key: string, from: int, until: int)
    requires Backed(s, y)
    ensures AdmittedIds(y, key, from, until) == AdmittedUpTo(y, key, from, until, |y.procs|)
  {
    forall id | id in AdmittedIds(y, key, from, until) ensures id in AdmittedUpTo(y, key, from, until, |y.procs|) {
      assert SettlementBacked(s, y.log, y.procs, id, y.settled[id]);
    }
  }

  /** What the backends of a system grant together. */
  lemma BackendsBound(s: Settings, y: System, key: string, limit: nat, windowSeconds: nat, from: int, until: int,
                      evictions: seq<nat>)
    requires Backed(s, y) && SystemUses(y, key, limit, windowSeconds)
    requires until <= from + windowSeconds * 1000
    requires EvictedAtMost(s.memory, y.procs, key, from, until, evictions)
    ensures |AdmittedIds(y, key, from, until)| <= Quota(Windows(evictions, |evictions|), limit)
  {
    AllUpTo(s, y, key, from, until);
    FirstShare(s, y, key, limit, windowSeconds, from, until);
    AllKeepShares(s, y, key, limit, windowSeconds, from, until, evictions);
    SharesUpTo(y, key, limit, from, until, evictions, |evictions|);
  }

  lemma RunBound(s: Settings, healthy: seq<bool>, now: int, labels: seq<Label>,
                 key: string, limit: nat, windowSeconds: nat, from: int, until: int, evictions: seq<nat>)
    requires LabelsUse(labels, key, limit, windowSeconds)
    requires until <= from + windowSeconds * 1000
    requires EvictedAtMost(s.memory, RunOf(s, Start(s, healthy, now), labels).procs, key, from, until, evictions)
    ensures |AdmittedIds(RunOf(s, Start(s, healthy, now), labels), key, from, until)|
         <= Quota(Windows(evictions, |evictions|), limit)
  {
    RunBacked(s, healthy, now, labels);
    RunUses(s, healthy, now, labels, key, limit, windowSeconds);
    BackendsBound(s, RunOf(s, Start(s, healthy, now), labels), key, limit, windowSeconds, from, until, evictions);
  }

  lemma AsProduct(evictions: seq<nat>, limit: nat, admitted: nat)
    requires admitted <= Quota(Windows(evictions, |evictions|), limit)
    ensures admitted <= (2 * (|evictions| + 1) + Sum(evictions, |evictions|)) * limit
  {
    WindowsCounted(evictions, |evictions|);
    QuotaIsProduct(2 * (|evictions| + 1) + Sum(evictions, |evictions|), limit);
  }

  /**
    Main result. In every run, with any interleaving and any Redis failures, the requests of a key
    admitted by N processes within any half-open window number at most 2 * (N + 1) * limit, plus one
    limit for every time some process evicted the key from its memory inside the window.
  */
  lemma SystemBound(s: Settings, healthy: seq<bool>, now: int, labels: seq<Label>,
                    key: string, limit: nat, windowSeconds: nat, from: int, until: int, evictions: seq<nat>)
    requires LabelsUse(labels, key, limit, windowSeconds)
    requires until <= from + windowSeconds * 1000
    requires EvictedAtMost(s.memory, RunOf(s, Start(s, healthy, now), labels).procs, key, from, until, evictions)
    ensures |AdmittedIds(RunOf(s, Start(s, healthy, now), labels), key, from, until)|
         <= (2 * (|evictions| + 1) + Sum(evictions, |evictions|)) * limit
  {
    RunBound(s, healthy, now, labels, key, limit, windowSeconds, from, until, evictions);
    AsProduct(evictions, limit, |AdmittedIds(RunOf(s, Start(s, healthy, now), labels), key, from, until)|);
  }

  lemma {:induction false} SumOfNothing(ns: seq<nat>, n: nat)
    requires n <= |ns| && forall i :: 0 <= i < n ==> ns[i] == 0
    ensures Sum(ns, n) == 0
  {
    if n == 0 {
    } else {
      SumOfNothing(ns, n - 1);
    }
  }

  /** The bound while no process evicts the key: 2 * (N + 1) * limit. */
  lemma SystemBoundWithoutEvictions(s: Settings, healthy: seq<bool>, now: int, labels: seq<Label>,
                                    key: string, limit: nat, windowSeconds: nat, from: int, until: int)
    requires LabelsUse(labels, key, limit, windowSeconds)
    requires until <= from + windowSeconds * 1000
    requires var y := RunOf(s, Start(s, healthy, now), labels);
      forall i :: 0 <= i < |y.procs| ==> Evictions(s.memory, y.procs[i].trace, key, from, until) == 0
    ensures var y := RunOf(s, Start(s, healthy, now), labels);
      |AdmittedIds(y, key, from, until)| <= 2 * (|y.procs| + 1) * limit
  {
    var evictions: seq<nat> := seq(|RunOf(s, Start(s, healthy, now), labels).procs|, i => 0);
    SystemBound(s, healthy, now, labels, key, limit, windowSeconds, from, until, evictions);
    SumOfNothing(evictions, |evictions|);
  }

  /**
    Every request a run admits was granted by exactly the one counter its settlement names: an INCR of
    its own whose count did not exceed the limit, or a consume of its own the process's memory allowed.
  */
  lemma AdmittedByOneCounter(s: Settings, healthy: seq<bool>, now: int, labels: seq<Label>, id: nat)
    requires var y := RunOf(s, Start(s, healthy, now), labels);
      id in y.settled && y.settled[id].answer == Answer.Allowed
    ensures var y := RunOf(s, Start(s, healthy, now), labels);
      var x := y.settled[id];
      match x.source
      case FromRedis(index) =>
        && index < |y.log| && y.log[index] == Incr(id, x.params, y.log[index].now)
        && IncrReply(Replay(y.log[..index]), x.params.key, y.log[index].now) <= x.params.limit
      case FromMemory(index) =>
        && x.proc < |y.procs| && index < |y.procs[x.proc].trace|
        && y.procs[x.proc].trace[index] == Request(id, x.params, y.procs[x.proc].trace[index].now)
        && MemoryRateLimiter.Allowed(s.memory, y.procs[x.proc].trace, index)
      case FailClosed => false
  {
    RunBacked(s, healthy, now, labels);
    var y := RunOf(s, Start(s, healthy, now), labels);
    assert SettlementBacked(s, y.log, y.procs, id, y.settled[id]);
  }
}
