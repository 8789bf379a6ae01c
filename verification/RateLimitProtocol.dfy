/**
  The two-step Redis protocol across processes: who may still have an EXPIRE to deliver, where a late
  one lands, and that a request is settled once.
*/
module RateLimitProtocol {
  import opened Options
  import opened RedisRateLimiter
  import opened ResilientRateLimiter
  import opened RateLimitProcess
  import opened RateLimitSystem

  // ---------------------------------------------------------------------------------------------
  // Requests keep their identity
  // ---------------------------------------------------------------------------------------------

  /** No two processes hold one request, and a request in flight is not settled yet. */
  ghost predicate Distinct(y: System) {
    && (forall i, id :: 0 <= i < |y.procs| && id in y.procs[i].tasks ==> id < y.nextId)
    && (forall i, id :: 0 <= i < |y.procs| && id in y.procs[i].tasks ==> id !in y.settled)
    && (forall i, j, id :: 0 <= i < j < |y.procs| && id in y.procs[i].tasks ==> id !in y.procs[j].tasks)
    && (forall id :: id in y.settled ==> id < y.nextId)
  }

  /** The request an input is about. */
  function Subject(input: Input): Option<nat> {
    if input.TimerFired? then None else Some(input.id)
  }

  /** A segment touches one request only, and settles it by taking it out of flight. */
  lemma ReactLocal(s: Settings, pr: Process, now: int, input: Input)
    ensures var r := React(s, pr, now, input);
      && (forall id :: Subject(input) != Some(id) ==>
            (id in r.process.tasks <==> id in pr.tasks) && (id in pr.tasks ==> r.process.tasks[id] == pr.tasks[id]))
      && (forall id :: id in r.process.tasks ==> id in pr.tasks || (input.Arrive? && input.id == id))
      && (r.verdict.Some? ==>
            && Subject(input) == Some(r.verdict.value.id)
            && r.verdict.value.id !in r.process.tasks
            && (input.Arrive? || r.verdict.value.id in pr.tasks))
  {
  }

  lemma DeliverDistinct(s: Settings, y: System, i: nat, input: Input)
    requires Distinct(y) && i < |y.procs|
    requires input.Arrive? ==> input.id == y.nextId
    ensures var z := Deliver(s, y, i, input).(nextId := if input.Arrive? then y.nextId + 1 else y.nextId);
      && Distinct(z)
      && forall id :: id in y.settled ==> id in z.settled && z.settled[id] == y.settled[id]
  {
    ReactLocal(s, y.procs[i], y.now, input);
  }

  function InputOf(y: System, l: Label): Input
    requires !l.Tick? && l.proc < |y.procs|
  {
    match l
    case Arrival(_, p) => Arrive(y.nextId, p)
    case ExecIncr(i, id) =>
      IncrExecuted(id, if At(y.procs[i], id) then IncrReply(Replay(y.log), y.procs[i].tasks[id].params.key, y.now)
        else 0, |y.log|)
    case ExecExpire(_, id) => ExpireExecuted(id)
    case ReplyIncr(_, id) => IncrReplied(id)
    case ReplyExpire(_, id) => ExpireReplied(id)
    case Fail(_, id) => CallFailed(id)
    case Resume(_, id) => Resumed(id)
    case Cleanup(_) => TimerFired
  }

  /** The command, if any, the server executes in a step. */
  function CommandOf(y: System, l: Label): Option<Command>
    requires !l.Tick? && l.proc < |y.procs|
  {
    var pr := y.procs[l.proc];
    if l.ExecIncr? && Waits(pr, l.id, IncrSent) then Some(Incr(l.id, pr.tasks[l.id].params, y.now))
    else if l.ExecExpire? && WaitsForExpire(pr, l.id) then Some(Expire(l.id, pr.tasks[l.id].params, y.now))
    else None
  }

  /** Every step that is not a tick delivers one input and appends at most one command to the log. */
  lemma StepIsDelivery(s: Settings, y: System, l: Label)
    requires !l.Tick? && l.proc < |y.procs|
    ensures var log := match CommandOf(y, l) case Some(cmd) => y.log + [cmd] case None => y.log;
      Step(s, y, l)
      == Deliver(s, y, l.proc, InputOf(y, l)).(log := log, nextId := if l.Arrival? then y.nextId + 1 else y.nextId)
  {
    var pr := y.procs[l.proc];
    if (l.ExecIncr? || l.ExecExpire?) && CommandOf(y, l).None? {
      assert React(s, pr, y.now, InputOf(y, l)) == Stay(pr);
      assert y.procs[l.proc := pr] == y.procs;
    }
  }

  /** A request is settled at most once: no step changes an answer already given. */
  lemma StepSettlesOnce(s: Settings, y: System, l: Label)
    requires Distinct(y)
    ensures Distinct(Step(s, y, l))
    ensures forall id :: id in y.settled ==> id in Step(s, y, l).settled && Step(s, y, l).settled[id] == y.settled[id]
  {
    if l.Tick? || l.proc >= |y.procs| {
    } else {
      StepIsDelivery(s, y, l);
      DeliverDistinct(s, y, l.proc, InputOf(y, l));
    }
  }

  lemma {:induction false} RunDistinct(s: Settings, healthy: seq<bool>, now: int, labels: seq<Label>)
    ensures Distinct(RunOf(s, Start(s, healthy, now), labels))
  {
    if labels == [] {
    } else {
      RunDistinct(s, healthy, now, labels[..|labels| - 1]);
      StepSettlesOnce(s, RunOf(s, Start(s, healthy, now), labels[..|labels| - 1]), labels[|labels| - 1]);
    }
  }

  // ---------------------------------------------------------------------------------------------
  // Pending EXPIREs
  // ---------------------------------------------------------------------------------------------

  /** The request created a counter and its EXPIRE has not been executed. */
  ghost predicate OwesExpire(pr: Process, id: nat) {
    At(pr, id) && (pr.tasks[id].stage.ExpireSent? || (pr.tasks[id].stage.IncrDone? && pr.tasks[id].stage.count == 1))
  }

  /** The counter of key is the one request id created, still without an expiry. */
  ghost predicate Unexpiring(store: Store, key: string, id: nat) {
    && key in store
    && store[key].creator == id
    && store[key].expiresAt.None?
    && store[key].count >= 1
  }

  ghost predicate ExpiresOwed(y: System) {
    forall i, id :: 0 <= i < |y.procs| && OwesExpire(y.procs[i], id) ==>
      Unexpiring(Replay(y.log), y.procs[i].tasks[id].params.key, id)
  }

  /** Which requests owe an EXPIRE after a segment. */
  lemma ReactOwes(s: Settings, pr: Process, now: int, input: Input, id: nat)
    requires OwesExpire(React(s, pr, now, input).process, id)
    requires input.Arrive? ==> input.id !in pr.tasks
    ensures id in pr.tasks
    ensures React(s, pr, now, input).process.tasks[id].params == pr.tasks[id].params
    ensures OwesExpire(pr, id) || (input.IncrExecuted? && input.id == id && Waits(pr, id, IncrSent) && input.count == 1)
    ensures !(input.ExpireExecuted? && input.id == id && WaitsForExpire(pr, id))
  {
  }

  /** A command leaves alone the counters others owe an EXPIRE to. */
  lemma CommandKeepsUnexpiring(store: Store, cmd: Command, key: string, id: nat)
    requires Unexpiring(store, key, id)
    requires cmd.Expire? && cmd.params.key == key ==> false
    ensures Unexpiring(Execute(store, cmd), key, id)
  {
  }

  lemma {:induction false} CountsPositive(log: Log)
    ensures forall key :: key in Replay(log) ==> Replay(log)[key].count >= 1
  {
    if log == [] {
    } else {
      CountsPositive(Prefix(log));
    }
  }

  lemma StepExpiresOwed(s: Settings, y: System, l: Label)
    requires Distinct(y) && ExpiresOwed(y)
    ensures ExpiresOwed(Step(s, y, l))
  {
    if l.Tick? || l.proc >= |y.procs| {
    } else {
      StepIsDelivery(s, y, l);
      var z := Step(s, y, l);
      forall i, id | 0 <= i < |z.procs| && OwesExpire(z.procs[i], id)
        ensures Unexpiring(Replay(z.log), z.procs[i].tasks[id].params.key, id)
      {
        StillOwed(s, y, l, i, id);
      }
    }
  }

  lemma StillOwed(s: Settings, y: System, l: Label, i: nat, id: nat)
    requires Distinct(y) && ExpiresOwed(y)
    requires !l.Tick? && l.proc < |y.procs| && i < |y.procs|
    requires OwesExpire(Step(s, y, l).procs[i], id)
    ensures Unexpiring(Replay(Step(s, y, l).log), Step(s, y, l).procs[i].tasks[id].params.key, id)
  {
    StepIsDelivery(s, y, l);
    var z := Step(s, y, l);
    if i == l.proc {
      ReactOwes(s, y.procs[i], y.now, InputOf(y, l), id);
    }
    var key := y.procs[i].tasks[id].params.key;
    match CommandOf(y, l)
    case None =>
    case Some(cmd) =>
      ReplayExtended(y.log, cmd);
      if OwesExpire(y.procs[i], id) {
        if cmd.Expire? && cmd.params.key == key {
          // The sender owes an EXPIRE to this very counter, so it is the same request.
          assert OwesExpire(y.procs[l.proc], l.id);
          assert false;
        } else {
          CommandKeepsUnexpiring(Replay(y.log), cmd, key, id);
        }
      } else {
        CountsPositive(y.log);
      }
  }

  lemma {:induction false} RunExpiresOwed(s: Settings, healthy: seq<bool>, now: int, labels: seq<Label>)
    ensures ExpiresOwed(RunOf(s, Start(s, healthy, now), labels))
  {
    if labels == [] {
    } else {
      RunDistinct(s, healthy, now, labels[..|labels| - 1]);
      RunExpiresOwed(s, healthy, now, labels[..|labels| - 1]);
      StepExpiresOwed(s, RunOf(s, Start(s, healthy, now), labels[..|labels| - 1]), labels[|labels| - 1]);
    }
  }

  /** In every run at most one EXPIRE per key is outstanding, over all processes together. */
  lemma OneExpireOutstanding(s: Settings, healthy: seq<bool>, now: int, labels: seq<Label>, i: nat, a: nat, j: nat,
                             b: nat)
    requires var y := RunOf(s, Start(s, healthy, now), labels);
      && i < |y.procs| && j < |y.procs|
      && OwesExpire(y.procs[i], a) && OwesExpire(y.procs[j], b)
      && y.procs[i].tasks[a].params.key == y.procs[j].tasks[b].params.key
    ensures i == j && a == b
  {
    RunExpiresOwed(s, healthy, now, labels);
    RunDistinct(s, healthy, now, labels);
  }

  /**
    However late it is executed, an EXPIRE lands on the counter its own request created, never on a
    later one, and gives that counter a full window from then on.
  */
  lemma ExpireLandsOnOwnCounter(s: Settings, healthy: seq<bool>, now: int, labels: seq<Label>, i: nat, id: nat)
    requires var y := RunOf(s, Start(s, healthy, now), labels);
      i < |y.procs| && WaitsForExpire(y.procs[i], id)
    ensures var y := RunOf(s, Start(s, healthy, now), labels);
      var p := y.procs[i].tasks[id].params;
      var store, store' := Replay(y.log), Replay(Step(s, y, ExecExpire(i, id)).log);
      && p.key in store && store[p.key].creator == id && store[p.key].expiresAt.None?
      && store' == store[p.key := store[p.key].(expiresAt := Some(y.now + p.windowSeconds * 1000))]
  {
    RunExpiresOwed(s, healthy, now, labels);
    var y := RunOf(s, Start(s, healthy, now), labels);
    assert OwesExpire(y.procs[i], id);
    ReplayExtended(y.log, Expire(id, y.procs[i].tasks[id].params, y.now));
  }

  /** A counter whose EXPIRE was lost is there for good: no request owes it one, and none ever will. */
  ghost predicate Immortal(y: System, key: string) {
    && key in Replay(y.log) && Replay(y.log)[key].expiresAt.None?
    && forall i, id :: 0 <= i < |y.procs| && OwesExpire(y.procs[i], id) ==> y.procs[i].tasks[id].params.key != key
  }

  /** A counter nobody owes an EXPIRE to gets no new debtor: only its creator could become one. */
  lemma NoNewDebtor(s: Settings, y: System, l: Label, key: string, i: nat, id: nat)
    requires Distinct(y) && Immortal(y, key) && Replay(y.log)[key].count >= 1
    requires !l.Tick? && l.proc < |y.procs| && i < |y.procs|
    requires OwesExpire(Step(s, y, l).procs[i], id)
    ensures Step(s, y, l).procs[i].tasks[id].params.key != key
  {
    StepIsDelivery(s, y, l);
    if i == l.proc {
      ReactOwes(s, y.procs[i], y.now, InputOf(y, l), id);
    }
  }

  lemma CommandOnImmortal(y: System, l: Label, key: string)
    requires Immortal(y, key) && !l.Tick? && l.proc < |y.procs| && CommandOf(y, l).Some?
    ensures var store := Replay(y.log + [CommandOf(y, l).value]);
      && key in store && store[key].expiresAt.None?
      && store[key].count >= Replay(y.log)[key].count && store[key].creator == Replay(y.log)[key].creator
  {
    ReplayExtended(y.log, CommandOf(y, l).value);
    assert CommandOf(y, l).value.Expire? ==> OwesExpire(y.procs[l.proc], l.id);
  }

  lemma StepImmortal(s: Settings, y: System, l: Label, key: string)
    requires Distinct(y) && Immortal(y, key) && Replay(y.log)[key].count >= 1
    ensures Immortal(Step(s, y, l), key)
    ensures Replay(Step(s, y, l).log)[key].count >= Replay(y.log)[key].count
    ensures Replay(Step(s, y, l).log)[key].creator == Replay(y.log)[key].creator
  {
    if l.Tick? || l.proc >= |y.procs| {
    } else {
      StepIsDelivery(s, y, l);
      var z := Step(s, y, l);
      if CommandOf(y, l).Some? {
        CommandOnImmortal(y, l, key);
      }
      forall i, id | 0 <= i < |z.procs| && OwesExpire(z.procs[i], id)
        ensures z.procs[i].tasks[id].params.key != key
      {
        NoNewDebtor(s, y, l, key, i, id);
      }
    }
  }

  lemma {:induction false} RunImmortal(s: Settings, y: System, labels: seq<Label>, key: string)
    requires Distinct(y) && ExpiresOwed(y) && Immortal(y, key)
    ensures var z := RunOf(s, y, labels);
      && Distinct(z) && ExpiresOwed(z) && Immortal(z, key)
      && Replay(z.log)[key].count >= Replay(y.log)[key].count
  {
    if labels == [] {
    } else {
      RunImmortal(s, y, labels[..|labels| - 1], key);
      var z, l := RunOf(s, y, labels[..|labels| - 1]), labels[|labels| - 1];
      CountsPositive(z.log);
      StepSettlesOnce(s, z, l);
      StepExpiresOwed(s, z, l);
      StepImmortal(s, z, l, key);
    }
  }

  /**
    The price of a lost EXPIRE, in every run: once no request owes the counter its EXPIRE any more and
    it has reached the limit, Redis denies the key at every later moment, whatever happens in between.
  */
  lemma LostExpireDeniesForever(s: Settings, healthy: seq<bool>, now: int, labels: seq<Label>, more: seq<Label>,
                                cmd: Command)
    requires var y := RunOf(s, Start(s, healthy, now), labels);
      Immortal(y, cmd.params.key) && Replay(y.log)[cmd.params.key].count >= cmd.params.limit
    ensures !Admits(Replay(RunOf(s, RunOf(s, Start(s, healthy, now), labels), more).log), cmd)
  {
    RunDistinct(s, healthy, now, labels);
    RunExpiresOwed(s, healthy, now, labels);
    RunImmortal(s, RunOf(s, Start(s, healthy, now), labels), more, cmd.params.key);
  }
}
