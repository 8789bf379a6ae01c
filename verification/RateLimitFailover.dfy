/**
  What becomes of a request: who answers it, over every run. Refused outright are exactly the requests
  whose own Redis call failed while fallback is disabled; with fallback the process's memory answers in
  that very segment. In fallback a process tries Redis again as soon as the cooldown is over, not earlier.
*/
module RateLimitFailover {
  import opened Options
  import opened MemoryRateLimiter
  import opened RedisRateLimiter
  import opened ResilientRateLimiter
  import opened RateLimitProcess
  import opened RateLimitSystem
  import opened RateLimitBound
  import P = RateLimitProtocol

  // ---------------------------------------------------------------------------------------------
  // Which steps settle a request
  // ---------------------------------------------------------------------------------------------

  /** The Redis call of request id fails, and it was not made as a probe. */
  predicate PrimaryFails(y: System, l: Label, id: nat) {
    && l.Fail? && l.id == id && l.proc < |y.procs|
    && At(y.procs[l.proc], id) && y.procs[l.proc].tasks[id].probe.None?
  }

  /** The request goes on in memory, after a probe that failed or because none was due. */
  predicate GoesOnInMemory(y: System, l: Label, id: nat) {
    && l.Resume? && l.id == id && l.proc < |y.procs|
    && id in y.procs[l.proc].tasks && y.procs[l.proc].tasks[id].AwaitMemory?
  }

  predicate ArrivesInMemory(s: Settings, y: System, l: Label, id: nat) {
    l.Arrival? && id == y.nextId && l.proc < |y.procs| && s.driver == MemoryDriver
  }

  /** The last reply a request waits for: to its INCR, or to its EXPIRE if its INCR created the counter. */
  predicate LastReply(y: System, l: Label, id: nat) {
    && (l.ReplyIncr? || l.ReplyExpire?) && l.id == id && l.proc < |y.procs| && At(y.procs[l.proc], id)
    && var stage := y.procs[l.proc].tasks[id].stage;
       if l.ReplyIncr? then stage.IncrDone? && stage.count != 1 else stage.ExpireDone?
  }

  /** What an input settles, for the process that takes it. */
  ghost predicate Verdicts(s: Settings, pr: Process, input: Input, r: Reaction) {
    var own := !input.TimerFired?;
    var failed := input.CallFailed? && At(pr, input.id) && pr.tasks[input.id].probe.None?;
    var memory := || (failed && s.fallbackEnabled)
                  || (input.Resumed? && input.id in pr.tasks && pr.tasks[input.id].AwaitMemory?)
                  || (input.Arrive? && input.id !in pr.tasks && s.driver == MemoryDriver);
    var replied := || (input.IncrReplied? && At(pr, input.id) && pr.tasks[input.id].stage.IncrDone?
                       && pr.tasks[input.id].stage.count != 1)
                   || (input.ExpireReplied? && At(pr, input.id) && pr.tasks[input.id].stage.ExpireDone?);
    && (r.verdict.Some? <==> failed || memory || replied)
    && (r.verdict.Some? ==> own && r.verdict.value.id == input.id)
    && (failed && !s.fallbackEnabled ==> r.verdict.value.source == FailClosed && r.verdict.value.answer == Unavailable)
    && (memory ==> r.verdict.value.source == FromMemory(|pr.trace|))
    && (replied ==> r.verdict.value.source.FromRedis?)
  }

  lemma ReactVerdicts(s: Settings, pr: Process, now: int, input: Input)
    ensures Verdicts(s, pr, input, React(s, pr, now, input))
  {
  }

  /** Who answers the request a step settles. */
  lemma StepSettles(s: Settings, y: System, l: Label, id: nat)
    requires P.Distinct(y) && id !in y.settled
    ensures var z := Step(s, y, l);
      && (id in z.settled <==>
            PrimaryFails(y, l, id) || GoesOnInMemory(y, l, id) || ArrivesInMemory(s, y, l, id) || LastReply(y, l, id))
      && (PrimaryFails(y, l, id) && !s.fallbackEnabled ==> z.settled[id].source == FailClosed)
      && ((PrimaryFails(y, l, id) && s.fallbackEnabled) || GoesOnInMemory(y, l, id) || ArrivesInMemory(s, y, l, id) ==>
            z.settled[id].source == FromMemory(|y.procs[l.proc].trace|) && z.settled[id].proc == l.proc)
      && (LastReply(y, l, id) ==> z.settled[id].source.FromRedis?)
  {
    if !l.Tick? && l.proc < |y.procs| {
      P.StepIsDelivery(s, y, l);
      ReactVerdicts(s, y.procs[l.proc], y.now, P.InputOf(y, l));
      ReactAnswers(s, y.procs[l.proc], y.now, P.InputOf(y, l));
      DeliverSettles(s, y, l, P.InputOf(y, l), id);
    }
  }

  lemma ReactAnswers(s: Settings, pr: Process, now: int, input: Input)
    ensures var r := React(s, pr, now, input);
      r.verdict.Some? ==> P.Subject(input) == Some(r.verdict.value.id)
  {
    P.ReactLocal(s, pr, now, input);
  }

  lemma DeliverSettles(s: Settings, y: System, l: Label, input: Input, id: nat)
    requires !l.Tick? && l.proc < |y.procs| && id !in y.settled
    ensures var z, r := Deliver(s, y, l.proc, input), React(s, y.procs[l.proc], y.now, input);
      && (id in z.settled <==> r.verdict.Some? && r.verdict.value.id == id)
      && (id in z.settled ==> z.settled[id].source == r.verdict.value.source && z.settled[id].proc == l.proc)
  {
  }

  // ---------------------------------------------------------------------------------------------
  // Over every run
  // ---------------------------------------------------------------------------------------------

  /** At some moment of the run the request's own Redis call failed. */
  ghost predicate FailedPrimary(s: Settings, start: System, labels: seq<Label>, id: nat) {
    exists k: nat {:trigger PrimaryFails(RunOf(s, start, labels[..k]), labels[k], id)} ::
      k < |labels| && PrimaryFails(RunOf(s, start, labels[..k]), labels[k], id)
  }

  lemma FailedPrimaryGrows(s: Settings, start: System, labels: seq<Label>, id: nat)
    requires labels != []
    ensures var pre, l := labels[..|labels| - 1], labels[|labels| - 1];
      FailedPrimary(s, start, labels, id) <==>
        FailedPrimary(s, start, pre, id) || PrimaryFails(RunOf(s, start, pre), l, id)
  {
    var n: nat := |labels| - 1;
    var pre := labels[..n];
    if FailedPrimary(s, start, labels, id) {
      var k: nat :| k < |labels| && PrimaryFails(RunOf(s, start, labels[..k]), labels[k], id);
      if k < n {
        assert pre[..k] == labels[..k] && pre[k] == labels[k];
      }
    }
    if FailedPrimary(s, start, pre, id) {
      var k: nat :| k < |pre| && PrimaryFails(RunOf(s, start, pre[..k]), pre[k], id);
      assert pre[..k] == labels[..k] && pre[k] == labels[k];
    }
    if PrimaryFails(RunOf(s, start, pre), labels[n], id) {
      assert labels[..n] == pre;
    }
  }

  /** A request whose call failed is settled, so its call does not fail again. */
  ghost predicate ClosedAsFailed(s: Settings, start: System, labels: seq<Label>, id: nat) {
    var y := RunOf(s, start, labels);
    && (FailedPrimary(s, start, labels, id) ==> id in y.settled)
    && (id in y.settled ==>
          (y.settled[id].source == FailClosed <==> !s.fallbackEnabled && FailedPrimary(s, start, labels, id)))
    && (id in y.settled && FailedPrimary(s, start, labels, id) && s.fallbackEnabled ==>
       y.settled[id].source.FromMemory?)
  }

  lemma NextClosed(s: Settings, start: System, pre: seq<Label>, labels: seq<Label>, id: nat, y: System, l: Label)
    requires labels != [] && pre == labels[..|labels| - 1] && l == labels[|labels| - 1]
    requires y == RunOf(s, start, pre) && P.Distinct(y) && ClosedAsFailed(s, start, pre, id)
    ensures ClosedAsFailed(s, start, labels, id)
  {
    FailedPrimaryGrows(s, start, labels, id);
    P.StepSettlesOnce(s, y, l);
    if id in y.settled {
      if PrimaryFails(y, l, id) {
        assert false;
      }
    } else {
      StepSettles(s, y, l, id);
    }
  }

  /**
    Exactly who is refused, in every run: a request is answered by the fail-closed error if and only if
    its own Redis call failed, not made as a probe, and fallback is disabled. With fallback enabled such a
    request is answered by memory.
  */
  lemma {:induction false} RefusedIff(s: Settings, healthy: seq<bool>, now: int, labels: seq<Label>, id: nat)
    ensures ClosedAsFailed(s, Start(s, healthy, now), labels, id)
  {
    var start := Start(s, healthy, now);
    if labels == [] {
    } else {
      var n: nat := |labels| - 1;
      RefusedIff(s, healthy, now, labels[..n], id);
      P.RunDistinct(s, healthy, now, labels[..n]);
      NextClosed(s, start, labels[..n], labels, id, RunOf(s, start, labels[..n]), labels[n]);
    }
  }

  /** What a lone window counter, fed with the key's own requests to this memory, answers. */
  function LoneAnswer(c: Config, trace: Trace, p: Params, now: int): Answer {
    AnswerOf(CounterConsume(CounterRun(c, trace, p.key), p.limit, EffectiveWindowMs(c, p.windowSeconds), now).allowed)
  }

  /**
    Failover. In the segment in which a primary call fails, with fallback enabled, the request is answered
    by its process's memory: as a lone counter answers, as long as its key was not evicted there.
  */
  lemma FailedCallAnsweredFromMemory(s: Settings, healthy: seq<bool>, now: int, labels: seq<Label>, l: Label, id: nat)
    requires s.fallbackEnabled && PrimaryFails(RunOf(s, Start(s, healthy, now), labels), l, id)
    ensures var y := RunOf(s, Start(s, healthy, now), labels);
      var z, pr, p := Step(s, y, l), y.procs[l.proc], y.procs[l.proc].tasks[id].params;
      && id in z.settled && z.settled[id].source == FromMemory(|pr.trace|)
      && (NeverEvicted(s.memory, pr.trace, p.key) ==> z.settled[id].answer == LoneAnswer(s.memory, pr.trace, p, y.now))
      && z.procs[l.proc].state.mode == MemoryFallback
  {
    var y := RunOf(s, Start(s, healthy, now), labels);
    P.RunDistinct(s, healthy, now, labels);
    StepSettles(s, y, l, id);
    RunBacked(s, healthy, now, labels);
    StepBacked(s, y, l);
    FailedCallGrowsTrace(s, y, l, id);
    var z, pr, p := Step(s, y, l), y.procs[l.proc], y.procs[l.proc].tasks[id].params;
    var trace := z.procs[l.proc].trace;
    assert SettlementBacked(s, z.log, z.procs, id, z.settled[id]);
    assert TraceBacked(s, z.now, z.procs[l.proc]);
    assert trace[..|pr.trace|] == pr.trace;
    if NeverEvicted(s.memory, pr.trace, p.key) {
      DecisionsMatchCounter(s.memory, trace, |pr.trace|);
    }
  }

  lemma FailedCallGrowsTrace(s: Settings, y: System, l: Label, id: nat)
    requires s.fallbackEnabled && PrimaryFails(y, l, id)
    ensures var z, pr := Step(s, y, l), y.procs[l.proc];
      && z.procs[l.proc].trace == pr.trace + [Request(id, pr.tasks[id].params, y.now)]
      && z.procs[l.proc].state.mode == MemoryFallback && z.log == y.log && |z.procs| == |y.procs|
  {
  }

  // ---------------------------------------------------------------------------------------------
  // Where an arrival goes
  // ---------------------------------------------------------------------------------------------

  /** A probe of the process is in flight. */
  ghost predicate Probing(pr: Process) {
    exists id :: At(pr, id) && pr.tasks[id].probe.Some?
  }

  lemma ProbingIffFlag(s: Settings, pr: Process, now: int)
    requires ProbeDiscipline(s, pr, now)
    ensures Probing(pr) <==> pr.state.probeInProgress
  {
    if pr.state.probeInProgress {
      assert At(pr, pr.probeTask.value);
    }
  }

  /** In fallback the next probe is never more than a cooldown away. */
  ghost predicate DueSoon(s: Settings, pr: Process, now: int) {
    pr.state.mode == MemoryFallback ==> pr.state.nextProbeAt <= now + s.probeCooldownMs
  }

  lemma BootDue(s: Settings, redisHealthy: bool, now: int)
    ensures DueSoon(s, Boot(s, redisHealthy, now), now)
  {
  }

  lemma ReactDue(s: Settings, pr: Process, now: int, input: Input)
    requires ProbeDiscipline(s, pr, now) && DueSoon(s, pr, now)
    ensures DueSoon(s, React(s, pr, now, input).process, now)
  {
  }

  ghost predicate AllDueSoon(s: Settings, y: System) {
    forall i :: 0 <= i < |y.procs| ==> DueSoon(s, y.procs[i], y.now)
  }

  lemma StepDue(s: Settings, y: System, l: Label)
    requires AllDisciplined(s, y) && AllDueSoon(s, y)
    ensures AllDueSoon(s, Step(s, y, l))
  {
    if !l.Tick? && l.proc < |y.procs| {
      P.StepIsDelivery(s, y, l);
      assert ProbeDiscipline(s, y.procs[l.proc], y.now) && DueSoon(s, y.procs[l.proc], y.now);
      ReactDue(s, y.procs[l.proc], y.now, P.InputOf(y, l));
    }
  }

  lemma {:induction false} RunDue(s: Settings, healthy: seq<bool>, now: int, labels: seq<Label>)
    requires 0 <= now
    ensures AllDueSoon(s, RunOf(s, Start(s, healthy, now), labels))
  {
    if labels == [] {
    } else {
      var n: nat := |labels| - 1;
      RunDue(s, healthy, now, labels[..n]);
      RunDisciplined(s, healthy, now, labels[..n]);
      StepDue(s, RunOf(s, Start(s, healthy, now), labels[..n]), labels[n]);
    }
  }

  /** Where an arrival goes: memory, Redis, or in fallback one probe at a time and otherwise memory. */
  lemma ArrivalGoes(s: Settings, y: System, i: nat, p: Params)
    requires AllDisciplined(s, y) && P.Distinct(y) && i < |y.procs|
    ensures var z, pr := Step(s, y, Arrival(i, p)), y.procs[i];
      && (s.driver == MemoryDriver ==> y.nextId in z.settled && z.settled[y.nextId].source.FromMemory?)
      && (s.driver == RedisDriver ==> y.nextId in z.procs[i].tasks)
      && (s.driver == RedisDriver && pr.state.mode == RedisPrimary ==>
            z.procs[i].tasks[y.nextId] == AwaitRedis(p, None, IncrSent))
      && (s.driver == RedisDriver && pr.state.mode == MemoryFallback ==>
            z.procs[i].tasks[y.nextId] in {AwaitMemory(p), AwaitRedis(p, Some(y.now), IncrSent)}
            && (Probing(pr) ==> z.procs[i].tasks[y.nextId] == AwaitMemory(p)))
  {
    assert ProbeDiscipline(s, y.procs[i], y.now);
    ProbingIffFlag(s, y.procs[i], y.now);
  }

  // ---------------------------------------------------------------------------------------------
  // Trying Redis again
  // ---------------------------------------------------------------------------------------------

  /**
    A probe is sent: in every run, a process in fallback that is not probing probes with the next request a cooldown
    later.
  */
  lemma ProbeIsSent(s: Settings, healthy: seq<bool>, now: int, labels: seq<Label>, i: nat, p: Params, ms: nat)
    requires 0 <= now && s.driver == RedisDriver && ms >= s.probeCooldownMs
    requires var y := RunOf(s, Start(s, healthy, now), labels);
      i < |y.procs| && y.procs[i].state.mode == MemoryFallback && !Probing(y.procs[i])
    ensures var y := RunOf(s, Start(s, healthy, now), labels);
      var z := Step(s, Step(s, y, Tick(ms)), Arrival(i, p));
      && y.nextId in z.procs[i].tasks
      && z.procs[i].tasks[y.nextId] == AwaitRedis(p, Some(y.now + ms), IncrSent)
  {
    var y := RunOf(s, Start(s, healthy, now), labels);
    RunDisciplined(s, healthy, now, labels);
    RunDue(s, healthy, now, labels);
    P.RunDistinct(s, healthy, now, labels);
    assert ProbeDiscipline(s, y.procs[i], y.now) && DueSoon(s, y.procs[i], y.now);
    ProbingIffFlag(s, y.procs[i], y.now);
    DueProbes(s, Step(s, y, Tick(ms)), i, p);
  }

  lemma DueProbes(s: Settings, y: System, i: nat, p: Params)
    requires s.driver == RedisDriver && i < |y.procs| && y.nextId !in y.procs[i].tasks
    requires y.procs[i].state.mode == MemoryFallback && !y.procs[i].state.probeInProgress
    requires y.procs[i].state.nextProbeAt <= y.now
    ensures var z := Step(s, y, Arrival(i, p));
      y.nextId in z.procs[i].tasks && z.procs[i].tasks[y.nextId] == AwaitRedis(p, Some(y.now), IncrSent)
  {
  }

  /** The rest of a probe that Redis answers, and EXPIRE after an INCR that created the counter. */
  function ProbeAnswered(i: nat, id: nat, created: bool): seq<Label> {
    [ExecIncr(i, id), ReplyIncr(i, id)] + if created then [ExecExpire(i, id), ReplyExpire(i, id)] else []
  }

  /** A probe that Redis answers restores it, and the request has Redis's answer. */
  lemma AnsweredProbeRestores(s: Settings, y: System, i: nat, id: nat)
    requires i < |y.procs| && Waits(y.procs[i], id, IncrSent) && y.procs[i].tasks[id].probe.Some?
    ensures var count := IncrReply(Replay(y.log), y.procs[i].tasks[id].params.key, y.now);
      var z := RunOf(s, y, ProbeAnswered(i, id, count == 1));
      && |z.procs| == |y.procs| && z.procs[i].state.mode == RedisPrimary
      && id in z.settled && z.settled[id].source == FromRedis(|y.log|)
      && z.settled[id].answer == AnswerOf(count <= y.procs[i].tasks[id].params.limit)
  {
    var count := IncrReply(Replay(y.log), y.procs[i].tasks[id].params.key, y.now);
    var t := y.procs[i].tasks[id];
    var executed := Step(s, y, ExecIncr(i, id));
    ProbeSteps(s, y, i, id);
    assert executed.procs[i].tasks[id] == t.(stage := IncrDone(count, |y.log|));
    AnsweredSteps(s, executed, i, id, t.params.limit, count, |y.log|);
  }

  lemma AnsweredSteps(s: Settings, y: System, i: nat, id: nat, limit: nat, count: nat, index: nat)
    requires i < |y.procs| && Waits(y.procs[i], id, IncrDone(count, index))
    requires y.procs[i].tasks[id].probe.Some? && y.procs[i].tasks[id].params.limit == limit
    ensures var replied := Step(s, y, ReplyIncr(i, id));
      var z := if count == 1 then Step(s, Step(s, replied, ExecExpire(i, id)), ReplyExpire(i, id)) else replied;
      && |z.procs| == |y.procs| && z.procs[i].state.mode == RedisPrimary
      && id in z.settled && z.settled[id].source == FromRedis(index) && z.settled[id].answer == AnswerOf(count <= limit)
  {
  }

  lemma ProbeSteps(s: Settings, y: System, i: nat, id: nat)
    ensures var replied := Step(s, Step(s, y, ExecIncr(i, id)), ReplyIncr(i, id));
      && RunOf(s, y, ProbeAnswered(i, id, false)) == replied
      && RunOf(s, y, ProbeAnswered(i, id, true)) == Step(s, Step(s, replied, ExecExpire(i, id)), ReplyExpire(i, id))
  {
    var first, second := [ExecIncr(i, id)], [ExecIncr(i, id), ReplyIncr(i, id)];
    var third := second + [ExecExpire(i, id)];
    OneMore(s, y, [], ExecIncr(i, id));
    OneMore(s, y, first, ReplyIncr(i, id));
    OneMore(s, y, second, ExecExpire(i, id));
    OneMore(s, y, third, ReplyExpire(i, id));
    assert third + [ReplyExpire(i, id)] == ProbeAnswered(i, id, true);
  }

  lemma OneMore(s: Settings, y: System, labels: seq<Label>, l: Label)
    ensures RunOf(s, y, labels + [l]) == Step(s, RunOf(s, y, labels), l)
  {
    assert (labels + [l])[..|labels|] == labels;
  }

  // ---------------------------------------------------------------------------------------------
  // Cooling down
  // ---------------------------------------------------------------------------------------------

  /** The process is in fallback and will not try Redis before then. */
  ghost predicate Cooling(pr: Process, until: int) {
    pr.state.mode == MemoryFallback && !pr.state.probeInProgress && until <= pr.state.nextProbeAt
  }

  /** How a process starts: in fallback exactly if Redis is its driver, unhealthy, and fallback enabled. */
  lemma BootFallsBackIff(s: Settings, redisHealthy: bool, now: int)
    ensures var pr := Boot(s, redisHealthy, now);
      && (pr.state.mode == MemoryFallback <==> s.driver == RedisDriver && !redisHealthy && s.fallbackEnabled)
      && (pr.state.mode == MemoryFallback ==> Cooling(pr, now + s.probeCooldownMs))
      && pr.trace == [] && pr.state.buckets == EMPTY && pr.tasks == map[]
  {
  }

  /** A failed primary call cools the process down, unless a probe is in flight. */
  lemma FailureCools(s: Settings, y: System, l: Label, id: nat)
    requires s.fallbackEnabled && PrimaryFails(y, l, id) && !y.procs[l.proc].state.probeInProgress
    ensures Cooling(Step(s, y, l).procs[l.proc], y.now + s.probeCooldownMs)
  {
  }

  lemma ReactCools(s: Settings, pr: Process, now: int, input: Input, until: int)
    requires ProbeDiscipline(s, pr, now) && Cooling(pr, until) && now < until <= now + s.probeCooldownMs
    requires s.driver == RedisDriver
    ensures var after := React(s, pr, now, input).process;
      Cooling(after, until) && after.probeStarts == pr.probeStarts
      && forall id :: At(after, id) ==> At(pr, id)
  {
  }

  /** No new request of the process asks Redis. */
  ghost predicate NoneAsks(y: System, z: System, i: nat) {
    && i < |y.procs| && i < |z.procs|
    && z.procs[i].probeStarts == y.procs[i].probeStarts
    && forall id :: At(z.procs[i], id) ==> At(y.procs[i], id)
  }

  lemma StepCools(s: Settings, y: System, l: Label, i: nat, until: int)
    requires AllDisciplined(s, y) && s.driver == RedisDriver && i < |y.procs| && Cooling(y.procs[i], until)
    requires y.now < until <= y.now + s.probeCooldownMs
    ensures var z := Step(s, y, l);
      i < |z.procs| && Cooling(z.procs[i], until) && NoneAsks(y, z, i) && y.now <= z.now
  {
    assert ProbeDiscipline(s, y.procs[i], y.now);
    if !l.Tick? && l.proc < |y.procs| {
      P.StepIsDelivery(s, y, l);
      if l.proc == i {
        ReactCools(s, y.procs[i], y.now, P.InputOf(y, l), until);
      }
    }
  }

  lemma {:induction false} TimeRuns(s: Settings, y: System, labels: seq<Label>)
    ensures y.now <= RunOf(s, y, labels).now
  {
    if labels == [] {
    } else {
      TimeRuns(s, y, labels[..|labels| - 1]);
    }
  }

  lemma {:induction false} StaysDisciplined(s: Settings, y: System, labels: seq<Label>)
    requires AllDisciplined(s, y)
    ensures AllDisciplined(s, RunOf(s, y, labels))
  {
    if labels == [] {
    } else {
      StaysDisciplined(s, y, labels[..|labels| - 1]);
      StepDisciplined(s, RunOf(s, y, labels[..|labels| - 1]), labels[|labels| - 1]);
    }
  }

  /** Until the cooldown is over a process that cools down answers from memory, in every continuation. */
  lemma {:induction false} NoProbeWhileCooling(s: Settings, y: System, more: seq<Label>, i: nat, until: int)
    requires AllDisciplined(s, y) && s.driver == RedisDriver && i < |y.procs| && Cooling(y.procs[i], until)
    requires until <= y.now + s.probeCooldownMs && RunOf(s, y, more).now < until
    ensures var z := RunOf(s, y, more);
      i < |z.procs| && Cooling(z.procs[i], until) && NoneAsks(y, z, i)
  {
    if more == [] {
    } else {
      var n: nat := |more| - 1;
      var pre, l := more[..n], more[n];
      var before := RunOf(s, y, pre);
      TimeRuns(s, y, pre);
      StepTime(s, before, l);
      NoProbeWhileCooling(s, y, pre, i, until);
      StaysDisciplined(s, y, pre);
      StepCools(s, before, l, i, until);
    }
  }

  lemma StepTime(s: Settings, y: System, l: Label)
    ensures y.now <= Step(s, y, l).now
  {
  }
}
