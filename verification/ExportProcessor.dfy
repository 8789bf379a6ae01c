/**
  The batch that claims export requests and works them off one by one, and when a request it worked
  on is no longer waiting or processing afterwards.
*/
module ExportProcessor {
  import opened Options
  import opened ExportLifecycle
  import opened ExportSafety
  import opened ExportService

  /** What one request meets: its data is collected or not, the pipeline's fate, the file record and the last mark. */
  datatype RequestFate = RequestFate(collects: bool, pipeline: PipelineFate, expiresAt: nat, records: bool, marks: bool,
                                     others: seq<seq<Label>>, beforeMark: seq<Label>)

  datatype ProcessingResult = Processed | Failure

  ghost predicate Settled(w: World, req: nat) {
    req < |w.requests| && w.requests[req].status != Pending && w.requests[req].status != Processing
  }

  ghost predicate Started(w: World, req: nat) {
    req < |w.requests| && w.requests[req].status != Pending
  }

  ghost predicate IsBusy(w: World, req: nat) {
    req < |w.requests| && w.requests[req].status == Processing
  }

  predicate Succeeds(fate: PipelineFate) {
    fate.renders && fate.store == Delivered && fate.complete == Delivered
  }

  /** Some statement of the pipeline that ends the request is executed. */
  predicate PipelineSettles(fate: PipelineFate) {
    fate.marks || (fate.renders && fate.store == Delivered && fate.complete != NotExecuted)
  }

  predicate Settles(f: RequestFate) {
    f.marks || (f.collects && PipelineSettles(f.pipeline))
  }

  ghost predicate FateLeaves(f: RequestFate, i: nat) {
    |f.others| == 4 && (forall k :: 0 <= k < 4 ==> Leaves(f.others[k], i)) && Leaves(f.beforeMark, i)
  }

  predicate IsProcessed(f: RequestFate) {
    f.collects && Succeeds(f.pipeline) && f.records
  }

  /** The stretch of a run one request takes. */
  function ProcessTrace(i: nat, f: RequestFate): seq<Label>
    requires |f.others| == 4
  {
    if !f.collects then (f.others[0] + [Break(i)]) + (f.beforeMark + [MarkFailed(i, f.marks)])
    else
      PipelineTrace(i, f.expiresAt, f.pipeline, f.others)
      + if IsProcessed(f) then [] else f.beforeMark + [MarkFailed(i, f.marks)]
  }

  // ---------------------------------------------------------------------------------------------
  // One worker's steps, each after those of others
  // ---------------------------------------------------------------------------------------------

  lemma StaysSettled(w: World, labels: seq<Label>, req: nat)
    requires Outcomes(w) && req < |w.requests|
    ensures Settled(w, req) ==> Settled(RunOf(w, labels), req)
    ensures Started(w, req) ==> Started(RunOf(w, labels), req)
  {
    RunOnward(w, labels, req);
  }

  /** The party is where its last step left it, and the request no further back. */
  ghost predicate Carried(w: World, z: World, i: nat, req: nat) {
    && Safe(z) && i < |w.parties| && i < |z.parties| && z.parties[i] == w.parties[i]
    && (Started(w, req) ==> Started(z, req)) && (Settled(w, req) ==> Settled(z, req))
  }

  lemma OthersCarry(w: World, others: seq<Label>, i: nat, req: nat)
    requires Safe(w) && i < |w.parties| && Leaves(others, i) && req < |w.requests|
    ensures Carried(w, RunOf(w, others), i, req)
  {
    RunStaysSafe(w, others);
    RunKeepsParty(w, others, i);
    StaysSettled(w, others, req);
  }

  /** The world after a worker's own step that others' steps precede. */
  lemma OwnStep(w: World, others: seq<Label>, l: Label, i: nat, req: nat)
    requires Safe(w) && i < |w.parties| && Leaves(others, i) && req < |w.requests|
    ensures Carried(w, RunOf(w, others), i, req)
    ensures var z := RunOf(w, others + [l]);
      && z == Step(RunOf(w, others), l) && Safe(z) && |w.requests| <= |z.requests|
      && (Started(w, req) ==> Started(z, req)) && (Settled(w, req) ==> Settled(z, req))
  {
    OthersCarry(w, others, i, req);
    RunExtended(w, others, l);
    RunStaysSafe(w, others + [l]);
    RunOnward(w, others + [l], req);
    RequestsGrow(w, others + [l]);
  }

  lemma {:induction false} RequestsGrow(w: World, labels: seq<Label>)
    ensures |w.requests| <= |RunOf(w, labels).requests|
  {
    if labels == [] {
    } else {
      RequestsGrow(w, labels[..|labels| - 1]);
    }
  }

  ghost predicate Reports(w: World, i: nat, req: nat) {
    i < |w.parties| && w.parties[i] == Reporting(req)
  }

  ghost predicate Works(w: World, i: nat, req: nat) {
    i < |w.parties| && w.parties[i] == Working(req)
  }

  lemma AbortReports(w: World, others: seq<Label>, l: Label, i: nat, req: nat)
    requires Safe(w) && Works(w, i, req) && Leaves(others, i) && req < |w.requests|
    requires l == Break(i) || l == Store(i, NotExecuted) || l == Store(i, ReplyLost)
    ensures Reports(RunOf(w, others + [l]), i, req)
  {
    OwnStep(w, others, l, i, req);
  }

  /** A mark that is executed settles the request, unless it is settled already. */
  lemma MarkSettles(w: World, others: seq<Label>, i: nat, req: nat, marks: bool)
    requires Safe(w) && Reports(w, i, req) && Leaves(others, i) && Started(w, req)
    ensures var z := RunOf(w, others + [MarkFailed(i, marks)]);
      Safe(z) && Reports(z, i, req) && Started(z, req) && (marks || Settled(w, req) ==> Settled(z, req))
  {
    OwnStep(w, others, MarkFailed(i, marks), i, req);
  }

  lemma StoreHolds(w: World, others: seq<Label>, i: nat, req: nat)
    requires Safe(w) && Works(w, i, req) && Leaves(others, i) && req < |w.requests|
    ensures var z := RunOf(w, others + [Store(i, Delivered)]);
      i < |z.parties| && z.parties[i].Stored? && z.parties[i].req == req
  {
    OwnStep(w, others, Store(i, Delivered), i, req);
  }

  lemma CompleteSettles(w: World, others: seq<Label>, i: nat, req: nat, expiresAt: nat, delivery: Delivery)
    requires Safe(w) && i < |w.parties| && w.parties[i].Stored? && w.parties[i].req == req
    requires Leaves(others, i) && Started(w, req)
    ensures var z := RunOf(w, others + [Complete(i, expiresAt, delivery)]);
      && i < |z.parties|
      && (if delivery == Delivered then z.parties[i] == Reporting(req)
         else z.parties[i].Cleaning? && z.parties[i].req == req)
      && (delivery != NotExecuted ==> Settled(z, req))
  {
    OwnStep(w, others, Complete(i, expiresAt, delivery), i, req);
    CompletingParty(RunOf(w, others), i, expiresAt, delivery);
  }

  lemma CleanUpReports(w: World, others: seq<Label>, i: nat, req: nat, deletes: bool)
    requires Safe(w) && i < |w.parties| && w.parties[i].Cleaning? && w.parties[i].req == req
    requires Leaves(others, i) && req < |w.requests|
    ensures Reports(RunOf(w, others + [CleanUp(i, deletes)]), i, req)
  {
    OwnStep(w, others, CleanUp(i, deletes), i, req);
  }

  // ---------------------------------------------------------------------------------------------
  // One request
  // ---------------------------------------------------------------------------------------------

  /** What is known of the request when its worker has reported. */
  ghost predicate Reported(w: World, i: nat, req: nat, settled: bool) {
    Safe(w) && Reports(w, i, req) && Started(w, req) && (settled ==> Settled(w, req))
  }

  lemma AbortedReports(w: World, first: seq<Label>, l: Label, second: seq<Label>, i: nat, req: nat, marks: bool)
    requires Safe(w) && Works(w, i, req) && Started(w, req) && Leaves(first, i) && Leaves(second, i)
    requires l == Break(i) || l == Store(i, NotExecuted) || l == Store(i, ReplyLost)
    ensures Reported(RunOf(w, (first + [l]) + (second + [MarkFailed(i, marks)])), i, req, marks)
  {
    OwnStep(w, first, l, i, req);
    AbortReports(w, first, l, i, req);
    MarkSettles(RunOf(w, first + [l]), second, i, req, marks);
    RunAppended(w, first + [l], second + [MarkFailed(i, marks)]);
  }

  lemma CompletedReports(w: World, i: nat, req: nat, expiresAt: nat, first: seq<Label>, second: seq<Label>,
                         delivery: Delivery)
    requires Safe(w) && Works(w, i, req) && Started(w, req) && Leaves(first, i) && Leaves(second, i)
    ensures var z := RunOf(w, (first + [Store(i, Delivered)]) + (second + [Complete(i, expiresAt, delivery)]));
      && Safe(z) && Started(z, req) && i < |z.parties|
      && (if delivery == Delivered then z.parties[i] == Reporting(req)
         else z.parties[i].Cleaning? && z.parties[i].req == req)
      && (delivery != NotExecuted ==> Settled(z, req))
  {
    OwnStep(w, first, Store(i, Delivered), i, req);
    StoreHolds(w, first, i, req);
    var stored := RunOf(w, first + [Store(i, Delivered)]);
    OwnStep(stored, second, Complete(i, expiresAt, delivery), i, req);
    CompleteSettles(stored, second, i, req, expiresAt, delivery);
    RunAppended(w, first + [Store(i, Delivered)], second + [Complete(i, expiresAt, delivery)]);
  }

  lemma CleanedReports(w: World, i: nat, req: nat, first: seq<Label>, second: seq<Label>, deletes: bool, marks: bool)
    requires Safe(w) && Started(w, req) && i < |w.parties| && w.parties[i].Cleaning? && w.parties[i].req == req
    requires Leaves(first, i) && Leaves(second, i)
    ensures Reported(RunOf(w, (first + [CleanUp(i, deletes)]) + (second + [MarkFailed(i, marks)])), i, req,
      marks || Settled(w, req))
  {
    OwnStep(w, first, CleanUp(i, deletes), i, req);
    CleanUpReports(w, first, i, req, deletes);
    MarkSettles(RunOf(w, first + [CleanUp(i, deletes)]), second, i, req, marks);
    RunAppended(w, first + [CleanUp(i, deletes)], second + [MarkFailed(i, marks)]);
  }

  lemma PipelineReports(w: World, i: nat, req: nat, expiresAt: nat, fate: PipelineFate, others: seq<seq<Label>>)
    requires Safe(w) && Works(w, i, req) && Started(w, req)
    requires |others| == 4 && forall k :: 0 <= k < 4 ==> Leaves(others[k], i)
    ensures Reported(RunOf(w, PipelineTrace(i, expiresAt, fate, others)), i, req,
      Succeeds(fate) || PipelineSettles(fate))
  {
    if !fate.renders {
      AbortedReports(w, others[0], Break(i), others[1], i, req, fate.marks);
    } else if fate.store != Delivered {
      AbortedReports(w, others[0], Store(i, fate.store), others[1], i, req, fate.marks);
    } else {
      var done := (others[0] + [Store(i, Delivered)]) + (others[1] + [Complete(i, expiresAt, fate.complete)]);
      CompletedReports(w, i, req, expiresAt, others[0], others[1], fate.complete);
      if fate.complete != Delivered {
        CleanedReports(RunOf(w, done), i, req, others[2], others[3], fate.deletes, fate.marks);
        RunAppended(w, done, (others[2] + [CleanUp(i, fate.deletes)]) + (others[3] + [MarkFailed(i, fate.marks)]));
      }
    }
  }

  /**
    Whatever others do meanwhile, a request is neither pending nor processing once its worker is
    through, provided one statement that ends it was executed: its completion or one of the two marks.
  */
  lemma ProcessedIsSettled(w: World, i: nat, req: nat, f: RequestFate)
    requires Safe(w) && Works(w, i, req) && Started(w, req) && FateLeaves(f, i)
    ensures Reported(RunOf(w, ProcessTrace(i, f)), i, req, Settles(f))
  {
    if !f.collects {
      AbortedReports(w, f.others[0], Break(i), f.beforeMark, i, req, f.marks);
    } else {
      var pipeline := PipelineTrace(i, f.expiresAt, f.pipeline, f.others);
      PipelineReports(w, i, req, f.expiresAt, f.pipeline, f.others);
      if IsProcessed(f) {
        assert pipeline + [] == pipeline;
      } else {
        MarkSettles(RunOf(w, pipeline), f.beforeMark, i, req, f.marks);
        RunAppended(w, pipeline, f.beforeMark + [MarkFailed(i, f.marks)]);
      }
    }
  }

  /** Nobody else does anything meanwhile. */
  ghost predicate Alone(f: RequestFate) {
    |f.others| == 4 && (forall k :: 0 <= k < 4 ==> f.others[k] == []) && f.beforeMark == []
  }

  lemma OneAlone(w: World, l: Label)
    ensures RunOf(w, [] + [l]) == Step(w, l)
  {
    RunExtended(w, [], l);
  }

  lemma TwoAlone(w: World, k: Label, l: Label)
    ensures RunOf(w, ([] + [k]) + ([] + [l])) == Step(Step(w, k), l)
  {
    OneAlone(w, k);
    OneAlone(Step(w, k), l);
    RunAppended(w, [] + [k], [] + [l]);
  }

  ghost predicate StillBusy(w: World, i: nat, req: nat) {
    Reports(w, i, req) && IsBusy(w, req)
  }

  lemma FourAlone(w: World, a: Label, b: Label, c: Label, d: Label)
    ensures RunOf(w, (([] + [a]) + ([] + [b])) + (([] + [c]) + ([] + [d]))) == Step(Step(Step(Step(w, a), b), c), d)
  {
    TwoAlone(w, a, b);
    TwoAlone(Step(Step(w, a), b), c, d);
    RunAppended(w, ([] + [a]) + ([] + [b]), ([] + [c]) + ([] + [d]));
  }

  lemma StuckAborted(w: World, i: nat, req: nat, l: Label)
    requires Works(w, i, req) && IsBusy(w, req)
    requires l == Break(i) || l == Store(i, NotExecuted) || l == Store(i, ReplyLost)
    ensures StillBusy(Step(Step(w, l), MarkFailed(i, false)), i, req)
  {
  }

  lemma StuckCleaned(w: World, i: nat, req: nat, expiresAt: nat, deletes: bool)
    requires Works(w, i, req) && IsBusy(w, req)
    ensures var stored := Step(w, Store(i, Delivered));
      StillBusy(Step(Step(Step(stored, Complete(i, expiresAt, NotExecuted)), CleanUp(i, deletes)),
        MarkFailed(i, false)), i, req)
  {
    var stored := Step(w, Store(i, Delivered));
    assert IsBusy(stored, req) && stored.parties[i] == Stored(req, w.nextKey);
    var refused := Step(stored, Complete(i, expiresAt, NotExecuted));
    assert IsBusy(refused, req) && refused.parties[i] == Cleaning(req, w.nextKey);
  }

  lemma StuckPipeline(w: World, i: nat, req: nat, expiresAt: nat, fate: PipelineFate, others: seq<seq<Label>>)
    requires Works(w, i, req) && IsBusy(w, req) && !PipelineSettles(fate)
    requires |others| == 4 && others[0] == [] && others[1] == [] && others[2] == [] && others[3] == []
    ensures StillBusy(RunOf(w, PipelineTrace(i, expiresAt, fate, others)), i, req)
  {
    if !fate.renders {
      TwoAlone(w, Break(i), MarkFailed(i, false));
      StuckAborted(w, i, req, Break(i));
    } else if fate.store != Delivered {
      TwoAlone(w, Store(i, fate.store), MarkFailed(i, false));
      StuckAborted(w, i, req, Store(i, fate.store));
    } else {
      FourAlone(w, Store(i, Delivered), Complete(i, expiresAt, NotExecuted), CleanUp(i, fate.deletes),
        MarkFailed(i, false));
      StuckCleaned(w, i, req, expiresAt, fate.deletes);
    }
  }

  lemma StuckMark(w: World, i: nat, req: nat)
    requires StillBusy(w, i, req)
    ensures StillBusy(RunOf(w, [] + [MarkFailed(i, false)]), i, req)
  {
    OneAlone(w, MarkFailed(i, false));
  }

  lemma StuckAlone(w: World, i: nat, req: nat, f: RequestFate)
    requires Works(w, i, req) && IsBusy(w, req) && Alone(f) && !Settles(f)
    ensures StillBusy(RunOf(w, ProcessTrace(i, f)), i, req)
  {
    if !f.collects {
      TwoAlone(w, Break(i), MarkFailed(i, false));
      StuckAborted(w, i, req, Break(i));
    } else {
      var pipeline := PipelineTrace(i, f.expiresAt, f.pipeline, f.others);
      StuckPipeline(w, i, req, f.expiresAt, f.pipeline, f.others);
      StuckMark(RunOf(w, pipeline), i, req);
      RunAppended(w, pipeline, [] + [MarkFailed(i, false)]);
    }
  }

  /**
    The processor promises that no request is left processing. Alone with a request, it leaves it so
    exactly if none of the statements that would end it is executed.
  */
  lemma LeftProcessingIff(w: World, i: nat, req: nat, f: RequestFate)
    requires Safe(w) && Works(w, i, req) && IsBusy(w, req) && Alone(f)
    ensures IsBusy(RunOf(w, ProcessTrace(i, f)), req) <==> !Settles(f)
  {
    if Settles(f) {
      ProcessedIsSettled(w, i, req, f);
    } else {
      StuckAlone(w, i, req, f);
    }
  }

  // ---------------------------------------------------------------------------------------------
  // A batch
  // ---------------------------------------------------------------------------------------------

  lemma ConcatLeaves(a: seq<Label>, b: seq<Label>, m: nat)
    requires Leaves(a, m) && Leaves(b, m)
    ensures Leaves(a + b, m)
  {
  }

  lemma TurnLeaves(others: seq<Label>, l: Label, m: nat)
    requires Leaves(others, m) && Actor(l) != Some(m)
    ensures Leaves(others + [l], m)
  {
  }

  /** A worker takes its own steps only. */
  lemma ProcessTraceLeaves(i: nat, f: RequestFate, m: nat)
    requires FateLeaves(f, m) && i != m
    ensures Leaves(ProcessTrace(i, f), m)
  {
    PipelineTraceLeaves(i, f.expiresAt, f.pipeline, f.others, m);
    TurnLeaves(f.others[0], Break(i), m);
    TurnLeaves(f.beforeMark, MarkFailed(i, f.marks), m);
    ConcatLeaves(f.others[0] + [Break(i)], f.beforeMark + [MarkFailed(i, f.marks)], m);
    var pipeline := PipelineTrace(i, f.expiresAt, f.pipeline, f.others);
    ConcatLeaves(pipeline, [], m);
    ConcatLeaves(pipeline, f.beforeMark + [MarkFailed(i, f.marks)], m);
  }

  lemma PipelineTraceLeaves(i: nat, expiresAt: nat, fate: PipelineFate, others: seq<seq<Label>>, m: nat)
    requires |others| == 4 && i != m && forall k :: 0 <= k < 4 ==> Leaves(others[k], m)
    ensures Leaves(PipelineTrace(i, expiresAt, fate, others), m)
  {
    var aborted := others[1] + [MarkFailed(i, fate.marks)];
    TurnLeaves(others[1], MarkFailed(i, fate.marks), m);
    if !fate.renders {
      TurnLeaves(others[0], Break(i), m);
      ConcatLeaves(others[0] + [Break(i)], aborted, m);
    } else {
      TurnLeaves(others[0], Store(i, fate.store), m);
      TurnLeaves(others[1], Complete(i, expiresAt, fate.complete), m);
      TurnLeaves(others[2], CleanUp(i, fate.deletes), m);
      TurnLeaves(others[3], MarkFailed(i, fate.marks), m);
      ConcatLeaves(others[0] + [Store(i, fate.store)], aborted, m);
      ConcatLeaves(others[0] + [Store(i, fate.store)], others[1] + [Complete(i, expiresAt, fate.complete)], m);
      ConcatLeaves(others[2] + [CleanUp(i, fate.deletes)], others[3] + [MarkFailed(i, fate.marks)], m);
      if fate.store == Delivered {
        ConcatLeaves((others[0] + [Store(i, Delivered)]) + (others[1] + [Complete(i, expiresAt, fate.complete)]),
                     (others[2] + [CleanUp(i, fate.deletes)]) + (others[3] + [MarkFailed(i, fate.marks)]), m);
      }
    }
  }

  /** Nobody takes the steps of the n workers from first on but themselves. */
  ghost predicate AllLeave(fates: seq<RequestFate>, first: nat, n: nat) {
    forall k, m :: 0 <= k < |fates| && first <= m < first + n ==> FateLeaves(fates[k], m)
  }

  /** The first k requests of a batch have been worked off, the others have their worker waiting. */
  ghost predicate WorkedOff(w: World, first: nat, claimed: seq<nat>, fates: seq<RequestFate>, k: nat)
    requires k <= |claimed| <= |fates|
  {
    && Safe(w)
    && (forall j :: 0 <= j < |claimed| ==> Started(w, claimed[j]))
    && (forall j :: k <= j < |claimed| ==> Works(w, first + j, claimed[j]))
    && (forall j :: 0 <= j < k && Settles(fates[j]) ==> Settled(w, claimed[j]))
  }

  /** A worker that waits for its turn is not concerned by another's. */
  lemma WaitsOn(w: World, i: nat, f: RequestFate, m: nat, req: nat)
    requires Works(w, m, req) && FateLeaves(f, m) && i != m
    ensures Works(RunOf(w, ProcessTrace(i, f)), m, req)
  {
    ProcessTraceLeaves(i, f, m);
    RunKeepsParty(w, ProcessTrace(i, f), m);
  }

  lemma ClaimedStaySettled(w: World, trace: seq<Label>, claimed: seq<nat>)
    requires Outcomes(w) && forall j :: 0 <= j < |claimed| ==> Started(w, claimed[j])
    ensures forall j :: 0 <= j < |claimed| ==> Started(RunOf(w, trace), claimed[j])
    ensures forall j :: 0 <= j < |claimed| && Settled(w, claimed[j]) ==> Settled(RunOf(w, trace), claimed[j])
  {
    forall j | 0 <= j < |claimed|
      ensures Started(RunOf(w, trace), claimed[j]) && (Settled(w, claimed[j]) ==> Settled(RunOf(w, trace), claimed[j]))
    {
      assert Started(w, claimed[j]);
      StaysSettled(w, trace, claimed[j]);
    }
  }

  /** The workers still to come are not concerned. */
  lemma OthersWaitOn(w: World, first: nat, claimed: seq<nat>, f: RequestFate, k: nat)
    requires k < |claimed| && forall m :: first <= m < first + |claimed| ==> FateLeaves(f, m)
    requires forall j :: k <= j < |claimed| ==> Works(w, first + j, claimed[j])
    ensures FateLeaves(f, first + k)
    ensures forall j :: k < j < |claimed| ==> Works(RunOf(w, ProcessTrace(first + k, f)), first + j, claimed[j])
  {
    assert FateLeaves(f, first + k);
    forall j | k < j < |claimed| ensures Works(RunOf(w, ProcessTrace(first + k, f)), first + j, claimed[j]) {
      assert FateLeaves(f, first + j) && Works(w, first + j, claimed[j]);
      WaitsOn(w, first + k, f, first + j, claimed[j]);
    }
  }

  /** What the end of the k-th worker's turn has to show. */
  lemma WorkedOffGrows(w: World, z: World, first: nat, claimed: seq<nat>, fates: seq<RequestFate>, k: nat)
    requires k < |claimed| <= |fates| && WorkedOff(w, first, claimed, fates, k) && Safe(z)
    requires forall j :: 0 <= j < |claimed| ==> Started(z, claimed[j])
    requires forall j :: 0 <= j < |claimed| && Settled(w, claimed[j]) ==> Settled(z, claimed[j])
    requires forall j :: k < j < |claimed| ==> Works(z, first + j, claimed[j])
    requires Settles(fates[k]) ==> Settled(z, claimed[k])
    ensures WorkedOff(z, first, claimed, fates, k + 1)
  {
  }

  lemma WorkedOffOneMore(w: World, first: nat, claimed: seq<nat>, fates: seq<RequestFate>, k: nat)
    requires k < |claimed| <= |fates| && AllLeave(fates, first, |claimed|) && WorkedOff(w, first, claimed, fates, k)
    ensures FateLeaves(fates[k], first + k) && Works(w, first + k, claimed[k])
    ensures WorkedOff(RunOf(w, ProcessTrace(first + k, fates[k])), first, claimed, fates, k + 1)
  {
    var i, f := first + k, fates[k];
    assert FateLeaves(f, i) && Works(w, i, claimed[k]) && Started(w, claimed[k]);
    ProcessedIsSettled(w, i, claimed[k], f);
    ClaimedStaySettled(w, ProcessTrace(i, f), claimed);
    OthersWaitOn(w, first, claimed, f, k);
    WorkedOffGrows(w, RunOf(w, ProcessTrace(i, f)), first, claimed, fates, k);
  }

  lemma ClaimedIsStarted(start: World, w: World, claimed: seq<nat>, fates: seq<RequestFate>, staleMs: nat, limit: nat)
    requires Safe(w) && |claimed| <= |fates| && Selected(start, staleMs, limit, claimed)
      && ClaimedUpTo(start, w, claimed, |claimed|)
    ensures WorkedOff(w, |start.parties|, claimed, fates, 0)
  {
    assert claimed[..|claimed|] == claimed;
    forall j | 0 <= j < |claimed| ensures Started(w, claimed[j]) && Works(w, |start.parties| + j, claimed[j]) {
      assert Candidate(start, claimed[j], staleMs) && claimed[j] in claimed;
    }
  }

  function Successes(fates: seq<RequestFate>, n: nat): nat
    requires n <= |fates|
  {
    if n == 0 then 0 else Successes(fates, n - 1) + if IsProcessed(fates[n - 1]) then 1 else 0
  }

  /** Nothing went wrong with the request, from its data to the file record. */
  ghost predicate Faultless(f: RequestFate) {
    f.collects && f.records && f.pipeline.renders && f.pipeline.store == Delivered && f.pipeline.complete == Delivered
  }

  ghost function FaultlessUpTo(fates: seq<RequestFate>, n: nat): set<nat>
    requires n <= |fates|
  {
    set k: nat | k < n && Faultless(fates[k])
  }

  /** The processed counter tells how many requests nothing went wrong with. */
  lemma {:induction false} SuccessesCount(fates: seq<RequestFate>, n: nat)
    requires n <= |fates|
    ensures Successes(fates, n) == |FaultlessUpTo(fates, n)|
  {
    if n == 0 {
      assert FaultlessUpTo(fates, 0) == {};
    } else {
      var m: nat := n - 1;
      SuccessesCount(fates, m);
      var before := FaultlessUpTo(fates, m);
      assert FaultlessUpTo(fates, n) == if Faultless(fates[m]) then before + {m} else before;
    }
  }

  class RequestProcessor {
    const shared: Shared
    const repository: Repository
    const pipeline: ExportPipeline

    constructor (shared: Shared)
      ensures this.shared == shared && Wired()
    {
      this.shared := shared;
      repository := new Repository(shared);
      pipeline := new ExportPipeline(shared);
    }

    /** The processor's services work on the same database and storage. */
    ghost predicate Wired() {
      repository.shared == shared && pipeline.shared == shared
    }

    /**
      processRequest, for a worker that holds its claim: work, and on any failure mark the request failed once more.
    */
    method ProcessRequest(i: nat, f: RequestFate) returns (r: ProcessingResult)
      requires Wired() && shared.Valid() && i < |shared.w.parties| && shared.w.parties[i].Working? && FateLeaves(f, i)
      modifies shared
      ensures shared.Valid() && shared.trace == old(shared.trace) + ProcessTrace(i, f)
      ensures shared.w == RunOf(old(shared.w), ProcessTrace(i, f))
      ensures r == if IsProcessed(f) then Processed else Failure
      ensures r == Processed <==>
        f.collects && f.pipeline.renders && f.pipeline.store == Delivered && f.pipeline.complete == Delivered
          && f.records
    {
      ghost var start, began := shared.trace, shared.w;
      RunAppended(START, start, ProcessTrace(i, f));
      if !f.collects {
        shared.DoAfter(f.others[0], Break(i));
      } else {
        var success, _ := pipeline.Execute(i, f.expiresAt, f.pipeline, f.others);
        if success && f.records {
          assert start + PipelineTrace(i, f.expiresAt, f.pipeline, f.others) == start + ProcessTrace(i, f);
          return Processed;
        }
      }
      shared.DoAfter(f.beforeMark, MarkFailed(i, f.marks));
      StagesJoin(start, if f.collects then PipelineTrace(i, f.expiresAt, f.pipeline, f.others)
        else f.others[0] + [Break(i)],
                 f.beforeMark + [MarkFailed(i, f.marks)]);
      return Failure;
    }

    /** The turn of the k-th claimed request. */
    method WorkOn(first: nat, claimed: seq<nat>, fates: seq<RequestFate>, k: nat) returns (r: ProcessingResult)
      requires Wired() && shared.Valid() && k < |claimed| <= |fates| && AllLeave(fates, first, |claimed|)
      requires WorkedOff(shared.w, first, claimed, fates, k)
      modifies shared
      ensures shared.Valid() && WorkedOff(shared.w, first, claimed, fates, k + 1)
      ensures r == if IsProcessed(fates[k]) then Processed else Failure
    {
      WorkedOffOneMore(shared.w, first, claimed, fates, k);
      r := ProcessRequest(first + k, fates[k]);
    }

    /** The loop over the claimed requests, whose workers are the parties from first on. */
    method WorkOff(first: nat, claimed: seq<nat>, fates: seq<RequestFate>) returns (processed: nat, failed: nat)
      requires Wired() && shared.Valid() && |claimed| <= |fates| && AllLeave(fates, first, |claimed|)
      requires WorkedOff(shared.w, first, claimed, fates, 0)
      modifies shared
      ensures shared.Valid() && WorkedOff(shared.w, first, claimed, fates, |claimed|)
      ensures processed == Successes(fates, |claimed|) && processed + failed == |claimed|
    {
      processed, failed := 0, 0;
      for k := 0 to |claimed|
        invariant shared.Valid() && WorkedOff(shared.w, first, claimed, fates, k)
        invariant processed == Successes(fates, k) && processed + failed == k
      {
        var r := WorkOn(first, claimed, fates, k);
        if r == Processed {
          processed := processed + 1;
        } else {
          failed := failed + 1;
        }
      }
    }

    /**
      processPendingExports. Each claimed request is worked on by itself, whatever became of those
      before it, and is settled at the end if a statement that ends it was executed; nothing is skipped.
    */
    method ProcessPendingExports(batchSize: nat, fates: seq<RequestFate>)
      returns (claimed: seq<nat>, processed: nat, failed: nat)
      requires Wired() && shared.Valid() && |fates| == batchSize && AllLeave(fates, |shared.w.parties|, batchSize)
      modifies shared
      ensures shared.Valid() && Selected(old(shared.w), DEFAULT_STALE_PROCESSING_MS, batchSize, claimed)
      ensures processed == Successes(fates, |claimed|) && processed + failed == |claimed|
      ensures forall k :: 0 <= k < |claimed| && Settles(fates[k]) ==> Settled(shared.w, claimed[k])
    {
      ghost var start := shared.w;
      claimed := repository.ClaimPending(batchSize, None);
      var first := |shared.w.parties| - |claimed|;
      RunSafe(shared.trace);
      ClaimedIsStarted(start, shared.w, claimed, fates, DEFAULT_STALE_PROCESSING_MS, batchSize);
      processed, failed := WorkOff(first, claimed, fates);
    }
  }
}
