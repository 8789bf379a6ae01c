/**
  The export services as they run: each method takes its own steps in the shared world, with those of
  all other parties in between, and is accountable for the labels it adds to the run.
*/
module ExportService {
  import opened Options
  import opened ExportLifecycle
  import opened ExportSafety
  import opened ExportLeftovers

  /** The party a label is a step of. */
  function Actor(l: Label): Option<nat> {
    match l
    case Break(i) => Some(i)
    case Store(i, _) => Some(i)
    case Complete(i, _, _) => Some(i)
    case CleanUp(i, _) => Some(i)
    case MarkFailed(i, _) => Some(i)
    case Leave(i) => Some(i)
    case SweepDelete(i, _) => Some(i)
    case SweepMark(i, _) => Some(i)
    case ExpireMark(i, _) => Some(i)
    case Sign(i, _) => Some(i)
    case ExpireDelete(i, _) => Some(i)
    case _ => None
  }

  predicate Leaves(labels: seq<Label>, i: nat) {
    forall k :: 0 <= k < |labels| ==> Actor(labels[k]) != Some(i)
  }

  lemma StepKeepsParty(w: World, l: Label, i: nat)
    requires i < |w.parties| && Actor(l) != Some(i)
    ensures i < |Step(w, l).parties| && Step(w, l).parties[i] == w.parties[i]
  {
  }

  /** A party is where its own last step left it. */
  lemma {:induction false} RunKeepsParty(w: World, labels: seq<Label>, i: nat)
    requires i < |w.parties| && Leaves(labels, i)
    ensures i < |RunOf(w, labels).parties| && RunOf(w, labels).parties[i] == w.parties[i]
  {
    if labels == [] {
    } else {
      RunKeepsParty(w, labels[..|labels| - 1], i);
      StepKeepsParty(RunOf(w, labels[..|labels| - 1]), labels[|labels| - 1], i);
    }
  }

  lemma {:induction false} RunAppended(w: World, a: seq<Label>, b: seq<Label>)
    ensures RunOf(w, a + b) == RunOf(RunOf(w, a), b)
  {
    if b == [] {
      assert a + b == a;
    } else {
      assert (a + b)[..|a + b| - 1] == a + b[..|b| - 1];
      RunAppended(w, a, b[..|b| - 1]);
    }
  }

  /** Database and storage; trace is the history of the whole run. */
  class Shared {
    var w: World
    ghost var trace: seq<Label>

    ghost predicate Valid()
      reads this
    {
      w == RunOf(START, trace)
    }

    constructor ()
      ensures Valid() && trace == []
    {
      w := START;
      trace := [];
    }

    method Do(l: Label)
      requires Valid()
      modifies this
      ensures Valid() && trace == old(trace) + [l] && w == Step(old(w), l)
    {
      RunExtended(START, trace, l);
      w := Step(w, l);
      trace := trace + [l];
    }

    method Others(labels: seq<Label>)
      requires Valid()
      modifies this
      ensures Valid() && trace == old(trace) + labels && w == RunOf(old(w), labels)
    {
      for k := 0 to |labels|
        invariant Valid() && trace == old(trace) + labels[..k] && w == RunOf(old(w), labels[..k])
      {
        assert labels[..k + 1] == labels[..k] + [labels[k]];
        RunExtended(old(w), labels[..k], labels[k]);
        Do(labels[k]);
      }
      assert labels[..|labels|] == labels;
    }

    /** One step, after those of others. */
    method DoAfter(others: seq<Label>, l: Label)
      requires Valid()
      modifies this
      ensures Valid() && trace == old(trace) + (others + [l]) && w == Step(RunOf(old(w), others), l)
    {
      Others(others);
      Do(l);
      assert old(trace) + others + [l] == old(trace) + (others + [l]);
    }
  }

  // ---------------------------------------------------------------------------------------------
  // Worker
  // ---------------------------------------------------------------------------------------------

  ghost predicate Candidate(w: World, r: nat, staleMs: nat) {
    r < |w.requests| && Claimable(w.requests[r], w.time, staleMs)
  }

  predicate IsFresh(w: World, r: nat) {
    r < |w.requests| && w.requests[r].status == Pending
  }

  const DEFAULT_STALE_PROCESSING_MS := 300000
  const MIN_STALE_PROCESSING_MS := 60000
  const MAX_STALE_PROCESSING_MS := 3600000

  /** toBoundedStaleProcessingMs: an absent setting takes its default, others are kept between a minute and an hour. */
  function BoundedStaleMs(requested: Option<int>): (ms: nat)
    ensures MIN_STALE_PROCESSING_MS <= ms <= MAX_STALE_PROCESSING_MS
    ensures requested.Some? && MIN_STALE_PROCESSING_MS <= requested.value <= MAX_STALE_PROCESSING_MS ==>
      ms == requested.value
    ensures requested.Some? && requested.value < MIN_STALE_PROCESSING_MS ==> ms == MIN_STALE_PROCESSING_MS
    ensures requested.Some? && requested.value > MAX_STALE_PROCESSING_MS ==> ms == MAX_STALE_PROCESSING_MS
    ensures requested.None? ==> ms == DEFAULT_STALE_PROCESSING_MS
  {
    var ms := if requested.Some? then requested.value else DEFAULT_STALE_PROCESSING_MS;
    if ms < MIN_STALE_PROCESSING_MS then MIN_STALE_PROCESSING_MS
    else if ms > MAX_STALE_PROCESSING_MS then MAX_STALE_PROCESSING_MS
    else ms
  }

  /** The order in which claims are served: fresh requests first, then stale ones, oldest first. */
  predicate Precedes(w: World, a: nat, b: nat) {
    (IsFresh(w, a) && !IsFresh(w, b)) || (IsFresh(w, a) == IsFresh(w, b) && a < b)
  }

  /** Faults and outcomes a pipeline run meets. */
  datatype PipelineFate = PipelineFate(renders: bool, store: Delivery, complete: Delivery, deletes: bool, marks: bool)

  /** The stretch of a run a pipeline takes: its own steps, each after those of others. */
  function PipelineTrace(i: nat, expiresAt: nat, fate: PipelineFate, others: seq<seq<Label>>): seq<Label>
    requires |others| == 4
  {
    if !fate.renders then
      (others[0] + [Break(i)]) + (others[1] + [MarkFailed(i, fate.marks)])
    else if fate.store != Delivered then
      (others[0] + [Store(i, fate.store)]) + (others[1] + [MarkFailed(i, fate.marks)])
    else if fate.complete == Delivered then
      (others[0] + [Store(i, Delivered)]) + (others[1] + [Complete(i, expiresAt, Delivered)])
    else
      ((others[0] + [Store(i, Delivered)]) + (others[1] + [Complete(i, expiresAt, fate.complete)]))
      + ((others[2] + [CleanUp(i, fate.deletes)]) + (others[3] + [MarkFailed(i, fate.marks)]))
  }

  class ExportPipeline {
    const shared: Shared

    constructor (shared: Shared)
      ensures this.shared == shared
    {
      this.shared := shared;
    }

    /** One own step, after those of others. */
    method Turn(others: seq<Label>, l: Label, i: nat)
      requires shared.Valid() && Leaves(others, i) && i < |shared.w.parties|
      modifies shared
      ensures shared.Valid() && shared.trace == old(shared.trace) + (others + [l])
      ensures i < |RunOf(old(shared.w), others).parties|
        && RunOf(old(shared.w), others).parties[i] == old(shared.w).parties[i]
      ensures shared.w == Step(RunOf(old(shared.w), others), l)
    {
      RunKeepsParty(shared.w, others, i);
      shared.DoAfter(others, l);
    }

    /**
      What the failure path adds: the file is deleted if it can be, and the request marked if it is still processing.
    */
    method Fail(i: nat, deletes: bool, marks: bool, first: seq<Label>, second: seq<Label>)
      requires shared.Valid() && Leaves(first, i) && Leaves(second, i) && i < |shared.w.parties|
        && shared.w.parties[i].Cleaning?
      modifies shared
      ensures shared.Valid()
      ensures shared.trace == old(shared.trace) + ((first + [CleanUp(i, deletes)]) + (second + [MarkFailed(i, marks)]))
      ensures i < |shared.w.parties| && shared.w.parties[i].Reporting?
      ensures deletes ==> IsGone(shared.w, old(shared.w).parties[i].key)
    {
      FailDeletes(shared.trace, i, deletes, marks, first, second);
      Turn(first, CleanUp(i, deletes), i);
      Turn(second, MarkFailed(i, marks), i);
      assert old(shared.trace) + (first + [CleanUp(i, deletes)]) + (second + [MarkFailed(i, marks)])
          == old(shared.trace) + ((first + [CleanUp(i, deletes)]) + (second + [MarkFailed(i, marks)]));
    }

    /** A stage before the file is known failed. */
    method Abort(i: nat, l: Label, marks: bool, first: seq<Label>, second: seq<Label>)
      requires shared.Valid() && Leaves(first, i) && Leaves(second, i) && i < |shared.w.parties|
        && shared.w.parties[i].Working?
      requires l == Break(i) || l == Store(i, NotExecuted) || l == Store(i, ReplyLost)
      modifies shared
      ensures shared.Valid()
      ensures shared.trace == old(shared.trace) + ((first + [l]) + (second + [MarkFailed(i, marks)]))
      ensures i < |shared.w.parties| && shared.w.parties[i].Reporting?
    {
      Turn(first, l, i);
      Turn(second, MarkFailed(i, marks), i);
      assert old(shared.trace) + (first + [l]) + (second + [MarkFailed(i, marks)])
          == old(shared.trace) + ((first + [l]) + (second + [MarkFailed(i, marks)]));
    }

    /** The store stage, when the storage answers: the file is there under a key nobody has used. */
    method StoreStage(i: nat, others: seq<Label>) returns (key: nat)
      requires shared.Valid() && Leaves(others, i) && i < |shared.w.parties| && shared.w.parties[i].Working?
      modifies shared
      ensures shared.Valid() && shared.trace == old(shared.trace) + (others + [Store(i, Delivered)])
      ensures i < |shared.w.parties| && shared.w.parties[i] == Stored(old(shared.w).parties[i].req, key)
      ensures key in shared.w.files && key == RunOf(old(shared.w), others).nextKey
    {
      Turn(others, Store(i, Delivered), i);
      key := shared.w.parties[i].key;
    }

    /** The complete stage: an update that matches no row is no error, an update that fails is. */
    method CompleteStage(i: nat, expiresAt: nat, delivery: Delivery, others: seq<Label>)
      requires shared.Valid() && Leaves(others, i) && i < |shared.w.parties| && shared.w.parties[i].Stored?
      modifies shared
      ensures shared.Valid() && shared.trace == old(shared.trace) + (others + [Complete(i, expiresAt, delivery)])
      ensures i < |shared.w.parties|
      ensures delivery == Delivered ==> shared.w.parties[i].Reporting?
      ensures delivery != Delivered ==>
        shared.w.parties[i].Cleaning? && shared.w.parties[i].key == old(shared.w).parties[i].key
    {
      ghost var w := RunOf(shared.w, others);
      RunAppended(START, shared.trace, others);
      RunSafe(shared.trace + others);
      Turn(others, Complete(i, expiresAt, delivery), i);
      assert Sane(w, w.parties[i]);
      CompletingParty(w, i, expiresAt, delivery);
    }

    /**
      execute, for a worker that has claimed a request. It reports success exactly if no stage failed,
      also when its completion came too late to take effect, and then tells the key of its own file.
    */
    method Execute(i: nat, expiresAt: nat, fate: PipelineFate, others: seq<seq<Label>>)
      returns (success: bool, storageKey: Option<nat>)
      requires shared.Valid() && i < |shared.w.parties| && shared.w.parties[i].Working?
      requires |others| == 4 && forall k :: 0 <= k < 4 ==> Leaves(others[k], i)
      modifies shared
      ensures shared.Valid() && shared.trace == old(shared.trace) + PipelineTrace(i, expiresAt, fate, others)
      ensures success <==> fate.renders && fate.store == Delivered && fate.complete == Delivered
      ensures storageKey == if success then Some(RunOf(old(shared.w), others[0]).nextKey) else None
      ensures fate.renders && fate.store == Delivered && fate.complete != Delivered && fate.deletes ==>
        IsGone(shared.w, RunOf(old(shared.w), others[0]).nextKey)
      ensures i < |shared.w.parties| && shared.w.parties[i].Reporting?
    {
      ghost var start := shared.trace;
      if !fate.renders {
        Abort(i, Break(i), fate.marks, others[0], others[1]);
        return false, None;
      }
      if fate.store != Delivered {
        Abort(i, Store(i, fate.store), fate.marks, others[0], others[1]);
        return false, None;
      }
      var key := StoreStage(i, others[0]);
      CompleteStage(i, expiresAt, fate.complete, others[1]);
      StagesJoin(start, others[0] + [Store(i, Delivered)], others[1] + [Complete(i, expiresAt, fate.complete)]);
      if fate.complete == Delivered {
        return true, Some(key);
      }
      ghost var completed := shared.trace;
      Fail(i, fate.deletes, fate.marks, others[2], others[3]);
      PipelineTraceSplits(i, expiresAt, fate, others, start, completed);
      return false, None;
    }
  }

  lemma CleanUpDeletes(w: World, i: nat)
    requires Safe(w) && i < |w.parties| && w.parties[i].Cleaning?
    ensures IsGone(Step(w, CleanUp(i, true)), w.parties[i].key)
  {
  }

  /** A worker that cleans up leaves no file of its own. */
  lemma FailDeletes(trace: seq<Label>, i: nat, deletes: bool, marks: bool, first: seq<Label>, second: seq<Label>)
    requires Leaves(first, i)
    requires var w := RunOf(START, trace); i < |w.parties| && w.parties[i].Cleaning?
    ensures var labels := (first + [CleanUp(i, deletes)]) + (second + [MarkFailed(i, marks)]);
      deletes ==> IsGone(RunOf(START, trace + labels), RunOf(START, trace).parties[i].key)
  {
    if deletes {
      RunSafe(trace);
      CleanedUp(RunOf(START, trace), i, first, second + [MarkFailed(i, marks)]);
      RunAppended(START, trace, (first + [CleanUp(i, deletes)]) + (second + [MarkFailed(i, marks)]));
    }
  }

  lemma CleanedUp(w: World, i: nat, first: seq<Label>, last: seq<Label>)
    requires Safe(w) && i < |w.parties| && w.parties[i].Cleaning? && Leaves(first, i)
    ensures IsGone(RunOf(w, (first + [CleanUp(i, true)]) + last), w.parties[i].key)
  {
    var own := first + [CleanUp(i, true)];
    RunStaysSafe(w, first);
    RunKeepsParty(w, first, i);
    CleanUpDeletes(RunOf(w, first), i);
    RunExtended(w, first, CleanUp(i, true));
    StaysGone(RunOf(w, own), last, w.parties[i].key);
    RunAppended(w, own, last);
  }

  lemma StagesJoin(start: seq<Label>, a: seq<Label>, b: seq<Label>)
    ensures start + a + b == start + (a + b)
  {
  }

  // ---------------------------------------------------------------------------------------------
  // Claiming
  // ---------------------------------------------------------------------------------------------

  class Repository {
    const shared: Shared

    constructor (shared: Shared)
      ensures this.shared == shared
    {
      this.shared := shared;
    }

    /** The first candidate in the order of service among those not taken yet. */
    method FirstCandidate(staleMs: nat, taken: set<nat>) returns (best: Option<nat>)
      ensures best.Some? ==> Candidate(shared.w, best.value, staleMs) && best.value !in taken
      ensures forall r :: Candidate(shared.w, r, staleMs) && r !in taken ==>
                best.Some? && (r == best.value || Precedes(shared.w, best.value, r))
    {
      best := None;
      for r := 0 to |shared.w.requests|
        invariant best.Some? ==> best.value < r && Candidate(shared.w, best.value, staleMs) && best.value !in taken
        invariant forall q :: 0 <= q < r && Candidate(shared.w, q, staleMs) && q !in taken ==>
                    best.Some? && (q == best.value || Precedes(shared.w, best.value, q))
      {
        if Claimable(shared.w.requests[r], shared.w.time, staleMs) && r !in taken {
          if best.None? || Precedes(shared.w, r, best.value) {
            best := Some(r);
          }
        }
      }
    }

    /** The candidates a claim selects: up to the limit, and none passed over in the order of service. */
    method SelectCandidates(limit: nat, staleMs: nat) returns (taken: set<nat>)
      ensures Chosen(shared.w, staleMs, limit, taken)
    {
      taken := {};
      while |taken| < limit
        invariant |taken| <= limit
        invariant forall r :: r in taken ==> Candidate(shared.w, r, staleMs)
        invariant forall r, t :: Candidate(shared.w, r, staleMs) && r !in taken && t in taken ==>
          Precedes(shared.w, t, r)
        decreases limit - |taken|
      {
        var best := FirstCandidate(staleMs, taken);
        if best.None? {
          return;
        }
        taken := taken + {best.value};
      }
    }

    /** Requests in the order they were created. */
    method InCreationOrder(taken: set<nat>) returns (ids: seq<nat>)
      requires forall r :: r in taken ==> r < |shared.w.requests|
      ensures forall r :: r in ids <==> r in taken
      ensures |ids| == |taken| && Ascending(ids)
    {
      ids := [];
      ghost var seen: set<nat> := {};
      for r := 0 to |shared.w.requests|
        invariant forall t :: t in seen <==> t in taken && t < r
        invariant forall t :: t in ids <==> t in seen
        invariant |ids| == |seen| && Ascending(ids)
      {
        if r in taken {
          AscendingGrows(ids, r);
          ids := ids + [r];
          seen := seen + {r};
        }
      }
      assert seen == taken;
    }

    /**
      claimPendingRequestsForProcessing: one atomic statement, then a read of the claimed rows, oldest
      first. What it claims nobody else can claim until it goes stale again, and each claimed request
      has a worker of its own.
    */
    method ClaimPending(limit: nat, staleProcessingMs: Option<int>) returns (claimed: seq<nat>)
      requires shared.Valid()
      modifies shared
      ensures shared.Valid() && Selected(old(shared.w), BoundedStaleMs(staleProcessingMs), limit, claimed)
      ensures ClaimedUpTo(old(shared.w), shared.w, claimed, |claimed|)
      ensures forall r :: r in claimed ==> !Candidate(shared.w, r, BoundedStaleMs(staleProcessingMs))
    {
      var staleMs := BoundedStaleMs(staleProcessingMs);
      var taken := SelectCandidates(limit, staleMs);
      claimed := InCreationOrder(taken);
      SelectedInOrder(shared.w, staleMs, limit, taken, claimed);
      for k := 0 to |claimed|
        invariant shared.Valid() && ClaimedUpTo(old(shared.w), shared.w, claimed, k)
      {
        ghost var before := shared.w;
        shared.Do(Claim(claimed[k], staleMs));
        ClaimsOneMore(old(shared.w), before, staleMs, limit, claimed, k);
      }
    }
  }

  ghost predicate Ascending(ids: seq<nat>) {
    forall k, m :: 0 <= k < m < |ids| ==> ids[k] < ids[m]
  }

  lemma AscendingGrows(ids: seq<nat>, r: nat)
    requires Ascending(ids) && forall t :: t in ids ==> t < r
    ensures Ascending(ids + [r])
  {
    forall k | 0 <= k < |ids| ensures ids[k] < r {
      assert ids[k] in ids;
    }
  }

  ghost predicate Chosen(w: World, staleMs: nat, limit: nat, taken: set<nat>) {
    && |taken| <= limit
    && (forall r :: r in taken ==> Candidate(w, r, staleMs))
    && (forall r :: Candidate(w, r, staleMs) && r !in taken ==>
       |taken| == limit && forall t :: t in taken ==> Precedes(w, t, r))
  }

  /** The choice, oldest first. */
  ghost predicate Selected(w: World, staleMs: nat, limit: nat, claimed: seq<nat>) {
    && |claimed| <= limit && Ascending(claimed)
    && (forall k :: 0 <= k < |claimed| ==> Candidate(w, claimed[k], staleMs))
    && (forall r :: Candidate(w, r, staleMs) && r !in claimed ==>
          |claimed| == limit && forall k :: 0 <= k < |claimed| ==> Precedes(w, claimed[k], r))
  }

  lemma SelectedInOrder(w: World, staleMs: nat, limit: nat, taken: set<nat>, claimed: seq<nat>)
    requires Chosen(w, staleMs, limit, taken) && Ascending(claimed) && |claimed| == |taken|
    requires forall r :: r in claimed <==> r in taken
    ensures Selected(w, staleMs, limit, claimed)
  {
    forall k | 0 <= k < |claimed| ensures Candidate(w, claimed[k], staleMs) {
      assert claimed[k] in taken;
    }
    forall r, k | Candidate(w, r, staleMs) && r !in claimed && 0 <= k < |claimed| ensures Precedes(w, claimed[k], r) {
      assert claimed[k] in taken;
    }
  }

  /** The first k claims are made: those requests are processing since now, each by a new worker. */
  ghost predicate ClaimedUpTo(start: World, w: World, claimed: seq<nat>, k: nat)
    requires k <= |claimed|
  {
    && w == start.(requests := w.requests, parties := w.parties)
    && |w.requests| == |start.requests| && |w.parties| == |start.parties| + k
    && (forall j :: 0 <= j < |start.parties| ==> w.parties[j] == start.parties[j])
    && (forall j :: 0 <= j < k ==> w.parties[|start.parties| + j] == Working(claimed[j]))
    && (forall r :: 0 <= r < |w.requests| ==>
          w.requests[r] == if r in claimed[..k] then Claimed(start.requests[r], start.time) else start.requests[r])
  }

  lemma ClaimsOneMore(start: World, w: World, staleMs: nat, limit: nat, claimed: seq<nat>, k: nat)
    requires Selected(start, staleMs, limit, claimed) && k < |claimed| && ClaimedUpTo(start, w, claimed, k)
    ensures ClaimedUpTo(start, Step(w, Claim(claimed[k], staleMs)), claimed, k + 1)
  {
    assert claimed[..k + 1] == claimed[..k] + [claimed[k]];
    assert Candidate(start, claimed[k], staleMs);
    forall j | 0 <= j < k ensures claimed[j] != claimed[k] {
      assert claimed[j] < claimed[k];
    }
    assert claimed[k] !in claimed[..k];
  }

  // ---------------------------------------------------------------------------------------------
  // Cleanup job
  // ---------------------------------------------------------------------------------------------

  /** The fate of one export's cleanup: what others do before each of its two steps, and what becomes of them. */
  datatype SweepFate = SweepFate(before: seq<Label>, deletes: bool, between: seq<Label>, marks: Delivery)

  /** The mark is executed; if it is not answered the job counts a failure all the same. */
  predicate Marks(fate: SweepFate) {
    fate.marks != NotExecuted
  }

  function Failures(fates: seq<SweepFate>): nat {
    if fates == [] then 0 else Failures(fates[..|fates| - 1]) + if fates[|fates| - 1].marks == Delivered then 0 else 1
  }

  ghost function Unanswered(fates: seq<SweepFate>): set<nat> {
    set k: nat | k < |fates| && fates[k].marks != Delivered
  }

  /** The failed counter tells how many marks were not executed or not answered. */
  lemma {:induction false} FailuresCount(fates: seq<SweepFate>)
    ensures Failures(fates) == |Unanswered(fates)|
  {
    if fates == [] {
      assert Unanswered(fates) == {};
    } else {
      var n: nat := |fates| - 1;
      var pre := fates[..n];
      FailuresCount(pre);
      assert Unanswered(fates) == if fates[n].marks != Delivered then Unanswered(pre) + {n} else Unanswered(pre);
    }
  }

  function ExpiryOf(w: World, r: nat): nat {
    if r < |w.requests| then w.requests[r].expiresAt.GetOr(0) else 0
  }

  ghost predicate Overdue(w: World, r: nat) {
    r < |w.requests| && IsOver(w.requests[r], w.time)
  }

  ghost predicate FoundOverdue(w: World, batchSize: nat, found: seq<nat>) {
    && |found| <= batchSize
    && (forall k :: 0 <= k < |found| ==> Overdue(w, found[k]))
    && (forall k, m :: 0 <= k < m < |found| ==> found[k] != found[m] && ExpiryOf(w, found[k]) <= ExpiryOf(w, found[m]))
    && (forall r :: Overdue(w, r) && r !in found ==>
          |found| == batchSize && forall k :: 0 <= k < |found| ==> ExpiryOf(w, found[k]) <= ExpiryOf(w, r))
  }

  /** The stretch of a run one export's cleanup takes. */
  function SweepSteps(i: nat, fate: SweepFate): seq<Label> {
    (fate.before + [SweepDelete(i, fate.deletes)]) + (fate.between + [SweepMark(i, Marks(fate))])
  }

  function AllSweeps(sweepers: seq<nat>, fates: seq<SweepFate>): seq<Label>
    requires |sweepers| == |fates|
  {
    if fates == [] then []
    else
      var n := |fates| - 1;
      AllSweeps(sweepers[..n], fates[..n]) + SweepSteps(sweepers[n], fates[n])
  }

  ghost predicate IsExpired(w: World, req: nat) {
    req < |w.requests| && w.requests[req].status == Expired
  }

  ghost predicate Sweeps(w: World, i: nat, req: nat) {
    i < |w.parties| && w.parties[i].Sweeping? && w.parties[i].req == req
  }

  /** After its deletion, done or failed, the sweeper is about to mark. */
  lemma SweepReachesMark(w: World, before: seq<Label>, i: nat, req: nat, deleted: bool)
    requires Sweeps(w, i, req) && Leaves(before, i)
    ensures i < |RunOf(w, before + [SweepDelete(i, deleted)]).parties|
    ensures RunOf(w, before + [SweepDelete(i, deleted)]).parties[i] == SweepMarking(req)
  {
    RunKeepsParty(w, before, i);
    RunExtended(w, before, SweepDelete(i, deleted));
  }

  /** The file is gone, and its key is not given out again. */
  ghost predicate IsGone(w: World, key: nat) {
    key !in w.files && key < w.nextKey
  }

  lemma {:induction false} StaysGone(w: World, labels: seq<Label>, key: nat)
    requires IsGone(w, key)
    ensures IsGone(RunOf(w, labels), key)
  {
    if labels == [] {
    } else {
      StaysGone(w, labels[..|labels| - 1], key);
    }
  }

  lemma SweepDeletes(w: World, before: seq<Label>, i: nat, key: nat)
    requires i < |w.parties| && w.parties[i].Sweeping? && w.parties[i].key == key && Leaves(before, i)
    requires Safe(RunOf(w, before))
    ensures IsGone(RunOf(w, before + [SweepDelete(i, true)]), key)
  {
    RunKeepsParty(w, before, i);
    RunExtended(w, before, SweepDelete(i, true));
    assert Sane(RunOf(w, before), RunOf(w, before).parties[i]);
  }

  lemma MarkExpires(w: World, between: seq<Label>, i: nat, req: nat)
    requires i < |w.parties| && w.parties[i] == SweepMarking(req) && Leaves(between, i) && Safe(RunOf(w, between))
    ensures IsExpired(RunOf(w, between + [SweepMark(i, true)]), req)
  {
    RunKeepsParty(w, between, i);
    RunExtended(w, between, SweepMark(i, true));
    assert Sane(RunOf(w, between), RunOf(w, between).parties[i]);
  }

  lemma {:induction false} RunStaysSafe(w: World, labels: seq<Label>)
    requires Safe(w)
    ensures Safe(RunOf(w, labels))
  {
    if labels == [] {
    } else {
      RunStaysSafe(w, labels[..|labels| - 1]);
      StepSafe(RunOf(w, labels[..|labels| - 1]), labels[|labels| - 1]);
    }
  }

  /** What a sweep is for: its export is expired if the mark is executed, and its file gone if the deletion is. */
  ghost predicate SweptOut(w: World, req: nat, key: nat, fate: SweepFate) {
    (Marks(fate) ==> IsExpired(w, req)) && (fate.deletes ==> IsGone(w, key))
  }

  /** Whoever got there first. */
  lemma SweepExpires(w: World, i: nat, req: nat, fate: SweepFate)
    requires Safe(w) && Sweeps(w, i, req)
    requires Leaves(fate.before, i) && Leaves(fate.between, i)
    ensures SweptOut(RunOf(w, SweepSteps(i, fate)), req, w.parties[i].key, fate)
  {
    var first, second := fate.before + [SweepDelete(i, fate.deletes)], fate.between + [SweepMark(i, Marks(fate))];
    SweepReachesMark(w, fate.before, i, req, fate.deletes);
    RunStaysSafe(w, fate.before);
    RunStaysSafe(w, first);
    RunStaysSafe(RunOf(w, first), fate.between);
    RunAppended(w, first, second);
    if Marks(fate) {
      MarkExpires(RunOf(w, first), fate.between, i, req);
    }
    if fate.deletes {
      SweepDeletes(w, fate.before, i, w.parties[i].key);
      StaysGone(RunOf(w, first), second, w.parties[i].key);
    }
  }

  /** Nobody else takes the sweepers' steps. */
  ghost predicate Undisturbed(sweepers: seq<nat>, fates: seq<SweepFate>) {
    && (forall m, n :: 0 <= m < n < |sweepers| ==> sweepers[m] != sweepers[n])
    && (forall m, n :: 0 <= m < |fates| && 0 <= n < |sweepers| ==>
          Leaves(fates[m].before, sweepers[n]) && Leaves(fates[m].between, sweepers[n]))
  }

  lemma {:induction false} SweepsLeave(sweepers: seq<nat>, fates: seq<SweepFate>, n: nat, i: nat)
    requires Undisturbed(sweepers, fates) && n <= i < |sweepers| == |fates|
    ensures Leaves(AllSweeps(sweepers[..n], fates[..n]), sweepers[i])
  {
    if n == 0 {
    } else {
      SweepsLeave(sweepers, fates, n - 1, i);
      SweepsUnfold(sweepers, fates, n);
    }
  }

  lemma SweepsUnfold(sweepers: seq<nat>, fates: seq<SweepFate>, n: nat)
    requires 0 < n <= |sweepers| == |fates|
    ensures AllSweeps(sweepers[..n], fates[..n])
      == AllSweeps(sweepers[..n - 1], fates[..n - 1]) + SweepSteps(sweepers[n - 1], fates[n - 1])
  {
    assert sweepers[..n][..n - 1] == sweepers[..n - 1] && fates[..n][..n - 1] == fates[..n - 1];
  }

  /** The sweep whose turn comes is where it was when the job began, and sweeps its export out. */
  lemma NextSweepExpires(w: World, sweepers: seq<nat>, fates: seq<SweepFate>, n: nat, req: nat)
    requires Safe(w) && Undisturbed(sweepers, fates) && n < |sweepers| == |fates| && Sweeps(w, sweepers[n], req)
    ensures SweptOut(RunOf(w, AllSweeps(sweepers[..n], fates[..n]) + SweepSteps(sweepers[n], fates[n])), req,
      w.parties[sweepers[n]].key, fates[n])
  {
    var earlier := AllSweeps(sweepers[..n], fates[..n]);
    SweepsLeave(sweepers, fates, n, n);
    RunKeepsParty(w, earlier, sweepers[n]);
    RunStaysSafe(w, earlier);
    SweepExpires(RunOf(w, earlier), sweepers[n], req, fates[n]);
    RunAppended(w, earlier, SweepSteps(sweepers[n], fates[n]));
  }

  lemma StaysSweptOut(w: World, labels: seq<Label>, req: nat, key: nat, fate: SweepFate)
    requires Safe(w) && SweptOut(w, req, key, fate)
    ensures SweptOut(RunOf(w, labels), req, key, fate)
  {
    if Marks(fate) {
      RunOnward(w, labels, req);
    }
    if fate.deletes {
      StaysGone(w, labels, key);
    }
  }

  /**
    When the job ends, whatever the others did meanwhile, every export it found is expired whose mark was executed,
    and every file gone whose deletion was.
  */
  lemma {:induction false} AllSweepsExpire(w: World, sweepers: seq<nat>, fates: seq<SweepFate>, n: nat, k: nat,
                                           req: nat)
    requires Safe(w) && Undisturbed(sweepers, fates) && k < n <= |sweepers| == |fates|
    requires Sweeps(w, sweepers[k], req)
    ensures SweptOut(RunOf(w, AllSweeps(sweepers[..n], fates[..n])), req, w.parties[sweepers[k]].key, fates[k])
  {
    SweepsUnfold(sweepers, fates, n);
    if k == n - 1 {
      NextSweepExpires(w, sweepers, fates, k, req);
    } else {
      AllSweepsExpire(w, sweepers, fates, n - 1, k, req);
      var earlier := AllSweeps(sweepers[..n - 1], fates[..n - 1]);
      RunStaysSafe(w, earlier);
      StaysSweptOut(RunOf(w, earlier), SweepSteps(sweepers[n - 1], fates[n - 1]), req, w.parties[sweepers[k]].key,
        fates[k]);
      RunAppended(w, earlier, SweepSteps(sweepers[n - 1], fates[n - 1]));
    }
  }

  class CleanupService {
    const shared: Shared

    constructor (shared: Shared)
      ensures this.shared == shared
    {
      this.shared := shared;
    }

    method Earliest(left: set<nat>) returns (first: nat)
      requires left != {}
      ensures first in left && forall r :: r in left ==> ExpiryOf(shared.w, first) <= ExpiryOf(shared.w, r)
    {
      first :| first in left;
      var rest := left - {first};
      while rest != {}
        invariant rest <= left && first in left
        invariant forall r :: r in left && r !in rest ==> ExpiryOf(shared.w, first) <= ExpiryOf(shared.w, r)
        decreases |rest|
      {
        var r :| r in rest;
        if ExpiryOf(shared.w, r) < ExpiryOf(shared.w, first) {
          first := r;
        }
        rest := rest - {r};
      }
    }

    /** The query of the cleanup job: overdue completed exports, the longest expired first, none passed over. */
    method FindExpiredExports(batchSize: nat) returns (found: seq<nat>)
      ensures FoundOverdue(shared.w, batchSize, found)
    {
      var all := set r | 0 <= r < |shared.w.requests| && IsOver(shared.w.requests[r], shared.w.time);
      assert forall r :: r in all <==> Overdue(shared.w, r);
      found := [];
      var left := all;
      while left != {} && |found| < batchSize
        invariant |found| <= batchSize && left <= all
        invariant forall r :: r in all ==> r in left || r in found
        invariant forall k :: 0 <= k < |found| ==> found[k] !in left && found[k] in all
        invariant forall k, m :: 0 <= k < m < |found| ==>
          found[k] != found[m] && ExpiryOf(shared.w, found[k]) <= ExpiryOf(shared.w, found[m])
        invariant forall k, r :: 0 <= k < |found| && r in left ==> ExpiryOf(shared.w, found[k]) <= ExpiryOf(shared.w, r)
        decreases |left|
      {
        var r := Earliest(left);
        found := found + [r];
        left := left - {r};
      }
    }

    /** One export: delete its file, carry on if that fails, then mark it expired. */
    method CleanupSingleExport(i: nat, fate: SweepFate)
      requires shared.Valid()
      modifies shared
      ensures shared.Valid() && shared.trace == old(shared.trace) + SweepSteps(i, fate)
    {
      ghost var start := shared.trace;
      shared.DoAfter(fate.before, SweepDelete(i, fate.deletes));
      shared.DoAfter(fate.between, SweepMark(i, Marks(fate)));
      StagesJoin(start, fate.before + [SweepDelete(i, fate.deletes)], fate.between + [SweepMark(i, Marks(fate))]);
    }

    /** The loop over the exports found: a failure is counted and does not stop the others. */
    method CleanUpAll(sweepers: seq<nat>, fates: seq<SweepFate>) returns (deleted: nat, failed: nat)
      requires shared.Valid() && |sweepers| == |fates|
      modifies shared
      ensures shared.Valid() && shared.trace == old(shared.trace) + AllSweeps(sweepers, fates)
      ensures deleted + failed == |fates| && failed == Failures(fates)
    {
      deleted, failed := 0, 0;
      for k := 0 to |fates|
        invariant shared.Valid() && shared.trace == old(shared.trace) + AllSweeps(sweepers[..k], fates[..k])
        invariant deleted + failed == k && failed == Failures(fates[..k])
      {
        CleanupSingleExport(sweepers[k], fates[k]);
        SweepsAppend(old(shared.trace), sweepers, fates, k);
        if fates[k].marks == Delivered {
          deleted := deleted + 1;
        } else {
          failed := failed + 1;
        }
      }
      assert fates[..|fates|] == fates && sweepers[..|fates|] == sweepers;
    }

    /** Takes up the exports found, each as a party of its own. */
    method TakeUp(batchSize: nat, found: seq<nat>) returns (sweepers: seq<nat>)
      requires shared.Valid() && FoundOverdue(shared.w, batchSize, found)
      modifies shared
      ensures shared.Valid() && shared.trace == old(shared.trace) + FindAll(found)
      ensures TakenUp(old(shared.w), shared.w, found, |found|) && sweepers == Sweepers(|old(shared.w).parties|, |found|)
    {
      RunOutcomes(shared.trace);
      sweepers := [];
      for k := 0 to |found|
        invariant shared.Valid() && shared.trace == old(shared.trace) + FindAll(found[..k])
        invariant TakenUp(old(shared.w), shared.w, found, k) && sweepers == Sweepers(|old(shared.w).parties|, k)
      {
        TakesOneMore(old(shared.w), shared.w, batchSize, found, k);
        ListsOneMore(old(shared.trace), |old(shared.w).parties|, found, k);
        sweepers := sweepers + [|shared.w.parties|];
        shared.Do(FindExpired(found[k]));
      }
      assert found[..|found|] == found;
    }

    /**
      cleanupExpiredExports. Whatever the others do meanwhile, each export it found and could mark is
      expired at the end; fates are those of the exports a batch may hold.
    */
    method CleanupExpiredExports(batchSize: nat, fates: seq<SweepFate>)
      returns (found: seq<nat>, deleted: nat, failed: nat)
      requires shared.Valid() && |fates| == batchSize
      requires OthersOnly(fates, |shared.w.parties|, batchSize)
      modifies shared
      ensures shared.Valid() && FoundOverdue(old(shared.w), batchSize, found)
      ensures deleted + failed == |found| && failed == Failures(fates[..|found|])
      ensures shared.trace == old(shared.trace) + FindAll(found)
        + AllSweeps(Sweepers(|old(shared.w).parties|, |found|), fates[..|found|])
      ensures forall k :: 0 <= k < |found| && Marks(fates[k]) ==> IsExpired(shared.w, found[k])
      ensures forall k :: 0 <= k < |found| && fates[k].deletes ==> FileGone(old(shared.w), shared.w, found[k])
    {
      found := FindExpiredExports(batchSize);
      var sweepers := TakeUp(batchSize, found);
      RunSafe(shared.trace);
      RunAppended(START, shared.trace, AllSweeps(sweepers, fates[..|found|]));
      TakenUpExpire(old(shared.w), shared.w, found, fates);
      deleted, failed := CleanUpAll(sweepers, fates[..|found|]);
    }
  }

  function FindAll(found: seq<nat>): (r: seq<Label>)
    ensures |r| == |found|
  {
    seq(|found|, k requires 0 <= k < |found| => FindExpired(found[k]))
  }

  function Sweepers(first: nat, n: nat): (r: seq<nat>)
    ensures |r| == n && forall k :: 0 <= k < n ==> r[k] == first + k
  {
    seq(n, k => first + k)
  }

  lemma ListsOneMore(start: seq<Label>, first: nat, found: seq<nat>, k: nat)
    requires k < |found|
    ensures start + FindAll(found[..k]) + [FindExpired(found[k])] == start + FindAll(found[..k + 1])
    ensures Sweepers(first, k) + [first + k] == Sweepers(first, k + 1)
  {
    assert FindAll(found[..k + 1]) == FindAll(found[..k]) + [FindExpired(found[k])];
  }

  lemma TakesOneMore(start: World, w: World, batchSize: nat, found: seq<nat>, k: nat)
    requires FoundOverdue(start, batchSize, found) && Outcomes(start) && k < |found| && TakenUp(start, w, found, k)
    ensures TakenUp(start, Step(w, FindExpired(found[k])), found, k + 1)
  {
    assert Overdue(start, found[k]);
  }

  /** The file the request named is gone. */
  ghost predicate FileGone(before: World, after: World, req: nat) {
    && req < |before.requests| && before.requests[req].payload.Some?
    && before.requests[req].payload.value !in after.files
  }

  lemma TakenUpExpire(start: World, w: World, found: seq<nat>, fates: seq<SweepFate>)
    requires Safe(w) && TakenUp(start, w, found, |found|) && |found| <= |fates|
      && OthersOnly(fates, |start.parties|, |fates|)
    ensures var end := RunOf(w, AllSweeps(Sweepers(|start.parties|, |found|), fates[..|found|]));
      && (forall k :: 0 <= k < |found| && Marks(fates[k]) ==> IsExpired(end, found[k]))
      && (forall k :: 0 <= k < |found| && fates[k].deletes ==> FileGone(start, end, found[k]))
  {
    var sweepers, mine := Sweepers(|start.parties|, |found|), fates[..|found|];
    var end := RunOf(w, AllSweeps(sweepers, mine));
    assert sweepers[..|found|] == sweepers && mine[..|found|] == mine;
    forall k | 0 <= k < |found|
      ensures (Marks(fates[k]) ==> IsExpired(end, found[k])) && (fates[k].deletes ==> FileGone(start, end, found[k]))
    {
      assert mine[k] == fates[k];
      assert Sane(w, w.parties[sweepers[k]]);
      AllSweepsExpire(w, sweepers, mine, |found|, k, found[k]);
    }
  }

  /** The first k exports found have a sweeper each, and nothing else has changed. */
  ghost predicate TakenUp(start: World, w: World, found: seq<nat>, k: nat) {
    && k <= |found|
    && w == start.(parties := w.parties) && |w.parties| == |start.parties| + k
    && (forall j :: 0 <= j < k ==> Sweeps(w, |start.parties| + j, found[j]))
  }

  /** Nobody else takes the steps of the n parties from i on. */
  ghost predicate OthersOnly(fates: seq<SweepFate>, i: nat, n: nat) {
    forall m, j :: 0 <= m < |fates| && i <= j < i + n ==> Leaves(fates[m].before, j) && Leaves(fates[m].between, j)
  }

  lemma SweepsAppend(start: seq<Label>, sweepers: seq<nat>, fates: seq<SweepFate>, k: nat)
    requires |sweepers| == |fates| && k < |fates|
    ensures start + AllSweeps(sweepers[..k], fates[..k]) + SweepSteps(sweepers[k], fates[k])
      == start + AllSweeps(sweepers[..k + 1], fates[..k + 1])
    ensures Failures(fates[..k + 1]) == Failures(fates[..k]) + if fates[k].marks == Delivered then 0 else 1
  {
    assert fates[..k + 1][..k] == fates[..k] && sweepers[..k + 1][..k] == sweepers[..k];
  }

  // ---------------------------------------------------------------------------------------------
  // Delivery
  // ---------------------------------------------------------------------------------------------

  datatype Denial = NotFound | Forbidden | NotReady | HasExpired

  datatype Download = Authorized(key: nat) | Denied(reason: Denial) | Threw

  datatype StatusReply = Shown(status: Status, downloadAvailable: bool) | Refused(reason: Denial)

  /** What handling an expired export adds to the run; w is the world its mark finds. */
  function ExpiryTrace(w: World, req: nat, i: nat, mark: Delivery, beforeDelete: seq<Label>,
                       deletes: bool): seq<Label> {
    [ExpireMark(i, mark)]
    + (if mark == Delivered && req < |w.requests|
      && w.requests[req].status == Completed then beforeDelete + [ExpireDelete(i, deletes)] else [])
  }

  /** What a download attempt that got past the checks on its caller adds to the run. */
  function DownloadTrace(w: World, req: nat, before: seq<Label>, signs: bool, mark: Delivery, beforeDelete: seq<Label>,
                         deletes: bool): seq<Label> {
    if req >= |w.requests| || w.requests[req].status != Completed then []
    else if !IsOver(w.requests[req], w.time) then
      [ExportLifecycle.Download(req)] + (before + [Sign(|w.parties|, signs)])
    else
      [ExportLifecycle.Download(req)]
      + (before + ExpiryTrace(RunOf(Step(w, ExportLifecycle.Download(req)), before), req, |w.parties|, mark,
        beforeDelete, deletes))
  }

  /** The status shown to the user: an export past its expiry counts as expired before anyone marks it. */
  function EffectiveStatus(r: Request, now: nat): Status {
    if Past(r, now) then Expired else r.status
  }

  /** A download attempt that is not interrupted: it looks, and signs if there is something to sign. */
  function Attempted(w: World, r: nat): World {
    Step(Step(w, ExportLifecycle.Download(r)), Sign(|w.parties|, true))
  }

  /**
    What the status page says and what a download finds. In every reachable state an export shown as
    completed is one a download gets past all checks of the request; but a link is signed only for a file
    that is there, so it is granted exactly unless the export's own worker has deleted the file. No other
    export is granted.
  */
  lemma StatusAgreesWithDownload(labels: seq<Label>, r: nat)
    requires r < |RunOf(START, labels).requests|
    ensures var w := RunOf(START, labels);
      var shown, z := EffectiveStatus(w.requests[r], w.time) == Completed, Attempted(w, r);
      && (shown ==> w.requests[r].payload.Some?)
      && z.grants == w.grants + (if shown && w.requests[r].payload.value !in w.selfDeleted
           then [Grant(r, w.requests[r].payload.value, w.time, true)] else [])
      && (shown && |z.grants| == |w.grants| <==> shown && w.requests[r].payload.value in w.selfDeleted)
  {
    RunSafe(labels);
    LookFinds(RunOf(START, labels), r);
  }

  /** What the look at a request leads to. */
  lemma LookFinds(w: World, r: nat)
    requires Safe(w) && r < |w.requests|
    ensures var z := Step(w, ExportLifecycle.Download(r));
      if EffectiveStatus(w.requests[r], w.time) == Completed
      then w.requests[r].payload.Some? && z == w.(parties := w.parties + [Signing(r, w.requests[r].payload.value)])
      else z.grants == w.grants && (|w.parties| < |z.parties| ==> !z.parties[|w.parties|].Signing?)
  {
  }

  /** It happens: the page offers a download of a completed export, and the download is refused for want of the file. */
  lemma ShownWithoutFile(expiresAt: nat) returns (labels: seq<Label>)
    ensures var w := RunOf(START, labels);
      && |w.requests| == 1 && EffectiveStatus(w.requests[0], w.time) == Completed
      && Attempted(w, 0).grants == w.grants
  {
    labels := LostReplyLosesFile(expiresAt);
    StatusAgreesWithDownload(labels, 0);
    RunSafe(labels);
  }

  /** Of a COMPLETED export past its expiry, no status page and no download tells anything but that it expired. */
  lemma OverdueIsShownExpired(labels: seq<Label>, r: nat)
    requires r < |RunOf(START, labels).requests|
    ensures var w := RunOf(START, labels);
      (EffectiveStatus(w.requests[r], w.time) == Expired <==>
        w.requests[r].status == Expired || IsOver(w.requests[r], w.time))
  {
    RunOutcomes(labels);
  }

  class DeliveryService {
    const shared: Shared

    constructor (shared: Shared)
      ensures this.shared == shared
    {
      this.shared := shared;
    }

    /** getExportStatus: the status shown and whether a download is offered, or the error thrown. */
    method GetExportStatus(req: nat, known: bool, owns: bool, isExport: bool) returns (r: StatusReply)
      ensures r.Shown? <==> known && req < |shared.w.requests| && owns && isExport
      ensures r == Refused(Forbidden) <==> known && req < |shared.w.requests| && !owns
      ensures r.Refused? ==> r.reason == Forbidden || r.reason == NotFound
      ensures r.Shown? ==>
        && r.status == EffectiveStatus(shared.w.requests[req], shared.w.time)
        && (r.downloadAvailable <==> r.status == Completed)
    {
      if !known {
        return Refused(NotFound);
      }
      if req >= |shared.w.requests| {
        return Refused(NotFound);
      }
      if !owns {
        return Refused(Forbidden);
      }
      if !isExport {
        return Refused(NotFound);
      }
      var request := shared.w.requests[req];
      var isExpired := request.expiresAt.Some? && request.expiresAt.value < shared.w.time;
      var status := if isExpired then Expired else request.status;
      return Shown(status, status == Completed);
    }

    /**
      handleExpiredExport, by the download attempt that found the export overdue: mark first, and only
      the party whose mark took effect deletes the file.
    */
    method HandleExpiredExport(i: nat, mark: Delivery, beforeDelete: seq<Label>, deletes: bool) returns (won: bool)
      requires shared.Valid() && i < |shared.w.parties| && shared.w.parties[i].Expiring?
      requires Leaves(beforeDelete, i)
      modifies shared
      ensures shared.Valid()
      ensures won ==> |old(shared.w).expiries| < |shared.w.expiries|
      ensures old(shared.w).parties[i].req < |old(shared.w).requests|
      ensures won <==> mark == Delivered && old(shared.w).requests[old(shared.w).parties[i].req].status == Completed
      ensures shared.trace == old(shared.trace)
        + ExpiryTrace(old(shared.w), old(shared.w).parties[i].req, i, mark, beforeDelete, deletes)
      ensures won && deletes ==> old(shared.w).parties[i].key !in shared.w.files
    {
      ghost var start, key := shared.trace, shared.w.parties[i].key;
      RunSafe(shared.trace);
      ExpiryMarks(shared.w, i, mark);
      shared.Do(ExpireMark(i, mark));
      won := shared.w.parties[i].ExpireDeleting?;
      if won {
        ghost var marked := shared.w;
        shared.Others(beforeDelete);
        RunKeepsParty(marked, beforeDelete, i);
        HistoryGrows(marked, beforeDelete);
        ExpiryDeletes(shared.w, i, deletes);
        shared.Do(ExpireDelete(i, deletes));
        Regroup(start, [ExpireMark(i, mark)], beforeDelete, [ExpireDelete(i, deletes)]);
      }
    }

    /** A download attempt that finds the export overdue. */
    method TurnAway(req: nat, before: seq<Label>, mark: Delivery, beforeDelete: seq<Label>, deletes: bool)
      requires shared.Valid() && req < |shared.w.requests| && IsOver(shared.w.requests[req], shared.w.time)
      requires Leaves(before, |shared.w.parties|) && Leaves(beforeDelete, |shared.w.parties|)
      modifies shared
      ensures shared.Valid()
      ensures forall signs ::
        shared.trace == old(shared.trace)
          + DownloadTrace(old(shared.w), req, before, signs, mark, beforeDelete, deletes)
    {
      ghost var start := shared.trace;
      RunOutcomes(shared.trace);
      var i := |shared.w.parties|;
      shared.Do(ExportLifecycle.Download(req));
      ghost var found := shared.w;
      shared.Others(before);
      RunKeepsParty(found, before, i);
      ghost var last := ExpiryTrace(shared.w, req, i, mark, beforeDelete, deletes);
      var _ := HandleExpiredExport(i, mark, beforeDelete, deletes);
      Regroup(start, [ExportLifecycle.Download(req)], before, last);
    }

    /** generateDownloadUrl, by the attempt that found the export completed, after what others did meanwhile. */
    method SignLink(req: nat, before: seq<Label>, signs: bool) returns (r: Download)
      requires shared.Valid() && req < |shared.w.requests|
      requires EffectiveStatus(shared.w.requests[req], shared.w.time) == Completed
      requires Leaves(before, |shared.w.parties|)
      modifies shared
      ensures shared.Valid() && Signed(old(shared.w).requests[req], shared.w, signs, r)
      ensures shared.trace == old(shared.trace)
        + ([ExportLifecycle.Download(req)] + (before + [Sign(|old(shared.w).parties|, signs)]))
    {
      ghost var start := shared.trace;
      RunSafe(shared.trace);
      LookFinds(shared.w, req);
      var i, request := |shared.w.parties|, shared.w.requests[req];
      shared.Do(ExportLifecycle.Download(req));
      ghost var found := shared.w;
      shared.Others(before);
      RunKeepsParty(found, before, i);
      RunOnward(found, before, req);
      ghost var meanwhile := shared.w;
      shared.Do(Sign(i, signs));
      Regroup(start, [ExportLifecycle.Download(req)], before, [Sign(i, signs)]);
      SignFinds(shared.trace, req);
      var key := request.payload.value;
      assert shared.w.files == meanwhile.files;
      return if signs && key in shared.w.files then Authorized(key) else Threw;
    }

    /** authorizeDownload from its look at the status on: the request is an export of the caller's. */
    method Deliver(req: nat, signs: bool, before: seq<Label>, mark: Delivery, beforeDelete: seq<Label>,
                   deletes: bool) returns (r: Download)
      requires shared.Valid() && req < |shared.w.requests|
      requires Leaves(before, |shared.w.parties|) && Leaves(beforeDelete, |shared.w.parties|)
      modifies shared
      ensures shared.Valid()
      ensures var request := old(shared.w).requests[req];
        match EffectiveStatus(request, old(shared.w).time)
        case Completed => Signed(request, shared.w, signs, r)
        case Expired => r == Denied(HasExpired)
        case Failed => r == Denied(NotFound)
        case _ => r == Denied(NotReady)
      ensures shared.trace == old(shared.trace)
        + DownloadTrace(old(shared.w), req, before, signs, mark, beforeDelete, deletes)
    {
      DownloadFinds(shared.trace, req);
      var request := shared.w.requests[req];
      if request.status != Completed {
        return Denied(if request.status == Failed then NotFound else if request.status == Expired then HasExpired
          else NotReady);
      }
      if IsOver(request, shared.w.time) {
        TurnAway(req, before, mark, beforeDelete, deletes);
        return Denied(HasExpired);
      }
      r := SignLink(req, before, signs);
    }

    /**
      authorizeDownload. It answers by what one read of the request shows, and grants a download only of a
      completed export of the caller's own that was not overdue then, and only with its file still there.
    */
    method AuthorizeDownload(req: nat, known: bool, owns: bool, isExport: bool, signs: bool, before: seq<Label>,
                             mark: Delivery, beforeDelete: seq<Label>, deletes: bool) returns (r: Download)
      requires shared.Valid()
      requires Leaves(before, |shared.w.parties|) && Leaves(beforeDelete, |shared.w.parties|)
      modifies shared
      ensures shared.Valid()
      ensures r.Authorized? || r.Threw? <==>
        && known && owns && isExport
        && req < |old(shared.w).requests|
        && EffectiveStatus(old(shared.w).requests[req], old(shared.w).time) == Completed
      ensures r.Authorized? || r.Threw? ==> Signed(old(shared.w).requests[req], shared.w, signs, r)
      ensures r == Denied(HasExpired) <==>
        && known && owns && isExport
        && req < |old(shared.w).requests| && EffectiveStatus(old(shared.w).requests[req], old(shared.w).time) == Expired
      ensures r == Denied(NotReady) <==>
        && known && owns && isExport
        && req < |old(shared.w).requests| && old(shared.w).requests[req].status in {Pending, Processing}
      ensures r == Denied(Forbidden) <==> !known || (req < |old(shared.w).requests| && !owns)
      ensures r == Denied(NotFound) <==>
        known && (req >= |old(shared.w).requests|
          || (owns && (!isExport || old(shared.w).requests[req].status == Failed)))
      ensures shared.trace == old(shared.trace)
        + if known && owns && isExport
          then DownloadTrace(old(shared.w), req, before, signs, mark, beforeDelete, deletes)
          else []
    {
      if !known {
        return Denied(Forbidden);
      }
      if req >= |shared.w.requests| {
        return Denied(NotFound);
      }
      if !owns {
        return Denied(Forbidden);
      }
      if !isExport {
        return Denied(NotFound);
      }
      DownloadFinds(shared.trace, req);
      r := Deliver(req, signs, before, mark, beforeDelete, deletes);
    }
  }

  /**
    The answer for an export that was found completed, in the world at the end: a link if it could be
    signed and nobody has deleted the file, neither the export's own worker nor, once the export was
    overdue, a cleanup or another download attempt.
  */
  ghost predicate Signed(request: Request, w: World, signs: bool, r: Download) {
    && request.payload.Some?
    && var key := request.payload.value;
       && r == (if signs && key in w.files then Authorized(key) else Threw)
       && (key in w.files <==> !Removed(w, key))
       && (!Past(request, w.time) ==> (key in w.files <==> key !in w.selfDeleted))
  }

  /** What has become of a completed export's file. */
  lemma SignFinds(labels: seq<Label>, req: nat)
    requires var w := RunOf(START, labels); req < |w.requests| && w.requests[req].payload.Some?
    ensures var w := RunOf(START, labels); var key := w.requests[req].payload.value;
      && (key in w.files <==> !Removed(w, key))
      && (!Past(w.requests[req], w.time) ==> (key in w.files <==> key !in w.selfDeleted))
  {
    RunKept(labels);
    RunSafe(labels);
    RunExpiredPast(labels);
  }

  /** The mark takes effect for this party if its reply arrives and nobody was faster. */
  lemma ExpiryMarks(w: World, i: nat, mark: Delivery)
    requires Safe(w) && i < |w.parties| && w.parties[i].Expiring?
    ensures var req, z := w.parties[i].req, Step(w, ExpireMark(i, mark));
      && req < |w.requests|
      && |z.parties| == |w.parties|
      && (var won := mark == Delivered && w.requests[req].status == Completed;
          && z.parties[i] == (if won then ExpireDeleting(req, w.parties[i].key) else Gone)
          && (won ==> |w.expiries| < |z.expiries|))
  {
    assert Sane(w, w.parties[i]);
  }

  lemma ExpiryDeletes(w: World, i: nat, deletes: bool)
    requires i < |w.parties| && w.parties[i].ExpireDeleting?
    ensures var z := Step(w, ExpireDelete(i, deletes));
      z.expiries == w.expiries && (deletes ==> w.parties[i].key !in z.files)
  {
  }

  lemma Regroup(start: seq<Label>, a: seq<Label>, b: seq<Label>, c: seq<Label>)
    ensures start + a + b + c == start + (a + (b + c))
  {
  }

  /** What a download can rely on when it looks at a request. */
  lemma DownloadFinds(labels: seq<Label>, req: nat)
    requires req < |RunOf(START, labels).requests|
    ensures var w := RunOf(START, labels); var request := w.requests[req];
      && (request.expiresAt.Some? ==> request.status == Completed || request.status == Expired)
      && (EffectiveStatus(request, w.time) == Completed ==>
            request.payload.Some? && (request.payload.value in w.files || request.payload.value in w.selfDeleted))
  {
    RunSafe(labels);
  }

  lemma {:induction false} HistoryGrows(w: World, labels: seq<Label>)
    ensures |w.expiries| <= |RunOf(w, labels).expiries|
  {
    if labels == [] {
    } else {
      HistoryGrows(w, labels[..|labels| - 1]);
    }
  }

  lemma PipelineTraceSplits(i: nat, expiresAt: nat, fate: PipelineFate, others: seq<seq<Label>>, start: seq<Label>,
                            completed: seq<Label>)
    requires |others| == 4 && fate.renders && fate.store == Delivered && fate.complete != Delivered
    requires completed == start + ((others[0] + [Store(i, Delivered)])
      + (others[1] + [Complete(i, expiresAt, fate.complete)]))
    ensures completed + ((others[2] + [CleanUp(i, fate.deletes)]) + (others[3] + [MarkFailed(i, fate.marks)]))
         == start + PipelineTrace(i, expiresAt, fate, others)
  {
  }

  lemma CompletingParty(w: World, i: nat, expiresAt: nat, delivery: Delivery)
    requires i < |w.parties| && w.parties[i].Stored? && w.parties[i].req < |w.requests|
    ensures var z := CompleteStep(w, i, expiresAt, delivery);
      i < |z.parties|
      && z.parties[i] == if delivery == Delivered then Reporting(w.parties[i].req)
         else Cleaning(w.parties[i].req, w.parties[i].key)
  {
  }
}
