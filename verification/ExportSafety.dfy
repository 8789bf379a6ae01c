/**
  What every run of the export lifecycle keeps: a completed export that has not expired names a file
  that is there, one worker completes it and one party expires it.
*/
module ExportSafety {
  import opened Options
  import opened ExportLifecycle

  /** The worker that still may delete a file as its own. */
  function Owned(p: Party): Option<nat> {
    match p
    case Stored(_, key) => Some(key)
    case Cleaning(_, key) => Some(key)
    case _ => None
  }

  predicate Names(r: Request, key: nat) {
    r.payload == Some(key)
  }

  predicate Past(r: Request, time: nat) {
    r.expiresAt.Some? && r.expiresAt.value < time
  }

  /** What a party may rely on between two of its steps. */
  ghost predicate Sane(w: World, p: Party) {
    match p
    case Gone => true
    case Working(req) => req < |w.requests|
    case Reporting(req) => req < |w.requests|
    case SweepMarking(req) => req < |w.requests| && Past(w.requests[req], w.time)
    case Stored(req, key) =>
      && req < |w.requests| && key in w.files && key !in w.selfDeleted
      && forall r :: 0 <= r < |w.requests| ==> !Names(w.requests[r], key)
    case Cleaning(req, key) =>
      && req < |w.requests| && key !in w.selfDeleted
      && forall r :: 0 <= r < |w.requests| && Names(w.requests[r], key) ==> key in w.lostReplies
    case Sweeping(req, key) => req < |w.requests| && Names(w.requests[req], key) && Past(w.requests[req], w.time)
    case Signing(req, key) => req < |w.requests| && Names(w.requests[req], key)
    case Expiring(req, key) => req < |w.requests| && Names(w.requests[req], key) && Past(w.requests[req], w.time)
    case ExpireDeleting(req, key) =>
      req < |w.requests| && Names(w.requests[req], key) && w.requests[req].status == Expired
  }

  ghost predicate AllSane(w: World) {
    forall i :: 0 <= i < |w.parties| ==> Sane(w, w.parties[i])
  }

  /** Keys are fresh: each is one worker's, and one request's at most. */
  ghost predicate FreshKeys(w: World) {
    && (forall key :: key in w.files ==> key < w.nextKey)
    && (forall key :: key in w.selfDeleted ==> key < w.nextKey)
    && (forall i :: 0 <= i < |w.parties| && Owned(w.parties[i]).Some? ==> Owned(w.parties[i]).value < w.nextKey)
    && (forall i, j :: 0 <= i < j < |w.parties| && Owned(w.parties[i]).Some? ==>
       Owned(w.parties[i]) != Owned(w.parties[j]))
    && (forall r :: 0 <= r < |w.requests| && w.requests[r].payload.Some? ==> w.requests[r].payload.value < w.nextKey)
    && (forall r, q :: 0 <= r < q < |w.requests| && w.requests[r].payload.Some? ==>
       w.requests[r].payload != w.requests[q].payload)
  }

  /**
    A completed export that is not past its expiry names a file that is there, exactly unless the
    worker that completed it deleted it itself, and that only after the reply to its update was lost.
  */
  ghost predicate Available(w: World) {
    && (forall r :: 0 <= r < |w.requests| && w.requests[r].status == Completed && !Past(w.requests[r], w.time) ==>
          w.requests[r].payload.Some?
          && (w.requests[r].payload.value in w.files <==> w.requests[r].payload.value !in w.selfDeleted))
    && (forall r :: 0 <= r < |w.requests| && w.requests[r].payload.Some? ==>
          w.requests[r].payload.value in w.selfDeleted ==> w.requests[r].payload.value in w.lostReplies)
  }

  ghost predicate Safe(w: World) {
    Outcomes(w) && AllSane(w) && FreshKeys(w) && Available(w)
  }

  lemma TickSafe(w: World, ms: nat)
    requires Safe(w)
    ensures Safe(Step(w, Tick(ms)))
  {
    var z := Step(w, Tick(ms));
    forall i | 0 <= i < |z.parties| ensures Sane(z, z.parties[i]) {
      assert Sane(w, w.parties[i]);
    }
  }

  lemma SubmitSafe(w: World)
    requires Safe(w)
    ensures Safe(Step(w, Submit))
  {
    var z := Step(w, Submit);
    forall i | 0 <= i < |z.parties| ensures Sane(z, z.parties[i]) {
      assert Sane(w, w.parties[i]);
    }
  }

  lemma ClaimSafe(w: World, req: nat, staleMs: nat)
    requires Safe(w)
    ensures Safe(ClaimStep(w, req, staleMs))
  {
    var z := ClaimStep(w, req, staleMs);
    forall i | 0 <= i < |w.parties| ensures Sane(z, w.parties[i]) {
      assert Sane(w, w.parties[i]);
    }
  }

  /** A party that gives up its key, or never had one, may become anything that asks nothing. */
  lemma BecomeSafe(w: World, i: nat, p: Party)
    requires Safe(w) && i < |w.parties| && Sane(w, p) && Owned(p).None?
    ensures Safe(Become(w, i, p))
  {
    var z := Become(w, i, p);
    forall j | 0 <= j < |z.parties| ensures Sane(z, z.parties[j]) {
      assert j != i ==> Sane(w, w.parties[j]);
      assert Sane(w, z.parties[j]);
    }
  }

  lemma StoreSafe(w: World, i: nat, delivery: Delivery)
    requires Safe(w)
    ensures Safe(StoreStep(w, i, delivery))
  {
    if i < |w.parties| && w.parties[i].Working? {
      var z := StoreStep(w, i, delivery);
      assert Sane(w, w.parties[i]);
      forall j | 0 <= j < |z.parties| ensures Sane(z, z.parties[j]) {
        assert Sane(w, w.parties[j]);
      }
    }
  }

  lemma CompletedSane(w: World, i: nat, expiresAt: nat, delivery: Delivery)
    requires Safe(w) && i < |w.parties| && w.parties[i].Stored? && w.requests[w.parties[i].req].status == Processing
    requires delivery != NotExecuted
    ensures AllSane(CompleteStep(w, i, expiresAt, delivery)) && FreshKeys(CompleteStep(w, i, expiresAt, delivery))
  {
    var z := CompleteStep(w, i, expiresAt, delivery);
    assert Sane(w, w.parties[i]);
    forall j | 0 <= j < |z.parties| ensures Sane(z, z.parties[j]) {
      assert Sane(w, w.parties[j]);
    }
  }

  lemma CompleteSafe(w: World, i: nat, expiresAt: nat, delivery: Delivery)
    requires Safe(w)
    ensures Safe(CompleteStep(w, i, expiresAt, delivery))
  {
    StepOutcomes(w, Complete(i, expiresAt, delivery));
    if i < |w.parties| && w.parties[i].Stored? {
      assert Sane(w, w.parties[i]);
      if delivery != NotExecuted && w.requests[w.parties[i].req].status == Processing {
        CompletedSane(w, i, expiresAt, delivery);
      } else if delivery == Delivered {
        BecomeSafe(w, i, Reporting(w.parties[i].req));
      } else {
        var z := CompleteStep(w, i, expiresAt, delivery);
        forall j | 0 <= j < |z.parties| ensures Sane(z, z.parties[j]) {
          assert Sane(w, w.parties[j]);
        }
      }
    }
  }

  lemma CleanUpSafe(w: World, i: nat, deleted: bool)
    requires Safe(w)
    ensures Safe(CleanUpStep(w, i, deleted))
  {
    if i < |w.parties| && w.parties[i].Cleaning? {
      assert Sane(w, w.parties[i]);
      var z := CleanUpStep(w, i, deleted);
      forall j | 0 <= j < |z.parties| ensures Sane(z, z.parties[j]) {
        assert Sane(w, w.parties[j]);
        assert j != i ==> Owned(w.parties[j]) != Owned(w.parties[i]);
      }
    }
  }

  lemma MarkFailedSafe(w: World, i: nat, executed: bool)
    requires Safe(w)
    ensures Safe(MarkFailedStep(w, i, executed))
  {
    var z := MarkFailedStep(w, i, executed);
    forall j | 0 <= j < |z.parties| ensures Sane(z, z.parties[j]) {
      assert Sane(w, w.parties[j]);
    }
  }

  lemma NewPartySafe(w: World, p: Party)
    requires Safe(w) && Sane(w, p) && Owned(p).None?
    ensures Safe(w.(parties := w.parties + [p]))
  {
    var z := w.(parties := w.parties + [p]);
    forall j | 0 <= j < |z.parties| ensures Sane(z, z.parties[j]) {
      assert j < |w.parties| ==> Sane(w, w.parties[j]);
      assert Sane(w, z.parties[j]);
    }
  }

  /** Deleting a file that no worker and no unexpired export relies on. */
  lemma DeleteSafe(w: World, key: nat)
    requires Safe(w)
    requires exists r ::
      && 0 <= r < |w.requests| && Names(w.requests[r], key)
      && (w.requests[r].status == Expired || Past(w.requests[r], w.time))
    ensures Safe(w.(files := w.files - {key}))
  {
    var z := w.(files := w.files - {key});
    var r :| 0 <= r < |w.requests| && Names(w.requests[r], key)
      && (w.requests[r].status == Expired || Past(w.requests[r], w.time));
    forall j | 0 <= j < |z.parties| ensures Sane(z, z.parties[j]) {
      assert Sane(w, w.parties[j]);
    }
    forall q | 0 <= q < |w.requests| && w.requests[q].status == Completed && !Past(w.requests[q], w.time)
      ensures w.requests[q].payload != Some(key)
    {
      assert q != r;
      assert q < r ==> w.requests[q].payload != w.requests[r].payload;
    }
  }

  lemma SweepDeleteSafe(w: World, i: nat, deleted: bool)
    requires Safe(w)
    ensures Safe(SweepDeleteStep(w, i, deleted))
  {
    if i < |w.parties| && w.parties[i].Sweeping? {
      assert Sane(w, w.parties[i]);
      var req, key := w.parties[i].req, w.parties[i].key;
      BecomeSafe(w, i, SweepMarking(req));
      if deleted {
        DeleteSafe(Become(w, i, SweepMarking(req)), key);
      }
    }
  }

  lemma ExpiredSafe(w: World, req: nat)
    requires Safe(w) && req < |w.requests|
    ensures Safe(Update(w, req, ExpiredUnless(w.requests[req], w.time)))
  {
    var z := Update(w, req, ExpiredUnless(w.requests[req], w.time));
    forall j | 0 <= j < |z.parties| ensures Sane(z, z.parties[j]) {
      assert Sane(w, w.parties[j]);
    }
  }

  /** Safety does not look at the history of expiries, grants and deletions. */
  lemma HistoryApart(w: World, z: World)
    requires Safe(w)
    requires z == w.(expiries := z.expiries, grants := z.grants, completions := z.completions, fates := z.fates)
    ensures Safe(z)
  {
    forall j | 0 <= j < |z.parties| ensures Sane(z, z.parties[j]) {
      assert Sane(w, w.parties[j]);
    }
  }

  lemma SweepMarkSafe(w: World, i: nat, executed: bool)
    requires Safe(w)
    ensures Safe(SweepMarkStep(w, i, executed))
  {
    if i < |w.parties| && w.parties[i].SweepMarking? {
      assert Sane(w, w.parties[i]);
      var req := w.parties[i].req;
      if !executed || w.requests[req].status != Completed {
        BecomeSafe(w, i, Gone);
      } else {
        ExpiredSafe(w, req);
        BecomeSafe(Update(w, req, ExpiredUnless(w.requests[req], w.time)), i, Gone);
        HistoryApart(Become(Update(w, req, ExpiredUnless(w.requests[req], w.time)), i, Gone),
          SweepMarkStep(w, i, executed));
      }
    }
  }

  lemma DownloadSafe(w: World, req: nat)
    requires Safe(w)
    ensures Safe(DownloadStep(w, req)) && Safe(FindExpiredStep(w, req))
  {
    if req < |w.requests| && w.requests[req].status == Completed && w.requests[req].payload.Some? {
      var key := w.requests[req].payload.value;
      if IsOver(w.requests[req], w.time) {
        NewPartySafe(w, Expiring(req, key));
        NewPartySafe(w, Sweeping(req, key));
      } else {
        NewPartySafe(w, Signing(req, key));
      }
    }
  }

  lemma SignSafe(w: World, i: nat, signs: bool)
    requires Safe(w)
    ensures Safe(SignStep(w, i, signs))
  {
    if i < |w.parties| && w.parties[i].Signing? {
      BecomeSafe(w, i, Gone);
      HistoryApart(Become(w, i, Gone), SignStep(w, i, signs));
    }
  }

  lemma ExpireMarkSafe(w: World, i: nat, delivery: Delivery)
    requires Safe(w)
    ensures Safe(ExpireMarkStep(w, i, delivery))
  {
    if i < |w.parties| && w.parties[i].Expiring? {
      assert Sane(w, w.parties[i]);
      var req, key := w.parties[i].req, w.parties[i].key;
      if delivery == NotExecuted || w.requests[req].status != Completed {
        BecomeSafe(w, i, Gone);
      } else {
        ExpiredSafe(w, req);
        var marked := Update(w, req, ExpiredUnless(w.requests[req], w.time));
        BecomeSafe(marked, i, if delivery == Delivered then ExpireDeleting(req, key) else Gone);
        HistoryApart(Become(marked, i, if delivery == Delivered then ExpireDeleting(req, key) else Gone),
          ExpireMarkStep(w, i, delivery));
      }
    }
  }

  lemma ExpireDeleteSafe(w: World, i: nat, deleted: bool)
    requires Safe(w)
    ensures Safe(ExpireDeleteStep(w, i, deleted))
  {
    if i < |w.parties| && w.parties[i].ExpireDeleting? {
      assert Sane(w, w.parties[i]);
      var key := w.parties[i].key;
      BecomeSafe(w, i, Gone);
      if deleted {
        DeleteSafe(Become(w, i, Gone), key);
      }
    }
  }

  predicate IsWorkers(l: Label) {
    l.Break? || l.Store? || l.Complete? || l.CleanUp? || l.MarkFailed?
  }

  predicate IsCleanups(l: Label) {
    l.FindExpired? || l.SweepDelete? || l.SweepMark?
  }

  predicate IsDownloads(l: Label) {
    l.Download? || l.Sign? || l.ExpireMark? || l.ExpireDelete?
  }

  lemma WorkerSafe(w: World, l: Label)
    requires Safe(w) && IsWorkers(l)
    ensures Safe(Step(w, l))
  {
    match l
    case Break(i) =>
      if i < |w.parties| && w.parties[i].Working? {
        assert Sane(w, w.parties[i]);
        BecomeSafe(w, i, Reporting(w.parties[i].req));
      }
    case Store(i, delivery) => StoreSafe(w, i, delivery);
    case Complete(i, expiresAt, delivery) => CompleteSafe(w, i, expiresAt, delivery);
    case CleanUp(i, deleted) => CleanUpSafe(w, i, deleted);
    case MarkFailed(i, executed) => MarkFailedSafe(w, i, executed);
  }

  lemma CleanupSafe(w: World, l: Label)
    requires Safe(w) && IsCleanups(l)
    ensures Safe(Step(w, l))
  {
    match l
    case FindExpired(req) => DownloadSafe(w, req);
    case SweepDelete(i, deleted) => SweepDeleteSafe(w, i, deleted);
    case SweepMark(i, executed) => SweepMarkSafe(w, i, executed);
  }

  lemma DeliverySafe(w: World, l: Label)
    requires Safe(w) && IsDownloads(l)
    ensures Safe(Step(w, l))
  {
    match l
    case Download(req) => DownloadSafe(w, req);
    case Sign(i, signs) => SignSafe(w, i, signs);
    case ExpireMark(i, delivery) => ExpireMarkSafe(w, i, delivery);
    case ExpireDelete(i, deleted) => ExpireDeleteSafe(w, i, deleted);
  }

  lemma LeaveSafe(w: World, i: nat)
    requires Safe(w)
    ensures Safe(LeaveStep(w, i))
  {
    if i < |w.parties| {
      BecomeSafe(w, i, Gone);
      HistoryApart(Become(w, i, Gone), LeaveStep(w, i));
    }
  }

  lemma StepSafe(w: World, l: Label)
    requires Safe(w)
    ensures Safe(Step(w, l))
  {
    match l
    case Tick(ms) => TickSafe(w, ms);
    case Submit => SubmitSafe(w);
    case Claim(req, staleMs) => ClaimSafe(w, req, staleMs);
    case Leave(i) => LeaveSafe(w, i);
    case _ =>
      if IsWorkers(l) {
        WorkerSafe(w, l);
      } else if IsCleanups(l) {
        CleanupSafe(w, l);
      } else {
        DeliverySafe(w, l);
      }
  }

  lemma {:induction false} RunSafe(labels: seq<Label>)
    ensures Safe(RunOf(START, labels))
  {
    if labels == [] {
    } else {
      RunSafe(labels[..|labels| - 1]);
      StepSafe(RunOf(START, labels[..|labels| - 1]), labels[|labels| - 1]);
    }
  }

  /**
    Main result. In every reachable state a completed export whose expiry is not past names a file
    that is there, unless its own worker deleted it after losing the reply to the completing update.
  */
  lemma CompletedExportIsAvailable(labels: seq<Label>, r: nat)
    requires var w := RunOf(START, labels);
      r < |w.requests| && w.requests[r].status == Completed && !Past(w.requests[r], w.time)
    ensures var w := RunOf(START, labels);
      && w.requests[r].payload.Some?
      && (w.requests[r].payload.value in w.files <==> w.requests[r].payload.value !in w.selfDeleted)
      && (w.requests[r].payload.value !in w.lostReplies ==> w.requests[r].payload.value in w.files)
  {
    RunSafe(labels);
  }

  lemma RunExtended(w: World, labels: seq<Label>, l: Label)
    ensures RunOf(w, labels + [l]) == Step(RunOf(w, labels), l)
  {
    assert (labels + [l])[..|labels|] == labels;
  }

  /** A request whose only worker has stored its file. */
  lemma FirstStored() returns (labels: seq<Label>)
    ensures RunOf(START, labels)
         == START.(requests := [Request(Processing, 0, None, None)], files := {0}, nextKey := 1,
                   parties := [Stored(0, 0)])
  {
    labels := [];
    RunExtended(START, labels, Submit);
    labels := labels + [Submit];
    RunExtended(START, labels, Claim(0, 0));
    labels := labels + [Claim(0, 0)];
    RunExtended(START, labels, Store(0, Delivered));
    labels := labels + [Store(0, Delivered)];
  }

  /** The exception is real: the update is committed, its reply lost, and the worker cleans up after itself. */
  lemma LostReplyLosesFile(expiresAt: nat) returns (labels: seq<Label>)
    ensures var w := RunOf(START, labels);
      && |w.requests| == 1 && w.requests[0].status == Completed && !Past(w.requests[0], w.time)
      && w.requests[0].payload.Some? && w.requests[0].payload.value !in w.files
  {
    labels := FirstStored();
    RunExtended(START, labels, Complete(0, expiresAt, ReplyLost));
    labels := labels + [Complete(0, expiresAt, ReplyLost)];
    RunExtended(START, labels, CleanUp(0, true));
    labels := labels + [CleanUp(0, true)];
  }

  // ---------------------------------------------------------------------------------------------
  // Winners
  // ---------------------------------------------------------------------------------------------

  /** Each named file was put there by the one completion of its request. */
  ghost predicate OneCompletion(w: World) {
    && (forall i :: 0 <= i < |w.completions| ==>
          w.completions[i].req < |w.requests| && w.requests[w.completions[i].req].payload == Some(w.completions[i].key))
    && (forall i, j :: 0 <= i < j < |w.completions| ==> w.completions[i].req != w.completions[j].req)
    && (forall r :: 0 <= r < |w.requests| && w.requests[r].payload.Some? ==>
          exists i :: 0 <= i < |w.completions| && w.completions[i].req == r)
  }

  ghost predicate OneExpiry(w: World) {
    && (forall i :: 0 <= i < |w.expiries| ==>
          w.expiries[i].req < |w.requests| && w.requests[w.expiries[i].req].status == Expired)
    && (forall i, j :: 0 <= i < j < |w.expiries| ==> w.expiries[i].req != w.expiries[j].req)
    && (forall r :: 0 <= r < |w.requests| && w.requests[r].status == Expired ==>
          exists i :: 0 <= i < |w.expiries| && w.expiries[i].req == r)
  }

  /** Steps that complete nothing and expire nothing. */
  ghost predicate Uneventful(w: World, z: World) {
    && |w.requests| <= |z.requests|
    && z.completions == w.completions && z.expiries == w.expiries
    && (forall r :: 0 <= r < |w.requests| ==>
          z.requests[r].payload == w.requests[r].payload
            && (z.requests[r].status == Expired <==> w.requests[r].status == Expired))
    && (forall r :: |w.requests| <= r < |z.requests| ==> z.requests[r].payload.None? && z.requests[r].status != Expired)
  }

  predicate Eventful(w: World, l: Label) {
    match l
    case Complete(i, _, delivery) =>
      i < |w.parties| && w.parties[i].Stored? && w.parties[i].req < |w.requests|
      && w.requests[w.parties[i].req].status == Processing && delivery != NotExecuted
    case SweepMark(i, executed) =>
      i < |w.parties| && w.parties[i].SweepMarking? && w.parties[i].req < |w.requests|
      && w.requests[w.parties[i].req].status == Completed && executed
    case ExpireMark(i, delivery) =>
      i < |w.parties| && w.parties[i].Expiring? && w.parties[i].req < |w.requests|
      && w.requests[w.parties[i].req].status == Completed && delivery != NotExecuted
    case _ => false
  }

  lemma StepUneventful(w: World, l: Label)
    requires Outcomes(w) && !Eventful(w, l)
    ensures Uneventful(w, Step(w, l))
  {
  }

  lemma CompletionsKept(w: World, z: World)
    requires OneCompletion(w) && z.completions == w.completions && |w.requests| <= |z.requests|
    requires forall r :: 0 <= r < |w.requests| ==> z.requests[r].payload == w.requests[r].payload
    requires forall r :: |w.requests| <= r < |z.requests| ==> z.requests[r].payload.None?
    ensures OneCompletion(z)
  {
    forall r | 0 <= r < |z.requests| && z.requests[r].payload.Some?
      ensures exists i :: 0 <= i < |z.completions| && z.completions[i].req == r
    {
      assert w.requests[r].payload.Some?;
    }
  }

  lemma ExpiriesKept(w: World, z: World)
    requires OneExpiry(w) && z.expiries == w.expiries && |w.requests| <= |z.requests|
    requires forall r :: 0 <= r < |w.requests| ==>
      (z.requests[r].status == Expired <==> w.requests[r].status == Expired)
    requires forall r :: |w.requests| <= r < |z.requests| ==> z.requests[r].status != Expired
    ensures OneExpiry(z)
  {
    forall r | 0 <= r < |z.requests| && z.requests[r].status == Expired
      ensures exists i :: 0 <= i < |z.expiries| && z.expiries[i].req == r
    {
      assert w.requests[r].status == Expired;
    }
  }

  lemma CompletionAdded(w: World, z: World, done: Completion)
    requires OneCompletion(w) && done.req < |w.requests| && w.requests[done.req].payload.None?
    requires z.completions == w.completions + [done] && |z.requests| == |w.requests|
    requires forall r :: 0 <= r < |w.requests| && r != done.req ==> z.requests[r].payload == w.requests[r].payload
    requires z.requests[done.req].payload == Some(done.key)
    ensures OneCompletion(z)
  {
    assert z.completions[|w.completions|] == done;
    forall r | 0 <= r < |z.requests| && z.requests[r].payload.Some?
      ensures exists k :: 0 <= k < |z.completions| && z.completions[k].req == r
    {
      if r != done.req {
        assert w.requests[r].payload.Some?;
        var k :| 0 <= k < |w.completions| && w.completions[k].req == r;
        assert z.completions[k].req == r;
      }
    }
  }

  lemma ExpiryAdded(w: World, z: World, done: Expiry)
    requires OneExpiry(w) && done.req < |w.requests| && w.requests[done.req].status != Expired
    requires z.expiries == w.expiries + [done] && |z.requests| == |w.requests|
    requires forall r :: 0 <= r < |w.requests| && r != done.req ==> z.requests[r].status == w.requests[r].status
    requires z.requests[done.req].status == Expired
    ensures OneExpiry(z)
  {
    assert z.expiries[|w.expiries|] == done;
    forall r | 0 <= r < |z.requests| && z.requests[r].status == Expired
      ensures exists k :: 0 <= k < |z.expiries| && z.expiries[k].req == r
    {
      if r != done.req {
        assert w.requests[r].status == Expired;
        var k :| 0 <= k < |w.expiries| && w.expiries[k].req == r;
        assert z.expiries[k].req == r;
      }
    }
  }

  lemma StepWinners(w: World, l: Label)
    requires Outcomes(w) && OneCompletion(w) && OneExpiry(w)
    ensures OneCompletion(Step(w, l)) && OneExpiry(Step(w, l))
  {
    var z := Step(w, l);
    if !Eventful(w, l) {
      StepUneventful(w, l);
      CompletionsKept(w, z);
      ExpiriesKept(w, z);
    } else {
      var req := w.parties[l.party].req;
      match l
      case Complete(i, _, _) =>
        CompletionAdded(w, z, Completion(req, w.parties[i].key, i));
        ExpiriesKept(w, z);
      case SweepMark(i, _) =>
        CompletionsKept(w, z);
        ExpiryAdded(w, z, Expiry(req, i));
      case ExpireMark(i, _) =>
        CompletionsKept(w, z);
        ExpiryAdded(w, z, Expiry(req, i));
    }
  }

  lemma {:induction false} RunWinners(labels: seq<Label>)
    ensures OneCompletion(RunOf(START, labels)) && OneExpiry(RunOf(START, labels))
  {
    if labels == [] {
    } else {
      RunOutcomes(labels[..|labels| - 1]);
      RunWinners(labels[..|labels| - 1]);
      StepWinners(RunOf(START, labels[..|labels| - 1]), labels[|labels| - 1]);
    }
  }

  /**
    However many workers reclaim a request, at most one completion takes effect and the request names
    that worker's file; of the cleanup job and the downloads exactly one party expires it.
  */
  lemma OneWinnerEach(labels: seq<Label>, r: nat)
    requires r < |RunOf(START, labels).requests|
    ensures var w := RunOf(START, labels);
      && (w.requests[r].payload.Some? <==> exists i :: 0 <= i < |w.completions| && w.completions[i].req == r)
      && (forall i :: 0 <= i < |w.completions| && w.completions[i].req == r ==>
         w.requests[r].payload == Some(w.completions[i].key))
      && (forall i, j :: 0 <= i < |w.completions| && 0 <= j < |w.completions| ==>
            w.completions[i].req == r == w.completions[j].req ==> i == j)
      && (w.requests[r].status == Expired <==> exists i :: 0 <= i < |w.expiries| && w.expiries[i].req == r)
      && (forall i, j :: 0 <= i < |w.expiries| && 0 <= j < |w.expiries| ==>
            w.expiries[i].req == r == w.expiries[j].req ==> i == j)
  {
    RunWinners(labels);
  }

  // ---------------------------------------------------------------------------------------------
  // Downloads
  // ---------------------------------------------------------------------------------------------

  /** Each download was granted for the file its export names, while it was there. */
  ghost predicate GrantHonest(w: World, g: Grant) {
    g.present && g.at <= w.time && g.req < |w.requests| && Names(w.requests[g.req], g.key)
  }

  ghost predicate GrantsHonest(w: World) {
    forall i :: 0 <= i < |w.grants| ==> GrantHonest(w, w.grants[i])
  }

  /** A step grants at most one download more. */
  lemma StepGrants(w: World, l: Label)
    requires Safe(w)
    ensures var z := Step(w, l);
      || z.grants == w.grants
      || (|z.grants| == |w.grants| + 1 && z.grants[..|w.grants|] == w.grants && GrantHonest(w, z.grants[|w.grants|]))
  {
    if l.Sign? && l.party < |w.parties| {
      assert Sane(w, w.parties[l.party]);
    }
  }

  lemma StaysHonest(w: World, l: Label, g: Grant)
    requires Safe(w) && GrantHonest(w, g)
    ensures GrantHonest(Step(w, l), g)
  {
    StepOnward(w, l, g.req);
  }

  lemma StepGrantsHonest(w: World, l: Label)
    requires Safe(w) && GrantsHonest(w)
    ensures GrantsHonest(Step(w, l))
  {
    var z := Step(w, l);
    StepGrants(w, l);
    forall i | 0 <= i < |z.grants| ensures GrantHonest(z, z.grants[i]) {
      if i < |w.grants| {
        assert z.grants[i] == z.grants[..|w.grants|][i] || z.grants == w.grants;
        assert GrantHonest(w, w.grants[i]);
      }
      StaysHonest(w, l, z.grants[i]);
    }
  }

  lemma {:induction false} DownloadsFindTheirFile(labels: seq<Label>)
    ensures GrantsHonest(RunOf(START, labels))
  {
    if labels == [] {
    } else {
      DownloadsFindTheirFile(labels[..|labels| - 1]);
      RunSafe(labels[..|labels| - 1]);
      StepGrantsHonest(RunOf(START, labels[..|labels| - 1]), labels[|labels| - 1]);
    }
  }

  // ---------------------------------------------------------------------------------------------
  // Files that stay
  // ---------------------------------------------------------------------------------------------

  /** The party will delete the file if it gets that far. */
  predicate May(p: Party, key: nat) {
    match p
    case Cleaning(_, k) => k == key
    case Sweeping(_, k) => k == key
    case Expiring(_, k) => k == key
    case ExpireDeleting(_, k) => k == key
    case Stored(_, k) => k == key
    case _ => false
  }

  /** The export has expired, its file is still there, and nobody is on the way to delete it. */
  ghost predicate LeftBehind(w: World, r: nat) {
    && r < |w.requests| && w.requests[r].status == Expired && w.requests[r].payload.Some?
    && w.requests[r].payload.value in w.files
    && (forall i :: 0 <= i < |w.parties| ==> !May(w.parties[i], w.requests[r].payload.value))
  }

  /** A party not on its way to a file does not get on its way to it: a worker's own file is a new one. */
  lemma StaysAway(w: World, l: Label, i: nat, key: nat)
    requires i < |w.parties| && !May(w.parties[i], key) && key < w.nextKey
    ensures i < |Step(w, l).parties| && !May(Step(w, l).parties[i], key)
  {
  }

  lemma NewcomerStaysAway(w: World, l: Label, i: nat, r: nat)
    requires |w.parties| <= i < |Step(w, l).parties| && FreshKeys(w)
    requires r < |w.requests| && w.requests[r].status == Expired && w.requests[r].payload.Some?
    ensures !May(Step(w, l).parties[i], w.requests[r].payload.value)
  {
  }

  lemma StepNobodyMay(w: World, l: Label, r: nat)
    requires Safe(w) && LeftBehind(w, r)
    ensures forall i :: 0 <= i < |Step(w, l).parties| ==> !May(Step(w, l).parties[i], w.requests[r].payload.value)
  {
    forall i | 0 <= i < |Step(w, l).parties| ensures !May(Step(w, l).parties[i], w.requests[r].payload.value) {
      if i < |w.parties| {
        StaysAway(w, l, i, w.requests[r].payload.value);
      } else {
        NewcomerStaysAway(w, l, i, r);
      }
    }
  }

  lemma StepKeepsFile(w: World, l: Label, key: nat)
    requires key in w.files && forall i :: 0 <= i < |w.parties| ==> !May(w.parties[i], key)
    ensures key in Step(w, l).files
  {
  }

  lemma StepLeavesBehind(w: World, l: Label, r: nat)
    requires Safe(w) && LeftBehind(w, r)
    ensures LeftBehind(Step(w, l), r)
  {
    StepOnward(w, l, r);
    StepNobodyMay(w, l, r);
    StepKeepsFile(w, l, w.requests[r].payload.value);
  }

  /**
    A deletion that fails is not tried again: a file whose export is marked expired while nobody is
    about to delete it stays in the storage in every continuation of the run.
  */
  lemma {:induction false} ExpiredFileStays(labels: seq<Label>, more: seq<Label>, r: nat)
    requires LeftBehind(RunOf(START, labels), r)
    ensures Safe(RunOf(RunOf(START, labels), more)) && LeftBehind(RunOf(RunOf(START, labels), more), r)
  {
    if more == [] {
      RunSafe(labels);
    } else {
      ExpiredFileStays(labels, more[..|more| - 1], r);
      var w := RunOf(RunOf(START, labels), more[..|more| - 1]);
      StepSafe(w, more[|more| - 1]);
      StepLeavesBehind(w, more[|more| - 1], r);
    }
  }

  /** Completed at time 0 with an expiry of 0, and now it is 1. */
  lemma FirstOverdue() returns (labels: seq<Label>)
    ensures RunOf(START, labels)
         == START.(time := 1, requests := [Request(Completed, 0, Some(0), Some(0))], files := {0}, nextKey := 1,
                   parties := [Reporting(0)], completions := [Completion(0, 0, 0)])
  {
    labels := FirstStored();
    RunExtended(START, labels, Complete(0, 0, Delivered));
    labels := labels + [Complete(0, 0, Delivered)];
    RunExtended(START, labels, Tick(1));
    labels := labels + [Tick(1)];
  }

  /** It does happen: the cleanup job's deletion fails, and it marks the export expired all the same. */
  lemma FailedDeletionLeavesFile() returns (labels: seq<Label>)
    ensures LeftBehind(RunOf(START, labels), 0)
  {
    labels := FirstOverdue();
    RunExtended(START, labels, FindExpired(0));
    labels := labels + [FindExpired(0)];
    RunExtended(START, labels, SweepDelete(1, false));
    labels := labels + [SweepDelete(1, false)];
    RunExtended(START, labels, SweepMark(1, true));
    labels := labels + [SweepMark(1, true)];
  }
}
