/**
  The files of expired exports: when such a file is still there, and when it is there for good.
*/
module ExportLeftovers {
  import opened ExportLifecycle
  import opened ExportSafety

  /** Some party's deletion of the file was executed. */
  predicate Removed(w: World, key: nat) {
    key in w.fates.deleted || key in w.selfDeleted
  }

  /** The party that expired the export did not delete its file, and will not. */
  predicate Missed(w: World, key: nat) {
    key in w.fates.failed || key in w.fates.unanswered || key in w.fates.abandoned
  }

  /** The files that are there are those stored and not removed. */
  ghost predicate FilesKept(w: World) {
    && (forall key: nat :: key in w.files <==> key < w.nextKey && !Removed(w, key))
    && (forall key: nat :: Removed(w, key) ==> key < w.nextKey)
  }

  /** A cleanup that is about to mark has tried its deletion. */
  ghost predicate Tried(w: World, p: Party) {
    p.SweepMarking? ==>
      && p.req < |w.requests| && w.requests[p.req].payload.Some?
      && var key := w.requests[p.req].payload.value; Removed(w, key) || key in w.fates.failed
  }

  ghost predicate AllTried(w: World) {
    forall i :: 0 <= i < |w.parties| ==> Tried(w, w.parties[i])
  }

  /** The winner of the request's expiry has marked it and is about to delete its file. */
  ghost predicate OnTheWay(w: World, r: nat) {
    exists i :: 0 <= i < |w.parties| && w.parties[i].ExpireDeleting? && w.parties[i].req == r
  }

  ghost predicate Accounted(w: World, r: nat) {
    r < |w.requests| && w.requests[r].status == Expired ==>
      && w.requests[r].payload.Some?
      && var key := w.requests[r].payload.value; Removed(w, key) || Missed(w, key) || OnTheWay(w, r)
  }

  ghost predicate AllAccounted(w: World) {
    forall r :: 0 <= r < |w.requests| ==> Accounted(w, r)
  }

  ghost predicate Kept(w: World) {
    FilesKept(w) && AllTried(w) && AllAccounted(w)
  }

  /** The history of deletions only grows. */
  ghost predicate Grows(w: World, z: World) {
    && w.fates.deleted <= z.fates.deleted && w.fates.failed <= z.fates.failed
    && w.fates.unanswered <= z.fates.unanswered && w.fates.abandoned <= z.fates.abandoned
    && w.selfDeleted <= z.selfDeleted
  }

  lemma StepGrows(w: World, l: Label)
    ensures Grows(w, Step(w, l))
  {
  }

  /** What was ever removed. */
  ghost function AllRemoved(w: World): set<nat> {
    w.fates.deleted + w.selfDeleted
  }

  /** The storage after a step: a file stored, a file removed, or nothing new. */
  ghost predicate FilesMove(w: World, z: World, key: nat) {
    || (z.files == w.files && z.nextKey == w.nextKey && AllRemoved(z) == AllRemoved(w))
    || (z.files == w.files + {w.nextKey} && z.nextKey == w.nextKey + 1 && AllRemoved(z) == AllRemoved(w))
    || (z.files == w.files - {key} && z.nextKey == w.nextKey && key < w.nextKey
       && AllRemoved(z) == AllRemoved(w) + {key})
  }

  lemma FilesMoved(w: World, z: World, key: nat)
    requires FilesKept(w) && FilesMove(w, z, key)
    ensures FilesKept(z)
  {
    forall k: nat ensures Removed(z, k) <==> k in AllRemoved(z) {
    }
    forall k: nat ensures Removed(w, k) <==> k in AllRemoved(w) {
    }
  }

  /** The file a party is concerned with. */
  function Concern(p: Party): nat {
    match p
    case Stored(_, key) => key
    case Cleaning(_, key) => key
    case Sweeping(_, key) => key
    case Expiring(_, key) => key
    case ExpireDeleting(_, key) => key
    case _ => 0
  }

  lemma DeleteMoves(w: World, i: nat, p: Party, key: nat, deleted: bool)
    requires i < |w.parties| && key < w.nextKey
    ensures FilesMove(w, Delete(Become(w, i, p), key, deleted), key)
  {
  }

  /** Steps that remove nothing. */
  lemma StepStores(w: World, l: Label)
    requires !l.SweepDelete? && !l.ExpireDelete? && !l.CleanUp?
    ensures var z := Step(w, l);
      && z.fates.deleted == w.fates.deleted && z.selfDeleted == w.selfDeleted
      && ((z.files == w.files && z.nextKey == w.nextKey)
         || (z.files == w.files + {w.nextKey} && z.nextKey == w.nextKey + 1))
  {
  }

  lemma CleanUpMoves(w: World, i: nat, deleted: bool)
    requires i < |w.parties| && w.parties[i].Cleaning? && w.parties[i].key < w.nextKey
    ensures FilesMove(w, CleanUpStep(w, i, deleted), w.parties[i].key)
  {
  }

  lemma StepFilesMove(w: World, l: Label, i: nat)
    requires Safe(w) && i == Actor(l) && i < |w.parties|
    ensures FilesMove(w, Step(w, l), Concern(w.parties[i]))
  {
    assert Sane(w, w.parties[i]);
    match l
    case SweepDelete(_, deleted) =>
      if w.parties[i].Sweeping? {
        DeleteMoves(w, i, SweepMarking(w.parties[i].req), w.parties[i].key, deleted);
      }
    case ExpireDelete(_, deleted) =>
      if w.parties[i].ExpireDeleting? {
        DeleteMoves(w, i, Gone, w.parties[i].key, deleted);
      }
    case CleanUp(_, deleted) =>
      if w.parties[i].Cleaning? {
        CleanUpMoves(w, i, deleted);
      }
    case _ => StepStores(w, l);
  }

  lemma StepFiles(w: World, l: Label)
    requires Safe(w) && FilesKept(w)
    ensures FilesKept(Step(w, l))
  {
    var i := Actor(l);
    if i < |w.parties| {
      StepFilesMove(w, l, i);
      FilesMoved(w, Step(w, l), Concern(w.parties[i]));
    } else {
      if !l.SweepDelete? && !l.ExpireDelete? && !l.CleanUp? {
        StepStores(w, l);
      }
      FilesMoved(w, Step(w, l), 0);
    }
  }

  /** The party that takes the step, if it is one of a party that deletes. */
  function Actor(l: Label): nat {
    match l
    case CleanUp(i, _) => i
    case SweepDelete(i, _) => i
    case ExpireDelete(i, _) => i
    case _ => 0
  }

  /** What a step may make of a party on its way to a file. */
  ghost predicate PartyMoves(w: World, z: World, p: Party, q: Party) {
    || q == p
    || match p
       case Sweeping(req, key) => q == Gone
         || (q == SweepMarking(req) && (key in z.fates.deleted || key in z.fates.failed))
       case Expiring(req, key) => q == Gone || q == ExpireDeleting(req, key)
       case ExpireDeleting(_, key) =>
         q == Gone && (key in z.fates.deleted || key in z.fates.failed || key in z.fates.abandoned)
       case _ => !q.SweepMarking? && !q.ExpireDeleting?
  }

  lemma StepMoves(w: World, l: Label, i: nat)
    requires i < |w.parties|
    ensures i < |Step(w, l).parties| && PartyMoves(w, Step(w, l), w.parties[i], Step(w, l).parties[i])
  {
  }

  lemma NewcomerMoves(w: World, l: Label, i: nat)
    requires |w.parties| <= i < |Step(w, l).parties|
    ensures !Step(w, l).parties[i].SweepMarking?
  {
  }

  lemma MovedTried(w: World, z: World, p: Party, q: Party)
    requires Sane(w, p) && Tried(w, p) && PartyMoves(w, z, p, q) && Grows(w, z) && |w.requests| <= |z.requests|
    requires forall r :: 0 <= r < |w.requests| && w.requests[r].payload.Some? ==>
      z.requests[r].payload == w.requests[r].payload
    ensures Tried(z, q)
  {
  }

  lemma StepPayloads(w: World, l: Label)
    requires Outcomes(w)
    ensures var z := Step(w, l);
      && |w.requests| <= |z.requests|
      && forall r :: 0 <= r < |w.requests| && w.requests[r].payload.Some? ==>
         z.requests[r].payload == w.requests[r].payload
  {
    forall r | 0 <= r < |w.requests|
      ensures r < |Step(w, l).requests| && Onward(w.requests[r], Step(w, l).requests[r]) {
      StepOnward(w, l, r);
    }
  }

  lemma StepTried(w: World, l: Label)
    requires Safe(w) && AllTried(w)
    ensures AllTried(Step(w, l))
  {
    var z := Step(w, l);
    StepGrows(w, l);
    StepPayloads(w, l);
    forall i | 0 <= i < |z.parties| ensures Tried(z, z.parties[i]) {
      if i < |w.parties| {
        assert Sane(w, w.parties[i]) && Tried(w, w.parties[i]);
        StepMoves(w, l, i);
        MovedTried(w, z, w.parties[i], z.parties[i]);
      } else {
        NewcomerMoves(w, l, i);
      }
    }
  }

  lemma MovedAccounted(w: World, z: World, r: nat, i: nat)
    requires r < |w.requests| && i < |w.parties| && Sane(w, w.parties[i]) && w.parties[i].ExpireDeleting?
      && w.parties[i].req == r
    requires i < |z.parties| && PartyMoves(w, z, w.parties[i], z.parties[i])
    requires r < |z.requests| && z.requests[r].payload == w.requests[r].payload
    ensures Accounted(z, r)
  {
  }

  lemma StillAccounted(w: World, l: Label, r: nat)
    requires Safe(w) && r < |w.requests| && w.requests[r].status == Expired && Accounted(w, r)
    ensures Accounted(Step(w, l), r)
  {
    var key := w.requests[r].payload.value;
    StepGrows(w, l);
    StepPayloads(w, l);
    if !Removed(w, key) && !Missed(w, key) {
      var i :| 0 <= i < |w.parties| && w.parties[i].ExpireDeleting? && w.parties[i].req == r;
      assert Sane(w, w.parties[i]);
      StepMoves(w, l, i);
      MovedAccounted(w, Step(w, l), r, i);
    }
  }

  lemma NewlyAccounted(w: World, l: Label, r: nat)
    requires Safe(w) && AllTried(w) && r < |w.requests| && w.requests[r].status != Expired
    requires Step(w, l).requests[r].status == Expired
    ensures Accounted(Step(w, l), r)
  {
    if l.SweepMark? {
      SweepAccounts(w, l.party, l.executed, r);
    } else if l.ExpireMark? {
      ExpiryAccounts(w, l.party, l.delivery, r);
    }
  }

  lemma SweepAccounts(w: World, i: nat, executed: bool, r: nat)
    requires Safe(w) && AllTried(w) && r < |w.requests| && w.requests[r].status != Expired
    requires SweepMarkStep(w, i, executed).requests[r].status == Expired
    ensures Accounted(SweepMarkStep(w, i, executed), r)
  {
    assert Sane(w, w.parties[i]) && Tried(w, w.parties[i]);
  }

  lemma ExpiryAccounts(w: World, i: nat, delivery: Delivery, r: nat)
    requires Safe(w) && r < |w.requests| && w.requests[r].status != Expired
    requires ExpireMarkStep(w, i, delivery).requests[r].status == Expired
    ensures Accounted(ExpireMarkStep(w, i, delivery), r)
  {
    assert Sane(w, w.parties[i]);
    if delivery == Delivered {
      assert ExpireMarkStep(w, i, delivery).parties[i] == ExpireDeleting(r, w.parties[i].key);
    }
  }

  lemma StepAccounted(w: World, l: Label, r: nat)
    requires Safe(w) && AllTried(w) && AllAccounted(w) && r < |Step(w, l).requests|
    ensures Accounted(Step(w, l), r)
  {
    if Step(w, l).requests[r].status == Expired {
      if r >= |w.requests| {
        NewRequestIsPending(w, l, r);
      } else if w.requests[r].status == Expired {
        assert Accounted(w, r);
        StillAccounted(w, l, r);
      } else {
        NewlyAccounted(w, l, r);
      }
    }
  }

  lemma NewRequestIsPending(w: World, l: Label, r: nat)
    requires |w.requests| <= r < |Step(w, l).requests|
    ensures Step(w, l).requests[r].status == Pending
  {
  }

  lemma StepKept(w: World, l: Label)
    requires Safe(w) && Kept(w)
    ensures Kept(Step(w, l))
  {
    StepFiles(w, l);
    StepTried(w, l);
    forall r | 0 <= r < |Step(w, l).requests| ensures Accounted(Step(w, l), r) {
      StepAccounted(w, l, r);
    }
  }

  lemma {:induction false} RunKept(labels: seq<Label>)
    ensures Kept(RunOf(START, labels))
  {
    if labels == [] {
    } else {
      RunKept(labels[..|labels| - 1]);
      RunSafe(labels[..|labels| - 1]);
      StepKept(RunOf(START, labels[..|labels| - 1]), labels[|labels| - 1]);
    }
  }

  /** Nothing is marked expired before its time. */
  ghost predicate ExpiredPast(w: World) {
    forall r :: 0 <= r < |w.requests| && w.requests[r].status == Expired ==> Past(w.requests[r], w.time)
  }

  /** A step that marks a request finds it past its expiry. */
  lemma MarkedIsPast(w: World, l: Label, r: nat)
    requires Safe(w) && r < |w.requests| && w.requests[r].status != Expired && Step(w, l).requests[r].status == Expired
    ensures Past(w.requests[r], w.time) && Step(w, l).time == w.time
    ensures Step(w, l).requests[r].expiresAt == w.requests[r].expiresAt
  {
    if l.SweepMark? && l.party < |w.parties| {
      assert Sane(w, w.parties[l.party]);
    }
    if l.ExpireMark? && l.party < |w.parties| {
      assert Sane(w, w.parties[l.party]);
    }
  }

  lemma TimeRuns(w: World, l: Label)
    ensures w.time <= Step(w, l).time
  {
  }

  lemma StepExpiredPast(w: World, l: Label, r: nat)
    requires Safe(w) && ExpiredPast(w) && r < |w.requests| && Step(w, l).requests[r].status == Expired
    ensures Past(Step(w, l).requests[r], Step(w, l).time)
  {
    TimeRuns(w, l);
    if w.requests[r].status == Expired {
      StepOnward(w, l, r);
    } else {
      MarkedIsPast(w, l, r);
    }
  }

  lemma {:induction false} RunExpiredPast(labels: seq<Label>)
    ensures ExpiredPast(RunOf(START, labels))
  {
    if labels == [] {
    } else {
      RunExpiredPast(labels[..|labels| - 1]);
      RunSafe(labels[..|labels| - 1]);
      var w, l := RunOf(START, labels[..|labels| - 1]), labels[|labels| - 1];
      forall r | 0 <= r < |Step(w, l).requests| && Step(w, l).requests[r].status == Expired
        ensures Past(Step(w, l).requests[r], Step(w, l).time)
      {
        if r >= |w.requests| {
          NewRequestIsPending(w, l, r);
        } else {
          StepExpiredPast(w, l, r);
        }
      }
    }
  }

  /** Nobody on the way to the file is left. */
  ghost predicate Unattended(w: World, key: nat) {
    forall i :: 0 <= i < |w.parties| ==> !May(w.parties[i], key)
  }

  /**
    Exactly when the file of an expired export is still there: no deletion of it was executed. Then its
    expiry's winner is still about to delete it, or its deletion failed, or it stopped before that, or the
    reply to its mark was lost.
  */
  lemma ExpiredFileIsThere(labels: seq<Label>, r: nat)
    requires var w := RunOf(START, labels); r < |w.requests| && w.requests[r].status == Expired
    ensures var w := RunOf(START, labels);
      && w.requests[r].payload.Some?
      && var key := w.requests[r].payload.value;
      && (key in w.files <==> !Removed(w, key))
      && (key in w.files ==>
            OnTheWay(w, r) || key in w.fates.failed || key in w.fates.unanswered || key in w.fates.abandoned)
  {
    RunKept(labels);
    RunSafe(labels);
    assert Accounted(RunOf(START, labels), r);
  }

  /** So it is gone once nobody is on the way, if nothing went wrong with it. */
  lemma ExpiredFileIsGone(labels: seq<Label>, r: nat)
    requires var w := RunOf(START, labels);
      && r < |w.requests| && w.requests[r].status == Expired && w.requests[r].payload.Some?
      && Unattended(w, w.requests[r].payload.value) && !Missed(w, w.requests[r].payload.value)
    ensures var w := RunOf(START, labels); w.requests[r].payload.value !in w.files
  {
    ExpiredFileIsThere(labels, r);
    RunSafe(labels);
    var w := RunOf(START, labels);
    if OnTheWay(w, r) {
      var i :| 0 <= i < |w.parties| && w.parties[i].ExpireDeleting? && w.parties[i].req == r;
      assert Sane(w, w.parties[i]) && May(w.parties[i], w.requests[r].payload.value);
    }
  }

  /**
    And exactly when it is there for good: of an expired export nobody attends to, every continuation
    keeps the file if and only if no deletion of it was executed so far. The winner has missed it then.
  */
  lemma ExpiredFileStaysIff(labels: seq<Label>, more: seq<Label>, r: nat)
    requires var w := RunOf(START, labels);
      && r < |w.requests| && w.requests[r].status == Expired && w.requests[r].payload.Some?
      && Unattended(w, w.requests[r].payload.value)
    ensures var w := RunOf(START, labels); var z := RunOf(w, more);
      var key := w.requests[r].payload.value;
      && (key in z.files <==> !Removed(w, key))
      && (key in z.files ==> Missed(w, key) && LeftBehind(z, r))
  {
    var w := RunOf(START, labels);
    var key := w.requests[r].payload.value;
    ExpiredFileIsThere(labels, r);
    if !Missed(w, key) {
      ExpiredFileIsGone(labels, r);
    }
    if Removed(w, key) {
      RemovedStays(labels, more, key);
    } else {
      ExpiredFileStays(labels, more, r);
      KeepsPayload(labels, more, r);
    }
  }

  lemma KeepsPayload(labels: seq<Label>, more: seq<Label>, r: nat)
    requires r < |RunOf(START, labels).requests| && RunOf(START, labels).requests[r].payload.Some?
    ensures var w, z := RunOf(START, labels), RunOf(RunOf(START, labels), more);
      r < |z.requests| && z.requests[r].payload == w.requests[r].payload
  {
    StatusOnlyClimbs(labels, more, r);
  }

  /** A file that was removed never comes back: keys are fresh. */
  lemma {:induction false} RemovedStays(labels: seq<Label>, more: seq<Label>, key: nat)
    requires Removed(RunOf(START, labels), key)
    ensures var z := RunOf(RunOf(START, labels), more); Safe(z) && Kept(z) && Removed(z, key) && key !in z.files
  {
    if more == [] {
      RunKept(labels);
      RunSafe(labels);
    } else {
      RemovedStays(labels, more[..|more| - 1], key);
      var z, l := RunOf(RunOf(START, labels), more[..|more| - 1]), more[|more| - 1];
      StepGrows(z, l);
      StepSafe(z, l);
      StepKept(z, l);
    }
  }
}
