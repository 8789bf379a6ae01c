/**
  What the export services promise the user, over whole runs: a completed export can be had until the
  expiry it was completed with, and a request whose worker is gone is served by another one.
*/
module ExportPromises {
  import opened Options
  import opened ExportLifecycle
  import opened ExportSafety
  import opened ExportLeftovers
  import opened ExportService
  import opened ExportProcessor

  // ---------------------------------------------------------------------------------------------
  // The expiry
  // ---------------------------------------------------------------------------------------------

  /** The update that completes a request while it is processing. */
  lemma CompletionStores(w: World, i: nat, e: nat, delivery: Delivery)
    requires i < |w.parties| && w.parties[i].Stored? && w.parties[i].req < |w.requests| && delivery != NotExecuted
    requires w.requests[w.parties[i].req].status == Processing
    ensures var r := Step(w, Complete(i, e, delivery)).requests[w.parties[i].req];
      r.status == Completed && r.expiresAt == Some(e) && r.payload == Some(w.parties[i].key)
  {
  }

  /** What a completed request may become. */
  lemma CompletedGoesOn(labels: seq<Label>, more: seq<Label>, req: nat)
    requires var w := RunOf(START, labels);
      req < |w.requests| && w.requests[req].status == Completed && w.requests[req].payload.Some?
    ensures var w, z := RunOf(START, labels), RunOf(RunOf(START, labels), more);
      && req < |z.requests| && z.requests[req].expiresAt == w.requests[req].expiresAt
      && z.requests[req].payload == w.requests[req].payload
      && (z.requests[req].status == Completed || (z.requests[req].status == Expired && Past(z.requests[req], z.time)))
  {
    StatusOnlyClimbs(labels, more, req);
    RunAppended(START, labels, more);
    RunExpiredPast(labels + more);
  }

  /**
    An export completed with expiry e is shown as completed, and its file named, as long as the time is not
    past e, and as expired from then on: in every continuation, whoever looks at it, sweeps or marks.
  */
  lemma CompletedUntilExpiry(labels: seq<Label>, i: nat, e: nat, delivery: Delivery, more: seq<Label>)
    requires var w := RunOf(START, labels);
      && i < |w.parties| && w.parties[i].Stored? && delivery != NotExecuted
      && w.parties[i].req < |w.requests| && w.requests[w.parties[i].req].status == Processing
    ensures var w := RunOf(START, labels);
      var req, key, z := w.parties[i].req, w.parties[i].key, RunOf(Step(w, Complete(i, e, delivery)), more);
      && req < |z.requests|
      && z.requests[req].expiresAt == Some(e) && z.requests[req].payload == Some(key)
      && EffectiveStatus(z.requests[req], z.time) == (if z.time <= e then Completed else Expired)
  {
    var w := RunOf(START, labels);
    var l := Complete(i, e, delivery);
    CompletionStores(w, i, e, delivery);
    RunExtended(START, labels, l);
    CompletedGoesOn(labels + [l], more, w.parties[i].req);
  }

  // ---------------------------------------------------------------------------------------------
  // Claims
  // ---------------------------------------------------------------------------------------------

  /**
    With room left in the batch the requests claimed are those pending, and those processing that nobody has updated for
    too long.
  */
  lemma ClaimedIff(w: World, staleMs: nat, limit: nat, claimed: seq<nat>, r: nat)
    requires Selected(w, staleMs, limit, claimed) && |claimed| < limit
    ensures r in claimed <==>
      && r < |w.requests|
      && (w.requests[r].status == Pending
          || (w.requests[r].status == Processing && w.time > w.requests[r].updatedAt + staleMs))
  {
    if r in claimed {
      var k :| 0 <= k < |claimed| && claimed[k] == r;
      assert Candidate(w, claimed[k], staleMs);
    }
    assert Candidate(w, r, staleMs) && r !in claimed ==> |claimed| == limit;
  }

  /** In a full batch a pending request comes before one that is processing, and of two alike the older one. */
  lemma ServedInOrder(w: World, staleMs: nat, limit: nat, claimed: seq<nat>, r: nat, q: nat)
    requires Selected(w, staleMs, limit, claimed) && r in claimed && q !in claimed && q < |w.requests|
    requires w.requests[q].status == Pending
      || (w.requests[q].status == Processing && w.time > w.requests[q].updatedAt + staleMs)
    ensures r < |w.requests| && |claimed| == limit
    ensures w.requests[q].status == Pending ==> w.requests[r].status == Pending
    ensures w.requests[r].status == w.requests[q].status ==> r < q
  {
    var k :| 0 <= k < |claimed| && claimed[k] == r;
    assert Candidate(w, claimed[k], staleMs) && Candidate(w, q, staleMs);
    assert Precedes(w, claimed[k], q);
  }

  /** The cleanup job finds, with room left in its batch, exactly the completed exports past their expiry. */
  lemma FoundIff(w: World, batchSize: nat, found: seq<nat>, r: nat)
    requires FoundOverdue(w, batchSize, found) && |found| < batchSize
    ensures r in found <==>
      && r < |w.requests| && w.requests[r].status == Completed
      && w.requests[r].expiresAt.Some? && w.requests[r].expiresAt.value < w.time
  {
    if r in found {
      var k :| 0 <= k < |found| && found[k] == r;
      assert Overdue(w, found[k]);
    }
    assert Overdue(w, r) && r !in found ==> |found| == batchSize;
  }

  /** In a full batch those longest past their expiry come first, and nobody found expired later than one left. */
  lemma LongestExpiredFirst(w: World, batchSize: nat, found: seq<nat>, k: nat, r: nat)
    requires FoundOverdue(w, batchSize, found) && k < |found| && r < |w.requests|
    requires w.requests[r].status == Completed && w.requests[r].expiresAt.Some?
      && w.requests[r].expiresAt.value < w.time
    requires r in found[..k] || r !in found
    ensures found[k] < |w.requests| && w.requests[found[k]].expiresAt.Some?
    ensures r in found[..k] ==> w.requests[r].expiresAt.value <= w.requests[found[k]].expiresAt.value
    ensures r !in found ==> w.requests[found[k]].expiresAt.value <= w.requests[r].expiresAt.value
  {
    assert Overdue(w, found[k]) && Overdue(w, r);
    if r in found[..k] {
      var j :| 0 <= j < k && found[j] == r;
      assert ExpiryOf(w, found[j]) <= ExpiryOf(w, found[k]);
    }
  }

  ghost predicate UpdatedBy(w: World) {
    forall r :: 0 <= r < |w.requests| ==> w.requests[r].updatedAt <= w.time
  }

  lemma StepUpdated(w: World, l: Label)
    requires UpdatedBy(w)
    ensures UpdatedBy(Step(w, l))
  {
  }

  lemma {:induction false} RunUpdated(labels: seq<Label>)
    ensures UpdatedBy(RunOf(START, labels))
  {
    if labels == [] {
    } else {
      RunUpdated(labels[..|labels| - 1]);
      StepUpdated(RunOf(START, labels[..|labels| - 1]), labels[|labels| - 1]);
    }
  }

  /** A new worker's steps, once the request may be claimed. */
  function Served(r: nat, staleMs: nat, i: nat, e: nat): seq<Label> {
    [Tick(staleMs + 1), Claim(r, staleMs), Store(i, Delivered), Complete(i, e, Delivered)]
  }

  lemma ServedSteps(w: World, r: nat, staleMs: nat, e: nat)
    ensures var i := |w.parties|;
      RunOf(w, Served(r, staleMs, i, e))
      == Step(Step(Step(Step(w, Tick(staleMs + 1)), Claim(r, staleMs)), Store(i, Delivered)), Complete(i, e, Delivered))
  {
    var i := |w.parties|;
    var one, two := [Tick(staleMs + 1)], [Tick(staleMs + 1), Claim(r, staleMs)];
    var three := two + [Store(i, Delivered)];
    RunExtended(w, [], Tick(staleMs + 1));
    assert [] + [Tick(staleMs + 1)] == one;
    RunExtended(w, one, Claim(r, staleMs));
    assert one + [Claim(r, staleMs)] == two;
    RunExtended(w, two, Store(i, Delivered));
    RunExtended(w, three, Complete(i, e, Delivered));
    assert three + [Complete(i, e, Delivered)] == Served(r, staleMs, i, e);
  }

  /**
    Nobody waits for ever: from every reachable state a request that is pending, or processing by a worker
    that does nothing more, is completed by a new worker once the claim is stale.
  */
  lemma AbandonedIsServed(labels: seq<Label>, r: nat, staleMs: nat, e: nat)
    requires var w := RunOf(START, labels);
      r < |w.requests| && (w.requests[r].status == Pending || w.requests[r].status == Processing)
    ensures var w := RunOf(START, labels);
      var z := RunOf(w, Served(r, staleMs, |w.parties|, e));
      && r < |z.requests| && z.requests[r].status == Completed && z.requests[r].expiresAt == Some(e)
      && z.requests[r].payload == Some(w.nextKey) && w.nextKey in z.files
  {
    var w := RunOf(START, labels);
    RunUpdated(labels);
    ServedSteps(w, r, staleMs, e);
    Serves(Step(w, Tick(staleMs + 1)), r, staleMs, e);
  }

  lemma Serves(w: World, r: nat, staleMs: nat, e: nat)
    requires r < |w.requests|
    requires w.requests[r].status == Pending
      || (w.requests[r].status == Processing && w.time > w.requests[r].updatedAt + staleMs)
    ensures var i := |w.parties|;
      var z := Step(Step(Step(w, Claim(r, staleMs)), Store(i, Delivered)), Complete(i, e, Delivered));
      && |z.requests| == |w.requests| && z.requests[r].status == Completed && z.requests[r].expiresAt == Some(e)
      && z.requests[r].payload == Some(w.nextKey) && w.nextKey in z.files
  {
    var claimed := Step(w, Claim(r, staleMs));
    assert claimed.parties == w.parties + [Working(r)];
    var stored := Step(claimed, Store(|w.parties|, Delivered));
    assert stored.parties[|w.parties|] == Stored(r, w.nextKey);
  }

  /**
    What "processed" tells: a worker alone with its request, and with nothing going wrong, has completed it
    with its own file and the expiry it was given.
  */
  lemma LoneWorkerCompletes(w: World, i: nat, req: nat, f: RequestFate)
    requires Safe(w) && Works(w, i, req) && IsBusy(w, req) && Alone(f) && Faultless(f)
    ensures var z := RunOf(w, ProcessTrace(i, f));
      && req < |z.requests| && z.requests[req].status == Completed && z.requests[req].expiresAt == Some(f.expiresAt)
      && z.requests[req].payload == Some(w.nextKey) && w.nextKey in z.files
  {
    TwoAlone(w, Store(i, Delivered), Complete(i, f.expiresAt, Delivered));
    var steps := ([] + [Store(i, Delivered)]) + ([] + [Complete(i, f.expiresAt, Delivered)]);
    assert ProcessTrace(i, f) == steps + [];
    assert steps + [] == steps;
    var stored := Step(w, Store(i, Delivered));
    assert stored.parties[i] == Stored(req, w.nextKey);
    CompletionStores(stored, i, f.expiresAt, Delivered);
  }

  // ---------------------------------------------------------------------------------------------
  // What a download attempt leaves behind
  // ---------------------------------------------------------------------------------------------

  /** Of a completed export a link is recorded, if its file is still there; nothing else of the export changes. */
  lemma AttemptIsRecorded(w: World, req: nat, before: seq<Label>, signs: bool, mark: Delivery,
                          beforeDelete: seq<Label>, deletes: bool)
    requires Safe(w) && req < |w.requests| && Leaves(before, |w.parties|)
    requires EffectiveStatus(w.requests[req], w.time) == Completed
    ensures w.requests[req].payload.Some?
    ensures var key := w.requests[req].payload.value;
      var meanwhile := RunOf(Step(w, Download(req)), before);
      var z := RunOf(w, DownloadTrace(w, req, before, signs, mark, beforeDelete, deletes));
      && z.requests == meanwhile.requests && z.files == meanwhile.files
      && z.grants == meanwhile.grants
                     + (if signs && key in z.files then [Grant(req, key, z.time, true)] else [])
  {
    var i := |w.parties|;
    LookFinds(w, req);
    var found := Step(w, Download(req));
    RunKeepsParty(found, before, i);
    LookedRuns(w, req, before + [Sign(i, signs)]);
    RunExtended(found, before, Sign(i, signs));
  }

  lemma LookedRuns(w: World, req: nat, labels: seq<Label>)
    ensures RunOf(w, [Download(req)] + labels) == RunOf(Step(w, Download(req)), labels)
  {
    RunExtended(w, [], Download(req));
    assert [] + [Download(req)] == [Download(req)];
    RunAppended(w, [Download(req)], labels);
  }

  /**
    Of an overdue export the attempt leaves it expired if its mark was executed, whoever else was at it; and if the
    attempt was the first to mark it, was answered and could delete the file, the file is gone.
  */
  lemma OverdueAttemptExpires(w: World, req: nat, before: seq<Label>, signs: bool, mark: Delivery,
                              beforeDelete: seq<Label>, deletes: bool)
    requires Safe(w) && req < |w.requests| && Leaves(before, |w.parties|) && Leaves(beforeDelete, |w.parties|)
    requires IsOver(w.requests[req], w.time) && mark != NotExecuted
    ensures w.requests[req].payload.Some?
    ensures var meanwhile := RunOf(Step(w, Download(req)), before);
      var z := RunOf(w, DownloadTrace(w, req, before, signs, mark, beforeDelete, deletes));
      && IsExpired(z, req) && req < |meanwhile.requests|
      && (meanwhile.requests[req].status == Completed && mark == Delivered && deletes ==>
            IsGone(z, w.requests[req].payload.value))
  {
    var i := |w.parties|;
    var found := Step(w, Download(req));
    assert found == w.(parties := w.parties + [Expiring(req, w.requests[req].payload.value)]);
    var meanwhile := RunOf(found, before);
    StepSafe(w, Download(req));
    RunStaysSafe(found, before);
    RunKeepsParty(found, before, i);
    var last := ExpiryTrace(meanwhile, req, i, mark, beforeDelete, deletes);
    LookedRuns(w, req, before + last);
    RunAppended(found, before, last);
    ExpiryLeaves(meanwhile, i, mark, beforeDelete, deletes);
  }

  lemma ExpiryLeaves(w: World, i: nat, mark: Delivery, beforeDelete: seq<Label>, deletes: bool)
    requires Safe(w) && i < |w.parties| && w.parties[i].Expiring? && mark != NotExecuted && Leaves(beforeDelete, i)
    ensures w.parties[i].req < |w.requests|
    ensures var req := w.parties[i].req;
      var z := RunOf(w, ExpiryTrace(w, req, i, mark, beforeDelete, deletes));
      && IsExpired(z, req)
      && (w.requests[req].status == Completed && mark == Delivered && deletes ==> IsGone(z, w.parties[i].key))
  {
    var req, l := w.parties[i].req, ExpireMark(i, mark);
    MarkedExpires(w, i, mark);
    var marked := Step(w, l);
    RunExtended(w, [], l);
    assert [] + [l] == [l];
    if mark == Delivered && w.requests[req].status == Completed {
      var last := beforeDelete + [ExpireDelete(i, deletes)];
      RunAppended(w, [l], last);
      WinnerDeletes(marked, i, beforeDelete, deletes);
    } else {
      assert [l] + [] == [l];
    }
  }

  lemma MarkedExpires(w: World, i: nat, mark: Delivery)
    requires Safe(w) && i < |w.parties| && w.parties[i].Expiring? && mark != NotExecuted
    ensures var req, z := w.parties[i].req, Step(w, ExpireMark(i, mark));
      && Safe(z) && req < |w.requests| && IsExpired(z, req) && i < |z.parties|
      && (mark == Delivered && w.requests[req].status == Completed ==>
            z.parties[i] == ExpireDeleting(req, w.parties[i].key))
  {
    assert Sane(w, w.parties[i]);
    StepSafe(w, ExpireMark(i, mark));
  }

  lemma WinnerDeletes(w: World, i: nat, others: seq<Label>, deletes: bool)
    requires Safe(w) && i < |w.parties| && w.parties[i].ExpireDeleting? && Leaves(others, i)
    requires IsExpired(w, w.parties[i].req)
    ensures var z := RunOf(w, others + [ExpireDelete(i, deletes)]);
      IsExpired(z, w.parties[i].req) && (deletes ==> IsGone(z, w.parties[i].key))
  {
    var before := RunOf(w, others);
    RunOnward(w, others + [ExpireDelete(i, deletes)], w.parties[i].req);
    RunKeepsParty(w, others, i);
    RunExtended(w, others, ExpireDelete(i, deletes));
    RunStaysSafe(w, others);
    DeletesOne(before, i);
  }

  lemma DeletesOne(w: World, i: nat)
    requires Safe(w) && i < |w.parties| && w.parties[i].ExpireDeleting?
    ensures IsGone(Step(w, ExpireDelete(i, true)), w.parties[i].key)
  {
    assert Sane(w, w.parties[i]);
  }
}
