/**
  Export requests as workers, the cleanup job and download attempts race on them. Every party is cut
  at its awaits; each database statement is one guarded atomic step; files live in one shared storage
  under fresh keys. A run is any list of labels: a label that does not fit changes nothing.
*/
module ExportLifecycle {
  import opened Options

  datatype Status = Pending | Processing | Completed | Failed | Expired

  /** payload names the stored file of a completed export. */
  datatype Request = Request(status: Status, updatedAt: nat, expiresAt: Option<nat>, payload: Option<nat>)

  /**
    How far a party is. A worker works, has stored its file, cleans it up after an error, or reports;
    the cleanup job deletes a file and then marks; a download attempt signs a link, or marks and then deletes.
  */
  datatype Party =
    | Gone
    | Working(req: nat)
    | Stored(req: nat, key: nat)
    | Cleaning(req: nat, key: nat)
    | Reporting(req: nat)
    | Sweeping(req: nat, key: nat)
    | SweepMarking(req: nat)
    | Signing(req: nat, key: nat)
    | Expiring(req: nat, key: nat)
    | ExpireDeleting(req: nat, key: nat)

  /** Whether a statement was executed, and whether its caller learned of it. */
  datatype Delivery = Delivered | NotExecuted | ReplyLost

  datatype Completion = Completion(req: nat, key: nat, party: nat)

  datatype Expiry = Expiry(req: nat, party: nat)

  datatype Grant = Grant(req: nat, key: nat, at: nat, present: bool)

  /**
    What became of the files of overdue exports: deleted, not deleted because the deletion failed, because
    the reply to the winning mark was lost, or because the winner stopped before its deletion.
  */
  datatype Fates = Fates(deleted: set<nat>, failed: set<nat>, unanswered: set<nat>, abandoned: set<nat>)

  /** The last six fields are history. */
  datatype World = World(time: nat, requests: seq<Request>, files: set<nat>, nextKey: nat, parties: seq<Party>,
                         completions: seq<Completion>, expiries: seq<Expiry>, lostReplies: set<nat>,
                         selfDeleted: set<nat>, grants: seq<Grant>, fates: Fates)

  datatype Label =
    | Tick(ms: nat)
    | Submit
    | Claim(req: nat, staleMs: nat)
    | Break(party: nat)
    | Store(party: nat, delivery: Delivery)
    | Complete(party: nat, expiresAt: nat, delivery: Delivery)
    | CleanUp(party: nat, deleted: bool)
    | MarkFailed(party: nat, executed: bool)
    | Leave(party: nat)
    | FindExpired(req: nat)
    | SweepDelete(party: nat, deleted: bool)
    | SweepMark(party: nat, executed: bool)
    | Download(req: nat)
    | Sign(party: nat, signs: bool)
    | ExpireMark(party: nat, delivery: Delivery)
    | ExpireDelete(party: nat, deleted: bool)

  const START := World(0, [], {}, 0, [], [], [], {}, {}, [], Fates({}, {}, {}, {}))

  // ---------------------------------------------------------------------------------------------
  // Guarded statements on one request
  // ---------------------------------------------------------------------------------------------

  /** PENDING, or PROCESSING for so long that its worker is taken for dead. */
  predicate Claimable(r: Request, now: nat, staleMs: nat) {
    r.status == Pending || (r.status == Processing && r.updatedAt + staleMs < now)
  }

  function Claimed(r: Request, now: nat): Request {
    r.(status := Processing, updatedAt := now)
  }

  function CompletedWith(r: Request, now: nat, expiresAt: nat, key: nat): Request {
    if r.status == Processing then Request(Completed, now, Some(expiresAt), Some(key)) else r
  }

  function FailedUnless(r: Request, now: nat): Request {
    if r.status == Processing then r.(status := Failed, updatedAt := now) else r
  }

  function ExpiredUnless(r: Request, now: nat): Request {
    if r.status == Completed then r.(status := Expired, updatedAt := now) else r
  }

  predicate IsOver(r: Request, now: nat) {
    r.status == Completed && r.expiresAt.Some? && r.expiresAt.value < now
  }

  // ---------------------------------------------------------------------------------------------
  // Steps
  // ---------------------------------------------------------------------------------------------

  function Become(w: World, i: nat, p: Party): World
    requires i < |w.parties|
  {
    w.(parties := w.parties[i := p])
  }

  /** A deletion of the file is tried, and succeeds or fails. */
  function Delete(w: World, key: nat, deleted: bool): World {
    if deleted then w.(files := w.files - {key}, fates := w.fates.(deleted := w.fates.deleted + {key}))
    else w.(fates := w.fates.(failed := w.fates.failed + {key}))
  }

  function Update(w: World, req: nat, r: Request): World
    requires req < |w.requests|
  {
    w.(requests := w.requests[req := r])
  }

  function ClaimStep(w: World, req: nat, staleMs: nat): World {
    if req < |w.requests| && Claimable(w.requests[req], w.time, staleMs) then
      Update(w, req, Claimed(w.requests[req], w.time)).(parties := w.parties + [Working(req)])
    else w
  }

  function StoreStep(w: World, i: nat, delivery: Delivery): World {
    if i >= |w.parties| || !w.parties[i].Working? then w
    else
      var req := w.parties[i].req;
      var stored := w.(files := w.files + {w.nextKey}, nextKey := w.nextKey + 1);
      match delivery
      case Delivered => Become(stored, i, Stored(req, w.nextKey))
      case NotExecuted => Become(w, i, Reporting(req))
      case ReplyLost => Become(stored, i, Reporting(req))
  }

  function CompleteStep(w: World, i: nat, expiresAt: nat, delivery: Delivery): World {
    if i >= |w.parties| || !w.parties[i].Stored? || w.parties[i].req >= |w.requests| then w
    else
      var req, key := w.parties[i].req, w.parties[i].key;
      var after := if delivery == Delivered then Reporting(req) else Cleaning(req, key);
      if delivery == NotExecuted || w.requests[req].status != Processing then Become(w, i, after)
      else
        Become(Update(w, req, CompletedWith(w.requests[req], w.time, expiresAt, key)), i, after)
        .(completions := w.completions + [Completion(req, key, i)],
          lostReplies := if delivery == ReplyLost then w.lostReplies + {key} else w.lostReplies)
  }

  function CleanUpStep(w: World, i: nat, deleted: bool): World {
    if i >= |w.parties| || !w.parties[i].Cleaning? then w
    else
      var z := Become(w, i, Reporting(w.parties[i].req));
      if deleted then z.(files := w.files - {w.parties[i].key}, selfDeleted := w.selfDeleted + {w.parties[i].key})
        else z
  }

  /** The pipeline and the processor may both mark; a worker that reported success may still fail later. */
  function MarkFailedStep(w: World, i: nat, executed: bool): World {
    if i >= |w.parties| || !w.parties[i].Reporting? || w.parties[i].req >= |w.requests| || !executed then w
    else Update(w, w.parties[i].req, FailedUnless(w.requests[w.parties[i].req], w.time))
  }

  function FindExpiredStep(w: World, req: nat): World {
    if req < |w.requests| && IsOver(w.requests[req], w.time) && w.requests[req].payload.Some? then
      w.(parties := w.parties + [Sweeping(req, w.requests[req].payload.value)])
    else w
  }

  /** A deletion that fails is logged and passed over. */
  function SweepDeleteStep(w: World, i: nat, deleted: bool): World {
    if i >= |w.parties| || !w.parties[i].Sweeping? then w
    else
      Delete(Become(w, i, SweepMarking(w.parties[i].req)), w.parties[i].key, deleted)
  }

  function SweepMarkStep(w: World, i: nat, executed: bool): World {
    if i >= |w.parties| || !w.parties[i].SweepMarking? || w.parties[i].req >= |w.requests| then w
    else
      var req := w.parties[i].req;
      if !executed || w.requests[req].status != Completed then Become(w, i, Gone)
      else
        Become(Update(w, req, ExpiredUnless(w.requests[req], w.time)), i, Gone)
        .(expiries := w.expiries + [Expiry(req, i)])
  }

  /** A download attempt looks at the request. */
  function DownloadStep(w: World, req: nat): World {
    if req >= |w.requests| || w.requests[req].status != Completed || w.requests[req].payload.None? then w
    else
      var key := w.requests[req].payload.value;
      w.(parties := w.parties + [if IsOver(w.requests[req], w.time) then Expiring(req, key) else Signing(req, key)])
  }

  /** A link is signed only for a file that is there; other failures refuse it too. */
  function SignStep(w: World, i: nat, signs: bool): World {
    if i >= |w.parties| || !w.parties[i].Signing? then w
    else
      var key, z := w.parties[i].key, Become(w, i, Gone);
      if signs && key in w.files then z.(grants := w.grants + [Grant(w.parties[i].req, key, w.time, key in w.files)])
      else z
  }

  function ExpireMarkStep(w: World, i: nat, delivery: Delivery): World {
    if i >= |w.parties| || !w.parties[i].Expiring? || w.parties[i].req >= |w.requests| then w
    else
      var req, key := w.parties[i].req, w.parties[i].key;
      if delivery == NotExecuted || w.requests[req].status != Completed then Become(w, i, Gone)
      else
        Become(Update(w, req, ExpiredUnless(w.requests[req], w.time)), i,
               if delivery == Delivered then ExpireDeleting(req, key) else Gone)
        .(expiries := w.expiries + [Expiry(req, i)],
          fates := if delivery == Delivered then w.fates else w.fates.(unanswered := w.fates.unanswered + {key}))
  }

  /** A party stops for good; one that was to delete a file leaves it. */
  function LeaveStep(w: World, i: nat): World {
    if i >= |w.parties| then w
    else if w.parties[i].ExpireDeleting? then
      Become(w, i, Gone).(fates := w.fates.(abandoned := w.fates.abandoned + {w.parties[i].key}))
    else Become(w, i, Gone)
  }

  function ExpireDeleteStep(w: World, i: nat, deleted: bool): World {
    if i >= |w.parties| || !w.parties[i].ExpireDeleting? then w
    else
      Delete(Become(w, i, Gone), w.parties[i].key, deleted)
  }

  function Step(w: World, l: Label): World {
    match l
    case Tick(ms) => w.(time := w.time + ms)
    case Submit => w.(requests := w.requests + [Request(Pending, w.time, None, None)])
    case Claim(req, staleMs) => ClaimStep(w, req, staleMs)
    case Break(i) => if i < |w.parties| && w.parties[i].Working? then Become(w, i, Reporting(w.parties[i].req)) else w
    case Store(i, delivery) => StoreStep(w, i, delivery)
    case Complete(i, expiresAt, delivery) => CompleteStep(w, i, expiresAt, delivery)
    case CleanUp(i, deleted) => CleanUpStep(w, i, deleted)
    case MarkFailed(i, executed) => MarkFailedStep(w, i, executed)
    case Leave(i) => LeaveStep(w, i)
    case FindExpired(req) => FindExpiredStep(w, req)
    case SweepDelete(i, deleted) => SweepDeleteStep(w, i, deleted)
    case SweepMark(i, executed) => SweepMarkStep(w, i, executed)
    case Download(req) => DownloadStep(w, req)
    case Sign(i, signs) => SignStep(w, i, signs)
    case ExpireMark(i, delivery) => ExpireMarkStep(w, i, delivery)
    case ExpireDelete(i, deleted) => ExpireDeleteStep(w, i, deleted)
  }

  function RunOf(w: World, labels: seq<Label>): World {
    if labels == [] then w else Step(RunOf(w, labels[..|labels| - 1]), labels[|labels| - 1])
  }

  // ---------------------------------------------------------------------------------------------
  // Status only climbs
  // ---------------------------------------------------------------------------------------------

  /** PENDING < PROCESSING < {COMPLETED, FAILED}, COMPLETED < EXPIRED. */
  predicate Climbs(before: Status, after: Status) {
    || before == after
    || before == Pending
    || (before == Processing && after != Pending)
    || (before == Completed && after == Expired)
  }

  /** What a step may do to a request that exists: climb, and keep the outcome once there is one. */
  ghost predicate Onward(before: Request, after: Request) {
    && Climbs(before.status, after.status)
    && (before.payload.Some? ==> after.payload == before.payload && after.expiresAt == before.expiresAt)
  }

  /** No outcome before completion, and none without it. */
  ghost predicate Outcomes(w: World) {
    forall r :: 0 <= r < |w.requests| ==>
      && ((w.requests[r].status == Completed || w.requests[r].status == Expired) <==> w.requests[r].payload.Some?)
      && (w.requests[r].expiresAt.Some? <==> w.requests[r].payload.Some?)
  }

  lemma StepOnward(w: World, l: Label, r: nat)
    requires Outcomes(w) && r < |w.requests|
    ensures var z := Step(w, l); r < |z.requests| && Onward(w.requests[r], z.requests[r])
  {
  }

  lemma StepOutcomes(w: World, l: Label)
    requires Outcomes(w)
    ensures Outcomes(Step(w, l))
  {
  }

  lemma {:induction false} RunOutcomes(labels: seq<Label>)
    ensures Outcomes(RunOf(START, labels))
  {
    if labels == [] {
    } else {
      RunOutcomes(labels[..|labels| - 1]);
      StepOutcomes(RunOf(START, labels[..|labels| - 1]), labels[|labels| - 1]);
    }
  }

  lemma {:induction false} RunOnward(w: World, labels: seq<Label>, r: nat)
    requires Outcomes(w) && r < |w.requests|
    ensures var z := RunOf(w, labels); Outcomes(z) && r < |z.requests| && Onward(w.requests[r], z.requests[r])
  {
    if labels == [] {
    } else {
      RunOnward(w, labels[..|labels| - 1], r);
      StepOutcomes(RunOf(w, labels[..|labels| - 1]), labels[|labels| - 1]);
      StepOnward(RunOf(w, labels[..|labels| - 1]), labels[|labels| - 1], r);
    }
  }

  /**
    In every run the status of a request only climbs, and once it names a file and an expiry these
    never change again, whoever else works on it.
  */
  lemma StatusOnlyClimbs(labels: seq<Label>, more: seq<Label>, r: nat)
    requires r < |RunOf(START, labels).requests|
    ensures var before := RunOf(START, labels); var after := RunOf(before, more);
      && r < |after.requests|
      && Climbs(before.requests[r].status, after.requests[r].status)
      && (before.requests[r].payload.Some? ==>
            after.requests[r].payload == before.requests[r].payload
              && after.requests[r].expiresAt == before.requests[r].expiresAt)
  {
    RunOutcomes(labels);
    RunOnward(RunOf(START, labels), more, r);
  }
}
