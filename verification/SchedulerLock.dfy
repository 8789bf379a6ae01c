/**
  The scheduler's lease lock: one row per schedule in a shared table. A row is live until its expiry;
  an expired row may be taken over, a released row is one that expired at the epoch, and a cleanup
  deletes expired rows.
*/
module SchedulerLock {
  import opened Options

  type InstanceId = nat

  datatype Row = Row(lockedBy: InstanceId, lockedAt: nat, expiresAt: nat, lastRunAt: Option<nat>)

  type Table = map<string, Row>

  const DEFAULT_LOCK_TTL_MS: nat := 300000

  /** Another instance's row is live. */
  predicate HeldAgainst(t: Table, job: string, me: InstanceId, now: nat) {
    job in t && t[job].expiresAt > now && t[job].lockedBy != me
  }

  /** The acquire transaction; now was read before the transaction started. */
  function Acquire(t: Table, job: string, me: InstanceId, ttl: nat, now: nat): Table {
    if HeldAgainst(t, job, me, now) then t
    else t[job := Row(me, now, now + ttl, if job in t then t[job].lastRunAt else None)]
  }

  function Release(t: Table, job: string, me: InstanceId): Table {
    if job in t && t[job].lockedBy == me then t[job := t[job].(expiresAt := 0)] else t
  }

  function Touch(t: Table, job: string, now: nat): Table {
    if job in t then t[job := t[job].(lastRunAt := Some(now))] else t
  }

  function Stale(t: Table, now: nat): set<string> {
    set job | job in t && t[job].expiresAt < now
  }

  function Cleanup(t: Table, now: nat): Table {
    t - Stale(t, now)
  }

  // ---------------------------------------------------------------------------------------------
  // What a cleanup can change
  // ---------------------------------------------------------------------------------------------

  /**
    Exactly when a cleanup changes the next acquire: the row was another instance's, expired for the
    cleanup's clock, and still live for the clock the acquire read earlier. Then the acquire is granted
    where it would have been refused.
  */
  lemma CleanupFlipsAcquire(t: Table, job: string, me: InstanceId, acquireNow: nat, cleanupNow: nat)
    ensures !HeldAgainst(Cleanup(t, cleanupNow), job, me, acquireNow) && HeldAgainst(t, job, me, acquireNow)
      <==> job in t && t[job].lockedBy != me && acquireNow < t[job].expiresAt < cleanupNow
    ensures HeldAgainst(Cleanup(t, cleanupNow), job, me, acquireNow) ==> HeldAgainst(t, job, me, acquireNow)
  {
  }

  // ---------------------------------------------------------------------------------------------
  // Histories and the reference lock
  // ---------------------------------------------------------------------------------------------

  /** What the database executes, in its order. */
  datatype Op =
    | AcquireOp(job: string, me: InstanceId, ttl: nat, now: nat)
    | ReleaseOp(job: string, me: InstanceId)
    | TouchOp(job: string, now: nat)
    | CleanupOp(now: nat)

  function Execute(t: Table, op: Op): Table {
    match op
    case AcquireOp(job, me, ttl, now) => Acquire(t, job, me, ttl, now)
    case ReleaseOp(job, me) => Release(t, job, me)
    case TouchOp(job, now) => Touch(t, job, now)
    case CleanupOp(now) => Cleanup(t, now)
  }

  /** The last run of a row that stays is what the last touch recorded; a new row has none. */
  lemma OnlyTouchRecords(t: Table, op: Op, job: string)
    requires job in Execute(t, op)
    ensures job !in t ==> Execute(t, op)[job].lastRunAt == None
    ensures job in t ==>
      Execute(t, op)[job].lastRunAt
      == if op.TouchOp? && op.job == job then Some(op.now) else t[job].lastRunAt
  {
  }

  function After(t: Table, ops: seq<Op>): Table
    decreases |ops|
  {
    if ops == [] then t else After(Execute(t, ops[0]), ops[1..])
  }

  /** The answers to the acquires of a history, in order. */
  function Grants(t: Table, ops: seq<Op>): seq<bool>
    decreases |ops|
  {
    if ops == [] then []
    else
      (if ops[0].AcquireOp? then [!HeldAgainst(t, ops[0].job, ops[0].me, ops[0].now)] else [])
      + Grants(Execute(t, ops[0]), ops[1..])
  }

  /** The lock one would ask for: who leased a schedule last, until when, and nothing else. */
  datatype Lease = Lease(owner: InstanceId, until: nat)

  type Leases = map<string, Lease>

  predicate Leased(leases: Leases, job: string, me: InstanceId, now: nat) {
    job in leases && leases[job].owner != me && now < leases[job].until
  }

  /** Releasing gives a lease up; touching and cleaning do not concern it. */
  function Settle(leases: Leases, op: Op): Leases {
    match op
    case AcquireOp(job, me, ttl, now) => if Leased(leases, job, me, now) then leases
      else leases[job := Lease(me, now + ttl)]
    case ReleaseOp(job, me) => if job in leases && leases[job].owner == me then leases - {job} else leases
    case TouchOp(_, _) => leases
    case CleanupOp(_) => leases
  }

  function LeaseGrants(leases: Leases, ops: seq<Op>): seq<bool>
    decreases |ops|
  {
    if ops == [] then []
    else
      (if ops[0].AcquireOp? then [!Leased(leases, ops[0].job, ops[0].me, ops[0].now)] else [])
      + LeaseGrants(Settle(leases, ops[0]), ops[1..])
  }

  /** No acquire uses a clock reading older than one a cleanup before it has used. */
  predicate CleanedBehind(ops: seq<Op>, cleaned: nat) {
    ops == [] ||
    match ops[0]
    case AcquireOp(_, _, _, now) => cleaned <= now && CleanedBehind(ops[1..], cleaned)
    case CleanupOp(now) => CleanedBehind(ops[1..], if cleaned < now then now else cleaned)
    case _ => CleanedBehind(ops[1..], cleaned)
  }

  /** Table and leases agree on everything that is live after `cleaned`. */
  ghost predicate Agree(t: Table, leases: Leases, cleaned: nat) {
    forall job ::
      && ((job in t && t[job].expiresAt > cleaned) <==> (job in leases && leases[job].until > cleaned))
      && (job in t && t[job].expiresAt > cleaned ==>
            t[job].lockedBy == leases[job].owner && t[job].expiresAt == leases[job].until)
  }

  lemma AgreeOnward(t: Table, leases: Leases, op: Op, cleaned: nat)
    requires Agree(t, leases, cleaned)
    requires op.AcquireOp? ==> cleaned <= op.now
    ensures Agree(Execute(t, op), Settle(leases, op), if op.CleanupOp? && cleaned < op.now then op.now else cleaned)
    ensures op.AcquireOp? ==> (HeldAgainst(t, op.job, op.me, op.now) <==> Leased(leases, op.job, op.me, op.now))
  {
    if op.AcquireOp? {
      assert (op.job in t && t[op.job].expiresAt > cleaned) <==> (op.job in leases && leases[op.job].until > cleaned);
    }
  }

  /**
    The table with its epochs, touches and cleanups answers every acquire of every history as the
    reference lock does: cleanups at any moments change no answer, and neither do touches.
  */
  lemma {:induction false} GrantsMatchLeases(t: Table, leases: Leases, ops: seq<Op>, cleaned: nat)
    requires Agree(t, leases, cleaned) && CleanedBehind(ops, cleaned)
    ensures Grants(t, ops) == LeaseGrants(leases, ops)
    decreases |ops|
  {
    if ops == [] {
    } else {
      var op := ops[0];
      AgreeOnward(t, leases, op, cleaned);
      GrantsMatchLeases(Execute(t, op), Settle(leases, op), ops[1..],
                        if op.CleanupOp? && cleaned < op.now then op.now else cleaned);
    }
  }

  lemma HistoryMatchesLeases(ops: seq<Op>)
    requires CleanedBehind(ops, 0)
    ensures Grants(map[], ops) == LeaseGrants(map[], ops)
  {
    GrantsMatchLeases(map[], map[], ops, 0);
  }

  /**
    A history that shows it: the second instance reads its clock while the first one's lease is live, a
    cleanup runs after the lease has run out, and only then is the acquire executed.
  */
  lemma CleanupGrantsEarlier(job: string, ttl: nat)
    requires ttl >= 1
    ensures var first, second := AcquireOp(job, 0, ttl, 0), AcquireOp(job, 1, ttl, ttl - 1);
      && Grants(map[], [first, second]) == [true, false]
      && Grants(map[], [first, CleanupOp(ttl + 1), second]) == [true, true]
  {
    var first, clean, second := AcquireOp(job, 0, ttl, 0), CleanupOp(ttl + 1), AcquireOp(job, 1, ttl, ttl - 1);
    var leased := Execute(map[], first);
    assert [first, second][1..] == [second] && [first, clean, second][1..] == [clean, second];
    assert [clean, second][1..] == [second] && [second][1..] == [];
    assert Execute(leased, clean) == map[];
    assert Grants(leased, [second]) == [false] + Grants(Execute(leased, second), []);
    assert Grants(map[], [second]) == [true] + Grants(Execute(map[], second), []);
    assert Grants(leased, [clean, second]) == [] + Grants(map[], [second]);
    assert Grants(map[], [first, second]) == [true] + Grants(leased, [second]);
    assert Grants(map[], [first, clean, second]) == [true] + Grants(leased, [clean, second]);
  }

  // ---------------------------------------------------------------------------------------------
  // A holder that stops
  // ---------------------------------------------------------------------------------------------

  /** Every lease an instance asked for on a schedule runs out by a time. */
  predicate LeasesEndBy(ops: seq<Op>, job: string, holder: InstanceId, bound: nat) {
    forall i :: 0 <= i < |ops| && ops[i].AcquireOp? && ops[i].job == job && ops[i].me == holder ==>
      ops[i].now + ops[i].ttl <= bound
  }

  lemma {:induction false} RowEndsBy(t: Table, ops: seq<Op>, job: string, holder: InstanceId, bound: nat)
    requires LeasesEndBy(ops, job, holder, bound)
    requires job in t && t[job].lockedBy == holder ==> t[job].expiresAt <= bound
    ensures var u := After(t, ops); job in u && u[job].lockedBy == holder ==> u[job].expiresAt <= bound
    decreases |ops|
  {
    if ops == [] {
    } else {
      RowEndsBy(Execute(t, ops[0]), ops[1..], job, holder, bound);
    }
  }

  /**
    A holder that crashes blocks a schedule for at most its TTL: once its leases have run out, whatever
    others did since, an acquire is granted unless some third instance holds a live lease.
  */
  lemma CrashBlocksAtMostTtl(ops: seq<Op>, job: string, crashed: InstanceId, me: InstanceId, bound: nat, now: nat)
    requires LeasesEndBy(ops, job, crashed, bound) && bound <= now
    ensures var t := After(map[], ops);
      HeldAgainst(t, job, me, now) ==> t[job].lockedBy != crashed && t[job].lockedBy != me && t[job].expiresAt > now
  {
    RowEndsBy(map[], ops, job, crashed, bound);
  }

  // ---------------------------------------------------------------------------------------------
  // The service
  // ---------------------------------------------------------------------------------------------

  /** The table every instance works on. */
  class LockTable {
    var rows: Table

    constructor ()
      ensures rows == map[]
    {
      rows := map[];
    }

    /** Statements of other callers, executed while one awaits a reply. */
    method Others(ops: seq<Op>)
      modifies this
      ensures rows == After(old(rows), ops)
    {
      for i := 0 to |ops|
        invariant After(rows, ops[i..]) == After(old(rows), ops)
      {
        rows := Execute(rows, ops[i]);
      }
    }
  }

  /** Whether a call's statement reached the database, and whether its reply came back. */
  datatype Delivery = Delivered | NotExecuted | ReplyLost

  datatype LockResult = LockResult(acquired: bool, lockId: InstanceId, heldBy: Option<(InstanceId, nat)>)

  lemma StaleAreFewer(t: Table, now: nat)
    ensures |Stale(t, now)| == |t| - |Cleanup(t, now)|
    ensures forall job :: job in Cleanup(t, now) <==> job in t && t[job].expiresAt >= now
  {
    var stale, left := Stale(t, now), Cleanup(t, now);
    assert t.Keys == left.Keys + stale;
    assert |t.Keys| == |left.Keys| + |stale|;
  }

  class LockService {
    const table: LockTable
    const instanceId: InstanceId

    constructor (table: LockTable, instanceId: InstanceId)
      ensures this.table == table && this.instanceId == instanceId
    {
      this.table := table;
      this.instanceId := instanceId;
    }

    /** A refusal is silent, and so is a failed call, even one whose transaction was committed. */
    method AcquireLock(job: string, ttlMs: Option<nat>, now: nat, delivery: Delivery) returns (r: LockResult)
      modifies table
      ensures var ttl := ttlMs.GetOr(DEFAULT_LOCK_TTL_MS);
        table.rows == if delivery == NotExecuted then old(table.rows)
          else Acquire(old(table.rows), job, instanceId, ttl, now)
      ensures r.acquired <==> delivery == Delivered && !HeldAgainst(old(table.rows), job, instanceId, now)
      ensures r.acquired ==>
        table.rows[job] == Row(instanceId, now, now + ttlMs.GetOr(DEFAULT_LOCK_TTL_MS),
                               if job in old(table.rows) then old(table.rows)[job].lastRunAt else None)
      ensures r.lockId == instanceId
      ensures r.heldBy.Some? <==> delivery == Delivered && HeldAgainst(old(table.rows), job, instanceId, now)
      ensures r.heldBy.Some? ==> r.heldBy.value == (table.rows[job].lockedBy, table.rows[job].expiresAt)
      ensures r.acquired ==> forall other: nat, at: nat ::
        other != instanceId && at < now + ttlMs.GetOr(DEFAULT_LOCK_TTL_MS) ==> HeldAgainst(table.rows, job, other, at)
    {
      var ttl := ttlMs.GetOr(DEFAULT_LOCK_TTL_MS);
      r := LockResult(false, instanceId, None);
      if delivery == NotExecuted {
        return;
      }
      if job in table.rows {
        var existing := table.rows[job];
        if existing.expiresAt > now {
          if existing.lockedBy != instanceId {
            if delivery == Delivered {
              r := r.(heldBy := Some((existing.lockedBy, existing.expiresAt)));
            }
            return;
          }
        }
        table.rows := table.rows[job := existing.(lockedBy := instanceId, lockedAt := now, expiresAt := now + ttl)];
      } else {
        table.rows := table.rows[job := Row(instanceId, now, now + ttl, None)];
      }
      r := r.(acquired := delivery == Delivered);
    }

    method ReleaseLock(job: string, delivery: Delivery) returns (released: bool)
      modifies table
      ensures table.rows == if delivery == NotExecuted then old(table.rows)
        else Release(old(table.rows), job, instanceId)
      ensures released <==>
        delivery == Delivered && job in old(table.rows) && old(table.rows)[job].lockedBy == instanceId
      ensures released ==>
        && table.rows[job] == old(table.rows)[job].(expiresAt := 0)
        && forall other :: other in old(table.rows) && other != job ==> table.rows[other] == old(table.rows)[other]
      ensures forall other, now :: delivery != NotExecuted && HeldAgainst(table.rows, job, other, now) ==>
        table.rows[job].lockedBy != instanceId
    {
      released := false;
      if delivery != NotExecuted {
        if job in table.rows && table.rows[job].lockedBy == instanceId {
          table.rows := table.rows[job := table.rows[job].(expiresAt := 0)];
          released := delivery == Delivered;
        }
      }
    }

    /** Not found and a failed call are both swallowed. */
    method UpdateLastRunTime(job: string, now: nat, delivery: Delivery)
      modifies table
      ensures table.rows == if delivery == NotExecuted then old(table.rows) else Touch(old(table.rows), job, now)
      ensures delivery != NotExecuted && job in old(table.rows) ==>
        table.rows == old(table.rows)[job := old(table.rows)[job].(lastRunAt := Some(now))]
    {
      if delivery != NotExecuted && job in table.rows {
        table.rows := table.rows[job := table.rows[job].(lastRunAt := Some(now))];
      }
    }

    method CleanupStaleLocks(now: nat) returns (count: nat)
      modifies table
      ensures table.rows == Cleanup(old(table.rows), now)
      ensures count == |old(table.rows)| - |table.rows|
      ensures forall job :: job in table.rows <==> job in old(table.rows) && old(table.rows)[job].expiresAt >= now
    {
      var stale := Stale(table.rows, now);
      count := |stale|;
      StaleAreFewer(table.rows, now);
      table.rows := table.rows - stale;
    }
  }
}
