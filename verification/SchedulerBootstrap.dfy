/**
  One execution of a schedule on one instance: acquire the lock, run every job, record the run and
  release, with the statements of other instances between any two of its own.
*/
module SchedulerBootstrap {
  import opened Options
  import opened SchedulerLock

  datatype Job = Job(name: string, throws: bool)

  /** cronValid is what the cron library says of the schedule's expression. */
  datatype Schedule = Schedule(name: string, cronValid: bool, jobs: seq<Job>)

  /** The schedules that get a cron task, in order; one with an invalid expression is logged and left out. */
  function Registrable(schedules: seq<Schedule>): (r: seq<Schedule>)
    ensures forall s :: s in r <==> s in schedules && s.cronValid
  {
    if schedules == [] then []
    else
      var last := schedules[|schedules| - 1];
      Registrable(schedules[..|schedules| - 1]) + if last.cronValid then [last] else []
  }

  function Throwing(jobs: seq<Job>): (r: seq<Job>)
    ensures forall j :: j in r <==> j in jobs && j.throws
  {
    if jobs == [] then []
    else
      var last := jobs[|jobs| - 1];
      Throwing(jobs[..|jobs| - 1]) + if last.throws then [last] else []
  }

  predicate IsValid(s: Schedule) {
    s.cronValid
  }

  predicate Throws(j: Job) {
    j.throws
  }

  /** What is kept of a list: each element wherever it is listed, in that order. */
  ghost predicate Picks<T>(all: seq<T>, keep: T -> bool, kept: seq<T>, at: seq<nat>) {
    && |at| == |kept|
    && (forall k, m :: 0 <= k < m < |at| ==> at[k] < at[m])
    && (forall k :: 0 <= k < |at| ==> at[k] < |all| && kept[k] == all[at[k]])
    && (forall i: nat :: i < |all| ==> (i in at <==> keep(all[i])))
  }

  lemma PicksOneMore<T>(pre: seq<T>, last: T, keep: T -> bool, kept: seq<T>, at: seq<nat>)
    requires Picks(pre, keep, kept, at)
    ensures keep(last) ==> Picks(pre + [last], keep, kept + [last], at + [|pre|])
    ensures !keep(last) ==> Picks(pre + [last], keep, kept, at)
  {
    forall i | i in at ensures i < |pre| {
      var k :| 0 <= k < |at| && at[k] == i;
    }
  }

  lemma RegistrableOneMore(schedules: seq<Schedule>, pre: seq<Schedule>, last: Schedule)
    requires schedules == pre + [last]
    ensures Registrable(schedules) == Registrable(pre) + if IsValid(last) then [last] else []
  {
    assert schedules[..|schedules| - 1] == pre;
  }

  lemma ThrowingOneMore(jobs: seq<Job>, pre: seq<Job>, last: Job)
    requires jobs == pre + [last]
    ensures Throwing(jobs) == Throwing(pre) + if Throws(last) then [last] else []
  {
    assert jobs[..|jobs| - 1] == pre;
  }

  /** Each schedule with a valid expression has one task for each time it is listed, in that order. */
  lemma {:induction false} RegistersEachOnce(schedules: seq<Schedule>) returns (at: seq<nat>)
    ensures Picks(schedules, IsValid, Registrable(schedules), at)
  {
    at := [];
    if schedules != [] {
      var n: nat := |schedules| - 1;
      var pre, last := schedules[..n], schedules[n];
      at := RegistersEachOnce(pre);
      assert schedules == pre + [last];
      RegistrableOneMore(schedules, pre, last);
      PicksOneMore(pre, last, IsValid, Registrable(pre), at);
      at := at + if IsValid(last) then [n] else [];
    }
  }

  /** Each job that throws is noted once for each time it is listed, in that order. */
  lemma {:induction false} NotesEachOnce(jobs: seq<Job>) returns (at: seq<nat>)
    ensures Picks(jobs, Throws, Throwing(jobs), at)
  {
    at := [];
    if jobs != [] {
      var n: nat := |jobs| - 1;
      var pre, last := jobs[..n], jobs[n];
      at := NotesEachOnce(pre);
      assert jobs == pre + [last];
      ThrowingOneMore(jobs, pre, last);
      PicksOneMore(pre, last, Throws, Throwing(pre), at);
      at := at + if Throws(last) then [n] else [];
    }
  }

  /** What happens around the execution: clock readings, fates of its calls, and the others' statements. */
  datatype Surroundings = Surroundings(
    acquireNow: nat, acquire: Delivery,
    whileJob: seq<seq<Op>>,
    touchNow: nat, touch: Delivery,
    beforeRelease: seq<Op>, release: Delivery)

  function Flatten(parts: seq<seq<Op>>): seq<Op> {
    if parts == [] then [] else Flatten(parts[..|parts| - 1]) + parts[|parts| - 1]
  }

  lemma {:induction false} AfterBoth(t: Table, a: seq<Op>, b: seq<Op>)
    ensures After(t, a + b) == After(After(t, a), b)
    decreases |a|
  {
    if a == [] {
      assert a + b == b;
    } else {
      AfterBoth(Execute(t, a[0]), a[1..], b);
      assert (a + b)[1..] == a[1..] + b;
    }
  }

  predicate Owns(t: Table, job: string, me: InstanceId, expiry: nat) {
    job in t && t[job].lockedBy == me && t[job].expiresAt == expiry
  }

  /** The statement is not this instance's, and no clock in it has reached the expiry. */
  predicate Respects(op: Op, job: string, me: InstanceId, expiry: nat) {
    match op
    case AcquireOp(j, other, _, now) => j == job ==> other != me && now < expiry
    case ReleaseOp(j, other) => j == job ==> other != me
    case TouchOp(_, _) => true
    case CleanupOp(now) => now <= expiry
  }

  ghost predicate AllRespect(ops: seq<Op>, job: string, me: InstanceId, expiry: nat) {
    forall i :: 0 <= i < |ops| ==> Respects(ops[i], job, me, expiry)
  }

  /** Nobody can take a lease away before its expiry, whatever statements they execute. */
  lemma {:induction false} LeaseStands(t: Table, ops: seq<Op>, job: string, me: InstanceId, expiry: nat)
    requires Owns(t, job, me, expiry) && AllRespect(ops, job, me, expiry)
    ensures Owns(After(t, ops), job, me, expiry)
    decreases |ops|
  {
    if ops == [] {
    } else {
      assert Respects(ops[0], job, me, expiry);
      LeaseStands(Execute(t, ops[0]), ops[1..], job, me, expiry);
    }
  }

  /** The table when the execution releases, and after. */
  ghost function AtRelease(t: Table, job: string, me: InstanceId, s: Surroundings): Table {
    var acquired := Acquire(t, job, me, DEFAULT_LOCK_TTL_MS, s.acquireNow);
    var ran := After(acquired, Flatten(s.whileJob));
    After(if s.touch == NotExecuted then ran else Touch(ran, job, s.touchNow), s.beforeRelease)
  }

  /** As long as the others respect it, the lease is the execution's own from its acquire to its release. */
  lemma LeaseHeldToRelease(t: Table, job: string, me: InstanceId, s: Surroundings)
    requires !HeldAgainst(t, job, me, s.acquireNow)
    requires AllRespect(Flatten(s.whileJob) + s.beforeRelease, job, me, s.acquireNow + DEFAULT_LOCK_TTL_MS)
    ensures Owns(AtRelease(t, job, me, s), job, me, s.acquireNow + DEFAULT_LOCK_TTL_MS)
    ensures forall other: nat, now: nat :: !HeldAgainst(Release(AtRelease(t, job, me, s), job, me), job, other, now)
  {
    var expiry := s.acquireNow + DEFAULT_LOCK_TTL_MS;
    var acquired := Acquire(t, job, me, DEFAULT_LOCK_TTL_MS, s.acquireNow);
    var first, second := Flatten(s.whileJob), s.beforeRelease;
    assert AllRespect(first, job, me, expiry) by {
      forall i | 0 <= i < |first| ensures Respects(first[i], job, me, expiry) {
        assert first[i] == (first + second)[i];
      }
    }
    LeaseStands(acquired, first, job, me, expiry);
    var ran := After(acquired, first);
    assert AllRespect(second, job, me, expiry) by {
      forall i | 0 <= i < |second| ensures Respects(second[i], job, me, expiry) {
        assert second[i] == (first + second)[|first| + i];
      }
    }
    LeaseStands(if s.touch == NotExecuted then ran else Touch(ran, job, s.touchNow), second, job, me, expiry);
  }

  lemma {:induction false} LastRunStands(t: Table, ops: seq<Op>, job: string, me: InstanceId, expiry: nat, at: nat)
    requires Owns(t, job, me, expiry) && AllRespect(ops, job, me, expiry) && t[job].lastRunAt == Some(at)
    requires forall i :: 0 <= i < |ops| && ops[i].TouchOp? ==> ops[i].job != job
    ensures Owns(After(t, ops), job, me, expiry) && After(t, ops)[job].lastRunAt == Some(at)
    decreases |ops|
  {
    if ops == [] {
    } else {
      assert Respects(ops[0], job, me, expiry);
      OnlyTouchRecords(t, ops[0], job);
      LastRunStands(Execute(t, ops[0]), ops[1..], job, me, expiry, at);
    }
  }

  /** The execution is on record: the moment its jobs were through is the last run of the row it releases. */
  lemma ExecutionIsRecorded(t: Table, job: string, me: InstanceId, s: Surroundings)
    requires !HeldAgainst(t, job, me, s.acquireNow) && s.touch != NotExecuted
    requires AllRespect(Flatten(s.whileJob), job, me, s.acquireNow + DEFAULT_LOCK_TTL_MS)
    requires AllRespect(s.beforeRelease, job, me, s.acquireNow + DEFAULT_LOCK_TTL_MS)
    requires forall i :: 0 <= i < |s.beforeRelease| && s.beforeRelease[i].TouchOp? ==> s.beforeRelease[i].job != job
    ensures var end := Release(AtRelease(t, job, me, s), job, me);
      job in end && end[job].lastRunAt == Some(s.touchNow) && end[job].lockedBy == me && end[job].expiresAt == 0
  {
    var expiry := s.acquireNow + DEFAULT_LOCK_TTL_MS;
    var acquired := Acquire(t, job, me, DEFAULT_LOCK_TTL_MS, s.acquireNow);
    LeaseStands(acquired, Flatten(s.whileJob), job, me, expiry);
    var ran := After(acquired, Flatten(s.whileJob));
    LastRunStands(Touch(ran, job, s.touchNow), s.beforeRelease, job, me, expiry, s.touchNow);
  }

  /** What one more job adds to the calls, the failures and the table. */
  lemma OneJobMore(called: seq<Job>, failed: seq<Job>, t: Table, jobs: seq<Job>, whileJob: seq<seq<Op>>, i: nat)
    requires i < |jobs| == |whileJob|
    ensures called + jobs[..i] + [jobs[i]] == called + jobs[..i + 1]
    ensures failed + Throwing(jobs[..i]) + (if jobs[i].throws then [jobs[i]] else [])
      == failed + Throwing(jobs[..i + 1])
    ensures After(After(t, Flatten(whileJob[..i])), whileJob[i]) == After(t, Flatten(whileJob[..i + 1]))
  {
    assert jobs[..i + 1][..i] == jobs[..i] && whileJob[..i + 1][..i] == whileJob[..i];
    AfterBoth(t, Flatten(whileJob[..i]), whileJob[i]);
  }

  class Bootstrap {
    const lock: LockService
    const enabled: bool
    const schedules: seq<Schedule>
    var isRunning: bool
    var activeCronTasks: seq<Schedule>
    /** History: the jobs called, and those that threw. */
    ghost var called: seq<Job>
    ghost var failed: seq<Job>

    constructor (lock: LockService, enabled: bool, schedules: seq<Schedule>)
      ensures this.lock == lock && this.enabled == enabled && this.schedules == schedules
      ensures !isRunning && activeCronTasks == [] && called == [] && failed == []
    {
      this.lock, this.enabled, this.schedules := lock, enabled, schedules;
      isRunning, activeCronTasks := false, [];
      called, failed := [], [];
    }

    /** In cron mode. */
    method OnApplicationBootstrap()
      modifies this`isRunning, this`activeCronTasks
      ensures isRunning == (old(isRunning) || enabled)
      ensures activeCronTasks == old(activeCronTasks) + if enabled then Registrable(schedules) else []
    {
      if !enabled {
        return;
      }
      for i := 0 to |schedules|
        invariant activeCronTasks == old(activeCronTasks) + Registrable(schedules[..i])
        invariant isRunning == old(isRunning)
      {
        assert schedules[..i + 1][..i] == schedules[..i];
        if schedules[i].cronValid {
          activeCronTasks := activeCronTasks + [schedules[i]];
        }
      }
      assert schedules[..|schedules|] == schedules;
      isRunning := true;
    }

    method OnApplicationShutdown()
      modifies this`isRunning, this`activeCronTasks
      ensures !isRunning
      ensures activeCronTasks == if old(isRunning) then [] else old(activeCronTasks)
    {
      if !isRunning {
        return;
      }
      isRunning := false;
      activeCronTasks := [];
    }

    /** The jobs one after the other; one that throws does not keep the next from being called. */
    method RunJobs(jobs: seq<Job>, whileJob: seq<seq<Op>>)
      requires |whileJob| == |jobs|
      modifies this`called, this`failed, lock.table
      ensures lock.table.rows == After(old(lock.table.rows), Flatten(whileJob))
      ensures called == old(called) + jobs && failed == old(failed) + Throwing(jobs)
    {
      for i := 0 to |jobs|
        invariant called == old(called) + jobs[..i] && failed == old(failed) + Throwing(jobs[..i])
        invariant lock.table.rows == After(old(lock.table.rows), Flatten(whileJob[..i]))
      {
        called := called + [jobs[i]];
        if jobs[i].throws {
          failed := failed + [jobs[i]];
        }
        lock.table.Others(whileJob[i]);
        OneJobMore(old(called), old(failed), old(lock.table.rows), jobs, whileJob, i);
      }
      assert whileJob[..|jobs|] == whileJob && jobs[..|jobs|] == jobs;
    }

    /**
      executeJob. With the lock every job is called once, in order, whichever throw, and the release
      follows; without it nothing is called and nothing released.
    */
    method ExecuteJob(schedule: Schedule, s: Surroundings)
      requires |s.whileJob| == |schedule.jobs|
      modifies this`called, this`failed, lock.table
      ensures !isRunning ==> lock.table.rows == old(lock.table.rows)
      ensures isRunning && s.acquire == NotExecuted ==> lock.table.rows == old(lock.table.rows)
      ensures isRunning && s.acquire == ReplyLost ==>
        lock.table.rows == Acquire(old(lock.table.rows), schedule.name, lock.instanceId, DEFAULT_LOCK_TTL_MS,
          s.acquireNow)
      ensures var locked := isRunning && s.acquire == Delivered
        && !HeldAgainst(old(lock.table.rows), schedule.name, lock.instanceId, s.acquireNow);
        && called == old(called) + (if locked then schedule.jobs else [])
        && failed == old(failed) + (if locked then Throwing(schedule.jobs) else [])
        && (locked ==>
              var end := AtRelease(old(lock.table.rows), schedule.name, lock.instanceId, s);
              lock.table.rows == if s.release == NotExecuted then end else Release(end, schedule.name, lock.instanceId))
        && (isRunning && s.acquire == Delivered && !locked ==> lock.table.rows == old(lock.table.rows))
    {
      if !isRunning {
        return;
      }
      var result := lock.AcquireLock(schedule.name, None, s.acquireNow, s.acquire);
      if !result.acquired {
        return;
      }
      RunJobs(schedule.jobs, s.whileJob);
      lock.UpdateLastRunTime(schedule.name, s.touchNow, s.touch);
      lock.table.Others(s.beforeRelease);
      var _ := lock.ReleaseLock(schedule.name, s.release);
    }
  }
}
