/**
  Many instances running the same schedules against one lock table. Time passes for all of them, each
  reads its own clock, and every statement the database executes may come at any later moment. A run
  of the system is any list of labels; a label that does not fit changes nothing.

  Each instance has at most one execution of a schedule in flight.
*/
module ScheduleRuns {
  import opened Options
  import opened SchedulerLock

  /**
    An execution waits for its acquire to be executed, has been granted and waits for the reply, runs
    its jobs, or has finished them and waits for its release.
  */
  datatype Flight = Asking(reading: nat, askedAt: nat) | Granted(run: nat) | Running(run: nat) | Releasing

  datatype Instance = Instance(alive: bool, isRunning: bool, flights: map<string, Flight>)

  /**
    History: one grant of a schedule's lock, when it was asked for and when the database granted it, and
    the expiry of the lease. The jobs start when the reply arrives, which may be any time later or never.
  */
  datatype Run = Run(job: string, instance: nat, askedAt: nat, grantedAt: nat, expiry: nat,
                     startedAt: Option<nat>, endedAt: Option<nat>)

  /**
    time is real; instances know only readings of their clocks. An instance's id is its index; runs are in grant order.
  */
  datatype World = World(time: nat, table: Table, instances: seq<Instance>, runs: seq<Run>)

  datatype Label =
    | Tick(ms: nat)
    | Boot
    | Shutdown(instance: nat)
    | Crash(instance: nat)
    | Fire(instance: nat, job: string, reading: nat)
    | Executed(instance: nat, job: string)
    | Started(instance: nat, job: string)
    | Failed(instance: nat, job: string)
    | Finished(instance: nat, job: string)
    | Touched(job: string, reading: nat)
    | Released(instance: nat, job: string, delivery: Delivery)
    | Cleaned(reading: nat)

  const TTL: nat := DEFAULT_LOCK_TTL_MS

  /** A clock may be off by skew, either way. */
  predicate ReadingOf(time: nat, reading: nat, skew: nat) {
    reading <= time + skew && time <= reading + skew
  }

  function Flying(w: World, i: nat, job: string): Option<Flight> {
    if i < |w.instances| && job in w.instances[i].flights then Some(w.instances[i].flights[job]) else None
  }

  function SetFlight(w: World, i: nat, job: string, flight: Flight): World
    requires i < |w.instances|
  {
    w.(instances := w.instances[i := w.instances[i].(flights := w.instances[i].flights[job := flight])])
  }

  function DropFlight(w: World, i: nat, job: string): World
    requires i < |w.instances|
  {
    w.(instances := w.instances[i := w.instances[i].(flights := w.instances[i].flights - {job})])
  }

  function EndedBy(runs: seq<Run>, i: nat, time: nat): (r: seq<Run>)
    ensures |r| == |runs|
  {
    seq(|runs|, k requires 0 <= k < |runs| =>
      if runs[k].instance == i && runs[k].endedAt.None? then runs[k].(endedAt := Some(time)) else runs[k])
  }

  function FireStep(w: World, i: nat, job: string, reading: nat, skew: nat): World {
    if i < |w.instances| && w.instances[i].alive && w.instances[i].isRunning
       && job !in w.instances[i].flights && ReadingOf(w.time, reading, skew)
    then SetFlight(w, i, job, Asking(reading, w.time))
    else w
  }

  /** The acquire transaction executes: a grant awaits its reply, a refusal ends the execution. */
  function ExecutedStep(w: World, i: nat, job: string): World {
    match Flying(w, i, job)
    case Some(Asking(reading, askedAt)) =>
      if HeldAgainst(w.table, job, i, reading) then DropFlight(w, i, job)
      else
        SetFlight(w, i, job, Granted(|w.runs|))
        .(table := Acquire(w.table, job, i, TTL, reading),
          runs := w.runs + [Run(job, i, askedAt, w.time, reading + TTL, None, None)])
    case _ => w
  }

  /** The reply to a granted acquire arrives, and the jobs start. */
  function StartedStep(w: World, i: nat, job: string): World {
    match Flying(w, i, job)
    case Some(Granted(k)) =>
      if k < |w.runs| then
        SetFlight(w, i, job, Running(k)).(runs := w.runs[k := w.runs[k].(startedAt := Some(w.time))])
      else w
    case _ => w
  }

  /** The acquire call fails, before its transaction was executed or after: no job is run. */
  function FailedStep(w: World, i: nat, job: string): World {
    match Flying(w, i, job)
    case Some(Asking(_, _)) => DropFlight(w, i, job)
    case Some(Granted(k)) =>
      if k < |w.runs| then
        DropFlight(w, i, job).(runs := w.runs[k := w.runs[k].(endedAt := Some(w.time))])
      else w
    case _ => w
  }

  function FinishedStep(w: World, i: nat, job: string): World {
    match Flying(w, i, job)
    case Some(Running(k)) =>
      if k < |w.runs| then
        SetFlight(w, i, job, Releasing).(runs := w.runs[k := w.runs[k].(endedAt := Some(w.time))])
      else w
    case _ => w
  }

  function ReleasedStep(w: World, i: nat, job: string, delivery: Delivery): World {
    match Flying(w, i, job)
    case Some(Releasing) =>
      DropFlight(w, i, job).(table := if delivery == NotExecuted then w.table else Release(w.table, job, i))
    case _ => w
  }

  function Step(w: World, l: Label, skew: nat): World {
    match l
    case Tick(ms) => w.(time := w.time + ms)
    case Boot => w.(instances := w.instances + [Instance(true, true, map[])])
    case Shutdown(i) =>
      if i < |w.instances| then w.(instances := w.instances[i := w.instances[i].(isRunning := false)]) else w
    case Crash(i) =>
      if i < |w.instances| then
        w.(instances := w.instances[i := Instance(false, false, map[])], runs := EndedBy(w.runs, i, w.time))
      else w
    case Fire(i, job, reading) => FireStep(w, i, job, reading, skew)
    case Executed(i, job) => ExecutedStep(w, i, job)
    case Started(i, job) => StartedStep(w, i, job)
    case Failed(i, job) => FailedStep(w, i, job)
    case Finished(i, job) => FinishedStep(w, i, job)
    case Touched(job, reading) => w.(table := Touch(w.table, job, reading))
    case Released(i, job, delivery) => ReleasedStep(w, i, job, delivery)
    case Cleaned(reading) =>
      // The reading may be old by the time the statement executes, but no clock is ahead by more than skew.
      if reading <= w.time + skew then w.(table := Cleanup(w.table, reading)) else w
  }

  function RunOf(w: World, labels: seq<Label>, skew: nat): World {
    if labels == [] then w
    else Step(RunOf(w, labels[..|labels| - 1], skew), labels[|labels| - 1], skew)
  }

  const NOTHING := World(0, map[], [], [])

  // ---------------------------------------------------------------------------------------------
  // Invariants
  // ---------------------------------------------------------------------------------------------

  ghost predicate SoundRun(w: World, r: Run, skew: nat) {
    && r.instance < |w.instances|
    && r.askedAt <= r.grantedAt <= w.time
    && r.askedAt + TTL <= r.expiry + skew
    && (r.startedAt.Some? ==> r.grantedAt <= r.startedAt.value <= w.time)
    && (r.endedAt.Some? ==> r.grantedAt <= r.endedAt.value <= w.time)
  }

  /** The flight a run in progress is in. */
  function FlightOf(r: Run, k: nat): Flight {
    if r.startedAt.None? then Granted(k) else Running(k)
  }

  /** Flights and runs tell the same story. */
  ghost predicate Coherent(w: World, skew: nat) {
    && (forall k :: 0 <= k < |w.runs| ==> SoundRun(w, w.runs[k], skew))
    && (forall k :: 0 <= k < |w.runs| && w.runs[k].endedAt.None? ==>
          Flying(w, w.runs[k].instance, w.runs[k].job) == Some(FlightOf(w.runs[k], k)))
    && (forall i, job :: 0 <= i < |w.instances| && job in w.instances[i].flights ==>
          FlightSound(w, i, job, w.instances[i].flights[job], skew))
  }

  ghost predicate FlightSound(w: World, i: nat, job: string, f: Flight, skew: nat) {
    match f
    case Asking(reading, askedAt) => askedAt <= w.time && askedAt <= reading + skew && reading <= askedAt + skew
    case Granted(k) => InProgress(w, i, job, k) && w.runs[k].startedAt.None?
    case Running(k) => InProgress(w, i, job, k) && w.runs[k].startedAt.Some?
    case Releasing => true
  }

  ghost predicate InProgress(w: World, i: nat, job: string, k: nat) {
    k < |w.runs| && w.runs[k].instance == i && w.runs[k].job == job && w.runs[k].endedAt.None?
  }

  ghost predicate Leasing(w: World, r: Run, skew: nat) {
    || (r.job in w.table && w.table[r.job].lockedBy == r.instance && w.table[r.job].expiresAt == r.expiry)
    || r.expiry <= w.time + skew
  }

  /** The lease of a run in progress stands until it runs out, by the fastest clock. */
  ghost predicate Protected(w: World, skew: nat) {
    forall k :: 0 <= k < |w.runs| && w.runs[k].endedAt.None? ==> Leasing(w, w.runs[k], skew)
  }

  predicate EndsBefore(r: Run, q: Run) {
    r.endedAt.Some? && r.endedAt.value <= q.grantedAt
  }

  /** A later grant of the schedule comes after the earlier run has ended, or after its lease ran out. */
  ghost predicate Apart(r: Run, q: Run, skew: nat) {
    r.job == q.job ==> EndsBefore(r, q) || (r.instance != q.instance && r.expiry <= q.grantedAt + skew)
  }

  ghost predicate AllApart(runs: seq<Run>, skew: nat) {
    forall j, k :: 0 <= j < k < |runs| ==> Apart(runs[j], runs[k], skew)
  }

  ghost predicate Invariant(w: World, skew: nat) {
    Coherent(w, skew) && Protected(w, skew) && AllApart(w.runs, skew)
  }

  lemma CrashKeeps(w: World, i: nat, skew: nat)
    requires Invariant(w, skew)
    ensures Invariant(Step(w, Crash(i), skew), skew)
  {
    var z := Step(w, Crash(i), skew);
    if i < |w.instances| {
      forall k | 0 <= k < |z.runs| && z.runs[k].endedAt.None?
        ensures z.runs[k] == w.runs[k] && z.runs[k].instance != i
      {
      }
    }
  }

  lemma FireKeeps(w: World, i: nat, job: string, reading: nat, skew: nat)
    requires Invariant(w, skew)
    ensures Invariant(FireStep(w, i, job, reading, skew), skew)
  {
  }

  /** A new grant keeps its distance from all runs before it. */
  lemma NewRunApart(w: World, i: nat, job: string, reading: nat, q: Run, skew: nat)
    requires Invariant(w, skew)
    requires exists askedAt :: Flying(w, i, job) == Some(Asking(reading, askedAt))
    requires !HeldAgainst(w.table, job, i, reading)
    requires q.job == job && q.instance == i && q.grantedAt == w.time
    ensures AllApart(w.runs + [q], skew)
  {
    forall k | 0 <= k < |w.runs| ensures Apart(w.runs[k], q, skew) {
      var r := w.runs[k];
      assert SoundRun(w, r, skew);
      if r.job == job && r.endedAt.None? {
        assert Leasing(w, r, skew);
        assert r.instance != i;
      }
    }
  }

  lemma AcquireProtects(w: World, i: nat, job: string, skew: nat)
    requires Invariant(w, skew) && Flying(w, i, job).Some? && Flying(w, i, job).value.Asking?
    ensures var table := Acquire(w.table, job, i, TTL, Flying(w, i, job).value.reading);
      forall k :: 0 <= k < |w.runs| && w.runs[k].endedAt.None? ==> Leasing(w.(table := table), w.runs[k], skew)
  {
    var reading := Flying(w, i, job).value.reading;
    forall k | 0 <= k < |w.runs| && w.runs[k].endedAt.None?
      ensures Leasing(w.(table := Acquire(w.table, job, i, TTL, reading)), w.runs[k], skew)
    {
      assert Leasing(w, w.runs[k], skew);
      assert Flying(w, w.runs[k].instance, w.runs[k].job) == Some(FlightOf(w.runs[k], k));
    }
  }

  lemma GrantedCoheres(w: World, i: nat, job: string, skew: nat)
    requires Invariant(w, skew) && Flying(w, i, job).Some? && Flying(w, i, job).value.Asking?
    requires !HeldAgainst(w.table, job, i, Flying(w, i, job).value.reading)
    ensures Coherent(ExecutedStep(w, i, job), skew)
  {
    var z := ExecutedStep(w, i, job);
    assert FlightSound(w, i, job, w.instances[i].flights[job], skew);
    forall k | 0 <= k < |z.runs| ensures SoundRun(z, z.runs[k], skew) {
      if k < |w.runs| {
        assert SoundRun(w, w.runs[k], skew);
      }
    }
    forall k | 0 <= k < |z.runs| && z.runs[k].endedAt.None?
      ensures Flying(z, z.runs[k].instance, z.runs[k].job) == Some(FlightOf(z.runs[k], k))
    {
      if k < |w.runs| {
        assert Flying(w, w.runs[k].instance, w.runs[k].job) == Some(FlightOf(w.runs[k], k));
      }
    }
    forall j, other | 0 <= j < |z.instances| && other in z.instances[j].flights
      ensures FlightSound(z, j, other, z.instances[j].flights[other], skew)
    {
      if j != i || other != job {
        assert FlightSound(w, j, other, w.instances[j].flights[other], skew);
      }
    }
  }

  lemma GrantedKeeps(w: World, i: nat, job: string, skew: nat)
    requires Invariant(w, skew) && Flying(w, i, job).Some? && Flying(w, i, job).value.Asking?
    requires !HeldAgainst(w.table, job, i, Flying(w, i, job).value.reading)
    ensures Invariant(ExecutedStep(w, i, job), skew)
  {
    var z := ExecutedStep(w, i, job);
    GrantedCoheres(w, i, job, skew);
    AcquireProtects(w, i, job, skew);
    NewRunApart(w, i, job, Flying(w, i, job).value.reading, z.runs[|w.runs|], skew);
    forall k | 0 <= k < |z.runs| && z.runs[k].endedAt.None? ensures Leasing(z, z.runs[k], skew) {
      if k < |w.runs| {
        assert Leasing(w.(table := z.table), w.runs[k], skew);
      }
    }
  }

  /** Giving a flight up that no run is in. */
  lemma DropKeeps(w: World, i: nat, job: string, skew: nat)
    requires Invariant(w, skew) && i < |w.instances|
    requires forall k :: 0 <= k < |w.runs| && w.runs[k].endedAt.None? ==>
      w.runs[k].instance != i || w.runs[k].job != job
    ensures Invariant(DropFlight(w, i, job), skew)
  {
    var z := DropFlight(w, i, job);
    forall k | 0 <= k < |z.runs| ensures SoundRun(z, z.runs[k], skew) {
      assert SoundRun(w, w.runs[k], skew);
    }
    forall k | 0 <= k < |z.runs| && z.runs[k].endedAt.None?
      ensures Flying(z, z.runs[k].instance, z.runs[k].job) == Some(FlightOf(z.runs[k], k))
      ensures Leasing(z, z.runs[k], skew)
    {
      assert Flying(w, w.runs[k].instance, w.runs[k].job) == Some(FlightOf(w.runs[k], k));
      assert Leasing(w, w.runs[k], skew);
    }
    forall j, other | 0 <= j < |z.instances| && other in z.instances[j].flights
      ensures FlightSound(z, j, other, z.instances[j].flights[other], skew)
    {
      assert FlightSound(w, j, other, w.instances[j].flights[other], skew);
    }
  }

  /** The one run of an instance and a schedule that may be in progress is that of its flight. */
  lemma NoRunWhileAsking(w: World, i: nat, job: string, skew: nat)
    requires Coherent(w, skew) && Flying(w, i, job).Some? && Flying(w, i, job).value.Asking?
    ensures forall k :: 0 <= k < |w.runs| && w.runs[k].endedAt.None? ==> w.runs[k].instance != i || w.runs[k].job != job
  {
    forall k | 0 <= k < |w.runs| && w.runs[k].endedAt.None? ensures w.runs[k].instance != i || w.runs[k].job != job {
      assert Flying(w, w.runs[k].instance, w.runs[k].job) == Some(FlightOf(w.runs[k], k));
    }
  }

  lemma ExecutedKeeps(w: World, i: nat, job: string, skew: nat)
    requires Invariant(w, skew)
    ensures Invariant(ExecutedStep(w, i, job), skew)
  {
    match Flying(w, i, job)
    case Some(Asking(reading, askedAt)) =>
      if HeldAgainst(w.table, job, i, reading) {
        NoRunWhileAsking(w, i, job, skew);
        DropKeeps(w, i, job, skew);
      } else {
        GrantedKeeps(w, i, job, skew);
      }
    case _ =>
  }

  /** What may be noted of a run in progress: that it has started, or that it is over. */
  predicate Noted(r: Run, q: Run, time: nat) {
    q == r.(startedAt := Some(time)) || q == r.(endedAt := Some(time))
  }

  lemma NotedApart(runs: seq<Run>, k: nat, q: Run, time: nat, skew: nat)
    requires AllApart(runs, skew) && k < |runs| && runs[k].endedAt.None? && Noted(runs[k], q, time)
    ensures AllApart(runs[k := q], skew)
  {
    var after := runs[k := q];
    forall a, b | 0 <= a < b < |after| ensures Apart(after[a], after[b], skew) {
      assert Apart(runs[a], runs[b], skew);
    }
  }

  /** The world in which a flight has moved on and its run is noted so. */
  function NotedWorld(w: World, i: nat, job: string, f: Option<Flight>, k: nat, q: Run): World
    requires i < |w.instances| && k < |w.runs|
  {
    (match f case None => DropFlight(w, i, job) case Some(g) => SetFlight(w, i, job, g)).(runs := w.runs[k := q])
  }

  lemma NotedKeeps(w: World, i: nat, job: string, f: Option<Flight>, k: nat, q: Run, skew: nat)
    requires Invariant(w, skew) && i < |w.instances| && InProgress(w, i, job, k) && Noted(w.runs[k], q, w.time)
    requires q.endedAt.None? ==> f == Some(Running(k))
    requires f == None || f == Some(Running(k)) || f == Some(Releasing)
    requires f == Some(Running(k)) ==> q.endedAt.None?
    ensures Invariant(NotedWorld(w, i, job, f, k, q), skew)
  {
    var z := NotedWorld(w, i, job, f, k, q);
    NotedApart(w.runs, k, q, w.time, skew);
    forall m | 0 <= m < |z.runs| ensures SoundRun(z, z.runs[m], skew) {
      assert SoundRun(w, w.runs[m], skew);
    }
    forall m | 0 <= m < |z.runs| && z.runs[m].endedAt.None?
      ensures Flying(z, z.runs[m].instance, z.runs[m].job) == Some(FlightOf(z.runs[m], m))
      ensures Leasing(z, z.runs[m], skew)
    {
      assert Flying(w, w.runs[m].instance, w.runs[m].job) == Some(FlightOf(w.runs[m], m));
      assert Flying(w, w.runs[k].instance, w.runs[k].job) == Some(FlightOf(w.runs[k], k));
      assert Leasing(w, w.runs[m], skew);
    }
    NotedFlights(w, i, job, f, k, q, skew);
  }

  lemma NotedFlights(w: World, i: nat, job: string, f: Option<Flight>, k: nat, q: Run, skew: nat)
    requires Coherent(w, skew) && i < |w.instances| && InProgress(w, i, job, k) && Noted(w.runs[k], q, w.time)
    requires f == None || f == Some(Running(k)) || f == Some(Releasing)
    requires f == Some(Running(k)) ==> q.endedAt.None?
    ensures var z := NotedWorld(w, i, job, f, k, q);
      forall j, other :: 0 <= j < |z.instances| && other in z.instances[j].flights ==>
        FlightSound(z, j, other, z.instances[j].flights[other], skew)
  {
    var z := NotedWorld(w, i, job, f, k, q);
    forall j, other | 0 <= j < |z.instances| && other in z.instances[j].flights
      ensures FlightSound(z, j, other, z.instances[j].flights[other], skew)
    {
      if j != i || other != job {
        assert FlightSound(w, j, other, w.instances[j].flights[other], skew);
      }
    }
  }

  lemma StartedKeeps(w: World, i: nat, job: string, skew: nat)
    requires Invariant(w, skew)
    ensures Invariant(StartedStep(w, i, job), skew)
  {
    match Flying(w, i, job)
    case Some(Granted(k)) =>
      assert FlightSound(w, i, job, w.instances[i].flights[job], skew);
      NotedKeeps(w, i, job, Some(Running(k)), k, w.runs[k].(startedAt := Some(w.time)), skew);
    case _ =>
  }

  lemma FailedKeeps(w: World, i: nat, job: string, skew: nat)
    requires Invariant(w, skew)
    ensures Invariant(FailedStep(w, i, job), skew)
  {
    match Flying(w, i, job)
    case Some(Asking(_, _)) =>
      NoRunWhileAsking(w, i, job, skew);
      DropKeeps(w, i, job, skew);
    case Some(Granted(k)) =>
      assert FlightSound(w, i, job, w.instances[i].flights[job], skew);
      NotedKeeps(w, i, job, None, k, w.runs[k].(endedAt := Some(w.time)), skew);
    case _ =>
  }

  lemma FinishedKeeps(w: World, i: nat, job: string, skew: nat)
    requires Invariant(w, skew)
    ensures Invariant(FinishedStep(w, i, job), skew)
  {
    match Flying(w, i, job)
    case Some(Running(k)) =>
      assert FlightSound(w, i, job, w.instances[i].flights[job], skew);
      NotedKeeps(w, i, job, Some(Releasing), k, w.runs[k].(endedAt := Some(w.time)), skew);
    case _ =>
  }

  lemma ReleasedKeeps(w: World, i: nat, job: string, delivery: Delivery, skew: nat)
    requires Invariant(w, skew)
    ensures Invariant(ReleasedStep(w, i, job, delivery), skew)
  {
    var z := ReleasedStep(w, i, job, delivery);
    forall k | 0 <= k < |z.runs| && z.runs[k].endedAt.None? ensures Leasing(z, z.runs[k], skew) {
      assert Leasing(w, w.runs[k], skew);
      assert Flying(w, w.runs[k].instance, w.runs[k].job) == Some(FlightOf(w.runs[k], k));
    }
  }

  lemma TableKeeps(w: World, l: Label, skew: nat)
    requires Invariant(w, skew)
    requires l.Touched? || l.Cleaned?
    ensures Invariant(Step(w, l, skew), skew)
  {
    var z := Step(w, l, skew);
    forall k | 0 <= k < |z.runs| && z.runs[k].endedAt.None? ensures Leasing(z, z.runs[k], skew) {
      assert Leasing(w, w.runs[k], skew);
    }
    forall k | 0 <= k < |z.runs| ensures Flying(z, w.runs[k].instance, w.runs[k].job)
      == Flying(w, w.runs[k].instance, w.runs[k].job) {
    }
  }

  lemma TimeAndInstancesKeep(w: World, l: Label, skew: nat)
    requires Invariant(w, skew)
    requires l.Tick? || l.Boot? || l.Shutdown?
    ensures Invariant(Step(w, l, skew), skew)
  {
    var z := Step(w, l, skew);
    forall k | 0 <= k < |z.runs| && z.runs[k].endedAt.None? ensures Leasing(z, z.runs[k], skew) {
      assert Leasing(w, w.runs[k], skew);
    }
    forall k | 0 <= k < |z.runs|
      ensures SoundRun(z, z.runs[k], skew)
      ensures Flying(z, w.runs[k].instance, w.runs[k].job) == Flying(w, w.runs[k].instance, w.runs[k].job)
    {
      assert SoundRun(w, w.runs[k], skew);
    }
  }

  lemma StepKeeps(w: World, l: Label, skew: nat)
    requires Invariant(w, skew)
    ensures Invariant(Step(w, l, skew), skew)
  {
    match l
    case Crash(i) => CrashKeeps(w, i, skew);
    case Fire(i, job, reading) => FireKeeps(w, i, job, reading, skew);
    case Executed(i, job) => ExecutedKeeps(w, i, job, skew);
    case Started(i, job) => StartedKeeps(w, i, job, skew);
    case Failed(i, job) => FailedKeeps(w, i, job, skew);
    case Finished(i, job) => FinishedKeeps(w, i, job, skew);
    case Released(i, job, delivery) => ReleasedKeeps(w, i, job, delivery, skew);
    case Touched(_, _) => TableKeeps(w, l, skew);
    case Cleaned(_) => TableKeeps(w, l, skew);
    case _ => TimeAndInstancesKeep(w, l, skew);
  }

  lemma {:induction false} RunKeeps(labels: seq<Label>, skew: nat)
    ensures Invariant(RunOf(NOTHING, labels, skew), skew)
  {
    if labels == [] {
    } else {
      RunKeeps(labels[..|labels| - 1], skew);
      StepKeeps(RunOf(NOTHING, labels[..|labels| - 1], skew), labels[|labels| - 1], skew);
    }
  }

  // ---------------------------------------------------------------------------------------------
  // Results
  // ---------------------------------------------------------------------------------------------

  /** When a run ended, or the present for one in progress. */
  function EndOf(w: World, r: Run): nat {
    r.endedAt.GetOr(w.time)
  }

  /** The moment the TTL is over, counted from the acquire call. */
  function Deadline(r: Run): nat {
    r.askedAt + TTL
  }

  /**
    Main result, for every run of the system: takeovers, late replies, late releases, lost replies,
    crashes and cleanups in any order. A schedule's lock is granted again only once the earlier run has
    ended, or no more than two clock skews before the earlier run's TTL is over; and no run starts its
    jobs before its grant.
  */
  lemma RunsApart(labels: seq<Label>, skew: nat, j: nat, k: nat)
    requires var runs := RunOf(NOTHING, labels, skew).runs; j < k < |runs| && runs[j].job == runs[k].job
    ensures var w := RunOf(NOTHING, labels, skew); var r, q := w.runs[j], w.runs[k];
      && r.grantedAt <= q.grantedAt
      && (q.startedAt.Some? ==> q.grantedAt <= q.startedAt.value)
      && (EndOf(w, r) <= q.grantedAt || (r.instance != q.instance && Deadline(r) <= q.grantedAt + 2 * skew))
  {
    RunKeeps(labels, skew);
    RunsGrantedInOrder(labels, skew);
    var w := RunOf(NOTHING, labels, skew);
    assert Apart(w.runs[j], w.runs[k], skew);
    assert SoundRun(w, w.runs[j], skew) && SoundRun(w, w.runs[k], skew);
  }

  ghost predicate GrantedInOrder(runs: seq<Run>) {
    forall j, k :: 0 <= j < k < |runs| ==> runs[j].grantedAt <= runs[k].grantedAt
  }

  lemma StepKeepsGrants(w: World, l: Label, skew: nat)
    requires Invariant(w, skew)
    ensures var z := Step(w, l, skew);
      && |w.runs| <= |z.runs| <= |w.runs| + 1
      && (forall k :: 0 <= k < |w.runs| ==> z.runs[k].grantedAt == w.runs[k].grantedAt && w.runs[k].grantedAt <= w.time)
      && (|w.runs| < |z.runs| ==> z.runs[|w.runs|].grantedAt == w.time)
  {
    forall k | 0 <= k < |w.runs| ensures w.runs[k].grantedAt <= w.time {
      assert SoundRun(w, w.runs[k], skew);
    }
  }

  lemma {:induction false} RunsGrantedInOrder(labels: seq<Label>, skew: nat)
    ensures GrantedInOrder(RunOf(NOTHING, labels, skew).runs)
  {
    if labels == [] {
    } else {
      RunsGrantedInOrder(labels[..|labels| - 1], skew);
      RunKeeps(labels[..|labels| - 1], skew);
      var w := RunOf(NOTHING, labels[..|labels| - 1], skew);
      StepKeepsGrants(w, labels[|labels| - 1], skew);
    }
  }

  /** The run executes the schedule's jobs, or has. */
  ghost predicate Executes(w: World, k: nat) {
    k < |w.runs| && w.runs[k].startedAt.Some?
  }

  /** All it does happens before the TTL is over. */
  ghost predicate KeepsTtl(w: World, k: nat) {
    k < |w.runs| && EndOf(w, w.runs[k]) <= Deadline(w.runs[k])
  }

  /** Of two executions that both end within their TTL one is over at most two clock skews after the other starts. */
  lemma OverlapWithinTtl(labels: seq<Label>, skew: nat, j: nat, k: nat)
    requires var w := RunOf(NOTHING, labels, skew);
      && j != k && Executes(w, j) && Executes(w, k) && w.runs[j].job == w.runs[k].job
      && KeepsTtl(w, j) && KeepsTtl(w, k)
    ensures var w := RunOf(NOTHING, labels, skew);
      || EndOf(w, w.runs[j]) <= w.runs[k].startedAt.value + 2 * skew
      || EndOf(w, w.runs[k]) <= w.runs[j].startedAt.value + 2 * skew
  {
    if j < k {
      RunsApart(labels, skew, j, k);
    } else {
      RunsApart(labels, skew, k, j);
    }
  }

  /** With exact clocks and executions that keep to their TTL, a schedule never executes twice at once. */
  lemma MutualExclusion(labels: seq<Label>, j: nat, k: nat)
    requires var w := RunOf(NOTHING, labels, 0);
      && Executes(w, j) && Executes(w, k) && w.runs[j].job == w.runs[k].job
      && w.runs[j].endedAt.None? && w.runs[k].endedAt.None?
      && w.time < Deadline(w.runs[j]) && w.time < Deadline(w.runs[k])
    ensures j == k
  {
    RunKeeps(labels, 0);
    var w := RunOf(NOTHING, labels, 0);
    assert SoundRun(w, w.runs[j], 0) && SoundRun(w, w.runs[k], 0);
  }

  lemma RunExtended(w: World, labels: seq<Label>, l: Label, skew: nat)
    ensures RunOf(w, labels + [l], skew) == Step(RunOf(w, labels, skew), l, skew)
  {
    assert (labels + [l])[..|labels|] == labels;
  }

  const IDLE := Instance(true, true, map[])

  function Flies(job: string, f: Flight): Instance {
    Instance(true, true, map[job := f])
  }

  /** Two instances have started, and some time later the first one asks for the lock with its reading of the clock. */
  lemma FirstIsGranted(job: string, ms: nat, reading: nat, skew: nat) returns (labels: seq<Label>)
    requires ReadingOf(ms, reading, skew)
    ensures RunOf(NOTHING, labels, skew)
         == World(ms, map[job := Row(0, reading, reading + TTL, None)], [Flies(job, Granted(0)), IDLE],
                  [Run(job, 0, ms, ms, reading + TTL, None, None)])
  {
    labels := [];
    assert RunOf(NOTHING, labels, skew) == NOTHING;
    RunExtended(NOTHING, labels, Boot, skew);
    labels := labels + [Boot];
    assert RunOf(NOTHING, labels, skew) == World(0, map[], [IDLE], []);
    RunExtended(NOTHING, labels, Boot, skew);
    labels := labels + [Boot];
    assert RunOf(NOTHING, labels, skew) == World(0, map[], [IDLE, IDLE], []);
    RunExtended(NOTHING, labels, Tick(ms), skew);
    labels := labels + [Tick(ms)];
    var booted := World(ms, map[], [IDLE, IDLE], []);
    assert RunOf(NOTHING, labels, skew) == booted;
    RunExtended(NOTHING, labels, Fire(0, job, reading), skew);
    labels := labels + [Fire(0, job, reading)];
    FireIdle(booted, job, reading, skew);
    RunExtended(NOTHING, labels, Executed(0, job), skew);
    labels := labels + [Executed(0, job)];
    ExecuteFirst(ms, job, reading);
  }

  lemma FireIdle(w: World, job: string, reading: nat, skew: nat)
    requires w.instances == [IDLE, IDLE] && ReadingOf(w.time, reading, skew)
    ensures FireStep(w, 0, job, reading, skew) == w.(instances := [Flies(job, Asking(reading, w.time)), IDLE])
  {
    assert w.instances[0].flights[job := Asking(reading, w.time)] == map[job := Asking(reading, w.time)];
  }

  lemma ExecuteFirst(ms: nat, job: string, reading: nat)
    ensures ExecutedStep(World(ms, map[], [Flies(job, Asking(reading, ms)), IDLE], []), 0, job)
         == World(ms, map[job := Row(0, reading, reading + TTL, None)], [Flies(job, Granted(0)), IDLE],
                  [Run(job, 0, ms, ms, reading + TTL, None, None)])
  {
    assert map[job := Asking(reading, ms)][job := Granted(0)] == map[job := Granted(0)];
  }

  lemma FireSecond(w: World, first: Instance, job: string, reading: nat, skew: nat)
    requires w.instances == [first, IDLE] && ReadingOf(w.time, reading, skew)
    ensures FireStep(w, 1, job, reading, skew) == w.(instances := [first, Flies(job, Asking(reading, w.time))])
  {
    assert w.instances[1].flights[job := Asking(reading, w.time)] == map[job := Asking(reading, w.time)];
  }

  lemma ExecuteSecond(w: World, first: Instance, job: string, reading: nat)
    requires w.instances == [first, Flies(job, Asking(reading, w.time))] && |w.runs| == 1
    requires job in w.table && w.table[job].expiresAt <= reading
    ensures var z := ExecutedStep(w, 1, job);
      && z.time == w.time && z.instances == [first, Flies(job, Granted(1))]
      && z.runs == w.runs + [Run(job, 1, w.time, w.time, reading + TTL, None, None)]
  {
    assert map[job := Asking(reading, w.time)][job := Granted(1)] == map[job := Granted(1)];
  }

  lemma StartSecond(w: World, first: Instance, job: string, r: Run)
    requires w.instances == [first, Flies(job, Granted(1))] && |w.runs| == 2 && w.runs[1] == r
    ensures var z := StartedStep(w, 1, job);
      z.time == w.time && |z.instances| == 2 && z.instances[0] == first
        && z.runs == [w.runs[0], r.(startedAt := Some(w.time))]
  {
  }

  /** The second instance asks when the first one's lease has run out for its clock, and its jobs start. */
  lemma SecondTakesOver(w: World, labels: seq<Label>, job: string, reading: nat, skew: nat) returns (more: seq<Label>)
    requires RunOf(NOTHING, labels, skew) == w && |w.instances| == 2 && w.instances[1] == IDLE && |w.runs| == 1
    requires job in w.table && w.table[job].expiresAt <= reading && ReadingOf(w.time, reading, skew)
    ensures var z := RunOf(NOTHING, more, skew);
      && z.time == w.time && |z.instances| == 2 && z.instances[0] == w.instances[0]
      && z.runs == w.runs + [Run(job, 1, w.time, w.time, reading + TTL, Some(w.time), None)]
  {
    var first := w.instances[0];
    assert w.instances == [first, IDLE];
    FireSecond(w, first, job, reading, skew);
    var asked := FireStep(w, 1, job, reading, skew);
    ExecuteSecond(asked, first, job, reading);
    var granted := ExecutedStep(asked, 1, job);
    StartSecond(granted, first, job, granted.runs[1]);
    ThreeMore(w, labels, Fire(1, job, reading), Executed(1, job), Started(1, job), skew);
    more := labels + [Fire(1, job, reading)] + [Executed(1, job)] + [Started(1, job)];
  }

  lemma ThreeMore(w: World, labels: seq<Label>, a: Label, b: Label, c: Label, skew: nat)
    requires RunOf(NOTHING, labels, skew) == w
    ensures RunOf(NOTHING, labels + [a] + [b] + [c], skew) == Step(Step(Step(w, a, skew), b, skew), c, skew)
  {
    RunExtended(NOTHING, labels, a, skew);
    RunExtended(NOTHING, labels + [a], b, skew);
    RunExtended(NOTHING, labels + [a] + [b], c, skew);
  }

  /** Two skews is what it takes: some execution within its TTL does overlap the next by exactly that. */
  lemma OverlapIsReached(job: string, skew: nat) returns (labels: seq<Label>)
    requires 2 * skew <= TTL
    ensures var w := RunOf(NOTHING, labels, skew);
      && |w.runs| == 2 && w.runs[0].job == w.runs[1].job
      && Executes(w, 0) && Executes(w, 1) && KeepsTtl(w, 0) && KeepsTtl(w, 1)
      && EndOf(w, w.runs[0]) == w.runs[1].startedAt.value + 2 * skew
  {
    labels := FirstIsGranted(job, skew, 0, skew);
    RunExtended(NOTHING, labels, Started(0, job), skew);
    labels := labels + [Started(0, job)];
    assert Flying(RunOf(NOTHING, labels, skew), 0, job) == Some(Running(0));
    RunExtended(NOTHING, labels, Tick(TTL - 2 * skew), skew);
    labels := labels + [Tick(TTL - 2 * skew)];
    labels := SecondTakesOver(RunOf(NOTHING, labels, skew), labels, job, TTL, skew);
    RunExtended(NOTHING, labels, Tick(2 * skew), skew);
    labels := labels + [Tick(2 * skew)];
    RunExtended(NOTHING, labels, Finished(0, job), skew);
    labels := labels + [Finished(0, job)];
  }

  /**
    The lease does not wait for the reply that grants it: if that takes longer than the TTL, a run
    starts its jobs while those of the next one, well within its TTL, are still going on.
  */
  lemma LateReplyOverlaps(job: string) returns (labels: seq<Label>)
    ensures var w := RunOf(NOTHING, labels, 0);
      && |w.runs| == 2 && w.runs[0].job == w.runs[1].job
      && Executes(w, 0) && Executes(w, 1) && w.runs[0].endedAt.None? && w.runs[1].endedAt.None?
      && w.runs[1].startedAt.value < w.runs[0].startedAt.value
      && KeepsTtl(w, 1) && !KeepsTtl(w, 0)
  {
    labels := FirstIsGranted(job, 0, 0, 0);
    RunExtended(NOTHING, labels, Tick(TTL), 0);
    labels := labels + [Tick(TTL)];
    labels := SecondTakesOver(RunOf(NOTHING, labels, 0), labels, job, TTL, 0);
    RunExtended(NOTHING, labels, Tick(1), 0);
    labels := labels + [Tick(1)];
    assert Flying(RunOf(NOTHING, labels, 0), 0, job) == Some(Granted(0));
    RunExtended(NOTHING, labels, Started(0, job), 0);
    labels := labels + [Started(0, job)];
  }
}
