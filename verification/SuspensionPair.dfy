/**
  One database of the application, followed through the whole suspension: a scheduled notification that
  names its log. What is restored depends on the order in which the query lists the two backups, and
  after a stopped restore on how far it got.
*/
module SuspensionPair {
  import opened Options
  import opened SuspensionStore
  import opened Suspension
  import opened SuspensionShipped
  import R = SuspensionRestore
  import T = SuspensionRetry
  import V = SuspensionRecovery

  /** The identity, the suspension's id, and the ids of the two rows. */
  datatype Pair = Pair(identity: string, uid: string, scheduled: string, log: string)

  function ScheduledRow(m: Models, p: Pair): RowId {
    RowId(m.scheduled.name, p.scheduled)
  }

  function LogRow(m: Models, p: Pair): RowId {
    RowId(m.log.name, p.log)
  }

  function Notification(m: Models, p: Pair): Row {
    Row(p.identity, Some(LogRow(m, p)), map[])
  }

  function Log(p: Pair): Row {
    Row(p.identity, None, map[])
  }

  function PairCase(m: Models, p: Pair): Case {
    Case(RegistryOf(m), {m.profile.name, m.log.name, m.scheduled.name, m.preferences.name, m.email.name, m.push.name},
         map[ScheduledRow(m, p) := Notification(m, p), LogRow(m, p) := Log(p)], p.identity, p.uid)
  }

  /** The store before the suspension, between its batches, and after them. */
  function Before(m: Models, p: Pair): Store {
    Store(PairCase(m, p).orig, map[])
  }

  function Between(m: Models, p: Pair): Store {
    Store(map[LogRow(m, p) := Log(p)],
          map[BackupKey(p.uid, m.scheduled.name) :=
            Backup(p.identity, Some(map[p.scheduled := Notification(m, p)]), false)])
  }

  function After(m: Models, p: Pair): Store {
    Store(map[], Between(m, p).backups[BackupKey(p.uid, m.log.name) :=
      Backup(p.identity, Some(map[p.log := Log(p)]), false)])
  }

  /** The identity has no profile, so only its own key resolves. */
  function Keys(p: Pair): map<UserField, string> {
    map[IdentityId := p.identity]
  }

  // ---------------------------------------------------------------------------------------------
  // The two batches
  // ---------------------------------------------------------------------------------------------

  /** Where a batch is after n tables. */
  ghost predicate Stands(c: Case, start: Store, budget: nat, sorted: seq<TableConfig>, n: nat,
                         keys: map<UserField, string>, store: Store, left: nat)
    requires n <= |sorted|
  {
    var b := Run(c.reg, c.client, start, budget, sorted, n, c.identity, SuspendMode, c.uid, keys);
    b.store == store && b.budget == left && b.stopped.None?
  }

  lemma NoRows(rows: Rows, model: string, key: string)
    requires forall r :: r in rows ==> r.model != model
    ensures |Load(rows, model, key)| == 0
  {
    assert Load(rows, model, key) == map[];
  }

  /** A table without a key or without rows is skipped. */
  lemma IdleTurn(c: Case, start: Store, budget: nat, sorted: seq<TableConfig>, i: nat, keys: map<UserField, string>,
                 store: Store, left: nat)
    requires i < |sorted| && Stands(c, start, budget, sorted, i, keys, store, left)
    requires sorted[i].userField !in keys || forall r :: r in store.rows ==> r.model != sorted[i].modelName
    ensures Stands(c, start, budget, sorted, i + 1, keys, store, left)
  {
    var t := sorted[i];
    var b := Run(c.reg, c.client, start, budget, sorted, i, c.identity, SuspendMode, c.uid, keys);
    var turn := Process(c.reg, c.client, b.store, b.budget, t, c.identity, SuspendMode, c.uid,
      KeyIn(keys, t.userField));
    if t.userField in keys {
      NoRows(store.rows, t.modelName, keys[t.userField]);
    }
    RunTurn(c.reg, c.client, start, budget, sorted, i, c.identity, SuspendMode, c.uid, keys, b, turn);
  }

  lemma OneRowLoaded(rows: Rows, r: RowId, key: string)
    requires Matches(rows, r, r.model, key) && forall q :: q in rows && q.model == r.model ==> q == r
    ensures Load(rows, r.model, key) == map[r.id := rows[r]] && |Load(rows, r.model, key)| == 1
  {
    assert RowId(r.model, r.id) == r;
    forall id ensures id in Load(rows, r.model, key) <==> id == r.id {
      if id in Load(rows, r.model, key) {
        assert RowId(r.model, id) in rows;
      }
    }
  }

  lemma OneRowDoomed(reg: Registry, rows: Rows, r: RowId, key: string)
    requires Matches(rows, r, r.model, key) && forall q :: q in rows && q.model == r.model ==> q == r
    requires forall q :: q in rows ==> !IsChannel(reg, q.model)
    ensures Doomed(reg, rows, r.model, key) == {r}
  {
  }

  /** A table with one row, to be deleted: its backup, then the row. */
  lemma DeletingTurn(c: Case, start: Store, budget: nat, sorted: seq<TableConfig>, i: nat, keys: map<UserField, string>,
                     store: Store, left: nat, r: RowId)
    requires i < |sorted| && Stands(c, start, budget, sorted, i, keys, store, left) && left >= 2
    requires sorted[i].strategy == Delete && sorted[i].userField in keys && sorted[i].modelName == r.model
      && r.model in c.client
    requires BackupKey(c.uid, r.model) !in store.backups && Matches(store.rows, r, r.model, keys[sorted[i].userField])
    requires forall q :: q in store.rows ==> !IsChannel(c.reg, q.model) && (q.model == r.model ==> q == r)
    ensures Stands(c, start, budget, sorted, i + 1, keys,
                   SaveBackup(store, c.uid, c.identity, r.model,
                     map[r.id := store.rows[r]]).(rows := Without(store.rows, {r})), left - 2)
  {
    var t := sorted[i];
    var b := Run(c.reg, c.client, start, budget, sorted, i, c.identity, SuspendMode, c.uid, keys);
    var turn := Process(c.reg, c.client, b.store, b.budget, t, c.identity, SuspendMode, c.uid,
      KeyIn(keys, t.userField));
    OneRowLoaded(store.rows, r, keys[t.userField]);
    OneRowDoomed(c.reg, store.rows, r, keys[t.userField]);
    RunTurn(c.reg, c.client, start, budget, sorted, i, c.identity, SuspendMode, c.uid, keys, b, turn);
  }

  lemma PairModels(m: Models, p: Pair)
    requires Distinct(m)
    ensures ScheduledRow(m, p) != LogRow(m, p)
    ensures var c := PairCase(m, p);
      forall r :: r in c.orig ==> (r == ScheduledRow(m, p) || r == LogRow(m, p)) && !IsChannel(c.reg, r.model)
    ensures Without(PairCase(m, p).orig, {ScheduledRow(m, p)}) == Between(m, p).rows
  {
    var left := Without(PairCase(m, p).orig, {ScheduledRow(m, p)});
    assert left[LogRow(m, p)] == Log(p);
  }

  lemma FirstStands(m: Models, p: Pair, budget: nat, sorted: seq<TableConfig>)
    requires Distinct(m) && budget >= 2
    requires sorted == [Immediate(m)[2], Immediate(m)[3], Immediate(m)[0], Immediate(m)[1]]
    ensures Stands(PairCase(m, p), Before(m, p), budget, sorted, 4, Keys(p), Between(m, p), budget - 2)
  {
    var c, start, keys := PairCase(m, p), Before(m, p), Keys(p);
    PairModels(m, p);
    assert Stands(c, start, budget, sorted, 0, keys, start, budget);
    IdleTurn(c, start, budget, sorted, 0, keys, start, budget);
    IdleTurn(c, start, budget, sorted, 1, keys, start, budget);
    DeletingTurn(c, start, budget, sorted, 2, keys, start, budget, ScheduledRow(m, p));
    IdleTurn(c, start, budget, sorted, 3, keys, Between(m, p), budget - 2);
  }

  lemma SecondStands(m: Models, p: Pair, budget: nat)
    requires Distinct(m) && budget >= 2
    ensures Stands(PairCase(m, p), Between(m, p), budget, Deferred(m), 2, Keys(p), After(m, p), budget - 2)
  {
    var c, start, keys := PairCase(m, p), Between(m, p), Keys(p);
    PairModels(m, p);
    assert Stands(c, start, budget, Deferred(m), 0, keys, start, budget);
    IdleTurn(c, start, budget, Deferred(m), 0, keys, start, budget);
    DeletingTurn(c, start, budget, Deferred(m), 1, keys, start, budget, LogRow(m, p));
    assert Without(start.rows, {LogRow(m, p)}) == map[];
  }

  lemma PairIsShipped(m: Models, p: Pair)
    requires Distinct(m) && p.identity != "" && p.uid != ""
    ensures ShippedCase(m, PairCase(m, p)) && Fresh(PairCase(m, p), Before(m, p))
    ensures Mine(PairCase(m, p), ScheduledRow(m, p)) && V.NamesOwnLog(m, PairCase(m, p), ScheduledRow(m, p))
  {
    RegistryIsShipped(m);
    PairModels(m, p);
  }

  lemma PairResolves(m: Models, p: Pair, rows: Rows, tables: seq<TableConfig>)
    requires Distinct(m) && p.identity != ""
    requires forall r :: r in rows ==> r == ScheduledRow(m, p) || r == LogRow(m, p)
    requires forall t :: t in tables ==> t.userField == IdentityId || t.userField == NotificationProfileId
    ensures Resolved(RegistryOf(m), rows, tables, p.identity, Keys(p))
  {
  }

  lemma StandsAtTheEnd(c: Case, start: Store, budget: nat, tables: seq<TableConfig>, keys: map<UserField, string>,
                       n: nat, store: Store, left: nat)
    requires n == |tables| && |ChildrenFirst(tables)| == n && c.uid != ""
    requires Stands(c, start, budget, ChildrenFirst(tables), n, keys, store, left)
    ensures var b := AnonymizeBatch(c.reg, c.client, start, budget, tables, c.identity, SuspendMode, Some(c.uid), keys);
      b.store == store && b.stopped.None?
  {
  }

  /** Both batches finish, with the rows in two backups. */
  lemma FirstFinishes(m: Models, p: Pair, budget: nat)
    requires Distinct(m) && p.identity != "" && p.uid != "" && budget >= 2
    ensures FirstDone(m, PairCase(m, p), Before(m, p), Between(m, p), budget, Keys(p))
  {
    PairIsShipped(m, p);
    PairModels(m, p);
    ImmediateOrder(m);
    FirstStands(m, p, budget, ChildrenFirst(Immediate(m)));
    StandsAtTheEnd(PairCase(m, p), Before(m, p), budget, Immediate(m), Keys(p), 4, Between(m, p), budget - 2);
    PairResolves(m, p, Before(m, p).rows, Immediate(m));
  }

  lemma SecondFinishes(m: Models, p: Pair, budget: nat)
    requires Distinct(m) && p.identity != "" && p.uid != "" && budget >= 2
    ensures SecondDone(m, PairCase(m, p), Between(m, p), After(m, p), budget, Keys(p))
  {
    DeferredOrder(m);
    SecondStands(m, p, budget);
    StandsAtTheEnd(PairCase(m, p), Between(m, p), budget, Deferred(m), Keys(p), 2, After(m, p), budget - 2);
    PairResolves(m, p, Between(m, p).rows, Deferred(m));
  }

  // ---------------------------------------------------------------------------------------------
  // The restore
  // ---------------------------------------------------------------------------------------------

  /** Every upsert whose references are there succeeds. */
  const SMOOTH := R.Faults({}, {})

  function Listing(m: Models, p: Pair, logsFirst: bool): seq<R.Entry> {
    var logs, scheduled := R.Entry(m.log.name, [p.log]), R.Entry(m.scheduled.name, [p.scheduled]);
    if logsFirst then [logs, scheduled] else [scheduled, logs]
  }

  lemma ListingHeld(m: Models, p: Pair, logsFirst: bool)
    requires Distinct(m)
    ensures R.ListsHeld(After(m, p), p.uid, Listing(m, p, logsFirst))
    ensures V.LogsFirst(m, Listing(m, p, logsFirst)) <==> logsFirst
  {
    var entries := Listing(m, p, logsFirst);
    forall model | Held(After(m, p), p.uid, model) ensures exists i :: 0 <= i < |entries| && entries[i].model == model {
      assert entries[0].model == model || entries[1].model == model;
    }
    if logsFirst {
      assert entries[0].model == m.log.name && entries[1].model == m.scheduled.name;
    }
  }

  /** How many statements the restore of the listed backups needs at most. */
  lemma ListingCost(m: Models, p: Pair, logsFirst: bool)
    requires Distinct(m)
    ensures var sorted := R.ParentsFirst(RegistryOf(m), Listing(m, p, logsFirst)); R.Cost(sorted, |sorted|) == 4
  {
    R.ParentsFirstSorts(RegistryOf(m), Listing(m, p, logsFirst));
    var sorted := R.ParentsFirst(RegistryOf(m), Listing(m, p, logsFirst));
    assert |sorted| == 2;
    assert sorted[0] in sorted && sorted[1] in sorted;
    R.CostOfTwo(sorted);
  }

  /** With a row that names its log, and nobody else referring to the identity's rows. */
  lemma LinkedRoundTrip(m: Models, c: Case, store: Store, mid: Store, done: Store, keys: map<UserField, string>,
                        budget: nat, entries: seq<R.Entry>, faults: R.Faults, r: RowId)
    requires FirstDone(m, c, store, mid, 2, keys) && SecondDone(m, c, mid, done, 2, keys)
      && R.ListsHeld(done, c.uid, entries)
    requires V.NamesOwnLog(m, c, r) && faults.fails <= {r} && forall q :: !RefersToDeleted(m, c, q)
    ensures var end := R.RestoreFromBackups(c.reg, c.client, done, budget, c.uid, entries, faults);
      !end.died ==>
        && (OwnBack(c, end.store.rows) <==> V.LogsFirst(m, entries) && faults.fails == {})
        && (end.store.rows == store.rows <==> V.LogsFirst(m, entries) && faults.fails == {})
        && (forall model :: !Held(end.store, c.uid, model))
  {
    AfterBoth(m, c, store, mid, done, 2, keys, 2, keys);
    R.RestoreGivesBackIff(c, done, budget, entries, faults);
    if faults.fails == {} {
      V.ShippedRoundTrip(m, c, store, mid, done, 2, keys, 2, keys, budget, entries, faults);
    } else {
      assert r in faults.fails && r !in done.rows;
      R.FailedIsUnwelcome(c, done, entries, faults, r);
    }
  }

  lemma PairRefersToNone(m: Models, p: Pair)
    requires Distinct(m)
    ensures forall q :: !RefersToDeleted(m, PairCase(m, p), q)
  {
    PairModels(m, p);
  }

  /**
    The bad input as a run: the same database, suspended by both batches. A restore that ends gives back
    the notification exactly if the logs are listed first and the upsert of the notification does not fail
    for another reason; nothing is left to restore it from.
  */
  lemma LinkedPairRoundTrip(m: Models, p: Pair, logsFirst: bool, faults: R.Faults, first: Batch, second: Batch)
    requires Distinct(m) && p.identity != "" && p.uid != "" && faults.fails <= {ScheduledRow(m, p)}
    requires first == First(m, PairCase(m, p), Before(m, p), 2, Keys(p))
    requires second == Second(m, PairCase(m, p), first.store, 2, Keys(p))
    ensures var c, entries := PairCase(m, p), Listing(m, p, logsFirst);
      var end := R.RestoreFromBackups(c.reg, c.client, second.store, 4, c.uid, entries, faults);
      && first.stopped.None? && second.stopped.None? && R.ListsHeld(second.store, c.uid, entries) && !end.died
      && (OwnBack(c, end.store.rows) <==> logsFirst && faults.fails == {})
      && (end.store.rows == Before(m, p).rows <==> logsFirst && faults.fails == {})
      && (forall model :: !Held(end.store, c.uid, model))
  {
    var c, entries := PairCase(m, p), Listing(m, p, logsFirst);
    PairIsShipped(m, p);
    FirstFinishes(m, p, 2);
    SecondFinishes(m, p, 2);
    ListingHeld(m, p, logsFirst);
    ListingCost(m, p, logsFirst);
    R.RestoreFinishes(c.reg, c.client, second.store, 4, c.uid, entries, faults);
    PairRefersToNone(m, p);
    LinkedRoundTrip(m, c, Before(m, p), Between(m, p), second.store, Keys(p), 4, entries, faults, ScheduledRow(m, p));
  }

  /** Nothing is assumed of the shipped registry: such a run exists for its own six models. */
  lemma ShippedPairIsLost(p: Pair)
    requires p.identity != "" && p.uid != ""
    ensures var c := PairCase(SHIPPED, p);
      var first := First(SHIPPED, c, Before(SHIPPED, p), 2, Keys(p));
      var second := Second(SHIPPED, c, first.store, 2, Keys(p));
      var end := R.RestoreFromBackups(c.reg, c.client, second.store, 4, c.uid, Listing(SHIPPED, p, false), SMOOTH);
      && first.stopped.None? && second.stopped.None? && !end.died && !OwnBack(c, end.store.rows)
  {
    ShippedDistinct();
    var first := First(SHIPPED, PairCase(SHIPPED, p), Before(SHIPPED, p), 2, Keys(p));
    LinkedPairRoundTrip(SHIPPED, p, false, SMOOTH, first,
      Second(SHIPPED, PairCase(SHIPPED, p), first.store, 2, Keys(p)));
  }

  // ---------------------------------------------------------------------------------------------
  // A retry
  // ---------------------------------------------------------------------------------------------

  /** Of two parents the one listed first is taken first. */
  lemma FirstTakenFirst(reg: Registry, entries: seq<R.Entry>)
    requires |entries| == 2 && !IsChild(reg, entries[0].model) && !IsChild(reg, entries[1].model)
    ensures |R.ParentsFirst(reg, entries)| == 2 && R.ParentsFirst(reg, entries)[0] == entries[0]
    ensures R.Cost(R.ParentsFirst(reg, entries), 1) == |entries[0].ids| + 1
  {
    R.ParentsFirstSorts(reg, entries);
    var a, b := V.ParentsKeepOrder(reg, entries, 0, 1);
    R.CostOfTwo(R.ParentsFirst(reg, entries));
  }

  /** Where the first attempt stopped: before its first statement, or with the log back. */
  lemma FirstAttempt(m: Models, p: Pair, stopped: nat, now: R.Restoration)
    requires Distinct(m) && p.identity != "" && p.uid != "" && Recoverable(PairCase(m, p), After(m, p))
    requires now == T.Restored(PairCase(m, p), After(m, p), T.Attempt(stopped, Listing(m, p, true), SMOOTH))
    ensures stopped >= 1 ==> LogRow(m, p) in now.store.rows
    ensures stopped == 0 ==>
      && LogRow(m, p) !in now.store.rows
      && forall model :: Held(After(m, p), p.uid, model) ==> Held(now.store, p.uid, model)
  {
    var c, done, entries := PairCase(m, p), After(m, p), Listing(m, p, true);
    PairIsShipped(m, p);
    ListingHeld(m, p, true);
    FirstTakenFirst(c.reg, entries);
    var sorted := R.ParentsFirst(c.reg, entries);
    var a, i := R.RestoreStands(c, done, stopped, entries, SMOOTH, now);
    if stopped >= 1 {
      LogIsBack(m, p, sorted, now.store, a, i);
    } else {
      NothingDone(c, done, now.store, sorted, a, i);
    }
  }

  lemma LogIsBack(m: Models, p: Pair, sorted: seq<R.Entry>, now: Store, a: nat, i: nat)
    requires ShippedCase(m, PairCase(m, p)) && |sorted| == 2 && sorted[0] == R.Entry(m.log.name, [p.log])
    requires R.ListsRows(PairCase(m, p), sorted) && a <= 2 && (a == 0 ==> i >= 1)
    requires R.Stands(PairCase(m, p), After(m, p), now, sorted, SMOOTH, a, i)
    ensures LogRow(m, p) in now.rows
  {
    assert R.At(sorted, 0, 0) == LogRow(m, p);
    V.FreeComesBack(m, PairCase(m, p), After(m, p).rows, sorted, SMOOTH, 0, 0);
    assert Unchanged(PairCase(m, p).orig, now.rows, R.At(sorted, 0, 0));
  }

  lemma NothingDone(c: Case, store: Store, now: Store, sorted: seq<R.Entry>, a: nat, i: nat)
    requires R.ListsHeld(store, c.uid, sorted) && R.ListsRows(c, sorted) && a <= |sorted|
    requires a == i == 0 && R.Stands(c, store, now, sorted, SMOOTH, a, i)
    ensures forall r :: r in now.rows <==> r in store.rows
    ensures forall model :: Held(store, c.uid, model) ==> Held(now, c.uid, model)
  {
    forall model | Held(store, c.uid, model) ensures Held(now, c.uid, model) {
      var j :| 0 <= j < |sorted| && sorted[j].model == model;
    }
  }

  lemma TwoAttempts(c: Case, store: Store, first: T.Attempt, next: T.Attempt, now: Store)
    requires now == T.Restored(c, store, first).store
    ensures T.Earlier([first, next]) == [first] && T.Last([first, next]) == next
    ensures T.After(c, store, [first]) == now
    ensures T.After(c, store, [first, next]) == T.Restored(c, now, next).store
    ensures R.ListsHeld(store, c.uid, first.entries) && R.ListsHeld(now, c.uid, next.entries) ==>
      T.Made(c, store, [first, next])
  {
    V.OneAttempt(c, store, first);
    assert [first, next][..1] == [first];
  }

  lemma OneInTime(m: Models, c: Case, store: Store, first: T.Attempt)
    requires V.LogsFirst(m, first.entries)
    ensures V.LogsInTime(m, c, store, [first])
  {
    V.OneAttempt(c, store, first);
  }

  /** The retry ends with the logs there, or has taken the scheduled notifications first. */
  lemma RetryInTimeIff(m: Models, p: Pair, stopped: nat, next: T.Attempt, now: R.Restoration)
    requires Distinct(m) && p.identity != "" && p.uid != "" && Recoverable(PairCase(m, p), After(m, p))
    requires now == T.Restored(PairCase(m, p), After(m, p), T.Attempt(stopped, Listing(m, p, true), SMOOTH))
    requires !V.LogsFirst(m, next.entries)
    requires forall model :: !Held(T.Restored(PairCase(m, p), now.store, next).store, p.uid, model)
    ensures V.LogsInTime(m, PairCase(m, p), After(m, p), [T.Attempt(stopped, Listing(m, p, true), SMOOTH), next])
      <==> stopped >= 1
  {
    var c, done, first := PairCase(m, p), After(m, p), T.Attempt(stopped, Listing(m, p, true), SMOOTH);
    PairIsShipped(m, p);
    ListingHeld(m, p, true);
    FirstAttempt(m, p, stopped, now);
    TwoAttempts(c, done, first, next, now.store);
    OneInTime(m, c, done, first);
    OnlyOneNamesLog(m, p);
    if stopped == 0 {
      assert Held(done, p.uid, m.scheduled.name);
    }
  }

  lemma OnlyOneNamesLog(m: Models, p: Pair)
    requires Distinct(m) && p.identity != "" && p.uid != ""
    ensures forall r :: V.NamesOwnLog(m, PairCase(m, p), r) <==> r == ScheduledRow(m, p)
  {
    PairIsShipped(m, p);
    PairModels(m, p);
  }

  lemma RetryRecovers(m: Models, c: Case, done: Store, first: T.Attempt, next: T.Attempt, now: Store, end: Store)
    requires ShippedCase(m, c) && Recoverable(c, done) && first.faults.fails == {} && next.faults.fails == {}
    requires now == T.Restored(c, done, first).store && end == T.Restored(c, now, next).store
    requires R.ListsHeld(done, c.uid, first.entries) && R.ListsHeld(now, c.uid, next.entries)
    requires forall model :: !Held(end, c.uid, model)
    ensures OwnBack(c, end.rows) <==> V.LogsInTime(m, c, done, [first, next])
  {
    TwoAttempts(c, done, first, next, now);
    V.RecoveryIff(m, c, done, [first, next]);
  }

  /**
    The bad retry as a run: a first restore that lists the logs first stops after any number of statements,
    and a second one, which lists the scheduled notifications first, ends. The notification is given back
    exactly if the first one came to a statement at all; nothing is left to restore it from.
  */
  lemma LinkedPairRetry(m: Models, p: Pair, stopped: nat, next: T.Attempt, now: R.Restoration)
    requires Distinct(m) && p.identity != "" && p.uid != ""
    requires now == T.Restored(PairCase(m, p), After(m, p), T.Attempt(stopped, Listing(m, p, true), SMOOTH))
    requires R.ListsHeld(now.store, p.uid, next.entries) && !V.LogsFirst(m, next.entries) && next.faults.fails == {}
    ensures FirstDone(m, PairCase(m, p), Before(m, p), Between(m, p), 2, Keys(p))
    ensures SecondDone(m, PairCase(m, p), Between(m, p), After(m, p), 2, Keys(p))
    ensures var end := T.Restored(PairCase(m, p), now.store, next);
      !end.died ==>
        (OwnBack(PairCase(m, p), end.store.rows) <==> stopped >= 1)
        && (forall model :: !Held(end.store, p.uid, model))
  {
    var c, done, first := PairCase(m, p), After(m, p), T.Attempt(stopped, Listing(m, p, true), SMOOTH);
    var end := T.Restored(c, now.store, next);
    PairIsShipped(m, p);
    FirstFinishes(m, p, 2);
    SecondFinishes(m, p, 2);
    AfterBoth(m, c, Before(m, p), Between(m, p), done, 2, Keys(p), 2, Keys(p));
    ListingHeld(m, p, true);
    R.RestoreStaysBacked(c, done, stopped, first.entries, SMOOTH, now);
    R.EndedUsesAll(c, now.store, next.budget, next.entries, next.faults, end);
    if !end.died {
      RetryRecovers(m, c, done, first, next, now.store, end.store);
      RetryInTimeIff(m, p, stopped, next, now);
    }
  }

  /** With the shipped registry: a restore that stops before its first statement, and a retry that loses the row. */
  lemma ShippedRetryIsLost(p: Pair, now: R.Restoration)
    requires p.identity != "" && p.uid != ""
    requires now == T.Restored(PairCase(SHIPPED, p), After(SHIPPED, p), T.Attempt(0, Listing(SHIPPED, p, true), SMOOTH))
    ensures var next := T.Attempt(4, Listing(SHIPPED, p, false), SMOOTH);
      var end := T.Restored(PairCase(SHIPPED, p), now.store, next);
      R.ListsHeld(now.store, p.uid, next.entries) && !end.died && !OwnBack(PairCase(SHIPPED, p), end.store.rows)
  {
    ShippedDistinct();
    RetryIsLost(SHIPPED, p, now);
  }

  lemma RetryIsLost(m: Models, p: Pair, now: R.Restoration)
    requires Distinct(m) && p.identity != "" && p.uid != ""
    requires now == T.Restored(PairCase(m, p), After(m, p), T.Attempt(0, Listing(m, p, true), SMOOTH))
    ensures var next := T.Attempt(4, Listing(m, p, false), SMOOTH);
      var end := T.Restored(PairCase(m, p), now.store, next);
      R.ListsHeld(now.store, p.uid, next.entries) && !end.died && !OwnBack(PairCase(m, p), end.store.rows)
  {
    var c, done := PairCase(m, p), After(m, p);
    PairIsShipped(m, p);
    FirstFinishes(m, p, 2);
    SecondFinishes(m, p, 2);
    AfterBoth(m, c, Before(m, p), Between(m, p), done, 2, Keys(p), 2, Keys(p));
    ListingHeld(m, p, true);
    ListingHeld(m, p, false);
    FirstAttempt(m, p, 0, now);
    R.RestoreStaysBacked(c, done, 0, Listing(m, p, true), SMOOTH, now);
    StillLists(done, now.store, p.uid, Listing(m, p, false));
    ListingCost(m, p, false);
    R.RestoreFinishes(c.reg, c.client, now.store, 4, c.uid, Listing(m, p, false), SMOOTH);
    LinkedPairRetry(m, p, 0, T.Attempt(4, Listing(m, p, false), SMOOTH), now);
  }

  lemma StillLists(store: Store, now: Store, uid: string, entries: seq<R.Entry>)
    requires R.ListsHeld(store, uid, entries)
    requires forall model :: Held(now, uid, model) <==> Held(store, uid, model)
    requires forall model :: Held(now, uid, model) ==>
      now.backups[BackupKey(uid, model)] == store.backups[BackupKey(uid, model)]
    ensures R.ListsHeld(now, uid, entries)
  {
    forall i | 0 <= i < |entries| ensures R.Names(now, uid, entries[i]) {
      assert R.Names(store, uid, entries[i]);
    }
    forall model | Held(now, uid, model) ensures exists i :: 0 <= i < |entries| && entries[i].model == model {
      assert Held(store, uid, model);
    }
  }
}
