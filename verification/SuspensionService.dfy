/**
  The service that suspends and recovers, statement by statement against a database object, and what
  its two operations do together over the whole life of a suspension.
*/
module SuspensionService {
  import opened Options
  import opened SuspensionStore
  import opened Suspension
  import B = SuspensionBatch
  import R = SuspensionRestore
  import T = SuspensionRetry

  // ---------------------------------------------------------------------------------------------
  // The life of a suspension
  // ---------------------------------------------------------------------------------------------

  /** A call made for the suspension; it dies when its budget of statements is spent. */
  datatype Call =
    | SuspendCall(budget: nat, tables: seq<TableConfig>, keys: map<UserField, string>)
    | RestoreCall(attempt: T.Attempt)

  function Perform(c: Case, store: Store, call: Call): Store {
    match call
    case SuspendCall(budget, tables, keys) =>
      AnonymizeBatch(c.reg, c.client, store, budget, tables, c.identity, SuspendMode, Some(c.uid), keys).store
    case RestoreCall(attempt) => T.Restored(c, store, attempt).store
  }

  /** A restore called again after a stopped one, taking the backups in the same order. */
  ghost predicate Retries(reg: Registry, before: seq<Call>, attempt: T.Attempt) {
    before != [] && before[|before| - 1].RestoreCall? && T.Resumes(reg, before[|before| - 1].attempt, attempt)
  }

  /**
    What a call finds when it is made: keys resolved or backups listed from the store as it is, and the
    exact condition under which it keeps the suspension recoverable. A retry has nothing to ask but order.
  */
  ghost predicate MadeOn(c: Case, store: Store, before: seq<Call>, call: Call) {
    match call
    case SuspendCall(_, tables, keys) =>
      && Registered(c, tables) && Resolved(c.reg, store.rows, tables, c.identity, keys)
      && CoveredInTime(c, store, ChildrenFirst(tables), keys)
    case RestoreCall(attempt) =>
      && R.ListsHeld(store, c.uid, attempt.entries)
      && (Retries(c.reg, before, attempt) || R.AllWelcome(c, store, attempt.entries, attempt.faults))
  }

  function Life(c: Case, store: Store, calls: seq<Call>): Store {
    if calls == [] then store else Perform(c, Life(c, store, calls[..|calls| - 1]), calls[|calls| - 1])
  }

  ghost predicate Lived(c: Case, store: Store, calls: seq<Call>) {
    calls == []
    || (var pre := calls[..|calls| - 1];
        Lived(c, store, pre) && MadeOn(c, Life(c, store, pre), pre, calls[|calls| - 1]))
  }

  /** The rows of a restore are welcome to it, also if it retries one that was stopped. */
  lemma RestoreIsWelcome(c: Case, store: Store, pre: seq<Call>, attempt: T.Attempt)
    requires Recoverable(c, Life(c, store, pre)) && Lived(c, store, pre)
    requires MadeOn(c, Life(c, store, pre), pre, RestoreCall(attempt))
    requires pre != [] && pre[|pre| - 1].RestoreCall? ==>
      var before, last := Life(c, store, pre[..|pre| - 1]), pre[|pre| - 1].attempt;
      Recoverable(c, before) && R.AllWelcome(c, before, last.entries, last.faults)
    ensures R.AllWelcome(c, Life(c, store, pre), attempt.entries, attempt.faults)
  {
    if Retries(c.reg, pre, attempt) {
      T.RestoreResumes(c, Life(c, store, pre[..|pre| - 1]), pre[|pre| - 1].attempt, attempt, Life(c, store, pre));
    }
  }

  /**
    Any number of calls, each dying anywhere and in any order, leave the suspension recoverable; and every
    restore among them, retries included, finds its rows welcome.
  */
  lemma {:induction false} LifeStaysRecoverable(c: Case, store: Store, calls: seq<Call>)
    requires Sound(c.reg, c.orig) && Recoverable(c, store) && c.identity != "" && Lived(c, store, calls)
    ensures Recoverable(c, Life(c, store, calls))
    ensures calls != [] && calls[|calls| - 1].RestoreCall? ==>
      var before, last := Life(c, store, calls[..|calls| - 1]), calls[|calls| - 1].attempt;
      Recoverable(c, before) && R.AllWelcome(c, before, last.entries, last.faults)
  {
    if calls == [] {
    } else {
      var pre := calls[..|calls| - 1];
      LifeStaysRecoverable(c, store, pre);
      var now := Life(c, store, pre);
      match calls[|calls| - 1]
      case SuspendCall(budget, tables, keys) => SuspendKeepsRecoverable(c, now, budget, tables, keys);
      case RestoreCall(attempt) =>
        RestoreIsWelcome(c, store, pre, attempt);
        R.RestoreKeepsRecoverable(c, now, attempt.budget, attempt.entries, attempt.faults);
    }
  }

  /** Every reference holds after any calls whatever: any tables, keys, backups and failures, dying anywhere. */
  lemma {:induction false} LifeStaysIntact(c: Case, store: Store, calls: seq<Call>)
    requires WellFormed(c.reg) && Intact(c.reg, store.rows)
    ensures Intact(c.reg, Life(c, store, calls).rows)
  {
    if calls == [] {
    } else {
      var pre := calls[..|calls| - 1];
      LifeStaysIntact(c, store, pre);
      var now := Life(c, store, pre);
      match calls[|calls| - 1]
      case SuspendCall(budget, tables, keys) =>
        B.AnonymizeIntact(c.reg, c.client, now, budget, tables, c.identity, SuspendMode, Some(c.uid), keys);
      case RestoreCall(attempt) =>
        R.RestoreIntact(c.reg, c.client, now, attempt.budget, c.uid, attempt.entries, attempt.faults);
    }
  }

  /**
    Round trip. From a sound database without backups of the suspension: after any calls, dead or alive,
    each row of the identity is unchanged or in an unused backup and each other row has lost at most a
    nullable reference. Of any restores that follow, stopped anywhere, in any order and whatever fails,
    those rows are back whose backup is used up exactly if they came back in time, and once nothing is left
    to restore the whole database is back exactly if all did and no reference of others had been cleared.
  */
  lemma SuspendThenRestore(c: Case, store: Store, calls: seq<Call>, attempts: seq<T.Attempt>, r: RowId)
    requires Sound(c.reg, c.orig) && store.rows == c.orig && c.identity != ""
    requires forall m :: BackupKey(c.uid, m) !in store.backups
    requires Lived(c, store, calls) && T.Made(c, Life(c, store, calls), attempts)
    ensures var now := Life(c, store, calls);
      var end := T.After(c, now, attempts);
      && (r in c.orig && Mine(c, r) ==> Unchanged(c.orig, now.rows, r) || InBackup(c, now, r))
      && (r in c.orig && !Mine(c, r) ==>
            r in now.rows && (now.rows[r] == c.orig[r] || now.rows[r] == c.orig[r].(link := None)))
      && Backed(c, end)
      && (Mine(c, r) && !Held(end, c.uid, r.model) ==>
            (Unchanged(c.orig, end.rows, r) <==> T.ComesBackInTime(c, now, attempts, r)))
      && ((forall m :: !Held(end, c.uid, m)) ==>
            (end.rows == store.rows <==>
              (forall q :: Mine(c, q) ==> T.ComesBackInTime(c, now, attempts, q)) && OthersUnchanged(c, now.rows)))
  {
    var now := Life(c, store, calls);
    FreshSuspension(c, store);
    LifeStaysRecoverable(c, store, calls);
    if r in c.orig {
      NothingLost(c, now, r);
    }
    T.AttemptsStayBacked(c, now, attempts);
    if Mine(c, r) {
      T.AttemptsGiveBackIff(c, now, attempts, r);
    }
    if forall m :: !Held(T.After(c, now, attempts), c.uid, m) {
      T.AttemptsGiveBackAllIff(c, now, attempts);
    }
  }

  // ---------------------------------------------------------------------------------------------
  // The service
  // ---------------------------------------------------------------------------------------------

  datatype Statement = Executed | Died | UniqueViolation | UpsertFailed

  /** The database as one process sees it, for as many statements as the process lives. */
  class Database {
    const reg: Registry
    const client: set<string>
    var store: Store
    var budget: nat

    constructor (reg: Registry, client: set<string>, store: Store, budget: nat)
      ensures this.reg == reg && this.client == client && this.store == store && this.budget == budget
    {
      this.reg, this.client, this.store, this.budget := reg, client, store, budget;
    }

    method CreateBackup(uid: string, identity: string, model: string, data: map<string, Row>) returns (r: Statement)
      modifies this
      ensures r == if old(budget) == 0 then Died
        else if BackupKey(uid, model) in old(store).backups then UniqueViolation else Executed
      ensures store == if r == Executed then SaveBackup(old(store), uid, identity, model, data) else old(store)
      ensures budget == if old(budget) == 0 then 0 else old(budget) - 1
    {
      if budget == 0 {
        return Died;
      }
      budget := budget - 1;
      if BackupKey(uid, model) in store.backups {
        return UniqueViolation;
      }
      store := SaveBackup(store, uid, identity, model, data);
      return Executed;
    }

    method DeleteMany(model: string, key: string) returns (r: Statement, count: nat)
      modifies this
      ensures r == if old(budget) == 0 then Died else Executed
      ensures store == if r == Executed then old(store).(rows := DeleteRows(reg, old(store).rows, model, key))
        else old(store)
      ensures r == Executed ==> count == |Load(old(store).rows, model, key)|
      ensures budget == if old(budget) == 0 then 0 else old(budget) - 1
    {
      if budget == 0 {
        return Died, 0;
      }
      budget := budget - 1;
      count := |Load(store.rows, model, key)|;
      store := store.(rows := DeleteRows(reg, store.rows, model, key));
      return Executed, count;
    }

    method UpdateMany(model: string, key: string, data: map<string, Value>) returns (r: Statement, count: nat)
      modifies this
      ensures r == if old(budget) == 0 then Died else Executed
      ensures store == if r == Executed then old(store).(rows := AnonymizeRows(old(store).rows, model, key, data))
        else old(store)
      ensures r == Executed ==> count == |Load(old(store).rows, model, key)|
      ensures budget == if old(budget) == 0 then 0 else old(budget) - 1
    {
      if budget == 0 {
        return Died, 0;
      }
      budget := budget - 1;
      count := |Load(store.rows, model, key)|;
      store := store.(rows := AnonymizeRows(store.rows, model, key, data));
      return Executed, count;
    }

    /** An upsert that is executed but not answered is a failed one to its caller. */
    method Upsert(r: RowId, row: Row, fails: bool, unanswered: bool) returns (s: Statement)
      modifies this
      ensures s == if old(budget) == 0 then Died
                   else if fails || unanswered || !Refers(reg, old(store).rows, r.model, row) then UpsertFailed
                   else Executed
      ensures store == if old(budget) == 0 || fails || !Refers(reg, old(store).rows, r.model, row) then old(store)
                       else old(store).(rows := old(store).rows[r := row])
      ensures budget == if old(budget) == 0 then 0 else old(budget) - 1
    {
      if budget == 0 {
        return Died;
      }
      budget := budget - 1;
      if fails || !Refers(reg, store.rows, r.model, row) {
        return UpsertFailed;
      }
      store := store.(rows := store.rows[r := row]);
      return if unanswered then UpsertFailed else Executed;
    }

    method MarkBackupUsed(uid: string, model: string) returns (r: Statement)
      requires BackupKey(uid, model) in store.backups
      modifies this
      ensures r == if old(budget) == 0 then Died else Executed
      ensures store == if r == Executed then MarkUsed(old(store), uid, model) else old(store)
      ensures budget == if old(budget) == 0 then 0 else old(budget) - 1
    {
      if budget == 0 {
        return Died;
      }
      budget := budget - 1;
      store := MarkUsed(store, uid, model);
      return Executed;
    }
  }

  class AnonymizationService {
    const db: Database

    constructor (db: Database)
      ensures this.db == db
    {
      this.db := db;
    }

    method SortTablesChildrenFirst(tables: seq<TableConfig>) returns (sorted: seq<TableConfig>)
      ensures sorted == ChildrenFirst(tables)
    {
      var children, parents := [], [];
      for i := 0 to |tables|
        invariant children == Group(tables[..i], true) && parents == Group(tables[..i], false)
      {
        assert tables[..i + 1][..i] == tables[..i];
        if tables[i].userField == IdentityId {
          parents := parents + [tables[i]];
        } else {
          children := children + [tables[i]];
        }
      }
      assert tables[..|tables|] == tables;
      return children + parents;
    }

    method SortBackupsParentsFirst(entries: seq<R.Entry>) returns (sorted: seq<R.Entry>)
      ensures sorted == R.ParentsFirst(db.reg, entries)
    {
      var parents, children := [], [];
      for i := 0 to |entries|
        invariant parents == R.Group(db.reg, entries[..i], false) && children == R.Group(db.reg, entries[..i], true)
      {
        assert entries[..i + 1][..i] == entries[..i];
        var model := entries[i].model;
        if model !in db.reg.userField || db.reg.userField[model] == IdentityId {
          parents := parents + [entries[i]];
        } else {
          children := children + [entries[i]];
        }
      }
      assert entries[..|entries|] == entries;
      return parents + children;
    }

    method ResolveOwnershipKey(userField: UserField, identity: string) returns (key: Option<string>)
      requires forall r :: IsProfile(db.reg, db.store.rows, r) ==> r.id != ""
      ensures ResolvesTo(db.reg, db.store.rows, userField, identity, if key == Some("") then None else key)
    {
      if userField == NotificationProfileId {
        var profiles := set r | r in db.store.rows && Matches(db.store.rows, r, db.reg.profileModel, identity);
        if profiles == {} {
          assert forall r :: r in db.store.rows && Matches(db.store.rows, r, db.reg.profileModel, identity) ==>
            r in profiles;
          return None;
        }
        var profile :| profile in profiles;
        assert profile == RowId(db.reg.profileModel, profile.id) && IsProfile(db.reg, db.store.rows, profile);
        return Some(profile.id);
      }
      return Some(identity);
    }

    /** Each user field is resolved once, before anything changes. */
    method ResolveAllOwnershipKeys(tables: seq<TableConfig>, identity: string) returns (keys: map<UserField, string>)
      requires forall r :: IsProfile(db.reg, db.store.rows, r) ==> r.id != ""
      ensures Resolved(db.reg, db.store.rows, tables, identity, keys)
    {
      keys := map[];
      var seen: set<UserField> := {};
      for i := 0 to |tables|
        invariant forall f :: f in keys ==> f in seen
        invariant forall f :: f in seen ==> ResolvesTo(db.reg, db.store.rows, f, identity, KeyIn(keys, f))
        invariant forall j :: 0 <= j < i ==> tables[j].userField in seen
      {
        var userField := tables[i].userField;
        if userField !in seen {
          var key := ResolveOwnershipKey(userField, identity);
          if key.Some? && key.value != "" {
            keys := keys[userField := key.value];
          }
          seen := seen + {userField};
        }
      }
    }

    /** Load, back up, then delete or anonymize. */
    method ProcessTable(t: TableConfig, identity: string, mode: Mode, uid: string, key: Option<string>)
      returns (r: TableOutcome)
      modifies db
      ensures Turn(db.store, db.budget, r)
        == Process(db.reg, db.client, old(db.store), old(db.budget), t, identity, mode, uid, key)
    {
      if key.None? || t.modelName !in db.client {
        return Summarize(t, mode, 0, false, Skipped);
      }
      var rows := Load(db.store.rows, t.modelName, key.value);
      if |rows| == 0 {
        return Summarize(t, mode, 0, mode == SuspendMode, Skipped);
      }
      if mode == SuspendMode {
        var saved := db.CreateBackup(uid, identity, t.modelName, rows);
        if saved != Executed {
          return TableStopped(if saved == Died then Crashed else BackupExists);
        }
      }
      if t.strategy == Delete {
        var deleted, count := db.DeleteMany(t.modelName, key.value);
        return if deleted == Died then TableStopped(Crashed)
          else Summarize(t, mode, count, mode == SuspendMode, Deleted);
      }
      if t.piiFields == [] {
        return Summarize(t, mode, |rows|, mode == SuspendMode, Skipped);
      }
      var updated, count := db.UpdateMany(t.modelName, key.value, PiiData(t, mode));
      return if updated == Died then TableStopped(Crashed)
        else Summarize(t, mode, count, mode == SuspendMode, Anonymized);
    }

    method ProcessTables(sorted: seq<TableConfig>, identity: string, mode: Mode, uid: string,
                         keys: map<UserField, string>)
      returns (summary: seq<TableSummary>, totalRowsAffected: nat, stopped: Option<Reason>)
      modifies db
      ensures Batch(db.store, db.budget, summary, totalRowsAffected, stopped)
           == Run(db.reg, db.client, old(db.store), old(db.budget), sorted, |sorted|, identity, mode, uid, keys)
    {
      summary, totalRowsAffected := [], 0;
      ghost var b := Batch(db.store, db.budget, [], 0, None);
      for i := 0 to |sorted|
        invariant b == Run(db.reg, db.client, old(db.store), old(db.budget), sorted, i, identity, mode, uid, keys)
        invariant b == Batch(db.store, db.budget, summary, totalRowsAffected, None)
      {
        var outcome := ProcessTable(sorted[i], identity, mode, uid, KeyIn(keys, sorted[i].userField));
        ghost var turn := Turn(db.store, db.budget, outcome);
        RunTurn(db.reg, db.client, old(db.store), old(db.budget), sorted, i, identity, mode, uid, keys, b, turn);
        if outcome.TableStopped? {
          RunStaysStopped(db.reg, db.client, old(db.store), old(db.budget), sorted, i + 1, |sorted|, identity, mode,
            uid, keys);
          return summary, totalRowsAffected, Some(outcome.reason);
        }
        summary := summary + [outcome.summary];
        totalRowsAffected := totalRowsAffected + outcome.summary.rows;
        b := Batch(db.store, db.budget, summary, totalRowsAffected, None);
      }
      stopped := None;
    }

    method Anonymize(identity: string, mode: Mode, suspensionUid: Option<string>, tables: seq<TableConfig>)
      returns (summary: seq<TableSummary>, totalRowsAffected: nat, stopped: Option<Reason>,
        keys: map<UserField, string>)
      requires forall r :: IsProfile(db.reg, db.store.rows, r) ==> r.id != ""
      modifies db
      ensures (mode == SuspendMode && suspensionUid.GetOr("") == "")
        || Resolved(db.reg, old(db.store).rows, tables, identity, keys)
      ensures Batch(db.store, db.budget, summary, totalRowsAffected, stopped)
           == AnonymizeBatch(db.reg, db.client, old(db.store), old(db.budget), tables, identity, mode, suspensionUid,
             keys)
    {
      if mode == SuspendMode && suspensionUid.GetOr("") == "" {
        return [], 0, Some(NoSuspensionUid), map[];
      }
      var sorted := SortTablesChildrenFirst(tables);
      ChildrenFirstSorts(tables);
      keys := ResolveAllOwnershipKeys(sorted, identity);
      assert Resolved(db.reg, db.store.rows, tables, identity, keys);
      summary, totalRowsAffected, stopped := ProcessTables(sorted, identity, mode, suspensionUid.GetOr(""), keys);
    }

    /** The keys of a set in some order, each once. */
    method Enumerate(names: set<string>) returns (r: seq<string>)
      ensures forall id :: id in r <==> id in names
      ensures forall i, j :: 0 <= i < j < |r| ==> r[i] != r[j]
    {
      r := [];
      var left := names;
      while left != {}
        invariant left <= names
        invariant forall id :: id in r <==> id in names && id !in left
        invariant forall i, j :: 0 <= i < j < |r| ==> r[i] != r[j]
        decreases |left|
      {
        var id :| id in left;
        r := r + [id];
        left := left - {id};
      }
    }

    /** The query for unused backups; it returns them, and each lists its rows, in any order. */
    method FindUnusedBackups(uid: string) returns (entries: seq<R.Entry>)
      ensures R.ListsHeld(db.store, uid, entries)
    {
      var unused := set k | k in db.store.backups && k.suspension == uid && !db.store.backups[k].used :: k.model;
      assert forall m :: m in unused <==> Held(db.store, uid, m) by {
        forall m ensures m in unused <==> Held(db.store, uid, m) {
          assert BackupKey(uid, m).model == m;
        }
      }
      var models := Enumerate(unused);
      entries := [];
      for i := 0 to |models|
        invariant |entries| == i
        invariant forall j :: 0 <= j < i ==> entries[j].model == models[j] && R.Names(db.store, uid, entries[j])
      {
        assert models[i] in unused && Held(db.store, uid, models[i]);
        var backup := db.store.backups[BackupKey(uid, models[i])];
        var ids := [];
        if backup.data.Some? {
          ids := Enumerate(backup.data.value.Keys);
        }
        entries := entries + [R.Entry(models[i], ids)];
      }
      forall m | Held(db.store, uid, m) ensures exists i :: 0 <= i < |entries| && entries[i].model == m {
        var i :| 0 <= i < |models| && models[i] == m;
        assert entries[i].model == m;
      }
    }

    /** Upserts row by row; a failed upsert is logged and passed over. */
    method RestoreRows(model: string, data: map<string, Row>, ids: seq<string>, faults: R.Faults)
      returns (count: nat, died: bool)
      requires forall id :: id in ids ==> id in data
      modifies db
      ensures db.store.backups == old(db.store).backups
      ensures R.RowsRestored(db.store.rows, db.budget, count, died)
           == R.RestoreRows(db.reg, old(db.store).rows, old(db.budget), model, data, ids, |ids|, faults)
    {
      count := 0;
      for i := 0 to |ids|
        invariant db.store.backups == old(db.store).backups
        invariant R.RowsRestored(db.store.rows, db.budget, count, false)
               == R.RestoreRows(db.reg, old(db.store).rows, old(db.budget), model, data, ids, i, faults)
      {
        var r := RowId(model, ids[i]);
        var s := db.Upsert(r, data[ids[i]], r in faults.fails, r in faults.unanswered);
        if s == Died {
          RowsStayDead(db.reg, old(db.store).rows, old(db.budget), model, data, ids, i + 1, |ids|, faults);
          return count, true;
        }
        if s == Executed {
          count := count + 1;
        }
      }
      died := false;
    }

    method RestoreFromBackups(uid: string, faults: R.Faults)
      returns (summaries: seq<R.RestoreSummary>, totalRowsRestored: nat, died: bool, entries: seq<R.Entry>)
      modifies db
      ensures R.ListsHeld(old(db.store), uid, entries)
      ensures R.Restoration(db.store, db.budget, summaries, totalRowsRestored, died)
           == R.RestoreFromBackups(db.reg, db.client, old(db.store), old(db.budget), uid, entries, faults)
    {
      entries := FindUnusedBackups(uid);
      var sorted := SortBackupsParentsFirst(entries);
      summaries, totalRowsRestored, died := [], 0, false;
      for i := 0 to |sorted|
        invariant !died
        invariant R.Restoration(db.store, db.budget, summaries, totalRowsRestored, died)
               == R.RestoreRun(db.reg, db.client, old(db.store), old(db.budget), uid, sorted, i, faults)
      {
        summaries, totalRowsRestored, died := RestoreBackup(sorted[i], uid, faults, summaries, totalRowsRestored);
        if died {
          RestoreStaysDead(db.reg, db.client, old(db.store), old(db.budget), uid, sorted, i + 1, |sorted|, faults);
          return;
        }
      }
    }

    /** One backup's turn: restore its rows, report, and mark it used. */
    method RestoreBackup(e: R.Entry, uid: string, faults: R.Faults, before: seq<R.RestoreSummary>, total: nat)
      returns (summaries: seq<R.RestoreSummary>, totalRowsRestored: nat, died: bool)
      modifies db
      ensures R.Restoration(db.store, db.budget, summaries, totalRowsRestored, died)
           == R.RestoreEntry(db.reg, db.client, R.Restoration(old(db.store), old(db.budget), before, total, false), uid,
             e, faults)
    {
      summaries, totalRowsRestored, died := before, total, false;
      if !R.Restorable(db.store, uid, e) {
        return;
      }
      var key := BackupKey(uid, e.model);
      var summary := R.RestoreSummary(e.model, 0, false);
      if e.model in db.client {
        var data := db.store.backups[key].data.value;
        var count, stopped := RestoreRows(e.model, data, e.ids, faults);
        if stopped {
          DeadIsSpent(db.reg, old(db.store).rows, old(db.budget), e.model, data, e.ids, |e.ids|, faults);
          return before, total, true;
        }
        summary := R.RestoreSummary(e.model, count, true);
      }
      var marked := db.MarkBackupUsed(uid, e.model);
      return before + [summary], total + summary.rows, marked == Died;
    }
  }

  lemma {:induction false} RunStaysStopped(reg: Registry, client: set<string>, store: Store, budget: nat,
                                           sorted: seq<TableConfig>, i: nat, n: nat, identity: string, mode: Mode,
                                           uid: string, keys: map<UserField, string>)
    requires i <= n <= |sorted| && Run(reg, client, store, budget, sorted, i, identity, mode, uid, keys).stopped.Some?
    ensures Run(reg, client, store, budget, sorted, n, identity, mode, uid, keys)
      == Run(reg, client, store, budget, sorted, i, identity, mode, uid, keys)
  {
    if i < n {
      RunStaysStopped(reg, client, store, budget, sorted, i, n - 1, identity, mode, uid, keys);
    }
  }

  lemma {:induction false} RowsStayDead(reg: Registry, rows: Rows, budget: nat, model: string, data: map<string, Row>,
                                        ids: seq<string>, i: nat, n: nat, faults: R.Faults)
    requires i <= n <= |ids| && (forall id :: id in ids ==> id in data)
    requires R.RestoreRows(reg, rows, budget, model, data, ids, i, faults).died
    ensures R.RestoreRows(reg, rows, budget, model, data, ids, n, faults)
      == R.RestoreRows(reg, rows, budget, model, data, ids, i, faults)
  {
    if i < n {
      RowsStayDead(reg, rows, budget, model, data, ids, i, n - 1, faults);
    }
  }

  lemma {:induction false} DeadIsSpent(reg: Registry, rows: Rows, budget: nat, model: string, data: map<string, Row>,
                                       ids: seq<string>, n: nat, faults: R.Faults)
    requires n <= |ids| && forall id :: id in ids ==> id in data
    ensures R.RestoreRows(reg, rows, budget, model, data, ids, n, faults).died ==>
              R.RestoreRows(reg, rows, budget, model, data, ids, n, faults).budget == 0
  {
    if n > 0 {
      DeadIsSpent(reg, rows, budget, model, data, ids, n - 1, faults);
    }
  }

  lemma {:induction false} RestoreStaysDead(reg: Registry, client: set<string>, store: Store, budget: nat, uid: string,
                                            sorted: seq<R.Entry>, i: nat, n: nat, faults: R.Faults)
    requires i <= n <= |sorted| && R.RestoreRun(reg, client, store, budget, uid, sorted, i, faults).died
    ensures R.RestoreRun(reg, client, store, budget, uid, sorted, n, faults)
      == R.RestoreRun(reg, client, store, budget, uid, sorted, i, faults)
  {
    if i < n {
      RestoreStaysDead(reg, client, store, budget, uid, sorted, i, n - 1, faults);
    }
  }
}
