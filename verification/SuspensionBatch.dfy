/**
  What a batch that finishes has done, exactly: which rows are gone and which references are cleared, and
  from that, when the suspension is recoverable and when the rows of others are untouched.
*/
module SuspensionBatch {
  import opened Options
  import opened SuspensionStore
  import opened Suspension

  // ---------------------------------------------------------------------------------------------
  // Rows and references
  // ---------------------------------------------------------------------------------------------

  /** The same rows with the same references; their fields may differ. */
  ghost predicate SameShape(a: Rows, b: Rows) {
    && (forall r {:trigger r in a} {:trigger r in b} :: r in a <==> r in b)
    && (forall r {:trigger a[r]} {:trigger b[r]} :: r in a && r in b ==> a[r].key == b[r].key && a[r].link == b[r].link)
  }

  /** Deleting twice is deleting the union. */
  lemma WithoutTwice(rows: Rows, first: set<RowId>, second: set<RowId>)
    ensures SameShape(Without(Without(rows, first), second), Without(rows, first + second))
  {
  }

  lemma ShapeWithout(a: Rows, b: Rows, gone: set<RowId>)
    requires SameShape(a, b)
    ensures SameShape(Without(a, gone), Without(b, gone))
  {
  }

  lemma ShapeTwice(a: Rows, b: Rows, d: Rows)
    requires SameShape(a, b) && SameShape(b, d)
    ensures SameShape(a, d)
  {
  }

  lemma ShapeAnonymized(rows: Rows, model: string, key: string, data: map<string, Value>)
    ensures SameShape(AnonymizeRows(rows, model, key, data), rows)
  {
  }

  lemma ShapeDoomed(reg: Registry, a: Rows, b: Rows, model: string, key: string)
    requires SameShape(a, b)
    ensures Doomed(reg, a, model, key) == Doomed(reg, b, model, key)
  {
  }

  /** Of what is left, a delete removes what it would have removed before. */
  lemma DoomedWithout(reg: Registry, rows: Rows, gone: set<RowId>, model: string, key: string)
    requires Intact(reg, Without(rows, gone))
    ensures Doomed(reg, Without(rows, gone), model, key) == Doomed(reg, rows, model, key) - gone
  {
    var left := Without(rows, gone);
    forall r ensures r in Doomed(reg, left, model, key) <==> r in Doomed(reg, rows, model, key) && r !in gone {
      if r in left {
        assert Refers(reg, left, r.model, left[r]);
      }
    }
  }

  /** Everything the first n tables remove, of the rows as they are when the batch begins. */
  function Gone(reg: Registry, client: set<string>, rows: Rows, sorted: seq<TableConfig>, n: nat,
                keys: map<UserField, string>): set<RowId>
    requires n <= |sorted|
  {
    if n == 0 then {}
    else Gone(reg, client, rows, sorted, n - 1, keys) + Removal(reg, client, rows, sorted[n - 1], keys)
  }

  lemma {:induction false} GoneHolds(reg: Registry, client: set<string>, rows: Rows, sorted: seq<TableConfig>, n: nat,
                                     keys: map<UserField, string>, i: nat)
    requires i < n <= |sorted|
    ensures Removal(reg, client, rows, sorted[i], keys) <= Gone(reg, client, rows, sorted, n, keys)
  {
    var m: nat := n - 1;
    if i < m {
      GoneHolds(reg, client, rows, sorted, m, keys, i);
    }
  }

  lemma IntactShape(reg: Registry, a: Rows, b: Rows)
    requires SameShape(a, b) && Intact(reg, a)
    ensures Intact(reg, b)
  {
    forall r | r in b ensures Refers(reg, b, r.model, b[r]) {
      assert Refers(reg, a, r.model, a[r]);
    }
  }

  /** A turn that ends removes what there is to remove, and nothing else. */
  lemma TurnRows(reg: Registry, client: set<string>, store: Store, budget: nat, t: TableConfig,
                 identity: string, mode: Mode, uid: string, keys: map<UserField, string>)
    ensures var turn := Process(reg, client, store, budget, t, identity, mode, uid, KeyIn(keys, t.userField));
      turn.outcome.TableDone? ==> SameShape(turn.store.rows,
        Without(store.rows, Removal(reg, client, store.rows, t, keys)))
  {
    var turn := Process(reg, client, store, budget, t, identity, mode, uid, KeyIn(keys, t.userField));
    if turn.outcome.TableDone? {
      if t.userField !in keys || t.modelName !in client {
        NothingRemoved(store.rows);
      } else {
        KeyedTurnRows(reg, client, store, budget, t, identity, mode, uid, keys);
      }
    }
  }

  lemma NothingRemoved(rows: Rows)
    ensures SameShape(rows, Without(rows, {}))
  {
  }

  /** What a turn that ends has done to the rows, if there were any. */
  lemma DoneTurn(reg: Registry, client: set<string>, store: Store, budget: nat, t: TableConfig,
                 identity: string, mode: Mode, uid: string, key: string)
    requires t.modelName in client && |Load(store.rows, t.modelName, key)| > 0
    ensures var turn := Process(reg, client, store, budget, t, identity, mode, uid, Some(key));
      turn.outcome.TableDone? ==>
        turn.store.rows == Changed(reg, store.rows, t, mode, key)
        || (t.strategy == Anonymize && turn.store.rows == store.rows)
  {
  }

  lemma EmptyTurn(reg: Registry, client: set<string>, store: Store, budget: nat, t: TableConfig,
                  identity: string, mode: Mode, uid: string, key: string)
    requires |Load(store.rows, t.modelName, key)| == 0
    ensures Process(reg, client, store, budget, t, identity, mode, uid, Some(key)).store == store
  {
  }

  lemma KeyedTurnRows(reg: Registry, client: set<string>, store: Store, budget: nat, t: TableConfig,
                      identity: string, mode: Mode, uid: string, keys: map<UserField, string>)
    requires t.userField in keys && t.modelName in client
    ensures var turn := Process(reg, client, store, budget, t, identity, mode, uid, Some(keys[t.userField]));
      turn.outcome.TableDone? ==> SameShape(turn.store.rows,
        Without(store.rows, Removal(reg, client, store.rows, t, keys)))
  {
    var key := keys[t.userField];
    NothingRemoved(store.rows);
    if |Load(store.rows, t.modelName, key)| == 0 {
      NobodyDoomed(reg, store.rows, t.modelName, key);
      EmptyTurn(reg, client, store, budget, t, identity, mode, uid, key);
    } else {
      DoneTurn(reg, client, store, budget, t, identity, mode, uid, key);
      ChangedRows(reg, client, store.rows, t, mode, key);
    }
  }

  lemma ChangedRows(reg: Registry, client: set<string>, rows: Rows, t: TableConfig, mode: Mode, key: string)
    ensures t.strategy == Delete ==>
      Changed(reg, rows, t, mode, key) == Without(rows, Doomed(reg, rows, t.modelName, key))
    ensures t.strategy == Anonymize ==> SameShape(Changed(reg, rows, t, mode, key), Without(rows, {}))
  {
    if t.strategy == Anonymize {
      ShapeAnonymized(rows, t.modelName, key, PiiData(t, mode));
      NothingRemoved(rows);
    }
  }

  lemma NobodyDoomed(reg: Registry, rows: Rows, model: string, key: string)
    requires |Load(rows, model, key)| == 0
    ensures Doomed(reg, rows, model, key) == {}
  {
    forall r ensures !Matches(rows, r, model, key) {
      if Matches(rows, r, model, key) {
        LoadFinds(rows, r, model, key);
      }
    }
  }

  /** If the batch has come to position n without stopping, its rows are those left by the removals so far. */
  ghost predicate ShapeAt(c: Case, store: Store, budget: nat, sorted: seq<TableConfig>, n: nat, mode: Mode,
                          keys: map<UserField, string>)
    requires n <= |sorted|
  {
    var b := Run(c.reg, c.client, store, budget, sorted, n, c.identity, mode, c.uid, keys);
    b.stopped.None? ==>
      Intact(c.reg, b.store.rows)
      && SameShape(b.store.rows, Without(store.rows, Gone(c.reg, c.client, store.rows, sorted, n, keys)))
  }

  /** One more removal. */
  lemma RemovalGrows(reg: Registry, client: set<string>, start: Rows, now: Rows, after: Rows, gone: set<RowId>,
                     t: TableConfig, keys: map<UserField, string>)
    requires WellFormed(reg) && Intact(reg, now) && SameShape(now, Without(start, gone))
    requires SameShape(after, Without(now, Removal(reg, client, now, t, keys)))
    ensures Intact(reg, after) && SameShape(after, Without(start, gone + Removal(reg, client, start, t, keys)))
  {
    var removal, original := Removal(reg, client, now, t, keys), Removal(reg, client, start, t, keys);
    RemovalLeft(reg, client, start, now, gone, t, keys);
    ShapeWithout(now, Without(start, gone), removal);
    WithoutTwice(start, gone, removal);
    assert gone + removal == gone + original;
    ShapeTwice(Without(now, removal), Without(Without(start, gone), removal), Without(start, gone + original));
    ShapeTwice(after, Without(now, removal), Without(start, gone + original));
    RemovalIntact(reg, client, now, t, keys);
    ShapeBack(after, Without(now, removal));
    IntactShape(reg, Without(now, removal), after);
  }

  lemma ShapeBack(a: Rows, b: Rows)
    requires SameShape(a, b)
    ensures SameShape(b, a)
  {
  }

  lemma RemovalLeft(reg: Registry, client: set<string>, start: Rows, now: Rows, gone: set<RowId>, t: TableConfig,
                    keys: map<UserField, string>)
    requires Intact(reg, now) && SameShape(now, Without(start, gone))
    ensures Removal(reg, client, now, t, keys) == Removal(reg, client, start, t, keys) - gone
  {
    if t.strategy == Delete && t.modelName in client && t.userField in keys {
      IntactShape(reg, now, Without(start, gone));
      ShapeDoomed(reg, now, Without(start, gone), t.modelName, keys[t.userField]);
      DoomedWithout(reg, start, gone, t.modelName, keys[t.userField]);
    }
  }

  lemma RemovalIntact(reg: Registry, client: set<string>, rows: Rows, t: TableConfig, keys: map<UserField, string>)
    requires WellFormed(reg) && Intact(reg, rows)
    ensures Intact(reg, Without(rows, Removal(reg, client, rows, t, keys)))
  {
    if t.strategy == Delete && t.modelName in client && t.userField in keys {
      DeleteIntact(reg, rows, t.modelName, keys[t.userField]);
    } else {
      NothingRemoved(rows);
      IntactShape(reg, rows, Without(rows, {}));
    }
  }

  lemma NextShape(c: Case, store: Store, budget: nat, sorted: seq<TableConfig>, i: nat, mode: Mode,
                  keys: map<UserField, string>)
    requires WellFormed(c.reg) && i < |sorted| && ShapeAt(c, store, budget, sorted, i, mode, keys)
    ensures ShapeAt(c, store, budget, sorted, i + 1, mode, keys)
  {
    var b := Run(c.reg, c.client, store, budget, sorted, i, c.identity, mode, c.uid, keys);
    var t, key := sorted[i], KeyIn(keys, sorted[i].userField);
    if b.stopped.None? {
      var turn := Process(c.reg, c.client, b.store, b.budget, t, c.identity, mode, c.uid, key);
      RunTurn(c.reg, c.client, store, budget, sorted, i, c.identity, mode, c.uid, keys, b, turn);
      TurnRows(c.reg, c.client, b.store, b.budget, t, c.identity, mode, c.uid, keys);
      if turn.outcome.TableDone? {
        RemovalGrows(c.reg, c.client, store.rows, b.store.rows, turn.store.rows,
                     Gone(c.reg, c.client, store.rows, sorted, i, keys), t, keys);
      }
    } else {
      StoppedStays(c, store, budget, sorted, i, mode, keys);
    }
  }

  /**
    Whatever the tables and in either mode: the rows left by a batch that finishes are those none of its
    removals concerned, less the references into what it removed.
  */
  lemma {:induction false} RunRows(c: Case, store: Store, budget: nat, sorted: seq<TableConfig>, n: nat, mode: Mode,
                                   keys: map<UserField, string>)
    requires WellFormed(c.reg) && Intact(c.reg, store.rows) && n <= |sorted|
    ensures ShapeAt(c, store, budget, sorted, n, mode, keys)
  {
    if n == 0 {
      NothingRemoved(store.rows);
    } else {
      var i: nat := n - 1;
      RunRows(c, store, budget, sorted, i, mode, keys);
      NextShape(c, store, budget, sorted, i, mode, keys);
    }
  }

  // ---------------------------------------------------------------------------------------------
  // References
  // ---------------------------------------------------------------------------------------------

  lemma ChangedIntact(reg: Registry, rows: Rows, t: TableConfig, mode: Mode, key: string)
    requires WellFormed(reg) && Intact(reg, rows)
    ensures Intact(reg, Changed(reg, rows, t, mode, key))
  {
    if t.strategy == Delete {
      DeleteIntact(reg, rows, t.modelName, key);
    } else {
      ShapeAnonymized(rows, t.modelName, key, PiiData(t, mode));
      ShapeBack(Changed(reg, rows, t, mode, key), rows);
      IntactShape(reg, rows, Changed(reg, rows, t, mode, key));
    }
  }

  lemma TurnIntact(reg: Registry, client: set<string>, store: Store, budget: nat, t: TableConfig, identity: string,
                   mode: Mode, uid: string, key: Option<string>)
    requires WellFormed(reg) && Intact(reg, store.rows)
    ensures Intact(reg, Process(reg, client, store, budget, t, identity, mode, uid, key).store.rows)
  {
    ProcessCases(reg, client, store, budget, t, identity, mode, uid, key);
    if key.Some? {
      ChangedIntact(reg, store.rows, t, mode, key.value);
    }
  }

  lemma {:induction false} RunIntact(reg: Registry, client: set<string>, store: Store, budget: nat,
                                     sorted: seq<TableConfig>, n: nat, identity: string, mode: Mode, uid: string,
                                     keys: map<UserField, string>)
    requires WellFormed(reg) && Intact(reg, store.rows) && n <= |sorted|
    ensures Intact(reg, Run(reg, client, store, budget, sorted, n, identity, mode, uid, keys).store.rows)
  {
    if n == 0 {
    } else {
      var i: nat := n - 1;
      RunIntact(reg, client, store, budget, sorted, i, identity, mode, uid, keys);
      var b := Run(reg, client, store, budget, sorted, i, identity, mode, uid, keys);
      TurnIntact(reg, client, b.store, b.budget, sorted[i], identity, mode, uid, KeyIn(keys, sorted[i].userField));
    }
  }

  /** Every reference holds at every step of every batch, whatever its tables and keys. */
  lemma AnonymizeIntact(reg: Registry, client: set<string>, store: Store, budget: nat, tables: seq<TableConfig>,
                        identity: string, mode: Mode, uid: Option<string>, keys: map<UserField, string>)
    requires WellFormed(reg) && Intact(reg, store.rows)
    ensures Intact(reg, AnonymizeBatch(reg, client, store, budget, tables, identity, mode, uid, keys).store.rows)
  {
    ChildrenFirstSorts(tables);
    RunIntact(reg, client, store, budget, ChildrenFirst(tables), |tables|, identity, mode, uid.GetOr(""), keys);
  }

  // ---------------------------------------------------------------------------------------------
  // The rows of others
  // ---------------------------------------------------------------------------------------------

  /** No row of another refers to what the batch removes. */
  ghost predicate NobodyRefers(c: Case, rows: Rows, gone: set<RowId>) {
    forall r {:trigger r in rows} :: r in rows && !Mine(c, r) && rows[r].link.Some? ==> rows[r].link.value !in gone
  }

  lemma OthersAfter(c: Case, rows: Rows, end: Rows, gone: set<RowId>)
    requires OthersStay(c, rows) && OthersStay(c, end) && SameShape(end, Without(rows, gone))
    ensures OthersUnchanged(c, end) <==> OthersUnchanged(c, rows) && NobodyRefers(c, rows, gone)
  {
    forall r | r in c.orig && !Mine(c, r)
      ensures r in rows && r in end && end[r].link == Unlink(rows[r], gone).link
      ensures Unchanged(c.orig, rows, r) <==> rows[r].link == c.orig[r].link
      ensures Unchanged(c.orig, end, r) <==> end[r].link == c.orig[r].link
    {
      assert r in Without(rows, gone);
    }
    if OthersUnchanged(c, end) {
      forall r | r in c.orig && !Mine(c, r) ensures Unchanged(c.orig, rows, r) && Unchanged(c.orig, end, r) {
        assert Unchanged(c.orig, end, r);
      }
    }
    if OthersUnchanged(c, rows) && NobodyRefers(c, rows, gone) {
      forall r | r in c.orig && !Mine(c, r) ensures Unchanged(c.orig, end, r) {
        assert Unchanged(c.orig, rows, r);
      }
    }
  }

  /**
    Exactly when a batch that finishes leaves the rows of others altogether as they were: when none of them
    refers to a row it removes. All it can do to them is clear such references.
  */
  lemma OthersUnchangedIff(c: Case, store: Store, budget: nat, tables: seq<TableConfig>, mode: Mode,
                           uid: Option<string>, keys: map<UserField, string>)
    requires Sound(c.reg, c.orig) && OthersStay(c, store.rows) && Registered(c, tables)
    requires Resolved(c.reg, store.rows, tables, c.identity, keys) && uid.GetOr("") == c.uid
    ensures var b := AnonymizeBatch(c.reg, c.client, store, budget, tables, c.identity, mode, uid, keys);
      var gone := Gone(c.reg, c.client, store.rows, ChildrenFirst(tables), |ChildrenFirst(tables)|, keys);
      b.stopped.None? ==>
        (OthersUnchanged(c, b.store.rows) <==> OthersUnchanged(c, store.rows) && NobodyRefers(c, store.rows, gone))
  {
    SameBatch(c, tables);
    ChildrenFirstSorts(tables);
    var sorted := ChildrenFirst(tables);
    var b := AnonymizeBatch(c.reg, c.client, store, budget, tables, c.identity, mode, uid, keys);
    if b.stopped.None? {
      RunRows(c, store, budget, sorted, |tables|, mode, keys);
      RunOthersStay(c, store, budget, sorted, |tables|, mode, keys);
      OthersAfter(c, store.rows, b.store.rows, Gone(c.reg, c.client, store.rows, sorted, |tables|, keys));
    }
  }

  // ---------------------------------------------------------------------------------------------
  // A row of the identity that is not backed up in time
  // ---------------------------------------------------------------------------------------------

  /** The row is gone, or its reference is. */
  ghost predicate Torn(c: Case, rows: Rows, r: RowId)
    requires r in c.orig
  {
    r !in rows || (c.orig[r].link.Some? && rows[r].link.None?)
  }

  /** It can not be had back from the suspension. */
  ghost predicate Spoiled(c: Case, store: Store, r: RowId) {
    Mine(c, r) && if Held(store, c.uid, r.model) then !InBackup(c, store, r) else Torn(c, store.rows, r)
  }

  lemma FaithfulHolds(c: Case, store: Store, r: RowId)
    requires Mine(c, r) && Held(store, c.uid, r.model)
    ensures Faithful(c, store.backups[BackupKey(c.uid, r.model)], r.model) ==> InBackup(c, store, r)
  {
    assert RowId(r.model, r.id) == r;
  }

  lemma SpoiledIsLost(c: Case, store: Store, r: RowId)
    requires Spoiled(c, store, r)
    ensures !Recoverable(c, store)
  {
    if Held(store, c.uid, r.model) {
      FaithfulHolds(c, store, r);
    } else {
      assert !Unchanged(c.orig, store.rows, r);
    }
  }

  /** What a turn does to the backups of a suspension. */
  lemma TurnBackups(c: Case, store: Store, budget: nat, t: TableConfig, key: Option<string>)
    ensures var turn := Process(c.reg, c.client, store, budget, t, c.identity, SuspendMode, c.uid, key);
      || turn.store.backups == store.backups
      || (key.Some? && BackupKey(c.uid, t.modelName) !in store.backups
          && turn.store.backups == SaveBackup(store, c.uid, c.identity, t.modelName,
             Load(store.rows, t.modelName, key.value)).backups)
  {
  }

  /** The backup of a torn row's table comes too late. */
  lemma SpoiledBySaving(c: Case, store: Store, saved: Store, model: string, key: string, r: RowId)
    requires Mine(c, r) && Torn(c, store.rows, r) && r.model == model && BackupKey(c.uid, model) !in store.backups
    requires saved.backups == SaveBackup(store, c.uid, c.identity, model, Load(store.rows, model, key)).backups
    ensures Spoiled(c, saved, r)
  {
    var data := Load(store.rows, model, key);
    assert RowId(model, r.id) == r;
    assert saved.backups[BackupKey(c.uid, model)].data == Some(data);
  }

  lemma TornStays(c: Case, before: Rows, after: Rows, r: RowId)
    requires r in c.orig && Torn(c, before, r) && Shrinks(before, after)
    ensures Torn(c, after, r)
  {
  }

  lemma SpoiledOn(c: Case, store: Store, budget: nat, t: TableConfig, key: Option<string>, r: RowId)
    requires Spoiled(c, store, r)
    ensures Spoiled(c, Process(c.reg, c.client, store, budget, t, c.identity, SuspendMode, c.uid, key).store, r)
  {
    var turn := Process(c.reg, c.client, store, budget, t, c.identity, SuspendMode, c.uid, key);
    ProcessShrinks(c.reg, c.client, store, budget, t, c.identity, SuspendMode, c.uid, key);
    TurnBackups(c, store, budget, t, key);
    if !Held(store, c.uid, r.model) {
      TornStays(c, store.rows, turn.store.rows, r);
      if turn.store.backups != store.backups && r.model == t.modelName {
        SpoiledBySaving(c, store, turn.store, t.modelName, key.value, r);
      }
    }
  }

  ghost predicate SpoiledAt(c: Case, store: Store, budget: nat, sorted: seq<TableConfig>, n: nat,
                            keys: map<UserField, string>, r: RowId)
    requires n <= |sorted|
  {
    Spoiled(c, Run(c.reg, c.client, store, budget, sorted, n, c.identity, SuspendMode, c.uid, keys).store, r)
  }

  lemma NextSpoiled(c: Case, store: Store, budget: nat, sorted: seq<TableConfig>, i: nat, keys: map<UserField, string>,
                    r: RowId)
    requires i < |sorted| && SpoiledAt(c, store, budget, sorted, i, keys, r)
    ensures SpoiledAt(c, store, budget, sorted, i + 1, keys, r)
  {
    var b := Run(c.reg, c.client, store, budget, sorted, i, c.identity, SuspendMode, c.uid, keys);
    var t, key := sorted[i], KeyIn(keys, sorted[i].userField);
    if b.stopped.None? {
      var turn := Process(c.reg, c.client, b.store, b.budget, t, c.identity, SuspendMode, c.uid, key);
      RunTurn(c.reg, c.client, store, budget, sorted, i, c.identity, SuspendMode, c.uid, keys, b, turn);
      SpoiledOn(c, b.store, b.budget, t, key, r);
    } else {
      StoppedStays(c, store, budget, sorted, i, SuspendMode, keys);
    }
  }

  lemma {:induction false} SpoiledRemains(c: Case, store: Store, budget: nat, sorted: seq<TableConfig>, i: nat, n: nat,
                                          keys: map<UserField, string>, r: RowId)
    requires i <= n <= |sorted| && SpoiledAt(c, store, budget, sorted, i, keys, r)
    ensures SpoiledAt(c, store, budget, sorted, n, keys, r)
  {
    if i < n {
      var m: nat := n - 1;
      SpoiledRemains(c, store, budget, sorted, i, m, keys, r);
      NextSpoiled(c, store, budget, sorted, m, keys, r);
    }
  }

  /** A batch that has not stopped by position n had not stopped before. */
  lemma {:induction false} NotStoppedBefore(c: Case, store: Store, budget: nat, sorted: seq<TableConfig>, i: nat,
                                            n: nat, mode: Mode, keys: map<UserField, string>)
    requires i <= n <= |sorted|
    requires Run(c.reg, c.client, store, budget, sorted, n, c.identity, mode, c.uid, keys).stopped.None?
    ensures Run(c.reg, c.client, store, budget, sorted, i, c.identity, mode, c.uid, keys).stopped.None?
  {
    if i < n {
      var m: nat := n - 1;
      if Run(c.reg, c.client, store, budget, sorted, m, c.identity, mode, c.uid, keys).stopped.Some? {
        StoppedStays(c, store, budget, sorted, m, mode, keys);
      }
      NotStoppedBefore(c, store, budget, sorted, i, m, mode, keys);
    }
  }

  /** No backup of a model is made before its table's turn. */
  ghost predicate UnheldAt(c: Case, store: Store, budget: nat, sorted: seq<TableConfig>, n: nat,
                           keys: map<UserField, string>, model: string)
    requires n <= |sorted|
  {
    !Held(Run(c.reg, c.client, store, budget, sorted, n, c.identity, SuspendMode, c.uid, keys).store, c.uid, model)
  }

  lemma NextUnheld(c: Case, store: Store, budget: nat, sorted: seq<TableConfig>, i: nat, keys: map<UserField, string>,
                   model: string)
    requires i < |sorted| && UnheldAt(c, store, budget, sorted, i, keys, model)
    requires sorted[i].modelName != model || model !in c.client
    ensures UnheldAt(c, store, budget, sorted, i + 1, keys, model)
  {
    var b := Run(c.reg, c.client, store, budget, sorted, i, c.identity, SuspendMode, c.uid, keys);
    var t, key := sorted[i], KeyIn(keys, sorted[i].userField);
    if b.stopped.None? {
      var turn := Process(c.reg, c.client, b.store, b.budget, t, c.identity, SuspendMode, c.uid, key);
      RunTurn(c.reg, c.client, store, budget, sorted, i, c.identity, SuspendMode, c.uid, keys, b, turn);
      TurnBackups(c, b.store, b.budget, t, key);
    } else {
      StoppedStays(c, store, budget, sorted, i, SuspendMode, keys);
    }
  }

  lemma {:induction false} RunUnheld(c: Case, store: Store, budget: nat, sorted: seq<TableConfig>, n: nat,
                                     keys: map<UserField, string>, model: string)
    requires n <= |sorted| && !Held(store, c.uid, model)
    requires model !in c.client || forall j :: 0 <= j < n ==> sorted[j].modelName != model
    ensures UnheldAt(c, store, budget, sorted, n, keys, model)
  {
    if n == 0 {
    } else {
      var i: nat := n - 1;
      RunUnheld(c, store, budget, sorted, i, keys, model);
      NextUnheld(c, store, budget, sorted, i, keys, model);
    }
  }

  lemma TouchedIsTorn(c: Case, rows: Rows, end: Rows, part: set<RowId>, gone: set<RowId>, r: RowId)
    requires r in c.orig && Unchanged(c.orig, rows, r) && Touched(rows, part, r) && part <= gone
    requires SameShape(end, Without(rows, gone))
    ensures Torn(c, end, r)
  {
  }

  /** A row that a turn touches before its own table has been backed up is lost to the suspension. */
  lemma TouchedIsSpoiled(c: Case, store: Store, budget: nat, sorted: seq<TableConfig>, n: nat,
                         keys: map<UserField, string>, i: nat, r: RowId)
    requires Sound(c.reg, c.orig) && Recoverable(c, store) && i < n <= |sorted|
    requires Run(c.reg, c.client, store, budget, sorted, n, c.identity, SuspendMode, c.uid, keys).stopped.None?
    requires TouchedAt(c, store, sorted, keys, i, r) && !ComesBy(c, sorted, i, r.model)
    ensures SpoiledAt(c, store, budget, sorted, n, keys, r)
  {
    var m: nat := i + 1;
    NotStoppedBefore(c, store, budget, sorted, m, n, SuspendMode, keys);
    RunRows(c, store, budget, sorted, m, SuspendMode, keys);
    GoneHolds(c.reg, c.client, store.rows, sorted, m, keys, i);
    assert Unchanged(c.orig, store.rows, r);
    TouchedIsTorn(c, store.rows, Run(c.reg, c.client, store, budget, sorted, m, c.identity, SuspendMode, c.uid,
      keys).store.rows,
                  Removal(c.reg, c.client, store.rows, sorted[i], keys),
                    Gone(c.reg, c.client, store.rows, sorted, m, keys), r);
    RunUnheld(c, store, budget, sorted, m, keys, r.model);
    SpoiledRemains(c, store, budget, sorted, m, n, keys, r);
  }

  /**
    Exactly when a suspending batch that finishes keeps the suspension recoverable: when every row of the
    identity that some turn removes or unlinks is in an unused backup already, or belongs to a table that
    comes no later than that turn.
  */
  lemma SuspendRecoverableIff(c: Case, store: Store, budget: nat, tables: seq<TableConfig>,
                              keys: map<UserField, string>)
    requires Sound(c.reg, c.orig) && Recoverable(c, store) && c.identity != "" && Registered(c, tables)
    requires Resolved(c.reg, store.rows, tables, c.identity, keys)
    ensures var b := AnonymizeBatch(c.reg, c.client, store, budget, tables, c.identity, SuspendMode, Some(c.uid), keys);
      b.stopped.None? ==> (Recoverable(c, b.store) <==> CoveredInTime(c, store, ChildrenFirst(tables), keys))
  {
    SameBatch(c, tables);
    ChildrenFirstSorts(tables);
    var sorted := ChildrenFirst(tables);
    var b := AnonymizeBatch(c.reg, c.client, store, budget, tables, c.identity, SuspendMode, Some(c.uid), keys);
    if CoveredInTime(c, store, sorted, keys) {
      SuspendKeepsRecoverable(c, store, budget, tables, keys);
    } else if b.stopped.None? {
      var i: nat, r :| TouchedAt(c, store, sorted, keys, i, r) && !ComesBy(c, sorted, i, r.model);
      TouchedIsSpoiled(c, store, budget, sorted, |tables|, keys, i, r);
      SpoiledIsLost(c, b.store, r);
    }
  }
}
