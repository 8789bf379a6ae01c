/**
  What a batch does to single columns, and what it reports: fields outside the configured ones are never
  written, rows of an anonymized table stay, and each table's summary says what became of it.
*/
module SuspensionColumns {
  import opened Options
  import opened SuspensionStore
  import opened Suspension

  // ---------------------------------------------------------------------------------------------
  // Columns that are left alone
  // ---------------------------------------------------------------------------------------------

  /** The field of a row is there or not, with its value, as before. */
  ghost predicate SameField(before: Rows, after: Rows, r: RowId, f: string)
    requires r in before && r in after
  {
    (f in after[r].fields <==> f in before[r].fields)
    && (f in before[r].fields ==> after[r].fields[f] == before[r].fields[f])
  }

  /** The table's turn replaces this field. */
  predicate Replaces(t: TableConfig, model: string, f: string) {
    t.modelName == model && t.strategy == Anonymize && f in t.piiFields
  }

  /** The table's turn may remove rows of the model: its own, or channels with their profile. */
  predicate Removes(reg: Registry, t: TableConfig, model: string) {
    t.strategy == Delete && (t.modelName == model || (t.modelName == reg.profileModel && IsChannel(reg, model)))
  }

  lemma DeleteKeepsField(reg: Registry, rows: Rows, t: TableConfig, key: string, r: RowId, f: string)
    requires t.strategy == Delete
    ensures var after := DeleteRows(reg, rows, t.modelName, key);
      && (r in after ==> r in rows && after[r].key == rows[r].key && SameField(rows, after, r, f))
      && (r in rows && !Removes(reg, t, r.model) ==> r in after)
  {
  }

  lemma AnonymizeKeepsColumns(rows: Rows, t: TableConfig, mode: Mode, key: string, r: RowId, f: string)
    requires t.strategy == Anonymize
    ensures var after := AnonymizeRows(rows, t.modelName, key, PiiData(t, mode));
      && (r in after <==> r in rows)
      && (r in rows ==> after[r].key == rows[r].key && (!Replaces(t, r.model, f) ==> SameField(rows, after, r, f)))
  {
  }

  /** Wherever a turn stops and in either mode, a row is no other row, and only configured fields are written. */
  lemma TurnKeepsField(reg: Registry, client: set<string>, store: Store, budget: nat, t: TableConfig, identity: string,
                       mode: Mode, uid: string, key: Option<string>, r: RowId, f: string)
    ensures var after := Process(reg, client, store, budget, t, identity, mode, uid, key).store.rows;
      && (r in after ==> r in store.rows && after[r].key == store.rows[r].key)
      && (r in after && !Replaces(t, r.model, f) ==> SameField(store.rows, after, r, f))
      && (r in store.rows && !Removes(reg, t, r.model) ==> r in after)
  {
    ProcessCases(reg, client, store, budget, t, identity, mode, uid, key);
    if key.Some? {
      if t.strategy == Delete {
        DeleteKeepsField(reg, store.rows, t, key.value, r, f);
      } else {
        AnonymizeKeepsColumns(store.rows, t, mode, key.value, r, f);
      }
    }
  }

  /** What the batch has left of the row's field when it has come to position n. */
  ghost predicate FieldLeftAt(reg: Registry, client: set<string>, store: Store, budget: nat, sorted: seq<TableConfig>,
                              n: nat, identity: string, mode: Mode, uid: string, keys: map<UserField, string>, r: RowId,
                              f: string)
    requires n <= |sorted|
  {
    var after := Run(reg, client, store, budget, sorted, n, identity, mode, uid, keys).store.rows;
    && (r in after ==> r in store.rows && after[r].key == store.rows[r].key)
    && (r in after && (forall t :: t in sorted ==> !Replaces(t, r.model, f)) ==> SameField(store.rows, after, r, f))
    && (r in store.rows && (forall t :: t in sorted ==> !Removes(reg, t, r.model)) ==> r in after)
  }

  lemma NextField(reg: Registry, client: set<string>, store: Store, budget: nat, sorted: seq<TableConfig>, i: nat,
                  n: nat, identity: string, mode: Mode, uid: string, keys: map<UserField, string>, r: RowId, f: string)
    requires i < |sorted| && n == i + 1
    requires FieldLeftAt(reg, client, store, budget, sorted, i, identity, mode, uid, keys, r, f)
    ensures FieldLeftAt(reg, client, store, budget, sorted, n, identity, mode, uid, keys, r, f)
  {
    var b := Run(reg, client, store, budget, sorted, i, identity, mode, uid, keys);
    var t := sorted[i];
    if b.stopped.None? {
      var turn := Process(reg, client, b.store, b.budget, t, identity, mode, uid, KeyIn(keys, t.userField));
      RunTurn(reg, client, store, budget, sorted, i, identity, mode, uid, keys, b, turn);
      TurnKeepsField(reg, client, b.store, b.budget, t, identity, mode, uid, KeyIn(keys, t.userField), r, f);
    }
  }

  lemma {:induction false} RunKeepsField(reg: Registry, client: set<string>, store: Store, budget: nat,
                                         sorted: seq<TableConfig>, n: nat, identity: string, mode: Mode, uid: string,
                                         keys: map<UserField, string>, r: RowId, f: string)
    requires n <= |sorted|
    ensures FieldLeftAt(reg, client, store, budget, sorted, n, identity, mode, uid, keys, r, f)
  {
    if n == 0 {
    } else {
      var i: nat := n - 1;
      RunKeepsField(reg, client, store, budget, sorted, i, identity, mode, uid, keys, r, f);
      NextField(reg, client, store, budget, sorted, i, n, identity, mode, uid, keys, r, f);
    }
  }

  /**
    No batch, in either mode and stopped anywhere, writes a field that no table of the batch is configured
    to replace, or removes a row that no table of it is to delete.
  */
  lemma AnonymizeKeepsField(reg: Registry, client: set<string>, store: Store, budget: nat, tables: seq<TableConfig>,
                            identity: string, mode: Mode, uid: Option<string>, keys: map<UserField, string>, r: RowId,
                            f: string)
    ensures var after := AnonymizeBatch(reg, client, store, budget, tables, identity, mode, uid, keys).store.rows;
      && (r in after ==> r in store.rows && after[r].key == store.rows[r].key)
      && (r in after && (forall t :: t in tables ==> !Replaces(t, r.model, f)) ==> SameField(store.rows, after, r, f))
      && (r in store.rows && (forall t :: t in tables ==> !Removes(reg, t, r.model)) ==> r in after)
  {
    ChildrenFirstSorts(tables);
    RunKeepsField(reg, client, store, budget, ChildrenFirst(tables), |tables|, identity, mode, uid.GetOr(""), keys, r,
      f);
  }

  /**
    A table that is anonymized keeps all its rows, and all of them but the configured fields: stopped
    anywhere and in either mode. Only a channel can go, with its profile.
  */
  lemma AnonymizedTableStays(reg: Registry, client: set<string>, store: Store, budget: nat, tables: seq<TableConfig>,
                             identity: string, mode: Mode, uid: Option<string>, keys: map<UserField, string>,
                             t: TableConfig, r: RowId, f: string)
    requires t in tables && t.strategy == Anonymize && DistinctModels(tables)
    requires r in store.rows && r.model == t.modelName && f !in t.piiFields
    requires IsChannel(reg, t.modelName) ==>
      forall q :: q in tables && q.modelName == reg.profileModel ==> q.strategy == Anonymize
    ensures var after := AnonymizeBatch(reg, client, store, budget, tables, identity, mode, uid, keys).store.rows;
      r in after && SameField(store.rows, after, r, f)
  {
    forall q | q in tables ensures !Replaces(q, r.model, f) && !Removes(reg, q, r.model) {
      OneTable(tables, t, q);
    }
    AnonymizeKeepsField(reg, client, store, budget, tables, identity, mode, uid, keys, r, f);
  }

  lemma OneTable(tables: seq<TableConfig>, t: TableConfig, q: TableConfig)
    requires t in tables && q in tables && DistinctModels(tables)
    ensures t.modelName == q.modelName ==> t == q
  {
    var i :| 0 <= i < |tables| && tables[i] == t;
    var j :| 0 <= j < |tables| && tables[j] == q;
    if i != j {
      assert tables[i].modelName != tables[j].modelName;
    }
  }

  /** And the configured fields of the rows found hold the replacement: nothing, or text that tells the mode. */
  lemma ConfiguredFieldsReplaced(c: Case, store: Store, budget: nat, tables: seq<TableConfig>, mode: Mode,
                                 uid: Option<string>, keys: map<UserField, string>, t: TableConfig, r: RowId, f: string)
    requires WellFormed(c.reg) && Registered(c, tables) && DistinctModels(ChildrenFirst(tables))
      && uid.GetOr("") == c.uid
    requires t in tables && t.modelName in c.client && t.userField in keys && t.strategy == Anonymize
      && f in t.piiFields
    requires Matches(store.rows, r, t.modelName, keys[t.userField])
    ensures var b := AnonymizeBatch(c.reg, c.client, store, budget, tables, c.identity, mode, uid, keys);
      b.stopped.None? && r in b.store.rows ==>
        && f in b.store.rows[r].fields
        && var v := b.store.rows[r].fields[f];
           && (t.replacement == ToNull ==> v == Null)
           && (t.replacement == ToFixed ==> v == FixedText(mode))
           && (t.replacement == ToRandom ==> v == RandomText(mode))
  {
    var b := AnonymizeBatch(c.reg, c.client, store, budget, tables, c.identity, mode, uid, keys);
    AnonymizeProcessesAll(c, store, budget, tables, mode, uid, keys, t);
    AnonymizeKeepsField(c.reg, c.client, store, budget, tables, c.identity, mode, uid, keys, r, f);
    if b.stopped.None? && r in b.store.rows {
      assert Matches(b.store.rows, r, t.modelName, keys[t.userField]);
    }
  }

  // ---------------------------------------------------------------------------------------------
  // What is reported
  // ---------------------------------------------------------------------------------------------

  /** The table's summary, for so many rows found. */
  ghost predicate Reports(client: set<string>, t: TableConfig, mode: Mode, keyed: bool, found: nat, s: TableSummary) {
    && s.table == t.tableName && s.mode == mode && s.rows == found
    && (s.action == Deleted <==> found > 0 && t.strategy == Delete)
    && (s.action == Anonymized <==> found > 0 && t.strategy == Anonymize && t.piiFields != [])
    && (s.backedUp <==> mode == SuspendMode && keyed && t.modelName in client)
  }

  lemma TurnReports(reg: Registry, client: set<string>, store: Store, budget: nat, t: TableConfig, identity: string,
                    mode: Mode, uid: string, key: Option<string>)
    ensures var turn := Process(reg, client, store, budget, t, identity, mode, uid, key);
      var found := RowsFound(client, store.rows, t, key);
      turn.outcome.TableDone? ==>
        && Reports(client, t, mode, key.Some?, found, turn.outcome.summary)
        && (mode == SuspendMode && found > 0 ==>
              && BackupKey(uid, t.modelName) in turn.store.backups
              && var backup := turn.store.backups[BackupKey(uid, t.modelName)];
                 backup.identityId == identity && !backup.used && backup.data.Some? && |backup.data.value| == found)
  {
  }

  /** The summaries report the first n tables. */
  ghost predicate ReportsUpTo(c: Case, rows: Rows, sorted: seq<TableConfig>, n: nat, mode: Mode,
                              keys: map<UserField, string>, summary: seq<TableSummary>)
    requires n <= |sorted|
  {
    && |summary| == n
    && forall i :: 0 <= i < n ==>
         Reports(c.client, sorted[i], mode, sorted[i].userField in keys,
                 RowsFound(c.client, rows, sorted[i], KeyIn(keys, sorted[i].userField)), summary[i])
  }

  lemma ReportsOneMore(c: Case, rows: Rows, sorted: seq<TableConfig>, i: nat, mode: Mode, keys: map<UserField, string>,
                       summary: seq<TableSummary>, s: TableSummary)
    requires i < |sorted| && ReportsUpTo(c, rows, sorted, i, mode, keys, summary)
    requires Reports(c.client, sorted[i], mode, sorted[i].userField in keys,
                     RowsFound(c.client, rows, sorted[i], KeyIn(keys, sorted[i].userField)), s)
    ensures ReportsUpTo(c, rows, sorted, i + 1, mode, keys, summary + [s])
  {
  }

  /** If the batch has come to position n without stopping, it has reported the first n tables. */
  ghost predicate ReportsAt(c: Case, store: Store, budget: nat, sorted: seq<TableConfig>, n: nat, mode: Mode,
                            keys: map<UserField, string>)
    requires n <= |sorted|
  {
    var b := Run(c.reg, c.client, store, budget, sorted, n, c.identity, mode, c.uid, keys);
    b.stopped.None? ==> ReportsUpTo(c, store.rows, sorted, n, mode, keys, b.summary)
  }

  lemma NextReports(c: Case, store: Store, budget: nat, sorted: seq<TableConfig>, i: nat, mode: Mode,
                    keys: map<UserField, string>, b: Batch)
    requires WellFormed(c.reg) && Registered(c, sorted) && Sorted(sorted) && DistinctModels(sorted)
    requires i < |sorted| && ReportsAt(c, store, budget, sorted, i, mode, keys)
    requires b == Run(c.reg, c.client, store, budget, sorted, i, c.identity, mode, c.uid, keys)
    ensures ReportsAt(c, store, budget, sorted, i + 1, mode, keys)
  {
    var t, key := sorted[i], KeyIn(keys, sorted[i].userField);
    if b.stopped.None? {
      var turn := Process(c.reg, c.client, b.store, b.budget, t, c.identity, mode, c.uid, key);
      RunTurn(c.reg, c.client, store, budget, sorted, i, c.identity, mode, c.uid, keys, b, turn);
      TurnFinds(c, store, budget, sorted, i, mode, keys);
      TurnReports(c.reg, c.client, b.store, b.budget, t, c.identity, mode, c.uid, key);
      if turn.outcome.TableDone? {
        ReportsOneMore(c, store.rows, sorted, i, mode, keys, b.summary, turn.outcome.summary);
      }
    }
  }

  lemma {:induction false} RunReports(c: Case, store: Store, budget: nat, sorted: seq<TableConfig>, n: nat, mode: Mode,
                                      keys: map<UserField, string>)
    requires WellFormed(c.reg) && Registered(c, sorted) && Sorted(sorted) && DistinctModels(sorted) && n <= |sorted|
    ensures ReportsAt(c, store, budget, sorted, n, mode, keys)
  {
    if n == 0 {
    } else {
      var i: nat := n - 1;
      RunReports(c, store, budget, sorted, i, mode, keys);
      NextReports(c, store, budget, sorted, i, mode, keys,
        Run(c.reg, c.client, store, budget, sorted, i, c.identity, mode, c.uid, keys));
    }
  }

  /** A batch that finishes reports each table, children first, by the rows the identity had in it when it began. */
  lemma AnonymizeReports(c: Case, store: Store, budget: nat, tables: seq<TableConfig>, mode: Mode, uid: Option<string>,
                         keys: map<UserField, string>, i: nat)
    requires WellFormed(c.reg) && Registered(c, tables) && DistinctModels(ChildrenFirst(tables))
      && uid.GetOr("") == c.uid
    requires i < |ChildrenFirst(tables)|
    ensures var b := AnonymizeBatch(c.reg, c.client, store, budget, tables, c.identity, mode, uid, keys);
      var t := ChildrenFirst(tables)[i];
      b.stopped.None? ==>
        && |b.summary| == |tables| && i < |b.summary|
        && Reports(c.client, t, mode, t.userField in keys,
                   RowsFound(c.client, store.rows, t, KeyIn(keys, t.userField)), b.summary[i])
  {
    SameBatch(c, tables);
    ChildrenFirstSorts(tables);
    RunReports(c, store, budget, ChildrenFirst(tables), |tables|, mode, keys);
  }

  /** Why a batch stopped, if it did. */
  ghost predicate StoppedFor(c: Case, store: Store, sorted: seq<TableConfig>, mode: Mode, keys: map<UserField, string>,
                             b: Batch)
  {
    && (b.stopped == Some(Crashed) ==> b.budget == 0)
    && b.stopped != Some(NoSuspensionUid)
    && (b.stopped == Some(BackupExists) ==>
          mode == SuspendMode
          && exists t :: t in sorted && BackupKey(c.uid, t.modelName) in store.backups
                         && RowsFound(c.client, store.rows, t, KeyIn(keys, t.userField)) > 0)
  }

  lemma TurnStops(c: Case, store: Store, budget: nat, t: TableConfig, mode: Mode, key: Option<string>)
    ensures var turn := Process(c.reg, c.client, store, budget, t, c.identity, mode, c.uid, key);
      turn.outcome.TableStopped? ==>
        && (turn.outcome.reason == Crashed ==> turn.budget == 0)
        && turn.outcome.reason != NoSuspensionUid
        && (turn.outcome.reason == BackupExists ==> Clashes(c.client, store, mode, c.uid, t, key))
  {
  }

  /** A batch that stopped has died, or come upon a table with rows and a backup of the suspension already. */
  lemma {:induction false} RunStopsFor(c: Case, store: Store, budget: nat, sorted: seq<TableConfig>, n: nat, mode: Mode,
                                       keys: map<UserField, string>)
    requires WellFormed(c.reg) && Registered(c, sorted) && Sorted(sorted) && DistinctModels(sorted) && n <= |sorted|
    ensures StoppedFor(c, store, sorted, mode, keys,
              Run(c.reg, c.client, store, budget, sorted, n, c.identity, mode, c.uid, keys))
  {
    if n == 0 {
    } else {
      var i: nat := n - 1;
      RunStopsFor(c, store, budget, sorted, i, mode, keys);
      NextStopsFor(c, store, budget, sorted, i, mode, keys,
        Run(c.reg, c.client, store, budget, sorted, i, c.identity, mode, c.uid, keys));
    }
  }

  lemma NextStopsFor(c: Case, store: Store, budget: nat, sorted: seq<TableConfig>, i: nat, mode: Mode,
                     keys: map<UserField, string>, b: Batch)
    requires WellFormed(c.reg) && Registered(c, sorted) && Sorted(sorted) && DistinctModels(sorted) && i < |sorted|
    requires b == Run(c.reg, c.client, store, budget, sorted, i, c.identity, mode, c.uid, keys)
    requires StoppedFor(c, store, sorted, mode, keys, b)
    ensures StoppedFor(c, store, sorted, mode, keys,
              Run(c.reg, c.client, store, budget, sorted, i + 1, c.identity, mode, c.uid, keys))
  {
    var t, key := sorted[i], KeyIn(keys, sorted[i].userField);
    if b.stopped.None? {
      var turn := Process(c.reg, c.client, b.store, b.budget, t, c.identity, mode, c.uid, key);
      RunTurn(c.reg, c.client, store, budget, sorted, i, c.identity, mode, c.uid, keys, b, turn);
      TurnStops(c, b.store, b.budget, t, mode, key);
      TurnFinds(c, store, budget, sorted, i, mode, keys);
      assert t in sorted;
    }
  }
}
