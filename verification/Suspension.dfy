/**
  Suspending an identity's data and recovering it: tables are processed children first, each backed
  up before it is touched, and backups are restored parents first. The process may stop before any
  statement, by a crash or by an error the source does not catch.
*/
module Suspension {
  import opened Options
  import opened SuspensionStore

  datatype Strategy = Delete | Anonymize

  datatype Replacement = ToNull | ToRandom | ToFixed

  datatype TableConfig = TableConfig(modelName: string, tableName: string, userField: UserField,
                                     strategy: Strategy, piiFields: seq<string>, replacement: Replacement)

  datatype Action = Deleted | Anonymized | Skipped

  datatype TableSummary = TableSummary(table: string, rows: nat, backedUp: bool, mode: Mode, action: Action)

  datatype Reason = Crashed | BackupExists | NoSuspensionUid

  datatype TableOutcome = TableDone(summary: TableSummary) | TableStopped(reason: Reason)

  /** budget is how many more statements the process lives to execute. */
  datatype Turn = Turn(store: Store, budget: nat, outcome: TableOutcome)

  datatype Batch = Batch(store: Store, budget: nat, summary: seq<TableSummary>, totalRowsAffected: nat,
    stopped: Option<Reason>)

  function Placeholder(replacement: Replacement, mode: Mode): Value {
    match replacement
    case ToNull => Null
    case ToRandom => RandomText(mode)
    case ToFixed => FixedText(mode)
  }

  function PiiData(t: TableConfig, mode: Mode): map<string, Value> {
    map f | f in t.piiFields :: Placeholder(t.replacement, mode)
  }

  // ---------------------------------------------------------------------------------------------
  // Order of the tables
  // ---------------------------------------------------------------------------------------------

  /** The tables of one group, in the order given. */
  function Group(tables: seq<TableConfig>, children: bool): (r: seq<TableConfig>)
    ensures forall t :: t in r <==> t in tables && (t.userField != IdentityId) == children
    ensures |r| <= |tables|
  {
    if tables == [] then []
    else
      var last := tables[|tables| - 1];
      Group(tables[..|tables| - 1], children) + if (last.userField != IdentityId) == children then [last] else []
  }

  function ChildrenFirst(tables: seq<TableConfig>): seq<TableConfig> {
    Group(tables, true) + Group(tables, false)
  }

  lemma GroupsGrow(pre: seq<TableConfig>, last: TableConfig, a: seq<TableConfig>, b: seq<TableConfig>)
    requires multiset(pre) == multiset(a) + multiset(b)
    ensures multiset(pre + [last]) == multiset(a + [last]) + multiset(b)
    ensures multiset(pre + [last]) == multiset(a) + multiset(b + [last])
  {
  }

  lemma GroupsOneMore(tables: seq<TableConfig>, pre: seq<TableConfig>, last: TableConfig)
    requires tables == pre + [last]
    ensures Group(tables, true) == Group(pre, true) + if last.userField != IdentityId then [last] else []
    ensures Group(tables, false) == Group(pre, false) + if last.userField != IdentityId then [] else [last]
  {
    assert tables[..|tables| - 1] == pre;
  }

  lemma {:induction false} GroupsCover(tables: seq<TableConfig>)
    ensures multiset(tables) == multiset(Group(tables, true)) + multiset(Group(tables, false))
  {
    if tables == [] {
    } else {
      var pre, last := tables[..|tables| - 1], tables[|tables| - 1];
      GroupsCover(pre);
      assert tables == pre + [last];
      GroupsOneMore(tables, pre, last);
      GroupsGrow(pre, last, Group(pre, true), Group(pre, false));
    }
  }

  /** The sort loses and repeats nothing, and no child table follows a parent table. */
  lemma ChildrenFirstSorts(tables: seq<TableConfig>)
    ensures multiset(ChildrenFirst(tables)) == multiset(tables)
    ensures |ChildrenFirst(tables)| == |tables|
    ensures forall i, j :: 0 <= i < j < |ChildrenFirst(tables)| && ChildrenFirst(tables)[j].userField != IdentityId ==>
              ChildrenFirst(tables)[i].userField != IdentityId
    ensures forall t :: t in ChildrenFirst(tables) <==> t in tables
  {
    GroupsCover(tables);
    var sorted := ChildrenFirst(tables);
    assert |sorted| == |multiset(sorted)| && |tables| == |multiset(tables)|;
    var split := |Group(tables, true)|;
    forall i | 0 <= i < |sorted| ensures (sorted[i].userField != IdentityId) == (i < split) {
      if i < split {
        assert sorted[i] in Group(tables, true);
      } else {
        assert sorted[i] in Group(tables, false);
      }
    }
  }

  // ---------------------------------------------------------------------------------------------
  // Keys
  // ---------------------------------------------------------------------------------------------

  /** The key a user field resolves to in a database; an empty key counts as none. */
  ghost predicate ResolvesTo(reg: Registry, rows: Rows, userField: UserField, identity: string, key: Option<string>) {
    if userField == NotificationProfileId then
      && (key.Some? ==>
            key.value != "" && Matches(rows, RowId(reg.profileModel, key.value), reg.profileModel, identity))
      && (key.None? ==> forall r :: r in rows && Matches(rows, r, reg.profileModel, identity) ==> r.id == "")
    else key == if identity == "" then None else Some(identity)
  }

  function KeyIn(keys: map<UserField, string>, userField: UserField): Option<string> {
    if userField in keys then Some(keys[userField]) else None
  }

  ghost predicate Resolved(reg: Registry, rows: Rows, tables: seq<TableConfig>, identity: string,
                           keys: map<UserField, string>) {
    forall t :: t in tables ==> ResolvesTo(reg, rows, t.userField, identity, KeyIn(keys, t.userField))
  }

  // ---------------------------------------------------------------------------------------------
  // What a batch must satisfy
  // ---------------------------------------------------------------------------------------------

  ghost predicate Registered(c: Case, tables: seq<TableConfig>) {
    forall t :: t in tables ==> t.modelName in c.reg.userField && c.reg.userField[t.modelName] == t.userField
  }

  /** The rows a table's turn removes, if it is deleted: those that match, and the channels of a deleted profile. */
  function Removal(reg: Registry, client: set<string>, rows: Rows, t: TableConfig,
                   keys: map<UserField, string>): set<RowId> {
    if t.strategy == Delete && t.modelName in client && t.userField in keys
    then Doomed(reg, rows, t.modelName, keys[t.userField])
    else {}
  }

  /** The model's own table comes no later than position i. */
  ghost predicate ComesBy(c: Case, sorted: seq<TableConfig>, i: nat, model: string) {
    model in c.client && exists j :: 0 <= j <= i && j < |sorted| && sorted[j].modelName == model
  }

  /** A row of the identity without an unused backup that the i-th table's turn removes or unlinks. */
  ghost predicate TouchedAt(c: Case, store: Store, sorted: seq<TableConfig>, keys: map<UserField, string>, i: nat,
                            r: RowId) {
    && i < |sorted| && Mine(c, r) && !Held(store, c.uid, r.model)
    && Touched(store.rows, Removal(c.reg, c.client, store.rows, sorted[i], keys), r)
  }

  /** Whatever of the identity a turn touches is in an unused backup when the batch begins, or is backed up by then. */
  ghost predicate CoveredInTime(c: Case, store: Store, sorted: seq<TableConfig>, keys: map<UserField, string>) {
    forall i: nat, r {:trigger TouchedAt(c, store, sorted, keys, i, r)} ::
      TouchedAt(c, store, sorted, keys, i, r) ==> ComesBy(c, sorted, i, r.model)
  }

  /** A batch that deletes the profile holds the tables of the channels that are in no backup yet. */
  ghost predicate Closed(c: Case, store: Store, tables: seq<TableConfig>) {
    (exists t :: t in tables && t.strategy == Delete && t.modelName == c.reg.profileModel) ==>
      forall r :: r in store.rows && Mine(c, r) && IsChannel(c.reg, r.model) && !Held(store, c.uid, r.model) ==>
        r.model in c.client && exists t :: t in tables && t.modelName == r.model
  }

  ghost predicate LinkedAt(c: Case, store: Store, sorted: seq<TableConfig>, keys: map<UserField, string>, i: nat,
                           r: RowId) {
    && i < |sorted| && r in store.rows && Mine(c, r) && !Held(store, c.uid, r.model) && store.rows[r].link.Some?
    && store.rows[r].link.value in Removal(c.reg, c.client, store.rows, sorted[i], keys)
  }

  /**
    References of the identity's rows without a backup into what the batch removes come from tables that are processed
    first.
  */
  ghost predicate LinksInTime(c: Case, store: Store, sorted: seq<TableConfig>, keys: map<UserField, string>) {
    forall i: nat, r {:trigger LinkedAt(c, store, sorted, keys, i, r)} ::
      LinkedAt(c, store, sorted, keys, i, r) ==> ComesBy(c, sorted, i, r.model)
  }

  /** The rows of the table are in an unused backup, or there are none. */
  ghost predicate Snapshotted(c: Case, store: Store, model: string) {
    Held(store, c.uid, model) || forall r :: Mine(c, r) ==> r.model != model
  }

  /** The table can be deleted as soon as it is in an unused backup itself. */
  ghost predicate Ready(c: Case, store: Store, model: string, key: string) {
    var gone := Doomed(c.reg, store.rows, model, key);
    forall r :: Touched(store.rows, gone, r) && Mine(c, r) ==> r.model == model || Held(store, c.uid, r.model)
  }

  /** Fewer rows than before, and fewer references. */
  ghost predicate Shrinks(before: Rows, after: Rows) {
    forall r {:trigger r in after} :: r in after ==>
      r in before && after[r].key == before[r].key && (after[r].link == before[r].link || after[r].link == None)
  }

  lemma ShrinksTouched(reg: Registry, before: Rows, after: Rows, model: string, key: string, r: RowId)
    requires Shrinks(before, after) && Touched(after, Doomed(reg, after, model, key), r)
    ensures Touched(before, Doomed(reg, before, model, key), r)
  {
    forall q | q in Doomed(reg, after, model, key) ensures q in Doomed(reg, before, model, key) {
    }
  }

  /** The tables as the identity's data is to be left. */
  ghost predicate Processed(rows: Rows, t: TableConfig, key: string, mode: Mode) {
    forall r {:trigger Matches(rows, r, t.modelName, key)} :: Matches(rows, r, t.modelName, key) ==>
      t.strategy == Anonymize && forall f :: f in t.piiFields ==>
        f in rows[r].fields && rows[r].fields[f] == Placeholder(t.replacement, mode)
  }

  lemma DeleteProcesses(reg: Registry, rows: Rows, t: TableConfig, key: string, mode: Mode)
    ensures t.strategy == Delete ==> Processed(DeleteRows(reg, rows, t.modelName, key), t, key, mode)
  {
    var after := DeleteRows(reg, rows, t.modelName, key);
    forall r | r in after ensures !Matches(after, r, t.modelName, key) {
      assert !Matches(rows, r, t.modelName, key);
    }
  }

  lemma AnonymizeProcesses(rows: Rows, t: TableConfig, key: string, mode: Mode)
    requires t.strategy == Anonymize
    ensures Processed(AnonymizeRows(rows, t.modelName, key, PiiData(t, mode)), t, key, mode)
  {
    var after := AnonymizeRows(rows, t.modelName, key, PiiData(t, mode));
    forall r | r in after && Matches(after, r, t.modelName, key)
      ensures forall f :: f in t.piiFields ==>
        f in after[r].fields && after[r].fields[f] == Placeholder(t.replacement, mode)
    {
      assert Matches(rows, r, t.modelName, key);
    }
  }

  /** Later statements never bring the data of a processed table back. */
  lemma StaysProcessed(reg: Registry, rows: Rows, q: TableConfig, k: string, model: string, key: string,
                       data: map<string, Value>, mode: Mode)
    requires Processed(rows, q, k, mode) && q.modelName != model
    ensures Processed(DeleteRows(reg, rows, model, key), q, k, mode)
    ensures Processed(AnonymizeRows(rows, model, key, data), q, k, mode)
  {
    var deleted := DeleteRows(reg, rows, model, key);
    forall r | r in deleted && Matches(deleted, r, q.modelName, k)
      ensures Matches(rows, r, q.modelName, k) && deleted[r].fields == rows[r].fields {
    }
    var anonymized := AnonymizeRows(rows, model, key, data);
    forall r | r in anonymized && Matches(anonymized, r, q.modelName, k)
      ensures Matches(rows, r, q.modelName, k) && anonymized[r] == rows[r] {
    }
  }

  // ---------------------------------------------------------------------------------------------
  // One table
  // ---------------------------------------------------------------------------------------------

  function Summarize(t: TableConfig, mode: Mode, rows: nat, backedUp: bool, action: Action): TableOutcome {
    TableDone(TableSummary(t.tableName, rows, backedUp, mode, action))
  }

  function Changed(reg: Registry, rows: Rows, t: TableConfig, mode: Mode, key: string): Rows {
    if t.strategy == Delete then DeleteRows(reg, rows, t.modelName, key)
    else AnonymizeRows(rows, t.modelName, key, PiiData(t, mode))
  }

  /** Delete or anonymize the rows of a table. */
  function Apply(reg: Registry, store: Store, budget: nat, t: TableConfig, mode: Mode, key: string): Turn {
    var count := |Load(store.rows, t.modelName, key)|;
    if t.strategy == Anonymize && t.piiFields == []
      then Turn(store, budget, Summarize(t, mode, count, mode == SuspendMode, Skipped))
    else if budget == 0 then Turn(store, 0, TableStopped(Crashed))
    else
      Turn(store.(rows := Changed(reg, store.rows, t, mode, key)), budget - 1,
           Summarize(t, mode, count, mode == SuspendMode, if t.strategy == Delete then Deleted else Anonymized))
  }

  /** A table with rows: back them up first when suspending. */
  function BackUpAndApply(reg: Registry, store: Store, budget: nat, t: TableConfig, identity: string, mode: Mode,
                          uid: string, key: string): Turn {
    if mode == DeleteMode then Apply(reg, store, budget, t, mode, key)
    else if budget == 0 then Turn(store, 0, TableStopped(Crashed))
    else if BackupKey(uid, t.modelName) in store.backups then Turn(store, budget - 1, TableStopped(BackupExists))
    else
      var saved := SaveBackup(store, uid, identity, t.modelName, Load(store.rows, t.modelName, key));
      Apply(reg, saved, budget - 1, t, mode, key)
  }

  /** One table's turn. */
  function Process(reg: Registry, client: set<string>, store: Store, budget: nat, t: TableConfig,
                   identity: string, mode: Mode, uid: string, key: Option<string>): Turn {
    if key.None? || t.modelName !in client then Turn(store, budget, Summarize(t, mode, 0, false, Skipped))
    else if |Load(store.rows, t.modelName, key.value)| == 0 then
      Turn(store, budget, Summarize(t, mode, 0, mode == SuspendMode, Skipped))
    else BackUpAndApply(reg, store, budget, t, identity, mode, uid, key.value)
  }

  lemma ApplyRecoverable(c: Case, store: Store, budget: nat, t: TableConfig, mode: Mode, key: string)
    requires Sound(c.reg, c.orig) && Recoverable(c, store) && KeyOf(c, t.modelName, key)
    requires Held(store, c.uid, t.modelName)
    requires t.strategy == Delete ==> Ready(c, store, t.modelName, key)
    ensures Recoverable(c, Apply(c.reg, store, budget, t, mode, key).store)
  {
    if t.strategy == Delete {
      DeleteRecoverable(c, store, t.modelName, key);
    } else {
      AnonymizeRecoverable(c, store, t.modelName, key, PiiData(t, mode));
    }
  }

  /** A new backup takes nothing away. */
  lemma SavedHolds(c: Case, store: Store, model: string, data: map<string, Row>)
    requires BackupKey(c.uid, model) !in store.backups
    ensures var saved := SaveBackup(store, c.uid, c.identity, model, data);
      && Held(saved, c.uid, model) && saved.rows == store.rows
      && forall m :: Held(store, c.uid, m) ==> Held(saved, c.uid, m)
  {
  }

  lemma ReadyOn(c: Case, store: Store, saved: Store, model: string, key: string)
    requires Ready(c, store, model, key) && saved.rows == store.rows
    requires forall m :: Held(store, c.uid, m) ==> Held(saved, c.uid, m)
    ensures Ready(c, saved, model, key)
  {
  }

  lemma ApplyKeepsBackups(reg: Registry, store: Store, budget: nat, t: TableConfig, mode: Mode, key: string)
    ensures Apply(reg, store, budget, t, mode, key).store.backups == store.backups
  {
  }

  /** A table that has been backed up in its turn. */
  lemma SavedRecoverable(c: Case, store: Store, budget: nat, t: TableConfig, key: string, saved: Store)
    requires Sound(c.reg, c.orig) && Recoverable(c, store) && KeyOf(c, t.modelName, key)
    requires t.strategy == Delete ==> Ready(c, store, t.modelName, key)
    requires BackupKey(c.uid, t.modelName) !in store.backups && t.modelName in c.client
    requires saved == SaveBackup(store, c.uid, c.identity, t.modelName, Load(store.rows, t.modelName, key))
    ensures var turn := Apply(c.reg, saved, budget, t, SuspendMode, key);
      Recoverable(c, turn.store) && Held(turn.store, c.uid, t.modelName)
  {
    SaveRecoverable(c, store, t.modelName, key);
    SavedHolds(c, store, t.modelName, Load(store.rows, t.modelName, key));
    if t.strategy == Delete {
      ReadyOn(c, store, saved, t.modelName, key);
    }
    ApplyRecoverable(c, saved, budget, t, SuspendMode, key);
    ApplyKeepsBackups(c.reg, saved, budget, t, SuspendMode, key);
  }

  /** Wherever a table's turn stops, the suspension stays recoverable; if it ends, the table is backed up or empty. */
  lemma ProcessRecoverable(c: Case, store: Store, budget: nat, t: TableConfig, key: Option<string>)
    requires Sound(c.reg, c.orig) && Recoverable(c, store)
    requires key.Some? ==> KeyOf(c, t.modelName, key.value)
    requires key.Some? && t.strategy == Delete && t.modelName in c.client ==> Ready(c, store, t.modelName, key.value)
    ensures var turn := Process(c.reg, c.client, store, budget, t, c.identity, SuspendMode, c.uid, key);
      && Recoverable(c, turn.store)
      && (turn.outcome.TableDone? && key.Some? && t.modelName in c.client ==> Snapshotted(c, turn.store, t.modelName))
  {
    if key.Some? && t.modelName in c.client {
      if |Load(store.rows, t.modelName, key.value)| == 0 {
        NothingLoaded(c, store, t.modelName, key.value);
      } else if budget > 0 && BackupKey(c.uid, t.modelName) !in store.backups {
        SavedRecoverable(c, store, budget - 1, t, key.value,
                         SaveBackup(store, c.uid, c.identity, t.modelName, Load(store.rows, t.modelName, key.value)));
      }
    }
  }

  lemma NothingLoaded(c: Case, store: Store, model: string, key: string)
    requires Sound(c.reg, c.orig) && Recoverable(c, store) && KeyOf(c, model, key)
    requires |Load(store.rows, model, key)| == 0
    ensures Snapshotted(c, store, model)
  {
    if !Held(store, c.uid, model) {
      forall r | Mine(c, r) ensures r.model != model {
        if r.model == model {
          assert Unchanged(c.orig, store.rows, r);
          MatchesAreMine(c, store.rows, model, key, r);
          LoadFinds(store.rows, r, model, key);
        }
      }
    }
  }

  /** All a turn can do to the rows. */
  lemma ProcessCases(reg: Registry, client: set<string>, store: Store, budget: nat, t: TableConfig,
                     identity: string, mode: Mode, uid: string, key: Option<string>)
    ensures var rows := Process(reg, client, store, budget, t, identity, mode, uid, key).store.rows;
      rows == store.rows || (key.Some? && rows == Changed(reg, store.rows, t, mode, key.value))
  {
  }

  /** In either mode a turn touches nothing but the identity's rows, nullable references apart. */
  lemma ProcessOthersStay(c: Case, store: Store, budget: nat, t: TableConfig, mode: Mode, key: Option<string>)
    requires Sound(c.reg, c.orig) && OthersStay(c, store.rows)
    requires key.Some? ==> KeyOf(c, t.modelName, key.value)
    ensures OthersStay(c, Process(c.reg, c.client, store, budget, t, c.identity, mode, c.uid, key).store.rows)
  {
    ProcessCases(c.reg, c.client, store, budget, t, c.identity, mode, c.uid, key);
    if key.Some? {
      DeleteOthersStay(c, store.rows, t.modelName, key.value);
      AnonymizeOthersStay(c, store.rows, t.modelName, key.value, PiiData(t, mode));
    }
  }

  /** A turn that ends has deleted or anonymized the table. */
  lemma ProcessProcesses(reg: Registry, client: set<string>, store: Store, budget: nat, t: TableConfig,
                         identity: string, mode: Mode, uid: string, key: string)
    requires t.modelName in client
    ensures var turn := Process(reg, client, store, budget, t, identity, mode, uid, Some(key));
      turn.outcome.TableDone? ==> Processed(turn.store.rows, t, key, mode)
  {
    DeleteProcesses(reg, store.rows, t, key, mode);
    if t.strategy == Anonymize {
      AnonymizeProcesses(store.rows, t, key, mode);
    }
    if |Load(store.rows, t.modelName, key)| == 0 {
      forall r ensures !Matches(store.rows, r, t.modelName, key) {
        if Matches(store.rows, r, t.modelName, key) {
          LoadFinds(store.rows, r, t.modelName, key);
        }
      }
    }
  }

  /** The model's rows are the same ones, under the same keys. */
  ghost predicate SameRows(before: Rows, after: Rows, model: string) {
    forall r: RowId {:trigger r in before} {:trigger r in after} :: r.model == model ==>
      (r in before <==> r in after) && (r in before ==> after[r].key == before[r].key)
  }

  lemma ProcessLeaves(reg: Registry, client: set<string>, store: Store, budget: nat, t: TableConfig,
                      identity: string, mode: Mode, uid: string, key: Option<string>, model: string)
    requires model != t.modelName && !(t.modelName == reg.profileModel && IsChannel(reg, model))
    ensures SameRows(store.rows, Process(reg, client, store, budget, t, identity, mode, uid, key).store.rows, model)
  {
    ProcessCases(reg, client, store, budget, t, identity, mode, uid, key);
  }

  lemma ProcessKeepsProcessed(reg: Registry, client: set<string>, store: Store, budget: nat, t: TableConfig,
                              identity: string, mode: Mode, uid: string, key: Option<string>, q: TableConfig, k: string)
    requires q.modelName != t.modelName && Processed(store.rows, q, k, mode)
    ensures Processed(Process(reg, client, store, budget, t, identity, mode, uid, key).store.rows, q, k, mode)
  {
    if key.Some? {
      StaysProcessed(reg, store.rows, q, k, t.modelName, key.value, PiiData(t, mode), mode);
    }
  }

  /** A turn keeps every backup there is, and adds at most the table's own. */
  lemma ProcessBackups(reg: Registry, client: set<string>, store: Store, budget: nat, t: TableConfig,
                       identity: string, mode: Mode, uid: string, key: Option<string>)
    ensures var after := Process(reg, client, store, budget, t, identity, mode, uid, key).store.backups;
      || after == store.backups
      || (mode == SuspendMode && BackupKey(uid, t.modelName) !in store.backups && BackupKey(uid, t.modelName) in after
          && after == store.backups[BackupKey(uid, t.modelName) := after[BackupKey(uid, t.modelName)]])
  {
  }

  lemma ProcessKeepsHeld(reg: Registry, client: set<string>, store: Store, budget: nat, t: TableConfig,
                         identity: string, mode: Mode, uid: string, key: Option<string>, suspension: string,
                         model: string)
    requires Held(store, suspension, model)
    ensures Held(Process(reg, client, store, budget, t, identity, mode, uid, key).store, suspension, model)
  {
    ProcessBackups(reg, client, store, budget, t, identity, mode, uid, key);
  }

  // ---------------------------------------------------------------------------------------------
  // A batch
  // ---------------------------------------------------------------------------------------------

  /** The first n tables, one after the other, until one stops. */
  function Run(reg: Registry, client: set<string>, store: Store, budget: nat, sorted: seq<TableConfig>, n: nat,
               identity: string, mode: Mode, uid: string, keys: map<UserField, string>): Batch
    requires n <= |sorted|
  {
    if n == 0 then Batch(store, budget, [], 0, None)
    else
      var b := Run(reg, client, store, budget, sorted, n - 1, identity, mode, uid, keys);
      if b.stopped.Some? then b
      else
        var t := sorted[n - 1];
        var turn := Process(reg, client, b.store, b.budget, t, identity, mode, uid, KeyIn(keys, t.userField));
        AfterTurn(b, turn)
  }

  /** The batch after a turn. */
  function AfterTurn(b: Batch, turn: Turn): Batch {
    match turn.outcome
    case TableStopped(reason) => Batch(turn.store, turn.budget, b.summary, b.totalRowsAffected, Some(reason))
    case TableDone(s) => Batch(turn.store, turn.budget, b.summary + [s], b.totalRowsAffected + s.rows, None)
  }

  /** One more turn of a batch that has not stopped. */
  lemma RunTurn(reg: Registry, client: set<string>, store: Store, budget: nat, sorted: seq<TableConfig>, i: nat,
                identity: string, mode: Mode, uid: string, keys: map<UserField, string>, b: Batch, turn: Turn)
    requires i < |sorted| && b == Run(reg, client, store, budget, sorted, i, identity, mode, uid, keys)
      && b.stopped.None?
    requires turn == Process(reg, client, b.store, b.budget, sorted[i], identity, mode, uid,
      KeyIn(keys, sorted[i].userField))
    ensures Run(reg, client, store, budget, sorted, i + 1, identity, mode, uid, keys) == AfterTurn(b, turn)
  {
  }

  lemma StoppedStays(c: Case, store: Store, budget: nat, sorted: seq<TableConfig>, i: nat, mode: Mode,
                     keys: map<UserField, string>)
    requires i < |sorted| && Run(c.reg, c.client, store, budget, sorted, i, c.identity, mode, c.uid, keys).stopped.Some?
    ensures Run(c.reg, c.client, store, budget, sorted, i + 1, c.identity, mode, c.uid, keys)
         == Run(c.reg, c.client, store, budget, sorted, i, c.identity, mode, c.uid, keys)
  {
  }

  /** anonymize: keys were resolved before the first table. */
  function AnonymizeBatch(reg: Registry, client: set<string>, store: Store, budget: nat, tables: seq<TableConfig>,
                          identity: string, mode: Mode, suspensionUid: Option<string>,
                          keys: map<UserField, string>): Batch {
    if mode == SuspendMode && suspensionUid.GetOr("") == "" then Batch(store, budget, [], 0, Some(NoSuspensionUid))
    else
      ChildrenFirstSorts(tables);
      Run(reg, client, store, budget, ChildrenFirst(tables), |tables|, identity, mode, suspensionUid.GetOr(""), keys)
  }

  /** A key found at the start of the batch is the identity's. */
  lemma ResolvedIsKey(c: Case, rows: Rows, t: TableConfig, key: Option<string>)
    requires Sound(c.reg, c.orig) && OthersStay(c, rows)
    requires t.modelName in c.reg.userField && c.reg.userField[t.modelName] == t.userField
    requires ResolvesTo(c.reg, rows, t.userField, c.identity, key)
    ensures key.Some? ==> KeyOf(c, t.modelName, key.value)
  {
  }

  /** A channel that is still there has its profile, so the profile's id resolves. */
  lemma ProfileStillThere(c: Case, store: Store, r: RowId)
    requires Sound(c.reg, c.orig) && Recoverable(c, store) && Mine(c, r) && !Held(store, c.uid, r.model)
    ensures IsChannel(c.reg, r.model) ==>
              var p := ProfileOf(c.reg, c.orig[r]); Matches(store.rows, p, c.reg.profileModel, c.identity) && p.id != ""
  {
    assert Unchanged(c.orig, store.rows, r);
    assert Refers(c.reg, store.rows, r.model, store.rows[r]);
    assert IsChannel(c.reg, r.model) ==> IsProfile(c.reg, c.orig, ProfileOf(c.reg, c.orig[r]));
  }

  /** No key found: the identity's rows of the table were backed up before, or there never were any. */
  lemma UnresolvedIsSnapshotted(c: Case, store: Store, t: TableConfig)
    requires Sound(c.reg, c.orig) && Recoverable(c, store) && c.identity != ""
    requires t.modelName in c.reg.userField && c.reg.userField[t.modelName] == t.userField
    requires ResolvesTo(c.reg, store.rows, t.userField, c.identity, None)
    ensures Snapshotted(c, store, t.modelName)
  {
    if !Held(store, c.uid, t.modelName) {
      forall r | Mine(c, r) ensures r.model != t.modelName {
        if r.model == t.modelName {
          ProfileStillThere(c, store, r);
        }
      }
    }
  }

  lemma {:induction false} RunOthersStay(c: Case, store: Store, budget: nat, sorted: seq<TableConfig>, n: nat,
                                         mode: Mode, keys: map<UserField, string>)
    requires Sound(c.reg, c.orig) && OthersStay(c, store.rows) && Registered(c, sorted)
    requires Resolved(c.reg, store.rows, sorted, c.identity, keys) && n <= |sorted|
    ensures OthersStay(c, Run(c.reg, c.client, store, budget, sorted, n, c.identity, mode, c.uid, keys).store.rows)
  {
    if n == 0 {
    } else {
      var i: nat := n - 1;
      RunOthersStay(c, store, budget, sorted, i, mode, keys);
      var b := Run(c.reg, c.client, store, budget, sorted, i, c.identity, mode, c.uid, keys);
      var t := sorted[i];
      ResolvedIsKey(c, store.rows, t, KeyIn(keys, t.userField));
      ProcessOthersStay(c, b.store, b.budget, t, mode, KeyIn(keys, t.userField));
    }
  }

  /** Every table so far is in an unused backup, or has no rows. */
  ghost predicate AllSnapshotted(c: Case, store: Store, sorted: seq<TableConfig>, n: nat)
    requires n <= |sorted|
  {
    forall j :: 0 <= j < n && sorted[j].modelName in c.client ==> Snapshotted(c, store, sorted[j].modelName)
  }

  ghost predicate Sorted(sorted: seq<TableConfig>) {
    forall i, j :: 0 <= i < j < |sorted| && sorted[j].userField != IdentityId ==> sorted[i].userField != IdentityId
  }

  /**
    When its turn comes, everything of the identity a table's deletion can touch is backed up, but for its own rows.
  */
  lemma TurnIsReady(c: Case, store: Store, now: Store, sorted: seq<TableConfig>, keys: map<UserField, string>, i: nat)
    requires CoveredInTime(c, store, sorted, keys) && i < |sorted| && Shrinks(store.rows, now.rows)
    requires AllSnapshotted(c, now, sorted, i) && forall m :: Held(store, c.uid, m) ==> Held(now, c.uid, m)
    requires sorted[i].strategy == Delete && sorted[i].modelName in c.client && sorted[i].userField in keys
    ensures Ready(c, now, sorted[i].modelName, keys[sorted[i].userField])
  {
    var t, key := sorted[i], keys[sorted[i].userField];
    forall r | Touched(now.rows, Doomed(c.reg, now.rows, t.modelName, key), r) && Mine(c, r)
      ensures r.model == t.modelName || Held(now, c.uid, r.model)
    {
      ShrinksTouched(c.reg, store.rows, now.rows, t.modelName, key, r);
      if !Held(store, c.uid, r.model) {
        assert TouchedAt(c, store, sorted, keys, i, r);
        var j :| 0 <= j <= i && j < |sorted| && sorted[j].modelName == r.model;
        assert j < i ==> Snapshotted(c, now, sorted[j].modelName);
      }
    }
  }

  lemma SnapshottedOn(c: Case, store: Store, budget: nat, t: TableConfig, key: Option<string>, model: string)
    requires Snapshotted(c, store, model)
    ensures Snapshotted(c, Process(c.reg, c.client, store, budget, t, c.identity, SuspendMode, c.uid, key).store, model)
  {
    if Held(store, c.uid, model) {
      ProcessKeepsHeld(c.reg, c.client, store, budget, t, c.identity, SuspendMode, c.uid, key, c.uid, model);
    }
  }

  lemma ProcessShrinks(reg: Registry, client: set<string>, store: Store, budget: nat, t: TableConfig,
                       identity: string, mode: Mode, uid: string, key: Option<string>)
    ensures Shrinks(store.rows, Process(reg, client, store, budget, t, identity, mode, uid, key).store.rows)
  {
    ProcessCases(reg, client, store, budget, t, identity, mode, uid, key);
  }

  lemma ShrinksTwice(a: Rows, b: Rows, d: Rows)
    requires Shrinks(a, b) && Shrinks(b, d)
    ensures Shrinks(a, d)
  {
  }

  lemma {:induction false} RunShrinks(reg: Registry, client: set<string>, store: Store, budget: nat,
                                      sorted: seq<TableConfig>, n: nat, identity: string, mode: Mode, uid: string,
                                      keys: map<UserField, string>)
    requires n <= |sorted|
    ensures Shrinks(store.rows, Run(reg, client, store, budget, sorted, n, identity, mode, uid, keys).store.rows)
  {
    if n == 0 {
    } else {
      var i: nat := n - 1;
      RunShrinks(reg, client, store, budget, sorted, i, identity, mode, uid, keys);
      var b := Run(reg, client, store, budget, sorted, i, identity, mode, uid, keys);
      if b.stopped.None? {
        var key := KeyIn(keys, sorted[i].userField);
        ProcessShrinks(reg, client, b.store, b.budget, sorted[i], identity, mode, uid, key);
        ShrinksTwice(store.rows, b.store.rows,
                     Process(reg, client, b.store, b.budget, sorted[i], identity, mode, uid, key).store.rows);
      }
    }
  }

  /** The store after a batch that has come to position n. */
  function StoreAt(c: Case, store: Store, budget: nat, sorted: seq<TableConfig>, n: nat, mode: Mode,
                   keys: map<UserField, string>): Store
    requires n <= |sorted|
  {
    Run(c.reg, c.client, store, budget, sorted, n, c.identity, mode, c.uid, keys).store
  }

  lemma {:induction false} RunKeepsHeld(c: Case, store: Store, budget: nat, sorted: seq<TableConfig>, n: nat,
                                        mode: Mode, keys: map<UserField, string>, model: string)
    requires n <= |sorted| && Held(store, c.uid, model)
    ensures Held(StoreAt(c, store, budget, sorted, n, mode, keys), c.uid, model)
  {
    if n == 0 {
    } else {
      var i: nat := n - 1;
      RunKeepsHeld(c, store, budget, sorted, i, mode, keys, model);
      var b := Run(c.reg, c.client, store, budget, sorted, i, c.identity, mode, c.uid, keys);
      if b.stopped.None? {
        ProcessKeepsHeld(c.reg, c.client, b.store, b.budget, sorted[i], c.identity, mode, c.uid,
                         KeyIn(keys, sorted[i].userField), c.uid, model);
      }
    }
  }

  /** What a batch that has come to position n keeps. */
  ghost predicate Underway(c: Case, b: Batch, sorted: seq<TableConfig>, n: nat, keys: map<UserField, string>)
    requires n <= |sorted|
  {
    && Recoverable(c, b.store)
    && (forall t :: t in sorted && KeyIn(keys, t.userField).None? ==> Snapshotted(c, b.store, t.modelName))
    && (b.stopped.None? ==> AllSnapshotted(c, b.store, sorted, n))
  }

  /** What a turn has to show for the batch to stay recoverable. */
  ghost predicate TurnKept(c: Case, store: Store, turn: Turn, t: TableConfig) {
    && Recoverable(c, turn.store)
    && (forall m :: Snapshotted(c, store, m) ==> Snapshotted(c, turn.store, m))
    && (turn.outcome.TableDone? && t.modelName in c.client ==> Snapshotted(c, turn.store, t.modelName))
  }

  lemma UnderwayOn(c: Case, b: Batch, turn: Turn, sorted: seq<TableConfig>, i: nat, keys: map<UserField, string>)
    requires i < |sorted| && Underway(c, b, sorted, i, keys) && b.stopped.None? && TurnKept(c, b.store, turn, sorted[i])
    ensures Underway(c, AfterTurn(b, turn), sorted, i + 1, keys)
  {
  }

  /** One more table. */
  lemma TurnKeeps(c: Case, store: Store, b: Batch, sorted: seq<TableConfig>, i: nat, keys: map<UserField, string>,
                  key: Option<string>)
    requires Sound(c.reg, c.orig) && Registered(c, sorted) && i < |sorted| && CoveredInTime(c, store, sorted, keys)
    requires Underway(c, b, sorted, i, keys) && b.stopped.None? && Shrinks(store.rows, b.store.rows)
    requires forall m :: Held(store, c.uid, m) ==> Held(b.store, c.uid, m)
    requires key == KeyIn(keys, sorted[i].userField)
    requires key.Some? ==> KeyOf(c, sorted[i].modelName, key.value)
    ensures TurnKept(c, b.store, Process(c.reg, c.client, b.store, b.budget, sorted[i], c.identity, SuspendMode, c.uid,
      key), sorted[i])
  {
    var t := sorted[i];
    if key.Some? && t.strategy == Delete && t.modelName in c.client {
      TurnIsReady(c, store, b.store, sorted, keys, i);
    } else if key.None? {
      assert t in sorted;
    }
    ProcessRecoverable(c, b.store, b.budget, t, key);
    forall m | Snapshotted(c, b.store, m)
      ensures Snapshotted(c, Process(c.reg, c.client, b.store, b.budget, t, c.identity, SuspendMode, c.uid, key).store,
        m)
    {
      SnapshottedOn(c, b.store, b.budget, t, key, m);
    }
  }

  lemma RunBegins(c: Case, store: Store, budget: nat, sorted: seq<TableConfig>, keys: map<UserField, string>)
    requires Sound(c.reg, c.orig) && Recoverable(c, store) && c.identity != "" && Registered(c, sorted)
    requires Resolved(c.reg, store.rows, sorted, c.identity, keys)
    ensures Underway(c, Batch(store, budget, [], 0, None), sorted, 0, keys)
  {
    forall t | t in sorted && KeyIn(keys, t.userField).None? ensures Snapshotted(c, store, t.modelName) {
      UnresolvedIsSnapshotted(c, store, t);
    }
  }

  lemma RunGoesOn(c: Case, store: Store, budget: nat, sorted: seq<TableConfig>, i: nat, keys: map<UserField, string>,
                  b: Batch)
    requires Sound(c.reg, c.orig) && OthersStay(c, store.rows) && Registered(c, sorted)
      && CoveredInTime(c, store, sorted, keys)
    requires Resolved(c.reg, store.rows, sorted, c.identity, keys) && i < |sorted|
    requires b == Run(c.reg, c.client, store, budget, sorted, i, c.identity, SuspendMode, c.uid, keys)
    requires Underway(c, b, sorted, i, keys) && b.stopped.None?
    ensures Underway(c, Run(c.reg, c.client, store, budget, sorted, i + 1, c.identity, SuspendMode, c.uid, keys),
      sorted, i + 1, keys)
  {
    var t := sorted[i];
    var key := KeyIn(keys, t.userField);
    RunShrinks(c.reg, c.client, store, budget, sorted, i, c.identity, SuspendMode, c.uid, keys);
    forall m | Held(store, c.uid, m) ensures Held(b.store, c.uid, m) {
      RunKeepsHeld(c, store, budget, sorted, i, SuspendMode, keys, m);
    }
    ResolvedIsKey(c, store.rows, t, key);
    TurnKeeps(c, store, b, sorted, i, keys, key);
    var turn := Process(c.reg, c.client, b.store, b.budget, t, c.identity, SuspendMode, c.uid, key);
    UnderwayOn(c, b, turn, sorted, i, keys);
    RunTurn(c.reg, c.client, store, budget, sorted, i, c.identity, SuspendMode, c.uid, keys, b, turn);
  }

  /** Stopped anywhere, a batch leaves the suspension recoverable. */
  lemma {:induction false} RunRecoverable(c: Case, store: Store, budget: nat, sorted: seq<TableConfig>, n: nat,
                                          keys: map<UserField, string>)
    requires Sound(c.reg, c.orig) && Recoverable(c, store) && c.identity != ""
    requires Registered(c, sorted) && CoveredInTime(c, store, sorted, keys)
    requires Resolved(c.reg, store.rows, sorted, c.identity, keys) && n <= |sorted|
    ensures Underway(c, Run(c.reg, c.client, store, budget, sorted, n, c.identity, SuspendMode, c.uid, keys), sorted, n,
      keys)
  {
    if n == 0 {
      RunBegins(c, store, budget, sorted, keys);
    } else {
      var i: nat := n - 1;
      RunRecoverable(c, store, budget, sorted, i, keys);
      var b := Run(c.reg, c.client, store, budget, sorted, i, c.identity, SuspendMode, c.uid, keys);
      if b.stopped.None? {
        RunGoesOn(c, store, budget, sorted, i, keys, b);
      }
    }
  }

  // ---------------------------------------------------------------------------------------------
  // A batch that finishes
  // ---------------------------------------------------------------------------------------------

  ghost predicate DistinctModels(tables: seq<TableConfig>) {
    forall i, j :: 0 <= i < j < |tables| ==> tables[i].modelName != tables[j].modelName
  }

  lemma SameLoad(before: Rows, after: Rows, model: string, key: string)
    requires SameRows(before, after, model)
    ensures |Load(before, model, key)| == |Load(after, model, key)|
  {
    var a, b := Load(before, model, key), Load(after, model, key);
    forall id ensures id in a <==> id in b {
      var r := RowId(model, id);
      assert r in before <==> r in after;
    }
    assert a.Keys == b.Keys;
    assert |a| == |a.Keys| && |b| == |b.Keys|;
  }

  /** The table still to come, j, is as it was, and has a backup only if it had one. */
  ghost predicate IsLeftAt(c: Case, store: Store, budget: nat, sorted: seq<TableConfig>, n: nat, mode: Mode,
                           keys: map<UserField, string>, model: string)
    requires n <= |sorted|
  {
    var now := Run(c.reg, c.client, store, budget, sorted, n, c.identity, mode, c.uid, keys).store;
    && SameRows(store.rows, now.rows, model)
    && (BackupKey(c.uid, model) in now.backups <==> BackupKey(c.uid, model) in store.backups)
  }

  lemma NextLeaves(c: Case, store: Store, budget: nat, sorted: seq<TableConfig>, i: nat, mode: Mode,
                   keys: map<UserField, string>, j: nat)
    requires WellFormed(c.reg) && Registered(c, sorted) && Sorted(sorted) && DistinctModels(sorted) && i < j < |sorted|
    requires IsLeftAt(c, store, budget, sorted, i, mode, keys, sorted[j].modelName)
    ensures IsLeftAt(c, store, budget, sorted, i + 1, mode, keys, sorted[j].modelName)
  {
    var b := Run(c.reg, c.client, store, budget, sorted, i, c.identity, mode, c.uid, keys);
    var t, key := sorted[i], KeyIn(keys, sorted[i].userField);
    assert t in sorted && sorted[j] in sorted;
    if b.stopped.None? {
      var turn := Process(c.reg, c.client, b.store, b.budget, t, c.identity, mode, c.uid, key);
      RunTurn(c.reg, c.client, store, budget, sorted, i, c.identity, mode, c.uid, keys, b, turn);
      ProcessLeaves(c.reg, c.client, b.store, b.budget, t, c.identity, mode, c.uid, key, sorted[j].modelName);
      ProcessBackups(c.reg, c.client, b.store, b.budget, t, c.identity, mode, c.uid, key);
      SameRowsTwice(store.rows, b.store.rows, turn.store.rows, sorted[j].modelName);
    } else {
      StoppedStays(c, store, budget, sorted, i, mode, keys);
    }
  }

  /** The batch has not touched the tables still to come. */
  lemma {:induction false} RunLeaves(c: Case, store: Store, budget: nat, sorted: seq<TableConfig>, n: nat, mode: Mode,
                                     keys: map<UserField, string>, j: nat)
    requires WellFormed(c.reg) && Registered(c, sorted) && Sorted(sorted) && DistinctModels(sorted) && n <= j < |sorted|
    ensures IsLeftAt(c, store, budget, sorted, n, mode, keys, sorted[j].modelName)
  {
    if n == 0 {
    } else {
      var i: nat := n - 1;
      RunLeaves(c, store, budget, sorted, i, mode, keys, j);
      NextLeaves(c, store, budget, sorted, i, mode, keys, j);
    }
  }

  lemma SameRowsTwice(a: Rows, b: Rows, d: Rows, model: string)
    requires SameRows(a, b, model) && SameRows(b, d, model)
    ensures SameRows(a, d, model)
  {
    forall r: RowId | r.model == model
      ensures (r in a <==> r in d) && (r in a ==> d[r].key == a[r].key)
    {
      assert r in a <==> r in b;
      assert r in b <==> r in d;
    }
  }

  function RowsFound(client: set<string>, rows: Rows, t: TableConfig, key: Option<string>): nat {
    if key.Some? && t.modelName in client then |Load(rows, t.modelName, key.value)| else 0
  }

  /** A table with rows already has a backup under this suspension. */
  predicate Clashes(client: set<string>, store: Store, mode: Mode, uid: string, t: TableConfig, key: Option<string>) {
    mode == SuspendMode && RowsFound(client, store.rows, t, key) > 0 && BackupKey(uid, t.modelName) in store.backups
  }

  /** When its turn comes a table still has the rows, and the backup or not, it had when the batch began. */
  lemma TurnFinds(c: Case, store: Store, budget: nat, sorted: seq<TableConfig>, i: nat, mode: Mode,
                  keys: map<UserField, string>)
    requires WellFormed(c.reg) && Registered(c, sorted) && Sorted(sorted) && DistinctModels(sorted) && i < |sorted|
    ensures var now := Run(c.reg, c.client, store, budget, sorted, i, c.identity, mode, c.uid, keys).store;
      var t, key := sorted[i], KeyIn(keys, sorted[i].userField);
      && RowsFound(c.client, now.rows, t, key) == RowsFound(c.client, store.rows, t, key)
      && (Clashes(c.client, now, mode, c.uid, t, key) <==> Clashes(c.client, store, mode, c.uid, t, key))
  {
    RunLeaves(c, store, budget, sorted, i, mode, keys, i);
    var key := KeyIn(keys, sorted[i].userField);
    if key.Some? {
      SameLoad(store.rows, Run(c.reg, c.client, store, budget, sorted, i, c.identity, mode, c.uid, keys).store.rows,
               sorted[i].modelName, key.value);
    }
  }

  lemma ProcessStops(reg: Registry, client: set<string>, store: Store, budget: nat, t: TableConfig,
                     identity: string, mode: Mode, uid: string, key: Option<string>)
    requires budget >= 2
    ensures var turn := Process(reg, client, store, budget, t, identity, mode, uid, key);
      && (turn.outcome.TableStopped? <==> Clashes(client, store, mode, uid, t, key))
      && turn.budget >= budget - 2
  {
  }

  predicate NoClash(c: Case, store: Store, sorted: seq<TableConfig>, n: nat, mode: Mode, keys: map<UserField, string>)
    requires n <= |sorted|
  {
    n == 0 || (NoClash(c, store, sorted, n - 1, mode, keys)
               && !Clashes(c.client, store, mode, c.uid, sorted[n - 1], KeyIn(keys, sorted[n - 1].userField)))
  }

  lemma {:induction false} NoClashAnywhere(c: Case, store: Store, sorted: seq<TableConfig>, n: nat, mode: Mode,
                                           keys: map<UserField, string>)
    requires n <= |sorted|
    ensures NoClash(c, store, sorted, n, mode, keys)
       <==> forall t :: t in sorted[..n] ==> !Clashes(c.client, store, mode, c.uid, t, KeyIn(keys, t.userField))
  {
    if n == 0 {
    } else {
      var i: nat := n - 1;
      NoClashAnywhere(c, store, sorted, i, mode, keys);
      assert sorted[..n] == sorted[..i] + [sorted[i]];
    }
  }

  lemma TurnFinishes(c: Case, store: Store, budget: nat, sorted: seq<TableConfig>, i: nat, mode: Mode,
                     keys: map<UserField, string>, b: Batch)
    requires WellFormed(c.reg) && Registered(c, sorted) && Sorted(sorted) && DistinctModels(sorted) && i < |sorted|
    requires b == Run(c.reg, c.client, store, budget, sorted, i, c.identity, mode, c.uid, keys)
    requires b.stopped.None? && b.budget >= 2
    ensures var after := Run(c.reg, c.client, store, budget, sorted, i + 1, c.identity, mode, c.uid, keys);
      && (after.stopped.Some? <==> Clashes(c.client, store, mode, c.uid, sorted[i], KeyIn(keys, sorted[i].userField)))
      && after.budget >= b.budget - 2
  {
    var t, key := sorted[i], KeyIn(keys, sorted[i].userField);
    var turn := Process(c.reg, c.client, b.store, b.budget, t, c.identity, mode, c.uid, key);
    TurnFinds(c, store, budget, sorted, i, mode, keys);
    RunTurn(c.reg, c.client, store, budget, sorted, i, c.identity, mode, c.uid, keys, b, turn);
    ProcessStops(c.reg, c.client, b.store, b.budget, t, c.identity, mode, c.uid, key);
  }

  /** Left alive, a batch finishes exactly if no table with rows has a backup of the suspension already. */
  lemma {:induction false} RunFinishes(c: Case, store: Store, budget: nat, sorted: seq<TableConfig>, n: nat, mode: Mode,
                                       keys: map<UserField, string>)
    requires WellFormed(c.reg) && Registered(c, sorted) && Sorted(sorted) && DistinctModels(sorted) && n <= |sorted|
    requires budget >= 2 * n
    ensures var b := Run(c.reg, c.client, store, budget, sorted, n, c.identity, mode, c.uid, keys);
      && (b.stopped.None? <==> NoClash(c, store, sorted, n, mode, keys))
      && (b.stopped.None? ==> b.budget >= budget - 2 * n)
  {
    if n == 0 {
    } else {
      var i: nat := n - 1;
      RunFinishes(c, store, budget, sorted, i, mode, keys);
      var b := Run(c.reg, c.client, store, budget, sorted, i, c.identity, mode, c.uid, keys);
      if b.stopped.None? {
        TurnFinishes(c, store, budget, sorted, i, mode, keys, b);
      }
    }
  }

  /** If the batch has come to position n without stopping, table j is as it is to be left. */
  ghost predicate IsProcessedAt(c: Case, store: Store, budget: nat, sorted: seq<TableConfig>, n: nat, mode: Mode,
                                keys: map<UserField, string>, j: nat)
    requires j < |sorted| && n <= |sorted|
  {
    var b := Run(c.reg, c.client, store, budget, sorted, n, c.identity, mode, c.uid, keys);
    b.stopped.None? && sorted[j].userField in keys ==>
      Processed(b.store.rows, sorted[j], keys[sorted[j].userField], mode)
  }

  /** The turn of a table processes it and leaves those before it processed. */
  lemma TurnProcesses(c: Case, store: Store, budget: nat, sorted: seq<TableConfig>, i: nat, mode: Mode,
                      keys: map<UserField, string>, j: nat, b: Batch)
    requires DistinctModels(sorted) && j <= i < |sorted|
    requires sorted[j].modelName in c.client && sorted[j].userField in keys
    requires b == Run(c.reg, c.client, store, budget, sorted, i, c.identity, mode, c.uid, keys) && b.stopped.None?
    requires j < i ==> Processed(b.store.rows, sorted[j], keys[sorted[j].userField], mode)
    ensures IsProcessedAt(c, store, budget, sorted, i + 1, mode, keys, j)
  {
    var t, key := sorted[i], KeyIn(keys, sorted[i].userField);
    var turn := Process(c.reg, c.client, b.store, b.budget, t, c.identity, mode, c.uid, key);
    RunTurn(c.reg, c.client, store, budget, sorted, i, c.identity, mode, c.uid, keys, b, turn);
    if j == i {
      ProcessProcesses(c.reg, c.client, b.store, b.budget, t, c.identity, mode, c.uid, keys[t.userField]);
    } else {
      ProcessKeepsProcessed(c.reg, c.client, b.store, b.budget, t, c.identity, mode, c.uid, key, sorted[j],
        keys[sorted[j].userField]);
    }
  }

  lemma NextProcesses(c: Case, store: Store, budget: nat, sorted: seq<TableConfig>, i: nat, mode: Mode,
                      keys: map<UserField, string>, j: nat)
    requires DistinctModels(sorted) && j <= i < |sorted|
    requires sorted[j].modelName in c.client && sorted[j].userField in keys
    requires j < i ==> IsProcessedAt(c, store, budget, sorted, i, mode, keys, j)
    ensures IsProcessedAt(c, store, budget, sorted, i + 1, mode, keys, j)
  {
    var b := Run(c.reg, c.client, store, budget, sorted, i, c.identity, mode, c.uid, keys);
    if b.stopped.None? {
      TurnProcesses(c, store, budget, sorted, i, mode, keys, j, b);
    } else {
      StoppedStays(c, store, budget, sorted, i, mode, keys);
    }
  }

  /** A batch that finishes has deleted or anonymized every table it found a key for. */
  lemma {:induction false} RunProcesses(c: Case, store: Store, budget: nat, sorted: seq<TableConfig>, n: nat,
                                        mode: Mode, keys: map<UserField, string>, j: nat)
    requires DistinctModels(sorted) && j < n <= |sorted|
    requires sorted[j].modelName in c.client && sorted[j].userField in keys
    ensures IsProcessedAt(c, store, budget, sorted, n, mode, keys, j)
    decreases n
  {
    var i: nat := n - 1;
    if j < i {
      RunProcesses(c, store, budget, sorted, i, mode, keys, j);
    }
    NextProcesses(c, store, budget, sorted, i, mode, keys, j);
  }

  function TotalFound(client: set<string>, rows: Rows, sorted: seq<TableConfig>, n: nat,
                      keys: map<UserField, string>): nat
    requires n <= |sorted|
  {
    if n == 0 then 0
    else
      var t := sorted[n - 1];
      TotalFound(client, rows, sorted, n - 1, keys) + RowsFound(client, rows, t, KeyIn(keys, t.userField))
  }

  lemma ProcessCounts(reg: Registry, client: set<string>, store: Store, budget: nat, t: TableConfig,
                      identity: string, mode: Mode, uid: string, key: Option<string>)
    ensures var turn := Process(reg, client, store, budget, t, identity, mode, uid, key);
      turn.outcome.TableDone? ==>
        && turn.outcome.summary.rows == RowsFound(client, store.rows, t, key)
        && turn.outcome.summary.table == t.tableName
        && (turn.outcome.summary.backedUp ==> mode == SuspendMode)
  {
  }

  /** If the batch has come to position n without stopping, its totals count the rows the tables had when it began. */
  ghost predicate IsCountedAt(c: Case, store: Store, budget: nat, sorted: seq<TableConfig>, n: nat, mode: Mode,
                              keys: map<UserField, string>)
    requires n <= |sorted|
  {
    var b := Run(c.reg, c.client, store, budget, sorted, n, c.identity, mode, c.uid, keys);
    b.stopped.None? ==> |b.summary| == n && b.totalRowsAffected == TotalFound(c.client, store.rows, sorted, n, keys)
  }

  lemma TurnCounts(c: Case, store: Store, budget: nat, sorted: seq<TableConfig>, i: nat, mode: Mode,
                   keys: map<UserField, string>, b: Batch)
    requires WellFormed(c.reg) && Registered(c, sorted) && Sorted(sorted) && DistinctModels(sorted) && i < |sorted|
    requires b == Run(c.reg, c.client, store, budget, sorted, i, c.identity, mode, c.uid, keys) && b.stopped.None?
    requires |b.summary| == i && b.totalRowsAffected == TotalFound(c.client, store.rows, sorted, i, keys)
    ensures IsCountedAt(c, store, budget, sorted, i + 1, mode, keys)
  {
    var t, key := sorted[i], KeyIn(keys, sorted[i].userField);
    var turn := Process(c.reg, c.client, b.store, b.budget, t, c.identity, mode, c.uid, key);
    TurnFinds(c, store, budget, sorted, i, mode, keys);
    RunTurn(c.reg, c.client, store, budget, sorted, i, c.identity, mode, c.uid, keys, b, turn);
    ProcessCounts(c.reg, c.client, b.store, b.budget, t, c.identity, mode, c.uid, key);
  }

  lemma NextCounts(c: Case, store: Store, budget: nat, sorted: seq<TableConfig>, i: nat, mode: Mode,
                   keys: map<UserField, string>)
    requires WellFormed(c.reg) && Registered(c, sorted) && Sorted(sorted) && DistinctModels(sorted) && i < |sorted|
    requires IsCountedAt(c, store, budget, sorted, i, mode, keys)
    ensures IsCountedAt(c, store, budget, sorted, i + 1, mode, keys)
  {
    var b := Run(c.reg, c.client, store, budget, sorted, i, c.identity, mode, c.uid, keys);
    if b.stopped.None? {
      TurnCounts(c, store, budget, sorted, i, mode, keys, b);
    } else {
      StoppedStays(c, store, budget, sorted, i, mode, keys);
    }
  }

  /** The totals of a batch that finishes count the rows the identity had when it began. */
  lemma {:induction false} RunTotals(c: Case, store: Store, budget: nat, sorted: seq<TableConfig>, n: nat, mode: Mode,
                                     keys: map<UserField, string>)
    requires WellFormed(c.reg) && Registered(c, sorted) && Sorted(sorted) && DistinctModels(sorted) && n <= |sorted|
    ensures IsCountedAt(c, store, budget, sorted, n, mode, keys)
  {
    if n == 0 {
    } else {
      var i: nat := n - 1;
      RunTotals(c, store, budget, sorted, i, mode, keys);
      NextCounts(c, store, budget, sorted, i, mode, keys);
    }
  }

  // ---------------------------------------------------------------------------------------------
  // Results
  // ---------------------------------------------------------------------------------------------

  lemma SameBatch(c: Case, tables: seq<TableConfig>)
    ensures Registered(c, tables) ==> Registered(c, ChildrenFirst(tables))
    ensures Sorted(ChildrenFirst(tables)) && |ChildrenFirst(tables)| == |tables|
  {
    ChildrenFirstSorts(tables);
  }

  /** A channel's table comes before the profile's. */
  lemma ChannelComesFirst(c: Case, tables: seq<TableConfig>, i: nat, model: string)
    requires Registered(c, tables) && Sound(c.reg, c.orig) && IsChannel(c.reg, model) && model in c.client
    requires i < |ChildrenFirst(tables)| && ChildrenFirst(tables)[i].modelName == c.reg.profileModel
    requires exists t :: t in tables && t.modelName == model
    ensures ComesBy(c, ChildrenFirst(tables), i, model)
  {
    SameBatch(c, tables);
    ChildrenFirstSorts(tables);
    var sorted := ChildrenFirst(tables);
    var t :| t in tables && t.modelName == model;
    var j :| 0 <= j < |sorted| && sorted[j] == t;
    assert sorted[i] in sorted && sorted[j] in sorted;
    assert sorted[i].userField == IdentityId && sorted[j].userField == NotificationProfileId;
  }

  /**
    Children first is what makes deleting a parent safe: for a batch that holds the profile with its
    channels, only nullable references are left to ask about.
  */
  lemma ChildrenFirstCovers(c: Case, store: Store, tables: seq<TableConfig>, keys: map<UserField, string>)
    requires Sound(c.reg, c.orig) && Recoverable(c, store) && Registered(c, tables) && Closed(c, store, tables)
    requires Resolved(c.reg, store.rows, tables, c.identity, keys)
    requires LinksInTime(c, store, ChildrenFirst(tables), keys)
    ensures CoveredInTime(c, store, ChildrenFirst(tables), keys)
  {
    SameBatch(c, tables);
    ChildrenFirstSorts(tables);
    var sorted := ChildrenFirst(tables);
    forall i: nat, r | TouchedAt(c, store, sorted, keys, i, r) ensures ComesBy(c, sorted, i, r.model) {
      var t := sorted[i];
      assert t in tables;
      ResolvedIsKey(c, store.rows, t, KeyIn(keys, t.userField));
      DoomedAreMine(c, store.rows, t.modelName, keys[t.userField]);
      if r !in Removal(c.reg, c.client, store.rows, t, keys) {
        assert LinkedAt(c, store, sorted, keys, i, r);
      } else if r.model != t.modelName {
        ChannelComesFirst(c, tables, i, r.model);
      }
    }
  }

  /**
    Main result for suspending. However far it gets before it dies, a batch leaves the suspension
    recoverable: each row of the identity is there unchanged or in an unused backup, and every other row
    is as it was, but for nullable references.
  */
  lemma SuspendKeepsRecoverable(c: Case, store: Store, budget: nat, tables: seq<TableConfig>,
                                keys: map<UserField, string>)
    requires Sound(c.reg, c.orig) && Recoverable(c, store) && c.identity != ""
    requires Registered(c, tables) && CoveredInTime(c, store, ChildrenFirst(tables), keys)
    requires Resolved(c.reg, store.rows, tables, c.identity, keys)
    ensures Recoverable(c, AnonymizeBatch(c.reg, c.client, store, budget, tables, c.identity, SuspendMode, Some(c.uid),
      keys).store)
  {
    SameBatch(c, tables);
    ChildrenFirstSorts(tables);
    if c.uid != "" {
      RunRecoverable(c, store, budget, ChildrenFirst(tables), |tables|, keys);
    }
  }

  /** Without a suspension id nothing happens; suspending and deleting alike leave all other rows. */
  lemma AnonymizeTouchesOnlyMine(c: Case, store: Store, budget: nat, tables: seq<TableConfig>, mode: Mode,
                                 uid: Option<string>, keys: map<UserField, string>)
    requires Sound(c.reg, c.orig) && OthersStay(c, store.rows) && Registered(c, tables)
    requires Resolved(c.reg, store.rows, tables, c.identity, keys)
    requires uid.GetOr("") == c.uid
    ensures var b := AnonymizeBatch(c.reg, c.client, store, budget, tables, c.identity, mode, uid, keys);
      && OthersStay(c, b.store.rows)
      && (mode == SuspendMode && c.uid == "" ==> b.store == store && b.stopped == Some(NoSuspensionUid))
  {
    SameBatch(c, tables);
    ChildrenFirstSorts(tables);
    RunOthersStay(c, store, budget, ChildrenFirst(tables), |tables|, mode, keys);
  }

  /** Left alive, anonymize finishes exactly if it has its suspension id and no table with rows has a backup already. */
  lemma AnonymizeFinishes(c: Case, store: Store, budget: nat, tables: seq<TableConfig>, mode: Mode, uid: Option<string>,
                          keys: map<UserField, string>)
    requires WellFormed(c.reg) && Registered(c, tables) && DistinctModels(ChildrenFirst(tables))
      && uid.GetOr("") == c.uid
    requires budget >= 2 * |tables|
    ensures AnonymizeBatch(c.reg, c.client, store, budget, tables, c.identity, mode, uid, keys).stopped.None?
       <==> && (mode == SuspendMode ==> c.uid != "")
            && (forall t :: t in tables ==> !Clashes(c.client, store, mode, c.uid, t, KeyIn(keys, t.userField)))
  {
    SameBatch(c, tables);
    ChildrenFirstSorts(tables);
    var sorted := ChildrenFirst(tables);
    RunFinishes(c, store, budget, sorted, |tables|, mode, keys);
    NoClashAnywhere(c, store, sorted, |tables|, mode, keys);
    assert sorted[..|tables|] == sorted;
  }

  /** An anonymize that finishes has deleted or anonymized every table, and its total counts the rows it found. */
  lemma AnonymizeProcessesAll(c: Case, store: Store, budget: nat, tables: seq<TableConfig>, mode: Mode,
                              uid: Option<string>, keys: map<UserField, string>, t: TableConfig)
    requires WellFormed(c.reg) && Registered(c, tables) && DistinctModels(ChildrenFirst(tables))
      && uid.GetOr("") == c.uid
    requires t in tables && t.modelName in c.client && t.userField in keys
    ensures var b := AnonymizeBatch(c.reg, c.client, store, budget, tables, c.identity, mode, uid, keys);
      b.stopped.None? ==>
        && Processed(b.store.rows, t, keys[t.userField], mode)
        && |b.summary| == |tables|
        && b.totalRowsAffected == TotalFound(c.client, store.rows, ChildrenFirst(tables), |ChildrenFirst(tables)|, keys)
  {
    SameBatch(c, tables);
    ChildrenFirstSorts(tables);
    var sorted := ChildrenFirst(tables);
    var j :| 0 <= j < |sorted| && sorted[j] == t;
    RunProcesses(c, store, budget, sorted, |tables|, mode, keys, j);
    RunTotals(c, store, budget, sorted, |tables|, mode, keys);
  }
}
