/**
  The suspension as the application ships it: the tables taken when it is requested, and those taken
  later. The theorems about batches say exactly what becomes of a database.
*/
module SuspensionShipped {
  import opened Options
  import opened SuspensionStore
  import opened Suspension
  import opened SuspensionBatch

  datatype Model = Model(name: string, table: string)

  /** The registered models. */
  datatype Models = Models(profile: Model, log: Model, scheduled: Model, preferences: Model, email: Model, push: Model)

  const SHIPPED := Models(
    Model("Profile", "profiles"),
    Model("NotificationLog", "notification_logs"),
    Model("ScheduledNotification", "scheduled_notifications"),
    Model("UserNotificationProfile", "user_notification_profile"),
    Model("UserEmailChannel", "user_email_channel"),
    Model("UserPushChannel", "user_push_channel"))

  const PROFILE_PII := ["displayName"]

  ghost predicate Distinct(m: Models) {
    && m.profile.name != m.log.name && m.profile.name != m.scheduled.name && m.profile.name != m.preferences.name
    && m.profile.name != m.email.name && m.profile.name != m.push.name
    && m.log.name != m.scheduled.name && m.log.name != m.preferences.name && m.log.name != m.email.name
    && m.log.name != m.push.name
    && m.scheduled.name != m.preferences.name && m.scheduled.name != m.email.name && m.scheduled.name != m.push.name
    && m.preferences.name != m.email.name && m.preferences.name != m.push.name
    && m.email.name != m.push.name
  }

  lemma ShippedDistinct()
    ensures Distinct(SHIPPED)
  {
    assert |SHIPPED.profile.name| == 7 && |SHIPPED.scheduled.name| == 21 && |SHIPPED.preferences.name| == 23;
    assert |SHIPPED.email.name| == 16 && |SHIPPED.push.name| == 15 && |SHIPPED.log.name| == 15;
    assert SHIPPED.push.name[0] == 'U' && SHIPPED.log.name[0] == 'N';
  }

  function RegistryOf(m: Models): Registry {
    Registry(map[
      m.profile.name := IdentityId, m.log.name := IdentityId, m.scheduled.name := IdentityId,
      m.preferences.name := IdentityId,
      m.email.name := NotificationProfileId, m.push.name := NotificationProfileId
    ], m.preferences.name)
  }

  function Deleted(model: Model, userField: UserField): TableConfig {
    TableConfig(model.name, model.table, userField, Delete, [], ToFixed)
  }

  /** The tables taken when a suspension is requested, and those taken later. */
  function Immediate(m: Models): seq<TableConfig> {
    [Deleted(m.scheduled, IdentityId), Deleted(m.preferences, IdentityId),
     Deleted(m.email, NotificationProfileId), Deleted(m.push, NotificationProfileId)]
  }

  function Deferred(m: Models): seq<TableConfig> {
    [TableConfig(m.profile.name, m.profile.table, IdentityId, Anonymize, PROFILE_PII, ToFixed),
      Deleted(m.log, IdentityId)]
  }

  ghost predicate IsModel(m: Models, model: string) {
    || model == m.profile.name || model == m.log.name || model == m.scheduled.name
    || model == m.preferences.name || model == m.email.name || model == m.push.name
  }

  /** The nullable references of the schema, among registered models: a scheduled notification may name its log. */
  ghost predicate ShippedLinks(m: Models, orig: Rows) {
    forall r {:trigger r in orig} :: r in orig && IsModel(m, r.model) && orig[r].link.Some? ==>
      r.model == m.scheduled.name && orig[r].link.value.model == m.log.name
  }

  /** What the registry says of the six models. */
  ghost predicate IsShipped(m: Models, reg: Registry) {
    && Distinct(m) && reg.profileModel == m.preferences.name
    && (forall model :: model in reg.userField <==> IsModel(m, model))
    && (forall model :: model in reg.userField ==>
          reg.userField[model] == if model == m.email.name || model == m.push.name then NotificationProfileId
            else IdentityId)
  }

  lemma RegistryIsShipped(m: Models)
    requires Distinct(m)
    ensures IsShipped(m, RegistryOf(m))
  {
  }

  /** Any database of the application; rows of unregistered models may refer to anything. */
  ghost predicate ShippedCase(m: Models, c: Case) {
    && IsShipped(m, c.reg) && (forall model :: IsModel(m, model) ==> model in c.client)
    && Sound(c.reg, c.orig) && ShippedLinks(m, c.orig) && c.identity != "" && c.uid != ""
  }

  ghost predicate Grouped(tables: seq<TableConfig>, children: seq<TableConfig>, parents: seq<TableConfig>) {
    Group(tables, true) == children && Group(tables, false) == parents
  }

  lemma OneChildMore(tables: seq<TableConfig>, pre: seq<TableConfig>, last: TableConfig, children: seq<TableConfig>,
                     parents: seq<TableConfig>)
    requires tables == pre + [last] && Grouped(pre, children, parents) && last.userField != IdentityId
    ensures Grouped(tables, children + [last], parents)
  {
    GroupsOneMore(tables, pre, last);
  }

  lemma OneParentMore(tables: seq<TableConfig>, pre: seq<TableConfig>, last: TableConfig, children: seq<TableConfig>,
                      parents: seq<TableConfig>)
    requires tables == pre + [last] && Grouped(pre, children, parents) && last.userField == IdentityId
    ensures Grouped(tables, children, parents + [last])
  {
    GroupsOneMore(tables, pre, last);
  }

  lemma NoTables()
    ensures Grouped([], [], [])
  {
  }

  lemma TwoTables(tables: seq<TableConfig>)
    requires |tables| == 2 && tables[0].userField == IdentityId && tables[1].userField == IdentityId
    ensures Grouped(tables, [], tables)
  {
    NoTables();
    OneParentMore(tables[..1], [], tables[0], [], []);
    assert [] + [tables[0]] == tables[..1];
    OneParentMore(tables, tables[..1], tables[1], [], tables[..1]);
    assert tables[..1] + [tables[1]] == tables;
  }

  lemma FourTables(tables: seq<TableConfig>)
    requires |tables| == 4 && tables[0].userField == IdentityId && tables[1].userField == IdentityId
    requires tables[2].userField != IdentityId && tables[3].userField != IdentityId
    ensures Grouped(tables, tables[2..], tables[..2])
  {
    var two, three := tables[..2], tables[..3];
    TwoTables(two);
    OneChildMore(three, two, tables[2], [], two);
    assert [] + [tables[2]] == [tables[2]];
    OneChildMore(tables, three, tables[3], [tables[2]], two);
    assert [tables[2]] + [tables[3]] == tables[2..];
  }

  lemma ImmediateOrder(m: Models)
    ensures ChildrenFirst(Immediate(m)) == [Immediate(m)[2], Immediate(m)[3], Immediate(m)[0], Immediate(m)[1]]
  {
    FourTables(Immediate(m));
  }

  lemma DeferredOrder(m: Models)
    ensures ChildrenFirst(Deferred(m)) == Deferred(m)
  {
    TwoTables(Deferred(m));
  }

  lemma FourApart(a: TableConfig, b: TableConfig, d: TableConfig, e: TableConfig)
    requires a.modelName != b.modelName && a.modelName != d.modelName && a.modelName != e.modelName
    requires b.modelName != d.modelName && b.modelName != e.modelName && d.modelName != e.modelName
    ensures DistinctModels([d, e, a, b])
  {
  }

  lemma TwoApart(a: TableConfig, b: TableConfig)
    requires a.modelName != b.modelName
    ensures DistinctModels([a, b])
  {
  }

  lemma ImmediateRegistered(m: Models, c: Case)
    requires IsShipped(m, c.reg)
    ensures Registered(c, Immediate(m))
  {
  }

  lemma DeferredRegistered(m: Models, c: Case)
    requires IsShipped(m, c.reg)
    ensures Registered(c, Deferred(m))
  {
  }

  /** The batches name registered models, each once. */
  lemma ShippedRegistered(m: Models, c: Case)
    requires IsShipped(m, c.reg)
    ensures Registered(c, Immediate(m)) && Registered(c, Deferred(m))
    ensures DistinctModels(ChildrenFirst(Immediate(m))) && DistinctModels(ChildrenFirst(Deferred(m)))
  {
    ImmediateRegistered(m, c);
    DeferredRegistered(m, c);
    ImmediateOrder(m);
    DeferredOrder(m);
    FourApart(Deleted(m.scheduled, IdentityId), Deleted(m.preferences, IdentityId),
              Deleted(m.email, NotificationProfileId), Deleted(m.push, NotificationProfileId));
    TwoApart(Deferred(m)[0], Deferred(m)[1]);
  }

  /** What the identity's row in a store still refers to is what it always did. */
  lemma OwnLink(m: Models, c: Case, store: Store, r: RowId)
    requires ShippedCase(m, c) && Recoverable(c, store) && Mine(c, r) && r in store.rows && store.rows[r].link.Some?
    ensures r.model == m.scheduled.name && store.rows[r].link == c.orig[r].link
      && store.rows[r].link.value.model == m.log.name
  {
  }

  lemma RemovedModel(m: Models, c: Case, store: Store, tables: seq<TableConfig>, keys: map<UserField, string>,
                     t: TableConfig, r: RowId)
    requires ShippedCase(m, c) && OthersStay(c, store.rows) && Registered(c, tables) && t in tables
    requires Resolved(c.reg, store.rows, tables, c.identity, keys) && r in Removal(c.reg, c.client, store.rows, t, keys)
    ensures Mine(c, r) && t.strategy == Delete && (r.model == t.modelName || IsChannel(c.reg, r.model))
  {
    ResolvedIsKey(c, store.rows, t, KeyIn(keys, t.userField));
    DoomedAreMine(c, store.rows, t.modelName, keys[t.userField]);
  }

  /** What the first batch removes is no log. */
  lemma ImmediateSparesLogs(m: Models, c: Case, store: Store, keys: map<UserField, string>, t: TableConfig, r: RowId)
    requires ShippedCase(m, c) && OthersStay(c, store.rows) && Registered(c, Immediate(m)) && t in Immediate(m)
    requires Resolved(c.reg, store.rows, Immediate(m), c.identity, keys)
    requires r in Removal(c.reg, c.client, store.rows, t, keys)
    ensures r.model != m.log.name
  {
    RemovedModel(m, c, store, Immediate(m), keys, t, r);
  }

  /** No reference of the identity's rows leads into what the first batch removes. */
  lemma ImmediateUnlinked(m: Models, c: Case, store: Store, keys: map<UserField, string>, i: nat, r: RowId)
    requires ShippedCase(m, c) && Recoverable(c, store) && Resolved(c.reg, store.rows, Immediate(m), c.identity, keys)
    requires Registered(c, Immediate(m))
    ensures !LinkedAt(c, store, ChildrenFirst(Immediate(m)), keys, i, r)
  {
    var sorted := ChildrenFirst(Immediate(m));
    ChildrenFirstSorts(Immediate(m));
    if LinkedAt(c, store, sorted, keys, i, r) {
      OwnLink(m, c, store, r);
      assert sorted[i] in sorted;
      ImmediateSparesLogs(m, c, store, keys, sorted[i], store.rows[r].link.value);
    }
  }

  lemma ImmediateClosed(m: Models, c: Case, store: Store)
    requires ShippedCase(m, c)
    ensures Closed(c, store, Immediate(m))
  {
    forall r | r in store.rows && Mine(c, r) && IsChannel(c.reg, r.model)
      ensures r.model in c.client && exists t :: t in Immediate(m) && t.modelName == r.model
    {
      assert Immediate(m)[2] in Immediate(m) && Immediate(m)[3] in Immediate(m);
      assert r.model == Immediate(m)[2].modelName || r.model == Immediate(m)[3].modelName;
    }
  }

  /**
    The tables taken at once fit whatever the database: the profile goes with its channels, and nothing refers to the
    others.
  */
  lemma ImmediateFits(m: Models, c: Case, store: Store, keys: map<UserField, string>)
    requires ShippedCase(m, c) && Recoverable(c, store) && Resolved(c.reg, store.rows, Immediate(m), c.identity, keys)
    ensures Registered(c, Immediate(m)) && CoveredInTime(c, store, ChildrenFirst(Immediate(m)), keys)
  {
    ShippedRegistered(m, c);
    ImmediateClosed(m, c, store);
    forall i: nat, r ensures !LinkedAt(c, store, ChildrenFirst(Immediate(m)), keys, i, r) {
      ImmediateUnlinked(m, c, store, keys, i, r);
    }
    ChildrenFirstCovers(c, store, Immediate(m), keys);
  }

  /** No row of the identity's scheduled notifications that is in no backup names a log of its own. */
  ghost predicate LogsUnnamed(m: Models, c: Case, store: Store) {
    forall r {:trigger r in store.rows} ::
      r in store.rows && Mine(c, r) && r.model == m.scheduled.name && !Held(store, c.uid, m.scheduled.name)
        && store.rows[r].link.Some? ==>
        !Mine(c, store.rows[r].link.value)
  }

  lemma DeferredUnlinked(m: Models, c: Case, store: Store, keys: map<UserField, string>, i: nat, r: RowId)
    requires ShippedCase(m, c) && Recoverable(c, store) && Resolved(c.reg, store.rows, Deferred(m), c.identity, keys)
    requires Registered(c, Deferred(m)) && LogsUnnamed(m, c, store)
    ensures !LinkedAt(c, store, Deferred(m), keys, i, r)
  {
    if LinkedAt(c, store, Deferred(m), keys, i, r) {
      OwnLink(m, c, store, r);
      RemovedModel(m, c, store, Deferred(m), keys, Deferred(m)[i], store.rows[r].link.value);
    }
  }

  lemma DeferredCovers(m: Models, c: Case, store: Store, keys: map<UserField, string>)
    requires ShippedCase(m, c) && Recoverable(c, store) && Resolved(c.reg, store.rows, Deferred(m), c.identity, keys)
    requires LogsUnnamed(m, c, store)
    ensures CoveredInTime(c, store, Deferred(m), keys)
  {
    ShippedRegistered(m, c);
    DeferredOrder(m);
    forall i: nat, r ensures !LinkedAt(c, store, Deferred(m), keys, i, r) {
      DeferredUnlinked(m, c, store, keys, i, r);
    }
    ChildrenFirstCovers(c, store, Deferred(m), keys);
  }

  /** A scheduled notification in no backup loses the log it names, and its own table never comes. */
  lemma NamedLogUncovers(m: Models, c: Case, store: Store, keys: map<UserField, string>, logs: TableConfig, r: RowId)
    requires ShippedCase(m, c) && Recoverable(c, store) && Resolved(c.reg, store.rows, Deferred(m), c.identity, keys)
    requires Registered(c, Deferred(m)) && logs == Deferred(m)[1]
    requires r in store.rows && Mine(c, r) && r.model == m.scheduled.name && !Held(store, c.uid, m.scheduled.name)
    requires store.rows[r].link.Some? && Mine(c, store.rows[r].link.value)
    ensures TouchedAt(c, store, Deferred(m), keys, 1, r)
  {
    OwnLink(m, c, store, r);
    assert Refers(c.reg, store.rows, r.model, store.rows[r]);
    OwnIsRemoved(m, c, store, Deferred(m), keys, logs, store.rows[r].link.value);
  }

  lemma ScheduledNotDeferred(m: Models, c: Case, i: nat)
    requires Distinct(m)
    ensures !ComesBy(c, Deferred(m), i, m.scheduled.name)
  {
  }

  lemma DeferredUncovered(m: Models, c: Case, store: Store, keys: map<UserField, string>)
    requires ShippedCase(m, c) && Recoverable(c, store) && Resolved(c.reg, store.rows, Deferred(m), c.identity, keys)
    requires !LogsUnnamed(m, c, store)
    ensures !CoveredInTime(c, store, Deferred(m), keys)
  {
    DeferredRegistered(m, c);
    var r :| r in store.rows && Mine(c, r) && r.model == m.scheduled.name && !Held(store, c.uid, m.scheduled.name)
             && store.rows[r].link.Some? && Mine(c, store.rows[r].link.value);
    NamedLogUncovers(m, c, store, keys, Deferred(m)[1], r);
    ScheduledNotDeferred(m, c, 1);
  }

  /**
    Exactly when the tables taken later fit: when those scheduled notifications are in a backup that name one of the
    logs.
  */
  lemma DeferredFitsIff(m: Models, c: Case, store: Store, keys: map<UserField, string>)
    requires ShippedCase(m, c) && Recoverable(c, store) && Resolved(c.reg, store.rows, Deferred(m), c.identity, keys)
    ensures Registered(c, Deferred(m))
    ensures CoveredInTime(c, store, ChildrenFirst(Deferred(m)), keys) <==> LogsUnnamed(m, c, store)
  {
    ShippedRegistered(m, c);
    DeferredOrder(m);
    if LogsUnnamed(m, c, store) {
      DeferredCovers(m, c, store, keys);
    } else {
      DeferredUncovered(m, c, store, keys);
    }
  }

  /** A row of the identity is among those its table's deletion removes. */
  lemma OwnIsRemoved(m: Models, c: Case, store: Store, tables: seq<TableConfig>, keys: map<UserField, string>,
                     t: TableConfig, r: RowId)
    requires ShippedCase(m, c) && Recoverable(c, store) && Registered(c, tables) && t in tables && t.strategy == Delete
    requires Resolved(c.reg, store.rows, tables, c.identity, keys)
    requires Mine(c, r) && r in store.rows && r.model == t.modelName
      && (t.userField == IdentityId || !Held(store, c.uid, r.model))
    ensures r in Removal(c.reg, c.client, store.rows, t, keys)
  {
    ResolvedIsKey(c, store.rows, t, KeyIn(keys, t.userField));
    if t.userField !in keys {
      UnresolvedIsSnapshotted(c, store, t);
    } else {
      MatchesAreMine(c, store.rows, t.modelName, keys[t.userField], r);
    }
  }

  // ---------------------------------------------------------------------------------------------
  // The two batches
  // ---------------------------------------------------------------------------------------------

  /** The store a suspension begins with. */
  ghost predicate Fresh(c: Case, store: Store) {
    store.rows == c.orig && forall m :: BackupKey(c.uid, m) !in store.backups
  }

  function First(m: Models, c: Case, store: Store, budget: nat, keys: map<UserField, string>): Batch {
    AnonymizeBatch(c.reg, c.client, store, budget, Immediate(m), c.identity, SuspendMode, Some(c.uid), keys)
  }

  function Second(m: Models, c: Case, store: Store, budget: nat, keys: map<UserField, string>): Batch {
    AnonymizeBatch(c.reg, c.client, store, budget, Deferred(m), c.identity, SuspendMode, Some(c.uid), keys)
  }

  /** The first batch has finished, as it must before the second is asked for. */
  ghost predicate FirstDone(m: Models, c: Case, store: Store, mid: Store, budget: nat, keys: map<UserField, string>) {
    && ShippedCase(m, c) && Fresh(c, store) && Resolved(c.reg, store.rows, Immediate(m), c.identity, keys)
    && var b := First(m, c, store, budget, keys); b.stopped.None? && mid == b.store
  }

  ghost predicate SecondDone(m: Models, c: Case, mid: Store, done: Store, budget: nat, keys: map<UserField, string>) {
    && Resolved(c.reg, mid.rows, Deferred(m), c.identity, keys)
    && var b := Second(m, c, mid, budget, keys); b.stopped.None? && done == b.store
  }

  /** A batch of the suspension that fits keeps it recoverable; one that finishes backs every table up. */
  lemma BatchKeeps(m: Models, c: Case, store: Store, budget: nat, tables: seq<TableConfig>,
                   keys: map<UserField, string>, b: Batch)
    requires ShippedCase(m, c) && Recoverable(c, store) && Registered(c, tables)
      && Resolved(c.reg, store.rows, tables, c.identity, keys)
    requires CoveredInTime(c, store, ChildrenFirst(tables), keys) && forall t :: t in tables ==> t.modelName in c.client
    requires b == AnonymizeBatch(c.reg, c.client, store, budget, tables, c.identity, SuspendMode, Some(c.uid), keys)
    ensures Recoverable(c, b.store)
    ensures b.stopped.None? ==> forall t :: t in tables ==> Snapshotted(c, b.store, t.modelName)
  {
    SameBatch(c, tables);
    ChildrenFirstSorts(tables);
    RunRecoverable(c, store, budget, ChildrenFirst(tables), |tables|, keys);
    if b.stopped.None? {
      AllSnapshotted(c, b.store, tables, ChildrenFirst(tables));
    }
  }

  lemma AllSnapshotted(c: Case, store: Store, tables: seq<TableConfig>, sorted: seq<TableConfig>)
    requires forall t :: t in tables ==> t in sorted && t.modelName in c.client
    requires forall j :: 0 <= j < |sorted| && sorted[j].modelName in c.client ==>
      Snapshotted(c, store, sorted[j].modelName)
    ensures forall t :: t in tables ==> Snapshotted(c, store, t.modelName)
  {
  }

  /** A finished batch has removed every row of the identity its deletions concern. */
  lemma BatchRemoves(m: Models, c: Case, store: Store, budget: nat, tables: seq<TableConfig>,
                     keys: map<UserField, string>, t: TableConfig, r: RowId)
    requires ShippedCase(m, c) && Recoverable(c, store) && Registered(c, tables)
      && Resolved(c.reg, store.rows, tables, c.identity, keys)
    requires t in tables && t.strategy == Delete && Mine(c, r) && r.model == t.modelName
    requires t.userField == IdentityId || !Held(store, c.uid, r.model)
    ensures var b := AnonymizeBatch(c.reg, c.client, store, budget, tables, c.identity, SuspendMode, Some(c.uid), keys);
      b.stopped.None? ==> r !in b.store.rows
  {
    SameBatch(c, tables);
    ChildrenFirstSorts(tables);
    var sorted := ChildrenFirst(tables);
    RunRows(c, store, budget, sorted, |tables|, SuspendMode, keys);
    if r in store.rows {
      OwnIsRemoved(m, c, store, tables, keys, t, r);
      var i :| 0 <= i < |sorted| && sorted[i] == t;
      GoneHolds(c.reg, c.client, store.rows, sorted, |tables|, keys, i);
    }
  }

  /** Stopped anywhere, the first batch leaves every shipped suspension recoverable. */
  lemma FirstKeepsRecoverable(m: Models, c: Case, store: Store, budget: nat, keys: map<UserField, string>)
    requires ShippedCase(m, c) && Fresh(c, store) && Resolved(c.reg, store.rows, Immediate(m), c.identity, keys)
    ensures Recoverable(c, First(m, c, store, budget, keys).store)
  {
    FreshSuspension(c, store);
    ImmediateFits(m, c, store, keys);
    BatchKeeps(m, c, store, budget, Immediate(m), keys, First(m, c, store, budget, keys));
  }

  lemma FirstRemoves(m: Models, c: Case, store: Store, mid: Store, budget: nat, keys: map<UserField, string>, r: RowId)
    requires FirstDone(m, c, store, mid, budget, keys) && Mine(c, r) && r.model != m.profile.name
      && r.model != m.log.name
    ensures r !in mid.rows
  {
    FreshSuspension(c, store);
    ShippedRegistered(m, c);
    BatchRemoves(m, c, store, budget, Immediate(m), keys, TableOf(m, r.model), r);
  }

  lemma AfterFirst(m: Models, c: Case, store: Store, mid: Store, budget: nat, keys: map<UserField, string>)
    requires FirstDone(m, c, store, mid, budget, keys)
    ensures Recoverable(c, mid) && LogsUnnamed(m, c, mid)
    ensures forall t :: t in Immediate(m) ==> Snapshotted(c, mid, t.modelName)
    ensures forall r :: Mine(c, r) && r in mid.rows ==> r.model == m.profile.name || r.model == m.log.name
  {
    FreshSuspension(c, store);
    ImmediateFits(m, c, store, keys);
    BatchKeeps(m, c, store, budget, Immediate(m), keys, First(m, c, store, budget, keys));
    forall r | Mine(c, r) && r in mid.rows ensures r.model == m.profile.name || r.model == m.log.name {
      if r.model != m.profile.name && r.model != m.log.name {
        FirstRemoves(m, c, store, mid, budget, keys, r);
      }
    }
  }

  function TableOf(m: Models, model: string): (t: TableConfig)
    requires IsModel(m, model) && model != m.profile.name && model != m.log.name
    ensures t in Immediate(m) && t.modelName == model && t.strategy == Delete
  {
    if model == m.scheduled.name then Immediate(m)[0]
    else if model == m.preferences.name then Immediate(m)[1]
    else if model == m.email.name then Immediate(m)[2]
    else Immediate(m)[3]
  }

  /**
    The shipped suspension loses nothing: once the first batch has finished, the second one leaves the
    suspension recoverable wherever it stops, whatever refers to the rows.
  */
  lemma SecondKeepsRecoverable(m: Models, c: Case, store: Store, mid: Store, budget1: nat,
                               keys1: map<UserField, string>, budget2: nat, keys2: map<UserField, string>)
    requires FirstDone(m, c, store, mid, budget1, keys1) && Resolved(c.reg, mid.rows, Deferred(m), c.identity, keys2)
    ensures Recoverable(c, Second(m, c, mid, budget2, keys2).store)
  {
    AfterFirst(m, c, store, mid, budget1, keys1);
    DeferredFitsIff(m, c, mid, keys2);
    BatchKeeps(m, c, mid, budget2, Deferred(m), keys2, Second(m, c, mid, budget2, keys2));
  }

  lemma HeldAfterBoth(m: Models, c: Case, store: Store, mid: Store, done: Store, budget1: nat,
                      keys1: map<UserField, string>, budget2: nat, keys2: map<UserField, string>, r: RowId)
    requires FirstDone(m, c, store, mid, budget1, keys1) && SecondDone(m, c, mid, done, budget2, keys2) && Mine(c, r)
    requires forall t :: t in Immediate(m) ==> Snapshotted(c, mid, t.modelName)
    requires forall t :: t in Deferred(m) ==> Snapshotted(c, done, t.modelName)
    ensures Held(done, c.uid, r.model)
  {
    DeferredOrder(m);
    assert Deferred(m)[0] in Deferred(m) && Deferred(m)[1] in Deferred(m);
    if r.model != m.profile.name && r.model != m.log.name {
      assert Snapshotted(c, mid, TableOf(m, r.model).modelName);
      RunKeepsHeld(c, mid, budget2, Deferred(m), |Deferred(m)|, SuspendMode, keys2, r.model);
    }
  }

  lemma LeftAfterBoth(m: Models, c: Case, store: Store, mid: Store, done: Store, budget1: nat,
                      keys1: map<UserField, string>, budget2: nat, keys2: map<UserField, string>, r: RowId)
    requires FirstDone(m, c, store, mid, budget1, keys1) && SecondDone(m, c, mid, done, budget2, keys2) && Mine(c, r)
    requires Recoverable(c, mid) && Registered(c, Deferred(m)) && r.model != m.profile.name
    ensures r !in done.rows
  {
    DeferredOrder(m);
    RunShrinks(c.reg, c.client, mid, budget2, Deferred(m), |Deferred(m)|, c.identity, SuspendMode, c.uid, keys2);
    if r.model == m.log.name {
      BatchRemoves(m, c, mid, budget2, Deferred(m), keys2, Deferred(m)[1], r);
    } else {
      FirstRemoves(m, c, store, mid, budget1, keys1, r);
    }
  }

  /**
    When both batches have finished: every row of the identity is in an unused backup, and only its profile is still
    there.
  */
  lemma AfterBoth(m: Models, c: Case, store: Store, mid: Store, done: Store, budget1: nat,
                  keys1: map<UserField, string>, budget2: nat, keys2: map<UserField, string>)
    requires FirstDone(m, c, store, mid, budget1, keys1) && SecondDone(m, c, mid, done, budget2, keys2)
    ensures Recoverable(c, done)
    ensures forall r :: Mine(c, r) ==> Held(done, c.uid, r.model)
    ensures forall r :: Mine(c, r) && r in done.rows ==> r.model == m.profile.name
  {
    AfterFirst(m, c, store, mid, budget1, keys1);
    DeferredFitsIff(m, c, mid, keys2);
    BatchKeeps(m, c, mid, budget2, Deferred(m), keys2, Second(m, c, mid, budget2, keys2));
    forall r | Mine(c, r) ensures Held(done, c.uid, r.model) && (r in done.rows ==> r.model == m.profile.name) {
      HeldAfterBoth(m, c, store, mid, done, budget1, keys1, budget2, keys2, r);
      if r.model != m.profile.name {
        LeftAfterBoth(m, c, store, mid, done, budget1, keys1, budget2, keys2, r);
      }
    }
  }

  // ---------------------------------------------------------------------------------------------
  // The rows of others
  // ---------------------------------------------------------------------------------------------

  /** A row of others refers to a row of the identity that is deleted. */
  ghost predicate RefersToDeleted(m: Models, c: Case, r: RowId) {
    r in c.orig && !Mine(c, r) && c.orig[r].link.Some? && Mine(c, c.orig[r].link.value)
      && c.orig[r].link.value.model != m.profile.name
  }

  lemma {:induction false} GoneIsDeleted(m: Models, c: Case, store: Store, tables: seq<TableConfig>,
                                         sorted: seq<TableConfig>, n: nat, keys: map<UserField, string>, t: RowId)
    requires ShippedCase(m, c) && OthersStay(c, store.rows) && Registered(c, tables) && n <= |sorted|
    requires Resolved(c.reg, store.rows, tables, c.identity, keys) && forall q :: q in sorted ==> q in tables
    requires forall q :: q in tables && q.modelName == m.profile.name ==> q.strategy == Anonymize
    requires t in Gone(c.reg, c.client, store.rows, sorted, n, keys)
    ensures Mine(c, t) && t.model != m.profile.name
  {
    var i: nat := n - 1;
    if t in Removal(c.reg, c.client, store.rows, sorted[i], keys) {
      RemovedModel(m, c, store, tables, keys, sorted[i], t);
    } else {
      GoneIsDeleted(m, c, store, tables, sorted, i, keys, t);
    }
  }

  /** Where a reference of another row leads, if not to a deleted row. */
  lemma LeadsElsewhere(m: Models, c: Case, rows: Rows, r: RowId)
    requires OthersStay(c, rows) && r in rows && !Mine(c, r) && rows[r].link.Some? && !RefersToDeleted(m, c, r)
    ensures !Mine(c, rows[r].link.value) || rows[r].link.value.model == m.profile.name
  {
  }

  lemma NobodyRefersToGone(m: Models, c: Case, store: Store, tables: seq<TableConfig>, sorted: seq<TableConfig>,
                           keys: map<UserField, string>)
    requires ShippedCase(m, c) && OthersStay(c, store.rows) && Registered(c, tables) && forall q :: q in sorted ==>
      q in tables
    requires Resolved(c.reg, store.rows, tables, c.identity, keys)
    requires forall q :: q in tables && q.modelName == m.profile.name ==> q.strategy == Anonymize
    requires forall r :: !RefersToDeleted(m, c, r)
    ensures NobodyRefers(c, store.rows, Gone(c.reg, c.client, store.rows, sorted, |sorted|, keys))
  {
    var gone := Gone(c.reg, c.client, store.rows, sorted, |sorted|, keys);
    forall r | r in store.rows && !Mine(c, r) && store.rows[r].link.Some? ensures store.rows[r].link.value !in gone {
      LeadsElsewhere(m, c, store.rows, r);
      if store.rows[r].link.value in gone {
        GoneIsDeleted(m, c, store, tables, sorted, |sorted|, keys, store.rows[r].link.value);
      }
    }
  }

  /** A batch leaves the rows of others as they are if none of them refers to a deleted row. */
  lemma BatchLeavesOthers(m: Models, c: Case, store: Store, budget: nat, tables: seq<TableConfig>,
                          keys: map<UserField, string>, b: Batch)
    requires ShippedCase(m, c) && Recoverable(c, store) && Registered(c, tables)
      && Resolved(c.reg, store.rows, tables, c.identity, keys)
    requires forall q :: q in tables && q.modelName == m.profile.name ==> q.strategy == Anonymize
    requires OthersUnchanged(c, store.rows) && forall r :: !RefersToDeleted(m, c, r)
    requires b == AnonymizeBatch(c.reg, c.client, store, budget, tables, c.identity, SuspendMode, Some(c.uid), keys)
    ensures b.stopped.None? ==> OthersUnchanged(c, b.store.rows)
  {
    ChildrenFirstSorts(tables);
    OthersUnchangedIff(c, store, budget, tables, SuspendMode, Some(c.uid), keys);
    NobodyRefersToGone(m, c, store, tables, ChildrenFirst(tables), keys);
  }

  lemma FirstLeavesOthers(m: Models, c: Case, store: Store, mid: Store, budget: nat, keys: map<UserField, string>)
    requires FirstDone(m, c, store, mid, budget, keys) && forall r :: !RefersToDeleted(m, c, r)
    ensures OthersUnchanged(c, mid.rows)
  {
    ImmediateRegistered(m, c);
    FreshSuspension(c, store);
    BatchLeavesOthers(m, c, store, budget, Immediate(m), keys, First(m, c, store, budget, keys));
  }

  lemma SecondLeavesOthers(m: Models, c: Case, mid: Store, done: Store, budget: nat, keys: map<UserField, string>)
    requires ShippedCase(m, c) && Recoverable(c, mid) && SecondDone(m, c, mid, done, budget, keys)
    requires OthersUnchanged(c, mid.rows) && forall r :: !RefersToDeleted(m, c, r)
    ensures OthersUnchanged(c, done.rows)
  {
    DeferredRegistered(m, c);
    BatchLeavesOthers(m, c, mid, budget, Deferred(m), keys, Second(m, c, mid, budget, keys));
  }

  lemma UnchangedRefersToNone(m: Models, c: Case, done: Store, r: RowId)
    requires Recoverable(c, done) && OthersUnchanged(c, done.rows)
    requires forall q :: Mine(c, q) && q in done.rows ==> q.model == m.profile.name
    ensures !RefersToDeleted(m, c, r)
  {
    if r in c.orig && !Mine(c, r) && c.orig[r].link.Some? {
      assert Unchanged(c.orig, done.rows, r);
      assert Refers(c.reg, done.rows, r.model, done.rows[r]);
    }
  }

  lemma OthersAfterBoth(m: Models, c: Case, store: Store, mid: Store, done: Store, budget1: nat,
                        keys1: map<UserField, string>, budget2: nat, keys2: map<UserField, string>)
    requires FirstDone(m, c, store, mid, budget1, keys1) && SecondDone(m, c, mid, done, budget2, keys2)
    ensures OthersUnchanged(c, done.rows) <==> forall r :: !RefersToDeleted(m, c, r)
  {
    AfterFirst(m, c, store, mid, budget1, keys1);
    AfterBoth(m, c, store, mid, done, budget1, keys1, budget2, keys2);
    if forall r :: !RefersToDeleted(m, c, r) {
      FirstLeavesOthers(m, c, store, mid, budget1, keys1);
      SecondLeavesOthers(m, c, mid, done, budget2, keys2);
    }
    if OthersUnchanged(c, done.rows) {
      forall r ensures !RefersToDeleted(m, c, r) {
        UnchangedRefersToNone(m, c, done, r);
      }
    }
  }
}
