/**
  The database under a suspension: user-owned rows with their references, and the backups a suspension
  keeps. Each statement is a function on the stored rows; the lemmas say what each one keeps.
*/
module SuspensionStore {
  import opened Options

  datatype RowId = RowId(model: string, id: string)

  datatype Mode = SuspendMode | DeleteMode

  /** A column's value: as the user left it, or what anonymization put there; random text is not told apart. */
  datatype Value = Null | Text(text: string) | FixedText(mode: Mode) | RandomText(mode: Mode)

  /** key is the value of the model's user field; link is a nullable reference to another row. */
  datatype Row = Row(key: string, link: Option<RowId>, fields: map<string, Value>)

  type Rows = map<RowId, Row>

  /** data is absent when the stored value is not an array of records. */
  datatype Backup = Backup(identityId: string, data: Option<map<string, Row>>, used: bool)

  /** A suspension keeps one backup per model. */
  datatype BackupKey = BackupKey(suspension: string, model: string)

  datatype Store = Store(rows: Rows, backups: map<BackupKey, Backup>)

  /** The column that tells whose a row is. */
  datatype UserField = IdentityId | NotificationProfileId | OtherField(name: string)

  /** The user field of every registered model, and which model holds the notification profiles. */
  datatype Registry = Registry(userField: map<string, UserField>, profileModel: string)

  /** Processed first and restored last. */
  predicate IsChild(reg: Registry, model: string) {
    model in reg.userField && reg.userField[model] != IdentityId
  }

  /** Rows of the model belong to a notification profile and go with it. */
  predicate IsChannel(reg: Registry, model: string) {
    model in reg.userField && reg.userField[model] == NotificationProfileId
  }

  ghost predicate WellFormed(reg: Registry) {
    reg.profileModel in reg.userField && reg.userField[reg.profileModel] == IdentityId
  }

  // ---------------------------------------------------------------------------------------------
  // References
  // ---------------------------------------------------------------------------------------------

  function ProfileOf(reg: Registry, row: Row): RowId {
    RowId(reg.profileModel, row.key)
  }

  /** What the foreign keys of a row ask of the other rows. */
  predicate Refers(reg: Registry, rows: Rows, model: string, row: Row) {
    && (IsChannel(reg, model) ==> ProfileOf(reg, row) in rows)
    && (row.link.Some? ==> row.link.value in rows)
  }

  ghost predicate Intact(reg: Registry, rows: Rows) {
    forall r {:trigger Refers(reg, rows, r.model, rows[r])} :: r in rows ==> Refers(reg, rows, r.model, rows[r])
  }

  // ---------------------------------------------------------------------------------------------
  // Statements
  // ---------------------------------------------------------------------------------------------

  predicate Matches(rows: Rows, r: RowId, model: string, key: string) {
    r in rows && r.model == model && rows[r].key == key
  }

  function Ids(rows: Rows, model: string, key: string): set<string> {
    set r | r in rows && Matches(rows, r, model, key) :: r.id
  }

  function Load(rows: Rows, model: string, key: string): (data: map<string, Row>)
    ensures forall id :: id in data <==> Matches(rows, RowId(model, id), model, key)
    ensures forall id :: id in data ==> RowId(model, id) in rows && data[id] == rows[RowId(model, id)]
  {
    assert forall id :: Matches(rows, RowId(model, id), model, key) ==> RowId(model, id).id == id;
    map id | id in Ids(rows, model, key) :: rows[RowId(model, id)]
  }

  lemma LoadFinds(rows: Rows, r: RowId, model: string, key: string)
    requires Matches(rows, r, model, key)
    ensures |Load(rows, model, key)| > 0
  {
    assert r == RowId(model, r.id) && r.id in Load(rows, model, key);
  }

  /** The rows a delete removes: those that match, and the channels of a deleted profile. */
  function Doomed(reg: Registry, rows: Rows, model: string, key: string): set<RowId> {
    set r | r in rows && (Matches(rows, r, model, key)
                          || (IsChannel(reg, r.model) && Matches(rows, ProfileOf(reg, rows[r]), model, key)))
  }

  /** Removing the rows changes this one: it goes, or loses its reference. */
  predicate Touched(rows: Rows, gone: set<RowId>, r: RowId) {
    r in rows && (r in gone || (rows[r].link.Some? && rows[r].link.value in gone))
  }

  function Unlink(row: Row, gone: set<RowId>): Row {
    if row.link.Some? && row.link.value in gone then row.(link := None) else row
  }

  /** Remove rows; nullable references to them become null. */
  function Without(rows: Rows, gone: set<RowId>): Rows {
    map r | r in rows && r !in gone :: Unlink(rows[r], gone)
  }

  function DeleteRows(reg: Registry, rows: Rows, model: string, key: string): Rows {
    Without(rows, Doomed(reg, rows, model, key))
  }

  function AnonymizeRows(rows: Rows, model: string, key: string, data: map<string, Value>): Rows {
    map r | r in rows :: if Matches(rows, r, model, key) then rows[r].(fields := rows[r].fields + data) else rows[r]
  }

  function SaveBackup(store: Store, suspension: string, identityId: string, model: string,
                      data: map<string, Row>): Store {
    store.(backups := store.backups[BackupKey(suspension, model) := Backup(identityId, Some(data), false)])
  }

  function MarkUsed(store: Store, suspension: string, model: string): Store
    requires BackupKey(suspension, model) in store.backups
  {
    var key := BackupKey(suspension, model);
    store.(backups := store.backups[key := store.backups[key].(used := true)])
  }

  /** The backup of the model exists and has not been used. */
  predicate Held(store: Store, suspension: string, model: string) {
    BackupKey(suspension, model) in store.backups && !store.backups[BackupKey(suspension, model)].used
  }

  // ---------------------------------------------------------------------------------------------
  // What a suspension keeps
  // ---------------------------------------------------------------------------------------------

  /** One suspension of one identity: the database it found, with the models its client knows. */
  datatype Case = Case(reg: Registry, client: set<string>, orig: Rows, identity: string, uid: string)

  /** The rows of an identity: its own, and the channels of its profile. */
  predicate Mine(c: Case, r: RowId) {
    && r in c.orig && r.model in c.reg.userField
    && (if IsChannel(c.reg, r.model) then Matches(c.orig, ProfileOf(c.reg, c.orig[r]), c.reg.profileModel, c.identity)
       else c.orig[r].key == c.identity)
  }

  predicate IsProfile(reg: Registry, rows: Rows, r: RowId) {
    r in rows && r.model == reg.profileModel
  }

  /** A sound database before any of this: references hold and an identity has at most one profile. */
  ghost predicate Sound(reg: Registry, orig: Rows) {
    && WellFormed(reg)
    && Intact(reg, orig)
    && (forall r :: IsProfile(reg, orig, r) ==> r.id != "")
    && (forall r, q :: IsProfile(reg, orig, r) && IsProfile(reg, orig, q) && orig[r].key == orig[q].key ==> r == q)
  }

  /** Whatever is done to an identity's rows, all other rows stay: at most a nullable reference is cleared. */
  ghost predicate OthersStay(c: Case, rows: Rows) {
    && Intact(c.reg, rows)
    && (forall r {:trigger r in rows} :: r in rows ==>
       r in c.orig && rows[r].key == c.orig[r].key && (rows[r].link == c.orig[r].link || rows[r].link == None))
    && (forall r {:trigger r in rows} :: r in c.orig && !Mine(c, r) ==> r in rows && rows[r].fields == c.orig[r].fields)
  }

  ghost predicate Unchanged(orig: Rows, rows: Rows, r: RowId)
    requires r in orig
  {
    r in rows && rows[r] == orig[r]
  }

  /** The backup holds exactly the original rows of the model. */
  ghost predicate Faithful(c: Case, backup: Backup, model: string) {
    && backup.data.Some?
    && (forall id {:trigger id in backup.data.value} :: id in backup.data.value <==> Mine(c, RowId(model, id)))
    && (forall id {:trigger id in backup.data.value} :: id in backup.data.value ==>
       backup.data.value[id] == c.orig[RowId(model, id)])
  }

  /** The identity's rows are all as they were. */
  ghost predicate OwnBack(c: Case, rows: Rows) {
    forall r {:trigger Unchanged(c.orig, rows, r)} :: r in c.orig && Mine(c, r) ==> Unchanged(c.orig, rows, r)
  }

  /** So are all other rows; otherwise some nullable reference of theirs was cleared. */
  ghost predicate OthersUnchanged(c: Case, rows: Rows) {
    forall r {:trigger Unchanged(c.orig, rows, r)} :: r in c.orig && !Mine(c, r) ==> Unchanged(c.orig, rows, r)
  }

  /**
    What nothing a suspension does takes away: rows of others are what they were, up to cleared nullable
    references, and an unused backup holds its table as it was.
  */
  ghost predicate Backed(c: Case, store: Store) {
    && OthersStay(c, store.rows)
    && (forall m {:trigger Held(store, c.uid, m)} :: Held(store, c.uid, m) ==>
          m in c.reg.userField && m in c.client && Faithful(c, store.backups[BackupKey(c.uid, m)], m))
  }

  /** The suspension's invariant: besides, a table without an unused backup is unchanged. */
  ghost predicate Recoverable(c: Case, store: Store) {
    && Backed(c, store)
    && (forall r {:trigger Unchanged(c.orig, store.rows, r)} ::
          r in c.orig && Mine(c, r) && !Held(store, c.uid, r.model) ==> Unchanged(c.orig, store.rows, r))
  }

  /** The row is in an unused backup of the suspension as it was. */
  ghost predicate InBackup(c: Case, store: Store, r: RowId)
    requires r in c.orig
  {
    && Held(store, c.uid, r.model)
    && var data := store.backups[BackupKey(c.uid, r.model)].data;
       data.Some? && r.id in data.value && data.value[r.id] == c.orig[r]
  }

  /**
    No loss: each row of the identity is still there as it was, or in an unused backup of this suspension;
    each other row is still there with its fields, and has lost at most a nullable reference.
  */
  lemma NothingLost(c: Case, store: Store, r: RowId)
    requires Recoverable(c, store) && r in c.orig
    ensures Mine(c, r) ==> Unchanged(c.orig, store.rows, r) || InBackup(c, store, r)
    ensures !Mine(c, r) ==>
      r in store.rows && (store.rows[r] == c.orig[r] || store.rows[r] == c.orig[r].(link := None))
  {
    assert RowId(r.model, r.id) == r;
    if Mine(c, r) && Held(store, c.uid, r.model) {
      assert Faithful(c, store.backups[BackupKey(c.uid, r.model)], r.model);
    }
    if !Mine(c, r) {
      OtherRowStays(c, store.rows, r);
    }
  }

  lemma OtherRowStays(c: Case, rows: Rows, r: RowId)
    requires OthersStay(c, rows) && r in c.orig && !Mine(c, r)
    ensures r in rows && (rows[r] == c.orig[r] || rows[r] == c.orig[r].(link := None))
  {
    assert r in rows;
    assert rows[r] == Row(rows[r].key, rows[r].link, rows[r].fields);
  }

  /** Once no backup is left unused the identity's rows are back. */
  lemma RestoredIsOriginal(c: Case, store: Store)
    requires Recoverable(c, store)
    requires forall m :: !Held(store, c.uid, m)
    ensures OwnBack(c, store.rows)
  {
  }

  /** The database is the original one exactly if the identity's rows are back and no reference was cleared. */
  lemma OriginalIff(c: Case, rows: Rows)
    requires OthersStay(c, rows)
    ensures rows == c.orig <==> OwnBack(c, rows) && OthersUnchanged(c, rows)
  {
    if OwnBack(c, rows) && OthersUnchanged(c, rows) {
      forall r | r in c.orig ensures Unchanged(c.orig, rows, r) {
      }
    }
  }

  lemma FreshSuspension(c: Case, store: Store)
    requires Sound(c.reg, c.orig) && store.rows == c.orig
    requires forall m :: BackupKey(c.uid, m) !in store.backups
    ensures Recoverable(c, store)
  {
  }

  // ---------------------------------------------------------------------------------------------
  // Statement by statement
  // ---------------------------------------------------------------------------------------------

  lemma WithoutIntact(reg: Registry, rows: Rows, gone: set<RowId>)
    requires Intact(reg, rows)
    requires forall r :: r in rows && IsChannel(reg, r.model) && ProfileOf(reg, rows[r]) in gone ==> r in gone
    ensures Intact(reg, Without(rows, gone))
  {
    var left := Without(rows, gone);
    forall r | r in left ensures Refers(reg, left, r.model, left[r]) {
      assert Refers(reg, rows, r.model, rows[r]);
    }
  }

  lemma DeleteIntact(reg: Registry, rows: Rows, model: string, key: string)
    requires WellFormed(reg) && Intact(reg, rows)
    ensures Intact(reg, DeleteRows(reg, rows, model, key))
  {
    var gone := Doomed(reg, rows, model, key);
    forall r | r in rows && IsChannel(reg, r.model) && ProfileOf(reg, rows[r]) in gone ensures r in gone {
      assert Matches(rows, ProfileOf(reg, rows[r]), model, key);
    }
    WithoutIntact(reg, rows, gone);
  }

  /** The key under which the identity's rows of a model are found. */
  ghost predicate KeyOf(c: Case, model: string, key: string) {
    && model in c.reg.userField
    && (if IsChannel(c.reg, model) then Matches(c.orig, RowId(c.reg.profileModel, key), c.reg.profileModel, c.identity)
       else key == c.identity)
  }

  /** Found by key means owned: the rows a statement selects are the identity's. */
  lemma MatchesAreMine(c: Case, rows: Rows, model: string, key: string, r: RowId)
    requires Sound(c.reg, c.orig) && OthersStay(c, rows) && KeyOf(c, model, key)
    requires r in rows && r.model == model
    ensures Matches(rows, r, model, key) <==> Mine(c, r)
  {
    if IsChannel(c.reg, model) && Mine(c, r) {
      assert IsProfile(c.reg, c.orig, ProfileOf(c.reg, c.orig[r]))
        && IsProfile(c.reg, c.orig, RowId(c.reg.profileModel, key));
    }
  }

  lemma DoomedAreMine(c: Case, rows: Rows, model: string, key: string)
    requires Sound(c.reg, c.orig) && OthersStay(c, rows) && KeyOf(c, model, key)
    ensures forall r :: r in Doomed(c.reg, rows, model, key) ==>
              Mine(c, r) && (r.model == model || (model == c.reg.profileModel && IsChannel(c.reg, r.model)))
  {
    forall r | r in Doomed(c.reg, rows, model, key)
      ensures Mine(c, r) && (r.model == model || (model == c.reg.profileModel && IsChannel(c.reg, r.model)))
    {
      if Matches(rows, r, model, key) {
        MatchesAreMine(c, rows, model, key, r);
      } else {
        var p := ProfileOf(c.reg, rows[r]);
        assert p.model == model == c.reg.profileModel;
        MatchesAreMine(c, rows, model, key, p);
        assert Refers(c.reg, c.orig, r.model, c.orig[r]);
      }
    }
  }

  lemma DeleteOthersStay(c: Case, rows: Rows, model: string, key: string)
    requires Sound(c.reg, c.orig) && OthersStay(c, rows) && KeyOf(c, model, key)
    ensures OthersStay(c, DeleteRows(c.reg, rows, model, key))
  {
    DeleteIntact(c.reg, rows, model, key);
    DoomedAreMine(c, rows, model, key);
  }

  lemma AnonymizeOthersStay(c: Case, rows: Rows, model: string, key: string, data: map<string, Value>)
    requires Sound(c.reg, c.orig) && OthersStay(c, rows) && KeyOf(c, model, key)
    ensures OthersStay(c, AnonymizeRows(rows, model, key, data))
  {
    var after := AnonymizeRows(rows, model, key, data);
    forall r | r in after
      ensures Refers(c.reg, after, r.model, after[r])
      ensures !Mine(c, r) ==> after[r] == rows[r]
    {
      assert Refers(c.reg, rows, r.model, rows[r]);
      if r.model == model {
        MatchesAreMine(c, rows, model, key, r);
      }
    }
  }

  /**
    Every row of the identity a delete touches, directly, by cascade or by clearing a reference, is in an unused backup.
  */
  ghost predicate Covered(c: Case, store: Store, gone: set<RowId>) {
    forall r :: Touched(store.rows, gone, r) && Mine(c, r) ==> Held(store, c.uid, r.model)
  }

  lemma CoveredDelete(c: Case, store: Store, gone: set<RowId>)
    requires Recoverable(c, store) && OthersStay(c, Without(store.rows, gone))
    requires Covered(c, store, gone)
    ensures Recoverable(c, store.(rows := Without(store.rows, gone)))
  {
    var after := store.(rows := Without(store.rows, gone));
    forall r | r in c.orig && Mine(c, r) && !Held(after, c.uid, r.model)
      ensures Unchanged(c.orig, after.rows, r)
    {
      assert Unchanged(c.orig, store.rows, r) && !Touched(store.rows, gone, r);
    }
    forall m | Held(after, c.uid, m) ensures Held(store, c.uid, m) {
    }
  }

  lemma UncoveredDelete(c: Case, store: Store, gone: set<RowId>)
    requires Recoverable(c, store) && !Covered(c, store, gone)
    ensures !Recoverable(c, store.(rows := Without(store.rows, gone)))
  {
    var after := store.(rows := Without(store.rows, gone));
    var r :| Touched(store.rows, gone, r) && Mine(c, r) && !Held(store, c.uid, r.model);
    assert Unchanged(c.orig, store.rows, r);
    assert !Unchanged(c.orig, after.rows, r);
  }

  /**
    Exactly when a delete keeps the suspension recoverable: when all of the identity it touches is in an unused backup.
  */
  lemma DeleteRecoverable(c: Case, store: Store, model: string, key: string)
    requires Sound(c.reg, c.orig) && Recoverable(c, store) && KeyOf(c, model, key)
    ensures Recoverable(c, store.(rows := DeleteRows(c.reg, store.rows, model, key)))
       <==> Covered(c, store, Doomed(c.reg, store.rows, model, key))
  {
    DeleteOthersStay(c, store.rows, model, key);
    var gone := Doomed(c.reg, store.rows, model, key);
    if Covered(c, store, gone) {
      CoveredDelete(c, store, gone);
    } else {
      UncoveredDelete(c, store, gone);
    }
  }

  lemma AnonymizeRecoverable(c: Case, store: Store,
                             model: string, key: string, data: map<string, Value>)
    requires Sound(c.reg, c.orig) && Recoverable(c, store) && KeyOf(c, model, key)
    requires Held(store, c.uid, model)
    ensures Recoverable(c, store.(rows := AnonymizeRows(store.rows, model, key, data)))
  {
    AnonymizeOthersStay(c, store.rows, model, key, data);
    var after := store.(rows := AnonymizeRows(store.rows, model, key, data));
    forall r | r in c.orig && Mine(c, r) && !Held(after, c.uid, r.model)
      ensures Unchanged(c.orig, after.rows, r)
    {
      assert Unchanged(c.orig, store.rows, r);
      if r.model == model {
        MatchesAreMine(c, store.rows, model, key, r);
      }
    }
    forall m | Held(after, c.uid, m) ensures Held(store, c.uid, m) {
    }
  }

  /** Saving what a load returned keeps the invariant, if the table had no backup: the load saw it unchanged. */
  lemma SaveRecoverable(c: Case, store: Store, model: string, key: string)
    requires Sound(c.reg, c.orig) && Recoverable(c, store) && KeyOf(c, model, key)
    requires BackupKey(c.uid, model) !in store.backups && model in c.client
    ensures Recoverable(c, SaveBackup(store, c.uid, c.identity, model, Load(store.rows, model, key)))
  {
    var data := Load(store.rows, model, key);
    var after := SaveBackup(store, c.uid, c.identity, model, data);
    assert Faithful(c, after.backups[BackupKey(c.uid, model)], model) by {
      forall id ensures id in data <==> Mine(c, RowId(model, id)) {
        var r := RowId(model, id);
        if Mine(c, r) {
          assert Unchanged(c.orig, store.rows, r);
        }
        if r in store.rows {
          MatchesAreMine(c, store.rows, model, key, r);
        }
      }
      forall id | id in data ensures data[id] == c.orig[RowId(model, id)] {
        assert Unchanged(c.orig, store.rows, RowId(model, id));
      }
    }
    forall m | Held(after, c.uid, m) && m != model ensures Held(store, c.uid, m) {
    }
    forall r | r in c.orig && Mine(c, r) && !Held(after, c.uid, r.model)
      ensures Unchanged(c.orig, after.rows, r)
    {
      assert Unchanged(c.orig, store.rows, r);
    }
  }

  /** An upsert that succeeds leaves no reference dangling. */
  lemma UpsertIntact(reg: Registry, rows: Rows, r: RowId, row: Row)
    requires Intact(reg, rows) && Refers(reg, rows, r.model, row)
    ensures Intact(reg, rows[r := row])
  {
    var after := rows[r := row];
    forall q | q in after ensures Refers(reg, after, q.model, after[q]) {
      if q != r {
        assert Refers(reg, rows, q.model, rows[q]);
      }
    }
  }

  lemma UpsertOthersStay(c: Case, rows: Rows, r: RowId)
    requires OthersStay(c, rows) && r in c.orig && Refers(c.reg, rows, r.model, c.orig[r])
    ensures OthersStay(c, rows[r := c.orig[r]])
  {
    UpsertIntact(c.reg, rows, r, c.orig[r]);
  }

  /** Writing an original row back keeps the invariant. */
  lemma UpsertRecoverable(c: Case, store: Store, r: RowId)
    requires Recoverable(c, store) && r in c.orig
    requires Refers(c.reg, store.rows, r.model, c.orig[r])
    ensures Recoverable(c, store.(rows := store.rows[r := c.orig[r]]))
  {
    UpsertOthersStay(c, store.rows, r);
    var after := store.(rows := store.rows[r := c.orig[r]]);
    forall q | q in c.orig && Mine(c, q) && !Held(after, c.uid, q.model)
      ensures Unchanged(c.orig, after.rows, q)
    {
      assert Unchanged(c.orig, store.rows, q);
    }
    forall m | Held(after, c.uid, m)
      ensures m in c.reg.userField && m in c.client && Faithful(c, after.backups[BackupKey(c.uid, m)], m)
    {
      assert Held(store, c.uid, m);
    }
  }

  /** Exactly when a backup may be marked used: when every row it holds is back as it was. */
  lemma MarkUsedRecoverable(c: Case, store: Store, model: string)
    requires Recoverable(c, store) && Held(store, c.uid, model)
    ensures Recoverable(c, MarkUsed(store, c.uid, model))
       <==> forall r :: Mine(c, r) && r.model == model ==> Unchanged(c.orig, store.rows, r)
  {
    var after := MarkUsed(store, c.uid, model);
    assert forall m :: Held(after, c.uid, m) <==> Held(store, c.uid, m) && m != model;
    if forall r :: Mine(c, r) && r.model == model ==> Unchanged(c.orig, store.rows, r) {
      forall r | r in c.orig && Mine(c, r) && !Held(after, c.uid, r.model)
        ensures Unchanged(c.orig, after.rows, r)
      {
      }
    }
  }
}
