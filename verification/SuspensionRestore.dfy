/**
  Recovering a suspension from its backups: parents first, row by row, each backup marked used at the
  end of its turn. A row whose upsert fails is skipped, and the process may stop before any statement.
*/
module SuspensionRestore {
  import opened Options
  import opened SuspensionStore

  /** A backup as the query returned it: its model, and its rows in the order they are listed. */
  datatype Entry = Entry(model: string, ids: seq<string>)

  /** Upserts that fail for other reasons than references, and upserts that are executed but not answered. */
  datatype Faults = Faults(fails: set<RowId>, unanswered: set<RowId>)

  datatype RowsRestored = RowsRestored(rows: Rows, budget: nat, count: nat, died: bool)

  datatype RestoreSummary = RestoreSummary(table: string, rows: nat, restored: bool)

  datatype Restoration = Restoration(store: Store, budget: nat, summaries: seq<RestoreSummary>, totalRowsRestored: nat,
    died: bool)

  // ---------------------------------------------------------------------------------------------
  // Order of the backups
  // ---------------------------------------------------------------------------------------------

  /** The backups of one group, in the order given; a model the registry does not know counts as a parent. */
  function Group(reg: Registry, entries: seq<Entry>, children: bool): (r: seq<Entry>)
    ensures forall e :: e in r <==> e in entries && IsChild(reg, e.model) == children
    ensures |r| <= |entries|
  {
    if entries == [] then []
    else
      var last := entries[|entries| - 1];
      Group(reg, entries[..|entries| - 1], children) + if IsChild(reg, last.model) == children then [last] else []
  }

  function ParentsFirst(reg: Registry, entries: seq<Entry>): seq<Entry> {
    Group(reg, entries, false) + Group(reg, entries, true)
  }

  lemma GroupsGrow(pre: seq<Entry>, last: Entry, a: seq<Entry>, b: seq<Entry>)
    requires multiset(pre) == multiset(a) + multiset(b)
    ensures multiset(pre + [last]) == multiset(a + [last]) + multiset(b)
    ensures multiset(pre + [last]) == multiset(a) + multiset(b + [last])
  {
  }

  lemma {:induction false} GroupsCover(reg: Registry, entries: seq<Entry>)
    ensures multiset(entries) == multiset(Group(reg, entries, false)) + multiset(Group(reg, entries, true))
  {
    if entries == [] {
    } else {
      var pre, last := entries[..|entries| - 1], entries[|entries| - 1];
      GroupsCover(reg, pre);
      GroupsGrow(pre, last, Group(reg, pre, false), Group(reg, pre, true));
      assert entries == pre + [last];
      if IsChild(reg, last.model) {
        assert Group(reg, entries, true) == Group(reg, pre, true) + [last]
          && Group(reg, entries, false) == Group(reg, pre, false);
      } else {
        assert Group(reg, entries, false) == Group(reg, pre, false) + [last]
          && Group(reg, entries, true) == Group(reg, pre, true);
      }
    }
  }

  /** The sort loses and repeats nothing, and no parent follows a child. */
  lemma ParentsFirstSorts(reg: Registry, entries: seq<Entry>)
    ensures multiset(ParentsFirst(reg, entries)) == multiset(entries)
    ensures |ParentsFirst(reg, entries)| == |entries|
    ensures ParentsLead(reg, ParentsFirst(reg, entries))
    ensures forall e :: e in ParentsFirst(reg, entries) <==> e in entries
  {
    GroupsCover(reg, entries);
    var sorted := ParentsFirst(reg, entries);
    assert |sorted| == |multiset(sorted)| && |entries| == |multiset(entries)|;
    var split := |Group(reg, entries, false)|;
    forall i | 0 <= i < |sorted| ensures IsChild(reg, sorted[i].model) == (i >= split) {
      if i < split {
        assert sorted[i] in Group(reg, entries, false);
      } else {
        assert sorted[i] in Group(reg, entries, true);
      }
    }
  }

  ghost predicate ParentsLead(reg: Registry, entries: seq<Entry>) {
    forall i, j :: 0 <= i < j < |entries| && IsChild(reg, entries[i].model) ==> IsChild(reg, entries[j].model)
  }

  // ---------------------------------------------------------------------------------------------
  // One backup
  // ---------------------------------------------------------------------------------------------

  /** The first n rows of a backup, upserted one by one; a row counts if its upsert is answered. */
  function RestoreRows(reg: Registry, rows: Rows, budget: nat, model: string, data: map<string, Row>,
                       ids: seq<string>, n: nat, faults: Faults): RowsRestored
    requires n <= |ids| && forall id :: id in ids ==> id in data
  {
    if n == 0 then RowsRestored(rows, budget, 0, false)
    else
      var b := RestoreRows(reg, rows, budget, model, data, ids, n - 1, faults);
      var id := ids[n - 1];
      if b.died then b
      else if b.budget == 0 then b.(died := true)
      else if RowId(model, id) in faults.fails || !Refers(reg, b.rows, model, data[id]) then b.(budget := b.budget - 1)
      else
        RowsRestored(b.rows[RowId(model, id) := data[id]], b.budget - 1,
                     b.count + if RowId(model, id) in faults.unanswered then 0 else 1, false)
  }

  /** The entry lists each row of the backup once. */
  ghost predicate Lists(e: Entry, data: map<string, Row>) {
    && (forall id :: id in e.ids <==> id in data)
    && (forall i, j :: 0 <= i < j < |e.ids| ==> e.ids[i] != e.ids[j])
  }

  /** The entry is one of the suspension's unused backups, with its rows if they are a valid array. */
  ghost predicate Names(store: Store, uid: string, e: Entry) {
    && Held(store, uid, e.model)
    && (store.backups[BackupKey(uid, e.model)].data.Some? ==>
       Lists(e, store.backups[BackupKey(uid, e.model)].data.value))
  }

  /** The backup can be restored from: it holds an array with the rows listed. */
  predicate Restorable(store: Store, uid: string, e: Entry) {
    var key := BackupKey(uid, e.model);
    && key in store.backups
    && store.backups[key].data.Some?
    && forall id :: id in e.ids ==> id in store.backups[key].data.value
  }

  /** Marking the backup used is the last statement of its turn. */
  function Finish(store: Store, rows: Rows, budget: nat, uid: string, model: string, summary: RestoreSummary,
                  before: Restoration): Restoration
    requires BackupKey(uid, model) in store.backups
  {
    var now := store.(rows := rows);
    var summaries, total := before.summaries + [summary], before.totalRowsRestored + summary.rows;
    if budget == 0 then Restoration(now, 0, summaries, total, true)
    else Restoration(MarkUsed(now, uid, model), budget - 1, summaries, total, false)
  }

  /** One backup's turn, following what was restored before; invalid data is skipped and stays unused. */
  function RestoreEntry(reg: Registry, client: set<string>, before: Restoration, uid: string, e: Entry,
                        faults: Faults): Restoration {
    if !Restorable(before.store, uid, e) then before
    else if e.model !in client then
      Finish(before.store, before.store.rows, before.budget, uid, e.model, RestoreSummary(e.model, 0, false), before)
    else
      var data := before.store.backups[BackupKey(uid, e.model)].data.value;
      var b := RestoreRows(reg, before.store.rows, before.budget, e.model, data, e.ids, |e.ids|, faults);
      if b.died then before.(store := before.store.(rows := b.rows), budget := 0, died := true)
      else Finish(before.store, b.rows, b.budget, uid, e.model, RestoreSummary(e.model, b.count, true), before)
  }

  lemma DataIsOriginal(c: Case, store: Store, model: string, id: string)
    requires Backed(c, store) && Held(store, c.uid, model)
    ensures store.backups[BackupKey(c.uid, model)].data.Some?
    ensures var data := store.backups[BackupKey(c.uid, model)].data.value;
      id in data ==> Mine(c, RowId(model, id)) && data[id] == c.orig[RowId(model, id)]
  {
  }

  /** Stopped anywhere among its rows, and whatever upserts fail, a restore keeps the suspension recoverable. */
  lemma {:induction false} RowsRecoverable(c: Case, store: Store, budget: nat, e: Entry, n: nat, faults: Faults)
    requires Recoverable(c, store) && Names(store, c.uid, e) && n <= |e.ids|
    ensures var backup := store.backups[BackupKey(c.uid, e.model)];
      && backup.data.Some?
      && Recoverable(c, store.(rows :=
         RestoreRows(c.reg, store.rows, budget, e.model, backup.data.value, e.ids, n, faults).rows))
  {
    var data := store.backups[BackupKey(c.uid, e.model)].data.value;
    if n == 0 {
      assert store.(rows := store.rows) == store;
    } else {
      RowsRecoverable(c, store, budget, e, n - 1, faults);
      var b := RestoreRows(c.reg, store.rows, budget, e.model, data, e.ids, n - 1, faults);
      var id := e.ids[n - 1];
      DataIsOriginal(c, store, e.model, id);
      if Refers(c.reg, b.rows, e.model, data[id]) {
        UpsertRecoverable(c, store.(rows := b.rows), RowId(e.model, id));
      }
    }
  }

  // ---------------------------------------------------------------------------------------------
  // All backups
  // ---------------------------------------------------------------------------------------------

  function RestoreRun(reg: Registry, client: set<string>, store: Store, budget: nat, uid: string,
                      sorted: seq<Entry>, n: nat, faults: Faults): Restoration
    requires n <= |sorted|
  {
    if n == 0 then Restoration(store, budget, [], 0, false)
    else
      var b := RestoreRun(reg, client, store, budget, uid, sorted, n - 1, faults);
      if b.died then b else RestoreEntry(reg, client, b, uid, sorted[n - 1], faults)
  }

  /** restoreFromBackups, on the unused backups in the order the query returned them. */
  function RestoreFromBackups(reg: Registry, client: set<string>, store: Store, budget: nat, uid: string,
                              entries: seq<Entry>, faults: Faults): Restoration {
    var sorted := ParentsFirst(reg, entries);
    RestoreRun(reg, client, store, budget, uid, sorted, |sorted|, faults)
  }

  /** The query's result: each unused backup of the suspension, once. */
  ghost predicate ListsHeld(store: Store, uid: string, entries: seq<Entry>) {
    && (forall i :: 0 <= i < |entries| ==> Names(store, uid, entries[i]))
    && (forall m :: Held(store, uid, m) ==> exists i :: 0 <= i < |entries| && entries[i].model == m)
    && (forall i, j :: 0 <= i < j < |entries| ==> entries[i].model != entries[j].model)
  }

  // ---------------------------------------------------------------------------------------------
  // When a row's references are there
  // ---------------------------------------------------------------------------------------------

  /** The row at a position: the i-th of the a-th backup. */
  function At(sorted: seq<Entry>, a: nat, i: nat): RowId
    requires a < |sorted| && i < |sorted[a].ids|
  {
    RowId(sorted[a].model, sorted[a].ids[i])
  }

  /** The row is listed at a position before the i-th row of the a-th backup. */
  ghost predicate Listed(sorted: seq<Entry>, r: RowId, a: nat, i: nat) {
    exists b: nat, k: nat {:trigger At(sorted, b, k)} ::
      b < |sorted| && k < |sorted[b].ids| && (b < a || (b == a && k < i)) && r == At(sorted, b, k)
  }

  /** Every position lists another row, and one the suspension knows. */
  ghost predicate ListsRows(c: Case, sorted: seq<Entry>) {
    && (forall i, j :: 0 <= i < j < |sorted| ==> sorted[i].model != sorted[j].model)
    && (forall a, i, j :: 0 <= a < |sorted| && 0 <= i < j < |sorted[a].ids| ==> sorted[a].ids[i] != sorted[a].ids[j])
    && (forall a: nat, i: nat {:trigger At(sorted, a, i)} :: a < |sorted| && i < |sorted[a].ids| ==>
       Mine(c, At(sorted, a, i)))
  }

  lemma ListedOneMore(sorted: seq<Entry>, r: RowId, a: nat, i: nat)
    requires a < |sorted| && i < |sorted[a].ids|
    ensures Listed(sorted, r, a, i + 1) <==> Listed(sorted, r, a, i) || r == At(sorted, a, i)
  {
  }

  lemma ListedNext(sorted: seq<Entry>, r: RowId, a: nat)
    requires a < |sorted|
    ensures Listed(sorted, r, a + 1, 0) <==> Listed(sorted, r, a, |sorted[a].ids|)
  {
  }

  lemma NotListedYet(c: Case, sorted: seq<Entry>, a: nat, i: nat)
    requires ListsRows(c, sorted) && a < |sorted| && i < |sorted[a].ids|
    ensures !Listed(sorted, At(sorted, a, i), a, i)
  {
  }

  /** The row is there when the restore begins, or listed before. */
  ghost predicate Comes(rows: Rows, sorted: seq<Entry>, r: RowId, a: nat, i: nat) {
    r in rows || Listed(sorted, r, a, i)
  }

  /** So are all the rows this one refers to. */
  ghost predicate RefsCome(c: Case, rows: Rows, sorted: seq<Entry>, r: RowId, a: nat, i: nat)
    requires r in c.orig
  {
    && (IsChannel(c.reg, r.model) ==> Comes(rows, sorted, ProfileOf(c.reg, c.orig[r]), a, i))
    && (c.orig[r].link.Some? ==> Comes(rows, sorted, c.orig[r].link.value, a, i))
  }

  /** The row at the position is there as it was, or its upsert will succeed if those before it do. */
  ghost predicate WelcomeAt(c: Case, rows: Rows, sorted: seq<Entry>, faults: Faults, a: nat, i: nat)
    requires a < |sorted| && i < |sorted[a].ids| && At(sorted, a, i) in c.orig
  {
    var r := At(sorted, a, i);
    Unchanged(c.orig, rows, r) || (r !in faults.fails && RefsCome(c, rows, sorted, r, a, i))
  }

  ghost predicate WelcomeInTime(c: Case, rows: Rows, sorted: seq<Entry>, faults: Faults)
    requires ListsRows(c, sorted)
  {
    forall a: nat, i: nat {:trigger At(sorted, a, i)} :: a < |sorted| && i < |sorted[a].ids| ==>
      WelcomeAt(c, rows, sorted, faults, a, i)
  }

  // ---------------------------------------------------------------------------------------------
  // Which rows come back
  // ---------------------------------------------------------------------------------------------

  /**
    The row at the position is there as it was when the restore begins, or its upsert does not fail and
    each row it refers to is there then, or is listed before it and comes back itself.
  */
  ghost predicate ComesBack(c: Case, rows: Rows, sorted: seq<Entry>, faults: Faults, a: nat, i: nat)
    requires ListsRows(c, sorted) && a < |sorted| && i < |sorted[a].ids|
    decreases a, i, 2
  {
    Unchanged(c.orig, rows, At(sorted, a, i)) || Succeeds(c, rows, sorted, faults, a, i)
  }

  /** The upsert of the row at the position succeeds. */
  ghost predicate Succeeds(c: Case, rows: Rows, sorted: seq<Entry>, faults: Faults, a: nat, i: nat)
    requires ListsRows(c, sorted) && a < |sorted| && i < |sorted[a].ids|
    decreases a, i, 1
  {
    var r := At(sorted, a, i);
    && r !in faults.fails
    && (IsChannel(c.reg, r.model) ==> ThereAt(c, rows, sorted, faults, ProfileOf(c.reg, c.orig[r]), a, i))
    && (c.orig[r].link.Some? ==> ThereAt(c, rows, sorted, faults, c.orig[r].link.value, a, i))
  }

  /** The row is there when the restore comes to the position. */
  ghost predicate ThereAt(c: Case, rows: Rows, sorted: seq<Entry>, faults: Faults, t: RowId, a: nat, i: nat)
    requires ListsRows(c, sorted)
    decreases a, i, 0
  {
    t in rows || exists b: nat, k: nat {:trigger At(sorted, b, k)} ::
      && b < |sorted| && k < |sorted[b].ids| && (b < a || (b == a && k < i))
      && t == At(sorted, b, k) && ComesBack(c, rows, sorted, faults, b, k)
  }

  /** All listed rows come back. */
  ghost predicate AllComeBack(c: Case, rows: Rows, sorted: seq<Entry>, faults: Faults)
    requires ListsRows(c, sorted)
  {
    forall a: nat, i: nat {:trigger At(sorted, a, i)} :: a < |sorted| && i < |sorted[a].ids| ==>
      ComesBack(c, rows, sorted, faults, a, i)
  }

  lemma {:induction false} WelcomeComesBack(c: Case, rows: Rows, sorted: seq<Entry>, faults: Faults, a: nat, i: nat)
    requires ListsRows(c, sorted) && WelcomeInTime(c, rows, sorted, faults) && a < |sorted| && i < |sorted[a].ids|
    ensures ComesBack(c, rows, sorted, faults, a, i)
    decreases a, i, 1
  {
    var r := At(sorted, a, i);
    assert WelcomeAt(c, rows, sorted, faults, a, i);
    if !Unchanged(c.orig, rows, r) {
      if IsChannel(c.reg, r.model) {
        ComesThere(c, rows, sorted, faults, ProfileOf(c.reg, c.orig[r]), a, i);
      }
      if c.orig[r].link.Some? {
        ComesThere(c, rows, sorted, faults, c.orig[r].link.value, a, i);
      }
    }
  }

  lemma {:induction false} ComesThere(c: Case, rows: Rows, sorted: seq<Entry>, faults: Faults, t: RowId, a: nat, i: nat)
    requires ListsRows(c, sorted) && WelcomeInTime(c, rows, sorted, faults) && Comes(rows, sorted, t, a, i)
    ensures ThereAt(c, rows, sorted, faults, t, a, i)
    decreases a, i, 0
  {
    if t !in rows {
      var b: nat, k: nat :| b < |sorted| && k < |sorted[b].ids| && (b < a || (b == a && k < i))
        && t == At(sorted, b, k);
      WelcomeComesBack(c, rows, sorted, faults, b, k);
    }
  }

  /** All come back exactly if each is welcome, which needs no look at the others' own references. */
  lemma AllBackIffWelcome(c: Case, rows: Rows, sorted: seq<Entry>, faults: Faults)
    requires ListsRows(c, sorted)
    ensures AllComeBack(c, rows, sorted, faults) <==> WelcomeInTime(c, rows, sorted, faults)
  {
    if WelcomeInTime(c, rows, sorted, faults) {
      forall a: nat, i: nat | a < |sorted| && i < |sorted[a].ids| ensures ComesBack(c, rows, sorted, faults, a, i) {
        WelcomeComesBack(c, rows, sorted, faults, a, i);
      }
    }
    if AllComeBack(c, rows, sorted, faults) {
      forall a: nat, i: nat | a < |sorted| && i < |sorted[a].ids| ensures WelcomeAt(c, rows, sorted, faults, a, i) {
        BackIsWelcome(c, rows, sorted, faults, a, i);
      }
    }
  }

  lemma ThereComes(c: Case, rows: Rows, sorted: seq<Entry>, faults: Faults, t: RowId, a: nat, i: nat)
    requires ListsRows(c, sorted) && ThereAt(c, rows, sorted, faults, t, a, i)
    ensures Comes(rows, sorted, t, a, i)
  {
    if t !in rows {
      var b: nat, k: nat :| b < |sorted| && k < |sorted[b].ids| && (b < a || (b == a && k < i))
        && t == At(sorted, b, k) && ComesBack(c, rows, sorted, faults, b, k);
    }
  }

  lemma BackIsWelcome(c: Case, rows: Rows, sorted: seq<Entry>, faults: Faults, a: nat, i: nat)
    requires ListsRows(c, sorted) && a < |sorted| && i < |sorted[a].ids| && ComesBack(c, rows, sorted, faults, a, i)
    ensures WelcomeAt(c, rows, sorted, faults, a, i)
  {
    var r := At(sorted, a, i);
    if !Unchanged(c.orig, rows, r) {
      if IsChannel(c.reg, r.model) {
        ThereComes(c, rows, sorted, faults, ProfileOf(c.reg, c.orig[r]), a, i);
      }
      if c.orig[r].link.Some? {
        ThereComes(c, rows, sorted, faults, c.orig[r].link.value, a, i);
      }
    }
  }

  // ---------------------------------------------------------------------------------------------
  // Row by row
  // ---------------------------------------------------------------------------------------------

  /** No row goes, and each is as it was when the restore began, or as it was originally and listed by now. */
  ghost predicate Steady(c: Case, start: Rows, now: Rows, sorted: seq<Entry>, a: nat, i: nat) {
    && (forall r {:trigger r in start} {:trigger r in now} :: r in start ==> r in now)
    && (forall r {:trigger r in now} :: r in now ==>
          || (r in start && now[r] == start[r])
          || (Listed(sorted, r, a, i) && r in c.orig && now[r] == c.orig[r]))
  }

  /** Of the rows listed so far exactly those are back that come back. */
  ghost predicate Settled(c: Case, start: Rows, now: Rows, sorted: seq<Entry>, faults: Faults, a: nat, i: nat)
    requires ListsRows(c, sorted)
  {
    forall b: nat, k: nat {:trigger At(sorted, b, k)} ::
      b < |sorted| && k < |sorted[b].ids| && (b < a || (b == a && k < i)) ==>
        (Unchanged(c.orig, now, At(sorted, b, k)) <==> ComesBack(c, start, sorted, faults, b, k))
  }

  /** How far a restore has got. */
  ghost predicate Account(c: Case, start: Rows, now: Rows, sorted: seq<Entry>, faults: Faults, a: nat, i: nat)
    requires ListsRows(c, sorted)
  {
    Steady(c, start, now, sorted, a, i) && Settled(c, start, now, sorted, faults, a, i)
  }

  function Upserted(c: Case, now: Rows, faults: Faults, r: RowId): Rows
    requires r in c.orig
  {
    if r in faults.fails || !Refers(c.reg, now, r.model, c.orig[r]) then now else now[r := c.orig[r]]
  }

  lemma UpsertSteady(c: Case, start: Rows, now: Rows, sorted: seq<Entry>, faults: Faults, a: nat, i: nat)
    requires ListsRows(c, sorted) && a < |sorted| && i < |sorted[a].ids| && Steady(c, start, now, sorted, a, i)
    ensures Steady(c, start, Upserted(c, now, faults, At(sorted, a, i)), sorted, a, i + 1)
  {
    forall r ensures Listed(sorted, r, a, i + 1) <==> Listed(sorted, r, a, i) || r == At(sorted, a, i) {
      ListedOneMore(sorted, r, a, i);
    }
  }

  /** The rows that are there are those that ought to be. */
  lemma ThereIff(c: Case, start: Rows, now: Rows, sorted: seq<Entry>, faults: Faults, t: RowId, a: nat, i: nat)
    requires ListsRows(c, sorted) && Account(c, start, now, sorted, faults, a, i)
    ensures t in now <==> ThereAt(c, start, sorted, faults, t, a, i)
  {
    if t in now && t !in start {
      var b: nat, k: nat :| b < |sorted| && k < |sorted[b].ids| && (b < a || (b == a && k < i))
        && t == At(sorted, b, k);
      assert Unchanged(c.orig, now, At(sorted, b, k));
    }
    if ThereAt(c, start, sorted, faults, t, a, i) && t !in start {
      var b: nat, k: nat :| b < |sorted| && k < |sorted[b].ids| && (b < a || (b == a && k < i))
        && t == At(sorted, b, k) && ComesBack(c, start, sorted, faults, b, k);
      assert Unchanged(c.orig, now, At(sorted, b, k));
    }
  }

  /** A row that has had its turn is back exactly if it comes back. */
  lemma BackAfterTurn(c: Case, start: Rows, now: Rows, sorted: seq<Entry>, faults: Faults, a: nat, i: nat)
    requires ListsRows(c, sorted) && a < |sorted| && i < |sorted[a].ids|
    requires Account(c, start, now, sorted, faults, a, i)
    ensures var r := At(sorted, a, i);
      Unchanged(c.orig, Upserted(c, now, faults, r), r) <==> ComesBack(c, start, sorted, faults, a, i)
  {
    var r := At(sorted, a, i);
    NotListedYet(c, sorted, a, i);
    if IsChannel(c.reg, r.model) {
      ThereIff(c, start, now, sorted, faults, ProfileOf(c.reg, c.orig[r]), a, i);
    }
    if c.orig[r].link.Some? {
      ThereIff(c, start, now, sorted, faults, c.orig[r].link.value, a, i);
    }
  }

  lemma UpsertSettled(c: Case, start: Rows, now: Rows, sorted: seq<Entry>, faults: Faults, a: nat, i: nat)
    requires ListsRows(c, sorted) && a < |sorted| && i < |sorted[a].ids|
    requires Account(c, start, now, sorted, faults, a, i)
    ensures Settled(c, start, Upserted(c, now, faults, At(sorted, a, i)), sorted, faults, a, i + 1)
  {
    var after := Upserted(c, now, faults, At(sorted, a, i));
    BackAfterTurn(c, start, now, sorted, faults, a, i);
    forall b: nat, k: nat | b < |sorted| && k < |sorted[b].ids| && (b < a || (b == a && k < i + 1))
      ensures Unchanged(c.orig, after, At(sorted, b, k)) <==> ComesBack(c, start, sorted, faults, b, k)
    {
      if b < a || k < i {
        NotListedYet(c, sorted, a, i);
        assert At(sorted, b, k) != At(sorted, a, i);
      }
    }
  }

  lemma AccountNext(c: Case, start: Rows, now: Rows, sorted: seq<Entry>, faults: Faults, a: nat)
    requires ListsRows(c, sorted) && a < |sorted| && Account(c, start, now, sorted, faults, a, |sorted[a].ids|)
    ensures Account(c, start, now, sorted, faults, a + 1, 0)
  {
    forall r ensures Listed(sorted, r, a + 1, 0) <==> Listed(sorted, r, a, |sorted[a].ids|) {
      ListedNext(sorted, r, a);
    }
  }

  /** The data of the a-th backup is the original rows it lists. */
  ghost predicate Holds(c: Case, sorted: seq<Entry>, a: nat, data: map<string, Row>)
    requires ListsRows(c, sorted) && a < |sorted|
  {
    && (forall id :: id in sorted[a].ids ==> id in data)
    && (forall i: nat {:trigger At(sorted, a, i)} :: i < |sorted[a].ids| ==>
       data[sorted[a].ids[i]] == c.orig[At(sorted, a, i)])
  }

  /** One row's turn is an upsert of the original row, if the process lives to execute it. */
  lemma RowTurn(c: Case, rows: Rows, budget: nat, sorted: seq<Entry>, a: nat, data: map<string, Row>, i: nat,
                faults: Faults, b: RowsRestored)
    requires ListsRows(c, sorted) && a < |sorted| && i < |sorted[a].ids| && Holds(c, sorted, a, data)
    requires b == RestoreRows(c.reg, rows, budget, sorted[a].model, data, sorted[a].ids, i, faults)
    ensures var z := RestoreRows(c.reg, rows, budget, sorted[a].model, data, sorted[a].ids, i + 1, faults);
      if b.died || b.budget == 0 then z == b.(died := true)
      else !z.died && z.budget == b.budget - 1 && z.rows == Upserted(c, b.rows, faults, At(sorted, a, i))
  {
    assert At(sorted, a, i) == RowId(sorted[a].model, sorted[a].ids[i]);
  }

  function Least(x: nat, y: nat): nat {
    if x < y then x else y
  }

  /** Of n rows of the a-th backup the process has taken up as many as it had statements for. */
  ghost predicate RowsAt(c: Case, start: Rows, rows: Rows, budget: nat, sorted: seq<Entry>, a: nat,
                         data: map<string, Row>, n: nat, faults: Faults)
    requires ListsRows(c, sorted) && a < |sorted| && n <= |sorted[a].ids| && Holds(c, sorted, a, data)
  {
    var z := RestoreRows(c.reg, rows, budget, sorted[a].model, data, sorted[a].ids, n, faults);
    && z.died == (budget < n) && z.budget == budget - Least(budget, n)
    && Account(c, start, z.rows, sorted, faults, a, Least(budget, n))
  }

  lemma NextRow(c: Case, start: Rows, rows: Rows, budget: nat, sorted: seq<Entry>, a: nat, data: map<string, Row>,
                i: nat, n: nat, faults: Faults)
    requires ListsRows(c, sorted) && a < |sorted| && n == i + 1 <= |sorted[a].ids| && Holds(c, sorted, a, data)
    requires RowsAt(c, start, rows, budget, sorted, a, data, i, faults)
    ensures RowsAt(c, start, rows, budget, sorted, a, data, n, faults)
  {
    var b := RestoreRows(c.reg, rows, budget, sorted[a].model, data, sorted[a].ids, i, faults);
    RowTurn(c, rows, budget, sorted, a, data, i, faults, b);
    if budget > i {
      UpsertSteady(c, start, b.rows, sorted, faults, a, i);
      UpsertSettled(c, start, b.rows, sorted, faults, a, i);
    }
  }

  lemma {:induction false} RowsAccount(c: Case, start: Rows, rows: Rows, budget: nat, sorted: seq<Entry>, a: nat,
                                       data: map<string, Row>, n: nat, faults: Faults)
    requires ListsRows(c, sorted) && a < |sorted| && n <= |sorted[a].ids| && Holds(c, sorted, a, data)
    requires Account(c, start, rows, sorted, faults, a, 0)
    ensures RowsAt(c, start, rows, budget, sorted, a, data, n, faults)
  {
    if n == 0 {
    } else {
      var i: nat := n - 1;
      RowsAccount(c, start, rows, budget, sorted, a, data, i, faults);
      NextRow(c, start, rows, budget, sorted, a, data, i, n, faults);
    }
  }

  // ---------------------------------------------------------------------------------------------
  // Backup by backup
  // ---------------------------------------------------------------------------------------------

  /** The first n backups are used, the others as they were. */
  ghost predicate UsedUpTo(start: Store, now: Store, uid: string, sorted: seq<Entry>, n: nat)
    requires n <= |sorted|
  {
    && (forall j :: 0 <= j < n ==> !Held(now, uid, sorted[j].model))
    && (forall j :: n <= j < |sorted| ==>
          && Held(start, uid, sorted[j].model) && Held(now, uid, sorted[j].model)
          && now.backups[BackupKey(uid, sorted[j].model)] == start.backups[BackupKey(uid, sorted[j].model)])
    && (forall m :: Held(now, uid, m) ==> Held(start, uid, m))
  }

  lemma UsedOneMore(start: Store, before: Store, now: Store, uid: string, sorted: seq<Entry>, n: nat)
    requires n < |sorted| && UsedUpTo(start, before, uid, sorted, n)
    requires forall i, j :: 0 <= i < j < |sorted| ==> sorted[i].model != sorted[j].model
    requires now.backups == MarkUsed(before, uid, sorted[n].model).backups
    ensures UsedUpTo(start, now, uid, sorted, n + 1)
  {
    forall m ensures Held(now, uid, m) <==> Held(before, uid, m) && m != sorted[n].model {
    }
  }

  /** The restore has used up the first a backups and taken up i rows of the next. */
  ghost predicate Stands(c: Case, start: Store, now: Store, sorted: seq<Entry>, faults: Faults, a: nat, i: nat)
    requires a <= |sorted| && ListsRows(c, sorted)
  {
    Account(c, start.rows, now.rows, sorted, faults, a, i) && UsedUpTo(start, now, c.uid, sorted, a)
  }

  /** The listed backups are the suspension's, and hold what they list. */
  ghost predicate Known(c: Case, store: Store, sorted: seq<Entry>)
    requires ListsRows(c, sorted)
  {
    forall j :: 0 <= j < |sorted| ==> KnownAt(c, store, sorted, j)
  }

  ghost predicate KnownAt(c: Case, store: Store, sorted: seq<Entry>, j: nat)
    requires ListsRows(c, sorted) && j < |sorted|
  {
    && sorted[j].model in c.client && Names(store, c.uid, sorted[j])
    && var data := store.backups[BackupKey(c.uid, sorted[j].model)].data;
       data.Some? && Holds(c, sorted, j, data.value)
  }

  lemma HeldLists(c: Case, store: Store, sorted: seq<Entry>)
    requires Backed(c, store) && ListsHeld(store, c.uid, sorted)
    ensures ListsRows(c, sorted) && Known(c, store, sorted)
  {
    forall a: nat, i: nat | a < |sorted| && i < |sorted[a].ids|
      ensures Mine(c, At(sorted, a, i))
      ensures store.backups[BackupKey(c.uid, sorted[a].model)].data.Some?
      ensures sorted[a].ids[i] in store.backups[BackupKey(c.uid, sorted[a].model)].data.value
      ensures store.backups[BackupKey(c.uid, sorted[a].model)].data.value[sorted[a].ids[i]] == c.orig[At(sorted, a, i)]
    {
      assert Names(store, c.uid, sorted[a]);
      DataIsOriginal(c, store, sorted[a].model, sorted[a].ids[i]);
    }
    forall j | 0 <= j < |sorted| ensures sorted[j].model in c.client && Names(store, c.uid, sorted[j]) {
      assert Held(store, c.uid, sorted[j].model);
    }
    forall j, id | 0 <= j < |sorted| && id in sorted[j].ids
      ensures store.backups[BackupKey(c.uid, sorted[j].model)].data.Some?
      ensures id in store.backups[BackupKey(c.uid, sorted[j].model)].data.value
    {
      assert Names(store, c.uid, sorted[j]);
      DataIsOriginal(c, store, sorted[j].model, id);
    }
    forall j | 0 <= j < |sorted| ensures store.backups[BackupKey(c.uid, sorted[j].model)].data.Some? {
      DataIsOriginal(c, store, sorted[j].model, "");
    }
  }

  /** A backup's turn: its rows, and then the mark. */
  lemma EntryTurn(c: Case, before: Restoration, sorted: seq<Entry>, a: nat, data: map<string, Row>, faults: Faults)
    requires ListsRows(c, sorted) && a < |sorted| && sorted[a].model in c.client
      && Held(before.store, c.uid, sorted[a].model)
    requires before.store.backups[BackupKey(c.uid, sorted[a].model)].data == Some(data) && Holds(c, sorted, a, data)
    requires !before.died
    ensures var e := sorted[a];
      var rows := RestoreRows(c.reg, before.store.rows, before.budget, e.model, data, e.ids, |e.ids|, faults);
      var z := RestoreEntry(c.reg, c.client, before, c.uid, e, faults);
      var now := before.store.(rows := rows.rows);
      && z.died == (rows.died || rows.budget == 0)
      && z.store == (if z.died then now else MarkUsed(now, c.uid, e.model))
      && (!z.died ==> z.budget == rows.budget - 1)
  {
  }

  /** What a backup's turn comes to, from a store in which the first a backups are used. */
  lemma EntryStands(c: Case, start: Store, before: Restoration, sorted: seq<Entry>, a: nat, faults: Faults,
                    z: Restoration)
    requires ListsRows(c, sorted) && a < |sorted| && KnownAt(c, start, sorted, a)
    requires !before.died && Stands(c, start, before.store, sorted, faults, a, 0)
    requires z == RestoreEntry(c.reg, c.client, before, c.uid, sorted[a], faults)
    ensures z.died <==> before.budget <= |sorted[a].ids|
    ensures z.died ==> Stands(c, start, z.store, sorted, faults, a, before.budget)
    ensures !z.died ==>
      Stands(c, start, z.store, sorted, faults, a + 1, 0) && z.budget == before.budget - |sorted[a].ids| - 1
  {
    var e := sorted[a];
    var data := start.backups[BackupKey(c.uid, e.model)].data.value;
    EntryTurn(c, before, sorted, a, data, faults);
    RowsAccount(c, start.rows, before.store.rows, before.budget, sorted, a, data, |e.ids|, faults);
    if !z.died {
      AccountNext(c, start.rows, z.store.rows, sorted, faults, a);
      UsedOneMore(start, before.store, z.store, c.uid, sorted, a);
    }
  }

  /** The statements the first n backups take: one for each row, and one to mark the backup used. */
  function Cost(sorted: seq<Entry>, n: nat): nat
    requires n <= |sorted|
  {
    if n == 0 then 0 else Cost(sorted, n - 1) + |sorted[n - 1].ids| + 1
  }

  lemma CostOfTwo(sorted: seq<Entry>)
    requires |sorted| == 2
    ensures Cost(sorted, 1) == |sorted[0].ids| + 1
    ensures Cost(sorted, 2) == |sorted[0].ids| + |sorted[1].ids| + 2
  {
    assert Cost(sorted, 1) == |sorted[0].ids| + 1;
  }

  lemma {:induction false} CostGrows(sorted: seq<Entry>, i: nat, n: nat)
    requires i <= n <= |sorted|
    ensures Cost(sorted, i) <= Cost(sorted, n)
  {
    if i < n {
      var m: nat := n - 1;
      CostGrows(sorted, i, m);
    }
  }

  /** A restore that was stopped within backup a, after so many of its rows. */
  ghost predicate StoppedIn(c: Case, start: Store, now: Store, budget: nat, sorted: seq<Entry>, faults: Faults, a: nat)
    requires ListsRows(c, sorted) && a < |sorted|
  {
    Cost(sorted, a) <= budget < Cost(sorted, a + 1)
      && Stands(c, start, now, sorted, faults, a, budget - Cost(sorted, a))
  }

  /** A restore that was to take n backups has done so, or was stopped where its statements were spent. */
  ghost predicate Underway(c: Case, store: Store, b: Restoration, budget: nat, sorted: seq<Entry>, n: nat,
                           faults: Faults)
    requires n <= |sorted| && ListsRows(c, sorted)
  {
    if b.died then exists a: nat :: a < n && StoppedIn(c, store, b.store, budget, sorted, faults, a)
    else budget == Cost(sorted, n) + b.budget && Stands(c, store, b.store, sorted, faults, n, 0)
  }

  lemma NextUnderway(c: Case, store: Store, b: Restoration, budget: nat, sorted: seq<Entry>, a: nat, faults: Faults,
                     z: Restoration)
    requires ListsRows(c, sorted) && Known(c, store, sorted) && a < |sorted|
    requires Underway(c, store, b, budget, sorted, a, faults)
    requires z == if b.died then b else RestoreEntry(c.reg, c.client, b, c.uid, sorted[a], faults)
    ensures Underway(c, store, z, budget, sorted, a + 1, faults)
  {
    if b.died {
      var d: nat :| d < a && StoppedIn(c, store, b.store, budget, sorted, faults, d);
      assert StoppedIn(c, store, z.store, budget, sorted, faults, d);
    } else {
      assert KnownAt(c, store, sorted, a);
      EntryStands(c, store, b, sorted, a, faults, z);
      if z.died {
        assert StoppedIn(c, store, z.store, budget, sorted, faults, a);
      }
    }
  }

  lemma RestoreBegins(c: Case, store: Store, budget: nat, sorted: seq<Entry>, faults: Faults)
    requires ListsRows(c, sorted) && Known(c, store, sorted)
    ensures Underway(c, store, Restoration(store, budget, [], 0, false), budget, sorted, 0, faults)
  {
    forall j | 0 <= j < |sorted| ensures Held(store, c.uid, sorted[j].model) {
      assert KnownAt(c, store, sorted, j);
    }
  }

  ghost predicate UnderwayAt(c: Case, store: Store, budget: nat, sorted: seq<Entry>, n: nat, faults: Faults)
    requires n <= |sorted| && ListsRows(c, sorted)
  {
    Underway(c, store, RestoreRun(c.reg, c.client, store, budget, c.uid, sorted, n, faults), budget, sorted, n, faults)
  }

  lemma {:induction false} RunRestores(c: Case, store: Store, budget: nat, sorted: seq<Entry>, n: nat, faults: Faults)
    requires ListsRows(c, sorted) && Known(c, store, sorted) && n <= |sorted|
    ensures UnderwayAt(c, store, budget, sorted, n, faults)
  {
    if n == 0 {
      RestoreBegins(c, store, budget, sorted, faults);
    } else {
      var i: nat := n - 1;
      RunRestores(c, store, budget, sorted, i, faults);
      NextUnderway(c, store, RestoreRun(c.reg, c.client, store, budget, c.uid, sorted, i, faults), budget, sorted, i,
        faults, RestoreRun(c.reg, c.client, store, budget, c.uid, sorted, n, faults));
    }
  }

  lemma SortedListsHeld(reg: Registry, store: Store, uid: string, entries: seq<Entry>)
    requires ListsHeld(store, uid, entries)
    ensures ListsHeld(store, uid, ParentsFirst(reg, entries))
  {
    ParentsFirstSorts(reg, entries);
    var sorted := ParentsFirst(reg, entries);
    forall i | 0 <= i < |sorted| ensures Names(store, uid, sorted[i]) {
      assert sorted[i] in entries;
    }
    forall m | Held(store, uid, m) ensures exists i :: 0 <= i < |sorted| && sorted[i].model == m {
      var i :| 0 <= i < |entries| && entries[i].model == m;
      assert entries[i] in sorted;
    }
    forall i, j | 0 <= i < j < |sorted| ensures sorted[i].model != sorted[j].model {
      SortedApart(entries, sorted, i, j);
    }
  }

  /** Distinct entries stay distinct in any rearrangement. */
  lemma SortedApart(entries: seq<Entry>, sorted: seq<Entry>, i: nat, j: nat)
    requires multiset(sorted) == multiset(entries) && i < j < |sorted|
    requires forall a, b :: 0 <= a < b < |entries| ==> entries[a].model != entries[b].model
    ensures sorted[i].model != sorted[j].model
  {
    if sorted[i].model == sorted[j].model {
      var e := sorted[i];
      assert sorted[j] in multiset(entries) && e in multiset(entries);
      assert sorted[j] in entries && e in entries;
      assert sorted[j] == e;
      TwiceCounted(sorted, i, j);
      OnceCounted(entries, e);
    }
  }

  lemma TwiceCounted(s: seq<Entry>, i: nat, j: nat)
    requires i < j < |s| && s[i] == s[j]
    ensures multiset(s)[s[i]] >= 2
  {
    assert s == s[..j] + s[j..];
    assert s[i] in multiset(s[..j]) && s[j..][0] == s[j];
    assert s[j] in multiset(s[j..]);
  }

  lemma {:induction false} OnceCounted(s: seq<Entry>, e: Entry)
    requires forall a, b :: 0 <= a < b < |s| ==> s[a].model != s[b].model
    ensures multiset(s)[e] <= 1
  {
    if s == [] {
    } else {
      var pre := s[..|s| - 1];
      assert s == pre + [s[|s| - 1]];
      OnceCounted(pre, e);
      forall a | 0 <= a < |pre| ensures pre[a] != s[|s| - 1] {
        assert s[a].model != s[|s| - 1].model;
      }
    }
  }

  // ---------------------------------------------------------------------------------------------
  // References
  // ---------------------------------------------------------------------------------------------

  lemma {:induction false} RowsIntact(reg: Registry, rows: Rows, budget: nat, model: string, data: map<string, Row>,
                                      ids: seq<string>, n: nat, faults: Faults)
    requires Intact(reg, rows) && n <= |ids| && forall id :: id in ids ==> id in data
    ensures Intact(reg, RestoreRows(reg, rows, budget, model, data, ids, n, faults).rows)
  {
    if n == 0 {
    } else {
      var i: nat := n - 1;
      RowsIntact(reg, rows, budget, model, data, ids, i, faults);
      var b := RestoreRows(reg, rows, budget, model, data, ids, i, faults);
      if Refers(reg, b.rows, model, data[ids[i]]) {
        UpsertIntact(reg, b.rows, RowId(model, ids[i]), data[ids[i]]);
      }
    }
  }

  lemma EntryIntact(reg: Registry, client: set<string>, before: Restoration, uid: string, e: Entry, faults: Faults)
    requires Intact(reg, before.store.rows)
    ensures Intact(reg, RestoreEntry(reg, client, before, uid, e, faults).store.rows)
  {
    if Restorable(before.store, uid, e) {
      var data := before.store.backups[BackupKey(uid, e.model)].data.value;
      RowsIntact(reg, before.store.rows, before.budget, e.model, data, e.ids, |e.ids|, faults);
    }
  }

  lemma {:induction false} RunIntact(reg: Registry, client: set<string>, store: Store, budget: nat, uid: string,
                                     sorted: seq<Entry>, n: nat, faults: Faults)
    requires Intact(reg, store.rows) && n <= |sorted|
    ensures Intact(reg, RestoreRun(reg, client, store, budget, uid, sorted, n, faults).store.rows)
  {
    if n == 0 {
    } else {
      var i: nat := n - 1;
      RunIntact(reg, client, store, budget, uid, sorted, i, faults);
      EntryIntact(reg, client, RestoreRun(reg, client, store, budget, uid, sorted, i, faults), uid, sorted[i], faults);
    }
  }

  /**
    Every reference holds at every step of every restore: stopped before any statement, from any store,
    with any backups in any order and whatever upserts fail, no row is there without its parents.
  */
  lemma RestoreIntact(reg: Registry, client: set<string>, store: Store, budget: nat, uid: string, entries: seq<Entry>,
                      faults: Faults)
    requires Intact(reg, store.rows)
    ensures Intact(reg, RestoreFromBackups(reg, client, store, budget, uid, entries, faults).store.rows)
  {
    var sorted := ParentsFirst(reg, entries);
    RunIntact(reg, client, store, budget, uid, sorted, |sorted|, faults);
  }

  // ---------------------------------------------------------------------------------------------
  // Results
  // ---------------------------------------------------------------------------------------------

  /** The order in which a restore takes the backups the query returned; it lists the suspension's rows once. */
  lemma RestoreLists(c: Case, store: Store, entries: seq<Entry>)
    requires Backed(c, store) && ListsHeld(store, c.uid, entries)
    ensures ListsHeld(store, c.uid, ParentsFirst(c.reg, entries))
    ensures ListsRows(c, ParentsFirst(c.reg, entries)) && Known(c, store, ParentsFirst(c.reg, entries))
  {
    ParentsFirstSorts(c.reg, entries);
    SortedListsHeld(c.reg, store, c.uid, entries);
    HeldLists(c, store, ParentsFirst(c.reg, entries));
  }

  /** The position at which a restore takes up a row of the identity. */
  lemma PositionOf(c: Case, store: Store, sorted: seq<Entry>, r: RowId) returns (a: nat, i: nat)
    requires Backed(c, store) && ListsHeld(store, c.uid, sorted) && Mine(c, r) && Held(store, c.uid, r.model)
    ensures a < |sorted| && i < |sorted[a].ids| && At(sorted, a, i) == r
  {
    a :| a < |sorted| && sorted[a].model == r.model;
    assert Names(store, c.uid, sorted[a]);
    DataIsOriginal(c, store, r.model, r.id);
    assert RowId(r.model, r.id) == r;
    var data := store.backups[BackupKey(c.uid, r.model)].data.value;
    assert Faithful(c, store.backups[BackupKey(c.uid, r.model)], r.model);
    assert r.id in data && r.id in sorted[a].ids;
    i :| i < |sorted[a].ids| && sorted[a].ids[i] == r.id;
  }

  lemma UnderwayStands(c: Case, store: Store, b: Restoration, budget: nat, sorted: seq<Entry>, faults: Faults)
    returns (a: nat, i: nat)
    requires ListsRows(c, sorted) && Underway(c, store, b, budget, sorted, |sorted|, faults)
    ensures a <= |sorted| && Stands(c, store, b.store, sorted, faults, a, i)
    ensures Cost(sorted, a) <= budget && (a < |sorted| ==> budget == Cost(sorted, a) + i < Cost(sorted, a + 1))
    ensures a < |sorted| <==> b.died
  {
    if b.died {
      a :| a < |sorted| && StoppedIn(c, store, b.store, budget, sorted, faults, a);
      i := budget - Cost(sorted, a);
    } else {
      a, i := |sorted|, 0;
    }
  }

  /** Where a restore stands when it ends or is stopped. */
  lemma RestoreStands(c: Case, store: Store, budget: nat, entries: seq<Entry>, faults: Faults, end: Restoration)
    returns (a: nat, i: nat)
    requires Backed(c, store) && ListsHeld(store, c.uid, entries)
    requires end == RestoreFromBackups(c.reg, c.client, store, budget, c.uid, entries, faults)
    ensures var sorted := ParentsFirst(c.reg, entries);
      && ListsHeld(store, c.uid, sorted) && ListsRows(c, sorted)
      && a <= |sorted| && Stands(c, store, end.store, sorted, faults, a, i)
      && Cost(sorted, a) <= budget && (a < |sorted| ==> budget == Cost(sorted, a) + i < Cost(sorted, a + 1))
      && (a < |sorted| <==> end.died)
  {
    RestoreLists(c, store, entries);
    var sorted := ParentsFirst(c.reg, entries);
    RunRestores(c, store, budget, sorted, |sorted|, faults);
    a, i := UnderwayStands(c, store, end, budget, sorted, faults);
  }

  lemma StandsOthersStay(c: Case, start: Rows, now: Rows, sorted: seq<Entry>, a: nat, i: nat)
    requires OthersStay(c, start) && Intact(c.reg, now) && ListsRows(c, sorted) && Steady(c, start, now, sorted, a, i)
    ensures OthersStay(c, now)
  {
  }

  /** Whatever fails and wherever it stops: a restore takes nothing away that it has not put back. */
  lemma RestoreStaysBacked(c: Case, store: Store, budget: nat, entries: seq<Entry>, faults: Faults, end: Restoration)
    requires Backed(c, store) && ListsHeld(store, c.uid, entries)
    requires end == RestoreFromBackups(c.reg, c.client, store, budget, c.uid, entries, faults)
    ensures Backed(c, end.store)
    ensures forall m :: Held(end.store, c.uid, m) ==>
      Held(store, c.uid, m) && end.store.backups[BackupKey(c.uid, m)] == store.backups[BackupKey(c.uid, m)]
  {
    var a, i := RestoreStands(c, store, budget, entries, faults, end);
    var sorted := ParentsFirst(c.reg, entries);
    RestoreIntact(c.reg, c.client, store, budget, c.uid, entries, faults);
    StandsOthersStay(c, store.rows, end.store.rows, sorted, a, i);
    forall m | Held(end.store, c.uid, m)
      ensures Held(store, c.uid, m) && end.store.backups[BackupKey(c.uid, m)] == store.backups[BackupKey(c.uid, m)]
    {
      var j :| 0 <= j < |sorted| && sorted[j].model == m;
      assert j >= a;
    }
  }

  /** Only rows of the identity in unused backups are listed. */
  lemma ListedIsHeld(c: Case, store: Store, sorted: seq<Entry>, r: RowId, a: nat, i: nat)
    requires ListsRows(c, sorted) && ListsHeld(store, c.uid, sorted) && Listed(sorted, r, a, i)
    ensures Mine(c, r) && Held(store, c.uid, r.model)
  {
    var b: nat, k: nat :| b < |sorted| && k < |sorted[b].ids| && (b < a || (b == a && k < i))
      && r == At(sorted, b, k);
    assert Names(store, c.uid, sorted[b]);
  }

  lemma SteadyAt(c: Case, start: Rows, now: Rows, sorted: seq<Entry>, a: nat, i: nat, r: RowId)
    requires Steady(c, start, now, sorted, a, i)
    ensures r in start ==> r in now && (now[r] == start[r] || (r in c.orig && now[r] == c.orig[r]))
    ensures !Listed(sorted, r, a, i) ==> (r in now <==> r in start) && (r in start ==> now[r] == start[r])
  {
  }

  /** The rows of unlisted tables are left alone, and no row is taken away or changed but to what it was. */
  lemma RestoreGrows(c: Case, store: Store, budget: nat, entries: seq<Entry>, faults: Faults, end: Restoration,
                     r: RowId)
    requires Backed(c, store) && ListsHeld(store, c.uid, entries)
    requires end == RestoreFromBackups(c.reg, c.client, store, budget, c.uid, entries, faults)
    ensures r in store.rows ==>
      r in end.store.rows && (end.store.rows[r] == store.rows[r] || (r in c.orig && end.store.rows[r] == c.orig[r]))
    ensures !(Mine(c, r) && Held(store, c.uid, r.model)) ==>
      (r in end.store.rows <==> r in store.rows) && (r in store.rows ==> end.store.rows[r] == store.rows[r])
  {
    var a, i := RestoreStands(c, store, budget, entries, faults, end);
    var sorted := ParentsFirst(c.reg, entries);
    SteadyAt(c, store.rows, end.store.rows, sorted, a, i, r);
    if Listed(sorted, r, a, i) {
      ListedIsHeld(c, store, sorted, r, a, i);
    }
  }

  /** Of a restore that stands at backup b: which backups are used up, and which of their rows are back. */
  lemma StandsAt(c: Case, start: Store, now: Store, sorted: seq<Entry>, faults: Faults, b: nat, k: nat, a: nat, i: nat)
    requires b <= |sorted| && ListsRows(c, sorted) && Stands(c, start, now, sorted, faults, b, k)
    requires a < |sorted| && i < |sorted[a].ids|
    ensures !Held(now, c.uid, sorted[a].model) <==> a < b
    ensures a < b ==> (Unchanged(c.orig, now.rows, At(sorted, a, i))
      <==> ComesBack(c, start.rows, sorted, faults, a, i))
  {
  }

  lemma CostTells(sorted: seq<Entry>, a: nat, b: nat, k: nat, budget: nat)
    requires a < |sorted| && b <= |sorted| && Cost(sorted, b) <= budget
    requires b < |sorted| ==> budget == Cost(sorted, b) + k < Cost(sorted, b + 1)
    ensures a < b <==> Cost(sorted, a + 1) <= budget
  {
    if a < b {
      CostGrows(sorted, a + 1, b);
    } else {
      CostGrows(sorted, b + 1, a + 1);
    }
  }

  /**
    Main result for restoring, row by row: whatever the rows refer to, whatever upserts fail and wherever
    the restore stops. The row's backup is used up exactly if there were statements enough to come to its
    mark, and then the row is back exactly if it was there unchanged, or its upsert did not fail and each
    row it refers to was there or listed before it and came back itself.
  */
  lemma RowRestoredIff(c: Case, store: Store, budget: nat, entries: seq<Entry>, faults: Faults, a: nat, i: nat,
                       end: Restoration)
    requires Backed(c, store) && ListsHeld(store, c.uid, entries)
    requires end == RestoreFromBackups(c.reg, c.client, store, budget, c.uid, entries, faults)
    requires a < |ParentsFirst(c.reg, entries)| && i < |ParentsFirst(c.reg, entries)[a].ids|
    ensures var sorted := ParentsFirst(c.reg, entries); var r := At(sorted, a, i);
      && ListsRows(c, sorted)
      && (!Held(end.store, c.uid, r.model) <==> Cost(sorted, a + 1) <= budget)
      && (!Held(end.store, c.uid, r.model) ==>
            (Unchanged(c.orig, end.store.rows, r) <==> ComesBack(c, store.rows, sorted, faults, a, i)))
  {
    var b, k := RestoreStands(c, store, budget, entries, faults, end);
    var sorted := ParentsFirst(c.reg, entries);
    StandsAt(c, store, end.store, sorted, faults, b, k, a, i);
    CostTells(sorted, a, b, k, budget);
  }

  /** The row is among those listed, and comes back. */
  ghost predicate RowComesBack(c: Case, rows: Rows, entries: seq<Entry>, faults: Faults, r: RowId) {
    var sorted := ParentsFirst(c.reg, entries);
    ListsRows(c, sorted) && exists a: nat, i: nat {:trigger At(sorted, a, i)} ::
      a < |sorted| && i < |sorted[a].ids| && At(sorted, a, i) == r && ComesBack(c, rows, sorted, faults, a, i)
  }

  lemma OnlyPosition(c: Case, sorted: seq<Entry>, a: nat, i: nat, b: nat, k: nat)
    requires ListsRows(c, sorted) && a < |sorted| && i < |sorted[a].ids| && b < |sorted| && k < |sorted[b].ids|
    requires At(sorted, a, i) == At(sorted, b, k)
    ensures a == b && i == k
  {
  }

  lemma RowComesBackAt(c: Case, rows: Rows, entries: seq<Entry>, faults: Faults, r: RowId, a: nat, i: nat)
    requires ListsRows(c, ParentsFirst(c.reg, entries))
    requires a < |ParentsFirst(c.reg, entries)| && i < |ParentsFirst(c.reg, entries)[a].ids|
    requires At(ParentsFirst(c.reg, entries), a, i) == r
    ensures RowComesBack(c, rows, entries, faults, r) <==>
      ComesBack(c, rows, ParentsFirst(c.reg, entries), faults, a, i)
  {
    var sorted := ParentsFirst(c.reg, entries);
    if RowComesBack(c, rows, entries, faults, r) {
      var b: nat, k: nat :| b < |sorted| && k < |sorted[b].ids| && At(sorted, b, k) == r
        && ComesBack(c, rows, sorted, faults, b, k);
      OnlyPosition(c, sorted, a, i, b, k);
    }
  }

  /** The same for a row of the identity: used up, it is back exactly if it comes back. */
  lemma OwnRowRestoredIff(c: Case, store: Store, budget: nat, entries: seq<Entry>, faults: Faults, r: RowId,
                          end: Restoration)
    requires Backed(c, store) && ListsHeld(store, c.uid, entries) && Mine(c, r)
    requires end == RestoreFromBackups(c.reg, c.client, store, budget, c.uid, entries, faults)
    ensures Held(store, c.uid, r.model) && !Held(end.store, c.uid, r.model) ==>
      (Unchanged(c.orig, end.store.rows, r) <==> RowComesBack(c, store.rows, entries, faults, r))
    ensures !Held(store, c.uid, r.model) ==>
      !Held(end.store, c.uid, r.model) && (Unchanged(c.orig, end.store.rows, r) <==> Unchanged(c.orig, store.rows, r))
  {
    RestoreStaysBacked(c, store, budget, entries, faults, end);
    RestoreGrows(c, store, budget, entries, faults, end, r);
    if Held(store, c.uid, r.model) {
      RestoreLists(c, store, entries);
      var sorted := ParentsFirst(c.reg, entries);
      var a, i := PositionOf(c, store, sorted, r);
      RowRestoredIff(c, store, budget, entries, faults, a, i, end);
      RowComesBackAt(c, store.rows, entries, faults, r, a, i);
    }
  }

  /** All rows to be restored are welcome in the order the restore takes them. */
  ghost predicate AllWelcome(c: Case, store: Store, entries: seq<Entry>, faults: Faults) {
    var sorted := ParentsFirst(c.reg, entries);
    ListsRows(c, sorted) && WelcomeInTime(c, store.rows, sorted, faults)
  }

  lemma WelcomeRowComesBack(c: Case, store: Store, entries: seq<Entry>, faults: Faults, r: RowId)
    requires Backed(c, store) && ListsHeld(store, c.uid, entries) && Mine(c, r) && Held(store, c.uid, r.model)
    requires AllWelcome(c, store, entries, faults)
    ensures RowComesBack(c, store.rows, entries, faults, r)
  {
    RestoreLists(c, store, entries);
    var sorted := ParentsFirst(c.reg, entries);
    var a, i := PositionOf(c, store, sorted, r);
    WelcomeComesBack(c, store.rows, sorted, faults, a, i);
    RowComesBackAt(c, store.rows, entries, faults, r, a, i);
  }

  /** If all own rows come back, all are welcome. */
  lemma OwnComeBackWelcome(c: Case, store: Store, entries: seq<Entry>, faults: Faults)
    requires Backed(c, store) && ListsHeld(store, c.uid, entries)
    requires forall r :: Mine(c, r) && Held(store, c.uid, r.model) ==> RowComesBack(c, store.rows, entries, faults, r)
    ensures AllWelcome(c, store, entries, faults)
  {
    RestoreLists(c, store, entries);
    var sorted := ParentsFirst(c.reg, entries);
    forall a: nat, i: nat | a < |sorted| && i < |sorted[a].ids| ensures ComesBack(c, store.rows, sorted, faults, a, i) {
      var r := At(sorted, a, i);
      assert Names(store, c.uid, sorted[a]);
      assert RowComesBack(c, store.rows, entries, faults, r);
      RowComesBackAt(c, store.rows, entries, faults, r, a, i);
    }
    AllBackIffWelcome(c, store.rows, sorted, faults);
  }

  lemma OthersKept(c: Case, store: Store, budget: nat, entries: seq<Entry>, faults: Faults, end: Restoration)
    requires Backed(c, store) && ListsHeld(store, c.uid, entries)
    requires end == RestoreFromBackups(c.reg, c.client, store, budget, c.uid, entries, faults)
    ensures OthersUnchanged(c, end.store.rows) <==> OthersUnchanged(c, store.rows)
  {
    forall r | r in c.orig && !Mine(c, r)
      ensures Unchanged(c.orig, store.rows, r) <==> Unchanged(c.orig, end.store.rows, r)
    {
      RestoreGrows(c, store, budget, entries, faults, end, r);
    }
    if OthersUnchanged(c, store.rows) {
      forall r | r in c.orig && !Mine(c, r) ensures Unchanged(c.orig, end.store.rows, r) {
        assert Unchanged(c.orig, store.rows, r);
      }
    }
    if OthersUnchanged(c, end.store.rows) {
      forall r | r in c.orig && !Mine(c, r) ensures Unchanged(c.orig, store.rows, r) {
        assert Unchanged(c.orig, end.store.rows, r);
      }
    }
  }

  lemma EndedUsesAll(c: Case, store: Store, budget: nat, entries: seq<Entry>, faults: Faults, end: Restoration)
    requires Backed(c, store) && ListsHeld(store, c.uid, entries)
    requires end == RestoreFromBackups(c.reg, c.client, store, budget, c.uid, entries, faults)
    ensures !end.died ==> forall m :: !Held(end.store, c.uid, m)
  {
    var a, i := RestoreStands(c, store, budget, entries, faults, end);
    var sorted := ParentsFirst(c.reg, entries);
    if !end.died {
      forall m ensures !Held(end.store, c.uid, m) {
        assert Held(end.store, c.uid, m) ==> Held(store, c.uid, m);
        if Held(store, c.uid, m) {
          var j :| 0 <= j < |sorted| && sorted[j].model == m;
          assert !Held(end.store, c.uid, sorted[j].model);
        }
      }
    }
  }

  /** Exactly when a restore stopped anywhere loses nothing: when the rows of each backup it has used up came back. */
  lemma RestoreRecoverableIff(c: Case, store: Store, budget: nat, entries: seq<Entry>, faults: Faults,
                              end: Restoration)
    requires Recoverable(c, store) && ListsHeld(store, c.uid, entries)
    requires end == RestoreFromBackups(c.reg, c.client, store, budget, c.uid, entries, faults)
    ensures Recoverable(c, end.store) <==>
      forall r :: Mine(c, r) && Held(store, c.uid, r.model) && !Held(end.store, c.uid, r.model) ==>
        RowComesBack(c, store.rows, entries, faults, r)
  {
    RestoreStaysBacked(c, store, budget, entries, faults, end);
    forall r | Mine(c, r) && !Held(end.store, c.uid, r.model)
      ensures Unchanged(c.orig, end.store.rows, r) <==>
        Held(store, c.uid, r.model) ==> RowComesBack(c, store.rows, entries, faults, r)
    {
      OwnRowRestoredIff(c, store, budget, entries, faults, r, end);
      assert !Held(store, c.uid, r.model) ==> Unchanged(c.orig, store.rows, r);
    }
  }

  /**
    All rows at once. A restore that ends gives back all rows of the identity exactly if each row it lists
    is there as it was, or has an upsert that does not fail and refers to rows that are there or listed
    before it. It changes no row of others, so it gives back the original database exactly if their
    references had not been cleared either.
  */
  lemma RestoreGivesBackIff(c: Case, store: Store, budget: nat, entries: seq<Entry>, faults: Faults)
    requires Recoverable(c, store) && ListsHeld(store, c.uid, entries)
    ensures var end := RestoreFromBackups(c.reg, c.client, store, budget, c.uid, entries, faults);
      !end.died ==>
        && (forall m :: !Held(end.store, c.uid, m))
        && (OwnBack(c, end.store.rows) <==> AllWelcome(c, store, entries, faults))
        && (end.store.rows == c.orig <==> AllWelcome(c, store, entries, faults) && OthersUnchanged(c, store.rows))
  {
    var end := RestoreFromBackups(c.reg, c.client, store, budget, c.uid, entries, faults);
    EndedUsesAll(c, store, budget, entries, faults, end);
    RestoreStaysBacked(c, store, budget, entries, faults, end);
    RestoreRecoverableIff(c, store, budget, entries, faults, end);
    OthersKept(c, store, budget, entries, faults, end);
    OriginalIff(c, end.store.rows);
    if !end.died {
      if AllWelcome(c, store, entries, faults) {
        forall r | Mine(c, r) && Held(store, c.uid, r.model) ensures RowComesBack(c, store.rows, entries, faults, r) {
          WelcomeRowComesBack(c, store, entries, faults, r);
        }
        RestoredIsOriginal(c, end.store);
      } else if OwnBack(c, end.store.rows) {
        assert Recoverable(c, end.store);
        OwnComeBackWelcome(c, store, entries, faults);
      }
    }
  }

  /** Stopped before any statement, a restore whose rows are all welcome leaves the suspension recoverable. */
  lemma RestoreKeepsRecoverable(c: Case, store: Store, budget: nat, entries: seq<Entry>, faults: Faults)
    requires Recoverable(c, store) && ListsHeld(store, c.uid, entries) && AllWelcome(c, store, entries, faults)
    ensures Recoverable(c, RestoreFromBackups(c.reg, c.client, store, budget, c.uid, entries, faults).store)
  {
    var end := RestoreFromBackups(c.reg, c.client, store, budget, c.uid, entries, faults);
    forall r | Mine(c, r) && Held(store, c.uid, r.model) ensures RowComesBack(c, store.rows, entries, faults, r) {
      WelcomeRowComesBack(c, store, entries, faults, r);
    }
    RestoreRecoverableIff(c, store, budget, entries, faults, end);
  }

  /** Upserts expected to fail concern only rows that are there as they were. */
  ghost predicate Harmless(c: Case, rows: Rows, faults: Faults) {
    forall r :: r in faults.fails && Mine(c, r) ==> Unchanged(c.orig, rows, r)
  }

  /** A nullable reference among rows to be restored. */
  ghost predicate HeldLink(c: Case, store: Store, r: RowId) {
    && Mine(c, r) && Held(store, c.uid, r.model)
    && c.orig[r].link.Some? && Mine(c, c.orig[r].link.value) && Held(store, c.uid, c.orig[r].link.value.model)
  }

  /** Such references go from child tables to parent tables. */
  ghost predicate LinksRestorable(c: Case, store: Store) {
    forall r :: HeldLink(c, store, r) ==> IsChild(c.reg, r.model) && !IsChild(c.reg, c.orig[r].link.value.model)
  }

  /** A row of an unused backup of a parent table is listed before the rows of a child table. */
  lemma ParentListed(c: Case, store: Store, sorted: seq<Entry>, p: RowId, a: nat)
    requires Recoverable(c, store) && ListsHeld(store, c.uid, sorted) && ParentsLead(c.reg, sorted) && a < |sorted|
    requires Mine(c, p) && Held(store, c.uid, p.model) && !IsChild(c.reg, p.model) && IsChild(c.reg, sorted[a].model)
    ensures Listed(sorted, p, a, 0)
  {
    var b, k := PositionOf(c, store, sorted, p);
    assert At(sorted, b, k) == p;
  }

  lemma RowComes(c: Case, store: Store, sorted: seq<Entry>, t: RowId, a: nat, i: nat)
    requires Recoverable(c, store) && ListsHeld(store, c.uid, sorted) && ParentsLead(c.reg, sorted) && a < |sorted|
    requires t in c.orig
    requires Mine(c, t) && Held(store, c.uid, t.model) ==> !IsChild(c.reg, t.model) && IsChild(c.reg, sorted[a].model)
    ensures Comes(store.rows, sorted, t, a, i)
  {
    if Mine(c, t) {
      if Held(store, c.uid, t.model) {
        ParentListed(c, store, sorted, t, a);
        var b: nat, k: nat :| b < |sorted| && k < |sorted[b].ids| && (b < a || (b == a && k < 0))
          && t == At(sorted, b, k);
      } else {
        assert Unchanged(c.orig, store.rows, t);
      }
    }
  }

  /**
    Parents first is what makes the rows welcome: a channel's profile is there or listed before it, so
    only nullable references among the rows to be restored are left to ask about, and failing upserts.
  */
  lemma ParentsAreBack(c: Case, store: Store, entries: seq<Entry>, faults: Faults)
    requires Sound(c.reg, c.orig) && Recoverable(c, store) && ListsHeld(store, c.uid, entries)
    requires LinksRestorable(c, store) && Harmless(c, store.rows, faults)
    ensures AllWelcome(c, store, entries, faults)
  {
    RestoreLists(c, store, entries);
    ParentsFirstSorts(c.reg, entries);
    var sorted := ParentsFirst(c.reg, entries);
    forall a: nat, i: nat | a < |sorted| && i < |sorted[a].ids| ensures WelcomeAt(c, store.rows, sorted, faults, a, i) {
      var r := At(sorted, a, i);
      assert Mine(c, r) && KnownAt(c, store, sorted, a);
      assert Refers(c.reg, c.orig, r.model, c.orig[r]);
      if IsChannel(c.reg, r.model) {
        RowComes(c, store, sorted, ProfileOf(c.reg, c.orig[r]), a, i);
      }
      if c.orig[r].link.Some? {
        assert HeldLink(c, store, r) ==> IsChild(c.reg, r.model) && !IsChild(c.reg, c.orig[r].link.value.model);
        RowComes(c, store, sorted, c.orig[r].link.value, a, i);
      }
    }
  }

  /** A row that is not there as it was, and whose upsert fails. */
  lemma FailedIsUnwelcome(c: Case, store: Store, entries: seq<Entry>, faults: Faults, r: RowId)
    requires Recoverable(c, store) && ListsHeld(store, c.uid, entries) && r in faults.fails
    requires Mine(c, r) && !Unchanged(c.orig, store.rows, r)
    ensures !AllWelcome(c, store, entries, faults)
  {
    RestoreLists(c, store, entries);
    var sorted := ParentsFirst(c.reg, entries);
    var a, i := PositionOf(c, store, sorted, r);
    assert !WelcomeAt(c, store.rows, sorted, faults, a, i);
  }

  // ---------------------------------------------------------------------------------------------
  // Ending
  // ---------------------------------------------------------------------------------------------

  lemma {:induction false} RowsFinish(reg: Registry, rows: Rows, budget: nat, model: string, data: map<string, Row>,
                                      ids: seq<string>, n: nat, faults: Faults)
    requires n <= |ids| && (forall id :: id in ids ==> id in data) && budget >= n
    ensures var b := RestoreRows(reg, rows, budget, model, data, ids, n, faults); !b.died && b.budget == budget - n
  {
    if n == 0 {
    } else {
      var i: nat := n - 1;
      RowsFinish(reg, rows, budget, model, data, ids, i, faults);
    }
  }

  lemma EntryFinishes(reg: Registry, client: set<string>, before: Restoration, uid: string, e: Entry, faults: Faults)
    requires !before.died && before.budget >= |e.ids| + 1
    ensures var b := RestoreEntry(reg, client, before, uid, e, faults);
      !b.died && b.budget >= before.budget - |e.ids| - 1
  {
    if Restorable(before.store, uid, e) && e.model in client {
      var data := before.store.backups[BackupKey(uid, e.model)].data.value;
      RowsFinish(reg, before.store.rows, before.budget, e.model, data, e.ids, |e.ids|, faults);
    }
  }

  /** If the process has come to position n, it is alive and has spent no more than the backups take. */
  ghost predicate AliveAt(reg: Registry, client: set<string>, store: Store, budget: nat, uid: string,
                          sorted: seq<Entry>, n: nat, faults: Faults)
    requires n <= |sorted|
  {
    var b := RestoreRun(reg, client, store, budget, uid, sorted, n, faults);
    !b.died && b.budget + Cost(sorted, n) >= budget
  }

  lemma NextAlive(reg: Registry, client: set<string>, store: Store, budget: nat, uid: string, sorted: seq<Entry>,
                  i: nat, faults: Faults)
    requires i < |sorted| && AliveAt(reg, client, store, budget, uid, sorted, i, faults)
    requires budget >= Cost(sorted, i + 1)
    ensures AliveAt(reg, client, store, budget, uid, sorted, i + 1, faults)
  {
    EntryFinishes(reg, client, RestoreRun(reg, client, store, budget, uid, sorted, i, faults), uid, sorted[i], faults);
  }

  lemma {:induction false} RunFinishes(reg: Registry, client: set<string>, store: Store, budget: nat, uid: string,
                                       sorted: seq<Entry>, n: nat, faults: Faults)
    requires n <= |sorted| && budget >= Cost(sorted, n)
    ensures AliveAt(reg, client, store, budget, uid, sorted, n, faults)
  {
    if n == 0 {
    } else {
      var i: nat := n - 1;
      RunFinishes(reg, client, store, budget, uid, sorted, i, faults);
      NextAlive(reg, client, store, budget, uid, sorted, i, faults);
    }
  }

  /** Left alive, a restore ends, whatever fails. */
  lemma RestoreFinishes(reg: Registry, client: set<string>, store: Store, budget: nat, uid: string, entries: seq<Entry>,
                        faults: Faults)
    requires budget >= Cost(ParentsFirst(reg, entries), |ParentsFirst(reg, entries)|)
    ensures !RestoreFromBackups(reg, client, store, budget, uid, entries, faults).died
  {
    var sorted := ParentsFirst(reg, entries);
    RunFinishes(reg, client, store, budget, uid, sorted, |sorted|, faults);
  }

  /** A backup's rows leave alone those whose upsert fails, and those of other models. */
  lemma {:induction false} OtherRowsUntouched(reg: Registry, rows: Rows, budget: nat, model: string,
                                              data: map<string, Row>, ids: seq<string>, n: nat, faults: Faults,
                                              r: RowId)
    requires n <= |ids| && forall id :: id in ids ==> id in data
    requires r in faults.fails || r.model != model
    ensures var after := RestoreRows(reg, rows, budget, model, data, ids, n, faults).rows;
      (r in after <==> r in rows) && (r in rows ==> after[r] == rows[r])
  {
    if n == 0 {
    } else {
      var i: nat := n - 1;
      OtherRowsUntouched(reg, rows, budget, model, data, ids, i, faults, r);
    }
  }

  lemma {:induction false} RunLeavesOthers(reg: Registry, client: set<string>, store: Store, budget: nat, uid: string,
                                           sorted: seq<Entry>, n: nat, faults: Faults, r: RowId)
    requires n <= |sorted| && (r in faults.fails || forall e :: e in sorted ==> e.model != r.model)
    ensures var after := RestoreRun(reg, client, store, budget, uid, sorted, n, faults).store.rows;
      (r in after <==> r in store.rows) && (r in store.rows ==> after[r] == store.rows[r])
  {
    if n == 0 {
    } else {
      var i: nat := n - 1;
      RunLeavesOthers(reg, client, store, budget, uid, sorted, i, faults, r);
      var b := RestoreRun(reg, client, store, budget, uid, sorted, i, faults);
      var e := sorted[i];
      if Restorable(b.store, uid, e) {
        OtherRowsUntouched(reg, b.store.rows, b.budget, e.model, b.store.backups[BackupKey(uid, e.model)].data.value,
          e.ids, |e.ids|, faults, r);
      }
    }
  }

  /** With no unused backup left a restore finds nothing: 0 rows, and no change. */
  lemma RestoreAgainRestoresNothing(reg: Registry, client: set<string>, store: Store, budget: nat, uid: string,
                                    entries: seq<Entry>, faults: Faults)
    requires ListsHeld(store, uid, entries) && forall m :: !Held(store, uid, m)
    ensures RestoreFromBackups(reg, client, store, budget, uid, entries, faults)
      == Restoration(store, budget, [], 0, false)
  {
    assert entries == [] || Names(store, uid, entries[0]);
  }

  /**
    A model the registry leaves out is never backed up. When its row refers to the profile, deleting
    the profile clears that reference, and no restore sets it again.
  */
  lemma UnregisteredReferenceIsCleared(c: Case, store: Store, key: string, r: RowId, budget: nat, entries: seq<Entry>,
                                       faults: Faults)
    requires Sound(c.reg, c.orig) && Recoverable(c, store) && KeyOf(c, c.reg.profileModel, key)
    requires r in c.orig && r.model !in c.reg.userField && r in store.rows
    requires store.rows[r].link == c.orig[r].link
    requires c.orig[r].link.Some? && Matches(store.rows, c.orig[r].link.value, c.reg.profileModel, key)
    requires var deleted := store.(rows := DeleteRows(c.reg, store.rows, c.reg.profileModel, key));
      ListsHeld(deleted, c.uid, entries)
    ensures var deleted := store.(rows := DeleteRows(c.reg, store.rows, c.reg.profileModel, key));
      var end := RestoreFromBackups(c.reg, c.client, deleted, budget, c.uid, entries, faults).store;
      && !OthersUnchanged(c, deleted.rows)
      && r in end.rows && end.rows[r].link == None
  {
    var deleted := store.(rows := DeleteRows(c.reg, store.rows, c.reg.profileModel, key));
    var gone := Doomed(c.reg, store.rows, c.reg.profileModel, key);
    assert !Mine(c, r);
    DoomedAreMine(c, store.rows, c.reg.profileModel, key);
    assert r !in gone && c.orig[r].link.value in gone;
    assert deleted.rows[r] == Unlink(store.rows[r], gone);
    assert !Unchanged(c.orig, deleted.rows, r);
    ParentsFirstSorts(c.reg, entries);
    var sorted := ParentsFirst(c.reg, entries);
    forall e | e in sorted ensures e.model != r.model {
      assert e in entries;
      assert Held(store, c.uid, e.model);
    }
    RunLeavesOthers(c.reg, c.client, deleted, budget, c.uid, sorted, |sorted|, faults, r);
  }
}
