/**
  What a restore reports: one summary for each valid backup, in the order it takes them, with the number
  of rows it wrote and was told so, and the total of these.
*/
module SuspensionTally {
  import opened Options
  import opened SuspensionStore
  import opened SuspensionRestore

  // ---------------------------------------------------------------------------------------------
  // Rows
  // ---------------------------------------------------------------------------------------------

  /** The row counts: its upsert succeeds, and the answer arrives. */
  ghost predicate Counts(c: Case, rows: Rows, sorted: seq<Entry>, faults: Faults, a: nat, i: nat)
    requires ListsRows(c, sorted) && a < |sorted| && i < |sorted[a].ids|
  {
    Succeeds(c, rows, sorted, faults, a, i) && At(sorted, a, i) !in faults.unanswered
  }

  /** How many of the first n rows of the a-th backup count. */
  ghost function Tally(c: Case, rows: Rows, sorted: seq<Entry>, faults: Faults, a: nat, n: nat): nat
    requires ListsRows(c, sorted) && a < |sorted| && n <= |sorted[a].ids|
  {
    if n == 0 then 0
    else
      Tally(c, rows, sorted, faults, a, n - 1) + if Counts(c, rows, sorted, faults, a, n - 1) then 1 else 0
  }

  /** The references of a row hold when it is taken up exactly if they ought to. */
  lemma SucceedsIff(c: Case, start: Rows, now: Rows, sorted: seq<Entry>, faults: Faults, a: nat, i: nat)
    requires ListsRows(c, sorted) && a < |sorted| && i < |sorted[a].ids|
    requires Account(c, start, now, sorted, faults, a, i)
    ensures var r := At(sorted, a, i);
      Succeeds(c, start, sorted, faults, a, i) <==> r !in faults.fails && Refers(c.reg, now, r.model, c.orig[r])
  {
    var r := At(sorted, a, i);
    if IsChannel(c.reg, r.model) {
      ThereIff(c, start, now, sorted, faults, ProfileOf(c.reg, c.orig[r]), a, i);
    }
    if c.orig[r].link.Some? {
      ThereIff(c, start, now, sorted, faults, c.orig[r].link.value, a, i);
    }
  }

  /** If the process is alive at row n of the a-th backup, it has counted the rows that count. */
  ghost predicate CountedAt(c: Case, start: Rows, rows: Rows, budget: nat, sorted: seq<Entry>, a: nat,
                            data: map<string, Row>, n: nat, faults: Faults)
    requires ListsRows(c, sorted) && a < |sorted| && n <= |sorted[a].ids| && Holds(c, sorted, a, data)
  {
    var z := RestoreRows(c.reg, rows, budget, sorted[a].model, data, sorted[a].ids, n, faults);
    !z.died ==> z.count == Tally(c, start, sorted, faults, a, n)
  }

  /** A row's turn counts it if its upsert succeeds and is answered. */
  lemma RowCounts(c: Case, rows: Rows, budget: nat, sorted: seq<Entry>, a: nat, data: map<string, Row>, i: nat,
                  faults: Faults, b: RowsRestored)
    requires ListsRows(c, sorted) && a < |sorted| && i < |sorted[a].ids| && Holds(c, sorted, a, data)
    requires b == RestoreRows(c.reg, rows, budget, sorted[a].model, data, sorted[a].ids, i, faults)
    ensures var z := RestoreRows(c.reg, rows, budget, sorted[a].model, data, sorted[a].ids, i + 1, faults);
      var r := At(sorted, a, i);
      !z.died ==>
        !b.died && z.count == b.count
          + if r !in faults.fails && Refers(c.reg, b.rows, r.model, c.orig[r]) && r !in faults.unanswered then 1 else 0
  {
    assert At(sorted, a, i) == RowId(sorted[a].model, sorted[a].ids[i]);
  }

  lemma NextCounted(c: Case, start: Rows, rows: Rows, budget: nat, sorted: seq<Entry>, a: nat, data: map<string, Row>,
                    i: nat, n: nat, faults: Faults)
    requires ListsRows(c, sorted) && a < |sorted| && n == i + 1 <= |sorted[a].ids| && Holds(c, sorted, a, data)
    requires Account(c, start, rows, sorted, faults, a, 0)
    requires CountedAt(c, start, rows, budget, sorted, a, data, i, faults)
    ensures CountedAt(c, start, rows, budget, sorted, a, data, n, faults)
  {
    var b := RestoreRows(c.reg, rows, budget, sorted[a].model, data, sorted[a].ids, i, faults);
    RowCounts(c, rows, budget, sorted, a, data, i, faults, b);
    RowsAccount(c, start, rows, budget, sorted, a, data, i, faults);
    if !b.died {
      SucceedsIff(c, start, b.rows, sorted, faults, a, i);
    }
  }

  lemma {:induction false} RowsCounted(c: Case, start: Rows, rows: Rows, budget: nat, sorted: seq<Entry>, a: nat,
                                       data: map<string, Row>, n: nat, faults: Faults)
    requires ListsRows(c, sorted) && a < |sorted| && n <= |sorted[a].ids| && Holds(c, sorted, a, data)
    requires Account(c, start, rows, sorted, faults, a, 0)
    ensures CountedAt(c, start, rows, budget, sorted, a, data, n, faults)
  {
    if n == 0 {
    } else {
      var i: nat := n - 1;
      RowsCounted(c, start, rows, budget, sorted, a, data, i, faults);
      NextCounted(c, start, rows, budget, sorted, a, data, i, n, faults);
    }
  }

  // ---------------------------------------------------------------------------------------------
  // Backups
  // ---------------------------------------------------------------------------------------------

  /** The a-th summary: its backup's table, and the rows that count. */
  ghost predicate Tells(c: Case, rows: Rows, sorted: seq<Entry>, faults: Faults, a: nat, s: RestoreSummary)
    requires ListsRows(c, sorted) && a < |sorted|
  {
    s == RestoreSummary(sorted[a].model, Tally(c, rows, sorted, faults, a, |sorted[a].ids|), true)
  }

  ghost function Total(c: Case, rows: Rows, sorted: seq<Entry>, faults: Faults, n: nat): nat
    requires ListsRows(c, sorted) && n <= |sorted|
  {
    if n == 0 then 0
    else Total(c, rows, sorted, faults, n - 1) + Tally(c, rows, sorted, faults, n - 1, |sorted[n - 1].ids|)
  }

  /** If the restore has come to backup n alive, it has told the first n. */
  ghost predicate ToldAt(c: Case, store: Store, b: Restoration, sorted: seq<Entry>, n: nat, faults: Faults)
    requires ListsRows(c, sorted) && n <= |sorted|
  {
    !b.died ==>
      && |b.summaries| == n && b.totalRowsRestored == Total(c, store.rows, sorted, faults, n)
      && forall a :: 0 <= a < n ==> Tells(c, store.rows, sorted, faults, a, b.summaries[a])
  }

  /** What a backup's turn reports. */
  lemma EntryTells(c: Case, start: Store, before: Restoration, sorted: seq<Entry>, a: nat, faults: Faults,
                   z: Restoration)
    requires ListsRows(c, sorted) && a < |sorted| && KnownAt(c, start, sorted, a)
    requires !before.died && Stands(c, start, before.store, sorted, faults, a, 0)
    requires z == RestoreEntry(c.reg, c.client, before, c.uid, sorted[a], faults)
    ensures !z.died ==>
      var n := Tally(c, start.rows, sorted, faults, a, |sorted[a].ids|);
      && z.summaries == before.summaries + [RestoreSummary(sorted[a].model, n, true)]
      && z.totalRowsRestored == before.totalRowsRestored + n
  {
    var e := sorted[a];
    var data := start.backups[BackupKey(c.uid, e.model)].data.value;
    EntryTurn(c, before, sorted, a, data, faults);
    RowsCounted(c, start.rows, before.store.rows, before.budget, sorted, a, data, |e.ids|, faults);
  }

  lemma NextTold(c: Case, store: Store, b: Restoration, budget: nat, sorted: seq<Entry>, a: nat, n: nat, faults: Faults,
                 z: Restoration)
    requires ListsRows(c, sorted) && Known(c, store, sorted) && a < |sorted| && n == a + 1
    requires Underway(c, store, b, budget, sorted, a, faults) && ToldAt(c, store, b, sorted, a, faults)
    requires z == if b.died then b else RestoreEntry(c.reg, c.client, b, c.uid, sorted[a], faults)
    ensures ToldAt(c, store, z, sorted, n, faults)
  {
    if !b.died {
      assert KnownAt(c, store, sorted, a);
      EntryTells(c, store, b, sorted, a, faults, z);
    }
  }

  lemma {:induction false} RunTold(c: Case, store: Store, budget: nat, sorted: seq<Entry>, n: nat, faults: Faults)
    requires ListsRows(c, sorted) && Known(c, store, sorted) && n <= |sorted|
    ensures ToldAt(c, store, RestoreRun(c.reg, c.client, store, budget, c.uid, sorted, n, faults), sorted, n, faults)
  {
    if n == 0 {
    } else {
      var i: nat := n - 1;
      RunTold(c, store, budget, sorted, i, faults);
      RunRestores(c, store, budget, sorted, i, faults);
      NextTold(c, store, RestoreRun(c.reg, c.client, store, budget, c.uid, sorted, i, faults), budget, sorted, i, n,
        faults, RestoreRun(c.reg, c.client, store, budget, c.uid, sorted, n, faults));
    }
  }

  /**
    What a restore that ends reports, whatever fails: one summary for each backup in the order taken, with
    the number of its rows whose upsert does not fail, whose references are there in their turn, and whose
    answer arrives; and the sum of these.
  */
  lemma RestoreReports(c: Case, store: Store, budget: nat, entries: seq<Entry>, faults: Faults, end: Restoration)
    requires Backed(c, store) && ListsHeld(store, c.uid, entries)
    requires end == RestoreFromBackups(c.reg, c.client, store, budget, c.uid, entries, faults)
    ensures var sorted := ParentsFirst(c.reg, entries);
      && ListsRows(c, sorted)
      && (!end.died ==>
            && |end.summaries| == |entries| && |sorted| == |entries|
            && (forall a :: 0 <= a < |sorted| ==> Tells(c, store.rows, sorted, faults, a, end.summaries[a]))
            && end.totalRowsRestored == Total(c, store.rows, sorted, faults, |sorted|))
  {
    RestoreLists(c, store, entries);
    ParentsFirstSorts(c.reg, entries);
    var sorted := ParentsFirst(c.reg, entries);
    RunTold(c, store, budget, sorted, |sorted|, faults);
  }

  /** How many rows the first n backups list. */
  function RowsListed(sorted: seq<Entry>, n: nat): nat
    requires n <= |sorted|
  {
    if n == 0 then 0 else RowsListed(sorted, n - 1) + |sorted[n - 1].ids|
  }

  lemma WelcomeSucceeds(c: Case, rows: Rows, sorted: seq<Entry>, faults: Faults, a: nat, i: nat)
    requires OthersStay(c, rows) && ListsRows(c, sorted) && WelcomeInTime(c, rows, sorted, faults)
    requires a < |sorted| && i < |sorted[a].ids| && faults.fails == {}
    ensures Succeeds(c, rows, sorted, faults, a, i)
  {
    var r := At(sorted, a, i);
    assert WelcomeAt(c, rows, sorted, faults, a, i);
    if Unchanged(c.orig, rows, r) {
      assert Refers(c.reg, rows, r.model, rows[r]);
    } else {
      if IsChannel(c.reg, r.model) {
        ComesThere(c, rows, sorted, faults, ProfileOf(c.reg, c.orig[r]), a, i);
      }
      if c.orig[r].link.Some? {
        ComesThere(c, rows, sorted, faults, c.orig[r].link.value, a, i);
      }
    }
  }

  lemma {:induction false} AllTallied(c: Case, rows: Rows, sorted: seq<Entry>, faults: Faults, n: nat)
    requires OthersStay(c, rows) && ListsRows(c, sorted) && WelcomeInTime(c, rows, sorted, faults) && n <= |sorted|
    requires faults.fails == {} && faults.unanswered == {}
    ensures Total(c, rows, sorted, faults, n) == RowsListed(sorted, n)
  {
    if n == 0 {
    } else {
      var a: nat := n - 1;
      AllTallied(c, rows, sorted, faults, a);
      AllCount(c, rows, sorted, faults, a, |sorted[a].ids|);
    }
  }

  lemma {:induction false} AllCount(c: Case, rows: Rows, sorted: seq<Entry>, faults: Faults, a: nat, n: nat)
    requires OthersStay(c, rows) && ListsRows(c, sorted) && WelcomeInTime(c, rows, sorted, faults) && a < |sorted|
    requires faults.fails == {} && faults.unanswered == {} && n <= |sorted[a].ids|
    ensures Tally(c, rows, sorted, faults, a, n) == n
  {
    if n == 0 {
    } else {
      var i: nat := n - 1;
      AllCount(c, rows, sorted, faults, a, i);
      WelcomeSucceeds(c, rows, sorted, faults, a, i);
    }
  }

  /** With all rows welcome and nothing failing, the total is the number of rows listed. */
  lemma WelcomeRestoreCountsAll(c: Case, store: Store, budget: nat, entries: seq<Entry>, faults: Faults,
                                end: Restoration)
    requires Backed(c, store) && ListsHeld(store, c.uid, entries) && AllWelcome(c, store, entries, faults)
    requires faults.fails == {} && faults.unanswered == {}
    requires end == RestoreFromBackups(c.reg, c.client, store, budget, c.uid, entries, faults)
    ensures var sorted := ParentsFirst(c.reg, entries);
      !end.died ==> end.totalRowsRestored == RowsListed(sorted, |sorted|)
  {
    var sorted := ParentsFirst(c.reg, entries);
    RestoreReports(c, store, budget, entries, faults, end);
    AllTallied(c, store.rows, sorted, faults, |sorted|);
  }

  // ---------------------------------------------------------------------------------------------
  // Backups that are not valid, and models the client does not know
  // ---------------------------------------------------------------------------------------------

  /** The tables of the first n backups that are valid, in order. */
  function ValidTables(store: Store, uid: string, sorted: seq<Entry>, n: nat): seq<string>
    requires n <= |sorted|
  {
    if n == 0 then []
    else
      ValidTables(store, uid, sorted, n - 1)
      + if Restorable(store, uid, sorted[n - 1]) then [sorted[n - 1].model] else []
  }

  /** The backups hold what they held; only marks differ. */
  ghost predicate SameData(before: Store, after: Store) {
    && before.backups.Keys == after.backups.Keys
    && forall k :: k in before.backups ==> after.backups[k].data == before.backups[k].data
  }

  ghost predicate NamesValidAt(reg: Registry, client: set<string>, store: Store, budget: nat, uid: string,
                               sorted: seq<Entry>, n: nat, faults: Faults)
    requires n <= |sorted|
  {
    var b := RestoreRun(reg, client, store, budget, uid, sorted, n, faults);
    && SameData(store, b.store)
    && (!b.died ==>
          && |b.summaries| == |ValidTables(store, uid, sorted, n)|
          && (forall k :: 0 <= k < |b.summaries| ==>
                && b.summaries[k].table == ValidTables(store, uid, sorted, n)[k]
                && (b.summaries[k].restored <==> b.summaries[k].table in client)
                && (!b.summaries[k].restored ==> b.summaries[k].rows == 0))
          && (forall k :: k in store.backups && !store.backups[k].used && store.backups[k].data.None? ==>
                !b.store.backups[k].used))
  }

  lemma EntryNames(reg: Registry, client: set<string>, before: Restoration, uid: string, e: Entry, faults: Faults)
    requires !before.died
    ensures var z := RestoreEntry(reg, client, before, uid, e, faults);
      && SameData(before.store, z.store)
      && (forall k :: k in before.store.backups && before.store.backups[k].data.None? ==>
            z.store.backups[k].used == before.store.backups[k].used)
      && (!z.died ==>
            if Restorable(before.store, uid, e) then
              && |z.summaries| == |before.summaries| + 1 && before.summaries < z.summaries
              && var s := z.summaries[|before.summaries|];
                 s.table == e.model && (s.restored <==> e.model in client) && (!s.restored ==> s.rows == 0)
            else z.summaries == before.summaries)
  {
  }

  lemma NextNames(reg: Registry, client: set<string>, store: Store, budget: nat, uid: string, sorted: seq<Entry>,
                  i: nat, n: nat, faults: Faults)
    requires i < |sorted| && n == i + 1 && NamesValidAt(reg, client, store, budget, uid, sorted, i, faults)
    ensures NamesValidAt(reg, client, store, budget, uid, sorted, n, faults)
  {
    var b := RestoreRun(reg, client, store, budget, uid, sorted, i, faults);
    if !b.died {
      EntryNames(reg, client, b, uid, sorted[i], faults);
      assert Restorable(b.store, uid, sorted[i]) <==> Restorable(store, uid, sorted[i]);
    }
  }

  /**
    From any store: a restore that ends has one summary for each backup that holds a valid array, in order,
    restored exactly if the client knows the model; a backup that does not is skipped and stays unused.
  */
  lemma {:induction false} RunNamesValid(reg: Registry, client: set<string>, store: Store, budget: nat, uid: string,
                                         sorted: seq<Entry>, n: nat, faults: Faults)
    requires n <= |sorted|
    ensures NamesValidAt(reg, client, store, budget, uid, sorted, n, faults)
  {
    if n == 0 {
    } else {
      var i: nat := n - 1;
      RunNamesValid(reg, client, store, budget, uid, sorted, i, faults);
      NextNames(reg, client, store, budget, uid, sorted, i, n, faults);
    }
  }
}
