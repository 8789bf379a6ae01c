/**
  The restore as the application ships it, over any number of attempts. Scheduled notifications name logs,
  both are keyed by the identity, and the query names no order: what is given back turns on which backup
  an attempt takes first.
*/
module SuspensionRecovery {
  import opened Options
  import opened SuspensionStore
  import opened SuspensionRestore
  import opened SuspensionRetry
  import S = SuspensionShipped

  // ---------------------------------------------------------------------------------------------
  // Order of the backups
  // ---------------------------------------------------------------------------------------------

  /** The query lists the backup of the logs before that of the scheduled notifications. */
  ghost predicate LogsFirst(m: S.Models, entries: seq<Entry>) {
    exists a, b :: 0 <= a < b < |entries| && entries[a].model == m.log.name && entries[b].model == m.scheduled.name
  }

  /** A scheduled notification of the identity names a log of the identity. */
  ghost predicate NamesOwnLog(m: S.Models, c: Case, r: RowId) {
    Mine(c, r) && r.model == m.scheduled.name && c.orig[r].link.Some? && Mine(c, c.orig[r].link.value)
  }

  /** A backup of the group has its place there. */
  lemma PlaceInGroup(reg: Registry, entries: seq<Entry>, children: bool, e: Entry) returns (a: nat)
    requires e in entries && IsChild(reg, e.model) == children
    ensures a < |Group(reg, entries, children)| && Group(reg, entries, children)[a] == e
  {
    a :| a < |Group(reg, entries, children)| && Group(reg, entries, children)[a] == e;
  }

  lemma GroupGrows(reg: Registry, entries: seq<Entry>, pre: seq<Entry>, last: Entry, children: bool)
    requires entries == pre + [last]
    ensures Group(reg, entries, children) == Group(reg, pre, children) + if IsChild(reg, last.model) == children
      then [last] else []
  {
    assert entries[..|entries| - 1] == pre;
  }

  /** Backups of one group keep their order. */
  lemma {:induction false} GroupKeepsOrder(reg: Registry, entries: seq<Entry>, children: bool, i: nat, j: nat)
    returns (a: nat, b: nat)
    requires i < j < |entries| && IsChild(reg, entries[i].model) == children == IsChild(reg, entries[j].model)
    ensures a < b < |Group(reg, entries, children)|
    ensures Group(reg, entries, children)[a] == entries[i] && Group(reg, entries, children)[b] == entries[j]
  {
    var n: nat := |entries| - 1;
    var pre, last := entries[..n], entries[n];
    assert entries == pre + [last];
    GroupGrows(reg, entries, pre, last, children);
    if j < n {
      a, b := GroupKeepsOrder(reg, pre, children, i, j);
    } else {
      assert pre[i] in pre;
      a := PlaceInGroup(reg, pre, children, entries[i]);
      b := |Group(reg, pre, children)|;
    }
  }

  lemma ParentsKeepOrder(reg: Registry, entries: seq<Entry>, i: nat, j: nat) returns (a: nat, b: nat)
    requires i < j < |entries| && !IsChild(reg, entries[i].model) && !IsChild(reg, entries[j].model)
    ensures a < b < |ParentsFirst(reg, entries)|
    ensures ParentsFirst(reg, entries)[a] == entries[i] && ParentsFirst(reg, entries)[b] == entries[j]
  {
    a, b := GroupKeepsOrder(reg, entries, false, i, j);
  }

  lemma OnePosition(sorted: seq<Entry>, i: nat, j: nat)
    requires i < |sorted| && j < |sorted| && sorted[i].model == sorted[j].model
    requires forall a, b :: 0 <= a < b < |sorted| ==> sorted[a].model != sorted[b].model
    ensures i == j
  {
  }

  /** An order after sorting was there before. */
  lemma OrderedBack(m: S.Models, c: Case, entries: seq<Entry>, sorted: seq<Entry>, b: nat, a: nat)
    requires S.IsShipped(m, c.reg) && sorted == ParentsFirst(c.reg, entries)
    requires forall i, j :: 0 <= i < j < |sorted| ==> sorted[i].model != sorted[j].model
    requires b < a < |sorted| && sorted[b].model == m.log.name && sorted[a].model == m.scheduled.name
    ensures LogsFirst(m, entries)
  {
    ParentsFirstSorts(c.reg, entries);
    assert sorted[b] in entries && sorted[a] in entries;
    var x: nat :| x < |entries| && entries[x] == sorted[b];
    var y: nat :| y < |entries| && entries[y] == sorted[a];
    if y < x {
      var d, e := ParentsKeepOrder(c.reg, entries, y, x);
      OnePosition(sorted, d, a);
      OnePosition(sorted, e, b);
    }
  }

  lemma LogNotListed(m: S.Models, c: Case, done: Store, entries: seq<Entry>, sorted: seq<Entry>, t: RowId, a: nat,
                     i: nat)
    requires S.IsShipped(m, c.reg) && ListsHeld(done, c.uid, sorted) && sorted == ParentsFirst(c.reg, entries)
    requires !LogsFirst(m, entries) && a < |sorted| && sorted[a].model == m.scheduled.name && t.model == m.log.name
    ensures !Listed(sorted, t, a, i)
  {
    if Listed(sorted, t, a, i) {
      var b: nat, k: nat :| b < |sorted| && k < |sorted[b].ids| && (b < a || (b == a && k < i))
        && t == At(sorted, b, k);
      OrderedBack(m, c, entries, sorted, b, a);
    }
  }

  // ---------------------------------------------------------------------------------------------
  // Which rows come back
  // ---------------------------------------------------------------------------------------------

  /** All that is not in an unused backup is as it was, scheduled notifications apart. */
  ghost predicate Sturdy(m: S.Models, c: Case, store: Store) {
    && Backed(c, store)
    && (forall r {:trigger Unchanged(c.orig, store.rows, r)} ::
          r in c.orig && Mine(c, r) && !Held(store, c.uid, r.model) && r.model != m.scheduled.name ==>
            Unchanged(c.orig, store.rows, r))
  }

  /** Every log that a scheduled notification names is there. */
  ghost predicate LogsThere(m: S.Models, c: Case, rows: Rows) {
    forall r {:trigger NamesOwnLog(m, c, r)} :: NamesOwnLog(m, c, r) ==> c.orig[r].link.value in rows
  }

  /** What the schema says of the references of a row of the identity. */
  lemma OwnReferences(m: S.Models, c: Case, r: RowId)
    requires S.ShippedCase(m, c) && Mine(c, r)
    ensures c.orig[r].link.Some? ==> r.model == m.scheduled.name && c.orig[r].link.value.model == m.log.name
    ensures r.model == m.scheduled.name ==> !IsChannel(c.reg, r.model)
    ensures IsChannel(c.reg, r.model) ==>
      var p := ProfileOf(c.reg, c.orig[r]); Mine(c, p) && p.model != m.scheduled.name && !IsChild(c.reg, p.model)
  {
  }

  /** A row of the identity without references comes back. */
  lemma FreeComesBack(m: S.Models, c: Case, rows: Rows, sorted: seq<Entry>, faults: Faults, a: nat, i: nat)
    requires S.ShippedCase(m, c) && ListsRows(c, sorted) && a < |sorted| && i < |sorted[a].ids| && faults.fails == {}
    requires !IsChannel(c.reg, sorted[a].model) && sorted[a].model != m.scheduled.name
    ensures ComesBack(c, rows, sorted, faults, a, i)
  {
    OwnReferences(m, c, At(sorted, a, i));
  }

  /** A channel's profile is there, or comes back before it. */
  lemma ProfileThere(m: S.Models, c: Case, store: Store, sorted: seq<Entry>, faults: Faults, p: RowId, a: nat, i: nat)
    requires S.ShippedCase(m, c) && Sturdy(m, c, store) && ListsHeld(store, c.uid, sorted) && ListsRows(c, sorted)
    requires ParentsLead(c.reg, sorted) && a < |sorted| && IsChild(c.reg, sorted[a].model) && faults.fails == {}
    requires Mine(c, p) && p.model != m.scheduled.name && !IsChild(c.reg, p.model)
    ensures ThereAt(c, store.rows, sorted, faults, p, a, i)
  {
    if Held(store, c.uid, p.model) {
      var b, k := PositionOf(c, store, sorted, p);
      assert At(sorted, b, k) == p;
      FreeComesBack(m, c, store.rows, sorted, faults, b, k);
    } else {
      assert Unchanged(c.orig, store.rows, p);
    }
  }

  /** All but scheduled notifications come back in every attempt. */
  lemma OtherComesBack(m: S.Models, c: Case, store: Store, entries: seq<Entry>, faults: Faults, r: RowId)
    requires S.ShippedCase(m, c) && Sturdy(m, c, store) && ListsHeld(store, c.uid, entries) && faults.fails == {}
    requires Mine(c, r) && Held(store, c.uid, r.model) && r.model != m.scheduled.name
    ensures RowComesBack(c, store.rows, entries, faults, r)
  {
    RestoreLists(c, store, entries);
    ParentsFirstSorts(c.reg, entries);
    var sorted := ParentsFirst(c.reg, entries);
    var a, i := PositionOf(c, store, sorted, r);
    OwnReferences(m, c, r);
    if IsChannel(c.reg, r.model) {
      ProfileThere(m, c, store, sorted, faults, ProfileOf(c.reg, c.orig[r]), a, i);
    }
    RowComesBackAt(c, store.rows, entries, faults, r, a, i);
  }

  /** With the logs listed first, the log a scheduled notification names is taken up before it. */
  lemma LogPosition(m: S.Models, c: Case, store: Store, entries: seq<Entry>, sorted: seq<Entry>, t: RowId, a: nat)
    returns (e: nat, k: nat)
    requires Backed(c, store) && S.IsShipped(m, c.reg) && ListsHeld(store, c.uid, sorted)
    requires sorted == ParentsFirst(c.reg, entries) && LogsFirst(m, entries)
    requires a < |sorted| && sorted[a].model == m.scheduled.name && Mine(c, t) && t.model == m.log.name
    ensures e < a && k < |sorted[e].ids| && At(sorted, e, k) == t
  {
    var x, y :| 0 <= x < y < |entries| && entries[x].model == m.log.name && entries[y].model == m.scheduled.name;
    var b, d := ParentsKeepOrder(c.reg, entries, x, y);
    assert Names(store, c.uid, sorted[b]);
    e, k := PositionOf(c, store, sorted, t);
    OnePosition(sorted, d, a);
    OnePosition(sorted, e, b);
  }

  lemma ComesBackThere(c: Case, rows: Rows, sorted: seq<Entry>, faults: Faults, a: nat, i: nat, b: nat, k: nat)
    requires ListsRows(c, sorted) && b < a && b < |sorted| && k < |sorted[b].ids|
    requires ComesBack(c, rows, sorted, faults, b, k)
    ensures ThereAt(c, rows, sorted, faults, At(sorted, b, k), a, i)
  {
  }

  /** A log is there when a scheduled notification is taken up if it was there before, or is listed first. */
  lemma LogThereIff(m: S.Models, c: Case, store: Store, entries: seq<Entry>, sorted: seq<Entry>, faults: Faults,
                    t: RowId, a: nat, i: nat)
    requires S.ShippedCase(m, c) && Backed(c, store) && faults.fails == {}
    requires ListsHeld(store, c.uid, sorted) && ListsRows(c, sorted) && sorted == ParentsFirst(c.reg, entries)
    requires a < |sorted| && sorted[a].model == m.scheduled.name && Mine(c, t) && t.model == m.log.name
    ensures ThereAt(c, store.rows, sorted, faults, t, a, i) <==> t in store.rows || LogsFirst(m, entries)
  {
    if LogsFirst(m, entries) {
      var e, k := LogPosition(m, c, store, entries, sorted, t, a);
      FreeComesBack(m, c, store.rows, sorted, faults, e, k);
      ComesBackThere(c, store.rows, sorted, faults, a, i, e, k);
    } else {
      LogNotListed(m, c, store, entries, sorted, t, a, i);
      if ThereAt(c, store.rows, sorted, faults, t, a, i) && t !in store.rows {
        ThereComes(c, store.rows, sorted, faults, t, a, i);
      }
    }
  }

  lemma UnchangedHasLog(c: Case, rows: Rows, r: RowId)
    requires OthersStay(c, rows) && r in c.orig && c.orig[r].link.Some?
    ensures Unchanged(c.orig, rows, r) ==> c.orig[r].link.value in rows
  {
    if Unchanged(c.orig, rows, r) {
      assert Refers(c.reg, rows, r.model, rows[r]);
    }
  }

  /** What a scheduled notification refers to, when it refers to a log of the identity and when it does not. */
  lemma ScheduledAt(m: S.Models, c: Case, rows: Rows, sorted: seq<Entry>, faults: Faults, r: RowId, a: nat, i: nat)
    requires S.ShippedCase(m, c) && OthersStay(c, rows) && ListsRows(c, sorted) && faults.fails == {}
    requires a < |sorted| && i < |sorted[a].ids| && At(sorted, a, i) == r && r.model == m.scheduled.name
    ensures !NamesOwnLog(m, c, r) ==> ComesBack(c, rows, sorted, faults, a, i)
    ensures NamesOwnLog(m, c, r) ==>
      (ComesBack(c, rows, sorted, faults, a, i) <==> ThereAt(c, rows, sorted, faults, c.orig[r].link.value, a, i))
  {
    assert Mine(c, r);
    OwnReferences(m, c, r);
    if c.orig[r].link.Some? {
      assert Refers(c.reg, c.orig, r.model, c.orig[r]);
      UnchangedHasLog(c, rows, r);
      if !Mine(c, c.orig[r].link.value) {
        OtherRowStays(c, rows, c.orig[r].link.value);
      }
    }
  }

  /** A scheduled notification comes back exactly if the log it names is there, or listed first. */
  lemma ScheduledComesBackIff(m: S.Models, c: Case, store: Store, entries: seq<Entry>, faults: Faults, r: RowId)
    requires S.ShippedCase(m, c) && Backed(c, store) && ListsHeld(store, c.uid, entries) && faults.fails == {}
    requires Mine(c, r) && Held(store, c.uid, r.model) && r.model == m.scheduled.name
    ensures RowComesBack(c, store.rows, entries, faults, r) <==>
      (NamesOwnLog(m, c, r) ==> c.orig[r].link.value in store.rows || LogsFirst(m, entries))
  {
    RestoreLists(c, store, entries);
    var sorted := ParentsFirst(c.reg, entries);
    var a, i := PositionOf(c, store, sorted, r);
    RowComesBackAt(c, store.rows, entries, faults, r, a, i);
    ScheduledAt(m, c, store.rows, sorted, faults, r, a, i);
    if NamesOwnLog(m, c, r) {
      OwnReferences(m, c, r);
      LogThereIff(m, c, store, entries, sorted, faults, c.orig[r].link.value, a, i);
    }
  }

  // ---------------------------------------------------------------------------------------------
  // Any number of attempts
  // ---------------------------------------------------------------------------------------------

  /** No upsert fails for other reasons than references. */
  ghost predicate Smooth(attempts: seq<Attempt>) {
    forall k :: 0 <= k < |attempts| ==> attempts[k].faults.fails == {}
  }

  lemma EarlierSmooth(attempts: seq<Attempt>)
    requires attempts != [] && Smooth(attempts)
    ensures Smooth(Earlier(attempts)) && Last(attempts).faults.fails == {}
  {
  }

  lemma AttemptStaysSturdy(m: S.Models, c: Case, store: Store, attempt: Attempt)
    requires S.ShippedCase(m, c) && Sturdy(m, c, store) && ListsHeld(store, c.uid, attempt.entries)
    requires attempt.faults.fails == {}
    ensures Sturdy(m, c, Restored(c, store, attempt).store)
  {
    var end := Restored(c, store, attempt);
    RestoreStaysBacked(c, store, attempt.budget, attempt.entries, attempt.faults, end);
    forall r | r in c.orig && Mine(c, r) && !Held(end.store, c.uid, r.model) && r.model != m.scheduled.name
      ensures Unchanged(c.orig, end.store.rows, r)
    {
      AttemptOnRow(c, store, attempt, r, end.store);
      if Held(store, c.uid, r.model) {
        OtherComesBack(m, c, store, attempt.entries, attempt.faults, r);
      } else {
        assert Unchanged(c.orig, store.rows, r);
      }
    }
  }

  lemma {:induction false} AttemptsStaySturdy(m: S.Models, c: Case, store: Store, attempts: seq<Attempt>)
    requires S.ShippedCase(m, c) && Sturdy(m, c, store) && Made(c, store, attempts) && Smooth(attempts)
    ensures Sturdy(m, c, After(c, store, attempts))
  {
    if attempts == [] {
    } else {
      EarlierSmooth(attempts);
      AttemptsStaySturdy(m, c, store, Earlier(attempts));
      AttemptStaysSturdy(m, c, After(c, store, Earlier(attempts)), Last(attempts));
    }
  }

  /**
    The attempt that uses up the backup of the scheduled notifications finds the logs they name, or takes
    the logs' backup first.
  */
  ghost predicate LogsInTime(m: S.Models, c: Case, store: Store, attempts: seq<Attempt>) {
    attempts == []
    || (var before := After(c, store, Earlier(attempts));
        if UsesUp(c, before, Last(attempts), m.scheduled.name)
        then LogsFirst(m, Last(attempts).entries) || LogsThere(m, c, before.rows)
        else LogsInTime(m, c, store, Earlier(attempts)))
  }

  lemma {:induction false} OtherInTime(m: S.Models, c: Case, store: Store, attempts: seq<Attempt>, r: RowId)
    requires S.ShippedCase(m, c) && Sturdy(m, c, store) && Made(c, store, attempts) && Smooth(attempts)
    requires Mine(c, r) && r.model != m.scheduled.name
    ensures ComesBackInTime(c, store, attempts, r)
  {
    if attempts == [] {
    } else {
      EarlierSmooth(attempts);
      OtherInTime(m, c, store, Earlier(attempts), r);
      AttemptsStaySturdy(m, c, store, Earlier(attempts));
      var before := After(c, store, Earlier(attempts));
      if Held(before, c.uid, r.model) {
        OtherComesBack(m, c, before, Last(attempts).entries, Last(attempts).faults, r);
      }
    }
  }

  /** The scheduled notifications come back in time. */
  ghost predicate ScheduledInTime(m: S.Models, c: Case, store: Store, attempts: seq<Attempt>) {
    forall r {:trigger ComesBackInTime(c, store, attempts, r)} ::
      Mine(c, r) && r.model == m.scheduled.name ==> ComesBackInTime(c, store, attempts, r)
  }

  /** The attempt that uses up their backup. */
  lemma ScheduledUsedUp(m: S.Models, c: Case, store: Store, attempts: seq<Attempt>)
    requires S.ShippedCase(m, c) && attempts != [] && Last(attempts).faults.fails == {}
    requires Backed(c, After(c, store, Earlier(attempts))) && Made(c, store, attempts)
    requires UsesUp(c, After(c, store, Earlier(attempts)), Last(attempts), m.scheduled.name)
    ensures ScheduledInTime(m, c, store, attempts) <==> LogsInTime(m, c, store, attempts)
  {
    var before, attempt := After(c, store, Earlier(attempts)), Last(attempts);
    forall r | Mine(c, r) && r.model == m.scheduled.name
      ensures ComesBackInTime(c, store, attempts, r) <==>
        (NamesOwnLog(m, c, r) ==> c.orig[r].link.value in before.rows || LogsFirst(m, attempt.entries))
    {
      ScheduledComesBackIff(m, c, before, attempt.entries, attempt.faults, r);
    }
    if ScheduledInTime(m, c, store, attempts) && !LogsFirst(m, attempt.entries) {
      forall r | NamesOwnLog(m, c, r) ensures c.orig[r].link.value in before.rows {
        assert ComesBackInTime(c, store, attempts, r);
      }
    }
    if LogsInTime(m, c, store, attempts) {
      forall r | Mine(c, r) && r.model == m.scheduled.name ensures ComesBackInTime(c, store, attempts, r) {
        assert NamesOwnLog(m, c, r) ==> c.orig[r].link.value in before.rows || LogsFirst(m, attempt.entries);
      }
    }
  }

  lemma ScheduledNotUsedUp(m: S.Models, c: Case, store: Store, attempts: seq<Attempt>)
    requires attempts != [] && !UsesUp(c, After(c, store, Earlier(attempts)), Last(attempts), m.scheduled.name)
    ensures ScheduledInTime(m, c, store, attempts) <==> ScheduledInTime(m, c, store, Earlier(attempts))
    ensures LogsInTime(m, c, store, attempts) <==> LogsInTime(m, c, store, Earlier(attempts))
  {
    forall r | Mine(c, r) && r.model == m.scheduled.name
      ensures ComesBackInTime(c, store, attempts, r) <==> ComesBackInTime(c, store, Earlier(attempts), r)
    {
    }
    if ScheduledInTime(m, c, store, attempts) {
      forall r | Mine(c, r) && r.model == m.scheduled.name ensures ComesBackInTime(c, store, Earlier(attempts), r) {
        assert ComesBackInTime(c, store, attempts, r);
      }
    }
  }

  lemma {:induction false} ScheduledInTimeIff(m: S.Models, c: Case, store: Store, attempts: seq<Attempt>)
    requires S.ShippedCase(m, c) && Sturdy(m, c, store) && Made(c, store, attempts) && Smooth(attempts)
    ensures ScheduledInTime(m, c, store, attempts) <==> LogsInTime(m, c, store, attempts)
  {
    if attempts == [] {
    } else {
      EarlierSmooth(attempts);
      ScheduledInTimeIff(m, c, store, Earlier(attempts));
      AttemptsStaySturdy(m, c, store, Earlier(attempts));
      if UsesUp(c, After(c, store, Earlier(attempts)), Last(attempts), m.scheduled.name) {
        ScheduledUsedUp(m, c, store, attempts);
      } else {
        ScheduledNotUsedUp(m, c, store, attempts);
      }
    }
  }

  /** Exactly when any number of attempts that have used up all backups give back all rows of the identity. */
  lemma RecoveryIff(m: S.Models, c: Case, store: Store, attempts: seq<Attempt>)
    requires S.ShippedCase(m, c) && Recoverable(c, store) && Made(c, store, attempts) && Smooth(attempts)
    requires forall model :: !Held(After(c, store, attempts), c.uid, model)
    ensures var end := After(c, store, attempts);
      && (OwnBack(c, end.rows) <==> LogsInTime(m, c, store, attempts))
      && (end.rows == c.orig <==> LogsInTime(m, c, store, attempts) && OthersUnchanged(c, store.rows))
  {
    AttemptsGiveBackAllIff(c, store, attempts);
    ScheduledInTimeIff(m, c, store, attempts);
    forall r | Mine(c, r) && r.model != m.scheduled.name ensures ComesBackInTime(c, store, attempts, r) {
      OtherInTime(m, c, store, attempts, r);
    }
  }

  /** No attempt takes the scheduled notifications before the logs. */
  ghost predicate NeverScheduledFirst(m: S.Models, attempts: seq<Attempt>) {
    forall k, a, b :: 0 <= k < |attempts| && 0 <= a < b < |attempts[k].entries| ==>
      !(attempts[k].entries[a].model == m.scheduled.name && attempts[k].entries[b].model == m.log.name)
  }

  /** What an order in the query would do: with the logs never last, they are in time however often it stops. */
  lemma {:induction false} OrderedIsInTime(m: S.Models, c: Case, store: Store, attempts: seq<Attempt>)
    requires S.ShippedCase(m, c) && Sturdy(m, c, store) && Made(c, store, attempts) && Smooth(attempts)
    requires NeverScheduledFirst(m, attempts)
    ensures LogsInTime(m, c, store, attempts)
  {
    if attempts == [] {
    } else {
      var pre, last := Earlier(attempts), Last(attempts);
      EarlierSmooth(attempts);
      assert forall k :: 0 <= k < |pre| ==> pre[k] == attempts[k];
      OrderedIsInTime(m, c, store, pre);
      AttemptsStaySturdy(m, c, store, pre);
      var before := After(c, store, pre);
      if UsesUp(c, before, last, m.scheduled.name) {
        OrderedUsesUp(m, c, before, last);
      }
    }
  }

  lemma OrderedUsesUp(m: S.Models, c: Case, store: Store, attempt: Attempt)
    requires S.ShippedCase(m, c) && Sturdy(m, c, store) && ListsHeld(store, c.uid, attempt.entries)
    requires NeverScheduledFirst(m, [attempt]) && Held(store, c.uid, m.scheduled.name)
    ensures LogsFirst(m, attempt.entries) || LogsThere(m, c, store.rows)
  {
    var entries := attempt.entries;
    if Held(store, c.uid, m.log.name) {
      var a: nat :| a < |entries| && entries[a].model == m.log.name;
      var b: nat :| b < |entries| && entries[b].model == m.scheduled.name;
      assert [attempt][0] == attempt;
    } else {
      forall r | NamesOwnLog(m, c, r) ensures c.orig[r].link.value in store.rows {
        OwnReferences(m, c, r);
        assert Unchanged(c.orig, store.rows, c.orig[r].link.value);
      }
    }
  }

  // ---------------------------------------------------------------------------------------------
  // After both batches
  // ---------------------------------------------------------------------------------------------

  /**
    The shipped round trip over any number of attempts, exactly. After both batches, any attempts that were
    stopped and one that ended, with no upsert failing for other reasons than references, have given back
    all rows of the identity if and only if the attempt that used up the backup of the scheduled
    notifications found the logs they name or took those first; the whole database is the original one if
    and only if, besides, no row of others referred to a deleted row.
  */
  lemma ShippedRetries(m: S.Models, c: Case, store: Store, mid: Store, done: Store, budget1: nat,
                       keys1: map<UserField, string>, budget2: nat, keys2: map<UserField, string>,
                       attempts: seq<Attempt>)
    requires S.FirstDone(m, c, store, mid, budget1, keys1) && S.SecondDone(m, c, mid, done, budget2, keys2)
    requires Made(c, done, attempts) && Smooth(attempts) && attempts != []
    ensures var end := After(c, done, attempts).rows;
      !Restored(c, After(c, done, Earlier(attempts)), Last(attempts)).died ==>
        && (OwnBack(c, end) <==> LogsInTime(m, c, done, attempts))
        && (end == store.rows <==> LogsInTime(m, c, done, attempts) && forall r :: !S.RefersToDeleted(m, c, r))
        && (NeverScheduledFirst(m, attempts) ==> LogsInTime(m, c, done, attempts))
  {
    S.AfterBoth(m, c, store, mid, done, budget1, keys1, budget2, keys2);
    S.OthersAfterBoth(m, c, store, mid, done, budget1, keys1, budget2, keys2);
    AttemptsStayBacked(c, done, Earlier(attempts));
    var before, last := After(c, done, Earlier(attempts)), Last(attempts);
    EndedUsesAll(c, before, last.budget, last.entries, last.faults, Restored(c, before, last));
    if !Restored(c, before, last).died {
      RecoveryIff(m, c, done, attempts);
    }
    if NeverScheduledFirst(m, attempts) {
      OrderedIsInTime(m, c, done, attempts);
    }
  }

  /**
    For one restore that ends: if and only if none of the scheduled notifications names a log of its own or
    the query lists the logs' backup first.
  */
  lemma ShippedRoundTrip(m: S.Models, c: Case, store: Store, mid: Store, done: Store, budget1: nat,
                         keys1: map<UserField, string>, budget2: nat, keys2: map<UserField, string>, budget3: nat,
                         entries: seq<Entry>, faults: Faults)
    requires S.FirstDone(m, c, store, mid, budget1, keys1) && S.SecondDone(m, c, mid, done, budget2, keys2)
    requires ListsHeld(done, c.uid, entries) && faults.fails == {}
    ensures var end := RestoreFromBackups(c.reg, c.client, done, budget3, c.uid, entries, faults);
      !end.died ==>
        && (OwnBack(c, end.store.rows) <==> (forall r :: !NamesOwnLog(m, c, r)) || LogsFirst(m, entries))
        && (end.store.rows == store.rows <==>
              ((forall r :: !NamesOwnLog(m, c, r)) || LogsFirst(m, entries)) && forall r :: !S.RefersToDeleted(m, c, r))
  {
    var attempt := Attempt(budget3, entries, faults);
    var end := Restored(c, done, attempt);
    S.AfterBoth(m, c, store, mid, done, budget1, keys1, budget2, keys2);
    S.OthersAfterBoth(m, c, store, mid, done, budget1, keys1, budget2, keys2);
    EndedUsesAll(c, done, budget3, entries, faults, end);
    if !end.died {
      OneRecovery(m, c, done, attempt, end.store);
    }
  }

  lemma OneRecovery(m: S.Models, c: Case, done: Store, attempt: Attempt, end: Store)
    requires S.ShippedCase(m, c) && Recoverable(c, done) && end == Restored(c, done, attempt).store
    requires ListsHeld(done, c.uid, attempt.entries) && attempt.faults.fails == {}
    requires forall model :: !Held(end, c.uid, model)
    requires forall r :: Mine(c, r) ==> Held(done, c.uid, r.model)
    requires forall r :: Mine(c, r) && r in done.rows ==> r.model == m.profile.name
    ensures var good := (forall r :: !NamesOwnLog(m, c, r)) || LogsFirst(m, attempt.entries);
      && (OwnBack(c, end.rows) <==> good) && (end.rows == c.orig <==> good && OthersUnchanged(c, done.rows))
  {
    OneAttempt(c, done, attempt);
    RecoveryIff(m, c, done, [attempt]);
    InTimeAtOnce(m, c, done, attempt);
  }

  lemma OneAttempt(c: Case, store: Store, attempt: Attempt)
    ensures Earlier([attempt]) == [] && Last([attempt]) == attempt
    ensures After(c, store, [attempt]) == Restored(c, store, attempt).store
    ensures Made(c, store, [attempt]) <==> ListsHeld(store, c.uid, attempt.entries)
  {
    assert [attempt][..0] == [];
  }

  lemma InTimeAtOnce(m: S.Models, c: Case, done: Store, attempt: Attempt)
    requires S.ShippedCase(m, c) && forall model :: !Held(Restored(c, done, attempt).store, c.uid, model)
    requires forall r :: Mine(c, r) ==> Held(done, c.uid, r.model)
    requires forall r :: Mine(c, r) && r in done.rows ==> r.model == m.profile.name
    ensures LogsInTime(m, c, done, [attempt]) <==> (forall r :: !NamesOwnLog(m, c, r)) || LogsFirst(m, attempt.entries)
  {
    OneAttempt(c, done, attempt);
    forall r | NamesOwnLog(m, c, r) ensures c.orig[r].link.value !in done.rows && Held(done, c.uid, m.scheduled.name) {
      OwnReferences(m, c, r);
    }
  }
}
