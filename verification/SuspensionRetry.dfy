/**
  A restore that is stopped is called again, on the backups left unused. What any number of attempts give
  back, and when a retry carries on where the attempt before it was stopped.
*/
module SuspensionRetry {
  import opened Options
  import opened SuspensionStore
  import opened SuspensionRestore

  /** One call: how long its process lives, what the query returned, and which upserts go wrong. */
  datatype Attempt = Attempt(budget: nat, entries: seq<Entry>, faults: Faults)

  function Restored(c: Case, store: Store, attempt: Attempt): Restoration {
    RestoreFromBackups(c.reg, c.client, store, attempt.budget, c.uid, attempt.entries, attempt.faults)
  }

  function Earlier(attempts: seq<Attempt>): seq<Attempt>
    requires attempts != []
  {
    attempts[..|attempts| - 1]
  }

  function Last(attempts: seq<Attempt>): Attempt
    requires attempts != []
  {
    attempts[|attempts| - 1]
  }

  /** The store the attempts leave, one after the other. */
  function After(c: Case, store: Store, attempts: seq<Attempt>): Store {
    if attempts == [] then store else Restored(c, After(c, store, Earlier(attempts)), Last(attempts)).store
  }

  /** Each attempt lists the backups it finds unused. */
  ghost predicate Made(c: Case, store: Store, attempts: seq<Attempt>) {
    attempts == []
    || (Made(c, store, Earlier(attempts))
       && ListsHeld(After(c, store, Earlier(attempts)), c.uid, Last(attempts).entries))
  }

  /** The attempt takes the model's backup to its mark. */
  ghost predicate UsesUp(c: Case, store: Store, attempt: Attempt, model: string) {
    Held(store, c.uid, model) && !Held(Restored(c, store, attempt).store, c.uid, model)
  }

  /** The row comes back in the attempt that uses up its backup. */
  ghost predicate ComesBackInTime(c: Case, store: Store, attempts: seq<Attempt>, r: RowId) {
    attempts == []
    || (var before := After(c, store, Earlier(attempts));
        if UsesUp(c, before, Last(attempts), r.model)
        then RowComesBack(c, before.rows, Last(attempts).entries, Last(attempts).faults, r)
        else ComesBackInTime(c, store, Earlier(attempts), r))
  }

  /** Whatever becomes of the attempts, backups that are left are whole, and all references hold. */
  lemma {:induction false} AttemptsStayBacked(c: Case, store: Store, attempts: seq<Attempt>)
    requires Backed(c, store) && Made(c, store, attempts)
    ensures Backed(c, After(c, store, attempts))
  {
    if attempts == [] {
    } else {
      AttemptsStayBacked(c, store, Earlier(attempts));
      var before, attempt := After(c, store, Earlier(attempts)), Last(attempts);
      RestoreStaysBacked(c, before, attempt.budget, attempt.entries, attempt.faults, Restored(c, before, attempt));
    }
  }

  lemma AttemptOnRow(c: Case, store: Store, attempt: Attempt, r: RowId, after: Store)
    requires Backed(c, store) && ListsHeld(store, c.uid, attempt.entries) && Mine(c, r)
    requires after == Restored(c, store, attempt).store
    ensures UsesUp(c, store, attempt, r.model) ==>
      (Unchanged(c.orig, after.rows, r) <==> RowComesBack(c, store.rows, attempt.entries, attempt.faults, r))
    ensures !Held(store, c.uid, r.model) ==>
      !Held(after, c.uid, r.model) && (Unchanged(c.orig, after.rows, r) <==> Unchanged(c.orig, store.rows, r))
  {
    OwnRowRestoredIff(c, store, attempt.budget, attempt.entries, attempt.faults, r, Restored(c, store, attempt));
  }

  /**
    Exactly which rows any number of attempts give back, each stopped anywhere and listing the unused
    backups in any order: once its backup is used up, a row is back if and only if it came back in the
    attempt that used it up. No later attempt can make up for it.
  */
  lemma {:induction false} AttemptsGiveBackIff(c: Case, store: Store, attempts: seq<Attempt>, r: RowId)
    requires Recoverable(c, store) && Made(c, store, attempts) && Mine(c, r)
    ensures var end := After(c, store, attempts);
      !Held(end, c.uid, r.model) ==>
        (Unchanged(c.orig, end.rows, r) <==> ComesBackInTime(c, store, attempts, r))
  {
    if attempts == [] {
      assert !Held(store, c.uid, r.model) ==> Unchanged(c.orig, store.rows, r);
    } else {
      AttemptsGiveBackIff(c, store, Earlier(attempts), r);
      AttemptsStayBacked(c, store, Earlier(attempts));
      AttemptOnRow(c, After(c, store, Earlier(attempts)), Last(attempts), r, After(c, store, attempts));
    }
  }

  /** Rows of others are left alone by all attempts. */
  lemma {:induction false} AttemptsKeepOthers(c: Case, store: Store, attempts: seq<Attempt>)
    requires Backed(c, store) && Made(c, store, attempts)
    ensures OthersUnchanged(c, After(c, store, attempts).rows) <==> OthersUnchanged(c, store.rows)
  {
    if attempts == [] {
    } else {
      AttemptsKeepOthers(c, store, Earlier(attempts));
      AttemptsStayBacked(c, store, Earlier(attempts));
      var before, attempt := After(c, store, Earlier(attempts)), Last(attempts);
      OthersKept(c, before, attempt.budget, attempt.entries, attempt.faults, Restored(c, before, attempt));
    }
  }

  /**
    The whole database: once all backups are used up it is the original one if and only if each row came
    back in time and no reference of others had been cleared.
  */
  lemma AttemptsGiveBackAllIff(c: Case, store: Store, attempts: seq<Attempt>)
    requires Recoverable(c, store) && Made(c, store, attempts)
    requires forall m :: !Held(After(c, store, attempts), c.uid, m)
    ensures var end := After(c, store, attempts);
      && (OwnBack(c, end.rows) <==> forall r :: Mine(c, r) ==> ComesBackInTime(c, store, attempts, r))
      && (end.rows == c.orig <==> OwnBack(c, end.rows) && OthersUnchanged(c, store.rows))
  {
    var end := After(c, store, attempts);
    AttemptsStayBacked(c, store, attempts);
    AttemptsKeepOthers(c, store, attempts);
    OriginalIff(c, end.rows);
    forall r | Mine(c, r) ensures Unchanged(c.orig, end.rows, r) <==> ComesBackInTime(c, store, attempts, r) {
      AttemptsGiveBackIff(c, store, attempts, r);
    }
  }

  // ---------------------------------------------------------------------------------------------
  // Carrying on
  // ---------------------------------------------------------------------------------------------

  /** The second listing is part of the first, in the same order. */
  ghost predicate KeepsOrder(first: seq<Entry>, second: seq<Entry>) {
    && (forall e :: e in second ==> e in first)
    && (forall i, j, a, b :: 0 <= i < |second| && 0 <= j < |second| && 0 <= a < b < |first| ==>
          second[i] == first[a] && second[j] == first[b] ==> i < j)
  }

  /** A retry takes the backups in the order of the attempt before it, and no upsert fails that did not before. */
  ghost predicate Resumes(reg: Registry, before: Attempt, next: Attempt) {
    && KeepsOrder(ParentsFirst(reg, before.entries), ParentsFirst(reg, next.entries))
    && next.faults.fails <= before.faults.fails
  }

  /** A backup listed before another, and still unused, is still listed before it. */
  lemma StillListed(c: Case, now: Store, first: seq<Entry>, second: seq<Entry>, b: nat, k: nat, a: nat, i: nat, x: nat)
    requires ListsRows(c, first) && ListsHeld(now, c.uid, second) && KeepsOrder(first, second)
    requires b < a < |first| && k < |first[b].ids| && x < |second| && second[x] == first[a]
    requires Held(now, c.uid, first[b].model)
    ensures Listed(second, At(first, b, k), x, i)
  {
    var y: nat :| y < |second| && second[y].model == first[b].model;
    assert second[y] in first;
    var d: nat :| d < |first| && first[d] == second[y];
    assert d == b;
    assert At(second, y, k) == At(first, b, k);
  }

  /** What was listed before a row is still listed before it, or is back. */
  lemma StillComes(c: Case, now: Store, first: seq<Entry>, second: seq<Entry>, t: RowId, a: nat, i: nat, x: nat)
    requires Recoverable(c, now) && ListsRows(c, first) && ListsHeld(now, c.uid, second)
    requires KeepsOrder(first, second) && a < |first| && x < |second| && second[x] == first[a]
    requires Listed(first, t, a, i)
    ensures Comes(now.rows, second, t, x, i)
  {
    var b: nat, k: nat :| b < |first| && k < |first[b].ids| && (b < a || (b == a && k < i)) && t == At(first, b, k);
    var r := At(first, b, k);
    assert Mine(c, r) && r.model == first[b].model;
    if b == a {
      assert At(second, x, k) == t;
    } else if Held(now, c.uid, r.model) {
      StillListed(c, now, first, second, b, k, a, i, x);
    } else {
      assert Unchanged(c.orig, now.rows, r);
    }
  }

  /** A row that was welcome still is. */
  lemma StillWelcome(c: Case, store: Store, now: Store, first: seq<Entry>, second: seq<Entry>, faults: Faults,
                     again: Faults, a: nat, i: nat, x: nat)
    requires Recoverable(c, now) && ListsRows(c, first) && ListsRows(c, second) && ListsHeld(now, c.uid, second)
    requires KeepsOrder(first, second) && a < |first| && x < |second| && second[x] == first[a] && i < |first[a].ids|
    requires again.fails <= faults.fails && WelcomeAt(c, store.rows, first, faults, a, i)
    requires Grows(c, store.rows, now.rows)
    ensures WelcomeAt(c, now.rows, second, again, x, i)
  {
    var r := At(first, a, i);
    assert At(second, x, i) == r;
    if !Unchanged(c.orig, store.rows, r) {
      if IsChannel(c.reg, r.model) && ProfileOf(c.reg, c.orig[r]) !in store.rows {
        StillComes(c, now, first, second, ProfileOf(c.reg, c.orig[r]), a, i, x);
      }
      if c.orig[r].link.Some? && c.orig[r].link.value !in store.rows {
        StillComes(c, now, first, second, c.orig[r].link.value, a, i, x);
      }
    }
  }

  /** No row is taken away, or changed but to what it was. */
  ghost predicate Grows(c: Case, before: Rows, after: Rows) {
    forall r {:trigger r in before} {:trigger r in after} :: r in before ==>
      r in after && (after[r] == before[r] || (r in c.orig && after[r] == c.orig[r]))
  }

  lemma AttemptGrows(c: Case, store: Store, attempt: Attempt, now: Store)
    requires Backed(c, store) && ListsHeld(store, c.uid, attempt.entries) && now == Restored(c, store, attempt).store
    ensures Grows(c, store.rows, now.rows)
  {
    forall r | r in store.rows
      ensures r in now.rows && (now.rows[r] == store.rows[r] || (r in c.orig && now.rows[r] == c.orig[r]))
    {
      RestoreGrows(c, store, attempt.budget, attempt.entries, attempt.faults, Restored(c, store, attempt), r);
    }
  }

  lemma AllStillWelcome(c: Case, store: Store, now: Store, first: seq<Entry>, second: seq<Entry>, faults: Faults,
                        again: Faults)
    requires Recoverable(c, now) && ListsRows(c, first) && ListsRows(c, second) && ListsHeld(now, c.uid, second)
    requires KeepsOrder(first, second) && again.fails <= faults.fails && Grows(c, store.rows, now.rows)
    requires WelcomeInTime(c, store.rows, first, faults)
    ensures WelcomeInTime(c, now.rows, second, again)
  {
    forall x: nat, i: nat | x < |second| && i < |second[x].ids| ensures WelcomeAt(c, now.rows, second, again, x, i) {
      assert second[x] in first;
      var a: nat :| a < |first| && first[a] == second[x];
      assert At(first, a, i) == At(second, x, i);
      StillWelcome(c, store, now, first, second, faults, again, a, i, x);
    }
  }

  /**
    A stopped restore can be resumed: if all rows were welcome to it, wherever it stopped, they are welcome
    to a retry that takes the backups left in the same order.
  */
  lemma RestoreResumes(c: Case, store: Store, attempt: Attempt, next: Attempt, now: Store)
    requires Recoverable(c, store) && ListsHeld(store, c.uid, attempt.entries)
    requires AllWelcome(c, store, attempt.entries, attempt.faults)
    requires now == Restored(c, store, attempt).store && ListsHeld(now, c.uid, next.entries)
    requires Resumes(c.reg, attempt, next)
    ensures Recoverable(c, now) && AllWelcome(c, now, next.entries, next.faults)
  {
    RestoreKeepsRecoverable(c, store, attempt.budget, attempt.entries, attempt.faults);
    RestoreLists(c, now, next.entries);
    AttemptGrows(c, store, attempt, now);
    AllStillWelcome(c, store, now, ParentsFirst(c.reg, attempt.entries), ParentsFirst(c.reg, next.entries),
      attempt.faults, next.faults);
  }

  /** Each attempt but the first resumes the one before it. */
  ghost predicate CarriesOn(reg: Registry, attempts: seq<Attempt>) {
    forall k :: 0 < k < |attempts| ==> Resumes(reg, attempts[k - 1], attempts[k])
  }

  lemma EarlierCarriesOn(reg: Registry, attempts: seq<Attempt>)
    requires |attempts| >= 2 && CarriesOn(reg, attempts)
    ensures CarriesOn(reg, Earlier(attempts)) && Earlier(attempts)[0] == attempts[0]
    ensures Resumes(reg, Last(Earlier(attempts)), Last(attempts))
  {
    var pre, n := Earlier(attempts), |attempts| - 1;
    forall k | 0 < k < |pre| ensures Resumes(reg, pre[k - 1], pre[k]) {
      assert pre[k - 1] == attempts[k - 1] && pre[k] == attempts[k];
    }
    assert Resumes(reg, attempts[n - 1], attempts[n]);
  }

  /**
    Any number of stopped attempts that carry on from a welcome start lose nothing, and leave the next one
    as welcome; no condition is asked of the retries but the order.
  */
  lemma {:induction false} RetriesStayWelcome(c: Case, store: Store, attempts: seq<Attempt>)
    requires Recoverable(c, store) && attempts != [] && Made(c, store, attempts) && CarriesOn(c.reg, attempts)
    requires AllWelcome(c, store, attempts[0].entries, attempts[0].faults)
    ensures var before := After(c, store, Earlier(attempts));
      && Recoverable(c, before) && AllWelcome(c, before, Last(attempts).entries, Last(attempts).faults)
      && Recoverable(c, After(c, store, attempts))
  {
    var pre := Earlier(attempts);
    if pre == [] {
    } else {
      EarlierCarriesOn(c.reg, attempts);
      RetriesStayWelcome(c, store, pre);
      RestoreResumes(c, After(c, store, Earlier(pre)), Last(pre), Last(attempts), After(c, store, pre));
    }
    RestoreKeepsRecoverable(c, After(c, store, pre), Last(attempts).budget, Last(attempts).entries,
      Last(attempts).faults);
  }

  /**
    So they come to the database one uninterrupted restore comes to, which is the original one but for
    references of others cleared before.
  */
  lemma RetriesReachTheSame(c: Case, store: Store, attempts: seq<Attempt>, budget: nat, whole: Restoration)
    requires Recoverable(c, store) && attempts != [] && Made(c, store, attempts) && CarriesOn(c.reg, attempts)
    requires AllWelcome(c, store, attempts[0].entries, attempts[0].faults)
    requires whole == Restored(c, store, attempts[0].(budget := budget))
    requires !whole.died && !Restored(c, After(c, store, Earlier(attempts)), Last(attempts)).died
    ensures var end := After(c, store, attempts);
      && end.rows == whole.store.rows && OwnBack(c, end.rows)
      && (forall m :: !Held(end, c.uid, m) && !Held(whole.store, c.uid, m))
  {
    var first := attempts[0].(budget := budget);
    FirstIsMade(c, store, attempts);
    var before, end := After(c, store, Earlier(attempts)), After(c, store, attempts);
    RetriesStayWelcome(c, store, attempts);
    AttemptsStayBacked(c, store, Earlier(attempts));
    EndedUsesAll(c, before, Last(attempts).budget, Last(attempts).entries, Last(attempts).faults,
      Restored(c, before, Last(attempts)));
    RestoredIsOriginal(c, end);
    RestoreKeepsRecoverable(c, store, budget, first.entries, first.faults);
    EndedUsesAll(c, store, budget, first.entries, first.faults, whole);
    RestoredIsOriginal(c, whole.store);
    SameRowsBack(c, store, attempts, whole, budget);
  }

  lemma {:induction false} FirstIsMade(c: Case, store: Store, attempts: seq<Attempt>)
    requires attempts != [] && Made(c, store, attempts)
    ensures ListsHeld(store, c.uid, attempts[0].entries)
  {
    if |attempts| > 1 {
      FirstIsMade(c, store, Earlier(attempts));
    }
  }

  lemma {:induction false} AttemptsLeaveRow(c: Case, store: Store, attempts: seq<Attempt>, r: RowId)
    requires Backed(c, store) && Made(c, store, attempts) && !Mine(c, r)
    ensures var end := After(c, store, attempts).rows;
      (r in end <==> r in store.rows) && (r in store.rows ==> end[r] == store.rows[r])
  {
    if attempts == [] {
    } else {
      AttemptsLeaveRow(c, store, Earlier(attempts), r);
      AttemptsStayBacked(c, store, Earlier(attempts));
      var before, attempt := After(c, store, Earlier(attempts)), Last(attempts);
      RestoreGrows(c, before, attempt.budget, attempt.entries, attempt.faults, Restored(c, before, attempt), r);
    }
  }

  /** A row of others is as it was before either. */
  lemma OthersRowBack(c: Case, store: Store, attempts: seq<Attempt>, whole: Restoration, budget: nat, r: RowId)
    requires Backed(c, store) && attempts != [] && Made(c, store, attempts)
    requires ListsHeld(store, c.uid, attempts[0].entries) && whole == Restored(c, store, attempts[0].(budget := budget))
    requires !Mine(c, r)
    ensures var end := After(c, store, attempts).rows;
      (r in end <==> r in whole.store.rows) && (r in end ==> end[r] == whole.store.rows[r])
  {
    AttemptsLeaveRow(c, store, attempts, r);
    RestoreGrows(c, store, budget, attempts[0].entries, attempts[0].faults, whole, r);
  }

  lemma SameRowsBack(c: Case, store: Store, attempts: seq<Attempt>, whole: Restoration, budget: nat)
    requires Backed(c, store) && attempts != [] && Made(c, store, attempts)
    requires ListsHeld(store, c.uid, attempts[0].entries) && whole == Restored(c, store, attempts[0].(budget := budget))
    requires OwnBack(c, After(c, store, attempts).rows) && OwnBack(c, whole.store.rows)
    ensures After(c, store, attempts).rows == whole.store.rows
  {
    var end := After(c, store, attempts).rows;
    forall r | !Mine(c, r)
      ensures (r in end <==> r in whole.store.rows) && (r in end ==> end[r] == whole.store.rows[r])
    {
      OthersRowBack(c, store, attempts, whole, budget, r);
    }
    BothBack(c, end, whole.store.rows);
  }

  lemma BothBack(c: Case, a: Rows, b: Rows)
    requires OwnBack(c, a) && OwnBack(c, b)
    requires forall r :: !Mine(c, r) ==> (r in a <==> r in b) && (r in a ==> a[r] == b[r])
    ensures a == b
  {
    forall r ensures (r in a <==> r in b) && (r in a ==> a[r] == b[r]) {
      if Mine(c, r) {
        assert Unchanged(c.orig, a, r) && Unchanged(c.orig, b, r);
      }
    }
  }
}
