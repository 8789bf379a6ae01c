/**
  The distributed limiter: one counter per key in a Redis shared by every process, counted by INCR
  and given its lifetime by a separate EXPIRE that the creator of the counter sends afterwards.
*/
module RedisRateLimiter {
  import opened Options
  import opened MemoryRateLimiter

  /** A counter, when it was created and by which request, and its expiry once EXPIRE has landed. */
  datatype Entry = Entry(count: nat, createdAt: int, creator: nat, expiresAt: Option<int>)

  type Store = map<string, Entry>

  function Alive(e: Entry, now: int): bool {
    e.expiresAt.None? || e.expiresAt.value > now
  }

  /** The counter Redis still shows at a time. */
  function Get(store: Store, key: string, now: int): Option<Entry> {
    if key in store && Alive(store[key], now) then Some(store[key]) else None
  }

  /** Commands as the server executes them; id names the request that sent the command. */
  datatype Command =
    | Incr(id: nat, params: Params, now: int)
    | Expire(id: nat, params: Params, now: int)

  type Log = seq<Command>

  /** The reply to INCR: the count it leaves. */
  function IncrReply(store: Store, key: string, now: int): nat {
    match Get(store, key, now)
    case None => 1
    case Some(e) => e.count + 1
  }

  function Execute(store: Store, cmd: Command): Store {
    match (cmd, Get(store, cmd.params.key, cmd.now))
    case (Incr(id, p, now), None) => store[p.key := Entry(1, now, id, None)]
    case (Incr(_, p, _), Some(e)) => store[p.key := e.(count := e.count + 1)]
    case (Expire(_, _, _), None) => store
    case (Expire(_, p, now), Some(e)) => store[p.key := e.(expiresAt := Some(now + p.windowSeconds * 1000))]
  }

  function Prefix(log: Log): Log
    requires log != []
  {
    log[..|log| - 1]
  }

  function Final(log: Log): Command
    requires log != []
  {
    log[|log| - 1]
  }

  function Replay(log: Log): Store {
    if log == [] then map[] else Execute(Replay(Prefix(log)), Final(log))
  }

  /** The counter has room for the INCR: its reply does not exceed the limit. */
  predicate Admits(store: Store, cmd: Command) {
    cmd.Incr? && IncrReply(store, cmd.params.key, cmd.now) <= cmd.params.limit
  }

  function Admitted(log: Log, key: string, from: int, until: int): nat {
    if log == [] then 0
    else
      var cmd := Final(log);
      Admitted(Prefix(log), key, from, until)
      + if from <= cmd.now < until && Admits(Replay(Prefix(log)), cmd) && cmd.params.key == key then 1 else 0
  }

  ghost predicate InOrder(log: Log) {
    forall i, j :: 0 <= i < j < |log| ==> log[i].now <= log[j].now
  }

  /** Every command on key carries this limit and this window. */
  ghost predicate KeyConfigured(log: Log, key: string, limit: nat, windowMs: nat) {
    forall i :: 0 <= i < |log| && log[i].params.key == key ==>
      log[i].params.limit == limit && log[i].params.windowSeconds * 1000 == windowMs
  }

  // ---------------------------------------------------------------------------------------------
  // Lifetimes
  // ---------------------------------------------------------------------------------------------

  function Capped(count: nat, limit: nat): nat {
    if count <= limit then count else limit
  }

  /** A counter that has an expiry lives at least one window. */
  ghost predicate LivesLongEnough(store: Store, key: string, windowMs: nat) {
    key in store && store[key].expiresAt.Some? ==> store[key].expiresAt.value >= store[key].createdAt + windowMs
  }

  ghost predicate CreatedBy(store: Store, key: string, now: int) {
    key in store ==> store[key].createdAt <= now && store[key].count >= 1
  }

  lemma {:induction false} LifetimeLastsAWindow(log: Log, key: string, limit: nat, windowMs: nat, now: int)
    requires InOrder(log) && KeyConfigured(log, key, limit, windowMs)
    requires log != [] ==> Final(log).now <= now
    ensures LivesLongEnough(Replay(log), key, windowMs) && CreatedBy(Replay(log), key, now)
  {
    if log == [] {
    } else {
      if Prefix(log) != [] {
        assert Final(Prefix(log)) == log[|log| - 2];
      }
      assert Final(log) == log[|log| - 1];
      LifetimeLastsAWindow(Prefix(log), key, limit, windowMs, Final(log).now);
    }
  }

  /** Position of the INCR that created key's counter. */
  ghost function CreatedAt(log: Log, key: string): nat
    requires key in Replay(log)
    ensures CreatedAt(log, key) < |log|
  {
    var store, cmd := Replay(Prefix(log)), Final(log);
    if cmd.Incr? && cmd.params.key == key && Get(store, key, cmd.now).None? then |log| - 1
    else CreatedAt(Prefix(log), key)
  }

  ghost function AdmittedSince(log: Log, key: string, i: nat): nat {
    if log == [] || |log| <= i then 0
    else
      AdmittedSince(Prefix(log), key, i)
      + if Admits(Replay(Prefix(log)), Final(log)) && Final(log).params.key == key then 1 else 0
  }

  /** Each lifetime of a counter admits exactly its count, capped by the limit. */
  lemma {:induction false} LifetimeAdmits(log: Log, key: string, limit: nat, windowMs: nat)
    requires KeyConfigured(log, key, limit, windowMs)
    requires key in Replay(log)
    ensures AdmittedSince(log, key, CreatedAt(log, key)) == Capped(Replay(log)[key].count, limit)
  {
    var store, cmd := Replay(Prefix(log)), Final(log);
    assert cmd == log[|log| - 1];
    if cmd.Incr? && cmd.params.key == key && Get(store, key, cmd.now).None? {
      assert AdmittedSince(Prefix(log), key, |log| - 1) == 0;
    } else {
      LifetimeAdmits(Prefix(log), key, limit, windowMs);
    }
  }

  // ---------------------------------------------------------------------------------------------
  // The bound over any window
  // ---------------------------------------------------------------------------------------------

  /** n requests fell in the interval so far: the current counter and one earlier lifetime cover them. */
  ghost predicate LifetimesCover(entry: Option<Entry>, n: nat, limit: nat, from: int) {
    match entry
    case None => n <= limit
    case Some(e) =>
      && (e.createdAt < from ==> n <= Capped(e.count, limit))
      && (e.createdAt >= from ==> n <= limit + Capped(e.count, limit))
  }

  function Stored(store: Store, key: string): Option<Entry> {
    if key in store then Some(store[key]) else None
  }

  lemma {:induction false} AdmittedBefore(log: Log, key: string, from: int, until: int)
    requires InOrder(log)
    requires log != [] ==> Final(log).now < from
    ensures Admitted(log, key, from, until) == 0
  {
    if log == [] {
    } else {
      if Prefix(log) != [] {
        assert Final(Prefix(log)) == log[|log| - 2];
      }
      AdmittedBefore(Prefix(log), key, from, until);
    }
  }

  lemma CommandCovered(store: Store, cmd: Command, key: string, n: nat, limit: nat, windowMs: nat, from: int)
    requires LifetimesCover(Stored(store, key), n, limit, from)
    requires LivesLongEnough(store, key, windowMs)
    requires cmd.now < from + windowMs
    requires cmd.params.key == key ==> cmd.params.limit == limit
    requires cmd.now < from ==> n == 0
    ensures LifetimesCover(Stored(Execute(store, cmd), key),
                           n + if from <= cmd.now && Admits(store, cmd) && cmd.params.key == key then 1 else 0,
                           limit, from)
  {
  }

  lemma {:induction false} LogCovered(log: Log, key: string, limit: nat, windowMs: nat, from: int, until: int)
    requires InOrder(log) && KeyConfigured(log, key, limit, windowMs)
    requires until <= from + windowMs
    requires log != [] ==> Final(log).now < until
    ensures LifetimesCover(Stored(Replay(log), key), Admitted(log, key, from, until), limit, from)
  {
    if log == [] {
    } else {
      var pre, cmd := Prefix(log), Final(log);
      if pre != [] {
        assert Final(pre) == log[|log| - 2];
      }
      assert cmd == log[|log| - 1];
      LogCovered(pre, key, limit, windowMs, from, until);
      LifetimeLastsAWindow(pre, key, limit, windowMs, cmd.now);
      if cmd.now < from {
        AdmittedBefore(log, key, from, until);
      }
      CommandCovered(Replay(pre), cmd, key, Admitted(pre, key, from, until), limit, windowMs, from);
    }
  }

  /**
    Main bound. However the commands of all processes interleave, and however late each EXPIRE lands
    or whether it lands at all, any half-open window admits at most two limits' worth of a key.
  */
  lemma {:induction false} AdmittedBounded(log: Log, key: string, limit: nat, windowMs: nat, from: int, until: int)
    requires InOrder(log) && KeyConfigured(log, key, limit, windowMs)
    requires until <= from + windowMs
    ensures Admitted(log, key, from, until) <= 2 * limit
  {
    if log == [] {
    } else if Final(log).now < until {
      LogCovered(log, key, limit, windowMs, from, until);
    } else {
      AdmittedBounded(Prefix(log), key, limit, windowMs, from, until);
    }
  }

  // ---------------------------------------------------------------------------------------------
  // A lost EXPIRE
  // ---------------------------------------------------------------------------------------------

  /** The same log when the EXPIRE commands on key never reach the server. */
  function LoseExpires(log: Log, key: string): Log {
    if log == [] then []
    else if Final(log).Expire? && Final(log).params.key == key then LoseExpires(Prefix(log), key)
    else LoseExpires(Prefix(log), key) + [Final(log)]
  }

  lemma ReplayExtended(log: Log, cmd: Command)
    ensures Replay(log + [cmd]) == Execute(Replay(log), cmd)
  {
    assert Prefix(log + [cmd]) == log;
  }

  /** The counter without its EXPIREs never expires, and is no lower than the one with them. */
  ghost predicate Outlasts(lossy: Store, full: Store, key: string, now: int) {
    && (key in lossy ==> lossy[key].expiresAt.None?)
    && (Get(full, key, now).Some? ==> key in lossy && lossy[key].count >= full[key].count)
  }

  lemma BothExecute(lossy: Store, full: Store, cmd: Command, key: string, now: int)
    requires Outlasts(lossy, full, key, cmd.now) && Outlasts(lossy, full, key, now)
    requires !(cmd.Expire? && cmd.params.key == key)
    ensures Outlasts(Execute(lossy, cmd), Execute(full, cmd), key, now)
  {
  }

  lemma OneExpires(lossy: Store, full: Store, cmd: Command, key: string, now: int)
    requires Outlasts(lossy, full, key, cmd.now) && Outlasts(lossy, full, key, now)
    requires cmd.Expire? && cmd.params.key == key
    ensures Outlasts(lossy, Execute(full, cmd), key, now)
  {
  }

  lemma {:induction false} LostExpireCountsMore(start: Log, log: Log, key: string, now: int)
    requires key in Replay(start) ==> Replay(start)[key].expiresAt.None?
    ensures Outlasts(Replay(start + LoseExpires(log, key)), Replay(start + log), key, now)
  {
    if log == [] {
      assert start + LoseExpires(log, key) == start == start + log;
    } else {
      var cmd := Final(log);
      var lossy, full := Replay(start + LoseExpires(Prefix(log), key)), Replay(start + Prefix(log));
      assert start + log == (start + Prefix(log)) + [cmd];
      ReplayExtended(start + Prefix(log), cmd);
      LostExpireCountsMore(start, Prefix(log), key, cmd.now);
      LostExpireCountsMore(start, Prefix(log), key, now);
      if cmd.Expire? && cmd.params.key == key {
        OneExpires(lossy, full, cmd, key, now);
      } else {
        BothExecute(lossy, full, cmd, key, now);
        assert start + LoseExpires(log, key) == (start + LoseExpires(Prefix(log), key)) + [cmd];
        ReplayExtended(start + LoseExpires(Prefix(log), key), cmd);
      }
    }
  }

  /**
    Losing the EXPIRE of a counter can only deny more: from a state in which the counter has no
    expiry yet, every later INCR admitted without the EXPIREs is admitted with them.
  */
  lemma LostExpireDeniesMore(start: Log, log: Log, key: string, cmd: Command)
    requires key in Replay(start) ==> Replay(start)[key].expiresAt.None?
    requires cmd.params.key == key
    ensures Admits(Replay(start + LoseExpires(log, key)), cmd) ==> Admits(Replay(start + log), cmd)
  {
    LostExpireCountsMore(start, log, key, cmd.now);
  }

  // ---------------------------------------------------------------------------------------------
  // How long a counter counts
  // ---------------------------------------------------------------------------------------------

  lemma {:induction false} CountsFromOne(log: Log, key: string)
    ensures key in Replay(log) ==> Replay(log)[key].count >= 1
  {
    if log != [] {
      CountsFromOne(Prefix(log), key);
    }
  }

  /** The commands of key in more are INCRs that come before the expiry. */
  ghost predicate CountedBefore(more: Log, key: string, expiry: int) {
    forall i :: 0 <= i < |more| && more[i].params.key == key ==> more[i].Incr? && more[i].now < expiry
  }

  lemma {:induction false} CountsOn(log: Log, more: Log, key: string, expiry: int)
    requires key in Replay(log) && Replay(log)[key].expiresAt == Some(expiry)
    requires CountedBefore(more, key, expiry)
    ensures key in Replay(log + more)
    ensures Replay(log + more)[key].count == Replay(log)[key].count + Incrs(more, key)
    ensures Replay(log + more)[key].expiresAt == Some(expiry)
  {
    if more == [] {
      assert log + more == log;
    } else {
      var pre, cmd := Prefix(more), Final(more);
      assert cmd == more[|more| - 1];
      assert CountedBefore(pre, key, expiry);
      CountsOn(log, pre, key, expiry);
      assert log + more == (log + pre) + [cmd];
      ReplayExtended(log + pre, cmd);
    }
  }

  /**
    Once an EXPIRE has landed on a counter, the counter counts every INCR of the window that starts
    there, and an INCR after that window starts again at one.
  */
  lemma WindowFromExpire(log: Log, expire: Command, more: Log, now: int)
    requires expire.Expire? && Get(Replay(log), expire.params.key, expire.now).Some?
    requires CountedBefore(more, expire.params.key, expire.now + expire.params.windowSeconds * 1000)
    ensures var key, expiry := expire.params.key, expire.now + expire.params.windowSeconds * 1000;
      var reply := IncrReply(Replay(log + [expire] + more), key, now);
      && (now < expiry ==> reply == Replay(log)[key].count + Incrs(more, key) + 1 && reply > 1)
      && (now > expiry ==> reply == 1)
  {
    var key := expire.params.key;
    ReplayExtended(log, expire);
    CountsFromOne(log, key);
    CountsOn(log + [expire], more, key, expire.now + expire.params.windowSeconds * 1000);
  }

  // ---------------------------------------------------------------------------------------------
  // What a reader of the counter can rely on
  // ---------------------------------------------------------------------------------------------

  /** Requests still admitted in the current lifetime, as a GET of the counter tells. */
  function Remaining(store: Store, key: string, limit: nat, now: int): nat {
    var count := match Get(store, key, now) case Some(e) => e.count case None => 0;
    if count < limit then limit - count else 0
  }

  /** INCRs of key in a log. */
  function Incrs(log: Log, key: string): nat {
    if log == [] then 0
    else Incrs(Prefix(log), key) + if Final(log).Incr? && Final(log).params.key == key then 1 else 0
  }

  /** The counter read at `readAt` outlives every INCR of key in more, or is created by the first of them. */
  ghost predicate OneLifetime(log: Log, more: Log, key: string, readAt: int) {
    forall i :: 0 <= i < |more| && more[i].Incr? && more[i].params.key == key ==>
      || Get(Replay(log + more[..i]), key, more[i].now).Some?
      || (Get(Replay(log), key, readAt).None? && Incrs(more[..i], key) == 0)
  }

  function CountAt(store: Store, key: string, now: int): nat {
    match Get(store, key, now) case Some(e) => e.count case None => 0
  }

  /** The counter's stored state after more, as a function of what the reader saw. */
  ghost predicate Counted(store: Store, after: Store, key: string, readAt: int, incrs: nat) {
    if incrs > 0 then key in after && after[key].count == CountAt(store, key, readAt) + incrs
    else
      && Stored(after, key).Some? == Stored(store, key).Some?
      && (key in store ==> after[key].count == store[key].count)
      && (key in store && !Alive(store[key], readAt) ==> after[key] == store[key])
  }

  lemma CountedStep(store: Store, between: Store, cmd: Command, key: string, readAt: int, incrs: nat)
    requires Counted(store, between, key, readAt, incrs) && readAt <= cmd.now
    requires cmd.Incr? && cmd.params.key == key ==>
      || Get(between, key, cmd.now).Some?
      || (Get(store, key, readAt).None? && incrs == 0)
    ensures Counted(store, Execute(between, cmd), key, readAt,
      incrs + if cmd.Incr? && cmd.params.key == key then 1 else 0)
  {
  }

  lemma {:induction false} CountAfter(log: Log, more: Log, key: string, readAt: int)
    requires OneLifetime(log, more, key, readAt)
    requires forall i :: 0 <= i < |more| ==> readAt <= more[i].now
    ensures Counted(Replay(log), Replay(log + more), key, readAt, Incrs(more, key))
  {
    if more == [] {
      assert log + more == log;
    } else {
      var pre, cmd := Prefix(more), Final(more);
      assert log + more == (log + pre) + [cmd];
      ReplayExtended(log + pre, cmd);
      assert cmd == more[|more| - 1] && more[..|more| - 1] == pre;
      assert OneLifetime(log, pre, key, readAt) by {
        forall i | 0 <= i < |pre| ensures pre[i] == more[i] && pre[..i] == more[..i] {
        }
      }
      CountAfter(log, pre, key, readAt);
      CountedStep(Replay(log), Replay(log + pre), cmd, key, readAt, Incrs(pre, key));
    }
  }

  /**
    A remaining value of r is exact: of the INCRs that follow in the counter's lifetime, from any
    process, the first r are admitted and every later one is denied.
  */
  lemma RemainingIsExact(log: Log, more: Log, key: string, readAt: int, limit: nat, i: nat)
    requires OneLifetime(log, more, key, readAt)
    requires forall j :: 0 <= j < |more| ==> readAt <= more[j].now
    requires i < |more| && more[i].Incr? && more[i].params.key == key && more[i].params.limit == limit
    ensures Admits(Replay(log + more[..i]), more[i])
      <==> Incrs(more[..i], key) < Remaining(Replay(log), key, limit, readAt)
  {
    var pre := more[..i];
    assert OneLifetime(log, pre, key, readAt) by {
      forall j | 0 <= j < |pre| ensures pre[j] == more[j] && pre[..j] == more[..j] {
      }
    }
    CountAfter(log, pre, key, readAt);
  }

  // ---------------------------------------------------------------------------------------------
  // The limiter itself
  // ---------------------------------------------------------------------------------------------

  /** The shared server; its log is the history of the commands it executed. */
  class RedisServer {
    var store: Store
    ghost var log: Log

    ghost predicate Valid()
      reads this
    {
      store == Replay(log)
    }

    constructor ()
      ensures Valid() && log == []
    {
      store := map[];
      log := [];
    }

    method Incr(id: nat, p: Params, now: int) returns (count: nat)
      requires Valid()
      modifies this
      ensures Valid() && log == old(log) + [Command.Incr(id, p, now)]
      ensures count == IncrReply(old(store), p.key, now)
    {
      count := IncrReply(store, p.key, now);
      ReplayExtended(log, Command.Incr(id, p, now));
      log := log + [Command.Incr(id, p, now)];
      store := Execute(store, Command.Incr(id, p, now));
    }

    method Expire(id: nat, p: Params, now: int)
      requires Valid()
      modifies this
      ensures Valid() && log == old(log) + [Command.Expire(id, p, now)]
    {
      ReplayExtended(log, Command.Expire(id, p, now));
      log := log + [Command.Expire(id, p, now)];
      store := Execute(store, Command.Expire(id, p, now));
    }

    /** Commands of other requests, executed while one awaits a reply. */
    method Others(commands: Log)
      requires Valid()
      modifies this
      ensures Valid() && log == old(log) + commands
    {
      for i := 0 to |commands|
        invariant Valid() && log == old(log) + commands[..i]
      {
        assert commands[..i + 1] == commands[..i] + [commands[i]];
        match commands[i]
        case Incr(id, p, now) => var _ := Incr(id, p, now);
        case Expire(id, p, now) => Expire(id, p, now);
      }
      assert commands[..|commands|] == commands;
    }
  }

  /** Where a call to Redis fails: before the server acts, or after it with the reply lost. */
  datatype Fault = NoFault | IncrRefused | IncrReplyLost | ExpireRefused | ExpireReplyLost

  datatype CallResult = Decided(allowed: bool) | Failed

  class RedisLimiter {
    const server: RedisServer

    constructor (server: RedisServer)
      ensures this.server == server
    {
      this.server := server;
    }

    /**
      consume, with the commands other requests get executed between its own two. The caller learns
      the decision its INCR fixed, whatever happened to the counter since.
    */
    method Consume(id: nat, p: Params, incrAt: int, between: Log, expireAt: int, fault: Fault) returns (r: CallResult)
      requires server.Valid()
      modifies server
      ensures server.Valid()
      ensures fault == IncrRefused ==> server.log == old(server.log) && r == Failed
      ensures fault != IncrRefused ==>
        var count := IncrReply(old(server.store), p.key, incrAt);
        var creates := fault != IncrReplyLost && count == 1;
        && server.log == old(server.log) + [Command.Incr(id, p, incrAt)] + (if creates then between else [])
                         + (if creates && fault != ExpireRefused then [Command.Expire(id, p, expireAt)] else [])
        && r == (if fault == IncrReplyLost || (creates && fault != NoFault) then Failed else Decided(count <= p.limit))
      ensures r == Decided(true) ==> Admits(old(server.store), Command.Incr(id, p, incrAt))
    {
      if fault == IncrRefused {
        return Failed;
      }
      var count := server.Incr(id, p, incrAt);
      if fault == IncrReplyLost {
        return Failed;
      }
      if count == 1 {
        server.Others(between);
        if fault == ExpireRefused {
          return Failed;
        }
        server.Expire(id, p, expireAt);
        if fault == ExpireReplyLost {
          return Failed;
        }
      }
      if count > p.limit {
        return Decided(false);
      }
      return Decided(true);
    }
  }
}
