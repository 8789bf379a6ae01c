/**
  The in-memory limiter: fixed windows per key in an insertion-ordered map of bounded size.

  The first part gives the limiter as functions on values; the class at the end updates its fields
  in place, as the source does, and is proved against those functions. The middle part proves what
  the limiter guarantees over every trace of requests and cleanup timers.
*/
module MemoryRateLimiter {
  import opened Options

  /** What a caller passes to consume. */
  datatype Params = Params(key: string, limit: nat, windowSeconds: nat)

  datatype Bucket = Bucket(count: nat, expiresAt: int)

  datatype Config = Config(maxEntries: nat, minimumTtlSeconds: nat)

  const DEFAULT_MAX_ENTRIES: nat := 10000
  const DEFAULT_MINIMUM_TTL_SECONDS: nat := 60

  /** A Map with its insertion order: `order` lists the keys of `entries`, oldest first. */
  datatype Buckets = Buckets(order: seq<string>, entries: map<string, Bucket>)

  const EMPTY: Buckets := Buckets([], map[])

  ghost predicate WellFormed(b: Buckets) {
    && (forall k :: k in b.order <==> k in b.entries)
    && (forall i, j :: 0 <= i < j < |b.order| ==> b.order[i] != b.order[j])
  }

  predicate Live(entries: map<string, Bucket>, key: string, now: int) {
    key in entries && entries[key].expiresAt > now
  }

  function Lookup(b: Buckets, key: string): Option<Bucket> {
    if key in b.entries then Some(b.entries[key]) else None
  }

  function EffectiveWindowMs(c: Config, windowSeconds: nat): nat {
    (if windowSeconds < c.minimumTtlSeconds then c.minimumTtlSeconds else windowSeconds) * 1000
  }

  function LiveKeys(order: seq<string>, entries: map<string, Bucket>, now: int): seq<string> {
    if order == [] then []
    else (if Live(entries, order[0], now) then [order[0]] else []) + LiveKeys(order[1..], entries, now)
  }

  /** cleanupExpired: drop every bucket whose window is over. */
  function Purge(b: Buckets, now: int): Buckets {
    Buckets(LiveKeys(b.order, b.entries, now), map k | k in b.entries && b.entries[k].expiresAt > now :: b.entries[k])
  }

  /** How many of the oldest buckets make room for one more. */
  function Excess(size: nat, maxEntries: nat): (n: nat)
    ensures n <= size
  {
    if size < maxEntries then 0 else if maxEntries == 0 then size else size - maxEntries + 1
  }

  /** The eviction loop of ensureCapacity: drop the first keys in insertion order. */
  function Evict(b: Buckets, maxEntries: nat): Buckets {
    var n := Excess(|b.order|, maxEntries);
    if n == 0 then b
    else
      var kept := b.order[n..];
      Buckets(kept, map k | k in b.entries && k in kept :: b.entries[k])
  }

  function Insert(b: Buckets, key: string, bucket: Bucket): Buckets {
    Buckets(if key in b.entries then b.order else b.order + [key], b.entries[key := bucket])
  }

  datatype Outcome = Outcome(buckets: Buckets, allowed: bool)

  /** The buckets a consume works on once room is made and the key has a bucket. */
  function Opened(c: Config, b: Buckets, p: Params, now: int): (r: Buckets)
    ensures p.key in r.entries
  {
    var purged := Purge(b, now);
    if p.key in purged.entries then purged
    else Insert(Evict(purged, c.maxEntries), p.key, Bucket(0, now + EffectiveWindowMs(c, p.windowSeconds)))
  }

  /** The decision on a key that has its bucket. */
  function DecideOn(ready: Buckets, p: Params): Outcome
    requires p.key in ready.entries
  {
    var bucket := ready.entries[p.key];
    if bucket.count >= p.limit then Outcome(ready, false)
    else Outcome(Insert(ready, p.key, bucket.(count := bucket.count + 1)), true)
  }

  function Decide(c: Config, b: Buckets, p: Params, now: int): Outcome {
    DecideOn(Opened(c, b, p, now), p)
  }

  // ---------------------------------------------------------------------------------------------
  // Facts about single steps
  // ---------------------------------------------------------------------------------------------

  lemma {:induction false} LiveKeysMember(order: seq<string>, entries: map<string, Bucket>, now: int, k: string)
    ensures k in LiveKeys(order, entries, now) <==> k in order && Live(entries, k, now)
  {
    if order == [] {
    } else {
      LiveKeysMember(order[1..], entries, now, k);
      assert order == [order[0]] + order[1..];
    }
  }

  lemma {:induction false} LiveKeysDistinct(order: seq<string>, entries: map<string, Bucket>, now: int)
    requires forall i, j :: 0 <= i < j < |order| ==> order[i] != order[j]
    ensures var r := LiveKeys(order, entries, now); forall i, j :: 0 <= i < j < |r| ==> r[i] != r[j]
    ensures |LiveKeys(order, entries, now)| <= |order|
  {
    if order == [] {
    } else {
      LiveKeysDistinct(order[1..], entries, now);
      LiveKeysMember(order[1..], entries, now, order[0]);
      assert order[0] !in order[1..];
    }
  }

  /** Cleaning up is absorbed by any later clean-up. */
  lemma {:induction false} LiveKeysTwice(order: seq<string>, entries: map<string, Bucket>, t: int, now: int)
    requires t <= now
    ensures LiveKeys(LiveKeys(order, entries, t), map k | k in entries && entries[k].expiresAt > t :: entries[k], now)
         == LiveKeys(order, entries, now)
  {
    if order == [] {
    } else {
      LiveKeysTwice(order[1..], entries, t, now);
      if Live(entries, order[0], t) {
        assert LiveKeys(order, entries, t)[1..] == LiveKeys(order[1..], entries, t);
      } else {
        assert LiveKeys(order, entries, t) == LiveKeys(order[1..], entries, t);
      }
    }
  }

  lemma PurgeTwice(b: Buckets, t: int, now: int)
    requires t <= now
    ensures Purge(Purge(b, t), now) == Purge(b, now)
  {
    LiveKeysTwice(b.order, b.entries, t, now);
  }

  lemma PurgeWellFormed(b: Buckets, now: int)
    requires WellFormed(b)
    ensures WellFormed(Purge(b, now)) && |Purge(b, now).order| <= |b.order|
  {
    LiveKeysDistinct(b.order, b.entries, now);
    forall k ensures k in Purge(b, now).order <==> k in Purge(b, now).entries {
      LiveKeysMember(b.order, b.entries, now, k);
    }
  }

  lemma EvictWellFormed(b: Buckets, maxEntries: nat)
    requires WellFormed(b)
    ensures WellFormed(Evict(b, maxEntries))
    ensures |Evict(b, maxEntries).order| < maxEntries || Evict(b, maxEntries).order == []
  {
  }

  lemma OpenedWellFormed(c: Config, b: Buckets, p: Params, now: int)
    requires WellFormed(b)
    ensures WellFormed(Opened(c, b, p, now))
  {
    PurgeWellFormed(b, now);
    EvictWellFormed(Purge(b, now), c.maxEntries);
  }

  lemma ConsumeWellFormed(c: Config, b: Buckets, p: Params, now: int)
    requires WellFormed(b)
    ensures WellFormed(Decide(c, b, p, now).buckets)
  {
    OpenedWellFormed(c, b, p, now);
  }

  // ---------------------------------------------------------------------------------------------
  // Traces
  // ---------------------------------------------------------------------------------------------

  /** What reaches one limiter: requests, and the cleanup timer. */
  datatype Event = Request(id: nat, params: Params, now: int) | Timer(now: int)

  type Trace = seq<Event>

  function Earlier(trace: Trace): Trace
    requires trace != []
  {
    trace[..|trace| - 1]
  }

  function Last(trace: Trace): Event
    requires trace != []
  {
    trace[|trace| - 1]
  }

  function Apply(c: Config, b: Buckets, e: Event): Buckets {
    match e
    case Request(_, p, now) => Decide(c, b, p, now).buckets
    case Timer(now) => Purge(b, now)
  }

  function Run(c: Config, trace: Trace): Buckets {
    if trace == [] then EMPTY else Apply(c, Run(c, Earlier(trace)), Last(trace))
  }

  predicate Allows(c: Config, b: Buckets, e: Event) {
    e.Request? && Decide(c, b, e.params, e.now).allowed
  }

  /** The decision taken on event i. */
  predicate Allowed(c: Config, trace: Trace, i: nat)
    requires i < |trace|
  {
    Allows(c, Run(c, trace[..i]), trace[i])
  }

  /** Event e makes room by dropping the live bucket of key. */
  predicate Evicts(c: Config, b: Buckets, e: Event, key: string) {
    && e.Request?
    && key in Purge(b, e.now).entries
    && key !in Opened(c, b, e.params, e.now).entries
  }

  predicate Within(e: Event, from: int, until: int) {
    from <= e.now < until
  }

  /** Where in the trace requests of key are admitted within the half-open interval. */
  function GrantMoments(c: Config, trace: Trace, key: string, from: int, until: int): set<nat> {
    set i: nat | i < |trace| && Within(trace[i], from, until) && Allowed(c, trace, i) && trace[i].params.key == key
  }

  /** Where in the trace the live bucket of key is evicted within the half-open interval. */
  function EvictionMoments(c: Config, trace: Trace, key: string, from: int, until: int): set<nat> {
    set i: nat | i < |trace| && Within(trace[i], from, until) && Evicts(c, Run(c, trace[..i]), trace[i], key)
  }

  /** Requests of key admitted in the half-open interval. */
  function Grants(c: Config, trace: Trace, key: string, from: int, until: int): nat {
    |GrantMoments(c, trace, key, from, until)|
  }

  /** Evictions of key's own live bucket in the half-open interval. */
  function Evictions(c: Config, trace: Trace, key: string, from: int, until: int): nat {
    |EvictionMoments(c, trace, key, from, until)|
  }

  lemma PrefixesAgree(trace: Trace, i: nat)
    requires trace != [] && i < |trace| - 1
    ensures Earlier(trace)[..i] == trace[..i] && Earlier(trace)[i] == trace[i]
  {
  }

  /** A set of moments before n, and the same with n perhaps added. */
  lemma MomentsStep(before: set<nat>, after: set<nat>, n: nat)
    requires forall i :: i in before ==> i < n
    requires forall i :: i in after ==> i <= n
    requires forall i: nat :: i < n ==> (i in after <==> i in before)
    ensures |after| == |before| + if n in after then 1 else 0
  {
    assert after == if n in after then before + {n} else before;
  }

  lemma LastIsLast(trace: Trace)
    requires trace != []
    ensures trace[..|trace| - 1] == Earlier(trace) && trace[|trace| - 1] == Last(trace)
  {
  }

  lemma GrantsStep(c: Config, trace: Trace, key: string, from: int, until: int)
    requires trace != []
    ensures var e := Last(trace);
      Grants(c, trace, key, from, until)
      == Grants(c, Earlier(trace), key, from, until)
         + if Within(e, from, until) && Allows(c, Run(c, Earlier(trace)), e) && e.params.key == key then 1 else 0
  {
    var n := |trace| - 1;
    var before, after := GrantMoments(c, Earlier(trace), key, from, until), GrantMoments(c, trace, key, from, until);
    forall i: nat | i < n ensures i in after <==> i in before {
      PrefixesAgree(trace, i);
    }
    LastIsLast(trace);
    MomentsStep(before, after, n);
  }

  lemma EvictionMomentStays(c: Config, trace: Trace, key: string, from: int, until: int, i: nat)
    requires trace != [] && i < |trace| - 1
    ensures i in EvictionMoments(c, trace, key, from, until)
      <==> i in EvictionMoments(c, Earlier(trace), key, from, until)
  {
    PrefixesAgree(trace, i);
  }

  lemma EvictionMomentLast(c: Config, trace: Trace, key: string, from: int, until: int)
    requires trace != []
    ensures var e := Last(trace);
      |trace| - 1 in EvictionMoments(c, trace, key, from, until)
      <==> Within(e, from, until) && Evicts(c, Run(c, Earlier(trace)), e, key)
  {
    LastIsLast(trace);
  }

  lemma EvictionsStep(c: Config, trace: Trace, key: string, from: int, until: int)
    requires trace != []
    ensures var e := Last(trace);
      Evictions(c, trace, key, from, until)
      == Evictions(c, Earlier(trace), key, from, until)
         + if Within(e, from, until) && Evicts(c, Run(c, Earlier(trace)), e, key) then 1 else 0
  {
    var n := |trace| - 1;
    var before, after := EvictionMoments(c, Earlier(trace), key, from, until),
      EvictionMoments(c, trace, key, from, until);
    forall i: nat | i < n ensures i in after <==> i in before {
      EvictionMomentStays(c, trace, key, from, until, i);
    }
    EvictionMomentLast(c, trace, key, from, until);
    MomentsStep(before, after, n);
  }

  ghost predicate Ordered(trace: Trace) {
    forall i, j :: 0 <= i < j < |trace| ==> trace[i].now <= trace[j].now
  }

  /** Every request of key carries this limit and this effective window. */
  ghost predicate KeyUses(c: Config, trace: Trace, key: string, limit: nat, windowMs: nat) {
    forall i :: 0 <= i < |trace| && trace[i].Request? && trace[i].params.key == key ==>
      trace[i].params.limit == limit && EffectiveWindowMs(c, trace[i].params.windowSeconds) == windowMs
  }

  lemma {:induction false} RunWellFormed(c: Config, trace: Trace)
    ensures WellFormed(Run(c, trace))
  {
    if trace == [] {
    } else {
      RunWellFormed(c, Earlier(trace));
      var b := Run(c, Earlier(trace));
      match Last(trace)
      case Request(_, p, now) => ConsumeWellFormed(c, b, p, now);
      case Timer(now) => PurgeWellFormed(b, now);
    }
  }

  // ---------------------------------------------------------------------------------------------
  // Bounded memory
  // ---------------------------------------------------------------------------------------------

  function Capacity(c: Config): nat {
    if c.maxEntries == 0 then 1 else c.maxEntries
  }

  /** The map never outgrows its capacity, on any trace. */
  lemma {:induction false} SizeBounded(c: Config, trace: Trace)
    ensures |Run(c, trace).order| <= Capacity(c)
  {
    if trace == [] {
    } else {
      var pre := Earlier(trace);
      SizeBounded(c, pre);
      RunWellFormed(c, pre);
      var b := Run(c, pre);
      PurgeWellFormed(b, Last(trace).now);
    }
  }

  /** A full map drops its oldest bucket, and nothing else. */
  lemma EvictDropsOldest(b: Buckets, maxEntries: nat, key: string)
    requires WellFormed(b) && |b.order| <= maxEntries
    requires key in b.entries && key !in Evict(b, maxEntries).entries
    ensures |b.order| == maxEntries && b.order[0] == key
  {
    var n := Excess(|b.order|, maxEntries);
    forall i | n <= i < |b.order| ensures b.order[i] in Evict(b, maxEntries).entries {
      assert b.order[n..][i - n] == b.order[i];
    }
    var i :| 0 <= i < |b.order| && b.order[i] == key;
    assert i < n <= 1;
  }

  /** One consume drops at most one live bucket: the oldest one, and only when the map is full. */
  lemma EvictsAtMostOne(c: Config, trace: Trace, e: Event, x: string)
    requires c.maxEntries >= 1
    requires Evicts(c, Run(c, trace), e, x)
    ensures |Purge(Run(c, trace), e.now).order| == c.maxEntries
    ensures x == Purge(Run(c, trace), e.now).order[0]
  {
    RunWellFormed(c, trace);
    SizeBounded(c, trace);
    PurgeWellFormed(Run(c, trace), e.now);
    EvictDropsOldest(Purge(Run(c, trace), e.now), c.maxEntries, x);
  }

  // ---------------------------------------------------------------------------------------------
  // How many requests a key gets through
  // ---------------------------------------------------------------------------------------------

  /** What a number of full windows admits. */
  ghost function Quota(windows: nat, limit: nat): nat {
    if windows == 0 then 0 else limit + Quota(windows - 1, limit)
  }

  lemma {:induction false} QuotaIsProduct(windows: nat, limit: nat)
    ensures Quota(windows, limit) == windows * limit
  {
    if windows == 0 {
    } else {
      QuotaIsProduct(windows - 1, limit);
    }
  }

  function LiveBucket(b: Buckets, key: string, now: int): Option<Bucket> {
    if Live(b.entries, key, now) then Some(b.entries[key]) else None
  }

  /** The bucket a request of the key works on. */
  function WorkBucket(c: Config, b: Buckets, key: string, windowSeconds: nat, now: int): Bucket {
    LiveBucket(b, key, now).GetOr(Bucket(0, now + EffectiveWindowMs(c, windowSeconds)))
  }

  lemma PurgeOnKey(b: Buckets, now: int, key: string)
    ensures Lookup(Purge(b, now), key) == LiveBucket(b, key, now)
  {
  }

  lemma EvictOnKey(b: Buckets, maxEntries: nat, key: string)
    ensures var after := Lookup(Evict(b, maxEntries), key); after == None || after == Lookup(b, key)
  {
  }

  lemma OpenedOnOwnKey(c: Config, b: Buckets, p: Params, now: int)
    ensures Opened(c, b, p, now).entries[p.key] == WorkBucket(c, b, p.key, p.windowSeconds, now)
  {
    PurgeOnKey(b, now, p.key);
  }

  lemma OpenedOnOtherKey(c: Config, b: Buckets, p: Params, now: int, key: string)
    requires p.key != key
    ensures var after := Lookup(Opened(c, b, p, now), key); after == None || after == LiveBucket(b, key, now)
  {
    PurgeOnKey(b, now, key);
    EvictOnKey(Purge(b, now), c.maxEntries, key);
  }

  lemma DecideOnOwnKey(ready: Buckets, p: Params)
    requires p.key in ready.entries
    ensures var bucket, r := ready.entries[p.key], DecideOn(ready, p);
      && r.allowed == (bucket.count < p.limit)
      && Lookup(r.buckets, p.key) == Some(bucket.(count := bucket.count + if r.allowed then 1 else 0))
  {
  }

  lemma DecideOnOtherKey(ready: Buckets, p: Params, key: string)
    requires p.key in ready.entries && p.key != key
    ensures Lookup(DecideOn(ready, p).buckets, key) == Lookup(ready, key)
  {
  }

  lemma OwnRequestOnKey(c: Config, b: Buckets, e: Event)
    requires e.Request?
    ensures var start := WorkBucket(c, b, e.params.key, e.params.windowSeconds, e.now);
      && Allows(c, b, e) == (start.count < e.params.limit)
      && Lookup(Apply(c, b, e), e.params.key) == Some(start.(count := start.count + if Allows(c, b, e) then 1 else 0))
  {
    OpenedOnOwnKey(c, b, e.params, e.now);
    DecideOnOwnKey(Opened(c, b, e.params, e.now), e.params);
  }

  lemma OtherRequestOnKey(c: Config, b: Buckets, e: Event, key: string)
    requires e.Request? && e.params.key != key
    ensures Lookup(Apply(c, b, e), key) == (if Evicts(c, b, e, key) then None else LiveBucket(b, key, e.now))
    ensures Evicts(c, b, e, key) ==> LiveBucket(b, key, e.now).Some?
  {
    PurgeOnKey(b, e.now, key);
    OpenedOnOtherKey(c, b, e.params, e.now, key);
    DecideOnOtherKey(Opened(c, b, e.params, e.now), e.params, key);
  }

  /** A window opened by a request lasts as long as the request asks, but no less than the configured minimum. */
  lemma WindowLasts(c: Config, b: Buckets, e: Event, at: int)
    requires e.Request? && !Live(b.entries, e.params.key, e.now)
    ensures Live(Apply(c, b, e).entries, e.params.key, at) <==>
      at < e.now + e.params.windowSeconds * 1000 || at < e.now + c.minimumTtlSeconds * 1000
  {
    OwnRequestOnKey(c, b, e);
  }

  /** What one event does to the bucket of one key. */
  lemma StepOnKey(c: Config, b: Buckets, e: Event, key: string)
    ensures var before, after := LiveBucket(b, key, e.now), Lookup(Apply(c, b, e), key);
      if e.Request? && e.params.key == key then
        var start := WorkBucket(c, b, key, e.params.windowSeconds, e.now);
        && Allows(c, b, e) == (start.count < e.params.limit)
        && after == Some(start.(count := start.count + if Allows(c, b, e) then 1 else 0))
        && !Evicts(c, b, e, key)
      else
        && after == (if Evicts(c, b, e, key) then None else before)
        && (Evicts(c, b, e, key) ==> before.Some?)
  {
    if e.Timer? {
      PurgeOnKey(b, e.now, key);
    } else if e.params.key == key {
      OwnRequestOnKey(c, b, e);
    } else {
      OtherRequestOnKey(c, b, e, key);
    }
  }

  /**
    Bookkeeping for one key and one interval: n grants fall in it so far and the key was evicted ev
    times inside it. They are covered by the current bucket, one earlier window, and one window for
    each eviction.
  */
  ghost predicate Covered(bucket: Option<Bucket>, n: nat, ev: nat, limit: nat, windowMs: nat, from: int) {
    match bucket
    case None => n <= Quota(1 + ev, limit)
    case Some(b) =>
      && b.count <= limit
      && (b.expiresAt - windowMs < from ==> n <= b.count)
      && (b.expiresAt - windowMs >= from ==> n <= Quota(1 + ev, limit) + b.count)
  }

  /** Dropping a bucket, by expiry before the interval's end or by an eviction, keeps the grants covered. */
  lemma CoveredDrop(bucket: Option<Bucket>, n: nat, ev: nat, limit: nat, windowMs: nat, from: int, evicted: bool)
    requires Covered(bucket, n, ev, limit, windowMs, from)
    requires bucket.Some? && !evicted ==> bucket.value.expiresAt - windowMs < from || n == 0
    ensures Covered(None, n, ev + if evicted then 1 else 0, limit, windowMs, from)
  {
  }

  /** A request of the key keeps the grants covered. */
  lemma CoveredRequest(bucket: Option<Bucket>, after: Bucket, n: nat, ev: nat, limit: nat, windowMs: nat, from: int,
                       now: int, granted: bool)
    requires Covered(bucket, n, ev, limit, windowMs, from)
    requires var start := if bucket.Some? then bucket.value else Bucket(0, now + windowMs);
      granted == (start.count < limit) && after == start.(count := start.count + if granted then 1 else 0)
    requires now < from ==> n == 0
    ensures Covered(Some(after), n + if granted && from <= now then 1 else 0, ev, limit, windowMs, from)
  {
  }

  lemma {:induction false} NothingBefore(c: Config, trace: Trace, key: string, from: int, until: int)
    requires Ordered(trace)
    requires trace != [] ==> Last(trace).now < from
    ensures Grants(c, trace, key, from, until) == 0
  {
    if trace == [] {
    } else {
      if Earlier(trace) != [] {
        assert Last(Earlier(trace)) == trace[|trace| - 2];
      }
      NothingBefore(c, Earlier(trace), key, from, until);
      GrantsStep(c, trace, key, from, until);
    }
  }

  lemma {:induction false} WindowCovered(c: Config, trace: Trace, key: string, limit: nat, windowMs: nat, from: int,
                                         until: int)
    requires Ordered(trace) && KeyUses(c, trace, key, limit, windowMs)
    requires until <= from + windowMs
    requires trace != [] ==> Last(trace).now < until
    ensures Covered(Lookup(Run(c, trace), key), Grants(c, trace, key, from, until),
                    Evictions(c, trace, key, from, until), limit, windowMs, from)
  {
    if trace == [] {
    } else {
      if Earlier(trace) != [] {
        assert Last(Earlier(trace)) == trace[|trace| - 2];
      }
      WindowCovered(c, Earlier(trace), key, limit, windowMs, from, until);
      WindowCoveredStep(c, trace, key, limit, windowMs, from, until);
    }
  }

  /** The key's bucket, live or not, before an event and after it. */
  lemma CoveredStep(bucket: Option<Bucket>, live: Option<Bucket>, after: Option<Bucket>, n: nat, ev: nat, limit: nat,
                    windowMs: nat, from: int, now: int, own: bool, granted: bool, evicted: bool)
    requires Covered(bucket, n, ev, limit, windowMs, from) && (now < from ==> n == 0) && now < from + windowMs
    requires live == if bucket.Some? && bucket.value.expiresAt > now then bucket else None
    requires own ==>
      var start := live.GetOr(Bucket(0, now + windowMs));
      !evicted && granted == (start.count < limit)
        && after == Some(start.(count := start.count + if granted then 1 else 0))
    requires !own ==> !granted && after == (if evicted then None else live) && (evicted ==> live.Some?)
    ensures Covered(after, n + if granted && from <= now then 1 else 0, ev + if evicted && from <= now then 1 else 0,
      limit, windowMs, from)
  {
    if live.None? {
      CoveredDrop(bucket, n, ev, limit, windowMs, from, false);
    }
    if own {
      CoveredRequest(live, after.value, n, ev, limit, windowMs, from, now, granted);
    } else if evicted {
      CoveredDrop(live, n, ev, limit, windowMs, from, from <= now);
    }
  }

  /** What one event does to the key's bucket, read off the values before and after. */
  lemma StepValues(c: Config, b: Buckets, e: Event, key: string, live: Option<Bucket>, after: Option<Bucket>, own: bool,
                   granted: bool, evicted: bool, windowMs: nat)
    requires own == (e.Request? && e.params.key == key)
      && (own ==> EffectiveWindowMs(c, e.params.windowSeconds) == windowMs)
    requires live == LiveBucket(b, key, e.now) && after == Lookup(Apply(c, b, e), key)
    requires granted == (own && Allows(c, b, e)) && evicted == Evicts(c, b, e, key)
    ensures own ==>
      var start := live.GetOr(Bucket(0, e.now + windowMs));
      !evicted && granted == (start.count < e.params.limit)
        && after == Some(start.(count := start.count + if granted then 1 else 0))
    ensures !own ==> after == (if evicted then None else live) && (evicted ==> live.Some?)
  {
    StepOnKey(c, b, e, key);
  }

  /** One event keeps the grants covered. */
  lemma EventCovered(c: Config, b: Buckets, e: Event, key: string, n: nat, ev: nat, limit: nat, windowMs: nat,
                     from: int, after: Option<Bucket>, granted: bool, evicted: bool)
    requires e.now < from + windowMs
    requires Covered(Lookup(b, key), n, ev, limit, windowMs, from)
    requires e.Request? && e.params.key == key ==>
      e.params.limit == limit && EffectiveWindowMs(c, e.params.windowSeconds) == windowMs
    requires e.now < from ==> n == 0
    requires after == Lookup(Apply(c, b, e), key) && evicted == Evicts(c, b, e, key)
    requires granted == (e.Request? && e.params.key == key && Allows(c, b, e))
    ensures Covered(after, n + if granted && from <= e.now then 1 else 0,
      ev + if evicted && from <= e.now then 1 else 0,
                    limit, windowMs, from)
  {
    var own, live := e.Request? && e.params.key == key, LiveBucket(b, key, e.now);
    StepValues(c, b, e, key, live, after, own, granted, evicted, windowMs);
    CoveredStep(Lookup(b, key), live, after, n, ev, limit, windowMs, from, e.now, own, granted, evicted);
  }

  /** The same for the bucket, grants and evictions after the event, given as such. */
  lemma EventCoveredTo(c: Config, b: Buckets, e: Event, key: string, n: nat, ev: nat, limit: nat, windowMs: nat,
                       from: int, until: int, b': Buckets, n': nat, ev': nat)
    requires e.now < until <= from + windowMs
    requires Covered(Lookup(b, key), n, ev, limit, windowMs, from)
    requires e.Request? && e.params.key == key ==>
      e.params.limit == limit && EffectiveWindowMs(c, e.params.windowSeconds) == windowMs
    requires e.now < from ==> n == 0
    requires b' == Apply(c, b, e)
    requires n' == n + if Within(e, from, until) && Allows(c, b, e) && e.params.key == key then 1 else 0
    requires ev' == ev + if Within(e, from, until) && Evicts(c, b, e, key) then 1 else 0
    ensures Covered(Lookup(b', key), n', ev', limit, windowMs, from)
  {
    EventCovered(c, b, e, key, n, ev, limit, windowMs, from, Lookup(b', key),
                 e.Request? && e.params.key == key && Allows(c, b, e), Evicts(c, b, e, key));
  }

  /** Before the interval begins nothing has been admitted in it. */
  lemma NothingYet(c: Config, trace: Trace, key: string, from: int, until: int)
    requires trace != [] && Ordered(trace) && Last(trace).now < from
    ensures Grants(c, Earlier(trace), key, from, until) == 0
  {
    var pre := Earlier(trace);
    if pre != [] {
      assert Last(pre) == trace[|trace| - 2];
    }
    NothingBefore(c, pre, key, from, until);
  }

  lemma LastUses(c: Config, trace: Trace, key: string, limit: nat, windowMs: nat)
    requires trace != [] && KeyUses(c, trace, key, limit, windowMs)
    ensures var e := Last(trace);
      e.Request? && e.params.key == key ==>
        e.params.limit == limit && EffectiveWindowMs(c, e.params.windowSeconds) == windowMs
  {
    assert Last(trace) == trace[|trace| - 1];
  }

  lemma RunOneMore(c: Config, trace: Trace)
    requires trace != []
    ensures Run(c, trace) == Apply(c, Run(c, Earlier(trace)), Last(trace))
  {
  }

  lemma WindowCoveredStep(c: Config, trace: Trace, key: string, limit: nat, windowMs: nat, from: int, until: int)
    requires trace != [] && Ordered(trace) && KeyUses(c, trace, key, limit, windowMs)
    requires until <= from + windowMs
    requires Last(trace).now < until
    requires Covered(Lookup(Run(c, Earlier(trace)), key), Grants(c, Earlier(trace), key, from, until),
                     Evictions(c, Earlier(trace), key, from, until), limit, windowMs, from)
    ensures Covered(Lookup(Run(c, trace), key), Grants(c, trace, key, from, until),
                    Evictions(c, trace, key, from, until), limit, windowMs, from)
  {
    var pre, e := Earlier(trace), Last(trace);
    if e.now < from {
      NothingYet(c, trace, key, from, until);
    }
    LastUses(c, trace, key, limit, windowMs);
    GrantsStep(c, trace, key, from, until);
    EvictionsStep(c, trace, key, from, until);
    RunOneMore(c, trace);
    EventCoveredTo(c, Run(c, pre), e, key, Grants(c, pre, key, from, until), Evictions(c, pre, key, from, until),
                   limit, windowMs, from, until,
                   Run(c, trace), Grants(c, trace, key, from, until), Evictions(c, trace, key, from, until));
  }

  lemma CoveredBound(bucket: Option<Bucket>, n: nat, ev: nat, limit: nat, windowMs: nat, from: int)
    requires Covered(bucket, n, ev, limit, windowMs, from)
    ensures n <= Quota(2 + ev, limit)
  {
  }

  /** Events from the end of the interval on count for nothing. */
  lemma NothingAfter(c: Config, trace: Trace, key: string, from: int, until: int)
    requires trace != [] && Last(trace).now >= until
    ensures Grants(c, trace, key, from, until) == Grants(c, Earlier(trace), key, from, until)
    ensures Evictions(c, trace, key, from, until) == Evictions(c, Earlier(trace), key, from, until)
  {
    GrantsStep(c, trace, key, from, until);
    EvictionsStep(c, trace, key, from, until);
  }

  lemma {:induction false} GrantsCovered(c: Config, trace: Trace, key: string, limit: nat, windowMs: nat, from: int,
                                         until: int)
    requires Ordered(trace) && KeyUses(c, trace, key, limit, windowMs)
    requires until <= from + windowMs
    ensures Grants(c, trace, key, from, until) <= Quota(2 + Evictions(c, trace, key, from, until), limit)
  {
    if trace == [] {
    } else if Last(trace).now < until {
      WindowCovered(c, trace, key, limit, windowMs, from, until);
      CoveredBound(Lookup(Run(c, trace), key), Grants(c, trace, key, from, until),
        Evictions(c, trace, key, from, until), limit, windowMs, from);
    } else {
      GrantsCovered(c, Earlier(trace), key, limit, windowMs, from, until);
      NothingAfter(c, trace, key, from, until);
    }
  }

  /**
    Main bound. Over every trace, any half-open interval no longer than the effective window admits
    at most two windows' worth of a key's requests, plus one for each time the key itself was evicted
    inside the interval.
  */
  lemma GrantsBounded(c: Config, trace: Trace, key: string, limit: nat, windowMs: nat, from: int, until: int)
    requires Ordered(trace) && KeyUses(c, trace, key, limit, windowMs)
    requires until <= from + windowMs
    ensures Grants(c, trace, key, from, until) <= (2 + Evictions(c, trace, key, from, until)) * limit
  {
    GrantsCovered(c, trace, key, limit, windowMs, from, until);
    QuotaIsProduct(2 + Evictions(c, trace, key, from, until), limit);
  }

  /** Index of the request that opened key's current bucket, for a trace that ends with one. */
  ghost function OpenedBy(c: Config, trace: Trace, key: string): nat
    requires key in Run(c, trace).entries
    ensures OpenedBy(c, trace, key) < |trace|
  {
    var pre, e := Earlier(trace), Last(trace);
    RunWellFormed(c, pre);
    StepOnKey(c, Run(c, pre), e, key);
    if Live(Run(c, pre).entries, key, e.now) then OpenedBy(c, pre, key) else |trace| - 1
  }

  /** Requests of key admitted from position i of the trace on. */
  ghost function GrantsSince(c: Config, trace: Trace, key: string, i: nat): nat {
    if trace == [] || |trace| <= i then 0
    else
      GrantsSince(c, Earlier(trace), key, i)
      + if Allows(c, Run(c, Earlier(trace)), Last(trace)) && Last(trace).params.key == key then 1 else 0
  }

  lemma {:induction false} NoGrantsBeyond(c: Config, trace: Trace, key: string, i: nat)
    requires |trace| <= i
    ensures GrantsSince(c, trace, key, i) == 0
  {
  }

  /** A bucket's count is exactly what it admitted, and never exceeds the limit. */
  lemma {:induction false} LifetimeAccount(c: Config, trace: Trace, key: string, limit: nat, windowMs: nat)
    requires KeyUses(c, trace, key, limit, windowMs)
    requires key in Run(c, trace).entries
    ensures GrantsSince(c, trace, key, OpenedBy(c, trace, key)) == Run(c, trace).entries[key].count <= limit
  {
    var pre, e := Earlier(trace), Last(trace);
    RunWellFormed(c, pre);
    StepOnKey(c, Run(c, pre), e, key);
    assert e == trace[|trace| - 1];
    if Live(Run(c, pre).entries, key, e.now) {
      LifetimeAccount(c, pre, key, limit, windowMs);
    } else {
      NoGrantsBeyond(c, pre, key, |trace| - 1);
    }
  }

  // ---------------------------------------------------------------------------------------------
  // The limiter seen by one key: a plain fixed-window counter
  // ---------------------------------------------------------------------------------------------

  datatype CounterOutcome = CounterOutcome(window: Bucket, allowed: bool)

  /** The reference: one key, no map, no clean-up, no capacity. */
  function CounterConsume(window: Option<Bucket>, limit: nat, windowMs: nat, now: int): CounterOutcome {
    var w := if window.Some? && window.value.expiresAt > now then window.value else Bucket(0, now + windowMs);
    if w.count >= limit then CounterOutcome(w, false)
    else CounterOutcome(w.(count := w.count + 1), true)
  }

  /** The counter looks at the requests of its own key only. */
  function CounterRun(c: Config, trace: Trace, key: string): Option<Bucket> {
    if trace == [] then None
    else
      var before := CounterRun(c, Earlier(trace), key);
      CounterStep(c, before, Last(trace), key)
  }

  ghost predicate NeverEvicted(c: Config, trace: Trace, key: string) {
    forall i :: 0 <= i < |trace| ==> !Evicts(c, Run(c, trace[..i]), trace[i], key)
  }

  function LiveAt(bucket: Option<Bucket>, now: int): Option<Bucket> {
    if bucket.Some? && bucket.value.expiresAt > now then bucket else None
  }

  /** The reference after one event. */
  function CounterStep(c: Config, window: Option<Bucket>, e: Event, key: string): Option<Bucket> {
    if e.Request? && e.params.key == key then
      Some(CounterConsume(window, e.params.limit, EffectiveWindowMs(c, e.params.windowSeconds), e.now).window)
    else window
  }

  lemma CounterAgreesStep(c: Config, b: Buckets, window: Option<Bucket>, e: Event, key: string, now: int)
    requires LiveAt(Lookup(b, key), e.now) == LiveAt(window, e.now)
    requires !Evicts(c, b, e, key) && e.now <= now
    ensures LiveAt(Lookup(Apply(c, b, e), key), now) == LiveAt(CounterStep(c, window, e, key), now)
  {
    StepOnKey(c, b, e, key);
  }

  lemma NeverEvictedSplits(c: Config, trace: Trace, key: string)
    requires trace != [] && NeverEvicted(c, trace, key)
    ensures NeverEvicted(c, Earlier(trace), key) && !Evicts(c, Run(c, Earlier(trace)), Last(trace), key)
  {
    LastIsLast(trace);
    forall i | 0 <= i < |Earlier(trace)| ensures !Evicts(c, Run(c, Earlier(trace)[..i]), Earlier(trace)[i], key) {
      PrefixesAgree(trace, i);
    }
  }

  lemma {:induction false} CounterAgrees(c: Config, trace: Trace, key: string, now: int)
    requires Ordered(trace) && NeverEvicted(c, trace, key)
    requires trace != [] ==> Last(trace).now <= now
    ensures LiveAt(Lookup(Run(c, trace), key), now) == LiveAt(CounterRun(c, trace, key), now)
  {
    if trace == [] {
    } else {
      var pre, e := Earlier(trace), Last(trace);
      if pre != [] {
        assert Last(pre) == trace[|trace| - 2];
      }
      NeverEvictedSplits(c, trace, key);
      CounterAgrees(c, pre, key, e.now);
      CounterAgreesStep(c, Run(c, pre), CounterRun(c, pre, key), e, key, now);
    }
  }

  /**
    Refinement. While key is not evicted, every decision on it is the one a lone unbounded counter
    fed with key's own requests takes: other keys, clean-ups and the map's capacity change nothing.
  */
  lemma DecisionsMatchCounter(c: Config, trace: Trace, i: nat)
    requires Ordered(trace)
    requires i < |trace| && trace[i].Request?
    requires NeverEvicted(c, trace[..i], trace[i].params.key)
    ensures var p := trace[i].params;
      Allowed(c, trace, i)
      == CounterConsume(CounterRun(c, trace[..i], p.key), p.limit, EffectiveWindowMs(c, p.windowSeconds),
        trace[i].now).allowed
  {
    var pre, e := trace[..i], trace[i];
    if pre != [] {
      assert Last(pre) == trace[i - 1];
    }
    CounterAgrees(c, pre, e.params.key, e.now);
    StepOnKey(c, Run(c, pre), e, e.params.key);
  }

  // ---------------------------------------------------------------------------------------------
  // The cleanup timer
  // ---------------------------------------------------------------------------------------------

  function WithoutTimers(trace: Trace): Trace {
    if trace == [] then []
    else if Last(trace).Timer? then WithoutTimers(Earlier(trace))
    else WithoutTimers(Earlier(trace)) + [Last(trace)]
  }

  /** A consume depends only on the buckets that are still live. */
  lemma ConsumeAfterPurge(c: Config, b1: Buckets, b2: Buckets, p: Params, now: int)
    requires Purge(b1, now) == Purge(b2, now)
    ensures Decide(c, b1, p, now) == Decide(c, b2, p, now)
  {
  }

  lemma {:induction false} TimersLeaveNoTrace(c: Config, trace: Trace, now: int)
    requires Ordered(trace)
    requires trace != [] ==> Last(trace).now <= now
    ensures Purge(Run(c, trace), now) == Purge(Run(c, WithoutTimers(trace)), now)
  {
    if trace == [] {
    } else {
      var pre, e := Earlier(trace), Last(trace);
      if pre != [] {
        assert Last(pre) == trace[|trace| - 2];
      }
      match e
      case Timer(t) =>
        TimersLeaveNoTrace(c, pre, now);
        PurgeTwice(Run(c, pre), t, now);
      case Request(_, p, t) =>
        TimersLeaveNoTrace(c, pre, t);
        RunExtended(c, WithoutTimers(pre), e);
        ConsumeAfterPurge(c, Run(c, pre), Run(c, WithoutTimers(pre)), p, t);
    }
  }

  lemma RunExtended(c: Config, trace: Trace, e: Event)
    ensures Run(c, trace + [e]) == Apply(c, Run(c, trace), e)
  {
    assert Earlier(trace + [e]) == trace;
  }

  /**
    Cleanup timers fired anywhere, however often, change no decision: not even which bucket a full
    map evicts.
  */
  lemma TimersChangeNothing(c: Config, trace: Trace, e: Event)
    requires e.Request? && Ordered(trace + [e])
    ensures Decide(c, Run(c, trace), e.params, e.now) == Decide(c, Run(c, WithoutTimers(trace)), e.params, e.now)
    ensures Allows(c, Run(c, trace), e) == Allows(c, Run(c, WithoutTimers(trace)), e)
  {
    if trace != [] {
      assert Last(trace) == (trace + [e])[|trace| - 1];
      assert (trace + [e])[|trace|] == e;
    }
    assert Ordered(trace) by {
      forall i, j | 0 <= i < j < |trace| ensures trace[i].now <= trace[j].now {
        assert trace[i] == (trace + [e])[i] && trace[j] == (trace + [e])[j];
      }
    }
    TimersLeaveNoTrace(c, trace, e.now);
    ConsumeAfterPurge(c, Run(c, trace), Run(c, WithoutTimers(trace)), e.params, e.now);
  }

  // ---------------------------------------------------------------------------------------------
  // Which bucket is evicted
  // ---------------------------------------------------------------------------------------------

  ghost predicate SortedByExpiry(order: seq<string>, entries: map<string, Bucket>)
    requires forall k :: k in order ==> k in entries
  {
    forall i, j :: 0 <= i < j < |order| ==> entries[order[i]].expiresAt <= entries[order[j]].expiresAt
  }

  ghost predicate OneWindow(c: Config, trace: Trace, windowMs: nat) {
    forall i :: 0 <= i < |trace| && trace[i].Request? ==>
      EffectiveWindowMs(c, trace[i].params.windowSeconds) == windowMs
  }

  lemma LiveKeysListed(order: seq<string>, entries: map<string, Bucket>, now: int)
    requires forall k :: k in order ==> k in entries
    ensures forall k :: k in LiveKeys(order, entries, now) ==> k in order && k in entries
  {
    forall k | k in LiveKeys(order, entries, now) ensures k in order {
      LiveKeysMember(order, entries, now, k);
    }
  }

  lemma TailSorted(order: seq<string>, entries: map<string, Bucket>)
    requires order != [] && (forall k :: k in order ==> k in entries) && SortedByExpiry(order, entries)
    ensures forall k :: k in order[1..] ==> k in entries && entries[order[0]].expiresAt <= entries[k].expiresAt
    ensures SortedByExpiry(order[1..], entries)
  {
    var rest := order[1..];
    forall k | k in rest ensures k in entries && entries[order[0]].expiresAt <= entries[k].expiresAt {
      var i :| 0 <= i < |rest| && rest[i] == k;
      assert order[i + 1] == k;
    }
    forall i, j | 0 <= i < j < |rest| ensures entries[rest[i]].expiresAt <= entries[rest[j]].expiresAt {
      assert order[i + 1] == rest[i] && order[j + 1] == rest[j];
    }
  }

  lemma PrependSorted(key: string, rest: seq<string>, entries: map<string, Bucket>)
    requires key in entries && (forall k :: k in rest ==>
      k in entries && entries[key].expiresAt <= entries[k].expiresAt)
    requires SortedByExpiry(rest, entries)
    ensures SortedByExpiry([key] + rest, entries)
  {
  }

  lemma {:induction false} LiveKeysSorted(order: seq<string>, entries: map<string, Bucket>, now: int)
    requires forall k :: k in order ==> k in entries
    requires SortedByExpiry(order, entries)
    ensures forall k :: k in LiveKeys(order, entries, now) ==> k in order && k in entries
    ensures SortedByExpiry(LiveKeys(order, entries, now), entries)
  {
    LiveKeysListed(order, entries, now);
    if order == [] {
    } else {
      TailSorted(order, entries);
      LiveKeysSorted(order[1..], entries, now);
      PrependSorted(order[0], LiveKeys(order[1..], entries, now), entries);
      if !Live(entries, order[0], now) {
        assert LiveKeys(order, entries, now) == LiveKeys(order[1..], entries, now);
      }
    }
  }

  /** Insertion order is expiry order, and no bucket expires later than a window from now. */
  ghost predicate Aged(b: Buckets, horizon: int) {
    && WellFormed(b)
    && SortedByExpiry(b.order, b.entries)
    && (forall k :: k in b.entries ==> b.entries[k].expiresAt <= horizon)
  }

  lemma PurgeAged(b: Buckets, now: int, horizon: int)
    requires Aged(b, horizon)
    ensures Aged(Purge(b, now), horizon)
  {
    PurgeWellFormed(b, now);
    LiveKeysSorted(b.order, b.entries, now);
  }

  lemma EvictAged(b: Buckets, maxEntries: nat, horizon: int)
    requires Aged(b, horizon)
    ensures Aged(Evict(b, maxEntries), horizon)
  {
    EvictWellFormed(b, maxEntries);
  }

  lemma AppendAged(b: Buckets, key: string, bucket: Bucket, horizon: int)
    requires Aged(b, horizon) && horizon <= bucket.expiresAt && key !in b.entries
    ensures Aged(Insert(b, key, bucket), bucket.expiresAt)
  {
  }

  lemma CountAged(b: Buckets, key: string, bucket: Bucket, horizon: int)
    requires Aged(b, horizon)
    requires key in b.entries && b.entries[key].expiresAt == bucket.expiresAt
    ensures Aged(Insert(b, key, bucket), horizon)
  {
  }

  lemma LaterHorizon(b: Buckets, horizon: int, later: int)
    requires Aged(b, horizon) && horizon <= later
    ensures Aged(b, later)
  {
  }

  lemma EvictKeepsOut(b: Buckets, maxEntries: nat, key: string)
    requires key !in b.entries
    ensures key !in Evict(b, maxEntries).entries
  {
  }

  /** Making room and opening a bucket keeps the order aged. */
  lemma RoomAged(b: Buckets, maxEntries: nat, key: string, bucket: Bucket, horizon: int, room: Buckets)
    requires Aged(b, horizon) && horizon <= bucket.expiresAt && key !in b.entries && room == Evict(b, maxEntries)
    ensures Aged(Insert(room, key, bucket), bucket.expiresAt)
  {
    EvictAged(b, maxEntries, horizon);
    EvictKeepsOut(b, maxEntries, key);
    AppendAged(room, key, bucket, horizon);
  }

  /** What a consume works on: the key's live bucket, or a new one at the end of the order. */
  lemma OpenedCases(c: Config, b: Buckets, p: Params, now: int, purged: Buckets, room: Buckets)
    requires purged == Purge(b, now) && room == Evict(purged, c.maxEntries)
    ensures p.key in purged.entries ==> Opened(c, b, p, now) == purged
    ensures p.key !in purged.entries ==>
      && p.key !in room.entries
      && Opened(c, b, p, now) == Insert(room, p.key, Bucket(0, now + EffectiveWindowMs(c, p.windowSeconds)))
  {
    if p.key !in purged.entries {
      EvictKeepsOut(purged, c.maxEntries, p.key);
    }
  }

  lemma OpenedAged(c: Config, b: Buckets, p: Params, now: int, horizon: int)
    requires Aged(b, horizon) && horizon <= now + EffectiveWindowMs(c, p.windowSeconds)
    ensures Aged(Opened(c, b, p, now), now + EffectiveWindowMs(c, p.windowSeconds))
  {
    var purged := Purge(b, now);
    var room, bucket := Evict(purged, c.maxEntries), Bucket(0, now + EffectiveWindowMs(c, p.windowSeconds));
    PurgeAged(b, now, horizon);
    OpenedCases(c, b, p, now, purged, room);
    if p.key in purged.entries {
      LaterHorizon(purged, horizon, bucket.expiresAt);
    } else {
      RoomAged(purged, c.maxEntries, p.key, bucket, horizon, room);
    }
  }

  lemma DecideAged(ready: Buckets, p: Params, horizon: int)
    requires p.key in ready.entries && Aged(ready, horizon)
    ensures Aged(DecideOn(ready, p).buckets, horizon)
  {
    var bucket := ready.entries[p.key];
    CountAged(ready, p.key, bucket.(count := bucket.count + 1), horizon);
  }

  lemma ConsumeAged(c: Config, b: Buckets, p: Params, now: int, horizon: int)
    requires Aged(b, horizon) && horizon <= now + EffectiveWindowMs(c, p.windowSeconds)
    ensures Aged(Decide(c, b, p, now).buckets, now + EffectiveWindowMs(c, p.windowSeconds))
  {
    OpenedAged(c, b, p, now, horizon);
    DecideAged(Opened(c, b, p, now), p, now + EffectiveWindowMs(c, p.windowSeconds));
  }

  lemma {:induction false} RunAged(c: Config, trace: Trace, windowMs: nat, now: int)
    requires Ordered(trace) && OneWindow(c, trace, windowMs)
    requires trace != [] ==> Last(trace).now <= now
    ensures Aged(Run(c, trace), now + windowMs)
  {
    if trace == [] {
    } else {
      var pre, e := Earlier(trace), Last(trace);
      if pre != [] {
        assert Last(pre) == trace[|trace| - 2];
      }
      assert e == trace[|trace| - 1];
      RunAged(c, pre, windowMs, e.now);
      match e
      case Request(_, p, t) => ConsumeAged(c, Run(c, pre), p, t, t + windowMs);
      case Timer(t) => PurgeAged(Run(c, pre), t, t + windowMs);
    }
  }

  /** With one effective window for all keys, the evicted bucket is one that would expire earliest. */
  lemma EvictsEarliestExpiry(c: Config, trace: Trace, e: Event, windowMs: nat, x: string, other: string)
    requires c.maxEntries >= 1
    requires Ordered(trace + [e]) && OneWindow(c, trace, windowMs)
    requires Evicts(c, Run(c, trace), e, x)
    requires Live(Run(c, trace).entries, other, e.now)
    ensures x in Run(c, trace).entries
    ensures Run(c, trace).entries[x].expiresAt <= Run(c, trace).entries[other].expiresAt
  {
    EvictsAtMostOne(c, trace, e, x);
    if trace != [] {
      assert Last(trace) == (trace + [e])[|trace| - 1];
      assert (trace + [e])[|trace|] == e;
    }
    assert Ordered(trace) by {
      forall i, j | 0 <= i < j < |trace| ensures trace[i].now <= trace[j].now {
        assert trace[i] == (trace + [e])[i] && trace[j] == (trace + [e])[j];
      }
    }
    RunAged(c, trace, windowMs, e.now);
    var b := Run(c, trace);
    PurgeAged(b, e.now, e.now + windowMs);
    LiveKeysMember(b.order, b.entries, e.now, other);
    var i :| 0 <= i < |Purge(b, e.now).order| && Purge(b, e.now).order[i] == other;
  }

  const LONG_FIRST: Trace :=
    [Request(0, Params("a", 5, 120), 0), Request(1, Params("b", 5, 60), 0)]

  const LONG_ONLY: Buckets := Buckets(["a"], map["a" := Bucket(1, 120000)])
  const LONG_AND_SHORT: Buckets := Buckets(["a", "b"], map["a" := Bucket(1, 120000), "b" := Bucket(1, 60000)])

  lemma LongIsOpened()
    ensures Decide(Config(2, 60), EMPTY, Params("a", 5, 120), 0).buckets == LONG_ONLY
  {
    assert Purge(EMPTY, 0) == EMPTY && Evict(EMPTY, 2) == EMPTY;
  }

  lemma ShortIsOpened()
    ensures Decide(Config(2, 60), LONG_ONLY, Params("b", 5, 60), 0).buckets == LONG_AND_SHORT
  {
    assert LONG_ONLY.order[1..] == [];
    assert Purge(LONG_ONLY, 0) == LONG_ONLY && Evict(LONG_ONLY, 2) == LONG_ONLY;
  }

  lemma LongFirstRun()
    ensures Run(Config(2, 60), LONG_FIRST) == LONG_AND_SHORT
  {
    LongIsOpened();
    ShortIsOpened();
    RunExtended(Config(2, 60), [], LONG_FIRST[0]);
    RunExtended(Config(2, 60), [LONG_FIRST[0]], LONG_FIRST[1]);
    assert LONG_FIRST == [LONG_FIRST[0]] + [LONG_FIRST[1]] && [LONG_FIRST[0]] == [] + [LONG_FIRST[0]];
  }

  /**
    With two effective windows the oldest bucket need not be the one that expires first: key "a" with
    two minutes to run is dropped while key "b" has one.
  */
  lemma EvictsByAgeNotExpiry(e: Event)
    requires e == Request(2, Params("c", 5, 60), 1)
    ensures Ordered(LONG_FIRST + [e])
    ensures var b := Run(Config(2, 60), LONG_FIRST);
      && Evicts(Config(2, 60), b, e, "a")
      && Live(b.entries, "b", 1)
      && b.entries["b"].expiresAt < b.entries["a"].expiresAt
  {
    LongFirstRun();
    BothStillLive();
    ShortIsKept(Opened(Config(2, 60), LONG_AND_SHORT, e.params, 1));
  }

  /** Opening "c" then keeps "b" only. */
  lemma ShortIsKept(after: Buckets)
    requires after == Opened(Config(2, 60), LONG_AND_SHORT, Params("c", 5, 60), 1)
    ensures "a" !in after.entries
  {
    BothStillLive();
    var room := Evict(LONG_AND_SHORT, 2);
    OpenedCases(Config(2, 60), LONG_AND_SHORT, Params("c", 5, 60), 1, LONG_AND_SHORT, room);
    assert room.order == ["b"];
  }

  lemma BothStillLive()
    ensures Purge(LONG_AND_SHORT, 1) == LONG_AND_SHORT
    ensures LONG_AND_SHORT.order[1..] == ["b"]
  {
    var b := LONG_AND_SHORT;
    assert LiveKeys(["b"], b.entries, 1) == ["b"] by {
      assert ["b"][1..] == [];
    }
    assert b.order[1..] == ["b"];
  }

  // ---------------------------------------------------------------------------------------------
  // The limiter itself
  // ---------------------------------------------------------------------------------------------

  function Without(order: seq<string>, key: string): seq<string> {
    if order == [] then []
    else if order[0] == key then order[1..]
    else [order[0]] + Without(order[1..], key)
  }

  lemma {:induction false} WithoutMiddle(before: seq<string>, key: string, after: seq<string>)
    requires key !in before
    ensures Without(before + [key] + after, key) == before + after
  {
    var whole := before + [key] + after;
    if before == [] {
      assert whole[1..] == after;
    } else {
      assert whole[1..] == before[1..] + [key] + after;
      WithoutMiddle(before[1..], key, after);
    }
  }

  lemma LiveKeysPrepend(key: string, rest: seq<string>, entries: map<string, Bucket>, now: int)
    ensures LiveKeys([key] + rest, entries, now)
      == (if Live(entries, key, now) then [key] else []) + LiveKeys(rest, entries, now)
  {
    assert ([key] + rest)[1..] == rest;
  }

  lemma {:induction false} LiveKeysAppend(order: seq<string>, key: string, entries: map<string, Bucket>, now: int)
    ensures LiveKeys(order + [key], entries, now)
         == LiveKeys(order, entries, now) + if Live(entries, key, now) then [key] else []
  {
    if order == [] {
      assert order + [key] == [key] + [];
      LiveKeysPrepend(key, [], entries, now);
    } else {
      var first, rest := order[0], order[1..];
      LiveKeysAppend(rest, key, entries, now);
      assert order == [first] + rest && order + [key] == [first] + (rest + [key]);
      LiveKeysPrepend(first, rest, entries, now);
      LiveKeysPrepend(first, rest + [key], entries, now);
    }
  }

  lemma SplitAt(b: Buckets, i: nat)
    requires WellFormed(b) && i < |b.order|
    ensures b.order[i] in b.entries
    ensures b.order[..i + 1] == b.order[..i] + [b.order[i]]
    ensures b.order[i..] == [b.order[i]] + b.order[i + 1..]
    ensures b.order[i] !in b.order[..i] && b.order[i] !in b.order[i + 1..]
  {
  }

  /** A clean-up that has looked at the first i keys: the order it leaves, and the entries. */
  ghost function OrderUpTo(b: Buckets, i: nat, now: int): seq<string>
    requires i <= |b.order|
  {
    LiveKeys(b.order[..i], b.entries, now) + b.order[i..]
  }

  ghost function EntriesUpTo(entries: map<string, Bucket>, rest: seq<string>, now: int): map<string, Bucket> {
    map k | k in entries && (k in rest || entries[k].expiresAt > now) :: entries[k]
  }

  /** One key more is kept if it is live, and dropped from among the rest if not. */
  lemma KeptOrDropped(pre: seq<string>, key: string, rest: seq<string>, entries: map<string, Bucket>, now: int,
                      live: seq<string>)
    requires live == LiveKeys(pre, entries, now) && key !in pre
    ensures LiveKeys(pre + [key], entries, now) + rest
         == if Live(entries, key, now) then live + ([key] + rest) else Without(live + ([key] + rest), key)
  {
    LiveKeysAppend(pre, key, entries, now);
    LiveKeysMember(pre, entries, now, key);
    WithoutMiddle(live, key, rest);
    assert live + ([key] + rest) == live + [key] + rest;
  }

  lemma OrderUpToStep(b: Buckets, i: nat, now: int)
    requires WellFormed(b) && i < |b.order|
    ensures OrderUpTo(b, i + 1, now)
         == if Live(b.entries, b.order[i], now) then OrderUpTo(b, i, now) else Without(OrderUpTo(b, i, now), b.order[i])
  {
    SplitAt(b, i);
    var pre := b.order[..i];
    KeptOrDropped(pre, b.order[i], b.order[i + 1..], b.entries, now, LiveKeys(pre, b.entries, now));
  }

  lemma EntriesUpToStep(entries: map<string, Bucket>, key: string, rest: seq<string>, now: int)
    requires key in entries && key !in rest
    ensures key in EntriesUpTo(entries, [key] + rest, now)
    ensures EntriesUpTo(entries, rest, now)
         == if Live(entries, key, now) then EntriesUpTo(entries, [key] + rest, now)
            else EntriesUpTo(entries, [key] + rest, now) - {key}
  {
    var all := [key] + rest;
    assert all[0] == key;
    forall k ensures k in all <==> k == key || k in rest {
    }
  }

  /** What looking at the i-th key does to the order and to the entries. */
  lemma CleanupStep(b: Buckets, i: nat, now: int)
    requires WellFormed(b) && i < |b.order|
    ensures var key, entries := b.order[i], EntriesUpTo(b.entries, b.order[i..], now);
      && key in entries && (Live(b.entries, key, now) <==> entries[key].expiresAt > now)
      && OrderUpTo(b, i + 1, now) == (if entries[key].expiresAt > now then OrderUpTo(b, i, now)
         else Without(OrderUpTo(b, i, now), key))
      && EntriesUpTo(b.entries, b.order[i + 1..], now) == if entries[key].expiresAt > now then entries
         else entries - {key}
  {
    SplitAt(b, i);
    OrderUpToStep(b, i, now);
    EntriesUpToStep(b.entries, b.order[i], b.order[i + 1..], now);
  }

  ghost function Stage(b: Buckets, i: nat, now: int): Buckets
    requires i <= |b.order|
  {
    Buckets(OrderUpTo(b, i, now), EntriesUpTo(b.entries, b.order[i..], now))
  }

  /** What looking at a key makes of the map. */
  ghost predicate Examined(key: string, before: Buckets, after: Buckets, now: int) {
    && key in before.entries
    && after == if before.entries[key].expiresAt > now then before
       else Buckets(Without(before.order, key), before.entries - {key})
  }

  lemma StageStep(b: Buckets, i: nat, now: int)
    requires WellFormed(b) && i < |b.order|
    ensures Examined(b.order[i], Stage(b, i, now), Stage(b, i + 1, now), now)
  {
    CleanupStep(b, i, now);
  }

  lemma NothingLooked(order: seq<string>, entries: map<string, Bucket>, now: int, looked: seq<string>)
    requires looked == [] && forall k :: k in entries ==> k in order
    ensures LiveKeys(looked, entries, now) + order == order && EntriesUpTo(entries, order, now) == entries
  {
  }

  lemma CleanupBegins(b: Buckets, now: int)
    requires WellFormed(b)
    ensures Stage(b, 0, now) == b
  {
    NothingLooked(b.order, b.entries, now, b.order[..0]);
  }

  lemma CleanupEnds(b: Buckets, now: int)
    ensures Stage(b, |b.order|, now) == Purge(b, now)
  {
    assert b.order[..|b.order|] == b.order;
  }

  lemma StagesListed(b: Buckets, now: int) returns (stages: seq<Buckets>)
    ensures |stages| == |b.order| + 1
    ensures forall i :: 0 <= i <= |b.order| ==> stages[i] == Stage(b, i, now)
  {
    stages := seq(|b.order| + 1, i requires 0 <= i <= |b.order| => Stage(b, i, now));
  }

  lemma StagesFollow(b: Buckets, now: int, i: nat, stages: seq<Buckets>)
    requires WellFormed(b) && i < |b.order| && |stages| == |b.order| + 1
    requires stages[i] == Stage(b, i, now) && stages[i + 1] == Stage(b, i + 1, now)
    ensures Examined(b.order[i], stages[i], stages[i + 1], now)
  {
    StageStep(b, i, now);
  }

  /** The map as a clean-up finds it, after each key, and as it leaves it. */
  lemma CleanupStages(b: Buckets, now: int) returns (stages: seq<Buckets>)
    requires WellFormed(b)
    ensures |stages| == |b.order| + 1 && stages[0] == b && stages[|b.order|] == Purge(b, now)
    ensures forall i :: 0 <= i < |b.order| ==> Examined(b.order[i], stages[i], stages[i + 1], now)
  {
    stages := StagesListed(b, now);
    CleanupBegins(b, now);
    CleanupEnds(b, now);
    forall i | 0 <= i < |b.order| ensures Examined(b.order[i], stages[i], stages[i + 1], now) {
      StagesFollow(b, now, i, stages);
    }
  }

  ghost function Restrict(entries: map<string, Bucket>, keys: seq<string>): map<string, Bucket> {
    map k | k in entries && k in keys :: entries[k]
  }

  lemma RestrictStep(entries: map<string, Bucket>, key: string, rest: seq<string>)
    requires key !in rest
    ensures Restrict(entries, rest) == Restrict(entries, [key] + rest) - {key}
  {
    var all := [key] + rest;
    assert all[0] == key;
    forall k ensures k in all <==> k == key || k in rest {
    }
  }

  lemma EvictStep(b: Buckets, n: nat)
    requires WellFormed(b) && n < |b.order|
    ensures b.order[n..] != [] && b.order[n..][0] == b.order[n] && b.order[n..][1..] == b.order[n + 1..]
    ensures Restrict(b.entries, b.order[n + 1..]) == Restrict(b.entries, b.order[n..]) - {b.order[n]}
  {
    SplitAt(b, n);
    RestrictStep(b.entries, b.order[n], b.order[n + 1..]);
  }

  lemma EvictEnds(b: Buckets, n: nat, maxEntries: nat)
    requires WellFormed(b) && n <= |b.order| && n == Excess(|b.order|, maxEntries)
    ensures Buckets(b.order[n..], Restrict(b.entries, b.order[n..])) == Evict(b, maxEntries)
  {
    RestrictAll(b);
    if n == 0 {
      assert b.order[n..] == b.order;
    }
  }

  lemma NothingToEvict(b: Buckets, maxEntries: nat)
    requires |b.order| < maxEntries
    ensures Evict(b, maxEntries) == b
  {
  }

  lemma RestrictAll(b: Buckets)
    requires WellFormed(b)
    ensures Restrict(b.entries, b.order) == b.entries
  {
  }

  lemma PurgedAgain(b: Buckets, now: int, purged: Buckets)
    requires purged == Purge(b, now)
    ensures Purge(purged, now) == purged
  {
    PurgeTwice(b, now, now);
  }

  lemma OpenedIs(c: Config, b: Buckets, p: Params, now: int, purged: Buckets, room: Buckets)
    requires purged == Purge(b, now) && room == Evict(purged, c.maxEntries)
    ensures Opened(c, b, p, now)
         == if Live(purged.entries, p.key, now) then purged
            else Insert(room, p.key, Bucket(0, now + EffectiveWindowMs(c, p.windowSeconds)))
  {
    OpenedCases(c, b, p, now, purged, room);
  }

  /** A consume decides on what it works on. */
  lemma DecidedOn(c: Config, b: Buckets, p: Params, now: int, purged: Buckets, room: Buckets, ready: Buckets)
    requires WellFormed(b) && purged == Purge(b, now) && room == Evict(purged, c.maxEntries)
    requires ready == if Live(purged.entries, p.key, now) then purged
                      else Insert(room, p.key, Bucket(0, now + EffectiveWindowMs(c, p.windowSeconds)))
    ensures p.key in ready.entries && Decide(c, b, p, now) == DecideOn(ready, p)
    ensures WellFormed(DecideOn(ready, p).buckets)
  {
    OpenedIs(c, b, p, now, purged, room);
    ConsumeWellFormed(c, b, p, now);
  }

  lemma PurgedIsLive(purged: Buckets, now: int, key: string)
    requires Purge(purged, now) == purged
    ensures key in purged.entries ==> purged.entries[key].expiresAt > now
  {
  }

  class MemoryLimiter {
    const maxEntries: nat
    const minimumTtlSeconds: nat
    var order: seq<string>
    var entries: map<string, Bucket>

    function Settings(): Config {
      Config(maxEntries, minimumTtlSeconds)
    }

    function View(): Buckets
      reads this
    {
      Buckets(order, entries)
    }

    ghost predicate Valid()
      reads this
    {
      WellFormed(View())
    }

    /** Absent options take their defaults. */
    constructor (maxEntries: Option<nat>, minimumTtlSeconds: Option<nat>)
      ensures Valid() && View() == EMPTY
      ensures Settings().maxEntries == (if maxEntries.Some? then maxEntries.value else DEFAULT_MAX_ENTRIES)
      ensures Settings().minimumTtlSeconds
           == (if minimumTtlSeconds.Some? then minimumTtlSeconds.value else DEFAULT_MINIMUM_TTL_SECONDS)
    {
      this.maxEntries := match maxEntries case Some(n) => n case None => DEFAULT_MAX_ENTRIES;
      this.minimumTtlSeconds := match minimumTtlSeconds case Some(n) => n case None => DEFAULT_MINIMUM_TTL_SECONDS;
      order := [];
      entries := map[];
    }

    method Consume(p: Params, now: int) returns (allowed: bool)
      requires Valid()
      modifies this
      ensures Valid()
      ensures Outcome(View(), allowed) == Decide(Settings(), old(View()), p, now)
    {
      ghost var b := View();
      CleanupExpired(now);
      ghost var purged := View();
      PurgedAgain(b, now, purged);
      OpenBucket(p, now);
      ghost var ready := View();
      DecidedOn(Settings(), b, p, now, purged, Evict(purged, maxEntries), ready);
      var bucket := entries[p.key];
      if bucket.count >= p.limit {
        return false;
      }
      entries := entries[p.key := bucket.(count := bucket.count + 1)];
      assert View() == DecideOn(ready, p).buckets;
      return true;
    }

    /** Create the key's bucket when it has none or its window is over. */
    method OpenBucket(p: Params, now: int)
      requires Valid() && Purge(View(), now) == View()
      modifies this
      ensures View()
           == if Live(old(entries), p.key, now) then old(View())
              else Insert(Evict(old(View()), maxEntries), p.key,
                Bucket(0, now + EffectiveWindowMs(Settings(), p.windowSeconds)))
    {
      ghost var purged := View();
      if p.key !in entries || entries[p.key].expiresAt <= now {
        PurgedIsLive(purged, now, p.key);
        EvictKeepsOut(purged, maxEntries, p.key);
        EnsureCapacity(now);
        order := order + [p.key];
        entries := entries[p.key := Bucket(0, now + EffectiveWindowMs(Settings(), p.windowSeconds))];
      }
    }

    method Cleanup(now: int)
      requires Valid()
      modifies this
      ensures Valid() && View() == Purge(old(View()), now)
    {
      CleanupExpired(now);
    }

    method CleanupExpired(now: int)
      requires Valid()
      modifies this
      ensures Valid() && View() == Purge(old(View()), now)
    {
      ghost var start := View();
      var keys := order;
      ghost var stages := CleanupStages(start, now);
      for i := 0 to |keys|
        invariant View() == stages[i]
      {
        var key := keys[i];
        assert Examined(key, stages[i], stages[i + 1], now);
        if entries[key].expiresAt <= now {
          order := Without(order, key);
          entries := entries - {key};
        }
      }
      PurgeWellFormed(start, now);
    }

    method EnsureCapacity(now: int)
      requires Valid()
      modifies this
      ensures Valid()
      ensures View() == Evict(if |old(order)| < maxEntries then old(View()) else Purge(old(View()), now), maxEntries)
    {
      if |order| < maxEntries {
        NothingToEvict(View(), maxEntries);
        return;
      }
      CleanupExpired(now);
      ghost var full := View();
      ghost var n: nat := 0;
      RestrictAll(full);
      EvictWellFormed(full, maxEntries);
      while |order| >= maxEntries
        invariant n <= Excess(|full.order|, maxEntries) <= |full.order|
        invariant order == full.order[n..] && entries == Restrict(full.entries, full.order[n..])
        decreases |order|
      {
        if |order| == 0 {
          break;
        }
        EvictStep(full, n);
        var oldest := order[0];
        order := order[1..];
        entries := entries - {oldest};
        n := n + 1;
      }
      EvictEnds(full, n, maxEntries);
    }

    method GetBucketCount() returns (n: nat)
      requires Valid()
      ensures n == |entries|
    {
      SizeIsCount(order, entries);
      n := |order|;
    }
  }

  lemma TailWellFormed(order: seq<string>, entries: map<string, Bucket>)
    requires order != [] && WellFormed(Buckets(order, entries))
    ensures order[0] in entries && WellFormed(Buckets(order[1..], entries - {order[0]}))
  {
    assert order == [order[0]] + order[1..];
  }

  lemma {:induction false} SizeIsCount(order: seq<string>, entries: map<string, Bucket>)
    requires WellFormed(Buckets(order, entries))
    ensures |order| == |entries|
  {
    if order == [] {
      assert entries.Keys == {};
    } else {
      var rest := entries - {order[0]};
      TailWellFormed(order, entries);
      SizeIsCount(order[1..], rest);
      assert rest.Keys == entries.Keys - {order[0]};
    }
  }
}
