/**
  The guard in front of the limiters: how it names the counter of a request, and what it tells the
  client about that counter.
*/
module RateLimitGuard {
  import opened Options
  import opened MemoryRateLimiter
  import opened RedisRateLimiter
  import opened ResilientRateLimiter
  import opened RateLimitSystem
  import opened RateLimitBound

  // ---------------------------------------------------------------------------------------------
  // Keys
  // ---------------------------------------------------------------------------------------------

  datatype Scope = Ip | User

  datatype Tier = Tier(name: string, limit: nat, windowSeconds: nat, scope: Scope)

  const TIERS: seq<Tier> := [
    Tier("rl-public-flexible", 300, 60, Ip),
    Tier("rl-public-semi-strict", 60, 60, Ip),
    Tier("rl-public-strict", 20, 60, Ip),
    Tier("rl-auth-flexible", 240, 60, User),
    Tier("rl-auth-semi-strict", 120, 60, User),
    Tier("rl-auth-strict", 30, 60, User),
    Tier("rl-internal-admin-strict", 10, 60, User)
  ]

  function ScopeName(scope: Scope): string {
    match scope
    case Ip => "ip"
    case User => "user"
  }

  /** The counter of a subject: a client address or an identity id. */
  function RateLimitKey(tier: Tier, subject: string): string {
    ScopeName(tier.scope) + ":" + tier.name + ":" + subject
  }

  function ParamsOf(tier: Tier, subject: string): Params {
    Params(RateLimitKey(tier, subject), tier.limit, tier.windowSeconds)
  }

  function TierNamed(name: string, tiers: seq<Tier>): Option<Tier> {
    if tiers == [] then None
    else if tiers[0].name == name then Some(tiers[0])
    else TierNamed(name, tiers[1..])
  }

  function UntilColon(s: string): string {
    if s == [] || s[0] == ':' then [] else [s[0]] + UntilColon(s[1..])
  }

  /** Reads a key back: skip the scope, look the tier up, and the rest is the subject. */
  function ParseKey(key: string, tiers: seq<Tier>): Option<(Tier, string)> {
    var scope := UntilColon(key);
    if |key| <= |scope| then None
    else
      var rest := key[|scope| + 1..];
      var name := UntilColon(rest);
      if |rest| <= |name| then None
      else
        match TierNamed(name, tiers)
        case None => None
        case Some(tier) => Some((tier, rest[|name| + 1..]))
  }

  /** Tier names differ, and contain no colon. */
  ghost predicate WellNamed(tiers: seq<Tier>) {
    && (forall i, j :: 0 <= i < j < |tiers| ==> tiers[i].name != tiers[j].name)
    && (forall i :: 0 <= i < |tiers| ==> ':' !in tiers[i].name)
  }

  lemma TierNamesDiffer(i: nat, j: nat)
    requires i < j < |TIERS|
    ensures TIERS[i].name != TIERS[j].name
  {
    assert |TIERS[i].name| != |TIERS[j].name| || TIERS[i].name[3] != TIERS[j].name[3];
  }

  lemma PublicNamesArePlain(k: nat)
    requires k < 3
    ensures ':' !in TIERS[k].name
  {
    assert k == 0 || k == 1 || k == 2;
  }

  lemma OtherNamesArePlain(k: nat)
    requires 3 <= k < |TIERS|
    ensures ':' !in TIERS[k].name
  {
    assert k == 3 || k == 4 || k == 5 || k == 6;
  }

  /** The configured tiers are well named. */
  lemma ConfiguredTiersWellNamed()
    ensures WellNamed(TIERS)
  {
    forall i, j | 0 <= i < j < |TIERS| ensures TIERS[i].name != TIERS[j].name {
      TierNamesDiffer(i, j);
    }
    forall i | 0 <= i < |TIERS| ensures ':' !in TIERS[i].name {
      if i < 3 {
        PublicNamesArePlain(i);
      } else {
        OtherNamesArePlain(i);
      }
    }
  }

  lemma {:induction false} UntilColonOf(head: string, tail: string)
    requires ':' !in head
    ensures UntilColon(head + ":" + tail) == head
  {
    var s := head + ":" + tail;
    if head == [] {
      assert s[0] == ':';
    } else {
      assert s[1..] == head[1..] + ":" + tail;
      UntilColonOf(head[1..], tail);
    }
  }

  lemma {:induction false} TierFound(tiers: seq<Tier>, k: nat)
    requires WellNamed(tiers) && k < |tiers|
    ensures TierNamed(tiers[k].name, tiers) == Some(tiers[k])
  {
    if k > 0 {
      assert tiers[0].name != tiers[k].name;
      TierFound(tiers[1..], k - 1);
    }
  }

  lemma SplitAtColon(head: string, tail: string, s: string)
    requires ':' !in head && s == head + ":" + tail
    ensures UntilColon(s) == head && |s| > |head| && s[|head| + 1..] == tail
  {
    UntilColonOf(head, tail);
  }

  lemma KeySplits(scope: string, name: string, subject: string, tiers: seq<Tier>, tier: Tier)
    requires ':' !in scope && ':' !in name && TierNamed(name, tiers) == Some(tier)
    ensures ParseKey(scope + ":" + name + ":" + subject, tiers) == Some((tier, subject))
  {
    var rest := name + ":" + subject;
    SplitAtColon(scope, rest, scope + ":" + name + ":" + subject);
    SplitAtColon(name, subject, rest);
  }

  /** A key tells the tier and the subject it was built from, even a subject that contains colons. */
  lemma ParseKeyed(tiers: seq<Tier>, tier: Tier, subject: string)
    requires WellNamed(tiers) && tier in tiers
    ensures ParseKey(RateLimitKey(tier, subject), tiers) == Some((tier, subject))
  {
    var k :| 0 <= k < |tiers| && tiers[k] == tier;
    TierFound(tiers, k);
    KeySplits(ScopeName(tier.scope), tier.name, subject, tiers, tier);
  }

  /** Only the same subject on the same tier shares a counter. */
  lemma KeysApart(tiers: seq<Tier>, t: Tier, a: string, u: Tier, b: string)
    requires WellNamed(tiers) && t in tiers && u in tiers
    ensures RateLimitKey(t, a) == RateLimitKey(u, b) <==> t == u && a == b
  {
    ParseKeyed(tiers, t, a);
    ParseKeyed(tiers, u, b);
  }

  /** The request came through the guard. */
  ghost predicate Guarded(tiers: seq<Tier>, p: Params) {
    exists tier, subject :: tier in tiers && p == ParamsOf(tier, subject)
  }

  ghost predicate AllGuarded(tiers: seq<Tier>, labels: seq<Label>) {
    forall i :: 0 <= i < |labels| && labels[i].Arrival? ==> Guarded(tiers, labels[i].params)
  }

  /** All requests for the counter of a subject carry the limit and window of its tier. */
  lemma GuardedUse(tiers: seq<Tier>, labels: seq<Label>, tier: Tier, subject: string)
    requires WellNamed(tiers) && tier in tiers && AllGuarded(tiers, labels)
    ensures LabelsUse(labels, RateLimitKey(tier, subject), tier.limit, tier.windowSeconds)
  {
    forall i | 0 <= i < |labels| && labels[i].Arrival?
      ensures Uses(labels[i].params, RateLimitKey(tier, subject), tier.limit, tier.windowSeconds)
    {
      var u, b :| u in tiers && labels[i].params == ParamsOf(u, b);
      KeysApart(tiers, u, b, tier, subject);
    }
  }

  /**
    The bound as a client meets it: on a fleet whose every request comes through the guard, a subject
    gets at most 2 * (N + 1) * limit requests of its tier in any half-open window, plus one limit for
    every eviction of its bucket inside that window.
  */
  lemma TierBound(s: Settings, healthy: seq<bool>, now: int, labels: seq<Label>, tiers: seq<Tier>,
                  tier: Tier, subject: string, from: int, until: int, evictions: seq<nat>)
    requires WellNamed(tiers) && tier in tiers && AllGuarded(tiers, labels)
    requires until <= from + tier.windowSeconds * 1000
    requires EvictedAtMost(s.memory, RunOf(s, Start(s, healthy, now), labels).procs, RateLimitKey(tier, subject), from,
      until, evictions)
    ensures |AdmittedIds(RunOf(s, Start(s, healthy, now), labels), RateLimitKey(tier, subject), from, until)|
         <= (2 * (|evictions| + 1) + Sum(evictions, |evictions|)) * tier.limit
  {
    GuardedUse(tiers, labels, tier, subject);
    SystemBound(s, healthy, now, labels, RateLimitKey(tier, subject), tier.limit, tier.windowSeconds, from, until,
      evictions);
  }

  // ---------------------------------------------------------------------------------------------
  // Headers
  // ---------------------------------------------------------------------------------------------

  datatype Headers =
    | Suppressed
    | Headers(limit: nat, remaining: nat, resetAt: int, retryAfter: Option<nat>)

  /** Reply to TTL: -2 for a missing key, -1 for a counter without expiry, else seconds left, rounded to the nearest. */
  function TtlReply(store: Store, key: string, now: int): int {
    match Get(store, key, now)
    case None => -2
    case Some(e) => if e.expiresAt.None? then -1 else (e.expiresAt.value - now + 500) / 1000
  }

  /** Reply to GET, absent when the key is. */
  function GetReply(store: Store, key: string, now: int): Option<nat> {
    match Get(store, key, now)
    case None => None
    case Some(e) => Some(e.count)
  }

  /**
    setRateLimitHeaders. GET and TTL are two commands, so others may run between them; the clock is
    read last. The headers show the counter as GET found it, whatever happened afterwards.
  */
  method RateLimitHeaders(server: RedisServer, redisDriver: bool, healthy: bool, readFails: bool,
                          key: string, limit: nat, getAt: int, between: Log, ttlAt: int, now: int)
    returns (h: Headers)
    requires server.Valid()
    modifies server
    ensures server.Valid()
    ensures h.Suppressed? <==> !redisDriver || !healthy || readFails
    ensures h.Headers? ==>
      && server.log == old(server.log) + between
      && h.limit == limit
      && h.remaining == Remaining(old(server.store), key, limit, getAt)
      && (var ttl := TtlReply(server.store, key, ttlAt);
          && now / 1000 <= h.resetAt
          && (h.retryAfter.Some? <==> h.remaining == 0 && ttl > 0)
          && (ttl > 0 ==> h.resetAt == now / 1000 + ttl)
          && (ttl <= 0 ==> h.resetAt == now / 1000)
          && (h.retryAfter.Some? ==> h.retryAfter.value == ttl))
  {
    if !redisDriver || !healthy || readFails {
      return Suppressed;
    }
    var reply := GetReply(server.store, key, getAt);
    server.Others(between);
    var ttl := TtlReply(server.store, key, ttlAt);
    var count := match reply case None => 0 case Some(c) => c;
    var remaining := if limit - count > 0 then limit - count else 0;
    var validTtl := if ttl > 0 then ttl else 0;
    h := Headers(limit, remaining, now / 1000 + validTtl, None);
    if remaining == 0 && validTtl > 0 {
      h := h.(retryAfter := Some(validTtl));
    }
  }

  /**
    Retry-After is honest to half a second, the rounding of TTL: a client that waits for it and half a
    second more is admitted, and one that comes back half a second early is still denied.
  */
  lemma RetryAfterHonest(log: Log, more: Log, readAt: int, cmd: Command)
    requires var key, ttl := cmd.params.key, TtlReply(Replay(log), cmd.params.key, readAt);
      && ttl > 0
      && Remaining(Replay(log), key, cmd.params.limit, readAt) == 0
      && CountedBefore(more, key, Replay(log)[key].expiresAt.value)
    requires cmd.Incr?
    ensures var ttl := TtlReply(Replay(log), cmd.params.key, readAt);
      && (cmd.now >= readAt + ttl * 1000 + 500 && cmd.params.limit >= 1 ==> Admits(Replay(log + more), cmd))
      && (cmd.now < readAt + ttl * 1000 - 500 ==> !Admits(Replay(log + more), cmd))
  {
    CountsOn(log, more, cmd.params.key, Replay(log)[cmd.params.key].expiresAt.value);
  }
}
