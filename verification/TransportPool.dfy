/** The in-memory cache of decrypted channel credentials: bounded, least recently used
    first out, expiring, and emptied by the events the configuration service emits. */
module TransportPool {
  import opened Options

  type ConfigId = string
  type TenantId = string
  type Time = nat

  const MAX_SIZE: nat := 500
  const TTL_MS: nat := 30 * 60 * 1000
  const TOKEN_MARGIN_MS: nat := 2 * 60 * 1000

  /** What the cache hands out. `healthState` and `failures` are the two fields the
      database may change without an eviction event. */
  datatype Transport = Transport(
    configId: ConfigId,
    tenantId: TenantId,
    status: string,
    authType: string,
    credentials: string,
    publicSettings: string,
    tokenExpiresAt: Option<Time>,
    healthState: string,
    failures: nat)

  /** A stored config. `decrypted` is what decryption and token resolution, services outside
      this model, make of the stored credentials; `None` when they fail. */
  datatype Config = Config(public: Transport, hasCredentials: bool, decrypted: Option<string>)

  type Database = map<ConfigId, Config>

  datatype CacheEntry = CacheEntry(transport: Transport, cachedAt: Time, lastAccessedAt: Time)

  /** A JavaScript `Map`: its keys in insertion order, and their entries. */
  datatype Pool = Pool(order: seq<ConfigId>, entries: map<ConfigId, CacheEntry>)

  const EMPTY := Pool([], map[])

  ghost predicate Distinct(order: seq<ConfigId>) {
    forall i, j :: 0 <= i < j < |order| ==> order[i] != order[j]
  }

  /** The list and the map agree, and the cache is within its bound. */
  ghost predicate Valid(p: Pool) {
    && Distinct(p.order)
    && Listed(p)
    && "" !in p.entries
    && |p.entries| <= MAX_SIZE
  }

  predicate Listed(p: Pool) {
    (forall k :: k in p.order ==> k in p.entries) && (forall k :: k in p.entries ==> k in p.order)
  }

  // ---------------------------------------------------------------- the cache as a value

  predicate Present(db: Database, id: ConfigId) {
    id in db && db[id].hasCredentials
  }

  /** The tenant-blind read: a config that is gone or cannot be decrypted loads nothing. */
  function Load(db: Database, id: ConfigId): Option<Transport> {
    if Present(db, id) && db[id].decrypted.Some?
    then Some(db[id].public.(configId := id, credentials := db[id].decrypted.value))
    else None
  }

  predicate IsExpired(e: CacheEntry, now: Time) {
    || now > e.cachedAt + TTL_MS
    || (e.transport.authType == "oauth2"
        && e.transport.tokenExpiresAt.Some?
        && 0 < e.transport.tokenExpiresAt.value <= now + TOKEN_MARGIN_MS)
  }

  function Without(order: seq<ConfigId>, id: ConfigId): (r: seq<ConfigId>)
    ensures forall k :: k in r <==> k in order && k != id
  {
    if order == [] then []
    else if order[0] == id then Without(order[1..], id)
    else [order[0]] + Without(order[1..], id)
  }

  function Delete(p: Pool, id: ConfigId): (q: Pool)
    ensures Listed(p) ==> Listed(q)
  {
    Pool(Without(p.order, id), p.entries - {id})
  }

  function Set(p: Pool, id: ConfigId, e: CacheEntry): (q: Pool)
    ensures Listed(p) ==> Listed(q)
  {
    Pool(if id in p.entries then p.order else p.order + [id], p.entries[id := e])
  }

  /** The key of least access time, the earliest inserted among equals. */
  function Oldest(p: Pool, order: seq<ConfigId>): (r: Option<ConfigId>)
    requires forall k :: k in order ==> k in p.entries
    ensures r.None? <==> order == []
    ensures r.Some? ==> r.value in order
  {
    if order == [] then None
    else
      var k := order[|order| - 1];
      match Oldest(p, order[..|order| - 1])
      case None => Some(k)
      case Some(best) =>
        if p.entries[k].lastAccessedAt < p.entries[best].lastAccessedAt then Some(k) else Some(best)
  }

  function EvictOldest(p: Pool): (q: Pool)
    requires Listed(p)
    ensures Listed(q)
  {
    match Oldest(p, p.order)
    case None => p
    case Some(k) => if k == "" then p else Delete(p, k)
  }

  function Put(p: Pool, id: ConfigId, t: Transport, now: Time): (q: Pool)
    requires Listed(p)
    ensures Listed(q)
  {
    var room := if |p.entries| >= MAX_SIZE && id !in p.entries then EvictOldest(p) else p;
    Set(room, id, CacheEntry(t, now, now))
  }

  predicate Hit(p: Pool, id: ConfigId, now: Time) {
    id in p.entries && !IsExpired(p.entries[id], now)
  }

  function ResolveResult(p: Pool, db: Database, id: ConfigId, now: Time): Option<Transport> {
    if Hit(p, id, now) then Some(p.entries[id].transport) else Load(db, id)
  }

  function ResolvePool(p: Pool, db: Database, id: ConfigId, now: Time): (q: Pool)
    requires Listed(p)
    ensures Listed(q)
  {
    if Hit(p, id, now) then p.(entries := p.entries[id := p.entries[id].(lastAccessedAt := now)])
    else if Load(db, id).Some? then Put(p, id, Load(db, id).value, now)
    else if !Present(db, id) then Delete(p, id)
    else p
  }

  function Guard(t: Option<Transport>, tenant: TenantId): Option<Transport> {
    if t.Some? && t.value.tenantId == tenant then t else None
  }

  /** `evictExpired` over a prefix of the keys. */
  function Sweep(p: Pool, keys: seq<ConfigId>, now: Time): Pool {
    if keys == [] then p
    else
      var before := Sweep(p, keys[..|keys| - 1], now);
      var k := keys[|keys| - 1];
      if k in before.entries && IsExpired(before.entries[k], now) then Delete(before, k) else before
  }

  // ---------------------------------------------------------------- the service

  class TransportPoolService {
    var order: seq<ConfigId>
    var entries: map<ConfigId, CacheEntry>

    function Value(): Pool
      reads this
    {
      Pool(order, entries)
    }

    constructor ()
      ensures Value() == EMPTY
    {
      order, entries := [], map[];
    }

    method DeleteEntry(id: ConfigId)
      modifies this
      ensures Value() == Delete(old(Value()), id)
    {
      order, entries := Without(order, id), entries - {id};
    }

    method EvictLRU()
      requires Listed(Value())
      modifies this
      ensures Value() == EvictOldest(old(Value()))
    {
      var oldestKey: Option<ConfigId> := None;
      for i := 0 to |order|
        invariant Value() == old(Value())
        invariant oldestKey == Oldest(Value(), order[..i])
        invariant oldestKey.Some? ==> oldestKey.value in entries
      {
        assert order[..i + 1][..i] == order[..i];
        var key := order[i];
        if oldestKey.None? || entries[key].lastAccessedAt < entries[oldestKey.value].lastAccessedAt {
          oldestKey := Some(key);
        }
      }
      assert order[..|order|] == order;
      if oldestKey.Some? && oldestKey.value != "" {
        DeleteEntry(oldestKey.value);
      }
    }

    method PutEntry(id: ConfigId, t: Transport, now: Time)
      requires Listed(Value())
      modifies this
      ensures Value() == Put(old(Value()), id, t, now)
    {
      if |entries| >= MAX_SIZE && id !in entries {
        EvictLRU();
      }
      if id !in entries {
        order := order + [id];
      }
      entries := entries[id := CacheEntry(t, now, now)];
    }

    method Resolve(db: Database, id: ConfigId, now: Time) returns (r: Option<Transport>)
      requires Listed(Value())
      modifies this
      ensures r == ResolveResult(old(Value()), db, id, now)
      ensures Value() == ResolvePool(old(Value()), db, id, now)
    {
      if id in entries && !IsExpired(entries[id], now) {
        entries := entries[id := entries[id].(lastAccessedAt := now)];
        return Some(entries[id].transport);
      }
      if id !in db || !db[id].hasCredentials {
        DeleteEntry(id);
        return None;
      }
      if db[id].decrypted.None? {
        return None;
      }
      var transport := db[id].public.(configId := id, credentials := db[id].decrypted.value);
      PutEntry(id, transport, now);
      r := Some(transport);
    }

    method ResolveWithTenantGuard(db: Database, id: ConfigId, tenant: TenantId, now: Time)
      returns (r: Option<Transport>)
      requires Listed(Value())
      modifies this
      ensures r == Guard(ResolveResult(old(Value()), db, id, now), tenant)
      ensures r.Some? ==> r.value.tenantId == tenant && r == ResolveResult(old(Value()), db, id, now)
      ensures r.None? ==> forall t :: ResolveResult(old(Value()), db, id, now) == Some(t) ==> t.tenantId != tenant
      ensures Value() == ResolvePool(old(Value()), db, id, now)
    {
      r := Resolve(db, id, now);
      if r.Some? && r.value.tenantId != tenant {
        r := None;
      }
    }

    method EvictExpired(now: Time)
      modifies this
      ensures Value() == Sweep(old(Value()), old(order), now)
    {
      var keys := order;
      for i := 0 to |keys|
        invariant Value() == Sweep(old(Value()), keys[..i], now)
      {
        assert keys[..i + 1][..i] == keys[..i];
        if keys[i] in entries && IsExpired(entries[keys[i]], now) {
          DeleteEntry(keys[i]);
        }
      }
      assert keys[..|keys|] == keys;
    }
  }

  // ---------------------------------------------------------------- size

  lemma DistinctCons(a: ConfigId, rest: seq<ConfigId>)
    requires Distinct(rest) && a !in rest
    ensures Distinct([a] + rest)
  {
  }

  lemma DistinctUncons(order: seq<ConfigId>)
    requires Distinct(order) && order != []
    ensures Distinct(order[1..]) && order[0] !in order[1..]
  {
    var rest := order[1..];
    forall i, j | 0 <= i < j < |rest| ensures rest[i] != rest[j] {
      assert rest[i] == order[i + 1] && rest[j] == order[j + 1];
    }
  }

  lemma {:induction false} WithoutKeepsDistinct(order: seq<ConfigId>, id: ConfigId)
    requires Distinct(order)
    ensures Distinct(Without(order, id))
  {
    if order != [] {
      DistinctUncons(order);
      WithoutKeepsDistinct(order[1..], id);
      if order[0] != id {
        DistinctCons(order[0], Without(order[1..], id));
      }
    }
  }

  /** A key taken out leaves the others in their order. */
  lemma {:induction false} WithoutExactly(before: seq<ConfigId>, id: ConfigId, behind: seq<ConfigId>)
    requires id !in before && id !in behind
    ensures Without(before + [id] + behind, id) == before + behind
  {
    if before == [] {
      assert ([id] + behind)[1..] == behind && before + [id] + behind == [id] + behind;
      NothingWithout(behind, id);
    } else {
      assert (before + [id] + behind)[1..] == before[1..] + [id] + behind;
      WithoutExactly(before[1..], id, behind);
    }
  }

  lemma {:induction false} NothingWithout(order: seq<ConfigId>, id: ConfigId)
    requires id !in order
    ensures Without(order, id) == order
  {
    if order != [] {
      NothingWithout(order[1..], id);
    }
  }

  /** An entry is live for thirty minutes, and with an OAuth token that states an expiry only
      while that is more than two minutes off. */
  lemma LiveExactly(e: CacheEntry, now: Time)
    ensures !IsExpired(e, now) <==>
              && now - e.cachedAt <= 30 * 60_000
              && (e.transport.authType == "oauth2" ==>
                    e.transport.tokenExpiresAt.GetOr(0) == 0 || e.transport.tokenExpiresAt.value - now > 2 * 60_000)
  {
  }

  lemma DeleteKeepsValid(p: Pool, id: ConfigId)
    requires Valid(p)
    ensures Valid(Delete(p, id))
    ensures |Delete(p, id).entries| == |p.entries| - if id in p.entries then 1 else 0
  {
    WithoutKeepsDistinct(p.order, id);
    var q := Delete(p, id);
    assert q.entries.Keys == p.entries.Keys - {id};
    assert |q.entries| == |q.entries.Keys| && |p.entries| == |p.entries.Keys|;
  }

  /** Of those listed, entry `i` is one least recently used, and the first of them. */
  ghost predicate FirstLeast(p: Pool, order: seq<ConfigId>, i: nat)
    requires forall k :: k in order ==> k in p.entries
  {
    && i < |order|
    && (forall j :: 0 <= j < i ==> p.entries[order[i]].lastAccessedAt < p.entries[order[j]].lastAccessedAt)
    && (forall j :: i <= j < |order| ==> p.entries[order[i]].lastAccessedAt <= p.entries[order[j]].lastAccessedAt)
  }

  lemma {:induction false} OldestIsLeast(p: Pool, order: seq<ConfigId>) returns (i: nat)
    requires order != [] && forall k :: k in order ==> k in p.entries
    ensures FirstLeast(p, order, i) && Oldest(p, order) == Some(order[i])
  {
    var n := |order| - 1;
    i := n;
    if order[..n] != [] {
      var before := OldestIsLeast(p, order[..n]);
      assert forall j :: 0 <= j < n ==> order[..n][j] == order[j];
      if p.entries[order[before]].lastAccessedAt <= p.entries[order[n]].lastAccessedAt {
        i := before;
      }
    }
  }

  lemma SetKeepsValid(p: Pool, id: ConfigId, e: CacheEntry)
    requires Valid(p) && id != "" && (id in p.entries || |p.entries| < MAX_SIZE)
    ensures Valid(Set(p, id, e))
  {
    var q := Set(p, id, e);
    assert q.entries.Keys == p.entries.Keys + {id};
    assert |q.entries| == |q.entries.Keys| && |p.entries| == |p.entries.Keys|;
    assert id !in p.entries ==> Distinct(p.order + [id]);
  }

  /** At capacity the entry evicted is a least recently used one, of those the first inserted,
      and it makes room. */
  lemma EvictionMakesRoom(p: Pool) returns (i: nat)
    requires Valid(p) && p.order != []
    ensures FirstLeast(p, p.order, i) && EvictOldest(p) == Delete(p, p.order[i])
    ensures forall j :: j in p.entries ==> p.entries[p.order[i]].lastAccessedAt <= p.entries[j].lastAccessedAt
    ensures Valid(EvictOldest(p)) && |EvictOldest(p).entries| == |p.entries| - 1
  {
    i := OldestIsLeast(p, p.order);
    DeleteKeepsValid(p, p.order[i]);
  }

  lemma FullIsNotEmpty(p: Pool)
    requires Valid(p) && |p.entries| >= MAX_SIZE
    ensures p.order != []
  {
    assert |p.entries| == |p.entries.Keys|;
    var k :| k in p.entries.Keys;
    assert k in p.order;
  }

  lemma PutKeepsValid(p: Pool, id: ConfigId, t: Transport, now: Time)
    requires Valid(p) && id != ""
    ensures Valid(Put(p, id, t, now))
  {
    if |p.entries| >= MAX_SIZE && id !in p.entries {
      FullIsNotEmpty(p);
      var _ := EvictionMakesRoom(p);
      SetKeepsValid(EvictOldest(p), id, CacheEntry(t, now, now));
    } else {
      SetKeepsValid(p, id, CacheEntry(t, now, now));
    }
  }

  predicate DatabaseOk(db: Database) {
    "" !in db
  }

  lemma ResolveKeepsValid(p: Pool, db: Database, id: ConfigId, now: Time)
    requires Valid(p) && DatabaseOk(db)
    ensures Valid(ResolvePool(p, db, id, now))
  {
    if Hit(p, id, now) {
      assert ResolvePool(p, db, id, now).entries.Keys == p.entries.Keys;
      assert |ResolvePool(p, db, id, now).entries.Keys| == |p.entries.Keys|;
    } else if Load(db, id).Some? {
      PutKeepsValid(p, id, Load(db, id).value, now);
    } else {
      DeleteKeepsValid(p, id);
    }
  }

  lemma {:induction false} SweepKeepsValid(p: Pool, keys: seq<ConfigId>, now: Time)
    requires Valid(p)
    ensures Valid(Sweep(p, keys, now))
    ensures forall k :: k in Sweep(p, keys, now).entries ==>
              k in p.entries && Sweep(p, keys, now).entries[k] == p.entries[k]
  {
    if keys != [] {
      SweepKeepsValid(p, keys[..|keys| - 1], now);
      DeleteKeepsValid(Sweep(p, keys[..|keys| - 1], now), keys[|keys| - 1]);
    }
  }

  /** A sweep over `keys` removes exactly what is expired among them, and touches nothing else. */
  lemma {:induction false} SweepKeepsExactly(p: Pool, keys: seq<ConfigId>, now: Time, k: ConfigId)
    ensures var q := Sweep(p, keys, now);
            && (k in q.entries <==> k in p.entries && !(k in keys && IsExpired(p.entries[k], now)))
            && (k in q.entries ==> q.entries[k] == p.entries[k])
  {
    if keys != [] {
      var n := |keys| - 1;
      SweepKeepsExactly(p, keys[..n], now, k);
      SweepKeepsExactly(p, keys[..n], now, keys[n]);
      assert keys == keys[..n] + [keys[n]];
    }
  }

  /** The periodic cleanup leaves exactly the entries that have not expired. */
  lemma CleanupKeepsExactly(p: Pool, now: Time, k: ConfigId)
    requires Listed(p)
    ensures k in Sweep(p, p.order, now).entries <==> k in p.entries && !IsExpired(p.entries[k], now)
  {
    SweepKeepsExactly(p, p.order, now, k);
  }
}
