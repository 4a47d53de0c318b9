/** Which configs the cache still holds after a run of lookups. */
module TransportRecency {
  import opened TransportPool

  /** A lookup, with the database as it stood then: it may have changed in any way since
      the one before. */
  datatype Access = Access(id: ConfigId, now: Time, db: Database)

  ghost function PoolAfter(log: seq<Access>): (p: Pool)
    ensures Listed(p)
  {
    if log == [] then EMPTY
    else
      var a := log[|log| - 1];
      ResolvePool(PoolAfter(log[..|log| - 1]), a.db, a.id, a.now)
  }

  // ---------------------------------------------------------------- least recently used

  ghost function Ids(log: seq<Access>): set<ConfigId> {
    if log == [] then {} else Ids(log[..|log| - 1]) + {log[|log| - 1].id}
  }

  /** When `id` was last looked up; -1 for never. */
  ghost function LastTime(log: seq<Access>, id: ConfigId): int {
    if log == [] then -1
    else if log[|log| - 1].id == id then log[|log| - 1].now
    else LastTime(log[..|log| - 1], id)
  }

  /** Strictly increasing times, every load succeeds, and nothing looked up has expired. */
  ghost predicate Steady(log: seq<Access>) {
    log == [] ||
    (var n := |log| - 1;
     && Steady(log[..n])
     && (n > 0 ==> log[n - 1].now < log[n].now)
     && DatabaseOk(log[n].db)
     && Load(log[n].db, log[n].id).Some?
     && (log[n].id in PoolAfter(log[..n]).entries ==> Hit(PoolAfter(log[..n]), log[n].id, log[n].now)))
  }

  lemma {:induction false} SteadyIsValid(log: seq<Access>)
    requires Steady(log)
    ensures Valid(PoolAfter(log))
  {
    if log != [] {
      var n := |log| - 1;
      SteadyIsValid(log[..n]);
      ResolveKeepsValid(PoolAfter(log[..n]), log[n].db, log[n].id, log[n].now);
    }
  }

  lemma {:induction false} LastTimeBounds(log: seq<Access>, id: ConfigId)
    requires Steady(log)
    ensures id in Ids(log) <==> LastTime(log, id) >= 0
    ensures log != [] ==> LastTime(log, id) <= log[|log| - 1].now
  {
    if log != [] {
      LastTimeBounds(log[..|log| - 1], id);
    }
  }

  lemma {:induction false} LastTimesDiffer(log: seq<Access>, a: ConfigId, b: ConfigId)
    requires Steady(log) && a in Ids(log) && a != b
    ensures LastTime(log, a) != LastTime(log, b)
  {
    var n := |log| - 1;
    LastTimeBounds(log[..n], a);
    LastTimeBounds(log[..n], b);
    if log[n].id != a {
      if log[n].id != b {
        LastTimesDiffer(log[..n], a, b);
      }
    }
  }

  function Min(a: nat, b: nat): nat {
    if a < b then a else b
  }

  ghost predicate Stamped(entries: map<ConfigId, CacheEntry>, log: seq<Access>) {
    && entries.Keys <= Ids(log)
    && (forall k :: k in entries ==> entries[k].lastAccessedAt == LastTime(log, k))
  }

  ghost predicate OutsidersAreOlder(keys: set<ConfigId>, log: seq<Access>) {
    forall a, b :: a in keys && b in Ids(log) && b !in keys ==> LastTime(log, b) < LastTime(log, a)
  }

  /** Entries carry their true last use, nothing outside was used later, none is missing. */
  ghost predicate KeepsTheRecent(entries: map<ConfigId, CacheEntry>, log: seq<Access>) {
    && Stamped(entries, log)
    && OutsidersAreOlder(entries.Keys, log)
    && |entries.Keys| == Min(MAX_SIZE, |Ids(log)|)
  }

  lemma SubsetOfSameSize<T>(a: set<T>, b: set<T>)
    requires a <= b && |a| == |b|
    ensures a == b
  {
    assert |b - a| == |b| - |a|;
  }

  lemma SubsetSize<T>(a: set<T>, b: set<T>)
    requires a <= b
    ensures |a| <= |b|
  {
    assert |b - a| == |b| - |a|;
  }

  lemma SwapKeepsSize<T>(s: set<T>, gone: T, here: T)
    requires gone in s && here !in s
    ensures |s - {gone} + {here}| == |s|
  {
  }

  ghost predicate LaterThanAll(now: Time, log: seq<Access>) {
    forall b :: LastTime(log, b) < now
  }

  lemma Longer(log: seq<Access>, a: Access)
    ensures Ids(log + [a]) == Ids(log) + {a.id}
    ensures forall k :: LastTime(log + [a], k) == if k == a.id then a.now else LastTime(log, k)
  {
    assert (log + [a])[..|log|] == log;
  }

  lemma StampedAfter(entries: map<ConfigId, CacheEntry>, log: seq<Access>, a: Access, e: CacheEntry)
    requires Stamped(entries, log) && e.lastAccessedAt == a.now
    ensures Stamped(entries[a.id := e], log + [a])
  {
    Longer(log, a);
  }

  lemma RecentAfterHit(entries: map<ConfigId, CacheEntry>, log: seq<Access>, a: Access, e: CacheEntry)
    requires KeepsTheRecent(entries, log) && LaterThanAll(a.now, log)
    requires a.id in entries && e.lastAccessedAt == a.now
    ensures KeepsTheRecent(entries[a.id := e], log + [a])
  {
    StampedAfter(entries, log, a, e);
    Longer(log, a);
    assert entries[a.id := e].Keys == entries.Keys && Ids(log + [a]) == Ids(log);
  }

  lemma RecentAfterMiss(entries: map<ConfigId, CacheEntry>, log: seq<Access>, a: Access, e: CacheEntry)
    requires KeepsTheRecent(entries, log)
    requires a.id !in entries && |entries.Keys| < MAX_SIZE && e.lastAccessedAt == a.now
    ensures KeepsTheRecent(entries[a.id := e], log + [a])
  {
    StampedAfter(entries, log, a, e);
    Longer(log, a);
    SubsetOfSameSize(entries.Keys, Ids(log));
    assert entries[a.id := e].Keys == entries.Keys + {a.id};
  }

  lemma OutsidersAfterEviction(keys: set<ConfigId>, log: seq<Access>, a: Access, gone: ConfigId)
    requires OutsidersAreOlder(keys, log) && LaterThanAll(a.now, log)
    requires forall k :: k in keys && k != gone ==> LastTime(log, gone) < LastTime(log, k)
    ensures OutsidersAreOlder(keys - {gone} + {a.id}, log + [a])
  {
    Longer(log, a);
  }

  lemma RecentAfterEviction(entries: map<ConfigId, CacheEntry>, log: seq<Access>, a: Access, e: CacheEntry,
                            gone: ConfigId)
    requires KeepsTheRecent(entries, log) && LaterThanAll(a.now, log)
    requires a.id !in entries && |entries.Keys| == MAX_SIZE && e.lastAccessedAt == a.now
    requires gone in entries
    requires forall k :: k in entries.Keys && k != gone ==> LastTime(log, gone) < LastTime(log, k)
    ensures KeepsTheRecent((entries - {gone})[a.id := e], log + [a])
  {
    var after := (entries - {gone})[a.id := e];
    assert after.Keys == entries.Keys - {gone} + {a.id};
    OutsidersAfterEviction(entries.Keys, log, a, gone);
    SwapKeepsSize(entries.Keys, gone, a.id);
    StampedAfter(entries - {gone}, log, a, e);
    SubsetSize(after.Keys, Ids(log + [a]));
  }

  ghost predicate EvictsLeastRecent(p: Pool, log: seq<Access>, gone: ConfigId)
    requires Listed(p)
  {
    && gone in p.entries && EvictOldest(p) == Delete(p, gone)
    && forall k :: k in p.entries.Keys && k != gone ==> LastTime(log, gone) < LastTime(log, k)
  }

  lemma EvictedIsLeastRecent(log: seq<Access>) returns (gone: ConfigId)
    requires Steady(log) && KeepsTheRecent(PoolAfter(log).entries, log) && |PoolAfter(log).entries| >= MAX_SIZE
    ensures EvictsLeastRecent(PoolAfter(log), log, gone)
  {
    var p := PoolAfter(log);
    SteadyIsValid(log);
    FullIsNotEmpty(p);
    var _ := EvictionMakesRoom(p);
    gone := Oldest(p, p.order).value;
    forall k | k in p.entries && k != gone ensures LastTime(log, gone) < LastTime(log, k) {
      LastTimesDiffer(log, k, gone);
    }
  }

  /** What a lookup that loads or hits makes of the entries. */
  ghost predicate Follows(p: Pool, q: Pool, a: Access)
    requires Listed(q)
  {
    && a.id in p.entries && p.entries[a.id].lastAccessedAt == a.now
    && p.entries == (if a.id !in q.entries && |q.entries| >= MAX_SIZE then EvictOldest(q) else q)
                    .entries[a.id := p.entries[a.id]]
  }

  lemma SteadyFollows(log: seq<Access>, was: seq<Access>, a: Access)
    requires Steady(log) && log == was + [a]
    ensures Steady(was) && LaterThanAll(a.now, was) && Follows(PoolAfter(log), PoolAfter(was), a)
  {
    assert log[..|log| - 1] == was;
    forall b ensures LastTime(was, b) < a.now {
      LastTimeBounds(was, b);
    }
  }

  lemma RecentStep(p: Pool, q: Pool, log: seq<Access>, was: seq<Access>, a: Access, gone: ConfigId)
    requires log == was + [a] && Listed(q) && Follows(p, q, a)
    requires KeepsTheRecent(q.entries, was) && LaterThanAll(a.now, was)
    requires |q.entries| >= MAX_SIZE ==> EvictsLeastRecent(q, was, gone)
    ensures KeepsTheRecent(p.entries, log)
  {
    var e := p.entries[a.id];
    assert |q.entries| == |q.entries.Keys|;
    if a.id in q.entries {
      RecentAfterHit(q.entries, was, a, e);
    } else if |q.entries| < MAX_SIZE {
      RecentAfterMiss(q.entries, was, a, e);
    } else {
      RecentAfterEviction(q.entries, was, a, e, gone);
    }
  }

  lemma LeastRecentIfFull(log: seq<Access>) returns (gone: ConfigId)
    requires Steady(log) && KeepsTheRecent(PoolAfter(log).entries, log)
    ensures |PoolAfter(log).entries| >= MAX_SIZE ==> EvictsLeastRecent(PoolAfter(log), log, gone)
  {
    gone := "";
    if |PoolAfter(log).entries| >= MAX_SIZE {
      gone := EvictedIsLeastRecent(log);
    }
  }

  lemma {:induction false} RecentAlways(log: seq<Access>)
    requires Steady(log)
    ensures KeepsTheRecent(PoolAfter(log).entries, log)
  {
    if log != [] {
      var was, a := log[..|log| - 1], log[|log| - 1];
      SteadyFollows(log, was, a);
      RecentAlways(was);
      var gone := LeastRecentIfFull(was);
      RecentStep(PoolAfter(log), PoolAfter(was), log, was, a, gone);
    }
  }

  ghost function UsedAfter(log: seq<Access>, k: ConfigId): set<ConfigId> {
    set j | j in Ids(log) && LastTime(log, j) > LastTime(log, k)
  }

  /** Looked up at some time, and fewer than 500 others were looked up since. */
  ghost predicate AmongTheRecent(log: seq<Access>, k: ConfigId) {
    k in Ids(log) && |UsedAfter(log, k)| < MAX_SIZE
  }

  lemma RecentKeysAreTheLatest(entries: map<ConfigId, CacheEntry>, log: seq<Access>, k: ConfigId)
    requires KeepsTheRecent(entries, log) && |entries.Keys| <= MAX_SIZE
    ensures k in entries <==> AmongTheRecent(log, k)
  {
    if k in entries {
      SubsetSize(UsedAfter(log, k), entries.Keys - {k});
    } else if k in Ids(log) {
      SubsetSize(entries.Keys + {k}, Ids(log));
      SubsetSize(entries.Keys, UsedAfter(log, k));
    }
  }

  /** The cache keeps exactly the 500 configs looked up most recently. */
  lemma {:induction false} KeepsTheMostRecentlyUsed(log: seq<Access>, k: ConfigId)
    requires Steady(log)
    ensures k in PoolAfter(log).entries <==> AmongTheRecent(log, k)
  {
    RecentAlways(log);
    RecentKeysAreTheLatest(PoolAfter(log).entries, log, k);
  }
}
