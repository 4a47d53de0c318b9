/** The cache beside the database it mirrors: lookups that take their time, evictions that
    arrive meanwhile, and writes nobody announces. */
module TransportCoherence {
  import opened Options
  import opened TransportPool

  datatype Stage = Fetched | Ready | Stored

  /** A lookup that missed: what it read, and how far it has come. */
  datatype Pending = Pending(id: ConfigId, transport: Transport, decrypted: Option<string>, stage: Stage)

  datatype System = System(pool: Pool, db: Database, clock: Time, loads: seq<Pending>)

  const START := System(EMPTY, map[], 0, [])

  /** A lookup that hits is one `Touch`. One that misses finds nothing (`Drop`), or reads
      (`Fetch`), then decrypts or renews the token, then stores, with anything in between.
      `Changed`, `Deleted` and `Refresh` write and announce it, `Silent` only writes. */
  datatype Event =
    | Tick(now: Time)
    | Touch(id: ConfigId)
    | Drop(id: ConfigId)
    | Fetch(id: ConfigId)
    | Decrypt(n: nat)
    | Refresh(n: nat, token: string, expiry: Option<Time>, decrypts: Option<string>)
    | Store(n: nat)
    | Cleanup
    | Changed(id: ConfigId, config: Config)
    | Deleted(id: ConfigId)
    | Created(id: ConfigId, config: Config)
    | HealthNoted(id: ConfigId, healthState: string, failures: nat)
    | Silent(db: Database)

  /** The token is missing an expiry, or is about to pass it. */
  predicate TokenDue(t: Transport, now: Time) {
    t.authType == "oauth2" && t.tokenExpiresAt.GetOr(0) <= now + TOKEN_MARGIN_MS
  }

  predicate Possible(s: System, e: Event) {
    match e
    case Tick(now) => s.clock <= now
    case Touch(id) => Hit(s.pool, id, s.clock)
    case Fetch(id) => Present(s.db, id)
    case Decrypt(n) =>
      n < |s.loads| && s.loads[n].stage == Fetched && s.loads[n].decrypted.Some?
      && !TokenDue(s.loads[n].transport, s.clock)
    case Refresh(n, _, _, _) =>
      n < |s.loads| && s.loads[n].stage == Fetched && TokenDue(s.loads[n].transport, s.clock)
    case Store(n) => n < |s.loads| && s.loads[n].stage == Ready
    case Changed(id, _) => id in s.db
    case Created(id, _) => id !in s.db && id != ""
    case HealthNoted(id, _, _) => id in s.db
    case Silent(db) => DatabaseOk(db)
    case _ => true
  }

  /** What a renewed token leaves in the database, if the config is still there. */
  function Renewed(db: Database, id: ConfigId, expiry: Option<Time>, decrypts: Option<string>): Database {
    if id in db then
      var public := db[id].public.(authType := "oauth2", tokenExpiresAt := expiry);
      db[id := db[id].(public := public.(healthState := "healthy", failures := 0), decrypted := decrypts)]
    else db
  }

  function After(s: System, e: Event): System
    requires Listed(s.pool) && Possible(s, e)
  {
    match e
    case Tick(now) => s.(clock := now)
    case Touch(id) =>
      s.(pool := s.pool.(entries := s.pool.entries[id := s.pool.entries[id].(lastAccessedAt := s.clock)]))
    case Drop(id) => s.(pool := Delete(s.pool, id))
    case Fetch(id) =>
      s.(loads := s.loads + [Pending(id, s.db[id].public.(configId := id), s.db[id].decrypted, Fetched)])
    case Decrypt(n) =>
      var p := s.loads[n];
      s.(loads := s.loads[n := p.(transport := p.transport.(credentials := p.decrypted.value), stage := Ready)])
    case Refresh(n, token, expiry, decrypts) =>
      var p := s.loads[n];
      s.(pool := Delete(s.pool, p.id), db := Renewed(s.db, p.id, expiry, decrypts),
         loads := s.loads[n := p.(transport := p.transport.(credentials := token), stage := Ready)])
    case Store(n) =>
      var p := s.loads[n];
      s.(pool := Put(s.pool, p.id, p.transport, s.clock), loads := s.loads[n := p.(stage := Stored)])
    case Cleanup => s.(pool := Sweep(s.pool, s.pool.order, s.clock))
    case Changed(id, config) => s.(pool := Delete(s.pool, id), db := s.db[id := config])
    case Deleted(id) => s.(pool := Delete(s.pool, id), db := s.db - {id})
    case Created(id, config) => s.(db := s.db[id := config])
    case HealthNoted(id, h, f) =>
      s.(db := s.db[id := s.db[id].(public := s.db[id].public.(healthState := h, failures := f))])
    case Silent(db) => s.(db := db)
  }

  predicate Leads(s: System, e: Event, t: System) {
    Listed(s.pool) && Possible(s, e) && t == After(s, e)
  }

  ghost predicate History(tr: seq<System>, events: seq<Event>) {
    && |tr| == |events| + 1 && tr[0] == START
    && forall i {:trigger events[i]} :: 0 <= i < |events| ==> Leads(tr[i], events[i], tr[i + 1])
  }

  /** With nothing in between, the steps of a lookup are `resolve`. */
  lemma UnbrokenLoadIsResolve(s: System, id: ConfigId)
    requires Listed(s.pool) && Possible(s, Fetch(id)) && !Hit(s.pool, id, s.clock)
    requires s.db[id].decrypted.Some? && !TokenDue(s.db[id].public, s.clock)
    ensures var n := |s.loads|;
            var fetched := After(s, Fetch(id));
            && Possible(fetched, Decrypt(n))
            && var ready := After(fetched, Decrypt(n));
               && Possible(ready, Store(n))
               && After(ready, Store(n)).pool == ResolvePool(s.pool, s.db, id, s.clock)
               && ResolveResult(s.pool, s.db, id, s.clock) == Some(ready.loads[n].transport)
  {
  }

  // ---------------------------------------------------------------- size

  ghost predicate Sane(s: System) {
    && Valid(s.pool) && DatabaseOk(s.db)
    && forall n :: 0 <= n < |s.loads| ==> s.loads[n].id != ""
  }

  lemma PoolStaysValid(s: System, e: Event)
    requires Sane(s) && Possible(s, e)
    ensures Valid(After(s, e).pool)
  {
    match e
    case Touch(id) => SetKeepsValid(s.pool, id, s.pool.entries[id].(lastAccessedAt := s.clock));
    case Drop(id) => DeleteKeepsValid(s.pool, id);
    case Refresh(n, _, _, _) => DeleteKeepsValid(s.pool, s.loads[n].id);
    case Store(n) => PutKeepsValid(s.pool, s.loads[n].id, s.loads[n].transport, s.clock);
    case Cleanup => SweepKeepsValid(s.pool, s.pool.order, s.clock);
    case Changed(id, _) => DeleteKeepsValid(s.pool, id);
    case Deleted(id) => DeleteKeepsValid(s.pool, id);
    case _ =>
  }

  lemma {:induction false} AlwaysSane(tr: seq<System>, events: seq<Event>, i: nat)
    requires History(tr, events) && i < |tr|
    ensures Sane(tr[i])
  {
    if i > 0 {
      AlwaysSane(tr, events, i - 1);
      PoolStaysValid(tr[i - 1], events[i - 1]);
    }
  }

  /** Whatever the database does, announced or not, the cache never outgrows its bound. */
  lemma NeverOverfull(tr: seq<System>, events: seq<Event>, i: nat)
    requires History(tr, events) && i < |tr|
    ensures |tr[i].pool.entries| <= MAX_SIZE && Distinct(tr[i].pool.order) && Listed(tr[i].pool)
  {
    AlwaysSane(tr, events, i);
  }

  // ---------------------------------------------------------------- right answers

  /** Equal on everything but the two health fields. */
  predicate Agree(a: Transport, b: Transport) {
    a.(healthState := b.healthState, failures := b.failures) == b
  }

  /** The transport is the one a read gives, the health fields apart. */
  predicate Mirrors(t: Transport, loaded: Option<Transport>) {
    loaded.Some? && Agree(t, loaded.value)
  }

  /** The config is there, can be decrypted, and is the tenant's own. */
  predicate Entitled(db: Database, id: ConfigId, tenant: TenantId) {
    id in db && db[id].hasCredentials && db[id].decrypted.Some? && db[id].public.tenantId == tenant
  }

  /** Exactly an entitled tenant gets a transport, and it is the config as stored, decrypted. */
  predicate Right(answer: Option<Transport>, db: Database, id: ConfigId, tenant: TenantId) {
    && (answer.Some? <==> Entitled(db, id, tenant))
    && (answer.Some? ==>
          Agree(answer.value, db[id].public.(configId := id, credentials := db[id].decrypted.value)))
  }

  /** Every tenant gets the right answer from the cache. */
  ghost predicate AnswersAs(p: Pool, db: Database, now: Time) {
    forall k: ConfigId, tenant: TenantId :: Right(Guard(ResolveResult(p, db, k, now), tenant), db, k, tenant)
  }

  /** No live entry contradicts the database. */
  ghost predicate Unnoticed(p: Pool, db: Database, now: Time) {
    forall k :: k in p.entries && !IsExpired(p.entries[k], now) ==> Mirrors(p.entries[k].transport, Load(db, k))
  }

  lemma RightForAll(p: Pool, db: Database, k: ConfigId, now: Time, tenant: TenantId)
    requires Hit(p, k, now) ==> Mirrors(p.entries[k].transport, Load(db, k))
    ensures Right(Guard(ResolveResult(p, db, k, now), tenant), db, k, tenant)
  {
  }

  lemma AnswersAreEntries(p: Pool, db: Database, now: Time)
    ensures AnswersAs(p, db, now) <==> Unnoticed(p, db, now)
  {
    if AnswersAs(p, db, now) {
      forall k | k in p.entries && !IsExpired(p.entries[k], now) ensures Mirrors(p.entries[k].transport, Load(db, k)) {
        var t := p.entries[k].transport;
        assert Right(Guard(ResolveResult(p, db, k, now), t.tenantId), db, k, t.tenantId);
      }
    } else {
      if Unnoticed(p, db, now) {
        forall k: ConfigId, tenant: TenantId
          ensures Right(Guard(ResolveResult(p, db, k, now), tenant), db, k, tenant)
        {
          RightForAll(p, db, k, now, tenant);
        }
      }
    }
  }

  ghost predicate Current(s: System) {
    Unnoticed(s.pool, s.db, s.clock)
  }

  /** What load `n` stores is still what a read gives, or is not served any more. */
  predicate StoresCurrent(s: System, n: nat)
    requires n < |s.loads|
  {
    var p := s.loads[n];
    Mirrors(p.transport, Load(s.db, p.id)) || IsExpired(CacheEntry(p.transport, s.clock, s.clock), s.clock)
  }

  /** The event puts nothing wrong in front of a caller. */
  ghost predicate Harmless(s: System, e: Event)
    requires Possible(s, e)
  {
    match e
    case Store(n) => StoresCurrent(s, n)
    case Silent(db) => Unnoticed(s.pool, db, s.clock)
    case _ => true
  }

  /** Entries that were there already, beside a database that agrees on what is left of them. */
  lemma StaysCurrent(s: System, t: System)
    requires Current(s) && s.clock <= t.clock
    requires forall k :: k in t.pool.entries ==>
               && k in s.pool.entries
               && t.pool.entries[k] == s.pool.entries[k].(lastAccessedAt := t.pool.entries[k].lastAccessedAt)
    requires forall k :: k in t.pool.entries && Load(s.db, k).Some? ==> Mirrors(Load(s.db, k).value, Load(t.db, k))
    ensures Current(t)
  {
  }

  lemma StoreIsCurrentExactly(s: System, n: nat)
    requires Sane(s) && Current(s) && Possible(s, Store(n))
    ensures Current(After(s, Store(n))) <==> StoresCurrent(s, n)
  {
    var p, t := s.loads[n], After(s, Store(n));
    assert t.pool.entries[p.id] == CacheEntry(p.transport, s.clock, s.clock);
  }

  lemma HealthNoteStaysCurrent(s: System, id: ConfigId, h: string, f: nat)
    requires Current(s) && Possible(s, HealthNoted(id, h, f)) && Listed(s.pool)
    ensures Current(After(s, HealthNoted(id, h, f)))
  {
    var t := After(s, HealthNoted(id, h, f));
    forall k | Load(s.db, k).Some? ensures Mirrors(Load(s.db, k).value, Load(t.db, k)) {
      if k == id {
        assert t.db[k].public == s.db[k].public.(healthState := h, failures := f);
      }
    }
    StaysCurrent(s, t);
  }

  lemma CreationStaysCurrent(s: System, id: ConfigId, config: Config)
    requires Current(s) && Possible(s, Created(id, config)) && Listed(s.pool)
    ensures Current(After(s, Created(id, config)))
  {
    var t := After(s, Created(id, config));
    forall k | Load(s.db, k).Some? ensures Load(t.db, k) == Load(s.db, k) {
      assert k != id;
    }
    StaysCurrent(s, t);
  }

  /** An eviction together with the write it announces, or alone. */
  lemma EvictionStaysCurrent(s: System, t: System, id: ConfigId)
    requires Current(s) && s.clock <= t.clock && t.pool == Delete(s.pool, id)
    requires forall k :: k != id ==> Load(t.db, k) == Load(s.db, k)
    ensures Current(t)
  {
    StaysCurrent(s, t);
  }

  lemma AnnouncedStaysCurrent(s: System, e: Event)
    requires Current(s) && Possible(s, e) && Listed(s.pool)
    requires e.Drop? || e.Refresh? || e.Changed? || e.Deleted?
    ensures Current(After(s, e))
  {
    EvictionStaysCurrent(s, After(s, e), if e.Refresh? then s.loads[e.n].id else e.id);
  }

  lemma TouchStaysCurrent(s: System, id: ConfigId)
    requires Current(s) && Possible(s, Touch(id)) && Listed(s.pool)
    ensures Current(After(s, Touch(id)))
  {
    StaysCurrent(s, After(s, Touch(id)));
  }

  /** Only a store and a silent write can make an answer wrong. */
  lemma CurrentExactly(s: System, e: Event)
    requires Sane(s) && Current(s) && Possible(s, e)
    ensures Current(After(s, e)) <==> Harmless(s, e)
  {
    match e
    case Store(n) => StoreIsCurrentExactly(s, n);
    case Silent(_) =>
    case HealthNoted(id, h, f) => HealthNoteStaysCurrent(s, id, h, f);
    case Created(id, config) => CreationStaysCurrent(s, id, config);
    case Cleanup =>
      SweepKeepsValid(s.pool, s.pool.order, s.clock);
      StaysCurrent(s, After(s, e));
    case Touch(id) => TouchStaysCurrent(s, id);
    case Tick(_) =>
    case Fetch(_) =>
    case Decrypt(_) =>
    case _ => AnnouncedStaysCurrent(s, e);
  }

  ghost predicate AllHarmless(tr: seq<System>, events: seq<Event>, upto: nat)
    requires History(tr, events) && upto <= |events|
  {
    forall i {:trigger events[i]} :: 0 <= i < upto ==> Harmless(tr[i], events[i])
  }

  lemma {:induction false} HarmlessStaysCurrent(tr: seq<System>, events: seq<Event>, i: nat)
    requires History(tr, events) && i <= |events| && AllHarmless(tr, events, i)
    ensures Current(tr[i])
  {
    if i > 0 {
      HarmlessStaysCurrent(tr, events, i - 1);
      AlwaysSane(tr, events, i - 1);
      CurrentExactly(tr[i - 1], events[i - 1]);
    }
  }

  /** Throughout a history every tenant is answered as by a read at that moment, on all but
      the health fields, if and only if each load stores what a read then still gives (or
      what has expired) and each unannounced write contradicts no live entry. */
  lemma CacheIsCoherentExactly(tr: seq<System>, events: seq<Event>)
    requires History(tr, events)
    ensures (forall i :: 0 <= i < |tr| ==> AnswersAs(tr[i].pool, tr[i].db, tr[i].clock))
            <==> AllHarmless(tr, events, |events|)
  {
    if AllHarmless(tr, events, |events|) {
      forall i | 0 <= i < |tr| ensures AnswersAs(tr[i].pool, tr[i].db, tr[i].clock) {
        HarmlessStaysCurrent(tr, events, i);
        AnswersAreEntries(tr[i].pool, tr[i].db, tr[i].clock);
      }
    } else {
      var i :| 0 <= i < |events| && !Harmless(tr[i], events[i]);
      AlwaysSane(tr, events, i);
      AnswersAreEntries(tr[i].pool, tr[i].db, tr[i].clock);
      AnswersAreEntries(tr[i + 1].pool, tr[i + 1].db, tr[i + 1].clock);
      if Current(tr[i]) {
        CurrentExactly(tr[i], events[i]);
      }
    }
  }

  // ---------------------------------------------------------------- where an entry comes from

  predicate Renews(e: Event, n: nat, token: string) {
    e.Refresh? && e.n == n && e.token == token
  }

  /** `p` is load `n`, begun by the read at step `j`, as it stands after `i` steps: what was
      read, with the credentials stored then or a token renewed since. */
  ghost predicate ReadAt(tr: seq<System>, events: seq<Event>, j: nat, i: nat, n: nat, p: Pending)
    requires |tr| == |events| + 1 && i < |tr|
  {
    && j < i && events[j] == Fetch(p.id) && n == |tr[j].loads| && Present(tr[j].db, p.id)
    && var read := tr[j].db[p.id];
       && p.decrypted == read.decrypted
       && p.transport.(credentials := "") == read.public.(configId := p.id, credentials := "")
       && (p.stage != Fetched ==>
             read.decrypted == Some(p.transport.credentials)
             || exists q {:trigger events[q]} :: j < q < i && Renews(events[q], n, p.transport.credentials))
  }

  lemma LoadsGoOn(s: System, e: Event, n: nat)
    requires Listed(s.pool) && Possible(s, e) && n < |s.loads|
    ensures n < |After(s, e).loads|
    ensures var p, q := s.loads[n], After(s, e).loads[n];
            && q.id == p.id && q.decrypted == p.decrypted
            && q.transport.(credentials := "") == p.transport.(credentials := "")
            && (q == p || (p.stage == Ready && q == p.(stage := Stored))
                || (e == Decrypt(n) && p.decrypted == Some(q.transport.credentials))
                || Renews(e, n, q.transport.credentials))
  {
  }

  lemma OnlyFetchBegins(s: System, e: Event, n: nat)
    requires Listed(s.pool) && Possible(s, e) && |s.loads| <= n < |After(s, e).loads|
    ensures e.Fetch? && n == |s.loads|
    ensures After(s, e).loads[n] == Pending(e.id, s.db[e.id].public.(configId := e.id), s.db[e.id].decrypted, Fetched)
  {
    match e
    case Fetch(_) =>
    case _ =>
  }

  lemma {:induction false} EveryLoadWasRead(tr: seq<System>, events: seq<Event>, i: nat, n: nat) returns (j: nat)
    requires History(tr, events) && i < |tr| && n < |tr[i].loads|
    ensures ReadAt(tr, events, j, i, n, tr[i].loads[n])
  {
    var e, before := events[i - 1], tr[i - 1];
    if n < |before.loads| {
      j := EveryLoadWasRead(tr, events, i - 1, n);
      LoadsGoOn(before, e, n);
      var p, q := before.loads[n], tr[i].loads[n];
      if q.stage != Fetched && tr[j].db[p.id].decrypted != Some(q.transport.credentials) {
        if !Renews(e, n, q.transport.credentials) {
          var m {:trigger events[m]} :| j < m < i - 1 && Renews(events[m], n, p.transport.credentials);
          assert Renews(events[m], n, q.transport.credentials);
        }
      }
    } else {
      OnlyFetchBegins(before, e, n);
      j := i - 1;
    }
  }

  /** The store at step `m` put entry `e` in the cache. */
  ghost predicate StoredAt(tr: seq<System>, events: seq<Event>, m: nat, i: nat, k: ConfigId, e: CacheEntry)
    requires |tr| == |events| + 1 && i < |tr|
  {
    && m < i && events[m].Store? && events[m].n < |tr[m].loads|
    && var p := tr[m].loads[events[m].n];
       p.stage == Ready && p.id == k && p.transport == e.transport && e.cachedAt == tr[m].clock
  }

  lemma EntriesComeFromStores(s: System, e: Event, k: ConfigId)
    requires Listed(s.pool) && Possible(s, e) && k in After(s, e).pool.entries
    ensures var entry := After(s, e).pool.entries[k];
            (k in s.pool.entries && s.pool.entries[k].transport == entry.transport
             && s.pool.entries[k].cachedAt == entry.cachedAt)
            || (e.Store? && var p := s.loads[e.n];
                p.id == k && p.transport == entry.transport && entry.cachedAt == s.clock)
  {
    if e.Cleanup? {
      SweepKeepsExactly(s.pool, s.pool.order, s.clock, k);
    }
  }

  lemma {:induction false} EveryEntryWasStored(tr: seq<System>, events: seq<Event>, i: nat, k: ConfigId)
    returns (m: nat)
    requires History(tr, events) && i < |tr| && k in tr[i].pool.entries
    ensures StoredAt(tr, events, m, i, k, tr[i].pool.entries[k])
  {
    var before, entry := tr[i - 1], tr[i].pool.entries[k];
    EntriesComeFromStores(before, events[i - 1], k);
    if k in before.pool.entries && before.pool.entries[k].transport == entry.transport
       && before.pool.entries[k].cachedAt == entry.cachedAt {
      m := EveryEntryWasStored(tr, events, i - 1, k);
    } else {
      m := i - 1;
    }
  }

  /** Whatever writes the cache is never told of, a hit hands out what one lookup read and
      then stored, no longer than TTL_MS ago, with the credentials as they were read or
      just renewed; and an OAuth token that carries an expiry has two more minutes. */
  lemma HitsAreFresh(tr: seq<System>, events: seq<Event>, i: nat, id: ConfigId) returns (j: nat, m: nat)
    requires History(tr, events) && i < |tr| && Hit(tr[i].pool, id, tr[i].clock)
    ensures j < m < i && m < |events| && events[m] == Store(|tr[j].loads|)
    ensures tr[i].clock <= tr[m].clock + TTL_MS
    ensures |tr[j].loads| < |tr[m].loads| && tr[m].loads[|tr[j].loads|].transport == tr[i].pool.entries[id].transport
    ensures tr[m].loads[|tr[j].loads|].id == id
    ensures ReadAt(tr, events, j, m, |tr[j].loads|, tr[m].loads[|tr[j].loads|])
    ensures var t := tr[i].pool.entries[id].transport;
            t.authType == "oauth2" && t.tokenExpiresAt.GetOr(0) > 0 ==>
              tr[i].clock + TOKEN_MARGIN_MS < t.tokenExpiresAt.value
  {
    m := EveryEntryWasStored(tr, events, i, id);
    j := EveryLoadWasRead(tr, events, m, events[m].n);
  }

  // ---------------------------------------------------------------- what happens during a load

  /** The event changes, or evicts, what load `n` read: a write to its config by anyone else,
      or its own renewal of a token whose expiry is not stated. */
  predicate Crosses(s: System, e: Event, n: nat) {
    && n < |s.loads|
    && var p := s.loads[n];
       match e
       case Changed(id, _) => id == p.id
       case Deleted(id) => id == p.id
       case Refresh(m, _, _, _) =>
         if m == n then p.transport.tokenExpiresAt.GetOr(0) == 0 else m < |s.loads| && s.loads[m].id == p.id
       case Silent(db) => p.id !in s.db || p.id !in db || db[p.id] != s.db[p.id]
       case _ => false
  }

  /** An entry with this transport is expired from the start. */
  predicate Spent(t: Transport, now: Time) {
    t.authType == "oauth2" && 0 < t.tokenExpiresAt.GetOr(0) <= now + TOKEN_MARGIN_MS
  }

  predicate StillTrue(s: System, p: Pending) {
    match p.stage
    case Fetched =>
      && Present(s.db, p.id) && s.db[p.id].decrypted == p.decrypted
      && Agree(p.transport, s.db[p.id].public.(configId := p.id))
    case Ready => Mirrors(p.transport, Load(s.db, p.id)) || Spent(p.transport, s.clock)
    case Stored => true
  }

  lemma OwnStepStaysTrue(s: System, e: Event, n: nat)
    requires Listed(s.pool) && Possible(s, e) && n < |s.loads| && StillTrue(s, s.loads[n]) && !Crosses(s, e, n)
    requires e == Decrypt(n) || e == Store(n) || (e.Refresh? && e.n == n)
    ensures StillTrue(After(s, e), After(s, e).loads[n])
  {
  }

  lemma StaysTrue(s: System, e: Event, n: nat)
    requires Listed(s.pool) && Possible(s, e) && n < |s.loads| && StillTrue(s, s.loads[n]) && !Crosses(s, e, n)
    ensures n < |After(s, e).loads| && StillTrue(After(s, e), After(s, e).loads[n])
  {
    if e == Decrypt(n) || e == Store(n) || (e.Refresh? && e.n == n) {
      OwnStepStaysTrue(s, e, n);
    } else {
      var p, t := s.loads[n], After(s, e);
      assert t.loads[n] == p;
      assert p.id in s.db ==> p.id in t.db && (e.HealthNoted? || t.db[p.id] == s.db[p.id]);
    }
  }

  lemma {:induction false} TrueUpTo(tr: seq<System>, events: seq<Event>, j: nat, i: nat, n: nat)
    requires History(tr, events) && j < i < |tr| && events[j].Fetch? && n == |tr[j].loads|
    requires forall m {:trigger events[m]} :: j < m < i ==> !Crosses(tr[m], events[m], n)
    ensures n < |tr[i].loads| && StillTrue(tr[i], tr[i].loads[n])
  {
    if i == j + 1 {
      assert tr[i] == After(tr[j], events[j]);
    } else {
      TrueUpTo(tr, events, j, i - 1, n);
      StaysTrue(tr[i - 1], events[i - 1], n);
    }
  }

  /** A load that nothing crosses between its read and its store stores what a read then
      still gives, or what nobody will be served. */
  lemma UncrossedLoadIsCurrent(tr: seq<System>, events: seq<Event>, j: nat, i: nat)
    requires History(tr, events) && j < i < |events| && events[j].Fetch? && events[i] == Store(|tr[j].loads|)
    requires forall m {:trigger events[m]} :: j < m < i ==> !Crosses(tr[m], events[m], |tr[j].loads|)
    ensures Harmless(tr[i], events[i])
  {
    TrueUpTo(tr, events, j, i, |tr[j].loads|);
  }

  /** No load is crossed, and no unannounced write contradicts a live entry. */
  ghost predicate Undisturbed(tr: seq<System>, events: seq<Event>)
    requires History(tr, events)
  {
    && (forall j, m, i {:trigger events[j], events[m], events[i]} ::
          0 <= j < m < i < |events| && events[j].Fetch? && events[i] == Store(|tr[j].loads|)
          ==> !Crosses(tr[m], events[m], |tr[j].loads|))
    && (forall i {:trigger events[i]} :: 0 <= i < |events| && events[i].Silent? ==> Harmless(tr[i], events[i]))
  }

  /** Then at every moment each tenant's answer is what a tenant-checked read would give. */
  lemma CacheIsCoherent(tr: seq<System>, events: seq<Event>, i: nat, id: ConfigId, tenant: TenantId)
    requires History(tr, events) && i < |tr| && Undisturbed(tr, events)
    ensures Right(Guard(ResolveResult(tr[i].pool, tr[i].db, id, tr[i].clock), tenant), tr[i].db, id, tenant)
  {
    forall m {:trigger events[m]} | 0 <= m < |events| ensures Harmless(tr[m], events[m]) {
      if events[m].Store? {
        var j := EveryLoadWasRead(tr, events, m, events[m].n);
        UncrossedLoadIsCurrent(tr, events, j, m);
      }
    }
    CacheIsCoherentExactly(tr, events);
  }

  lemma {:induction false} ClockRuns(tr: seq<System>, events: seq<Event>, a: nat, b: nat)
    requires History(tr, events) && a <= b < |tr|
    ensures tr[a].clock <= tr[b].clock
  {
    if a < b {
      ClockRuns(tr, events, a, b - 1);
      assert tr[b] == After(tr[b - 1], events[b - 1]);
    }
  }

  /** A lookup that renews a token stores it under the old expiry, so that no later lookup
      is served from that entry. */
  lemma RenewedTokenIsNotServed(tr: seq<System>, events: seq<Event>, q: nat, i: nat, k: ConfigId)
    requires History(tr, events) && q < i < |tr| && events[q].Refresh? && Possible(tr[q], events[q])
    requires tr[q].loads[events[q].n].transport.tokenExpiresAt.GetOr(0) > 0
    requires k in tr[i].pool.entries
    requires var p := tr[q].loads[events[q].n];
             tr[i].pool.entries[k].transport == p.transport.(credentials := events[q].token)
    ensures !Hit(tr[i].pool, k, tr[i].clock)
  {
    ClockRuns(tr, events, q, i);
  }

  // ---------------------------------------------------------------- what goes wrong

  ghost predicate Reachable(s: System) {
    exists tr, events :: History(tr, events) && tr[|events|] == s
  }

  lemma Onwards(s: System, e: Event) returns (t: System)
    requires Reachable(s) && Listed(s.pool) && Possible(s, e)
    ensures t == After(s, e) && Reachable(t)
  {
    t := After(s, e);
    var tr, events :| History(tr, events) && tr[|events|] == s;
    var tr2, events2 := tr + [t], events + [e];
    forall i {:trigger events2[i]} | 0 <= i < |events2| ensures Leads(tr2[i], events2[i], tr2[i + 1]) {
      if i < |events| {
        assert Leads(tr[i], events[i], tr[i + 1]);
      }
    }
    assert History(tr2, events2) && tr2[|events2|] == t;
  }

  predicate Plain(c: Config) {
    c.hasCredentials && c.decrypted.Some? && c.public.authType != "oauth2"
  }

  /** One config, read and decrypted by a lookup that has not stored it yet. */
  function LoadUnderWay(id: ConfigId, c: Config): System
    requires Plain(c)
  {
    System(EMPTY, map[id := c], 0, [Pending(id, Load(map[id := c], id).value, c.decrypted, Ready)])
  }

  lemma LoadGetsUnderWay(id: ConfigId, c: Config)
    requires id != "" && Plain(c)
    ensures Reachable(LoadUnderWay(id, c))
  {
    assert History([START], []);
    var s := Onwards(START, Created(id, c));
    s := Onwards(s, Fetch(id));
    s := Onwards(s, Decrypt(0));
  }

  lemma FirstStore(s: System, id: ConfigId, t: Transport)
    requires s.pool.entries == map[] && Listed(s.pool) && t.authType != "oauth2"
    requires |s.loads| == 1 && s.loads[0] == Pending(id, t, s.loads[0].decrypted, Ready) && s.clock == 0
    ensures After(s, Store(0)).pool.entries == map[id := CacheEntry(t, 0, 0)]
  {
    assert |s.pool.entries| == 0;
  }

  /** For the next 30 minutes the cache answers with a status the database no longer has. */
  ghost predicate ServesOldStatus(s: System, id: ConfigId, was: string) {
    forall now: Time :: now <= TTL_MS ==>
      var served, read := ResolveResult(s.pool, s.db, id, now), Load(s.db, id);
      served.Some? && read.Some? && served.value.status == was && read.value.status != was
  }

  lemma OnlyEntryIsServed(s: System, id: ConfigId, t: Transport)
    requires s.pool.entries == map[id := CacheEntry(t, 0, 0)] && t.authType != "oauth2"
    requires Load(s.db, id).Some? && Load(s.db, id).value.status != t.status
    ensures ServesOldStatus(s, id, t.status)
  {
  }

  /** An update whose eviction finds the load still under way is lost: the old config is
      stored after it, and served for the next 30 minutes. */
  lemma EvictionDuringLoadIsLost(id: ConfigId, c: Config, updated: Config)
    requires id != "" && Plain(c) && Plain(updated) && c.public.status != updated.public.status
    ensures exists s, t :: Reachable(t) && ServesOldStatus(t, id, c.public.status)
                           && Leads(LoadUnderWay(id, c), Changed(id, updated), s) && Leads(s, Store(0), t)
  {
    LoadGetsUnderWay(id, c);
    var s := Onwards(LoadUnderWay(id, c), Changed(id, updated));
    FirstStore(s, id, Load(map[id := c], id).value);
    var t := Onwards(s, Store(0));
    OnlyEntryIsServed(t, id, Load(map[id := c], id).value);
    assert Leads(LoadUnderWay(id, c), Changed(id, updated), s) && Leads(s, Store(0), t);
  }

  /** The announcement is needed: the reconnect action marks a config `error` and emits
      nothing when its check fails, and a cached config keeps its old status till it expires. */
  lemma SilentStatusChangeIsServed(id: ConfigId, c: Config)
    requires id != "" && Plain(c) && c.public.status == "active"
    ensures exists s, t :: Reachable(t) && ServesOldStatus(t, id, "active") && Leads(LoadUnderWay(id, c), Store(0), s)
                           && Leads(s, Silent(map[id := c.(public := c.public.(status := "error"))]), t)
  {
    LoadGetsUnderWay(id, c);
    FirstStore(LoadUnderWay(id, c), id, Load(map[id := c], id).value);
    var s := Onwards(LoadUnderWay(id, c), Store(0));
    var t := Onwards(s, Silent(map[id := c.(public := c.public.(status := "error"))]));
    OnlyEntryIsServed(t, id, Load(map[id := c], id).value);
    assert Leads(LoadUnderWay(id, c), Store(0), s);
    assert Leads(s, Silent(map[id := c.(public := c.public.(status := "error"))]), t);
  }
}
