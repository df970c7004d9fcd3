/**
 The two-level cache as an object updated in place and the entitlement service that reads through it, one
 caller at a time, whichever Redis commands of a call fail.
 */
module EntitlementCache {
  import opened Common
  import opened BillingModel
  import opened CachedReads

  datatype Entry<V> = Entry(value: V, expiresAt: Time)

  // ----- the local map, as an insertion-ordered list -----

  type LocalMap<V> = seq<(nat, Entry<V>)>

  function Lookup<V>(local: LocalMap<V>, key: nat): Option<Entry<V>> {
    if local == [] then None else if local[0].0 == key then Some(local[0].1) else Lookup(local[1..], key)
  }

  function Without<V>(local: LocalMap<V>, key: nat): LocalMap<V> {
    if local == [] then [] else if local[0].0 == key then Without(local[1..], key)
       else [local[0]] + Without(local[1..], key)
  }

  /** Setting a present key keeps its place, setting a new key appends it. */
  function Assigned<V>(local: LocalMap<V>, key: nat, e: Entry<V>): LocalMap<V> {
    if local == [] then [(key, e)] else if local[0].0 == key then [(key, e)] + local[1..]
       else [local[0]] + Assigned(local[1..], key, e)
  }

  /** Room is made before every store, by dropping the entry inserted first. */
  function StoredLocally<V>(local: LocalMap<V>, maxEntries: int, key: nat, e: Entry<V>): LocalMap<V> {
    Assigned(if |local| >= maxEntries && local != [] then local[1..] else local, key, e)
  }

  ghost predicate DistinctKeys<V>(local: LocalMap<V>) {
    forall i, j :: 0 <= i < j < |local| ==> local[i].0 != local[j].0
  }

  function Capacity(maxEntries: int): nat {
    if maxEntries < 1 then 1 else maxEntries
  }

  lemma {:induction false} LookupFinds<V>(local: LocalMap<V>, key: nat)
    ensures Lookup(local, key).Some? <==> exists i :: 0 <= i < |local| && local[i].0 == key
    ensures Lookup(local, key).Some? ==> (key, Lookup(local, key).value) in local
    ensures DistinctKeys(local) ==> forall i :: 0 <= i < |local| && local[i].0 == key ==>
            Lookup(local, key) == Some(local[i].1)
  {
    if local != [] {
      LookupFinds(local[1..], key);
      assert forall i :: 0 < i < |local| ==> local[i] == local[1..][i - 1];
    }
  }

  lemma {:induction false} WithoutForgets<V>(local: LocalMap<V>, key: nat)
    ensures var r := Without(local, key);
            && |r| <= |local| && Lookup(r, key).None?
            && (forall other | other != key :: Lookup(r, other) == Lookup(local, other))
            && (DistinctKeys(local) ==> DistinctKeys(r))
            && (forall x :: x in r ==> x in local)
  {
    if local != [] {
      WithoutForgets(local[1..], key);
      var r := Without(local[1..], key);
      assert forall i :: 0 <= i < |r| ==> r[i] in local[1..];
      assert DistinctKeys(local) ==> DistinctKeys(local[1..]);
      if DistinctKeys(local) {
        forall x | x in local[1..] ensures x.0 != local[0].0 {
          var i :| 0 <= i < |local[1..]| && local[1..][i] == x;
          assert local[i + 1] == x;
        }
      }
    }
  }

  lemma {:induction false} AssignedKeeps<V>(local: LocalMap<V>, key: nat, e: Entry<V>)
    ensures var r := Assigned(local, key, e);
            && |r| == |local| + (if Lookup(local, key).Some? then 0 else 1)
            && Lookup(r, key) == Some(e)
            && (forall other | other != key :: Lookup(r, other) == Lookup(local, other))
            && (forall i :: 0 <= i < |local| ==> r[i].0 == local[i].0)
            && (|r| > |local| ==> r[|local|].0 == key)
  {
    if local != [] {
      AssignedKeeps(local[1..], key, e);
      var r := Assigned(local, key, e);
      if local[0].0 == key {
        assert r[1..] == local[1..];
      } else {
        assert r[1..] == Assigned(local[1..], key, e);
        assert forall i :: 0 <= i < |local[1..]| ==> r[i + 1].0 == local[1..][i].0;
      }
    }
  }

  lemma AssignedStaysDistinct<V>(local: LocalMap<V>, key: nat, e: Entry<V>)
    requires DistinctKeys(local)
    ensures DistinctKeys(Assigned(local, key, e))
  {
    AssignedKeeps(local, key, e);
    LookupFinds(local, key);
    hide Assigned, Lookup;
  }

  /**
   Storing keeps the map within its size, and of the other entries loses at most the one inserted
   first, and that one only when the map was full.
   */
  lemma StoringEvictsTheOldest<V>(local: LocalMap<V>, maxEntries: int, key: nat, e: Entry<V>)
    requires DistinctKeys(local) && |local| <= Capacity(maxEntries)
    ensures var r := StoredLocally(local, maxEntries, key, e);
            && DistinctKeys(r) && |r| <= Capacity(maxEntries)
            && Lookup(r, key) == Some(e)
            && (forall other | other != key ::
                  Lookup(r, other) == if |local| >= maxEntries && local != [] && other == local[0].0 then None
                    else Lookup(local, other))
  {
    var rest := if |local| >= maxEntries && local != [] then local[1..] else local;
    AssignedKeeps(rest, key, e);
    AssignedStaysDistinct(rest, key, e);
    if local != [] {
      assert forall i :: 0 <= i < |local[1..]| ==> local[1..][i].0 != local[0].0;
      LookupFinds(local[1..], local[0].0);
    }
  }

  class DistributedCache<V> {
    const maxEntries: int
    const localTtl: nat
    const redisTtl: nat
    var local: LocalMap<V>
    var redis: map<nat, Entry<V>>
    var localHits: nat
    var redisHits: nat
    var misses: nat

    ghost predicate Valid()
      reads this
    {
      DistinctKeys(local) && |local| <= Capacity(maxEntries)
    }

    predicate LocalHit(key: nat, now: Time)
      reads this
    {
      Lookup(local, key).Some? && Lookup(local, key).value.expiresAt > now
    }

    predicate RedisHit(key: nat, now: Time)
      reads this
    {
      key in redis && redis[key].expiresAt > now
    }

    constructor (maxEntries: int, localTtl: nat, redisTtl: nat)
      ensures Valid() && local == [] && redis == map[]
      ensures this.maxEntries == maxEntries && this.localTtl == localTtl && this.redisTtl == redisTtl
    {
      this.maxEntries, this.localTtl, this.redisTtl := maxEntries, localTtl, redisTtl;
      local, redis := [], map[];
      localHits, redisHits, misses := 0, 0, 0;
    }

    method SetLocal(key: nat, value: V, now: Time)
      requires Valid()
      modifies this`local
      ensures Valid()
      ensures local == StoredLocally(old(local), maxEntries, key, Entry(value, now + localTtl))
    {
      StoringEvictsTheOldest(local, maxEntries, key, Entry(value, now + localTtl));
      if |local| >= maxEntries {
        if |local| > 0 {
          local := local[1..];
        }
      }
      local := Assigned(local, key, Entry(value, now + localTtl));
    }

    /**
     The cached value, or the loader's.  `loaded` is what the loader returns at `now`; the loader only
     reads, so its value is fixed before the call, and `misses` counts the calls that ran it.  A fault of
     Redis is not an error: a failed read is a miss there, a failed write leaves Redis as it was.
     */
    method GetOrLoad(key: nat, loaded: V, readFails: bool, writeFails: bool, now: Time) returns (value: V)
      requires Valid()
      modifies this
      ensures Valid()
      ensures var copy := Lookup(old(local), key);
              if copy.Some? && now < copy.value.expiresAt then
                value == copy.value.value && local == old(local) && redis == old(redis)
                && misses == old(misses)
              else if !readFails && key in old(redis) && now < old(redis)[key].expiresAt then
                value == old(redis)[key].value && redis == old(redis) && misses == old(misses)
                && local == StoredLocally(old(local), maxEntries, key, Entry(value, now + localTtl))
              else
                value == loaded && misses == old(misses) + 1
                && redis == (if writeFails then old(redis) else old(redis)[key := Entry(loaded, now + redisTtl)])
                && local == StoredLocally(old(local), maxEntries, key, Entry(loaded, now + localTtl))
    {
      var found := Lookup(local, key);
      if found.Some? && found.value.expiresAt > now {
        localHits := localHits + 1;
        return found.value.value;
      }
      if !readFails && key in redis && redis[key].expiresAt > now {
        redisHits := redisHits + 1;
        value := redis[key].value;
        SetLocal(key, value, now);
        return;
      }
      misses := misses + 1;
      SetLocal(key, loaded, now);
      if !writeFails {
        redis := redis[key := Entry(loaded, now + redisTtl)];
      }
      value := loaded;
    }

    /** Drop the local copy, and the one in Redis unless Redis fails. */
    method Invalidate(key: nat, deleteFails: bool)
      requires Valid()
      modifies this`local, this`redis
      ensures Valid()
      ensures local == Without(old(local), key) && redis == if deleteFails then old(redis) else old(redis) - {key}
      ensures Lookup(local, key).None?
    {
      WithoutForgets(local, key);
      local := Without(local, key);
      if !deleteFails {
        redis := redis - {key};
      }
    }
  }

  // ----- the entitlement service -----

  /**
   A copy loaded at `loadedAt` whose boundary has not passed says nothing that is no longer true, and
   all that is true exactly when nothing visible now started after the load.
   */
  lemma YoungCopyIsSound(rows: map<RowKey, Row>, loadedAt: Time, boundary: Option<Time>, now: Time)
    requires loadedAt <= now && IsBoundary(Visible(rows, loadedAt), boundary) && OpenAt(boundary, now)
    ensures forall k :: k in Visible(rows, loadedAt) ==>
            k in Visible(rows, now) && Visible(rows, now)[k] == Visible(rows, loadedAt)[k]
    ensures Visible(rows, loadedAt) == Visible(rows, now) <==> forall k :: k in Visible(rows, now) ==>
            rows[k].startsAt <= loadedAt
  {
    var copy := Visible(rows, loadedAt);
    var direct := Visible(rows, now);
    forall k | k in copy
      ensures k in direct && direct[k] == copy[k]
    {
      assert OpenAt(rows[k].endsAt, now);
    }
    if forall k :: k in direct ==> rows[k].startsAt <= loadedAt {
      forall k | k in direct
        ensures k in copy
      {
        assert OpenAt(rows[k].endsAt, loadedAt);
      }
      assert copy == direct;
    }
  }

  lemma BoundaryStep(seen: map<RowKey, Row>, k: RowKey, r: Row, boundary: Option<Time>)
    requires k !in seen && IsBoundary(seen, boundary)
    ensures IsBoundary(seen[k := r],
              if r.endsAt.Some? && (boundary.None? || r.endsAt.value < boundary.value) then r.endsAt else boundary)
  {
    var seen' := seen[k := r];
    if boundary.Some? {
      var other :| other in seen && seen[other].endsAt == boundary;
      assert other in seen' && seen'[other].endsAt == boundary;
    }
    assert k in seen' && seen'[k] == r;
  }

  /** An active row says its feature between its start and its end. */
  predicate Says(r: Row, at: Time) {
    r.status == RowActive && r.startsAt <= at && (r.endsAt == None || at < r.endsAt.value)
  }

  /** The answer is what the rows say at that instant, row by row. */
  ghost predicate Answered(entitlements: map<RowKey, Row>, rows: map<RowKey, Row>, at: Time) {
    && (forall k :: k in entitlements <==> k in rows && Says(rows[k], at))
    && forall k :: k in entitlements ==> entitlements[k] == rows[k]
  }

  lemma VisibleAnswers(entitlements: map<RowKey, Row>, rows: map<RowKey, Row>, at: Time)
    ensures Answered(entitlements, rows, at) <==> entitlements == Visible(rows, at)
  {
    if Answered(entitlements, rows, at) {
      assert entitlements.Keys == Visible(rows, at).Keys;
    }
  }

  /** `entitlements` are the rows as of `t`, and as of `now` too exactly when nothing started in between. */
  ghost predicate LoadedThen(entitlements: map<RowKey, Row>, rows: map<RowKey, Row>, t: Time, now: Time) {
    && Answered(entitlements, rows, t)
    && (Answered(entitlements, rows, now) <==> forall k :: k in rows && Says(rows[k], now) ==> rows[k].startsAt <= t)
  }

  /** All that is answered is still said now. */
  ghost predicate NothingLapsed(entitlements: map<RowKey, Row>, rows: map<RowKey, Row>, now: Time) {
    forall k :: k in entitlements ==> k in rows && entitlements[k] == rows[k] && Says(rows[k], now)
  }

  lemma YoungCopyAnswers(rows: map<RowKey, Row>, s: Snapshot, now: Time)
    requires s.cachedAt <= now && s.entitlements == Visible(rows, s.cachedAt) && IsBoundary(s.entitlements, s.boundary)
    requires OpenAt(s.boundary, now)
    ensures NothingLapsed(s.entitlements, rows, now) && LoadedThen(s.entitlements, rows, s.cachedAt, now)
  {
    YoungCopyIsSound(rows, s.cachedAt, s.boundary, now);
    VisibleAnswers(s.entitlements, rows, s.cachedAt);
    VisibleAnswers(s.entitlements, rows, now);
    assert forall k :: k in Visible(rows, now) <==> k in rows && Says(rows[k], now);
    hide IsBoundary, Answered;
  }

  /** A snapshot just loaded has not passed its boundary. */
  lemma FreshCopyIsYoung(rows: map<RowKey, Row>, s: Snapshot)
    requires s.entitlements == Visible(rows, s.cachedAt) && IsBoundary(s.entitlements, s.boundary)
    ensures OpenAt(s.boundary, s.cachedAt)
  {
  }

  /** Which of the Redis commands of one call fail. */
  datatype Faults = Faults(
    readFails: bool, writeFails: bool, deleteFails: bool, readAgainFails: bool, writeAgainFails: bool)

  /** The snapshot holds the rows a guild had under its version, as they were visible when it was loaded. */
  ghost predicate LoadedFrom(past: map<(GuildId, nat), map<RowKey, Row>>, clock: Time, g: GuildId, s: Snapshot) {
    && (g, s.version) in past && s.entitlements == Visible(past[(g, s.version)], s.cachedAt)
    && IsBoundary(s.entitlements, s.boundary) && s.cachedAt <= clock
  }

  /** Every guild's present rows are recorded under its version, which no recorded version exceeds. */
  ghost predicate Recorded(guilds: map<GuildId, GuildView>, past: map<(GuildId, nat), map<RowKey, Row>>) {
    && (forall g :: g in guilds ==> (g, guilds[g].version) in past && past[(g, guilds[g].version)] == guilds[g].rows)
    && (forall p :: p in past ==> p.0 in guilds && p.1 <= guilds[p.0].version)
  }

  /** Every copy, local or in Redis, was loaded from the rows of its guild. */
  ghost predicate CopiesLoaded(past: map<(GuildId, nat), map<RowKey, Row>>, clock: Time, local: LocalMap<Snapshot>,
      redis: map<nat, Entry<Snapshot>>) {
    && (forall g: GuildId :: Lookup(local, g).Some? ==> LoadedFrom(past, clock, g, Lookup(local, g).value.value))
    && (forall g: GuildId :: g in redis ==> LoadedFrom(past, clock, g, redis[g].value))
  }

  lemma CommitRecorded(guilds: map<GuildId, GuildView>, past: map<(GuildId, nat), map<RowKey, Row>>, g: GuildId,
      view: GuildView)
    requires Recorded(guilds, past) && (g in guilds ==> view.version > guilds[g].version)
    ensures (g, view.version) !in past && Recorded(guilds[g := view], past[(g, view.version) := view.rows])
  {
  }

  lemma CopiesStayLoaded(past: map<(GuildId, nat), map<RowKey, Row>>, past': map<(GuildId, nat), map<RowKey, Row>>,
      clock: Time, local: LocalMap<Snapshot>, redis: map<nat, Entry<Snapshot>>)
    requires CopiesLoaded(past, clock, local, redis)
    requires forall p :: p in past ==> p in past' && past'[p] == past[p]
    ensures CopiesLoaded(past', clock, local, redis)
  {
    hide Visible, IsBoundary, Lookup;
  }

  class EntitlementService {
    const cache: DistributedCache<Snapshot>
    const ttl: nat
    /** The database: each guild's entitlement version and rows. */
    var guilds: map<GuildId, GuildView>
    /** The rows of every guild under every version it has had. */
    ghost var past: map<(GuildId, nat), map<RowKey, Row>>
    ghost var clock: Time

    ghost predicate Genuine(g: GuildId, s: Snapshot)
      reads this
    {
      LoadedFrom(past, clock, g, s)
    }

    ghost predicate Valid()
      reads this, cache
    {
      cache.Valid() && Recorded(guilds, past) && CopiesLoaded(past, clock, cache.local, cache.redis)
    }

    constructor (cache: DistributedCache<Snapshot>, ttl: nat)
      requires cache.Valid() && cache.local == [] && cache.redis == map[]
      ensures Valid() && guilds == map[] && this.cache == cache && this.ttl == ttl
    {
      this.cache, this.ttl := cache, ttl;
      guilds, past, clock := map[], map[], 0;
    }

    /** A transaction that changes a guild's rows: it raises the guild's version. */
    method Commit(g: GuildId, rows: map<RowKey, Row>)
      requires Valid()
      modifies this`guilds, this`past
      ensures Valid()
      ensures g in guilds && guilds == old(guilds)[g := guilds[g]] && guilds[g].rows == rows
      ensures g in old(guilds) ==> guilds[g].version == old(guilds)[g].version + 1
    {
      var version := if g in guilds then guilds[g].version + 1 else 1;
      guilds := guilds[g := GuildView(version, rows)];
      past := past[(g, version) := rows];
      CommitRecorded(old(guilds), old(past), g, GuildView(version, rows));
      CopiesStayLoaded(old(past), past, clock, cache.local, cache.redis);
      hide Recorded, CopiesLoaded;
    }

    method LoadDatabaseSnapshot(g: GuildId, at: Time, now: Time) returns (s: Option<Snapshot>)
      ensures s.Some? <==> g in guilds
      ensures s.Some? ==> Answered(s.value.entitlements, guilds[g].rows, at)
      ensures s.Some? ==> s.value.version == guilds[g].version && s.value.cachedAt == now
                          && s.value.entitlements == Visible(guilds[g].rows, at)
                             && IsBoundary(s.value.entitlements, s.value.boundary)
    {
      if g !in guilds {
        return None;
      }
      var records := Visible(guilds[g].rows, at);
      var boundary: Option<Time> := None;
      var todo := records.Keys;
      ghost var seen: map<RowKey, Row> := map[];
      while todo != {}
        invariant todo <= records.Keys && seen == map k | k in records && k !in todo :: records[k]
        invariant IsBoundary(seen, boundary)
        decreases |todo|
      {
        var k :| k in todo;
        BoundaryStep(seen, k, records[k], boundary);
        var end := records[k].endsAt;
        if end.Some? && (boundary.None? || end.value < boundary.value) {
          boundary := end;
        }
        seen := seen[k := records[k]];
        todo := todo - {k};
      }
      assert seen == records;
      VisibleAnswers(records, guilds[g].rows, at);
      hide Visible, IsBoundary, Answered;
      s := Some(Snapshot(guilds[g].version, now, boundary, records));
    }

    /** The copy a pass through the cache finds, if it need not load. */
    ghost function Cached(g: GuildId, readFails: bool, now: Time): Option<Snapshot>
      reads cache
    {
      if cache.LocalHit(g, now) then Some(Lookup(cache.local, g).value.value)
      else if !readFails && cache.RedisHit(g, now) then Some(cache.redis[g].value)
      else None
    }

    /** The copy is of another version, has lapsed or is too old. */
    predicate Unusable(g: GuildId, s: Snapshot, now: Time)
      requires g in guilds
      reads this
    {
      s.version != guilds[g].version || (s.boundary.Some? && s.boundary.value <= now) || now - s.cachedAt > ttl
    }

    /**
     The one case in which an unusable copy is answered: a copy is found unusable, deleting the one in Redis
     fails, reading it again does not, and it is alive there and unusable too.
     */
    ghost predicate AnswersUnusable(g: GuildId, faults: Faults, now: Time)
      requires g in guilds
      reads this, cache
    {
      && Cached(g, faults.readFails, now).Some? && Unusable(g, Cached(g, faults.readFails, now).value, now)
      && faults.deleteFails && !faults.readAgainFails && cache.RedisHit(g, now)
         && Unusable(g, cache.redis[g].value, now)
    }

    lemma GenuineMeans(g: GuildId, s: Snapshot)
      requires Valid() && Genuine(g, s)
      ensures s.cachedAt <= clock && IsBoundary(s.entitlements, s.boundary)
      ensures g in guilds && s.version == guilds[g].version ==> s.entitlements == Visible(guilds[g].rows, s.cachedAt)
    {
    }

    /** What a genuine copy under the present version answers; a usable one is young and has not lapsed. */
    lemma GenuineAnswers(g: GuildId, s: Snapshot, now: Time)
      requires Valid() && Genuine(g, s) && g in guilds && s.version == guilds[g].version && clock <= now
      ensures s.cachedAt <= now && Answered(s.entitlements, guilds[g].rows, s.cachedAt)
      ensures !Unusable(g, s, now) ==>
                && NothingLapsed(s.entitlements, guilds[g].rows, now) && now - ttl <= s.cachedAt
                && LoadedThen(s.entitlements, guilds[g].rows, s.cachedAt, now)
    {
      GenuineMeans(g, s);
      VisibleAnswers(s.entitlements, guilds[g].rows, s.cachedAt);
      hide Genuine, Visible, IsBoundary, LoadedThen, NothingLapsed, Answered;
      if !Unusable(g, s, now) {
        YoungCopyAnswers(guilds[g].rows, s, now);
      }
    }

    /** One pass through the cache. */
    method Read(g: GuildId, loaded: Snapshot, readFails: bool, writeFails: bool, now: Time) returns (s: Snapshot)
      requires Valid() && Genuine(g, loaded)
      modifies cache
      ensures Valid() && Genuine(g, s)
      ensures var copy := old(Cached(g, readFails, now));
              if copy.Some? then s == copy.value && cache.redis == old(cache.redis) else s == loaded
    {
      if Lookup(cache.local, g).None? || Lookup(cache.local, g).value.expiresAt <= now {
        var value := if !readFails && cache.RedisHit(g, now) then cache.redis[g].value else loaded;
        StoringEvictsTheOldest(cache.local, cache.maxEntries, g, Entry(value, now + cache.localTtl));
      }
      s := cache.GetOrLoad(g, loaded, readFails, writeFails, now);
    }

    /** Drop the guild's copies. */
    method Forget(g: GuildId, deleteFails: bool)
      requires Valid()
      modifies cache
      ensures Valid() && Lookup(cache.local, g).None?
      ensures if deleteFails then cache.redis == old(cache.redis) else g !in cache.redis
    {
      WithoutForgets(cache.local, g);
      cache.Invalidate(g, deleteFails);
    }

    /** Read through the cache, and once more when the copy is of another version, lapsed or too old. */
    method ReadUsable(g: GuildId, loaded: Snapshot, faults: Faults, now: Time) returns (s: Snapshot)
      requires Valid() && Genuine(g, loaded) && g in guilds
      requires loaded.version == guilds[g].version && loaded.cachedAt == now && OpenAt(loaded.boundary, now)
      modifies cache
      ensures Valid() && Genuine(g, s)
      ensures if old(AnswersUnusable(g, faults, now)) then s == old(cache.redis)[g].value else !Unusable(g, s, now)
      ensures var copy := old(Cached(g, faults.readFails, now));
              copy.Some? && !Unusable(g, copy.value, now) ==> s == copy.value && cache.redis == old(cache.redis)
    {
      s := Read(g, loaded, faults.readFails, faults.writeFails, now);
      hide Genuine, Lookup;
      if Unusable(g, s, now) {
        Forget(g, faults.deleteFails);
        s := Read(g, loaded, faults.readAgainFails, faults.writeAgainFails, now);
      }
    }

    /**
     The guild's entitlements, read through the cache when `at` is the present.  Whatever Redis does, the
     answer is nothing or what was visible under the present version at some instant before.  That instant is
     at most the configured age ago and nothing in the answer has lapsed, except in exactly one case, in which
     the copy that Redis still holds is answered.
     */
    method ListGuildEntitlements(g: GuildId, at: Time, faults: Faults,
        now: Time) returns (entitlements: map<RowKey, Row>)
      requires Valid() && clock <= now
      modifies this`clock, cache
      ensures Valid()
      ensures g !in guilds ==> entitlements == map[]
      ensures g in guilds && !(now - 1000 <= at <= now + 1000) ==> Answered(entitlements, guilds[g].rows, at)
      ensures g in guilds && now - 1000 <= at <= now + 1000 ==>
                entitlements == map[] || exists t: Time :: t <= now && Answered(entitlements, guilds[g].rows, t)
      ensures g in guilds && now - 1000 <= at <= now + 1000 ==>
                var copy := old(Cached(g, faults.readFails, now));
                copy.Some? && copy.value.version == guilds[g].version && now - copy.value.cachedAt <= ttl
                && (copy.value.boundary == None || now < copy.value.boundary.value) ==>
                  entitlements == copy.value.entitlements && cache.redis == old(cache.redis)
      ensures g in guilds && now - 1000 <= at <= now + 1000 ==>
                if old(AnswersUnusable(g, faults, now)) then
                  var copy := old(cache.redis)[g].value;
                  entitlements == if copy.version == guilds[g].version then copy.entitlements else map[]
                else
                  && NothingLapsed(entitlements, guilds[g].rows, now)
                  && exists t: Time :: now - ttl <= t <= now && LoadedThen(entitlements, guilds[g].rows, t, now)
    {
      if at < now - 1000 || now + 1000 < at {
        var direct := LoadDatabaseSnapshot(g, at, now);
        return if direct.Some? then direct.value.entitlements else map[];
      }
      if g !in guilds {
        return map[];
      }
      clock := now;
      var loaded := LoadDatabaseSnapshot(g, now, now);
      FreshCopyIsYoung(guilds[g].rows, loaded.value);
      hide Visible, IsBoundary, LoadedThen, NothingLapsed, Answered;
      var snapshot := ReadUsable(g, loaded.value, faults, now);
      if snapshot.version != guilds[g].version {
        return map[];
      }
      entitlements := snapshot.entitlements;
      GenuineAnswers(g, snapshot, now);
      hide Genuine;
    }
  }
}
