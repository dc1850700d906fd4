/**
 * The detail cache: slowly-changing attributes of a flight, keyed by the
 * flight id and stamped with the time they were stored. Entries expire
 * lazily on read; bulk sweeps remove expired and departed entries.
 *
 * Time is the explicit integer `now` (seconds).
 */
module DetailCache {
  import opened Wrappers

  /** The time-to-live the poller gives its cache, in seconds. */
  const DefaultTtl: int := 3600

  datatype CachedFlightDetails = CachedFlightDetails(
    flightId: string,
    aircraftType: string,
    airline: string,
    origin: string,
    destination: string,
    registration: Option<string>,
    cachedAt: int)
  {
    /** Strictly older than the time-to-live; an entry aged exactly `ttl` is still live. */
    predicate IsExpired(now: int, ttl: int) { now - cachedAt > ttl }
  }

  /** An entry stays live until its age passes the time-to-live: at age exactly `ttl` it is still live. */
  lemma ExpiryIsStrict(e: CachedFlightDetails, ttl: int, now: int)
    ensures e.IsExpired(now, ttl) <==> now > e.cachedAt + ttl
    ensures !e.IsExpired(e.cachedAt + ttl, ttl) && e.IsExpired(e.cachedAt + ttl + 1, ttl)
  {
  }

  /** The entry a read at time `now` reports: present and not expired. */
  function LookupIn(m: map<string, CachedFlightDetails>, id: string, now: int, ttl: int): (r: Option<CachedFlightDetails>)
    ensures r.Some? <==> id in m && !m[id].IsExpired(now, ttl)
    ensures r.Some? ==> r.value == m[id]
  {
    if id in m && !m[id].IsExpired(now, ttl) then Some(m[id]) else None
  }

  /** `m` after reading every id of `ids` at time `now`: the expired ones among them are gone. */
  function Evict(m: map<string, CachedFlightDetails>, ids: set<string>, now: int, ttl: int): (r: map<string, CachedFlightDetails>)
  {
    map k | k in m && !(k in ids && m[k].IsExpired(now, ttl)) :: m[k]
  }

  /** The ids of `ids` that a read reports as absent: never stored, or expired. */
  function MissingIn(m: map<string, CachedFlightDetails>, ids: set<string>, now: int, ttl: int): (r: set<string>)
  {
    set id | id in ids && LookupIn(m, id, now, ttl).None?
  }

  function ExpiredKeys(m: map<string, CachedFlightDetails>, now: int, ttl: int): (r: set<string>)
  {
    set k | k in m && m[k].IsExpired(now, ttl)
  }

  function DropExpired(m: map<string, CachedFlightDetails>, now: int, ttl: int): (r: map<string, CachedFlightDetails>)
  {
    map k | k in m && !m[k].IsExpired(now, ttl) :: m[k]
  }

  function Restrict(m: map<string, CachedFlightDetails>, ids: set<string>): (r: map<string, CachedFlightDetails>)
  {
    map k | k in m && k in ids :: m[k]
  }

  /** A read reports absent exactly the ids that were never stored or have expired. */
  lemma MissingInExactly(m: map<string, CachedFlightDetails>, ids: set<string>, now: int, ttl: int, id: string)
    ensures MissingIn(m, ids, now, ttl) <= ids
    ensures id in MissingIn(m, ids, now, ttl) <==> id in ids && (id !in m || m[id].IsExpired(now, ttl))
  {
  }

  /** Reads remove only expired entries among the ids read, and change no surviving entry. */
  lemma EvictRemovesOnlyExpired(m: map<string, CachedFlightDetails>, ids: set<string>, now: int, ttl: int)
    ensures Evict(m, ids, now, ttl).Keys == m.Keys - (ids * ExpiredKeys(m, now, ttl))
    ensures forall k :: k in Evict(m, ids, now, ttl) ==> Evict(m, ids, now, ttl)[k] == m[k]
  {
  }

  /** After the sweep no expired entry is left, and every live entry is kept as it was. */
  lemma DropExpiredLeavesOnlyLive(m: map<string, CachedFlightDetails>, now: int, ttl: int)
    ensures DropExpired(m, now, ttl).Keys == m.Keys - ExpiredKeys(m, now, ttl)
    ensures forall k :: k in DropExpired(m, now, ttl) ==> DropExpired(m, now, ttl)[k] == m[k] && !m[k].IsExpired(now, ttl)
  {
  }

  /** Reading ids that have already been read changes nothing more: evictions are cumulative. */
  lemma EvictAgain(m: map<string, CachedFlightDetails>, ids: set<string>, more: set<string>, now: int, ttl: int)
    ensures Evict(Evict(m, ids, now, ttl), more, now, ttl) == Evict(m, ids + more, now, ttl)
  {
    var a, b := Evict(Evict(m, ids, now, ttl), more, now, ttl), Evict(m, ids + more, now, ttl);
    assert a.Keys == b.Keys;
  }

  lemma MissingStep(m: map<string, CachedFlightDetails>, ids: set<string>, id: string, now: int, ttl: int)
    ensures MissingIn(m, ids + {id}, now, ttl)
            == MissingIn(m, ids, now, ttl) + (if LookupIn(m, id, now, ttl).None? then {id} else {})
  {
  }

  /** A read after evictions made at the same time reports what a read before them would have. */
  lemma LookupAfterEvict(m: map<string, CachedFlightDetails>, ids: set<string>, id: string, now: int, ttl: int)
    ensures LookupIn(Evict(m, ids, now, ttl), id, now, ttl) == LookupIn(m, id, now, ttl)
  {
  }

  /** An entry stored at `now` is read back unchanged at `now`, provided the time-to-live is not negative. */
  lemma StoredEntryIsLive(m: map<string, CachedFlightDetails>, id: string, e: CachedFlightDetails, now: int, ttl: int, other: string)
    requires e.cachedAt == now && ttl >= 0
    ensures LookupIn(m[id := e], id, now, ttl) == Some(e)
    ensures other != id ==> LookupIn(m[id := e], other, now, ttl) == LookupIn(m, other, now, ttl)
  {
  }

  /** The sweep is removal of the expired keys, and it removes exactly as many entries as there are of them. */
  lemma DropExpiredRemovesExpiredKeys(m: map<string, CachedFlightDetails>, now: int, ttl: int)
    ensures m - ExpiredKeys(m, now, ttl) == DropExpired(m, now, ttl)
    ensures |DropExpired(m, now, ttl)| == |m| - |ExpiredKeys(m, now, ttl)|
  {
    var e, d := ExpiredKeys(m, now, ttl), DropExpired(m, now, ttl);
    assert (m - e).Keys == d.Keys;
    assert d.Keys == m.Keys - e;
    SizeOfDifference(m.Keys, e);
    assert |d| == |d.Keys|;
  }

  lemma SizeOfDifference<K>(a: set<K>, b: set<K>)
    requires b <= a
    ensures |a - b| == |a| - |b|
  {
    assert a == (a - b) + b;
  }

  /** Counters reported by `stats`; the hit-rate percentage string is not modelled. */
  datatype CacheStats = CacheStats(size: nat, hits: nat, misses: nat)

  class FlightCache {
    var cache: map<string, CachedFlightDetails>
    const ttlSeconds: int
    var hits: nat
    var misses: nat

    constructor(ttlSeconds: int)
      ensures this.ttlSeconds == ttlSeconds
      ensures cache == map[] && hits == 0 && misses == 0
    {
      this.ttlSeconds := ttlSeconds;
      cache := map[];
      hits, misses := 0, 0;
    }

    /** `get`: lazy expiry, hit and miss counting. */
    method Get(flightId: string, now: int) returns (r: Option<CachedFlightDetails>)
      modifies this
      ensures r == LookupIn(old(cache), flightId, now, ttlSeconds)
      ensures cache == Evict(old(cache), {flightId}, now, ttlSeconds)
      ensures flightId !in old(cache) ==>
                r == None && cache == old(cache) && hits == old(hits) && misses == old(misses) + 1
      ensures flightId in old(cache) && old(cache)[flightId].IsExpired(now, ttlSeconds) ==>
                && r == None
                && cache == old(cache) - {flightId} && |cache| == |old(cache)| - 1
                && hits == old(hits) && misses == old(misses) + 1
      ensures flightId in old(cache) && !old(cache)[flightId].IsExpired(now, ttlSeconds) ==>
                r == Some(old(cache)[flightId]) && cache == old(cache) && hits == old(hits) + 1 && misses == old(misses)
    {
      if flightId !in cache {
        misses := misses + 1;
        assert cache == Evict(cache, {flightId}, now, ttlSeconds);
        return None;
      }
      var entry := cache[flightId];
      if entry.IsExpired(now, ttlSeconds) {
        assert cache - {flightId} == Evict(cache, {flightId}, now, ttlSeconds);
        cache := cache - {flightId};
        misses := misses + 1;
        return None;
      }
      assert cache == Evict(cache, {flightId}, now, ttlSeconds);
      hits := hits + 1;
      r := Some(entry);
    }

    /** `put`: store unconditionally, overwriting any previous entry, stamped with `now`. */
    method Put(flightId: string, aircraftType: string, airline: string, origin: string,
               destination: string, registration: Option<string>, now: int)
      modifies this
      ensures cache == old(cache)[flightId := CachedFlightDetails(flightId, aircraftType, airline, origin, destination, registration, now)]
      ensures hits == old(hits) && misses == old(misses)
    {
      cache := cache[flightId := CachedFlightDetails(flightId, aircraftType, airline, origin, destination, registration, now)];
    }

    /** `get_missing_ids`: `get` on every candidate, collecting those it reports absent. */
    method GetMissingIds(flightIds: set<string>, now: int) returns (missing: set<string>)
      modifies this
      ensures missing == MissingIn(old(cache), flightIds, now, ttlSeconds)
      ensures cache == Evict(old(cache), flightIds, now, ttlSeconds)
      ensures hits + misses == old(hits) + old(misses) + |flightIds|
      ensures misses == old(misses) + |missing|
    {
      missing := {};
      var todo := flightIds;
      assert MissingIn(old(cache), {}, now, ttlSeconds) == {};
      ghost var done: set<string> := {};
      assert cache == Evict(cache, {}, now, ttlSeconds);
      while todo != {}
        invariant todo + done == flightIds && todo !! done
        invariant missing == MissingIn(old(cache), done, now, ttlSeconds)
        invariant cache == Evict(old(cache), done, now, ttlSeconds)
        invariant hits + misses == old(hits) + old(misses) + |done|
        invariant misses == old(misses) + |missing|
        decreases todo
      {
        var fid :| fid in todo;
        LookupAfterEvict(old(cache), done, fid, now, ttlSeconds);
        EvictAgain(old(cache), done, {fid}, now, ttlSeconds);
        MissingStep(old(cache), done, fid, now, ttlSeconds);
        assert |done + {fid}| == |done| + 1;
        var entry := Get(fid, now);
        if entry == None {
          assert fid !in missing;
          missing := missing + {fid};
        }
        todo := todo - {fid};
        done := done + {fid};
      }
    }

    /** `cleanup_expired`: remove every expired entry and report how many. */
    method CleanupExpired(now: int) returns (removed: nat)
      modifies this
      ensures cache == DropExpired(old(cache), now, ttlSeconds)
      ensures removed == |ExpiredKeys(old(cache), now, ttlSeconds)|
      ensures |cache| == |old(cache)| - removed
      ensures hits == old(hits) && misses == old(misses)
    {
      var expired := ExpiredKeys(cache, now, ttlSeconds);
      var todo := expired;
      while todo != {}
        invariant todo <= expired
        invariant cache == old(cache) - (expired - todo)
        invariant hits == old(hits) && misses == old(misses)
        decreases todo
      {
        var fid :| fid in todo;
        cache := cache - {fid};
        todo := todo - {fid};
      }
      assert expired - todo == expired;
      DropExpiredRemovesExpiredKeys(old(cache), now, ttlSeconds);
      removed := |expired|;
    }

    /** `cleanup_departed`: keep only the ids still in view and report how many were dropped. */
    method CleanupDeparted(currentFlightIds: set<string>) returns (removed: nat)
      modifies this
      ensures cache == Restrict(old(cache), currentFlightIds)
      ensures cache.Keys <= currentFlightIds
      ensures removed == |old(cache).Keys - currentFlightIds|
      ensures hits == old(hits) && misses == old(misses)
    {
      var departed := cache.Keys - currentFlightIds;
      var todo := departed;
      while todo != {}
        invariant todo <= departed
        invariant cache == old(cache) - (departed - todo)
        invariant hits == old(hits) && misses == old(misses)
        decreases todo
      {
        var fid :| fid in todo;
        cache := cache - {fid};
        todo := todo - {fid};
      }
      assert cache == Restrict(old(cache), currentFlightIds);
      removed := |departed|;
    }

    /** `size`. */
    function Size(): (n: nat)
      reads this
      ensures n == |cache|
      ensures n == 0 <==> cache == map[]
    {
      |cache|
    }

    /** The integer part of `stats`. */
    function Stats(): (s: CacheStats)
      reads this
      ensures s.size == Size() && s.hits == hits && s.misses == misses
    {
      CacheStats(|cache|, hits, misses)
    }

    /** `clear`: no entries, both counters back to zero. */
    method Clear()
      modifies this
      ensures cache == map[] && hits == 0 && misses == 0
    {
      cache := map[];
      hits, misses := 0, 0;
    }
  }
}
