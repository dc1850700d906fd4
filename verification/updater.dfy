/**
 * The background poller. One pass of its loop fetches positions, looks up
 * which flights lack cached details, fetches those details when the full
 * endpoint is configured, merges cached details into the positions, cleans
 * the cache every tenth pass and queues the outcome; the main thread drains
 * the queue into the application.
 *
 * The thread, its stop event and its timed waits are not modelled: a pass
 * is a method that receives the outcomes of the two fetches and the
 * current time, and returns how long the loop would then wait.
 */
module Updater {
  import opened Wrappers
  import opened Models
  import opened DetailCache
  import opened ApiClient
  import opened Table
  import opened App

  /** What a pass hands to the main thread. */
  datatype QueueItem = Success(flights: seq<Flight>) | Error(message: string)

  const MaxConsecutiveErrors: int := 5
  /** The wait after too many consecutive API errors, in seconds. */
  const BackoffSeconds: int := 30
  /** The cache is swept on every pass whose number is a multiple of this. */
  const CleanupEvery: int := 10
  const UnexpectedPrefix: string := "Unexpected error: "

  /** The non-empty ids of the flights in view. */
  function CurrentIds(flights: seq<Flight>): set<string>
  {
    set f | f in flights && f.flightId != "" :: f.flightId
  }

  lemma CurrentIdsExactly(flights: seq<Flight>, id: string)
    ensures id in CurrentIds(flights) <==> id != "" && exists i :: 0 <= i < |flights| && flights[i].flightId == id
  {
    if id in CurrentIds(flights) {
      var f :| f in flights && f.flightId != "" && f.flightId == id;
      var i :| 0 <= i < |flights| && flights[i] == f;
    }
  }

  /** Every id of the flights, the empty one included: the ids the merge step reads. */
  function IdsOf(flights: seq<Flight>): set<string>
  {
    set f | f in flights :: f.flightId
  }

  /** The callsigns of the flights whose ids are missing, skipping empty callsigns, in list order. */
  function MissingCallsigns(flights: seq<Flight>, missing: set<string>): (r: seq<string>)
    ensures |r| <= |flights|
    ensures forall j :: 0 <= j < |r| ==> r[j] != ""
    decreases |flights|
  {
    if flights == [] then []
    else
      var f := flights[|flights| - 1];
      MissingCallsigns(flights[..|flights| - 1], missing)
        + (if f.flightId in missing && f.callsign != "" then [f.callsign] else [])
  }

  /** The list is empty exactly when no missing flight has a callsign. */
  lemma {:induction false} MissingCallsignsEmptyIff(flights: seq<Flight>, missing: set<string>)
    ensures MissingCallsigns(flights, missing) == [] <==>
              forall i :: 0 <= i < |flights| ==> flights[i].flightId !in missing || flights[i].callsign == ""
    decreases |flights|
  {
    if flights != [] {
      var init := flights[..|flights| - 1];
      MissingCallsignsEmptyIff(init, missing);
      assert forall i :: 0 <= i < |init| ==> init[i] == flights[i];
    }
  }

  /** Filtering a concatenation concatenates the filtered parts: list order is kept. */
  lemma {:induction false} MissingCallsignsConcat(a: seq<Flight>, b: seq<Flight>, missing: set<string>)
    ensures MissingCallsigns(a + b, missing) == MissingCallsigns(a, missing) + MissingCallsigns(b, missing)
    decreases |b|
  {
    if b == [] {
      assert a + b == a;
    } else {
      var binit := b[..|b| - 1];
      assert (a + b)[..|a + b| - 1] == a + binit;
      assert (a + b)[|a + b| - 1] == b[|b| - 1];
      MissingCallsignsConcat(a, binit, missing);
    }
  }

  /**
   * The callsigns handed to the details request, or `None` when no request
   * is made: only with missing ids, the full endpoint, and at least one
   * missing flight with a callsign.
   */
  function DetailCallsigns(endpointType: string, flights: seq<Flight>, missing: set<string>): (r: Option<seq<string>>)
    ensures r.Some? ==> 1 <= |r.value| <= MaxCallsignsPerRequest
    ensures r.Some? ==> |r.value| <= |MissingCallsigns(flights, missing)|
    ensures r.Some? ==> r.value == MissingCallsigns(flights, missing)[..|r.value|]
    ensures r.Some? ==> |r.value| == Min(|MissingCallsigns(flights, missing)|, MaxCallsignsPerRequest)
  {
    var callsigns := MissingCallsigns(flights, missing);
    if missing != {} && endpointType == "full" && callsigns != [] then Some(LimitCallsigns(callsigns)) else None
  }

  lemma DetailRequestRule(endpointType: string, flights: seq<Flight>, missing: set<string>)
    ensures DetailCallsigns(endpointType, flights, missing).Some? <==>
              && missing != {}
              && endpointType == "full"
              && exists i :: 0 <= i < |flights| && flights[i].flightId in missing && flights[i].callsign != ""
  {
    MissingCallsignsEmptyIff(flights, missing);
  }

  /** Fill every empty descriptive field of a live flight from a non-empty cached one. */
  function MergeCached(f: Flight, e: CachedFlightDetails): (g: Flight)
    ensures f.aircraftType == "" ==> g.aircraftType == e.aircraftType
    ensures f.airline == "" ==> g.airline == e.airline
    ensures f.origin == "" ==> g.origin == e.origin
    ensures f.destination == "" ==> g.destination == e.destination
    ensures !Present(f.registration) && Present(e.registration) ==> g.registration == e.registration
    ensures !Present(e.registration) ==> g.registration == f.registration
    ensures f.aircraftType != "" ==> g.aircraftType == f.aircraftType
    ensures f.airline != "" ==> g.airline == f.airline
    ensures f.origin != "" ==> g.origin == f.origin
    ensures f.destination != "" ==> g.destination == f.destination
    ensures Present(f.registration) ==> g.registration == f.registration
    ensures g.(aircraftType := f.aircraftType, airline := f.airline, origin := f.origin,
               destination := f.destination, registration := f.registration) == f
  {
    f.(aircraftType := if f.aircraftType == "" && e.aircraftType != "" then e.aircraftType else f.aircraftType,
       airline := if f.airline == "" && e.airline != "" then e.airline else f.airline,
       origin := if f.origin == "" && e.origin != "" then e.origin else f.origin,
       destination := if f.destination == "" && e.destination != "" then e.destination else f.destination,
       registration := if !Present(f.registration) && Present(e.registration) then e.registration else f.registration)
  }

  /** Merging the same entry twice changes nothing more. */
  lemma MergeIdempotent(f: Flight, e: CachedFlightDetails)
    ensures MergeCached(MergeCached(f, e), e) == MergeCached(f, e)
  {
  }

  /**
   * The constructor already filled airline, type, origin and destination,
   * so on a parsed flight the merge can only ever supply the registration.
   */
  lemma MergeOnlyFillsRegistration(f: Flight, e: CachedFlightDetails)
    requires IsNormalized(f)
    ensures MergeCached(f, e) == f.(registration := MergeCached(f, e).registration)
  {
  }

  /** The merge of one flight with a live cache entry, field by field as the poller writes it. */
  method MergeDetails(f: Flight, e: CachedFlightDetails) returns (g: Flight)
    ensures g == MergeCached(f, e)
  {
    g := f;
    if g.aircraftType == "" && e.aircraftType != "" {
      g := g.(aircraftType := e.aircraftType);
    }
    if g.airline == "" && e.airline != "" {
      g := g.(airline := e.airline);
    }
    if g.origin == "" && e.origin != "" {
      g := g.(origin := e.origin);
    }
    if g.destination == "" && e.destination != "" {
      g := g.(destination := e.destination);
    }
    if !Present(g.registration) && Present(e.registration) {
      g := g.(registration := e.registration);
    }
  }

  /** One flight after the merge step: cached details filled in, distance from the centre set. */
  function Enrich(c: map<string, CachedFlightDetails>, now: int, ttl: int, dist: (int, int) -> nat, f: Flight): Flight
  {
    var g := match LookupIn(c, f.flightId, now, ttl)
             case Some(e) => MergeCached(f, e)
             case None => f;
    g.(distanceTenths := dist(g.latitude, g.longitude))
  }

  /** The merge step for one flight, given what the cache returned for its id. */
  method EnrichWith(ghost c: map<string, CachedFlightDetails>, now: int, ttl: int, dist: (int, int) -> nat,
                    f: Flight, cached: Option<CachedFlightDetails>) returns (g: Flight)
    requires cached == LookupIn(c, f.flightId, now, ttl)
    ensures g == Enrich(c, now, ttl, dist, f)
  {
    g := f;
    if cached.Some? {
      g := MergeDetails(g, cached.value);
    }
    g := g.(distanceTenths := dist(g.latitude, g.longitude));
  }

  function EnrichAll(c: map<string, CachedFlightDetails>, now: int, ttl: int, dist: (int, int) -> nat, flights: seq<Flight>): (r: seq<Flight>)
    ensures |r| == |flights|
  {
    seq(|flights|, i requires 0 <= i < |flights| => Enrich(c, now, ttl, dist, flights[i]))
  }

  /** The cache entry `put` makes from a detailed flight. */
  function EntryFor(f: Flight, now: int): CachedFlightDetails
  {
    CachedFlightDetails(f.flightId, f.aircraftType, f.airline, f.origin, f.destination, f.registration, now)
  }

  /** The cache after `put` of every detailed flight in order; a later flight with the same id wins. */
  function PutAll(c: map<string, CachedFlightDetails>, flights: seq<Flight>, now: int): (r: map<string, CachedFlightDetails>)
    ensures r.Keys == c.Keys + IdsOf(flights)
    decreases |flights|
  {
    if flights == [] then c
    else
      var init, f := flights[..|flights| - 1], flights[|flights| - 1];
      assert IdsOf(flights) == IdsOf(init) + {f.flightId} by {
        assert flights == init + [f];
      }
      PutAll(c, init, now)[f.flightId := EntryFor(f, now)]
  }

  /**
   * After storing the details, every detailed id has an entry stamped
   * `now` that holds the details of one of its flights; other entries are
   * untouched.
   */
  lemma {:induction false} PutAllStores(c: map<string, CachedFlightDetails>, flights: seq<Flight>, now: int, id: string)
    ensures id in PutAll(c, flights, now) <==> id in c || id in IdsOf(flights)
    ensures id in IdsOf(flights) ==>
              exists i :: 0 <= i < |flights| && flights[i].flightId == id && PutAll(c, flights, now)[id] == EntryFor(flights[i], now)
    ensures id !in IdsOf(flights) && id in c ==> PutAll(c, flights, now)[id] == c[id]
    decreases |flights|
  {
    if flights != [] {
      var init, f := flights[..|flights| - 1], flights[|flights| - 1];
      PutAllStores(c, init, now, id);
      assert IdsOf(flights) == IdsOf(init) + {f.flightId} by {
        assert flights == init + [f];
      }
      if id in IdsOf(flights) && id != f.flightId {
        var i :| 0 <= i < |init| && init[i].flightId == id && PutAll(c, init, now)[id] == EntryFor(init[i], now);
        assert flights[i] == init[i];
      }
      if id == f.flightId {
        assert flights[|flights| - 1] == f;
      }
    }
  }

  /** The entry of an id is that of the last detailed flight carrying it: later puts overwrite earlier ones. */
  lemma {:induction false} PutAllLastWins(c: map<string, CachedFlightDetails>, flights: seq<Flight>, now: int, i: nat)
    requires i < |flights|
    requires forall j :: i < j < |flights| ==> flights[j].flightId != flights[i].flightId
    ensures flights[i].flightId in PutAll(c, flights, now)
    ensures PutAll(c, flights, now)[flights[i].flightId] == EntryFor(flights[i], now)
    decreases |flights|
  {
    var init := flights[..|flights| - 1];
    if i < |flights| - 1 {
      assert init[i] == flights[i];
      forall j | i < j < |init|
        ensures init[j].flightId != init[i].flightId
      {
        assert init[j] == flights[j];
      }
      PutAllLastWins(c, init, now, i);
    }
  }

  /**
   * The cache of a pass once the missing ids have been read and the
   * details, if a request was made and answered, have been stored.
   */
  function AfterDetails(c0: map<string, CachedFlightDetails>, ttl: int, endpointType: string,
                        flights: seq<Flight>, details: FetchOutcome, now: int): map<string, CachedFlightDetails>
  {
    var ids := CurrentIds(flights);
    var c1 := Evict(c0, ids, now, ttl);
    var request := DetailCallsigns(endpointType, flights, MissingIn(c0, ids, now, ttl));
    if request.Some? && details.Fetched? then PutAll(c1, details.flights, now) else c1
  }

  /** What one pass leaves behind: the cache, the queued item, and the callsigns it asked details for. */
  datatype Pass = Pass(cache: map<string, CachedFlightDetails>, item: QueueItem, request: Option<seq<string>>)

  /**
   * One pass of the worker loop, numbered `count`, starting from cache
   * `c0`: `light` is the outcome of the position fetch and `details` that
   * of the details fetch, consulted only when one is made.
   */
  function RunPass(c0: map<string, CachedFlightDetails>, ttl: int, count: int, endpointType: string,
                   dist: (int, int) -> nat, light: FetchOutcome, details: FetchOutcome, now: int): (p: Pass)
    ensures !light.Fetched? ==> p.cache == c0 && p.item.Error? && p.request.None?
    ensures light.Fetched? ==> (p.item.Error? <==> p.request.Some? && details.Unexpected?)
    ensures p.item.Success? ==> |p.item.flights| == |light.flights|
  {
    match light
    case ApiError(m) => Pass(c0, Error(m), None)
    case Unexpected(m) => Pass(c0, Error(UnexpectedPrefix + m), None)
    case Fetched(flights) =>
      var ids := CurrentIds(flights);
      var c1 := Evict(c0, ids, now, ttl);
      var request := DetailCallsigns(endpointType, flights, MissingIn(c0, ids, now, ttl));
      if request.Some? && details.Unexpected? then
        Pass(c1, Error(UnexpectedPrefix + details.message), request)
      else
        var c2 := AfterDetails(c0, ttl, endpointType, flights, details, now);
        var c3 := Evict(c2, IdsOf(flights), now, ttl);
        var c4 := if count % CleanupEvery == 0 then DropExpired(Restrict(c3, ids), now, ttl) else c3;
        Pass(c4, Success(EnrichAll(c2, now, ttl, dist, flights)), request)
  }

  /** A failed details fetch leaves the pass exactly as if the details had come back empty. */
  lemma FailedDetailsAddNothing(c0: map<string, CachedFlightDetails>, ttl: int, count: int, endpointType: string,
                                dist: (int, int) -> nat, light: FetchOutcome, message: string, now: int)
    ensures RunPass(c0, ttl, count, endpointType, dist, light, ApiError(message), now)
            == RunPass(c0, ttl, count, endpointType, dist, light, Fetched([]), now)
    ensures light.Fetched? ==> RunPass(c0, ttl, count, endpointType, dist, light, ApiError(message), now).item.Success?
  {
  }

  /**
   * A successful pass publishes one flight per position, each differing
   * from its position record at most in the registration and the distance
   * when the positions carry the constructor defaults.
   */
  lemma SuccessfulPassPublishes(c0: map<string, CachedFlightDetails>, ttl: int, count: int, endpointType: string,
                                dist: (int, int) -> nat, flights: seq<Flight>, details: FetchOutcome, now: int, i: nat)
    requires RunPass(c0, ttl, count, endpointType, dist, Fetched(flights), details, now).item.Success?
    requires i < |flights| && IsNormalized(flights[i])
    ensures var published := RunPass(c0, ttl, count, endpointType, dist, Fetched(flights), details, now).item.flights;
            && |published| == |flights|
            && published[i] == flights[i].(registration := published[i].registration, distanceTenths := published[i].distanceTenths)
            && published[i].distanceTenths == dist(flights[i].latitude, flights[i].longitude)
    ensures var published := RunPass(c0, ttl, count, endpointType, dist, Fetched(flights), details, now).item.flights;
            var hit := LookupIn(AfterDetails(c0, ttl, endpointType, flights, details, now), flights[i].flightId, now, ttl);
            published[i].registration ==
              if !Present(flights[i].registration) && hit.Some? && Present(hit.value.registration)
              then hit.value.registration else flights[i].registration
  {
    var c2 := AfterDetails(c0, ttl, endpointType, flights, details, now);
    match LookupIn(c2, flights[i].flightId, now, ttl) {
      case Some(e) => MergeOnlyFillsRegistration(flights[i], e);
      case None =>
    }
  }

  /**
   * What the merge of a pass does to any position record: with a live
   * entry for its id, the empty descriptive fields take the cached values
   * and the filled ones stay; without one, only the distance is set.
   */
  lemma PassFillsFromCache(c0: map<string, CachedFlightDetails>, ttl: int, count: int, endpointType: string,
                           dist: (int, int) -> nat, flights: seq<Flight>, details: FetchOutcome, now: int, i: nat)
    requires RunPass(c0, ttl, count, endpointType, dist, Fetched(flights), details, now).item.Success?
    requires i < |flights|
    ensures var g := RunPass(c0, ttl, count, endpointType, dist, Fetched(flights), details, now).item.flights[i];
            var f := flights[i];
            var hit := LookupIn(AfterDetails(c0, ttl, endpointType, flights, details, now), f.flightId, now, ttl);
            && (hit.None? ==> g == f.(distanceTenths := dist(f.latitude, f.longitude)))
            && (hit.Some? ==>
                  && g.aircraftType == (if f.aircraftType == "" then hit.value.aircraftType else f.aircraftType)
                  && g.airline == (if f.airline == "" then hit.value.airline else f.airline)
                  && g.origin == (if f.origin == "" then hit.value.origin else f.origin)
                  && g.destination == (if f.destination == "" then hit.value.destination else f.destination)
                  && g.registration ==
                       (if !Present(f.registration) && Present(hit.value.registration) then hit.value.registration
                        else f.registration))
  {
  }

  /**
   * The sweep runs exactly on every tenth pass, dropping departed entries
   * before expired ones, and then leaves only live entries of flights in
   * view; on other passes nothing is swept.
   */
  lemma SweepOnTenthPass(c0: map<string, CachedFlightDetails>, ttl: int, count: int, endpointType: string,
                         dist: (int, int) -> nat, flights: seq<Flight>, details: FetchOutcome, now: int)
    requires RunPass(c0, ttl, count, endpointType, dist, Fetched(flights), details, now).item.Success?
    ensures var p := RunPass(c0, ttl, count, endpointType, dist, Fetched(flights), details, now);
            count % CleanupEvery == 0 ==>
              && p.cache.Keys <= CurrentIds(flights)
              && forall k :: k in p.cache ==> !p.cache[k].IsExpired(now, ttl)
    ensures var p := RunPass(c0, ttl, count, endpointType, dist, Fetched(flights), details, now);
            var c3 := Evict(AfterDetails(c0, ttl, endpointType, flights, details, now), IdsOf(flights), now, ttl);
            && (count % CleanupEvery == 0 ==> p.cache == DropExpired(Restrict(c3, CurrentIds(flights)), now, ttl))
            && (count % CleanupEvery != 0 ==> p.cache == c3)
  {
  }

  class DataUpdater {
    const endpointType: string
    const refreshInterval: int
    /** Distance from the monitored centre, in tenths of a kilometre, of a position. */
    const distanceFromCentre: (int, int) -> nat
    const flightCache: FlightCache
    var dataQueue: seq<QueueItem>
    var running: bool
    var consecutiveErrors: nat
    var updateCount: int

    constructor(endpointType: string, refreshInterval: int, distanceFromCentre: (int, int) -> nat)
      ensures this.endpointType == endpointType && this.refreshInterval == refreshInterval
      ensures this.distanceFromCentre == distanceFromCentre
      ensures fresh(flightCache) && flightCache.ttlSeconds == DefaultTtl
      ensures flightCache.cache == map[] && flightCache.hits == 0 && flightCache.misses == 0
      ensures dataQueue == [] && !running && consecutiveErrors == 0 && updateCount == 0
    {
      this.endpointType := endpointType;
      this.refreshInterval := refreshInterval;
      this.distanceFromCentre := distanceFromCentre;
      flightCache := new FlightCache(DefaultTtl);
      dataQueue := [];
      running := false;
      consecutiveErrors := 0;
      updateCount := 0;
    }

    /** `start`: a no-op while running; otherwise reset the error count and run. */
    method Start()
      modifies this
      ensures running
      ensures consecutiveErrors == if old(running) then old(consecutiveErrors) else 0
      ensures dataQueue == old(dataQueue) && updateCount == old(updateCount)
    {
      if running {
        return;
      }
      consecutiveErrors := 0;
      running := true;
    }

    /** `stop`. */
    method Stop()
      modifies this
      ensures !running
      ensures dataQueue == old(dataQueue) && updateCount == old(updateCount) && consecutiveErrors == old(consecutiveErrors)
    {
      running := false;
    }

    /** `is_running`. */
    function IsRunning(): bool
      reads this
    {
      running
    }

    /** Store every detailed flight in the cache, in order. */
    method PutDetails(details: seq<Flight>, now: int)
      modifies flightCache
      ensures flightCache.cache == PutAll(old(flightCache.cache), details, now)
      ensures flightCache.hits == old(flightCache.hits) && flightCache.misses == old(flightCache.misses)
    {
      var i := 0;
      while i < |details|
        invariant 0 <= i <= |details|
        invariant flightCache.cache == PutAll(old(flightCache.cache), details[..i], now)
        invariant flightCache.hits == old(flightCache.hits) && flightCache.misses == old(flightCache.misses)
      {
        var df := details[i];
        assert details[..i + 1][..i] == details[..i];
        flightCache.Put(df.flightId, df.aircraftType, df.airline, df.origin, df.destination, df.registration, now);
        i := i + 1;
      }
      assert details[..i] == details;
    }

    /**
     * The merge step: read each flight's id from the cache, fill its empty
     * fields from a live entry, and set its distance from the centre.
     */
    method EnrichFlights(flights: seq<Flight>, now: int) returns (published: seq<Flight>)
      modifies flightCache
      ensures published == EnrichAll(old(flightCache.cache), now, flightCache.ttlSeconds, distanceFromCentre, flights)
      ensures flightCache.cache == Evict(old(flightCache.cache), IdsOf(flights), now, flightCache.ttlSeconds)
      ensures flightCache.hits + flightCache.misses == old(flightCache.hits) + old(flightCache.misses) + |flights|
    {
      ghost var c0 := flightCache.cache;
      var ttl := flightCache.ttlSeconds;
      published := [];
      var i := 0;
      assert Evict(c0, {}, now, ttl) == c0;
      assert IdsOf(flights[..0]) == {};
      while i < |flights|
        invariant 0 <= i <= |flights|
        invariant |published| == i
        invariant forall j :: 0 <= j < i ==> published[j] == Enrich(c0, now, ttl, distanceFromCentre, flights[j])
        invariant flightCache.cache == Evict(c0, IdsOf(flights[..i]), now, ttl)
        invariant flightCache.hits + flightCache.misses == old(flightCache.hits) + old(flightCache.misses) + i
      {
        var f := flights[i];
        ghost var seen := IdsOf(flights[..i]);
        LookupAfterEvict(c0, seen, f.flightId, now, ttl);
        EvictAgain(c0, seen, {f.flightId}, now, ttl);
        assert IdsOf(flights[..i + 1]) == seen + {f.flightId} by {
          assert flights[..i + 1] == flights[..i] + [f];
        }
        var cached := flightCache.Get(f.flightId, now);
        f := EnrichWith(c0, now, ttl, distanceFromCentre, f, cached);
        published := published + [f];
        i := i + 1;
      }
      assert flights[..i] == flights;
    }

    /**
     * The part of a pass before the merge: read which ids are missing and,
     * when a request is made, fetch and store their details. `failure`
     * carries the message of an unexpected error in the details fetch.
     */
    method FetchMissingDetails(flights: seq<Flight>, details: FetchOutcome, now: int)
      returns (request: Option<seq<string>>, failure: Option<string>)
      modifies flightCache
      ensures var ids := CurrentIds(flights);
              var c1 := Evict(old(flightCache.cache), ids, now, flightCache.ttlSeconds);
              && request == DetailCallsigns(endpointType, flights, MissingIn(old(flightCache.cache), ids, now, flightCache.ttlSeconds))
              && failure == (if request.Some? && details.Unexpected? then Some(details.message) else None)
              && flightCache.cache == (if request.Some? && details.Fetched? then PutAll(c1, details.flights, now) else c1)
      ensures flightCache.hits + flightCache.misses == old(flightCache.hits) + old(flightCache.misses) + |CurrentIds(flights)|
    {
      request, failure := None, None;
      var missing := flightCache.GetMissingIds(CurrentIds(flights), now);
      if missing != {} && endpointType == "full" {
        var callsigns := MissingCallsigns(flights, missing);
        if callsigns != [] {
          request := Some(LimitCallsigns(callsigns));
          match details {
            case Fetched(detailed) =>
              PutDetails(detailed, now);
            case ApiError(_) =>
            case Unexpected(m) =>
              failure := Some(m);
          }
        }
      }
    }

    /** The sweep of every tenth pass: drop departed flights, then expired entries. */
    method Sweep(ids: set<string>, now: int)
      modifies flightCache
      ensures flightCache.cache == DropExpired(Restrict(old(flightCache.cache), ids), now, flightCache.ttlSeconds)
      ensures flightCache.hits == old(flightCache.hits) && flightCache.misses == old(flightCache.misses)
    {
      var departed := flightCache.CleanupDeparted(ids);
      var expired := flightCache.CleanupExpired(now);
    }

    /**
     * One pass of `_worker`. Returns the wait that follows it and the
     * callsigns it asked details for.
     */
    method WorkerStep(light: FetchOutcome, details: FetchOutcome, now: int) returns (wait: int, request: Option<seq<string>>)
      requires running
      modifies this, flightCache
      ensures updateCount == old(updateCount) + 1 && running
      ensures var p := RunPass(old(flightCache.cache), flightCache.ttlSeconds, updateCount, endpointType,
                               distanceFromCentre, light, details, now);
              && flightCache.cache == p.cache
              && dataQueue == old(dataQueue) + [p.item]
              && request == p.request
              && consecutiveErrors == (if p.item.Success? then 0 else old(consecutiveErrors) + 1)
      ensures wait == if light.ApiError? && consecutiveErrors >= MaxConsecutiveErrors then BackoffSeconds else refreshInterval
      ensures !light.Fetched? ==> flightCache.hits == old(flightCache.hits) && flightCache.misses == old(flightCache.misses)
      ensures light.Fetched? && dataQueue[|dataQueue| - 1].Success? ==>
                flightCache.hits + flightCache.misses
                == old(flightCache.hits) + old(flightCache.misses) + |CurrentIds(light.flights)| + |light.flights|
    {
      updateCount := updateCount + 1;
      request := None;
      match light {
        case ApiError(m) =>
          consecutiveErrors := consecutiveErrors + 1;
          dataQueue := dataQueue + [Error(m)];
          if consecutiveErrors >= MaxConsecutiveErrors {
            return BackoffSeconds, None;
          }
          return refreshInterval, None;
        case Unexpected(m) =>
          consecutiveErrors := consecutiveErrors + 1;
          dataQueue := dataQueue + [Error(UnexpectedPrefix + m)];
          return refreshInterval, None;
        case Fetched(flights) =>
      }
      var flights := light.flights;
      var failure;
      request, failure := FetchMissingDetails(flights, details, now);
      if failure.Some? {
        consecutiveErrors := consecutiveErrors + 1;
        dataQueue := dataQueue + [Error(UnexpectedPrefix + failure.value)];
        return refreshInterval, request;
      }
      var published := EnrichFlights(flights, now);
      if updateCount % CleanupEvery == 0 {
        Sweep(CurrentIds(flights), now);
      }
      dataQueue := dataQueue + [Success(published)];
      consecutiveErrors := 0;
      wait := refreshInterval;
    }

    /**
     * `process_queue`: hand every queued item, oldest first, to the
     * application, until the queue is empty.
     */
    method ProcessQueue(app: FlightDisplayApp)
      modifies this, app, app.table
      ensures dataQueue == []
      ensures app.View() == Replay(app.config, old(app.View()), old(dataQueue))
      ensures running == old(running) && updateCount == old(updateCount) && consecutiveErrors == old(consecutiveErrors)
    {
      ghost var items := dataQueue;
      ghost var done := 0;
      while dataQueue != []
        invariant 0 <= done <= |items| && dataQueue == items[done..]
        invariant app.View() == Replay(app.config, old(app.View()), items[..done])
        invariant running == old(running) && updateCount == old(updateCount) && consecutiveErrors == old(consecutiveErrors)
        decreases |dataQueue|
      {
        var item := dataQueue[0];
        dataQueue := dataQueue[1..];
        assert items[..done + 1] == items[..done] + [item];
        match item {
          case Success(flights) => app.OnDataUpdate(flights);
          case Error(message) => app.OnError(message);
        }
        done := done + 1;
      }
      assert items[..done] == items;
    }
  }

  /** The application state after handling one queued item. */
  function Dispatch(config: DisplayConfig, v: AppView, item: QueueItem): AppView
  {
    match item
    case Success(flights) => AfterUpdate(config, flights)
    case Error(message) => AfterError(v, message)
  }

  /** The application state after handling `items` in order. */
  function Replay(config: DisplayConfig, v: AppView, items: seq<QueueItem>): (w: AppView)
    ensures w.connected == if items == [] then v.connected else items[|items| - 1].Success?
    decreases |items|
  {
    if items == [] then v else Dispatch(config, Replay(config, v, items[..|items| - 1]), items[|items| - 1])
  }

  /** The flights of the newest success among `items`, if there is one. */
  function LatestSuccess(items: seq<QueueItem>): Option<seq<Flight>>
    decreases |items|
  {
    if items == [] then None
    else if items[|items| - 1].Success? then Some(items[|items| - 1].flights)
    else LatestSuccess(items[..|items| - 1])
  }

  /**
   * After draining, the application is connected exactly when the newest
   * item was a success, and it keeps and shows the flights of the newest
   * success; errors leave both alone.
   */
  lemma {:induction false} ReplayShowsLatestSuccess(config: DisplayConfig, v: AppView, items: seq<QueueItem>)
    ensures LatestSuccess(items).None? ==> Replay(config, v, items).lastFlights == v.lastFlights
                                           && Replay(config, v, items).rows == v.rows
    ensures LatestSuccess(items).Some? ==>
              && Replay(config, v, items).lastFlights == LatestSuccess(items).value
              && Replay(config, v, items).rows == RowsFor(Displayed(config, LatestSuccess(items).value))
    decreases |items|
  {
    if items != [] {
      ReplayShowsLatestSuccess(config, v, items[..|items| - 1]);
    }
  }
}
