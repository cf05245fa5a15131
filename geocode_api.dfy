/**
 * The two geocoding endpoints of backend/app/api/geocode.py,
 * `/geocode/search` and `/geocode/reverse`, over the shared cache, circuit
 * breaker and rate gate.
 *
 * `SearchFlow` and `ReverseFlow` state what one request does to the three
 * shared structures and what it answers; the `Geocoder` class runs the
 * endpoint bodies against the objects and is proved to agree. The lemmas
 * say what a client observes: malformed requests are refused before
 * anything is touched, a cache hit makes no upstream request, a successful
 * live answer is served from the cache afterwards, an open circuit answers
 * 503, and the two key formats can collide.
 */
module GeocodeApi {
  import opened Wrappers
  import opened Json
  import opened Upstream
  import opened CircuitBreakers
  import opened GeocodeCache
  import opened GeocodeFormat
  import opened FixedPoint
  import opened GeocodeInvoker
  import RateGate

  /** The `source` field of an answer. */
  datatype Source = Cache | Live

  /** What the cache holds: `{"results": [...]}` for a search, `{"result": {...}}` for a reverse lookup. */
  datatype Payload = Results(items: seq<Place>) | Single(place: Place)

  /** A successful answer: its `source` and the cached or fresh payload. */
  datatype Reply = Reply(source: Source, payload: Payload)

  /** The settings of the endpoints. */
  datatype Env = Env(capacity: nat, ttl: real, retry: RetryConfig, breaker: Config, minInterval: real)

  /** The process-wide state both endpoints share. */
  datatype World = World(cache: CacheState<Payload>, breaker: BreakerState, gateLast: real)

  /** The answer (a reply or an HTTP error status), the state afterwards, and the upstream requests made. */
  datatype Outcome = Outcome(reply: Result<Reply, int>, world: World, requests: nat)

  /** FastAPI's query validation of a search: `min_length=2` on `q`, `1 <= limit <= 10`. */
  predicate ValidSearch(q: string, limit: int) {
    |q| >= 2 && 1 <= limit <= 10
  }

  /** FastAPI's query validation of a reverse lookup: latitude within ±90, longitude within ±180. */
  predicate ValidReverse(lat: real, lon: real) {
    -90.0 <= lat <= 90.0 && -180.0 <= lon <= 180.0
  }

  /**
   * `geocode_search`. `now` is the clock reading of the cache lookup and of
   * the breaker, `done` that of the cache store after a live answer, `atts`
   * what the upstream does on each attempt.
   */
  function SearchFlow(env: Env, w: World, q: string, limit: int, countryCodes: Option<string>, lang: string,
                      now: real, atts: seq<Attempt<Json>>, done: real): Outcome
    requires |atts| >= AttemptLimit(env.retry)
  {
    if !ValidSearch(q, limit) then Outcome(Err(422), w, 0)
    else
      var key := SearchKey(q, limit, countryCodes, lang);
      var (hit, c1) := Lookup(w.cache, env.ttl, key, now);
      match hit
      case Some(p) =>
        if p.Results? then Outcome(Ok(Reply(Cache, p)), w.(cache := c1), 0)
        else Outcome(Err(500), w.(cache := c1), 0)  // `cached["results"]` raises KeyError
      case None =>
        var run := Invoke(env.retry, env.breaker, w.breaker, env.minInterval, w.gateLast, now, atts);
        var w1 := World(c1, run.breaker, run.gateLast);
        match run.result
        case Err(e) => Outcome(Err(HttpStatus(e)), w1, run.used)
        case Ok(data) =>
          if !data.JArray? then Outcome(Err(502), w1, run.used)
          else
            var items := FormatResults(data.items);
            Outcome(Ok(Reply(Live, Results(items))),
                    w1.(cache := Store(c1, env.capacity, key, Results(items), done)), run.used)
  }

  /** `geocode_reverse`, with the clock readings and attempts as for a search. */
  function ReverseFlow(env: Env, w: World, lat: real, lon: real, lang: string,
                       now: real, atts: seq<Attempt<Json>>, done: real): Outcome
    requires |atts| >= AttemptLimit(env.retry)
  {
    if !ValidReverse(lat, lon) then Outcome(Err(422), w, 0)
    else
      var key := ReverseKey(Round(lat, 5), Round(lon, 5), lang);
      var (hit, c1) := Lookup(w.cache, env.ttl, key, now);
      match hit
      case Some(p) => Outcome(Ok(Reply(Cache, p)), w.(cache := c1), 0)
      case None =>
        var run := Invoke(env.retry, env.breaker, w.breaker, env.minInterval, w.gateLast, now, atts);
        var w1 := World(c1, run.breaker, run.gateLast);
        match run.result
        case Err(e) => Outcome(Err(HttpStatus(e)), w1, run.used)
        case Ok(data) =>
          if !data.JObject? then Outcome(Err(502), w1, run.used)
          else
            var place := FormatItem(data.fields);
            Outcome(Ok(Reply(Live, Single(place))),
                    w1.(cache := Store(c1, env.capacity, key, Single(place), done)), run.used)
  }

  /** A request the validation refuses answers 422 and touches nothing. */
  lemma InvalidRequestsChangeNothing(env: Env, w: World, q: string, limit: int, countryCodes: Option<string>,
                                     lat: real, lon: real, lang: string, now: real, atts: seq<Attempt<Json>>, done: real)
    requires |atts| >= AttemptLimit(env.retry)
    ensures !ValidSearch(q, limit) ==>
      SearchFlow(env, w, q, limit, countryCodes, lang, now, atts, done) == Outcome(Err(422), w, 0)
    ensures !ValidReverse(lat, lon) ==>
      ReverseFlow(env, w, lat, lon, lang, now, atts, done) == Outcome(Err(422), w, 0)
  {
  }

  /** Every answer of a search is either a list of places or an error status the endpoint raises. */
  lemma SearchAnswers(env: Env, w: World, q: string, limit: int, countryCodes: Option<string>, lang: string,
                      now: real, atts: seq<Attempt<Json>>, done: real)
    requires |atts| >= AttemptLimit(env.retry)
    ensures var o := SearchFlow(env, w, q, limit, countryCodes, lang, now, atts, done);
      (o.reply.Ok? ==> o.reply.value.payload.Results?) &&
      (o.reply.Err? ==> o.reply.error in {422, 500, 502, 503}) &&
      (o.reply.Err? ==> o.world.cache.entries.Keys <= w.cache.entries.Keys)
  {
    if ValidSearch(q, limit) {
      var key := SearchKey(q, limit, countryCodes, lang);
      var (hit, c1) := Lookup(w.cache, env.ttl, key, now);
      assert c1.entries.Keys <= w.cache.entries.Keys;
    }
  }

  /**
   * A search answered from the cache makes no request and leaves the
   * breaker and the gate alone.
   */
  lemma CachedSearchMakesNoRequest(env: Env, w: World, q: string, limit: int, countryCodes: Option<string>,
                                   lang: string, now: real, atts: seq<Attempt<Json>>, done: real)
    requires |atts| >= AttemptLimit(env.retry)
    requires ValidSearch(q, limit)
    requires Lookup(w.cache, env.ttl, SearchKey(q, limit, countryCodes, lang), now).0.Some?
    ensures var o := SearchFlow(env, w, q, limit, countryCodes, lang, now, atts, done);
      o.requests == 0 && o.world.breaker == w.breaker && o.world.gateLast == w.gateLast &&
      (o.reply.Ok? ==> o.reply.value.source == Cache)
  {
  }

  /**
   * The same for a reverse lookup; a cached payload is returned whatever
   * its shape.
   */
  lemma CachedReverseMakesNoRequest(env: Env, w: World, lat: real, lon: real, lang: string,
                                    now: real, atts: seq<Attempt<Json>>, done: real)
    requires |atts| >= AttemptLimit(env.retry)
    requires ValidReverse(lat, lon)
    requires Lookup(w.cache, env.ttl, ReverseKey(Round(lat, 5), Round(lon, 5), lang), now).0.Some?
    ensures var o := ReverseFlow(env, w, lat, lon, lang, now, atts, done);
      o.requests == 0 && o.world.breaker == w.breaker && o.world.gateLast == w.gateLast &&
      o.reply == Ok(Reply(Cache, Lookup(w.cache, env.ttl, ReverseKey(Round(lat, 5), Round(lon, 5), lang), now).0.value))
  {
  }

  /**
   * A live search answer is cached: the same search again, no later than
   * the TTL after the store, is answered from the cache with the same
   * places and no request.
   */
  lemma LiveSearchIsServedFromCache(env: Env, w: World, q: string, limit: int, countryCodes: Option<string>,
                                    lang: string, now: real, atts: seq<Attempt<Json>>, done: real,
                                    later: real, atts2: seq<Attempt<Json>>, done2: real)
    requires |atts| >= AttemptLimit(env.retry) && |atts2| >= AttemptLimit(env.retry)
    requires WellFormed(w.cache, env.capacity) && env.capacity >= 1 && later - done <= env.ttl
    requires SearchFlow(env, w, q, limit, countryCodes, lang, now, atts, done).reply.Ok?
    requires SearchFlow(env, w, q, limit, countryCodes, lang, now, atts, done).reply.value.source == Live
    ensures var o := SearchFlow(env, w, q, limit, countryCodes, lang, now, atts, done);
      var o2 := SearchFlow(env, o.world, q, limit, countryCodes, lang, later, atts2, done2);
      o2.reply == Ok(Reply(Cache, o.reply.value.payload)) && o2.requests == 0
  {
    var key := SearchKey(q, limit, countryCodes, lang);
    var (hit, c1) := Lookup(w.cache, env.ttl, key, now);
    LookupKeepsWellFormed(w.cache, env.capacity, env.ttl, key, now);
    var o := SearchFlow(env, w, q, limit, countryCodes, lang, now, atts, done);
    FreshStoreHits(c1, env.capacity, env.ttl, key, o.reply.value.payload, done, later);
  }

  /** The same for a reverse lookup. */
  lemma LiveReverseIsServedFromCache(env: Env, w: World, lat: real, lon: real, lang: string,
                                     now: real, atts: seq<Attempt<Json>>, done: real,
                                     later: real, atts2: seq<Attempt<Json>>, done2: real)
    requires |atts| >= AttemptLimit(env.retry) && |atts2| >= AttemptLimit(env.retry)
    requires WellFormed(w.cache, env.capacity) && env.capacity >= 1 && later - done <= env.ttl
    requires ReverseFlow(env, w, lat, lon, lang, now, atts, done).reply.Ok?
    requires ReverseFlow(env, w, lat, lon, lang, now, atts, done).reply.value.source == Live
    ensures var o := ReverseFlow(env, w, lat, lon, lang, now, atts, done);
      var o2 := ReverseFlow(env, o.world, lat, lon, lang, later, atts2, done2);
      o2.reply == Ok(Reply(Cache, o.reply.value.payload)) && o2.requests == 0
  {
    var key := ReverseKey(Round(lat, 5), Round(lon, 5), lang);
    var (hit, c1) := Lookup(w.cache, env.ttl, key, now);
    LookupKeepsWellFormed(w.cache, env.capacity, env.ttl, key, now);
    var o := ReverseFlow(env, w, lat, lon, lang, now, atts, done);
    FreshStoreHits(c1, env.capacity, env.ttl, key, o.reply.value.payload, done, later);
  }

  /**
   * Two reverse lookups whose coordinates print the same at five decimals
   * share the cache entry, and only those: the second of two such requests
   * is a hit exactly when it would be for the first.
   */
  lemma ReverseSharesEntryByRounding(lat1: real, lon1: real, lat2: real, lon2: real, lang: string)
    ensures ReverseKey(Round(lat1, 5), Round(lon1, 5), lang) == ReverseKey(Round(lat2, 5), Round(lon2, 5), lang)
        <==> Round(lat1, 5) == Round(lat2, 5) && Round(lon1, 5) == Round(lon2, 5)
  {
    if ReverseKey(Round(lat1, 5), Round(lon1, 5), lang) == ReverseKey(Round(lat2, 5), Round(lon2, 5), lang) {
      ReverseKeyDeterminesRequest(Round(lat1, 5), Round(lon1, 5), lang, Round(lat2, 5), Round(lon2, 5), lang);
    }
  }

  /** A miss while the breaker is open inside its reset timeout answers 503 without a request. */
  lemma OpenCircuitSearch(env: Env, w: World, q: string, limit: int, countryCodes: Option<string>, lang: string,
                          now: real, atts: seq<Attempt<Json>>, done: real)
    requires |atts| >= AttemptLimit(env.retry)
    requires ValidSearch(q, limit)
    requires Lookup(w.cache, env.ttl, SearchKey(q, limit, countryCodes, lang), now).0.None?
    requires w.breaker.phase == Open && now - w.breaker.openSince < env.breaker.resetTimeout
    ensures var o := SearchFlow(env, w, q, limit, countryCodes, lang, now, atts, done);
      o.reply == Err(503) && o.requests == 0 && o.world.breaker == w.breaker && o.world.gateLast == w.gateLast
  {
    OpenBreakerFailsFast(env.retry, env.breaker, w.breaker, env.minInterval, w.gateLast, now, atts);
  }

  /**
   * Because the key formats share one namespace, a reverse lookup with the
   * language `5|None|<lang>` followed by a search for `rev|<lat>|<lon>`
   * within the TTL answers the search with 500: the cached entry has no
   * `results`.
   */
  lemma ReverseEntryBreaksSearch(env: Env, w: World, lat: real, lon: real, lang: string,
                                 now: real, atts: seq<Attempt<Json>>, done: real,
                                 later: real, atts2: seq<Attempt<Json>>, done2: real)
    requires |atts| >= AttemptLimit(env.retry) && |atts2| >= AttemptLimit(env.retry)
    requires WellFormed(w.cache, env.capacity) && env.capacity >= 1 && later - done <= env.ttl
    requires ReverseFlow(env, w, lat, lon, "5|None|" + lang, now, atts, done).reply.Ok?
    requires ReverseFlow(env, w, lat, lon, "5|None|" + lang, now, atts, done).reply.value.source == Live
    ensures var o := ReverseFlow(env, w, lat, lon, "5|None|" + lang, now, atts, done);
      var q := "rev|" + Render(Round(lat, 5), 5) + "|" + Render(Round(lon, 5), 5);
      SearchFlow(env, o.world, q, 5, None, lang, later, atts2, done2).reply == Err(500)
  {
    var key := ReverseKey(Round(lat, 5), Round(lon, 5), "5|None|" + lang);
    var (hit, c1) := Lookup(w.cache, env.ttl, key, now);
    LookupKeepsWellFormed(w.cache, env.capacity, env.ttl, key, now);
    var o := ReverseFlow(env, w, lat, lon, "5|None|" + lang, now, atts, done);
    FreshStoreHits(c1, env.capacity, env.ttl, key, o.reply.value.payload, done, later);
    var q := "rev|" + Render(Round(lat, 5), 5) + "|" + Render(Round(lon, 5), 5);
    SearchKeyCanEqualReverseKey(Round(lat, 5), Round(lon, 5), lang);
    assert |q| >= 2;
  }

  /** The endpoints' shared objects: the cache, the breaker `_cb_nominatim` and the rate gate. */
  class Geocoder {
    const cache: LruCache<Payload>
    const breaker: CircuitBreaker
    const gate: RateGate.RateGate
    const retry: RetryConfig

    function Settings(): Env
      reads cache
    {
      Env(if cache.capacity >= 0 then cache.capacity else 0, cache.ttl, retry, breaker.config, gate.minInterval)
    }

    function Current(): World
      reads cache, breaker, gate
    {
      World(cache.State(), breaker.State(), gate.lastCall)
    }

    ghost predicate Valid()
      reads cache
    {
      cache.Valid()
    }

    constructor (cache: LruCache<Payload>, breaker: CircuitBreaker, gate: RateGate.RateGate, retry: RetryConfig)
      requires cache.Valid()
      ensures this.cache == cache && this.breaker == breaker && this.gate == gate && this.retry == retry
      ensures Valid()
    {
      this.cache := cache;
      this.breaker := breaker;
      this.gate := gate;
      this.retry := retry;
    }

    /** `GET /geocode/search`. */
    method Search(q: string, limit: int, countryCodes: Option<string>, lang: string,
                  now: real, atts: seq<Attempt<Json>>, done: real)
      returns (reply: Result<Reply, int>, requests: nat)
      requires Valid() && |atts| >= AttemptLimit(retry)
      modifies cache, breaker, gate
      ensures Valid()
      ensures Outcome(reply, Current(), requests)
           == SearchFlow(Settings(), old(Current()), q, limit, countryCodes, lang, now, atts, done)
    {
      if !ValidSearch(q, limit) {
        return Err(422), 0;
      }
      var key := SearchKey(q, limit, countryCodes, lang);
      var hit := cache.Get(key, now);
      if hit.Some? {
        match hit.value
        case Results(items) =>
          return Ok(Reply(Cache, Results(items))), 0;
        case Single(_) =>
          return Err(500), 0;
      }
      var result, used, _ := GetJsonWithRetry(breaker, gate, retry, now, atts);
      if result.Err? {
        return Err(HttpStatus(result.error)), used;
      }
      var data := result.value;
      if !data.JArray? {
        return Err(502), used;
      }
      var items := FormatResults(data.items);
      cache.Set(key, Results(items), done);
      return Ok(Reply(Live, Results(items))), used;
    }

    /** `GET /geocode/reverse`. */
    method Reverse(lat: real, lon: real, lang: string, now: real, atts: seq<Attempt<Json>>, done: real)
      returns (reply: Result<Reply, int>, requests: nat)
      requires Valid() && |atts| >= AttemptLimit(retry)
      modifies cache, breaker, gate
      ensures Valid()
      ensures Outcome(reply, Current(), requests)
           == ReverseFlow(Settings(), old(Current()), lat, lon, lang, now, atts, done)
    {
      if !ValidReverse(lat, lon) {
        return Err(422), 0;
      }
      var key := ReverseKey(Round(lat, 5), Round(lon, 5), lang);
      var hit := cache.Get(key, now);
      if hit.Some? {
        return Ok(Reply(Cache, hit.value)), 0;
      }
      var result, used, _ := GetJsonWithRetry(breaker, gate, retry, now, atts);
      if result.Err? {
        return Err(HttpStatus(result.error)), used;
      }
      var data := result.value;
      if !data.JObject? {
        return Err(502), used;
      }
      var place := FormatItem(data.fields);
      cache.Set(key, Single(place), done);
      return Ok(Reply(Live, Single(place))), used;
    }
  }
}
