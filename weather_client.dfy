/**
 * The weather client of backend/app/services/open_meteo.py: the time-to-live
 * cache `_TTLCache`, and the three fetches of `OpenMeteoClient`.
 *
 * `get_forecast` and `get_hourly` share the module-level cache `_cache` and
 * one synchronous retry loop shape: up to `retries` attempts, a sleep of
 * `backoff * 2^(attempt-1)` after every failed attempt (the last one
 * included), then the last error is raised. `fetch_recent_daily` uses its
 * own cache `_daily_cache`, records one external call per attempt, and
 * sleeps only between attempts.
 *
 * The clock, the sleeps and the HTTP exchanges are parameters: `now` is the
 * reading the cache lookup takes, each attempt carries the readings at its
 * start and end, and the sleeps a call would make are returned in order.
 */
module WeatherClient {
  import opened Wrappers
  import opened Json
  import opened Text
  import opened Upstream
  import opened WeatherParse

  /** A stored value with the clock reading at which it was stored. */
  datatype Stamped<V> = Stamped(at: real, value: V)

  /** What a lookup answers, and the store it leaves behind. */
  datatype Lookup<V> = Lookup(hit: Option<V>, store: map<string, Stamped<V>>)

  /**
   * `_TTLCache.get`: an entry answers while its age is at most `ttl`
   * seconds (exactly `ttl` still answers); an older entry is dropped.
   * No other entry is touched.
   */
  function TtlGet<V>(store: map<string, Stamped<V>>, ttl: int, key: string, now: real): (r: Lookup<V>)
    ensures r.hit.Some? <==> key in store && now - store[key].at <= ttl as real
    ensures r.hit.Some? ==> r.hit.value == store[key].value
    ensures key in r.store <==> r.hit.Some?
    ensures r.store.Keys <= store.Keys
    ensures forall k :: k in store && k != key ==> k in r.store && r.store[k] == store[k]
    ensures key in r.store ==> r.store[key] == store[key]
  {
    if key !in store then Lookup(None, store)
    else if now - store[key].at > ttl as real then Lookup(None, store - {key})
    else Lookup(Some(store[key].value), store)
  }

  /** `_TTLCache`: a dictionary of stamped values, with no bound on its size. */
  class TtlCache<V> {
    const ttl: int
    var store: map<string, Stamped<V>>

    constructor(ttl: int)
      ensures this.ttl == ttl && store == map[]
    {
      this.ttl := ttl;
      store := map[];
    }

    /** `get(key)` at clock reading `now`. */
    method Get(key: string, now: real) returns (r: Option<V>)
      modifies this
      ensures Lookup(r, store) == TtlGet(old(store), ttl, key, now)
    {
      if key !in store {
        return None;
      }
      var entry := store[key];
      if now - entry.at > ttl as real {
        store := store - {key};
        return None;
      }
      return Some(entry.value);
    }

    /** `set(key, value)` at clock reading `now`: the entry is stamped afresh, whatever was there. */
    method Set(key: string, value: V, now: real)
      modifies this
      ensures store == old(store)[key := Stamped(now, value)]
    {
      store := store[key := Stamped(now, value)];
    }
  }

  /** A value stored and read back within the time to live is served; one stored earlier is not. */
  lemma SetThenGet<V>(store: map<string, Stamped<V>>, ttl: int, key: string, value: V, at: real, now: real)
    ensures var r := TtlGet(store[key := Stamped(at, value)], ttl, key, now);
      (now - at <= ttl as real ==> r.hit == Some(value)) &&
      (now - at > ttl as real ==> r.hit == None && key !in r.store)
  {
  }

  /** Storing adds exactly the one key: nothing is ever evicted for room. */
  lemma SetGrowsByOneKey<V>(store: map<string, Stamped<V>>, key: string, value: V, at: real)
    ensures store[key := Stamped(at, value)].Keys == store.Keys + {key}
    ensures key !in store ==> |store[key := Stamped(at, value)]| == |store| + 1
  {
  }

  /** What `_cache` holds: a parsed forecast (from `get_forecast`) or a raw payload (from `get_hourly`). */
  datatype Cached = Parsed(result: ForecastResult) | Raw(data: Json)

  /** `if cached:` — a `ForecastResult` is always truthy, a raw payload as JSON truthiness says. */
  predicate CachedTruthy(c: Cached) {
    c.Parsed? || Truthy(c.data)
  }

  /** Which of the two synchronous fetches runs the loop. */
  datatype Endpoint = Forecast | Hourly

  /** Why one attempt failed. */
  datatype Fault =
    | Unreachable           // the client raised before any status arrived
    | HttpError(status: int) // `raise_for_status()` on a non-2xx status
    | UndecodableBody       // `resp.json()` raised
    | MalformedPayload      // `_parse` raised

  /** The exception a fetch ends with. */
  datatype FetchError =
    | Failed(last: Fault)  // the error of the last attempt, re-raised
    | NoAttempts           // `assert last_err is not None` fails: there was no attempt

  /** One exchange up to `resp.json()`: the decoded payload, or why there is none. */
  function Fetched(x: Exchange<Json>): (r: Result<Json, Fault>)
    ensures r.Ok? <==> x.Response? && IsSuccess(x.status) && x.body.Some?
    ensures r.Ok? ==> r.value == x.body.value
    ensures r == Err(Unreachable) <==> x.NoResponse?
    ensures r.Err? && r.error.HttpError? ==> x.Response? && r.error.status == x.status
  {
    match x
    case NoResponse => Err(Unreachable)
    case Response(status, body) =>
      if !IsSuccess(status) then Err(HttpError(status))
      else if body.None? then Err(UndecodableBody)
      else Ok(body.value)
  }

  /** The body of one synchronous attempt: `get_hourly` keeps the payload, `get_forecast` parses it. */
  function Decode(e: Endpoint, x: Exchange<Json>): Result<Cached, Fault> {
    var f := Fetched(x);
    if f.Err? then Err(f.error)
    else if e == Hourly then Ok(Raw(f.value))
    else
      var p := Parse(f.value);
      if p.None? then Err(MalformedPayload) else Ok(Parsed(p.value))
  }

  /**
   * An hourly attempt succeeds exactly when the exchange delivers a payload,
   * which it keeps; a forecast attempt also needs the payload to parse, and
   * keeps the parsed result. Any failure but a parse failure is the
   * exchange's own.
   */
  lemma DecodeMeaning(e: Endpoint, x: Exchange<Json>)
    ensures var r := Decode(e, x);
      (e == Hourly ==> r.Ok? == Fetched(x).Ok? && (r.Ok? ==> r.value == Raw(Fetched(x).value))) &&
      (e == Forecast ==> (r.Ok? <==> Fetched(x).Ok? && Parse(Fetched(x).value).Some?)) &&
      (e == Forecast && r.Ok? ==> r.value == Parsed(Parse(Fetched(x).value).value)) &&
      (r.Err? && !r.error.MalformedPayload? ==> Fetched(x) == Err(r.error))
  {
  }

  /** The outcome of every attempt, in order. */
  function Outcomes(e: Endpoint, atts: seq<Attempt<Json>>): (os: seq<Result<Cached, Fault>>)
    ensures |os| == |atts|
    ensures forall i :: 0 <= i < |atts| ==> os[i] == Decode(e, atts[i].exchange)
  {
    seq(|atts|, i requires 0 <= i < |atts| => Decode(e, atts[i].exchange))
  }

  predicate IsOk(r: Result<Cached, Fault>) {
    r.Ok?
  }

  /** `len(range(1, retries + 1))`. */
  function Attempts(retries: int): nat {
    if retries > 0 then retries else 0
  }

  /** The sleep after failed attempt `i` (counting from 0, so Python's `attempt` is `i + 1`). */
  function Sleep(backoff: real, i: nat): real {
    backoff * Pow2(i) as real
  }

  /** The first `n` sleeps. */
  function Sleeps(backoff: real, n: nat): (s: seq<real>)
    ensures |s| == n
    ensures forall i :: 0 <= i < n ==> s[i] == Sleep(backoff, i)
  {
    seq(n, i requires 0 <= i < n => Sleep(backoff, i))
  }

  lemma SleepsGrow(backoff: real, n: nat)
    ensures Sleeps(backoff, n + 1) == Sleeps(backoff, n) + [Sleep(backoff, n)]
  {
  }

  /** Everything one synchronous fetch determines. */
  datatype SyncRun = SyncRun(
    result: Result<Cached, FetchError>,
    used: nat,                           // requests issued
    sleeps: seq<real>,                   // `time.sleep` durations, in order
    store: map<string, Stamped<Cached>>) // `_cache` afterwards

  /**
   * The specification of `get_forecast` / `get_hourly`: a truthy cached
   * value is returned as it is; otherwise the attempts run.
   */
  function SyncFetch(retries: int, backoff: real, e: Endpoint, ttl: int, store: map<string, Stamped<Cached>>,
                     key: string, now: real, atts: seq<Attempt<Json>>): SyncRun
    requires |atts| >= Attempts(retries)
  {
    var look := TtlGet(store, ttl, key, now);
    if look.hit.Some? && CachedTruthy(look.hit.value) then SyncRun(Ok(look.hit.value), 0, [], look.store)
    else SyncAttempts(retries, backoff, e, look.store, key, atts)
  }

  /**
   * The attempts of a synchronous fetch: the first successful attempt is
   * cached (stamped with its end reading) and returned, after one sleep per
   * earlier failure; when none succeeds, one sleep follows every attempt and
   * the last error is raised.
   */
  function SyncAttempts(retries: int, backoff: real, e: Endpoint, store: map<string, Stamped<Cached>>,
                        key: string, atts: seq<Attempt<Json>>): SyncRun
    requires |atts| >= Attempts(retries)
  {
    var lim := Attempts(retries);
    var os := Outcomes(e, atts);
    var k := FirstIndex(os, IsOk, lim);
    if k < lim then
      SyncRun(Ok(os[k].value), k + 1, Sleeps(backoff, k), store[key := Stamped(atts[k].end, os[k].value)])
    else
      SyncRun(Err(if lim == 0 then NoAttempts else Failed(os[lim - 1].error)), lim, Sleeps(backoff, lim), store)
  }

  /** `SyncAttempts` when the first `k` attempts fail and attempt `k` succeeds. */
  lemma SyncAttemptsSucceedAt(retries: int, backoff: real, e: Endpoint, store: map<string, Stamped<Cached>>,
                              key: string, atts: seq<Attempt<Json>>, k: nat)
    requires |atts| >= Attempts(retries) && k < Attempts(retries)
    requires FirstIndex(Outcomes(e, atts), IsOk, Attempts(retries)) >= k && IsOk(Outcomes(e, atts)[k])
    ensures var v := Decode(e, atts[k].exchange).value;
      SyncAttempts(retries, backoff, e, store, key, atts)
        == SyncRun(Ok(v), k + 1, Sleeps(backoff, k), store[key := Stamped(atts[k].end, v)])
  {
    FirstIndexIs(Outcomes(e, atts), IsOk, Attempts(retries), k);
  }

  /** `record_ext_api_call(url, status, duration_ms)`, as an event. */
  datatype ExtCall = ExtCall(url: string, status: int, durationMs: real)

  /** The status recorded for an attempt: the response's, or 599 when none arrived. */
  function RecordedStatus(x: Exchange<Json>): (s: int)
    ensures x.Response? ==> s == x.status
    ensures x.NoResponse? ==> s == 599
  {
    if x.Response? then x.status else 599
  }

  /** The calls recorded for a run of attempts: one each, timed from its start to its end in milliseconds. */
  function Calls(url: string, atts: seq<Attempt<Json>>): (cs: seq<ExtCall>)
    ensures |cs| == |atts|
    ensures forall i :: 0 <= i < |atts| ==>
      cs[i] == ExtCall(url, RecordedStatus(atts[i].exchange), (atts[i].end - atts[i].start) * 1000.0)
  {
    seq(|atts|, i requires 0 <= i < |atts| =>
      ExtCall(url, RecordedStatus(atts[i].exchange), (atts[i].end - atts[i].start) * 1000.0))
  }

  /** The outcome of every daily attempt, in order. */
  function DailyOutcomes(atts: seq<Attempt<Json>>): (os: seq<Result<Json, Fault>>)
    ensures |os| == |atts|
    ensures forall i :: 0 <= i < |atts| ==> os[i] == Fetched(atts[i].exchange)
  {
    seq(|atts|, i requires 0 <= i < |atts| => Fetched(atts[i].exchange))
  }

  predicate DailyOk(r: Result<Json, Fault>) {
    r.Ok?
  }

  /** Everything one `fetch_recent_daily` call determines. */
  datatype DailyRun = DailyRun(
    result: Result<Json, FetchError>,
    calls: seq<ExtCall>,               // recorded external calls, one per request
    sleeps: seq<real>,                 // `asyncio.sleep` durations, in order
    store: map<string, Stamped<Json>>) // `_daily_cache` afterwards

  /** The specification of `fetch_recent_daily`: a truthy cached payload is returned; otherwise the attempts run. */
  function DailyFetch(retries: int, backoff: real, url: string, ttl: int, store: map<string, Stamped<Json>>,
                      key: string, now: real, atts: seq<Attempt<Json>>): DailyRun
    requires |atts| >= Attempts(retries)
  {
    var look := TtlGet(store, ttl, key, now);
    if look.hit.Some? && Truthy(look.hit.value) then DailyRun(Ok(look.hit.value), [], [], look.store)
    else DailyAttempts(retries, backoff, url, look.store, key, atts)
  }

  /**
   * The attempts of `fetch_recent_daily`: every attempt is recorded, the
   * first success is cached and returned, and a sleep separates consecutive
   * attempts only.
   */
  function DailyAttempts(retries: int, backoff: real, url: string, store: map<string, Stamped<Json>>,
                         key: string, atts: seq<Attempt<Json>>): DailyRun
    requires |atts| >= Attempts(retries)
  {
    var lim := Attempts(retries);
    var os := DailyOutcomes(atts);
    var k := FirstIndex(os, DailyOk, lim);
    if k < lim then
      DailyRun(Ok(os[k].value), Calls(url, atts[..k + 1]), Sleeps(backoff, k),
               store[key := Stamped(atts[k].end, os[k].value)])
    else
      DailyRun(Err(if lim == 0 then NoAttempts else Failed(os[lim - 1].error)), Calls(url, atts[..lim]),
               Sleeps(backoff, if lim == 0 then 0 else lim - 1), store)
  }

  /** `DailyAttempts` when the first `k` attempts fail and attempt `k` succeeds. */
  lemma DailyAttemptsSucceedAt(retries: int, backoff: real, url: string, store: map<string, Stamped<Json>>,
                               key: string, atts: seq<Attempt<Json>>, k: nat)
    requires |atts| >= Attempts(retries) && k < Attempts(retries)
    requires FirstIndex(DailyOutcomes(atts), DailyOk, Attempts(retries)) >= k && DailyOk(DailyOutcomes(atts)[k])
    ensures var v := Fetched(atts[k].exchange).value;
      DailyAttempts(retries, backoff, url, store, key, atts)
        == DailyRun(Ok(v), Calls(url, atts[..k + 1]), Sleeps(backoff, k), store[key := Stamped(atts[k].end, v)])
  {
    FirstIndexIs(DailyOutcomes(atts), DailyOk, Attempts(retries), k);
  }

  lemma CallsGrow(url: string, atts: seq<Attempt<Json>>, k: nat)
    requires k < |atts|
    ensures Calls(url, atts[..k + 1])
         == Calls(url, atts[..k]) + [ExtCall(url, RecordedStatus(atts[k].exchange), (atts[k].end - atts[k].start) * 1000.0)]
  {
  }

  /** A fresh, truthy cached value is answered without a request or a sleep, and the cache is left as it was. */
  lemma CachedValueIsServed(retries: int, backoff: real, e: Endpoint, ttl: int, store: map<string, Stamped<Cached>>,
                            key: string, now: real, atts: seq<Attempt<Json>>)
    requires |atts| >= Attempts(retries)
    requires key in store && now - store[key].at <= ttl as real && CachedTruthy(store[key].value)
    ensures SyncFetch(retries, backoff, e, ttl, store, key, now, atts) == SyncRun(Ok(store[key].value), 0, [], store)
  {
  }

  /**
   * A falsy cached payload (an empty object, say) is never served: a fresh
   * request goes out, and an expired entry is gone unless an attempt succeeds.
   */
  lemma FalsyOrStaleIsRefetched(retries: int, backoff: real, e: Endpoint, ttl: int, store: map<string, Stamped<Cached>>,
                                key: string, now: real, atts: seq<Attempt<Json>>)
    requires |atts| >= Attempts(retries) && retries >= 1
    requires key in store && (!CachedTruthy(store[key].value) || now - store[key].at > ttl as real)
    ensures var run := SyncFetch(retries, backoff, e, ttl, store, key, now, atts);
      run.used >= 1 &&
      (run.result.Err? && now - store[key].at > ttl as real ==> key !in run.store)
  {
  }

  /**
   * The synchronous loops: at most `retries` requests; a success after `k`
   * failures has slept `k` times; when every attempt fails a sleep has
   * followed each of them, the last one included. The sleeps are the first
   * ones of the doubling schedule `Sleeps`. The assertion error arises
   * exactly when `retries <= 0`.
   */
  lemma SyncAttemptsCounts(retries: int, backoff: real, e: Endpoint, store: map<string, Stamped<Cached>>,
                           key: string, atts: seq<Attempt<Json>>)
    requires |atts| >= Attempts(retries)
    ensures var run := SyncAttempts(retries, backoff, e, store, key, atts);
      run.used <= Attempts(retries) &&
      (run.result.Ok? ==> run.used >= 1 && |run.sleeps| == run.used - 1) &&
      (run.result.Err? ==> run.used == Attempts(retries) && |run.sleeps| == run.used) &&
      run.sleeps == Sleeps(backoff, |run.sleeps|) &&
      (run.result == Err(NoAttempts) <==> retries <= 0)
  {
    var lim := Attempts(retries);
    var os := Outcomes(e, atts);
    var k := FirstIndex(os, IsOk, lim);
    var run := SyncAttempts(retries, backoff, e, store, key, atts);
    var n := if k < lim then k else lim;
    assert run.sleeps == Sleeps(backoff, n);
    if k < lim {
      assert run.result == Ok(os[k].value) && run.used == k + 1;
    } else {
      assert run.result == Err(if lim == 0 then NoAttempts else Failed(os[lim - 1].error)) && run.used == lim;
    }
  }

  /**
   * A successful fetch leaves its value in the cache under the request's
   * key, stamped with the end of the successful attempt; an unsuccessful
   * one leaves the cache as it found it.
   */
  lemma SyncAttemptsCache(retries: int, backoff: real, e: Endpoint, store: map<string, Stamped<Cached>>,
                          key: string, atts: seq<Attempt<Json>>)
    requires |atts| >= Attempts(retries)
    ensures var run := SyncAttempts(retries, backoff, e, store, key, atts);
      (run.result.Ok? ==> run.used >= 1 && run.store == store[key := Stamped(atts[run.used - 1].end, run.result.value)]) &&
      (run.result.Err? ==> run.store == store)
  {
    var lim := Attempts(retries);
    var os := Outcomes(e, atts);
    var k := FirstIndex(os, IsOk, lim);
    var run := SyncAttempts(retries, backoff, e, store, key, atts);
    if k < lim {
      assert run.result == Ok(os[k].value) && run.used - 1 == k;
      assert run.store == store[key := Stamped(atts[k].end, os[k].value)];
    } else {
      assert run.result.Err? && run.store == store;
    }
  }

  /**
   * What an hourly fetch that went to the network stores under its key is
   * served, raw, to a forecast fetch under the same key while it is fresh.
   */
  lemma HourlyRunServesNext(retries: int, backoff: real, ttl: int, store: map<string, Stamped<Cached>>,
                            key: string, now1: real, atts1: seq<Attempt<Json>>, now2: real, atts2: seq<Attempt<Json>>)
    requires |atts1| >= Attempts(retries) && |atts2| >= Attempts(retries)
    requires var run := SyncFetch(retries, backoff, Hourly, ttl, store, key, now1, atts1);
      run.used >= 1 && run.result.Ok? && CachedTruthy(run.result.value) && now2 - atts1[run.used - 1].end <= ttl as real
    ensures var run := SyncFetch(retries, backoff, Hourly, ttl, store, key, now1, atts1);
      var next := SyncFetch(retries, backoff, Forecast, ttl, run.store, key, now2, atts2);
      next == SyncRun(run.result, 0, [], run.store) && run.result.value.Raw?
  {
    var look := TtlGet(store, ttl, key, now1);
    var run := SyncFetch(retries, backoff, Hourly, ttl, store, key, now1, atts1);
    assert run == SyncAttempts(retries, backoff, Hourly, look.store, key, atts1);
    SyncAttemptsCache(retries, backoff, Hourly, look.store, key, atts1);
    var v := run.result.value;
    assert run.store[key] == Stamped(atts1[run.used - 1].end, v);
    CachedValueIsServed(retries, backoff, Forecast, ttl, run.store, key, now2, atts2);
    assert Outcomes(Hourly, atts1)[run.used - 1] == Ok(v);
  }

  /**
   * Hourly data cached by `get_hourly` for the two default series in the
   * `auto` time zone is what a later `get_forecast` for the same place and
   * dates returns: a raw payload, not a parsed `ForecastResult`.
   */
  lemma HourlyPayloadServesForecast(retries: int, backoff: real, ttl: int, store: map<string, Stamped<Cached>>,
                                    lat: real, lon: real, start: Date, end: Date, now1: real, atts1: seq<Attempt<Json>>,
                                    now2: real, atts2: seq<Attempt<Json>>)
    requires |atts1| >= Attempts(retries) && |atts2| >= Attempts(retries)
    requires var run := SyncFetch(retries, backoff, Hourly, ttl, store,
                                  HourlyKey(lat, lon, start, end, ["temperature_2m", "precipitation"], "auto"), now1, atts1);
      run.used >= 1 && run.result.Ok? && CachedTruthy(run.result.value) && now2 - atts1[run.used - 1].end <= ttl as real
    ensures var run := SyncFetch(retries, backoff, Hourly, ttl, store,
                                 HourlyKey(lat, lon, start, end, ["temperature_2m", "precipitation"], "auto"), now1, atts1);
      var next := SyncFetch(retries, backoff, Forecast, ttl, run.store, ForecastKey(lat, lon, start, end), now2, atts2);
      next == SyncRun(run.result, 0, [], run.store) && run.result.value.Raw?
  {
    HourlyKeyMatchesForecastKey(lat, lon, start, end);
    HourlyRunServesNext(retries, backoff, ttl, store, ForecastKey(lat, lon, start, end), now1, atts1, now2, atts2);
  }

  /**
   * `fetch_recent_daily`: one recorded call per request, at most `retries`
   * of them, each with the response's status or 599; one sleep fewer than
   * requests, whatever the outcome; the assertion error exactly when
   * `retries <= 0`.
   */
  lemma DailyAttemptsCounts(retries: int, backoff: real, url: string, store: map<string, Stamped<Json>>,
                            key: string, atts: seq<Attempt<Json>>)
    requires |atts| >= Attempts(retries)
    ensures var run := DailyAttempts(retries, backoff, url, store, key, atts);
      |run.calls| <= Attempts(retries) &&
      (forall i :: 0 <= i < |run.calls| ==>
         run.calls[i].url == url &&
         run.calls[i].status == (if atts[i].exchange.Response? then atts[i].exchange.status else 599)) &&
      (run.result.Err? ==> |run.calls| == Attempts(retries)) &&
      (|run.calls| > 0 ==> |run.sleeps| == |run.calls| - 1) &&
      run.sleeps == Sleeps(backoff, |run.sleeps|) &&
      (run.result == Err(NoAttempts) <==> retries <= 0)
  {
    var lim := Attempts(retries);
    var os := DailyOutcomes(atts);
    var k := FirstIndex(os, DailyOk, lim);
    var run := DailyAttempts(retries, backoff, url, store, key, atts);
    var n := if k < lim then k + 1 else lim;
    assert run.calls == Calls(url, atts[..n]);
    assert run.sleeps == Sleeps(backoff, if n == 0 then 0 else n - 1);
    if k < lim {
      assert run.result == Ok(os[k].value);
    } else {
      assert run.result == Err(if lim == 0 then NoAttempts else Failed(os[lim - 1].error));
    }
  }

  /** On the same failing attempts, the synchronous loop sleeps once more than the daily one. */
  lemma SyncSleepsAfterLastFailure(retries: int, backoff: real, e: Endpoint, url: string,
                                   store: map<string, Stamped<Cached>>, dstore: map<string, Stamped<Json>>,
                                   key: string, atts: seq<Attempt<Json>>)
    requires |atts| >= Attempts(retries) && retries >= 1
    requires forall i :: 0 <= i < retries ==> Fetched(atts[i].exchange).Err?
    ensures var sync := SyncAttempts(retries, backoff, e, store, key, atts);
      var daily := DailyAttempts(retries, backoff, url, dstore, key, atts);
      sync.result.Err? && daily.result.Err? &&
      sync.sleeps == daily.sleeps + [Sleep(backoff, retries - 1)]
  {
    var os, ds := Outcomes(e, atts), DailyOutcomes(atts);
    forall i | 0 <= i < retries
      ensures !IsOk(os[i]) && !DailyOk(ds[i])
    {
      assert os[i] == Decode(e, atts[i].exchange);
    }
    FirstIndexIs(os, IsOk, retries, retries);
    FirstIndexIs(ds, DailyOk, retries, retries);
    var sync := SyncAttempts(retries, backoff, e, store, key, atts);
    var daily := DailyAttempts(retries, backoff, url, dstore, key, atts);
    assert sync.result.Err? && sync.sleeps == Sleeps(backoff, retries);
    assert daily.result.Err? && daily.sleeps == Sleeps(backoff, retries - 1);
    SleepsLast(backoff, retries);
  }

  /** The schedule of `n` sleeps is that of `n - 1` followed by the last one. */
  lemma SleepsLast(backoff: real, n: nat)
    requires n >= 1
    ensures Sleeps(backoff, n) == Sleeps(backoff, n - 1) + [Sleep(backoff, n - 1)]
  {
    var m: nat := n - 1;
    SleepsGrow(backoff, m);
    assert m + 1 == n;
  }

  /**
   * `OpenMeteoClient`. The two caches are the module-level `_cache` and
   * `_daily_cache`, shared by every client; they are handed in.
   */
  class OpenMeteoClient {
    const baseUrl: string
    const retries: int
    const backoff: real
    const cache: TtlCache<Cached>
    const dailyCache: TtlCache<Json>

    /** The constructor drops trailing slashes from the base URL. */
    constructor(baseUrl: string, retries: int, backoff: real, cache: TtlCache<Cached>, dailyCache: TtlCache<Json>)
      ensures this.baseUrl == RStrip(baseUrl, '/')
      ensures this.retries == retries && this.backoff == backoff
      ensures this.cache == cache && this.dailyCache == dailyCache
    {
      this.baseUrl := RStrip(baseUrl, '/');
      this.retries := retries;
      this.backoff := backoff;
      this.cache := cache;
      this.dailyCache := dailyCache;
    }

    /** The endpoint every request goes to. */
    function Url(): string {
      baseUrl + "/v1/forecast"
    }

    /** The cache check `get_forecast` and `get_hourly` share, after the cache key is built. */
    method SyncFetchLoop(e: Endpoint, key: string, now: real, atts: seq<Attempt<Json>>)
      returns (result: Result<Cached, FetchError>, used: nat, sleeps: seq<real>)
      requires |atts| >= Attempts(retries)
      modifies cache
      ensures SyncRun(result, used, sleeps, cache.store)
           == SyncFetch(retries, backoff, e, cache.ttl, old(cache.store), key, now, atts)
    {
      var cached := cache.Get(key, now);
      if cached.Some? && CachedTruthy(cached.value) {
        return Ok(cached.value), 0, [];
      }
      result, used, sleeps := SyncRetry(e, key, atts);
    }

    /** The synchronous retry loop: `for attempt in range(1, retries + 1)`, Python's `attempt` being `i + 1`. */
    method SyncRetry(e: Endpoint, key: string, atts: seq<Attempt<Json>>)
      returns (result: Result<Cached, FetchError>, used: nat, sleeps: seq<real>)
      requires |atts| >= Attempts(retries)
      modifies cache
      ensures SyncRun(result, used, sleeps, cache.store) == SyncAttempts(retries, backoff, e, old(cache.store), key, atts)
    {
      var lim := Attempts(retries);
      ghost var os := Outcomes(e, atts);
      var lastErr: Option<Fault> := None;
      var i := 0;
      sleeps := [];
      while i < lim
        invariant 0 <= i <= lim
        invariant FirstIndex(os, IsOk, lim) >= i
        invariant sleeps == Sleeps(backoff, i)
        invariant lastErr == if i == 0 then None else Some(os[i - 1].error)
        invariant cache.store == old(cache.store)
      {
        var outcome := Decode(e, atts[i].exchange);
        assert outcome == os[i];
        if outcome.Ok? {
          cache.Set(key, outcome.value, atts[i].end);
          SyncAttemptsSucceedAt(retries, backoff, e, old(cache.store), key, atts, i);
          return Ok(outcome.value), i + 1, sleeps;
        }
        lastErr := Some(outcome.error);
        SleepsGrow(backoff, i);
        sleeps := sleeps + [Sleep(backoff, i)];
        i := i + 1;
      }
      used := lim;
      result := Err(if lastErr.None? then NoAttempts else Failed(lastErr.value));
    }

    /** `get_forecast(lat, lon, start, end)`. */
    method GetForecast(lat: real, lon: real, start: Date, end: Date, now: real, atts: seq<Attempt<Json>>)
      returns (result: Result<Cached, FetchError>, used: nat, sleeps: seq<real>)
      requires |atts| >= Attempts(retries)
      modifies cache
      ensures SyncRun(result, used, sleeps, cache.store)
           == SyncFetch(retries, backoff, Forecast, cache.ttl, old(cache.store), ForecastKey(lat, lon, start, end), now, atts)
    {
      result, used, sleeps := SyncFetchLoop(Forecast, ForecastKey(lat, lon, start, end), now, atts);
    }

    /** `get_hourly(lat=, lon=, start=, end=, hourly=, timezone=)`, with the dates already taken from datetimes. */
    method GetHourly(lat: real, lon: real, start: Date, end: Date, hourly: seq<string>, timezone: string,
                     now: real, atts: seq<Attempt<Json>>)
      returns (result: Result<Cached, FetchError>, used: nat, sleeps: seq<real>)
      requires |atts| >= Attempts(retries)
      modifies cache
      ensures SyncRun(result, used, sleeps, cache.store)
           == SyncFetch(retries, backoff, Hourly, cache.ttl, old(cache.store),
                        HourlyKey(lat, lon, start, end, hourly, timezone), now, atts)
    {
      result, used, sleeps := SyncFetchLoop(Hourly, HourlyKey(lat, lon, start, end, hourly, timezone), now, atts);
    }

    /** `fetch_recent_daily(lat, lon, tz, days)`. */
    method FetchRecentDaily(lat: real, lon: real, tz: string, days: int, now: real, atts: seq<Attempt<Json>>)
      returns (result: Result<Json, FetchError>, calls: seq<ExtCall>, sleeps: seq<real>)
      requires |atts| >= Attempts(retries)
      modifies dailyCache
      ensures DailyRun(result, calls, sleeps, dailyCache.store)
           == DailyFetch(retries, backoff, Url(), dailyCache.ttl, old(dailyCache.store),
                         RecentDailyKey(lat, lon, tz, days), now, atts)
    {
      result, calls, sleeps := DailyFetchLoop(RecentDailyKey(lat, lon, tz, days), now, atts);
    }

    /** The cache check of `fetch_recent_daily`, after the cache key is built. */
    method DailyFetchLoop(key: string, now: real, atts: seq<Attempt<Json>>)
      returns (result: Result<Json, FetchError>, calls: seq<ExtCall>, sleeps: seq<real>)
      requires |atts| >= Attempts(retries)
      modifies dailyCache
      ensures DailyRun(result, calls, sleeps, dailyCache.store)
           == DailyFetch(retries, backoff, Url(), dailyCache.ttl, old(dailyCache.store), key, now, atts)
    {
      var cached := dailyCache.Get(key, now);
      if cached.Some? && Truthy(cached.value) {
        return Ok(cached.value), [], [];
      }
      result, calls, sleeps := DailyRetry(key, atts);
    }

    /** The asynchronous retry loop of `fetch_recent_daily`. */
    method DailyRetry(key: string, atts: seq<Attempt<Json>>)
      returns (result: Result<Json, FetchError>, calls: seq<ExtCall>, sleeps: seq<real>)
      requires |atts| >= Attempts(retries)
      modifies dailyCache
      ensures DailyRun(result, calls, sleeps, dailyCache.store)
           == DailyAttempts(retries, backoff, Url(), old(dailyCache.store), key, atts)
    {
      var url := Url();
      var lim := Attempts(retries);
      ghost var os := DailyOutcomes(atts);
      var lastErr: Option<Fault> := None;
      var i := 0;
      calls, sleeps := [], [];
      while i < lim
        invariant 0 <= i <= lim
        invariant FirstIndex(os, DailyOk, lim) >= i
        invariant calls == Calls(url, atts[..i])
        invariant i < lim || lim == 0 ==> sleeps == Sleeps(backoff, i)
        invariant i == lim > 0 ==> sleeps == Sleeps(backoff, lim - 1)
        invariant lastErr == if i == 0 then None else Some(os[i - 1].error)
        invariant dailyCache.store == old(dailyCache.store)
      {
        var a := atts[i];
        var status := RecordedStatus(a.exchange);
        var outcome := Fetched(a.exchange);
        assert outcome == os[i];
        CallsGrow(url, atts, i);
        calls := calls + [ExtCall(url, status, (a.end - a.start) * 1000.0)];
        if outcome.Ok? {
          dailyCache.Set(key, outcome.value, a.end);
          DailyAttemptsSucceedAt(retries, backoff, url, old(dailyCache.store), key, atts, i);
          return Ok(outcome.value), calls, sleeps;
        }
        lastErr := Some(outcome.error);
        // Only a failure before the last attempt is followed by a sleep; the last one ends the loop.
        if i + 1 < lim {
          SleepsGrow(backoff, i);
          sleeps := sleeps + [Sleep(backoff, i)];
        }
        i := i + 1;
      }
      result := Err(if lastErr.None? then NoAttempts else Failed(lastErr.value));
    }
  }
}
