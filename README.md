# Weather forecast app: verified model of its core

This project is a Dafny model of the core of a small weather-forecast
application. It covers a FastAPI backend and a Next.js frontend.

**Backend**

- **Geocoding proxy** (`backend/app/api/geocode.py`). It forwards
  place-name searches and reverse lookups to Nominatim. A shared
  LRU-with-TTL cache sits in front of it. Calls go through a process-wide
  minimum-interval gate and a circuit breaker that counts failures in a
  sliding window. Each upstream call is retried with capped exponential
  backoff.
- **Open-Meteo client** (`backend/app/services/open_meteo.py`). It has a
  TTL cache. Its hourly forecast and raw hourly fetches are synchronous and
  share one retry loop. The recent daily summary is fetched asynchronously
  and records each attempt. The client also holds the defensive payload
  parser and the cache-key formats.
- **Observability** (`backend/app/observability.py`). A wrapper around
  `requests.Session.request` records every outgoing call into the current
  request's call list. The middleware opens that list for each request,
  classifies the response and feeds per-path metrics. The metrics are a
  request count, a failure count and a window of the newest 1000 latencies
  with nearest-rank percentiles. `metrics_dump` aggregates them.
- **Per-IP token bucket** (`backend/app/middleware_rate_limit.py`). It
  answers `429` with a `Retry-After` hint.
- **Next-day baselines** (`backend/app/ml/baseline.py`). They are the
  day slice of an hourly forecast, the day statistics, the persistence
  forecast, and the choice between persistence and a stored regression
  model.

**Frontend**

- **Response normalisation of the forecast page**
  (`frontend/src/app/forecast/page.tsx`). It coerces values to numbers,
  extracts the series, merges predictions and actuals by date, and formats
  the chance of rain.
- **Chart merge of the home page** (`frontend/app/page.tsx`).
- **Locale switch** (`frontend/src/components/LanguageToggle.tsx`).
- **Location form rule** (`frontend/src/lib/validation.ts`).

**How the model is built**

- Code that keeps mutable state is a Dafny `class` whose methods are proved
  equal to a pure specification function, and the lemmas are stated about
  that function. The classes are:
  - the LRU cache, the circuit breaker and the rate gate;
  - the geocoder endpoints;
  - the TTL cache and the Open-Meteo client;
  - the path metrics and the registry;
  - the call list and the session;
  - the rate limiter.
- The retry loops are `while` loops over a sequence of attempts. Each
  attempt carries its clock readings and what the HTTP exchange produced.
  Loop invariants tie each loop to a closed-form specification: the first
  successful attempt, the breaker after the failures before it, the gate's
  timestamp, and the sleeps, in order.
- The merges by date in the frontend are two loops over an association
  list. They are proved against functions on values, and then sorted.
- Pure code is written as functions, with lemmas about them.
- Clocks, sleeps, HTTP exchanges, environment variables and JavaScript
  built-ins such as `Number(...)` and `String(...)` are parameters.

**Files**

| file | module | models |
|---|---|---|
| `wrappers.dfy`, `json.dfy`, `js.dfy`, `upstream.dfy`, `text.dfy` | helpers | Option and Result; decoded JSON with Python truthiness and `dict.get`; JavaScript numbers; one HTTP attempt; string helpers such as `strip`, `split`/`join`, code-point order and the decimal grammar |
| `fixed_point.dfy` | `FixedPoint` | `f"{x:.Nf}"` formatting and `round()`. The cache keys print coordinates with it (`rev\|{lat:.5f}\|…` and `_cache_key`), so what a key determines depends on it. `_pct` rounds its index with it, and `ToFloatReadsCoordinate` reads a printed coordinate back |
| `lru_cache.dfy` | `GeocodeCache` | `_cache_get` / `_cache_set` |
| `rate_gate.dfy` | `RateGate` | `_respect_rate_limit` |
| `circuit_breaker.dfy` | `CircuitBreakers` | `CircuitBreaker` |
| `geocode_format.dfy` | `GeocodeFormat` | `_to_float`, `_format_item`, the search parameters and the cache keys |
| `geocode_invoker.dfy` | `GeocodeInvoker` | `_get_json_with_retry` |
| `geocode_api.dfy` | `GeocodeApi` | `geocode_search`, `geocode_reverse` |
| `weather_parse.dfy` | `WeatherParse` | `_parse`, the cache keys and the look-back clamp |
| `weather_client.dfy` | `WeatherClient` | `_TTLCache` and `OpenMeteoClient` |
| `metrics.dfy` | `Metrics` | `_PathMetrics`, `metrics_update`, `metrics_dump` |
| `call_capture.dfy` | `CallCapture` | `wrap_requests`, `ObservabilityMiddleware.dispatch` |
| `rate_limit.dfy` | `RateLimit` | `RateLimitMiddleware` |
| `baseline.dfy` | `Baseline` | the baselines |
| `date_map.dfy` | `DateMap` | the date-keyed `Map` of the frontend |
| `forecast_page.dfy` | `ForecastPage` | `coerceNumber`, `formatPop`, `normalizeResponse` |
| `chart_data.dfy` | `ChartData` | `buildChartData` |
| `language_toggle.dfy` | `LanguageToggle` | `LanguageToggle` |
| `validation.dfy` | `Validation` | `zLocation` |

## Model

| member | source | states |
|---|---|---|
| FixedPoint.Round | backend/app/api/geocode.py:246 | `{:.5f}` prints the sign of the input and a magnitude within half a unit of the last place of the input's magnitude, with the fraction in `places` digits |
| FixedPoint.RenderInjective | backend/app/api/geocode.py:246 | two decimals that print the same at the same number of places are equal |
| FixedPoint.RenderParses | backend/app/api/geocode.py:87-96 | reading a fixed-point rendering back with `float()` gives exactly the value of the decimal |
| FixedPoint.RoundHalfEven | backend/app/observability.py:52 | Python's `round` lands within half a unit of its input and takes the even neighbour on a tie |
| Text.Strip | backend/app/middleware_rate_limit.py:27 | the `.strip()` of the first `X-Forwarded-For` hop leaves no whitespace at either end and yields empty exactly when the input is all whitespace; `GeocodeFormat.ToFloat` also uses it for the whitespace that `float()` itself ignores around a number (backend/app/api/geocode.py:93) |
| Text.RStrip | backend/app/services/open_meteo.py:100 | `rstrip("/")` removes exactly the trailing run of the character, so the result does not end with it |
| Text.Split | frontend/src/components/LanguageToggle.tsx:13 | `split('/')` always gives at least one piece, and no piece contains the separator |
| Text.JoinSplit | frontend/src/components/LanguageToggle.tsx:13-15 | joining the pieces of a split on one separator gives the original string back |
| Text.SplitJoin | frontend/src/components/LanguageToggle.tsx:13-15 | splitting a join of separator-free pieces gives the pieces back |
| Text.LtTransitive | frontend/app/page.tsx:153 | the code-point order used to sort dates is transitive |
| Text.LtTotal | frontend/app/page.tsx:153 | two distinct dates are always ordered one way or the other |
| Text.LtAsymmetric | frontend/app/page.tsx:153 | the order is asymmetric |
| Json.Truthy | backend/app/services/open_meteo.py:129 | Python's `bool()` on a decoded JSON value: null, false, zero, the empty string, list and object are falsy; `Json.Or`, `WeatherClient.CachedValueIsServed` and `WeatherClient.FalsyOrStaleIsRefetched` rest on it |
| GeocodeCache.RemoveFirst | backend/app/api/geocode.py:49-52 | `list.remove` with the `ValueError` swallowed drops exactly one occurrence of a present key, leaves a list without it unchanged, and keeps a repeat-free list repeat-free |
| GeocodeCache.RemoveFirstAt | backend/app/api/geocode.py:49-52 | `list.remove` drops the first occurrence of the key and keeps the elements before and after it in their order |
| GeocodeCache.Lookup | backend/app/api/geocode.py:43-60 | `_cache_get` on values: a hit exactly for a present entry no older than the TTL, returning its payload with the map unchanged and the key first in the recency list; a miss leaves the key in neither structure; no other key enters or leaves; `HitKeepsTimestamp`, `HitMovesToFront`, `ExpiredIsForgotten` and `LookupKeepsWellFormed` say the rest |
| GeocodeCache.Store | backend/app/api/geocode.py:63-72 | `_cache_set` on values: at most `capacity` keys remain, the stored key comes first, and every other surviving entry is the one it was before; `StoreShape`, `StoreKeepsWellFormed`, `FreshStoreHits` and `FullStoreEvictsLeastRecent` say the rest |
| GeocodeCache.EvictKeepsFront | backend/app/api/geocode.py:70-72 | the eviction loop keeps the first `capacity` keys of the recency list and forgets exactly the entries of the others |
| GeocodeCache.StoreShape | backend/app/api/geocode.py:63-72 | after `_cache_set` the key is first in the recency list with the new timestamp and payload; the list is the old one with the key moved to the front, cut to capacity |
| GeocodeCache.StoreKeepsWellFormed | backend/app/api/geocode.py:63-72 | `_cache_set` keeps the map and the recency list on the same keys, with no repeats and at most `capacity` of them |
| GeocodeCache.LookupKeepsWellFormed | backend/app/api/geocode.py:43-60 | `_cache_get` keeps the same invariant |
| GeocodeCache.FreshStoreHits | backend/app/api/geocode.py:43-72 | a stored payload is found again, and its key moves to the front, for as long as it is no older than the TTL |
| GeocodeCache.ExpiredIsForgotten | backend/app/api/geocode.py:47-53 | an entry older than the TTL is a miss and is removed from both structures |
| GeocodeCache.HitKeepsTimestamp | backend/app/api/geocode.py:54-60 | a hit moves the key to the front without touching the entry, so its age keeps counting from the store |
| GeocodeCache.HitMovesToFront | backend/app/api/geocode.py:54-60 | a fresh hit puts the key at the front of the recency list and leaves every other key in its previous relative order |
| GeocodeCache.FullStoreEvictsLeastRecent | backend/app/api/geocode.py:63-72 | storing a new key into a full cache evicts exactly the last key of the recency list and keeps every other entry unchanged |
| GeocodeCache.FullStoreShape | backend/app/api/geocode.py:63-72 | the state after such a store, in closed form |
| GeocodeCache.LruCache.constructor | backend/app/api/geocode.py:37-40 | the cache starts empty and well formed with the configured capacity and TTL |
| GeocodeCache.LruCache.Get | backend/app/api/geocode.py:43-60 | the in-place lookup returns and leaves what `Lookup` specifies, and keeps the invariant |
| GeocodeCache.LruCache.Set | backend/app/api/geocode.py:63-72 | the in-place store with its eviction loop leaves what `Store` specifies, and keeps the invariant |
| RateGate.MinInterval | backend/app/api/geocode.py:22-23 | the minimum interval is positive, at most 10 s, and is the reciprocal of the QPS once the QPS is at least 0.1 |
| RateGate.Wait | backend/app/api/geocode.py:79-83 | the wait is never negative and always reaches the previous call's timestamp plus the minimum interval |
| RateGate.RateGate.constructor | backend/app/api/geocode.py:23-33 | the gate starts with last-call timestamp 0 |
| RateGate.RateGate.Acquire | backend/app/api/geocode.py:75-84 | the call waits `max(0, interval - elapsed)` and records a timestamp at least one interval after the previous one and no earlier than now |
| RateGate.AcquisitionsAreSpaced | backend/app/api/geocode.py:75-84 | `n` acquisitions move the timestamp forward by at least `n` minimum intervals |
| CircuitBreakers.Recent | backend/app/api/geocode.py:142 | the pruned failure list keeps exactly the failures still inside the window |
| CircuitBreakers.RecentConcat | backend/app/api/geocode.py:142 | pruning distributes over concatenation, so it keeps the order of the failures |
| CircuitBreakers.SuccessStep | backend/app/api/geocode.py:134-137 | a success closes the breaker and clears the failures |
| CircuitBreakers.FailureStep | backend/app/api/geocode.py:139-146 | a failure is recorded last, only failures within the window survive, and the breaker opens at `now` exactly when the list reaches the threshold; otherwise phase and open time are kept |
| CircuitBreakers.FailuresStayInWindow | backend/app/api/geocode.py:139-146 | failures whose times all lie in one window-long interval are all still listed, in order, after the last of them |
| CircuitBreakers.ThresholdFailuresOpen | backend/app/api/geocode.py:139-146 | `threshold` failures within one window open the breaker from any state, with the open time at the last failure |
| CircuitBreakers.AllowStep | backend/app/api/geocode.py:125-132 | `allow()` on values: a call goes out exactly when the breaker is not open or the reset timeout has elapsed; afterwards the breaker is open exactly when the call was refused; failures and the opening time are untouched, and a closed or half-open breaker is left as it was |
| CircuitBreakers.OpenRefusesUntilReset | backend/app/api/geocode.py:125-131 | an open breaker refuses calls and does not change until the reset timeout has elapsed |
| CircuitBreakers.OpenProbesAfterReset | backend/app/api/geocode.py:127-130 | after the reset timeout an open breaker lets a call through and becomes half-open |
| CircuitBreakers.NotOpenAllows | backend/app/api/geocode.py:132 | a closed or half-open breaker lets every call through unchanged |
| CircuitBreakers.SuccessRecovers | backend/app/api/geocode.py:134-137 | a success closes the breaker from any state, and a second success changes nothing |
| CircuitBreakers.FailedProbeMayStayHalfOpen | backend/app/api/geocode.py:139-146 | a failed half-open probe after a quiet window leaves the breaker half-open rather than reopening it |
| CircuitBreakers.CircuitBreaker.constructor | backend/app/api/geocode.py:117-123 | a new breaker is closed with no failures and open time 0 |
| CircuitBreakers.CircuitBreaker.Allow | backend/app/api/geocode.py:125-132 | the in-place `allow()` answers and leaves what `AllowStep` specifies |
| CircuitBreakers.CircuitBreaker.OnSuccess | backend/app/api/geocode.py:134-137 | the in-place `on_success()` leaves what `SuccessStep` specifies |
| CircuitBreakers.CircuitBreaker.OnFailure | backend/app/api/geocode.py:139-146 | the in-place `on_failure()` leaves what `FailureStep` specifies |
| GeocodeFormat.ToFloat | backend/app/api/geocode.py:87-96 | null, lists and objects give None; integers and floats give their value; booleans give 1.0 or 0.0; a string is read by the decimal grammar after stripping, None when it does not parse |
| GeocodeFormat.ToFloatRejectsForeignChar | backend/app/api/geocode.py:91-95 | a string whose stripped form holds a character outside the modelled decimal grammar and outside the ASCII letters, such as a decimal comma, gives None |
| GeocodeFormat.ToFloatReadsUntrimmed | backend/app/api/geocode.py:91-93 | a decimal string without surrounding whitespace is read as it is |
| GeocodeFormat.ToFloatReadsCoordinate | backend/app/api/geocode.py:91-93 | a coordinate sent as a five-decimal string is read back exactly |
| GeocodeFormat.ToFloatReadsInteger | backend/app/api/geocode.py:91-93 | an integer sent as a decimal string is read back exactly |
| GeocodeFormat.FormatItem | backend/app/api/geocode.py:99-112 | `name` falls back to `display_name` exactly when it is missing or falsy; the coordinates go through `_to_float`; `display_name`, `class`, `type` and `importance` are copied, and `bbox` is `boundingbox`, each None when missing |
| GeocodeFormat.FormatResults | backend/app/api/geocode.py:231 | one place per object element of the list, so never more places than elements |
| GeocodeFormat.FormatResultsAppend | backend/app/api/geocode.py:231 | formatting keeps the order of the list: a concatenation formats part by part |
| GeocodeFormat.SearchParams | backend/app/api/geocode.py:209-216 | the four fixed parameters, plus `countrycodes` exactly when a non-empty filter is given |
| GeocodeFormat.SearchKey | backend/app/api/geocode.py:204 | the search key starts with the query and a `\|` and ends with a `\|` and the language; `SearchKeyCanEqualReverseKey` shows it can coincide with a reverse key |
| GeocodeFormat.ReverseKey | backend/app/api/geocode.py:246 | the reverse key starts with `rev\|` and ends with a `\|` and the language; `ReverseKeyDeterminesRequest` and `KeyFieldsDetermined` show it pins down the rounded coordinates and the language |
| GeocodeFormat.ReverseKeyDeterminesRequest | backend/app/api/geocode.py:246 | two reverse keys are equal only for the same coordinates at five decimals and the same language |
| GeocodeFormat.KeyFieldsDetermined | backend/app/api/geocode.py:246 | the fields of a `rev\|a\|b\|lang` key are read back off it |
| GeocodeFormat.SearchKeyCanEqualReverseKey | backend/app/api/geocode.py:204-246 | the search and reverse key formats share one namespace: some search lands on the key of any reverse lookup |
| GeocodeInvoker.HttpStatus | backend/app/api/geocode.py:156-188 | an open circuit answers 503 and an exhausted retry answers 502 |
| GeocodeInvoker.Classify | backend/app/api/geocode.py:165-173 | an attempt succeeds exactly on a 2xx status with a decodable body; 429 and 5xx are the retryable statuses; no response is a transport error |
| GeocodeInvoker.Backoffs | backend/app/api/geocode.py:179-181 | the i-th backoff is `min(base * 2^i, 3.0)` |
| GeocodeInvoker.Invoke | backend/app/api/geocode.py:152-188 | `_get_json_with_retry` as a value: the result, request count, breaker, gate and backoff sleeps; `InvokeSucceedsAt`, `InvokeExhausted`, `OpenBreakerFailsFast`, `AttemptsBoundedAndSpaced` and `RetryAfterTooManyRequests` state what it does |
| GeocodeInvoker.InvokeSucceedsAt | backend/app/api/geocode.py:162-175 | when attempt `k` is the first success: `k + 1` requests, the payload, the breaker closed after the earlier failures, and `k` backoffs |
| GeocodeInvoker.InvokeExhausted | backend/app/api/geocode.py:176-188 | when every attempt fails: all attempts are used, the breaker has seen every failure, and the last error is reported |
| GeocodeInvoker.OneMoreAttempt | backend/app/api/geocode.py:163-178 | one more attempt adds one breaker failure and one gate acquisition |
| GeocodeInvoker.GetJsonWithRetry | backend/app/api/geocode.py:152-188 | the loop run against the breaker and gate objects has exactly the outcome, request count, breaker state, gate timestamp and backoffs that `Invoke` specifies |
| GeocodeInvoker.OpenBreakerFailsFast | backend/app/api/geocode.py:156-159 | an open breaker within its reset timeout answers 503 with no request, no sleep, and gate and breaker untouched |
| GeocodeInvoker.AttemptsBoundedAndSpaced | backend/app/api/geocode.py:162-183 | at most `HTTP_RETRY_MAX + 1` requests, each at least one minimum interval after the previous, and one backoff fewer than requests |
| GeocodeInvoker.InvokeCounts | backend/app/api/geocode.py:162-183 | the request and backoff counts alone |
| GeocodeInvoker.InvokeSpacing | backend/app/api/geocode.py:163 | the gate timestamp moves by at least one minimum interval per request |
| GeocodeInvoker.BackoffsCappedAndGrowing | backend/app/api/geocode.py:180 | backoffs are non-negative, never shrink and never exceed 3 s |
| GeocodeInvoker.RetryAfterTooManyRequests | backend/app/api/geocode.py:162-181 | a 429 then a 200 gives the 200's payload after two requests and one backoff, with the breaker closed and empty |
| GeocodeInvoker.AllFailedIsBadGateway | backend/app/api/geocode.py:185-188 | when every attempt fails the answer is 502, carrying the last attempt's error |
| GeocodeApi.SearchFlow | backend/app/api/geocode.py:192-234 | `geocode_search` as a value: answer, shared state and request count; `InvalidRequestsChangeNothing`, `SearchAnswers`, `CachedSearchMakesNoRequest`, `LiveSearchIsServedFromCache`, `OpenCircuitSearch` and `ReverseEntryBreaksSearch` state what it does |
| GeocodeApi.ReverseFlow | backend/app/api/geocode.py:238-269 | `geocode_reverse` as a value; `InvalidRequestsChangeNothing`, `CachedReverseMakesNoRequest`, `LiveReverseIsServedFromCache` and `ReverseSharesEntryByRounding` state what it does |
| GeocodeApi.InvalidRequestsChangeNothing | backend/app/api/geocode.py:193-194 | a query the validation refuses answers 422 and touches no shared state |
| GeocodeApi.SearchAnswers | backend/app/api/geocode.py:191-234 | a search answers a result list or one of 422, 500, 502, 503; an error never adds cache keys |
| GeocodeApi.CachedSearchMakesNoRequest | backend/app/api/geocode.py:204-207 | a cache hit makes no request and leaves the breaker and the gate alone |
| GeocodeApi.CachedReverseMakesNoRequest | backend/app/api/geocode.py:246-249 | the same for a reverse lookup, which returns the cached payload whatever its shape |
| GeocodeApi.LiveSearchIsServedFromCache | backend/app/api/geocode.py:204-234 | a live search answer is served from the cache, with the same places and no request, to the same search within the TTL |
| GeocodeApi.LiveReverseIsServedFromCache | backend/app/api/geocode.py:246-269 | the same for a reverse lookup |
| GeocodeApi.ReverseSharesEntryByRounding | backend/app/api/geocode.py:246 | two reverse lookups share a cache entry exactly when their coordinates round alike at five decimals |
| GeocodeApi.OpenCircuitSearch | backend/app/api/geocode.py:156-159 | a cache miss with the breaker open answers 503 without a request |
| GeocodeApi.ReverseEntryBreaksSearch | backend/app/api/geocode.py:204-207 | a reverse entry cached under the colliding key makes the matching search fail with 500, because it has no `results` |
| GeocodeApi.Geocoder.constructor | backend/app/api/geocode.py:37-40 | the endpoints start over a well-formed cache with the given breaker, gate and retry settings |
| GeocodeApi.Geocoder.Search | backend/app/api/geocode.py:191-234 | the endpoint body run against the shared objects answers and leaves exactly what `SearchFlow` specifies |
| GeocodeApi.Geocoder.Reverse | backend/app/api/geocode.py:237-269 | the same against `ReverseFlow` |
| WeatherParse.Series | backend/app/services/open_meteo.py:163-165 | `x or []` as a list: falsy gives empty, a list itself, a string its characters, any other value raises |
| WeatherParse.Floats | backend/app/services/open_meteo.py:169-170 | `map(float, ...)` succeeds exactly when every element converts, element by element |
| WeatherParse.Min3 | backend/app/services/open_meteo.py:166 | the common length is one of the three lengths and no greater than any of them |
| WeatherParse.ParseHourly | backend/app/services/open_meteo.py:163-171 | the three parsed series have the same length |
| WeatherParse.Parse | backend/app/services/open_meteo.py:160-171 | a payload that is not an object raises; the three series have one length |
| WeatherParse.ParseKeepsCommonPrefix | backend/app/services/open_meteo.py:166-171 | with three lists the result is exactly their common prefix, converted, and fails exactly when a kept value does not convert |
| WeatherParse.ParseMissingHourly | backend/app/services/open_meteo.py:162 | a missing or falsy `hourly` parses to three empty series |
| WeatherParse.ParseRejectsNumberSeries | backend/app/services/open_meteo.py:163-166 | a non-zero number where a list belongs makes the parse raise |
| WeatherParse.ClampPastDays | backend/app/services/open_meteo.py:244 | the look-back lies in 1..92, keeps values in range and clamps the rest to the nearer bound |
| WeatherParse.IsoDate | backend/app/services/open_meteo.py:117 | `date.isoformat()`; `IsoDateChars` and `IsoDateInjective` show it uses digits and dashes only and separates different dates |
| WeatherParse.IsoDateChars | backend/app/services/open_meteo.py:117 | an ISO date is made of digits and dashes only |
| WeatherParse.IsoDateInjective | backend/app/services/open_meteo.py:117 | different dates print differently |
| WeatherParse.CacheKey | backend/app/services/open_meteo.py:107-117 | `_cache_key`; `CacheKeyDeterminesRequest` shows equal keys mean equal rounded coordinates, dates, series and time zone, and `HourlyKeyMatchesForecastKey` that `get_hourly` with the default series reuses `get_forecast`'s key |
| WeatherParse.CacheKeyDeterminesRequest | backend/app/services/open_meteo.py:107-117 | a forecast key pins down the coordinates at four decimals and both dates, and the series and time zone together |
| WeatherParse.DailyKeyDeterminesRequest | backend/app/services/open_meteo.py:66-67 | a daily key pins down the coordinates, the time zone and the look-back |
| WeatherParse.RecentDailyKeyClamps | backend/app/services/open_meteo.py:244-245 | all look-backs at or beyond 92, and all at or below 1, share one entry |
| WeatherParse.RecentDailyKeySeparates | backend/app/services/open_meteo.py:244-245 | look-backs the clamp keeps apart get separate entries |
| WeatherParse.HourlyKeyMatchesForecastKey | backend/app/services/open_meteo.py:192-193 | an hourly request for the two default series in `auto` has the very key of the forecast request |
| WeatherClient.TtlGet | backend/app/services/open_meteo.py:45-54 | an entry answers exactly while its age is at most the TTL; an older one is dropped; no other entry changes |
| WeatherClient.TtlCache.constructor | backend/app/services/open_meteo.py:41-43 | the cache starts empty with its TTL |
| WeatherClient.TtlCache.Get | backend/app/services/open_meteo.py:45-54 | the in-place `get` answers and leaves what `TtlGet` specifies |
| WeatherClient.TtlCache.Set | backend/app/services/open_meteo.py:56-57 | `set` stamps the entry afresh and changes no other key |
| WeatherClient.SetThenGet | backend/app/services/open_meteo.py:45-57 | a stored value is served within the TTL and forgotten after it |
| WeatherClient.SetGrowsByOneKey | backend/app/services/open_meteo.py:56-57 | a store adds exactly its key: the cache has no size bound |
| WeatherClient.Fetched | backend/app/services/open_meteo.py:146-150 | an exchange yields a payload exactly on a 2xx status with a decodable body; a missing response is the transport error |
| WeatherClient.Decode | backend/app/services/open_meteo.py:149-151 | one attempt's body; `DecodeMeaning` shows an hourly attempt keeps the raw payload and a forecast attempt keeps the parsed result or fails on a payload `_parse` refuses |
| WeatherClient.DecodeMeaning | backend/app/services/open_meteo.py:149-151 | an hourly attempt keeps the raw payload; a forecast attempt also needs it to parse and keeps the parsed result |
| WeatherClient.Sleeps | backend/app/services/open_meteo.py:156 | the i-th sleep is `backoff * 2^i` |
| WeatherClient.SyncFetch | backend/app/services/open_meteo.py:119-158 | `get_forecast` / `get_hourly` as a value; `CachedValueIsServed` and `FalsyOrStaleIsRefetched` state the cache check, and `HourlyRunServesNext` and `HourlyPayloadServesForecast` the shared cache |
| WeatherClient.SyncAttempts | backend/app/services/open_meteo.py:142-158 | the retry loop as a value; `SyncAttemptsSucceedAt`, `SyncAttemptsCounts`, `SyncAttemptsCache` and `SyncSleepsAfterLastFailure` state what it does |
| WeatherClient.SyncAttemptsSucceedAt | backend/app/services/open_meteo.py:143-153 | when attempt `k` is the first success: its value is cached and returned after `k` sleeps |
| WeatherClient.RecordedStatus | backend/app/services/open_meteo.py:264-268 | the recorded status is the response's, or 599 when none arrived |
| WeatherClient.Calls | backend/app/services/open_meteo.py:272-279 | one recorded call per attempt, with its status and its duration in milliseconds |
| WeatherClient.DailyAttempts | backend/app/services/open_meteo.py:262-287 | the daily retry loop as a value; `DailyAttemptsSucceedAt` and `DailyAttemptsCounts` state what it does |
| WeatherClient.DailyAttemptsSucceedAt | backend/app/services/open_meteo.py:263-275 | the daily analogue: every attempt up to the success is recorded |
| WeatherClient.CachedValueIsServed | backend/app/services/open_meteo.py:128-130 | a fresh truthy cached value is returned with no request, no sleep and the cache unchanged |
| WeatherClient.FalsyOrStaleIsRefetched | backend/app/services/open_meteo.py:128-130 | a falsy or stale entry causes a request, and a stale one is gone unless an attempt succeeds |
| WeatherClient.SyncAttemptsCounts | backend/app/services/open_meteo.py:142-158 | at most `retries` requests; a sleep after every failure, the last included; sleeps follow the doubling schedule; the assertion error exactly when `retries <= 0` |
| WeatherClient.SyncAttemptsCache | backend/app/services/open_meteo.py:151-153 | a success caches its value under the key, stamped at its end; a failure leaves the cache as it was |
| WeatherClient.HourlyRunServesNext | backend/app/services/open_meteo.py:194-218 | what a live hourly fetch cached is served raw to a forecast fetch under the same key while fresh |
| WeatherClient.HourlyPayloadServesForecast | backend/app/services/open_meteo.py:119-130 | `get_hourly` for the default series in `auto` makes a later `get_forecast` for the same request return a raw payload rather than a `ForecastResult` |
| WeatherClient.DailyAttemptsCounts | backend/app/services/open_meteo.py:262-287 | one recorded call per request, at most `retries`, each with the response's status or 599; one sleep fewer than requests; the assertion error exactly when `retries <= 0` |
| WeatherClient.SyncSleepsAfterLastFailure | backend/app/services/open_meteo.py:156 | on the same failures the synchronous loop sleeps once more than the daily loop, after the last attempt |
| WeatherClient.SleepsLast | backend/app/services/open_meteo.py:156 | the schedule of `n` sleeps extends that of `n - 1` by the last one |
| WeatherClient.OpenMeteoClient.constructor | backend/app/services/open_meteo.py:93-103 | the base URL loses its trailing slashes; the retry settings and the two caches are kept |
| WeatherClient.OpenMeteoClient.SyncFetchLoop | backend/app/services/open_meteo.py:128-130 | the cache check plus the loop leave what `SyncFetch` specifies |
| WeatherClient.OpenMeteoClient.SyncRetry | backend/app/services/open_meteo.py:142-158 | the retry loop yields exactly the result, request count, sleeps and cache that `SyncAttempts` specifies |
| WeatherClient.OpenMeteoClient.GetForecast | backend/app/services/open_meteo.py:119-158 | `get_forecast` behaves as `SyncFetch` under the forecast key |
| WeatherClient.OpenMeteoClient.GetHourly | backend/app/services/open_meteo.py:175-223 | `get_hourly` behaves as `SyncFetch` under the hourly key |
| WeatherClient.OpenMeteoClient.FetchRecentDaily | backend/app/services/open_meteo.py:230-287 | `fetch_recent_daily` behaves as `DailyFetch` under the clamped daily key |
| WeatherClient.OpenMeteoClient.DailyFetchLoop | backend/app/services/open_meteo.py:246-248 | the daily cache check plus the loop leave what `DailyFetch` specifies |
| WeatherClient.OpenMeteoClient.DailyRetry | backend/app/services/open_meteo.py:262-287 | the daily loop yields exactly the result, recorded calls, sleeps and cache that `DailyAttempts` specifies |
| Metrics.Last | backend/app/observability.py:34 | a bounded window holds the last `n` values, or all of them when there are fewer |
| Metrics.BoundedAppend | backend/app/observability.py:42 | appending to a full deque drops the oldest value: the result is the last 1000 of the window plus the new value |
| Metrics.LastAppend | backend/app/observability.py:80-81 | trimming before appending more gives the same window as trimming once at the end |
| Metrics.RecordStep | backend/app/observability.py:38-42 | a record counts one request, one failure exactly when not ok, appends the latency to the window, and keeps the counters consistent |
| Metrics.RecordKeepsLatest | backend/app/observability.py:42 | the newest sample ends the window and the older samples it keeps are the newest ones of the previous window, in order |
| Metrics.PathMetrics.constructor | backend/app/observability.py:33-36 | new path metrics hold zero counts and an empty window |
| Metrics.PathMetrics.Record | backend/app/observability.py:38-42 | the in-place `record` leaves what `RecordStep` specifies and keeps the counters consistent |
| Metrics.FailureRate | backend/app/observability.py:58 | the rate is 0 before the first request, lies in [0, 1] for consistent counts, and times the requests gives the failures |
| Metrics.SortSeq | backend/app/observability.py:46 | `sorted` gives a sorted permutation of the window |
| Metrics.PctIndex | backend/app/observability.py:52 | the percentile index always lies within the window |
| Metrics.PctIndexMonotone | backend/app/observability.py:52 | a higher percentile never takes an earlier index |
| Metrics.Pct | backend/app/observability.py:49-53 | `_pct`: None exactly for an empty window, otherwise one of its samples; `PctOrdered` and `SnapshotPercentiles` order the three percentiles |
| Metrics.PctOrdered | backend/app/observability.py:49-53 | a percentile is None exactly for an empty window, is otherwise a sample, and never exceeds a higher percentile |
| Metrics.Snapshot | backend/app/observability.py:44-64 | `snapshot()`; `SnapshotPercentiles`, `SnapshotFailureRate` and `MedianIndexRoundsToEven` state what it reports |
| Metrics.SnapshotPercentiles | backend/app/observability.py:44-64 | the snapshot reports the window size, and p50 ≤ p95 ≤ p99 are samples of the window, None exactly when it is empty |
| Metrics.MedianIndexRoundsToEven | backend/app/observability.py:52 | `round` ties go to even: the median index is 0 for two samples and 2 for four |
| Metrics.SnapshotFailureRate | backend/app/observability.py:58 | the reported failure rate of a consistent path lies in [0, 1] |
| Metrics.UpdateSpec | backend/app/observability.py:67-71 | an update records on its path, starting from empty stats for a new path, and changes no other path |
| Metrics.OverallStep | backend/app/observability.py:76-81 | the aggregate over one more path adds its counts and appends its samples to the bounded window |
| Metrics.Overall | backend/app/observability.py:74-84 | the `overall` aggregate of `metrics_dump`; `Aggregate` computes it with the source's loop and `OverallConsistent` shows consistent paths add up to a consistent aggregate |
| Metrics.OverallConsistent | backend/app/observability.py:74-84 | consistent paths add up to a consistent aggregate |
| Metrics.UpdateWellFormed | backend/app/observability.py:67-71 | registering or updating a path keeps every path listed once and every stat consistent |
| Metrics.Registry.constructor | backend/app/observability.py:67 | the registry starts empty |
| Metrics.Registry.Update | backend/app/observability.py:70-71 | `metrics_update` leaves what `UpdateSpec` specifies; a new path is listed last |
| Metrics.Registry.Dump | backend/app/observability.py:74-84 | `metrics_dump` reports the snapshot of the aggregate and one snapshot per path |
| Metrics.Aggregate | backend/app/observability.py:75-81 | the aggregation loop computes the summed counts and the newest 1000 samples of all windows in path order |
| Metrics.ExtendWindow | backend/app/observability.py:80-81 | appending samples one at a time to the bounded window keeps the last 1000 of them |
| Metrics.UpdateCountsOnce | backend/app/observability.py:70-79 | an update adds exactly one request to the aggregate, and one failure exactly when not ok |
| Metrics.SumUnchanged | backend/app/observability.py:76-79 | sums over paths an update does not touch are unchanged |
| CallCapture.DurationMs | backend/app/observability.py:141 | `int(... * 1000)` truncates toward zero: within one millisecond of the exact duration, on the side of zero |
| CallCapture.RecordOf | backend/app/observability.py:121-141 | a record is ok exactly on a response with status in [200, 400); it has a status exactly on a response, and an error text `Type: message` on a raise |
| CallCapture.CallContext.constructor | backend/app/observability.py:22 | the context starts bound to the shared default list |
| CallCapture.CallContext.Reset | backend/app/observability.py:174 | a request binds a fresh empty list |
| CallCapture.CallContext.Append | backend/app/observability.py:143-147 | copy-on-write: the context gets a new list one record longer; no existing list, including the shared default, changes |
| CallCapture.CallContext.Copy | backend/app/observability.py:180 | a context copied for the handler's task is bound to the same list object as the middleware's |
| CallCapture.CallContext.AppendInPlace | backend/app/observability.py:143-147 | corrected wrapper: a list bound by the request grows by the record in place and stays bound; outside a request a new list is bound and the shared default is left alone |
| CallCapture.Session.WrapRequests | backend/app/observability.py:112-153 | `wrap_requests` installs exactly one wrapper |
| CallCapture.Session.Request | backend/app/observability.py:121-150 | a wrapped call records exactly one entry and passes the outcome, response or exception, back unchanged |
| CallCapture.Session.RequestCorrected | backend/app/observability.py:121-150 | the same with the corrected wrapper: the record lands in the list the context is bound to |
| CallCapture.Wrapped | backend/app/observability.py:116-117 | after a `wrap_requests` the session is wrapped |
| CallCapture.WrapIdempotent | backend/app/observability.py:116-117 | any number of `wrap_requests` calls leaves exactly one wrapper |
| CallCapture.StaysWrapped | backend/app/observability.py:116-117 | a wrapped session stays as it is |
| CallCapture.Records | backend/app/observability.py:121-147 | one record per outgoing call, in order |
| CallCapture.StatusOf | backend/app/observability.py:177-181 | the reported status is the response's, or 500 (a failure) when the handler raised |
| CallCapture.RunHandler | backend/app/observability.py:180 | the handler's calls through a wrapped session bind, in the handler's context, a list with their records appended in order |
| CallCapture.RunHandlerCorrected | backend/app/observability.py:180 | with the corrected wrapper the records are appended, in order, to the list the handler's context was bound to |
| CallCapture.Dispatch | backend/app/observability.py:171-215 | the summary carries the path, the status, the latency and an error exactly when the handler raised; the path metrics are updated exactly once; because the handler runs on a copied context, the logged call list is always empty |
| CallCapture.DispatchCorrected | backend/app/observability.py:171-215 | with the corrected wrapper the summary carries exactly this request's call records, in order, and their count |
| CallCapture.Summarize | backend/app/observability.py:186-215 | the `finally` block: one metrics update with `ok` from the status, and the summary of the list read back |
| CallCapture.ThrowingHandlerCountsAsFailure | backend/app/observability.py:177-190 | a request whose handler raises counts one request and one failure on its path |
| RateLimit.BehindProxy | backend/app/middleware_rate_limit.py:17 | the proxy setting is on exactly for "1", "true" or "TRUE" |
| RateLimit.ClientIp | backend/app/middleware_rate_limit.py:23-29 | `_client_ip`; `ClientIpFirstHop` and `ClientIpIgnoresHeader` state its two branches |
| RateLimit.ClientIpFirstHop | backend/app/middleware_rate_limit.py:24-27 | behind a proxy the key is the stripped first hop of `X-Forwarded-For` |
| RateLimit.ClientIpIgnoresHeader | backend/app/middleware_rate_limit.py:28-29 | not behind a proxy the header cannot choose the bucket: the key is the peer host or "unknown" |
| RateLimit.Current | backend/app/middleware_rate_limit.py:42 | an unseen client starts with a full bucket stamped now |
| RateLimit.Refill | backend/app/middleware_rate_limit.py:44-45 | the refill never exceeds the burst, adds nothing for a clock that has not advanced, and never loses tokens |
| RateLimit.RefillMonotone | backend/app/middleware_rate_limit.py:44-45 | waiting longer never leaves fewer tokens |
| RateLimit.NewClientStartsFull | backend/app/middleware_rate_limit.py:42-45 | a new client's bucket holds exactly the burst |
| RateLimit.Trunc | backend/app/middleware_rate_limit.py:66 | `int()` of a non-negative value is its floor |
| RateLimit.RetryAfterAsWritten | backend/app/middleware_rate_limit.py:49 | the hint as written is at least one second |
| RateLimit.RetryAfterAsWrittenTooShort | backend/app/middleware_rate_limit.py:49 | with the default configuration the hint as written can tell a client to retry before a token is back |
| RateLimit.RetryAfter | backend/app/middleware_rate_limit.py:49 | the rounded-up hint is at least one second and covers the missing fraction of a token |
| RateLimit.RetryAfterSuffices | backend/app/middleware_rate_limit.py:44-49 | a refused client that waits the rounded-up hint finds a token |
| RateLimit.Limiter.constructor | backend/app/middleware_rate_limit.py:20 | no buckets at start |
| RateLimit.Limiter.Dispatch | backend/app/middleware_rate_limit.py:33-69 | OPTIONS and paths outside the prefix pass with the buckets untouched; under one token the request is refused with the truncated `Retry-After` of the code as written and nothing is written; a zero refill rate crashes there; otherwise one token is taken, the bucket is stamped now, and the whole tokens left are reported |
| RateLimit.Limiter.DispatchCorrected | backend/app/middleware_rate_limit.py:33-69 | the same verdicts and buckets, with the rounded-up `Retry-After`, after which a refused client finds a token |
| RateLimit.AdmittedRemainingBounds | backend/app/middleware_rate_limit.py:62-68 | the reported remaining count lies in [0, burst - 1] |
| RateLimit.BurstBound | backend/app/middleware_rate_limit.py:42-63 | at most `burst` requests of one client are admitted at one instant |
| RateLimit.SameInstant | backend/app/middleware_rate_limit.py:44-63 | requests at the instant a bucket was stamped get no refill, so at most its tokens of them are admitted |
| Baseline.PrevDay | backend/app/ml/baseline.py:41 | the day before is a valid earlier date; there is none, and Python overflows, only before 0001-01-01 |
| Baseline.PrevDayIsPredecessor | backend/app/ml/baseline.py:41 | no valid date lies strictly between a date and its day before |
| Baseline.DaySlice | backend/app/ml/baseline.py:33-36 | the slice succeeds exactly when every paired timestamp is a string, and is no longer than the pairing |
| Baseline.DaySliceSingle | backend/app/ml/baseline.py:35-36 | a pair is kept exactly when its timestamp starts with `<day>T` |
| Baseline.DaySliceAppend | backend/app/ml/baseline.py:36 | the slice keeps the order of the pairs |
| Baseline.DaySliceCons | backend/app/ml/baseline.py:36 | a leading pair is kept or dropped in front of the rest of the slice |
| Baseline.DaySliceTruncates | backend/app/ml/baseline.py:36 | `zip` stops at the shorter list: what lies beyond it never matters |
| Baseline.MinOf | backend/app/ml/baseline.py:52 | `np.min` is a value of the list and no greater than any |
| Baseline.MaxOf | backend/app/ml/baseline.py:53 | `np.max` is a value of the list and no less than any |
| Baseline.SumBetween | backend/app/ml/baseline.py:51 | a sum of bounded values lies between the bounds times the count |
| Baseline.MeanBetween | backend/app/ml/baseline.py:51-53 | the mean lies between the minimum and the maximum |
| Baseline.Stats | backend/app/ml/baseline.py:51-54 | each statistic is NaN exactly when its list is empty; min and max are values of the temperatures |
| Baseline.StatsOrdered | backend/app/ml/baseline.py:105-107 | the day's min ≤ mean ≤ max |
| Baseline.AggregateDayStats | backend/app/ml/baseline.py:101-109 | `aggregate_day_stats`; through `Stats` a field is NaN exactly when its slice is empty, and `StatsOrdered` gives min ≤ mean ≤ max |
| Baseline.PersistenceFromSeries | backend/app/ml/baseline.py:39-55 | `persistence_from_series`; `PersistenceIsPreviousDay`, `PersistenceFallsBack`, `PersistencePrecipFallsBack` and `PersistenceNaNOnlyWhenEmpty` state what it returns |
| Baseline.PersistenceIsPreviousDay | backend/app/ml/baseline.py:39-55 | with data for the day before, persistence is exactly that day's statistics |
| Baseline.PersistenceFallsBack | backend/app/ml/baseline.py:45-49 | missing temperatures for the day before fall back to the whole temperature series while that day's precipitation total is still used |
| Baseline.PersistencePrecipFallsBack | backend/app/ml/baseline.py:45-49 | missing precipitation for the day before falls back to the whole precipitation series while mean, min and max still come from that day's temperatures |
| Baseline.PersistenceNaNOnlyWhenEmpty | backend/app/ml/baseline.py:45-51 | the persistence mean is NaN exactly when the forecast has no temperatures at all |
| Baseline.ChooseBackend | backend/app/ml/baseline.py:134 | the branch condition; `PredictExplainsBranch` shows regression is taken exactly for `"regression"` with a non-empty, existing model path |
| Baseline.PredictWithBackend | backend/app/ml/baseline.py:112-151 | `predict_with_backend`; `PredictExplainsBranch` states what each branch returns and reports |
| Baseline.PredictExplainsBranch | backend/app/ml/baseline.py:112-151 | the result names its branch; regression is chosen exactly for `"regression"` with an existing model file and is fed the previous day's statistics of a fetch of the previous day through the target; otherwise the output is the persistence forecast of that fetch |
| DateMap.Get | frontend/app/page.tsx:149 | `map.get` finds exactly the keys the map holds |
| DateMap.GetMember | frontend/app/page.tsx:149 | in a map without repeated keys, `get` finds every stored pair |
| DateMap.Put | frontend/app/page.tsx:146-151 | `map.set` adds its key, makes `get` answer the new value there, and changes no other key |
| DateMap.LastValue | frontend/src/app/forecast/page.tsx:142-144 | the last value given for a date exists exactly for the dates of the series |
| DateMap.Values | frontend/app/page.tsx:153 | `Array.from(map.values())` lists the values in map order |
| DateMap.AscendingStrict | frontend/app/page.tsx:153 | in a sorted map every earlier date precedes every later one |
| DateMap.InsertByDate | frontend/app/page.tsx:153 | inserting into a sorted run keeps it sorted and adds exactly the one pair |
| DateMap.SortByDate | frontend/app/page.tsx:153 | the sort yields an ascending permutation with the same dates |
| DateMap.KeysAppend | frontend/app/page.tsx:145-152 | the dates of a concatenation are those of its parts |
| DateMap.KeysMember | frontend/app/page.tsx:145-152 | a date belongs to the map exactly when some pair carries it |
| ForecastPage.CoerceNumber | frontend/src/app/forecast/page.tsx:89-96 | a value coerces exactly when it is a finite number or a string whose `Number(...)` is finite, and to that number |
| ForecastPage.CoerceNumberIdempotent | frontend/src/app/forecast/page.tsx:89-96 | a coerced number coerces to itself |
| ForecastPage.Coalesce | frontend/src/app/forecast/page.tsx:132 | `??` yields one of its operands, and the right one whenever the left is null or undefined |
| ForecastPage.MapPoint | frontend/src/app/forecast/page.tsx:130-135 | a point is kept exactly when its date string is non-empty and its first non-nullish value coerces, and it carries that number |
| ForecastPage.ValueDoesNotFallThrough | frontend/src/app/forecast/page.tsx:132 | a present but non-numeric `value` hides `temp`, `mean` and `pred`, because `??` stops at it |
| ForecastPage.MissingDateDropped | frontend/src/app/forecast/page.tsx:131-133 | a point without a date is dropped |
| ForecastPage.MapSeries | frontend/src/app/forecast/page.tsx:128-136 | the kept points are exactly the mapped points of the input, never more than the input |
| ForecastPage.MapSeriesAppend | frontend/src/app/forecast/page.tsx:128-136 | `map` then `filter` keeps the order of the array: a concatenation maps part by part |
| ForecastPage.MapSeriesSingle | frontend/src/app/forecast/page.tsx:129-135 | a single record maps to its point or to nothing |
| ForecastPage.PutPreds | frontend/src/app/forecast/page.tsx:142 | the first loop keeps the map repeat-free and adds exactly the predicted dates |
| ForecastPage.PutActuals | frontend/src/app/forecast/page.tsx:143-144 | the second loop keeps the map repeat-free and adds exactly the actual dates |
| ForecastPage.Merged | frontend/src/app/forecast/page.tsx:141-144 | the merge holds each date of either series once |
| ForecastPage.MergeByDate | frontend/src/app/forecast/page.tsx:141-144 | the two loops leave exactly `Merged` |
| ForecastPage.PutPredsAt | frontend/src/app/forecast/page.tsx:142 | after the first loop each predicted date holds its last prediction |
| ForecastPage.PutActualsAt | frontend/src/app/forecast/page.tsx:143-144 | the second loop sets the last actual of each date and keeps the prediction there |
| ForecastPage.MergedAt | frontend/src/app/forecast/page.tsx:141-144 | each merged date carries the last prediction and the last actual given for it |
| ForecastPage.SortedPointAt | frontend/src/app/forecast/page.tsx:146 | sorting keeps each date with its point |
| ForecastPage.Series | frontend/src/app/forecast/page.tsx:141-146 | the series `normalizeResponse` returns; `MergeByDate` computes the merge with the source's loops, and `SeriesPoints`, `SeriesAscending` and `SeriesDates` state what it holds |
| ForecastPage.SeriesPoints | frontend/src/app/forecast/page.tsx:141-146 | each output point holds the last prediction and the last actual for its date |
| ForecastPage.SeriesAscending | frontend/src/app/forecast/page.tsx:146 | the output series is strictly ascending by date |
| ForecastPage.SeriesDates | frontend/src/app/forecast/page.tsx:141-146 | the output dates are exactly those of the predictions and the actuals |
| ForecastPage.PopPercent | frontend/src/app/forecast/page.tsx:99-101 | the percentage lies in 0..100 and is NaN exactly for a NaN probability |
| ForecastPage.PopPercentClamps | frontend/src/app/forecast/page.tsx:100 | a missing or non-positive probability shows 0 and one at or above certainty shows 100 |
| ForecastPage.PopPercentMonotone | frontend/src/app/forecast/page.tsx:100-101 | a larger probability never shows a smaller percentage |
| ForecastPage.FormatPop | frontend/src/app/forecast/page.tsx:99-102 | the text is the percentage followed by `%` |
| ForecastPage.Summarize | frontend/src/app/forecast/page.tsx:112-125 | a day card keeps the backend's values, shows `precip_prob` as `pop` and takes the given date |
| ForecastPage.NormalizeResponse | frontend/src/app/forecast/page.tsx:108-154 | the response has the name (`(unknown)` for an empty query), the time zone, both day cards and the merged, sorted series |
| ChartData.PutActuals | frontend/app/page.tsx:145-147 | the first loop keeps the map repeat-free and adds exactly the actual dates |
| ChartData.PutForecast | frontend/app/page.tsx:148-152 | the second loop keeps the map repeat-free and adds exactly the forecast dates |
| ChartData.ByDate | frontend/app/page.tsx:143-152 | the map holds each date of either series once |
| ChartData.BuildChartData | frontend/app/page.tsx:138-154 | no response gives no points; otherwise the two loops and the sort give exactly `Chart` of the two series, missing ones read as empty |
| ChartData.PutActualsAt | frontend/app/page.tsx:145-147 | after the first loop each actual date holds its last actual and no prediction |
| ChartData.PutForecastAt | frontend/app/page.tsx:148-152 | the second loop sets the last forecast of each date and keeps the actual there |
| ChartData.ByDateAt | frontend/app/page.tsx:143-152 | each date carries the last forecast and the last actual given for it, null when absent |
| ChartData.SortedPointAt | frontend/app/page.tsx:153 | sorting keeps each date with its point |
| ChartData.Chart | frontend/app/page.tsx:138-153 | the points `buildChartData` returns for two present series; `BuildChartData` computes them with the source's loops, and `ChartPoints`, `ChartAscending`, `ChartDates` and `OneSidedDates` state what they hold |
| ChartData.ChartPoints | frontend/app/page.tsx:143-153 | each chart point holds the last forecast and the last actual for its date |
| ChartData.ChartAscending | frontend/app/page.tsx:153 | the chart is strictly ascending by date |
| ChartData.ChartDates | frontend/app/page.tsx:143-153 | the chart's dates are exactly those of the two series |
| ChartData.OneSidedDates | frontend/app/page.tsx:146-151 | a forecast-only date has no actual and an actuals-only date has no prediction |
| LanguageToggle.Name | frontend/src/components/LanguageToggle.tsx:6 | a locale name is non-empty and has no `/` |
| LanguageToggle.Other | frontend/src/components/LanguageToggle.tsx:10 | the other locale differs from the current one |
| LanguageToggle.OtherInvolutive | frontend/src/components/LanguageToggle.tsx:10 | switching twice gives the locale back |
| LanguageToggle.SetSecond | frontend/src/components/LanguageToggle.tsx:14 | `parts[1] = other` replaces segment 1, or appends it to a one-element array, and keeps every other segment |
| LanguageToggle.NextPath | frontend/src/components/LanguageToggle.tsx:11-16 | the target path is never empty |
| LanguageToggle.NextPathWithoutPath | frontend/src/components/LanguageToggle.tsx:12 | without a path the target is the other locale's root |
| LanguageToggle.NextPathSegments | frontend/src/components/LanguageToggle.tsx:13-15 | only the locale segment changes |
| LanguageToggle.NextPathAbsolute | frontend/src/components/LanguageToggle.tsx:13-15 | an absolute path goes to an absolute path under the other locale |
| LanguageToggle.NextPathRoundTrip | frontend/src/components/LanguageToggle.tsx:10-16 | toggling back from the new path restores the original path |
| Validation.TrimStart | frontend/src/lib/validation.ts:6-19 | leading JavaScript whitespace is removed, and only that |
| Validation.TrimEnd | frontend/src/lib/validation.ts:6-19 | trailing JavaScript whitespace is removed, and only that |
| Validation.Trim | frontend/src/lib/validation.ts:6-19 | `trim()` leaves no whitespace at either end and is empty exactly for an all-whitespace input |
| Validation.TrimEmpty | frontend/src/lib/validation.ts:12 | the trimmed text is empty exactly when the input is all whitespace |
| Validation.TrimIdempotent | frontend/src/lib/validation.ts:6-19 | trimming twice trims no more than once |
| Validation.HasNameIff | frontend/src/lib/validation.ts:6-12 | the trimmed name counts exactly when the raw name has a non-space character |
| Validation.CoordOf | frontend/src/lib/validation.ts:20-21 | a coordinate is blank exactly when missing or `""`, otherwise the number or its `Number(...)` |
| Validation.ParseLocation | frontend/src/lib/validation.ts:4-22 | `zLocation.safeParse`; `ParseLocationAccepts`, `ParseLocationValue` and `ParseLocationOutput` state when it accepts and what it returns |
| Validation.ParseLocationAccepts | frontend/src/lib/validation.ts:4-17 | the input is accepted exactly when the name has a non-space character or both coordinates are present and non-empty; a rejection carries the one message |
| Validation.ParseLocationValue | frontend/src/lib/validation.ts:18-22 | an accepted input becomes the trimmed name and the two transformed coordinates |
| Validation.ParseLocationOutput | frontend/src/lib/validation.ts:10-22 | an accepted output has a trimmed name, blank coordinates exactly where the input had none, and both coordinates when the name is empty |

## Left out

- Real concurrency is not modelled: the `asyncio.Lock` of the rate gate, overlapping requests over the shared caches and breaker, and the per-task `ContextVar` beyond the one copy the handler runs on. Operations are modelled one after another.
- Clocks, sleeps, UUIDs, HTTP exchanges and logging are parameters or results, not effects. The `request_summary` log line is returned as a value. `X-Request-ID` and `Server-Timing` headers are not modelled.
- Environment variables are configuration parameters. Their parsing by `int()`/`float()`, and the failures it can raise, are not modelled. `RateLimit.BehindProxy` is the one exception.
- Floating point is not modelled. Coordinates, token counts, latencies and statistics are exact reals. NaN is `None`.
- Metrics.PctIndex: computes `round(p / 100 * (n - 1))` on exact rationals. For p = 95 and p = 99 the float product can differ in its last bits.
- `median_ms` of the snapshot is not modelled: it needs `statistics.median` on floats, and nothing else depends on it.
- Text.Strip: the whitespace set is the six ASCII spaces only. Python's `str.strip()` also removes the separators `\x1c`–`\x1f`, `\x85` and the Unicode spaces. The frontend `trim()` is modelled separately, with the full ECMAScript set.
- FixedPoint.Round: rounds the exact real value half to even. Python rounds the binary float, so a decimal tie such as 0.000005 can round the other way.
- GeocodeCache.LruCache.constructor: refuses a negative `GEOCODE_CACHE_MAX`. With one, the source's eviction loop pops from an empty list and raises on the first store.
- RateGate.RateGate.Acquire: takes the clock reading after the sleep to be exactly `now + wait`.
- The `_PathMetrics` objects live only inside `_METRICS` and `metrics_dump`. The registry holds their stats as values (`PathMetrics` is the class that is updated in place), so the model does not capture aliasing between them.
- The `defaultdict` creating a path's entry on its first update is modelled. Iteration over `_METRICS` follows first-insertion order, as Python dictionaries do.
- The ext-call list recorded by `record_ext_api_call` in `fetch_recent_daily` is modelled as returned events (`WeatherClient.ExtCall`). That function's own body is not part of this model.
- Python's `float(str)` is modelled through a decimal grammar: sign, ASCII digits, optional point and digits, around which only the ASCII whitespace of `Text.Strip` is ignored. Exponents, `inf`, `nan`, underscores, non-ASCII decimal digits such as `٣` or `３`, and Unicode spaces at either end are not modelled, and such strings read as None where `float()` would give a number.
- `Number(...)`, `String(...)` and `localeCompare` are JavaScript built-ins:
  - `Number(...)` and `String(...)` are function parameters;
  - `localeCompare` is modelled as code-point order for every key. The keys are `String(o["date"])` and so can be any string; on ISO dates the two orders agree, while on other strings (mixed case, accents) a locale's collation can order them differently.
- The frontend's chart entries are modelled as values. The in-place `ex.predicted = ...` update is a replacement of the entry in the map, which nothing else references.
- zod's type errors for a non-string `name` or a non-string, non-number coordinate are outside the input type and are not modelled.
- The regression model itself (scikit-learn, `joblib` loading, `train`, `save`, `build_training_frame`) is a function parameter. So is the forecast fetch inside `predict_with_backend`. `set_seed` is not part of this model.
- Baseline.PredictWithBackend: the `regress` parameter is total, so the model gives a prediction even when the day before has no temperatures or no precipitation. Then `aggregate_day_stats` yields NaN features, and scikit-learn's `predict` raises on them, so the endpoint fails instead.
- The D0/D1 dates of the forecast page come from the clock and the time zone (`computeD0D1Dates`). They are parameters.
- The file cache helpers `dump_cache_to_file` and `load_cache_from_file`, `fetch_hourly`'s pass-through and the async client pool `_get_async_client` are not part of this model.
- The React rendering of the pages and the toggle's `router.push` are not modelled. `nextPath` is what the button pushes.

## Findings

| source | as written | input that shows it | evidently intended | confidence | as-written member | corrected member |
|---|---|---|---|---|---|---|
| backend/app/middleware_rate_limit.py:49 | `int(max(1, (1.0 - tokens) / rate))` truncates the wait | default configuration (30 a minute, so 0.5 tokens a second) and a bucket refilled to 0.3 tokens: the hint is 1 s; after 1 s the bucket holds 0.8 tokens and the retry is refused again | round the wait up, so that retrying after `Retry-After` seconds finds a token | not executed | RateLimit.Limiter.Dispatch | RateLimit.Limiter.DispatchCorrected |
| backend/app/observability.py:143-147 | the wrapper records a call by binding a new list with `ext_api_calls_ctx.set(new)` in the context it runs in | any request whose handler makes one outgoing call through the wrapped session: the handler runs on a copy of the middleware's context (the task `call_next` starts, or the worker thread of a synchronous endpoint), so `dispatch` reads back the `[]` it bound at line 174 and logs `ext_api_calls_count: 0` | the summary lists the request's outgoing calls; appending in place to the list bound at line 174 does that and still leaves the shared default alone | not executed; rests on Starlette running the handler on a copied context | CallCapture.Dispatch | CallCapture.DispatchCorrected |
