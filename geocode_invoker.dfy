/**
 * The retrying invoker of the geocoding client (`_get_json_with_retry` in
 * backend/app/api/geocode.py). It consults the circuit breaker once, then
 * makes up to `HTTP_RETRY_MAX + 1` attempts, each behind the rate gate.
 * Statuses 429 and 5xx, every other non-2xx status, undecodable bodies and
 * transport errors are all caught and retried with capped exponential
 * backoff. The first success closes the breaker and is returned.
 *
 * `Invoke` states the whole outcome directly from the attempts: where the
 * first success is, which failures the breaker saw, how the gate moved and
 * which backoffs were slept. The method runs the loop and is proved to agree
 * with it.
 */
module GeocodeInvoker {
  import opened Wrappers
  import opened Json
  import opened Upstream
  import opened CircuitBreakers
  import RateGate

  /** `HTTP_RETRY_MAX` and `HTTP_RETRY_BACKOFF_S`. */
  datatype RetryConfig = RetryConfig(retryMax: int, backoffBase: real)

  /** The fixed cap on one backoff sleep, in seconds. */
  const BackoffCap: real := 3.0

  /** Why one attempt failed. */
  datatype AttemptError =
    | RetryableStatus(code: int)  // 429 or 5xx, raised as HTTPException(502, "upstream status <code>")
    | StatusError(code: int)      // any other non-2xx status, raised by raise_for_status
    | InvalidJson                 // the body did not decode
    | TransportError              // no response at all

  /** What the caller of the invoker sees when no data comes back. */
  datatype InvokeError =
    | CircuitOpen                                  // the breaker refused the call
    | UpstreamFailure(last: Option<AttemptError>)  // every attempt failed; None when none was made

  /** The HTTP status the API answers with for an invoker error. */
  function HttpStatus(e: InvokeError): (code: int)
    ensures code == 503 <==> e.CircuitOpen?
    ensures code == 502 <==> e.UpstreamFailure?
  {
    if e.CircuitOpen? then 503 else 502
  }

  /** The outcome of one attempt, in the order the loop body tests it. */
  function Classify(x: Exchange<Json>): (r: Result<Json, AttemptError>)
    ensures r.Ok? <==> x.Response? && IsSuccess(x.status) && x.body.Some?
    ensures r.Ok? ==> r.value == x.body.value
    ensures r == Err(TransportError) <==> x.NoResponse?
    ensures r.Err? && r.error.RetryableStatus? ==> x.Response? && (x.status == 429 || 500 <= x.status < 600)
  {
    match x
    case NoResponse => Err(TransportError)
    case Response(status, body) =>
      if status == 429 || 500 <= status < 600 then Err(RetryableStatus(status))
      else if !IsSuccess(status) then Err(StatusError(status))
      else if body.None? then Err(InvalidJson)
      else Ok(body.value)
  }

  predicate Succeeded(a: Attempt<Json>) {
    Classify(a.exchange).Ok?
  }

  /** `len(range(HTTP_RETRY_MAX + 1))`: how many attempts the loop may make. */
  function AttemptLimit(cfg: RetryConfig): nat {
    if cfg.retryMax + 1 > 0 then cfg.retryMax + 1 else 0
  }

  /** The sleep after failed attempt number `attempt` (counting from 0): `min(base * 2^attempt, 3.0)`. */
  function Backoff(cfg: RetryConfig, attempt: nat): real {
    var b := cfg.backoffBase * Pow2(attempt) as real;
    if b <= BackoffCap then b else BackoffCap
  }

  /** The backoffs slept after the first `n` failed attempts. */
  function Backoffs(cfg: RetryConfig, n: nat): (s: seq<real>)
    ensures |s| == n
    ensures forall i :: 0 <= i < n ==> s[i] == Backoff(cfg, i)
  {
    seq(n, i requires 0 <= i < n => Backoff(cfg, i))
  }

  /** The clock readings at which the gate is entered. */
  function StartTimes(atts: seq<Attempt<Json>>): (ts: seq<real>)
    ensures |ts| == |atts|
    ensures forall i :: 0 <= i < |atts| ==> ts[i] == atts[i].start
  {
    seq(|atts|, i requires 0 <= i < |atts| => atts[i].start)
  }

  /** Everything one call of the invoker determines. */
  datatype Run = Run(
    result: Result<Json, InvokeError>,
    used: nat,                // requests issued (= gate acquisitions)
    breaker: BreakerState,    // the breaker afterwards
    gateLast: real,           // the gate's last-call timestamp afterwards
    backoffs: seq<real>)      // backoff sleeps, in order

  /** The specification of the invoker: its whole effect, stated from the first successful attempt. */
  function Invoke(cfg: RetryConfig, c: Config, b: BreakerState, minInterval: real, gateLast: real,
                  now: real, atts: seq<Attempt<Json>>): Run
    requires |atts| >= AttemptLimit(cfg)
  {
    var (allowed, b1) := AllowStep(c, b, now);
    if !allowed then Run(Err(CircuitOpen), 0, b1, gateLast, [])
    else
      var lim := AttemptLimit(cfg);
      var k := FirstIndex(atts, Succeeded, lim);
      if k < lim then
        Run(Ok(Classify(atts[k].exchange).value), k + 1,
            SuccessStep(FailAll(c, b1, EndTimes(atts[..k]))),
            RateGate.AcquireAll(minInterval, gateLast, StartTimes(atts[..k + 1])),
            Backoffs(cfg, k))
      else
        Run(Err(UpstreamFailure(if lim == 0 then None else Some(Classify(atts[lim - 1].exchange).error))), lim,
            FailAll(c, b1, EndTimes(atts[..lim])),
            RateGate.AcquireAll(minInterval, gateLast, StartTimes(atts[..lim])),
            Backoffs(cfg, if lim == 0 then 0 else lim - 1))
  }

  /** `Invoke` when attempt `k` is the first to succeed. */
  lemma InvokeSucceedsAt(cfg: RetryConfig, c: Config, b: BreakerState, minInterval: real, gateLast: real,
                         now: real, atts: seq<Attempt<Json>>, k: nat)
    requires |atts| >= AttemptLimit(cfg) && k < AttemptLimit(cfg)
    requires AllowStep(c, b, now).0
    requires FirstIndex(atts, Succeeded, AttemptLimit(cfg)) >= k && Succeeded(atts[k])
    ensures Invoke(cfg, c, b, minInterval, gateLast, now, atts)
         == Run(Ok(Classify(atts[k].exchange).value), k + 1,
                SuccessStep(FailAll(c, AllowStep(c, b, now).1, EndTimes(atts[..k]))),
                RateGate.AcquireAll(minInterval, gateLast, StartTimes(atts[..k + 1])),
                Backoffs(cfg, k))
  {
    FirstIndexIs(atts, Succeeded, AttemptLimit(cfg), k);
  }

  /** `Invoke` when none of the attempts succeeds. */
  lemma InvokeExhausted(cfg: RetryConfig, c: Config, b: BreakerState, minInterval: real, gateLast: real,
                        now: real, atts: seq<Attempt<Json>>)
    requires |atts| >= AttemptLimit(cfg)
    requires AllowStep(c, b, now).0
    requires FirstIndex(atts, Succeeded, AttemptLimit(cfg)) == AttemptLimit(cfg)
    ensures var lim := AttemptLimit(cfg);
      Invoke(cfg, c, b, minInterval, gateLast, now, atts)
         == Run(Err(UpstreamFailure(if lim == 0 then None else Some(Classify(atts[lim - 1].exchange).error))), lim,
                FailAll(c, AllowStep(c, b, now).1, EndTimes(atts[..lim])),
                RateGate.AcquireAll(minInterval, gateLast, StartTimes(atts[..lim])),
                Backoffs(cfg, if lim == 0 then 0 else lim - 1))
  {
  }

  lemma BackoffsGrow(cfg: RetryConfig, n: nat)
    ensures Backoffs(cfg, n + 1) == Backoffs(cfg, n) + [Backoff(cfg, n)]
  {
  }

  /** The breaker and gate after `k + 1` attempts, from their state after `k`. */
  lemma OneMoreAttempt(c: Config, b: BreakerState, minInterval: real, gateLast: real,
                       atts: seq<Attempt<Json>>, k: nat)
    requires k < |atts|
    ensures FailAll(c, b, EndTimes(atts[..k + 1]))
         == FailureStep(c, FailAll(c, b, EndTimes(atts[..k])), atts[k].end)
    ensures var prev := RateGate.AcquireAll(minInterval, gateLast, StartTimes(atts[..k]));
      RateGate.AcquireAll(minInterval, gateLast, StartTimes(atts[..k + 1]))
         == atts[k].start + RateGate.Wait(minInterval, prev, atts[k].start)
  {
    var starts := StartTimes(atts[..k + 1]);
    var ends := EndTimes(atts[..k + 1]);
    assert starts[..k] == StartTimes(atts[..k]);
    assert ends[..k] == EndTimes(atts[..k]);
  }

  /**
   * The loop itself, against the breaker and gate objects. `now` is the
   * clock reading `allow()` takes; each attempt carries its own readings.
   */
  method GetJsonWithRetry(breaker: CircuitBreaker, gate: RateGate.RateGate, cfg: RetryConfig, now: real,
                          atts: seq<Attempt<Json>>)
    returns (result: Result<Json, InvokeError>, used: nat, backoffs: seq<real>)
    requires |atts| >= AttemptLimit(cfg)
    modifies breaker, gate
    ensures Run(result, used, breaker.State(), gate.lastCall, backoffs)
         == Invoke(cfg, breaker.config, old(breaker.State()), gate.minInterval, old(gate.lastCall), now, atts)
  {
    ghost var b0 := breaker.State();
    var allowed := breaker.Allow(now);
    if !allowed {
      return Err(CircuitOpen), 0, [];
    }
    ghost var b1 := breaker.State();
    ghost var g0 := gate.lastCall;
    var lim := AttemptLimit(cfg);
    var lastExc: Option<AttemptError> := None;
    var attempt := 0;
    backoffs := [];
    while attempt < lim
      invariant 0 <= attempt <= lim
      invariant FirstIndex(atts, Succeeded, lim) >= attempt
      invariant breaker.State() == FailAll(breaker.config, b1, EndTimes(atts[..attempt]))
      invariant gate.lastCall == RateGate.AcquireAll(gate.minInterval, g0, StartTimes(atts[..attempt]))
      invariant backoffs == Backoffs(cfg, if attempt == lim && lim > 0 then lim - 1 else attempt)
      invariant lastExc == if attempt == 0 then None else Some(Classify(atts[attempt - 1].exchange).error)
    {
      var a := atts[attempt];
      OneMoreAttempt(breaker.config, b1, gate.minInterval, g0, atts, attempt);
      var _ := gate.Acquire(a.start);
      assert gate.lastCall == RateGate.AcquireAll(gate.minInterval, g0, StartTimes(atts[..attempt + 1]));
      var outcome := Classify(a.exchange);
      if outcome.Ok? {
        breaker.OnSuccess();
        InvokeSucceedsAt(cfg, breaker.config, b0, gate.minInterval, old(gate.lastCall), now, atts, attempt);
        return Ok(outcome.value), attempt + 1, backoffs;
      }
      FirstIndexPast(atts, Succeeded, lim, attempt);
      lastExc := Some(outcome.error);
      breaker.OnFailure(a.end);
      if attempt < cfg.retryMax {
        BackoffsGrow(cfg, attempt);
        backoffs := backoffs + [Backoff(cfg, attempt)];
      }
      attempt := attempt + 1;
    }
    InvokeExhausted(cfg, breaker.config, b0, gate.minInterval, old(gate.lastCall), now, atts);
    result := Err(UpstreamFailure(lastExc));
    used := lim;
  }

  /** The breaker is consulted once: an open breaker inside its reset timeout answers 503 with no request made. */
  lemma OpenBreakerFailsFast(cfg: RetryConfig, c: Config, b: BreakerState, minInterval: real, gateLast: real,
                             now: real, atts: seq<Attempt<Json>>)
    requires |atts| >= AttemptLimit(cfg)
    requires b.phase == Open && now - b.openSince < c.resetTimeout
    ensures var run := Invoke(cfg, c, b, minInterval, gateLast, now, atts);
      run.result == Err(CircuitOpen) && HttpStatus(run.result.error) == 503 &&
      run.used == 0 && run.breaker == b && run.gateLast == gateLast && run.backoffs == []
  {
  }

  /**
   * At most `HTTP_RETRY_MAX + 1` requests go out, each behind the gate, so
   * the gate's timestamp advances by at least one minimum interval per request;
   * there is one backoff fewer than failed attempts when every attempt fails.
   */
  lemma {:induction false} AttemptsBoundedAndSpaced(cfg: RetryConfig, c: Config, b: BreakerState, minInterval: real,
                                                    gateLast: real, now: real, atts: seq<Attempt<Json>>)
    requires |atts| >= AttemptLimit(cfg)
    ensures var run := Invoke(cfg, c, b, minInterval, gateLast, now, atts);
      run.used <= AttemptLimit(cfg) &&
      run.gateLast >= gateLast + run.used as real * minInterval &&
      (run.result.Err? && run.used > 0 ==> |run.backoffs| == run.used - 1) &&
      (run.result.Ok? ==> |run.backoffs| == run.used - 1)
  {
    InvokeCounts(cfg, c, b, minInterval, gateLast, now, atts);
    InvokeSpacing(cfg, c, b, minInterval, gateLast, now, atts);
  }

  /** The request and backoff counts of `Invoke`. */
  lemma InvokeCounts(cfg: RetryConfig, c: Config, b: BreakerState, minInterval: real,
                     gateLast: real, now: real, atts: seq<Attempt<Json>>)
    requires |atts| >= AttemptLimit(cfg)
    ensures var run := Invoke(cfg, c, b, minInterval, gateLast, now, atts);
      run.used <= AttemptLimit(cfg) &&
      (run.result.Err? && run.used > 0 ==> |run.backoffs| == run.used - 1) &&
      (run.result.Ok? ==> |run.backoffs| == run.used - 1)
  {
  }

  /** The gate's timestamp after `Invoke` is at least one minimum interval per request later. */
  lemma InvokeSpacing(cfg: RetryConfig, c: Config, b: BreakerState, minInterval: real,
                      gateLast: real, now: real, atts: seq<Attempt<Json>>)
    requires |atts| >= AttemptLimit(cfg)
    ensures var run := Invoke(cfg, c, b, minInterval, gateLast, now, atts);
      run.gateLast >= gateLast + run.used as real * minInterval
  {
    var run := Invoke(cfg, c, b, minInterval, gateLast, now, atts);
    if AllowStep(c, b, now).0 {
      var lim := AttemptLimit(cfg);
      var k := FirstIndex(atts, Succeeded, lim);
      var n := if k < lim then k + 1 else lim;
      var starts := StartTimes(atts[..n]);
      assert run.used == n;
      assert run.gateLast == RateGate.AcquireAll(minInterval, gateLast, starts);
      RateGate.AcquisitionsAreSpaced(minInterval, gateLast, starts);
      SpacedByCount(run.gateLast, gateLast, starts, run.used, minInterval);
    } else {
      assert run.used == 0 && run.gateLast == gateLast;
      SpacedByCount(run.gateLast, gateLast, [], run.used, minInterval);
    }
  }

  lemma SpacedByCount(g: real, last: real, starts: seq<real>, n: nat, minInterval: real)
    requires |starts| == n && g >= last + |starts| as real * minInterval
    ensures g >= last + n as real * minInterval
  {
  }

  /** Backoffs never exceed the cap and never shrink from one attempt to the next. */
  lemma BackoffsCappedAndGrowing(cfg: RetryConfig, i: nat, j: nat)
    requires cfg.backoffBase >= 0.0 && i <= j
    ensures 0.0 <= Backoff(cfg, i) <= Backoff(cfg, j) <= BackoffCap
  {
    Pow2Monotone(i, j);
    var x, y := Pow2(i) as real, Pow2(j) as real;
    ScaleMonotone(cfg.backoffBase, x, y);
    CapMonotone(cfg.backoffBase * x, cfg.backoffBase * y, BackoffCap);
  }

  /** Capping keeps values in order and within the cap. */
  lemma CapMonotone(lo: real, hi: real, cap: real)
    requires 0.0 <= lo <= hi && cap >= 0.0
    ensures 0.0 <= (if lo <= cap then lo else cap) <= (if hi <= cap then hi else cap) <= cap
  {
  }

  /** Scaling by a non-negative factor keeps non-negative values in order. */
  lemma ScaleMonotone(a: real, x: real, y: real)
    requires a >= 0.0 && 0.0 <= x <= y
    ensures 0.0 <= a * x <= a * y
  {
    assert a * y - a * x == a * (y - x);
  }

  /**
   * A 429 followed by a 200 inside the retry budget: the 200's payload is
   * returned after two requests and one backoff, and the breaker, which saw
   * exactly one failure and then one success, ends closed with no failures.
   */
  lemma RetryAfterTooManyRequests(cfg: RetryConfig, c: Config, b: BreakerState, minInterval: real,
                                  gateLast: real, now: real, atts: seq<Attempt<Json>>, data: Json)
    requires cfg.retryMax >= 1 && |atts| >= AttemptLimit(cfg)
    requires b.phase != Open
    requires atts[0].exchange == Response(429, None)
    requires atts[1].exchange == Response(200, Some(data))
    ensures var run := Invoke(cfg, c, b, minInterval, gateLast, now, atts);
      run.result == Ok(data) && run.used == 2 && run.backoffs == [Backoff(cfg, 0)] &&
      run.breaker == SuccessStep(FailureStep(c, b, atts[0].end)) &&
      run.breaker.phase == Closed && run.breaker.failTs == []
  {
    var lim := AttemptLimit(cfg);
    assert !Succeeded(atts[0]) && Succeeded(atts[1]);
    assert FirstIndex(atts, Succeeded, lim) == 1;
    assert EndTimes(atts[..1]) == [atts[0].end];
    assert FailAll(c, b, [atts[0].end]) == FailureStep(c, FailAll(c, b, []), atts[0].end);
  }

  /** When every attempt fails the answer is 502, carrying the last attempt's error. */
  lemma AllFailedIsBadGateway(cfg: RetryConfig, c: Config, b: BreakerState, minInterval: real,
                              gateLast: real, now: real, atts: seq<Attempt<Json>>)
    requires |atts| >= AttemptLimit(cfg) > 0
    requires AllowStep(c, b, now).0
    requires forall i :: 0 <= i < AttemptLimit(cfg) ==> !Succeeded(atts[i])
    ensures var run := Invoke(cfg, c, b, minInterval, gateLast, now, atts);
      run.result.Err? && HttpStatus(run.result.error) == 502 &&
      run.result.error.last == Some(Classify(atts[AttemptLimit(cfg) - 1].exchange).error) &&
      run.used == AttemptLimit(cfg)
  {
  }
}
