/**
 * The geocoding client's circuit breaker (`CircuitBreaker` in
 * backend/app/api/geocode.py): failures are counted in a sliding time window,
 * enough of them open the breaker, and once the reset timeout has elapsed
 * calls are let through again in the half-open state. The transitions are
 * pure functions of the state and a clock reading; the class applies them to
 * its fields.
 */
module CircuitBreakers {

  datatype Phase = Closed | Open | HalfOpen

  /** `threshold` failures within `window` seconds open the breaker for `resetTimeout` seconds. */
  datatype Config = Config(threshold: int, window: real, resetTimeout: real)

  /** The fields `state`, `fail_ts` and `open_since`. */
  datatype BreakerState = BreakerState(phase: Phase, failTs: seq<real>, openSince: real)

  const Initial: BreakerState := BreakerState(Closed, [], 0.0)

  /** The failure timestamps that are still inside the window at `now`, in their order. */
  function Recent(ts: seq<real>, now: real, window: real): (r: seq<real>)
    ensures |r| <= |ts|
    ensures forall t :: t in r <==> t in ts && now - t <= window
  {
    if ts == [] then []
    else
      var rest := Recent(ts[..|ts| - 1], now, window);
      var t := ts[|ts| - 1];
      assert ts == ts[..|ts| - 1] + [t];
      if now - t <= window then rest + [t] else rest
  }

  lemma {:induction false} RecentConcat(a: seq<real>, b: seq<real>, now: real, window: real)
    ensures Recent(a + b, now, window) == Recent(a, now, window) + Recent(b, now, window)
    decreases |b|
  {
    if b != [] {
      var b' := b[..|b| - 1];
      assert (a + b)[..|a + b| - 1] == a + b';
      RecentConcat(a, b', now, window);
    } else {
      assert a + b == a;
    }
  }

  /** `allow()`: whether a call may go out, and the state afterwards. */
  function AllowStep(c: Config, b: BreakerState, now: real): (r: (bool, BreakerState))
    ensures r.0 <==> b.phase != Open || now - b.openSince >= c.resetTimeout
    ensures r.1.phase == Open <==> !r.0
    ensures r.1.failTs == b.failTs && r.1.openSince == b.openSince
    ensures b.phase != Open ==> r.1 == b
  {
    if b.phase == Open then
      if now - b.openSince >= c.resetTimeout then (true, b.(phase := HalfOpen))
      else (false, b)
    else (true, b)
  }

  /** `on_success()`. */
  function SuccessStep(b: BreakerState): (r: BreakerState)
    ensures r.phase == Closed && r.failTs == []
    ensures r.openSince == b.openSince
  {
    BreakerState(Closed, [], b.openSince)
  }

  /** `on_failure()`: prune the window, record `now`, open once the threshold is reached. */
  function FailureStep(c: Config, b: BreakerState, now: real): (r: BreakerState)
    ensures |r.failTs| >= 1 && r.failTs[|r.failTs| - 1] == now
    ensures forall t :: t in r.failTs ==> now - t <= c.window || t == now
    ensures |r.failTs| >= c.threshold ==> r.phase == Open && r.openSince == now
    ensures |r.failTs| < c.threshold ==> r.phase == b.phase && r.openSince == b.openSince
  {
    var ts := Recent(b.failTs, now, c.window) + [now];
    if |ts| >= c.threshold then BreakerState(Open, ts, now)
    else b.(failTs := ts)
  }

  /** The state after failures recorded at the clock readings `ts`, in order. */
  function FailAll(c: Config, b: BreakerState, ts: seq<real>): BreakerState {
    if ts == [] then b else FailureStep(c, FailAll(c, b, ts[..|ts| - 1]), ts[|ts| - 1])
  }

  /** Every clock reading in `ts` lies in the interval [lo, lo + window]. */
  predicate WithinOneWindow(ts: seq<real>, lo: real, window: real) {
    forall i :: 0 <= i < |ts| ==> lo <= ts[i] <= lo + window
  }

  lemma {:induction false} FailuresStayInWindow(c: Config, b: BreakerState, ts: seq<real>, lo: real)
    requires WithinOneWindow(ts, lo, c.window)
    ensures var f := FailAll(c, b, ts).failTs;
      |f| >= |ts| && f[|f| - |ts|..] == ts
  {
    if ts != [] {
      WindowPrefix(ts, lo, c.window);
      FailuresStayInWindow(c, b, ts[..|ts| - 1], lo);
      StepKeepsWindow(c, FailAll(c, b, ts[..|ts| - 1]), ts, c.window);
    }
  }

  /** Dropping the last reading keeps the rest in the interval, and each of them within a window of it. */
  lemma WindowPrefix(ts: seq<real>, lo: real, window: real)
    requires ts != [] && WithinOneWindow(ts, lo, window)
    ensures WithinOneWindow(ts[..|ts| - 1], lo, window)
    ensures forall i :: 0 <= i < |ts| - 1 ==> ts[|ts| - 1] - ts[i] <= window
  {
  }

  /**
   * One more failure at the last reading of `ts` extends a run of the
   * earlier ones, when they are all within the window of it.
   */
  lemma StepKeepsWindow(c: Config, prev: BreakerState, ts: seq<real>, window: real)
    requires ts != [] && window == c.window
    requires |prev.failTs| >= |ts| - 1 && prev.failTs[|prev.failTs| - (|ts| - 1)..] == ts[..|ts| - 1]
    requires forall i :: 0 <= i < |ts| - 1 ==> ts[|ts| - 1] - ts[i] <= window
    ensures var f := FailureStep(c, prev, ts[|ts| - 1]).failTs;
      |f| >= |ts| && f[|f| - |ts|..] == ts
  {
    var run := ts[..|ts| - 1];
    var t := ts[|ts| - 1];
    assert FailureStep(c, prev, t).failTs == Recent(prev.failTs, t, c.window) + [t];
    assert forall i :: 0 <= i < |run| ==> run[i] == ts[i];
    RecentSuffix(prev.failTs, run, t, window);
    assert ts == run + [t];
  }

  /** When the readings that end `p` all lie within the window of `t`, pruning keeps them and `t` follows them. */
  lemma RecentSuffix(p: seq<real>, run: seq<real>, t: real, window: real)
    requires |p| >= |run| && p[|p| - |run|..] == run
    requires forall i :: 0 <= i < |run| ==> t - run[i] <= window
    ensures var f := Recent(p, t, window) + [t];
      |f| >= |run| + 1 && f[|f| - (|run| + 1)..] == run + [t]
  {
    var cut := |p| - |run|;
    assert p == p[..cut] + run;
    RecentConcat(p[..cut], run, t, window);
    AllRecent(run, t, window);
    AppendSuffix(Recent(p[..cut], t, window), run, t);
  }

  lemma AppendSuffix(r: seq<real>, run: seq<real>, t: real)
    ensures var f := (r + run) + [t];
      |f| == |r| + |run| + 1 && f[|r|..] == run + [t]
  {
  }

  lemma {:induction false} AllRecent(ts: seq<real>, now: real, window: real)
    requires forall i :: 0 <= i < |ts| ==> now - ts[i] <= window
    ensures Recent(ts, now, window) == ts
  {
    if ts != [] {
      AllRecent(ts[..|ts| - 1], now, window);
      assert ts == ts[..|ts| - 1] + [ts[|ts| - 1]];
    }
  }

  /**
   * At least `threshold` failures whose clock readings all lie within one
   * window-long interval open the breaker, whatever state it started in, and
   * the open timestamp is the last of those failures.
   */
  lemma ThresholdFailuresOpen(c: Config, b: BreakerState, ts: seq<real>, lo: real)
    requires ts != [] && |ts| >= c.threshold
    requires WithinOneWindow(ts, lo, c.window)
    ensures FailAll(c, b, ts).phase == Open
    ensures FailAll(c, b, ts).openSince == ts[|ts| - 1]
  {
    FailuresStayInWindow(c, b, ts, lo);
  }

  /** An open breaker refuses every call until the reset timeout has elapsed, and stays as it is. */
  lemma OpenRefusesUntilReset(c: Config, b: BreakerState, now: real)
    requires b.phase == Open && now - b.openSince < c.resetTimeout
    ensures AllowStep(c, b, now) == (false, b)
  {
  }

  /** After the reset timeout the breaker lets a probe through and becomes half-open. */
  lemma OpenProbesAfterReset(c: Config, b: BreakerState, now: real)
    requires b.phase == Open && now - b.openSince >= c.resetTimeout
    ensures AllowStep(c, b, now) == (true, BreakerState(HalfOpen, b.failTs, b.openSince))
  {
  }

  /** A closed or half-open breaker lets every call through and does not change. */
  lemma NotOpenAllows(c: Config, b: BreakerState, now: real)
    requires b.phase != Open
    ensures AllowStep(c, b, now) == (true, b)
  {
  }

  /** A success from any state closes the breaker and forgets the failures; a second one changes nothing. */
  lemma SuccessRecovers(b: BreakerState)
    ensures SuccessStep(b).phase == Closed && SuccessStep(b).failTs == []
    ensures SuccessStep(SuccessStep(b)) == SuccessStep(b)
  {
  }

  /**
   * The half-open probe is not a single trial: a failed probe after a quiet
   * window leaves the breaker half-open (calls keep flowing) unless the
   * window again holds `threshold` failures.
   */
  lemma FailedProbeMayStayHalfOpen()
    ensures var c := Config(5, 10.0, 30.0);
      var b := BreakerState(HalfOpen, [0.0, 1.0, 2.0, 3.0, 4.0], 4.0);
      FailureStep(c, b, 40.0) == BreakerState(HalfOpen, [40.0], 4.0)
  {
    var c := Config(5, 10.0, 30.0);
    var b := BreakerState(HalfOpen, [0.0, 1.0, 2.0, 3.0, 4.0], 4.0);
    AllStale(b.failTs, 40.0, 10.0);
  }

  lemma {:induction false} AllStale(ts: seq<real>, now: real, window: real)
    requires forall i :: 0 <= i < |ts| ==> now - ts[i] > window
    ensures Recent(ts, now, window) == []
  {
    if ts != [] {
      AllStale(ts[..|ts| - 1], now, window);
    }
  }

  /** The breaker object: its fields are updated in place by the three operations. */
  class CircuitBreaker {
    const config: Config
    var phase: Phase
    var failTs: seq<real>
    var openSince: real

    function State(): BreakerState
      reads this
    {
      BreakerState(phase, failTs, openSince)
    }

    constructor (threshold: int, window: real, resetTimeout: real)
      ensures config == Config(threshold, window, resetTimeout)
      ensures State() == Initial
    {
      config := Config(threshold, window, resetTimeout);
      phase, failTs, openSince := Closed, [], 0.0;
    }

    method Allow(now: real) returns (ok: bool)
      modifies this
      ensures (ok, State()) == AllowStep(config, old(State()), now)
    {
      ok := true;
      if phase == Open {
        if now - openSince >= config.resetTimeout {
          phase := HalfOpen;
        } else {
          ok := false;
        }
      }
    }

    method OnSuccess()
      modifies this
      ensures State() == SuccessStep(old(State()))
    {
      failTs := [];
      if phase == HalfOpen || phase == Open {
        phase := Closed;
      }
    }

    method OnFailure(now: real)
      modifies this
      ensures State() == FailureStep(config, old(State()), now)
    {
      failTs := Recent(failTs, now, config.window);
      failTs := failTs + [now];
      if |failTs| >= config.threshold {
        phase := Open;
        openSince := now;
      }
    }
  }
}
