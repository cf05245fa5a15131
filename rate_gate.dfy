/**
 * The process-wide minimum-interval gate in front of the geocoding provider
 * (`_respect_rate_limit` in backend/app/api/geocode.py). Each acquisition
 * waits until the minimum interval since the previous one has passed and
 * then records the time. The lock that serialises callers is not modelled:
 * acquisitions happen one after another.
 */
module RateGate {

  function Max(a: real, b: real): real {
    if a >= b then a else b
  }

  /** `_MIN_INTERVAL = 1.0 / max(0.1, NOMINATIM_QPS)`. */
  function MinInterval(qps: real): (m: real)
    ensures 0.0 < m <= 10.0
    ensures qps >= 0.1 ==> m * qps == 1.0
  {
    1.0 / Max(0.1, qps)
  }

  /** The wait before a call at `now` when the previous call was recorded at `last`. */
  function Wait(minInterval: real, last: real, now: real): (w: real)
    ensures w >= 0.0
    ensures now + w >= last + minInterval
  {
    Max(0.0, minInterval - (now - last))
  }

  /** The gate with its last-call timestamp. */
  class RateGate {
    const minInterval: real
    var lastCall: real

    constructor (qps: real)
      ensures minInterval == MinInterval(qps) && lastCall == 0.0
    {
      minInterval := MinInterval(qps);
      lastCall := 0.0;
    }

    /**
     * Sleeps for the returned wait and records the call. The clock reading
     * after the sleep is taken to be `now + wait`.
     */
    method Acquire(now: real) returns (wait: real)
      modifies this
      ensures wait == Wait(minInterval, old(lastCall), now)
      ensures lastCall == now + wait
      ensures lastCall >= old(lastCall) + minInterval
      ensures lastCall >= now
    {
      var elapsed := now - lastCall;
      wait := Max(0.0, minInterval - elapsed);
      lastCall := now + wait;
    }
  }

  /** The last-call timestamp after one acquisition per clock reading in `starts`. */
  function AcquireAll(minInterval: real, last: real, starts: seq<real>): real {
    if starts == [] then last
    else
      var prev := AcquireAll(minInterval, last, starts[..|starts| - 1]);
      var now := starts[|starts| - 1];
      now + Wait(minInterval, prev, now)
  }

  /** `n` acquisitions move the last-call timestamp forward by at least `n` minimum intervals. */
  lemma {:induction false} AcquisitionsAreSpaced(minInterval: real, last: real, starts: seq<real>)
    ensures AcquireAll(minInterval, last, starts) >= last + |starts| as real * minInterval
  {
    if starts != [] {
      AcquisitionsAreSpaced(minInterval, last, starts[..|starts| - 1]);
    }
  }
}
