/**
 * The per-IP token bucket of backend/app/middleware_rate_limit.py: requests
 * under the rate-limited path prefix draw one token from their client's
 * bucket; an empty bucket answers 429 with a `Retry-After` hint. Buckets
 * refill continuously at `per_min / 60` tokens a second, up to `burst`.
 *
 * The configuration read from the environment is a parameter, and so is
 * the wall-clock reading `time.time()`; token counts are exact reals.
 */
module RateLimit {
  import opened Wrappers
  import Text

  /** `_RATE_LIMIT_PER_MIN`, `_RATE_LIMIT_BURST`, `_RATE_LIMIT_PATH_PREFIX`, `_RATE_LIMIT_BEHIND_PROXY`. */
  datatype Config = Config(perMin: int, burst: int, prefix: string, behindProxy: bool)

  /** The defaults: 30 a minute, a burst of the same size, under `/api/`, not behind a proxy. */
  const DefaultConfig := Config(30, 30, "/api/", false)

  /** `_RATE_LIMIT_BEHIND_PROXY`: the variable is one of "1", "true" or "TRUE" (unset reads as "0"). */
  function BehindProxy(env: Option<string>): (r: bool)
    ensures r <==> env.Some? && (env.value == "1" || env.value == "true" || env.value == "TRUE")
  {
    var v := if env.Some? then env.value else "0";
    v == "1" || v == "true" || v == "TRUE"
  }

  /**
   * `_client_ip`: behind a proxy, the first entry of a non-empty
   * `X-Forwarded-For`, stripped; otherwise the peer's host, or "unknown".
   */
  function ClientIp(behindProxy: bool, xff: Option<string>, client: Option<string>): (ip: string)
  {
    if behindProxy && xff.Some? && xff.value != [] then Text.Strip(Text.Split(xff.value, ',')[0])
    else if client.Some? then client.value
    else "unknown"
  }

  /** Behind a proxy, the key is the first hop of the header, whatever follows the first comma. */
  lemma ClientIpFirstHop(first: string, rest: string, client: Option<string>)
    requires ',' !in first
    ensures ClientIp(true, Some(first + "," + rest), client) == Text.Strip(first)
  {
    var s := first + "," + rest;
    assert s[|first|] == ',';
    assert ',' in s;
    var i := Text.IndexOf(s, ',');
    assert s[..|first|] == first;
    assert i == |first|;
  }

  /** Not behind a proxy, a client cannot choose its bucket by sending the header. */
  lemma ClientIpIgnoresHeader(xff1: Option<string>, xff2: Option<string>, client: Option<string>)
    ensures ClientIp(false, xff1, client) == ClientIp(false, xff2, client)
    ensures ClientIp(false, xff1, client) == if client.Some? then client.value else "unknown"
  {
  }

  /** One IP's bucket: `(tokens, last_ts)`. */
  datatype Bucket = Bucket(tokens: real, last: real)

  /** `refill_rate_per_sec`. */
  function Rate(cfg: Config): real {
    cfg.perMin as real / 60.0
  }

  /** `_BUCKETS.get(ip, (burst, now))`: an unseen IP starts full, refilled as of now. */
  function Current(cfg: Config, buckets: map<string, Bucket>, ip: string, now: real): (b: Bucket)
    ensures ip !in buckets ==> b == Bucket(cfg.burst as real, now)
    ensures ip in buckets ==> b == buckets[ip]
  {
    if ip in buckets then buckets[ip] else Bucket(cfg.burst as real, now)
  }

  function Min(a: real, b: real): real {
    if a <= b then a else b
  }

  /** `min(burst, tokens + max(0, now - last) * rate)`. */
  function Refill(cfg: Config, b: Bucket, now: real): (t: real)
    ensures t <= cfg.burst as real
    ensures now <= b.last ==> t == Min(cfg.burst as real, b.tokens)
    ensures cfg.perMin >= 0 ==> t >= Min(cfg.burst as real, b.tokens)
  {
    var elapsed := if now - b.last > 0.0 then now - b.last else 0.0;
    Min(cfg.burst as real, b.tokens + elapsed * Rate(cfg))
  }

  /** Waiting longer never leaves fewer tokens. */
  lemma RefillMonotone(cfg: Config, b: Bucket, now1: real, now2: real)
    requires cfg.perMin >= 0 && now1 <= now2
    ensures Refill(cfg, b, now1) <= Refill(cfg, b, now2)
  {
    var e1 := if now1 - b.last > 0.0 then now1 - b.last else 0.0;
    var e2 := if now2 - b.last > 0.0 then now2 - b.last else 0.0;
    assert e1 * Rate(cfg) <= e2 * Rate(cfg) by {
      assert (e2 - e1) * Rate(cfg) >= 0.0;
    }
  }

  /** A new client is admitted at once whenever the burst allows a single request. */
  lemma NewClientStartsFull(cfg: Config, buckets: map<string, Bucket>, ip: string, now: real)
    requires ip !in buckets
    ensures Refill(cfg, Current(cfg, buckets, ip, now), now) == cfg.burst as real
  {
  }

  /** Python's `int()` on a non-negative float. */
  function Trunc(x: real): (n: int)
    requires x >= 0.0
    ensures 0 <= n && n as real <= x < n as real + 1.0
  {
    x.Floor
  }

  /** The smallest integer not below `x`. */
  function Ceil(x: real): (n: int)
    ensures x <= n as real < x + 1.0
  {
    if x.Floor as real == x then x.Floor else x.Floor + 1
  }

  /** `int(max(1, (1.0 - tokens) / rate))`, as written: truncated toward zero. */
  function RetryAfterAsWritten(tokens: real, rate: real): (w: int)
    requires rate != 0.0
    ensures w >= 1
  {
    var x := (1.0 - tokens) / rate;
    if x > 1.0 then Trunc(x) else 1
  }

  /** The seconds until one token is back, rounded up: at least one. */
  function RetryAfter(tokens: real, rate: real): (w: int)
    requires rate != 0.0
    ensures w >= 1
    ensures rate > 0.0 ==> tokens + w as real * rate >= 1.0
  {
    var x := (1.0 - tokens) / rate;
    if x > 1.0 then Ceil(x) else 1
  }

  /**
   * The `Retry-After` the middleware computes can be too short: a client
   * holding 0.3 tokens at 30 requests a minute is told to wait 1 second,
   * and after that second it holds 0.8 tokens and is refused again.
   */
  lemma RetryAfterAsWrittenTooShort()
    ensures var cfg := DefaultConfig;
      var b := Bucket(0.3, 0.0);
      var w := RetryAfterAsWritten(Refill(cfg, b, 0.0), Rate(cfg));
      Refill(cfg, b, 0.0) < 1.0 && w == 1 && Refill(cfg, b, w as real) < 1.0
  {
    var cfg := DefaultConfig;
    assert Rate(cfg) == 0.5;
    assert Refill(cfg, Bucket(0.3, 0.0), 0.0) == 0.3;
    assert (1.0 - 0.3) / 0.5 == 1.4;
    assert Refill(cfg, Bucket(0.3, 0.0), 1.0) == 0.8;
  }

  /**
   * Waiting the rounded-up `Retry-After` is enough: a refused client that
   * retries after that many seconds finds a token, as long as the burst
   * holds one and the clock has not gone backwards.
   */
  lemma RetryAfterSuffices(cfg: Config, b: Bucket, now: real)
    requires cfg.perMin > 0 && cfg.burst >= 1 && b.last <= now
    requires Refill(cfg, b, now) < 1.0
    ensures Refill(cfg, b, now + RetryAfter(Refill(cfg, b, now), Rate(cfg)) as real) >= 1.0
  {
    var t := Refill(cfg, b, now);
    var w := RetryAfter(t, Rate(cfg));
    assert t == b.tokens + (now - b.last) * Rate(cfg);
    var later := now + w as real;
    assert (later - b.last) * Rate(cfg) == (now - b.last) * Rate(cfg) + w as real * Rate(cfg);
  }

  /** What the middleware does with a request. */
  datatype Verdict =
    | PassThrough                          // not rate limited: handed to the app untouched
    | TooMany(retryAfter: int, limit: int) // 429, `X-RateLimit-Remaining: 0`
    | Admitted(remaining: int, limit: int) // handed to the app, with the rate-limit headers
    | Crashed                              // `ZeroDivisionError` when the refill rate is zero

  /** `_BUCKETS` and `RateLimitMiddleware.dispatch`. */
  class Limiter {
    const cfg: Config
    var buckets: map<string, Bucket>

    /** A stored bucket holds what was left after taking a token: between 0 and `burst - 1`. */
    ghost predicate Valid()
      reads this
    {
      forall ip :: ip in buckets ==> 0.0 <= buckets[ip].tokens <= cfg.burst as real - 1.0
    }

    constructor(config: Config)
      ensures cfg == config && buckets == map[] && Valid()
    {
      cfg := config;
      buckets := map[];
    }

    /**
     * One request. OPTIONS and paths outside the prefix pass with the
     * buckets untouched. Otherwise the client's bucket is refilled; under
     * one token the request is refused with the truncated `Retry-After`
     * and the bucket is not written; else one token is taken, the bucket
     * is stamped with `now`, and the whole tokens left are reported.
     */
    method Dispatch(verb: string, path: string, ip: string, now: real) returns (v: Verdict)
      requires Valid()
      modifies this
      ensures Valid()
      ensures verb == "OPTIONS" || !Text.StartsWith(path, cfg.prefix) ==>
        v == PassThrough && buckets == old(buckets)
      ensures verb != "OPTIONS" && Text.StartsWith(path, cfg.prefix) ==>
        var t := Refill(cfg, Current(cfg, old(buckets), ip, now), now);
        (t < 1.0 && cfg.perMin == 0 ==> v == Crashed && buckets == old(buckets)) &&
        (t < 1.0 && cfg.perMin != 0 ==>
           v == TooMany(RetryAfterAsWritten(t, Rate(cfg)), cfg.perMin) && buckets == old(buckets)) &&
        (t >= 1.0 ==>
           v == Admitted(Trunc(t - 1.0), cfg.perMin) && buckets == old(buckets)[ip := Bucket(t - 1.0, now)])
    {
      v := Decide(verb, path, ip, now, false);
    }

    /** `Dispatch` with the `Retry-After` hint rounded up. */
    method DispatchCorrected(verb: string, path: string, ip: string, now: real) returns (v: Verdict)
      requires Valid()
      modifies this
      ensures Valid()
      ensures verb == "OPTIONS" || !Text.StartsWith(path, cfg.prefix) ==>
        v == PassThrough && buckets == old(buckets)
      ensures verb != "OPTIONS" && Text.StartsWith(path, cfg.prefix) ==>
        var t := Refill(cfg, Current(cfg, old(buckets), ip, now), now);
        (t < 1.0 && cfg.perMin == 0 ==> v == Crashed && buckets == old(buckets)) &&
        (t < 1.0 && cfg.perMin != 0 ==>
           v == TooMany(RetryAfter(t, Rate(cfg)), cfg.perMin) && buckets == old(buckets)) &&
        (t >= 1.0 ==>
           v == Admitted(Trunc(t - 1.0), cfg.perMin) && buckets == old(buckets)[ip := Bucket(t - 1.0, now)])
    {
      v := Decide(verb, path, ip, now, true);
    }

    /** The body of both: `roundUp` chooses how the wait is turned into whole seconds. */
    method Decide(verb: string, path: string, ip: string, now: real, roundUp: bool) returns (v: Verdict)
      requires Valid()
      modifies this
      ensures Valid()
      ensures verb == "OPTIONS" || !Text.StartsWith(path, cfg.prefix) ==>
        v == PassThrough && buckets == old(buckets)
      ensures verb != "OPTIONS" && Text.StartsWith(path, cfg.prefix) ==>
        var t := Refill(cfg, Current(cfg, old(buckets), ip, now), now);
        (t < 1.0 && cfg.perMin == 0 ==> v == Crashed && buckets == old(buckets)) &&
        (t < 1.0 && cfg.perMin != 0 ==>
           v == TooMany(if roundUp then RetryAfter(t, Rate(cfg)) else RetryAfterAsWritten(t, Rate(cfg)), cfg.perMin) &&
           buckets == old(buckets)) &&
        (t >= 1.0 ==>
           v == Admitted(Trunc(t - 1.0), cfg.perMin) && buckets == old(buckets)[ip := Bucket(t - 1.0, now)])
    {
      if verb == "OPTIONS" || !Text.StartsWith(path, cfg.prefix) {
        return PassThrough;
      }
      var rate := Rate(cfg);
      var b := Current(cfg, buckets, ip, now);
      var tokens := Refill(cfg, b, now);
      if tokens < 1.0 {
        if rate == 0.0 {
          return Crashed;
        }
        var wait := if roundUp then RetryAfter(tokens, rate) else RetryAfterAsWritten(tokens, rate);
        return TooMany(wait, cfg.perMin);
      }
      tokens := tokens - 1.0;
      buckets := buckets[ip := Bucket(tokens, now)];
      v := Admitted(Trunc(tokens), cfg.perMin);
    }
  }

  /** The reported remaining count never goes negative and never exceeds `burst - 1`. */
  lemma AdmittedRemainingBounds(cfg: Config, b: Bucket, now: real)
    requires Refill(cfg, b, now) >= 1.0
    ensures 0 <= Trunc(Refill(cfg, b, now) - 1.0) <= cfg.burst - 1
  {
  }

  /**
   * At most `burst` requests of one client are admitted at the same
   * instant: each admitted one takes a whole token from a bucket that
   * the refill caps at `burst`.
   */
  lemma {:induction false} BurstBound(cfg: Config, b: Bucket, now: real, k: nat)
    requires AdmitsRepeatedly(cfg, b, now, k)
    ensures k > 0 ==> k <= cfg.burst
  {
    if k > 0 {
      var t := Refill(cfg, b, now);
      var next := Bucket(t - 1.0, now);
      assert AdmitsRepeatedly(cfg, next, next.last, k - 1);
      SameInstant(cfg, next, k - 1);
      assert k == 1 || (k - 1) as real <= t - 1.0;
    }
  }

  /** Requests at the instant a bucket was stamped get no refill: at most its tokens of them are admitted. */
  lemma {:induction false} SameInstant(cfg: Config, b: Bucket, k: nat)
    requires AdmitsRepeatedly(cfg, b, b.last, k)
    ensures k > 0 ==> k as real <= Min(cfg.burst as real, b.tokens)
    decreases k
  {
    if k > 0 {
      var t := Refill(cfg, b, b.last);
      assert t == Min(cfg.burst as real, b.tokens) && t >= 1.0;
      var next := Bucket(t - 1.0, b.last);
      assert AdmitsRepeatedly(cfg, next, next.last, k - 1);
      SameInstant(cfg, next, k - 1);
      assert k == 1 || (k - 1) as real <= t - 1.0;
    }
  }

  /** `k` requests in a row at time `now` are all admitted. */
  predicate AdmitsRepeatedly(cfg: Config, b: Bucket, now: real, k: nat)
    decreases k
  {
    k == 0 ||
    (Refill(cfg, b, now) >= 1.0 && AdmitsRepeatedly(cfg, Bucket(Refill(cfg, b, now) - 1.0, now), now, k - 1))
  }
}
