/**
 * What an outbound HTTP call to an upstream provider can produce, as seen by
 * the retry loops of both upstream clients. Network I/O is replaced by these
 * values: each attempt of a loop consumes one of them.
 */
module Upstream {
  import opened Wrappers

  /** The result of issuing one request. */
  datatype Exchange<J> =
    | Response(status: int, body: Option<J>)  // `body` is None when the payload is not valid JSON
    | NoResponse                              // connection error, timeout: the client raised before any status

  /**
   * One attempt of a retry loop: the clock reading when the attempt starts,
   * what the request produced, and the clock reading when its outcome is recorded.
   */
  datatype Attempt<J> = Attempt(start: real, exchange: Exchange<J>, end: real)

  /** `raise_for_status()` of the HTTP client passes exactly the 2xx statuses. */
  predicate IsSuccess(status: int) {
    200 <= status < 300
  }

  /** The end clock readings of a sequence of attempts, in order. */
  function EndTimes<J>(atts: seq<Attempt<J>>): (ts: seq<real>)
    ensures |ts| == |atts|
    ensures forall i :: 0 <= i < |atts| ==> ts[i] == atts[i].end
  {
    seq(|atts|, i requires 0 <= i < |atts| => atts[i].end)
  }

  function Pow2(k: nat): (r: nat)
    ensures r >= 1
  {
    if k == 0 then 1 else 2 * Pow2(k - 1)
  }

  lemma {:induction false} Pow2Monotone(i: nat, j: nat)
    requires i <= j
    ensures Pow2(i) <= Pow2(j)
  {
    if i < j {
      Pow2Monotone(i, j - 1);
    }
  }

  /**
   * The first index below `limit` whose element satisfies `p`, or `limit`
   * when there is none: the attempt at which a retry loop stops early.
   */
  function FirstIndex<X>(s: seq<X>, p: X -> bool, limit: nat): (k: nat)
    requires limit <= |s|
    ensures k <= limit
    ensures forall i :: 0 <= i < k ==> !p(s[i])
    ensures k < limit ==> p(s[k])
  {
    FirstIndexFrom(s, p, 0, limit)
  }

  function FirstIndexFrom<X>(s: seq<X>, p: X -> bool, from: nat, limit: nat): (k: nat)
    requires from <= limit <= |s|
    requires forall i :: 0 <= i < from ==> !p(s[i])
    ensures from <= k <= limit
    ensures forall i :: 0 <= i < k ==> !p(s[i])
    ensures k < limit ==> p(s[k])
    decreases limit - from
  {
    if from == limit || p(s[from]) then from else FirstIndexFrom(s, p, from + 1, limit)
  }

  /** An element that fails the test moves the first passing index past it. */
  lemma FirstIndexPast<X>(s: seq<X>, p: X -> bool, limit: nat, k: nat)
    requires limit <= |s| && k < limit
    requires FirstIndex(s, p, limit) >= k && !p(s[k])
    ensures FirstIndex(s, p, limit) >= k + 1
  {
  }

  /** The three properties of `FirstIndex` pin it down. */
  lemma FirstIndexIs<X>(s: seq<X>, p: X -> bool, limit: nat, k: nat)
    requires limit <= |s| && k <= limit
    requires forall i :: 0 <= i < k ==> !p(s[i])
    requires k < limit ==> p(s[k])
    ensures FirstIndex(s, p, limit) == k
  {
  }
}
