/**
 * The in-process request metrics of backend/app/observability.py: one
 * `_PathMetrics` per request path (a request count, a failure count and a
 * window of the latest 1000 latencies), the snapshot that reports
 * nearest-rank percentiles over the sorted window, and the registry with
 * `metrics_update` and `metrics_dump`.
 *
 * Latencies are whole milliseconds. The percentile index is computed on
 * exact rationals and rounded half to even, as Python's `round` does.
 */
module Metrics {
  import opened Wrappers
  import FixedPoint

  /** `_MAX_SAMPLES`: the latency window of one path. */
  const MaxSamples: nat := 1000

  /** The last `n` elements of `s` (all of `s` when it is shorter). */
  function Last(s: seq<int>, n: nat): (r: seq<int>)
    ensures |r| == if |s| <= n then |s| else n
  {
    if |s| <= n then s else s[|s| - n..]
  }

  /** `deque(maxlen=1000).append(v)`: a full window drops its oldest sample. */
  function BoundedAppend(w: seq<int>, v: int): (r: seq<int>)
    requires |w| <= MaxSamples
    ensures r == Last(w + [v], MaxSamples)
  {
    if |w| == MaxSamples then w[1..] + [v] else w + [v]
  }

  /** Trimming before appending more gives the same window as trimming once at the end. */
  lemma LastAppend(a: seq<int>, b: seq<int>, n: nat)
    ensures Last(Last(a, n) + b, n) == Last(a + b, n)
  {
    var la := Last(a, n);
    var l := la + b;
    var m := a + b;
    assert m[|a| - |la|..] == l;
    assert Last(l, n) == m[|m| - |Last(l, n)|..];
  }

  /** What one path has recorded. */
  datatype PathStats = PathStats(req: int, fail: int, lat: seq<int>)

  const NoStats: PathStats := PathStats(0, 0, [])

  /** The counters never disagree: failures are a part of the requests, and there is a sample per request at most. */
  predicate Consistent(s: PathStats) {
    0 <= s.fail <= s.req && |s.lat| <= MaxSamples && |s.lat| <= s.req
  }

  /** `record(latency_ms, ok)` on a path's stats. */
  function RecordStep(s: PathStats, latencyMs: int, ok: bool): (r: PathStats)
    ensures r.req == s.req + 1
    ensures r.fail == if ok then s.fail else s.fail + 1
    ensures r.lat == Last(s.lat + [latencyMs], MaxSamples)
    ensures Consistent(s) ==> Consistent(r)
  {
    PathStats(s.req + 1, if ok then s.fail else s.fail + 1, Last(s.lat + [latencyMs], MaxSamples))
  }

  /** The window holds the newest sample last, and every older sample it keeps is one of the previous window's, in order. */
  lemma RecordKeepsLatest(s: PathStats, latencyMs: int, ok: bool)
    requires Consistent(s)
    ensures var w := RecordStep(s, latencyMs, ok).lat;
      w != [] && w[|w| - 1] == latencyMs &&
      w[..|w| - 1] == s.lat[|s.lat| - (|w| - 1)..] &&
      (|s.lat| < MaxSamples ==> w == s.lat + [latencyMs])
  {
    var w := RecordStep(s, latencyMs, ok).lat;
    var all := s.lat + [latencyMs];
    assert w == all[|all| - |w|..];
    assert w[..|w| - 1] == all[|all| - |w|..|all| - 1];
    assert all[..|all| - 1] == s.lat;
  }

  /** `_PathMetrics`. */
  class PathMetrics {
    var latMs: seq<int>
    var req: int
    var fail: int

    function Stats(): PathStats
      reads this
    {
      PathStats(req, fail, latMs)
    }

    ghost predicate Valid()
      reads this
    {
      Consistent(Stats())
    }

    constructor()
      ensures Valid() && Stats() == NoStats
    {
      latMs := [];
      req := 0;
      fail := 0;
    }

    /** `record(latency_ms, ok)`. */
    method Record(latencyMs: int, ok: bool)
      requires Valid()
      modifies this
      ensures Valid() && Stats() == RecordStep(old(Stats()), latencyMs, ok)
    {
      req := req + 1;
      if !ok {
        fail := fail + 1;
      }
      latMs := BoundedAppend(latMs, latencyMs);
    }
  }

  /** `fail / req`, or 0.0 before the first request. */
  function FailureRate(req: int, fail: int): (r: real)
    ensures req == 0 ==> r == 0.0
    ensures 0 <= fail <= req ==> 0.0 <= r <= 1.0
    ensures 0 < req ==> r * req as real == fail as real
  {
    if req != 0 then fail as real / req as real else 0.0
  }

  predicate Sorted(s: seq<int>) {
    forall i :: 0 <= i < |s| - 1 ==> s[i] <= s[i + 1]
  }

  /** In a sorted sequence every earlier element is at most every later one. */
  lemma {:induction false} SortedOrdered(s: seq<int>, i: nat, j: nat)
    requires Sorted(s) && i <= j < |s|
    ensures s[i] <= s[j]
    decreases j - i
  {
    if i < j {
      SortedOrdered(s, i + 1, j);
    }
  }

  function Insert(x: int, s: seq<int>): (r: seq<int>)
    requires Sorted(s)
    ensures |r| == |s| + 1 && (r[0] == x || (s != [] && r[0] == s[0]))
    ensures Sorted(r) && multiset(r) == multiset(s) + multiset{x}
  {
    if s == [] then [x]
    else if x <= s[0] then
      SortedCons(x, s);
      [x] + s
    else
      var rest := Insert(x, s[1..]);
      assert s == [s[0]] + s[1..];
      SortedCons(s[0], rest);
      [s[0]] + rest
  }

  /** A sorted sequence stays sorted under an element no larger than its head. */
  lemma SortedCons(a: int, t: seq<int>)
    requires Sorted(t) && (t == [] || a <= t[0])
    ensures Sorted([a] + t)
  {
    var r := [a] + t;
    forall i | 0 <= i < |r| - 1
      ensures r[i] <= r[i + 1]
    {
      if i > 0 {
        assert r[i] == t[i - 1] && r[i + 1] == t[i];
      }
    }
  }

  /** `sorted(arr)`. */
  function SortSeq(s: seq<int>): (r: seq<int>)
    ensures Sorted(r) && multiset(r) == multiset(s) && |r| == |s|
  {
    if s == [] then []
    else
      assert s == [s[0]] + s[1..];
      Insert(s[0], SortSeq(s[1..]))
  }

  /**
   * `_pct(p)`'s index: `round(p / 100 * (n - 1))`, rounded half to even,
   * then clamped into `[0, n - 1]`.
   */
  function PctIndex(p: nat, n: nat): (i: nat)
    requires n >= 1
    ensures i < n
  {
    var m := FixedPoint.RoundHalfEven((p * (n - 1)) as real / 100.0);
    if m > n - 1 then n - 1 else m
  }

  /** `_pct(p)` over a sorted window: None for an empty window, else the sample at the index. */
  function Pct(sorted: seq<int>, p: nat): (r: Option<int>)
    ensures r.None? <==> sorted == []
    ensures r.Some? ==> r.value in sorted
  {
    if |sorted| == 0 then None else Some(sorted[PctIndex(p, |sorted|)])
  }

  /** The snapshot of one path. */
  datatype Snap = Snap(
    requests: int,
    failures: int,
    failureRate: real,
    p50: Option<int>,
    p95: Option<int>,
    p99: Option<int>,
    samples: nat)

  /** `snapshot()`. */
  function Snapshot(s: PathStats): Snap {
    var sorted := SortSeq(s.lat);
    Snap(s.req, s.fail, FailureRate(s.req, s.fail), Pct(sorted, 50), Pct(sorted, 95), Pct(sorted, 99), |sorted|)
  }

  /** Rounding is monotone, ties to even included. */
  lemma RoundHalfEvenMonotone(a: real, b: real)
    requires 0.0 <= a <= b
    ensures FixedPoint.RoundHalfEven(a) <= FixedPoint.RoundHalfEven(b)
  {
  }

  lemma {:induction false} MulMonotone(p: nat, q: nat, c: nat)
    requires p <= q
    ensures p * c <= q * c
  {
    if c > 0 {
      MulMonotone(p, q, c - 1);
      assert p * c == p * (c - 1) + p && q * c == q * (c - 1) + q;
    }
  }

  /** A higher percentile never takes an earlier index. */
  lemma PctIndexMonotone(p: nat, q: nat, n: nat)
    requires n >= 1 && p <= q
    ensures PctIndex(p, n) <= PctIndex(q, n)
  {
    var a, b := p * (n - 1), q * (n - 1);
    MulMonotone(p, q, n - 1);
    assert a as real / 100.0 <= b as real / 100.0;
    RoundHalfEvenMonotone(a as real / 100.0, b as real / 100.0);
  }

  /** A percentile of a sorted window is one of its samples, and a higher percentile is never smaller. */
  lemma PctOrdered(sorted: seq<int>, p: nat, q: nat)
    requires Sorted(sorted) && p <= q
    ensures Pct(sorted, p).None? <==> sorted == []
    ensures sorted != [] ==>
      Pct(sorted, p).value <= Pct(sorted, q).value && Pct(sorted, p).value in multiset(sorted)
  {
    if sorted != [] {
      var n := |sorted|;
      PctIndexMonotone(p, q, n);
      SortedOrdered(sorted, PctIndex(p, n), PctIndex(q, n));
      assert sorted[PctIndex(p, n)] in multiset(sorted);
    }
  }

  /**
   * The snapshot reports as many samples as the window holds; the
   * percentiles are None exactly for an empty window, and otherwise are
   * samples of the window with `p50 <= p95 <= p99`.
   */
  lemma SnapshotPercentiles(s: PathStats)
    ensures var r := Snapshot(s);
      r.samples == |s.lat| &&
      (s.lat == [] <==> r.p50.None?) && (s.lat == [] <==> r.p95.None?) && (s.lat == [] <==> r.p99.None?) &&
      (s.lat != [] ==>
         r.p50.value <= r.p95.value <= r.p99.value &&
         r.p50.value in multiset(s.lat) && r.p95.value in multiset(s.lat) && r.p99.value in multiset(s.lat))
  {
    var sorted := SortSeq(s.lat);
    PctOrdered(sorted, 50, 95);
    PctOrdered(sorted, 95, 99);
    PctOrdered(sorted, 99, 99);
  }

  /**
   * Half-to-even rounding at the middle: with two samples the median index
   * is 0 (`round(0.5) == 0`), with four it is 2 (`round(1.5) == 2`).
   */
  lemma MedianIndexRoundsToEven()
    ensures PctIndex(50, 2) == 0 && PctIndex(50, 4) == 2
  {
    assert (50 * 1) as real / 100.0 == 0.5;
    assert (50 * 3) as real / 100.0 == 1.5;
  }

  /** The failure rate of a consistent path lies in `[0, 1]`. */
  lemma SnapshotFailureRate(s: PathStats)
    requires Consistent(s)
    ensures 0.0 <= Snapshot(s).failureRate <= 1.0
    ensures s.req == 0 ==> Snapshot(s).failureRate == 0.0
  {
  }

  /** `_METRICS[path].record(...)` on the registry's stats, a missing path starting from zero. */
  function UpdateSpec<K>(st: map<K, PathStats>, path: K, latencyMs: int, ok: bool): (r: map<K, PathStats>)
    ensures r.Keys == st.Keys + {path}
    ensures r[path] == RecordStep(if path in st then st[path] else NoStats, latencyMs, ok)
    ensures forall p :: p in st && p != path ==> r[p] == st[p]
  {
    st[path := RecordStep(if path in st then st[path] else NoStats, latencyMs, ok)]
  }

  /** Every listed path has stats. */
  predicate AllIn<K>(order: seq<K>, st: map<K, PathStats>) {
    forall i :: 0 <= i < |order| ==> order[i] in st
  }

  /** The requests over the first `n` paths listed. */
  function SumReq<K>(order: seq<K>, st: map<K, PathStats>, n: nat): int
    requires AllIn(order, st) && n <= |order|
  {
    if n == 0 then 0 else SumReq(order, st, n - 1) + st[order[n - 1]].req
  }

  /** The failures over the first `n` paths listed. */
  function SumFail<K>(order: seq<K>, st: map<K, PathStats>, n: nat): int
    requires AllIn(order, st) && n <= |order|
  {
    if n == 0 then 0 else SumFail(order, st, n - 1) + st[order[n - 1]].fail
  }

  /** The windows of the first `n` paths listed, one after the other. */
  function ConcatLat<K>(order: seq<K>, st: map<K, PathStats>, n: nat): seq<int>
    requires AllIn(order, st) && n <= |order|
  {
    if n == 0 then [] else ConcatLat(order, st, n - 1) + st[order[n - 1]].lat
  }

  /** The aggregate over the first `n` paths: summed counts, the last 1000 of their windows in path order. */
  function OverallUpTo<K>(order: seq<K>, st: map<K, PathStats>, n: nat): PathStats
    requires AllIn(order, st) && n <= |order|
  {
    PathStats(SumReq(order, st, n), SumFail(order, st, n), Last(ConcatLat(order, st, n), MaxSamples))
  }

  /** The aggregate `metrics_dump` reports as `overall`. */
  function Overall<K>(order: seq<K>, st: map<K, PathStats>): PathStats
    requires AllIn(order, st)
  {
    OverallUpTo(order, st, |order|)
  }

  /** The aggregate over one more path: its counts added, its samples appended to the bounded window. */
  lemma OverallStep<K>(order: seq<K>, st: map<K, PathStats>, n: nat)
    requires AllIn(order, st) && n < |order|
    ensures var prev := OverallUpTo(order, st, n);
      OverallUpTo(order, st, n + 1) ==
        PathStats(prev.req + st[order[n]].req, prev.fail + st[order[n]].fail, Last(prev.lat + st[order[n]].lat, MaxSamples))
  {
    LastAppend(ConcatLat(order, st, n), st[order[n]].lat, MaxSamples);
  }

  /** Consistent paths add up to a consistent aggregate. */
  lemma {:induction false} OverallConsistent<K>(order: seq<K>, st: map<K, PathStats>, n: nat)
    requires AllIn(order, st) && n <= |order|
    requires forall i :: 0 <= i < |order| ==> Consistent(st[order[i]])
    ensures 0 <= SumFail(order, st, n) <= SumReq(order, st, n)
    ensures |ConcatLat(order, st, n)| <= SumReq(order, st, n)
    ensures Consistent(OverallUpTo(order, st, n))
  {
    if n > 0 {
      OverallConsistent(order, st, n - 1);
    }
  }

  predicate NoDups<K(==)>(s: seq<K>) {
    forall i, j :: 0 <= i < j < |s| ==> s[i] != s[j]
  }

  /** Every path is listed once, exactly the paths with stats are listed, and all stats are consistent. */
  ghost predicate WellFormed<K(!new)>(order: seq<K>, metrics: map<K, PathStats>) {
    NoDups(order) &&
    (forall p :: p in metrics <==> p in order) &&
    (forall p :: p in metrics ==> Consistent(metrics[p]))
  }

  /** Storing consistent stats for a path, listing it if new, keeps the registry well formed. */
  lemma UpdateWellFormed<K(!new)>(order: seq<K>, metrics: map<K, PathStats>, path: K, stats: PathStats)
    requires WellFormed(order, metrics) && Consistent(stats)
    ensures WellFormed(if path in order then order else order + [path], metrics[path := stats])
  {
    var order' := if path in order then order else order + [path];
    if path !in order {
      forall i, j | 0 <= i < j < |order'|
        ensures order'[i] != order'[j]
      {
        if j == |order| {
          assert order'[i] == order[i];
        }
      }
    }
  }

  /**
   * `_METRICS`: the stats of each path, in the order the paths were first
   * seen. Each `_PathMetrics` object is only reachable through this table,
   * so the table holds its stats as values.
   */
  class Registry<K(==,!new)> {
    var order: seq<K>
    var metrics: map<K, PathStats>

    ghost predicate Valid()
      reads this
    {
      WellFormed(order, metrics)
    }

    constructor()
      ensures Valid() && metrics == map[] && order == []
    {
      order := [];
      metrics := map[];
    }

    /**
     * `metrics_update(path, latency_ms, ok)`: the default dict registers a
     * path on its first request, last in order, with empty stats.
     */
    method Update(path: K, latencyMs: int, ok: bool)
      requires Valid()
      modifies this
      ensures Valid()
      ensures metrics == UpdateSpec(old(metrics), path, latencyMs, ok)
      ensures order == if path in old(order) then old(order) else old(order) + [path]
    {
      var stats: PathStats;
      if path in metrics {
        stats := metrics[path];
      } else {
        stats := NoStats;
        order := order + [path];
      }
      UpdateWellFormed(old(order), old(metrics), path, RecordStep(stats, latencyMs, ok));
      metrics := metrics[path := RecordStep(stats, latencyMs, ok)];
    }

    /** `metrics_dump()`: the aggregate snapshot and one snapshot per path. */
    method Dump() returns (overall: Snap, byPath: map<K, Snap>)
      requires Valid()
      ensures overall == Snapshot(Overall(order, metrics))
      ensures byPath == map p | p in metrics :: Snapshot(metrics[p])
    {
      assert AllIn(order, metrics);
      var total := Aggregate(order, metrics);
      overall := Snapshot(total);
      byPath := map p | p in metrics :: Snapshot(metrics[p]);
    }
  }

  /** The loop of `metrics_dump` over the paths: summed counts and the newest samples of all windows. */
  method Aggregate<K>(order: seq<K>, metrics: map<K, PathStats>) returns (total: PathStats)
    requires AllIn(order, metrics)
    ensures total == Overall(order, metrics)
  {
    total := PathStats(0, 0, []);
    var i := 0;
    while i < |order|
      invariant 0 <= i <= |order|
      invariant total == OverallUpTo(order, metrics, i)
    {
      var stats := metrics[order[i]];
      OverallStep(order, metrics, i);
      var window := ExtendWindow(total.lat, stats.lat);
      total := PathStats(total.req + stats.req, total.fail + stats.fail, window);
      i := i + 1;
    }
  }

  /** `overall.lat_ms.append(v)` for each sample of one path, into the bounded window. */
  method ExtendWindow(w: seq<int>, xs: seq<int>) returns (r: seq<int>)
    requires |w| <= MaxSamples
    ensures r == Last(w + xs, MaxSamples)
  {
    r := w;
    var j := 0;
    while j < |xs|
      invariant 0 <= j <= |xs|
      invariant r == Last(w + xs[..j], MaxSamples)
    {
      LastAppend(w + xs[..j], [xs[j]], MaxSamples);
      assert xs[..j + 1] == xs[..j] + [xs[j]];
      assert w + xs[..j + 1] == (w + xs[..j]) + [xs[j]];
      r := BoundedAppend(r, xs[j]);
      j := j + 1;
    }
    assert xs[..j] == xs;
  }

  /** An update counts exactly one request on its path and changes no other path. */
  lemma {:induction false} UpdateCountsOnce<K>(st: map<K, PathStats>, order: seq<K>, n: nat, path: K, latencyMs: int, ok: bool)
    requires AllIn(order, st) && n <= |order|
    requires NoDups(order) && path in order[..n]
    ensures var st' := UpdateSpec(st, path, latencyMs, ok);
      SumReq(order, st', n) == SumReq(order, st, n) + 1 &&
      SumFail(order, st', n) == SumFail(order, st, n) + (if ok then 0 else 1)
  {
    var st' := UpdateSpec(st, path, latencyMs, ok);
    if order[n - 1] == path {
      SumUnchanged(order, st, st', path, n - 1);
    } else {
      assert order[..n] == order[..n - 1] + [order[n - 1]];
      UpdateCountsOnce(st, order, n - 1, path, latencyMs, ok);
    }
  }

  /** Sums over paths whose stats are left alone do not change. */
  lemma {:induction false} SumUnchanged<K>(order: seq<K>, st: map<K, PathStats>, st': map<K, PathStats>, path: K, n: nat)
    requires AllIn(order, st) && AllIn(order, st') && n <= |order|
    requires forall i :: 0 <= i < n ==> order[i] != path
    requires forall p :: p in st && p != path ==> p in st' && st'[p] == st[p]
    ensures SumReq(order, st, n) == SumReq(order, st', n) && SumFail(order, st, n) == SumFail(order, st', n)
  {
    if n > 0 {
      SumUnchanged(order, st, st', path, n - 1);
    }
  }
}
