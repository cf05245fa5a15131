/**
 * The next-day baselines of backend/app/ml/baseline.py: the hourly values
 * of one calendar day picked out of a forecast by timestamp prefix, the
 * day's mean/min/max temperature and precipitation total, the persistence
 * forecast that reuses the previous day, and the choice between it and a
 * stored regression model.
 *
 * NaN is `None`. Sums and means are exact; the regression model itself
 * (scikit-learn) and the forecast fetch are function parameters.
 */
module Baseline {
  import opened Wrappers
  import opened Json
  import Text
  import WeatherParse

  type Date = WeatherParse.Date

  predicate IsLeap(y: nat) {
    y % 4 == 0 && (y % 100 != 0 || y % 400 == 0)
  }

  function DaysInMonth(y: nat, m: nat): (n: nat)
    requires 1 <= m <= 12
    ensures 28 <= n <= 31
  {
    if m == 2 then (if IsLeap(y) then 29 else 28)
    else if m == 4 || m == 6 || m == 9 || m == 11 then 30
    else 31
  }

  /** What a Python `date` can hold: years 1 to 9999 and real calendar days. */
  predicate ValidDate(d: Date) {
    1 <= d.year <= 9999 && 1 <= d.month <= 12 && 1 <= d.day <= DaysInMonth(d.year, d.month)
  }

  /** Calendar order. */
  predicate Before(a: Date, b: Date) {
    a.year < b.year ||
    (a.year == b.year && (a.month < b.month || (a.month == b.month && a.day < b.day)))
  }

  /** `d - timedelta(days=1)`; None where Python raises `OverflowError` (before 0001-01-01). */
  function PrevDay(d: Date): (r: Option<Date>)
    requires ValidDate(d)
    ensures r.None? <==> d == WeatherParse.Date(1, 1, 1)
    ensures r.Some? ==> ValidDate(r.value) && Before(r.value, d)
  {
    if d.day > 1 then Some(WeatherParse.Date(d.year, d.month, d.day - 1))
    else if d.month > 1 then Some(WeatherParse.Date(d.year, d.month - 1, DaysInMonth(d.year, d.month - 1)))
    else if d.year > 1 then Some(WeatherParse.Date(d.year - 1, 12, 31))
    else None
  }

  /** The day before is the latest date before: no valid date lies strictly between. */
  lemma PrevDayIsPredecessor(d: Date, e: Date)
    requires ValidDate(d) && ValidDate(e) && Before(e, d)
    ensures PrevDay(d).Some? && !Before(PrevDay(d).value, e)
  {
  }

  /** `f"{day.isoformat()}T"`. */
  function DayPrefix(day: Date): string {
    WeatherParse.IsoDate(day) + "T"
  }

  function MinLen(a: nat, b: nat): nat {
    if a <= b then a else b
  }

  /**
   * `_day_slice`: walking `zip(times, arr)`, the values whose timestamp
   * starts with `prefix`, in order. None where `startswith` is called on a
   * timestamp that is not a string (an `AttributeError` in Python).
   */
  function DaySlice(times: seq<Json>, arr: seq<real>, prefix: string): (r: Option<seq<real>>)
    ensures r.Some? <==> forall i :: 0 <= i < MinLen(|times|, |arr|) ==> times[i].JStr?
    ensures r.Some? ==> |r.value| <= MinLen(|times|, |arr|)
    decreases |times|
  {
    if times == [] || arr == [] then Some([])
    else if !times[0].JStr? then None
    else
      var rest := DaySlice(times[1..], arr[1..], prefix);
      assert forall i :: 1 <= i < MinLen(|times|, |arr|) ==> times[i] == times[1..][i - 1];
      if rest.None? then None
      else Some(if Text.StartsWith(times[0].s, prefix) then [arr[0]] + rest.value else rest.value)
  }

  /** One pair: its value is kept exactly when its timestamp has the prefix. */
  lemma DaySliceSingle(t: string, v: real, prefix: string)
    ensures DaySlice([JStr(t)], [v], prefix) == Some(if Text.StartsWith(t, prefix) then [v] else [])
  {
    assert [JStr(t)][1..] == [] && [v][1..] == [];
    assert DaySlice([], [], prefix) == Some([]);
    assert [v] + [] == [v];
  }

  /** Slicing distributes over concatenation of equally long pieces: the order is kept. */
  lemma {:induction false} DaySliceAppend(t1: seq<Json>, a1: seq<real>, t2: seq<Json>, a2: seq<real>, prefix: string)
    requires |t1| == |a1|
    requires DaySlice(t1, a1, prefix).Some? && DaySlice(t2, a2, prefix).Some?
    ensures DaySlice(t1 + t2, a1 + a2, prefix) == Some(DaySlice(t1, a1, prefix).value + DaySlice(t2, a2, prefix).value)
    decreases |t1|
  {
    if t1 == [] {
      assert t1 + t2 == t2 && a1 + a2 == a2;
      assert DaySlice(t1, a1, prefix).value + DaySlice(t2, a2, prefix).value == DaySlice(t2, a2, prefix).value;
    } else {
      var t, a := t1 + t2, a1 + a2;
      assert t1[0].JStr? && DaySlice(t1[1..], a1[1..], prefix).Some?;
      DaySliceAppend(t1[1..], a1[1..], t2, a2, prefix);
      var s1 := DaySlice(t1[1..], a1[1..], prefix).value;
      var s2 := DaySlice(t2, a2, prefix).value;
      DaySliceCons(t1, a1, prefix);
      assert t[0] == t1[0] && a[0] == a1[0];
      assert t[1..] == t1[1..] + t2 && a[1..] == a1[1..] + a2;
      DaySliceCons(t, a, prefix);
      if Text.StartsWith(t1[0].s, prefix) {
        assert [a1[0]] + (s1 + s2) == ([a1[0]] + s1) + s2;
      }
    }
  }

  /** A leading text timestamp keeps or drops its value in front of the rest of the slice. */
  lemma DaySliceCons(t: seq<Json>, a: seq<real>, prefix: string)
    requires t != [] && a != [] && t[0].JStr? && DaySlice(t[1..], a[1..], prefix).Some?
    ensures var rest := DaySlice(t[1..], a[1..], prefix).value;
      DaySlice(t, a, prefix) == Some(if Text.StartsWith(t[0].s, prefix) then [a[0]] + rest else rest)
  {
  }

  /** The pairing stops at the shorter list: what lies beyond it never matters. */
  lemma {:induction false} DaySliceTruncates(times: seq<Json>, arr: seq<real>, prefix: string)
    ensures var n := MinLen(|times|, |arr|);
      DaySlice(times, arr, prefix) == DaySlice(times[..n], arr[..n], prefix)
    decreases |times|
  {
    var n := MinLen(|times|, |arr|);
    if n > 0 {
      DaySliceTruncates(times[1..], arr[1..], prefix);
      assert times[..n][1..] == times[1..][..n - 1];
      assert arr[..n][1..] == arr[1..][..n - 1];
    }
  }

  function Sum(xs: seq<real>): real {
    if xs == [] then 0.0 else Sum(xs[..|xs| - 1]) + xs[|xs| - 1]
  }

  /** `np.min`. */
  function MinOf(xs: seq<real>): (m: real)
    requires xs != []
    ensures m in xs && forall i :: 0 <= i < |xs| ==> m <= xs[i]
  {
    if |xs| == 1 then xs[0]
    else
      var m := MinOf(xs[..|xs| - 1]);
      assert forall i :: 0 <= i < |xs| - 1 ==> xs[..|xs| - 1][i] == xs[i];
      if xs[|xs| - 1] < m then xs[|xs| - 1] else m
  }

  /** `np.max`. */
  function MaxOf(xs: seq<real>): (m: real)
    requires xs != []
    ensures m in xs && forall i :: 0 <= i < |xs| ==> xs[i] <= m
  {
    if |xs| == 1 then xs[0]
    else
      var m := MaxOf(xs[..|xs| - 1]);
      assert forall i :: 0 <= i < |xs| - 1 ==> xs[..|xs| - 1][i] == xs[i];
      if xs[|xs| - 1] > m then xs[|xs| - 1] else m
  }

  /** `np.mean`. */
  function Mean(xs: seq<real>): real
    requires xs != []
  {
    Sum(xs) / |xs| as real
  }

  /** A sum of values between two bounds lies between the bounds times the count. */
  lemma {:induction false} SumBetween(xs: seq<real>, lo: real, hi: real)
    requires forall i :: 0 <= i < |xs| ==> lo <= xs[i] <= hi
    ensures |xs| as real * lo <= Sum(xs) <= |xs| as real * hi
  {
    if xs != [] {
      var init := xs[..|xs| - 1];
      assert forall i :: 0 <= i < |init| ==> init[i] == xs[i];
      SumBetween(init, lo, hi);
      var k := |init| as real;
      var x := xs[|xs| - 1];
      assert Sum(xs) == Sum(init) + x;
      Distrib(|xs| as real, k, lo);
      Distrib(|xs| as real, k, hi);
      assert lo <= x <= hi;
      assert k * lo <= Sum(init) <= k * hi;
      assert k * lo + lo <= Sum(init) + x <= k * hi + hi;
    }
  }

  lemma Distrib(n: real, k: real, c: real)
    requires n == k + 1.0
    ensures n * c == k * c + c
  {
  }

  /** The mean of a non-empty day lies between its minimum and its maximum. */
  lemma MeanBetween(xs: seq<real>)
    requires xs != []
    ensures MinOf(xs) <= Mean(xs) <= MaxOf(xs)
  {
    var lo, hi, n := MinOf(xs), MaxOf(xs), |xs| as real;
    SumBetween(xs, lo, hi);
    DivBetween(Sum(xs), n, lo, hi);
    assert Mean(xs) == Sum(xs) / n;
  }

  lemma DivBetween(s: real, n: real, lo: real, hi: real)
    requires n > 0.0 && n * lo <= s <= n * hi
    ensures lo <= s / n <= hi
  {
    assert s / n - lo == (s - n * lo) / n;
    assert hi - s / n == (n * hi - s) / n;
  }

  /** `PersistenceOutput` and the tuple of `aggregate_day_stats`: None stands for NaN. */
  datatype DayStats = DayStats(mean: Option<real>, min: Option<real>, max: Option<real>, precip: Option<real>)

  /** Mean, min and max of the temperatures and the precipitation total, each NaN for an empty list. */
  function Stats(temps: seq<real>, precs: seq<real>): (r: DayStats)
    ensures r.mean.None? <==> temps == []
    ensures r.min.None? <==> temps == []
    ensures r.max.None? <==> temps == []
    ensures r.precip.None? <==> precs == []
    ensures temps != [] ==> r.min.value in temps && r.max.value in temps
  {
    DayStats(
      if temps != [] then Some(Mean(temps)) else None,
      if temps != [] then Some(MinOf(temps)) else None,
      if temps != [] then Some(MaxOf(temps)) else None,
      if precs != [] then Some(Sum(precs)) else None)
  }

  /** The day's mean lies between its minimum and its maximum. */
  lemma StatsOrdered(temps: seq<real>, precs: seq<real>)
    requires temps != []
    ensures Stats(temps, precs).min.value <= Stats(temps, precs).mean.value <= Stats(temps, precs).max.value
  {
    MeanBetween(temps);
  }

  /** `aggregate_day_stats(fc, day)`: the day's statistics, with no fallback. */
  function AggregateDayStats(fc: WeatherParse.ForecastResult, day: Date): Option<DayStats> {
    var temps := DaySlice(fc.times, fc.temperature, DayPrefix(day));
    var precs := DaySlice(fc.times, fc.precipitation, DayPrefix(day));
    if temps.None? || precs.None? then None
    else Some(Stats(temps.value, precs.value))
  }

  /**
   * `persistence_from_series(fc, target_date)`: the statistics of the day
   * before, where an empty temperature slice falls back to the whole
   * temperature series and, on its own, an empty precipitation slice to
   * the whole precipitation series.
   */
  function PersistenceFromSeries(fc: WeatherParse.ForecastResult, target: Date): Option<DayStats>
    requires ValidDate(target)
  {
    var d0 := PrevDay(target);
    if d0.None? then None
    else
      var temps := DaySlice(fc.times, fc.temperature, DayPrefix(d0.value));
      var precs := DaySlice(fc.times, fc.precipitation, DayPrefix(d0.value));
      if temps.None? || precs.None? then None
      else
        var t := if temps.value == [] then fc.temperature else temps.value;
        var p := if precs.value == [] then fc.precipitation else precs.value;
        Some(Stats(t, p))
  }

  /** With data for the day before, persistence is exactly that day's statistics. */
  lemma PersistenceIsPreviousDay(fc: WeatherParse.ForecastResult, target: Date)
    requires ValidDate(target) && PrevDay(target).Some?
    requires var pre := DayPrefix(PrevDay(target).value);
      DaySlice(fc.times, fc.temperature, pre).Some? && DaySlice(fc.times, fc.temperature, pre).value != [] &&
      DaySlice(fc.times, fc.precipitation, pre).Some? && DaySlice(fc.times, fc.precipitation, pre).value != []
    ensures PersistenceFromSeries(fc, target) == AggregateDayStats(fc, PrevDay(target).value)
  {
  }

  /**
   * The two fallbacks are independent: without temperatures for the day
   * before, the temperature outputs come from the whole series while the
   * precipitation total still comes from that day when it has any.
   */
  lemma PersistenceFallsBack(fc: WeatherParse.ForecastResult, target: Date)
    requires ValidDate(target) && PrevDay(target).Some?
    requires var pre := DayPrefix(PrevDay(target).value);
      DaySlice(fc.times, fc.temperature, pre) == Some([]) &&
      DaySlice(fc.times, fc.precipitation, pre).Some? && DaySlice(fc.times, fc.precipitation, pre).value != []
    ensures var r := PersistenceFromSeries(fc, target);
      var day := AggregateDayStats(fc, PrevDay(target).value);
      r.Some? && day.Some? &&
      r.value.precip == day.value.precip &&
      r.value.mean == (if fc.temperature == [] then None else Some(Mean(fc.temperature))) &&
      day.value.mean == None
  {
  }

  /**
   * The mirror image: without precipitation for the day before, the total
   * comes from the whole precipitation series while mean, min and max
   * still come from that day's temperatures.
   */
  lemma PersistencePrecipFallsBack(fc: WeatherParse.ForecastResult, target: Date)
    requires ValidDate(target) && PrevDay(target).Some?
    requires var pre := DayPrefix(PrevDay(target).value);
      DaySlice(fc.times, fc.precipitation, pre) == Some([]) &&
      DaySlice(fc.times, fc.temperature, pre).Some? && DaySlice(fc.times, fc.temperature, pre).value != []
    ensures var r := PersistenceFromSeries(fc, target);
      var day := AggregateDayStats(fc, PrevDay(target).value);
      r.Some? && day.Some? &&
      r.value.mean == day.value.mean && r.value.min == day.value.min && r.value.max == day.value.max &&
      r.value.precip == (if fc.precipitation == [] then None else Some(Sum(fc.precipitation))) &&
      day.value.precip == None
  {
  }

  /** The persistence mean is NaN only when there are no temperatures at all. */
  lemma PersistenceNaNOnlyWhenEmpty(fc: WeatherParse.ForecastResult, target: Date)
    requires ValidDate(target) && PersistenceFromSeries(fc, target).Some?
    ensures PersistenceFromSeries(fc, target).value.mean.None? <==> fc.temperature == []
  {
    var pre := DayPrefix(PrevDay(target).value);
    var temps := DaySlice(fc.times, fc.temperature, pre);
    if temps.value != [] {
      assert |temps.value| <= |fc.temperature|;
    }
  }

  /** The two backends `predict_with_backend` knows. */
  datatype Backend = Regression | Persistence

  /** `backend == "regression" and model_path and os.path.exists(model_path)`, else persistence. */
  function ChooseBackend(backend: string, modelPath: Option<string>, modelExists: bool): Backend {
    if backend == "regression" && modelPath.Some? && modelPath.value != "" && modelExists then Regression
    else Persistence
  }

  /** What `explain` reports. */
  datatype Explain = Explain(backend: string, featuresUsed: string)

  function ExplainOf(b: Backend): Explain {
    match b
    case Regression => Explain("regression", "d0_mean,d0_min,d0_max,d0_prec")
    case Persistence => Explain("persistence", "prev_day(hourly)→mean/min/max,sum(precip)")
  }

  /**
   * `predict_with_backend`: fetch the hourly forecast for the day before
   * through the target day, aggregate the day before, then either feed
   * those statistics to the stored model or fall back to persistence.
   * `fetch` is `client.get_forecast` (None when it raises); `regress` is
   * the loaded model's `predict`.
   */
  function PredictWithBackend(target: Date, backend: string, modelPath: Option<string>, modelExists: bool,
                              fetch: (Date, Date) -> Option<WeatherParse.ForecastResult>,
                              regress: DayStats -> DayStats): (r: Option<(DayStats, Explain)>)
    requires ValidDate(target)
  {
    var start := PrevDay(target);
    if start.None? then None
    else
      var fc := fetch(start.value, target);
      if fc.None? then None
      else
        var d0 := AggregateDayStats(fc.value, start.value);
        if d0.None? then None
        else
          var b := ChooseBackend(backend, modelPath, modelExists);
          if b == Regression then Some((regress(d0.value), ExplainOf(b)))
          else
            var out := PersistenceFromSeries(fc.value, target);
            if out.None? then None else Some((out.value, ExplainOf(b)))
  }

  /**
   * The prediction names the branch it took; the regression branch is
   * taken only for `"regression"` with an existing model file, and feeds
   * the model the previous day's statistics from a fetch of exactly the
   * previous day through the target day; otherwise the output is the
   * persistence forecast of that same fetch.
   */
  lemma PredictExplainsBranch(target: Date, backend: string, modelPath: Option<string>, modelExists: bool,
                              fetch: (Date, Date) -> Option<WeatherParse.ForecastResult>,
                              regress: DayStats -> DayStats)
    requires ValidDate(target)
    requires PredictWithBackend(target, backend, modelPath, modelExists, fetch, regress).Some?
    ensures var r := PredictWithBackend(target, backend, modelPath, modelExists, fetch, regress).value;
      var start := PrevDay(target).value;
      var fc := fetch(start, target).value;
      (r.1.backend == "regression" <==> backend == "regression" && modelPath.Some? && modelPath.value != "" && modelExists) &&
      (r.1.backend == "regression" ==> r.0 == regress(AggregateDayStats(fc, start).value)) &&
      (r.1.backend == "persistence" ==> Some(r.0) == PersistenceFromSeries(fc, target)) &&
      (r.1.backend == "regression" || r.1.backend == "persistence")
  {
  }
}
