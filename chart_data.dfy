/**
 * `buildChartData` of frontend/app/page.tsx: the recent actuals and the
 * forecast series of a prediction response merged by date into the points
 * the chart draws, sorted by date.
 */
module ChartData {
  import opened Wrappers
  import Text
  import opened DateMap

  /** An input point `{date, value}`; `value` is `None` where it is `null` or missing. */
  type InPoint = Entry<Option<real>>

  /** The parts of a `PredictResponse` the chart reads; each series may be missing. */
  datatype PredictResponse = PredictResponse(forecastSeries: Option<seq<InPoint>>, recentActuals: Option<seq<InPoint>>)

  /** A chart point; `None` is `null`. */
  datatype ChartPoint = ChartPoint(date: string, predicted: Option<real>, actual: Option<real>)

  /** The first loop: each actual sets a fresh point with no prediction. */
  function PutActuals(m: seq<Entry<ChartPoint>>, acts: seq<InPoint>): (r: seq<Entry<ChartPoint>>)
    ensures Distinct(m) ==> Distinct(r)
    ensures Keys(r) == Keys(m) + Keys(acts)
  {
    if acts == [] then m
    else
      var p := acts[|acts| - 1];
      KeysAppend(acts[..|acts| - 1], [p]);
      assert acts == acts[..|acts| - 1] + [p];
      Put(PutActuals(m, acts[..|acts| - 1]), p.date, ChartPoint(p.date, None, p.val))
  }

  /**
   * The second loop: a forecast point updates `predicted` of the point
   * already at its date, or adds a point with no actual.
   */
  function PutForecast(m: seq<Entry<ChartPoint>>, fs: seq<InPoint>): (r: seq<Entry<ChartPoint>>)
    ensures Distinct(m) ==> Distinct(r)
    ensures Keys(r) == Keys(m) + Keys(fs)
  {
    if fs == [] then m
    else
      var p := fs[|fs| - 1];
      KeysAppend(fs[..|fs| - 1], [p]);
      assert fs == fs[..|fs| - 1] + [p];
      var prev := PutForecast(m, fs[..|fs| - 1]);
      match Get(prev, p.date)
      case Some(ex) => Put(prev, p.date, ex.(predicted := p.val))
      case None => Put(prev, p.date, ChartPoint(p.date, p.val, None))
  }

  /** The map both loops leave behind. */
  function ByDate(fs: seq<InPoint>, acts: seq<InPoint>): (r: seq<Entry<ChartPoint>>)
    ensures Distinct(r) && Keys(r) == Keys(fs) + Keys(acts)
  {
    PutForecast(PutActuals([], acts), fs)
  }

  /** `value ?? null` of the last point dated `d`, or `null` when there is none. */
  function LastOrNull(ps: seq<InPoint>, d: string): Option<real> {
    match LastValue(ps, d)
    case Some(v) => v
    case None => None
  }

  /**
   * `buildChartData`: nothing for a missing response; otherwise the two
   * series (each `[]` when missing) merged into `byDate` by two loops, and
   * its points sorted by date.
   */
  method BuildChartData(resp: Option<PredictResponse>) returns (r: seq<ChartPoint>)
    ensures resp.None? ==> r == []
    ensures resp.Some? ==> r == Chart(resp.value.forecastSeries.GetOr([]), resp.value.recentActuals.GetOr([]))
  {
    if resp.None? {
      return [];
    }
    var f := resp.value.forecastSeries.GetOr([]);
    var a := resp.value.recentActuals.GetOr([]);
    var byDate: seq<Entry<ChartPoint>> := [];
    var i := 0;
    while i < |a|
      invariant 0 <= i <= |a|
      invariant byDate == PutActuals([], a[..i])
    {
      var p := a[i];
      assert a[..i + 1][..i] == a[..i];
      byDate := Put(byDate, p.date, ChartPoint(p.date, None, p.val));
      i := i + 1;
    }
    assert a[..i] == a;
    ghost var afterActuals := byDate;
    var j := 0;
    while j < |f|
      invariant 0 <= j <= |f|
      invariant byDate == PutForecast(afterActuals, f[..j])
    {
      var p := f[j];
      assert f[..j + 1][..j] == f[..j];
      var ex := Get(byDate, p.date);
      if ex.Some? {
        byDate := Put(byDate, p.date, ex.value.(predicted := p.val));
      } else {
        byDate := Put(byDate, p.date, ChartPoint(p.date, p.val, None));
      }
      j := j + 1;
    }
    assert f[..j] == f;
    r := Values(SortByDate(byDate));
  }

  /** The chart points of two present series. */
  function Chart(fs: seq<InPoint>, acts: seq<InPoint>): seq<ChartPoint> {
    Values(SortByDate(ByDate(fs, acts)))
  }

  /** After the first loop, each actual date holds its last actual and no prediction. */
  lemma {:induction false} PutActualsAt(acts: seq<InPoint>, d: string)
    ensures Get(PutActuals([], acts), d) ==
      if d in Keys(acts) then Some(ChartPoint(d, None, LastOrNull(acts, d))) else None
  {
    if acts != [] {
      PutActualsAt(acts[..|acts| - 1], d);
    }
  }

  /** The second loop sets `predicted` from the last forecast of each date and keeps the actual there. */
  lemma {:induction false} PutForecastAt(m: seq<Entry<ChartPoint>>, fs: seq<InPoint>, d: string)
    ensures Get(PutForecast(m, fs), d) ==
      if d in Keys(fs) then Some(Get(m, d).GetOr(ChartPoint(d, None, None)).(predicted := LastOrNull(fs, d)))
      else Get(m, d)
  {
    if fs != [] {
      var init := fs[..|fs| - 1];
      var p := fs[|fs| - 1];
      PutForecastAt(m, init, d);
      KeysAppend(init, [p]);
      assert fs == init + [p];
      if p.date == d {
        assert LastOrNull(fs, d) == p.val;
        var base := Get(m, d).GetOr(ChartPoint(d, None, None));
        var prev := PutForecast(m, init);
        if Get(prev, d).Some? {
          assert Get(prev, d).value.(predicted := p.val) == base.(predicted := p.val);
        } else {
          assert Get(m, d) == None;
        }
      }
    }
  }

  /**
   * Every date of either series is in the map once, with `actual` taken
   * only from the actuals and `predicted` only from the forecast (the last
   * value given for the date, `null` when absent or null).
   */
  lemma ByDateAt(fs: seq<InPoint>, acts: seq<InPoint>, d: string)
    ensures d in Keys(fs) + Keys(acts) ==>
      Get(ByDate(fs, acts), d) == Some(ChartPoint(d, LastOrNull(fs, d), LastOrNull(acts, d)))
  {
    PutActualsAt(acts, d);
    PutForecastAt(PutActuals([], acts), fs, d);
  }

  /** Each pair of the sorted map holds the last forecast and the last actual for its date. */
  lemma SortedPointAt(fs: seq<InPoint>, acts: seq<InPoint>, k: nat)
    requires k < |SortByDate(ByDate(fs, acts))|
    ensures var e := SortByDate(ByDate(fs, acts))[k];
      e.val == ChartPoint(e.date, LastOrNull(fs, e.date), LastOrNull(acts, e.date))
  {
    var m := ByDate(fs, acts);
    var sorted := SortByDate(m);
    assert sorted[k] in multiset(m);
    var i :| 0 <= i < |m| && m[i] == sorted[k];
    GetMember(m, i);
    KeysMember(m, m[i].date);
    ByDateAt(fs, acts, m[i].date);
  }

  /** Each chart point holds the last forecast and the last actual given for its date. */
  lemma ChartPoints(fs: seq<InPoint>, acts: seq<InPoint>)
    ensures var c := Chart(fs, acts);
      forall i :: 0 <= i < |c| ==> c[i] == ChartPoint(c[i].date, LastOrNull(fs, c[i].date), LastOrNull(acts, c[i].date))
  {
    forall k | 0 <= k < |Chart(fs, acts)| {
      SortedPointAt(fs, acts, k);
    }
  }

  /** The chart is strictly ascending by date, so no date appears twice. */
  lemma ChartAscending(fs: seq<InPoint>, acts: seq<InPoint>)
    ensures var c := Chart(fs, acts);
      forall i, j :: 0 <= i < j < |c| ==> Text.Lt(c[i].date, c[j].date)
  {
    var sorted := SortByDate(ByDate(fs, acts));
    var c := Chart(fs, acts);
    forall i, j | 0 <= i < j < |c|
      ensures Text.Lt(c[i].date, c[j].date)
    {
      SortedPointAt(fs, acts, i);
      SortedPointAt(fs, acts, j);
      AscendingStrict(sorted, i, j);
    }
  }

  /** The chart's dates are exactly those of the forecast and the actuals. */
  lemma ChartDates(fs: seq<InPoint>, acts: seq<InPoint>, d: string)
    ensures var c := Chart(fs, acts);
      d in Keys(fs) + Keys(acts) <==> exists i :: 0 <= i < |c| && c[i].date == d
  {
    var sorted := SortByDate(ByDate(fs, acts));
    var c := Chart(fs, acts);
    KeysMember(sorted, d);
    if exists i :: 0 <= i < |sorted| && sorted[i].date == d {
      var i :| 0 <= i < |sorted| && sorted[i].date == d;
      SortedPointAt(fs, acts, i);
      assert c[i].date == d;
    }
    if exists i :: 0 <= i < |c| && c[i].date == d {
      var i :| 0 <= i < |c| && c[i].date == d;
      SortedPointAt(fs, acts, i);
      assert sorted[i].date == d;
    }
  }

  /** A forecast-only date has no actual; an actuals-only date has no prediction. */
  lemma OneSidedDates(fs: seq<InPoint>, acts: seq<InPoint>, d: string)
    ensures d in Keys(fs) && d !in Keys(acts) ==> Get(ByDate(fs, acts), d).value.actual == None
    ensures d in Keys(acts) && d !in Keys(fs) ==> Get(ByDate(fs, acts), d).value.predicted == None
  {
    ByDateAt(fs, acts, d);
  }
}
