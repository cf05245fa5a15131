/**
 * The response normalisation of frontend/src/app/forecast/page.tsx: the
 * lenient number coercion, the series extraction, the merge of forecast
 * and actual points by date into one sorted series, and the percentage
 * shown for the chance of rain.
 *
 * `Number(string)` and `String(value)` for non-string values are
 * JavaScript built-ins and appear as function parameters; the D0/D1 dates
 * come from the clock and are parameters too.
 */
module ForecastPage {
  import opened Wrappers
  import Text
  import opened DateMap
  import opened Js

  /** The JavaScript values a field of a backend response can hold. */
  datatype JsValue =
    | JsUndefined
    | JsNull
    | JsBool(b: bool)
    | JsNumber(n: JsNum)
    | JsString(s: string)
    | JsObject

  /** An object such as `Record<string, unknown>`: a missing key reads as `undefined`. */
  type JsRecord = map<string, JsValue>

  function Field(o: JsRecord, k: string): JsValue {
    if k in o then o[k] else JsUndefined
  }

  /** `a ?? b`: falls through only on `null` and `undefined`. */
  function Coalesce(a: JsValue, b: JsValue): (r: JsValue)
    ensures r == a || r == b
    ensures a.JsUndefined? || a.JsNull? ==> r == b
  {
    if a.JsUndefined? || a.JsNull? then b else a
  }

  /**
   * `coerceNumber`: finite numbers as they are, strings whose `Number(...)`
   * is finite as that number, and nothing for every other value.
   */
  function CoerceNumber(x: JsValue, toNumber: string -> JsNum): (r: Option<real>)
    ensures r.Some? <==> (x.JsNumber? && x.n.Finite?) || (x.JsString? && toNumber(x.s).Finite?)
    ensures r.Some? && x.JsNumber? ==> r.value == x.n.r
    ensures r.Some? && x.JsString? ==> r.value == toNumber(x.s).r
  {
    match x
    case JsNumber(n) => if n.Finite? then Some(n.r) else None
    case JsString(s) => var n := toNumber(s); if n.Finite? then Some(n.r) else None
    case _ => None
  }

  /** A number coerced once is left unchanged by a second coercion. */
  lemma CoerceNumberIdempotent(x: JsValue, toNumber: string -> JsNum)
    requires CoerceNumber(x, toNumber).Some?
    ensures CoerceNumber(JsNumber(Finite(CoerceNumber(x, toNumber).value)), toNumber) == CoerceNumber(x, toNumber)
  {
  }

  /** `String(v)`: a string is itself; other values go through the built-in `str`. */
  function JsString_(v: JsValue, str: JsValue -> string): string {
    if v.JsString? then v.s else str(v)
  }

  /** The first of `value`, `temp`, `mean`, `pred` that is neither `null` nor `undefined`. */
  function RawValue(o: JsRecord): JsValue {
    Coalesce(Coalesce(Coalesce(Field(o, "value"), Field(o, "temp")), Field(o, "mean")), Field(o, "pred"))
  }

  /** The element function of `mapSeries`: a `{date, value}` point, or nothing (`null`) to be filtered out. */
  function MapPoint(o: JsRecord, toNumber: string -> JsNum, str: JsValue -> string): (r: Option<Entry<real>>)
    ensures r.Some? <==> JsString_(Coalesce(Field(o, "date"), JsString("")), str) != "" && CoerceNumber(RawValue(o), toNumber).Some?
    ensures r.Some? ==> r.value.val == CoerceNumber(RawValue(o), toNumber).value
  {
    var date := JsString_(Coalesce(Field(o, "date"), JsString("")), str);
    var v := CoerceNumber(RawValue(o), toNumber);
    if date == "" || v.None? then None else Some(Entry(date, v.value))
  }

  /** A `value` that is present but not a number hides `temp`, `mean` and `pred`. */
  lemma ValueDoesNotFallThrough(o: JsRecord, toNumber: string -> JsNum, str: JsValue -> string)
    requires "value" in o && o["value"].JsString? && !toNumber(o["value"].s).Finite?
    ensures MapPoint(o, toNumber, str).None?
  {
  }

  /** A point without a date is dropped, whatever its value. */
  lemma MissingDateDropped(o: JsRecord, toNumber: string -> JsNum, str: JsValue -> string)
    requires "date" !in o || o["date"].JsNull? || o["date"] == JsString("")
    ensures MapPoint(o, toNumber, str).None?
  {
  }

  /** `mapSeries`: `arr.map(...).filter(Boolean)`, keeping the order. */
  function MapSeries(arr: seq<JsRecord>, toNumber: string -> JsNum, str: JsValue -> string): (r: seq<Entry<real>>)
    ensures |r| <= |arr|
    ensures forall e :: e in r <==> exists i :: 0 <= i < |arr| && MapPoint(arr[i], toNumber, str) == Some(e)
  {
    if arr == [] then []
    else
      var init := arr[..|arr| - 1];
      var rest := MapSeries(init, toNumber, str);
      var last := MapPoint(arr[|arr| - 1], toNumber, str);
      assert forall i :: 0 <= i < |init| ==> init[i] == arr[i];
      if last.Some? then rest + [last.value] else rest
  }

  /** The series keeps the order of the array: a concatenation maps part by part. */
  lemma {:induction false} MapSeriesAppend(a: seq<JsRecord>, b: seq<JsRecord>, toNumber: string -> JsNum, str: JsValue -> string)
    ensures MapSeries(a + b, toNumber, str) == MapSeries(a, toNumber, str) + MapSeries(b, toNumber, str)
    decreases |b|
  {
    if b == [] {
      assert a + b == a;
    } else {
      var b' := b[..|b| - 1];
      assert (a + b)[..|a + b| - 1] == a + b';
      assert (a + b)[|a + b| - 1] == b[|b| - 1];
      MapSeriesAppend(a, b', toNumber, str);
    }
  }

  /** A single record maps to its point, or to nothing. */
  lemma MapSeriesSingle(o: JsRecord, toNumber: string -> JsNum, str: JsValue -> string)
    ensures MapSeries([o], toNumber, str) == if MapPoint(o, toNumber, str).Some? then [MapPoint(o, toNumber, str).value] else []
  {
    assert [o][..0] == [];
  }

  /** One point of the merged series. */
  datatype SeriesPoint = SeriesPoint(date: string, pred: Option<real>, actual: Option<real>)

  /** The first loop: `byDate.set(p.date, {date: p.date, pred: p.value})` for each prediction in turn. */
  function PutPreds(m: seq<Entry<SeriesPoint>>, preds: seq<Entry<real>>): (r: seq<Entry<SeriesPoint>>)
    ensures Distinct(m) ==> Distinct(r)
    ensures Keys(r) == Keys(m) + Keys(preds)
  {
    if preds == [] then m
    else
      var p := preds[|preds| - 1];
      KeysAppend(preds[..|preds| - 1], [p]);
      assert preds == preds[..|preds| - 1] + [p];
      Put(PutPreds(m, preds[..|preds| - 1]), p.date, SeriesPoint(p.date, Some(p.val), None))
  }

  /**
   * The second loop: for each actual in turn, the point already at its
   * date (or a bare `{date}`) with `actual` set.
   */
  function PutActuals(m: seq<Entry<SeriesPoint>>, acts: seq<Entry<real>>): (r: seq<Entry<SeriesPoint>>)
    ensures Distinct(m) ==> Distinct(r)
    ensures Keys(r) == Keys(m) + Keys(acts)
  {
    if acts == [] then m
    else
      var a := acts[|acts| - 1];
      KeysAppend(acts[..|acts| - 1], [a]);
      assert acts == acts[..|acts| - 1] + [a];
      var prev := PutActuals(m, acts[..|acts| - 1]);
      var base := Get(prev, a.date).GetOr(SeriesPoint(a.date, None, None));
      Put(prev, a.date, base.(actual := Some(a.val)))
  }

  /** The map both loops leave behind. */
  function Merged(preds: seq<Entry<real>>, acts: seq<Entry<real>>): (r: seq<Entry<SeriesPoint>>)
    ensures Distinct(r) && Keys(r) == Keys(preds) + Keys(acts)
  {
    PutActuals(PutPreds([], preds), acts)
  }

  /** The two loops of `normalizeResponse` that fill `byDate`. */
  method MergeByDate(preds: seq<Entry<real>>, acts: seq<Entry<real>>) returns (byDate: seq<Entry<SeriesPoint>>)
    ensures byDate == Merged(preds, acts)
  {
    byDate := [];
    var i := 0;
    while i < |preds|
      invariant 0 <= i <= |preds|
      invariant byDate == PutPreds([], preds[..i])
    {
      var p := preds[i];
      assert preds[..i + 1][..i] == preds[..i];
      byDate := Put(byDate, p.date, SeriesPoint(p.date, Some(p.val), None));
      i := i + 1;
    }
    assert preds[..i] == preds;
    ghost var afterPreds := byDate;
    var j := 0;
    while j < |acts|
      invariant 0 <= j <= |acts|
      invariant byDate == PutActuals(afterPreds, acts[..j])
    {
      var a := acts[j];
      assert acts[..j + 1][..j] == acts[..j];
      var base := Get(byDate, a.date).GetOr(SeriesPoint(a.date, None, None));
      byDate := Put(byDate, a.date, base.(actual := Some(a.val)));
      j := j + 1;
    }
    assert acts[..j] == acts;
  }

  /** After the first loop, each predicted date holds its last prediction. */
  lemma {:induction false} PutPredsAt(preds: seq<Entry<real>>, d: string)
    ensures Get(PutPreds([], preds), d) ==
      if LastValue(preds, d).Some? then Some(SeriesPoint(d, LastValue(preds, d), None)) else None
  {
    if preds != [] {
      PutPredsAt(preds[..|preds| - 1], d);
    }
  }

  /** The second loop sets `actual` to the last actual of each date and keeps everything else of the point there. */
  lemma {:induction false} PutActualsAt(m: seq<Entry<SeriesPoint>>, acts: seq<Entry<real>>, d: string)
    ensures Get(PutActuals(m, acts), d) ==
      if LastValue(acts, d).Some? then Some(Get(m, d).GetOr(SeriesPoint(d, None, None)).(actual := LastValue(acts, d)))
      else Get(m, d)
  {
    if acts != [] {
      PutActualsAt(m, acts[..|acts| - 1], d);
    }
  }

  /**
   * Every date of either series appears once in the merge, and its point
   * carries the last prediction and the last actual given for that date:
   * an actual keeps the date's prediction, and a later duplicate overwrites
   * an earlier one.
   */
  lemma MergedAt(preds: seq<Entry<real>>, acts: seq<Entry<real>>, d: string)
    ensures d in Keys(preds) + Keys(acts) ==>
      Get(Merged(preds, acts), d) == Some(SeriesPoint(d, LastValue(preds, d), LastValue(acts, d)))
  {
    PutPredsAt(preds, d);
    PutActualsAt(PutPreds([], preds), acts, d);
  }

  /** The series `normalizeResponse` returns: the merged points in date order. */
  function Series(preds: seq<Entry<real>>, acts: seq<Entry<real>>): seq<SeriesPoint> {
    Values(SortByDate(Merged(preds, acts)))
  }

  /** Each pair of the sorted merge holds the last prediction and the last actual for its date. */
  lemma SortedPointAt(preds: seq<Entry<real>>, acts: seq<Entry<real>>, k: nat)
    requires k < |SortByDate(Merged(preds, acts))|
    ensures var e := SortByDate(Merged(preds, acts))[k];
      e.val == SeriesPoint(e.date, LastValue(preds, e.date), LastValue(acts, e.date))
  {
    var m := Merged(preds, acts);
    var sorted := SortByDate(m);
    assert sorted[k] in multiset(m);
    var i :| 0 <= i < |m| && m[i] == sorted[k];
    GetMember(m, i);
    KeysMember(m, m[i].date);
    MergedAt(preds, acts, m[i].date);
  }

  /** Each point of the output series holds the last prediction and the last actual given for its date. */
  lemma SeriesPoints(preds: seq<Entry<real>>, acts: seq<Entry<real>>)
    ensures var s := Series(preds, acts);
      forall i :: 0 <= i < |s| ==> s[i] == SeriesPoint(s[i].date, LastValue(preds, s[i].date), LastValue(acts, s[i].date))
  {
    forall k | 0 <= k < |Series(preds, acts)| {
      SortedPointAt(preds, acts, k);
    }
  }

  /** The output series is strictly ascending by date, so no date appears twice. */
  lemma SeriesAscending(preds: seq<Entry<real>>, acts: seq<Entry<real>>)
    ensures var s := Series(preds, acts);
      forall i, j :: 0 <= i < j < |s| ==> Text.Lt(s[i].date, s[j].date)
  {
    var sorted := SortByDate(Merged(preds, acts));
    var s := Series(preds, acts);
    forall i, j | 0 <= i < j < |s|
      ensures Text.Lt(s[i].date, s[j].date)
    {
      SortedPointAt(preds, acts, i);
      SortedPointAt(preds, acts, j);
      AscendingStrict(sorted, i, j);
    }
  }

  /** The dates of the output series are exactly those of the predictions and the actuals. */
  lemma SeriesDates(preds: seq<Entry<real>>, acts: seq<Entry<real>>, d: string)
    ensures var s := Series(preds, acts);
      d in Keys(preds) + Keys(acts) <==> exists i :: 0 <= i < |s| && s[i].date == d
  {
    var sorted := SortByDate(Merged(preds, acts));
    var s := Series(preds, acts);
    KeysMember(sorted, d);
    if exists i :: 0 <= i < |sorted| && sorted[i].date == d {
      var i :| 0 <= i < |sorted| && sorted[i].date == d;
      SortedPointAt(preds, acts, i);
      assert s[i].date == d;
    }
    if exists i :: 0 <= i < |s| && s[i].date == d {
      var i :| 0 <= i < |s| && s[i].date == d;
      SortedPointAt(preds, acts, i);
      assert sorted[i].date == d;
    }
  }

  /** `formatPop`'s percentage: `Math.round(100 * clamp(pop ?? 0, 0, 1))`; None is `NaN`. */
  function PopPercent(pop: Option<JsNum>): (r: Option<nat>)
    ensures r.None? <==> pop == Some(NaN)
    ensures r.Some? ==> r.value <= 100
  {
    var p := pop.GetOr(Finite(0.0));
    match p
    case NaN => None
    case PosInf => Some(100)
    case NegInf => Some(0)
    case Finite(x) =>
      var v := if x < 0.0 then 0.0 else if x > 1.0 then 1.0 else x;
      Some((v * 100.0 + 0.5).Floor as nat)
  }

  /** The clamp: no chance of rain shows as 0%, and anything at or above certainty as 100%. */
  lemma PopPercentClamps(pop: Option<JsNum>)
    ensures pop.None? || pop == Some(NegInf) || (pop.Some? && pop.value.Finite? && pop.value.r <= 0.0) ==> PopPercent(pop) == Some(0)
    ensures pop == Some(PosInf) || (pop.Some? && pop.value.Finite? && pop.value.r >= 1.0) ==> PopPercent(pop) == Some(100)
  {
  }

  /** A larger probability never shows a smaller percentage. */
  lemma PopPercentMonotone(a: real, b: real)
    requires a <= b
    ensures PopPercent(Some(Finite(a))).value <= PopPercent(Some(Finite(b))).value
  {
  }

  /** `formatPop`: the percentage followed by `%`. */
  function FormatPop(pop: Option<JsNum>): (r: string)
    ensures |r| >= 2 && r[|r| - 1] == '%'
    ensures pop != Some(NaN) ==> r == Text.NatStr(PopPercent(pop).value) + "%"
  {
    match PopPercent(pop)
    case None => "NaN%"
    case Some(k) => Text.NatStr(k) + "%"
  }

  /** The `d0`/`d1` blocks of the backend response. */
  datatype BackendDay = BackendDay(max: real, min: real, precipProb: real, precip: real)

  datatype BackendResponse = BackendResponse(
    d0: BackendDay,
    d1: BackendDay,
    forecastSeries: seq<JsRecord>,
    recentActuals: seq<JsRecord>)

  /** A day card: the date filled in by the frontend, `precip_prob` shown as `pop`. */
  datatype DaySummary = DaySummary(date: string, max: real, min: real, pop: real, precip: real)

  datatype PredictResponse = PredictResponse(
    name: string,
    tz: string,
    d0: DaySummary,
    d1: DaySummary,
    series: seq<SeriesPoint>)

  function Summarize(day: BackendDay, date: string): (s: DaySummary)
    ensures s.date == date && s.max == day.max && s.min == day.min
    ensures s.pop == day.precipProb && s.precip == day.precip
  {
    DaySummary(date, day.max, day.min, day.precipProb, day.precip)
  }

  /**
   * `normalizeResponse`: the day cards, the location name (`q`, or
   * `"(unknown)"` when it is empty) and the merged series.
   */
  method NormalizeResponse(raw: BackendResponse, q: string, tz: string, d0Date: string, d1Date: string,
                           toNumber: string -> JsNum, str: JsValue -> string)
    returns (r: PredictResponse)
    ensures r.name == (if q == "" then "(unknown)" else q) && r.tz == tz
    ensures r.d0 == Summarize(raw.d0, d0Date) && r.d1 == Summarize(raw.d1, d1Date)
    ensures r.series == Series(MapSeries(raw.forecastSeries, toNumber, str), MapSeries(raw.recentActuals, toNumber, str))
  {
    var preds := MapSeries(raw.forecastSeries, toNumber, str);
    var acts := MapSeries(raw.recentActuals, toNumber, str);
    var byDate := MergeByDate(preds, acts);
    var series := Values(SortByDate(byDate));
    r := PredictResponse(if q == "" then "(unknown)" else q, tz, Summarize(raw.d0, d0Date), Summarize(raw.d1, d1Date), series);
  }
}
