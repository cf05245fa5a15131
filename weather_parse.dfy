/**
 * The pure parts of the weather client (backend/app/services/open_meteo.py):
 * the defensive parser of an hourly forecast payload, the look-back clamp of
 * the daily summary, and the two cache-key formats.
 *
 * The parser follows Python's evaluation exactly: `payload.get` on anything
 * but an object raises, `x or default` replaces falsy values, `len` raises on
 * numbers and booleans, slicing a non-empty object raises, a string slices
 * into its characters, and `float()` raises on values it cannot read. A
 * raise is `None` here; the callers catch it and retry.
 */
module WeatherParse {
  import opened Wrappers
  import opened Json
  import opened Text
  import opened FixedPoint
  import GeocodeFormat

  /** `ForecastResult`: the hourly times and the two hourly series. */
  datatype ForecastResult = ForecastResult(times: seq<Json>, temperature: seq<real>, precipitation: seq<real>)

  /** `hourly.get(name) or []` as a list, or None when `len` or slicing would raise. */
  function Series(x: Json): (r: Option<seq<Json>>)
    ensures !Truthy(x) ==> r == Some([])
    ensures x.JArray? ==> r == Some(x.items)
    ensures x.JStr? ==> r.Some? && |r.value| == |x.s|
    ensures r.None? <==> Truthy(x) && !x.JArray? && !x.JStr?
  {
    if !Truthy(x) then Some([])
    else match x
      case JArray(items) => Some(items)
      case JStr(s) => Some(Chars(s))
      case _ => None
  }

  /** `list(s)` of a string: its characters, each a one-character string. */
  function Chars(s: string): (r: seq<Json>)
    ensures |r| == |s|
    ensures forall i :: 0 <= i < |s| ==> r[i] == JStr([s[i]])
  {
    if s == [] then [] else [JStr([s[0]])] + Chars(s[1..])
  }

  /**
   * `list(map(float, xs))`: every element must convert. Python's `float()`
   * reads what `_to_float` reads, but raises where `_to_float` answers None.
   */
  function Floats(xs: seq<Json>): (r: Option<seq<real>>)
    ensures r.Some? <==> forall i :: 0 <= i < |xs| ==> GeocodeFormat.ToFloat(xs[i]).Some?
    ensures r.Some? ==> |r.value| == |xs|
    ensures r.Some? ==> forall i :: 0 <= i < |xs| ==> Some(r.value[i]) == GeocodeFormat.ToFloat(xs[i])
  {
    if xs == [] then Some([])
    else
      var head := GeocodeFormat.ToFloat(xs[0]);
      var tail := Floats(xs[1..]);
      assert forall i :: 1 <= i < |xs| ==> xs[i] == xs[1..][i - 1];
      if head.None? || tail.None? then None
      else Some([head.value] + tail.value)
  }

  function Min3(a: nat, b: nat, c: nat): (m: nat)
    ensures m <= a && m <= b && m <= c
    ensures m == a || m == b || m == c
  {
    if a <= b && a <= c then a else if b <= c then b else c
  }

  /** The series of an `hourly` object, each cut to the shortest of the three. */
  function ParseHourly(hourly: map<string, Json>): (r: Option<ForecastResult>)
    ensures r.Some? ==> |r.value.times| == |r.value.temperature| == |r.value.precipitation|
  {
    var times := Series(Get(hourly, "time"));
    var temp := Series(Get(hourly, "temperature_2m"));
    var precip := Series(Get(hourly, "precipitation"));
    if times.None? || temp.None? || precip.None? then None
    else
      var n := Min3(|times.value|, |temp.value|, |precip.value|);
      var t := Floats(temp.value[..n]);
      var p := Floats(precip.value[..n]);
      if t.None? || p.None? then None
      else Some(ForecastResult(times.value[..n], t.value, p.value))
  }

  /**
   * `_parse`: a missing or falsy `hourly` is an empty object, the three
   * series are truncated to their common length.
   */
  function Parse(payload: Json): (r: Option<ForecastResult>)
    ensures !payload.JObject? ==> r.None?
    ensures r.Some? ==> |r.value.times| == |r.value.temperature| == |r.value.precipitation|
  {
    match payload
    case JObject(fields) =>
      var hourly := Or(Get(fields, "hourly"), JObject(map[]));
      if hourly.JObject? then ParseHourly(hourly.fields) else None
    case _ => None
  }

  /**
   * Three lists of values: the result keeps exactly the common prefix of
   * the three, converting the numbers, and fails exactly when one of the
   * kept numbers does not convert. Whatever lies beyond the shortest list
   * is never looked at.
   */
  lemma ParseKeepsCommonPrefix(payload: map<string, Json>, times: seq<Json>, temp: seq<Json>, precip: seq<Json>)
    requires "hourly" in payload
    requires payload["hourly"] == JObject(map["time" := JArray(times), "temperature_2m" := JArray(temp), "precipitation" := JArray(precip)])
    ensures var n := Min3(|times|, |temp|, |precip|);
      var r := Parse(JObject(payload));
      (r.Some? <==> Floats(temp[..n]).Some? && Floats(precip[..n]).Some?) &&
      (r.Some? ==> r.value.times == times[..n] &&
                   r.value.temperature == Floats(temp[..n]).value &&
                   r.value.precipitation == Floats(precip[..n]).value)
  {
    var h := payload["hourly"];
    assert Truthy(h) by {
      assert "time" in h.fields;
    }
    assert Get(h.fields, "time") == JArray(times);
    assert Get(h.fields, "temperature_2m") == JArray(temp);
    assert Get(h.fields, "precipitation") == JArray(precip);
  }

  /** A payload without `hourly` (or with a null or empty one) parses to three empty series. */
  lemma ParseMissingHourly(payload: map<string, Json>)
    requires !Truthy(Get(payload, "hourly"))
    ensures Parse(JObject(payload)) == Some(ForecastResult([], [], []))
  {
    var h: map<string, Json> := map[];
    assert Get(h, "time") == JNull;
  }

  /** A number where a list belongs makes the parse raise, even when another series is empty. */
  lemma ParseRejectsNumberSeries(payload: map<string, Json>, hourly: map<string, Json>, x: real)
    requires "hourly" in payload && payload["hourly"] == JObject(hourly)
    requires "time" in hourly && hourly["time"] == JFloat(x) && x != 0.0
    ensures Parse(JObject(payload)) == None
  {
    assert Truthy(JObject(hourly)) by {
      assert "time" in hourly;
    }
  }

  /** The look-back of the daily summary: `max(1, min(int(days), 92))`. */
  function ClampPastDays(days: int): (r: int)
    ensures 1 <= r <= 92
    ensures 1 <= days <= 92 ==> r == days
    ensures days > 92 ==> r == 92
    ensures days < 1 ==> r == 1
  {
    var m := if days <= 92 then days else 92;
    if 1 >= m then 1 else m
  }

  /** A calendar date, as `date.isoformat()` prints it. */
  datatype Date = Date(year: nat, month: nat, day: nat)

  /** `YYYY-MM-DD`, each field zero-padded. */
  function IsoDate(d: Date): string {
    ZeroPad(d.year, 4) + "-" + ZeroPad(d.month, 2) + "-" + ZeroPad(d.day, 2)
  }

  /** Digits and dashes only. */
  predicate DateChars(s: string) {
    forall i :: 0 <= i < |s| ==> s[i] == '-' || IsDigit(s[i])
  }

  lemma DateCharsConcat(a: string, b: string)
    requires DateChars(a) && DateChars(b)
    ensures DateChars(a + b)
  {
    forall i | |a| <= i < |a + b|
      ensures (a + b)[i] == '-' || IsDigit((a + b)[i])
    {
      assert (a + b)[i] == b[i - |a|];
    }
  }

  /** The ISO rendering is made of digits and dashes only. */
  lemma IsoDateChars(d: Date)
    ensures forall i :: 0 <= i < |IsoDate(d)| ==> IsoDate(d)[i] == '-' || IsDigit(IsoDate(d)[i])
  {
    var y, m, dd := ZeroPad(d.year, 4), ZeroPad(d.month, 2), ZeroPad(d.day, 2);
    ZeroPadValue(d.year, 4);
    ZeroPadValue(d.month, 2);
    ZeroPadValue(d.day, 2);
    assert DateChars(y) && DateChars(m) && DateChars(dd) && DateChars("-");
    DateCharsConcat(y, "-");
    DateCharsConcat(y + "-", m);
    DateCharsConcat(y + "-" + m, "-");
    DateCharsConcat(y + "-" + m + "-", dd);
    assert DateChars(IsoDate(d));
  }

  /** Three fields, the first two free of the separator, are read back off `a-b-c`. */
  lemma ThreeFields(a1: string, b1: string, c1: string, a2: string, b2: string, c2: string, sep: char)
    requires sep !in a1 && sep !in b1 && sep !in a2 && sep !in b2
    requires a1 + [sep] + b1 + [sep] + c1 == a2 + [sep] + b2 + [sep] + c2
    ensures a1 == a2 && b1 == b2 && c1 == c2
  {
    assert a1 + [sep] + b1 + [sep] + c1 == a1 + [sep] + (b1 + [sep] + c1);
    assert a2 + [sep] + b2 + [sep] + c2 == a2 + [sep] + (b2 + [sep] + c2);
    SeparatedPrefix(a1, b1 + [sep] + c1, a2, b2 + [sep] + c2, sep);
    SeparatedPrefix(b1, c1, b2, c2, sep);
  }

  /** Different dates print differently. */
  lemma IsoDateInjective(a: Date, b: Date)
    requires IsoDate(a) == IsoDate(b)
    ensures a == b
  {
    var ya, yb := ZeroPad(a.year, 4), ZeroPad(b.year, 4);
    var ma, mb := ZeroPad(a.month, 2), ZeroPad(b.month, 2);
    var da, db := ZeroPad(a.day, 2), ZeroPad(b.day, 2);
    assert '-' !in ya && DigitsValue(ya) == a.year by { ZeroPadValue(a.year, 4); }
    assert '-' !in yb && DigitsValue(yb) == b.year by { ZeroPadValue(b.year, 4); }
    assert '-' !in ma && DigitsValue(ma) == a.month by { ZeroPadValue(a.month, 2); }
    assert '-' !in mb && DigitsValue(mb) == b.month by { ZeroPadValue(b.month, 2); }
    assert DigitsValue(da) == a.day by { ZeroPadValue(a.day, 2); }
    assert DigitsValue(db) == b.day by { ZeroPadValue(b.day, 2); }
    ThreeFields(ya, ma, da, yb, mb, db, '-');
  }

  /** The hourly series `get_forecast` asks for. */
  const DefaultHourly: string := "temperature_2m,precipitation"

  /** `_cache_key`: `f"{lat:.4f}:{lon:.4f}:{start}:{end}:{hourly}:{tz}"`. */
  function CacheKey(lat: Decimal, lon: Decimal, start: Date, end: Date, hourly: string, tz: string): string {
    Render(lat, 4) + ":" + Render(lon, 4) + ":" + IsoDate(start) + ":" + IsoDate(end) + ":" + hourly + ":" + tz
  }

  /** The key of a `get_forecast` call: the default series and the `auto` time zone. */
  function ForecastKey(lat: real, lon: real, start: Date, end: Date): string {
    CacheKey(Round(lat, 4), Round(lon, 4), start, end, DefaultHourly, "auto")
  }

  /** The key of a `get_hourly` call: the requested series joined with commas. */
  function HourlyKey(lat: real, lon: real, start: Date, end: Date, hourly: seq<string>, timezone: string): string {
    CacheKey(Round(lat, 4), Round(lon, 4), start, end, Join(hourly, ','), timezone)
  }

  /** `_daily_cache_key`: `f"daily:{lat:.4f}:{lon:.4f}:{tz}:{int(days)}"`. */
  function DailyKey(lat: Decimal, lon: Decimal, tz: string, days: int): string {
    "daily:" + Render(lat, 4) + ":" + Render(lon, 4) + ":" + tz + ":" + IntStr(days)
  }

  /** The key of a `fetch_recent_daily` call, built from the clamped look-back. */
  function RecentDailyKey(lat: real, lon: real, tz: string, days: int): string {
    DailyKey(Round(lat, 4), Round(lon, 4), tz, ClampPastDays(days))
  }

  /** Four separator-free fields are read back off `a:b:c:d:h:z`, and so is the remainder `h:z`. */
  lemma FourFields(a1: string, b1: string, c1: string, d1: string, h1: string, z1: string,
                   a2: string, b2: string, c2: string, d2: string, h2: string, z2: string)
    requires ':' !in a1 && ':' !in b1 && ':' !in c1 && ':' !in d1
    requires ':' !in a2 && ':' !in b2 && ':' !in c2 && ':' !in d2
    requires a1 + ":" + b1 + ":" + c1 + ":" + d1 + ":" + h1 + ":" + z1 == a2 + ":" + b2 + ":" + c2 + ":" + d2 + ":" + h2 + ":" + z2
    ensures a1 == a2 && b1 == b2 && c1 == c2 && d1 == d2 && h1 + ":" + z1 == h2 + ":" + z2
  {
    var t1, t2 := h1 + ":" + z1, h2 + ":" + z2;
    var r1, r2 := d1 + ":" + t1, d2 + ":" + t2;
    assert a1 + ":" + b1 + ":" + c1 + ":" + d1 + ":" + h1 + ":" + z1 == a1 + ":" + b1 + ":" + c1 + ":" + r1;
    assert a2 + ":" + b2 + ":" + c2 + ":" + d2 + ":" + h2 + ":" + z2 == a2 + ":" + b2 + ":" + c2 + ":" + r2;
    ThreeFieldsPrefix(a1, b1, c1, r1, a2, b2, c2, r2);
    SeparatedPrefix(d1, t1, d2, t2, ':');
  }

  lemma ThreeFieldsPrefix(a1: string, b1: string, c1: string, r1: string, a2: string, b2: string, c2: string, r2: string)
    requires ':' !in a1 && ':' !in b1 && ':' !in c1 && ':' !in a2 && ':' !in b2 && ':' !in c2
    requires a1 + ":" + b1 + ":" + c1 + ":" + r1 == a2 + ":" + b2 + ":" + c2 + ":" + r2
    ensures a1 == a2 && b1 == b2 && c1 == c2 && r1 == r2
  {
    assert a1 + ":" + b1 + ":" + c1 + ":" + r1 == a1 + ":" + b1 + ":" + (c1 + ":" + r1);
    assert a2 + ":" + b2 + ":" + c2 + ":" + r2 == a2 + ":" + b2 + ":" + (c2 + ":" + r2);
    ThreeFields(a1, b1, c1 + ":" + r1, a2, b2, c2 + ":" + r2, ':');
    SeparatedPrefix(c1, r1, c2, r2, ':');
  }

  /** A rendering at four places holds no colon. */
  lemma NoColon(d: Decimal)
    ensures ':' !in Render(d, 4)
  {
    RenderShape(d, 4);
    NumberCharsExclude(Render(d, 4), ':');
  }

  /** A date holds no colon. */
  lemma DateNoColon(d: Date)
    ensures ':' !in IsoDate(d)
  {
    IsoDateChars(d);
  }

  /**
   * A forecast key pins down the coordinates at four decimals and both
   * dates; the series list and the time zone are pinned down together.
   */
  lemma CacheKeyDeterminesRequest(lat1: Decimal, lon1: Decimal, s1: Date, e1: Date, h1: string, tz1: string,
                                  lat2: Decimal, lon2: Decimal, s2: Date, e2: Date, h2: string, tz2: string)
    requires CacheKey(lat1, lon1, s1, e1, h1, tz1) == CacheKey(lat2, lon2, s2, e2, h2, tz2)
    ensures lat1 == lat2 && lon1 == lon2 && s1 == s2 && e1 == e2
    ensures h1 + ":" + tz1 == h2 + ":" + tz2
  {
    NoColon(lat1);
    NoColon(lon1);
    NoColon(lat2);
    NoColon(lon2);
    DateNoColon(s1);
    DateNoColon(e1);
    DateNoColon(s2);
    DateNoColon(e2);
    FourFields(Render(lat1, 4), Render(lon1, 4), IsoDate(s1), IsoDate(e1), h1, tz1,
               Render(lat2, 4), Render(lon2, 4), IsoDate(s2), IsoDate(e2), h2, tz2);
    RenderInjective(lat1, lat2, 4);
    RenderInjective(lon1, lon2, 4);
    IsoDateInjective(s1, s2);
    IsoDateInjective(e1, e2);
  }

  /** `daily:a:b:<tz>:n` with `a`, `b` and `n` free of the separator gives back all four fields. */
  lemma DailyFields(a1: string, b1: string, z1: string, n1: string, a2: string, b2: string, z2: string, n2: string)
    requires ':' !in a1 && ':' !in b1 && ':' !in n1 && ':' !in a2 && ':' !in b2 && ':' !in n2
    requires "daily:" + a1 + ":" + b1 + ":" + z1 + ":" + n1 == "daily:" + a2 + ":" + b2 + ":" + z2 + ":" + n2
    ensures a1 == a2 && b1 == b2 && z1 == z2 && n1 == n2
  {
    var p1, p2 := "daily:" + a1 + ":" + b1 + ":" + z1, "daily:" + a2 + ":" + b2 + ":" + z2;
    SeparatedSuffix(p1, n1, p2, n2, ':');
    assert p1 == "daily" + ":" + a1 + ":" + (b1 + ":" + z1);
    assert p2 == "daily" + ":" + a2 + ":" + (b2 + ":" + z2);
    ThreeFields("daily", a1, b1 + ":" + z1, "daily", a2, b2 + ":" + z2, ':');
    SeparatedPrefix(b1, z1, b2, z2, ':');
  }

  /**
   * A daily key pins down every argument: the coordinates at four decimals,
   * the time zone (even one holding a colon, since the look-back is read off
   * the end) and the look-back.
   */
  lemma DailyKeyDeterminesRequest(lat1: Decimal, lon1: Decimal, tz1: string, d1: nat,
                                  lat2: Decimal, lon2: Decimal, tz2: string, d2: nat)
    requires DailyKey(lat1, lon1, tz1, d1) == DailyKey(lat2, lon2, tz2, d2)
    ensures lat1 == lat2 && lon1 == lon2 && tz1 == tz2 && d1 == d2
  {
    NoColon(lat1);
    NoColon(lon1);
    NoColon(lat2);
    NoColon(lon2);
    assert ':' !in NatStr(d1) && ':' !in NatStr(d2);
    DailyFields(Render(lat1, 4), Render(lon1, 4), tz1, NatStr(d1), Render(lat2, 4), Render(lon2, 4), tz2, NatStr(d2));
    RenderInjective(lat1, lat2, 4);
    RenderInjective(lon1, lon2, 4);
    NatStrValue(d1);
    NatStrValue(d2);
  }

  /** Every look-back beyond 92 days (and every one below 1) lands on one cache entry. */
  lemma RecentDailyKeyClamps(lat: real, lon: real, tz: string, d1: int, d2: int)
    requires (d1 >= 92 && d2 >= 92) || (d1 <= 1 && d2 <= 1)
    ensures RecentDailyKey(lat, lon, tz, d1) == RecentDailyKey(lat, lon, tz, d2)
  {
  }

  /** Look-backs that the clamp keeps apart get separate cache entries. */
  lemma RecentDailyKeySeparates(lat: real, lon: real, tz: string, d1: int, d2: int)
    requires ClampPastDays(d1) != ClampPastDays(d2)
    ensures RecentDailyKey(lat, lon, tz, d1) != RecentDailyKey(lat, lon, tz, d2)
  {
    if RecentDailyKey(lat, lon, tz, d1) == RecentDailyKey(lat, lon, tz, d2) {
      DailyKeyDeterminesRequest(Round(lat, 4), Round(lon, 4), tz, ClampPastDays(d1),
                                Round(lat, 4), Round(lon, 4), tz, ClampPastDays(d2));
    }
  }

  /**
   * `get_forecast` and `get_hourly` share one cache: an hourly request for
   * the two default series in the `auto` time zone has the very key of the
   * forecast request for the same place and dates.
   */
  lemma HourlyKeyMatchesForecastKey(lat: real, lon: real, start: Date, end: Date)
    ensures HourlyKey(lat, lon, start, end, ["temperature_2m", "precipitation"], "auto") == ForecastKey(lat, lon, start, end)
  {
    assert Join(["temperature_2m", "precipitation"], ',') == DefaultHourly by {
      var parts := ["temperature_2m", "precipitation"];
      assert parts[1..] == ["precipitation"];
    }
  }
}
