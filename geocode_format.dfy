/**
 * The pure helpers of the geocoding endpoints (backend/app/api/geocode.py):
 * the lenient number conversion `_to_float`, the projection `_format_item`
 * of a Nominatim record onto the fields the frontend uses, the query
 * parameters of a search, and the two cache-key formats.
 *
 * Coordinates enter the reverse key as `{:.5f}` prints them: a
 * `FixedPoint.Decimal` at five places.
 */
module GeocodeFormat {
  import opened Wrappers
  import opened Json
  import opened Text
  import opened FixedPoint

  /**
   * `_to_float`: numbers (booleans included, as Python counts them as
   * integers) become floats, strings are parsed after stripping surrounding
   * whitespace, anything else is None.
   */
  function ToFloat(x: Json): (r: Option<real>)
    ensures x.JNull? || x.JArray? || x.JObject? ==> r == None
    ensures x.JInt? ==> r == Some(x.i as real)
    ensures x.JFloat? ==> r == Some(x.r)
    ensures x.JBool? ==> r == Some(if x.b then 1.0 else 0.0)
    ensures x.JStr? ==> r == ParseDecimal(Strip(x.s))
  {
    match x
    case JBool(b) => Some(if b then 1.0 else 0.0)
    case JInt(i) => Some(i as real)
    case JFloat(v) => Some(v)
    case JStr(s) => ParseDecimal(Strip(s))
    case _ => None
  }

  /** The record handed to the frontend for one place. */
  datatype Place = Place(
    name: Json,
    displayName: Json,
    lat: Option<real>,
    lon: Option<real>,
    cls: Json,
    typ: Json,
    importance: Json,
    bbox: Json)

  /** `_format_item`: `name` falls back to `display_name` when it is missing or falsy. */
  function FormatItem(item: map<string, Json>): (p: Place)
    ensures Truthy(Get(item, "name")) ==> p.name == item["name"]
    ensures !Truthy(Get(item, "name")) ==> p.name == Get(item, "display_name")
    ensures p.lat == ToFloat(Get(item, "lat")) && p.lon == ToFloat(Get(item, "lon"))
    ensures p.displayName == Get(item, "display_name")
    ensures p.cls == Get(item, "class") && p.typ == Get(item, "type")
    ensures p.importance == Get(item, "importance") && p.bbox == Get(item, "boundingbox")
  {
    Place(
      Or(Get(item, "name"), Get(item, "display_name")),
      Get(item, "display_name"),
      ToFloat(Get(item, "lat")),
      ToFloat(Get(item, "lon")),
      Get(item, "class"),
      Get(item, "type"),
      Get(item, "importance"),
      Get(item, "boundingbox"))
  }

  /** How many elements of a list are JSON objects. */
  function CountObjects(data: seq<Json>): nat {
    if data == [] then 0 else (if data[0].JObject? then 1 else 0) + CountObjects(data[1..])
  }

  /** `[_format_item(x) for x in data if isinstance(x, dict)]`. */
  function FormatResults(data: seq<Json>): (r: seq<Place>)
    ensures |r| == CountObjects(data) <= |data|
  {
    if data == [] then []
    else
      var rest := FormatResults(data[1..]);
      if data[0].JObject? then [FormatItem(data[0].fields)] + rest else rest
  }

  /** Formatting a concatenation formats each part. */
  lemma {:induction false} FormatResultsAppend(a: seq<Json>, b: seq<Json>)
    ensures FormatResults(a + b) == FormatResults(a) + FormatResults(b)
  {
    if a == [] {
      assert a + b == b;
    } else {
      assert (a + b)[0] == a[0];
      assert (a + b)[1..] == a[1..] + b;
      FormatResultsAppend(a[1..], b);
      if a[0].JObject? {
        var item := [FormatItem(a[0].fields)];
        assert FormatResults(a + b) == item + FormatResults(a[1..] + b);
        assert FormatResults(a) == item + FormatResults(a[1..]);
        assert item + (FormatResults(a[1..]) + FormatResults(b)) == (item + FormatResults(a[1..])) + FormatResults(b);
      }
    }
  }

  /** A string with no whitespace at either end is left alone by `strip()` and read as it is. */
  lemma ToFloatReadsUntrimmed(s: string, v: real)
    requires s != [] && !IsSpace(s[0]) && !IsSpace(s[|s| - 1]) && ParseDecimal(s) == Some(v)
    ensures ToFloat(JStr(s)) == Some(v)
  {
    assert Strip(s) == s;
  }

  /**
   * A string whose stripped form holds a character outside the decimal
   * grammar and outside the ASCII letters (a decimal comma, say) gives None.
   */
  lemma ToFloatRejectsForeignChar(s: string, k: nat)
    requires k < |Strip(s)|
    requires var c := Strip(s)[k];
      !IsDigit(c) && c !in "+-._" && !('a' <= c <= 'z') && !('A' <= c <= 'Z')
    ensures ToFloat(JStr(s)) == None
  {
    if ParseDecimal(Strip(s)).Some? {
      DecimalAlphabet(Strip(s));
    }
  }

  /** A coordinate sent by the provider as a five-decimal string is read back exactly. */
  lemma ToFloatReadsCoordinate(c: Decimal)
    requires Fits(c, 5)
    ensures ToFloat(JStr(Render(c, 5))) == Some(Value(c, 5))
  {
    RenderParses(c, 5);
    RenderShape(c, 5);
    ToFloatReadsUntrimmed(Render(c, 5), Value(c, 5));
  }

  /** A number sent by the provider as a decimal integer string is read back exactly. */
  lemma ToFloatReadsInteger(n: int)
    ensures ToFloat(JStr(IntStr(n))) == Some(n as real)
  {
    var s := IntStr(n);
    IntStrParses(n);
    assert s[0] == '-' || IsDigit(s[0]);
    assert IsDigit(s[|s| - 1]);
    ToFloatReadsUntrimmed(s, n as real);
  }

  /** Python's `str(x)` of an optional string: `None` renders as `"None"`. */
  function OptStr(x: Option<string>): string {
    if x.Some? then x.value else "None"
  }

  /** The cache key of a search: `f"{q}|{limit}|{countrycodes}|{lang}"`. */
  function SearchKey(q: string, limit: int, countryCodes: Option<string>, lang: string): (r: string)
    ensures |r| > |q| + |lang| && r[..|q|] == q && r[|q|] == '|'
    ensures r[|r| - |lang| - 1] == '|' && r[|r| - |lang|..] == lang
  {
    q + "|" + IntStr(limit) + "|" + OptStr(countryCodes) + "|" + lang
  }

  /** The cache key of a reverse lookup: `f"rev|{lat:.5f}|{lon:.5f}|{lang}"`. */
  function ReverseKey(lat: Decimal, lon: Decimal, lang: string): (r: string)
    ensures |r| > 4 + |lang| && r[..4] == "rev|"
    ensures r[|r| - |lang| - 1] == '|' && r[|r| - |lang|..] == lang
  {
    "rev|" + Render(lat, 5) + "|" + Render(lon, 5) + "|" + lang
  }

  /** The query parameters of a search: `countrycodes` is sent only when it is a non-empty string. */
  function SearchParams(q: string, limit: int, countryCodes: Option<string>): (p: map<string, string>)
    ensures "q" in p && "format" in p && "limit" in p && "addressdetails" in p
    ensures p["q"] == q && p["format"] == "jsonv2" && p["limit"] == IntStr(limit) && p["addressdetails"] == "1"
    ensures "countrycodes" in p <==> countryCodes.Some? && countryCodes.value != ""
    ensures "countrycodes" in p ==> p["countrycodes"] == countryCodes.value
  {
    var base := map["q" := q, "format" := "jsonv2", "limit" := IntStr(limit), "addressdetails" := "1"];
    if countryCodes.Some? && countryCodes.value != "" then base["countrycodes" := countryCodes.value] else base
  }

  /**
   * Two reverse lookups share a cache entry only when they ask for the same
   * coordinates, at five-decimal resolution, in the same language.
   */
  lemma ReverseKeyDeterminesRequest(lat1: Decimal, lon1: Decimal, lang1: string, lat2: Decimal, lon2: Decimal, lang2: string)
    requires ReverseKey(lat1, lon1, lang1) == ReverseKey(lat2, lon2, lang2)
    ensures lat1 == lat2 && lon1 == lon2 && lang1 == lang2
  {
    RenderShape(lat1, 5);
    RenderShape(lon1, 5);
    RenderShape(lat2, 5);
    RenderShape(lon2, 5);
    NumberCharsExclude(Render(lat1, 5), '|');
    NumberCharsExclude(Render(lon1, 5), '|');
    NumberCharsExclude(Render(lat2, 5), '|');
    NumberCharsExclude(Render(lon2, 5), '|');
    KeyFieldsDetermined(Render(lat1, 5), Render(lon1, 5), lang1, Render(lat2, 5), Render(lon2, 5), lang2);
    RenderInjective(lat1, lat2, 5);
    RenderInjective(lon1, lon2, 5);
  }

  /** Fields free of the separator are read back off a `rev|a|b|lang` key. */
  lemma KeyFieldsDetermined(a1: string, b1: string, l1: string, a2: string, b2: string, l2: string)
    requires '|' !in a1 && '|' !in b1 && '|' !in a2 && '|' !in b2
    requires "rev|" + a1 + "|" + b1 + "|" + l1 == "rev|" + a2 + "|" + b2 + "|" + l2
    ensures a1 == a2 && b1 == b2 && l1 == l2
  {
    var k1, k2 := "rev|" + a1 + "|" + b1 + "|" + l1, "rev|" + a2 + "|" + b2 + "|" + l2;
    var t1, t2 := b1 + "|" + l1, b2 + "|" + l2;
    assert k1[4..] == a1 + "|" + t1;
    assert k2[4..] == a2 + "|" + t2;
    SeparatedPrefix(a1, t1, a2, t2, '|');
    SeparatedPrefix(b1, l1, b2, l2, '|');
  }

  /**
   * The two key formats share one namespace: for every reverse lookup there
   * is a search, with the query text `rev|<lat>|<lon>`, limit 5 and no
   * country filter, that lands on the same cache key.
   */
  lemma SearchKeyCanEqualReverseKey(lat: Decimal, lon: Decimal, lang: string)
    ensures SearchKey("rev|" + Render(lat, 5) + "|" + Render(lon, 5), 5, None, lang) == ReverseKey(lat, lon, "5|None|" + lang)
  {
    var q := "rev|" + Render(lat, 5) + "|" + Render(lon, 5);
    assert IntStr(5) == "5";
    KeyGlue();
    Concat5(q, "|", "5", "|", "None", "|", lang);
    Concat5(q, "|", "5|None|", "", "", "", lang);
  }

  lemma KeyGlue()
    ensures "|" + "5" + "|" + "None" + "|" == "|" + "5|None|" + "" + "" + ""
  {
  }

  /** Regrouping a chain of concatenations. */
  lemma Concat5(q: string, a: string, b: string, c: string, d: string, e: string, t: string)
    ensures q + a + b + c + d + e + t == q + (a + b + c + d + e) + t
  {
  }
}
