/**
 * The location rule of frontend/src/lib/validation.ts (`zLocation`): a
 * place name or both coordinates must be given; the accepted input comes
 * out with the name trimmed and each coordinate either blank or a number.
 *
 * `Number(string)` is a JavaScript built-in and appears as a parameter.
 */
module Validation {
  import opened Wrappers
  import opened Js

  /**
   * What `String.prototype.trim` removes: the ECMAScript WhiteSpace
   * characters (tab, vertical tab, form feed, space, no-break space, the
   * byte-order mark and the Unicode space separators) and the line
   * terminators.
   */
  predicate IsJsSpace(c: char) {
    c == '\t' || c == '\U{B}' || c == '\U{C}' || c == ' ' || c == '\U{A0}' || c == '\U{FEFF}' ||
    c == '\U{1680}' || ('\U{2000}' <= c <= '\U{200A}') || c == '\U{202F}' || c == '\U{205F}' || c == '\U{3000}' ||
    c == '\n' || c == '\r' || c == '\U{2028}' || c == '\U{2029}'
  }

  function TrimStart(s: string): (r: string)
    ensures |r| <= |s| && r == s[|s| - |r|..]
    ensures r == [] || !IsJsSpace(r[0])
    ensures forall k :: 0 <= k < |s| - |r| ==> IsJsSpace(s[k])
  {
    if s != [] && IsJsSpace(s[0]) then TrimStart(s[1..]) else s
  }

  function TrimEnd(s: string): (r: string)
    ensures |r| <= |s| && r == s[..|r|]
    ensures r == [] || !IsJsSpace(r[|r| - 1])
    ensures forall k :: |r| <= k < |s| ==> IsJsSpace(s[k])
  {
    if s != [] && IsJsSpace(s[|s| - 1]) then TrimEnd(s[..|s| - 1]) else s
  }

  /** `s.trim()`: the part of `s` between its leading and trailing whitespace. */
  function Trim(s: string): (r: string)
    ensures |r| <= |s|
    ensures r == [] || (!IsJsSpace(r[0]) && !IsJsSpace(r[|r| - 1]))
    ensures r == [] <==> AllSpace(s)
  {
    var l := TrimStart(s);
    TrimEmpty(s);
    TrimEnd(l)
  }

  /** Nothing but whitespace. */
  predicate AllSpace(s: string) {
    forall k :: 0 <= k < |s| ==> IsJsSpace(s[k])
  }

  lemma TrimEmpty(s: string)
    ensures TrimEnd(TrimStart(s)) == [] <==> AllSpace(s)
  {
    var l := TrimStart(s);
    if l != [] {
      assert l[0] == s[|s| - |l|];
    }
  }

  /** Trimming twice trims no more than once. */
  lemma TrimIdempotent(s: string)
    ensures Trim(Trim(s)) == Trim(s)
  {
    var r := Trim(s);
    assert TrimStart(r) == r;
    assert TrimEnd(r) == r;
  }

  /** A latitude or longitude as the form gives it: a string or a number. */
  datatype Coord = CStr(s: string) | CNum(n: JsNum)

  /** The input object; `None` is `undefined`. */
  datatype RawLocation = RawLocation(name: Option<string>, lat: Option<Coord>, lon: Option<Coord>)

  /** An output coordinate: `""` or a number. */
  datatype CoordOut = Blank | Num(n: JsNum)

  datatype Location = Location(name: string, lat: CoordOut, lon: CoordOut)

  /** The one rejection message. */
  const Message: string := "地名 または 緯度・経度のどちらかを入力してください。"

  /** `` `${c}` !== "" ``: a number never renders as the empty string. */
  predicate Renders(c: Coord) {
    c != CStr("")
  }

  /** `!!v.name && v.name.trim().length > 0`. */
  predicate HasName(name: string) {
    name != "" && Trim(name) != ""
  }

  /** Both coordinates are there and neither renders as `""`. */
  predicate HasCoords(lat: Option<Coord>, lon: Option<Coord>) {
    lat.Some? && lon.Some? && Renders(lat.value) && Renders(lon.value)
  }

  /** A trimmed and defaulted name counts exactly when the raw name has a non-space character. */
  lemma HasNameIff(n0: string)
    ensures HasName(Trim(n0)) <==> !AllSpace(n0)
  {
    TrimIdempotent(n0);
  }

  /** The transform of one coordinate: `""` for `undefined` or `""`, `Number(...)` otherwise. */
  function CoordOf(c: Option<Coord>, toNumber: string -> JsNum): (r: CoordOut)
    ensures r == Blank <==> c.None? || c == Some(CStr(""))
    ensures c.Some? && c.value.CNum? ==> r == Num(c.value.n)
    ensures c.Some? && c.value.CStr? && c.value.s != "" ==> r == Num(toNumber(c.value.s))
  {
    match c
    case None => Blank
    case Some(CStr(s)) => if s == "" then Blank else Num(toNumber(s))
    case Some(CNum(n)) => Num(n)
  }

  /** `zLocation.safeParse`: trim and default the name, refine, then transform. */
  function ParseLocation(raw: RawLocation, toNumber: string -> JsNum): Result<Location, string> {
    var name := Trim(raw.name.GetOr(""));
    if !(HasName(name) || HasCoords(raw.lat, raw.lon)) then Err(Message)
    else Ok(Location(Trim(name), CoordOf(raw.lat, toNumber), CoordOf(raw.lon, toNumber)))
  }

  /**
   * The input is accepted exactly when the name has a non-space character,
   * or both coordinates are present and neither is the empty string; a
   * rejection always carries the one message.
   */
  lemma ParseLocationAccepts(raw: RawLocation, toNumber: string -> JsNum)
    ensures ParseLocation(raw, toNumber).Ok? <==>
      !AllSpace(raw.name.GetOr("")) ||
      (raw.lat.Some? && raw.lon.Some? && raw.lat.value != CStr("") && raw.lon.value != CStr(""))
    ensures ParseLocation(raw, toNumber).Err? ==> ParseLocation(raw, toNumber).error == Message
  {
    HasNameIff(raw.name.GetOr(""));
  }

  /** What an accepted input becomes: the trimmed name and the two transformed coordinates. */
  lemma ParseLocationValue(raw: RawLocation, toNumber: string -> JsNum)
    requires ParseLocation(raw, toNumber).Ok?
    ensures ParseLocation(raw, toNumber).value ==
      Location(Trim(raw.name.GetOr("")), CoordOf(raw.lat, toNumber), CoordOf(raw.lon, toNumber))
    ensures HasName(Trim(raw.name.GetOr(""))) || HasCoords(raw.lat, raw.lon)
  {
    TrimIdempotent(raw.name.GetOr(""));
  }

  /**
   * An accepted input comes out with its name trimmed (`""` when missing)
   * and each coordinate blank exactly when it was missing or empty.
   */
  lemma ParseLocationOutput(raw: RawLocation, toNumber: string -> JsNum)
    requires ParseLocation(raw, toNumber).Ok?
    ensures var loc := ParseLocation(raw, toNumber).value;
      loc.name == Trim(raw.name.GetOr("")) &&
      (loc.lat == Blank <==> raw.lat.None? || raw.lat == Some(CStr(""))) &&
      (loc.lon == Blank <==> raw.lon.None? || raw.lon == Some(CStr(""))) &&
      (loc.name == "" ==> loc.lat != Blank && loc.lon != Blank)
  {
    ParseLocationValue(raw, toNumber);
    var lat, lon := CoordOf(raw.lat, toNumber), CoordOf(raw.lon, toNumber);
    assert lat == Blank <==> raw.lat.None? || raw.lat == Some(CStr(""));
    assert lon == Blank <==> raw.lon.None? || raw.lon == Some(CStr(""));
    assert !HasName("");
  }
}
