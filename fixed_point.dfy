/**
 * Python's fixed-point float formatting `f"{x:.{places}f}"`, as the cache
 * keys of backend/app/api/geocode.py (five places) and
 * backend/app/services/open_meteo.py (four places) use it.
 *
 * A printed number is a `Decimal`: the sign as printed, the whole part and
 * the `places` digits after the point. `Round` is how a real becomes one,
 * `Render` how one is printed. `Round` keeps the printed digits within half
 * a unit of the last place of the magnitude; the lemmas show the rendering
 * is injective and reads back to the decimal's value.
 */
module FixedPoint {
  import opened Wrappers
  import opened Text

  /** The sign as printed (a small negative value prints as `-0.0000`), the whole part, the fraction digits as a number. */
  datatype Decimal = Decimal(negative: bool, whole: nat, frac: nat)

  /** The fraction fits in `places` digits. */
  predicate Fits(d: Decimal, places: nat) {
    d.frac < Pow10(places)
  }

  /** The number a decimal denotes: the fraction digits shifted `places` to the right of the point. */
  function Value(d: Decimal, places: nat): real {
    var v := d.whole as real + Shift(d.frac, places);
    if d.negative then -v else v
  }

  /** Round to the nearest integer, ties to the even one, as float formatting does. */
  function RoundHalfEven(m: real): (n: nat)
    requires m >= 0.0
    ensures n as real - 0.5 <= m <= n as real + 0.5
    ensures m - m.Floor as real == 0.5 ==> n % 2 == 0
  {
    var f := m.Floor;
    var d := m - f as real;
    if d > 0.5 || (d == 0.5 && f % 2 == 1) then f + 1 else f
  }

  /** The magnitude of `x` in units of the last place. */
  function Scaled(x: real, scale: nat): (m: real)
    requires scale >= 1
    ensures m >= 0.0
  {
    var a := if x < 0.0 then -x else x;
    assert a * scale as real >= 0.0 by {
      assert a >= 0.0 && scale as real >= 1.0;
    }
    a * scale as real
  }

  lemma DivMod(n: nat, p: nat)
    requires p >= 1
    ensures 0 <= n / p && 0 <= n % p < p && n == p * (n / p) + n % p
  {
  }

  /**
   * The decimal `{:.<places>f}` prints for `x`: the magnitude rounded to
   * whole units of the last place, and the sign of `x` even when the
   * magnitude rounds to zero.
   */
  function Round(x: real, places: nat): (d: Decimal)
    ensures Fits(d, places) && d.negative == (x < 0.0)
    ensures var units := d.whole * Pow10(places) + d.frac;
      units as real - 0.5 <= Scaled(x, Pow10(places)) <= units as real + 0.5
  {
    var p := Pow10(places);
    var n := RoundHalfEven(Scaled(x, p));
    DivMod(n, p);
    Decimal(x < 0.0, n / p, n % p)
  }

  /** Shifting the point `k` places and scaling back by `10^k` gives the digits back. */
  lemma {:induction false} ShiftScales(a: nat, k: nat)
    ensures Shift(a, k) * Pow10(k) as real == a as real
  {
    if k > 0 {
      ShiftScales(a, k - 1);
      var s := Shift(a, k - 1);
      var p := Pow10(k - 1) as real;
      assert Pow10(k) as real == 10.0 * p;
      assert (s / 10.0) * (10.0 * p) == s * p;
    }
  }

  /** `whole.frac` with the fraction in at least `places` digits. */
  function Unsigned(d: Decimal, places: nat): string {
    NatStr(d.whole) + "." + ZeroPad(d.frac, places)
  }

  /** `f"{x:.<places>f}"` of the number `d` stands for. */
  function Render(d: Decimal, places: nat): string {
    if d.negative then "-" + Unsigned(d, places) else Unsigned(d, places)
  }

  /** Only a sign, digits and the decimal point. */
  predicate NumberChars(s: string) {
    forall i :: 0 <= i < |s| ==> s[i] == '-' || s[i] == '.' || IsDigit(s[i])
  }

  /** Any other character, such as a key separator, does not occur. */
  lemma NumberCharsExclude(s: string, sep: char)
    requires NumberChars(s) && sep != '-' && sep != '.' && !IsDigit(sep)
    ensures sep !in s
  {
  }

  /** Joining two runs of number characters gives one. */
  lemma NumberCharsConcat(a: string, b: string)
    requires NumberChars(a) && NumberChars(b)
    ensures NumberChars(a + b)
  {
    forall i | 0 <= i < |a + b|
      ensures (a + b)[i] == '-' || (a + b)[i] == '.' || IsDigit((a + b)[i])
    {
      if i >= |a| {
        assert (a + b)[i] == b[i - |a|];
      }
    }
  }

  /** The unsigned part starts and ends with a digit and holds only digits and the point. */
  lemma UnsignedShape(d: Decimal, places: nat)
    requires places >= 1
    ensures var u := Unsigned(d, places);
      u != [] && IsDigit(u[0]) && IsDigit(u[|u| - 1]) && NumberChars(u)
  {
    var w := NatStr(d.whole);
    var f := ZeroPad(d.frac, places);
    ZeroPadValue(d.frac, places);
    var u := w + "." + f;
    assert Unsigned(d, places) == u;
    assert u[0] == w[0] && u[|u| - 1] == f[|f| - 1];
    NumberCharsConcat(w, ".");
    NumberCharsConcat(w + ".", f);
  }

  /**
   * The rendering starts with the sign exactly when the decimal is negative,
   * and otherwise with a digit; it ends with a digit and holds nothing but
   * the sign, digits and one point.
   */
  lemma RenderShape(d: Decimal, places: nat)
    requires places >= 1
    ensures var s := Render(d, places);
      s != [] && (s[0] == '-' <==> d.negative) && (s[0] == '-' || IsDigit(s[0])) &&
      IsDigit(s[|s| - 1]) && NumberChars(s)
  {
    var u := Unsigned(d, places);
    UnsignedShape(d, places);
    if d.negative {
      NumberCharsConcat("-", u);
      assert ("-" + u)[|"-" + u| - 1] == u[|u| - 1];
    }
  }

  /** Distinct decimals print differently, at any number of places. */
  lemma RenderInjective(a: Decimal, b: Decimal, places: nat)
    requires Render(a, places) == Render(b, places)
    ensures a == b
  {
    var ua, ub := Unsigned(a, places), Unsigned(b, places);
    var wa, wb := NatStr(a.whole), NatStr(b.whole);
    assert ua[0] == wa[0] && ub[0] == wb[0];
    assert Render(a, places)[0] == (if a.negative then '-' else wa[0]);
    assert Render(b, places)[0] == (if b.negative then '-' else wb[0]);
    assert IsDigit(wa[0]) && IsDigit(wb[0]);
    assert ua == ub by {
      if a.negative {
        assert ua == Render(a, places)[1..] && ub == Render(b, places)[1..];
      }
    }
    assert '.' !in wa && '.' !in wb;
    SeparatedPrefix(wa, ZeroPad(a.frac, places), wb, ZeroPad(b.frac, places), '.');
    NatStrValue(a.whole);
    NatStrValue(b.whole);
    ZeroPadValue(a.frac, places);
    ZeroPadValue(b.frac, places);
  }

  /** Shifting the point `k` places is a division by `10^k`. */
  lemma ShiftDivides(a: nat, k: nat)
    ensures Shift(a, k) == a as real / Pow10(k) as real
  {
    ShiftScales(a, k);
  }

  /** The rendering as sign, whole digits, point and exactly `places` fraction digits. */
  lemma RenderParts(d: Decimal, places: nat) returns (w: string, f: string)
    requires places >= 1 && Fits(d, places)
    ensures Render(d, places) == if d.negative then "-" + (w + "." + f) else w + "." + f
    ensures w != [] && AllDigits(w) && DigitsValue(w) == d.whole
    ensures AllDigits(f) && DigitsValue(f) == d.frac && |f| == places
  {
    w := NatStr(d.whole);
    f := ZeroPad(d.frac, places);
    ZeroPadValue(d.frac, places);
    NatStrValue(d.whole);
  }

  /** Reading a rendering back (`float(s)`) gives exactly the value of the decimal. */
  lemma RenderParses(d: Decimal, places: nat)
    requires places >= 1 && Fits(d, places)
    ensures ParseDecimal(Render(d, places)) == Some(Value(d, places))
  {
    var w, f := RenderParts(d, places);
    ParseSignedFraction(Render(d, places), d.negative, w, f, d.whole, d.frac, Value(d, places));
  }
}
