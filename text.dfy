/**
 * String helpers shared by the backend and the frontend models: whitespace
 * stripping, prefix tests, splitting and joining on one separator character,
 * the lexicographic order used to sort ISO dates, decimal rendering of
 * integers and the decimal-number grammar accepted by the number parsers.
 */
module Text {
  import opened Wrappers

  /** The ASCII whitespace that Python's `str.strip()` removes. */
  predicate IsSpace(c: char) {
    c == ' ' || c == '\t' || c == '\n' || c == '\r' || c == '\U{B}' || c == '\U{C}'
  }

  predicate IsDigit(c: char) {
    '0' <= c <= '9'
  }

  predicate AllDigits(s: string) {
    forall k :: 0 <= k < |s| ==> IsDigit(s[k])
  }

  predicate StartsWith(s: string, prefix: string) {
    |prefix| <= |s| && s[..|prefix|] == prefix
  }

  /** Drops leading whitespace; the result is the longest whitespace-free-at-the-front suffix. */
  function TrimLeft(s: string): (r: string)
    ensures |r| <= |s| && r == s[|s| - |r|..]
    ensures forall k :: 0 <= k < |s| - |r| ==> IsSpace(s[k])
    ensures r == [] || !IsSpace(r[0])
  {
    if s != [] && IsSpace(s[0]) then TrimLeft(s[1..]) else s
  }

  /** Drops trailing whitespace. */
  function TrimRight(s: string): (r: string)
    ensures |r| <= |s| && r == s[..|r|]
    ensures forall k :: |r| <= k < |s| ==> IsSpace(s[k])
    ensures r == [] || !IsSpace(r[|r| - 1])
  {
    if s != [] && IsSpace(s[|s| - 1]) then TrimRight(s[..|s| - 1]) else s
  }

  /** Python's `s.rstrip(c)`: every trailing copy of `c` removed. */
  function RStrip(s: string, c: char): (r: string)
    ensures |r| <= |s| && r == s[..|r|]
    ensures forall k :: |r| <= k < |s| ==> s[k] == c
    ensures r == [] || r[|r| - 1] != c
  {
    if s != [] && s[|s| - 1] == c then RStrip(s[..|s| - 1], c) else s
  }

  /** Python's `str.strip()` over the ASCII whitespace of `IsSpace`. */
  function Strip(s: string): (r: string)
    ensures |r| <= |s|
    ensures r == [] || (!IsSpace(r[0]) && !IsSpace(r[|r| - 1]))
    ensures (forall k :: 0 <= k < |s| ==> IsSpace(s[k])) <==> r == []
  {
    var l := TrimLeft(s);
    StripEmpty(s);
    TrimRight(l)
  }

  lemma StripEmpty(s: string)
    ensures var r := TrimRight(TrimLeft(s));
      r == [] <==> forall k :: 0 <= k < |s| ==> IsSpace(s[k])
  {
    var l := TrimLeft(s);
    var r := TrimRight(l);
    if r != [] {
      assert !IsSpace(l[0]);
    }
  }

  /** The index of the first occurrence of `c` in `s`. */
  function IndexOf(s: string, c: char): (i: nat)
    requires c in s
    ensures i < |s| && s[i] == c && c !in s[..i]
  {
    if s[0] == c then 0 else IndexOf(s[1..], c) + 1
  }

  /** `s.split(sep)` in Python and JavaScript, for a one-character separator. */
  function Split(s: string, sep: char): (parts: seq<string>)
    ensures |parts| >= 1
    ensures forall k :: 0 <= k < |parts| ==> sep !in parts[k]
    decreases |s|
  {
    if sep !in s then [s]
    else
      var i := IndexOf(s, sep);
      [s[..i]] + Split(s[i + 1..], sep)
  }

  /** `sep.join(parts)` in Python, `parts.join(sep)` in JavaScript. */
  function Join(parts: seq<string>, sep: char): string {
    if |parts| == 0 then ""
    else if |parts| == 1 then parts[0]
    else parts[0] + [sep] + Join(parts[1..], sep)
  }

  /** Joining the pieces of a split gives the original string back. */
  lemma {:induction false} JoinSplit(s: string, sep: char)
    ensures Join(Split(s, sep), sep) == s
    decreases |s|
  {
    if sep in s {
      var i := IndexOf(s, sep);
      var rest := s[i + 1..];
      JoinSplit(rest, sep);
      var parts := Split(s, sep);
      assert parts == [s[..i]] + Split(rest, sep);
      assert parts[1..] == Split(rest, sep);
      assert Join(parts, sep) == s[..i] + [sep] + Join(Split(rest, sep), sep);
      assert s == s[..i] + [sep] + rest;
    }
  }

  /** The first occurrence is the one with no earlier occurrence. */
  lemma IndexOfAt(s: string, c: char, n: nat)
    requires n < |s| && s[n] == c && c !in s[..n]
    ensures IndexOf(s, c) == n
  {
  }

  /** Splitting a join of separator-free pieces gives the pieces back. */
  lemma {:induction false} SplitJoin(parts: seq<string>, sep: char)
    requires |parts| >= 1
    requires forall k :: 0 <= k < |parts| ==> sep !in parts[k]
    ensures Split(Join(parts, sep), sep) == parts
  {
    if |parts| > 1 {
      SplitJoin(parts[1..], sep);
      SplitCons(parts[0], Join(parts[1..], sep), sep);
      assert parts == [parts[0]] + parts[1..];
    }
  }

  /** Splitting at the first separator: the separator-free head, then the pieces of the rest. */
  lemma SplitCons(head: string, tail: string, sep: char)
    requires sep !in head
    ensures Split(head + [sep] + tail, sep) == [head] + Split(tail, sep)
  {
    var s := head + [sep] + tail;
    assert s[|head|] == sep && s[..|head|] == head;
    IndexOfAt(s, sep, |head|);
    assert s[|head| + 1..] == tail;
  }

  /** A separator-free first piece is recovered from a string, and so is the rest after the separator. */
  lemma SeparatedPrefix(x: string, r1: string, y: string, r2: string, sep: char)
    requires sep !in x && sep !in y && x + [sep] + r1 == y + [sep] + r2
    ensures x == y && r1 == r2
  {
    var s := x + [sep] + r1;
    var t := y + [sep] + r2;
    assert s[|x|] == sep && t[|y|] == sep;
    assert forall i :: 0 <= i < |x| ==> s[i] != sep;
    assert forall i :: 0 <= i < |y| ==> t[i] != sep;
    assert |x| == |y|;
    assert x == s[..|x|] && y == t[..|y|];
    assert r1 == s[|x| + 1..] && r2 == t[|y| + 1..];
  }

  /** A separator-free last piece is recovered from a string, and so is everything before the separator. */
  lemma SeparatedSuffix(r1: string, x: string, r2: string, y: string, sep: char)
    requires sep !in x && sep !in y && r1 + [sep] + x == r2 + [sep] + y
    ensures x == y && r1 == r2
  {
    var s := r1 + [sep] + x;
    var t := r2 + [sep] + y;
    assert s[|r1|] == sep && t[|r2|] == sep;
    assert forall i :: |r1| < i < |s| ==> s[i] == x[i - |r1| - 1];
    assert forall i :: |r2| < i < |t| ==> t[i] == y[i - |r2| - 1];
    assert |x| == |y|;
    assert x == s[|r1| + 1..] && y == t[|r2| + 1..];
    assert r1 == s[..|r1|] && r2 == t[..|r2|];
  }

  /** Strict lexicographic order on code points (the order `localeCompare` gives ISO dates). */
  predicate Lt(a: string, b: string) {
    if |a| == 0 then |b| > 0
    else if |b| == 0 then false
    else a[0] < b[0] || (a[0] == b[0] && Lt(a[1..], b[1..]))
  }

  lemma {:induction false} LtIrreflexive(a: string)
    ensures !Lt(a, a)
  {
    if |a| > 0 {
      LtIrreflexive(a[1..]);
    }
  }

  lemma {:induction false} LtTransitive(a: string, b: string, c: string)
    requires Lt(a, b) && Lt(b, c)
    ensures Lt(a, c)
  {
    if |a| > 0 && |b| > 0 && |c| > 0 && a[0] == b[0] == c[0] {
      LtTransitive(a[1..], b[1..], c[1..]);
    }
  }

  lemma {:induction false} LtTotal(a: string, b: string)
    requires a != b
    ensures Lt(a, b) || Lt(b, a)
  {
    if |a| > 0 && |b| > 0 && a[0] == b[0] {
      assert a == [a[0]] + a[1..] && b == [b[0]] + b[1..];
      LtTotal(a[1..], b[1..]);
    }
  }

  lemma {:induction false} LtAsymmetric(a: string, b: string)
    requires Lt(a, b)
    ensures !Lt(b, a)
  {
    if |a| > 0 && |b| > 0 && a[0] == b[0] {
      LtAsymmetric(a[1..], b[1..]);
    }
  }

  function Pow10(k: nat): (r: nat)
    ensures r >= 1
  {
    if k == 0 then 1 else 10 * Pow10(k - 1)
  }

  function DigitChar(d: nat): (c: char)
    requires d < 10
    ensures IsDigit(c)
  {
    ['0', '1', '2', '3', '4', '5', '6', '7', '8', '9'][d]
  }

  function DigitValue(c: char): (d: nat)
    requires IsDigit(c)
    ensures d < 10
  {
    (c - '0') as nat
  }

  /** The number a string of decimal digits denotes, read from the last digit. */
  function DigitsValue(s: string): nat
    requires AllDigits(s)
  {
    if s == [] then 0 else 10 * DigitsValue(s[..|s| - 1]) + DigitValue(s[|s| - 1])
  }

  /** Python's `str(n)` / JavaScript's `String(n)` for a non-negative integer. */
  function NatStr(n: nat): (s: string)
    ensures s != [] && AllDigits(s)
  {
    if n < 10 then [DigitChar(n)] else NatStr(n / 10) + [DigitChar(n % 10)]
  }

  /** `str(n)` for any integer. */
  function IntStr(n: int): string {
    if n < 0 then "-" + NatStr(-n) else NatStr(n)
  }

  lemma {:induction false} NatStrValue(n: nat)
    ensures DigitsValue(NatStr(n)) == n
  {
    if n >= 10 {
      NatStrValue(n / 10);
      var s := NatStr(n);
      assert s[..|s| - 1] == NatStr(n / 10);
      assert DigitValue(DigitChar(n % 10)) == n % 10;
    } else {
      assert DigitValue(DigitChar(n)) == n;
    }
  }

  /** A decimal rendering is no longer than `k` digits when the number is below `10^k`. */
  lemma {:induction false} NatStrLength(n: nat, k: nat)
    ensures k >= 1 && n < Pow10(k) ==> |NatStr(n)| <= k
  {
    if n >= 10 && k >= 1 && n < Pow10(k) {
      NatStrLength(n / 10, k - 1);
    }
  }

  /** `k` zero digits. */
  function Zeros(k: nat): (s: string)
    ensures |s| == k && AllDigits(s)
  {
    if k == 0 then "" else Zeros(k - 1) + "0"
  }

  /** Leading zeros do not change the number a digit string denotes. */
  lemma {:induction false} LeadingZeros(k: nat, s: string)
    requires AllDigits(s)
    ensures AllDigits(Zeros(k) + s) && DigitsValue(Zeros(k) + s) == DigitsValue(s)
    decreases |s|, k
  {
    var z := Zeros(k) + s;
    assert AllDigits(z) by {
      forall i | 0 <= i < |z| ensures IsDigit(z[i]) {
        if i >= k { assert z[i] == s[i - k]; }
      }
    }
    if s == [] {
      assert z == Zeros(k);
      if k > 0 {
        assert z[..k - 1] == Zeros(k - 1);
        LeadingZeros(k - 1, "");
        assert Zeros(k - 1) + "" == Zeros(k - 1);
      }
    } else {
      var init := s[..|s| - 1];
      LeadingZeros(k, init);
      assert z[..|z| - 1] == Zeros(k) + init;
    }
  }

  /** `format(n, "0{k}d")`: `n` in at least `k` digits, padded with zeros on the left. */
  function ZeroPad(n: nat, k: nat): (s: string)
    ensures |s| >= k
  {
    var digits := NatStr(n);
    (if |digits| < k then Zeros(k - |digits|) else "") + digits
  }

  /** The padded rendering is a digit string of the same value, `k` long when `n` fits. */
  lemma ZeroPadValue(n: nat, k: nat)
    ensures AllDigits(ZeroPad(n, k)) && DigitsValue(ZeroPad(n, k)) == n
    ensures k >= 1 && n < Pow10(k) ==> |ZeroPad(n, k)| == k
  {
    var digits := NatStr(n);
    NatStrValue(n);
    NatStrLength(n, k);
    var pad := if |digits| < k then k - |digits| else 0;
    LeadingZeros(pad, digits);
    assert ZeroPad(n, k) == Zeros(pad) + digits;
  }

  /** `a / 10^k`, one division by ten at a time. */
  function Shift(a: nat, k: nat): real {
    if k == 0 then a as real else Shift(a, k - 1) / 10.0
  }

  /** How many decimal digits `s` starts with. */
  function DigitRun(s: string): (i: nat)
    ensures i <= |s| && AllDigits(s[..i])
    ensures i < |s| ==> !IsDigit(s[i])
  {
    if s != [] && IsDigit(s[0]) then
      var i := 1 + DigitRun(s[1..]);
      assert s[..i] == [s[0]] + s[1..][..i - 1];
      i
    else 0
  }

  /** The digit run ends at the first non-digit. */
  lemma {:induction false} DigitRunStops(s: string, n: nat)
    requires n < |s| && AllDigits(s[..n]) && !IsDigit(s[n])
    ensures DigitRun(s) == n
  {
    if n > 0 {
      assert IsDigit(s[..n][0]);
      assert s[1..][..n - 1] == s[..n][1..];
      DigitRunStops(s[1..], n - 1);
    }
  }

  /**
   * The unsigned decimal grammar `digits [ '.' digits ]` with at least one
   * digit in all (so `"1."` and `".5"` are numbers, `"."` is not).
   */
  function ParseUnsigned(s: string): Option<real> {
    var i := DigitRun(s);
    var whole := DigitsValue(s[..i]) as real;
    if i == |s| then
      if i > 0 then Some(whole) else None
    else if s[i] == '.' && AllDigits(s[i + 1..]) && (i > 0 || i + 1 < |s|) then
      var frac := s[i + 1..];
      Some(whole + Shift(DigitsValue(frac), |frac|))
    else None
  }

  /** An unsigned decimal is made of digits and at most a point. */
  lemma UnsignedAlphabet(s: string)
    requires ParseUnsigned(s).Some?
    ensures forall k :: 0 <= k < |s| ==> IsDigit(s[k]) || s[k] == '.'
  {
    var i := DigitRun(s);
    forall k | 0 <= k < |s|
      ensures IsDigit(s[k]) || s[k] == '.'
    {
      if k < i {
        assert s[k] == s[..i][k];
      } else if k > i {
        assert s[k] == s[i + 1..][k - i - 1];
      }
    }
  }

  /** A signed decimal is made of digits, at most a point, and a sign in front. */
  lemma DecimalAlphabet(s: string)
    requires ParseDecimal(s).Some?
    ensures forall k :: 0 <= k < |s| ==> IsDigit(s[k]) || s[k] == '.' || (k == 0 && (s[k] == '-' || s[k] == '+'))
  {
    if s != [] && (s[0] == '-' || s[0] == '+') {
      UnsignedAlphabet(s[1..]);
      forall k | 1 <= k < |s|
        ensures IsDigit(s[k]) || s[k] == '.'
      {
        assert s[k] == s[1..][k - 1];
      }
    } else {
      UnsignedAlphabet(s);
    }
  }

  /** An optional sign followed by an unsigned decimal, with no surrounding whitespace. */
  function ParseDecimal(s: string): Option<real> {
    var signed := s != [] && (s[0] == '-' || s[0] == '+');
    var negative := signed && s[0] == '-';
    match ParseUnsigned(if signed then s[1..] else s)
    case None => None
    case Some(v) => Some(if negative then -v else v)
  }

  /** The value of `whole.frac` for non-empty digit strings. */
  lemma ParseFraction(whole: string, frac: string, w: nat, f: nat)
    requires whole != [] && AllDigits(whole) && AllDigits(frac)
    requires DigitsValue(whole) == w && DigitsValue(frac) == f
    ensures ParseUnsigned(whole + "." + frac) == Some(w as real + Shift(f, |frac|))
  {
    var u := whole + "." + frac;
    assert u[..|whole|] == whole;
    DigitRunStops(u, |whole|);
    assert u[|whole| + 1..] == frac;
  }

  /** An optionally negated `whole.frac` reads back as its value. */
  lemma ParseSignedFraction(s: string, negative: bool, whole: string, frac: string, w: nat, f: nat, value: real)
    requires whole != [] && AllDigits(whole) && AllDigits(frac)
    requires DigitsValue(whole) == w && DigitsValue(frac) == f
    requires s == if negative then "-" + (whole + "." + frac) else whole + "." + frac
    requires value == if negative then -(w as real + Shift(f, |frac|)) else w as real + Shift(f, |frac|)
    ensures ParseDecimal(s) == Some(value)
  {
    var u := whole + "." + frac;
    var v := w as real + Shift(f, |frac|);
    ParseFraction(whole, frac, w, f);
    assert u[0] == whole[0];
    ParseSigned(u, v);
    if negative {
      assert s == "-" + u && value == -v;
    } else {
      assert s == u && value == v;
    }
  }

  /** A leading minus negates, and a string starting with a digit is read unsigned. */
  lemma ParseSigned(u: string, v: real)
    requires u != [] && IsDigit(u[0]) && ParseUnsigned(u) == Some(v)
    ensures ParseDecimal(u) == Some(v) && ParseDecimal("-" + u) == Some(-v)
  {
    assert ("-" + u)[1..] == u;
  }

  /** Reading back the decimal rendering of an integer gives that integer. */
  lemma IntStrParses(n: int)
    ensures ParseDecimal(IntStr(n)) == Some(n as real)
  {
    var m: nat := if n < 0 then -n else n;
    var digits := NatStr(m);
    assert DigitRun(digits) == |digits|;
    assert digits[..|digits|] == digits;
    NatStrValue(m);
    assert ParseUnsigned(digits) == Some(m as real);
    if n < 0 {
      assert IntStr(n)[1..] == digits;
    } else {
      assert digits[0] != '-' && digits[0] != '+' by {
        assert IsDigit(digits[0]);
      }
    }
  }
}
