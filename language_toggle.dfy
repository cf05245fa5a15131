/**
 * The target of the language switch in
 * frontend/src/components/LanguageToggle.tsx: the other locale, and the
 * current path with its locale segment (the first one after the leading
 * `/`) replaced by it.
 */
module LanguageToggle {
  import opened Wrappers
  import Text

  datatype Locale = Ja | En

  function Name(l: Locale): (s: string)
    ensures s != [] && '/' !in s
  {
    match l
    case Ja => "ja"
    case En => "en"
  }

  /** `other`: `en` for `ja`, `ja` otherwise. */
  function Other(l: Locale): (o: Locale)
    ensures o != l && Name(o) != Name(l)
  {
    if l == Ja then En else Ja
  }

  /** Switching twice gives the locale back. */
  lemma OtherInvolutive(l: Locale)
    ensures Other(Other(l)) == l
  {
  }

  /**
   * `parts[1] = other` on the array `split` returned: replaces the second
   * segment, or appends one when there is only one.
   */
  function SetSecond(parts: seq<string>, v: string): (r: seq<string>)
    requires |parts| >= 1
    ensures |r| == if |parts| >= 2 then |parts| else 2
    ensures r[0] == parts[0] && r[1] == v
    ensures forall k :: 2 <= k < |r| ==> r[k] == parts[k]
  {
    if |parts| >= 2 then parts[1 := v] else parts + [v]
  }

  /** `nextPath`: where the toggle sends the browser. */
  function NextPath(pathname: Option<string>, locale: Locale): (r: string)
    ensures r != ""
  {
    var other := Name(Other(locale));
    if pathname.None? || pathname.value == "" then "/" + other
    else
      var parts := SetSecond(Text.Split(pathname.value, '/'), other);
      var joined := Text.Join(parts, '/');
      if joined == "" then "/" + other else joined
  }

  /** Without a path the toggle goes to the other locale's root. */
  lemma NextPathWithoutPath(pathname: Option<string>, locale: Locale)
    requires pathname.None? || pathname == Some("")
    ensures NextPath(pathname, locale) == "/" + Name(Other(locale))
  {
  }

  /** A join of separator-free pieces starts with the first piece, followed by the separator when more follow. */
  lemma {:induction false} JoinStartsWith(parts: seq<string>, sep: char)
    requires |parts| >= 2
    ensures Text.Join(parts, sep) == parts[0] + [sep] + Text.Join(parts[1..], sep)
  {
  }

  /**
   * Only the locale segment changes: the new path splits into the old
   * segments with segment 1 replaced, the count kept when there were at
   * least two.
   */
  lemma NextPathSegments(path: string, locale: Locale)
    requires path != ""
    ensures Text.Split(NextPath(Some(path), locale), '/') == SetSecond(Text.Split(path, '/'), Name(Other(locale)))
  {
    var parts := SetSecond(Text.Split(path, '/'), Name(Other(locale)));
    assert forall k :: 0 <= k < |parts| ==> '/' !in parts[k];
    Text.SplitJoin(parts, '/');
  }

  /** An absolute path goes to an absolute path under the other locale. */
  lemma NextPathAbsolute(path: string, locale: Locale)
    requires path != "" && path[0] == '/'
    ensures Text.StartsWith(NextPath(Some(path), locale), "/" + Name(Other(locale)))
  {
    var other := Name(Other(locale));
    var split := Text.Split(path, '/');
    assert Text.IndexOf(path, '/') == 0;
    assert split[0] == "";
    var parts := SetSecond(split, other);
    var joined := Text.Join(parts, '/');
    JoinStartsWith(parts, '/');
    if |parts| == 2 {
      assert joined == "/" + other;
    } else {
      JoinStartsWith(parts[1..], '/');
      assert joined == "/" + other + "/" + Text.Join(parts[2..], '/');
    }
  }

  /**
   * Toggling back undoes a toggle: from a path whose locale segment is the
   * current locale, switching and switching again returns the same path.
   */
  lemma NextPathRoundTrip(path: string, locale: Locale)
    requires path != ""
    requires |Text.Split(path, '/')| >= 2 && Text.Split(path, '/')[1] == Name(locale)
    ensures NextPath(Some(NextPath(Some(path), locale)), Other(locale)) == path
  {
    var split := Text.Split(path, '/');
    var there := NextPath(Some(path), locale);
    NextPathSegments(path, locale);
    OtherInvolutive(locale);
    assert SetSecond(Text.Split(there, '/'), Name(locale)) == split;
    Text.JoinSplit(path, '/');
  }
}
