/**
 * The date-keyed JavaScript `Map` the frontend merges its series into:
 * an association list in insertion order, where `set` replaces a value in
 * place or appends a new key, and `Array.from(map.values()).sort(...)`
 * by `localeCompare` on the date.
 */
module DateMap {
  import opened Wrappers
  import Text

  /** One key/value pair; input series points `{date, value}` have the same shape. */
  datatype Entry<V> = Entry(date: string, val: V)

  function Keys<V>(m: seq<Entry<V>>): set<string> {
    if m == [] then {} else {m[0].date} + Keys(m[1..])
  }

  /** No date occurs twice. */
  predicate Distinct<V>(m: seq<Entry<V>>) {
    m == [] || (m[0].date !in Keys(m[1..]) && Distinct(m[1..]))
  }

  lemma {:induction false} KeysAppend<V>(a: seq<Entry<V>>, b: seq<Entry<V>>)
    ensures Keys(a + b) == Keys(a) + Keys(b)
  {
    if a == [] {
      assert a + b == b;
    } else {
      assert (a + b)[1..] == a[1..] + b;
      KeysAppend(a[1..], b);
    }
  }

  lemma {:induction false} KeysMember<V>(m: seq<Entry<V>>, d: string)
    ensures d in Keys(m) <==> exists i :: 0 <= i < |m| && m[i].date == d
  {
    if m != [] {
      KeysMember(m[1..], d);
      if d in Keys(m[1..]) {
        var i :| 0 <= i < |m[1..]| && m[1..][i].date == d;
        assert m[i + 1].date == d;
      }
      if exists i :: 0 <= i < |m| && m[i].date == d {
        var i :| 0 <= i < |m| && m[i].date == d;
        if i > 0 {
          assert m[1..][i - 1].date == d;
        }
      }
    }
  }

  /** `map.get(d)`. */
  function Get<V>(m: seq<Entry<V>>, d: string): (r: Option<V>)
    ensures r.Some? <==> d in Keys(m)
  {
    if m == [] then None
    else if m[0].date == d then Some(m[0].val)
    else Get(m[1..], d)
  }

  /** In a map without repeated keys, `get` finds every pair it holds. */
  lemma {:induction false} GetMember<V>(m: seq<Entry<V>>, i: nat)
    requires Distinct(m) && i < |m|
    ensures Get(m, m[i].date) == Some(m[i].val)
  {
    if i > 0 {
      assert m[1..][i - 1] == m[i];
      KeysMember(m[1..], m[i].date);
      GetMember(m[1..], i - 1);
    }
  }

  /** `map.set(d, v)`: replaces the value where `d` is, or appends `d` at the end. */
  function Put<V>(m: seq<Entry<V>>, d: string, v: V): (r: seq<Entry<V>>)
    ensures Keys(r) == Keys(m) + {d}
    ensures Distinct(m) ==> Distinct(r)
    ensures Get(r, d) == Some(v)
    ensures forall e :: e != d ==> Get(r, e) == Get(m, e)
  {
    if m == [] then [Entry(d, v)]
    else if m[0].date == d then
      assert ([Entry(d, v)] + m[1..])[1..] == m[1..];
      [Entry(d, v)] + m[1..]
    else
      var rest := Put(m[1..], d, v);
      assert ([m[0]] + rest)[1..] == rest;
      [m[0]] + rest
  }

  /**
   * The value the last point dated `d` carries: what a run of `map.set`
   * over the points leaves at `d`.
   */
  function LastValue<V>(ps: seq<Entry<V>>, d: string): (r: Option<V>)
    ensures r.Some? <==> d in Keys(ps)
  {
    if ps == [] then None
    else
      var init := ps[..|ps| - 1];
      assert ps == init + [ps[|ps| - 1]];
      KeysAppend(init, [ps[|ps| - 1]]);
      if ps[|ps| - 1].date == d then Some(ps[|ps| - 1].val) else LastValue(init, d)
  }

  /** `Array.from(map.values())`. */
  function Values<V>(m: seq<Entry<V>>): (r: seq<V>)
    ensures |r| == |m| && forall i :: 0 <= i < |m| ==> r[i] == m[i].val
  {
    if m == [] then [] else [m[0].val] + Values(m[1..])
  }

  /** Each date comes strictly before the next, in the order `localeCompare` gives ISO dates. */
  predicate Ascending<V>(s: seq<Entry<V>>) {
    forall i :: 0 <= i < |s| - 1 ==> Text.Lt(s[i].date, s[i + 1].date)
  }

  /** Ascending neighbours make every earlier date precede every later one. */
  lemma {:induction false} AscendingStrict<V>(s: seq<Entry<V>>, i: nat, j: nat)
    requires Ascending(s) && i < j < |s|
    ensures Text.Lt(s[i].date, s[j].date)
    decreases j - i
  {
    if i + 1 < j {
      AscendingStrict(s, i + 1, j);
      Text.LtTransitive(s[i].date, s[i + 1].date, s[j].date);
    }
  }

  /** Putting a pair in front of an ascending run whose first date it precedes. */
  lemma ConsAscending<V>(x: Entry<V>, s: seq<Entry<V>>)
    requires Ascending(s) && (s == [] || Text.Lt(x.date, s[0].date))
    ensures Ascending([x] + s) && Keys([x] + s) == {x.date} + Keys(s)
  {
    assert ([x] + s)[1..] == s;
  }

  /** The tail of an ascending run is ascending. */
  lemma AscendingTail<V>(s: seq<Entry<V>>)
    requires Ascending(s) && s != []
    ensures Ascending(s[1..])
  {
    var tail := s[1..];
    forall i | 0 <= i < |tail| - 1 ensures Text.Lt(tail[i].date, tail[i + 1].date) {
      assert tail[i] == s[i + 1] && tail[i + 1] == s[i + 2];
    }
  }

  /** The recursive case of `InsertByDate`: the first pair stays in front of the run `x` went into. */
  lemma AscendingBehind<V>(x: Entry<V>, y: Entry<V>, next: Entry<V>, rest: seq<Entry<V>>)
    requires Ascending(rest) && rest != [] && x.date != y.date && !Text.Lt(x.date, y.date)
    requires rest[0] == x || (rest[0] == next && Text.Lt(y.date, next.date))
    ensures Ascending([y] + rest)
  {
    Text.LtTotal(x.date, y.date);
    ConsAscending(y, rest);
  }

  /** Counting the pairs and keys of the recursive case of `InsertByDate`. */
  lemma CountsBehind<V>(x: Entry<V>, s: seq<Entry<V>>, rest: seq<Entry<V>>)
    requires s != [] && multiset(rest) == multiset(s[1..]) + multiset{x} && Keys(rest) == Keys(s[1..]) + {x.date}
    ensures multiset([s[0]] + rest) == multiset(s) + multiset{x}
    ensures Keys([s[0]] + rest) == Keys(s) + {x.date}
  {
    assert s == [s[0]] + s[1..];
    assert ([s[0]] + rest)[1..] == rest;
  }

  function InsertByDate<V(==)>(x: Entry<V>, s: seq<Entry<V>>): (r: seq<Entry<V>>)
    requires Ascending(s) && x.date !in Keys(s)
    ensures |r| == |s| + 1 && (r[0] == x || (s != [] && r[0] == s[0]))
    ensures Ascending(r) && multiset(r) == multiset(s) + multiset{x}
    ensures Keys(r) == Keys(s) + {x.date}
  {
    if s == [] || Text.Lt(x.date, s[0].date) then
      ConsAscending(x, s);
      [x] + s
    else
      AscendingTail(s);
      var rest := InsertByDate(x, s[1..]);
      var next := if |s| > 1 then s[1] else x;
      AscendingBehind(x, s[0], next, rest);
      CountsBehind(x, s, rest);
      [s[0]] + rest
  }

  /** `.sort((a, b) => a.date.localeCompare(b.date))` over pairs with distinct dates. */
  function SortByDate<V(==)>(m: seq<Entry<V>>): (r: seq<Entry<V>>)
    requires Distinct(m)
    ensures Ascending(r) && multiset(r) == multiset(m) && Keys(r) == Keys(m)
  {
    if m == [] then []
    else
      assert m == [m[0]] + m[1..];
      InsertByDate(m[0], SortByDate(m[1..]))
  }
}
