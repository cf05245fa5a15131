/**
 * The in-memory cache of the geocoding endpoints (`_CACHE`, `_CACHE_ORDER`,
 * `_cache_get` and `_cache_set` in backend/app/api/geocode.py): a map from
 * key to a timestamped payload plus a recency list, most recent first,
 * bounded by `GEOCODE_CACHE_MAX` entries and `GEOCODE_CACHE_TTL` seconds.
 *
 * `Lookup` and `Store` state each operation on values; the class runs them
 * in place and is proved to agree. The lemmas say what the two promise:
 * the map and the recency list always hold the same keys with no repeats and
 * at most `capacity` of them, a fresh store is found again, an expired entry
 * is forgotten, a hit moves its key to the front without refreshing the
 * entry's age or reordering the other keys, and a store into a
 * full cache drops the least recently used key.
 */
module GeocodeCache {
  import opened Wrappers

  /** `{"_ts": ..., "data": ...}`. */
  datatype Entry<D> = Entry(ts: real, data: D)

  /** The two module-level structures together. */
  datatype CacheState<D> = CacheState(entries: map<string, Entry<D>>, order: seq<string>)

  predicate NoDups(s: seq<string>) {
    forall i, j :: 0 <= i < j < |s| ==> s[i] != s[j]
  }

  /** The keys of a sequence, as a set. */
  function Keys(s: seq<string>): set<string> {
    set k | k in s
  }

  /** `list.remove(x)` with the `ValueError` of a missing element swallowed: drops the first occurrence. */
  function RemoveFirst(s: seq<string>, x: string): (r: seq<string>)
    ensures x in s ==> |r| == |s| - 1
    ensures x !in s ==> r == s
    ensures forall y :: y != x ==> (y in r <==> y in s)
    ensures NoDups(s) ==> NoDups(r) && x !in r
  {
    if s == [] then []
    else if s[0] == x then s[1..]
    else
      var r := [s[0]] + RemoveFirst(s[1..], x);
      assert NoDups(s) ==> s[0] !in s[1..];
      r
  }

  /** Removing the first occurrence, found at `i`, keeps the elements before and after it in order. */
  lemma {:induction false} RemoveFirstAt(s: seq<string>, x: string, i: nat)
    requires i < |s| && s[i] == x && x !in s[..i]
    ensures RemoveFirst(s, x) == s[..i] + s[i + 1..]
  {
    if i > 0 {
      assert s[0] in s[..i];
      assert s[1..][..i - 1] == s[1..i];
      RemoveFirstAt(s[1..], x, i - 1);
      assert s[..i] == [s[0]] + s[1..][..i - 1];
      assert s[1..][i..] == s[i + 1..];
    }
  }

  /** The first `n` elements, or all of them when there are fewer. */
  function Take(s: seq<string>, n: nat): (r: seq<string>)
    ensures |r| <= n && |r| <= |s| && r == s[..|r|]
    ensures |s| <= n ==> r == s
  {
    if |s| <= n then s else s[..n]
  }

  /** The invariant both structures keep: the same keys, no key twice, at most `capacity` keys. */
  ghost predicate WellFormed<D>(st: CacheState<D>, capacity: int) {
    NoDups(st.order) &&
    (forall k :: k in st.entries <==> k in st.order) &&
    |st.order| <= capacity
  }

  /**
   * `_cache_get`: a missing key is a miss; an entry older than `ttl` is
   * removed from both structures and is a miss; otherwise the key moves to
   * the front of the recency list and the payload is returned. Entries
   * are dictionaries and so always truthy: only presence matters.
   */
  function Lookup<D>(st: CacheState<D>, ttl: real, key: string, now: real): (r: (Option<D>, CacheState<D>))
    ensures r.0.Some? <==> key in st.entries && now - st.entries[key].ts <= ttl
    ensures r.0.Some? ==> r.0.value == st.entries[key].data && r.1.entries == st.entries && r.1.order != [] && r.1.order[0] == key
    ensures key in r.1.entries <==> r.0.Some?
    ensures forall k :: k != key ==> (k in r.1.entries <==> k in st.entries) && (k in r.1.order <==> k in st.order)
  {
    if key !in st.entries then (None, st)
    else
      var v := st.entries[key];
      if now - v.ts > ttl then (None, CacheState(st.entries - {key}, RemoveFirst(st.order, key)))
      else (Some(v.data), CacheState(st.entries, [key] + RemoveFirst(st.order, key)))
  }

  /** The eviction loop of `_cache_set`: pop the least recent key while the list is too long. */
  function Evict<D>(entries: map<string, Entry<D>>, order: seq<string>, capacity: nat): CacheState<D>
    decreases |order|
  {
    if |order| <= capacity then CacheState(entries, order)
    else
      var last := order[|order| - 1];
      Evict(entries - {last}, order[..|order| - 1], capacity)
  }

  /** `_cache_set`: record the payload with the current time, move the key to the front, evict. */
  function Store<D>(st: CacheState<D>, capacity: nat, key: string, data: D, now: real): (r: CacheState<D>)
    ensures |r.order| <= capacity
    ensures capacity >= 1 ==> r.order != [] && r.order[0] == key
    ensures forall k :: k in r.entries && k != key ==> k in st.entries && r.entries[k] == st.entries[k]
  {
    var e := st.entries[key := Entry(now, data)];
    var front := [key] + RemoveFirst(st.order, key);
    EvictKeepsFront(e, front, capacity);
    Evict(e, front, capacity)
  }

  /** Eviction keeps the `capacity` most recent keys and forgets exactly the entries of the others. */
  lemma {:induction false} EvictKeepsFront<D>(entries: map<string, Entry<D>>, order: seq<string>, capacity: nat)
    ensures var n := if |order| <= capacity then |order| else capacity;
      Evict(entries, order, capacity) == CacheState(entries - Keys(order[n..]), order[..n])
    decreases |order|
  {
    var n := if |order| <= capacity then |order| else capacity;
    if |order| <= capacity {
      assert order[n..] == [];
      assert entries - Keys(order[n..]) == entries;
    } else {
      var last := order[|order| - 1];
      var init := order[..|order| - 1];
      EvictKeepsFront(entries - {last}, init, capacity);
      assert init[..n] == order[..n];
      assert Keys(order[n..]) == Keys(init[n..]) + {last} by {
        assert order[n..] == init[n..] + [last];
      }
      assert (entries - {last}) - Keys(init[n..]) == entries - Keys(order[n..]);
    }
  }

  /** In a list without repeats, a key of the first `n` never shows up after them. */
  lemma SplitKeys(s: seq<string>, n: nat)
    requires NoDups(s) && n <= |s|
    ensures forall k :: k in s[..n] <==> k in s && k !in s[n..]
  {
    forall k | k in s
      ensures k in s[..n] <==> k !in s[n..]
    {
      var i :| 0 <= i < |s| && s[i] == k;
      if i < n {
        assert s[..n][i] == k;
        forall j | 0 <= j < |s| - n
          ensures s[n..][j] != k
        {
          assert s[n..][j] == s[n + j];
        }
      } else {
        assert s[n..][i - n] == k;
        forall j | 0 <= j < n
          ensures s[..n][j] != k
        {
          assert s[..n][j] == s[j];
        }
      }
    }
  }

  /** A store leaves the newly stored key at the front, with its payload, and keeps the recency order of the rest. */
  lemma StoreShape<D>(st: CacheState<D>, capacity: nat, key: string, data: D, now: real)
    requires NoDups(st.order) && capacity >= 1
    ensures var front := [key] + RemoveFirst(st.order, key);
      var r := Store(st, capacity, key, data, now);
      r.order == Take(front, capacity) && r.order[0] == key &&
      key in r.entries && r.entries[key] == Entry(now, data)
  {
    var front := [key] + RemoveFirst(st.order, key);
    var n := if |front| <= capacity then |front| else capacity;
    EvictKeepsFront(st.entries[key := Entry(now, data)], front, capacity);
    assert front[n..] == RemoveFirst(st.order, key)[n - 1..];
    assert key !in Keys(front[n..]);
  }

  /** The store keeps the invariant. */
  lemma StoreKeepsWellFormed<D>(st: CacheState<D>, capacity: nat, key: string, data: D, now: real)
    requires WellFormed(st, capacity)
    ensures WellFormed(Store(st, capacity, key, data, now), capacity)
  {
    var front := [key] + RemoveFirst(st.order, key);
    var e := st.entries[key := Entry(now, data)];
    assert NoDups(front) by {
      assert key !in RemoveFirst(st.order, key);
    }
    assert forall k :: k in e <==> k in front;
    EvictKeepsWellFormed(e, front, capacity);
  }

  /** Eviction from a repeat-free list holding exactly the keys of the map leaves a well-formed cache. */
  lemma EvictKeepsWellFormed<D>(e: map<string, Entry<D>>, front: seq<string>, capacity: nat)
    requires NoDups(front) && forall k :: k in e <==> k in front
    ensures WellFormed(Evict(e, front, capacity), capacity)
  {
    var n := if |front| <= capacity then |front| else capacity;
    EvictKeepsFront(e, front, capacity);
    SplitKeys(front, n);
    assert NoDups(front[..n]);
  }

  /** A lookup keeps the invariant. */
  lemma LookupKeepsWellFormed<D>(st: CacheState<D>, capacity: int, ttl: real, key: string, now: real)
    requires WellFormed(st, capacity)
    ensures WellFormed(Lookup(st, ttl, key, now).1, capacity)
  {
    if key in st.entries {
      assert key in st.order;
    }
  }

  /** A key stored with room for at least one entry is found again until it is older than the TTL. */
  lemma FreshStoreHits<D>(st: CacheState<D>, capacity: nat, ttl: real, key: string, data: D, now: real, later: real)
    requires NoDups(st.order) && capacity >= 1 && later - now <= ttl
    ensures var (r, st2) := Lookup(Store(st, capacity, key, data, now), ttl, key, later);
      r == Some(data) && st2.order[0] == key
  {
    StoreShape(st, capacity, key, data, now);
  }

  /** An entry older than the TTL is a miss and is removed from both structures. */
  lemma ExpiredIsForgotten<D>(st: CacheState<D>, capacity: int, ttl: real, key: string, now: real)
    requires WellFormed(st, capacity)
    requires key in st.entries && now - st.entries[key].ts > ttl
    ensures var (r, st2) := Lookup(st, ttl, key, now);
      r == None && key !in st2.entries && key !in st2.order
  {
  }

  /**
   * A hit moves the key to the front but keeps its original timestamp, so
   * an entry read over and over still expires `ttl` seconds after it was stored.
   */
  lemma HitKeepsTimestamp<D>(st: CacheState<D>, ttl: real, key: string, now: real)
    requires key in st.entries && now - st.entries[key].ts <= ttl
    ensures var (r, st2) := Lookup(st, ttl, key, now);
      r == Some(st.entries[key].data) && st2.entries == st.entries && st2.order[0] == key
  {
  }

  /**
   * Storing a new key into a full cache evicts exactly the least recently
   * used key, the last of the recency list.
   */
  lemma FullStoreEvictsLeastRecent<D>(st: CacheState<D>, capacity: nat, key: string, data: D, now: real)
    requires WellFormed(st, capacity) && |st.order| == capacity >= 1
    requires key !in st.entries
    ensures var r := Store(st, capacity, key, data, now);
      var lru := st.order[capacity - 1];
      r.order == [key] + st.order[..capacity - 1] &&
      lru !in r.entries &&
      (forall k :: k in st.entries && k != lru ==> k in r.entries && r.entries[k] == st.entries[k])
  {
    FullStoreShape(st, capacity, key, data, now);
  }

  /**
   * A fresh hit on the key at position `i` of a repeat-free recency list
   * moves it to the front and keeps every other key in its old order.
   */
  lemma HitMovesToFront<D>(st: CacheState<D>, ttl: real, key: string, now: real, i: nat)
    requires NoDups(st.order) && i < |st.order| && st.order[i] == key
    requires key in st.entries && now - st.entries[key].ts <= ttl
    ensures Lookup(st, ttl, key, now).1.order == [key] + st.order[..i] + st.order[i + 1..]
  {
    RemoveFirstAt(st.order, key, i);
  }

  /** A store of a new key into a list of `capacity` keys drops the last one. */
  lemma FullStoreShape<D>(st: CacheState<D>, capacity: nat, key: string, data: D, now: real)
    requires |st.order| == capacity >= 1 && key !in st.order
    ensures Store(st, capacity, key, data, now)
         == CacheState(st.entries[key := Entry(now, data)] - {st.order[capacity - 1]}, [key] + st.order[..capacity - 1])
  {
    var front := [key] + st.order;
    var e := st.entries[key := Entry(now, data)];
    var lru := st.order[capacity - 1];
    assert RemoveFirst(st.order, key) == st.order;
    EvictKeepsFront(e, front, capacity);
    assert front[capacity..] == [lru];
    assert Keys(front[capacity..]) == {lru};
    assert front[..capacity] == [key] + st.order[..capacity - 1];
  }

  /** The cache object with its two mutable structures. */
  class LruCache<D> {
    const capacity: int
    const ttl: real
    var entries: map<string, Entry<D>>
    var order: seq<string>

    function State(): CacheState<D>
      reads this
    {
      CacheState(entries, order)
    }

    ghost predicate Valid()
      reads this
    {
      capacity >= 0 && WellFormed(State(), capacity)
    }

    /** A negative `GEOCODE_CACHE_MAX` is refused here; see the README. */
    constructor (capacity: int, ttl: real)
      requires capacity >= 0
      ensures this.capacity == capacity && this.ttl == ttl
      ensures State() == CacheState(map[], []) && Valid()
    {
      this.capacity := capacity;
      this.ttl := ttl;
      entries := map[];
      order := [];
    }

    /** `_cache_get(key)` at clock reading `now`. */
    method Get(key: string, now: real) returns (r: Option<D>)
      requires Valid()
      modifies this
      ensures (r, State()) == Lookup(old(State()), ttl, key, now)
      ensures Valid()
    {
      LookupKeepsWellFormed(State(), capacity, ttl, key, now);
      if key !in entries {
        return None;
      }
      var v := entries[key];
      if now - v.ts > ttl {
        entries := entries - {key};
        order := RemoveFirst(order, key);
        return None;
      }
      order := [key] + RemoveFirst(order, key);
      return Some(v.data);
    }

    /** `_cache_set(key, data)` at clock reading `now`. */
    method Set(key: string, data: D, now: real)
      requires Valid()
      modifies this
      ensures State() == Store(old(State()), capacity, key, data, now)
      ensures Valid()
    {
      StoreKeepsWellFormed(State(), capacity, key, data, now);
      ghost var goal := Store(State(), capacity, key, data, now);
      entries := entries[key := Entry(now, data)];
      order := [key] + RemoveFirst(order, key);
      while |order| > capacity
        invariant Evict(entries, order, capacity) == goal
        decreases |order|
      {
        var k := order[|order| - 1];
        order := order[..|order| - 1];
        entries := entries - {k};
      }
    }
  }
}
