/**
 * The bounded least-recently-used cache the persistent engine keeps in front
 * of its tree (`lru::LruCache<String, String>`).  Its entries are kept as a
 * sequence ordered by recency: index 0 is the least recently used entry, the
 * last index the most recently used one.
 */
module Lru {
  import opened Types

  datatype Entry = Entry(key: string, value: string)

  /** No key occurs twice in the cache. */
  ghost predicate DistinctKeys(es: seq<Entry>) {
    forall i, j :: 0 <= i < j < |es| ==> es[i].key != es[j].key
  }

  /** Position of the entry for `k`, or -1 when `k` is not cached. */
  function IndexOf(es: seq<Entry>, k: string): (i: int)
    ensures -1 <= i < |es|
    ensures 0 <= i ==> es[i].key == k
    ensures i < 0 ==> forall j :: 0 <= j < |es| ==> es[j].key != k
  {
    if |es| == 0 then -1
    else if es[0].key == k then 0
    else
      var j := IndexOf(es[1..], k);
      if j < 0 then -1 else j + 1
  }

  /** The value cached for `k`, without touching recency. */
  function Lookup(es: seq<Entry>, k: string): Option<string> {
    var i := IndexOf(es, k);
    if i < 0 then None else Some(es[i].value)
  }

  /** With distinct keys, `Lookup` finds exactly the entries that are present. */
  lemma LookupIsMembership(es: seq<Entry>, k: string, v: string)
    requires DistinctKeys(es)
    ensures Lookup(es, k) == Some(v) <==> Entry(k, v) in es
  {
    if Entry(k, v) in es {
      var j :| 0 <= j < |es| && es[j] == Entry(k, v);
      var i := IndexOf(es, k);
      assert i == j;
    }
  }

  /** With distinct keys, `IndexOf` finds the position of each entry's own key. */
  lemma {:induction false} IndexOfAt(es: seq<Entry>, x: int)
    requires DistinctKeys(es) && 0 <= x < |es|
    ensures IndexOf(es, es[x].key) == x
  {
    var i := IndexOf(es, es[x].key);
    assert i >= 0 ==> es[i].key == es[x].key;
  }

  /** The cache with the entry for `k` taken out; the others keep their recency order. */
  function Without(es: seq<Entry>, k: string): (r: seq<Entry>)
    requires DistinctKeys(es)
    ensures DistinctKeys(r)
    ensures forall e :: e in r <==> e in es && e.key != k
    ensures |r| == if IndexOf(es, k) < 0 then |es| else |es| - 1
    ensures forall a, b :: 0 <= a < b < |es| && es[a].key != k && es[b].key != k ==>
              0 <= IndexOf(r, es[a].key) < IndexOf(r, es[b].key)
  {
    var i := IndexOf(es, k);
    var r := if i < 0 then es else es[..i] + es[i + 1..];
    assert forall a :: 0 <= a < |r| ==> r[a] == es[if i < 0 || a < i then a else a + 1];
    assert DistinctKeys(r);
    forall a, b | 0 <= a < b < |es| && es[a].key != k && es[b].key != k
      ensures 0 <= IndexOf(r, es[a].key) < IndexOf(r, es[b].key)
    {
      var a' := if i < 0 || a < i then a else a - 1;
      var b' := if i < 0 || b < i then b else b - 1;
      assert a != i && b != i;
      assert r[a'] == es[a] && r[b'] == es[b];
      IndexOfAt(r, a');
      IndexOfAt(r, b');
    }
    r
  }

  /**
   * The entries after `put(k, v)`: a cached `k` is replaced, otherwise a full
   * cache first drops its least recently used entry; either way `(k, v)`
   * becomes the most recently used entry.
   */
  function Admit(es: seq<Entry>, cap: nat, k: string, v: string): (r: seq<Entry>)
    requires DistinctKeys(es) && 0 < cap && |es| <= cap
    ensures DistinctKeys(r) && 0 < |r| <= cap
    ensures r[|r| - 1] == Entry(k, v)
    ensures forall e :: e in r ==> e == Entry(k, v) || (e in es && e.key != k)
    ensures forall e :: e in es && e.key != k ==>
              e in r || (e == es[0] && IndexOf(es, k) < 0 && |es| == cap)
  {
    var kept := Kept(es, cap, k);
    AppendFresh(kept, k, v);
    kept + [Entry(k, v)]
  }

  /** The entries `put(k, _)` keeps besides the new one. */
  function Kept(es: seq<Entry>, cap: nat, k: string): (kept: seq<Entry>)
    requires DistinctKeys(es) && 0 < cap && |es| <= cap
    ensures DistinctKeys(kept) && |kept| < cap
    ensures forall e :: e in kept ==> e in es && e.key != k
    ensures forall e :: e in es && e.key != k ==>
              e in kept || (e == es[0] && IndexOf(es, k) < 0 && |es| == cap)
  {
    if IndexOf(es, k) >= 0 then Without(es, k)
    else if |es| == cap then
      assert forall e :: e in es && e != es[0] ==> e in es[1..];
      es[1..]
    else es
  }

  lemma AppendFresh(kept: seq<Entry>, k: string, v: string)
    requires DistinctKeys(kept)
    requires forall e :: e in kept ==> e.key != k
    ensures DistinctKeys(kept + [Entry(k, v)])
  {
    var r := kept + [Entry(k, v)];
    forall i, j | 0 <= i < j < |r| ensures r[i].key != r[j].key {
      if j == |r| - 1 {
        assert r[i] in kept;
      }
    }
  }

  /** The three shapes of `put`: overwrite-and-promote, plain insert, evict-then-insert. */
  lemma AdmitCases(es: seq<Entry>, cap: nat, k: string, v: string)
    requires DistinctKeys(es) && 0 < cap && |es| <= cap
    ensures IndexOf(es, k) >= 0 ==> Admit(es, cap, k, v) == Without(es, k) + [Entry(k, v)]
    ensures IndexOf(es, k) < 0 && |es| < cap ==> Admit(es, cap, k, v) == es + [Entry(k, v)]
    ensures IndexOf(es, k) < 0 && |es| == cap ==> Admit(es, cap, k, v) == es[1..] + [Entry(k, v)]
  {
  }

  /** After `put(k, v)` the cache answers `v` for `k`. */
  lemma AdmitLookup(es: seq<Entry>, cap: nat, k: string, v: string)
    requires DistinctKeys(es) && 0 < cap && |es| <= cap
    ensures Lookup(Admit(es, cap, k, v), k) == Some(v)
  {
    LookupIsMembership(Admit(es, cap, k, v), k, v);
  }

  /**
   * Inserting a new key into a full cache evicts exactly the least recently
   * used entry: its key is no longer cached, and every other key keeps its value.
   */
  lemma AdmitEvictsLeastRecent(es: seq<Entry>, cap: nat, k: string, v: string, other: string)
    requires DistinctKeys(es) && 0 < cap && |es| == cap
    requires Lookup(es, k) == None
    requires other != k
    ensures other == es[0].key ==> Lookup(Admit(es, cap, k, v), other) == None
    ensures other != es[0].key ==> Lookup(Admit(es, cap, k, v), other) == Lookup(es, other)
  {
    var r := Admit(es, cap, k, v);
    assert r == es[1..] + [Entry(k, v)];
    if other != es[0].key {
      var w := Lookup(es, other);
      if w.Some? {
        LookupIsMembership(es, other, w.value);
        LookupIsMembership(r, other, w.value);
      } else {
        var i := IndexOf(r, other);
        if i >= 0 {
          LookupIsMembership(es, other, r[i].value);
        }
      }
    }
  }

  /** A bounded LRU cache of string entries (capacity fixed at construction). */
  class LruCache {
    var entries: seq<Entry>
    const capacity: nat

    ghost predicate Valid()
      reads this
    {
      0 < capacity && |entries| <= capacity && DistinctKeys(entries)
    }

    /** `LruCache::new(cap)`, whose capacity is a `NonZeroUsize`. */
    constructor (cap: nat)
      requires cap > 0
      ensures Valid()
      ensures capacity == cap && entries == []
    {
      capacity := cap;
      entries := [];
    }

    /** `get`: a hit returns the value and makes the entry the most recently used. */
    method Get(k: string) returns (r: Option<string>)
      requires Valid()
      modifies this
      ensures Valid()
      ensures r == Lookup(old(entries), k)
      ensures entries == if r.Some? then Without(old(entries), k) + [Entry(k, r.value)] else old(entries)
    {
      var i := IndexOf(entries, k);
      if i < 0 {
        r := None;
      } else {
        var e := entries[i];
        r := Some(e.value);
        entries := Without(entries, k) + [e];
      }
    }

    /** `put`: insert or overwrite, evicting the least recently used entry when full. */
    method Put(k: string, v: string)
      requires Valid()
      modifies this
      ensures Valid()
      ensures entries == Admit(old(entries), capacity, k, v)
    {
      if IndexOf(entries, k) >= 0 {
        entries := Without(entries, k) + [Entry(k, v)];
      } else if |entries| == capacity {
        entries := entries[1..] + [Entry(k, v)];
      } else {
        entries := entries + [Entry(k, v)];
      }
    }

    /** `pop`: remove the entry for `k`, returning its value if it was cached. */
    method Pop(k: string) returns (r: Option<string>)
      requires Valid()
      modifies this
      ensures Valid()
      ensures r == Lookup(old(entries), k)
      ensures entries == Without(old(entries), k)
    {
      r := Lookup(entries, k);
      entries := Without(entries, k);
    }

    /** `clear`: drop every entry; the capacity stays. */
    method Clear()
      requires Valid()
      modifies this
      ensures Valid()
      ensures entries == []
    {
      entries := [];
    }

    /** `len`: the number of cached entries, never more than the capacity. */
    method Len() returns (n: nat)
      requires Valid()
      ensures n == |entries| && n <= capacity
    {
      n := |entries|;
    }
  }

  /**
   * Eviction order with capacity 2: after re-reading "a", inserting a third
   * key evicts "b", the least recently used, and keeps "a".
   */
  method EvictionScenario() {
    var c := new LruCache(2);
    c.Put("a", "1");
    assert c.entries == [Entry("a", "1")];
    assert "a" != "b" && "a" != "c" && "b" != "c";
    assert IndexOf(c.entries, "b") == -1;
    AdmitCases(c.entries, 2, "b", "2");
    c.Put("b", "2");
    assert c.entries == [Entry("a", "1"), Entry("b", "2")];
    var hit := c.Get("a");
    assert hit == Some("1");
    assert c.entries == [Entry("b", "2"), Entry("a", "1")];
    assert IndexOf(c.entries, "c") == -1;
    AdmitEvictsLeastRecent(c.entries, 2, "c", "3", "b");
    AdmitEvictsLeastRecent(c.entries, 2, "c", "3", "a");
    c.Put("c", "3");
    var b := c.Get("b");
    assert b == None;
    var a := c.Get("a");
    assert a == Some("1");
  }
}
