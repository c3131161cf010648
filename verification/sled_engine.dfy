/**
 * The persistent storage engine: a durable key/value tree (the source of
 * truth) fronted by a bounded LRU cache, read-through on `get` and
 * write-through on `set`.  The tree is modelled as a map; reopening the
 * database is modelled as building a new engine over the same map.
 */
module SledStore {
  import opened Types
  import opened Decimal
  import opened Lru

  /** Tuning options of the engine; only `cacheSize` is used when opening. */
  datatype SledConfig = SledConfig(
    compression: bool,
    cacheSize: nat,        // cache capacity in entries
    flushIntervalMs: nat,
    maxDbSize: nat)        // bytes

  /** `SledConfig::default()`; its capacity always passes the construction check. */
  function DefaultSledConfig(): (c: SledConfig)
    ensures CacheCapacity(c).Ok?
  {
    SledConfig(true, 1000, 1000, 1024 * 1024 * 1024)
  }

  const CACHE_SIZE_ERROR := "Cache size must be greater than 0"

  /** `NonZeroUsize::new(config.cache_size).ok_or_else(..)` */
  function CacheCapacity(config: SledConfig): (r: Result<nat, string>)
    ensures r.Ok? <==> config.cacheSize > 0
    ensures r.Ok? ==> r.value == config.cacheSize && r.value > 0
    ensures r.Err? ==> r.error == CACHE_SIZE_ERROR
  {
    if config.cacheSize == 0 then Err(CACHE_SIZE_ERROR) else Ok(config.cacheSize)
  }

  /** Every cached entry agrees with the tree. */
  ghost predicate Coherent(es: seq<Entry>, tree: map<string, string>) {
    forall e :: e in es ==> e.key in tree && tree[e.key] == e.value
  }

  /** The cache after a read-through `get(k)`: a present key becomes most recently used. */
  ghost function ReadThrough(es: seq<Entry>, cap: nat, tree: map<string, string>, k: string): (r: seq<Entry>)
    requires DistinctKeys(es) && 0 < cap && |es| <= cap
    ensures DistinctKeys(r) && |r| <= cap
  {
    if k in tree then Admit(es, cap, k, tree[k]) else es
  }

  /** `value.parse::<i64>().unwrap_or(0)`, and 0 for a missing value. */
  function CounterOf(v: Option<string>): (n: int)
    ensures InI64(n)
    ensures v.Some? && ParseI64(v.value).Some? ==> n == ParseI64(v.value).value
    ensures v.None? || ParseI64(v.value).None? ==> n == 0
  {
    match v
    case None => 0
    case Some(s) => ParseI64(s).GetOr(0)
  }

  class SledEngine {
    var tree: map<string, string>
    const cache: LruCache
    const config: SledConfig

    /** Cache invariants: bounded by the configured capacity and coherent with the tree. */
    ghost predicate Valid()
      reads this, cache
    {
      && cache.Valid()
      && cache.capacity == config.cacheSize
      && Coherent(cache.entries, tree)
    }

    /** The value the tree holds for `k`. */
    function Stored(k: string): (r: Option<string>)
      reads this
      ensures r.Some? <==> k in tree
      ensures r.Some? ==> r.value == tree[k]
    {
      if k in tree then Some(tree[k]) else None
    }

    constructor (tree: map<string, string>, config: SledConfig)
      requires config.cacheSize > 0
      ensures Valid() && fresh(cache)
      ensures this.tree == tree && this.config == config && cache.entries == []
    {
      this.tree := tree;
      this.config := config;
      cache := new LruCache(config.cacheSize);
    }

    /** `SledEngine::with_config`: fails only when the cache capacity is 0. */
    static method WithConfig(tree: map<string, string>, config: SledConfig) returns (r: Result<SledEngine, string>)
      ensures r.Err? <==> config.cacheSize == 0
      ensures r.Err? ==> r.error == CACHE_SIZE_ERROR
      ensures r.Ok? ==> fresh(r.value) && fresh(r.value.cache) && r.value.Valid()
      ensures r.Ok? ==> r.value.tree == tree && r.value.config == config && r.value.cache.entries == []
    {
      match CacheCapacity(config)
      case Err(e) =>
        r := Err(e);
      case Ok(_) =>
        var engine := new SledEngine(tree, config);
        r := Ok(engine);
    }

    /** `SledEngine::new`: the default configuration, which never fails. */
    static method New(tree: map<string, string>) returns (r: Result<SledEngine, string>)
      ensures r.Ok?
      ensures fresh(r.value) && fresh(r.value.cache) && r.value.Valid()
      ensures r.value.tree == tree && r.value.config == DefaultSledConfig() && r.value.cache.entries == []
    {
      r := WithConfig(tree, DefaultSledConfig());
    }

    /** Read-through `get`: answers what the tree holds and leaves it cached as most recently used. */
    method Get(k: string) returns (r: Option<string>)
      requires Valid()
      modifies cache
      ensures Valid()
      ensures r == Stored(k)
      ensures cache.entries == ReadThrough(old(cache.entries), cache.capacity, tree, k)
      ensures r.Some? ==> Lookup(cache.entries, k) == r
    {
      var hit := cache.Get(k);
      if hit.Some? {
        LookupIsMembership(old(cache.entries), k, hit.value);
        r := hit;
        return;
      }
      if k in tree {
        var v := tree[k];
        cache.Put(k, v);
        AdmitLookup(old(cache.entries), cache.capacity, k, v);
        r := Some(v);
      } else {
        r := None;
      }
    }

    /** Write-through `set`: cache first, then the tree. */
    method Set(k: string, v: string)
      requires Valid()
      modifies this, cache
      ensures Valid()
      ensures tree == old(tree)[k := v]
      ensures cache.entries == Admit(old(cache.entries), cache.capacity, k, v)
      ensures Lookup(cache.entries, k) == Some(v)
    {
      cache.Put(k, v);
      tree := tree[k := v];
      AdmitLookup(old(cache.entries), cache.capacity, k, v);
    }

    /** `delete`: true iff the tree held `k`; afterwards neither the cache nor the tree holds it. */
    method Delete(k: string) returns (existed: bool)
      requires Valid()
      modifies this, cache
      ensures Valid()
      ensures existed == (k in old(tree))
      ensures tree == old(tree) - {k}
      ensures cache.entries == Without(old(cache.entries), k)
      ensures Lookup(cache.entries, k) == None
    {
      var _ := cache.Pop(k);
      existed := k in tree;
      tree := tree - {k};
    }

    /** `keys`: every key of the tree exactly once (in no particular order). */
    method Keys() returns (ks: seq<string>)
      ensures forall k :: k in ks <==> k in tree
      ensures forall i, j :: 0 <= i < j < |ks| ==> ks[i] != ks[j]
      ensures |ks| == |tree|
    {
      ks := [];
      var rest := tree.Keys;
      while rest != {}
        invariant rest <= tree.Keys
        invariant forall k :: k in ks <==> k in tree && k !in rest
        invariant forall i, j :: 0 <= i < j < |ks| ==> ks[i] != ks[j]
        invariant |ks| + |rest| == |tree|
        decreases rest
      {
        var k :| k in rest;
        ks := ks + [k];
        rest := rest - {k};
      }
    }

    /** `len`: the number of records in the tree. */
    method Len() returns (n: nat)
      ensures n == |tree|
    {
      n := |tree|;
    }

    /** `is_empty`: the tree holds no record. */
    method IsEmpty() returns (b: bool)
      ensures b <==> tree == map[]
    {
      b := |tree| == 0;
    }

    /** `count_keys`: the same count as `len`. */
    method CountKeys() returns (n: nat)
      ensures n == |tree|
    {
      n := Len();
    }

    /**
     * `increment`: a missing or unparsable value counts as 0 and the amount
     * defaults to 1; the sum is stored as decimal text and returned.
     */
    method Increment(k: string, amount: Option<int>) returns (r: int)
      requires Valid()
      requires amount.Some? ==> InI64(amount.value)
      requires InI64(CounterOf(Stored(k)) + amount.GetOr(1))
      modifies this, cache
      ensures Valid()
      ensures r == CounterOf(old(Stored(k))) + amount.GetOr(1)
      ensures tree == old(tree)[k := ShowInt(r)]
      ensures ParseI64(tree[k]) == Some(r)
      ensures cache.entries == Admit(ReadThrough(old(cache.entries), cache.capacity, old(tree), k), cache.capacity, k, ShowInt(r))
    {
      var step := amount.GetOr(1);
      var current := Get(k);
      var value := CounterOf(current);
      r := value + step;
      Set(k, ShowInt(r));
      ParseShowRoundTrip(r);
    }

    /** `decrement`: as `increment`, subtracting the amount. */
    method Decrement(k: string, amount: Option<int>) returns (r: int)
      requires Valid()
      requires amount.Some? ==> InI64(amount.value)
      requires InI64(CounterOf(Stored(k)) - amount.GetOr(1))
      modifies this, cache
      ensures Valid()
      ensures r == CounterOf(old(Stored(k))) - amount.GetOr(1)
      ensures tree == old(tree)[k := ShowInt(r)]
      ensures ParseI64(tree[k]) == Some(r)
      ensures cache.entries == Admit(ReadThrough(old(cache.entries), cache.capacity, old(tree), k), cache.capacity, k, ShowInt(r))
    {
      var step := amount.GetOr(1);
      var current := Get(k);
      var value := CounterOf(current);
      r := value - step;
      Set(k, ShowInt(r));
      ParseShowRoundTrip(r);
    }

    /** `append`: a missing value counts as empty text; stores and returns current + s. */
    method Append(k: string, s: string) returns (r: string)
      requires Valid()
      modifies this, cache
      ensures Valid()
      ensures r == old(Stored(k)).GetOr("") + s
      ensures tree == old(tree)[k := r]
      ensures cache.entries == Admit(ReadThrough(old(cache.entries), cache.capacity, old(tree), k), cache.capacity, k, r)
    {
      var current := Get(k);
      r := current.GetOr("") + s;
      Set(k, r);
    }

    /** `prepend`: a missing value counts as empty text; stores and returns s + current. */
    method Prepend(k: string, s: string) returns (r: string)
      requires Valid()
      modifies this, cache
      ensures Valid()
      ensures r == s + old(Stored(k)).GetOr("")
      ensures tree == old(tree)[k := r]
      ensures cache.entries == Admit(ReadThrough(old(cache.entries), cache.capacity, old(tree), k), cache.capacity, k, r)
    {
      var current := Get(k);
      r := s + current.GetOr("");
      Set(k, r);
    }

    /** `truncate`: clears the cache, then the tree. */
    method Truncate()
      requires Valid()
      modifies this, cache
      ensures Valid()
      ensures tree == map[] && cache.entries == []
    {
      cache.Clear();
      tree := map[];
    }

    /** `sync`: flushing is disk I/O, outside the model; it always succeeds here. */
    method Sync() returns (ok: bool)
      ensures ok
    {
      ok := true;
    }
  }

  /** `set(k, v)` followed by `get(k)` answers `v`, on any engine state. */
  method SetThenGet(e: SledEngine, k: string, v: string) returns (r: Option<string>)
    requires e.Valid()
    modifies e, e.cache
    ensures e.Valid()
    ensures r == Some(v)
  {
    e.Set(k, v);
    r := e.Get(k);
  }

  /** A second `delete(k)` answers false, and `get(k)` then finds nothing. */
  method DeleteTwice(e: SledEngine, k: string) returns (first: bool, second: bool, after: Option<string>)
    requires e.Valid()
    modifies e, e.cache
    ensures e.Valid()
    ensures first == (k in old(e.tree)) && !second && after == None
    ensures e.tree == old(e.tree) - {k}
  {
    first := e.Delete(k);
    second := e.Delete(k);
    after := e.Get(k);
  }

  /** Records written through one engine are read back by a new engine opened over the same tree. */
  method PersistenceScenario() {
    var r1 := SledEngine.New(map[]);
    var e1 := r1.value;
    e1.Set("key1", "value1");
    e1.Set("key2", "value2");
    var r2 := SledEngine.New(e1.tree);
    var e2 := r2.value;
    var v1 := e2.Get("key1");
    var v2 := e2.Get("key2");
    assert v1 == Some("value1") && v2 == Some("value2");
  }

  /** Set, overwrite, then delete one key. */
  method BasicOperationsScenario() {
    var r := SledEngine.New(map[]);
    var e := r.value;
    e.Set("key1", "value1");
    var v := e.Get("key1");
    assert v == Some("value1");
    e.Set("key1", "new_value");
    v := e.Get("key1");
    assert v == Some("new_value");
    var deleted := e.Delete("key1");
    assert deleted;
    v := e.Get("key1");
    assert v == None;
    assert e.tree == map[];
    EnumerationScenario(e);
  }

  /** Two keys written into an empty engine are enumerated and counted. */
  method EnumerationScenario(e: SledEngine)
    requires e.Valid() && e.tree == map[]
    modifies e, e.cache
  {
    e.Set("key2", "value2");
    e.Set("key3", "value3");
    assert "key2" != "key3";
    assert e.tree == map["key2" := "value2", "key3" := "value3"];
    assert |e.tree| == 2;
    var ks := e.Keys();
    assert "key2" in ks && "key3" in ks && |ks| == 2;
    var n := e.Len();
    assert n == 2;
    var empty := e.IsEmpty();
    assert !empty;
  }

  /** increment(Some(5)) from absent, increment(None), decrement(Some(2)), decrement(None): 5, 6, 4, 3. */
  method NumericScenario() {
    var r := SledEngine.New(map[]);
    var e := r.value;
    var n := e.Increment("counter", Some(5));
    assert n == 5;
    n := e.Increment("counter", None);
    assert n == 6;
    n := e.Decrement("counter", Some(2));
    assert n == 4;
    n := e.Decrement("counter", None);
    assert n == 3;
  }

  /** "Hello", append " World!", prepend "Say: ". */
  method StringScenario() {
    var r := SledEngine.New(map[]);
    var e := r.value;
    e.Set("greeting", "Hello");
    assert e.Stored("greeting").GetOr("") + " World!" == "Hello World!";
    var s := e.Append("greeting", " World!");
    assert s == "Hello World!";
    assert "Say: " + e.Stored("greeting").GetOr("") == "Say: Hello World!";
    s := e.Prepend("greeting", "Say: ");
    assert s == "Say: Hello World!";
  }

  /** Truncate leaves an empty engine. */
  method TruncateScenario() {
    var r := SledEngine.New(map[]);
    var e := r.value;
    e.Set("key1", "value1");
    e.Set("key2", "value2");
    var n := e.Len();
    assert "key1" != "key2";
    assert n == 2;
    e.Truncate();
    n := e.Len();
    var empty := e.IsEmpty();
    assert n == 0 && empty;
  }
}
