# MerkleKV storage core, modelled in Dafny

This project models the storage layer of the MerkleKV key-value server:

- the persistent engine (`SledEngine`). It keeps a durable key/value tree as the source of truth. In front of the tree sits a bounded least-recently-used cache. Reads go through the cache (read-through) and writes update both the cache and the tree (write-through);
- the engine-kind names and defaults of the configuration (`StorageEngine`, `StorageConfig`, `Config`);
- the engine factory, which turns a configuration or an engine name into a backend description.

Files:

- `types.dfy` (module `Types`): `Option` and `Result`.
- `decimal.dfy` (module `Decimal`): `i64::to_string` and `str::parse::<i64>`, which the counter operators use, with their round trip.
- `lru.dfy` (module `Lru`): the bounded LRU cache, as a class `LruCache`. Its entries are a sequence ordered from least to most recently used, and its capacity is fixed at construction.
- `sled_engine.dfy` (module `SledStore`): `SledConfig` and the class `SledEngine`. The class holds `tree: map<string, string>` and a `LruCache`. `Valid()` is the engine invariant: the cache is within its capacity, has distinct keys, and every cached entry equals the tree's value for its key. Every operation preserves it. The module ends with client methods that replay the source's unit tests.
- `config.dfy` (module `Config`): engine-kind parsing and printing, and the configuration defaults.
- `factory.dfy` (module `Factory`): the two factory entry points. Their result is a `Backend` datatype (`KvBackend`, `RwLockBackend`, `SledBackend` with its options), not a constructed engine.

Two facts about the code shape the model:

- Only `memory`, `kv`, `rwlock` and `sled` are accepted as engine names (src/config.rs:52-56, src/store/factory.rs:43-58).
- `SledEngine::with_config` keeps compression, flush interval and size bound in its config but reads only `cache_size` (src/store/sled_engine.rs:109-130). In the model they are likewise carried in `SledConfig` and read by nothing.

## Model

| member | source | states |
|---|---|---|
| `Decimal.ShowNat` | src/store/sled_engine.rs:318 | The digits written for a natural number are non-empty, all decimal, and have no leading zero. |
| `Decimal.ShowInt` | src/store/sled_engine.rs:318 | `i64::to_string` output is non-empty, starts with `-` exactly for negative numbers, and is otherwise all digits. |
| `Decimal.ParseI64` | src/store/sled_engine.rs:311 | `parse::<i64>` accepts only an optional sign followed by one or more digits. Any value it returns is within the `i64` range. |
| `Decimal.ShowNatRoundTrip` | src/store/sled_engine.rs:318 | Reading back the digits of a natural number gives the number. |
| `Decimal.ParseShowRoundTrip` | src/store/sled_engine.rs:311-318 | For every `i64` n, parse(to_string(n)) == Some(n), so a stored counter reads back as the stored number. |
| `Decimal.ShowIntInjective` | src/store/sled_engine.rs:318 | Distinct `i64` values are stored as distinct text. |
| `Decimal.ParseIsLenient` | src/store/sled_engine.rs:311 | The parser accepts `+7` and `007`. It rejects `-`, the empty text and `12a`, which the counters then treat as 0. |
| `Lru.LookupIsMembership` | src/store/sled_engine.rs:138 | With distinct keys, the cache answers v for k exactly when the entry (k, v) is cached. |
| `Lru.Without` | src/store/sled_engine.rs:183 | Removing k keeps every other entry, in the same recency order, and keeps keys distinct. The size drops by one exactly when k was cached. |
| `Lru.Admit` | src/store/sled_engine.rs:168 | After `put(k, v)`: (k, v) is the most recently used entry, the capacity holds, and keys stay distinct. Every other entry was there before. Only the least recently used entry can be lost, and only when a new key enters a full cache. |
| `Lru.AdmitCases` | src/store/sled_engine.rs:155 | `put` either overwrites and promotes, inserts into spare room, or evicts the oldest entry and then inserts. |
| `Lru.AdmitLookup` | src/store/sled_engine.rs:168 | After `put(k, v)` the cache answers v for k. |
| `Lru.AdmitEvictsLeastRecent` | src/store/sled_engine.rs:168 | A new key entering a full cache evicts exactly the least recently used key. Every other key keeps its value. |
| `Lru.LruCache.constructor` | src/store/sled_engine.rs:120-122 | A cache is built empty, with the given nonzero capacity. |
| `Lru.LruCache.Get` | src/store/sled_engine.rs:138 | Returns the cached value. A hit moves the entry to the most recently used end, and a miss changes nothing. |
| `Lru.LruCache.Put` | src/store/sled_engine.rs:155 | The entries become `Admit(old entries, capacity, k, v)`. |
| `Lru.LruCache.Pop` | src/store/sled_engine.rs:183 | Returns the cached value for k and removes only that entry. |
| `Lru.LruCache.Clear` | src/store/sled_engine.rs:361 | Leaves the cache empty with the same capacity. |
| `Lru.LruCache.Len` | src/store/sled_engine.rs:244 | The number of entries, never more than the capacity. |
| `SledStore.DefaultSledConfig` | src/store/sled_engine.rs:45-54 | The default options pass the cache-capacity check. |
| `SledStore.CacheCapacity` | src/store/sled_engine.rs:120-121 | Capacity 0 is refused with "Cache size must be greater than 0". Any other capacity is accepted unchanged. |
| `SledStore.ReadThrough` | src/store/sled_engine.rs:135-162 | The cache after a read keeps distinct keys and its capacity bound. |
| `SledStore.CounterOf` | src/store/sled_engine.rs:310-313 | A missing or unparsable value counts as 0, and a parsable one as its value. Either way the result is an `i64`. |
| `SledStore.SledEngine.constructor` | src/store/sled_engine.rs:124-129 | A new engine over a given tree has an empty cache and satisfies the invariant. |
| `SledStore.SledEngine.WithConfig` | src/store/sled_engine.rs:109-130 | Fails exactly when the cache capacity is 0, with the source's message. Otherwise it returns a valid engine over the given tree with an empty cache. |
| `SledStore.SledEngine.New` | src/store/sled_engine.rs:97-99 | Opening with the default options always succeeds. |
| `SledStore.SledEngine.Get` | src/store/sled_engine.rs:135-162 | Returns exactly the tree's value (or None) on a hit or a miss, and leaves the tree unchanged. A found value ends up cached as most recently used. The invariant holds after. |
| `SledStore.SledEngine.Set` | src/store/sled_engine.rs:165-177 | The tree maps k to v, other keys are unchanged, the cache holds (k, v) as most recently used, and the invariant holds after. |
| `SledStore.SledEngine.Delete` | src/store/sled_engine.rs:180-193 | Returns true iff the tree held k. Afterwards neither the tree nor the cache holds k, and everything else is unchanged. |
| `SledStore.SledEngine.Keys` | src/store/sled_engine.rs:196-210 | Returns exactly the tree's keys, each once, so the count equals the tree's size. |
| `SledStore.SledEngine.Len` | src/store/sled_engine.rs:213-215 | The number of records in the tree (the cache is not consulted). |
| `SledStore.SledEngine.IsEmpty` | src/store/sled_engine.rs:218-220 | True iff the tree holds no record. |
| `SledStore.SledEngine.CountKeys` | src/store/sled_engine.rs:370-372 | Equal to `len`. |
| `SledStore.SledEngine.Increment` | src/store/sled_engine.rs:306-321 | Returns the current counter (0 if missing or unparsable) plus the amount (default 1). Stores its decimal text, which parses back to the result. Only that key changes. |
| `SledStore.SledEngine.Decrement` | src/store/sled_engine.rs:323-338 | As `Increment`, subtracting the amount. |
| `SledStore.SledEngine.Append` | src/store/sled_engine.rs:340-347 | Stores and returns the current value (empty if missing) followed by the suffix. Only that key changes. |
| `SledStore.SledEngine.Prepend` | src/store/sled_engine.rs:349-356 | Stores and returns the prefix followed by the current value (empty if missing). Only that key changes. |
| `SledStore.SledEngine.Truncate` | src/store/sled_engine.rs:358-368 | Empties both the cache and the tree, so `len` is 0 and `is_empty` holds. |
| `SledStore.SledEngine.Sync` | src/store/sled_engine.rs:374-376 | Flushing succeeds. |
| `SledStore.SetThenGet` | src/store/sled_engine.rs:421-427 | On any valid engine, `set(k, v)` followed by `get(k)` returns `Some(v)`. |
| `SledStore.DeleteTwice` | src/store/sled_engine.rs:266-274 | A first `delete(k)` reports whether k existed. A repeat returns false, and `get(k)` then returns None. |
| `Config.Lower` | src/config.rs:52 | Lower-casing keeps the length and leaves no upper-case letter. |
| `Config.LowerOfLowercase` | src/config.rs:52 | Text without upper-case letters is unchanged by lower-casing. |
| `Config.LowerIdempotent` | src/config.rs:52 | Lower-casing twice equals lower-casing once. |
| `Config.FromStr` | src/config.rs:51-58 | Accepts exactly the names whose lower-case form is memory, kv, rwlock or sled. The error is "Unknown storage engine: " followed by the name as given. |
| `Config.FromStrCaseInsensitive` | src/config.rs:52 | Names with the same lower-case form are accepted alike and give the same engine. |
| `Config.FromStrOfLowered` | src/config.rs:52 | Parsing the lower-cased name agrees with parsing the name. |
| `Config.FromStrNames` | src/config.rs:53-55 | memory/kv give Memory, rwlock gives RwLock and sled gives Sled, in any letter case. |
| `Config.FromStrExamples` | src/config.rs:52-56 | `SLED` and `Kv` are accepted, and `Foo` is refused with its own spelling in the message. |
| `Config.ToString` | src/config.rs:61-68 | Display names are lower-case. |
| `Config.FromStrToString` | src/config.rs:51-68 | For every engine e, `from_str(e.to_string()) == Ok(e)`. |
| `Config.ToStringInjective` | src/config.rs:62-68 | Distinct engines have distinct display names. |
| `Config.DefaultStorageConfig` | src/config.rs:88-99 | The defaults: RwLock, path "data", compression on, 100 MB cache, 1000 ms flush, 1024 MB bound. |
| `Config.DefaultConfig` | src/config.rs:180-194 | The default server configuration carries the default storage section. |
| `Config.StoragePath` | src/config.rs:200-202 | Returns the configured storage path unchanged. |
| `Config.EngineName` | src/config.rs:208-214 | The legacy engine name is lower-case. |
| `Config.FromStrEngineName` | src/config.rs:208-214 | The legacy name parses back to the configured engine. |
| `Config.EngineNameVersusToString` | src/config.rs:208-214 | The legacy name differs from the display name exactly for Memory (`kv` against `memory`). |
| `Config.DefaultBackwardCompatibility` | src/config.rs:288-292 | The default configuration reports `storage_path() == "data"` and `engine() == "rwlock"`. |
| `Factory.SledOptions` | src/store/factory.rs:24-31 | Cache capacity is 1024 entries per MB with a floor of 100. The size bound is MB × 1048576. Compression and flush interval pass through unchanged. |
| `Factory.CreateStorageEngine` | src/store/factory.rs:11-37 | The configured kind picks the backend at the configured path. The persistent backend carries `SledOptions(c)`, so the unit conversions apply to it, and it never fails the cache-capacity check. |
| `Factory.BackendAtStoragePath` | src/config.rs:200-202 | The factory builds the backend at the configuration's `storage_path()`. |
| `Factory.InMemoryIgnoresTuning` | src/store/factory.rs:12-20 | Memory and RwLock backends depend only on kind and path. |
| `Factory.SledUnitExamples` | src/store/factory.rs:24-29 | 0 MB gives 100 entries, 1 MB 1024, 50 MB 51200 and 100 MB 102400. A 100 MB bound is 104857600 bytes. |
| `Factory.SimpleConfig` | src/store/factory.rs:44-58 | The name-based config is the default configuration with the chosen kind and path, and converts without overflow. |
| `Factory.CreateStorageEngineSimple` | src/store/factory.rs:39-68 | Fails exactly for names whose lower-case form is not memory, kv, rwlock or sled. The error is "Unknown engine type: " + name + ". Available engines: memory, rwlock, sled". |
| `Factory.SimpleAgreesWithFromStr` | src/store/factory.rs:43-58 | The name-based entry point accepts exactly the names `StorageEngine::from_str` accepts. It builds the backend of the kind that name parses to. |
| `Factory.SimpleSledDefaults` | src/store/factory.rs:54-58 | `sled` by name yields a persistent backend with 102400 cache entries, compression, 1000 ms flush and a 1 GiB bound. |
| `Factory.UnknownNameMessage` | src/store/factory.rs:140-147 | The name `invalid` is refused with a message beginning "Unknown engine type". |

Client methods check behaviour using the contracts alone:

- `Lru.EvictionScenario`: with capacity 2, re-reading "a" protects it, and inserting "c" evicts "b".
- `SledStore.PersistenceScenario` replays src/store/sled_engine.rs:395-412: a new engine over the same tree reads the records back.
- `SledStore.BasicOperationsScenario` and `SledStore.EnumerationScenario` replay src/store/sled_engine.rs:415-445.
- `SledStore.NumericScenario` replays src/store/sled_engine.rs:448-467, which yields 5, 6, 4 and 3.
- `SledStore.StringScenario` replays src/store/sled_engine.rs:470-484.
- `SledStore.TruncateScenario` replays src/store/sled_engine.rs:487-502.

## Left out

- Disk I/O of the durable store (`sled::open`, `open_tree`, `flush`, `size_on_disk`, the flush on drop): the tree is a map. Reopening the database is a new engine over the same map. `Sync` always succeeds.
- Storage faults (tree I/O errors, invalid UTF-8, a failed insert after the cache update) and the paths that turn them into `None`, `false`, an empty list or an error. Dafny strings are always valid text. A failed tree insert after the cache `put` would break cache coherence; that case is not modelled.
- Concurrency: the shared `Arc<Mutex<..>>` ownership, skipping the cache when its lock is poisoned, and the lost-update race of the read-modify-write operators. Every operation runs alone and always gets the lock.
- `stats()`: diagnostics that depend on the on-disk size.
- `Config::load` (TOML loading) and the host, port, replication and sync-interval settings, which the storage layer does not read.
- The in-memory backends (`KvEngine`, `RwLockEngine`) and the trait they implement are not part of this model. The factory returns a tag for them.
- Logging.
- `Lru.LruCache`: the `lru` crate's hash map and linked list are not modelled. The cache is a recency-ordered sequence with the same observable behaviour.
- `SledStore.SledEngine.Keys`: returns the keys in no particular order. Sled returns them in byte order; that order is not modelled.
- `SledStore.SledEngine.Increment`: does not model `i64` overflow of the sum (a panic in debug builds). A precondition requires the sum to fit in an `i64`.
- `SledStore.SledEngine.Decrement`: does not model `i64` overflow of the difference. A precondition requires it to fit in an `i64`.
- `Factory.SledOptions`: does not model `usize` overflow of `cache_size_mb * 1024 * 1024` or `max_db_size_mb * 1024 * 1024`. A precondition requires both products to fit in 64 bits.
- `Config.Lower`: folds ASCII letters only, where Rust's `to_lowercase` folds all of Unicode. So a name such as "\u{212A}v" (KELVIN SIGN, which Rust lowers to `k`) names Memory in the source but is refused by `Config.FromStr` and `Factory.CreateStorageEngineSimple`.
