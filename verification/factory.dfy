/**
 * Engine construction: resolves a storage configuration (or an engine name
 * and a path) to a description of the backend that would be built, with the
 * persistent engine's options converted from megabytes to entries and bytes.
 */
module Factory {
  import opened Types
  import opened Config
  import SledStore

  /** The backend the factory builds, with the parameters it is built from. */
  datatype Backend =
    | KvBackend(path: string)
    | RwLockBackend(path: string)
    | SledBackend(path: string, options: SledStore.SledConfig)

  /** Exclusive upper bound of a 64-bit `usize`. */
  const USIZE_BOUND: int := 0x1_0000_0000_0000_0000

  /** The megabyte-to-byte products the persistent branch computes do not overflow. */
  predicate SledUnitsFit(c: StorageConfig) {
    c.cacheSizeMb * 1024 * 1024 < USIZE_BOUND && c.maxDbSizeMb * 1024 * 1024 < USIZE_BOUND
  }

  /**
   * Options for the persistent engine: 1024 cache entries per configured
   * megabyte but never fewer than 100, the size bound in bytes, and the
   * compression flag and flush interval unchanged.
   */
  function SledOptions(c: StorageConfig): (o: SledStore.SledConfig)
    requires SledUnitsFit(c)
    ensures o.cacheSize >= 100
    ensures c.cacheSizeMb > 0 ==> o.cacheSize == c.cacheSizeMb * 1024
    ensures c.cacheSizeMb == 0 ==> o.cacheSize == 100
    ensures o.maxDbSize == c.maxDbSizeMb * 1048576
    ensures o.compression == c.compression && o.flushIntervalMs == c.flushIntervalMs
  {
    var cacheSize := c.cacheSizeMb * 1024 * 1024 / 1024;
    assert cacheSize == c.cacheSizeMb * 1024;
    SledStore.SledConfig(
      c.compression,
      if cacheSize < 100 then 100 else cacheSize,
      c.flushIntervalMs,
      c.maxDbSizeMb * 1024 * 1024)
  }

  /**
   * `create_storage_engine`: the configured kind picks the backend; the
   * in-memory kinds use only the path, and the persistent kind always passes
   * the cache-capacity check thanks to the floor of 100 entries.
   */
  function CreateStorageEngine(c: StorageConfig): (r: Result<Backend, string>)
    requires c.engine == Sled ==> SledUnitsFit(c)
    ensures r.Ok? && r.value.path == c.path
    ensures r.value.KvBackend? <==> c.engine == Memory
    ensures r.value.RwLockBackend? <==> c.engine == RwLock
    ensures r.value.SledBackend? <==> c.engine == Sled
    ensures r.value.SledBackend? ==> r.value.options == SledOptions(c)
    ensures r.value.SledBackend? ==> SledStore.CacheCapacity(r.value.options).Ok?
  {
    match c.engine
    case Memory => Ok(KvBackend(c.path))
    case RwLock => Ok(RwLockBackend(c.path))
    case Sled =>
      var options := SledOptions(c);
      match SledStore.CacheCapacity(options)
      case Err(e) => Err(e)
      case Ok(_) => Ok(SledBackend(c.path, options))
  }

  /** The backend built from a server configuration lives at its `storage_path`. */
  lemma BackendAtStoragePath(c: ServerConfig)
    requires c.storage.engine == Sled ==> SledUnitsFit(c.storage)
    ensures CreateStorageEngine(c.storage).value.path == StoragePath(c)
  {
  }

  /** The in-memory backends ignore every tuning field. */
  lemma InMemoryIgnoresTuning(c: StorageConfig, d: StorageConfig)
    requires c.engine == d.engine && c.engine != Sled && c.path == d.path
    ensures CreateStorageEngine(c) == CreateStorageEngine(d)
  {
  }

  /** Cache capacities for 0, 1, 50 and 100 megabytes, and the byte bound for 100 megabytes. */
  lemma SledUnitExamples(c: StorageConfig)
    requires SledUnitsFit(c)
    ensures c.cacheSizeMb == 0 ==> SledOptions(c).cacheSize == 100
    ensures c.cacheSizeMb == 1 ==> SledOptions(c).cacheSize == 1024
    ensures c.cacheSizeMb == 50 ==> SledOptions(c).cacheSize == 51200
    ensures c.cacheSizeMb == 100 ==> SledOptions(c).cacheSize == 102400
    ensures c.maxDbSizeMb == 100 ==> SledOptions(c).maxDbSize == 104857600
  {
  }

  const UNKNOWN_ENGINE_TYPE := "Unknown engine type: "
  const AVAILABLE_ENGINES := ". Available engines: memory, rwlock, sled"

  /** The default storage configuration with the given kind and path. */
  function SimpleConfig(engine: StorageEngine, path: string): (c: StorageConfig)
    ensures c == DefaultStorageConfig().(engine := engine, path := path)
    ensures SledUnitsFit(c)
  {
    DefaultStorageConfig().(engine := engine, path := path)
  }

  /**
   * `create_storage_engine_simple`: the lower-cased name picks the kind, the
   * other options take their defaults; an unknown name is reported with the
   * name as given.
   */
  function CreateStorageEngineSimple(name: string, path: string): (r: Result<Backend, string>)
    ensures r.Err? <==> Lower(name) !in {"memory", "kv", "rwlock", "sled"}
    ensures r.Err? ==> r.error == UNKNOWN_ENGINE_TYPE + name + AVAILABLE_ENGINES
    ensures r.Ok? ==> r.value.path == path
  {
    var lowered := Lower(name);
    if lowered == "memory" || lowered == "kv" then CreateStorageEngine(SimpleConfig(Memory, path))
    else if lowered == "rwlock" then CreateStorageEngine(SimpleConfig(RwLock, path))
    else if lowered == "sled" then CreateStorageEngine(SimpleConfig(Sled, path))
    else Err(UNKNOWN_ENGINE_TYPE + name + AVAILABLE_ENGINES)
  }

  /**
   * The name-based entry point accepts exactly the names `StorageEngine::from_str`
   * accepts and builds the engine of the kind that name parses to.
   */
  lemma SimpleAgreesWithFromStr(name: string, path: string)
    ensures CreateStorageEngineSimple(name, path).Ok? <==> FromStr(name).Ok?
    ensures FromStr(name).Ok? ==>
              CreateStorageEngineSimple(name, path) == CreateStorageEngine(SimpleConfig(FromStr(name).value, path))
  {
  }

  /** A persistent engine built by name gets 102400 cache entries and a 1 GiB bound. */
  lemma SimpleSledDefaults(path: string)
    ensures CreateStorageEngineSimple("sled", path)
            == Ok(SledBackend(path, SledStore.SledConfig(true, 102400, 1000, 1073741824)))
  {
    assert Lower("sled") == "sled" by { LowerOfLowercase("sled"); }
  }

  /** The name "invalid" is refused with a message that starts "Unknown engine type". */
  lemma UnknownNameMessage(path: string)
    ensures CreateStorageEngineSimple("invalid", path).Err?
    ensures "Unknown engine type" <= CreateStorageEngineSimple("invalid", path).error
  {
    assert Lower("invalid") == "invalid" by { LowerOfLowercase("invalid"); }
    assert "Unknown engine type" <= UNKNOWN_ENGINE_TYPE;
  }
}
