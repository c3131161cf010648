/**
 * Storage configuration: the engine kind with its text names, and the
 * storage section of the server configuration with its defaults.
 */
module Config {
  import opened Types

  /** The three storage backends. */
  datatype StorageEngine = Memory | RwLock | Sled

  /** Case folding as used for engine names (ASCII letters only). */
  function LowerChar(c: char): char {
    if 'A' <= c <= 'Z' then (c as int - 'A' as int + 'a' as int) as char else c
  }

  predicate HasUpper(s: string) {
    exists i :: 0 <= i < |s| && 'A' <= s[i] <= 'Z'
  }

  /** `to_lowercase` */
  function Lower(s: string): (r: string)
    ensures |r| == |s| && !HasUpper(r)
  {
    seq(|s|, i requires 0 <= i < |s| => LowerChar(s[i]))
  }

  /** Text without upper-case letters is its own lower-case form. */
  lemma LowerOfLowercase(s: string)
    requires !HasUpper(s)
    ensures Lower(s) == s
  {
    forall i | 0 <= i < |s| ensures Lower(s)[i] == s[i] {
      assert !('A' <= s[i] <= 'Z');
    }
  }

  /** Lowering twice is lowering once. */
  lemma LowerIdempotent(s: string)
    ensures Lower(Lower(s)) == Lower(s)
  {
    LowerOfLowercase(Lower(s));
  }

  const UNKNOWN_STORAGE_ENGINE := "Unknown storage engine: "

  /** `StorageEngine::from_str`: case-insensitive; the error quotes the input as given. */
  function FromStr(s: string): (r: Result<StorageEngine, string>)
    ensures r.Ok? <==> Lower(s) in {"memory", "kv", "rwlock", "sled"}
    ensures r.Err? ==> r.error == UNKNOWN_STORAGE_ENGINE + s
  {
    var lowered := Lower(s);
    if lowered == "memory" || lowered == "kv" then Ok(Memory)
    else if lowered == "rwlock" then Ok(RwLock)
    else if lowered == "sled" then Ok(Sled)
    else Err(UNKNOWN_STORAGE_ENGINE + s)
  }

  /** Inputs with the same lower-case form are accepted alike and name the same engine. */
  lemma FromStrCaseInsensitive(s: string, t: string)
    requires Lower(s) == Lower(t)
    ensures FromStr(s).Ok? <==> FromStr(t).Ok?
    ensures FromStr(s).Ok? ==> FromStr(s) == FromStr(t)
  {
  }

  /** Parsing the lower-case form of a name gives the same engine as parsing the name. */
  lemma FromStrOfLowered(s: string)
    ensures FromStr(s).Ok? ==> FromStr(Lower(s)) == FromStr(s)
    ensures FromStr(s).Err? ==> FromStr(Lower(s)).Err?
  {
    LowerIdempotent(s);
  }

  /** Which spellings name which engine. */
  lemma FromStrNames(s: string)
    ensures FromStr(s) == Ok(Memory) <==> Lower(s) == "memory" || Lower(s) == "kv"
    ensures FromStr(s) == Ok(RwLock) <==> Lower(s) == "rwlock"
    ensures FromStr(s) == Ok(Sled) <==> Lower(s) == "sled"
  {
  }

  /** Mixed-case spellings are accepted; the error keeps the caller's spelling. */
  lemma FromStrExamples()
    ensures FromStr("SLED") == Ok(Sled)
    ensures FromStr("Kv") == Ok(Memory)
    ensures FromStr("Foo") == Err(UNKNOWN_STORAGE_ENGINE + "Foo")
  {
    assert Lower("SLED") == "sled";
    assert Lower("Kv") == "kv";
    assert Lower("Foo") == "foo";
  }

  /** `Display for StorageEngine` */
  function ToString(e: StorageEngine): (s: string)
    ensures !HasUpper(s)
  {
    match e
    case Memory => "memory"
    case RwLock => "rwlock"
    case Sled => "sled"
  }

  /** `e.to_string().parse() == Ok(e)` for every engine. */
  lemma FromStrToString(e: StorageEngine)
    ensures FromStr(ToString(e)) == Ok(e)
  {
    LowerOfLowercase(ToString(e));
  }

  /** Display names are distinct. */
  lemma ToStringInjective(e: StorageEngine, f: StorageEngine)
    requires ToString(e) == ToString(f)
    ensures e == f
  {
    FromStrToString(e);
    FromStrToString(f);
  }

  /** The `[storage]` section of the configuration. */
  datatype StorageConfig = StorageConfig(
    engine: StorageEngine,
    path: string,
    compression: bool,
    cacheSizeMb: nat,
    flushIntervalMs: nat,
    maxDbSizeMb: nat)

  /** `StorageConfig::default()` */
  function DefaultStorageConfig(): (c: StorageConfig)
    ensures c.engine == RwLock && c.path == "data"
    ensures c.compression && c.cacheSizeMb == 100 && c.flushIntervalMs == 1000 && c.maxDbSizeMb == 1024
  {
    StorageConfig(RwLock, "data", true, 100, 1000, 1024)
  }

  /**
   * The server configuration, reduced to the part the storage layer reads
   * (network and replication settings are not part of this model).
   */
  datatype ServerConfig = ServerConfig(storage: StorageConfig)

  /** `Config::default()` */
  function DefaultConfig(): (c: ServerConfig)
    ensures c.storage == DefaultStorageConfig()
  {
    ServerConfig(DefaultStorageConfig())
  }

  /** `Config::storage_path`: the storage path, unchanged. */
  function StoragePath(c: ServerConfig): (p: string)
    ensures p == c.storage.path
  {
    c.storage.path
  }

  /** `Config::engine`: the legacy engine name, `kv` for the in-memory engine. */
  function EngineName(c: ServerConfig): (s: string)
    ensures !HasUpper(s)
  {
    match c.storage.engine
    case Memory => "kv"
    case RwLock => "rwlock"
    case Sled => "sled"
  }

  /** The legacy name parses back to the configured engine. */
  lemma FromStrEngineName(c: ServerConfig)
    ensures FromStr(EngineName(c)) == Ok(c.storage.engine)
  {
    LowerOfLowercase(EngineName(c));
  }

  /** The legacy name differs from the display name only for the in-memory engine. */
  lemma EngineNameVersusToString(c: ServerConfig)
    ensures EngineName(c) != ToString(c.storage.engine) <==> c.storage.engine == Memory
  {
  }

  /** The default configuration reports path "data" and engine "rwlock". */
  lemma DefaultBackwardCompatibility()
    ensures StoragePath(DefaultConfig()) == "data"
    ensures EngineName(DefaultConfig()) == "rwlock"
  {
  }
}
