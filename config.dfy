/** Load of config/config.go after the file has been read and decoded: validation of the
    backend type and the injection mode, then defaults for every zero or empty field. */
module Config {

  import opened Wrappers

  datatype ServerConfig = ServerConfig(
    host: string, port: int, enableCors: bool,
    logMessages: bool, logRawRequests: bool, logRawResponses: bool)

  /** The backend settings; toolBlacklist and forcePromptCache are read by the chat handler
      and the OpenAI adapter. */
  datatype BackendConfig = BackendConfig(
    kind: string, endpoint: string, timeout: int, toolBlacklist: seq<string>, forcePromptCache: bool)

  datatype DatabaseConfig = DatabaseConfig(path: string, maxRequests: int, cleanupInterval: int)

  datatype ChatTextInjectionConfig = ChatTextInjectionConfig(enabled: bool, text: string, mode: string)

  datatype Config = Config(
    server: ServerConfig, backend: BackendConfig, database: DatabaseConfig,
    chatTextInjection: ChatTextInjectionConfig)

  /** The configuration file as the decoder leaves it: unreadable, not decodable (unknown
      keys included), or decoded. */
  datatype Source = Unreadable(reason: string) | Malformed(reason: string) | Decoded(config: Config)

  datatype LoadError =
    | ReadFailed(reason: string)
    | ParseFailed(reason: string)
    | InvalidBackendType(kind: string)
    | InvalidInjectionMode(mode: string)

  const DefaultHost := "0.0.0.0"
  const DefaultPort := 11434
  const DefaultTimeout := 300
  const DefaultPath := "./llm_proxy.db"
  const DefaultMaxRequests := 100
  const DefaultCleanupInterval := 5
  const DefaultMode := "last"

  predicate ValidBackendType(kind: string) {
    kind == "openai" || kind == "ollama"
  }

  /** An injection mode the file may hold: empty (defaulted later), "first" or "last". */
  predicate ValidMode(mode: string) {
    mode == "" || mode == "first" || mode == "last"
  }

  /** No field that has a default is left zero or empty. */
  predicate Defaulted(c: Config) {
    && c.server.host != "" && c.server.port != 0 && c.backend.timeout != 0
    && c.database.path != "" && c.database.maxRequests != 0 && c.database.cleanupInterval != 0
    && c.chatTextInjection.mode != ""
  }

  function ServerDefaults(s: ServerConfig): (d: ServerConfig)
    ensures d.host == (if s.host == "" then DefaultHost else s.host)
    ensures d.port == (if s.port == 0 then DefaultPort else s.port)
    ensures d.(host := "", port := 0) == s.(host := "", port := 0)
  {
    s.(host := if s.host == "" then DefaultHost else s.host, port := if s.port == 0 then DefaultPort else s.port)
  }

  function BackendDefaults(b: BackendConfig): (d: BackendConfig)
    ensures d.timeout == (if b.timeout == 0 then DefaultTimeout else b.timeout)
    ensures d.(timeout := 0) == b.(timeout := 0)
  {
    b.(timeout := if b.timeout == 0 then DefaultTimeout else b.timeout)
  }

  function DatabaseDefaults(db: DatabaseConfig): (d: DatabaseConfig)
    ensures d.path == (if db.path == "" then DefaultPath else db.path)
    ensures d.maxRequests == (if db.maxRequests == 0 then DefaultMaxRequests else db.maxRequests)
    ensures d.cleanupInterval == (if db.cleanupInterval == 0 then DefaultCleanupInterval else db.cleanupInterval)
  {
    DatabaseConfig(
      if db.path == "" then DefaultPath else db.path,
      if db.maxRequests == 0 then DefaultMaxRequests else db.maxRequests,
      if db.cleanupInterval == 0 then DefaultCleanupInterval else db.cleanupInterval)
  }

  function InjectionDefaults(i: ChatTextInjectionConfig): (d: ChatTextInjectionConfig)
    ensures d.mode == (if i.mode == "" then DefaultMode else i.mode)
    ensures d.(mode := "") == i.(mode := "")
  {
    i.(mode := if i.mode == "" then DefaultMode else i.mode)
  }

  /** The defaults of Load: every zero or empty field with a default takes it, every other
      field keeps its value; the result has every default in place. */
  function WithDefaults(c: Config): (d: Config)
    ensures Defaulted(d)
    ensures d.server == ServerDefaults(c.server) && d.backend == BackendDefaults(c.backend)
    ensures d.database == DatabaseDefaults(c.database) && d.chatTextInjection == InjectionDefaults(c.chatTextInjection)
  {
    Config(ServerDefaults(c.server), BackendDefaults(c.backend), DatabaseDefaults(c.database), InjectionDefaults(c.chatTextInjection))
  }

  /** A configuration with every default in place is left alone, so defaulting twice is
      defaulting once. */
  lemma DefaultsIdempotent(c: Config)
    ensures Defaulted(c) ==> WithDefaults(c) == c
    ensures WithDefaults(WithDefaults(c)) == WithDefaults(c)
  {
  }

  /** Load after the file has been read: read and parse failures first, then the backend
      type, then the mode, and only then the defaults, field by field. */
  method Load(src: Source) returns (r: Result<Config, LoadError>)
    ensures src.Unreadable? ==> r == Failure(ReadFailed(src.reason))
    ensures src.Malformed? ==> r == Failure(ParseFailed(src.reason))
    ensures src.Decoded? && !ValidBackendType(src.config.backend.kind) ==>
      r == Failure(InvalidBackendType(src.config.backend.kind))
    ensures src.Decoded? && ValidBackendType(src.config.backend.kind) && !ValidMode(src.config.chatTextInjection.mode) ==>
      r == Failure(InvalidInjectionMode(src.config.chatTextInjection.mode))
    ensures r.Success? <==>
      src.Decoded? && ValidBackendType(src.config.backend.kind) && ValidMode(src.config.chatTextInjection.mode)
    ensures r.Success? ==> r.value == WithDefaults(src.config)
  {
    if src.Unreadable? {
      return Failure(ReadFailed(src.reason));
    }
    if src.Malformed? {
      return Failure(ParseFailed(src.reason));
    }
    var config := src.config;
    if config.backend.kind != "openai" && config.backend.kind != "ollama" {
      return Failure(InvalidBackendType(config.backend.kind));
    }
    if config.chatTextInjection.mode != "" && config.chatTextInjection.mode != "first" && config.chatTextInjection.mode != "last" {
      return Failure(InvalidInjectionMode(config.chatTextInjection.mode));
    }
    config := ApplyDefaults(config);
    return Success(config);
  }

  /** The default-filling half of Load: one field at a time. */
  method ApplyDefaults(c: Config) returns (d: Config)
    ensures d == WithDefaults(c)
  {
    var server := c.server;
    if server.host == "" {
      server := server.(host := DefaultHost);
    }
    if server.port == 0 {
      server := server.(port := DefaultPort);
    }
    assert server == ServerDefaults(c.server);
    var backend := c.backend;
    if backend.timeout == 0 {
      backend := backend.(timeout := DefaultTimeout);
    }
    assert backend == BackendDefaults(c.backend);
    var database := c.database;
    if database.path == "" {
      database := database.(path := DefaultPath);
    }
    if database.maxRequests == 0 {
      database := database.(maxRequests := DefaultMaxRequests);
    }
    if database.cleanupInterval == 0 {
      database := database.(cleanupInterval := DefaultCleanupInterval);
    }
    assert database == DatabaseDefaults(c.database);
    var injection := c.chatTextInjection;
    if injection.mode == "" {
      injection := injection.(mode := DefaultMode);
    }
    d := Config(server, backend, database, injection);
  }

  /** After a successful load the mode is "first" or "last" and the request cap is never
      zero: the "0 = unlimited" reading of max_requests cannot survive loading. */
  lemma LoadedConfigIsSettled(src: Source, c: Config)
    requires src.Decoded? && ValidBackendType(src.config.backend.kind) && ValidMode(src.config.chatTextInjection.mode)
    requires c == WithDefaults(src.config)
    ensures c.chatTextInjection.mode == "first" || c.chatTextInjection.mode == "last"
    ensures c.database.maxRequests != 0 && ValidBackendType(c.backend.kind)
    ensures Defaulted(c)
  {
  }
}
