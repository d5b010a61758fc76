/** Backend selection (pkg/translate/factory.go). */
module Factory {
  import opened Wrappers

  /** Go's `type EngineType string`: any string may be stored in a config. */
  type EngineType = string

  const EngineLibreTranslate: EngineType := "libretranslate"
  const EngineArgos: EngineType := "argos"

  const LibreSpellings: set<string> := {"libretranslate", "LibreTranslate", "LIBRETRANSLATE"}
  const ArgosSpellings: set<string> := {"argos", "Argos", "ARGOS"}

  /** `ParseEngineType`: three accepted spellings per engine, everything else
      is an error. */
  function ParseEngineType(s: string): (r: Result<EngineType, string>)
    ensures r.Ok? <==> s in LibreSpellings + ArgosSpellings
    ensures r.Ok? ==> (r.value == EngineLibreTranslate <==> s in LibreSpellings)
    ensures r.Ok? ==> (r.value == EngineArgos <==> s in ArgosSpellings)
    ensures r.Err? ==> r.error == "unknown engine type: " + s + " (supported: libretranslate, argos)"
  {
    if s in LibreSpellings then Ok(EngineLibreTranslate)
    else if s in ArgosSpellings then Ok(EngineArgos)
    else Err("unknown engine type: " + s + " (supported: libretranslate, argos)")
  }

  /** `Config` without its logger. */
  datatype Config = Config(engine: EngineType, baseURL: string, useWorkerPool: bool, maxWorkers: int)

  /** The translator `NewTranslator` builds. */
  datatype Backend =
    | WorkerPoolBackend(engine: EngineType, maxWorkers: int)
    | LibreTranslateClient(baseURL: string)
    | ArgosClient(baseURL: string)

  const DefaultMaxWorkers: int := 4
  const DefaultBaseURL: string := "http://localhost:5000"

  /** `NewTranslator`: the worker pool unless a base URL is configured and
      the pool is not asked for; in HTTP mode the engine picks the client.
      `mkdirError` is the outcome of `NewWorkerPool`'s `os.MkdirAll` of the
      socket directory, its only failure: workers that fail to start are
      retried later and do not fail the call. */
  function NewTranslator(cfg: Config, mkdirError: Option<string>): (r: Result<Backend, string>)
    ensures r.Ok? && r.value.WorkerPoolBackend? <==>
      (cfg.useWorkerPool || cfg.baseURL == "") && mkdirError.None?
    ensures r.Ok? && r.value.WorkerPoolBackend? ==>
      r.value.engine == cfg.engine
      && r.value.maxWorkers == (if cfg.maxWorkers == 0 then DefaultMaxWorkers else cfg.maxWorkers)
    ensures r.Ok? && r.value.LibreTranslateClient? <==>
      !cfg.useWorkerPool && cfg.baseURL != "" && cfg.engine == EngineLibreTranslate
    ensures r.Ok? && r.value.ArgosClient? <==>
      !cfg.useWorkerPool && cfg.baseURL != "" && cfg.engine == EngineArgos
    // the HTTP default base URL is never used: the HTTP clients get the configured one
    ensures r.Ok? && !r.value.WorkerPoolBackend? ==> r.value.baseURL == cfg.baseURL
    ensures r.Err? <==>
      || ((cfg.useWorkerPool || cfg.baseURL == "") && mkdirError.Some?)
      || (!cfg.useWorkerPool && cfg.baseURL != ""
          && cfg.engine != EngineLibreTranslate && cfg.engine != EngineArgos)
    ensures r.Err? && (cfg.useWorkerPool || cfg.baseURL == "") ==>
      r.error == "failed to create socket directory: " + mkdirError.value
    ensures r.Err? && !cfg.useWorkerPool && cfg.baseURL != "" ==>
      r.error == "unknown translation engine: " + cfg.engine
  {
    var useWorkerPool := if !cfg.useWorkerPool && cfg.baseURL == "" then true else cfg.useWorkerPool;
    if useWorkerPool then
      var maxWorkers := if cfg.maxWorkers == 0 then DefaultMaxWorkers else cfg.maxWorkers;
      PoolBackend(cfg.engine, maxWorkers, mkdirError)
    else
      var baseURL := if cfg.baseURL == "" then DefaultBaseURL else cfg.baseURL;
      if cfg.engine == EngineLibreTranslate then Ok(LibreTranslateClient(baseURL))
      else if cfg.engine == EngineArgos then Ok(ArgosClient(baseURL))
      else Err("unknown translation engine: " + cfg.engine)
  }

  /** The result of `NewWorkerPool` (pkg/translate/worker_pool.go): it fails only when the
      socket directory cannot be created. */
  function PoolBackend(engine: EngineType, maxWorkers: int, mkdirError: Option<string>): (r: Result<Backend, string>)
    ensures r.Ok? <==> mkdirError.None?
    ensures r.Ok? ==> r.value == WorkerPoolBackend(engine, maxWorkers)
    ensures r.Err? ==> r.error == "failed to create socket directory: " + mkdirError.value
  {
    if mkdirError.Some? then Err("failed to create socket directory: " + mkdirError.value)
    else Ok(WorkerPoolBackend(engine, maxWorkers))
  }
}
