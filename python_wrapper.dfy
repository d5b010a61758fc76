/** The subprocess translator (pkg/translate/python_wrapper.go): the
    program text it can generate, the line protocol it speaks on the
    subprocess's standard input and output, and the `initialized` flag that
    decides whether a new subprocess is started.  Pipes, `exec` and the
    subprocess itself are outside the model; their outcomes are parameters. */
module PythonWrapper {
  import opened Wrappers
  import opened Json
  import Factory
  import TranslateWorker
  import WorkerPool

  // ---------------------------------------------------------------------
  // generatePythonScript

  /** The parts of the generated program: the argostranslate imports, a
      `translate_text` that installs a matching package and translates, and
      the loop that answers each line of standard input with one line. */
  datatype ScriptPart = ArgosImports | ArgosTranslateText | StdinLoop

  /** `generatePythonScript`; the empty sequence is the empty string. */
  function GeneratePythonScript(engine: Factory.EngineType): (script: seq<ScriptPart>)
    ensures script != [] ==> script[|script| - 1] == StdinLoop
  {
    if engine == Factory.EngineLibreTranslate then [ArgosImports, ArgosTranslateText, StdinLoop]
    else if engine == Factory.EngineArgos then [ArgosImports, ArgosTranslateText, StdinLoop]
    else []
  }

  /** Only the two known engines get a program, and they get the same one. */
  lemma GeneratedScripts(engine: Factory.EngineType)
    ensures GeneratePythonScript(engine) == [] <==>
      engine != Factory.EngineLibreTranslate && engine != Factory.EngineArgos
    ensures GeneratePythonScript(Factory.EngineLibreTranslate) == GeneratePythonScript(Factory.EngineArgos)
    ensures GeneratePythonScript(engine) != [] ==> StdinLoop in GeneratePythonScript(engine)
  {
  }

  /** What `json.loads(line.strip())` makes of one input line. */
  type LineDecoder = string -> TranslateWorker.Decoded

  /** The generated loop on one line: every exception, a JSON syntax error
      included, is answered with its own text and no prefix. */
  function ScriptReply(line: string, decode: LineDecoder, lib: TranslateWorker.Library): (reply: Json)
    ensures reply.JObject? && "success" in reply.fields
    ensures reply.fields["success"] == JBool(true) ==> "translated_text" in reply.fields
  {
    match decode(line)
    case SyntaxError(detail) => Reply(false, "error", detail)
    case DecodeFailure(message) => Reply(false, "error", message)
    case Parsed(request) =>
      if !request.JObject? then Reply(false, "error", TranslateWorker.NoGetMessage(request))
      else
        var f := request.fields;
        match lib(TranslateWorker.Get(f, "text", ""), TranslateWorker.Get(f, "source_lang", "en"),
                  TranslateWorker.Get(f, "target_lang", "fr"))
        case Ok(t) => Reply(true, "translated_text", t)
        case Err(e) => Reply(false, "error", e)
  }

  /** The generated loop over standard input: one reply line per line. */
  function ScriptRun(lines: seq<string>, decode: LineDecoder, lib: TranslateWorker.Library): (out: seq<Json>)
    ensures |out| == |lines|
    ensures forall i :: 0 <= i < |lines| ==> out[i] == ScriptReply(lines[i], decode, lib)
  {
    if lines == [] then [] else [ScriptReply(lines[0], decode, lib)] + ScriptRun(lines[1..], decode, lib)
  }

  // ---------------------------------------------------------------------
  // The line protocol of Translate

  /** The request line: `json.Marshal` of the three-entry map, then "\n". */
  function RequestLine(text: string, sourceLang: string, targetLang: string): Json {
    JObject(map["text" := JString(text), "source_lang" := JString(sourceLang), "target_lang" := JString(targetLang)])
  }

  /** What reading one reply gives: the line's JSON value with the message
      `json.Unmarshal` reports if it is not an object or null, or no line and
      the scanner's error (`None` at end of output). */
  datatype ReplyRead = ReplyLine(value: Json, unmarshalError: string) | NoLine(scanError: Option<string>)

  /** `fmt`'s `%v` of an error that may be nil. */
  function ErrorText(e: Option<string>): string {
    match e
    case None => "<nil>"
    case Some(m) => m
  }

  /** The reply decoded into `map[string]interface{}` and inspected; JSON
      null decodes to a nil map in which every lookup fails. */
  function DecodeReply(v: Json, unmarshalError: string): (r: Result<string, string>)
    ensures r.Ok? ==> v.JObject? && "translated_text" in v.fields && v.fields["translated_text"] == JString(r.value)
  {
    if !v.JObject? && !v.JNull? then Err("failed to unmarshal response: " + unmarshalError)
    else
      var f := if v.JObject? then v.fields else map[];
      if !("success" in f && f["success"] == JBool(true)) then
        var msg := if "error" in f && f["error"].JString? then f["error"].s else "unknown error";
        Err("translation failed: " + msg)
      else if "translated_text" in f && f["translated_text"].JString? then Ok(f["translated_text"].s)
      else Err("invalid response format: translated_text not found")
  }

  /** Text comes back exactly when "success" is the boolean true and
      "translated_text" is a string; a missing or non-boolean "success"
      counts as failure, and a missing error message becomes "unknown error". */
  lemma DecodeReplyOutcomes(v: Json, unmarshalError: string)
    ensures DecodeReply(v, unmarshalError).Ok? <==>
      v.JObject? && "success" in v.fields && v.fields["success"] == JBool(true)
      && "translated_text" in v.fields && v.fields["translated_text"].JString?
    ensures DecodeReply(v, unmarshalError).Ok? ==> DecodeReply(v, unmarshalError).value == v.fields["translated_text"].s
    ensures v.JObject? && !("success" in v.fields && v.fields["success"] == JBool(true)) ==>
      DecodeReply(v, unmarshalError) == Err("translation failed: " +
        (if "error" in v.fields && v.fields["error"].JString? then v.fields["error"].s else "unknown error"))
    ensures v.JNull? ==> DecodeReply(v, unmarshalError) == Err("translation failed: unknown error")
  {
    assert "translation failed: " + "unknown error" == "translation failed: unknown error";
  }

  /** The two Go clients read the same reply differently: a bare
      `{"success": true}` is the empty translation for the pool and a format
      error here, and a non-boolean "success" is a read error for the pool
      and a translation failure here. */
  lemma ClientsDisagree(typeError: string, unmarshalError: string)
    ensures WorkerPool.PoolResult(WorkerPool.Answered(JObject(map["success" := JBool(true)]), typeError)) == Ok("")
    ensures DecodeReply(JObject(map["success" := JBool(true)]), unmarshalError)
      == Err("invalid response format: translated_text not found")
    ensures WorkerPool.PoolResult(WorkerPool.Answered(JObject(map["success" := JString("yes")]), typeError))
      == Err("failed to read response: " + typeError)
    ensures DecodeReply(JObject(map["success" := JString("yes")]), unmarshalError)
      == Err("translation failed: unknown error")
  {
    BareSuccess(typeError, unmarshalError);
    TextSuccess(typeError, unmarshalError);
  }

  lemma BareSuccess(typeError: string, unmarshalError: string)
    ensures WorkerPool.PoolResult(WorkerPool.Answered(JObject(map["success" := JBool(true)]), typeError)) == Ok("")
    ensures DecodeReply(JObject(map["success" := JBool(true)]), unmarshalError)
      == Err("invalid response format: translated_text not found")
  {
    var ok := map["success" := JBool(true)];
    assert WorkerPool.DecodeResponse(JObject(ok)) == Some(WorkerPool.Response(true, "", ""));
  }

  lemma TextSuccess(typeError: string, unmarshalError: string)
    ensures WorkerPool.PoolResult(WorkerPool.Answered(JObject(map["success" := JString("yes")]), typeError))
      == Err("failed to read response: " + typeError)
    ensures DecodeReply(JObject(map["success" := JString("yes")]), unmarshalError)
      == Err("translation failed: unknown error")
  {
    var bad := map["success" := JString("yes")];
    assert WorkerPool.BoolMember(bad, "success").None?;
    assert "translation failed: " + "unknown error" == "translation failed: unknown error";
  }

  /** The result of `Translate` once `ensureProcess` has returned `ensureError`. */
  function TranslateOutcome(ensureError: Option<string>, writeError: Option<string>, read: ReplyRead): Result<string, string> {
    if ensureError.Some? then Err(ensureError.value)
    else if writeError.Some? then Err("failed to write to stdin: " + writeError.value)
    else match read
      case NoLine(e) => Err("failed to read response: " + ErrorText(e))
      case ReplyLine(v, ue) => DecodeReply(v, ue)
  }

  /** Against the generated program, a request line is translated exactly
      when the library translates its three strings; a library failure
      arrives with the single prefix "translation failed: ". */
  lemma TranslateThroughScript(text: string, sourceLang: string, targetLang: string,
                               line: string, decode: LineDecoder, lib: TranslateWorker.Library, unmarshalError: string)
    requires decode(line) == TranslateWorker.Parsed(RequestLine(text, sourceLang, targetLang))
    ensures var lr := lib(JString(text), JString(sourceLang), JString(targetLang));
      TranslateOutcome(None, None, ReplyLine(ScriptReply(line, decode, lib), unmarshalError))
        == (if lr.Ok? then Ok(lr.value) else Err("translation failed: " + lr.error))
  {
    var f := RequestLine(text, sourceLang, targetLang).fields;
    assert TranslateWorker.Get(f, "text", "") == JString(text);
    assert TranslateWorker.Get(f, "source_lang", "en") == JString(sourceLang);
    assert TranslateWorker.Get(f, "target_lang", "fr") == JString(targetLang);
  }

  // ---------------------------------------------------------------------
  // The subprocess that ensureProcess launches

  const ScriptPath: string := "/app/scripts/translate_worker.py"

  /** `sys.argv` of `python3 /app/scripts/translate_worker.py`: the command
      line `ensureProcess` builds carries no further arguments. */
  const SubprocessArgv: seq<string> := [ScriptPath]

  /** The program launched is the socket worker, whose argument check fails
      on this command line: it writes its usage line and exits with status 1
      before reading any request, so no reply it writes is a translation. */
  lemma LaunchedWorkerRefusesArguments()
    ensures TranslateWorker.ParseArgs(SubprocessArgv) == Err(TranslateWorker.Usage)
  {
  }

  // ---------------------------------------------------------------------
  // The initialized flag

  /** An `exec.Cmd`: whether `Start` succeeded, and its `ProcessState`,
      nil until `Wait` returns and then whether the process exited. */
  datatype Command = Command(started: bool, processState: Option<bool>)

  datatype Pipe = NoPipe | OpenPipe | ClosedPipe

  /** The fields of `PythonTranslator` that change. */
  datatype TranslatorState = TranslatorState(process: Option<Command>, stdin: Pipe, stdout: Pipe, initialized: bool)

  /** The test at the top of `ensureProcess`. */
  predicate Reusable(s: TranslatorState) {
    s.initialized && s.process.Some?
    && (s.process.value.processState.None? || !s.process.value.processState.value)
  }

  /** How creating the pipes and starting the command went. */
  datatype Launch = StdinPipeFails(stdinError: string) | StdoutPipeFails(stdoutError: string)
                  | StartFails(startError: string) | Starts

  /** `ensureProcess`: keep a reusable subprocess, otherwise replace the
      command and try to start it; only a successful start sets `initialized`. */
  function EnsureStep(s: TranslatorState, launch: Launch): (r: (TranslatorState, Option<string>))
    ensures r.1.None? ==> Reusable(r.0)
    ensures r.0.initialized == (s.initialized || r.1.None?)
  {
    if Reusable(s) then (s, None)
    else
      var cmd := Command(launch.Starts?, None);
      match launch
      case StdinPipeFails(e) =>
        (TranslatorState(Some(cmd), NoPipe, s.stdout, s.initialized), Some("failed to create stdin pipe: " + e))
      case StdoutPipeFails(e) =>
        (TranslatorState(Some(cmd), OpenPipe, NoPipe, s.initialized), Some("failed to create stdout pipe: " + e))
      case StartFails(e) =>
        (TranslatorState(Some(cmd), OpenPipe, OpenPipe, s.initialized), Some("failed to start Python process: " + e))
      case Starts =>
        (TranslatorState(Some(cmd), OpenPipe, OpenPipe, true), None)
  }

  /** A reusable subprocess is kept as it is; otherwise the call succeeds
      exactly when the start does, and then the next call reuses it. */
  lemma EnsureStepOutcomes(s: TranslatorState, launch: Launch, next: Launch)
    ensures Reusable(s) ==> EnsureStep(s, launch) == (s, None)
    ensures !Reusable(s) ==> (EnsureStep(s, launch).1.None? <==> launch.Starts?)
    ensures EnsureStep(s, launch).1.None? ==>
      Reusable(EnsureStep(s, launch).0) && EnsureStep(EnsureStep(s, launch).0, next) == (EnsureStep(s, launch).0, None)
  {
  }

  /** After a failed restart of a translator that was initialized, the flag
      is still set and the new command has no `ProcessState`, so the next
      call takes the unstarted command for a running one. */
  lemma FailedRestartLooksReusable(s: TranslatorState, e: string)
    requires s.initialized && !Reusable(s)
    ensures EnsureStep(s, StartFails(e)).1 == Some("failed to start Python process: " + e)
    ensures Reusable(EnsureStep(s, StartFails(e)).0)
    ensures !EnsureStep(s, StartFails(e)).0.process.value.started
  {
  }

  function ClosePipe(p: Pipe): Pipe {
    if p == NoPipe then NoPipe else ClosedPipe
  }

  /** How `Close` ends: its error, or a nil-pointer panic when the command
      was never started (its `Process` is nil). */
  datatype CloseOutcome = Closed(closeError: Option<string>) | Panics

  /** `Close` with the outcome of `Process.Kill`; after `Wait` the killed
      process has a `ProcessState` that does not report a normal exit. */
  function CloseStep(s: TranslatorState, killError: Option<string>): (r: (TranslatorState, CloseOutcome))
    ensures r.0.initialized ==> s.initialized
    ensures s.process.Some? ==> r.0.stdin != OpenPipe && r.0.stdout != OpenPipe
  {
    if s.process.None? then (s, Closed(None))
    else
      var closed := s.(stdin := ClosePipe(s.stdin), stdout := ClosePipe(s.stdout));
      if !s.process.value.started then (closed, Panics)
      else if killError.Some? then (closed, Closed(killError))
      else (closed.(process := Some(s.process.value.(processState := Some(false))), initialized := false), Closed(None))
  }

  /** `Close` without a process changes nothing; a failed kill leaves the
      flag as it was; a successful one clears it, so the next
      `ensureProcess` starts a new subprocess. */
  lemma CloseStepOutcomes(s: TranslatorState, killError: Option<string>, launch: Launch)
    ensures s.process.None? ==> CloseStep(s, killError) == (s, Closed(None))
    ensures CloseStep(s, killError).1.Closed? && CloseStep(s, killError).1.closeError.Some? ==>
      CloseStep(s, killError).0.initialized == s.initialized
    ensures s.process.Some? && s.process.value.started && killError.None? ==>
      !CloseStep(s, killError).0.initialized
      && EnsureStep(CloseStep(s, killError).0, launch).0.process == Some(Command(launch.Starts?, None))
    ensures s.process.Some? ==>
      CloseStep(s, killError).0.stdin != OpenPipe && CloseStep(s, killError).0.stdout != OpenPipe
  {
  }

  /** `PythonTranslator` without its logger, mutex and paths. */
  class PythonTranslator {
    const engine: Factory.EngineType
    var process: Option<Command>
    var stdin: Pipe
    var stdout: Pipe
    var initialized: bool

    function State(): TranslatorState
      reads this
    {
      TranslatorState(process, stdin, stdout, initialized)
    }

    /** `NewPythonTranslator`: nothing started yet. */
    constructor(engine: Factory.EngineType)
      ensures this.engine == engine
      ensures State() == TranslatorState(None, NoPipe, NoPipe, false)
    {
      this.engine := engine;
      process := None;
      stdin := NoPipe;
      stdout := NoPipe;
      initialized := false;
    }

    method EnsureProcess(launch: Launch) returns (err: Option<string>)
      modifies this
      ensures State() == EnsureStep(old(State()), launch).0
      ensures err == EnsureStep(old(State()), launch).1
    {
      if initialized && process.Some? && (process.value.processState.None? || !process.value.processState.value) {
        return None;
      }
      process := Some(Command(false, None));
      if launch.StdinPipeFails? {
        stdin := NoPipe;
        return Some("failed to create stdin pipe: " + launch.stdinError);
      }
      stdin := OpenPipe;
      if launch.StdoutPipeFails? {
        stdout := NoPipe;
        return Some("failed to create stdout pipe: " + launch.stdoutError);
      }
      stdout := OpenPipe;
      if launch.StartFails? {
        return Some("failed to start Python process: " + launch.startError);
      }
      process := Some(Command(true, None));
      initialized := true;
      return None;
    }

    /** `Translate`: make sure a subprocess runs, write the request line,
        read and decode one reply line.  `written` is the line written. */
    method Translate(text: string, sourceLang: string, targetLang: string,
                     launch: Launch, writeError: Option<string>, read: ReplyRead)
      returns (r: Result<string, string>, written: Option<Json>)
      modifies this
      ensures State() == EnsureStep(old(State()), launch).0
      ensures r == TranslateOutcome(EnsureStep(old(State()), launch).1, writeError, read)
      ensures written == if EnsureStep(old(State()), launch).1.None? then Some(RequestLine(text, sourceLang, targetLang)) else None
    {
      var err := EnsureProcess(launch);
      if err.Some? {
        return Err(err.value), None;
      }
      written := Some(RequestLine(text, sourceLang, targetLang));
      if writeError.Some? {
        return Err("failed to write to stdin: " + writeError.value), written;
      }
      match read {
        case NoLine(e) =>
          r := Err("failed to read response: " + ErrorText(e));
        case ReplyLine(v, ue) =>
          r := DecodeReply(v, ue);
      }
    }

    method Close(killError: Option<string>) returns (outcome: CloseOutcome)
      modifies this
      ensures State() == CloseStep(old(State()), killError).0
      ensures outcome == CloseStep(old(State()), killError).1
    {
      if process.None? {
        return Closed(None);
      }
      stdin := ClosePipe(stdin);
      stdout := ClosePipe(stdout);
      if !process.value.started {
        return Panics;
      }
      if killError.Some? {
        return Closed(killError);
      }
      process := Some(process.value.(processState := Some(false)));
      initialized := false;
      return Closed(None);
    }
  }

  /** `SupportedLanguages` lists the same thirty codes as the pool's. */
  const SupportedLanguages: seq<string> := [
    "en", "es", "fr", "de", "it", "pt", "ru", "zh", "ja", "ko",
    "ar", "hi", "tr", "pl", "nl", "sv", "da", "fi", "no", "cs",
    "ro", "hu", "bg", "hr", "sk", "sl", "et", "lv", "lt", "el"]

  lemma SameLanguagesAsPool()
    ensures SupportedLanguages == WorkerPool.SupportedLanguages
  {
  }
}
