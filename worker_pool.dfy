/** The pool of Python translation workers (pkg/translate/worker_pool.go):
    reading a worker's resident memory from its `/proc` status text, the
    exchange of one request and one response with a worker, the removal of
    dead workers from the pool, the socket naming and the fixed language
    list.  Process start-up, sockets, channels and timers are outside the
    model: their outcomes are parameters. */
module WorkerPool {
  import opened Wrappers
  import opened Text
  import opened Decimal
  import opened Json
  import TranslateWorker
  import Translator

  // ---------------------------------------------------------------------
  // getProcessMemory, after the status file has been read

  const VmRSSPrefix: string := "VmRSS:"

  /** The kilobyte count of a usable `VmRSS:` line: the prefix, at least two
      fields, and a second field that `strconv.ParseInt` accepts. */
  function LineKB(line: string): (kb: Option<int>)
    ensures kb.Some? ==> HasPrefix(line, VmRSSPrefix) && Int64Min <= kb.value <= Int64Max
  {
    if !HasPrefix(line, VmRSSPrefix) then None
    else
      var fields := Fields(line);
      if |fields| < 2 then None else ParseInt64(fields[1])
  }

  /** The memory the scan of `lines` reports: the first usable line's
      kilobytes times 1024 in 64-bit arithmetic, or 0. */
  function MemoryOf(lines: seq<string>): (bytes: int)
    ensures Int64Min <= bytes <= Int64Max
  {
    if lines == [] then 0
    else match LineKB(lines[0])
      case Some(kb) => Wrap64(kb * 1024)
      case None => MemoryOf(lines[1..])
  }

  /** `getProcessMemory` once the status file is read (`None` for a failed
      read): scan the lines and return at the first usable `VmRSS:` line. */
  method ProcessMemory(status: Option<string>) returns (bytes: int)
    ensures status.None? ==> bytes == 0
    ensures status.Some? ==> bytes == MemoryOf(Split(status.value, "\n"))
  {
    if status.None? {
      return 0;
    }
    var lines := Split(status.value, "\n");
    var i := 0;
    while i < |lines|
      invariant 0 <= i <= |lines|
      invariant MemoryOf(lines[i..]) == MemoryOf(lines)
    {
      assert lines[i..][1..] == lines[i + 1..];
      var line := lines[i];
      if HasPrefix(line, VmRSSPrefix) {
        var fields := Fields(line);
        if |fields| >= 2 {
          var kb := ParseInt64(fields[1]);
          if kb.Some? {
            return Wrap64(kb.value * 1024);
          }
        }
      }
      i := i + 1;
    }
    return 0;
  }

  /** The first usable line decides the result; unusable `VmRSS:` lines
      before it are skipped. */
  lemma {:induction false} MemoryFromFirstUsableLine(lines: seq<string>, i: nat)
    requires i < |lines| && LineKB(lines[i]).Some?
    requires forall k :: 0 <= k < i ==> LineKB(lines[k]).None?
    ensures MemoryOf(lines) == Wrap64(LineKB(lines[i]).value * 1024)
  {
    if i > 0 {
      assert LineKB(lines[0]).None?;
      MemoryFromFirstUsableLine(lines[1..], i - 1);
    }
  }

  /** Without a usable line the result is 0. */
  lemma {:induction false} MemoryWithoutUsableLine(lines: seq<string>)
    requires forall k :: 0 <= k < |lines| ==> LineKB(lines[k]).None?
    ensures MemoryOf(lines) == 0
  {
    if lines != [] {
      assert LineKB(lines[0]).None?;
      MemoryWithoutUsableLine(lines[1..]);
    }
  }

  // ---------------------------------------------------------------------
  // The request and the response on the worker socket

  /** `TranslationRequest` as `json.Encoder` writes it (followed by "\n"). */
  function EncodeRequest(text: string, sourceLang: string, targetLang: string): Json {
    JObject(map["text" := JString(text), "source_lang" := JString(sourceLang), "target_lang" := JString(targetLang)])
  }

  /** `TranslationResponse`. */
  datatype Response = Response(success: bool, translatedText: string, error: string)

  /** `TranslationResponse` as `json.Encoder` writes it: the two text
      members are `omitempty`. */
  function EncodeResponse(r: Response): Json {
    JObject(map["success" := JBool(r.success)]
      + (if r.translatedText != "" then map["translated_text" := JString(r.translatedText)] else map[])
      + (if r.error != "" then map["error" := JString(r.error)] else map[]))
  }

  /** A `bool` member decoded by `encoding/json`: absent or null leaves the
      zero value, a value of another type is a type error (`None`). */
  function BoolMember(f: map<string, Json>, key: string): Option<bool> {
    if key !in f || f[key].JNull? then Some(false)
    else if f[key].JBool? then Some(f[key].b)
    else None
  }

  /** A `string` member decoded by `encoding/json`, as `BoolMember`. */
  function StringMember(f: map<string, Json>, key: string): Option<string> {
    if key !in f || f[key].JNull? then Some("")
    else if f[key].JString? then Some(f[key].s)
    else None
  }

  /** `decoder.Decode(&resp)` on the value read: JSON null leaves the zero
      response, an object fills the three members and ignores the others,
      anything else or a member of the wrong type is a type error (`None`). */
  function DecodeResponse(v: Json): (r: Option<Response>)
    ensures v.JNull? ==> r == Some(Response(false, "", ""))
    ensures !v.JNull? && !v.JObject? ==> r.None?
  {
    match v
    case JNull => Some(Response(false, "", ""))
    case JObject(f) =>
      var success := BoolMember(f, "success");
      var text := StringMember(f, "translated_text");
      var error := StringMember(f, "error");
      if success.Some? && text.Some? && error.Some? then Some(Response(success.value, text.value, error.value))
      else None
    case _ => None
  }

  /** What the pool's encoder writes, its decoder reads back. */
  lemma ResponseRoundTrip(r: Response)
    ensures DecodeResponse(EncodeResponse(r)) == Some(r)
  {
    var f := EncodeResponse(r).fields;
    assert BoolMember(f, "success") == Some(r.success);
    assert StringMember(f, "translated_text") == Some(r.translatedText);
    assert StringMember(f, "error") == Some(r.error);
  }

  /** How far one `Translate` call gets with a worker.  Waiting, dialling,
      writing and reading are outside the model; their outcomes are this
      value.  `Answered` carries the JSON value read and the message
      `encoding/json` gives if that value does not fit the response type. */
  datatype Exchange =
    | WaitTimedOut
    | Cancelled(contextError: string)
    | DialFailed(dialError: string)
    | SendFailed(writeError: string)
    | ClosedBeforeReply
    | ReadFailed(readError: string)
    | Answered(value: Json, typeError: string)

  /** The result `Translate` returns for an exchange. */
  function PoolResult(x: Exchange): (r: Result<string, string>)
    ensures r.Ok? ==> x.Answered? && DecodeResponse(x.value).Some? && DecodeResponse(x.value).value.success
  {
    match x
    case WaitTimedOut => Err("timeout waiting for available worker")
    case Cancelled(e) => Err(e)
    case DialFailed(e) => Err("failed to connect to worker socket: " + e)
    case SendFailed(e) => Err("failed to send request: " + e)
    case ClosedBeforeReply => Err("worker connection closed")
    case ReadFailed(e) => Err("failed to read response: " + e)
    case Answered(v, typeError) =>
      match DecodeResponse(v)
      case None => Err("failed to read response: " + typeError)
      case Some(resp) =>
        if !resp.success then Err("translation failed: " + resp.error) else Ok(resp.translatedText)
  }

  /** `Translate` returns text exactly when a worker answered with a
      response whose success is true, and that text is the response's
      translated_text; an answer with success false becomes the error
      "translation failed: " followed by the worker's error. */
  lemma PoolResultOutcomes(x: Exchange)
    ensures PoolResult(x).Ok? <==>
      x.Answered? && DecodeResponse(x.value).Some? && DecodeResponse(x.value).value.success
    ensures PoolResult(x).Ok? ==> PoolResult(x).value == DecodeResponse(x.value).value.translatedText
    ensures x.Answered? && DecodeResponse(x.value).Some? && !DecodeResponse(x.value).value.success ==>
      PoolResult(x) == Err("translation failed: " + DecodeResponse(x.value).value.error)
    ensures PoolResult(EncodeAnswer(Response(true, "", ""))) == Ok("")
  {
    ResponseRoundTrip(Response(true, "", ""));
  }

  function EncodeAnswer(r: Response): Exchange {
    Answered(EncodeResponse(r), "")
  }

  /** The pool and the Python worker together: a request the worker decodes
      as the object the pool's encoder wrote is translated by the library
      with exactly the three strings, and the library's failure arrives with
      both prefixes. */
  lemma PoolThroughWorker(text: string, sourceLang: string, targetLang: string,
                          sent: TranslateWorker.Bytes, decode: TranslateWorker.Decoder,
                          lib: TranslateWorker.Library, typeError: string)
    requires sent != []
    requires decode(TranslateWorker.Recv(sent)) == TranslateWorker.Parsed(EncodeRequest(text, sourceLang, targetLang))
    ensures TranslateWorker.HandleRequest(sent, decode, lib).reply.Some?
    ensures var reply := TranslateWorker.HandleRequest(sent, decode, lib).reply.value;
      var lr := lib(JString(text), JString(sourceLang), JString(targetLang));
      PoolResult(Answered(reply, typeError))
        == (if lr.Ok? then Ok(lr.value) else Err("translation failed: Translation failed: " + lr.error))
  {
    var lr := lib(JString(text), JString(sourceLang), JString(targetLang));
    WorkerReplyOf(text, sourceLang, targetLang, sent, decode, lib);
    ReplyToPool(lr, typeError);
  }

  /** What the worker answers to the pool's request: the library's result. */
  lemma WorkerReplyOf(text: string, sourceLang: string, targetLang: string,
                      sent: TranslateWorker.Bytes, decode: TranslateWorker.Decoder, lib: TranslateWorker.Library)
    requires sent != []
    requires decode(TranslateWorker.Recv(sent)) == TranslateWorker.Parsed(EncodeRequest(text, sourceLang, targetLang))
    ensures var lr := lib(JString(text), JString(sourceLang), JString(targetLang));
      TranslateWorker.HandleRequest(sent, decode, lib).reply
        == Some(if lr.Ok? then Reply(true, "translated_text", lr.value)
                else Reply(false, "error", "Translation failed: " + lr.error))
  {
    assert TranslateWorker.Recv(sent) != [];
    var f := EncodeRequest(text, sourceLang, targetLang).fields;
    assert TranslateWorker.Get(f, "text", "") == JString(text);
    assert TranslateWorker.Get(f, "source_lang", "en") == JString(sourceLang);
    assert TranslateWorker.Get(f, "target_lang", "fr") == JString(targetLang);
  }

  /** The pool's reading of the worker's two replies. */
  lemma ReplyToPool(lr: Result<string, string>, typeError: string)
    ensures PoolResult(Answered(if lr.Ok? then Reply(true, "translated_text", lr.value)
                                else Reply(false, "error", "Translation failed: " + lr.error), typeError))
         == (if lr.Ok? then Ok(lr.value) else Err("translation failed: Translation failed: " + lr.error))
  {
    if lr.Ok? {
      assert DecodeResponse(Reply(true, "translated_text", lr.value)) == Some(Response(true, lr.value, ""));
    } else {
      var reply := Reply(false, "error", "Translation failed: " + lr.error);
      assert "translation failed: " + ("Translation failed: " + lr.error) == "translation failed: Translation failed: " + lr.error;
      assert DecodeResponse(reply) == Some(Response(false, "", "Translation failed: " + lr.error));
    }
  }

  /** `CheckHealth`: the translation of "test" from "en" to "fr". */
  const HealthRequest: Json := EncodeRequest("test", "en", "fr")

  function CheckHealth(x: Exchange): (err: Option<string>)
    ensures err.None? <==> PoolResult(x).Ok?
    ensures err.Some? ==> err.value == PoolResult(x).error
  {
    match PoolResult(x)
    case Ok(_) => None
    case Err(e) => Some(e)
  }

  // ---------------------------------------------------------------------
  // Workers and their removal

  /** A worker's process as Go sees it: `ProcessState` is nil until `Wait`
      returns, and then says whether the process exited (rather than being
      killed by a signal). */
  datatype ProcState = Running | Waited(exited: bool)

  /** `TranslationWorker` without its socket connection, logger and pool
      pointer; `lastUsed` is `None` for Go's zero time. */
  datatype Worker = Worker(id: int, socketPath: string, process: ProcState, busy: bool, lastUsed: Option<int>)

  /** The health check's test for a dead worker. */
  predicate Dead(w: Worker) {
    w.process.Waited? && w.process.exited
  }

  /** The splice of `healthCheckWorkers`: drop the first worker with `id`. */
  function RemoveFirst(ws: seq<Worker>, id: int): (r: seq<Worker>)
    ensures |r| <= |ws| <= |r| + 1
    ensures forall w :: w in r ==> w in ws
  {
    if ws == [] then []
    else if ws[0].id == id then ws[1..]
    else [ws[0]] + RemoveFirst(ws[1..], id)
  }

  lemma {:induction false} RemoveFirstAt(ws: seq<Worker>, id: int, i: nat)
    requires i < |ws| && ws[i].id == id
    requires forall k :: 0 <= k < i ==> ws[k].id != id
    ensures RemoveFirst(ws, id) == ws[..i] + ws[i + 1..]
  {
    if i > 0 {
      RemoveFirstAt(ws[1..], id, i - 1);
      assert ws[1..][..i - 1] == ws[1..i];
      assert ws[1..][i..] == ws[i + 1..];
      assert [ws[0]] + ws[1..i] == ws[..i];
    }
  }

  lemma {:induction false} RemoveFirstAbsent(ws: seq<Worker>, id: int)
    requires forall k :: 0 <= k < |ws| ==> ws[k].id != id
    ensures RemoveFirst(ws, id) == ws
  {
    if ws != [] {
      RemoveFirstAbsent(ws[1..], id);
    }
  }

  lemma {:induction false} RemoveFirstAfter(a: seq<Worker>, b: seq<Worker>, id: int)
    requires forall k :: 0 <= k < |a| ==> a[k].id != id
    ensures RemoveFirst(a + b, id) == a + RemoveFirst(b, id)
  {
    if a != [] {
      RemoveFirstAfter(a[1..], b, id);
      calc {
        RemoveFirst(a + b, id);
        { assert (a + b)[0] == a[0] && (a + b)[1..] == a[1..] + b; }
        [a[0]] + RemoveFirst(a[1..] + b, id);
        [a[0]] + (a[1..] + RemoveFirst(b, id));
        { assert a == [a[0]] + a[1..]; }
        a + RemoveFirst(b, id);
      }
    } else {
      assert a + b == b;
    }
  }

  /** The scan of `healthCheckWorkers` over its copy `snapshot`, one
      removal per dead worker. */
  function RemoveDead(ws: seq<Worker>, snapshot: seq<Worker>): (r: seq<Worker>)
    ensures |ws| - |snapshot| <= |r| <= |ws|
    ensures forall w :: w in r ==> w in ws
    decreases |snapshot|
  {
    if snapshot == [] then ws
    else RemoveDead(if Dead(snapshot[0]) then RemoveFirst(ws, snapshot[0].id) else ws, snapshot[1..])
  }

  /** The workers that are not dead, in order. */
  function Live(ws: seq<Worker>): (r: seq<Worker>)
    ensures forall w :: w in r ==> w in ws && !Dead(w)
  {
    if ws == [] then []
    else Live(ws[..|ws| - 1]) + (if Dead(ws[|ws| - 1]) then [] else [ws[|ws| - 1]])
  }

  predicate UniqueIds(ws: seq<Worker>) {
    forall i, j :: 0 <= i < j < |ws| ==> ws[i].id != ws[j].id
  }

  lemma {:induction false} RemoveDeadFrom(s: seq<Worker>, k: nat)
    requires UniqueIds(s) && k <= |s|
    ensures RemoveDead(Live(s[..k]) + s[k..], s[k..]) == Live(s)
    decreases |s| - k
  {
    if k == |s| {
      assert s[..k] == s;
      assert s[k..] == [] && Live(s[..k]) + s[k..] == Live(s);
    } else {
      var x := s[k];
      var done := Live(s[..k]);
      assert s[..k + 1][..k] == s[..k];
      assert s[k..] == [x] + s[k + 1..];
      assert s[k..][1..] == s[k + 1..];
      if Dead(x) {
        assert Live(s[..k + 1]) == done;
        forall i | 0 <= i < |done|
          ensures done[i].id != x.id
        {
          assert done[i] in s[..k];
        }
        RemoveFirstAfter(done, s[k..], x.id);
        assert RemoveFirst(done + s[k..], x.id) == Live(s[..k + 1]) + s[k + 1..];
      } else {
        assert Live(s[..k + 1]) == done + [x];
        assert done + s[k..] == Live(s[..k + 1]) + s[k + 1..];
      }
      RemoveDeadFrom(s, k + 1);
    }
  }

  /** When ids are unique, the health check's removals leave exactly the
      workers that are not dead, in their order. */
  lemma HealthCheckKeepsLive(ws: seq<Worker>)
    requires UniqueIds(ws)
    ensures RemoveDead(ws, ws) == Live(ws)
  {
    assert ws[..0] == [] && ws[0..] == ws;
    assert Live(ws[..0]) + ws[0..] == ws;
    RemoveDeadFrom(ws, 0);
  }

  /** `WorkerPool` reduced to its list of workers. */
  class Pool {
    var workers: seq<Worker>

    constructor()
      ensures workers == []
    {
      workers := [];
    }

    /** The inner loop of `healthCheckWorkers`: splice out the first worker
        with `id` and stop. */
    method RemoveWorker(id: int)
      modifies this
      ensures workers == RemoveFirst(old(workers), id)
    {
      var i := 0;
      while i < |workers|
        invariant 0 <= i <= |workers| && workers == old(workers)
        invariant forall k :: 0 <= k < i ==> workers[k].id != id
      {
        if workers[i].id == id {
          RemoveFirstAt(workers, id, i);
          workers := workers[..i] + workers[i + 1..];
          return;
        }
        i := i + 1;
      }
      RemoveFirstAbsent(workers, id);
    }

    /** `healthCheckWorkers` without the restart: scan a copy of the list
        and remove each worker found dead. */
    method HealthCheck()
      modifies this
      ensures workers == RemoveDead(old(workers), old(workers))
    {
      var snapshot := workers;
      var i := 0;
      while i < |snapshot|
        invariant 0 <= i <= |snapshot|
        invariant RemoveDead(workers, snapshot[i..]) == RemoveDead(snapshot, snapshot)
      {
        assert snapshot[i..][1..] == snapshot[i + 1..];
        if Dead(snapshot[i]) {
          RemoveWorker(snapshot[i].id);
        }
        i := i + 1;
      }
    }
  }

  // ---------------------------------------------------------------------
  // Socket naming and languages

  const SocketDir: string := "/tmp/iskoces-workers"

  /** `filepath.Join(socketDir, fmt.Sprintf("worker-%d.sock", id))`; the
      directory is already clean, so the join only adds one separator. */
  function SocketPath(id: int): (p: string)
    ensures HasPrefix(p, SocketDir + "/worker-") && HasSuffix(p, ".sock")
  {
    SocketDir + "/worker-" + FormatInt(id) + ".sock"
  }

  /** Different workers listen on different sockets. */
  lemma SocketPathInjective(a: int, b: int)
    requires SocketPath(a) == SocketPath(b)
    ensures a == b
  {
    var n := |SocketDir + "/worker-"|;
    assert SocketPath(a)[n..|SocketPath(a)| - 5] == FormatInt(a);
    assert SocketPath(b)[n..|SocketPath(b)| - 5] == FormatInt(b);
    FormatIntInjective(a, b);
  }

  /** `SupportedLanguages`: a fixed list, never an error. */
  const SupportedLanguages: seq<string> := [
    "en", "es", "fr", "de", "it", "pt", "ru", "zh", "ja", "ko",
    "ar", "hi", "tr", "pl", "nl", "sv", "da", "fi", "no", "cs",
    "ro", "hu", "bg", "hr", "sk", "sl", "et", "lv", "lt", "el"]

  predicate LowerAsciiCode(c: string) {
    forall i :: 0 <= i < |c| ==> 'a' <= c[i] <= 'z'
  }

  /** A code of lower-case ASCII letters is its own backend code. */
  lemma BackendCodeOfLowerCode(c: string)
    requires LowerAsciiCode(c)
    ensures Translator.ToBackendCode(c) == c
  {
    assert Translator.Lower(c) == c;
  }

  /** Thirty two-letter lower-case codes, each already in backend form. */
  lemma SupportedLanguagesShape()
    ensures |SupportedLanguages| == 30
    ensures forall i :: 0 <= i < |SupportedLanguages| ==> |SupportedLanguages[i]| == 2
    ensures forall i :: 0 <= i < |SupportedLanguages| ==> LowerAsciiCode(SupportedLanguages[i])
    ensures forall i :: 0 <= i < |SupportedLanguages| ==> Translator.ToBackendCode(SupportedLanguages[i]) == SupportedLanguages[i]
  {
    forall i | 0 <= i < |SupportedLanguages|
      ensures LowerAsciiCode(SupportedLanguages[i])
    {
      var c := SupportedLanguages[i];
      assert 'a' <= c[0] <= 'z' && 'a' <= c[1] <= 'z';
    }
    forall i | 0 <= i < |SupportedLanguages|
      ensures Translator.ToBackendCode(SupportedLanguages[i]) == SupportedLanguages[i]
    {
      BackendCodeOfLowerCode(SupportedLanguages[i]);
    }
  }
}
