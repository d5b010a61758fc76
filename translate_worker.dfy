/** The Python translation worker (scripts/translate_worker.py): one request
    per connection, read with a single `recv(4096)`, answered with one JSON
    line.  Decoding of the bytes (`bytes.decode` and `json.loads`) and the
    argostranslate library are parameters: the model fixes what the worker
    does with their outcomes. */
module TranslateWorker {
  import opened Wrappers
  import opened Json

  /** Bytes on the socket. */
  type Bytes = seq<bv8>

  /** What `json.loads(data.decode('utf-8'))` makes of the bytes read. */
  datatype Decoded =
    | Parsed(value: Json)
      /** `json.JSONDecodeError`, with the text of `str(e)`. */
    | SyntaxError(detail: string)
      /** Any other exception on the way, `UnicodeDecodeError` for bytes that
          are not UTF-8, with the text of `str(e)`. */
    | DecodeFailure(message: string)

  type Decoder = Bytes -> Decoded

  /** `argostranslate.translate.translate` with its package lookup: the
      values the request carried go in, a string or the `str(e)` of the
      exception it raised comes out. */
  type Library = (Json, Json, Json) -> Result<string, string>

  /** The buffer size of the single `conn.recv`. */
  const RecvSize: nat := 4096

  /** `conn.recv(4096)`: at most the first 4096 bytes of what the client sent. */
  function Recv(sent: Bytes): (data: Bytes)
    ensures |data| <= RecvSize && |data| <= |sent| && data == sent[..|data|]
    ensures |data| == RecvSize || data == sent
  {
    if |sent| <= RecvSize then sent else sent[..RecvSize]
  }

  /** Python's type name of a decoded JSON value. */
  function TypeName(v: Json): string {
    match v
    case JNull => "NoneType"
    case JBool(_) => "bool"
    case JNumber(_) => "int"
    case JString(_) => "str"
    case JArray(_) => "list"
    case JObject(_) => "dict"
  }

  /** `str(e)` of the `AttributeError` raised by `request.get` on a value
      that is not a dict. */
  function NoGetMessage(v: Json): string {
    "'" + TypeName(v) + "' object has no attribute 'get'"
  }

  /** `request.get(key, default)`. */
  function Get(fields: map<string, Json>, key: string, default: string): Json {
    if key in fields then fields[key] else JString(default)
  }

  /** `translate_text`: the library's failure is re-raised with a prefix. */
  function TranslateText(lib: Library, text: Json, source: Json, target: Json): (r: Result<string, string>)
    ensures r.Ok? <==> lib(text, source, target).Ok?
    ensures r.Ok? ==> r.value == lib(text, source, target).value
    ensures r.Err? ==> r.error == "Translation failed: " + lib(text, source, target).error
  {
    match lib(text, source, target)
    case Ok(t) => Ok(t)
    case Err(e) => Err("Translation failed: " + e)
  }

  /** The outcome of `handle_request`: its return value and the JSON value
      it sent as one line (`json.dumps(...) + '\n'`), if any. */
  datatype Handled = Handled(handled: bool, reply: Option<Json>)

  function Failure(message: string): Handled {
    Handled(false, Some(Reply(false, "error", message)))
  }

  /** `handle_request` on a connection whose client sent `sent`. */
  function HandleRequest(sent: Bytes, decode: Decoder, lib: Library): (h: Handled)
    ensures h.handled ==> h.reply.Some? && sent != []
  {
    var data := Recv(sent);
    if data == [] then Handled(false, None)
    else
      match decode(data)
      case SyntaxError(detail) => Failure("Invalid JSON: " + detail)
      case DecodeFailure(message) => Failure(message)
      case Parsed(request) =>
        if !request.JObject? then Failure(NoGetMessage(request))
        else
          var f := request.fields;
          match TranslateText(lib, Get(f, "text", ""), Get(f, "source_lang", "en"), Get(f, "target_lang", "fr"))
          case Ok(t) => Handled(true, Some(Reply(true, "translated_text", t)))
          case Err(e) => Failure(e)
  }

  /** Every request that carries bytes gets exactly one reply, whose
      "success" member is the return value; an empty read gets none. The
      request is handled exactly when it decodes to an object and the
      library translates it, and then the reply carries the translation. */
  lemma HandleRequestOutcomes(sent: Bytes, decode: Decoder, lib: Library)
    ensures HandleRequest(sent, decode, lib).reply.None? <==> sent == []
    ensures HandleRequest(sent, decode, lib).reply.None? ==> !HandleRequest(sent, decode, lib).handled
    ensures var h := HandleRequest(sent, decode, lib);
      h.reply.Some? ==>
        (h.reply.value.JObject?
         && h.reply.value.fields.Keys == {"success", if h.handled then "translated_text" else "error"}
         && h.reply.value.fields["success"] == JBool(h.handled))
    ensures var d := decode(Recv(sent));
      HandleRequest(sent, decode, lib).handled <==>
        (sent != [] && d.Parsed? && d.value.JObject?
         && lib(Get(d.value.fields, "text", ""), Get(d.value.fields, "source_lang", "en"),
                Get(d.value.fields, "target_lang", "fr")).Ok?)
  {
    if sent != [] {
      assert Recv(sent) != [];
    }
  }

  /** Undecodable JSON is reported with the "Invalid JSON: " prefix, every
      other exception with its own text and no prefix. */
  lemma HandleRequestErrors(sent: Bytes, decode: Decoder, lib: Library)
    requires sent != []
    ensures decode(Recv(sent)).SyntaxError? ==>
      HandleRequest(sent, decode, lib) == Failure("Invalid JSON: " + decode(Recv(sent)).detail)
    ensures decode(Recv(sent)).DecodeFailure? ==>
      HandleRequest(sent, decode, lib) == Failure(decode(Recv(sent)).message)
    ensures decode(Recv(sent)).Parsed? && !decode(Recv(sent)).value.JObject? ==>
      HandleRequest(sent, decode, lib) == Failure("'" + TypeName(decode(Recv(sent)).value) + "' object has no attribute 'get'")
  {
    assert Recv(sent) != [];
  }

  /** The library's failure reaches the client as "Translation failed: "
      followed by its message. */
  lemma HandleRequestLibraryFailure(sent: Bytes, decode: Decoder, lib: Library, text: Json, source: Json, target: Json)
    requires sent != [] && decode(Recv(sent)) == Parsed(JObject(map["text" := text, "source_lang" := source, "target_lang" := target]))
    requires lib(text, source, target).Err?
    ensures HandleRequest(sent, decode, lib) == Failure("Translation failed: " + lib(text, source, target).error)
  {
    assert Recv(sent) != [];
    var f := map["text" := text, "source_lang" := source, "target_lang" := target];
    assert Get(f, "text", "") == text && Get(f, "source_lang", "en") == source && Get(f, "target_lang", "fr") == target;
  }

  /** Missing members take the defaults '', 'en' and 'fr'. */
  lemma HandleRequestDefaults(sent: Bytes, decode: Decoder, lib: Library)
    requires sent != [] && decode(Recv(sent)) == Parsed(JObject(map[]))
    ensures lib(JString(""), JString("en"), JString("fr")).Ok? ==>
      HandleRequest(sent, decode, lib) == Handled(true, Some(Reply(true, "translated_text", lib(JString(""), JString("en"), JString("fr")).value)))
    ensures lib(JString(""), JString("en"), JString("fr")).Err? ==>
      HandleRequest(sent, decode, lib) == Failure("Translation failed: " + lib(JString(""), JString("en"), JString("fr")).error)
  {
    assert Recv(sent) != [];
  }

  /** Only the first 4096 bytes are ever read: two requests that agree on
      them are answered alike, whatever follows. */
  lemma HandleRequestReadsOnePrefix(a: Bytes, b: Bytes, decode: Decoder, lib: Library)
    requires |a| >= RecvSize && |b| >= RecvSize && a[..RecvSize] == b[..RecvSize]
    ensures HandleRequest(a, decode, lib) == HandleRequest(b, decode, lib)
  {
    assert Recv(a) == Recv(b);
  }

  const Usage: string := "Usage: translate_worker.py --socket /path/to/socket"

  /** The argument check of `main`: `sys.argv` must hold at least three
      entries with "--socket" second; the socket path is the third. */
  function ParseArgs(argv: seq<string>): (r: Result<string, string>)
    ensures r.Ok? <==> |argv| >= 3 && argv[1] == "--socket"
    ensures r.Ok? ==> r.value == argv[2]
    ensures r.Err? ==> r.error == Usage
  {
    if |argv| < 3 || argv[1] != "--socket" then Err(Usage) else Ok(argv[2])
  }

  /** `main`: on bad arguments the usage line and exit status 1 and no
      connection served; otherwise each accepted connection handled in turn
      until the accept loop is interrupted (here: until `connections` runs
      out), then exit status 0.  Binding, listening and `chmod` of the
      socket are not part of this model. */
  method Serve(argv: seq<string>, connections: seq<Bytes>, decode: Decoder, lib: Library)
    returns (exitCode: int, replies: seq<Option<Json>>)
    ensures ParseArgs(argv).Err? ==> exitCode == 1 && replies == []
    ensures ParseArgs(argv).Ok? ==> exitCode == 0 && |replies| == |connections|
    ensures ParseArgs(argv).Ok? ==>
      forall i :: 0 <= i < |connections| ==> replies[i] == HandleRequest(connections[i], decode, lib).reply
  {
    if |argv| < 3 || argv[1] != "--socket" {
      return 1, [];
    }
    replies := [];
    var i := 0;
    while i < |connections|
      invariant 0 <= i <= |connections| && |replies| == i
      invariant forall k :: 0 <= k < i ==> replies[k] == HandleRequest(connections[k], decode, lib).reply
    {
      var h := HandleRequest(connections[i], decode, lib);
      replies := replies + [h.reply];
      i := i + 1;
    }
    exitCode := 0;
  }
}
