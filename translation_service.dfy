/** The gRPC translation service (pkg/service/translation_service.go): client
    registration and heartbeats, the title pre-flight check, synchronous
    translation and the echoing stream.  Clock readings are integers in
    nanoseconds passed in by the caller. */
module TranslationService {
  import opened Wrappers
  import opened Text
  import opened Decimal
  import opened JobQueue
  import Translator
  import JobProcessor

  const Second: int := 1_000_000_000
  const Hour: int := 3600 * Second
  /** How long a registration is honoured. */
  const RegistrationTTL: int := 24 * Hour
  const DefaultHeartbeatInterval: int := 30

  /** The two gRPC status codes the service returns. */
  datatype Code = InvalidArgument | Internal

  datatype RpcError = RpcError(code: Code, message: string)

  datatype ClientInfo = ClientInfo(
    clientId: string,
    clientName: string,
    clientVersion: string,
    namespace: string,
    metadata: map<string, string>,
    registeredAt: int,
    lastHeartbeat: int)

  // ---------------------------------------------------------------------
  // Go's %q for the client name

  function HexDigit(d: nat): (c: char)
    requires d < 16
  {
    if d < 10 then DigitChar(d) else ('a' as int + d - 10) as char
  }

  /** The letter of the one-letter escape `strconv.Quote` uses for `c`, if any. */
  function EscapeLetter(c: char): Option<char>
  {
    match c
    case '"' => Some('"')
    case '\\' => Some('\\')
    case '\U{07}' => Some('a')
    case '\U{08}' => Some('b')
    case '\U{0C}' => Some('f')
    case '\n' => Some('n')
    case '\r' => Some('r')
    case '\t' => Some('t')
    case '\U{0B}' => Some('v')
    case _ => None
  }

  /** One character as `strconv.Quote` writes it between the quotes. */
  function QuoteChar(c: char): (q: string)
    ensures q != []
    ensures q == [c] <==> c != '"' && c != '\\' && c >= ' ' && c != '\U{7F}'
  {
    if EscapeLetter(c).Some? then ['\\', EscapeLetter(c).value]
    else if c < ' ' || c == '\U{7F}' then ['\\', 'x', HexDigit(c as int / 16), HexDigit(c as int % 16)]
    else [c]
  }

  function QuoteBody(s: string): string
  {
    if s == [] then "" else QuoteChar(s[0]) + QuoteBody(s[1..])
  }

  /** `fmt.Sprintf("%q", s)`. */
  function Quote(s: string): (q: string)
  {
    "\"" + QuoteBody(s) + "\""
  }

  function HexValue(c: char): (v: int)
  {
    if '0' <= c <= '9' then c as int - '0' as int
    else if 'a' <= c <= 'f' then c as int - 'a' as int + 10
    else -1
  }

  /** The character a one-letter escape stands for. */
  function EscapeValue(c: char): Option<char>
  {
    match c
    case '"' => Some('"')
    case '\\' => Some('\\')
    case 'a' => Some('\U{07}')
    case 'b' => Some('\U{08}')
    case 'f' => Some('\U{0C}')
    case 'n' => Some('\n')
    case 'r' => Some('\r')
    case 't' => Some('\t')
    case 'v' => Some('\U{0B}')
    case _ => None
  }

  /** Reads back the text between the quotes (the escapes `QuoteChar` writes). */
  function UnquoteBody(q: string): Option<string>
    decreases |q|
  {
    if q == [] then Some("")
    else if q[0] != '\\' then
      var rest := UnquoteBody(q[1..]);
      if rest.None? then None else Some([q[0]] + rest.value)
    else if |q| >= 4 && q[1] == 'x' && HexValue(q[2]) >= 0 && HexValue(q[3]) >= 0 then
      var rest := UnquoteBody(q[4..]);
      if rest.None? then None else Some([(HexValue(q[2]) * 16 + HexValue(q[3])) as char] + rest.value)
    else if |q| >= 2 && EscapeValue(q[1]).Some? then
      var rest := UnquoteBody(q[2..]);
      if rest.None? then None else Some([EscapeValue(q[1]).value] + rest.value)
    else None
  }

  /** Every one-letter escape reads back as the character it stands for. */
  lemma EscapeLetterValue(c: char)
    requires EscapeLetter(c).Some?
    ensures EscapeLetter(c).value != 'x' && EscapeValue(EscapeLetter(c).value) == Some(c)
  {
  }

  lemma HexDigitValue(d: nat)
    requires d < 16
    ensures HexValue(HexDigit(d)) == d
  {
  }

  lemma UnquoteChar(c: char, rest: string)
    ensures UnquoteBody(QuoteChar(c) + rest) ==
      (if UnquoteBody(rest).None? then None else Some([c] + UnquoteBody(rest).value))
  {
    var q := QuoteChar(c) + rest;
    if EscapeLetter(c).Some? {
      EscapeLetterValue(c);
      assert q[0] == '\\' && q[1] == EscapeLetter(c).value && q[2..] == rest;
    } else if c < ' ' || c == '\U{7F}' {
      var hi := c as int / 16;
      var lo := c as int % 16;
      HexDigitValue(hi);
      HexDigitValue(lo);
      assert q[0] == '\\' && q[1] == 'x' && q[2] == HexDigit(hi) && q[3] == HexDigit(lo) && q[4..] == rest;
      assert (hi * 16 + lo) as char == c;
    } else {
      assert q[0] == c && q[1..] == rest;
    }
  }

  /** `%q` loses nothing: the text between the quotes reads back as the name. */
  lemma {:induction false} QuoteRoundTrip(s: string)
    ensures UnquoteBody(QuoteBody(s)) == Some(s)
    decreases |s|
  {
    if s != [] {
      QuoteRoundTrip(s[1..]);
      UnquoteChar(s[0], QuoteBody(s[1..]));
      assert [s[0]] + s[1..] == s;
    }
  }

  // ---------------------------------------------------------------------
  // Client ids

  /** The seconds of a clock reading, as `time.Time.Unix` gives them. */
  function UnixSeconds(now: int): int {
    now / Second
  }

  /** The id `RegisterClient` issues at `unixSeconds` with counter `serial`. */
  function ClientId(unixSeconds: int, serial: int): string {
    "iskoces-client-" + FormatInt(unixSeconds) + "-" + FormatInt(serial)
  }

  /** Index of the last '-' in `s`, or -1. */
  function LastDash(s: string): (k: int)
    ensures -1 <= k < |s|
    ensures k >= 0 ==> s[k] == '-'
    ensures forall j :: k < j < |s| ==> s[j] != '-'
  {
    if s == [] then -1
    else if s[|s| - 1] == '-' then |s| - 1
    else LastDash(s[..|s| - 1])
  }

  /** The counter value an id was issued with: the number after its last
      '-', or -1 when there is none. */
  function Serial(id: string): int {
    var k := LastDash(id);
    if k >= 0 && AllDigits(id[k + 1..]) then DigitsValue(id[k + 1..]) else -1
  }

  /** An issued id carries its counter value. */
  lemma SerialOfClientId(t: int, n: nat)
    ensures Serial(ClientId(t, n)) == n
  {
    var p := "iskoces-client-" + FormatInt(t);
    var d := FormatInt(n);
    var id := ClientId(t, n);
    assert id == p + "-" + d;
    assert id[|p|] == '-';
    assert forall j :: |p| < j < |id| ==> id[j] == d[j - |p| - 1];
    assert LastDash(id) == |p|;
    assert id[|p| + 1..] == d;
    DigitsRoundTrip(n);
  }

  // ---------------------------------------------------------------------
  // The client registry

  /** The registry state: the clients by id and the id counter. */
  datatype Registry = Registry(clients: map<string, ClientInfo>, counter: int)

  /** Every stored client is stored under its own id, and every id was
      issued with a counter value not above the current counter. */
  predicate ValidRegistry(reg: Registry) {
    && reg.counter >= 0
    && forall id :: id in reg.clients ==> reg.clients[id].clientId == id && 1 <= Serial(id) <= reg.counter
  }

  datatype RegisterRequest = RegisterRequest(
    clientName: string, clientVersion: string, namespace: string, metadata: map<string, string>)

  datatype RegisterReply = RegisterReply(
    clientId: string, success: bool, message: string, heartbeatIntervalSeconds: int, expiresAt: int)

  /** `RegisterClient` on the registry: the reply and the new registry. */
  function Register(reg: Registry, req: RegisterRequest, now: int, interval: int)
    : (r: (Result<RegisterReply, RpcError>, Registry))
    ensures r.0.Err? <==> req.clientName == ""
    ensures r.0.Err? ==> r.1 == reg
    ensures r.0.Ok? ==> r.1.counter == reg.counter + 1 && r.0.value.clientId in r.1.clients
  {
    if req.clientName == "" then (Err(RpcError(InvalidArgument, "client_name is required")), reg)
    else
      var serial := reg.counter + 1;
      var id := ClientId(UnixSeconds(now), serial);
      var info := ClientInfo(id, req.clientName, req.clientVersion, req.namespace, req.metadata, now, now);
      (Ok(RegisterReply(id, true, "Client " + Quote(req.clientName) + " registered successfully",
                        interval, now + RegistrationTTL)),
       Registry(reg.clients[id := info], serial))
  }

  /** Registration refuses an empty name and changes nothing then; otherwise
      it adds exactly one client under a new id, never overwriting one, and
      the registry stays valid. */
  lemma RegisterAddsFreshClient(reg: Registry, req: RegisterRequest, now: int, interval: int)
    requires ValidRegistry(reg)
    ensures var (r, reg') := Register(reg, req, now, interval);
      && (r.Err? <==> req.clientName == "")
      && (r.Err? ==> r.error == RpcError(InvalidArgument, "client_name is required") && reg' == reg)
      && (r.Ok? ==>
            var id := r.value.clientId;
            && id !in reg.clients
            && HasPrefix(id, "iskoces-client-")
            && reg'.counter == reg.counter + 1
            && reg'.clients == reg.clients[id := ClientInfo(id, req.clientName, req.clientVersion,
                                                            req.namespace, req.metadata, now, now)]
            && |reg'.clients| == |reg.clients| + 1
            && r.value.success && r.value.heartbeatIntervalSeconds == interval
            && r.value.expiresAt == now + RegistrationTTL)
      && ValidRegistry(reg')
  {
    if req.clientName != "" {
      var id := ClientId(UnixSeconds(now), reg.counter + 1);
      var info := ClientInfo(id, req.clientName, req.clientVersion, req.namespace, req.metadata, now, now);
      RegisterAccepts(reg, req, now, interval, info);
      SerialOfClientId(UnixSeconds(now), reg.counter + 1);
      ClientIdPrefix(UnixSeconds(now), reg.counter + 1);
      FreshClient(reg, info);
    }
  }

  /** An accepted registration: the reply and the registry it leaves. */
  lemma RegisterAccepts(reg: Registry, req: RegisterRequest, now: int, interval: int, info: ClientInfo)
    requires req.clientName != ""
    requires info == ClientInfo(ClientId(UnixSeconds(now), reg.counter + 1), req.clientName, req.clientVersion,
                                req.namespace, req.metadata, now, now)
    ensures Register(reg, req, now, interval)
         == (Ok(RegisterReply(info.clientId, true, "Client " + Quote(req.clientName) + " registered successfully",
                              interval, now + RegistrationTTL)),
             Registry(reg.clients[info.clientId := info], reg.counter + 1))
  {
  }

  /** A client whose id carries the next counter value is new, and storing
      it keeps the registry valid. */
  lemma FreshClient(reg: Registry, info: ClientInfo)
    requires ValidRegistry(reg) && Serial(info.clientId) == reg.counter + 1
    ensures info.clientId !in reg.clients
    ensures ValidRegistry(Registry(reg.clients[info.clientId := info], reg.counter + 1))
  {
  }

  lemma ClientIdPrefix(t: int, n: int)
    ensures HasPrefix(ClientId(t, n), "iskoces-client-")
  {
    assert ClientId(t, n)[..|"iskoces-client-"|] == "iskoces-client-";
  }

  datatype HeartbeatRequest = HeartbeatRequest(clientId: string, clientName: string)

  datatype HeartbeatReply = HeartbeatReply(
    success: bool, message: string, receivedAt: int, heartbeatIntervalSeconds: int, reRegisterRequired: bool)

  /** `Heartbeat` on the client map: the reply and the new map. */
  function HeartbeatStep(clients: map<string, ClientInfo>, req: HeartbeatRequest, now: int, interval: int)
    : (r: (Result<HeartbeatReply, RpcError>, map<string, ClientInfo>))
    ensures r.0.Err? <==> req.clientId == "" || req.clientName == ""
    ensures r.1.Keys <= clients.Keys
    ensures r.0.Ok? ==> (r.0.value.reRegisterRequired <==> !r.0.value.success)
  {
    if req.clientId == "" then (Err(RpcError(InvalidArgument, "client_id is required")), clients)
    else if req.clientName == "" then (Err(RpcError(InvalidArgument, "client_name is required")), clients)
    else if req.clientId !in clients then
      (Ok(HeartbeatReply(false, "Client not registered or expired", now, interval, true)), clients)
    else if clients[req.clientId].clientName != req.clientName then
      (Ok(HeartbeatReply(false, "Client name mismatch", now, interval, true)), clients)
    else
      var info := clients[req.clientId].(lastHeartbeat := now);
      if now - info.registeredAt > RegistrationTTL then
        (Ok(HeartbeatReply(false, "Registration expired", now, interval, true)), clients - {req.clientId})
      else
        (Ok(HeartbeatReply(true, "Heartbeat acknowledged", now, interval, false)), clients[req.clientId := info])
  }

  /** A heartbeat is acknowledged exactly for a known client under its own
      name within a day of registering, and then only that client's last
      heartbeat moves; an expired one is dropped; every other heartbeat
      leaves the map alone.  Every refusal asks to register again. */
  lemma HeartbeatOutcomes(clients: map<string, ClientInfo>, req: HeartbeatRequest, now: int, interval: int)
    ensures var (r, clients') := HeartbeatStep(clients, req, now, interval);
      var known := req.clientId in clients && clients[req.clientId].clientName == req.clientName;
      && (r.Err? <==> req.clientId == "" || req.clientName == "")
      && (r.Err? ==> r.error.code == InvalidArgument)
      && (r.Ok? ==> r.value.receivedAt == now && r.value.heartbeatIntervalSeconds == interval
                    && r.value.reRegisterRequired == !r.value.success)
      && (r.Ok? && r.value.success <==>
            r.Ok? && known && now - clients[req.clientId].registeredAt <= RegistrationTTL)
      && (r.Ok? && r.value.success ==>
            clients' == clients[req.clientId := clients[req.clientId].(lastHeartbeat := now)])
      && (r.Ok? && known && now - clients[req.clientId].registeredAt > RegistrationTTL ==>
            r.value.message == "Registration expired" && clients' == clients - {req.clientId})
      && (r.Err? || !known ==> clients' == clients)
  {
  }

  /** The heartbeat keeps the registry valid. */
  lemma HeartbeatKeepsValid(reg: Registry, req: HeartbeatRequest, now: int, interval: int)
    requires ValidRegistry(reg)
    ensures ValidRegistry(Registry(HeartbeatStep(reg.clients, req, now, interval).1, reg.counter))
  {
  }

  /** A client that registered keeps being acknowledged for a day, under its
      name, and is dropped at the first heartbeat after that. */
  lemma RegisterThenHeartbeat(reg: Registry, req: RegisterRequest, now: int, later: int, interval: int)
    requires ValidRegistry(reg) && req.clientName != "" && now <= later
    ensures Register(reg, req, now, interval).0.Ok?
    ensures var out := Register(reg, req, now, interval);
      var h := HeartbeatStep(out.1.clients, HeartbeatRequest(out.0.value.clientId, req.clientName), later, interval);
      && h.0.Ok?
      && (h.0.value.success <==> later - now <= RegistrationTTL)
      && (!h.0.value.success ==> h.1 == reg.clients)
  {
    var id := ClientId(UnixSeconds(now), reg.counter + 1);
    var info := ClientInfo(id, req.clientName, req.clientVersion, req.namespace, req.metadata, now, now);
    RegisterAccepts(reg, req, now, interval, info);
    SerialOfClientId(UnixSeconds(now), reg.counter + 1);
    FreshClient(reg, info);
    HeartbeatOfNewClient(reg.clients, info, later, interval);
  }

  /** A heartbeat from a client just added under its own name. */
  lemma HeartbeatOfNewClient(clients: map<string, ClientInfo>, info: ClientInfo, later: int, interval: int)
    requires info.clientId != "" && info.clientName != "" && info.clientId !in clients
    ensures var h := HeartbeatStep(clients[info.clientId := info], HeartbeatRequest(info.clientId, info.clientName),
                                   later, interval);
      && h.0.Ok?
      && (h.0.value.success <==> later - info.registeredAt <= RegistrationTTL)
      && (!h.0.value.success ==> h.1 == clients)
  {
    assert clients[info.clientId := info] - {info.clientId} == clients;
  }

  /** `CleanupExpiredClients` on the client map. */
  function CleanupClients(clients: map<string, ClientInfo>, now: int, maxIdle: int): (r: map<string, ClientInfo>)
    ensures r.Keys == set id | id in clients && now - clients[id].lastHeartbeat <= maxIdle
    ensures forall id :: id in r ==> r[id] == clients[id]
  {
    map id | id in clients && now - clients[id].lastHeartbeat <= maxIdle :: clients[id]
  }

  /** Cleanup keeps the registry valid and a second cleanup at the same time
      removes nothing more. */
  lemma CleanupClientsProperties(reg: Registry, now: int, maxIdle: int)
    requires ValidRegistry(reg)
    ensures ValidRegistry(Registry(CleanupClients(reg.clients, now, maxIdle), reg.counter))
    ensures CleanupClients(CleanupClients(reg.clients, now, maxIdle), now, maxIdle)
         == CleanupClients(reg.clients, now, maxIdle)
  {
  }

  /** The service object with its client registry. */
  class Service {
    var clients: map<string, ClientInfo>
    var clientIDCounter: int
    const heartbeatInterval: int

    function Snapshot(): Registry
      reads this
    {
      Registry(clients, clientIDCounter)
    }

    predicate Valid()
      reads this
    {
      ValidRegistry(Snapshot())
    }

    /** `NewTranslationService`: no clients, counter 0, 30-second heartbeats. */
    constructor ()
      ensures Valid()
      ensures clients == map[] && clientIDCounter == 0 && heartbeatInterval == DefaultHeartbeatInterval
    {
      clients := map[];
      clientIDCounter := 0;
      heartbeatInterval := DefaultHeartbeatInterval;
    }

    method RegisterClient(req: RegisterRequest, now: int) returns (r: Result<RegisterReply, RpcError>)
      requires Valid()
      modifies this
      ensures Valid()
      ensures (r, Snapshot()) == Register(old(Snapshot()), req, now, heartbeatInterval)
    {
      RegisterAddsFreshClient(Snapshot(), req, now, heartbeatInterval);
      if req.clientName == "" {
        return Err(RpcError(InvalidArgument, "client_name is required"));
      }
      clientIDCounter := clientIDCounter + 1;
      var clientId := ClientId(UnixSeconds(now), clientIDCounter);
      var info := ClientInfo(clientId, req.clientName, req.clientVersion, req.namespace, req.metadata, now, now);
      clients := clients[clientId := info];
      r := Ok(RegisterReply(clientId, true, "Client " + Quote(req.clientName) + " registered successfully",
                            heartbeatInterval, now + RegistrationTTL));
    }

    method Heartbeat(req: HeartbeatRequest, now: int) returns (r: Result<HeartbeatReply, RpcError>)
      requires Valid()
      modifies this
      ensures Valid()
      ensures r == HeartbeatStep(old(clients), req, now, heartbeatInterval).0
      ensures clients == HeartbeatStep(old(clients), req, now, heartbeatInterval).1
      ensures clientIDCounter == old(clientIDCounter)
    {
      HeartbeatKeepsValid(Snapshot(), req, now, heartbeatInterval);
      if req.clientId == "" {
        return Err(RpcError(InvalidArgument, "client_id is required"));
      }
      if req.clientName == "" {
        return Err(RpcError(InvalidArgument, "client_name is required"));
      }
      if req.clientId !in clients {
        return Ok(HeartbeatReply(false, "Client not registered or expired", now, heartbeatInterval, true));
      }
      var info := clients[req.clientId];
      if info.clientName != req.clientName {
        return Ok(HeartbeatReply(false, "Client name mismatch", now, heartbeatInterval, true));
      }
      info := info.(lastHeartbeat := now);
      clients := clients[req.clientId := info];
      if now - info.registeredAt > RegistrationTTL {
        clients := clients - {req.clientId};
        return Ok(HeartbeatReply(false, "Registration expired", now, heartbeatInterval, true));
      }
      r := Ok(HeartbeatReply(true, "Heartbeat acknowledged", now, heartbeatInterval, false));
    }

    /** `GetRegisteredClients`: a copy of every stored client, one each. */
    method GetRegisteredClients() returns (list: seq<ClientInfo>)
      ensures |list| == |clients|
      ensures forall c :: c in list <==> exists id :: id in clients && clients[id] == c
    {
      list := [];
      var rest := clients.Keys;
      while rest != {}
        invariant rest <= clients.Keys
        invariant |list| + |rest| == |clients|
        invariant forall c :: c in list <==> exists id :: id in clients && id !in rest && clients[id] == c
        decreases |rest|
      {
        var id :| id in rest;
        list := list + [clients[id]];
        rest := rest - {id};
      }
    }

    /** `CleanupExpiredClients`: removes the clients whose last heartbeat is
        more than `maxIdle` before `now`. */
    method CleanupExpiredClients(now: int, maxIdle: int)
      requires Valid()
      modifies this
      ensures Valid()
      ensures clients == CleanupClients(old(clients), now, maxIdle)
      ensures clientIDCounter == old(clientIDCounter)
    {
      ghost var orig := clients;
      var ids := clients.Keys;
      assert clients == KeptClients(orig, ids, now, maxIdle);
      while ids != {}
        invariant ids <= orig.Keys
        invariant clients == KeptClients(orig, ids, now, maxIdle)
        invariant clientIDCounter == old(clientIDCounter)
        decreases ids
      {
        var id :| id in ids;
        KeptClientsStep(orig, ids, id, now, maxIdle);
        DropIfIdle(id, now, maxIdle);
        ids := ids - {id};
      }
      CleanupClientsProperties(Registry(orig, clientIDCounter), now, maxIdle);
    }

    /** One visit of the cleanup loop. */
    method DropIfIdle(id: string, now: int, maxIdle: int)
      requires id in clients
      modifies this
      ensures clients == if now - old(clients)[id].lastHeartbeat > maxIdle then old(clients) - {id} else old(clients)
      ensures clientIDCounter == old(clientIDCounter)
    {
      if now - clients[id].lastHeartbeat > maxIdle {
        clients := clients - {id};
      }
    }
  }

  /** The map while the cleanup loop runs: the clients still to visit and
      the visited ones that are not idle. */
  ghost function KeptClients(orig: map<string, ClientInfo>, ids: set<string>, now: int, maxIdle: int)
    : (r: map<string, ClientInfo>)
    ensures ids <= orig.Keys ==> ids <= r.Keys
    ensures forall id :: id in r ==> id in orig && r[id] == orig[id]
    ensures ids == {} ==> r == CleanupClients(orig, now, maxIdle)
  {
    map id | id in orig && (id in ids || now - orig[id].lastHeartbeat <= maxIdle) :: orig[id]
  }

  /** Visiting one client removes it when idle and keeps it otherwise. */
  lemma KeptClientsStep(orig: map<string, ClientInfo>, ids: set<string>, id: string, now: int, maxIdle: int)
    requires id in ids && ids <= orig.Keys
    ensures KeptClients(orig, ids - {id}, now, maxIdle)
         == if now - orig[id].lastHeartbeat > maxIdle then KeptClients(orig, ids, now, maxIdle) - {id}
            else KeptClients(orig, ids, now, maxIdle)
  {
  }

  // ---------------------------------------------------------------------
  // CheckTitle

  datatype TitleCheckRequest = TitleCheckRequest(title: string, languageTag: string, sourceLanguage: string)

  datatype TitleCheckReply = TitleCheckReply(ready: bool, message: string, estimatedTimeSeconds: int)

  /** The time estimate: two seconds plus one per 20 bytes of title, as an
      `int32`, clamped to 2..30. */
  function EstimatedSeconds(title: string): (n: int)
    ensures 2 <= n <= 30
  {
    var e := Wrap32(2 + Utf8Len(title) / 20);
    if e < 2 then 2 else if e > 30 then 30 else e
  }

  /** For any title shorter than 40 gigabytes the estimate grows by one
      second per 20 bytes until it reaches 30. */
  lemma EstimatedSecondsValue(title: string)
    requires Utf8Len(title) < 20 * (Int32Max - 2)
    ensures EstimatedSeconds(title) == if Utf8Len(title) / 20 >= 28 then 30 else 2 + Utf8Len(title) / 20
  {
  }

  /** `CheckTitle`.  `healthError` is the translator's health-check error,
      `None` when it is healthy or when the service has no translator. */
  function CheckTitle(req: TitleCheckRequest, healthError: Option<string>): (r: Result<TitleCheckReply, RpcError>)
    ensures r.Err? <==> req.title == "" || req.languageTag == "" || req.sourceLanguage == ""
    ensures r.Ok? ==> (r.value.ready <==> healthError.None?)
  {
    if req.title == "" then Err(RpcError(InvalidArgument, "title is required"))
    else if req.languageTag == "" then Err(RpcError(InvalidArgument, "language_tag is required"))
    else if req.sourceLanguage == "" then Err(RpcError(InvalidArgument, "source_language is required"))
    else if healthError.Some? then Ok(TitleCheckReply(false, "Translator not ready: " + healthError.value, 0))
    else Ok(TitleCheckReply(true, "Ready to handle translation request", EstimatedSeconds(req.title)))
  }

  /** The request is refused exactly when a field is missing, the first
      missing one named; a complete request is ready exactly when the
      translator is healthy, with an estimate in 2..30 seconds. */
  lemma CheckTitleOutcomes(req: TitleCheckRequest, healthError: Option<string>)
    ensures var r := CheckTitle(req, healthError);
      && (r.Err? <==> req.title == "" || req.languageTag == "" || req.sourceLanguage == "")
      && (r.Err? ==> r.error.code == InvalidArgument)
      && (req.title == "" ==> r.error.message == "title is required")
      && (req.title != "" && req.languageTag == "" ==> r.error.message == "language_tag is required")
      && (r.Ok? ==> (r.value.ready <==> healthError.None?))
      && (r.Ok? && r.value.ready ==> 2 <= r.value.estimatedTimeSeconds <= 30)
      && (r.Ok? && !r.value.ready ==>
            r.value.estimatedTimeSeconds == 0 && r.value.message == "Translator not ready: " + healthError.value)
  {
  }

  // ---------------------------------------------------------------------
  // Translate

  datatype TranslateResponse = TranslateResponse(
    jobId: string,
    success: bool,
    errorMessage: string,
    translatedTitle: string,
    translatedMarkdown: string,
    tokensUsed: int,
    inferenceTime: int,
    completedAt: int)

  /** A failure reply: the call itself succeeds. */
  function Failure(jobId: string, message: string, now: int): TranslateResponse {
    TranslateResponse(jobId, false, message, "", "", 0, 0, now)
  }

  /** Names the generated `PrimitiveType` enum declares besides the two
      supported values. The .proto file is not part of this model; proto3
      requires a zero value, which is `PRIMITIVE_UNSPECIFIED` by convention. */
  const OtherPrimitiveNames: map<int, string> := map[0 := "PRIMITIVE_UNSPECIFIED"]

  /** What `%v` prints for a primitive: the generated `String()` gives the
      declared name, and the decimal number for a value the enum does not
      declare. */
  function PrimitiveName(p: Primitive): (name: string)
    ensures name != []
    ensures name[0] == 'P' <==> !p.PrimitiveOther? || p.code in OtherPrimitiveNames
  {
    match p
    case PrimitiveTitle => "PRIMITIVE_TITLE"
    case PrimitiveDocTranslate => "PRIMITIVE_DOC_TRANSLATE"
    case PrimitiveOther(code) =>
      if code in OtherPrimitiveNames then OtherPrimitiveNames[code] else FormatInt(code)
  }

  /** The text of the unsupported-primitive error names the primitive: no two
      primitives print alike. */
  lemma PrimitiveNameIdentifies(p: Primitive, q: Primitive)
    requires PrimitiveName(p) == PrimitiveName(q)
    ensures p == q
  {
    if p.PrimitiveOther? && p.code !in OtherPrimitiveNames && q.PrimitiveOther? && q.code !in OtherPrimitiveNames {
      FormatIntInjective(p.code, q.code);
    }
  }

  /** The synchronous `Translate`: the engine is called at most once for a
      title request and at most twice (title, then body) for a document;
      `startNow` and `endNow` are the clock at the start and at the end. */
  function Translate(req: TranslateRequest, tr: Option<Translator.Engine>, startNow: int, endNow: int)
    : (r: Result<TranslateResponse, RpcError>)
    ensures r.Ok? ==> r.value.jobId == req.jobId && r.value.tokensUsed == 0 && r.value.completedAt == endNow
  {
    if req.jobId == "" then Err(RpcError(InvalidArgument, "job_id is required"))
    else if req.targetLanguage == "" then Err(RpcError(InvalidArgument, "target_language is required"))
    else if req.sourceLanguage == "" then Err(RpcError(InvalidArgument, "source_language is required"))
    else
      var src := Translator.ToBackendCode(req.sourceLanguage);
      var tgt := Translator.ToBackendCode(req.targetLanguage);
      var success := (title: string, markdown: string) =>
        TranslateResponse(req.jobId, true, "", title, markdown, 0, endNow - startNow, endNow);
      match req.primitive
      case PrimitiveTitle =>
        if req.GetTitle() == "" then Err(RpcError(InvalidArgument, "title is required for PRIMITIVE_TITLE"))
        else if tr.None? then Ok(Failure(req.jobId, "Translator not configured", endNow))
        else
          var t := tr.value(req.GetTitle(), src, tgt);
          if t.Err? then Ok(Failure(req.jobId, "Translation failed: " + t.error, endNow))
          else Ok(success(t.value, ""))
      case PrimitiveDocTranslate =>
        if req.GetDoc().None? then Err(RpcError(InvalidArgument, "doc is required for PRIMITIVE_DOC_TRANSLATE"))
        else if tr.None? then Ok(Failure(req.jobId, "Translator not configured", endNow))
        else
          var doc := req.GetDoc().value;
          var t := if doc.title != "" then tr.value(doc.title, src, tgt) else Ok("");
          if t.Err? then Ok(Failure(req.jobId, "Title translation failed: " + t.error, endNow))
          else
            var m := if doc.markdown != "" then tr.value(doc.markdown, src, tgt) else Ok("");
            if m.Err? then Ok(Failure(req.jobId, "Markdown translation failed: " + m.error, endNow))
            else Ok(success(t.value, m.value))
      case PrimitiveOther(_) =>
        Err(RpcError(InvalidArgument, "unsupported primitive type: " + PrimitiveName(req.primitive)))
  }

  /** The call is refused (an RPC error) exactly for a missing field, a
      missing title or document, or an unsupported primitive; every other
      outcome is a reply for the request's job. */
  lemma TranslateRefusals(req: TranslateRequest, tr: Option<Translator.Engine>, startNow: int, endNow: int)
    ensures var r := Translate(req, tr, startNow, endNow);
      && (r.Err? <==>
            || req.jobId == "" || req.targetLanguage == "" || req.sourceLanguage == ""
            || (req.primitive.PrimitiveTitle? && req.GetTitle() == "")
            || (req.primitive.PrimitiveDocTranslate? && req.GetDoc().None?)
            || req.primitive.PrimitiveOther?)
      && (r.Err? ==> r.error.code == InvalidArgument)
      && (req.jobId == "" ==> r.error.message == "job_id is required")
      && (req.jobId != "" && req.targetLanguage == "" ==> r.error.message == "target_language is required")
      && (req.jobId != "" && req.targetLanguage != "" && req.sourceLanguage == "" ==>
            r.error.message == "source_language is required")
      && (r.Ok? ==> r.value.jobId == req.jobId && r.value.completedAt == endNow && r.value.tokensUsed == 0)
      && (r.Ok? && tr.None? ==> !r.value.success && r.value.errorMessage == "Translator not configured")
      && (r.Ok? && r.value.success ==> r.value.inferenceTime == endNow - startNow && r.value.errorMessage == "")
  {
  }

  /** A request for a primitive other than title and document is refused with
      InvalidArgument and the primitive's printed name; the enum's zero value
      is named, any undeclared value is printed as its number. */
  lemma UnsupportedPrimitive(req: TranslateRequest, tr: Option<Translator.Engine>, startNow: int, endNow: int)
    requires req.jobId != "" && req.targetLanguage != "" && req.sourceLanguage != ""
    requires req.primitive.PrimitiveOther?
    ensures Translate(req, tr, startNow, endNow)
         == Err(RpcError(InvalidArgument, "unsupported primitive type: " + PrimitiveName(req.primitive)))
    ensures req.primitive.code == 0 ==>
      Translate(req, tr, startNow, endNow).error.message == "unsupported primitive type: PRIMITIVE_UNSPECIFIED"
    ensures req.primitive.code !in OtherPrimitiveNames ==>
      Translate(req, tr, startNow, endNow).error.message
        == "unsupported primitive type: " + FormatInt(req.primitive.code)
  {
  }

  /** A title request with a translator succeeds exactly when the engine
      accepts the title, and then carries its translation and no body. */
  lemma TranslateTitle(req: TranslateRequest, engine: Translator.Engine, startNow: int, endNow: int)
    requires req.jobId != "" && req.targetLanguage != "" && req.sourceLanguage != ""
    requires req.primitive.PrimitiveTitle? && req.GetTitle() != ""
    ensures var r := Translate(req, Some(engine), startNow, endNow);
      var t := engine(req.GetTitle(), Translator.ToBackendCode(req.sourceLanguage),
                      Translator.ToBackendCode(req.targetLanguage));
      && r.Ok?
      && (r.value.success <==> t.Ok?)
      && (t.Err? ==> r.value.errorMessage == "Translation failed: " + t.error)
      && (t.Ok? ==> r.value.translatedTitle == t.value && r.value.translatedMarkdown == "")
  {
  }

  /** A document request with a translator succeeds exactly when the engine
      accepts the title (if any) and the body (if any), and returns those
      translations; the first refusal is reported, wrapped. */
  lemma TranslateDocument(req: TranslateRequest, engine: Translator.Engine, startNow: int, endNow: int)
    requires req.jobId != "" && req.targetLanguage != "" && req.sourceLanguage != ""
    requires req.primitive.PrimitiveDocTranslate? && req.GetDoc().Some?
    ensures var r := Translate(req, Some(engine), startNow, endNow);
      var d := req.GetDoc().value;
      var src := Translator.ToBackendCode(req.sourceLanguage);
      var tgt := Translator.ToBackendCode(req.targetLanguage);
      var t := if d.title != "" then engine(d.title, src, tgt) else Ok("");
      var m := if d.markdown != "" then engine(d.markdown, src, tgt) else Ok("");
      && r.Ok?
      && (r.value.success <==> t.Ok? && m.Ok?)
      && (t.Err? ==> r.value.errorMessage == "Title translation failed: " + t.error)
      && (t.Ok? && m.Err? ==> r.value.errorMessage == "Markdown translation failed: " + m.error)
      && (r.value.success ==> r.value.translatedTitle == t.value && r.value.translatedMarkdown == m.value)
  {
  }

  /** Upper-cases a leading ASCII letter. */
  function Capitalise(s: string): (r: string)
  {
    if s != [] && 'a' <= s[0] <= 'z' then [(s[0] as int - 32) as char] + s[1..] else s
  }

  lemma CapitaliseMessage(lower: string, upper: string, e: string)
    requires lower != [] && 'a' <= lower[0] <= 'z'
    requires |upper| == |lower| && upper[0] as int == lower[0] as int - 32 && upper[1..] == lower[1..]
    ensures Capitalise(lower + e) == upper + e
  {
    var s := lower + e;
    assert s[0] == lower[0] && s[1..] == lower[1..] + e;
    calc {
      Capitalise(s);
      [(lower[0] as int - 32) as char] + (lower[1..] + e);
      [upper[0]] + (upper[1..] + e);
      { assert upper == [upper[0]] + upper[1..]; }
      upper + e;
    }
  }

  /** The synchronous call and the asynchronous job agree on a document that
      fits in one chunk: the call succeeds exactly when the job completes,
      with the same translations, and a failed call carries the job's error
      with its first letter capitalised. */
  lemma TranslateAgreesWithJob(req: TranslateRequest, engine: Translator.Engine, job: TranslationJob,
                               s: JobState, chunkSize: int, startNow: int, endNow: int)
    requires req.jobId != "" && req.targetLanguage != "" && req.sourceLanguage != ""
    requires req.primitive.PrimitiveDocTranslate? && req.GetDoc().Some?
    requires job.primitive == req.primitive && job.document == JobDocument(req)
    requires job.sourceLang == req.sourceLanguage && job.targetLang == req.targetLanguage
    requires Utf8Len(req.GetDoc().value.markdown) <= chunkSize
    ensures var r := Translate(req, Some(engine), startNow, endNow);
      var f := Run(s, JobProcessor.ProcessOps(job, Some(engine), chunkSize, startNow, endNow));
      && r.Ok?
      && (r.value.success <==> f.status == Completed)
      && (r.value.success ==> r.value.translatedTitle == f.translatedTitle
                              && r.value.translatedMarkdown == f.translatedMarkdown)
      && (!r.value.success ==> r.value.errorMessage == Capitalise(f.error))
  {
    var d := req.GetDoc().value;
    var src := Translator.ToBackendCode(req.sourceLanguage);
    var tgt := Translator.ToBackendCode(req.targetLanguage);
    var t := if d.title != "" then engine(d.title, src, tgt) else Ok("");
    var m := if d.markdown != "" then engine(d.markdown, src, tgt) else Ok("");
    TranslateDocument(req, engine, startNow, endNow);
    assert job.document == Some(d);
    JobProcessor.ProcessShortDocumentJob(s, job, engine, chunkSize, startNow, endNow);
    OutcomesAgree(Translate(req, Some(engine), startNow, endNow).value,
                  Run(s, JobProcessor.ProcessOps(job, Some(engine), chunkSize, startNow, endNow)), t, m);
  }

  /** A reply and a final job state that both follow the title and body
      translations `t` and `m` agree with each other. */
  lemma OutcomesAgree(r: TranslateResponse, f: JobState, t: Result<string, string>, m: Result<string, string>)
    requires r.success <==> t.Ok? && m.Ok?
    requires t.Err? ==> r.errorMessage == "Title translation failed: " + t.error
    requires t.Ok? && m.Err? ==> r.errorMessage == "Markdown translation failed: " + m.error
    requires r.success ==> r.translatedTitle == t.value && r.translatedMarkdown == m.value
    requires f.status == Completed <==> t.Ok? && m.Ok?
    requires t.Err? ==> f.error == "title translation failed: " + t.error
    requires t.Ok? && m.Err? ==> f.error == "markdown translation failed: " + m.error
    requires f.status == Completed ==> f.translatedTitle == t.value && f.translatedMarkdown == m.value
    ensures r.success <==> f.status == Completed
    ensures r.success ==> r.translatedTitle == f.translatedTitle && r.translatedMarkdown == f.translatedMarkdown
    ensures !r.success ==> r.errorMessage == Capitalise(f.error)
  {
    if t.Err? {
      CapitaliseMessage("title translation failed: ", "Title translation failed: ", t.error);
    } else if m.Err? {
      CapitaliseMessage("markdown translation failed: ", "Markdown translation failed: ", m.error);
    }
  }

  // ---------------------------------------------------------------------
  // TranslateStream

  datatype TranslateChunk = TranslateChunk(jobId: string, chunkIndex: int, isFinal: bool, content: string)

  /** What one `Recv` returns: a chunk, or an error with its message ("EOF"
      when the client closed its side). */
  datatype RecvEvent = Received(chunk: TranslateChunk) | RecvFailed(message: string)

  /** The chunks sent back and the error the stream ends with, if any. */
  datatype StreamRun = StreamRun(sent: seq<TranslateChunk>, err: Option<RpcError>)

  /** The text sent back for a non-final chunk. */
  function EchoContent(content: string, index: int): string {
    content + " [translated chunk " + FormatInt(index) + "]"
  }

  /** The stream loop from the point where `events` are still to come,
      `sendErrs` are the outcomes of the coming `Send` calls (`Some(e)` a
      failure; all succeed once they run out), `jobId` is the job id so far
      and `index` the next chunk index.  Running out of events is the client
      closing the stream. */
  function Stream(events: seq<RecvEvent>, sendErrs: seq<Option<string>>, jobId: string, index: int): (run: StreamRun)
    ensures |run.sent| <= |events|
    ensures forall k :: 0 <= k < |run.sent| - 1 ==> !run.sent[k].isFinal
    ensures run.err.Some? ==> run.err.value.code == Internal
    decreases |events|
  {
    if events == [] || (events[0].RecvFailed? && events[0].message == "EOF") then StreamRun([], None)
    else if events[0].RecvFailed? then
      StreamRun([], Some(RpcError(Internal, "failed to receive chunk: " + events[0].message)))
    else
      var c := events[0].chunk;
      var id := if jobId == "" then c.jobId else jobId;
      var sendErr := if sendErrs == [] then None else sendErrs[0];
      if c.isFinal then
        if sendErr.Some? then StreamRun([], Some(RpcError(Internal, "failed to send final chunk: " + sendErr.value)))
        else StreamRun([TranslateChunk(id, index, true, "[Stream completed]")], None)
      else if sendErr.Some? then StreamRun([], Some(RpcError(Internal, "failed to send chunk: " + sendErr.value)))
      else
        var rest := Stream(events[1..], if sendErrs == [] then [] else sendErrs[1..], id, Wrap32(index + 1));
        StreamRun([TranslateChunk(id, index, false, EchoContent(c.content, index))] + rest.sent, rest.err)
  }

  /** The outcomes of the sends from the `j`-th on. */
  function Remaining(sendErrs: seq<Option<string>>, j: nat): seq<Option<string>> {
    if j < |sendErrs| then sendErrs[j..] else []
  }

  /** One step of the stream loop, from the `i`-th event on. */
  lemma StreamStep(events: seq<RecvEvent>, sendErrs: seq<Option<string>>, i: nat, jobId: string, index: int)
    requires i < |events|
    ensures var sendErr := if i < |sendErrs| then sendErrs[i] else None;
      var e := events[i];
      var id := if e.Received? && jobId == "" then e.chunk.jobId else jobId;
      Stream(events[i..], Remaining(sendErrs, i), jobId, index) ==
        if e.RecvFailed? && e.message == "EOF" then StreamRun([], None)
        else if e.RecvFailed? then StreamRun([], Some(RpcError(Internal, "failed to receive chunk: " + e.message)))
        else if e.chunk.isFinal then
          if sendErr.Some? then StreamRun([], Some(RpcError(Internal, "failed to send final chunk: " + sendErr.value)))
          else StreamRun([TranslateChunk(id, index, true, "[Stream completed]")], None)
        else if sendErr.Some? then StreamRun([], Some(RpcError(Internal, "failed to send chunk: " + sendErr.value)))
        else
          var rest := Stream(events[i + 1..], Remaining(sendErrs, i + 1), id, Wrap32(index + 1));
          StreamRun([TranslateChunk(id, index, false, EchoContent(e.chunk.content, index))] + rest.sent, rest.err)
  {
    assert events[i..][0] == events[i] && events[i..][1..] == events[i + 1..];
    var r := Remaining(sendErrs, i);
    assert r != [] ==> r[0] == sendErrs[i] && r[1..] == Remaining(sendErrs, i + 1);
    assert r == [] ==> Remaining(sendErrs, i + 1) == [];
  }

  lemma SnocShift<T>(a: seq<T>, x: T, b: seq<T>)
    ensures a + ([x] + b) == (a + [x]) + b
  {
  }

  /** `TranslateStream`: receives chunks until the client closes the stream
      or sends a final chunk, echoing each one back; `sent` holds the
      chunks sent, `err` the status returned. */
  method TranslateStream(events: seq<RecvEvent>, sendErrs: seq<Option<string>>)
    returns (sent: seq<TranslateChunk>, err: Option<RpcError>)
    ensures StreamRun(sent, err) == Stream(events, sendErrs, "", 0)
  {
    var jobId := "";
    var chunkIndex := 0;
    var i := 0;
    sent := [];
    while true
      invariant 0 <= i <= |events|
      invariant var r := Stream(events[i..], Remaining(sendErrs, i), jobId, chunkIndex);
        Stream(events, sendErrs, "", 0) == StreamRun(sent + r.sent, r.err)
      decreases |events| - i
    {
      if i == |events| {
        assert events[i..] == [];
        assert sent + [] == sent;
        break;
      }
      StreamStep(events, sendErrs, i, jobId, chunkIndex);
      var recv := events[i];
      if recv.RecvFailed? {
        assert sent + [] == sent;
        if recv.message == "EOF" {
          break;
        }
        return sent, Some(RpcError(Internal, "failed to receive chunk: " + recv.message));
      }
      var sendErr := if i < |sendErrs| then sendErrs[i] else None;
      i := i + 1;
      var chunk := recv.chunk;
      if jobId == "" {
        jobId := chunk.jobId;
      }
      if chunk.isFinal {
        if sendErr.Some? {
          assert sent + [] == sent;
          return sent, Some(RpcError(Internal, "failed to send final chunk: " + sendErr.value));
        }
        sent := sent + [TranslateChunk(jobId, chunkIndex, true, "[Stream completed]")];
        return sent, None;
      }
      if sendErr.Some? {
        assert sent + [] == sent;
        return sent, Some(RpcError(Internal, "failed to send chunk: " + sendErr.value));
      }
      var reply := TranslateChunk(jobId, chunkIndex, false, EchoContent(chunk.content, chunkIndex));
      SnocShift(sent, reply, Stream(events[i..], Remaining(sendErrs, i), jobId, Wrap32(chunkIndex + 1)).sent);
      sent := sent + [reply];
      chunkIndex := Wrap32(chunkIndex + 1);
    }
    err := None;
  }

  /** The client sending `chunks` one by one. */
  function Deliver(chunks: seq<TranslateChunk>): seq<RecvEvent>
  {
    if chunks == [] then [] else [Received(chunks[0])] + Deliver(chunks[1..])
  }

  /** The echoes of non-final chunks, numbered on from `index`: the first
      chunk is answered with number `index`, the rest from `index + 1`. */
  function Echoes(chunks: seq<TranslateChunk>, jobId: string, index: int): seq<TranslateChunk>
  {
    if chunks == [] then []
    else [TranslateChunk(jobId, index, false, EchoContent(chunks[0].content, index))] + Echoes(chunks[1..], jobId, index + 1)
  }

  /** One non-final chunk with its send succeeding, once the job id is set. */
  lemma StreamEchoStep(events: seq<RecvEvent>, jobId: string, index: int)
    requires events != [] && events[0].Received? && !events[0].chunk.isFinal
    requires jobId != "" && 0 <= index < Int32Max
    ensures Stream(events, [], jobId, index)
         == StreamRun([TranslateChunk(jobId, index, false, EchoContent(events[0].chunk.content, index))]
                        + Stream(events[1..], [], jobId, index + 1).sent,
                      Stream(events[1..], [], jobId, index + 1).err)
  {
    assert Wrap32(index + 1) == index + 1;
  }

  /** With every send succeeding, non-final chunks followed by a final one
      are echoed one by one, numbered on from `index`, and the stream is
      closed with "[Stream completed]"; whatever the client sends after the
      final chunk is never read. */
  lemma {:induction false} StreamEchoes(chunks: seq<TranslateChunk>, last: TranslateChunk, after: seq<RecvEvent>,
                                        jobId: string, index: int)
    requires forall k :: 0 <= k < |chunks| ==> !chunks[k].isFinal
    requires last.isFinal && jobId != ""
    requires 0 <= index && index + |chunks| <= Int32Max
    ensures Stream(Deliver(chunks) + [Received(last)] + after, [], jobId, index)
         == StreamRun(Echoes(chunks, jobId, index) + [TranslateChunk(jobId, index + |chunks|, true, "[Stream completed]")], None)
    decreases |chunks|
  {
    var events := Deliver(chunks) + [Received(last)] + after;
    if chunks == [] {
      assert events == [Received(last)] + after;
    } else {
      var fin := TranslateChunk(jobId, index + |chunks|, true, "[Stream completed]");
      var tail := Echoes(chunks[1..], jobId, index + 1);
      var later := Deliver(chunks[1..]) + [Received(last)] + after;
      assert events == [Received(chunks[0])] + later;
      StreamEchoes(chunks[1..], last, after, jobId, index + 1);
      assert index + 1 + |chunks[1..]| == index + |chunks|;
      StreamEchoesCons(chunks[0], later, tail, fin, jobId, index);
    }
  }

  /** The induction step of `StreamEchoes`: one more echoed chunk in front. */
  lemma StreamEchoesCons(c: TranslateChunk, later: seq<RecvEvent>, tail: seq<TranslateChunk>, fin: TranslateChunk,
                         jobId: string, index: int)
    requires !c.isFinal && jobId != "" && 0 <= index < Int32Max
    requires Stream(later, [], jobId, index + 1) == StreamRun(tail + [fin], None)
    ensures Stream([Received(c)] + later, [], jobId, index)
         == StreamRun([TranslateChunk(jobId, index, false, EchoContent(c.content, index))] + tail + [fin], None)
  {
    var events := [Received(c)] + later;
    assert events[1..] == later;
    StreamEchoStep(events, jobId, index);
    var head := TranslateChunk(jobId, index, false, EchoContent(c.content, index));
    assert [head] + (tail + [fin]) == [head] + tail + [fin];
  }

  /** Every chunk in `sent` carries `jobId`. */
  predicate AllForJob(sent: seq<TranslateChunk>, jobId: string) {
    forall k :: 0 <= k < |sent| ==> sent[k].jobId == jobId
  }

  /** The job id of the replies is the one the first chunk carries, when it
      carries one. */
  lemma StreamJobId(events: seq<RecvEvent>, sendErrs: seq<Option<string>>)
    requires events != [] && events[0].Received? && events[0].chunk.jobId != ""
    ensures AllForJob(Stream(events, sendErrs, "", 0).sent, events[0].chunk.jobId)
  {
    var id := events[0].chunk.jobId;
    if !events[0].chunk.isFinal && (sendErrs == [] || sendErrs[0].None?) {
      var tail := if sendErrs == [] then [] else sendErrs[1..];
      var rest := Stream(events[1..], tail, id, Wrap32(0 + 1));
      StreamKeepsJobId(events[1..], tail, id, Wrap32(0 + 1));
      assert Stream(events, sendErrs, "", 0).sent
          == [TranslateChunk(id, 0, false, EchoContent(events[0].chunk.content, 0))] + rest.sent;
    }
  }

  /** Once the job id is set, every reply carries it. */
  lemma {:induction false} StreamKeepsJobId(events: seq<RecvEvent>, sendErrs: seq<Option<string>>, jobId: string, index: int)
    requires jobId != ""
    ensures AllForJob(Stream(events, sendErrs, jobId, index).sent, jobId)
    decreases |events|
  {
    if events != [] && events[0].Received? && !events[0].chunk.isFinal && (sendErrs == [] || sendErrs[0].None?) {
      var tail := if sendErrs == [] then [] else sendErrs[1..];
      var rest := Stream(events[1..], tail, jobId, Wrap32(index + 1));
      StreamKeepsJobId(events[1..], tail, jobId, Wrap32(index + 1));
      assert Stream(events, sendErrs, jobId, index).sent
          == [TranslateChunk(jobId, index, false, EchoContent(events[0].chunk.content, index))] + rest.sent;
    }
  }
}
