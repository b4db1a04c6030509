/** The wire vocabulary of the bus: frames, errors, caller context and method declarations. */
module Frames {
  import opened Prelude

  datatype ProtocolVersion = ProtocolVersion(major: nat, minor: nat)

  const CURRENT := ProtocolVersion(1, 0)

  datatype HttpMethod = Get | Post | Put | Patch | Delete

  datatype MethodDecl = MethodDecl(
    name: string,
    requiresAuth: bool,
    streaming: bool,
    httpMethod: HttpMethod,
    path: Option<string>,
    description: Option<string>)

  datatype DataPlaneSocket = Unix(path: string) | NamedPipe(name: string)

  datatype HelloRequest = HelloRequest(
    protocol: ProtocolVersion,
    service: string,
    version: string,
    pid: nat,
    authToken: string,
    methods: seq<MethodDecl>,
    events: seq<string>,
    dataPlane: Option<DataPlaneSocket>)

  datatype CallerCtx = CallerCtx(
    userId: Option<string>,
    requestId: string,
    workspace: Option<string>,
    callerAppId: Option<string>)

  const DEFAULT_CALLER := CallerCtx(None, "", None, None)

  datatype BusError =
    | Io(msg: string)
    | Codec(msg: string)
    | FrameTooLarge(size: nat, max: nat)
    | ConnectionClosed
    | ProtocolMismatch(broker: ProtocolVersion, client: ProtocolVersion)
    | InvalidAuthToken
    | ServiceNotFound(service: string)
    | MethodNotFound(service: string, methodName: string)
    | Unauthorized(service: string, methodName: string)
    | Timeout(ms: nat)
    | BadRequest(msg: string)
    | Internal(msg: string)
    | App(msg: string)

  type Reply = Result<Bytes, BusError>

  datatype Invoke = Invoke(reqId: nat, methodName: string, payload: Bytes, caller: CallerCtx)

  datatype Event = Event(topic: string, payload: Bytes, from: Option<string>)

  datatype BusFrame =
    | Hello(hello: HelloRequest)
    | HelloAck(clientId: nat, heartbeatMs: nat)
    | Ping
    | Pong
    | Shutdown
    | InvokeFrame(inv: Invoke)
    | ResponseFrame(reqId: nat, reply: Reply)
    | StreamOpen(streamId: nat, streamMethod: string, streamCaller: CallerCtx, initial: Bytes)
    | StreamChunk(streamId: nat, data: Bytes)
    | StreamClose(streamId: nat, streamError: Option<BusError>)
    | Publish(event: Event)
    | Subscribe(topicPrefix: string)
    | Unsubscribe(topicPrefix: string)
    | EventFrame(event: Event)

  // ----- method gate ------------------------------------------------------

  /** The first declaration carrying the name, as `Iterator::find` returns it. */
  function FindDecl(methods: seq<MethodDecl>, name: string): (r: Option<MethodDecl>)
    ensures r.Some? ==> r.value in methods && r.value.name == name
    ensures r.None? <==> forall d :: d in methods ==> d.name != name
  {
    if methods == [] then None
    else if methods[0].name == name then Some(methods[0])
    else FindDecl(methods[1..], name)
  }

  predicate FirstNamed(methods: seq<MethodDecl>, name: string, k: nat) {
    k < |methods| && methods[k].name == name && forall j :: 0 <= j < k ==> methods[j].name != name
  }

  /** A declaration is found exactly when the name occurs, and it is the first one that carries it. */
  lemma {:induction false} FindsFirst(methods: seq<MethodDecl>, name: string)
    ensures FindDecl(methods, name).Some? <==> exists k: nat :: FirstNamed(methods, name, k)
    ensures forall k: nat :: FirstNamed(methods, name, k) ==> FindDecl(methods, name) == Some(methods[k])
  {
    if methods != [] && methods[0].name == name {
      assert FirstNamed(methods, name, 0);
    } else if methods != [] {
      FindsFirst(methods[1..], name);
      if k: nat :| FirstNamed(methods[1..], name, k) {
        assert FirstNamed(methods, name, k + 1);
      }
      forall k: nat | FirstNamed(methods, name, k)
        ensures FirstNamed(methods[1..], name, k - 1)
      {
      }
    }
  }

  /** What the broker demands before it lets a call through to a catalog. */
  predicate Admissible(methods: seq<MethodDecl>, methodName: string, caller: CallerCtx) {
    var d := FindDecl(methods, methodName);
    d.Some? && (d.value.requiresAuth ==> caller.userId.Some?)
  }

  /** The error the gate answers with; only meaningful when the call is not admissible. */
  function GateError(service: string, methods: seq<MethodDecl>, methodName: string): BusError {
    if FindDecl(methods, methodName).None? then MethodNotFound(service, methodName)
    else Unauthorized(service, methodName)
  }

  // ----- what the gate demands, told without it ---------------------------

  predicate Declares(methods: seq<MethodDecl>, name: string) {
    exists d :: d in methods && d.name == name
  }

  /** The first declaration of the name demands a user. */
  ghost predicate NeedsUser(methods: seq<MethodDecl>, name: string) {
    exists k: nat :: FirstNamed(methods, name, k) && methods[k].requiresAuth
  }

  /** The call is declared, and names its user if the first declaration of the method demands one. */
  ghost predicate Admits(methods: seq<MethodDecl>, name: string, caller: CallerCtx) {
    Declares(methods, name) && (NeedsUser(methods, name) ==> caller.userId.Some?)
  }

  /** The gate lets exactly these calls through, and names the first demand that a refused call does not meet. */
  lemma GateExactly(service: string, methods: seq<MethodDecl>, name: string, caller: CallerCtx)
    ensures Admissible(methods, name, caller) <==> Admits(methods, name, caller)
    ensures !Declares(methods, name) ==> GateError(service, methods, name) == MethodNotFound(service, name)
    ensures Declares(methods, name) ==> GateError(service, methods, name) == Unauthorized(service, name)
  {
    FindsFirst(methods, name);
    if FindDecl(methods, name).Some? {
      var k: nat :| FirstNamed(methods, name, k);
      assert NeedsUser(methods, name) <==> methods[k].requiresAuth;
    }
  }

  // ----- `service.method` addressing --------------------------------------

  function Join(service: string, methodName: string): string {
    service + "." + methodName
  }

  /** `str::split_once('.')`: cut at the first dot. */
  function SplitOnce(s: string): (r: Option<(string, string)>)
    ensures r.None? <==> '.' !in s
    ensures r.Some? ==> s == Join(r.value.0, r.value.1) && '.' !in r.value.0
  {
    if s == "" then None
    else if s[0] == '.' then
      assert s == Join("", s[1..]);
      Some(("", s[1..]))
    else
      match SplitOnce(s[1..])
      case None => None
      case Some(p) =>
        assert s == Join([s[0]] + p.0, p.1);
        Some(([s[0]] + p.0, p.1))
  }

  /** Addressing round trip: the broker recovers the pair a client joined exactly when the service name has no dot. */
  lemma {:induction false} JoinSplitRoundTrip(service: string, methodName: string)
    ensures SplitOnce(Join(service, methodName)) == Some((service, methodName)) <==> '.' !in service
  {
    if '.' !in service {
      SplitJoined(service, methodName);
    }
  }

  lemma {:induction false} SplitJoined(service: string, methodName: string)
    requires '.' !in service
    ensures SplitOnce(Join(service, methodName)) == Some((service, methodName))
  {
    if service == "" {
      assert Join(service, methodName)[1..] == methodName;
    } else {
      assert Join(service, methodName)[1..] == Join(service[1..], methodName);
      SplitJoined(service[1..], methodName);
      assert [service[0]] + service[1..] == service;
    }
  }
}
