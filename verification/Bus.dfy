/** The whole bus as one step relation: one step per map operation, channel operation or await point. */
module Bus {
  import opened Prelude
  import opened Frames
  import opened ServiceRegistry
  import opened BrokerTables
  import opened Connection
  import opened Tokens
  import Client = ClientState

  // ----- calls ---------------------------------------------------------------

  /** Who started a broker call: the embedding host, the routing task of an app's Invoke, or a capability probe. */
  datatype Origin = Host | Routed(conn: nat, reqId: nat, at: nat) | Probe(conn: nat, generation: nat)

  datatype CallPc =
    | FindLocal
    | CheckCatalog
    | RunLocal
    | FindEntry
    | FindSession
    | AllocId
    | PutPending
    | SendInvoke
    | Waiting
    | DropPending
    | Finished
    | StoreCaps
    | Ended

  /** `Answered`: by a Response frame. `LocalAnswer`: by an in-process handler. `Failed`: by the broker itself. */
  datatype Outcome = Answered(reply: Reply) | LocalAnswer(reply: Reply) | Failed(error: BusError)

  function ReplyOf(o: Outcome): Reply {
    match o
    case Answered(r) => r
    case LocalAnswer(r) => r
    case Failed(e) => Err(e)
  }

  /**
   * One run of `call_with_timeout` and of the task around it. `timeoutMs == 0` disables the timeout.
   * `entry`, `handle` and `reqId` are its locals, `slot` its oneshot channel.
   * History: `answeredAt` (position of the Response in the peer's inbound stream).
   */
  datatype Call = Call(
    origin: Origin,
    service: string,
    methodName: string,
    payload: Bytes,
    caller: CallerCtx,
    timeoutMs: nat,
    pc: CallPc,
    entry: Option<ServiceEntry>,
    handle: Option<nat>,
    reqId: nat,
    slot: Option<Reply>,
    answeredAt: nat,
    outcome: Option<Outcome>)

  function NewCall(origin: Origin, service: string, methodName: string, payload: Bytes, caller: CallerCtx,
                   timeoutMs: nat): Call {
    Call(origin, service, methodName, payload, caller, timeoutMs, FindLocal, None, None, 0, None, 0, None)
  }

  function FinishCall(k: Call, o: Outcome): Call {
    k.(pc := Finished, outcome := Some(o))
  }

  /** The routing task spawned for an app's Invoke. */
  function RouteCall(i: nat, at: nat, inv: Invoke, originator: string, timeoutMs: nat): Call {
    match SplitOnce(inv.methodName)
    case None =>
      FinishCall(NewCall(Routed(i, inv.reqId, at), "", inv.methodName, inv.payload, inv.caller, timeoutMs),
                 Failed(BadRequest("invoke method must be `service.method`, got `" + inv.methodName + "`")))
    case Some(p) =>
      NewCall(Routed(i, inv.reqId, at), p.0, p.1, inv.payload,
              inv.caller.(callerAppId := Some(originator)), timeoutMs)
  }

  /** The capability probe spawned for a freshly attached session. */
  function ProbeCall(i: nat, service: string, generation: nat, timeoutMs: nat): Call {
    NewCall(Probe(i, generation), service, "capabilities", ['{' as int, '}' as int], DEFAULT_CALLER, timeoutMs)
  }

  // ----- state ---------------------------------------------------------------

  /** History of the token counter and of token placement. `live` mirrors `tokens` with placement numbers. */
  datatype Mint = Mint(ns: nat, pid: nat, text: string)

  datatype Placement = Placement(service: string, ticket: nat)

  datatype Issuance = Issuance(minted: seq<Mint>, unplaced: set<nat>, placed: seq<Placement>, live: map<string, nat>)

  /**
   * Connection `i` is spread over five sequences of equal length: its `serve` task, outbound channel, inbound
   * stream, session table and peer.
   */
  datatype State = State(
    serves: seq<Serve>,
    chans: seq<Channel>,
    inbs: seq<Inbound>,
    sess: seq<Session>,
    apps: seq<App>,
    calls: seq<Call>,
    reg: RegistryState,
    tab: Tables,
    iss: Issuance)

  predicate Aligned(s: State) {
    |s.chans| == |s.serves| && |s.inbs| == |s.serves| && |s.sess| == |s.serves| && |s.apps| == |s.serves|
  }

  /** Settings: JSON parsing of capability answers, the default call timeout and the heartbeat interval. */
  datatype Config = Config(parse: Bytes -> Option<Capabilities>, defaultTimeoutMs: nat, heartbeatMs: nat)

  const INITIAL := State([], [], [], [], [], [], EMPTY_REGISTRY, EMPTY_TABLES, Issuance([], {}, [], map[]))

  // ----- the embedding host ----------------------------------------------------

  datatype HostAct =
    | Accept(app: App)
    | MintToken(ns: nat, pid: nat)
    | PlaceToken(service: string, ticket: nat)
    | AddLocalCatalog(service: string, methods: seq<MethodDecl>)
    | AddLocalHandler(service: string)
    | StartCall(service: string, methodName: string, payload: Bytes, caller: CallerCtx, timeoutMs: nat)

  ghost predicate HostNext(s: State, t: State, a: HostAct) {
    Aligned(s) &&
    match a
    case Accept(app) =>
      && (app.Managed? ==>
            exists hello, handlers :: app.client == Client.NewClient(hello, handlers)
                                      && Client.HandlersDeclared(hello, handlers))
      && t == s.(serves := s.serves + [NEW_SERVE], chans := s.chans + [NEW_CHANNEL], inbs := s.inbs + [NEW_INBOUND],
                 sess := s.sess + [NEW_SESSION], apps := s.apps + [app])
    case MintToken(ns, pid) =>
      && ns < U64_LIMIT && pid < U32_LIMIT && |s.iss.minted| < U64_LIMIT
      && t == s.(iss := s.iss.(minted := s.iss.minted + [Mint(ns, pid, TokenString(ns, pid, |s.iss.minted|))],
                               unplaced := s.iss.unplaced + {|s.iss.minted|}))
    case PlaceToken(service, ticket) =>
      && ticket in s.iss.unplaced && ticket < |s.iss.minted|
      && t == s.(tab := s.tab.(tokens := s.tab.tokens[service := s.iss.minted[ticket].text]),
                 iss := s.iss.(unplaced := s.iss.unplaced - {ticket},
                               live := s.iss.live[service := |s.iss.placed|],
                               placed := s.iss.placed + [Placement(service, ticket)]))
    case AddLocalCatalog(service, methods) =>
      t == s.(tab := s.tab.(localMethods := s.tab.localMethods[service := methods]))
    case AddLocalHandler(service) =>
      // `register_local_service` fills the catalog first
      && service in s.tab.localMethods
      && t == s.(tab := s.tab.(localServices := s.tab.localServices + {service}))
    case StartCall(service, methodName, payload, caller, timeoutMs) =>
      t == s.(calls := s.calls + [NewCall(Host, service, methodName, payload, caller, timeoutMs)])
  }

  // ----- serve -----------------------------------------------------------------

  datatype ServeAct =
    | ReadHello
    | HelloEnded
    | SpendHelloToken
    | IdentifyClient
    | NumberEntry
    | PublishEntry
    | AckWritten
    | AckLost
    | AttachSession
    | StartProbing
    | ReadResponse
    | ReadPublish
    | ReadSubscription
    | ReadInvoke
    | ReadIgnored
    | StreamEnded
    | WakeCaller
    | TakeSnapshot(order: seq<string>)
    | LookUpSubscriber
    | QueueEvent
    | DetachSession
    | CheckStale
    | DropCapabilities
    | UnpublishEntry
    | ReturnFromServe

  function EntryOf(i: nat, v: Serve): ServiceEntry
    requires v.hello.Some?
  {
    var h := v.hello.value;
    ServiceEntry(h.service, v.generation, i, h.methods, h.pid, h.dataPlane)
  }

  function KeyOf(v: Serve): SessionKey
    requires v.hello.Some?
  {
    SessionKey(v.hello.value.service, v.generation)
  }

  /** `serve` of connection `i` moves to `pc` and nothing else about the task changes. */
  function Goto(s: State, i: nat, pc: ServePc): seq<Serve>
    requires i < |s.serves|
  {
    s.serves[i := s.serves[i].(pc := pc)]
  }

  /** Reading the first frame: anything but a Hello of the broker's major version ends the connection. */
  ghost predicate HelloStep(s: State, t: State, i: nat)
    requires Aligned(s) && i < |s.serves|
  {
    && s.serves[i].pc == AwaitHello && s.inbs[i].stream != []
    && var f := s.inbs[i].stream[0];
       var s1 := s.(inbs := s.inbs[i := Consume(s.inbs[i])]);
       if !f.Hello? then
         t == s1.(serves := Goto(s, i, Closing))
       else if f.hello.protocol.major != CURRENT.major then
         t == s1.(serves := Goto(s, i, Closing),
                  chans := s.chans[i :=
                    Reject(s.chans[i], ResponseFrame(0, Err(ProtocolMismatch(CURRENT, f.hello.protocol))))])
       else
         t == s1.(serves := s.serves[i := s.serves[i].(pc := CheckToken, hello := Some(f.hello))])
  }

  /** The stream ends or fails before a first frame. */
  ghost predicate HelloEndedStep(s: State, t: State, i: nat)
    requires Aligned(s) && i < |s.serves|
  {
    s.serves[i].pc == AwaitHello && t == s.(serves := Goto(s, i, Closing))
  }

  /** `consume_token`: remove, then compare. */
  ghost predicate TokenStep(s: State, t: State, i: nat)
    requires Aligned(s) && i < |s.serves|
  {
    && s.serves[i].pc == CheckToken && s.serves[i].hello.Some?
    && var h := s.serves[i].hello.value;
       var s1 := s.(tab := SpendToken(s.tab, h.service), iss := s.iss.(live := s.iss.live - {h.service}));
       if TokenMatches(s.tab, h.service, h.authToken) then
         && h.service in s.iss.live
         && t == s1.(serves := s.serves[i :=
              s.serves[i].(pc := GetClientId, ticket := Some(s.iss.live[h.service]))])
       else
         t == s1.(serves := Goto(s, i, Closing),
                  chans := s.chans[i := Reject(s.chans[i], ResponseFrame(0, Err(InvalidAuthToken)))])
  }

  /** A client id is drawn and the outbound channel is created. */
  ghost predicate IdentifyStep(s: State, t: State, i: nat)
    requires Aligned(s) && i < |s.serves|
  {
    && s.serves[i].pc == GetClientId
    && t == s.(serves := s.serves[i := s.serves[i].(pc := GetGeneration, clientId := s.tab.nextClientId)],
               chans := s.chans[i := s.chans[i].(open := true)],
               tab := s.tab.(nextClientId := s.tab.nextClientId + 1))
  }

  /** `Registry::insert`, first half. */
  ghost predicate NumberStep(s: State, t: State, i: nat)
    requires Aligned(s) && i < |s.serves|
  {
    && s.serves[i].pc == GetGeneration
    && t == s.(serves := s.serves[i :=
                 s.serves[i].(pc := WriteEntry, generation := TakeGeneration(s.reg).nextGen)],
               reg := TakeGeneration(s.reg))
  }

  /** `Registry::insert`, second half. */
  ghost predicate PublishStep(s: State, t: State, i: nat)
    requires Aligned(s) && i < |s.serves|
  {
    && s.serves[i].pc == WriteEntry && s.serves[i].hello.Some?
    && t == s.(serves := Goto(s, i, WriteAck), reg := PutEntry(s.reg, EntryOf(i, s.serves[i])))
  }

  ghost predicate AckStep(cfg: Config, s: State, t: State, i: nat)
    requires Aligned(s) && i < |s.serves|
  {
    && s.serves[i].pc == WriteAck
    && t == s.(serves := Goto(s, i, Attach),
               chans := s.chans[i := StartWriter(s.chans[i], HelloAck(s.serves[i].clientId, cfg.heartbeatMs))])
  }

  /** The ack cannot be written: `remove_if` and return, without ever attaching a session. */
  ghost predicate AckLostStep(s: State, t: State, i: nat)
    requires Aligned(s) && i < |s.serves|
  {
    s.serves[i].pc == WriteAck && t == s.(serves := Goto(s, i, Unregister))
  }

  ghost predicate AttachStep(s: State, t: State, i: nat)
    requires Aligned(s) && i < |s.serves|
  {
    && s.serves[i].pc == Attach && s.serves[i].hello.Some?
    && t == s.(serves := Goto(s, i, BeginProbe),
               tab := s.tab.(sessions := s.tab.sessions[KeyOf(s.serves[i]) := i]))
  }

  /** `probe_capabilities`: forget the cached set and spawn the probe. */
  ghost predicate ProbeStep(cfg: Config, s: State, t: State, i: nat)
    requires Aligned(s) && i < |s.serves|
  {
    && s.serves[i].pc == BeginProbe && s.serves[i].hello.Some?
    && var svc := s.serves[i].hello.value.service;
       t == s.(serves := Goto(s, i, Loop),
               tab := s.tab.(capabilities := s.tab.capabilities - {svc}),
               calls := s.calls + [ProbeCall(i, svc, s.serves[i].generation, cfg.defaultTimeoutMs)])
  }

  /** The frame loop reads a Response: the waker is taken out here and woken in the next step. */
  ghost predicate ResponseStep(s: State, t: State, i: nat)
    requires Aligned(s) && i < |s.serves|
  {
    && s.serves[i].pc == Loop && s.inbs[i].stream != [] && s.inbs[i].stream[0].ResponseFrame?
    && var ResponseFrame(reqId, reply) := s.inbs[i].stream[0];
       var s1 := s.(inbs := s.inbs[i := Consume(s.inbs[i])]);
       if reqId in s.sess[i].pendingOut then
         t == s1.(sess := s.sess[i := RemoveAnswered(s.sess[i], reqId)],
                  serves := Goto(s, i, Wake(s.sess[i].pendingOut[reqId], reply, |s.inbs[i].consumed|)))
       else
         t == s1
  }

  /** An app publishes: `fanout` starts with the event stamped with the sender. */
  ghost predicate PublicationStep(s: State, t: State, i: nat)
    requires Aligned(s) && i < |s.serves|
  {
    && s.serves[i].pc == Loop && s.inbs[i].stream != [] && s.inbs[i].stream[0].Publish? && s.serves[i].hello.Some?
    && var event := s.inbs[i].stream[0].event.(from := Some(s.serves[i].hello.value.service));
       t == s.(inbs := s.inbs[i := Consume(s.inbs[i])], serves := Goto(s, i, Snapshot(event)))
  }

  ghost predicate SubscriptionStep(s: State, t: State, i: nat)
    requires Aligned(s) && i < |s.serves|
  {
    && s.serves[i].pc == Loop && s.inbs[i].stream != [] && s.serves[i].hello.Some?
    && (s.inbs[i].stream[0].Subscribe? || s.inbs[i].stream[0].Unsubscribe?)
    && var f := s.inbs[i].stream[0];
       var me := s.serves[i].hello.value.service;
       t == s.(inbs := s.inbs[i := Consume(s.inbs[i])],
               tab := if f.Subscribe? then AddSubscription(s.tab, me, f.topicPrefix)
                      else DropSubscription(s.tab, me, f.topicPrefix))
  }

  /** An app's own Invoke: a routing task is spawned so that the loop keeps reading. */
  ghost predicate InvokeStep(cfg: Config, s: State, t: State, i: nat)
    requires Aligned(s) && i < |s.serves|
  {
    && s.serves[i].pc == Loop && s.inbs[i].stream != [] && s.inbs[i].stream[0].InvokeFrame? && s.serves[i].hello.Some?
    && var at := |s.inbs[i].consumed|;
       t == s.(inbs := s.inbs[i := Consume(s.inbs[i])],
               serves := s.serves[i := s.serves[i].(routes := s.serves[i].routes[at := |s.calls|])],
               calls := s.calls + [RouteCall(i, at, s.inbs[i].stream[0].inv, s.serves[i].hello.value.service,
                                             cfg.defaultTimeoutMs)])
  }

  predicate Ignored(f: BusFrame) {
    !f.ResponseFrame? && !f.Publish? && !f.Subscribe? && !f.Unsubscribe? && !f.InvokeFrame?
  }

  ghost predicate IgnoredStep(s: State, t: State, i: nat)
    requires Aligned(s) && i < |s.serves|
  {
    && s.serves[i].pc == Loop && s.inbs[i].stream != [] && Ignored(s.inbs[i].stream[0])
    && t == s.(inbs := s.inbs[i := Consume(s.inbs[i])])
  }

  /** `waker.send`: fills the oneshot while its receiver still exists. */
  ghost predicate WakeStep(s: State, t: State, i: nat)
    requires Aligned(s) && i < |s.serves|
  {
    && s.serves[i].pc.Wake?
    && var k := s.serves[i].pc.call;
       var s1 := s.(serves := Goto(s, i, Loop));
       if k < |s.calls| && (s.calls[k].pc == SendInvoke || s.calls[k].pc == Waiting) then
         t == s1.(calls := s.calls[k :=
                s.calls[k].(slot := Some(s.serves[i].pc.reply), answeredAt := s.serves[i].pc.at)])
       else
         t == s1
  }

  /** The targets are collected under the subscription lock, in whatever order the map yields them. */
  ghost predicate SnapshotStep(s: State, t: State, i: nat, order: seq<string>)
    requires Aligned(s) && i < |s.serves|
  {
    && s.serves[i].pc.Snapshot? && s.serves[i].hello.Some?
    && var ev := s.serves[i].pc.event;
       var targets := Targets(s.tab, s.serves[i].hello.value.service, ev.topic);
       && (forall svc :: svc in order <==> svc in targets)
       && (forall a, b :: 0 <= a < b < |order| ==> order[a] != order[b])
       && t == s.(serves := s.serves[i :=
            s.serves[i].(pc := FanLookup(ev, |s.serves[i].pubs|, order),
                         pubs := s.serves[i].pubs + [Publication(ev, targets, map[], {})])])
  }

  ghost predicate SubscriberStep(s: State, t: State, i: nat)
    requires Aligned(s) && i < |s.serves|
  {
    && s.serves[i].pc.FanLookup?
    && var FanLookup(ev, n, targets) := s.serves[i].pc;
       if targets == [] then
         t == s.(serves := Goto(s, i, Loop))
       else if targets[0] in s.reg.entries then
         t == s.(serves := Goto(s, i,
           FanSend(ev, n, targets[0], s.reg.entries[targets[0]].tx, targets[1..])))
       else
         && n < |s.serves[i].pubs|
         && var p := s.serves[i].pubs[n];
            t == s.(serves := s.serves[i := s.serves[i].(pc := FanLookup(ev, n, targets[1..]),
                      pubs := s.serves[i].pubs[n := p.(skipped := p.skipped + {targets[0]})])])
  }

  ghost predicate EventStep(s: State, t: State, i: nat)
    requires Aligned(s) && i < |s.serves|
  {
    && s.serves[i].pc.FanSend?
    && var FanSend(ev, n, svc, tx, targets) := s.serves[i].pc;
       && tx < |s.chans| && n < |s.serves[i].pubs|
       && var p := s.serves[i].pubs[n];
          t == s.(serves := s.serves[i := s.serves[i].(pc := FanLookup(ev, n, targets),
                    pubs := s.serves[i].pubs[n := p.(served := p.served[svc := tx])])],
                  chans := s.chans[tx := Push(s.chans[tx], EventFrame(ev), ByPublish(i, n))])
  }

  /** End of stream or read error in the frame loop. */
  ghost predicate StreamEndedStep(s: State, t: State, i: nat)
    requires Aligned(s) && i < |s.serves|
  {
    s.serves[i].pc == Loop && t == s.(serves := Goto(s, i, Detach))
  }

  /** `detach_session`, first map operation. */
  ghost predicate DetachStep(s: State, t: State, i: nat)
    requires Aligned(s) && i < |s.serves|
  {
    && s.serves[i].pc == Detach && s.serves[i].hello.Some?
    && t == s.(serves := Goto(s, i, DetachCheck),
               tab := s.tab.(sessions := s.tab.sessions - {KeyOf(s.serves[i])}))
  }

  /** `detach_session`: are the cached capabilities still ours to drop? A missing entry counts as yes. */
  ghost predicate StaleStep(s: State, t: State, i: nat)
    requires Aligned(s) && i < |s.serves|
  {
    && s.serves[i].pc == DetachCheck && s.serves[i].hello.Some?
    && var svc := s.serves[i].hello.value.service;
       t == s.(serves := Goto(s, i,
         if svc in s.reg.entries && !IsCurrent(s.reg, svc, s.serves[i].generation) then Unregister else DetachCaps))
  }

  ghost predicate DropCapsStep(s: State, t: State, i: nat)
    requires Aligned(s) && i < |s.serves|
  {
    && s.serves[i].pc == DetachCaps && s.serves[i].hello.Some?
    && t == s.(serves := Goto(s, i, Unregister),
               tab := s.tab.(capabilities := s.tab.capabilities - {s.serves[i].hello.value.service}))
  }

  ghost predicate UnpublishStep(s: State, t: State, i: nat)
    requires Aligned(s) && i < |s.serves|
  {
    && s.serves[i].pc == Unregister && s.serves[i].hello.Some?
    && t == s.(serves := Goto(s, i, Closing),
               reg := RemoveIf(s.reg, s.serves[i].hello.value.service, s.serves[i].generation))
  }

  /** The writer is aborted and the receiver dropped. */
  ghost predicate ReturnStep(s: State, t: State, i: nat)
    requires Aligned(s) && i < |s.serves|
  {
    && s.serves[i].pc == Closing
    && t == s.(serves := Goto(s, i, Returned), chans := s.chans[i := Close(s.chans[i])])
  }

  ghost predicate ServeNext(cfg: Config, s: State, t: State, i: nat, a: ServeAct) {
    && Aligned(s) && i < |s.serves|
    && match a
       case ReadHello => HelloStep(s, t, i)
       case HelloEnded => HelloEndedStep(s, t, i)
       case SpendHelloToken => TokenStep(s, t, i)
       case IdentifyClient => IdentifyStep(s, t, i)
       case NumberEntry => NumberStep(s, t, i)
       case PublishEntry => PublishStep(s, t, i)
       case AckWritten => AckStep(cfg, s, t, i)
       case AckLost => AckLostStep(s, t, i)
       case AttachSession => AttachStep(s, t, i)
       case StartProbing => ProbeStep(cfg, s, t, i)
       case ReadResponse => ResponseStep(s, t, i)
       case ReadPublish => PublicationStep(s, t, i)
       case ReadSubscription => SubscriptionStep(s, t, i)
       case ReadInvoke => InvokeStep(cfg, s, t, i)
       case ReadIgnored => IgnoredStep(s, t, i)
       case StreamEnded => StreamEndedStep(s, t, i)
       case WakeCaller => WakeStep(s, t, i)
       case TakeSnapshot(order) => SnapshotStep(s, t, i, order)
       case LookUpSubscriber => SubscriberStep(s, t, i)
       case QueueEvent => EventStep(s, t, i)
       case DetachSession => DetachStep(s, t, i)
       case CheckStale => StaleStep(s, t, i)
       case DropCapabilities => DropCapsStep(s, t, i)
       case UnpublishEntry => UnpublishStep(s, t, i)
       case ReturnFromServe => ReturnStep(s, t, i)
  }

  // ----- writer task and stream ----------------------------------------------------

  datatype WireAct = WriteQueued | WriterFailed | OutboundCut(n: nat) | InboundCut(n: nat)

  ghost predicate WireNext(s: State, t: State, i: nat, a: WireAct) {
    && Aligned(s) && i < |s.serves|
    && var ch := s.chans[i];
       match a
       case WriteQueued =>
         ch.writing && ch.queue != [] && t == s.(chans := s.chans[i := WriteOne(ch)])
       case WriterFailed =>
         ch.writing && t == s.(chans := s.chans[i := Close(ch)])
       case OutboundCut(n) =>
         !ch.open && n <= |ch.wire| && t == s.(chans := s.chans[i := Truncate(ch, n)])
       case InboundCut(n) =>
         n <= |s.inbs[i].stream| && t == s.(inbs := s.inbs[i := CutInbound(s.inbs[i], n)])
  }

  // ----- broker calls --------------------------------------------------------------

  datatype CallAct =
    | LookUpLocal
    | GateLocal
    | LocalReturned(reply: Reply)
    | LocalTimedOut
    | LookUpEntry
    | LookUpSession
    | TakeRequestId
    | EnterPending
    | QueueInvoke
    | ReceiveReply
    | SenderDropped
    | DeadlinePassed
    | LeavePending
    | QueueReply
    | VerifyProbe
    | CacheProbe

  /** Some owner still keeps the pending table of connection `j` alive. */
  ghost predicate TableHeld(s: State, j: nat) {
    || (j < |s.serves| && 6 <= Rank(s.serves[j].pc) <= 13)
    || (exists key :: key in s.tab.sessions && s.tab.sessions[key] == j)
    || (exists k :: 0 <= k < |s.calls| && HoldsHandle(s.calls[k], j))
  }

  predicate HoldsHandle(k: Call, j: nat) {
    k.handle == Some(j) && k.pc in {AllocId, PutPending, SendInvoke, Waiting, DropPending}
  }

  /** The sender half of call `k`'s oneshot channel still exists somewhere. */
  ghost predicate SenderAlive(s: State, k: nat)
    requires Aligned(s) && k < |s.calls|
  {
    || (exists j :: 0 <= j < |s.serves| && s.serves[j].pc.Wake? && s.serves[j].pc.call == k)
    || (exists j :: 0 <= j < |s.sess| && TableHeld(s, j)
                    && s.calls[k].reqId in s.sess[j].pendingOut && s.sess[j].pendingOut[s.calls[k].reqId] == k)
  }

  /** What a capability probe does with the outcome of its call. */
  function ProbeResult(cfg: Config, k: Call): Option<Capabilities> {
    match k.outcome
    case Some(o) => (match ReplyOf(o) case Ok(bytes) => cfg.parse(bytes) case Err(_) => None)
    case None => None
  }

  /** Local services take precedence over the registry. */
  ghost predicate LocalLookupStep(s: State, t: State, n: nat)
    requires Aligned(s) && n < |s.calls|
  {
    var k := s.calls[n];
    && k.pc == FindLocal
    && t == s.(calls := s.calls[n := k.(pc := if k.service in s.tab.localServices then CheckCatalog else FindEntry)])
  }

  /** The gate in front of a local handler; without a catalog nothing is checked. */
  ghost predicate LocalGateStep(s: State, t: State, n: nat)
    requires Aligned(s) && n < |s.calls|
  {
    var k := s.calls[n];
    && k.pc == CheckCatalog
    && t == s.(calls := s.calls[n :=
         if k.service in s.tab.localMethods && !Admissible(s.tab.localMethods[k.service], k.methodName, k.caller)
         then FinishCall(k, Failed(GateError(k.service, s.tab.localMethods[k.service], k.methodName)))
         else k.(pc := RunLocal)])
  }

  ghost predicate LocalReturnStep(s: State, t: State, n: nat, reply: Reply)
    requires Aligned(s) && n < |s.calls|
  {
    var k := s.calls[n];
    k.pc == RunLocal && t == s.(calls := s.calls[n := FinishCall(k, LocalAnswer(reply))])
  }

  ghost predicate LocalTimeoutStep(s: State, t: State, n: nat)
    requires Aligned(s) && n < |s.calls|
  {
    var k := s.calls[n];
    k.pc == RunLocal && k.timeoutMs > 0 && t == s.(calls := s.calls[n := FinishCall(k, Failed(Timeout(k.timeoutMs)))])
  }

  /** `registry.get` and the gate on the copied entry. */
  ghost predicate EntryStep(s: State, t: State, n: nat)
    requires Aligned(s) && n < |s.calls|
  {
    var k := s.calls[n];
    && k.pc == FindEntry
    && t == s.(calls := s.calls[n :=
         if k.service !in s.reg.entries then FinishCall(k, Failed(ServiceNotFound(k.service)))
         else
           var e := s.reg.entries[k.service];
           if !Admissible(e.methods, k.methodName, k.caller)
           then FinishCall(k, Failed(GateError(k.service, e.methods, k.methodName)))
           else k.(pc := FindSession, entry := Some(e))])
  }

  ghost predicate HandleStep(s: State, t: State, n: nat)
    requires Aligned(s) && n < |s.calls|
  {
    var k := s.calls[n];
    && k.pc == FindSession && k.entry.Some?
    && var key := SessionKey(k.service, k.entry.value.generation);
       t == s.(calls := s.calls[n :=
         if key in s.tab.sessions then k.(pc := AllocId, handle := Some(s.tab.sessions[key]))
         else FinishCall(k, Failed(ServiceNotFound(k.service)))])
  }

  ghost predicate TakeIdStep(s: State, t: State, n: nat)
    requires Aligned(s) && n < |s.calls|
  {
    var k := s.calls[n];
    && k.pc == AllocId && k.handle.Some? && k.handle.value < |s.sess|
    && var j := k.handle.value;
       t == s.(sess := s.sess[j := TakeReqId(s.sess[j], n)],
               calls := s.calls[n := k.(pc := PutPending, reqId := s.sess[j].nextReqId)])
  }

  ghost predicate EnterPendingStep(s: State, t: State, n: nat)
    requires Aligned(s) && n < |s.calls|
  {
    var k := s.calls[n];
    && k.pc == PutPending && k.handle.Some? && k.handle.value < |s.sess|
    && var j := k.handle.value;
       t == s.(sess := s.sess[j := InsertPending(s.sess[j], k.reqId, n)], calls := s.calls[n := k.(pc := SendInvoke)])
  }

  /** `entry.tx.send`; when the receiver is gone the call fails and leaves its pending entry behind. */
  ghost predicate QueueInvokeStep(s: State, t: State, n: nat)
    requires Aligned(s) && n < |s.calls|
  {
    var k := s.calls[n];
    && k.pc == SendInvoke && k.entry.Some? && k.entry.value.tx < |s.chans|
    && var j := k.entry.value.tx;
       var f := InvokeFrame(Invoke(k.reqId, k.methodName, k.payload, k.caller));
       t == s.(chans := s.chans[j := Push(s.chans[j], f, ByCall(n))],
               calls := s.calls[n := if s.chans[j].open then k.(pc := Waiting)
                                     else FinishCall(k, Failed(ServiceNotFound(k.service)))])
  }

  ghost predicate ReceiveStep(s: State, t: State, n: nat)
    requires Aligned(s) && n < |s.calls|
  {
    var k := s.calls[n];
    k.pc == Waiting && k.slot.Some? && t == s.(calls := s.calls[n := FinishCall(k, Answered(k.slot.value))])
  }

  /** The receiver-dropped arm of the wait. */
  ghost predicate DroppedStep(s: State, t: State, n: nat)
    requires Aligned(s) && n < |s.calls|
  {
    var k := s.calls[n];
    && k.pc == Waiting && k.slot.None? && !SenderAlive(s, n)
    && t == s.(calls := s.calls[n := FinishCall(k, Failed(ConnectionClosed))])
  }

  ghost predicate DeadlineStep(s: State, t: State, n: nat)
    requires Aligned(s) && n < |s.calls|
  {
    var k := s.calls[n];
    k.pc == Waiting && k.timeoutMs > 0 && t == s.(calls := s.calls[n := k.(pc := DropPending)])
  }

  ghost predicate LeavePendingStep(s: State, t: State, n: nat)
    requires Aligned(s) && n < |s.calls|
  {
    var k := s.calls[n];
    && k.pc == DropPending && k.handle.Some? && k.handle.value < |s.sess|
    && var j := k.handle.value;
       t == s.(sess := s.sess[j := RemoveExpired(s.sess[j], k.reqId)],
               calls := s.calls[n := FinishCall(k, Failed(Timeout(k.timeoutMs)))])
  }

  /** The routing task answers the app that sent the Invoke; a closed channel swallows the answer. */
  ghost predicate QueueReplyStep(s: State, t: State, n: nat)
    requires Aligned(s) && n < |s.calls|
  {
    var k := s.calls[n];
    && k.pc == Finished && k.origin.Routed? && k.outcome.Some? && k.origin.conn < |s.chans|
    && var j := k.origin.conn;
       var f := ResponseFrame(k.origin.reqId, ReplyOf(k.outcome.value));
       t == s.(chans := s.chans[j := Push(s.chans[j], f, ByRoute(n))], calls := s.calls[n := k.(pc := Ended)])
  }

  /** The probe keeps an answer only while its own generation is the registered one. */
  ghost predicate VerifyProbeStep(cfg: Config, s: State, t: State, n: nat)
    requires Aligned(s) && n < |s.calls|
  {
    var k := s.calls[n];
    && k.pc == Finished && k.origin.Probe?
    && t == s.(calls := s.calls[n := k.(pc :=
         if ProbeResult(cfg, k).Some? && IsCurrent(s.reg, k.service, k.origin.generation) then StoreCaps else Ended)])
  }

  ghost predicate CacheProbeStep(cfg: Config, s: State, t: State, n: nat)
    requires Aligned(s) && n < |s.calls|
  {
    var k := s.calls[n];
    && k.pc == StoreCaps && ProbeResult(cfg, k).Some?
    && t == s.(calls := s.calls[n := k.(pc := Ended)],
               tab := s.tab.(capabilities := s.tab.capabilities[k.service := Cached(ProbeResult(cfg, k).value, n)]))
  }

  ghost predicate CallNext(cfg: Config, s: State, t: State, n: nat, a: CallAct) {
    && Aligned(s) && n < |s.calls|
    && match a
       case LookUpLocal => LocalLookupStep(s, t, n)
       case GateLocal => LocalGateStep(s, t, n)
       case LocalReturned(reply) => LocalReturnStep(s, t, n, reply)
       case LocalTimedOut => LocalTimeoutStep(s, t, n)
       case LookUpEntry => EntryStep(s, t, n)
       case LookUpSession => HandleStep(s, t, n)
       case TakeRequestId => TakeIdStep(s, t, n)
       case EnterPending => EnterPendingStep(s, t, n)
       case QueueInvoke => QueueInvokeStep(s, t, n)
       case ReceiveReply => ReceiveStep(s, t, n)
       case SenderDropped => DroppedStep(s, t, n)
       case DeadlinePassed => DeadlineStep(s, t, n)
       case LeavePending => LeavePendingStep(s, t, n)
       case QueueReply => QueueReplyStep(s, t, n)
       case VerifyProbe => VerifyProbeStep(cfg, s, t, n)
       case CacheProbe => CacheProbeStep(cfg, s, t, n)
  }

  // ----- the peer --------------------------------------------------------------------

  datatype AppAct =
    | Inject(frame: BusFrame)
    | Drain
    | SendHello
    | ReadInbound
    | StreamDown
    | WriterDown
    | WriteOutbound
    | StartInvoke(service: string, methodName: string, payload: Bytes, caller: CallerCtx,
                  parent: Option<nat>, auto: bool)
    | RegisterInvoke(call: nat)
    | QueueOutbound(call: nat)
    | EmitPublish(topic: string, payload: Bytes)
    | EmitSubscribe(prefix: string)
    | ChangeUser(dispatch: nat, user: Option<string>)
    | Answer(dispatch: nat, reply: Reply)

  /** The peer's view of a connection: itself and the two directions of the stream. */
  datatype Peer = Peer(app: App, inb: Inbound, chan: Channel)

  /** A `BusClient` step: how the client, its outbound stream and what it reads change. */
  ghost predicate ClientNext(c: Peer, d: Peer, a: AppAct)
    requires c.app.Managed?
  {
    var x := c.app.client;
    match a
    case Inject(_) => false
    case Drain => false
    case SendHello =>
      && x.phase.Start?
      && d == c.(app := Managed(x.(phase := Client.AwaitAck, sent := [Hello(x.hello)], why := [Client.Handshake])),
                 inb := Arrive(c.inb, Hello(x.hello)))
    case ReadInbound =>
      && (x.phase.AwaitAck? || x.phase.Running?) && c.chan.wire != []
      && var f := c.chan.wire[0];
         d == c.(chan := Deliver(c.chan),
                 app := Managed(if x.phase.AwaitAck? then Client.HandleAck(x, f)
                                else Client.HandleInbound(x, f, |c.chan.delivered|)))
    case StreamDown =>
      && (x.phase.AwaitAck? || x.phase.Running?)
      && d == c.(app := Managed(Client.Stop(x)), inb := CutInbound(c.inb, |c.inb.stream|))
    case WriterDown =>
      && x.txOpen
      && d == c.(app := Managed(x.(txOpen := false, tx := [])), inb := CutInbound(c.inb, |c.inb.stream|))
    case WriteOutbound =>
      && x.txOpen && x.tx != [] && !c.inb.cut
      && d == c.(app := Managed(x.(tx := x.tx[1..])), inb := Arrive(c.inb, x.tx[0]))
    case StartInvoke(service, methodName, payload, caller, parent, auto) =>
      && (x.phase.Running? || x.phase.Stopped?)
      && (parent.Some? ==> parent.value < |x.dispatches| && x.dispatches[parent.value].reply.None?)
      && (auto ==> exists appId, requestId :: caller == Client.AutoCaller(x, parent, appId, requestId))
      && d == c.(app := Managed(Client.BeginInvoke(x,
                   Client.ClientCall(0, service, methodName, payload, caller, parent, auto,
                                     Client.Allocated, None, 0))))
    case RegisterInvoke(n) =>
      && n < |x.invokes| && x.invokes[n].pc.Allocated?
      && d == c.(app := Managed(Client.InsertPendingInvoke(x, n)))
    case QueueOutbound(n) =>
      && n < |x.invokes| && x.invokes[n].pc.Inserted?
      && d == c.(app := Managed(Client.QueueInvokeFrame(x, n)))
    case EmitPublish(topic, payload) =>
      && (x.phase.Running? || x.phase.Stopped?)
      && d == c.(app := Managed(Client.SendFrame(x, Publish(Event(topic, payload, None)), Client.Plain)))
    case EmitSubscribe(prefix) =>
      && (x.phase.Running? || x.phase.Stopped?)
      && d == c.(app := Managed(Client.SendFrame(x, Subscribe(prefix), Client.Plain)))
    case ChangeUser(n, user) =>
      && n < |x.dispatches| && x.dispatches[n].reply.None?
      && d == c.(app := Managed(Client.SetUser(x, n, user)))
    case Answer(n, reply) =>
      && Client.MayAnswer(x, n, reply)
      && d == c.(app := Managed(Client.FinishDispatch(x, n, reply)))
  }

  ghost predicate WildNext(c: Peer, d: Peer, a: AppAct) {
    match a
    case Inject(f) => d == c.(inb := Arrive(c.inb, f))
    case Drain => c.chan.wire != [] && d == c.(chan := Deliver(c.chan))
    case _ => false
  }

  ghost predicate AppNext(s: State, t: State, i: nat, a: AppAct) {
    && Aligned(s) && i < |s.serves| && Aligned(t) && i < |t.serves|
    && var before := Peer(s.apps[i], s.inbs[i], s.chans[i]);
       var after := Peer(t.apps[i], t.inbs[i], t.chans[i]);
       && t == s.(apps := s.apps[i := after.app], inbs := s.inbs[i := after.inb], chans := s.chans[i := after.chan])
       && (if before.app.Wild? then WildNext(before, after, a) else ClientNext(before, after, a))
  }

  // ----- the step relation and its runs ------------------------------------------------

  datatype Step =
    | HostStep(host: HostAct)
    | ServeStep(conn: nat, serve: ServeAct)
    | WireStep(conn: nat, wire: WireAct)
    | CallStep(call: nat, act: CallAct)
    | AppStep(conn: nat, app: AppAct)

  ghost predicate Next(cfg: Config, s: State, t: State, step: Step) {
    match step
    case HostStep(a) => HostNext(s, t, a)
    case ServeStep(i, a) => ServeNext(cfg, s, t, i, a)
    case WireStep(i, a) => WireNext(s, t, i, a)
    case CallStep(n, a) => CallNext(cfg, s, t, n, a)
    case AppStep(i, a) => AppNext(s, t, i, a)
  }

  ghost predicate StepAt(cfg: Config, states: seq<State>, steps: seq<Step>, k: nat)
    requires k < |steps| < |states|
  {
    Next(cfg, states[k], states[k + 1], steps[k])
  }

  /** A finite piece of a run: states, from any first one, and the steps between them. */
  ghost predicate IsFragment(cfg: Config, states: seq<State>, steps: seq<Step>) {
    |states| == |steps| + 1 && forall k :: 0 <= k < |steps| ==> StepAt(cfg, states, steps, k)
  }

  /** A finite run from the empty broker. */
  ghost predicate IsRun(cfg: Config, states: seq<State>, steps: seq<Step>) {
    IsFragment(cfg, states, steps) && states[0] == INITIAL
  }

  ghost predicate Reachable(cfg: Config, s: State) {
    exists states, steps :: IsRun(cfg, states, steps) && states[|states| - 1] == s
  }

  /** Some run from `s` ends in `t`. */
  ghost predicate Leads(cfg: Config, s: State, t: State) {
    exists states, steps :: IsFragment(cfg, states, steps) && states[0] == s && states[|steps|] == t
  }

  lemma FragmentNext(cfg: Config, states: seq<State>, steps: seq<Step>, k: nat)
    requires IsFragment(cfg, states, steps) && k < |steps|
    ensures Next(cfg, states[k], states[k + 1], steps[k])
  {
    assert StepAt(cfg, states, steps, k);
  }

  lemma Extend(cfg: Config, states: seq<State>, steps: seq<Step>, t: State, step: Step)
    requires IsFragment(cfg, states, steps) && Next(cfg, states[|steps|], t, step)
    ensures IsFragment(cfg, states + [t], steps + [step])
  {
    var more, longer := states + [t], steps + [step];
    forall k | 0 <= k < |longer|
      ensures StepAt(cfg, more, longer, k)
    {
      assert k < |steps| ==> StepAt(cfg, states, steps, k);
    }
  }

  lemma LeadsHere(cfg: Config, s: State)
    ensures Leads(cfg, s, s)
  {
    var steps: seq<Step> := [];
    assert IsFragment(cfg, [s], steps) && [s][|steps|] == s;
  }

  lemma LeadsNext(cfg: Config, s: State, t: State, u: State, step: Step)
    requires Leads(cfg, s, t) && Next(cfg, t, u, step)
    ensures Leads(cfg, s, u)
  {
    var states, steps :| IsFragment(cfg, states, steps) && states[0] == s && states[|steps|] == t;
    Extend(cfg, states, steps, u, step);
    var more, longer := states + [u], steps + [step];
    assert more[0] == s && more[|longer|] == u;
  }

  lemma ReachesNext(cfg: Config, s: State, t: State, step: Step)
    requires Reachable(cfg, s) && Next(cfg, s, t, step)
    ensures Reachable(cfg, t)
  {
    var states, steps :| IsRun(cfg, states, steps) && states[|states| - 1] == s;
    Extend(cfg, states, steps, t, step);
    var more, longer := states + [t], steps + [step];
    assert IsRun(cfg, more, longer) && more[|more| - 1] == t;
  }

  lemma NothingHappened(cfg: Config)
    ensures Reachable(cfg, INITIAL)
  {
    var steps: seq<Step> := [];
    assert IsRun(cfg, [INITIAL], steps) && [INITIAL][|[INITIAL]| - 1] == INITIAL;
  }
}
