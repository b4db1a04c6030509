/**
 * Pieces of runs from which the situations in `BusLimits` are put together: each lemma takes a reachable state a few
 * steps further and says which state is reached.
 */
module BusScenarios {
  import opened Prelude
  import opened Frames
  import opened ServiceRegistry
  import opened BrokerTables
  import opened Connection
  import opened Tokens
  import opened Bus
  import Client = ClientState

  const METHODS := [MethodDecl("run", false, false, Get, None, None),
                    MethodDecl("capabilities", false, false, Get, None, None)]

  function HelloFor(svc: string, token: string): HelloRequest {
    HelloRequest(CURRENT, svc, "1.0", 1, token, METHODS, [], None)
  }

  function Greeter(svc: string, token: string): Client.AppClient {
    Client.NewClient(HelloFor(svc, token), {})
  }

  /** A client that has sent its Hello. */
  function Greeted(svc: string, token: string): Client.AppClient {
    Greeter(svc, token).(phase := Client.AwaitAck, sent := [Hello(HelloFor(svc, token))], why := [Client.Handshake])
  }

  /** The peer of a new connection: a client, or anything at all. */
  function Fresh(svc: string, token: string, wild: bool): App {
    if wild then Wild else Managed(Greeter(svc, token))
  }

  /** A new peer connects. */
  function Connected(s: State, svc: string, token: string, wild: bool): State {
    s.(serves := s.serves + [NEW_SERVE], chans := s.chans + [NEW_CHANNEL], inbs := s.inbs + [NEW_INBOUND],
       sess := s.sess + [NEW_SESSION], apps := s.apps + [Fresh(svc, token, wild)])
  }

  /** ... and `serve` has read its Hello. */
  function Arrived(s: State, svc: string, token: string, wild: bool): State {
    s.(serves := s.serves + [NEW_SERVE.(pc := CheckToken, hello := Some(HelloFor(svc, token)))],
       chans := s.chans + [NEW_CHANNEL], inbs := s.inbs + [Inbound([], false, [Hello(HelloFor(svc, token))])],
       sess := s.sess + [NEW_SESSION], apps := s.apps + [if wild then Wild else Managed(Greeted(svc, token))])
  }

  lemma Connects(cfg: Config, s: State, svc: string, token: string, wild: bool)
    requires Reachable(cfg, s) && Aligned(s)
    ensures Reachable(cfg, Connected(s, svc, token, wild))
  {
    ReachesNext(cfg, s, Connected(s, svc, token, wild), HostStep(Accept(Fresh(svc, token, wild))));
  }

  /** The peer has sent its Hello. */
  function Knocking(s: State, svc: string, token: string, wild: bool): State {
    s.(serves := s.serves + [NEW_SERVE], chans := s.chans + [NEW_CHANNEL],
       inbs := s.inbs + [Inbound([Hello(HelloFor(svc, token))], false, [])],
       sess := s.sess + [NEW_SESSION], apps := s.apps + [if wild then Wild else Managed(Greeted(svc, token))])
  }

  lemma Knocks(cfg: Config, s: State, svc: string, token: string, wild: bool)
    requires Reachable(cfg, s) && Aligned(s)
    ensures Reachable(cfg, Knocking(s, svc, token, wild))
  {
    var i, s1, s2 := |s.serves|, Connected(s, svc, token, wild), Knocking(s, svc, token, wild);
    Connects(cfg, s, svc, token, wild);
    assert s2.apps == s1.apps[i := s2.apps[i]] && s2.inbs == s1.inbs[i := s2.inbs[i]];
    assert s2.chans == s1.chans[i := s2.chans[i]];
    assert Arrive(NEW_INBOUND, Hello(HelloFor(svc, token))) == s2.inbs[i];
    ReachesNext(cfg, s1, s2, AppStep(i, if wild then Inject(Hello(HelloFor(svc, token))) else SendHello));
  }

  lemma Arrives(cfg: Config, s: State, svc: string, token: string, wild: bool)
    requires Reachable(cfg, s) && Aligned(s)
    ensures Reachable(cfg, Arrived(s, svc, token, wild))
  {
    var i, h := |s.serves|, HelloFor(svc, token);
    var s2, s3 := Knocking(s, svc, token, wild), Arrived(s, svc, token, wild);
    Knocks(cfg, s, svc, token, wild);
    assert s3.serves == s2.serves[i := s2.serves[i].(pc := CheckToken, hello := Some(h))];
    assert Consume(s2.inbs[i]) == s3.inbs[i];
    assert s3.inbs == s2.inbs[i := s3.inbs[i]];
    ReachesNext(cfg, s2, s3, ServeStep(i, ReadHello));
  }

  // ----- tokens and admission -----------------------------------------------------------------------------

  function TokenNow(s: State): string {
    TokenString(0, 0, |s.iss.minted|)
  }

  /** A token is minted and placed for the service. */
  function Placed(s: State, svc: string): State {
    var k := |s.iss.minted|;
    s.(tab := s.tab.(tokens := s.tab.tokens[svc := TokenNow(s)]),
       iss := s.iss.(minted := s.iss.minted + [Mint(0, 0, TokenNow(s))], unplaced := s.iss.unplaced + {k} - {k},
                     live := s.iss.live[svc := |s.iss.placed|], placed := s.iss.placed + [Placement(svc, k)]))
  }

  lemma Places(cfg: Config, s: State, svc: string)
    requires Reachable(cfg, s) && Aligned(s) && |s.iss.minted| < U64_LIMIT
    ensures Reachable(cfg, Placed(s, svc))
  {
    var k := |s.iss.minted|;
    var s1 := s.(iss := s.iss.(minted := s.iss.minted + [Mint(0, 0, TokenNow(s))], unplaced := s.iss.unplaced + {k}));
    ReachesNext(cfg, s, s1, HostStep(MintToken(0, 0)));
    ReachesNext(cfg, s1, Placed(s, svc), HostStep(PlaceToken(svc, k)));
  }

  /** Connection `i` holds the token stored for its service. */
  predicate Invited(s: State, i: nat) {
    && Aligned(s) && i < |s.serves| && s.serves[i].pc == CheckToken && s.serves[i].hello.Some?
    && var h := s.serves[i].hello.value; TokenMatches(s.tab, h.service, h.authToken) && h.service in s.iss.live
  }

  /** Connection `i` is admitted and has drawn its generation. */
  function Numbered(s: State, i: nat): State
    requires Invited(s, i)
  {
    var h := s.serves[i].hello.value;
    s.(serves := s.serves[i := s.serves[i].(pc := WriteEntry, ticket := Some(s.iss.live[h.service]),
                                            clientId := s.tab.nextClientId, generation := s.reg.nextGen + 1)],
       chans := s.chans[i := s.chans[i].(open := true)],
       tab := SpendToken(s.tab, h.service).(nextClientId := s.tab.nextClientId + 1),
       iss := s.iss.(live := s.iss.live - {h.service}), reg := TakeGeneration(s.reg))
  }

  lemma Numbers(cfg: Config, s: State, i: nat)
    requires Reachable(cfg, s) && Invited(s, i)
    ensures Reachable(cfg, Numbered(s, i))
  {
    var h := s.serves[i].hello.value;
    var v := s.serves[i].(pc := GetClientId, ticket := Some(s.iss.live[h.service]));
    var s1 := s.(serves := s.serves[i := v], tab := SpendToken(s.tab, h.service),
                 iss := s.iss.(live := s.iss.live - {h.service}));
    var s2 := s1.(serves := s1.serves[i := v.(pc := GetGeneration, clientId := s.tab.nextClientId)],
                  chans := s.chans[i := s.chans[i].(open := true)],
                  tab := s1.tab.(nextClientId := s.tab.nextClientId + 1));
    ReachesNext(cfg, s, s1, ServeStep(i, SpendHelloToken));
    ReachesNext(cfg, s1, s2, ServeStep(i, IdentifyClient));
    assert Numbered(s, i).serves == s2.serves[i := s2.serves[i].(pc := WriteEntry, generation := s.reg.nextGen + 1)];
    ReachesNext(cfg, s2, Numbered(s, i), ServeStep(i, NumberEntry));
  }

  /** A new connection of the service arrives with a fresh token, is admitted and draws its generation. */
  function Enrolled(s: State, svc: string, wild: bool): State
    requires Aligned(s)
  {
    Numbered(Arrived(Placed(s, svc), svc, TokenNow(s), wild), |s.serves|)
  }

  lemma Enrolls(cfg: Config, s: State, svc: string, wild: bool)
    requires Reachable(cfg, s) && Aligned(s) && |s.iss.minted| < U64_LIMIT
    ensures Reachable(cfg, Enrolled(s, svc, wild))
  {
    Places(cfg, s, svc);
    Arrives(cfg, Placed(s, svc), svc, TokenNow(s), wild);
    Numbers(cfg, Arrived(Placed(s, svc), svc, TokenNow(s), wild), |s.serves|);
  }

  // ----- on to the frame loop -----------------------------------------------------------------------------

  /** Connection `i` has drawn its generation and its channel is open. */
  predicate Ready(s: State, i: nat) {
    && Aligned(s) && i < |s.serves| && s.serves[i].pc == WriteEntry && s.serves[i].hello.Some?
    && s.chans[i] == NEW_CHANNEL.(open := true)
  }

  function Stored(s: State, i: nat): State
    requires Ready(s, i)
  {
    s.(serves := Goto(s, i, WriteAck), reg := PutEntry(s.reg, EntryOf(i, s.serves[i])))
  }

  lemma Stores(cfg: Config, s: State, i: nat)
    requires Reachable(cfg, s) && Ready(s, i)
    ensures Reachable(cfg, Stored(s, i))
  {
    ReachesNext(cfg, s, Stored(s, i), ServeStep(i, PublishEntry));
  }

  function Acked(cfg: Config, s: State, i: nat): State
    requires Ready(s, i)
  {
    var ack := HelloAck(s.serves[i].clientId, cfg.heartbeatMs);
    s.(serves := Goto(s, i, Attach), chans := s.chans[i := StartWriter(s.chans[i], ack)],
       reg := PutEntry(s.reg, EntryOf(i, s.serves[i])))
  }

  lemma Acks(cfg: Config, s: State, i: nat)
    requires Reachable(cfg, s) && Ready(s, i)
    ensures Reachable(cfg, Acked(cfg, s, i))
  {
    Stores(cfg, s, i);
    assert Acked(cfg, s, i).serves == Goto(Stored(s, i), i, Attach);
    ReachesNext(cfg, Stored(s, i), Acked(cfg, s, i), ServeStep(i, AckWritten));
  }

  /** Connection `i` is attached, probed and reads frames. */
  function Looping(cfg: Config, s: State, i: nat): State
    requires Ready(s, i)
  {
    var h := s.serves[i].hello.value;
    Acked(cfg, s, i).(serves := Goto(s, i, Loop),
       tab := s.tab.(sessions := s.tab.sessions[KeyOf(s.serves[i]) := i],
                     capabilities := s.tab.capabilities - {h.service}),
       calls := s.calls + [ProbeCall(i, h.service, s.serves[i].generation, cfg.defaultTimeoutMs)])
  }

  lemma Loops(cfg: Config, s: State, i: nat)
    requires Reachable(cfg, s) && Ready(s, i)
    ensures Reachable(cfg, Looping(cfg, s, i))
  {
    var s1, s3 := Acked(cfg, s, i), Looping(cfg, s, i);
    var s2 := s1.(serves := Goto(s1, i, BeginProbe),
                  tab := s1.tab.(sessions := s.tab.sessions[KeyOf(s.serves[i]) := i]));
    Acks(cfg, s, i);
    ReachesNext(cfg, s1, s2, ServeStep(i, AttachSession));
    assert s3.serves == Goto(s2, i, Loop);
    ReachesNext(cfg, s2, s3, ServeStep(i, StartProbing));
  }

  // ----- a call from the host -----------------------------------------------------------------------------

  function CallTo(svc: string): Call {
    NewCall(Host, svc, "run", [], DEFAULT_CALLER, 0)
  }

  /** The registered entry of the service admits `CallTo`, which no local service takes. */
  predicate Callable(s: State, svc: string) {
    Aligned(s) && svc !in s.tab.localServices && svc in s.reg.entries && s.reg.entries[svc].methods == METHODS
  }

  /** A call has copied the entry of the service. */
  function Resolved(s: State, svc: string): State
    requires Callable(s, svc)
  {
    s.(calls := s.calls + [CallTo(svc).(pc := FindSession, entry := Some(s.reg.entries[svc]))])
  }

  lemma Resolves(cfg: Config, s: State, svc: string)
    requires Reachable(cfg, s) && Callable(s, svc)
    ensures Reachable(cfg, Resolved(s, svc))
  {
    var n, k := |s.calls|, CallTo(svc);
    var s1 := s.(calls := s.calls + [k]);
    var s2 := s.(calls := s.calls + [k.(pc := FindEntry)]);
    ReachesNext(cfg, s, s1, HostStep(StartCall(svc, "run", [], DEFAULT_CALLER, 0)));
    assert s2.calls == s1.calls[n := k.(pc := FindEntry)];
    ReachesNext(cfg, s1, s2, CallStep(n, LookUpLocal));
    assert Resolved(s, svc).calls == s2.calls[n := Resolved(s, svc).calls[n]];
    assert FindDecl(METHODS, "run") == Some(METHODS[0]);
    ReachesNext(cfg, s2, Resolved(s, svc), CallStep(n, LookUpEntry));
  }

  // ----- a capability probe ---------------------------------------------------------------------------------

  /** Call `n` is the unstarted probe of connection `i`, whose frame loop is idle and which nobody has called yet. */
  predicate Probing(s: State, i: nat, n: nat) {
    && Aligned(s) && i < |s.serves| && n < |s.calls| && s.serves[i].pc == Loop && s.serves[i].hello.Some?
    && s.apps[i].Wild? && s.chans[i].open && s.sess[i] == NEW_SESSION && s.inbs[i].stream == [] && !s.inbs[i].cut
    && var v, k := s.serves[i], s.calls[n];
       && k == ProbeCall(i, v.hello.value.service, v.generation, k.timeoutMs)
       && v.hello.value.methods == METHODS && k.service !in s.tab.localServices
       && k.service in s.reg.entries && s.reg.entries[k.service] == EntryOf(i, v)
       && KeyOf(v) in s.tab.sessions && s.tab.sessions[KeyOf(v)] == i
  }

  /** The probe has found its session. */
  function Found(s: State, i: nat, n: nat): State
    requires Probing(s, i, n)
  {
    s.(calls := s.calls[n := s.calls[n].(pc := AllocId, entry := Some(EntryOf(i, s.serves[i])), handle := Some(i))])
  }

  lemma Finds(cfg: Config, s: State, i: nat, n: nat)
    requires Reachable(cfg, s) && Probing(s, i, n)
    ensures Reachable(cfg, Found(s, i, n))
  {
    var k := s.calls[n];
    var s1 := s.(calls := s.calls[n := k.(pc := FindEntry)]);
    var s2 := s.(calls := s.calls[n := k.(pc := FindSession, entry := Some(EntryOf(i, s.serves[i])))]);
    ReachesNext(cfg, s, s1, CallStep(n, LookUpLocal));
    assert s2.calls == s1.calls[n := s2.calls[n]];
    assert METHODS[1..][0] == METHODS[1] && FindDecl(METHODS, "capabilities") == Some(METHODS[1]);
    ReachesNext(cfg, s1, s2, CallStep(n, LookUpEntry));
    assert Found(s, i, n).calls == s2.calls[n := Found(s, i, n).calls[n]];
    ReachesNext(cfg, s2, Found(s, i, n), CallStep(n, LookUpSession));
  }

  /** The probe's Invoke is queued and it waits. */
  function Asked(s: State, i: nat, n: nat): State
    requires Probing(s, i, n)
  {
    var k := Found(s, i, n).calls[n].(pc := Waiting, reqId := 1);
    s.(sess := s.sess[i := InsertPending(TakeReqId(NEW_SESSION, n), 1, n)], calls := s.calls[n := k],
       chans := s.chans[i := Push(s.chans[i], InvokeFrame(Invoke(1, k.methodName, k.payload, k.caller)), ByCall(n))])
  }

  lemma Asks(cfg: Config, s: State, i: nat, n: nat)
    requires Reachable(cfg, s) && Probing(s, i, n)
    ensures Reachable(cfg, Asked(s, i, n))
  {
    var s1, s4 := Found(s, i, n), Asked(s, i, n);
    var k := s1.calls[n].(reqId := 1);
    var s2 := s.(sess := s.sess[i := TakeReqId(NEW_SESSION, n)], calls := s.calls[n := k.(pc := PutPending)]);
    var s3 := s.(sess := s4.sess, calls := s.calls[n := k.(pc := SendInvoke)]);
    Finds(cfg, s, i, n);
    assert s2.calls == s1.calls[n := s2.calls[n]];
    ReachesNext(cfg, s1, s2, CallStep(n, TakeRequestId));
    assert s3.calls == s2.calls[n := s3.calls[n]] && s3.sess == s2.sess[i := s3.sess[i]];
    ReachesNext(cfg, s2, s3, CallStep(n, EnterPending));
    assert s4.calls == s3.calls[n := s4.calls[n]];
    ReachesNext(cfg, s3, s4, CallStep(n, QueueInvoke));
  }

  /** The Response to the probe has been read and handed over. */
  function Handed(s: State, i: nat, n: nat, bytes: Bytes): State
    requires Probing(s, i, n)
  {
    var a := Asked(s, i, n);
    a.(inbs := s.inbs[i := Inbound([], false, s.inbs[i].consumed + [ResponseFrame(1, Ok(bytes))])],
       sess := a.sess[i := RemoveAnswered(a.sess[i], 1)],
       calls := a.calls[n := a.calls[n].(slot := Some(Ok(bytes)), answeredAt := |s.inbs[i].consumed|)])
  }

  /** The peer has sent the Response. */
  function Replied(s: State, i: nat, n: nat, bytes: Bytes): State
    requires Probing(s, i, n)
  {
    Asked(s, i, n).(inbs := s.inbs[i := Inbound([ResponseFrame(1, Ok(bytes))], false, s.inbs[i].consumed)])
  }

  lemma Replies(cfg: Config, s: State, i: nat, n: nat, bytes: Bytes)
    requires Reachable(cfg, s) && Probing(s, i, n)
    ensures Reachable(cfg, Replied(s, i, n, bytes))
  {
    var a, t, f := Asked(s, i, n), Replied(s, i, n, bytes), ResponseFrame(1, Ok(bytes));
    Asks(cfg, s, i, n);
    assert t.inbs[i] == Arrive(a.inbs[i], f) && a.chans[i := a.chans[i]] == a.chans && a.apps[i := Wild] == a.apps;
    ReachesNext(cfg, a, t, AppStep(i, Inject(f)));
  }

  lemma Hands(cfg: Config, s: State, i: nat, n: nat, bytes: Bytes)
    requires Reachable(cfg, s) && Probing(s, i, n)
    ensures Reachable(cfg, Handed(s, i, n, bytes))
  {
    var s1, s3 := Replied(s, i, n, bytes), Handed(s, i, n, bytes);
    var s2 := s3.(calls := s1.calls, serves := Goto(s1, i, Wake(n, Ok(bytes), |s.inbs[i].consumed|)));
    Replies(cfg, s, i, n, bytes);
    assert s2.inbs[i] == Consume(s1.inbs[i]);
    assert s2.inbs == s1.inbs[i := s2.inbs[i]];
    ReachesNext(cfg, s1, s2, ServeStep(i, ReadResponse));
    assert Goto(s2, i, Loop) == s3.serves;
    ReachesNext(cfg, s2, s3, ServeStep(i, WakeCaller));
  }

  /** The probe has its answer and has found its generation registered; it is about to store the set. */
  function Approved(s: State, i: nat, n: nat, bytes: Bytes): State
    requires Probing(s, i, n)
  {
    var h := Handed(s, i, n, bytes);
    h.(calls := h.calls[n := h.calls[n].(pc := StoreCaps, outcome := Some(Answered(Ok(bytes))))])
  }

  lemma Approves(cfg: Config, s: State, i: nat, n: nat, bytes: Bytes)
    requires Reachable(cfg, s) && Probing(s, i, n) && cfg.parse(bytes).Some?
    ensures Reachable(cfg, Approved(s, i, n, bytes))
  {
    var h, s2 := Handed(s, i, n, bytes), Approved(s, i, n, bytes);
    var s1 := h.(calls := h.calls[n := FinishCall(h.calls[n], Answered(Ok(bytes)))]);
    Hands(cfg, s, i, n, bytes);
    ReachesNext(cfg, h, s1, CallStep(n, ReceiveReply));
    assert s2.calls == s1.calls[n := s2.calls[n]];
    ReachesNext(cfg, s1, s2, CallStep(n, VerifyProbe));
  }
}
