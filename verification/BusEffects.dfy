/**
 * What single steps of the broker do, in the words of its callers and peers: what a refused peer is told, what a new
 * call asks for, how a call that is stopped early fails, and what a teardown takes along.
 */
module BusEffects {
  import opened Prelude
  import opened Frames
  import opened ServiceRegistry
  import opened BrokerTables
  import opened Connection
  import opened Bus
  import opened BusSteps
  import opened BusRegistration
  import opened BusCalls
  import opened BusProbes
  import Client = ClientState

  // ----- the first frame and the token ----------------------------------------------------------------------

  /** The peer is sent this refusal, and no writer task is started for it. */
  predicate Told(s: State, t: State, i: nat, e: BusError)
    requires i < |s.chans|
  {
    && t.chans == s.chans[i :=
         s.chans[i].(wire := s.chans[i].wire + [ResponseFrame(0, Err(e))],
                     head := s.chans[i].head + [ResponseFrame(0, Err(e))])]
  }

  /** Only a Hello of major version 1 goes on; another version is told both versions, another frame nothing at all. */
  lemma FirstFrame(s: State, t: State, i: nat)
    requires Aligned(s) && i < |s.serves| && HelloStep(s, t, i)
    ensures i < |t.serves| && i < |t.inbs| && t.inbs[i].consumed == s.inbs[i].consumed + [s.inbs[i].stream[0]]
    ensures var f, w := s.inbs[i].stream[0], t.serves[i];
            && (w.pc == CheckToken <==> f.Hello? && f.hello.protocol.major == 1)
            && (w.pc == CheckToken ==> w.hello == Some(f.hello) && t.chans == s.chans)
            && (w.pc != CheckToken ==> w.pc == Closing && w.hello == s.serves[i].hello)
            && (!f.Hello? ==> t.chans == s.chans)
            && (f.Hello? && f.hello.protocol.major != 1 ==>
                  Told(s, t, i, ProtocolMismatch(ProtocolVersion(1, 0), f.hello.protocol)))
            && t.tab == s.tab
  {
  }

  /** The token decides, is spent either way, and a refused peer is told so. */
  lemma TokenChecked(s: State, t: State, i: nat)
    requires Aligned(s) && i < |s.serves| && TokenStep(s, t, i)
    ensures i < |t.serves|
    ensures var h := s.serves[i].hello.value;
            && (t.serves[i].pc == GetClientId <==>
                  h.service in s.tab.tokens && s.tab.tokens[h.service] == h.authToken)
            && (t.serves[i].pc != GetClientId ==> t.serves[i].pc == Closing && Told(s, t, i, InvalidAuthToken))
            && (t.serves[i].pc == GetClientId ==> t.chans == s.chans)
            && t.tab == s.tab.(tokens := s.tab.tokens - {h.service})
  {
  }

  // ----- client ids -----------------------------------------------------------------------------------------

  /** Every connection past its admission has a client id of its own, below the counter. */
  ghost predicate ClientIdsOk(s: State) {
    && s.tab.nextClientId >= 1
    && (forall i :: 0 <= i < |s.serves| ==>
          s.serves[i].clientId < s.tab.nextClientId && (s.serves[i].generation > 0 ==> s.serves[i].clientId > 0)
          && (s.serves[i].pc == GetGeneration ==> s.serves[i].clientId > 0))
    && (forall i, j :: 0 <= i < j < |s.serves| && s.serves[i].clientId > 0 ==>
          s.serves[i].clientId != s.serves[j].clientId)
  }

  lemma ServeKeepsIds(cfg: Config, s: State, t: State, i: nat, a: ServeAct)
    requires ServeNext(cfg, s, t, i, a) && !a.IdentifyClient? && !a.NumberEntry?
    ensures i < |t.serves| && t.serves[i].clientId == s.serves[i].clientId
    ensures t.serves[i].generation == s.serves[i].generation
  {
  }

  lemma NotAdmittedHere(cfg: Config, s: State, t: State, i: nat, a: ServeAct)
    requires ServeNext(cfg, s, t, i, a) && !a.IdentifyClient?
    ensures i < |t.serves| && t.serves[i].pc != GetGeneration
  {
  }

  lemma ServeKeepsCounter(cfg: Config, s: State, t: State, i: nat, a: ServeAct)
    requires ServeNext(cfg, s, t, i, a) && !a.IdentifyClient?
    ensures t.tab.nextClientId == s.tab.nextClientId
  {
    if !WritesTables(a) {
      OthersKeepTables(cfg, s, t, i, a);
    }
  }

  lemma DrawnIds(s: State, t: State, i: nat, a: ServeAct)
    requires Aligned(s) && i < |s.serves| && ClientIdsOk(s)
    requires (a.IdentifyClient? && IdentifyStep(s, t, i)) || (a.NumberEntry? && NumberStep(s, t, i))
    ensures ClientIdsOk(t)
  {
  }

  lemma ServeClientIds(cfg: Config, s: State, t: State, i: nat, a: ServeAct)
    requires ServeNext(cfg, s, t, i, a) && ClientIdsOk(s)
    ensures ClientIdsOk(t)
  {
    if a.IdentifyClient? || a.NumberEntry? {
      DrawnIds(s, t, i, a);
    } else {
      ServeKeepsIds(cfg, s, t, i, a);
      NotAdmittedHere(cfg, s, t, i, a);
      ServeKeepsCounter(cfg, s, t, i, a);
      ServeTask(cfg, s, t, i, a);
    }
  }

  lemma HostClientIds(s: State, t: State, a: HostAct)
    requires HostNext(s, t, a) && ClientIdsOk(s)
    ensures ClientIdsOk(t)
  {
  }

  lemma StepClientIds(cfg: Config, s: State, t: State, step: Step)
    requires Next(cfg, s, t, step) && ClientIdsOk(s)
    ensures ClientIdsOk(t)
  {
    match step
    case ServeStep(i, a) => ServeClientIds(cfg, s, t, i, a);
    case CallStep(n, a) => CallTask(cfg, s, t, n, a);
    case HostStep(a) => HostClientIds(s, t, a);
    case WireStep(_, _) =>
    case AppStep(_, _) =>
  }

  // ----- what calls ask for ---------------------------------------------------------------------------------

  /** A probe asks for `capabilities` with an empty object as nobody; like a routed call it has the default timeout. */
  predicate RequestOk(cfg: Config, k: Call) {
    && (k.origin.Probe? ==>
          && k.methodName == "capabilities" && k.payload == [123, 125] && k.caller == CallerCtx(None, "", None, None)
          && k.timeoutMs == cfg.defaultTimeoutMs)
    && (k.origin.Routed? ==> k.timeoutMs == cfg.defaultTimeoutMs)
  }

  ghost predicate RequestsOk(cfg: Config, s: State) {
    forall n :: 0 <= n < |s.calls| ==> RequestOk(cfg, s.calls[n])
  }

  lemma SpawnedRequest(cfg: Config, s: State, t: State, i: nat, a: ServeAct)
    requires ServeNext(cfg, s, t, i, a) && (a.StartProbing? || a.ReadInvoke?)
    ensures |t.calls| == |s.calls| + 1 && RequestOk(cfg, t.calls[|s.calls|])
  {
  }

  lemma EffectRequests(cfg: Config, s: State, t: State, n: nat)
    requires RequestsOk(cfg, s) && CallEffect(s, t, n)
    requires |t.calls| > |s.calls| ==> RequestOk(cfg, t.calls[|s.calls|])
    ensures RequestsOk(cfg, t)
  {
  }

  lemma StepRequests(cfg: Config, s: State, t: State, step: Step)
    requires Next(cfg, s, t, step) && Registered(s) && CallsOk(s) && CountersPositive(s) && RequestsOk(cfg, s)
    ensures RequestsOk(cfg, t)
  {
    StepCallEffect(cfg, s, t, step);
    match step
    case ServeStep(i, a) =>
      if |t.calls| > |s.calls| {
        Spawners(cfg, s, t, i, a);
        SpawnedRequest(cfg, s, t, i, a);
      }
      EffectRequests(cfg, s, t, Touched(s, step));
    case CallStep(n, a) => CallTask(cfg, s, t, n, a); EffectRequests(cfg, s, t, Touched(s, step));
    case _ => OutsideStep(cfg, s, t, step); EffectRequests(cfg, s, t, Touched(s, step));
  }

  /** A call of the host asks for exactly what the host asked for. */
  lemma HostCalls(s: State, t: State, service: string, methodName: string, payload: Bytes, caller: CallerCtx,
                  timeoutMs: nat)
    requires HostNext(s, t, StartCall(service, methodName, payload, caller, timeoutMs))
    ensures |t.calls| == |s.calls| + 1
    ensures var k := t.calls[|s.calls|];
            && k.origin.Host? && k.service == service && k.methodName == methodName && k.payload == payload
            && k.caller == caller && k.timeoutMs == timeoutMs && k.pc == FindLocal && k.outcome.None?
  {
  }

  /** A probe starts by forgetting the cached set, and asks the service it is spawned for. */
  lemma ProbeForgets(cfg: Config, s: State, t: State, i: nat)
    requires Aligned(s) && i < |s.serves| && ProbeStep(cfg, s, t, i)
    ensures var svc := s.serves[i].hello.value.service;
            && t.tab == s.tab.(capabilities := s.tab.capabilities - {svc})
            && |t.calls| == |s.calls| + 1 && t.calls[|s.calls|].service == svc
            && t.calls[|s.calls|].origin == Probe(i, s.serves[i].generation)
  {
  }

  /** An Invoke whose method has no dot is answered by the broker itself; every other one is looked up. */
  lemma MalformedInvoke(i: nat, at: nat, inv: Invoke, originator: string, timeoutMs: nat)
    ensures var k := RouteCall(i, at, inv, originator, timeoutMs);
            var why := "invoke method must be `service.method`, got `" + inv.methodName + "`";
            && k.origin == Routed(i, inv.reqId, at)
            && (k.outcome == Some(Failed(BadRequest(why))) <==> '.' !in inv.methodName)
            && (k.outcome.None? <==> '.' in inv.methodName) && (k.outcome.None? ==> k.pc == FindLocal)
            && (k.outcome.Some? ==> k.pc == Finished)
  {
  }

  // ----- calls that are stopped early -----------------------------------------------------------------------

  /** The call has just failed with this error. */
  predicate FailsWith(t: State, n: nat, e: BusError) {
    n < |t.calls| && t.calls[n].pc == Finished && t.calls[n].outcome == Some(Failed(e))
  }

  /** A local call is refused by its catalog, or its handler is asked. */
  lemma LocalGateExactly(s: State, t: State, n: nat)
    requires Aligned(s) && n < |s.calls| && LocalGateStep(s, t, n) && s.calls[n].outcome.None?
    ensures var k := s.calls[n];
            var ms := if k.service in s.tab.localMethods then Some(s.tab.localMethods[k.service]) else None;
            && n < |t.calls|
            && (FailsWith(t, n, MethodNotFound(k.service, k.methodName)) <==>
                  ms.Some? && !Declares(ms.value, k.methodName))
            && (FailsWith(t, n, Unauthorized(k.service, k.methodName)) <==>
                  ms.Some? && NeedsUser(ms.value, k.methodName) && k.caller.userId.None?)
            && (t.calls[n].pc == RunLocal <==> (ms.Some? ==> Admits(ms.value, k.methodName, k.caller)))
            && (t.calls[n].outcome.None? <==> t.calls[n].pc == RunLocal)
  {
    var k := s.calls[n];
    if k.service in s.tab.localMethods {
      GateExactly(k.service, s.tab.localMethods[k.service], k.methodName, k.caller);
    }
  }

  /** A remote call fails because nobody is registered, is refused by the registered catalog, or copies the entry. */
  lemma EntryExactly(s: State, t: State, n: nat)
    requires Aligned(s) && n < |s.calls| && EntryStep(s, t, n) && s.calls[n].outcome.None?
    ensures var k := s.calls[n];
            var ms := if k.service in s.reg.entries then Some(s.reg.entries[k.service].methods) else None;
            && n < |t.calls|
            && (FailsWith(t, n, ServiceNotFound(k.service)) <==> k.service !in s.reg.entries)
            && (FailsWith(t, n, MethodNotFound(k.service, k.methodName)) <==>
                  ms.Some? && !Declares(ms.value, k.methodName))
            && (FailsWith(t, n, Unauthorized(k.service, k.methodName)) <==>
                  ms.Some? && NeedsUser(ms.value, k.methodName) && k.caller.userId.None?)
            && (t.calls[n].pc == FindSession <==> ms.Some? && Admits(ms.value, k.methodName, k.caller))
            && (t.calls[n].pc == FindSession ==> t.calls[n].entry == Some(s.reg.entries[k.service]))
            && (t.calls[n].outcome.None? <==> t.calls[n].pc == FindSession)
  {
    var k := s.calls[n];
    if k.service in s.reg.entries {
      GateExactly(k.service, s.reg.entries[k.service].methods, k.methodName, k.caller);
    }
  }

  /** A call that has copied its entry fails exactly when the session of that generation is missing. */
  lemma SessionExactly(s: State, t: State, n: nat)
    requires Aligned(s) && n < |s.calls| && HandleStep(s, t, n) && s.calls[n].outcome.None?
    ensures var k := s.calls[n];
            var key := SessionKey(k.service, k.entry.value.generation);
            && n < |t.calls|
            && (FailsWith(t, n, ServiceNotFound(k.service)) <==> key !in s.tab.sessions)
            && (t.calls[n].outcome.None? <==> key in s.tab.sessions)
            && (key in s.tab.sessions ==> t.calls[n].pc == AllocId && t.calls[n].handle == Some(s.tab.sessions[key]))
  {
  }

  /** Local services come first; a local handler's answer is the call's, and a late one is a timeout. */
  lemma LocalExactly(cfg: Config, s: State, t: State, n: nat, a: CallAct)
    requires CallNext(cfg, s, t, n, a) && (a.LookUpLocal? || a.LocalReturned? || a.LocalTimedOut?)
    ensures n < |t.calls|
    ensures a.LookUpLocal? ==>
              t.calls[n] == s.calls[n].(pc := if s.calls[n].service in s.tab.localServices then CheckCatalog
                                              else FindEntry)
    ensures a.LocalReturned? ==> t.calls[n].pc == Finished && t.calls[n].outcome == Some(LocalAnswer(a.reply))
    ensures a.LocalTimedOut? ==>
              s.calls[n].timeoutMs > 0 && FailsWith(t, n, Timeout(s.calls[n].timeoutMs))
  {
  }

  /** A probe's answer is kept exactly when it is a parsed success and the probed generation is the registered one. */
  lemma ProbeDecides(cfg: Config, s: State, t: State, n: nat)
    requires Aligned(s) && n < |s.calls| && VerifyProbeStep(cfg, s, t, n) && s.calls[n].outcome.Some?
    ensures n < |t.calls| && (t.calls[n].pc == StoreCaps || t.calls[n].pc == Ended)
    ensures var k := s.calls[n];
            t.calls[n].pc == StoreCaps <==>
              && ReplyOf(k.outcome.value).Ok? && cfg.parse(ReplyOf(k.outcome.value).value).Some?
              && k.service in s.reg.entries && s.reg.entries[k.service].generation == k.origin.generation
  {
  }

  // ----- local services -------------------------------------------------------------------------------------

  /** Registering a local service stores its catalog, then its handler, and touches nothing else. */
  lemma LocalServiceAdded(s: State, t: State, u: State, service: string, methods: seq<MethodDecl>)
    requires HostNext(s, t, AddLocalCatalog(service, methods)) && HostNext(t, u, AddLocalHandler(service))
    ensures service in u.tab.localServices && service in u.tab.localMethods && u.tab.localMethods[service] == methods
    ensures u.tab == s.tab.(localMethods := s.tab.localMethods[service := methods],
                            localServices := s.tab.localServices + {service})
    ensures u == s.(tab := u.tab)
  {
  }

  // ----- teardown -------------------------------------------------------------------------------------------

  /** The steps of one `detach_session`, with no other step between them. */
  ghost predicate Detaches(s: State, a: State, b: State, c: State, i: nat) {
    && Aligned(s) && Aligned(a) && Aligned(b) && i < |s.serves| && i < |a.serves| && i < |b.serves|
    && DetachStep(s, a, i) && StaleStep(a, b, i)
    && (if b.serves[i].pc == DetachCaps then DropCapsStep(b, c, i) else c == b)
  }

  /**
   * A teardown takes its own session along, and the cached capabilities unless another generation is registered; then
   * it goes on to `remove_if`.
   */
  lemma DetachExactly(s: State, a: State, b: State, c: State, i: nat)
    requires Detaches(s, a, b, c, i)
    ensures var h, g := s.serves[i].hello.value, s.serves[i].generation;
            var replaced := h.service in s.reg.entries && s.reg.entries[h.service].generation != g;
            && i < |c.serves| && c.serves[i].pc == Unregister && c.reg == s.reg
            && c.tab.sessions == s.tab.sessions - {SessionKey(h.service, g)}
            && c.tab.capabilities == if replaced then s.tab.capabilities else s.tab.capabilities - {h.service}
  {
  }

  // ----- the client -----------------------------------------------------------------------------------------

  /** The client hands its connection this frame, if the connection still takes one. */
  predicate Queues(x: Client.AppClient, y: Client.AppClient, f: BusFrame) {
    y.sent == (if x.txOpen then x.sent + [f] else x.sent) && y.tx == (if x.txOpen then x.tx + [f] else x.tx)
  }

  /** What the client's own requests put on the wire, and how its connection ends. */
  lemma ClientActs(c: Peer, d: Peer, a: AppAct)
    requires c.app.Managed? && ClientNext(c, d, a)
    ensures d.app.Managed?
    ensures a.SendHello? ==> d.app.client.sent == [Hello(c.app.client.hello)] && d.app.client.phase.AwaitAck?
    ensures a.EmitPublish? ==> Queues(c.app.client, d.app.client, Publish(Event(a.topic, a.payload, None)))
    ensures a.EmitSubscribe? ==> Queues(c.app.client, d.app.client, Subscribe(a.prefix))
    ensures a.StreamDown? ==>
              d.app.client.phase.Stopped? && d.app.client.shutdownFired && !d.app.client.txOpen
    ensures a.WriterDown? ==> !d.app.client.txOpen && d.app.client.phase == c.app.client.phase
  {
  }

  /** A new call asks for what its caller asked for; `auto_caller` takes the user of the task it runs in. */
  lemma ClientCalls(c: Peer, d: Peer, a: AppAct)
    requires c.app.Managed? && ClientNext(c, d, a) && a.StartInvoke?
    ensures d.app.Managed? && |d.app.client.invokes| == |c.app.client.invokes| + 1
    ensures var k := d.app.client.invokes[|c.app.client.invokes|];
            && k.service == a.service && k.methodName == a.methodName && k.payload == a.payload
            && k.caller == a.caller && k.parent == a.parent && k.reqId == c.app.client.nextReqId && k.Outcome().None?
    ensures a.auto ==>
              && a.caller.workspace == None && a.caller.callerAppId.Some?
              && a.caller.userId == if a.parent.Some? then c.app.client.dispatches[a.parent.value].user else None
  {
  }

  /** A running client answers a Ping, fires its signal on Shutdown, runs a task for an Invoke, and ignores the rest. */
  lemma ClientReads(c: Peer, d: Peer)
    requires c.app.Managed? && c.app.client.phase.Running? && ClientNext(c, d, ReadInbound)
    ensures d.app.Managed?
    ensures var x, y, f := c.app.client, d.app.client, c.chan.wire[0];
            && (f.Ping? ==> Queues(x, y, Pong) && y.invokes == x.invokes && y.dispatches == x.dispatches)
            && (f.Shutdown? ==> y == x.(shutdownFired := true))
            && (f.InvokeFrame? ==>
                  && y.sent == x.sent && y.invokes == x.invokes && |y.dispatches| == |x.dispatches| + 1
                  && var h := y.dispatches[|x.dispatches|];
                     && h.reqId == f.inv.reqId && h.methodName == f.inv.methodName && h.payload == f.inv.payload
                     && h.caller == f.inv.caller && h.user == f.inv.caller.userId && h.reply.None?)
            && (f.ResponseFrame? && f.reqId !in x.pending ==> y == x)
            && (!f.Ping? && !f.Shutdown? && !f.InvokeFrame? && !f.ResponseFrame? ==> y == x)
  {
  }

  /** A task answers under the id of its Invoke, and without a handler only that the service has no such method. */
  lemma ClientAnswers(c: Peer, d: Peer, a: AppAct)
    requires c.app.Managed? && ClientNext(c, d, a) && a.Answer?
    ensures d.app.Managed?
    ensures var x, y := c.app.client, d.app.client;
            && a.dispatch < |x.dispatches| && a.dispatch < |y.dispatches|
            && var k := x.dispatches[a.dispatch];
               && k.reply.None? && y.dispatches[a.dispatch].reply == Some(a.reply)
               && Queues(x, y, ResponseFrame(k.reqId, a.reply))
               && (k.methodName !in x.handlers ==> a.reply == Err(MethodNotFound(x.hello.service, k.methodName)))
  {
  }

  /** The outcome of `invoke`: the reply, or that the connection was closed before the frame could be queued. */
  lemma InvokeOutcome(k: Client.ClientCall)
    ensures k.Outcome() == Some(Err(ConnectionClosed)) <==>
              k.pc.SendFailed? || (k.pc.Waiting? && k.slot == Some(Err(ConnectionClosed)))
    ensures k.pc.Waiting? ==> k.Outcome() == k.slot
    ensures k.pc.Allocated? || k.pc.Inserted? ==> k.Outcome().None?
  {
  }
}
