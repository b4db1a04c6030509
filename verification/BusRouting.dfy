/**
 * Routing of app-originated calls, and the two-hop theorem: what a client's `invoke` returns is what the target's
 * handler produced for exactly that payload and method.
 */
module BusRouting {
  import opened Prelude
  import opened Frames
  import opened BrokerTables
  import opened Connection
  import opened Bus
  import opened BusSteps
  import Client = ClientState
  import opened ClientInvariants
  import opened BusRegistration
  import opened BusCalls
  import opened BusSessions
  import opened BusReplies
  import opened BusChannels
  import opened BusLogs
  import opened BusPeers

  // ----- invariants ---------------------------------------------------------------------------------

  /** Frame `at` read on connection `i` is the given Invoke. */
  predicate ReadInvoke(inbs: seq<Inbound>, i: nat, at: nat, inv: Invoke) {
    i < |inbs| && at < |inbs[i].consumed| && inbs[i].consumed[at] == InvokeFrame(inv)
  }

  /** What the routing task of an Invoke asks the broker for. */
  predicate RoutesInvoke(k: Call, inv: Invoke, originator: string) {
    && k.origin.Routed? && k.origin.reqId == inv.reqId && k.payload == inv.payload
    && match SplitOnce(inv.methodName)
       case Some(p) =>
         k.service == p.0 && k.methodName == p.1 && k.caller == inv.caller.(callerAppId := Some(originator))
       case None => k.outcome.Some? && k.outcome.value.Failed?
  }

  /** A routed call was spawned for an Invoke its connection has read, and is the only one for that Invoke. */
  predicate RouteOk(n: nat, k: Call, serves: seq<Serve>, inbs: seq<Inbound>) {
    k.origin.Routed? ==>
      && k.origin.conn < |serves| && serves[k.origin.conn].hello.Some?
      && k.origin.conn < |inbs| && k.origin.at < |inbs[k.origin.conn].consumed|
      && inbs[k.origin.conn].consumed[k.origin.at].InvokeFrame?
      && RoutesInvoke(k, inbs[k.origin.conn].consumed[k.origin.at].inv, serves[k.origin.conn].hello.value.service)
      && k.origin.at in serves[k.origin.conn].routes && serves[k.origin.conn].routes[k.origin.at] == n
  }

  ghost predicate RoutesOk(s: State) {
    && (forall n :: 0 <= n < |s.calls| ==> RouteOk(n, s.calls[n], s.serves, s.inbs))
    && (forall i, at :: 0 <= i < |s.serves| && i < |s.inbs| && at in s.serves[i].routes ==> at < |s.inbs[i].consumed|)
  }

  // ----- preservation ----------------------------------------------------------------------------------

  predicate RoutesGrow(v: Serve, w: Serve) {
    && (v.hello.Some? ==> w.hello == v.hello)
    && forall at :: at in v.routes ==> at in w.routes && w.routes[at] == v.routes[at]
  }

  ghost predicate RoutesExtend(s: State, t: State) {
    && |s.serves| <= |t.serves| && InboundGrows(s.inbs, t.inbs)
    && (forall i :: 0 <= i < |s.serves| ==> RoutesGrow(s.serves[i], t.serves[i]))
  }

  lemma RouteKept(n: nat, k: Call, l: Call, s: State, t: State)
    requires RouteOk(n, k, s.serves, s.inbs) && CallAdvances(k, l) && RoutesExtend(s, t)
    requires k.outcome.Some? ==> CallRank(k.pc) >= 10
    ensures RouteOk(n, l, t.serves, t.inbs)
  {
  }

  /** No new Invoke is routed: `routes` stays, and a new call is not a routed one. */
  ghost predicate NothingRouted(s: State, t: State) {
    && (forall i :: 0 <= i < |s.serves| && i < |t.serves| ==> t.serves[i].routes == s.serves[i].routes)
    && (forall i :: |s.serves| <= i < |t.serves| ==> t.serves[i] == NEW_SERVE)
    && (|t.calls| > |s.calls| ==> !t.calls[|s.calls|].origin.Routed?)
  }

  lemma UnroutedRoutes(s: State, t: State, n: nat)
    requires RoutesOk(s) && AllLocalsOk(s.calls) && CallEffect(s, t, n) && Aligned(s) && Aligned(t)
    requires RoutesExtend(s, t) && NothingRouted(s, t)
    ensures RoutesOk(t)
  {
    EffectAdvances(s, t, n);
    forall m | 0 <= m < |t.calls|
      ensures RouteOk(m, t.calls[m], t.serves, t.inbs)
    {
      if m < |s.calls| {
        assert LocalsOk(s.calls[m]);
        RouteKept(m, s.calls[m], t.calls[m], s, t);
      }
    }
  }

  lemma InvokeRoutes(cfg: Config, s: State, t: State, i: nat)
    requires RoutesOk(s) && AllLocalsOk(s.calls) && Aligned(s) && i < |s.serves| && InvokeStep(cfg, s, t, i)
    ensures RoutesOk(t)
  {
    InvokeExtends(cfg, s, t, i);
    forall m | 0 <= m < |t.calls|
      ensures RouteOk(m, t.calls[m], t.serves, t.inbs)
    {
      if m < |s.calls| {
        assert LocalsOk(s.calls[m]) && CallAdvances(s.calls[m], s.calls[m]);
        RouteKept(m, s.calls[m], s.calls[m], s, t);
      } else {
        SpawnedRoute(cfg, s, t, i);
      }
    }
  }

  lemma InvokeExtends(cfg: Config, s: State, t: State, i: nat)
    requires RoutesOk(s) && Aligned(s) && i < |s.serves| && InvokeStep(cfg, s, t, i)
    ensures RoutesExtend(s, t)
  {
  }

  lemma SpawnedRoute(cfg: Config, s: State, t: State, i: nat)
    requires Aligned(s) && i < |s.serves| && InvokeStep(cfg, s, t, i)
    ensures RouteOk(|s.calls|, t.calls[|s.calls|], t.serves, t.inbs)
  {
  }

  lemma ServeRoutes(cfg: Config, s: State, t: State, i: nat, a: ServeAct)
    requires ServeNext(cfg, s, t, i, a) && !a.ReadInvoke?
    ensures i < |t.serves| && t.serves[i].routes == s.serves[i].routes
  {
  }

  lemma ServeSpawns(cfg: Config, s: State, t: State, i: nat, a: ServeAct)
    requires ServeNext(cfg, s, t, i, a) && !a.ReadInvoke?
    ensures |t.calls| > |s.calls| ==> t.calls[|s.calls|].origin.Probe?
  {
  }

  lemma StepRoutes(cfg: Config, s: State, t: State, step: Step)
    requires Next(cfg, s, t, step) && Registered(s) && CallsOk(s) && CountersPositive(s) && RoutesOk(s)
    ensures RoutesOk(t)
  {
    StepCallEffect(cfg, s, t, step);
    StepAdvances(cfg, s, t, step);
    match step
    case CallStep(n, a) => CallTask(cfg, s, t, n, a); UnroutedRoutes(s, t, n);
    case ServeStep(i, a) =>
      if a.ReadInvoke? {
        InvokeRoutes(cfg, s, t, i);
      } else {
        ServeStepRoutes(cfg, s, t, i, a, Touched(s, step));
      }
    case _ => OutsideStep(cfg, s, t, step); OutsideRoutes(s, t);
  }

  lemma ServeStepRoutes(cfg: Config, s: State, t: State, i: nat, a: ServeAct, n: nat)
    requires ServeNext(cfg, s, t, i, a) && !a.ReadInvoke? && CallEffect(s, t, n)
    requires ServesAdvance(s.serves, t.serves) && AllLocalsOk(s.calls) && RoutesOk(s)
    ensures RoutesOk(t)
  {
    ServeRoutes(cfg, s, t, i, a);
    ServeSpawns(cfg, s, t, i, a);
    ServeTask(cfg, s, t, i, a);
    UnroutedRoutes(s, t, n);
  }

  lemma OutsideRoutes(s: State, t: State)
    requires Outside(s, t) && AllLocalsOk(s.calls) && RoutesOk(s)
    ensures RoutesOk(t)
  {
    OutsideEffect(s, t);
    UnroutedRoutes(s, t, 0);
  }

  // ----- the two hops ---------------------------------------------------------------------------------------

  /** A dispatch task of the client on connection `j` answered call `k` of the broker with `reply`. */
  predicate AnsweredByDispatch(s: State, j: nat, d: nat, k: Call, reply: Reply) {
    && j < |s.apps| && s.apps[j].Managed? && d < |s.apps[j].client.dispatches|
    && var h := s.apps[j].client.dispatches[d];
       && h.reqId == k.reqId && h.methodName == k.methodName && h.payload == k.payload && h.caller == k.caller
       && h.reply == Some(reply)
  }

  /** Ids drawn on one connection tell its calls apart. */
  lemma SameIdSameCall(s: State, j: nat, m: nat, n: nat)
    requires IdsOk(s.sess, s.calls) && m < |s.calls| && n < |s.calls|
    requires s.calls[m].handle == Some(j) && s.calls[n].handle == Some(j)
    requires s.calls[m].reqId == s.calls[n].reqId > 0
    ensures m == n
  {
    assert IdOk(s.sess, s.calls, m) && IdOk(s.sess, s.calls, n);
  }

  ghost predicate BusOk(cfg: Config, s: State) {
    && Aligned(s) && Registered(s) && CallsOk(s) && SessionsOk(s) && RepliesOk(s)
    && ChannelsOk(cfg, s) && LogsOk(s) && PeersOk(s) && RoutesOk(s)
  }

  /** A frame the peer has read after the ack is in the log of its connection. */
  lemma DeliveredIsQueued(cfg: Config, s: State, j: nat, at: nat)
    requires BusOk(cfg, s) && j < |s.serves|
    requires 1 <= at < |s.chans[j].delivered|
    ensures at - 1 < |s.chans[j].queued| && s.chans[j].queued[at - 1] == s.chans[j].delivered[at]
    ensures at - 1 < |s.chans[j].tags| && TagOk(s.chans[j].tags[at - 1], s.chans[j].queued[at - 1], j, s.calls)
  {
    var ch := s.chans[j];
    assert PipeOk(s.serves[j], ch, cfg.heartbeatMs) && LogOk(ch, j, s.calls);
    assert ch.delivered <= ch.delivered + ch.wire <= ch.delivered + ch.wire + ch.queue;
    assert ch.delivered <= ch.head + ch.queued;
    assert (ch.head + ch.queued)[at] == ch.queued[at - 1];
  }

  // ----- from the client's call to the broker's --------------------------------------------------------------

  /** A frame `serve` has read from a client is one the client sent, for the recorded reason. */
  lemma ConsumedIsSent(s: State, i: nat, at: nat)
    requires PeersOk(s) && i < |s.apps| && s.apps[i].Managed? && at < |s.inbs[i].consumed|
    ensures var x := s.apps[i].client;
            at < |x.sent| && at < |x.why| && x.sent[at] == s.inbs[i].consumed[at] && CauseOk(x, x.why[at], x.sent[at])
  {
    assert ConnPeerOk(s, i);
    var inb, x := s.inbs[i], s.apps[i].client;
    assert inb.consumed <= inb.consumed + inb.stream <= x.sent;
  }

  /** A routed call of a client's connection carries the client call whose id it answers. */
  lemma RoutedCallIsInvoke(s: State, i: nat, c: nat)
    requires RoutesOk(s) && PeersOk(s) && c < |s.calls| && s.calls[c].origin.Routed? && s.calls[c].origin.conn == i
    requires i < |s.apps| && s.apps[i].Managed?
    ensures var x, k := s.apps[i].client, s.calls[c];
            && 1 <= k.origin.reqId <= |x.invokes|
            && var inv := x.invokes[k.origin.reqId - 1];
               && inv.reqId == k.origin.reqId && inv.pc.Waiting?
               && k.origin.at < |x.why| && x.why[k.origin.at] == Client.ByInvoke(k.origin.reqId - 1)
               && s.serves[i].hello.Some?
               && RoutesInvoke(k, Client.WireInvoke(inv), s.serves[i].hello.value.service)
  {
    var k, x := s.calls[c], s.apps[i].client;
    assert RouteOk(c, k, s.serves, s.inbs);
    ConsumedIsSent(s, i, k.origin.at);
    assert ConnPeerOk(s, i);
    var m := x.why[k.origin.at].call;
    assert InvokeIdOk(x, m);
  }

  /** A client call that has its reply got it from the routing task of exactly its own Invoke. */
  lemma ReplyIsRouted(cfg: Config, s: State, i: nat, n: nat) returns (c: nat)
    requires BusOk(cfg, s) && i < |s.apps| && s.apps[i].Managed? && n < |s.apps[i].client.invokes|
    requires s.apps[i].client.invokes[n].slot.Some?
    ensures c < |s.calls|
    ensures var k := s.calls[c];
            && k.origin.Routed? && k.origin.conn == i && k.origin.reqId == n + 1
            && k.outcome.Some? && ReplyOf(k.outcome.value) == s.apps[i].client.invokes[n].slot.value
  {
    var x := s.apps[i].client;
    assert ConnPeerOk(s, i);
    assert ReplySlotOk(x, n, s.chans[i].delivered) && InvokeIdOk(x, n);
    var at := x.invokes[n].at;
    DeliveredIsQueued(cfg, s, i, at);
    c := s.chans[i].tags[at - 1].call;
  }

  // ----- from the broker's call to the handler -----------------------------------------------------------------

  /** A dispatch task serves the one broker call whose Invoke it was spawned for. */
  lemma DispatchServesCall(cfg: Config, s: State, j: nat, d: nat) returns (c: nat)
    requires BusOk(cfg, s) && j < |s.apps| && s.apps[j].Managed? && d < |s.apps[j].client.dispatches|
    ensures c < |s.calls|
    ensures var k, h := s.calls[c], s.apps[j].client.dispatches[d];
            && k.handle == Some(j) && k.reqId == h.reqId > 0
            && k.methodName == h.methodName && k.payload == h.payload && k.caller == h.caller
            && 1 <= h.at <= |s.chans[j].tags| && s.chans[j].tags[h.at - 1] == ByCall(c)
  {
    var h := s.apps[j].client.dispatches[d];
    assert ConnPeerOk(s, j);
    assert DispatchOk(h, s.chans[j].delivered);
    DeliveredIsQueued(cfg, s, j, h.at);
    c := s.chans[j].tags[h.at - 1].call;
    assert LocalsOk(s.calls[c]);
  }

  /** A call answered by a client's connection was answered by a dispatch task spawned for that very call. */
  lemma AnswerIsDispatched(cfg: Config, s: State, c: nat) returns (d: nat)
    requires BusOk(cfg, s) && c < |s.calls| && s.calls[c].outcome.Some? && s.calls[c].outcome.value.Answered?
    requires s.calls[c].entry.Some? && s.calls[c].entry.value.tx < |s.apps|
    requires s.apps[s.calls[c].entry.value.tx].Managed?
    ensures AnsweredByDispatch(s, s.calls[c].entry.value.tx, d, s.calls[c], s.calls[c].outcome.value.reply)
  {
    var k := s.calls[c];
    assert LocalsOk(k) && TargetOk(s.serves, k) && SlotOk(k, s.sess, s.inbs);
    var j := k.entry.value.tx;
    ConsumedIsSent(s, j, k.answeredAt);
    d := s.apps[j].client.why[k.answeredAt].dispatch;
    var e := DispatchServesCall(cfg, s, j, d);
    SameIdSameCall(s, j, c, e);
  }

  /** The broker call `c` carries client call `n` of connection `i`, and this is how it was answered with `reply`. */
  ghost predicate CarriedBy(s: State, i: nat, n: nat, c: nat, reply: Reply)
    requires i < |s.apps| && s.apps[i].Managed? && n < |s.apps[i].client.invokes|
  {
    && c < |s.calls| && i < |s.serves| && s.serves[i].hello.Some?
    && var k := s.calls[c];
       && k.origin.Routed? && k.origin.conn == i && k.origin.reqId == n + 1
       && RoutesInvoke(k, Client.WireInvoke(s.apps[i].client.invokes[n]), s.serves[i].hello.value.service)
       && k.outcome.Some? && ReplyOf(k.outcome.value) == reply
       && (k.outcome.value.Answered? ==>
             && k.entry.Some? && k.entry.value.tx < |s.serves| && k.entry.value.tx < |s.apps|
             && var j := k.entry.value.tx;
                && s.serves[j].hello.Some? && s.serves[j].hello.value.service == k.service
                && (s.apps[j].Managed? ==> exists d :: AnsweredByDispatch(s, j, d, k, reply)))
  }

  /**
   * Two hops are one call. Whatever an `invoke` of any client has returned was decided by the single broker call
   * spawned for its Invoke: an error of the broker, the answer of a local service, or, when a client's connection
   * answered, exactly what one handler run on the target service returned for that method, payload and caller.
   */
  lemma TwoHopCall(cfg: Config, s: State, i: nat, n: nat)
    requires BusOk(cfg, s) && i < |s.apps| && s.apps[i].Managed? && n < |s.apps[i].client.invokes|
    requires s.apps[i].client.invokes[n].slot.Some?
    ensures exists c :: CarriedBy(s, i, n, c, s.apps[i].client.invokes[n].slot.value)
  {
    var reply := s.apps[i].client.invokes[n].slot.value;
    var c := ReplyIsRouted(cfg, s, i, n);
    RoutedCallIsInvoke(s, i, c);
    var k := s.calls[c];
    assert LocalsOk(k) && TargetOk(s.serves, k);
    if k.outcome.value.Answered? && s.apps[k.entry.value.tx].Managed? {
      var d := AnswerIsDispatched(cfg, s, c);
    }
    assert CarriedBy(s, i, n, c, reply);
  }

  /** The broker asks the named service for the named method exactly when the service name has no dot. */
  lemma AddressedAsNamed(k: Call, inv: Client.ClientCall, originator: string)
    requires RoutesInvoke(k, Client.WireInvoke(inv), originator)
    ensures '.' !in inv.service ==>
              k.service == inv.service && k.methodName == inv.methodName && k.payload == inv.payload
              && k.caller == inv.caller.(callerAppId := Some(originator))
    ensures '.' in inv.service ==> k.service != inv.service
  {
    JoinSplitRoundTrip(inv.service, inv.methodName);
  }

  // ----- at most once --------------------------------------------------------------------------------------------

  /** A client call is carried by at most one broker call. */
  lemma CarriedOnce(s: State, i: nat, b: nat, c: nat)
    requires RoutesOk(s) && PeersOk(s) && i < |s.apps| && s.apps[i].Managed? && b < |s.calls| && c < |s.calls|
    requires s.calls[b].origin.Routed? && s.calls[c].origin.Routed?
    requires s.calls[b].origin.conn == i && s.calls[c].origin.conn == i
    requires s.calls[b].origin.reqId == s.calls[c].origin.reqId
    ensures b == c
  {
    RoutedCallIsInvoke(s, i, b);
    RoutedCallIsInvoke(s, i, c);
    assert ConnPeerOk(s, i);
    var x := s.apps[i].client;
    assert CausesOk(x);
    assert s.calls[b].origin.at == s.calls[c].origin.at;
    assert RouteOk(b, s.calls[b], s.serves, s.inbs) && RouteOk(c, s.calls[c], s.serves, s.inbs);
  }

  /** A broker call is served by at most one dispatch task. */
  lemma DispatchedOnce(cfg: Config, s: State, j: nat, d: nat, e: nat)
    requires BusOk(cfg, s) && j < |s.apps| && s.apps[j].Managed?
    requires d < |s.apps[j].client.dispatches| && e < |s.apps[j].client.dispatches|
    requires s.apps[j].client.dispatches[d].reqId == s.apps[j].client.dispatches[e].reqId
    ensures d == e
  {
    var b := DispatchServesCall(cfg, s, j, d);
    var c := DispatchServesCall(cfg, s, j, e);
    SameIdSameCall(s, j, b, c);
    assert CallsDistinct(s.chans[j]);
    var x := s.apps[j].client;
    assert x.dispatches[d].at == x.dispatches[e].at;
    assert ConnPeerOk(s, j);
    assert DispatchesOk(x, s.chans[j].delivered);
  }

  // ----- caller context along chains of nested calls -------------------------------------------------------

  /**
   * Broker call `c` is nested in broker call `b`: `b` was dispatched as task `d` of a client, and that task, whose user
   * scope was never overwritten, made outbound call `n` with `auto_caller`, which the broker routed as `c`.
   */
  predicate Nested(s: State, b: nat, c: nat, d: nat, n: nat) {
    && b < |s.calls| && c < |s.calls| && s.calls[b].handle.Some?
    && s.calls[b].handle.value < |s.apps| && s.apps[s.calls[b].handle.value].Managed?
    && AutoNested(s.apps[s.calls[b].handle.value].client, s.calls[b].reqId, d, n)
    && s.calls[c].origin.Routed? && s.calls[c].origin.conn == s.calls[b].handle.value
    && s.calls[c].origin.reqId == n + 1
  }

  /** Task `d` serves the Invoke with id `reqId`, and made call `n` with `auto_caller` in its own, untouched scope. */
  predicate AutoNested(x: Client.AppClient, reqId: nat, d: nat, n: nat) {
    && d < |x.dispatches| && x.dispatches[d].reqId == reqId && !x.dispatches[d].userSet
    && n < |x.invokes| && x.invokes[n].parent == Some(d) && x.invokes[n].auto
  }

  /** One hop keeps the user and stamps the service that made it. */
  lemma HopKeepsUser(cfg: Config, s: State, b: nat, c: nat, d: nat, n: nat)
    requires BusOk(cfg, s) && Nested(s, b, c, d, n)
    ensures s.calls[c].caller.userId == s.calls[b].caller.userId
    ensures s.calls[c].caller.callerAppId == Some(s.calls[b].service)
  {
    var j := s.calls[b].handle.value;
    var x := s.apps[j].client;
    var e := DispatchServesCall(cfg, s, j, d);
    SameIdSameCall(s, j, b, e);
    RoutedCallIsInvoke(s, j, c);
    assert ConnPeerOk(s, j);
    assert ContextOk(x, x.invokes[n]);
    assert TargetOk(s.serves, s.calls[b]);
    DottedJoin(x.invokes[n].service, x.invokes[n].methodName);
  }

  lemma DottedJoin(service: string, methodName: string)
    ensures SplitOnce(Join(service, methodName)).Some?
  {
  }

  /** A chain of nested broker calls, outermost first. */
  ghost predicate Chain(s: State, calls: seq<nat>) {
    && |calls| > 0 && calls[0] < |s.calls|
    && forall k :: 0 <= k < |calls| - 1 ==> Follows(s, calls[k], calls[k + 1])
  }

  ghost predicate Follows(s: State, b: nat, c: nat) {
    exists d, n :: Nested(s, b, c, d, n)
  }

  lemma ChainLink(cfg: Config, s: State, b: nat, c: nat)
    requires BusOk(cfg, s) && Follows(s, b, c)
    ensures b < |s.calls| && c < |s.calls|
    ensures s.calls[c].caller.userId == s.calls[b].caller.userId
    ensures s.calls[c].caller.callerAppId == Some(s.calls[b].service)
  {
    var d, n :| Nested(s, b, c, d, n);
    HopKeepsUser(cfg, s, b, c, d, n);
  }

  /** Call `c` names the service of call `b` as its calling app. */
  predicate StampedBy(s: State, b: nat, c: nat) {
    b < |s.calls| && c < |s.calls| && s.calls[c].caller.callerAppId == Some(s.calls[b].service)
  }

  predicate SameUser(s: State, b: nat, c: nat) {
    b < |s.calls| && c < |s.calls| && s.calls[c].caller.userId == s.calls[b].caller.userId
  }

  /**
   * However long the chain, every hop carries the user of the outermost call, and every hop after it carries the
   * service called immediately before as `caller_app_id`.
   */
  lemma ChainKeepsUser(cfg: Config, s: State, calls: seq<nat>)
    requires BusOk(cfg, s) && Chain(s, calls)
    ensures forall k :: 0 <= k < |calls| ==> SameUser(s, calls[0], calls[k])
    ensures forall k :: 0 <= k < |calls| - 1 ==> StampedBy(s, calls[k], calls[k + 1])
  {
    forall k | 0 <= k < |calls| - 1
      ensures StampedBy(s, calls[k], calls[k + 1]) && SameUser(s, calls[k], calls[k + 1])
    {
      assert Follows(s, calls[k], calls[k + 1]);
      ChainLink(cfg, s, calls[k], calls[k + 1]);
    }
    forall k | 0 <= k < |calls|
      ensures SameUser(s, calls[0], calls[k])
    {
      UserCarried(s, calls, k);
    }
  }

  lemma {:induction false} UserCarried(s: State, calls: seq<nat>, n: nat)
    requires n < |calls| && calls[0] < |s.calls|
    requires forall k :: 0 <= k < |calls| - 1 ==> SameUser(s, calls[k], calls[k + 1])
    ensures SameUser(s, calls[0], calls[n])
  {
    if n > 0 {
      UserCarried(s, calls, n - 1);
      assert SameUser(s, calls[n - 1], calls[n - 1 + 1]);
    }
  }
}
