/**
 * Nothing gets lost on the way of a call: every Invoke that `serve` has read is routed, every routed call that ended
 * was answered, and a Response that was read leaves no pending entry. A nested call is younger than its parent.
 */
module BusDelivery {
  import opened Prelude
  import opened Frames
  import opened BrokerTables
  import opened Connection
  import opened Bus
  import opened BusSteps
  import Client = ClientState
  import opened ClientInvariants
  import opened ClientDelivery
  import opened BusRegistration
  import opened BusCalls
  import opened BusSessions
  import opened BusReplies
  import opened BusChannels
  import opened BusLogs
  import opened BusPeers
  import opened BusRouting

  // ----- invariants ---------------------------------------------------------------------------------

  ghost predicate ConnFlowOk(s: State, i: nat)
    requires Aligned(s) && i < |s.serves|
  {
    s.apps[i].Managed? ==> FlowOk(s.apps[i].client, s.chans[i].delivered)
  }

  ghost predicate FlowsOk(s: State)
    requires Aligned(s)
  {
    forall i :: 0 <= i < |s.serves| ==> ConnFlowOk(s, i)
  }

  /** Until the task closes, every Invoke it has read is routed; before the frame loop there are none. */
  predicate ReadsRouted(v: Serve, b: Inbound) {
    && (Rank(v.pc) < 1 ==> b.consumed == [])
    && (Rank(v.pc) < 8 ==> v.routes == map[])
    && (Rank(v.pc) < 13 ==> forall at :: 0 <= at < |b.consumed| && b.consumed[at].InvokeFrame? ==> at in v.routes)
  }

  ghost predicate ReadsOk(serves: seq<Serve>, inbs: seq<Inbound>) {
    && |inbs| == |serves|
    && forall i :: 0 <= i < |serves| ==> ReadsRouted(serves[i], inbs[i])
  }

  predicate RouteTarget(calls: seq<Call>, c: nat, i: nat, at: nat) {
    c < |calls| && calls[c].origin.Routed? && calls[c].origin.conn == i && calls[c].origin.at == at
  }

  ghost predicate RouteTargetsOk(serves: seq<Serve>, calls: seq<Call>) {
    forall i, at :: 0 <= i < |serves| && at in serves[i].routes ==> RouteTarget(calls, serves[i].routes[at], i, at)
  }

  /** A routing task that ended queued its answer, unless the channel is closed. */
  predicate EndedOk(c: nat, k: Call, chans: seq<Channel>) {
    k.origin.Routed? && k.pc == Ended && k.origin.conn < |chans| && chans[k.origin.conn].open ==>
      ByRoute(c) in chans[k.origin.conn].tags
  }

  ghost predicate EndsOk(calls: seq<Call>, chans: seq<Channel>) {
    forall c :: 0 <= c < |calls| ==> EndedOk(c, calls[c], chans)
  }

  /** A Response read from a client leaves no pending entry for its id. */
  predicate AnswersTaken(b: Inbound, x: Session) {
    forall at :: 0 <= at < |b.consumed| && b.consumed[at].ResponseFrame? ==> b.consumed[at].reqId !in x.pendingOut
  }

  ghost predicate TakenOk(s: State)
    requires Aligned(s)
  {
    forall i :: 0 <= i < |s.serves| && s.apps[i].Managed? ==> AnswersTaken(s.inbs[i], s.sess[i])
  }

  /** A call routed for a handler's own call is younger than the broker call that runs the handler. */
  predicate YoungerOk(s: State, c: nat)
    requires Aligned(s) && c < |s.calls|
  {
    var o := s.calls[c].origin;
    o.Routed? && o.conn < |s.apps| && s.apps[o.conn].Managed? ==>
      && var x := s.apps[o.conn].client;
         && 1 <= o.reqId <= |x.invokes|
         && match x.invokes[o.reqId - 1].parent
            case None => true
            case Some(d) =>
              d < |x.dispatches| && x.dispatches[d].reqId in s.sess[o.conn].owners
              && s.sess[o.conn].owners[x.dispatches[d].reqId] < c
  }

  ghost predicate NestingOk(s: State)
    requires Aligned(s)
  {
    forall c :: 0 <= c < |s.calls| ==> YoungerOk(s, c)
  }

  ghost predicate DeliveryOk(s: State) {
    && Aligned(s) && FlowsOk(s) && ReadsOk(s.serves, s.inbs) && RouteTargetsOk(s.serves, s.calls)
    && EndsOk(s.calls, s.chans) && TakenOk(s) && NestingOk(s)
  }

  // ----- clients --------------------------------------------------------------------------------------

  /** A Response read by a client carries the id of a call that has been sent. */
  lemma ReadReplyIsWaited(cfg: Config, s: State, i: nat, at: nat)
    requires BusOk(cfg, s) && i < |s.apps| && s.apps[i].Managed?
    requires 1 <= at < |s.chans[i].delivered| && s.chans[i].delivered[at].ResponseFrame?
    ensures var r, x := s.chans[i].delivered[at].reqId, s.apps[i].client;
            1 <= r <= |x.invokes| && x.invokes[r - 1].pc.Waiting?
  {
    var c := ReadReplyRoute(cfg, s, i, at);
    RoutedCallIsInvoke(s, i, c);
  }

  lemma ReadReplyRoute(cfg: Config, s: State, i: nat, at: nat) returns (c: nat)
    requires BusOk(cfg, s) && i < |s.serves| && 1 <= at < |s.chans[i].delivered|
    requires s.chans[i].delivered[at].ResponseFrame?
    ensures c < |s.calls| && s.calls[c].origin.Routed? && s.calls[c].origin.conn == i
    ensures s.calls[c].origin.reqId == s.chans[i].delivered[at].reqId
  {
    DeliveredIsQueued(cfg, s, i, at);
    c := s.chans[i].tags[at - 1].call;
  }

  /** A call that has not entered `pending` yet has no Response waiting for it. */
  lemma AllocatedUnanswered(cfg: Config, s: State, i: nat, m: nat)
    requires BusOk(cfg, s) && i < |s.apps| && s.apps[i].Managed? && m < |s.apps[i].client.invokes|
    requires !s.apps[i].client.invokes[m].pc.Waiting?
    ensures Unanswered(s.chans[i].delivered, s.apps[i].client.invokes[m].reqId)
  {
    var x, delivered := s.apps[i].client, s.chans[i].delivered;
    forall at | 1 <= at < |delivered| && delivered[at].ResponseFrame?
      ensures delivered[at].reqId != x.invokes[m].reqId
    {
      ReadReplyIsWaited(cfg, s, i, at);
      assert ConnPeerOk(s, i);
      assert InvokeIdOk(x, m);
    }
  }

  lemma ReadInboundFlow(c: Peer, d: Peer)
    requires c.app.Managed? && PeerOk(c) && ClientNext(c, d, ReadInbound) && FlowOk(c.app.client, c.chan.delivered)
    ensures d.app.Managed? && FlowOk(d.app.client, d.chan.delivered)
  {
    var x, del := c.app.client, c.chan.delivered;
    if x.phase.AwaitAck? {
      AckFlow(x, c.chan.wire[0]);
      assert del + [c.chan.wire[0]] == [c.chan.wire[0]];
    } else {
      ReadFlow(x, del, c.chan.wire[0]);
    }
  }

  predicate SendAct(a: AppAct) {
    a.QueueOutbound? || a.EmitPublish? || a.EmitSubscribe? || a.Answer?
  }

  lemma SendingFlow(c: Peer, d: Peer, a: AppAct)
    requires c.app.Managed? && PeerOk(c) && ClientNext(c, d, a) && FlowOk(c.app.client, c.chan.delivered)
    requires SendAct(a)
    ensures d.app.Managed? && FlowOk(d.app.client, d.chan.delivered)
  {
    var x, del := c.app.client, c.chan.delivered;
    match a
    case QueueOutbound(n) => QueueInvokeFlow(x, del, n);
    case EmitPublish(topic, payload) => SendFlow(x, Publish(Event(topic, payload, None)), Client.Plain, del);
    case EmitSubscribe(prefix) => SendFlow(x, Subscribe(prefix), Client.Plain, del);
    case Answer(n, reply) => AnswerFlow(x, del, n, reply);
  }

  lemma ClientStepFlow(c: Peer, d: Peer, a: AppAct)
    requires c.app.Managed? && PeerOk(c) && ClientNext(c, d, a) && FlowOk(c.app.client, c.chan.delivered)
    requires a.RegisterInvoke? ==> Unanswered(c.chan.delivered, c.app.client.invokes[a.call].reqId)
    ensures d.app.Managed? && FlowOk(d.app.client, d.chan.delivered)
  {
    if a.ReadInbound? {
      ReadInboundFlow(c, d);
    } else if SendAct(a) {
      SendingFlow(c, d, a);
    } else if !a.SendHello? {
      OtherFlow(c, d, a);
    }
  }

  lemma OtherFlow(c: Peer, d: Peer, a: AppAct)
    requires c.app.Managed? && ClientNext(c, d, a) && FlowOk(c.app.client, c.chan.delivered)
    requires !a.ReadInbound? && !SendAct(a) && !a.SendHello?
    requires a.RegisterInvoke? ==> Unanswered(c.chan.delivered, c.app.client.invokes[a.call].reqId)
    ensures d.app.Managed? && FlowOk(d.app.client, d.chan.delivered)
  {
    ContinuedFlow(c.app.client, d.app.client, c.chan.delivered);
  }

  lemma AppFlows(cfg: Config, s: State, t: State, i: nat, a: AppAct)
    requires AppNext(s, t, i, a) && BusOk(cfg, s) && FlowsOk(s)
    ensures Aligned(t) && FlowsOk(t)
  {
    var before, after := Peer(s.apps[i], s.inbs[i], s.chans[i]), Peer(t.apps[i], t.inbs[i], t.chans[i]);
    assert ConnPeerOk(s, i) && ConnFlowOk(s, i);
    if s.apps[i].Managed? {
      if a.RegisterInvoke? {
        AllocatedUnanswered(cfg, s, i, a.call);
      }
      ClientStepFlow(before, after, a);
    }
    forall j | 0 <= j < |t.serves|
      ensures ConnFlowOk(t, j)
    {
      assert ConnFlowOk(s, j);
    }
  }

  lemma ServeFlows(cfg: Config, s: State, t: State, i: nat, a: ServeAct)
    requires ServeNext(cfg, s, t, i, a) && FlowsOk(s)
    ensures Aligned(t) && FlowsOk(t)
  {
    ServeTask(cfg, s, t, i, a);
    ServeDelivered(cfg, s, t, i, a);
    forall j | 0 <= j < |t.serves|
      ensures ConnFlowOk(t, j)
    {
      assert ConnFlowOk(s, j);
    }
  }

  lemma CallFlows(cfg: Config, s: State, t: State, n: nat, a: CallAct)
    requires CallNext(cfg, s, t, n, a) && FlowsOk(s)
    ensures Aligned(t) && FlowsOk(t)
  {
    CallTask(cfg, s, t, n, a);
    CallDelivered(cfg, s, t, n, a);
    forall j | 0 <= j < |t.serves|
      ensures ConnFlowOk(t, j)
    {
      assert ConnFlowOk(s, j);
    }
  }

  lemma WireFlows(s: State, t: State, i: nat, a: WireAct)
    requires WireNext(s, t, i, a) && FlowsOk(s)
    ensures Aligned(t) && FlowsOk(t)
  {
    forall j | 0 <= j < |t.serves|
      ensures ConnFlowOk(t, j)
    {
      assert ConnFlowOk(s, j);
    }
  }

  lemma HostFlows(s: State, t: State, a: HostAct)
    requires HostNext(s, t, a) && FlowsOk(s)
    ensures Aligned(t) && FlowsOk(t)
  {
    forall j | 0 <= j < |t.serves|
      ensures ConnFlowOk(t, j)
    {
      assert j < |s.serves| ==> ConnFlowOk(s, j);
    }
  }

  lemma StepFlows(cfg: Config, s: State, t: State, step: Step)
    requires Next(cfg, s, t, step) && BusOk(cfg, s) && FlowsOk(s)
    ensures Aligned(t) && FlowsOk(t)
  {
    match step
    case HostStep(a) => HostFlows(s, t, a);
    case WireStep(i, a) => WireFlows(s, t, i, a);
    case AppStep(i, a) => AppFlows(cfg, s, t, i, a);
    case CallStep(n, a) => CallFlows(cfg, s, t, n, a);
    case ServeStep(i, a) => ServeFlows(cfg, s, t, i, a);
  }

  // ----- reading and routing --------------------------------------------------------------------------

  /** A frame that is read without being routed is no Invoke, or ends the connection. */
  lemma UnroutedRead(cfg: Config, s: State, t: State, i: nat, a: ServeAct)
    requires ServeNext(cfg, s, t, i, a) && ReadAct(a) && !a.ReadInvoke? && s.inbs[i].stream != []
    ensures s.inbs[i].stream[0].InvokeFrame? ==> i < |t.serves| && Rank(t.serves[i].pc) >= 13
  {
  }

  lemma ServeReads(cfg: Config, s: State, t: State, i: nat, a: ServeAct)
    requires ServeNext(cfg, s, t, i, a) && ReadsOk(s.serves, s.inbs)
    ensures ReadsOk(t.serves, t.inbs)
  {
    if a.ReadInvoke? {
      InvokeReads(cfg, s, t, i);
    } else {
      ServeTask(cfg, s, t, i, a);
      ServeRoutes(cfg, s, t, i, a);
      ServeFrom(cfg, s, t, i, a);
      ServeTo(cfg, s, t, i, a);
      if ReadAct(a) {
        UnroutedRead(cfg, s, t, i, a);
      }
      MovedReads(s, t, i, ReadAct(a));
    }
  }

  lemma MovedReads(s: State, t: State, i: nat, read: bool)
    requires ReadsOk(s.serves, s.inbs) && OneTask(s, t, i) && t.serves[i].routes == s.serves[i].routes
    requires Rank(s.serves[i].pc) <= Rank(t.serves[i].pc)
    requires if read
             then s.inbs[i].stream != [] && t.inbs == s.inbs[i := Consume(s.inbs[i])] && Rank(t.serves[i].pc) >= 1
                  && (s.inbs[i].stream[0].InvokeFrame? ==> Rank(t.serves[i].pc) >= 13)
             else t.inbs == s.inbs
    ensures ReadsOk(t.serves, t.inbs)
  {
  }

  lemma InvokeReads(cfg: Config, s: State, t: State, i: nat)
    requires Aligned(s) && i < |s.serves| && InvokeStep(cfg, s, t, i) && ReadsOk(s.serves, s.inbs)
    ensures ReadsOk(t.serves, t.inbs)
  {
  }

  lemma StepReads(cfg: Config, s: State, t: State, step: Step)
    requires Next(cfg, s, t, step) && ReadsOk(s.serves, s.inbs)
    ensures ReadsOk(t.serves, t.inbs)
  {
    match step
    case ServeStep(i, a) => ServeReads(cfg, s, t, i, a);
    case CallStep(n, a) => CallTask(cfg, s, t, n, a);
    case _ => OutsideStep(cfg, s, t, step);
  }

  lemma TargetsMove(a: seq<Serve>, b: seq<Serve>, x: seq<Call>, y: seq<Call>)
    requires RouteTargetsOk(a, x) && CallsAdvance(x, y) && |a| <= |b|
    requires forall i :: 0 <= i < |a| ==> b[i].routes == a[i].routes
    requires forall i :: |a| <= i < |b| ==> b[i] == NEW_SERVE
    ensures RouteTargetsOk(b, y)
  {
  }

  lemma InvokeTargets(cfg: Config, s: State, t: State, i: nat)
    requires Aligned(s) && i < |s.serves| && InvokeStep(cfg, s, t, i) && RouteTargetsOk(s.serves, s.calls)
    ensures RouteTargetsOk(t.serves, t.calls)
  {
  }

  lemma StepTargets(cfg: Config, s: State, t: State, step: Step)
    requires Next(cfg, s, t, step) && CallsAdvance(s.calls, t.calls) && RouteTargetsOk(s.serves, s.calls)
    ensures RouteTargetsOk(t.serves, t.calls)
  {
    match step
    case ServeStep(i, a) =>
      if a.ReadInvoke? {
        InvokeTargets(cfg, s, t, i);
      } else {
        ServeTask(cfg, s, t, i, a);
        ServeRoutes(cfg, s, t, i, a);
        TargetsMove(s.serves, t.serves, s.calls, t.calls);
      }
    case _ => TasksStay(cfg, s, t, step); TargetsMove(s.serves, t.serves, s.calls, t.calls);
  }

  // ----- answers of routing tasks ------------------------------------------------------------------------

  /** No routing task has ever been spawned for connection `j`. */
  ghost predicate Routeless(calls: seq<Call>, j: nat) {
    forall c :: 0 <= c < |calls| && calls[c].origin.Routed? ==> calls[c].origin.conn != j
  }

  ghost predicate ChannelGrows(a: Channel, b: Channel) {
    (forall tag :: tag in a.tags ==> tag in b.tags) && (b.open ==> a.open)
  }

  ghost predicate ChannelsGrow(a: seq<Channel>, b: seq<Channel>, calls: seq<Call>) {
    && |a| <= |b|
    && (forall j :: 0 <= j < |a| ==> ChannelGrows(a[j], b[j]) || Routeless(calls, j))
    && (forall j :: |a| <= j < |b| ==> b[j] == NEW_CHANNEL)
  }

  predicate NotNewlyEnded(k: Call, l: Call) {
    l.pc == Ended && l.origin.Routed? ==> k.pc == Ended && l.origin == k.origin
  }

  lemma EndsKept(s: State, t: State, n: nat)
    requires EndsOk(s.calls, s.chans) && CallEffect(s, t, n) && ChannelsGrow(s.chans, t.chans, s.calls)
    requires n < |s.calls| && n < |t.calls| ==> NotNewlyEnded(s.calls[n], t.calls[n])
    ensures EndsOk(t.calls, t.chans)
  {
  }

  lemma QueueReplyEnds(s: State, t: State, n: nat)
    requires EndsOk(s.calls, s.chans) && Aligned(s) && n < |s.calls| && QueueReplyStep(s, t, n)
    ensures EndsOk(t.calls, t.chans)
  {
  }

  lemma CallEnds(cfg: Config, s: State, t: State, n: nat, a: CallAct)
    requires CallNext(cfg, s, t, n, a) && !a.QueueReply? && LocalsOk(s.calls[n])
    ensures n < |t.calls| && NotNewlyEnded(s.calls[n], t.calls[n])
  {
  }

  lemma CallChannels(cfg: Config, s: State, t: State, n: nat, a: CallAct)
    requires CallNext(cfg, s, t, n, a)
    ensures |t.chans| == |s.chans| && forall j :: 0 <= j < |s.chans| ==> ChannelGrows(s.chans[j], t.chans[j])
  {
  }

  lemma RoutelessEarly(s: State, i: nat)
    requires RoutesOk(s) && ReadsOk(s.serves, s.inbs) && i < |s.serves| && Rank(s.serves[i].pc) < 8
    ensures Routeless(s.calls, i)
  {
  }

  lemma ServeEnds(cfg: Config, s: State, t: State, i: nat, a: ServeAct)
    requires ServeNext(cfg, s, t, i, a) && RoutesOk(s) && ReadsOk(s.serves, s.inbs)
    ensures ChannelsGrow(s.chans, t.chans, s.calls)
  {
    if a.QueueEvent? {
    } else {
      ServeLog(cfg, s, t, i, a);
      if a.IdentifyClient? {
        RoutelessEarly(s, i);
      } else {
        ServeCloses(cfg, s, t, i, a);
      }
    }
  }

  lemma ServeCloses(cfg: Config, s: State, t: State, i: nat, a: ServeAct)
    requires ServeNext(cfg, s, t, i, a) && !a.IdentifyClient? && !a.QueueEvent?
    ensures |t.chans| == |s.chans| && (t.chans[i].open ==> s.chans[i].open)
  {
  }

  lemma OutsideEnds(s: State, t: State)
    requires EndsOk(s.calls, s.chans) && Outside(s, t)
    ensures EndsOk(t.calls, t.chans)
  {
  }

  lemma StepEnds(cfg: Config, s: State, t: State, step: Step)
    requires Next(cfg, s, t, step) && CallEffect(s, t, Touched(s, step)) && RoutesOk(s)
    requires ReadsOk(s.serves, s.inbs) && EndsOk(s.calls, s.chans) && AllLocalsOk(s.calls)
    ensures EndsOk(t.calls, t.chans)
  {
    match step
    case CallStep(n, a) =>
      if a.QueueReply? {
        QueueReplyEnds(s, t, n);
      } else {
        CallEnds(cfg, s, t, n, a);
        CallChannels(cfg, s, t, n, a);
        EndsKept(s, t, n);
      }
    case ServeStep(i, a) =>
      ServeEnds(cfg, s, t, i, a);
      ServeEndsNothing(cfg, s, t, i, a, Touched(s, step));
      EndsKept(s, t, Touched(s, step));
    case _ => OutsideStep(cfg, s, t, step); OutsideEnds(s, t);
  }

  lemma ServeEndsNothing(cfg: Config, s: State, t: State, i: nat, a: ServeAct, n: nat)
    requires ServeNext(cfg, s, t, i, a)
    ensures n < |s.calls| && n < |t.calls| ==> NotNewlyEnded(s.calls[n], t.calls[n])
  {
  }

  // ----- Responses that were read ------------------------------------------------------------------------

  lemma ConnTaken(s: State, i: nat)
    requires Aligned(s) && TakenOk(s) && i < |s.serves| && s.apps[i].Managed?
    ensures AnswersTaken(s.inbs[i], s.sess[i])
  {
  }

  /** An id that is about to become pending has not been answered. */
  lemma UnreadBeforePending(cfg: Config, s: State, n: nat, j: nat)
    requires BusOk(cfg, s) && n < |s.calls| && s.calls[n].pc == PutPending && s.calls[n].handle == Some(j)
    requires j < |s.serves| && s.apps[j].Managed?
    ensures forall at :: 0 <= at < |s.inbs[j].consumed| && s.inbs[j].consumed[at].ResponseFrame? ==>
              s.inbs[j].consumed[at].reqId != s.calls[n].reqId
  {
    forall at | 0 <= at < |s.inbs[j].consumed| && s.inbs[j].consumed[at].ResponseFrame?
      ensures s.inbs[j].consumed[at].reqId != s.calls[n].reqId
    {
      var c := ReadAnswerCall(cfg, s, j, at);
      if s.calls[c].reqId == s.calls[n].reqId {
        SameIdSameCall(s, j, c, n);
      }
    }
  }

  /** A Response that `serve` has read from a client answers a call whose Invoke had been queued. */
  lemma ReadAnswerCall(cfg: Config, s: State, j: nat, at: nat) returns (c: nat)
    requires BusOk(cfg, s) && j < |s.serves| && s.apps[j].Managed?
    requires at < |s.inbs[j].consumed| && s.inbs[j].consumed[at].ResponseFrame?
    ensures c < |s.calls| && s.calls[c].handle == Some(j) && CallRank(s.calls[c].pc) >= 8
    ensures s.calls[c].reqId == s.inbs[j].consumed[at].reqId > 0
  {
    ConsumedIsSent(s, j, at);
    var d := s.apps[j].client.why[at].dispatch;
    c := DispatchServesCall(cfg, s, j, d);
    assert LogOk(s.chans[j], j, s.calls);
    assert TagOk(ByCall(c), s.chans[j].queued[s.apps[j].client.dispatches[d].at - 1], j, s.calls);
  }

  lemma CallTaken(cfg: Config, s: State, t: State, n: nat, a: CallAct)
    requires CallNext(cfg, s, t, n, a) && BusOk(cfg, s) && TakenOk(s)
    ensures Aligned(t) && TakenOk(t)
  {
    CallFrame(cfg, s, t, n, a);
    if a.EnterPending? {
      EnterTaken(cfg, s, t, n);
    } else {
      PendingShrinks(cfg, s, t, n, a);
      forall i | 0 <= i < |t.serves| && t.apps[i].Managed?
        ensures AnswersTaken(t.inbs[i], t.sess[i])
      {
        ConnTaken(s, i);
      }
    }
  }

  lemma EnterTaken(cfg: Config, s: State, t: State, n: nat)
    requires BusOk(cfg, s) && n < |s.calls| && EnterPendingStep(s, t, n) && TakenOk(s)
    ensures Aligned(t) && TakenOk(t)
  {
    var j := s.calls[n].handle.value;
    forall i | 0 <= i < |t.serves| && t.apps[i].Managed?
      ensures AnswersTaken(t.inbs[i], t.sess[i])
    {
      ConnTaken(s, i);
      if i == j {
        UnreadBeforePending(cfg, s, n, j);
      }
    }
  }

  lemma PendingShrinks(cfg: Config, s: State, t: State, n: nat, a: CallAct)
    requires CallNext(cfg, s, t, n, a) && !a.EnterPending?
    ensures t.apps == s.apps && |t.sess| == |s.sess|
    ensures forall i :: 0 <= i < |s.sess| ==> t.sess[i].pendingOut.Keys <= s.sess[i].pendingOut.Keys
  {
  }

  lemma ServeTaken(cfg: Config, s: State, t: State, i: nat, a: ServeAct)
    requires ServeNext(cfg, s, t, i, a) && BusOk(cfg, s) && FlowsOk(s) && ReadsOk(s.serves, s.inbs) && TakenOk(s)
    ensures Aligned(t) && TakenOk(t)
  {
    ServeTask(cfg, s, t, i, a);
    if a.ReadResponse? {
      ResponseTaken(s, t, i);
    } else {
      NoResponseRead(cfg, s, t, i, a);
      SessionsKept(cfg, s, t, i, a);
      forall j | 0 <= j < |t.serves| && t.apps[j].Managed?
        ensures AnswersTaken(t.inbs[j], t.sess[j])
      {
        ConnTaken(s, j);
      }
    }
  }

  lemma SessionsKept(cfg: Config, s: State, t: State, i: nat, a: ServeAct)
    requires ServeNext(cfg, s, t, i, a) && !a.ReadResponse?
    ensures t.sess == s.sess
  {
  }

  lemma ResponseTaken(s: State, t: State, i: nat)
    requires Aligned(s) && i < |s.serves| && ResponseStep(s, t, i) && TakenOk(s)
    ensures Aligned(t) && TakenOk(t)
  {
  }

  /** Outside the Response arm of the loop, the frame read from a client is not a Response. */
  lemma NoResponseRead(cfg: Config, s: State, t: State, i: nat, a: ServeAct)
    requires ServeNext(cfg, s, t, i, a) && !a.ReadResponse?
    requires PeersOk(s) && FlowsOk(s) && ReadsOk(s.serves, s.inbs)
    ensures t.inbs == s.inbs || (s.inbs[i].stream != [] && t.inbs == s.inbs[i := Consume(s.inbs[i])])
    ensures t.inbs != s.inbs && s.apps[i].Managed? ==> !s.inbs[i].stream[0].ResponseFrame?
  {
    ServeTask(cfg, s, t, i, a);
    if a.ReadHello? {
      assert ConnPeerOk(s, i) && ConnFlowOk(s, i) && ReadsRouted(s.serves[i], s.inbs[i]);
      if s.apps[i].Managed? {
        FirstFrame(s.apps[i].client, s.inbs[i]);
      }
    } else if ReadMove(a) {
      ReadsNoResponse(cfg, s, t, i, a);
    }
  }

  lemma FirstFrame(x: Client.AppClient, b: Inbound)
    requires OutboundOk(x, b) && HelloFirst(x) && b.consumed == [] && b.stream != []
    ensures b.stream[0].Hello?
  {
  }

  lemma ReadsNoResponse(cfg: Config, s: State, t: State, i: nat, a: ServeAct)
    requires ServeNext(cfg, s, t, i, a) && ReadMove(a) && !a.ReadResponse?
    ensures s.inbs[i].stream != [] && !s.inbs[i].stream[0].ResponseFrame?
  {
  }

  lemma OutsideTaken(s: State, t: State)
    requires Outside(s, t) && TakenOk(s)
    ensures TakenOk(t)
  {
  }

  lemma StepTaken(cfg: Config, s: State, t: State, step: Step)
    requires Next(cfg, s, t, step) && BusOk(cfg, s) && FlowsOk(s) && ReadsOk(s.serves, s.inbs) && TakenOk(s)
    ensures Aligned(t) && TakenOk(t)
  {
    match step
    case CallStep(n, a) => CallTaken(cfg, s, t, n, a);
    case ServeStep(i, a) => ServeTaken(cfg, s, t, i, a);
    case _ => OutsideStep(cfg, s, t, step); OutsideTaken(s, t);
  }

  // ----- nesting ---------------------------------------------------------------------------------------------

  /** Outbound calls keep their parent and dispatch tasks their request. */
  predicate TasksKept(x: Client.AppClient, y: Client.AppClient) {
    && |x.invokes| <= |y.invokes| && |x.dispatches| <= |y.dispatches|
    && (forall n :: 0 <= n < |x.invokes| ==> y.invokes[n].parent == x.invokes[n].parent)
    && (forall d :: 0 <= d < |x.dispatches| ==> y.dispatches[d].reqId == x.dispatches[d].reqId)
  }

  predicate AppKept(a: App, b: App) {
    if a.Wild? then b.Wild? else b.Managed? && TasksKept(a.client, b.client)
  }

  predicate OwnersKept(x: Session, y: Session) {
    forall r :: r in x.owners ==> r in y.owners && y.owners[r] == x.owners[r]
  }

  ghost predicate NestingKept(s: State, t: State) {
    && |s.apps| <= |t.apps| && |s.sess| <= |t.sess|
    && (forall j :: 0 <= j < |s.apps| ==> AppKept(s.apps[j], t.apps[j]))
    && (forall j :: 0 <= j < |s.sess| ==> OwnersKept(s.sess[j], t.sess[j]))
  }

  lemma KeptYounger(s: State, t: State, c: nat)
    requires Aligned(s) && Aligned(t) && c < |s.calls| && c < |t.calls| && YoungerOk(s, c) && NestingKept(s, t)
    requires t.calls[c].origin == s.calls[c].origin
    requires s.calls[c].origin.Routed? ==> s.calls[c].origin.conn < |s.apps|
    ensures YoungerOk(t, c)
  {
  }

  lemma OldYounger(s: State, t: State)
    requires Aligned(s) && Aligned(t) && NestingOk(s) && NestingKept(s, t) && RoutesOk(s)
    requires CallsAdvance(s.calls, t.calls)
    requires |t.calls| <= |s.calls| + 1 && (|t.calls| > |s.calls| ==> YoungerOk(t, |s.calls|))
    ensures NestingOk(t)
  {
    forall c | 0 <= c < |s.calls|
      ensures YoungerOk(t, c)
    {
      assert YoungerOk(s, c) && RouteOk(c, s.calls[c], s.serves, s.inbs);
      KeptYounger(s, t, c);
    }
  }

  lemma ClientTasks(c: Peer, d: Peer, a: AppAct)
    requires c.app.Managed? && ClientNext(c, d, a)
    ensures d.app.Managed? && TasksKept(c.app.client, d.app.client)
  {
  }

  lemma AppNesting(s: State, t: State, i: nat, a: AppAct)
    requires AppNext(s, t, i, a)
    ensures NestingKept(s, t)
  {
    if s.apps[i].Managed? {
      ClientTasks(Peer(s.apps[i], s.inbs[i], s.chans[i]), Peer(t.apps[i], t.inbs[i], t.chans[i]), a);
    }
  }

  lemma CallNesting(cfg: Config, s: State, t: State, n: nat, a: CallAct)
    requires CallNext(cfg, s, t, n, a) && TablesOk(s.sess, s.calls)
    ensures NestingKept(s, t)
  {
    CallOwners(cfg, s, t, n, a);
    forall j | 0 <= j < |s.sess|
      ensures OwnersKept(s.sess[j], t.sess[j])
    {
      assert SessionTableOk(s.sess[j], j, s.calls);
    }
  }

  lemma CallOwners(cfg: Config, s: State, t: State, n: nat, a: CallAct)
    requires CallNext(cfg, s, t, n, a)
    ensures t.apps == s.apps && |t.sess| == |s.sess|
    ensures forall j :: 0 <= j < |s.sess| ==>
              t.sess[j].owners == s.sess[j].owners || t.sess[j].owners == s.sess[j].owners[s.sess[j].nextReqId := n]
  {
  }

  lemma StepNestingKept(cfg: Config, s: State, t: State, step: Step)
    requires Next(cfg, s, t, step) && TablesOk(s.sess, s.calls)
    ensures NestingKept(s, t)
  {
    match step
    case AppStep(i, a) => AppNesting(s, t, i, a);
    case CallStep(n, a) => CallNesting(cfg, s, t, n, a);
    case ServeStep(i, a) => ServeNesting(cfg, s, t, i, a);
    case HostStep(a) => HostNesting(s, t, a);
    case WireStep(i, a) => WireNesting(s, t, i, a);
  }

  lemma ServeNesting(cfg: Config, s: State, t: State, i: nat, a: ServeAct)
    requires ServeNext(cfg, s, t, i, a)
    ensures NestingKept(s, t)
  {
    ServeTask(cfg, s, t, i, a);
    if !a.ReadResponse? {
      SessionsKept(cfg, s, t, i, a);
    }
  }

  lemma HostNesting(s: State, t: State, a: HostAct)
    requires HostNext(s, t, a)
    ensures NestingKept(s, t)
  {
  }

  lemma WireNesting(s: State, t: State, i: nat, a: WireAct)
    requires WireNext(s, t, i, a)
    ensures NestingKept(s, t)
  {
  }

  /** Only the routing task of an Invoke can be nested in anything, and every call it may be nested in is older. */
  lemma NewYounger(cfg: Config, s: State, t: State, step: Step)
    requires Next(cfg, s, t, step) && BusOk(cfg, s) && Aligned(t)
    requires |t.calls| == |s.calls| + 1
    ensures YoungerOk(t, |s.calls|)
  {
    match step
    case ServeStep(i, a) =>
      if a.ReadInvoke? {
        NestedYounger(cfg, s, t, i);
      } else {
        ServeSpawns(cfg, s, t, i, a);
      }
    case CallStep(n, a) => CallTask(cfg, s, t, n, a);
    case _ => OutsideStep(cfg, s, t, step);
  }

  lemma NestedYounger(cfg: Config, s: State, t: State, i: nat)
    requires BusOk(cfg, s) && i < |s.serves| && InvokeStep(cfg, s, t, i)
    ensures Aligned(t) && |t.calls| == |s.calls| + 1 && YoungerOk(t, |s.calls|)
  {
    var m := 0;
    if s.apps[i].Managed? {
      m := NextInvoke(s, i);
      if s.apps[i].client.invokes[m].parent.Some? {
        ParentServed(cfg, s, i, m);
      }
    }
    SpawnedYounger(cfg, s, t, i, m);
  }

  /** Call `m` of the client on connection `i` was not made in a task, or in one that serves an existing broker call. */
  predicate ParentOlder(s: State, i: nat, m: nat)
    requires Aligned(s) && i < |s.serves| && s.apps[i].Managed?
  {
    var x := s.apps[i].client;
    && m < |x.invokes|
    && match x.invokes[m].parent
       case None => true
       case Some(d) =>
         d < |x.dispatches| && x.dispatches[d].reqId in s.sess[i].owners
         && s.sess[i].owners[x.dispatches[d].reqId] < |s.calls|
  }

  lemma SpawnedYounger(cfg: Config, s: State, t: State, i: nat, m: nat)
    requires Aligned(s) && i < |s.serves| && InvokeStep(cfg, s, t, i)
    requires s.apps[i].Managed? ==> ParentOlder(s, i, m) && s.inbs[i].stream[0].inv.reqId == m + 1
    ensures Aligned(t) && |t.calls| == |s.calls| + 1 && YoungerOk(t, |s.calls|)
  {
    var k := t.calls[|s.calls|];
    assert k.origin == Routed(i, s.inbs[i].stream[0].inv.reqId, |s.inbs[i].consumed|);
    assert t.apps == s.apps && t.sess == s.sess;
  }

  /** The dispatch task in which a call was made serves a broker call that exists already. */
  lemma ParentServed(cfg: Config, s: State, i: nat, m: nat)
    requires BusOk(cfg, s) && i < |s.serves| && s.apps[i].Managed? && m < |s.apps[i].client.invokes|
    requires s.apps[i].client.invokes[m].parent.Some?
    ensures var x := s.apps[i].client;
            var d := x.invokes[m].parent.value;
            d < |x.dispatches| && x.dispatches[d].reqId in s.sess[i].owners
            && s.sess[i].owners[x.dispatches[d].reqId] < |s.calls|
  {
    var x := s.apps[i].client;
    assert ConnPeerOk(s, i);
    assert ContextOk(x, x.invokes[m]);
    var c := DispatchServesCall(cfg, s, i, x.invokes[m].parent.value);
    assert IdOk(s.sess, s.calls, c);
  }

  /** The Invoke a client's connection is about to route belongs to one of that client's calls. */
  lemma NextInvoke(s: State, i: nat) returns (m: nat)
    requires PeersOk(s) && i < |s.serves| && s.apps[i].Managed?
    requires s.inbs[i].stream != [] && s.inbs[i].stream[0].InvokeFrame?
    ensures m < |s.apps[i].client.invokes| && s.inbs[i].stream[0].inv.reqId == m + 1
  {
    assert ConnPeerOk(s, i);
    var x, b := s.apps[i].client, s.inbs[i];
    var at := |b.consumed|;
    assert (b.consumed + b.stream)[at] == b.stream[0];
    assert b.consumed + b.stream <= x.sent;
    assert CauseOk(x, x.why[at], x.sent[at]);
    m := x.why[at].call;
    assert InvokeIdOk(x, m);
  }

  // ----- preservation ----------------------------------------------------------------------------------------

  lemma StepDelivery(cfg: Config, s: State, t: State, step: Step)
    requires Next(cfg, s, t, step) && BusOk(cfg, s) && DeliveryOk(s)
    ensures DeliveryOk(t)
  {
    CountersFromTables(s);
    StepCallEffect(cfg, s, t, step);
    EffectAdvances(s, t, Touched(s, step));
    StepFlows(cfg, s, t, step);
    StepReads(cfg, s, t, step);
    StepTargets(cfg, s, t, step);
    StepEnds(cfg, s, t, step);
    StepTaken(cfg, s, t, step);
    StepNestingKept(cfg, s, t, step);
    if |t.calls| > |s.calls| {
      NewYounger(cfg, s, t, step);
    }
    OldYounger(s, t);
  }

  lemma CountersFromTables(s: State)
    requires TablesOk(s.sess, s.calls)
    ensures CountersPositive(s)
  {
  }
}
