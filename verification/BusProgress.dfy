/**
 * No deadlock: when the bus itself has nothing left to do and every running handler waits for a call of its own, then
 * there is no running handler and no call left, however calls were nested and however they cycle between services.
 */
module BusProgress {
  import opened Prelude
  import opened Frames
  import opened ServiceRegistry
  import opened BrokerTables
  import opened Connection
  import opened Bus
  import Client = ClientState
  import opened ClientInvariants
  import opened ClientDelivery
  import opened BusRegistration
  import opened BusCalls
  import opened BusSessions
  import opened BusReplies
  import opened BusChannels
  import opened BusLogs
  import opened BusEvents
  import opened BusProbes
  import opened BusPeers
  import opened BusRouting
  import opened BusDelivery

  // ----- what the bus does by itself ------------------------------------------------------------------

  ghost predicate Enabled(cfg: Config, s: State, step: Step) {
    exists t :: Next(cfg, s, t, step)
  }

  /** Steps that need no fault, no timer, no new request and no decision of a connected app's handler. */
  predicate Progress(step: Step) {
    match step
    case HostStep(_) => false
    case ServeStep(_, a) => !a.StreamEnded? && !a.HelloEnded? && !a.AckLost?
    case WireStep(_, a) => a.WriteQueued?
    case CallStep(_, a) => !a.LocalTimedOut? && !a.DeadlinePassed? && !a.SenderDropped?
    case AppStep(_, a) =>
      a.SendHello? || a.ReadInbound? || a.WriteOutbound? || a.RegisterInvoke? || a.QueueOutbound?
  }

  ghost predicate Quiet(cfg: Config, s: State) {
    forall step :: Progress(step) ==> !Enabled(cfg, s, step)
  }

  /** Both ends of the connection are up and in their loops. */
  predicate Live(s: State, i: nat) {
    && Aligned(s) && i < |s.serves|
    && Rank(s.serves[i].pc) == 8 && s.chans[i].writing && !s.inbs[i].cut
    && s.apps[i].Managed? && s.apps[i].client.phase.Running? && s.apps[i].client.txOpen
  }

  ghost predicate Sound(cfg: Config, s: State) {
    BusOk(cfg, s) && DeliveryOk(s) && EventsOk(s) && ProbesOk(cfg, s)
  }

  lemma NotQuiet(cfg: Config, s: State, t: State, step: Step)
    requires Progress(step) && Next(cfg, s, t, step)
    ensures !Quiet(cfg, s)
  {
  }

  // ----- a quiet connection is empty ---------------------------------------------------------------------

  lemma QuietWriter(cfg: Config, s: State, i: nat)
    requires Quiet(cfg, s) && Live(s, i)
    ensures s.chans[i].queue == []
  {
    if s.chans[i].queue != [] {
      NotQuiet(cfg, s, s.(chans := s.chans[i := WriteOne(s.chans[i])]), WireStep(i, WriteQueued));
    }
  }

  /** The state after a step of the client on connection `i`. */
  function WithPeer(s: State, i: nat, p: Peer): State
    requires Aligned(s) && i < |s.serves|
  {
    s.(apps := s.apps[i := p.app], inbs := s.inbs[i := p.inb], chans := s.chans[i := p.chan])
  }

  lemma ClientMoves(cfg: Config, s: State, i: nat, p: Peer, a: AppAct)
    requires Quiet(cfg, s) && Live(s, i) && Progress(AppStep(i, a))
    ensures !ClientNext(Peer(s.apps[i], s.inbs[i], s.chans[i]), p, a)
  {
    if ClientNext(Peer(s.apps[i], s.inbs[i], s.chans[i]), p, a) {
      NotQuiet(cfg, s, WithPeer(s, i, p), AppStep(i, a));
    }
  }

  lemma QuietReader(cfg: Config, s: State, i: nat)
    requires Quiet(cfg, s) && Live(s, i)
    ensures s.chans[i].wire == []
  {
    var x, b, ch := s.apps[i].client, s.inbs[i], s.chans[i];
    if ch.wire != [] {
      ClientMoves(cfg, s, i, Peer(Managed(Client.HandleInbound(x, ch.wire[0], |ch.delivered|)), b, Deliver(ch)),
                  ReadInbound);
    }
  }

  lemma QuietOutbox(cfg: Config, s: State, i: nat)
    requires Quiet(cfg, s) && Live(s, i)
    ensures s.apps[i].client.tx == []
  {
    var x, b, ch := s.apps[i].client, s.inbs[i], s.chans[i];
    if x.tx != [] {
      ClientMoves(cfg, s, i, Peer(Managed(x.(tx := x.tx[1..])), Arrive(b, x.tx[0]), ch), WriteOutbound);
    }
  }

  /** Every outbound call has been sent or has failed. */
  lemma QuietInvoke(cfg: Config, s: State, i: nat, m: nat)
    requires Quiet(cfg, s) && Live(s, i) && m < |s.apps[i].client.invokes|
    ensures s.apps[i].client.invokes[m].pc.Waiting? || s.apps[i].client.invokes[m].pc.SendFailed?
  {
    var x, b, ch := s.apps[i].client, s.inbs[i], s.chans[i];
    if x.invokes[m].pc.Allocated? {
      ClientMoves(cfg, s, i, Peer(Managed(Client.InsertPendingInvoke(x, m)), b, ch), RegisterInvoke(m));
    } else if x.invokes[m].pc.Inserted? {
      ClientMoves(cfg, s, i, Peer(Managed(Client.QueueInvokeFrame(x, m)), b, ch), QueueOutbound(m));
    }
  }

  // ----- a quiet task has read everything --------------------------------------------------------------------

  lemma {:induction false} Enumerate(names: set<string>) returns (order: seq<string>)
    ensures forall svc :: svc in order <==> svc in names
    ensures forall a, b :: 0 <= a < b < |order| ==> order[a] != order[b]
    decreases names
  {
    if names == {} {
      order := [];
    } else {
      var svc :| svc in names;
      var rest := Enumerate(names - {svc});
      order := rest + [svc];
    }
  }

  lemma WakeEnabled(cfg: Config, s: State, i: nat)
    requires Aligned(s) && i < |s.serves| && s.serves[i].pc.Wake?
    ensures !Quiet(cfg, s)
  {
    var k := s.serves[i].pc.call;
    var s1 := s.(serves := Goto(s, i, Loop));
    var t := if k < |s.calls| && (s.calls[k].pc == SendInvoke || s.calls[k].pc == Waiting)
             then s1.(calls := s.calls[k :=
                    s.calls[k].(slot := Some(s.serves[i].pc.reply), answeredAt := s.serves[i].pc.at)])
             else s1;
    NotQuiet(cfg, s, t, ServeStep(i, WakeCaller));
  }

  lemma SnapshotEnabled(cfg: Config, s: State, i: nat)
    requires Aligned(s) && i < |s.serves| && s.serves[i].pc.Snapshot? && s.serves[i].hello.Some?
    ensures !Quiet(cfg, s)
  {
    var ev := s.serves[i].pc.event;
    var targets := Targets(s.tab, s.serves[i].hello.value.service, ev.topic);
    var order := Enumerate(targets);
    var v := s.serves[i].(pc := FanLookup(ev, |s.serves[i].pubs|, order),
                          pubs := s.serves[i].pubs + [Publication(ev, targets, map[], {})]);
    var t := s.(serves := s.serves[i := v]);
    NotQuiet(cfg, s, t, ServeStep(i, TakeSnapshot(order)));
  }

  lemma LookupEnabled(cfg: Config, s: State, i: nat)
    requires Aligned(s) && i < |s.serves| && s.serves[i].pc.FanLookup? && FanOk(s.serves, s.serves[i])
    ensures !Quiet(cfg, s)
  {
    var v := s.serves[i];
    var FanLookup(ev, n, targets) := v.pc;
    var w := if targets == [] then v.(pc := Loop)
             else if targets[0] in s.reg.entries
             then v.(pc := FanSend(ev, n, targets[0], s.reg.entries[targets[0]].tx, targets[1..]))
             else v.(pc := FanLookup(ev, n, targets[1..]),
                     pubs := v.pubs[n := v.pubs[n].(skipped := v.pubs[n].skipped + {targets[0]})]);
    NotQuiet(cfg, s, s.(serves := s.serves[i := w]), ServeStep(i, LookUpSubscriber));
  }

  lemma EventEnabled(cfg: Config, s: State, i: nat)
    requires Aligned(s) && i < |s.serves| && s.serves[i].pc.FanSend? && FanOk(s.serves, s.serves[i])
    ensures !Quiet(cfg, s)
  {
    var FanSend(ev, n, svc, tx, targets) := s.serves[i].pc;
    var p := s.serves[i].pubs[n];
    var t := s.(serves := s.serves[i := s.serves[i].(pc := FanLookup(ev, n, targets),
                  pubs := s.serves[i].pubs[n := p.(served := p.served[svc := tx])])],
                chans := s.chans[tx := Push(s.chans[tx], EventFrame(ev), ByPublish(i, n))]);
    NotQuiet(cfg, s, t, ServeStep(i, QueueEvent));
  }

  lemma QuietTask(cfg: Config, s: State, i: nat)
    requires Quiet(cfg, s) && Live(s, i) && EventsOk(s) && Registered(s)
    ensures s.serves[i].pc == Loop
  {
    assert FanOk(s.serves, s.serves[i]) && ServeOk(s.serves[i]);
    match s.serves[i].pc
    case Loop =>
    case Wake(_, _, _) => WakeEnabled(cfg, s, i);
    case Snapshot(_) => SnapshotEnabled(cfg, s, i);
    case FanLookup(_, _, _) => LookupEnabled(cfg, s, i);
    case FanSend(_, _, _, _, _) => EventEnabled(cfg, s, i);
  }

  lemma ReadResponseEnabled(cfg: Config, s: State, i: nat)
    requires Aligned(s) && i < |s.serves| && s.serves[i].pc == Loop
    requires s.inbs[i].stream != [] && s.inbs[i].stream[0].ResponseFrame?
    ensures !Quiet(cfg, s)
  {
    var ResponseFrame(r, reply) := s.inbs[i].stream[0];
    var s1 := s.(inbs := s.inbs[i := Consume(s.inbs[i])]);
    var t := if r in s.sess[i].pendingOut
             then s1.(sess := s.sess[i := RemoveAnswered(s.sess[i], r)],
                      serves := Goto(s, i, Wake(s.sess[i].pendingOut[r], reply, |s.inbs[i].consumed|)))
             else s1;
    NotQuiet(cfg, s, t, ServeStep(i, ReadResponse));
  }

  lemma ReadInvokeEnabled(cfg: Config, s: State, i: nat)
    requires Aligned(s) && i < |s.serves| && s.serves[i].pc == Loop && s.serves[i].hello.Some?
    requires s.inbs[i].stream != [] && s.inbs[i].stream[0].InvokeFrame?
    ensures !Quiet(cfg, s)
  {
    var at := |s.inbs[i].consumed|;
    var t := s.(inbs := s.inbs[i := Consume(s.inbs[i])],
                serves := s.serves[i := s.serves[i].(routes := s.serves[i].routes[at := |s.calls|])],
                calls := s.calls + [RouteCall(i, at, s.inbs[i].stream[0].inv, s.serves[i].hello.value.service,
                                              cfg.defaultTimeoutMs)]);
    NotQuiet(cfg, s, t, ServeStep(i, ServeAct.ReadInvoke));
  }

  lemma ReadOtherEnabled(cfg: Config, s: State, i: nat)
    requires Aligned(s) && i < |s.serves| && s.serves[i].pc == Loop && s.serves[i].hello.Some?
    requires s.inbs[i].stream != [] && !s.inbs[i].stream[0].ResponseFrame? && !s.inbs[i].stream[0].InvokeFrame?
    ensures !Quiet(cfg, s)
  {
    var f := s.inbs[i].stream[0];
    var me := s.serves[i].hello.value.service;
    var s1 := s.(inbs := s.inbs[i := Consume(s.inbs[i])]);
    if f.Publish? {
      var t := s1.(serves := Goto(s, i, Snapshot(f.event.(from := Some(me)))));
      NotQuiet(cfg, s, t, ServeStep(i, ReadPublish));
    } else if f.Subscribe? || f.Unsubscribe? {
      var t := s1.(tab := if f.Subscribe? then AddSubscription(s.tab, me, f.topicPrefix)
                          else DropSubscription(s.tab, me, f.topicPrefix));
      NotQuiet(cfg, s, t, ServeStep(i, ReadSubscription));
    } else {
      NotQuiet(cfg, s, s1, ServeStep(i, ReadIgnored));
    }
  }

  lemma QuietStream(cfg: Config, s: State, i: nat)
    requires Quiet(cfg, s) && Live(s, i) && EventsOk(s) && Registered(s)
    ensures s.inbs[i].stream == []
  {
    QuietTask(cfg, s, i);
    assert ServeOk(s.serves[i]);
    if s.inbs[i].stream != [] {
      if s.inbs[i].stream[0].ResponseFrame? {
        ReadResponseEnabled(cfg, s, i);
      } else if s.inbs[i].stream[0].InvokeFrame? {
        ReadInvokeEnabled(cfg, s, i);
      } else {
        ReadOtherEnabled(cfg, s, i);
      }
    }
  }

  // ----- a quiet call waits or is over --------------------------------------------------------------------------

  /** The step of call `n` that leaves it as `l`. */
  lemma CallEnabled(cfg: Config, s: State, n: nat, l: Call, a: CallAct)
    requires Aligned(s) && n < |s.calls| && Progress(CallStep(n, a))
    requires CallNext(cfg, s, s.(calls := s.calls[n := l]), n, a)
    ensures !Quiet(cfg, s)
  {
    NotQuiet(cfg, s, s.(calls := s.calls[n := l]), CallStep(n, a));
  }

  lemma LookupMoves(cfg: Config, s: State, n: nat)
    requires Aligned(s) && n < |s.calls| && LocalsOk(s.calls[n]) && CallRank(s.calls[n].pc) < 5
    ensures !Quiet(cfg, s)
  {
    var k := s.calls[n];
    match k.pc
    case FindLocal =>
      CallEnabled(cfg, s, n, k.(pc := if k.service in s.tab.localServices then CheckCatalog else FindEntry),
                  LookUpLocal);
    case CheckCatalog =>
      var l := if k.service in s.tab.localMethods && !Admissible(s.tab.localMethods[k.service], k.methodName, k.caller)
               then FinishCall(k, Failed(GateError(k.service, s.tab.localMethods[k.service], k.methodName)))
               else k.(pc := RunLocal);
      CallEnabled(cfg, s, n, l, GateLocal);
    case RunLocal => CallEnabled(cfg, s, n, FinishCall(k, LocalAnswer(Ok([]))), LocalReturned(Ok([])));
    case FindEntry => EntryMoves(cfg, s, n);
    case FindSession =>
      var key := SessionKey(k.service, k.entry.value.generation);
      var l := if key in s.tab.sessions then k.(pc := AllocId, handle := Some(s.tab.sessions[key]))
               else FinishCall(k, Failed(ServiceNotFound(k.service)));
      CallEnabled(cfg, s, n, l, LookUpSession);
  }

  lemma EntryMoves(cfg: Config, s: State, n: nat)
    requires Aligned(s) && n < |s.calls| && s.calls[n].pc == FindEntry
    ensures !Quiet(cfg, s)
  {
    var k := s.calls[n];
    var l := if k.service !in s.reg.entries then FinishCall(k, Failed(ServiceNotFound(k.service)))
             else if !Admissible(s.reg.entries[k.service].methods, k.methodName, k.caller)
             then FinishCall(k, Failed(GateError(k.service, s.reg.entries[k.service].methods, k.methodName)))
             else k.(pc := FindSession, entry := Some(s.reg.entries[k.service]));
    CallEnabled(cfg, s, n, l, LookUpEntry);
  }

  lemma ExchangeMoves(cfg: Config, s: State, n: nat)
    requires Aligned(s) && n < |s.calls| && LocalsOk(s.calls[n]) && TargetOk(s.serves, s.calls[n])
    requires s.calls[n].pc in {AllocId, PutPending, SendInvoke, DropPending}
    ensures !Quiet(cfg, s)
  {
    var k := s.calls[n];
    var j := k.handle.value;
    match k.pc
    case AllocId =>
      NotQuiet(cfg, s, s.(sess := s.sess[j := TakeReqId(s.sess[j], n)],
                          calls := s.calls[n := k.(pc := PutPending, reqId := s.sess[j].nextReqId)]),
               CallStep(n, TakeRequestId));
    case PutPending =>
      NotQuiet(cfg, s, s.(sess := s.sess[j := InsertPending(s.sess[j], k.reqId, n)],
                          calls := s.calls[n := k.(pc := SendInvoke)]),
               CallStep(n, EnterPending));
    case SendInvoke => SendMoves(cfg, s, n);
    case DropPending =>
      NotQuiet(cfg, s, s.(sess := s.sess[j := RemoveExpired(s.sess[j], k.reqId)],
                          calls := s.calls[n := FinishCall(k, Failed(Timeout(k.timeoutMs)))]),
               CallStep(n, LeavePending));
  }

  lemma SendMoves(cfg: Config, s: State, n: nat)
    requires Aligned(s) && n < |s.calls| && s.calls[n].pc == SendInvoke
    requires s.calls[n].entry.Some? && s.calls[n].entry.value.tx < |s.chans|
    ensures !Quiet(cfg, s)
  {
    var k, j := s.calls[n], s.calls[n].entry.value.tx;
    NotQuiet(cfg, s, s.(chans := s.chans[j := Push(s.chans[j], InvokeOf(k), ByCall(n))],
                        calls := s.calls[n := if s.chans[j].open then k.(pc := Waiting)
                                              else FinishCall(k, Failed(ServiceNotFound(k.service)))]),
             CallStep(n, QueueInvoke));
  }

  lemma ConcludeMoves(cfg: Config, s: State, n: nat)
    requires Aligned(s) && n < |s.calls| && LocalsOk(s.calls[n]) && VerdictOk(cfg, s.calls[n])
    requires RouteOk(n, s.calls[n], s.serves, s.inbs)
    requires || (s.calls[n].pc == Waiting && s.calls[n].slot.Some?) || s.calls[n].pc == StoreCaps
             || (s.calls[n].pc == Finished && !s.calls[n].origin.Host?)
    ensures !Quiet(cfg, s)
  {
    var k := s.calls[n];
    if k.pc == Waiting {
      CallEnabled(cfg, s, n, FinishCall(k, Answered(k.slot.value)), ReceiveReply);
    } else if k.pc == StoreCaps {
      NotQuiet(cfg, s, s.(calls := s.calls[n := k.(pc := Ended)],
                          tab := s.tab.(capabilities :=
                            s.tab.capabilities[k.service := Cached(ProbeResult(cfg, k).value, n)])),
               CallStep(n, CacheProbe));
    } else if k.origin.Probe? {
      CallEnabled(cfg, s, n, k.(pc :=
        if ProbeResult(cfg, k).Some? && IsCurrent(s.reg, k.service, k.origin.generation) then StoreCaps else Ended),
                  CallAct.VerifyProbe);
    } else {
      var j := k.origin.conn;
      NotQuiet(cfg, s, s.(chans := s.chans[j := Push(s.chans[j],
                            ResponseFrame(k.origin.reqId, ReplyOf(k.outcome.value)), ByRoute(n))],
                          calls := s.calls[n := k.(pc := Ended)]),
               CallStep(n, QueueReply));
    }
  }

  predicate Over(k: Call) {
    k.pc == Ended || (k.pc == Finished && k.origin.Host?)
  }

  /** The call has sent its Invoke and has no reply yet. */
  predicate InFlight(k: Call) {
    k.pc == Waiting && k.slot.None?
  }

  lemma QuietCall(cfg: Config, s: State, n: nat)
    requires Quiet(cfg, s) && Sound(cfg, s) && n < |s.calls|
    ensures Over(s.calls[n]) || InFlight(s.calls[n])
  {
    assert LocalsOk(s.calls[n]) && TargetOk(s.serves, s.calls[n]) && RouteOk(n, s.calls[n], s.serves, s.inbs);
    assert ProbeOk(cfg, s, s.calls[n]);
    QuietCallLocal(cfg, s, n);
  }

  lemma QuietCallLocal(cfg: Config, s: State, n: nat)
    requires Quiet(cfg, s) && Aligned(s) && n < |s.calls| && LocalsOk(s.calls[n]) && TargetOk(s.serves, s.calls[n])
    requires VerdictOk(cfg, s.calls[n]) && RouteOk(n, s.calls[n], s.serves, s.inbs)
    ensures Over(s.calls[n]) || InFlight(s.calls[n])
  {
    var k := s.calls[n];
    if CallRank(k.pc) < 5 {
      LookupMoves(cfg, s, n);
    } else if k.pc in {AllocId, PutPending, SendInvoke, DropPending} {
      ExchangeMoves(cfg, s, n);
    } else if !Over(k) && !InFlight(k) {
      ConcludeMoves(cfg, s, n);
    }
  }

  // ----- what a quiet bus looks like ------------------------------------------------------------------------------

  /** Nothing is under way on a live connection, in either direction. */
  predicate ConnDrained(s: State, i: nat)
    requires Live(s, i)
  {
    && s.serves[i].pc == Loop && s.inbs[i].stream == [] && s.chans[i].queue == [] && s.chans[i].wire == []
    && s.apps[i].client.tx == []
    && forall m :: 0 <= m < |s.apps[i].client.invokes| ==>
         s.apps[i].client.invokes[m].pc.Waiting? || s.apps[i].client.invokes[m].pc.SendFailed?
  }

  ghost predicate Drained(s: State) {
    && (forall i: nat :: Live(s, i) ==> ConnDrained(s, i))
    && (forall n :: 0 <= n < |s.calls| ==> Over(s.calls[n]) || InFlight(s.calls[n]))
  }

  lemma QuietConn(cfg: Config, s: State, i: nat)
    requires Quiet(cfg, s) && Live(s, i) && EventsOk(s) && Registered(s)
    ensures ConnDrained(s, i)
  {
    QuietTask(cfg, s, i);
    QuietStream(cfg, s, i);
    QuietWriter(cfg, s, i);
    QuietReader(cfg, s, i);
    QuietOutbox(cfg, s, i);
    forall m | 0 <= m < |s.apps[i].client.invokes|
      ensures s.apps[i].client.invokes[m].pc.Waiting? || s.apps[i].client.invokes[m].pc.SendFailed?
    {
      QuietInvoke(cfg, s, i, m);
    }
  }

  /** When no step of the bus is left, every live connection is drained and every call is over or waits for a reply. */
  lemma QuietDrains(cfg: Config, s: State)
    requires Quiet(cfg, s) && Sound(cfg, s)
    ensures Drained(s)
  {
    forall i: nat | Live(s, i)
      ensures ConnDrained(s, i)
    {
      QuietConn(cfg, s, i);
    }
    forall n | 0 <= n < |s.calls|
      ensures Over(s.calls[n]) || InFlight(s.calls[n])
    {
      QuietCall(cfg, s, n);
    }
  }

  // ----- from a waiting call to its handler ------------------------------------------------------------------------

  /** On a quiet live connection everything queued has been read by the client. */
  lemma AllDelivered(cfg: Config, s: State, i: nat, a: nat)
    requires Drained(s) && Live(s, i) && ChannelsOk(cfg, s) && a < |s.chans[i].queued|
    ensures s.chans[i].open && a + 1 < |s.chans[i].delivered|
    ensures s.chans[i].delivered[a + 1] == s.chans[i].queued[a]
  {
    assert ConnDrained(s, i);
    var ch := s.chans[i];
    assert PipeOk(s.serves[i], ch, cfg.heartbeatMs);
    assert ch.delivered == ch.head + ch.queued;
  }

  /** And everything the client sent has been read by the broker. */
  lemma AllConsumed(s: State, i: nat)
    requires Drained(s) && Live(s, i) && PeersOk(s)
    ensures s.inbs[i].consumed == s.apps[i].client.sent
  {
    assert ConnDrained(s, i) && ConnPeerOk(s, i);
    var b, x := s.inbs[i], s.apps[i].client;
    assert b.consumed + b.stream + x.tx == b.consumed;
  }

  lemma StillPending(s: State, n: nat)
    requires Aligned(s) && CallsOk(s) && SessionsOk(s) && RepliesOk(s) && n < |s.calls| && InFlight(s.calls[n])
    ensures s.calls[n].handle.Some? && s.calls[n].handle.value < |s.serves|
    ensures var j := s.calls[n].handle.value;
            s.serves[j].pc == Loop ==> s.calls[n].reqId in s.sess[j].pendingOut
  {
    var k := s.calls[n];
    assert LocalsOk(k) && IdOk(s.sess, s.calls, n) && TargetOk(s.serves, k) && HandoverOk(n, k, s.serves, s.sess);
    var j := k.handle.value;
    assert SessionTableOk(s.sess[j], j, s.calls);
    assert OneFate(s.sess[j], k.reqId, s.calls) && ExpiredOk(s.sess[j], k.reqId, s.calls);
  }

  /** The Invoke of a call in flight is in the log of its connection. */
  lemma InvokeLogged(s: State, n: nat, j: nat) returns (a: nat)
    requires LogsOk(s) && n < |s.calls| && InFlight(s.calls[n]) && s.calls[n].handle == Some(j)
    ensures j < |s.chans| && a < |s.chans[j].queued| && s.chans[j].queued[a] == InvokeOf(s.calls[n])
  {
    assert SentOk(n, s.calls[n], s.chans);
    a :| a < |s.chans[j].tags| && s.chans[j].tags[a] == ByCall(n);
    assert LogOk(s.chans[j], j, s.calls);
    assert TagOk(s.chans[j].tags[a], s.chans[j].queued[a], j, s.calls);
  }

  /** An Invoke the client has read has its task. */
  lemma InvokeDispatched(s: State, j: nat, at: nat) returns (d: nat)
    requires PeersOk(s) && FlowsOk(s) && j < |s.serves| && s.apps[j].Managed?
    requires 1 <= at < |s.chans[j].delivered| && s.chans[j].delivered[at].InvokeFrame?
    ensures d < |s.apps[j].client.dispatches|
    ensures s.apps[j].client.dispatches[d].reqId == s.chans[j].delivered[at].inv.reqId
  {
    var x := s.apps[j].client;
    assert ConnFlowOk(s, j) && ConnPeerOk(s, j);
    assert DispatchedAt(x, at);
    d :| 0 <= d < |x.dispatches| && x.dispatches[d].at == at;
    assert DispatchOk(x.dispatches[d], s.chans[j].delivered);
  }

  /** A call in flight on a live connection has reached its handler task. */
  lemma CallDispatched(cfg: Config, s: State, n: nat, j: nat) returns (d: nat)
    requires Drained(s) && LogsOk(s) && ChannelsOk(cfg, s) && PeersOk(s) && FlowsOk(s)
    requires n < |s.calls| && InFlight(s.calls[n])
    requires s.calls[n].handle == Some(j) && Live(s, j)
    ensures d < |s.apps[j].client.dispatches| && s.apps[j].client.dispatches[d].reqId == s.calls[n].reqId
  {
    var a := InvokeLogged(s, n, j);
    AllDelivered(cfg, s, j, a);
    d := InvokeDispatched(s, j, a + 1);
  }

  /** Had that task answered, the call would have its reply. */
  lemma HandlerRuns(cfg: Config, s: State, n: nat, j: nat) returns (d: nat)
    requires Drained(s) && Sound(cfg, s) && n < |s.calls| && InFlight(s.calls[n])
    requires s.calls[n].handle == Some(j) && Live(s, j)
    ensures d < |s.apps[j].client.dispatches| && s.apps[j].client.dispatches[d].reqId == s.calls[n].reqId
    ensures s.apps[j].client.dispatches[d].reply.None?
  {
    d := CallDispatched(cfg, s, n, j);
    assert ConnDrained(s, j);
    if s.apps[j].client.dispatches[d].reply.Some? {
      AnswerRead(cfg, s, j, d);
      StillPending(s, n);
    }
  }

  lemma AnswerRead(cfg: Config, s: State, j: nat, d: nat)
    requires Drained(s) && Sound(cfg, s) && Live(s, j) && d < |s.apps[j].client.dispatches|
    requires s.apps[j].client.dispatches[d].reply.Some?
    ensures s.apps[j].client.dispatches[d].reqId !in s.sess[j].pendingOut
  {
    var x := s.apps[j].client;
    assert ConnFlowOk(s, j) && ConnPeerOk(s, j);
    assert AnswerSent(x, d);
    var p: nat :| p < |x.why| && x.why[p] == Client.ByDispatch(d);
    assert CauseOk(x, x.why[p], x.sent[p]);
    AllConsumed(s, j);
    ConnTaken(s, j);
  }

  // ----- from a waiting handler to the call it waits for -------------------------------------------------------------

  /** A client's waiting call has sent its Invoke. */
  lemma InvokePlaced(s: State, i: nat, m: nat) returns (p: nat)
    requires PeersOk(s) && FlowsOk(s) && i < |s.serves| && s.apps[i].Managed? && m < |s.apps[i].client.invokes|
    requires s.apps[i].client.invokes[m].pc.Waiting?
    ensures p < |s.apps[i].client.sent| && s.apps[i].client.sent[p].InvokeFrame?
    ensures s.apps[i].client.sent[p].inv.reqId == m + 1
  {
    var x := s.apps[i].client;
    assert ConnFlowOk(s, i) && ConnPeerOk(s, i);
    assert InvokeSent(x, m) && InvokeIdOk(x, m);
    p :| p < |x.why| && x.why[p] == Client.ByInvoke(m);
    assert CauseOk(x, x.why[p], x.sent[p]);
  }

  lemma InvokeRouted(cfg: Config, s: State, i: nat, m: nat) returns (c: nat)
    requires Drained(s) && Sound(cfg, s) && Live(s, i) && m < |s.apps[i].client.invokes|
    requires s.apps[i].client.invokes[m].pc.Waiting?
    ensures c < |s.calls| && s.calls[c].origin.Routed?
    ensures s.calls[c].origin.conn == i && s.calls[c].origin.reqId == m + 1
  {
    var p := InvokePlaced(s, i, m);
    AllConsumed(s, i);
    assert ReadsRouted(s.serves[i], s.inbs[i]);
    c := s.serves[i].routes[p];
    assert RouteTarget(s.calls, c, i, p);
    assert RouteOk(c, s.calls[c], s.serves, s.inbs);
  }

  /** Had the routing task ended, the client would have read its answer. */
  lemma RouteUnfinished(cfg: Config, s: State, i: nat, m: nat, c: nat)
    requires Drained(s) && Sound(cfg, s) && Live(s, i) && m < |s.apps[i].client.invokes|
    requires s.apps[i].client.invokes[m].pc.Waiting? && s.apps[i].client.invokes[m].slot.None?
    requires c < |s.calls| && s.calls[c].origin.Routed?
    requires s.calls[c].origin.conn == i && s.calls[c].origin.reqId == m + 1
    ensures s.calls[c].pc != Ended
  {
    if s.calls[c].pc == Ended {
      assert PipeOk(s.serves[i], s.chans[i], cfg.heartbeatMs);
      var a := ReplyLogged(s, i, c);
      AllDelivered(cfg, s, i, a);
      StillAwaited(s, i, m);
    }
  }

  /** The answer of an ended routing task is in the log of its connection. */
  lemma ReplyLogged(s: State, i: nat, c: nat) returns (a: nat)
    requires LogsOk(s) && EndsOk(s.calls, s.chans) && c < |s.calls| && i < |s.chans| && s.chans[i].open
    requires s.calls[c].pc == Ended && s.calls[c].origin.Routed? && s.calls[c].origin.conn == i
    ensures a < |s.chans[i].queued| && s.chans[i].queued[a].ResponseFrame?
    ensures s.chans[i].queued[a].reqId == s.calls[c].origin.reqId
  {
    assert EndedOk(c, s.calls[c], s.chans);
    a :| a < |s.chans[i].tags| && s.chans[i].tags[a] == ByRoute(c);
    assert LogOk(s.chans[i], i, s.calls);
    assert TagOk(s.chans[i].tags[a], s.chans[i].queued[a], i, s.calls);
  }

  /** A client call without a reply is pending, and no Response for it has been read. */
  lemma StillAwaited(s: State, i: nat, m: nat)
    requires PeersOk(s) && FlowsOk(s) && i < |s.serves| && s.apps[i].Managed? && m < |s.apps[i].client.invokes|
    requires s.apps[i].client.invokes[m].pc.Waiting? && s.apps[i].client.invokes[m].slot.None?
    ensures ClientDelivery.Unanswered(s.chans[i].delivered, m + 1)
  {
    var x := s.apps[i].client;
    assert ConnFlowOk(s, i) && ConnPeerOk(s, i);
    assert InvokeIdOk(x, m) && ReplySlotOk(x, m, s.chans[i].delivered);
  }

  /** The broker call that a client's unfinished call waits for. */
  lemma InvokeInFlight(cfg: Config, s: State, i: nat, m: nat) returns (c: nat)
    requires Drained(s) && Sound(cfg, s) && Live(s, i) && m < |s.apps[i].client.invokes|
    requires s.apps[i].client.invokes[m].Outcome().None?
    ensures c < |s.calls| && InFlight(s.calls[c])
    ensures s.calls[c].origin.Routed?
    ensures s.calls[c].origin.conn == i && s.calls[c].origin.reqId == m + 1
  {
    assert ConnDrained(s, i);
    c := InvokeRouted(cfg, s, i, m);
    RouteUnfinished(cfg, s, i, m, c);
  }

  // ----- no deadlock ------------------------------------------------------------------------------------------------

  /** Dispatch `d` of a client still waits for a call it made itself. */
  predicate WaitsFor(x: Client.AppClient, d: nat, m: nat) {
    m < |x.invokes| && x.invokes[m].parent == Some(d) && x.invokes[m].Outcome().None?
  }

  /** It is no handler's turn: every handler that still runs waits for a call of its own. */
  ghost predicate HandlersWait(s: State) {
    forall i: nat :: Live(s, i) ==> TasksWait(s.apps[i].client)
  }

  ghost predicate TasksWait(x: Client.AppClient) {
    forall d :: 0 <= d < |x.dispatches| && x.dispatches[d].reply.None? ==> exists m: nat :: WaitsFor(x, d, m)
  }

  /** Every call of the client has its outcome and every handler has answered. */
  predicate ClientDone(x: Client.AppClient) {
    && (forall m :: 0 <= m < |x.invokes| ==> x.invokes[m].Outcome().Some?)
    && (forall d :: 0 <= d < |x.dispatches| ==> x.dispatches[d].reply.Some?)
  }

  /** No call in flight was addressed to a connection that has since gone down. */
  ghost predicate NoneLost(s: State) {
    forall n :: 0 <= n < |s.calls| && InFlight(s.calls[n]) ==>
      s.calls[n].handle.Some? && Live(s, s.calls[n].handle.value)
  }

  /** While every connection is up, nothing can have been lost. */
  lemma NoneLostWhileUp(s: State)
    requires Aligned(s) && CallsOk(s) && forall i: nat :: i < |s.serves| ==> Live(s, i)
    ensures NoneLost(s)
  {
  }

  lemma {:induction false} NoneInFlight(cfg: Config, s: State, n: nat)
    requires Drained(s) && Sound(cfg, s) && HandlersWait(s) && NoneLost(s) && n < |s.calls|
    ensures !InFlight(s.calls[n])
    decreases |s.calls| - n
  {
    if InFlight(s.calls[n]) {
      var c := YoungerInFlight(cfg, s, n);
      NoneInFlight(cfg, s, c);
      assert false;
    }
  }

  /** The handler of a call in flight waits for a younger call in flight. */
  lemma YoungerInFlight(cfg: Config, s: State, n: nat) returns (c: nat)
    requires Drained(s) && Sound(cfg, s) && HandlersWait(s) && NoneLost(s) && n < |s.calls| && InFlight(s.calls[n])
    ensures n < c < |s.calls| && InFlight(s.calls[c])
  {
    var j := s.calls[n].handle.value;
    var d := HandlerRuns(cfg, s, n, j);
    var m := AwaitedCall(s.apps[j].client, d);
    c := InvokeInFlight(cfg, s, j, m);
    InFlightHasId(s, n);
    NestedIsYounger(s, n, j, d, m, c);
  }

  lemma InFlightHasId(s: State, n: nat)
    requires AllLocalsOk(s.calls) && n < |s.calls| && InFlight(s.calls[n])
    ensures s.calls[n].reqId > 0
  {
  }

  lemma NestedIsYounger(s: State, n: nat, j: nat, d: nat, m: nat, c: nat)
    requires Aligned(s) && NestingOk(s) && IdsOk(s.sess, s.calls)
    requires n < |s.calls| && c < |s.calls| && s.calls[n].handle == Some(j) && s.calls[n].reqId > 0
    requires j < |s.apps| && s.apps[j].Managed? && d < |s.apps[j].client.dispatches|
    requires s.apps[j].client.dispatches[d].reqId == s.calls[n].reqId
    requires m < |s.apps[j].client.invokes| && s.apps[j].client.invokes[m].parent == Some(d)
    requires s.calls[c].origin.Routed? && s.calls[c].origin.conn == j && s.calls[c].origin.reqId == m + 1
    ensures n < c
  {
    assert YoungerOk(s, c) && IdOk(s.sess, s.calls, n);
  }

  /**
   * No deadlock. When the bus has no step of its own left, no call in flight was lost with its connection, and every
   * running handler waits for one of its own calls, then everything is done: all broker calls, all calls of live
   * clients and all their handlers. Nested and cyclic calls cannot block one another.
   */
  lemma NoDeadlock(cfg: Config, s: State)
    requires Quiet(cfg, s) && Sound(cfg, s) && HandlersWait(s) && NoneLost(s)
    ensures forall n :: 0 <= n < |s.calls| ==> Over(s.calls[n])
    ensures forall i: nat :: Live(s, i) ==> ClientDone(s.apps[i].client)
  {
    QuietDrains(cfg, s);
    forall n | 0 <= n < |s.calls|
      ensures Over(s.calls[n])
    {
      NoneInFlight(cfg, s, n);
    }
    forall i: nat | Live(s, i)
      ensures ClientDone(s.apps[i].client)
    {
      LiveClientDone(cfg, s, i);
    }
  }

  lemma LiveClientDone(cfg: Config, s: State, i: nat)
    requires Drained(s) && Sound(cfg, s) && HandlersWait(s) && NoneLost(s) && Live(s, i)
    ensures ClientDone(s.apps[i].client)
  {
    var x := s.apps[i].client;
    forall d | 0 <= d < |x.dispatches|
      ensures x.dispatches[d].reply.Some?
    {
      if x.dispatches[d].reply.None? {
        var m := AwaitedCall(x, d);
        var c := InvokeInFlight(cfg, s, i, m);
        NoneInFlight(cfg, s, c);
      }
    }
    forall m | 0 <= m < |x.invokes|
      ensures x.invokes[m].Outcome().Some?
    {
      if x.invokes[m].Outcome().None? {
        var c := InvokeInFlight(cfg, s, i, m);
        NoneInFlight(cfg, s, c);
      }
    }
  }

  lemma AwaitedCall(x: Client.AppClient, d: nat) returns (m: nat)
    requires TasksWait(x) && d < |x.dispatches| && x.dispatches[d].reply.None?
    ensures WaitsFor(x, d, m)
  {
    m :| WaitsFor(x, d, m);
  }
}
