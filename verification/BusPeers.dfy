/** Every `BusClient` keeps its half of the bargain in every run of the bus. */
module BusPeers {
  import opened Prelude
  import opened Frames
  import opened Connection
  import opened Bus
  import opened BusSteps
  import Client = ClientState
  import opened ClientInvariants

  ghost predicate PeerOk(p: Peer) {
    p.app.Managed? ==> ClientOk(p.app.client, p.inb, p.chan.delivered)
  }

  ghost predicate ConnPeerOk(s: State, i: nat)
    requires Aligned(s) && i < |s.serves|
  {
    PeerOk(Peer(s.apps[i], s.inbs[i], s.chans[i]))
  }

  ghost predicate PeersOk(s: State) {
    Aligned(s) && forall i :: 0 <= i < |s.serves| ==> ConnPeerOk(s, i)
  }

  // ----- the stream as the broker moves it ------------------------------------------------------------

  lemma CutOk(x: Client.AppClient, inb: Inbound, delivered: seq<BusFrame>, n: nat)
    requires ClientOk(x, inb, delivered) && n <= |inb.stream|
    ensures ClientOk(x, CutInbound(inb, n), delivered)
  {
  }

  // ----- steps of the client ------------------------------------------------------------------------------

  lemma WriteOk(x: Client.AppClient, inb: Inbound, delivered: seq<BusFrame>)
    requires ClientOk(x, inb, delivered) && x.tx != [] && !inb.cut
    ensures ClientOk(x.(tx := x.tx[1..]), Arrive(inb, x.tx[0]), delivered)
  {
    var y, after := x.(tx := x.tx[1..]), Arrive(inb, x.tx[0]);
    assert inb.consumed + (inb.stream + [x.tx[0]]) + x.tx[1..] == inb.consumed + inb.stream + x.tx;
    assert inb.consumed + (inb.stream + [x.tx[0]]) <= inb.consumed + inb.stream + x.tx;
    SameCallsOk(x, y, inb, after, delivered);
  }

  lemma WriterDownOk(x: Client.AppClient, inb: Inbound, delivered: seq<BusFrame>)
    requires ClientOk(x, inb, delivered)
    ensures ClientOk(x.(txOpen := false, tx := []), CutInbound(inb, |inb.stream|), delivered)
  {
    assert inb.stream[..|inb.stream|] == inb.stream;
    SameCallsOk(x, x.(txOpen := false, tx := []), inb, CutInbound(inb, |inb.stream|), delivered);
  }

  lemma StopOk(x: Client.AppClient, inb: Inbound, delivered: seq<BusFrame>)
    requires ClientOk(x, inb, delivered) && !x.phase.Start?
    ensures ClientOk(Client.Stop(x), CutInbound(inb, |inb.stream|), delivered)
  {
    assert inb.stream[..|inb.stream|] == inb.stream;
    SameCallsOk(x, Client.Stop(x), inb, CutInbound(inb, |inb.stream|), delivered);
  }

  lemma HelloOk(x: Client.AppClient, inb: Inbound, delivered: seq<BusFrame>)
    requires ClientOk(x, inb, delivered) && x.phase.Start?
    ensures ClientOk(x.(phase := Client.AwaitAck, sent := [Hello(x.hello)], why := [Client.Handshake]),
                     Arrive(inb, Hello(x.hello)), delivered)
  {
  }

  lemma StartInvokeOk(c: Peer, d: Peer, a: AppAct)
    requires c.app.Managed? && PeerOk(c) && ClientNext(c, d, a) && a.StartInvoke?
    ensures PeerOk(d)
  {
    var x := c.app.client;
    var k := Client.ClientCall(0, a.service, a.methodName, a.payload, a.caller, a.parent, a.auto,
                               Client.Allocated, None, 0);
    if a.parent.Some? {
      assert DispatchOk(x.dispatches[a.parent.value], c.chan.delivered);
    }
    BeginInvokeOk(x, c.inb, c.chan.delivered, k);
  }

  lemma ReadInboundOk(c: Peer, d: Peer, a: AppAct)
    requires c.app.Managed? && PeerOk(c) && ClientNext(c, d, a) && a.ReadInbound?
    ensures PeerOk(d)
  {
    var x := c.app.client;
    if x.phase.AwaitAck? {
      AckReadOk(x, c.inb, c.chan.wire[0]);
      assert c.chan.delivered + [c.chan.wire[0]] == [c.chan.wire[0]];
    } else {
      ReadOk(x, c.inb, c.chan.delivered, c.chan.wire[0]);
    }
  }

  lemma ClientStepOk(c: Peer, d: Peer, a: AppAct)
    requires c.app.Managed? && PeerOk(c) && ClientNext(c, d, a)
    ensures PeerOk(d)
  {
    var x, inb, del := c.app.client, c.inb, c.chan.delivered;
    match a
    case Inject(_) =>
    case Drain =>
    case SendHello => HelloOk(x, inb, del);
    case ReadInbound => ReadInboundOk(c, d, a);
    case StreamDown => StopOk(x, inb, del);
    case WriterDown => WriterDownOk(x, inb, del);
    case WriteOutbound => WriteOk(x, inb, del);
    case StartInvoke(_, _, _, _, _, _) => StartInvokeOk(c, d, a);
    case RegisterInvoke(n) => RegisterInvokeOk(x, inb, del, n);
    case QueueOutbound(n) => QueueInvokeOk(x, inb, del, n);
    case EmitPublish(topic, payload) => PlainSend(x, inb, del, Publish(Event(topic, payload, None)));
    case EmitSubscribe(prefix) => PlainSend(x, inb, del, Subscribe(prefix));
    case ChangeUser(n, user) => ChangeUserOk(x, inb, del, n, user);
    case Answer(n, reply) => AnswerOk(x, inb, del, n, reply);
  }

  lemma WildStepOk(c: Peer, d: Peer, a: AppAct)
    requires c.app.Wild? && WildNext(c, d, a)
    ensures PeerOk(d)
  {
  }

  // ----- preservation -----------------------------------------------------------------------------------------

  /** Of connection `i` the peer only sees whether a frame was read, the stream was cut, or frames were queued. */
  predicate PeerView(s: State, t: State, i: nat)
    requires Aligned(s) && Aligned(t) && i < |s.serves| && i < |t.serves|
  {
    && t.apps[i] == s.apps[i] && t.chans[i].delivered == s.chans[i].delivered
    && (|| t.inbs[i] == s.inbs[i]
        || (s.inbs[i].stream != [] && t.inbs[i] == Consume(s.inbs[i])))
  }

  lemma ViewOk(s: State, t: State, i: nat)
    requires Aligned(s) && Aligned(t) && i < |s.serves| && i < |t.serves| && ConnPeerOk(s, i) && PeerView(s, t, i)
    ensures ConnPeerOk(t, i)
  {
  }

  /** What the peer sees of a step of `serve`: nothing is taken from what it has read. */
  lemma ServeDelivered(cfg: Config, s: State, t: State, i: nat, a: ServeAct)
    requires ServeNext(cfg, s, t, i, a)
    ensures |t.chans| == |s.chans|
    ensures forall j :: 0 <= j < |s.chans| ==> t.chans[j].delivered == s.chans[j].delivered
  {
  }

  lemma CallDelivered(cfg: Config, s: State, t: State, n: nat, a: CallAct)
    requires CallNext(cfg, s, t, n, a)
    ensures |t.chans| == |s.chans|
    ensures forall j :: 0 <= j < |s.chans| ==> t.chans[j].delivered == s.chans[j].delivered
  {
  }

  lemma WirePeers(s: State, t: State, i: nat, a: WireAct)
    requires WireNext(s, t, i, a) && PeersOk(s)
    ensures PeersOk(t)
  {
    forall j | 0 <= j < |t.serves|
      ensures ConnPeerOk(t, j)
    {
      assert ConnPeerOk(s, j);
      if j == i && a.InboundCut? && s.apps[i].Managed? {
        CutOk(s.apps[i].client, s.inbs[i], s.chans[i].delivered, a.n);
      }
    }
  }

  lemma AppPeers(s: State, t: State, i: nat, a: AppAct)
    requires AppNext(s, t, i, a) && PeersOk(s)
    ensures PeersOk(t)
  {
    assert ConnPeerOk(s, i);
    var before, after := Peer(s.apps[i], s.inbs[i], s.chans[i]), Peer(t.apps[i], t.inbs[i], t.chans[i]);
    if s.apps[i].Managed? {
      ClientStepOk(before, after, a);
    } else {
      WildStepOk(before, after, a);
    }
    forall j | 0 <= j < |t.serves|
      ensures ConnPeerOk(t, j)
    {
      assert ConnPeerOk(s, j);
    }
  }

  lemma NewClientOk(hello: HelloRequest, handlers: set<string>)
    ensures ClientOk(Client.NewClient(hello, handlers), NEW_INBOUND, [])
  {
  }

  lemma HostPeers(s: State, t: State, a: HostAct)
    requires HostNext(s, t, a) && PeersOk(s)
    ensures PeersOk(t)
  {
    if a.Accept? && a.app.Managed? {
      var hello, handlers :| a.app.client == Client.NewClient(hello, handlers)
                             && Client.HandlersDeclared(hello, handlers);
      NewClientOk(hello, handlers);
    }
    forall j | 0 <= j < |t.serves|
      ensures ConnPeerOk(t, j)
    {
      assert j < |s.serves| ==> ConnPeerOk(s, j);
    }
  }

  lemma ServePeers(cfg: Config, s: State, t: State, i: nat, a: ServeAct)
    requires ServeNext(cfg, s, t, i, a) && PeersOk(s)
    ensures PeersOk(t)
  {
    ServeTask(cfg, s, t, i, a);
    ServeDelivered(cfg, s, t, i, a);
    forall j | 0 <= j < |t.serves|
      ensures ConnPeerOk(t, j)
    {
      assert ConnPeerOk(s, j);
      ViewOk(s, t, j);
    }
  }

  lemma CallPeers(cfg: Config, s: State, t: State, n: nat, a: CallAct)
    requires CallNext(cfg, s, t, n, a) && PeersOk(s)
    ensures PeersOk(t)
  {
    CallTask(cfg, s, t, n, a);
    CallDelivered(cfg, s, t, n, a);
    forall j | 0 <= j < |t.serves|
      ensures ConnPeerOk(t, j)
    {
      assert ConnPeerOk(s, j);
      ViewOk(s, t, j);
    }
  }

  lemma StepPeers(cfg: Config, s: State, t: State, step: Step)
    requires Next(cfg, s, t, step) && PeersOk(s)
    ensures PeersOk(t)
  {
    match step
    case HostStep(a) => HostPeers(s, t, a);
    case WireStep(i, a) => WirePeers(s, t, i, a);
    case AppStep(i, a) => AppPeers(s, t, i, a);
    case CallStep(n, a) => CallPeers(cfg, s, t, n, a);
    case ServeStep(i, a) => ServePeers(cfg, s, t, i, a);
  }

  // ----- over runs ----------------------------------------------------------------------------------------------

  lemma {:induction false} FragmentPeers(cfg: Config, states: seq<State>, steps: seq<Step>, k: nat)
    requires IsFragment(cfg, states, steps) && PeersOk(states[0]) && k <= |steps|
    ensures PeersOk(states[k])
  {
    if k > 0 {
      FragmentPeers(cfg, states, steps, k - 1);
      FragmentNext(cfg, states, steps, k - 1);
      StepPeers(cfg, states[k - 1], states[k], steps[k - 1]);
    }
  }

  lemma ReachablePeers(cfg: Config, s: State)
    requires Reachable(cfg, s)
    ensures PeersOk(s)
  {
    var states, steps :| IsRun(cfg, states, steps) && states[|states| - 1] == s;
    FragmentPeers(cfg, states, steps, |steps|);
  }
}
