/**
 * Termination of the whole bus: every step that is not an outside stimulus uses up work, so after the last stimulus
 * only boundedly many steps can happen, whatever the interleaving, the nesting of calls, timeouts and disconnects.
 */
module BusWork {
  import opened Prelude
  import opened Frames
  import opened ServiceRegistry
  import opened BrokerTables
  import opened Connection
  import opened Bus
  import opened BusSteps
  import Client = ClientState
  import opened BusRegistration
  import opened BusCalls

  // ----- sums over sequences -----------------------------------------------------------------------

  function Total<T>(xs: seq<T>, cost: T -> nat): (sum: nat) {
    if xs == [] then 0 else cost(xs[0]) + Total(xs[1..], cost)
  }

  lemma {:induction false} TotalConcat<T>(a: seq<T>, b: seq<T>, cost: T -> nat)
    ensures Total(a + b, cost) == Total(a, cost) + Total(b, cost)
  {
    if a == [] {
      assert a + b == b;
    } else {
      assert (a + b)[1..] == a[1..] + b;
      TotalConcat(a[1..], b, cost);
    }
  }

  lemma TotalAppend<T>(a: seq<T>, x: T, cost: T -> nat)
    ensures Total(a + [x], cost) == Total(a, cost) + cost(x)
  {
    TotalConcat(a, [x], cost);
    assert [x][1..] == [];
  }

  lemma {:induction false} TotalUpdate<T>(a: seq<T>, i: nat, x: T, cost: T -> nat)
    requires i < |a|
    ensures Total(a[i := x], cost) + cost(a[i]) == Total(a, cost) + cost(x)
  {
    if i == 0 {
      assert a[0 := x][1..] == a[1..];
    } else {
      assert a[i := x][1..] == a[1..][i - 1 := x];
      TotalUpdate(a[1..], i - 1, x, cost);
    }
  }

  lemma TotalPrefix<T>(a: seq<T>, n: nat, cost: T -> nat)
    requires n <= |a|
    ensures Total(a[..n], cost) <= Total(a, cost)
  {
    assert a[..n] + a[n..] == a;
    TotalConcat(a[..n], a[n..], cost);
  }

  // ----- what is left to do ---------------------------------------------------------------------------

  /** Steps a broker call can still cause, counting the frame it may yet queue. */
  function CallCost(k: Call): nat {
    match k.pc
    case FindLocal => 20
    case FindEntry => 19
    case FindSession => 18
    case AllocId => 17
    case PutPending => 16
    case SendInvoke => 15
    case Waiting => 8
    case CheckCatalog => 8
    case RunLocal => 7
    case DropPending => 7
    case Finished => 6
    case StoreCaps => 1
    case Ended => 0
  }

  /** A frame on its way to an app: written, then read. */
  function WireCost(f: BusFrame): nat {
    if f.InvokeFrame? then 5 else 4
  }

  function QueueCost(f: BusFrame): nat {
    WireCost(f) + 1
  }

  /** A frame on its way to the broker; a publication may be sent to as many services as there are connections. */
  function StreamCost(conns: nat, f: BusFrame): nat {
    if f.InvokeFrame? then 21 else if f.Publish? then 3 + 7 * conns else 2
  }

  function StreamCosts(conns: nat): BusFrame -> nat {
    (f: BusFrame) => StreamCost(conns, f)
  }

  function OutboxCosts(conns: nat): BusFrame -> nat {
    (f: BusFrame) => StreamCost(conns, f) + 1
  }

  function ChannelCost(ch: Channel): nat {
    Total(ch.queue, QueueCost) + Total(ch.wire, WireCost) + (if ch.writing then 1 else 0)
  }

  function InboundCost(conns: nat, b: Inbound): nat {
    Total(b.stream, StreamCosts(conns))
  }

  function TaskCost(conns: nat, pc: ServePc): nat {
    match pc
    case AwaitHello => 39
    case CheckToken => 38
    case GetClientId => 37
    case GetGeneration => 36
    case WriteEntry => 35
    case WriteAck => 34
    case Attach => 28
    case BeginProbe => 27
    case Loop => 6
    case Wake(_, _, _) => 7
    case Snapshot(_) => 8 + 7 * conns
    case FanLookup(_, _, targets) => 7 + 7 * |targets|
    case FanSend(_, _, _, _, targets) => 13 + 7 * |targets|
    case Detach => 5
    case DetachCheck => 4
    case DetachCaps => 3
    case Unregister => 2
    case Closing => 1
    case Returned => 0
  }

  function InvokeCost(k: Client.ClientCall): nat {
    match k.pc
    case Allocated => 24
    case Inserted => 23
    case Waiting => 0
    case SendFailed => 0
  }

  function DispatchCost(d: Client.Dispatch): nat {
    if d.reply.None? then 4 else 0
  }

  function PhaseCost(p: Client.Phase): nat {
    match p
    case Start => 5
    case AwaitAck => 2
    case Running => 1
    case Stopped => 0
  }

  function AppCost(conns: nat, a: App): nat {
    match a
    case Wild => 0
    case Managed(x) =>
      PhaseCost(x.phase) + (if x.txOpen then 1 else 0) + Total(x.tx, OutboxCosts(conns))
      + Total(x.invokes, InvokeCost) + Total(x.dispatches, DispatchCost)
  }

  function TaskCosts(conns: nat): Serve -> nat {
    (v: Serve) => TaskCost(conns, v.pc)
  }

  function InboundCosts(conns: nat): Inbound -> nat {
    (b: Inbound) => InboundCost(conns, b)
  }

  function AppCosts(conns: nat): App -> nat {
    (a: App) => AppCost(conns, a)
  }

  /** Everything in flight, weighted by what it can still cause among `conns` connections. */
  function Work(conns: nat, s: State): nat {
    Total(s.serves, TaskCosts(conns)) + Total(s.chans, ChannelCost) + Total(s.inbs, InboundCosts(conns))
    + Total(s.apps, AppCosts(conns)) + Total(s.calls, CallCost)
  }

  // ----- outside stimuli ----------------------------------------------------------------------------------

  /** What no task of the bus does by itself: the host, a peer's own decisions, and data lost on a stream. */
  predicate Stimulus(step: Step) {
    match step
    case HostStep(_) => true
    case WireStep(_, a) => a.OutboundCut? || a.InboundCut?
    case AppStep(_, a) =>
      a.Inject? || a.StartInvoke? || a.EmitPublish? || a.EmitSubscribe? || a.ChangeUser?
    case ServeStep(_, _) => false
    case CallStep(_, _) => false
  }

  /** The most work one stimulus can bring in. */
  function StimulusCost(conns: nat): nat {
    44 + 7 * conns
  }

  // ----- one call ----------------------------------------------------------------------------------------

  lemma PushCost(ch: Channel, f: BusFrame, by_: Sender)
    ensures ChannelCost(Push(ch, f, by_)) <= ChannelCost(ch) + QueueCost(f)
  {
    TotalAppend(ch.queue, f, QueueCost);
  }

  lemma CallsUpdated(conns: nat, s: State, t: State, n: nat)
    requires n < |s.calls| && n < |t.calls| && t.calls == s.calls[n := t.calls[n]]
    requires t.serves == s.serves && t.chans == s.chans && t.inbs == s.inbs && t.apps == s.apps
    ensures Work(conns, t) + CallCost(s.calls[n]) == Work(conns, s) + CallCost(t.calls[n])
  {
    TotalUpdate(s.calls, n, t.calls[n], CallCost);
  }

  lemma QueueingWork(conns: nat, s: State, t: State, n: nat, j: nat, f: BusFrame, by_: Sender)
    requires n < |s.calls| && n < |t.calls| && t.calls == s.calls[n := t.calls[n]] && j < |s.chans|
    requires t.serves == s.serves && t.inbs == s.inbs && t.apps == s.apps
    requires t.chans == s.chans[j := Push(s.chans[j], f, by_)]
    ensures Work(conns, t) + CallCost(s.calls[n]) <= Work(conns, s) + CallCost(t.calls[n]) + QueueCost(f)
  {
    TotalUpdate(s.calls, n, t.calls[n], CallCost);
    TotalUpdate(s.chans, j, t.chans[j], ChannelCost);
    PushCost(s.chans[j], f, by_);
  }

  lemma CallMoves(cfg: Config, s: State, t: State, n: nat, a: CallAct)
    requires CallNext(cfg, s, t, n, a) && !a.QueueInvoke? && !a.QueueReply?
    ensures n < |t.calls| && t.calls == s.calls[n := t.calls[n]] && CallCost(t.calls[n]) < CallCost(s.calls[n])
    ensures t.serves == s.serves && t.chans == s.chans && t.inbs == s.inbs && t.apps == s.apps
  {
  }

  lemma CallWork(conns: nat, cfg: Config, s: State, t: State, n: nat, a: CallAct)
    requires CallNext(cfg, s, t, n, a)
    ensures Work(conns, t) < Work(conns, s)
  {
    var k := s.calls[n];
    if a.QueueInvoke? {
      QueueingWork(conns, s, t, n, k.entry.value.tx, InvokeFrame(Invoke(k.reqId, k.methodName, k.payload, k.caller)),
                   ByCall(n));
    } else if a.QueueReply? {
      QueueingWork(conns, s, t, n, k.origin.conn, ResponseFrame(k.origin.reqId, ReplyOf(k.outcome.value)), ByRoute(n));
    } else {
      CallMoves(cfg, s, t, n, a);
      CallsUpdated(conns, s, t, n);
    }
  }

  // ----- `serve` ------------------------------------------------------------------------------------------

  /** What one connection's task, inbound stream and one channel `j` contribute. */
  function LocalCost(conns: nat, s: State, i: nat, j: nat): nat
    requires i < |s.serves| && i < |s.inbs| && j < |s.chans|
  {
    TaskCost(conns, s.serves[i].pc) + InboundCost(conns, s.inbs[i]) + ChannelCost(s.chans[j])
  }

  /** Only these three change, and they lose more than the step spawns. */
  ghost predicate Spends(conns: nat, s: State, t: State, i: nat, j: nat, spawned: nat) {
    && i < |s.serves| && i < |s.inbs| && j < |s.chans| && i < |t.serves| && i < |t.inbs| && j < |t.chans|
    && t.serves == s.serves[i := t.serves[i]] && t.inbs == s.inbs[i := t.inbs[i]] && t.chans == s.chans[j := t.chans[j]]
    && t.apps == s.apps && LocalCost(conns, t, i, j) + spawned < LocalCost(conns, s, i, j)
  }

  lemma SpendsWork(conns: nat, s: State, t: State, i: nat, j: nat, spawned: nat)
    requires Spends(conns, s, t, i, j, spawned)
    requires Total(t.calls, CallCost) <= Total(s.calls, CallCost) + spawned
    ensures Work(conns, t) < Work(conns, s)
  {
    TotalUpdate(s.serves, i, t.serves[i], TaskCosts(conns));
    TotalUpdate(s.inbs, i, t.inbs[i], InboundCosts(conns));
    TotalUpdate(s.chans, j, t.chans[j], ChannelCost);
  }

  /** Only the task itself changes. */
  ghost predicate TaskSpends(conns: nat, s: State, t: State, i: nat, spawned: nat) {
    && i < |s.serves| && i < |t.serves| && t.serves == s.serves[i := t.serves[i]]
    && t.inbs == s.inbs && t.chans == s.chans && t.apps == s.apps
    && TaskCost(conns, t.serves[i].pc) + spawned < TaskCost(conns, s.serves[i].pc)
  }

  predicate EarlyAct(a: ServeAct) {
    a.HelloEnded? || a.NumberEntry? || a.PublishEntry? || a.AckLost? || a.AttachSession? || a.StartProbing?
  }

  predicate LateAct(a: ServeAct) {
    a.StreamEnded? || a.CheckStale? || a.DropCapabilities? || a.DetachSession? || a.UnpublishEntry?
  }

  predicate FanTaskAct(a: ServeAct) {
    a.WakeCaller? || a.TakeSnapshot? || a.LookUpSubscriber?
  }

  lemma EarlySpends(conns: nat, cfg: Config, s: State, t: State, i: nat, a: ServeAct)
    requires ServeNext(cfg, s, t, i, a) && EarlyAct(a)
    ensures TaskSpends(conns, s, t, i, if a.StartProbing? then 20 else 0)
  {
  }

  lemma LateSpends(conns: nat, cfg: Config, s: State, t: State, i: nat, a: ServeAct)
    requires ServeNext(cfg, s, t, i, a) && LateAct(a)
    ensures TaskSpends(conns, s, t, i, 0)
  {
  }

  lemma FanTaskSpends(conns: nat, cfg: Config, s: State, t: State, i: nat, a: ServeAct)
    requires ServeNext(cfg, s, t, i, a) && FanTaskAct(a) && (a.TakeSnapshot? ==> |a.order| <= conns)
    ensures TaskSpends(conns, s, t, i, 0)
  {
  }

  lemma HelloSpends(conns: nat, s: State, t: State, i: nat)
    requires Aligned(s) && i < |s.serves| && HelloStep(s, t, i)
    ensures Spends(conns, s, t, i, i, 0)
  {
    StreamPaid(conns, s.inbs[i]);
    var f := s.inbs[i].stream[0];
    if f.Hello? {
      TotalAppend(s.chans[i].wire, ResponseFrame(0, Err(ProtocolMismatch(CURRENT, f.hello.protocol))), WireCost);
    }
  }

  lemma TokenSpends(conns: nat, s: State, t: State, i: nat)
    requires Aligned(s) && i < |s.serves| && TokenStep(s, t, i)
    ensures Spends(conns, s, t, i, i, 0)
  {
    TotalAppend(s.chans[i].wire, ResponseFrame(0, Err(InvalidAuthToken)), WireCost);
  }

  lemma AckSpends(conns: nat, cfg: Config, s: State, t: State, i: nat)
    requires Aligned(s) && i < |s.serves| && AckStep(cfg, s, t, i)
    ensures Spends(conns, s, t, i, i, 0)
  {
    TotalAppend(s.chans[i].wire, HelloAck(s.serves[i].clientId, cfg.heartbeatMs), WireCost);
  }

  lemma OpenSpends(conns: nat, s: State, t: State, i: nat)
    requires Aligned(s) && i < |s.serves| && (IdentifyStep(s, t, i) || ReturnStep(s, t, i))
    ensures Spends(conns, s, t, i, i, 0)
  {
  }

  /** Reading a frame takes its cost off the stream. */
  lemma StreamPaid(conns: nat, b: Inbound)
    requires b.stream != []
    ensures InboundCost(conns, b) == InboundCost(conns, Consume(b)) + StreamCost(conns, b.stream[0])
  {
  }

  lemma ReadTask(conns: nat, cfg: Config, s: State, t: State, i: nat, a: ServeAct)
    requires ServeNext(cfg, s, t, i, a) && ReadMove(a)
    ensures |t.serves| == |s.serves| && s.inbs[i].stream != []
    ensures t.serves == s.serves[i := t.serves[i]] && t.inbs == s.inbs[i := Consume(s.inbs[i])]
    ensures t.chans == s.chans && t.apps == s.apps
    ensures TaskCost(conns, t.serves[i].pc) + (if a.ReadInvoke? then 20 else 0)
          < TaskCost(conns, s.serves[i].pc) + StreamCost(conns, s.inbs[i].stream[0])
  {
  }

  lemma ReadSpends(conns: nat, cfg: Config, s: State, t: State, i: nat, a: ServeAct)
    requires ServeNext(cfg, s, t, i, a) && ReadMove(a)
    ensures Spends(conns, s, t, i, i, if a.ReadInvoke? then 20 else 0)
  {
    ReadTask(conns, cfg, s, t, i, a);
    StreamPaid(conns, s.inbs[i]);
  }

  lemma EventSpends(conns: nat, s: State, t: State, i: nat)
    requires Aligned(s) && i < |s.serves| && EventStep(s, t, i)
    ensures Spends(conns, s, t, i, s.serves[i].pc.tx, 0)
  {
    var FanSend(ev, n, _, tx, _) := s.serves[i].pc;
    PushCost(s.chans[tx], EventFrame(ev), ByPublish(i, n));
  }

  /** Spawning a probe or a routing task adds one call; nothing else in `serve` adds any work to calls. */
  lemma ServeCalls(cfg: Config, s: State, t: State, i: nat, a: ServeAct)
    requires ServeNext(cfg, s, t, i, a) && !a.WakeCaller?
    ensures t.calls == s.calls
            || ((a.StartProbing? || a.ReadInvoke?) && |t.calls| == |s.calls| + 1
                && t.calls == s.calls + [t.calls[|s.calls|]] && CallCost(t.calls[|s.calls|]) <= 20)
  {
  }

  lemma ServeCallsTotal(cfg: Config, s: State, t: State, i: nat, a: ServeAct)
    requires ServeNext(cfg, s, t, i, a)
    ensures Total(t.calls, CallCost)
         <= Total(s.calls, CallCost) + (if a.StartProbing? || a.ReadInvoke? then 20 else 0)
  {
    if a.WakeCaller? {
      var k := s.serves[i].pc.call;
      if t.calls != s.calls {
        TotalUpdate(s.calls, k, t.calls[k], CallCost);
      }
    } else {
      ServeCalls(cfg, s, t, i, a);
      if t.calls != s.calls {
        TotalAppend(s.calls, t.calls[|s.calls|], CallCost);
      }
    }
  }

  lemma TaskWork(conns: nat, s: State, t: State, i: nat, spawned: nat)
    requires TaskSpends(conns, s, t, i, spawned)
    requires Total(t.calls, CallCost) <= Total(s.calls, CallCost) + spawned
    ensures Work(conns, t) < Work(conns, s)
  {
    TotalUpdate(s.serves, i, t.serves[i], TaskCosts(conns));
  }

  lemma TaskActWork(conns: nat, cfg: Config, s: State, t: State, i: nat, a: ServeAct)
    requires ServeNext(cfg, s, t, i, a) && (EarlyAct(a) || LateAct(a) || FanTaskAct(a))
    requires a.TakeSnapshot? ==> |a.order| <= conns
    ensures Work(conns, t) < Work(conns, s)
  {
    ServeCallsTotal(cfg, s, t, i, a);
    if {
      case EarlyAct(a) => EarlySpends(conns, cfg, s, t, i, a);
      case LateAct(a) => LateSpends(conns, cfg, s, t, i, a);
      case FanTaskAct(a) => FanTaskSpends(conns, cfg, s, t, i, a);
    }
    TaskWork(conns, s, t, i, if a.StartProbing? then 20 else 0);
  }

  lemma ServeWork(conns: nat, cfg: Config, s: State, t: State, i: nat, a: ServeAct)
    requires ServeNext(cfg, s, t, i, a) && (a.TakeSnapshot? ==> |a.order| <= conns)
    ensures Work(conns, t) < Work(conns, s)
  {
    ServeCallsTotal(cfg, s, t, i, a);
    var j, spawned := i, 0;
    if EarlyAct(a) || LateAct(a) || FanTaskAct(a) {
      TaskActWork(conns, cfg, s, t, i, a);
    } else {
      if {
        case a.ReadHello? => HelloSpends(conns, s, t, i);
        case a.SpendHelloToken? => TokenSpends(conns, s, t, i);
        case a.AckWritten? => AckSpends(conns, cfg, s, t, i);
        case a.IdentifyClient? || a.ReturnFromServe? => OpenSpends(conns, s, t, i);
        case ReadMove(a) => ReadSpends(conns, cfg, s, t, i, a); spawned := if a.ReadInvoke? then 20 else 0;
        case a.QueueEvent? => EventSpends(conns, s, t, i); j := s.serves[i].pc.tx;
      }
      SpendsWork(conns, s, t, i, j, spawned);
    }
  }

  // ----- peers ----------------------------------------------------------------------------------------------

  function PeerCost(conns: nat, p: Peer): nat {
    AppCost(conns, p.app) + InboundCost(conns, p.inb) + ChannelCost(p.chan)
  }

  function PeerOf(s: State, i: nat): Peer
    requires Aligned(s) && i < |s.serves|
  {
    Peer(s.apps[i], s.inbs[i], s.chans[i])
  }

  lemma PeerWork(conns: nat, s: State, t: State, i: nat, a: AppAct)
    requires AppNext(s, t, i, a)
    ensures Work(conns, t) + PeerCost(conns, PeerOf(s, i)) == Work(conns, s) + PeerCost(conns, PeerOf(t, i))
  {
    TotalUpdate(s.apps, i, t.apps[i], AppCosts(conns));
    TotalUpdate(s.inbs, i, t.inbs[i], InboundCosts(conns));
    TotalUpdate(s.chans, i, t.chans[i], ChannelCost);
  }

  /** What the client itself still has to do. */
  function ClientCost(conns: nat, x: Client.AppClient): nat {
    AppCost(conns, Managed(x))
  }

  lemma SendCost(conns: nat, x: Client.AppClient, f: BusFrame, why: Client.Cause)
    ensures ClientCost(conns, Client.SendFrame(x, f, why)) <= ClientCost(conns, x) + StreamCost(conns, f) + 1
  {
    TotalAppend(x.tx, f, OutboxCosts(conns));
    assert OutboxCosts(conns)(f) == StreamCost(conns, f) + 1;
  }

  lemma ArriveCost(conns: nat, b: Inbound, f: BusFrame)
    ensures InboundCost(conns, Arrive(b, f)) <= InboundCost(conns, b) + StreamCost(conns, f)
  {
    TotalAppend(b.stream, f, StreamCosts(conns));
    assert StreamCosts(conns)(f) == StreamCost(conns, f);
  }

  lemma MovedCost(conns: nat, x: Client.AppClient, y: Client.AppClient, n: nat)
    requires n < |x.invokes| && n < |y.invokes| && y.invokes == x.invokes[n := y.invokes[n]]
    requires y.phase == x.phase && y.txOpen == x.txOpen && y.tx == x.tx && y.dispatches == x.dispatches
    ensures ClientCost(conns, y) + InvokeCost(x.invokes[n]) == ClientCost(conns, x) + InvokeCost(y.invokes[n])
  {
    TotalUpdate(x.invokes, n, y.invokes[n], InvokeCost);
  }

  lemma QueueOutboundCost(conns: nat, x: Client.AppClient, n: nat)
    requires n < |x.invokes| && x.invokes[n].pc.Inserted?
    ensures ClientCost(conns, Client.QueueInvokeFrame(x, n)) < ClientCost(conns, x)
  {
    var k := x.invokes[n];
    var f := InvokeFrame(Client.WireInvoke(k));
    var mid := Client.SendFrame(x, f, Client.ByInvoke(n));
    SendCost(conns, x, f, Client.ByInvoke(n));
    MovedCost(conns, mid, Client.QueueInvokeFrame(x, n), n);
  }

  lemma AnswerCost(conns: nat, x: Client.AppClient, d: nat, reply: Reply)
    requires d < |x.dispatches| && x.dispatches[d].reply.None?
    ensures ClientCost(conns, Client.FinishDispatch(x, d, reply)) < ClientCost(conns, x)
  {
    var f := ResponseFrame(x.dispatches[d].reqId, reply);
    SendCost(conns, x, f, Client.ByDispatch(d));
    TotalUpdate(x.dispatches, d, x.dispatches[d].(reply := Some(reply)), DispatchCost);
  }

  lemma InboundHandled(conns: nat, x: Client.AppClient, f: BusFrame, at: nat)
    ensures ClientCost(conns, Client.HandleInbound(x, f, at)) < ClientCost(conns, x) + WireCost(f)
  {
    var y := Client.HandleInbound(x, f, at);
    match f
    case Ping => SendCost(conns, x, Pong, Client.Plain);
    case InvokeFrame(_) => TotalAppend(x.dispatches, y.dispatches[|x.dispatches|], DispatchCost);
    case ResponseFrame(r, _) =>
      if r in x.pending && x.pending[r] < |x.invokes| {
        MovedCost(conns, x, y, x.pending[r]);
      }
    case _ =>
  }

  /** Reading a frame pays for what it triggers. */
  lemma ReadInboundCost(conns: nat, c: Peer, d: Peer)
    requires c.app.Managed? && ClientNext(c, d, ReadInbound)
    ensures PeerCost(conns, d) < PeerCost(conns, c)
  {
    var x, f := c.app.client, c.chan.wire[0];
    assert ChannelCost(c.chan) == ChannelCost(Deliver(c.chan)) + WireCost(f);
    InboundHandled(conns, x, f, |c.chan.delivered|);
  }

  lemma WriteOutboundCost(conns: nat, c: Peer, d: Peer)
    requires c.app.Managed? && ClientNext(c, d, WriteOutbound)
    ensures PeerCost(conns, d) < PeerCost(conns, c)
  {
    var x := c.app.client;
    ArriveCost(conns, c.inb, x.tx[0]);
    assert OutboxCosts(conns)(x.tx[0]) == StreamCost(conns, x.tx[0]) + 1;
  }

  /** The stream ends or the writer fails: what was waiting to be sent is dropped. */
  lemma DownCost(conns: nat, c: Peer, d: Peer, a: AppAct)
    requires c.app.Managed? && ClientNext(c, d, a) && (a.StreamDown? || a.WriterDown?)
    ensures PeerCost(conns, d) < PeerCost(conns, c)
  {
    assert c.inb.stream[..|c.inb.stream|] == c.inb.stream;
  }

  lemma ClientWork(conns: nat, c: Peer, d: Peer, i: nat, a: AppAct)
    requires c.app.Managed? && ClientNext(c, d, a) && !Stimulus(AppStep(i, a))
    ensures PeerCost(conns, d) < PeerCost(conns, c)
  {
    var x := c.app.client;
    match a
    case SendHello => ArriveCost(conns, c.inb, Hello(x.hello));
    case ReadInbound => ReadInboundCost(conns, c, d);
    case StreamDown => DownCost(conns, c, d, a);
    case WriterDown => DownCost(conns, c, d, a);
    case WriteOutbound => WriteOutboundCost(conns, c, d);
    case RegisterInvoke(n) => MovedCost(conns, x, d.app.client, n);
    case QueueOutbound(n) => QueueOutboundCost(conns, x, n);
    case Answer(n, reply) => AnswerCost(conns, x, n, reply);
    case Drain =>
  }

  lemma ClientStimulus(conns: nat, c: Peer, d: Peer, i: nat, a: AppAct)
    requires c.app.Managed? && ClientNext(c, d, a) && Stimulus(AppStep(i, a))
    ensures PeerCost(conns, d) <= PeerCost(conns, c) + StimulusCost(conns)
  {
    var x := c.app.client;
    match a
    case StartInvoke(_, _, _, _, _, _) => TotalAppend(x.invokes, d.app.client.invokes[|x.invokes|], InvokeCost);
    case EmitPublish(topic, payload) => SendCost(conns, x, Publish(Event(topic, payload, None)), Client.Plain);
    case EmitSubscribe(prefix) => SendCost(conns, x, Subscribe(prefix), Client.Plain);
    case ChangeUser(n, _) => TotalUpdate(x.dispatches, n, d.app.client.dispatches[n], DispatchCost);
    case Inject(_) =>
  }

  lemma AppWork(conns: nat, s: State, t: State, i: nat, a: AppAct)
    requires AppNext(s, t, i, a)
    ensures if Stimulus(AppStep(i, a)) then Work(conns, t) <= Work(conns, s) + StimulusCost(conns)
            else Work(conns, t) < Work(conns, s)
  {
    PeerWork(conns, s, t, i, a);
    var c, d := PeerOf(s, i), PeerOf(t, i);
    if c.app.Managed? {
      if Stimulus(AppStep(i, a)) {
        ClientStimulus(conns, c, d, i, a);
      } else {
        ClientWork(conns, c, d, i, a);
      }
    } else if a.Inject? {
      ArriveCost(conns, c.inb, a.frame);
    }
  }

  // ----- writer, stream and host -------------------------------------------------------------------------------

  lemma WireWork(conns: nat, s: State, t: State, i: nat, a: WireAct)
    requires WireNext(s, t, i, a)
    ensures if Stimulus(WireStep(i, a)) then Work(conns, t) <= Work(conns, s) else Work(conns, t) < Work(conns, s)
  {
    var ch := s.chans[i];
    TotalUpdate(s.chans, i, t.chans[i], ChannelCost);
    TotalUpdate(s.inbs, i, t.inbs[i], InboundCosts(conns));
    match a
    case WriteQueued => TotalAppend(ch.wire, ch.queue[0], WireCost);
    case WriterFailed =>
    case OutboundCut(n) => TotalPrefix(ch.wire, n, WireCost);
    case InboundCut(n) => TotalPrefix(s.inbs[i].stream, n, StreamCosts(conns));
  }

  lemma AcceptWork(conns: nat, s: State, t: State, app: App)
    requires HostNext(s, t, Accept(app))
    ensures Work(conns, t) <= Work(conns, s) + StimulusCost(conns)
  {
    TotalAppend(s.serves, NEW_SERVE, TaskCosts(conns));
    TotalAppend(s.chans, NEW_CHANNEL, ChannelCost);
    TotalAppend(s.inbs, NEW_INBOUND, InboundCosts(conns));
    TotalAppend(s.apps, app, AppCosts(conns));
  }

  lemma HostWork(conns: nat, s: State, t: State, a: HostAct)
    requires HostNext(s, t, a)
    ensures Work(conns, t) <= Work(conns, s) + StimulusCost(conns)
  {
    if a.Accept? {
      AcceptWork(conns, s, t, a.app);
    } else if a.StartCall? {
      TotalAppend(s.calls, t.calls[|s.calls|], CallCost);
    }
  }

  // ----- how many services a publication can reach ------------------------------------------------------------

  predicate Named(serves: seq<Serve>, i: nat, svc: string) {
    i < |serves| && serves[i].hello.Some? && serves[i].hello.value.service == svc
  }

  /** Only services of greeted connections ever subscribe. */
  ghost predicate SubscribersOk(s: State) {
    forall svc :: svc in s.tab.subscriptions ==> exists i: nat :: Named(s.serves, i, svc)
  }

  lemma StepSubscribers(cfg: Config, s: State, t: State, step: Step)
    requires Next(cfg, s, t, step) && Registered(s) && SubscribersOk(s)
    ensures SubscribersOk(t)
  {
    StepAdvances(cfg, s, t, step);
    NewSubscriber(cfg, s, t, step);
    MoreSubscribers(s, t, if step.ServeStep? then step.conn else 0);
  }

  lemma MoreSubscribers(s: State, t: State, c: nat)
    requires SubscribersOk(s) && ServesAdvance(s.serves, t.serves)
    requires forall svc :: svc in t.tab.subscriptions && svc !in s.tab.subscriptions ==> Named(s.serves, c, svc)
    ensures SubscribersOk(t)
  {
    forall svc | svc in t.tab.subscriptions
      ensures exists i: nat :: Named(t.serves, i, svc)
    {
      if svc !in s.tab.subscriptions {
        assert Named(s.serves, c, svc);
      }
      var i: nat :| Named(s.serves, i, svc);
      StillNamed(s.serves, t.serves, i, svc);
    }
  }

  lemma StillNamed(a: seq<Serve>, b: seq<Serve>, i: nat, svc: string)
    requires ServesAdvance(a, b) && Named(a, i, svc)
    ensures Named(b, i, svc)
  {
  }

  lemma NewSubscriber(cfg: Config, s: State, t: State, step: Step)
    requires Next(cfg, s, t, step)
    ensures forall svc :: svc in t.tab.subscriptions && svc !in s.tab.subscriptions ==>
              step.ServeStep? && Named(s.serves, step.conn, svc)
  {
    match step
    case ServeStep(i, a) => ServeSubscriber(cfg, s, t, i, a);
    case _ => TasksStay(cfg, s, t, step);
  }

  lemma ServeSubscriber(cfg: Config, s: State, t: State, i: nat, a: ServeAct)
    requires ServeNext(cfg, s, t, i, a)
    ensures forall svc :: svc in t.tab.subscriptions && svc !in s.tab.subscriptions ==> Named(s.serves, i, svc)
  {
  }

  function Names(serves: seq<Serve>): set<string> {
    set i | 0 <= i < |serves| && serves[i].hello.Some? :: serves[i].hello.value.service
  }

  lemma {:induction false} NamesBounded(serves: seq<Serve>)
    ensures |Names(serves)| <= |serves|
  {
    if serves != [] {
      var front, last := serves[..|serves| - 1], serves[|serves| - 1];
      NamesBounded(front);
      NamesOfLast(front, last);
      assert serves == front + [last];
    }
  }

  lemma NamesOfLast(front: seq<Serve>, last: Serve)
    ensures Names(front + [last]) == Names(front) + (if last.hello.Some? then {last.hello.value.service} else {})
  {
    var all := front + [last];
    forall svc | svc in Names(front)
      ensures svc in Names(all)
    {
      var i :| 0 <= i < |front| && front[i].hello.Some? && front[i].hello.value.service == svc;
      assert all[i] == front[i];
    }
    assert all[|front|] == last;
  }

  lemma {:induction false} DistinctBounded(order: seq<string>, names: set<string>)
    requires forall a, b :: 0 <= a < b < |order| ==> order[a] != order[b]
    requires forall svc :: svc in order ==> svc in names
    ensures |order| <= |names|
  {
    if order != [] {
      DistinctBounded(order[1..], names - {order[0]});
    }
  }

  /** A snapshot never selects more services than there are connections. */
  lemma SnapshotBounded(s: State, t: State, i: nat, order: seq<string>)
    requires Aligned(s) && i < |s.serves| && SnapshotStep(s, t, i, order) && SubscribersOk(s)
    ensures |order| <= |s.serves|
  {
    forall svc | svc in order
      ensures svc in Names(s.serves)
    {
      assert svc in s.tab.subscriptions;
      var j: nat :| Named(s.serves, j, svc);
    }
    DistinctBounded(order, Names(s.serves));
    NamesBounded(s.serves);
  }

  // ----- one step --------------------------------------------------------------------------------------------

  /** Every step is an outside stimulus of bounded cost, or uses up work. */
  lemma StepWork(conns: nat, cfg: Config, s: State, t: State, step: Step)
    requires Next(cfg, s, t, step) && SubscribersOk(s) && |s.serves| <= conns
    ensures if Stimulus(step) then Work(conns, t) <= Work(conns, s) + StimulusCost(conns)
            else Work(conns, t) < Work(conns, s)
  {
    match step
    case HostStep(a) => HostWork(conns, s, t, a);
    case WireStep(i, a) => WireWork(conns, s, t, i, a);
    case AppStep(i, a) => AppWork(conns, s, t, i, a);
    case CallStep(n, a) => CallWork(conns, cfg, s, t, n, a);
    case ServeStep(i, a) =>
      if a.TakeSnapshot? {
        SnapshotBounded(s, t, i, a.order);
      }
      ServeWork(conns, cfg, s, t, i, a);
  }

  // ----- whole runs ------------------------------------------------------------------------------------------

  function Stimuli(steps: seq<Step>): nat {
    if steps == [] then 0 else Stimuli(steps[..|steps| - 1]) + (if Stimulus(steps[|steps| - 1]) then 1 else 0)
  }

  lemma FragmentStep(conns: nat, cfg: Config, states: seq<State>, steps: seq<Step>, n: nat)
    requires IsFragment(cfg, states, steps) && n < |steps| && Registered(states[n]) && SubscribersOk(states[n])
    requires |states[n].serves| <= conns
    ensures Work(conns, states[n + 1]) + 1
         <= Work(conns, states[n]) + (if Stimulus(steps[n]) then StimulusCost(conns) + 1 else 0)
  {
    var s, t := states[n], states[n + 1];
    FragmentNext(cfg, states, steps, n);
    StepWork(conns, cfg, s, t, steps[n]);
  }

  lemma {:induction false} ConnectionsStay(cfg: Config, states: seq<State>, steps: seq<Step>, n: nat)
    requires IsFragment(cfg, states, steps) && n <= |steps| && Registered(states[n])
    ensures |states[n].serves| <= |states[|steps|].serves|
    decreases |steps| - n
  {
    if n < |steps| {
      FragmentNext(cfg, states, steps, n);
      StepRegistration(cfg, states[n], states[n + 1], steps[n]);
      StepAdvances(cfg, states[n], states[n + 1], steps[n]);
      ConnectionsStay(cfg, states, steps, n + 1);
    }
  }

  lemma {:induction false} FragmentInvariants(cfg: Config, states: seq<State>, steps: seq<Step>, n: nat)
    requires IsFragment(cfg, states, steps) && n <= |steps| && Registered(states[0]) && SubscribersOk(states[0])
    ensures Registered(states[n]) && SubscribersOk(states[n])
  {
    if n > 0 {
      FragmentInvariants(cfg, states, steps, n - 1);
      FragmentNext(cfg, states, steps, n - 1);
      StepRegistration(cfg, states[n - 1], states[n], steps[n - 1]);
      StepSubscribers(cfg, states[n - 1], states[n], steps[n - 1]);
    }
  }

  /** What the first `n` steps of a fragment have cost. */
  predicate Paid(conns: nat, states: seq<State>, steps: seq<Step>, n: nat)
    requires n <= |steps| < |states|
  {
    n + Work(conns, states[n]) <= Work(conns, states[0]) + (StimulusCost(conns) + 1) * Stimuli(steps[..n])
  }

  lemma PaidNext(conns: nat, states: seq<State>, steps: seq<Step>, n: nat)
    requires n < |steps| < |states| && Paid(conns, states, steps, n)
    requires Work(conns, states[n + 1]) + 1
          <= Work(conns, states[n]) + (if Stimulus(steps[n]) then StimulusCost(conns) + 1 else 0)
    ensures Paid(conns, states, steps, n + 1)
  {
    assert steps[..n + 1][..n] == steps[..n];
    var k := StimulusCost(conns) + 1;
    assert k * (Stimuli(steps[..n]) + 1) == k * Stimuli(steps[..n]) + k;
  }

  lemma {:induction false} PrefixBounded(conns: nat, cfg: Config, states: seq<State>, steps: seq<Step>, n: nat)
    requires IsFragment(cfg, states, steps) && n <= |steps| && Registered(states[0]) && SubscribersOk(states[0])
    requires |states[|steps|].serves| <= conns
    ensures Paid(conns, states, steps, n)
  {
    if n == 0 {
      assert steps[..0] == [];
    } else {
      PrefixBounded(conns, cfg, states, steps, n - 1);
      FragmentInvariants(cfg, states, steps, n - 1);
      ConnectionsStay(cfg, states, steps, n - 1);
      FragmentStep(conns, cfg, states, steps, n - 1);
      PaidNext(conns, states, steps, n - 1);
    }
  }

  /**
   * Termination: among at most `conns` connections, the number of steps is bounded by the work present at the start
   * and the stimuli received, so without further stimuli every task finishes after at most `Work` steps.
   */
  lemma FragmentBounded(conns: nat, cfg: Config, states: seq<State>, steps: seq<Step>)
    requires IsFragment(cfg, states, steps) && Registered(states[0]) && SubscribersOk(states[0])
    requires |states[|steps|].serves| <= conns
    ensures |steps| <= Work(conns, states[0]) + (StimulusCost(conns) + 1) * Stimuli(steps)
  {
    PrefixBounded(conns, cfg, states, steps, |steps|);
    assert steps[..|steps|] == steps;
  }

  /** Counted from the empty broker, a run is never longer than its stimuli allow. */
  lemma RunBounded(cfg: Config, states: seq<State>, steps: seq<Step>)
    requires IsRun(cfg, states, steps)
    ensures |steps| <= (StimulusCost(|states[|steps|].serves|) + 1) * Stimuli(steps)
  {
    NothingToDo();
    FragmentBounded(|states[|steps|].serves|, cfg, states, steps);
  }

  lemma NothingToDo()
    ensures Registered(INITIAL) && SubscribersOk(INITIAL)
    ensures forall conns: nat :: Work(conns, INITIAL) == 0
  {
  }
}
