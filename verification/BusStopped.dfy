/** Calls of a client whose connection has stopped: exactly which of them still get an outcome. */
module BusStopped {
  import opened Prelude
  import opened Frames
  import opened Connection
  import opened Bus
  import opened BusSteps
  import Client = ClientState
  import opened ClientInvariants
  import opened BusPeers
  import opened BusScenarios

  /** A client call without a reply keeps its sender in `pending`, so the receiver-dropped arm is never taken. */
  lemma ClientSenderKept(cfg: Config, s: State, i: nat, n: nat)
    requires Reachable(cfg, s) && i < |s.apps| && s.apps[i].Managed? && n < |s.apps[i].client.invokes|
    requires s.apps[i].client.invokes[n].pc.Waiting? && s.apps[i].client.invokes[n].slot.None?
    ensures var x := s.apps[i].client;
            x.invokes[n].reqId in x.pending && x.pending[x.invokes[n].reqId] == n
  {
    ReachablePeers(cfg, s);
    assert ConnPeerOk(s, i);
    assert ReplySlotOk(s.apps[i].client, n, s.chans[i].delivered);
  }

  // ----- a stopped client ------------------------------------------------------------------------------------

  predicate StoppedClient(s: State, i: nat) {
    i < |s.apps| && s.apps[i].Managed? && s.apps[i].client.phase.Stopped?
  }

  /** What has arrived from the client of connection `i`, read or not. */
  function Incoming(s: State, i: nat): seq<BusFrame>
    requires i < |s.inbs|
  {
    s.inbs[i].consumed + s.inbs[i].stream
  }

  predicate Unqueued(k: Client.ClientCall) {
    k.pc.Allocated? || k.pc.Inserted?
  }

  /** The call waits for a reply that has not arrived. */
  predicate Hanging(k: Client.ClientCall) {
    k.pc.Waiting? && k.slot.None?
  }

  /** A stopped client can only refuse a call it has not queued; everything else about its calls is settled. */
  predicate Settles(k: Client.ClientCall, l: Client.ClientCall) {
    if Unqueued(k) then Unqueued(l) || l.pc.SendFailed? else l == k
  }

  predicate CallsSettle(a: seq<Client.ClientCall>, b: seq<Client.ClientCall>) {
    |a| <= |b| && forall n :: 0 <= n < |a| ==> Settles(a[n], b[n])
  }

  /** The client is as stopped as before, has sent nothing, nothing more has arrived from it, and its calls settle. */
  predicate StaysStopped(s: State, t: State, i: nat)
    requires i < |s.inbs| && StoppedClient(s, i)
  {
    && StoppedClient(t, i) && t.apps[i].client.sent == s.apps[i].client.sent
    && i < |t.inbs| && Incoming(t, i) <= Incoming(s, i)
    && CallsSettle(s.apps[i].client.invokes, t.apps[i].client.invokes)
  }

  lemma SilentPeer(c: Peer, d: Peer, a: AppAct)
    requires c.app.Managed? && c.app.client.phase.Stopped? && !c.app.client.txOpen && ClientNext(c, d, a)
    ensures d.app.Managed? && d.app.client.phase.Stopped? && d.app.client.sent == c.app.client.sent && d.inb == c.inb
    ensures CallsSettle(c.app.client.invokes, d.app.client.invokes)
  {
  }

  lemma SilentServe(cfg: Config, s: State, t: State, j: nat, a: ServeAct, i: nat)
    requires ServeNext(cfg, s, t, j, a) && i < |s.inbs|
    ensures t.apps == s.apps && i < |t.inbs| && Incoming(t, i) == Incoming(s, i)
  {
    ServeTask(cfg, s, t, j, a);
  }

  lemma SilentOutside(s: State, t: State, step: Step, i: nat)
    requires i < |s.inbs| && StoppedClient(s, i)
    requires (step.HostStep? && HostNext(s, t, step.host)) || (step.WireStep? && WireNext(s, t, step.conn, step.wire))
    ensures StaysStopped(s, t, i)
  {
  }

  lemma SilentStep(cfg: Config, s: State, t: State, step: Step, i: nat)
    requires Next(cfg, s, t, step) && PeersOk(s) && StoppedClient(s, i)
    ensures StaysStopped(s, t, i)
  {
    assert ConnPeerOk(s, i);
    match step
    case AppStep(j, a) =>
      if j == i {
        SilentPeer(Peer(s.apps[i], s.inbs[i], s.chans[i]), Peer(t.apps[i], t.inbs[i], t.chans[i]), a);
      }
    case ServeStep(j, a) => SilentServe(cfg, s, t, j, a, i);
    case CallStep(m, a) => CallTask(cfg, s, t, m, a);
    case _ => SilentOutside(s, t, step, i);
  }

  lemma SilentStepAt(cfg: Config, states: seq<State>, steps: seq<Step>, k: nat, i: nat)
    requires IsFragment(cfg, states, steps) && PeersOk(states[0]) && k < |steps| && StoppedClient(states[k], i)
    ensures i < |states[k].inbs| && StaysStopped(states[k], states[k + 1], i)
  {
    FragmentPeers(cfg, states, steps, k);
    FragmentNext(cfg, states, steps, k);
    SilentStep(cfg, states[k], states[k + 1], steps[k], i);
  }

  /** No reconnect: once stopped, a client stays stopped for the rest of any run and nothing more comes from it. */
  lemma {:induction false} StoppedForGood(cfg: Config, states: seq<State>, steps: seq<Step>, k: nat, i: nat)
    requires IsFragment(cfg, states, steps) && PeersOk(states[0]) && StoppedClient(states[0], i) && k <= |steps|
    ensures i < |states[0].inbs| && StaysStopped(states[0], states[k], i)
  {
    if k > 0 {
      StoppedForGood(cfg, states, steps, k - 1, i);
      SilentStepAt(cfg, states, steps, k - 1, i);
    }
  }

  /** The same from every reachable state. */
  lemma NoReconnect(cfg: Config, states: seq<State>, steps: seq<Step>, k: nat, i: nat)
    requires IsFragment(cfg, states, steps) && Reachable(cfg, states[0]) && StoppedClient(states[0], i) && k <= |steps|
    ensures i < |states[0].inbs| && StaysStopped(states[0], states[k], i)
  {
    ReachablePeers(cfg, states[0]);
    StoppedForGood(cfg, states, steps, k, i);
  }

  // ----- its calls -------------------------------------------------------------------------------------------

  /** The peer of connection `i` is a client that has stopped, and `n` is one of its calls. */
  predicate StoppedCall(s: State, i: nat, n: nat) {
    StoppedClient(s, i) && n < |s.apps[i].client.invokes|
  }

  function CallOf(s: State, i: nat, n: nat): Client.ClientCall
    requires StoppedCall(s, i, n)
  {
    s.apps[i].client.invokes[n]
  }

  /**
   * However the run goes on after the stop, a call that was waiting without a reply stays exactly as it is for ever,
   * and any other call has its outcome as soon as it is past queueing its frame.
   */
  lemma StoppedCallHangs(cfg: Config, states: seq<State>, steps: seq<Step>, k: nat, i: nat, n: nat)
    requires IsFragment(cfg, states, steps) && Reachable(cfg, states[0]) && StoppedCall(states[0], i, n)
    requires k <= |steps|
    ensures StoppedCall(states[k], i, n)
    ensures Hanging(CallOf(states[0], i, n)) ==> CallOf(states[k], i, n) == CallOf(states[0], i, n)
    ensures !Unqueued(CallOf(states[k], i, n)) ==>
              (CallOf(states[k], i, n).Outcome().Some? <==> !Hanging(CallOf(states[0], i, n)))
  {
    NoReconnect(cfg, states, steps, k, i);
    assert Settles(CallOf(states[0], i, n), states[k].apps[i].client.invokes[n]);
  }

  ghost predicate CanEnd(cfg: Config, s: State, i: nat, n: nat) {
    exists t :: Leads(cfg, s, t) && StoppedCall(t, i, n) && CallOf(t, i, n).Outcome().Some?
  }

  /** After the stop a call can get an outcome exactly when its slot was filled or its frame was not yet queued. */
  lemma StoppedCallEndsExactly(cfg: Config, s: State, i: nat, n: nat)
    requires Reachable(cfg, s) && StoppedCall(s, i, n)
    ensures CanEnd(cfg, s, i, n) <==> !Hanging(CallOf(s, i, n))
  {
    LeadsHere(cfg, s);
    if Unqueued(CallOf(s, i, n)) {
      UnqueuedEnds(cfg, s, i, n);
    }
    if CanEnd(cfg, s, i, n) {
      var t :| Leads(cfg, s, t) && StoppedCall(t, i, n) && CallOf(t, i, n).Outcome().Some?;
      var states, steps :| IsFragment(cfg, states, steps) && states[0] == s && states[|steps|] == t;
      StoppedCallHangs(cfg, states, steps, |steps|, i, n);
    }
  }

  /** A step of the client on connection `i`. */
  function WithClient(s: State, i: nat, x: Client.AppClient): State
    requires i < |s.apps|
  {
    s.(apps := s.apps[i := Managed(x)])
  }

  lemma RegisterStep(cfg: Config, s: State, i: nat, n: nat)
    requires Aligned(s) && StoppedCall(s, i, n) && CallOf(s, i, n).pc.Allocated?
    ensures Next(cfg, s, WithClient(s, i, Client.InsertPendingInvoke(s.apps[i].client, n)),
                 AppStep(i, RegisterInvoke(n)))
  {
  }

  lemma QueueStep(cfg: Config, s: State, i: nat, n: nat)
    requires Aligned(s) && StoppedCall(s, i, n) && CallOf(s, i, n).pc.Inserted?
    ensures Next(cfg, s, WithClient(s, i, Client.QueueInvokeFrame(s.apps[i].client, n)),
                 AppStep(i, QueueOutbound(n)))
  {
  }

  lemma InsertedEnds(cfg: Config, s: State, t: State, i: nat, n: nat)
    requires Leads(cfg, s, t) && Aligned(t) && StoppedCall(t, i, n) && CallOf(t, i, n).pc.Inserted?
    requires !t.apps[i].client.txOpen
    ensures CanEnd(cfg, s, i, n)
  {
    var u := WithClient(t, i, Client.QueueInvokeFrame(t.apps[i].client, n));
    QueueStep(cfg, t, i, n);
    LeadsNext(cfg, s, t, u, AppStep(i, QueueOutbound(n)));
    assert StoppedCall(u, i, n) && CallOf(u, i, n).Outcome().Some?;
  }

  lemma UnqueuedEnds(cfg: Config, s: State, i: nat, n: nat)
    requires Reachable(cfg, s) && StoppedCall(s, i, n) && Unqueued(CallOf(s, i, n))
    ensures CanEnd(cfg, s, i, n)
  {
    ReachablePeers(cfg, s);
    assert ConnPeerOk(s, i);
    LeadsHere(cfg, s);
    if CallOf(s, i, n).pc.Allocated? {
      var t := WithClient(s, i, Client.InsertPendingInvoke(s.apps[i].client, n));
      RegisterStep(cfg, s, i, n);
      LeadsNext(cfg, s, s, t, AppStep(i, RegisterInvoke(n)));
      InsertedEnds(cfg, s, t, i, n);
    } else {
      InsertedEnds(cfg, s, s, i, n);
    }
  }

  // ----- a call that hangs ------------------------------------------------------------------------------------

  /** Connection `i` after a step of its client. */
  function WithPeer(s: State, i: nat, d: Peer): State
    requires Aligned(s) && i < |s.serves|
  {
    s.(apps := s.apps[i := d.app], inbs := s.inbs[i := d.inb], chans := s.chans[i := d.chan])
  }

  function PeerOf(s: State, i: nat): Peer
    requires Aligned(s) && i < |s.serves|
  {
    Peer(s.apps[i], s.inbs[i], s.chans[i])
  }

  lemma ClientReaches(cfg: Config, s: State, i: nat, d: Peer, a: AppAct)
    requires Reachable(cfg, s) && Aligned(s) && i < |s.serves| && s.apps[i].Managed? && ClientNext(PeerOf(s, i), d, a)
    ensures Reachable(cfg, WithPeer(s, i, d))
  {
    ReachesNext(cfg, s, WithPeer(s, i, d), AppStep(i, a));
  }

  /** The client has read its ack and started a call. */
  lemma ClientCalls(cfg: Config, svc: string) returns (s: State)
    ensures Reachable(cfg, s) && Aligned(s) && |s.serves| == 1 && s.apps[0].Managed?
    ensures var x := s.apps[0].client;
            x.phase.Running? && x.txOpen && |x.invokes| == 1 && x.invokes[0].pc.Allocated? && x.invokes[0].slot.None?
  {
    var s1 := Enrolled(INITIAL, svc, false);
    NothingHappened(cfg);
    Enrolls(cfg, INITIAL, svc, false);
    Acks(cfg, s1, 0);
    var s2 := Acked(cfg, s1, 0);
    var x, ch := s2.apps[0].client, s2.chans[0];
    var y := Client.HandleAck(x, ch.wire[0]);
    var d := Peer(Managed(y), s2.inbs[0], Deliver(ch));
    ClientReaches(cfg, s2, 0, d, ReadInbound);
    var k := Client.ClientCall(0, svc, "run", [], DEFAULT_CALLER, None, false, Client.Allocated, None, 0);
    var e := d.(app := Managed(Client.BeginInvoke(y, k)));
    ClientReaches(cfg, WithPeer(s2, 0, d), 0, e, StartInvoke(svc, "run", [], DEFAULT_CALLER, None, false));
    s := WithPeer(WithPeer(s2, 0, d), 0, e);
  }

  /** In some run the stream goes down while a client waits for its reply: such a call hangs for ever. */
  lemma SomeCallHangs(cfg: Config, svc: string)
    ensures exists s :: Reachable(cfg, s) && StoppedCall(s, 0, 0) && Hanging(CallOf(s, 0, 0))
  {
    var s := ClientCalls(cfg, svc);
    var c, x := PeerOf(s, 0), s.apps[0].client;
    var d := c.(app := Managed(Client.InsertPendingInvoke(x, 0)));
    ClientReaches(cfg, s, 0, d, RegisterInvoke(0));
    var t := WithPeer(s, 0, d);
    var e := d.(app := Managed(Client.QueueInvokeFrame(d.app.client, 0)));
    ClientReaches(cfg, t, 0, e, QueueOutbound(0));
    var u := WithPeer(t, 0, e);
    var f := Peer(Managed(Client.Stop(e.app.client)), CutInbound(e.inb, |e.inb.stream|), e.chan);
    ClientReaches(cfg, u, 0, f, StreamDown);
    assert StoppedCall(WithPeer(u, 0, f), 0, 0);
  }
}
