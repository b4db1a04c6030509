/**
 * Fan-out is complete: when it is over, every service selected by the snapshot either was not registered when its turn
 * came, or had the event queued on its connection, unless that connection's channel had closed.
 */
module BusFanout {
  import opened Prelude
  import opened Frames
  import opened ServiceRegistry
  import opened BrokerTables
  import opened Connection
  import opened Bus
  import opened BusSteps
  import opened BusRegistration
  import opened BusReplies
  import opened BusLogs
  import opened BusEvents
  import opened BusDelivery

  // ----- nobody is forgotten --------------------------------------------------------------------------

  /** The services still to be looked at for publication `n`. */
  function Remaining(pc: ServePc, n: nat): seq<string> {
    match pc
    case FanLookup(_, m, targets) => if m == n then targets else []
    case FanSend(_, m, svc, _, targets) => if m == n then [svc] + targets else []
    case _ => []
  }

  predicate Handled(p: Publication, remaining: seq<string>) {
    forall svc :: svc in p.targets ==> svc in p.served || svc in p.skipped || svc in remaining
  }

  predicate PubsHandled(v: Serve) {
    forall n :: 0 <= n < |v.pubs| ==> Handled(v.pubs[n], Remaining(v.pc, n))
  }

  ghost predicate HandledOk(serves: seq<Serve>) {
    forall i :: 0 <= i < |serves| ==> PubsHandled(serves[i])
  }

  lemma SnapshotHandled(s: State, t: State, i: nat, order: seq<string>)
    requires Aligned(s) && i < |s.serves| && SnapshotStep(s, t, i, order) && PubsHandled(s.serves[i])
    ensures PubsHandled(t.serves[i])
  {
  }

  lemma SubscriberHandled(s: State, t: State, i: nat)
    requires Aligned(s) && i < |s.serves| && SubscriberStep(s, t, i) && PubsHandled(s.serves[i])
    ensures PubsHandled(t.serves[i])
  {
  }

  lemma EventHandled(s: State, t: State, i: nat)
    requires Aligned(s) && i < |s.serves| && EventStep(s, t, i) && PubsHandled(s.serves[i])
    ensures PubsHandled(t.serves[i])
  {
  }

  lemma OutsideFanout(cfg: Config, s: State, t: State, i: nat, a: ServeAct)
    requires ServeNext(cfg, s, t, i, a) && !FanAct(a)
    ensures t.serves[i].pubs == s.serves[i].pubs
    ensures !s.serves[i].pc.FanLookup? && !s.serves[i].pc.FanSend?
    ensures !t.serves[i].pc.FanLookup? && !t.serves[i].pc.FanSend?
  {
  }

  lemma ServeHandled(cfg: Config, s: State, t: State, i: nat, a: ServeAct)
    requires ServeNext(cfg, s, t, i, a) && HandledOk(s.serves)
    ensures HandledOk(t.serves)
  {
    assert PubsHandled(s.serves[i]);
    if {
      case a.TakeSnapshot? => SnapshotHandled(s, t, i, a.order);
      case a.LookUpSubscriber? => SubscriberHandled(s, t, i);
      case a.QueueEvent? => EventHandled(s, t, i);
      case !FanAct(a) =>
        ServeTask(cfg, s, t, i, a);
        OutsideFanout(cfg, s, t, i, a);
        assert forall n :: 0 <= n < |s.serves[i].pubs| ==> Handled(s.serves[i].pubs[n], Remaining(s.serves[i].pc, n));
    }
  }

  // ----- what was served was queued --------------------------------------------------------------------------

  predicate EventQueued(s: State, i: nat, n: nat, j: nat) {
    && j < |s.serves| && j < |s.chans| && Rank(s.serves[j].pc) >= 3
    && (ByPublish(i, n) in s.chans[j].tags || !s.chans[j].open)
  }

  predicate PublicationQueued(s: State, i: nat, n: nat, p: Publication) {
    forall svc :: svc in p.served ==> EventQueued(s, i, n, p.served[svc])
  }

  predicate ConnQueued(s: State, i: nat)
    requires i < |s.serves|
  {
    && (forall n :: 0 <= n < |s.serves[i].pubs| ==> PublicationQueued(s, i, n, s.serves[i].pubs[n]))
    && (s.serves[i].pc.FanSend? ==>
          s.serves[i].pc.tx < |s.serves| && Rank(s.serves[s.serves[i].pc.tx].pc) >= 3)
  }

  ghost predicate QueuedOk(s: State) {
    forall i :: 0 <= i < |s.serves| ==> ConnQueued(s, i)
  }

  /** Tasks only advance, logs only grow, and a channel a publication may have used never opens again. */
  ghost predicate LogsGrow(s: State, t: State) {
    && Aligned(s) && Aligned(t) && |s.serves| <= |t.serves|
    && (forall j :: 0 <= j < |s.serves| ==> Rank(s.serves[j].pc) <= Rank(t.serves[j].pc))
    && (forall j :: 0 <= j < |s.serves| && Rank(s.serves[j].pc) >= 3 ==> ChannelGrows(s.chans[j], t.chans[j]))
  }

  /** Nothing new is served and no new connection is looked up. */
  predicate NothingServed(v: Serve, w: Serve) {
    && |w.pubs| >= |v.pubs|
    && (forall n :: 0 <= n < |v.pubs| ==> w.pubs[n].served == v.pubs[n].served)
    && (forall n :: |v.pubs| <= n < |w.pubs| ==> w.pubs[n].served == map[])
  }

  lemma ConnKept(s: State, t: State, i: nat)
    requires LogsGrow(s, t) && i < |s.serves| && ConnQueued(s, i) && NothingServed(s.serves[i], t.serves[i])
    requires t.serves[i].pc.FanSend? ==>
               t.serves[i].pc == s.serves[i].pc
               || (t.serves[i].pc.tx < |t.serves| && Rank(t.serves[t.serves[i].pc.tx].pc) >= 3)
    ensures ConnQueued(t, i)
  {
  }

  lemma EventServed(s: State, t: State, i: nat)
    requires Aligned(s) && i < |s.serves| && EventStep(s, t, i) && LogsGrow(s, t) && ConnQueued(s, i)
    ensures ConnQueued(t, i)
  {
  }

  lemma SubscriberFound(s: State, t: State, i: nat)
    requires Aligned(s) && i < |s.serves| && SubscriberStep(s, t, i) && Registered(s)
    ensures NothingServed(s.serves[i], t.serves[i])
    ensures t.serves[i].pc.FanSend? ==>
              t.serves[i].pc.tx < |t.serves| && Rank(t.serves[t.serves[i].pc.tx].pc) >= 3
  {
    var ts := s.serves[i].pc.targets;
    if ts != [] && ts[0] in s.reg.entries {
      assert EntryOk(s.serves, ts[0], s.reg.entries[ts[0]]);
    }
  }

  // ----- preservation ------------------------------------------------------------------------------------------

  lemma ServeGrows(cfg: Config, s: State, t: State, i: nat, a: ServeAct)
    requires ServeNext(cfg, s, t, i, a)
    ensures LogsGrow(s, t)
  {
    ServeTask(cfg, s, t, i, a);
    ServeFrom(cfg, s, t, i, a);
    ServeTo(cfg, s, t, i, a);
    if !a.QueueEvent? {
      ServeLog(cfg, s, t, i, a);
      if !a.IdentifyClient? {
        ServeCloses(cfg, s, t, i, a);
      }
    }
  }

  lemma ServeQueued(cfg: Config, s: State, t: State, i: nat, a: ServeAct)
    requires ServeNext(cfg, s, t, i, a) && QueuedOk(s) && Registered(s)
    ensures QueuedOk(t)
  {
    ServeGrows(cfg, s, t, i, a);
    ServeTask(cfg, s, t, i, a);
    assert ConnQueued(s, i);
    if {
      case a.QueueEvent? => EventServed(s, t, i);
      case a.LookUpSubscriber? => SubscriberFound(s, t, i); ConnKept(s, t, i);
      case a.TakeSnapshot? => ConnKept(s, t, i);
      case !FanAct(a) => OutsideFanout(cfg, s, t, i, a); ConnKept(s, t, i);
    }
    OthersQueued(s, t, i);
  }

  lemma OthersQueued(s: State, t: State, i: nat)
    requires QueuedOk(s) && LogsGrow(s, t) && i < |s.serves| && ConnQueued(t, i)
    requires |t.serves| == |s.serves| && t.serves == s.serves[i := t.serves[i]]
    ensures QueuedOk(t)
  {
    forall p | 0 <= p < |t.serves|
      ensures ConnQueued(t, p)
    {
      if p != i {
        assert ConnQueued(s, p);
        ConnKept(s, t, p);
      }
    }
  }

  lemma CallGrows(cfg: Config, s: State, t: State, n: nat, a: CallAct)
    requires CallNext(cfg, s, t, n, a)
    ensures t.serves == s.serves && LogsGrow(s, t)
  {
  }

  lemma KeptQueued(s: State, t: State)
    requires QueuedOk(s) && LogsGrow(s, t) && (t.serves == s.serves || t.serves == s.serves + [NEW_SERVE])
    ensures QueuedOk(t)
  {
    forall p | 0 <= p < |t.serves|
      ensures ConnQueued(t, p)
    {
      if p < |s.serves| {
        assert ConnQueued(s, p);
        ConnKept(s, t, p);
      }
    }
  }

  ghost predicate FanoutOk(s: State) {
    HandledOk(s.serves) && QueuedOk(s)
  }

  lemma StepFanout(cfg: Config, s: State, t: State, step: Step)
    requires Next(cfg, s, t, step) && Registered(s) && FanoutOk(s)
    ensures FanoutOk(t)
  {
    match step
    case ServeStep(i, a) => ServeHandled(cfg, s, t, i, a); ServeQueued(cfg, s, t, i, a);
    case CallStep(n, a) => CallGrows(cfg, s, t, n, a); KeptQueued(s, t);
    case _ => OutsideStep(cfg, s, t, step); KeptQueued(s, t);
  }

  /**
   * A finished publication has treated every selected service: it was not registered when its turn came, or the event
   * was queued on the connection registered then, unless that channel had closed.
   */
  lemma FanoutComplete(s: State, i: nat, n: nat, svc: string)
    requires FanoutOk(s) && i < |s.serves| && n < |s.serves[i].pubs| && Remaining(s.serves[i].pc, n) == []
    requires svc in s.serves[i].pubs[n].targets
    ensures var p := s.serves[i].pubs[n];
            svc in p.skipped || (svc in p.served && EventQueued(s, i, n, p.served[svc]))
  {
    assert PubsHandled(s.serves[i]) && ConnQueued(s, i);
    var p := s.serves[i].pubs[n];
    assert Handled(p, []) && PublicationQueued(s, i, n, p);
  }
}
