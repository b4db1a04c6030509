/**
 * Publish and subscribe under every interleaving: who may receive a publication, how often, and in which order.
 */
module BusEvents {
  import opened Prelude
  import opened Frames
  import opened BrokerTables
  import opened ServiceRegistry
  import opened Connection
  import opened Bus
  import opened BusSteps
  import opened BusRegistration
  import opened BusLogs

  // ----- the publishing side ---------------------------------------------------------------------

  /** A recorded publication carries its sender's name and is never addressed to the sender's own service. */
  predicate PublicationOk(v: Serve, p: Publication) {
    && v.hello.Some? && p.event.from == Some(v.hello.value.service) && v.hello.value.service !in p.targets
    && p.served.Keys <= p.targets
  }

  predicate PendingTargetsOk(ts: seq<string>, p: Publication) {
    && (forall svc :: svc in ts ==> svc in p.targets && svc !in p.served)
    && (forall a, b :: 0 <= a < b < |ts| ==> ts[a] != ts[b])
  }

  /** A fan-out in progress concerns the newest publication; its remaining targets are still unserved. */
  predicate FanOk(serves: seq<Serve>, v: Serve) {
    match v.pc
    case Snapshot(ev) => v.hello.Some? && ev.from == Some(v.hello.value.service)
    case FanLookup(ev, n, ts) =>
      n + 1 == |v.pubs| && ev == v.pubs[n].event && PendingTargetsOk(ts, v.pubs[n])
    case FanSend(ev, n, svc, tx, ts) =>
      && n + 1 == |v.pubs| && ev == v.pubs[n].event && PendingTargetsOk(ts, v.pubs[n])
      && svc in v.pubs[n].targets && svc !in v.pubs[n].served && svc !in ts
      && tx < |serves| && serves[tx].hello.Some? && serves[tx].hello.value.service == svc
    case _ => true
  }

  predicate PubsOk(v: Serve) {
    forall n :: 0 <= n < |v.pubs| ==> PublicationOk(v, v.pubs[n])
  }

  // ----- the receiving side ----------------------------------------------------------------------

  /** A logged event is the recorded publication, and this connection is the one its service was served on. */
  predicate EventOk(tag: Sender, f: BusFrame, j: nat, serves: seq<Serve>) {
    tag.ByPublish? ==>
      && tag.conn < |serves| && tag.publication < |serves[tag.conn].pubs|
      && var p := serves[tag.conn].pubs[tag.publication];
         && f == EventFrame(p.event)
         && j < |serves| && serves[j].hello.Some?
         && serves[j].hello.value.service in p.served && p.served[serves[j].hello.value.service] == j
  }

  ghost predicate EventsLogged(ch: Channel, j: nat, serves: seq<Serve>) {
    && |ch.tags| == |ch.queued|
    && forall a :: 0 <= a < |ch.tags| ==> EventOk(ch.tags[a], ch.queued[a], j, serves)
  }

  predicate Before(x: Sender, y: Sender) {
    x.ByPublish? && y.ByPublish? && x.conn == y.conn ==> x.publication < y.publication
  }

  /** Per publishing connection, events are logged in publication order, at most one per publication. */
  ghost predicate InOrder(ch: Channel) {
    forall a, b :: 0 <= a < b < |ch.tags| ==> Before(ch.tags[a], ch.tags[b])
  }

  ghost predicate EventsOk(s: State) {
    && (forall i :: 0 <= i < |s.serves| ==> PubsOk(s.serves[i]) && FanOk(s.serves, s.serves[i]))
    && (forall j :: 0 <= j < |s.chans| ==> EventsLogged(s.chans[j], j, s.serves) && InOrder(s.chans[j]))
  }

  // ----- steps outside the fan-out -----------------------------------------------------------------

  predicate ServeQuietForEvents(v: Serve, w: Serve) {
    && w.pubs == v.pubs && (v.hello.Some? ==> w.hello == v.hello)
    && (w.pc == v.pc || !(w.pc.Snapshot? || w.pc.FanLookup? || w.pc.FanSend?))
  }

  ghost predicate EventsQuiet(s: State, t: State) {
    && |s.serves| <= |t.serves| && LogsKept(s.chans, t.chans)
    && (forall i :: 0 <= i < |s.serves| ==> ServeQuietForEvents(s.serves[i], t.serves[i]))
    && (forall i :: |s.serves| <= i < |t.serves| ==> t.serves[i] == NEW_SERVE)
  }

  lemma QuietEvents(s: State, t: State)
    requires EventsOk(s) && EventsQuiet(s, t)
    ensures EventsOk(t)
  {
    forall i | 0 <= i < |t.serves|
      ensures PubsOk(t.serves[i]) && FanOk(t.serves, t.serves[i])
    {
      if i < |s.serves| {
        assert PubsOk(s.serves[i]) && FanOk(s.serves, s.serves[i]);
        forall n | 0 <= n < |t.serves[i].pubs|
          ensures PublicationOk(t.serves[i], t.serves[i].pubs[n])
        {
          assert PublicationOk(s.serves[i], s.serves[i].pubs[n]);
        }
      }
    }
    forall j | 0 <= j < |t.chans|
      ensures EventsLogged(t.chans[j], j, t.serves) && InOrder(t.chans[j])
    {
      if j < |s.chans| {
        assert EventsLogged(s.chans[j], j, s.serves) && InOrder(s.chans[j]);
        forall a | 0 <= a < |t.chans[j].tags|
          ensures EventOk(t.chans[j].tags[a], t.chans[j].queued[a], j, t.serves)
        {
          assert EventOk(s.chans[j].tags[a], s.chans[j].queued[a], j, s.serves);
        }
      }
    }
  }

  // ----- a frame that is not an event is queued --------------------------------------------------------

  lemma CallPushEvents(s: State, t: State, x: nat, f: BusFrame, tag: Sender)
    requires EventsOk(s) && x < |s.chans| && !tag.ByPublish?
    requires t.serves == s.serves && t.chans == s.chans[x := Push(s.chans[x], f, tag)]
    ensures EventsOk(t)
  {
  }

  // ----- the three steps of a fan-out ---------------------------------------------------------------

  /** Publications only gain receivers; nothing is forgotten. */
  predicate PubsGrow(v: Serve, w: Serve) {
    && w.hello == v.hello && |v.pubs| <= |w.pubs|
    && forall n :: 0 <= n < |v.pubs| ==>
         && w.pubs[n].event == v.pubs[n].event && w.pubs[n].targets == v.pubs[n].targets
         && forall svc :: svc in v.pubs[n].served ==>
              svc in w.pubs[n].served && w.pubs[n].served[svc] == v.pubs[n].served[svc]
  }

  lemma GrownLog(ch: Channel, j: nat, a: seq<Serve>, i: nat, w: Serve)
    requires EventsLogged(ch, j, a) && i < |a| && PubsGrow(a[i], w)
    ensures EventsLogged(ch, j, a[i := w])
  {
  }

  lemma OtherFans(serves: seq<Serve>, i: nat, w: Serve, p: nat)
    requires i < |serves| && p < |serves| && p != i && w.hello == serves[i].hello
    requires FanOk(serves, serves[p])
    ensures FanOk(serves[i := w], serves[p])
  {
  }

  lemma SnapshotEvents(s: State, t: State, i: nat, order: seq<string>)
    requires EventsOk(s) && Aligned(s) && i < |s.serves| && SnapshotStep(s, t, i, order)
    ensures EventsOk(t)
  {
    var v, w := s.serves[i], t.serves[i];
    assert PubsOk(v) && FanOk(s.serves, v);
    forall n | 0 <= n < |w.pubs|
      ensures PublicationOk(w, w.pubs[n])
    {
      assert n < |v.pubs| ==> PublicationOk(v, v.pubs[n]);
    }
    forall p | 0 <= p < |t.serves|
      ensures PubsOk(t.serves[p]) && FanOk(t.serves, t.serves[p])
    {
      if p != i {
        OtherFans(s.serves, i, w, p);
      }
    }
    forall j | 0 <= j < |t.chans|
      ensures EventsLogged(t.chans[j], j, t.serves) && InOrder(t.chans[j])
    {
      GrownLog(s.chans[j], j, s.serves, i, w);
    }
  }

  lemma SubscriberEvents(s: State, t: State, i: nat)
    requires EventsOk(s) && Registered(s) && Aligned(s) && i < |s.serves| && SubscriberStep(s, t, i)
    ensures EventsOk(t)
  {
    var v, w := s.serves[i], t.serves[i];
    var FanLookup(ev, n, ts) := v.pc;
    assert PubsOk(v) && FanOk(s.serves, v);
    forall k | 0 <= k < |w.pubs|
      ensures PublicationOk(w, w.pubs[k])
    {
      assert PublicationOk(v, v.pubs[k]);
    }
    if ts != [] {
      assert ts[0] in ts && forall svc :: svc in ts[1..] ==> svc in ts;
      if ts[0] in s.reg.entries {
        assert EntryOk(s.serves, ts[0], s.reg.entries[ts[0]]);
      }
    }
    assert FanOk(t.serves, w);
    forall p | 0 <= p < |t.serves|
      ensures PubsOk(t.serves[p]) && FanOk(t.serves, t.serves[p])
    {
      if p != i {
        OtherFans(s.serves, i, w, p);
      }
    }
    forall j | 0 <= j < |t.chans|
      ensures EventsLogged(t.chans[j], j, t.serves) && InOrder(t.chans[j])
    {
      GrownLog(s.chans[j], j, s.serves, i, w);
    }
  }

  lemma EventSender(s: State, t: State, i: nat)
    requires EventsOk(s) && Aligned(s) && i < |s.serves| && EventStep(s, t, i)
    ensures PubsOk(t.serves[i]) && FanOk(t.serves, t.serves[i]) && PubsGrow(s.serves[i], t.serves[i])
  {
  }

  lemma EventReceiver(s: State, t: State, i: nat)
    requires EventsOk(s) && Aligned(s) && i < |s.serves| && EventStep(s, t, i)
    requires PubsGrow(s.serves[i], t.serves[i])
    ensures var tx := s.serves[i].pc.tx; EventsLogged(t.chans[tx], tx, t.serves) && InOrder(t.chans[tx])
  {
    var FanSend(ev, n, svc, tx, ts) := s.serves[i].pc;
    assert FanOk(s.serves, s.serves[i]) && EventsLogged(s.chans[tx], tx, s.serves) && InOrder(s.chans[tx]);
    GrownLog(s.chans[tx], tx, s.serves, i, t.serves[i]);
    forall a | 0 <= a < |s.chans[tx].tags|
      ensures Before(s.chans[tx].tags[a], ByPublish(i, n))
    {
      assert EventOk(s.chans[tx].tags[a], s.chans[tx].queued[a], tx, s.serves);
    }
    forall a | 0 <= a < |t.chans[tx].tags|
      ensures EventOk(t.chans[tx].tags[a], t.chans[tx].queued[a], tx, t.serves)
    {
      assert a < |s.chans[tx].tags| ==> EventOk(s.chans[tx].tags[a], s.chans[tx].queued[a], tx, t.serves);
    }
  }

  lemma QueueEvents(s: State, t: State, i: nat)
    requires EventsOk(s) && Aligned(s) && i < |s.serves| && EventStep(s, t, i)
    ensures EventsOk(t)
  {
    var tx := s.serves[i].pc.tx;
    EventSender(s, t, i);
    EventReceiver(s, t, i);
    forall p | 0 <= p < |t.serves|
      ensures PubsOk(t.serves[p]) && FanOk(t.serves, t.serves[p])
    {
      if p != i {
        assert PubsOk(s.serves[p]) && FanOk(s.serves, s.serves[p]);
        OtherFans(s.serves, i, t.serves[i], p);
      }
    }
    forall j | 0 <= j < |t.chans|
      ensures EventsLogged(t.chans[j], j, t.serves) && InOrder(t.chans[j])
    {
      if j != tx {
        GrownLog(s.chans[j], j, s.serves, i, t.serves[i]);
      }
    }
  }

  // ----- preservation ---------------------------------------------------------------------------------

  lemma CallEvents(cfg: Config, s: State, t: State, n: nat, a: CallAct)
    requires CallNext(cfg, s, t, n, a) && EventsOk(s)
    ensures EventsOk(t)
  {
    var k := s.calls[n];
    if a.QueueInvoke? {
      CallPushEvents(s, t, k.entry.value.tx, InvokeOf(k), ByCall(n));
    } else if a.QueueReply? {
      CallPushEvents(s, t, k.origin.conn, ResponseFrame(k.origin.reqId, ReplyOf(k.outcome.value)), ByRoute(n));
    }
  }

  predicate FanAct(a: ServeAct) {
    a.TakeSnapshot? || a.LookUpSubscriber? || a.QueueEvent?
  }

  lemma ServeQuietEvents(cfg: Config, s: State, t: State, i: nat, a: ServeAct)
    requires ServeNext(cfg, s, t, i, a) && !FanAct(a) && !a.ReadPublish?
    requires s.serves[i].hello.Some? ==> i < |t.serves| && t.serves[i].hello == s.serves[i].hello
    ensures i < |t.serves| && t.serves == s.serves[i := t.serves[i]] && ServeQuietForEvents(s.serves[i], t.serves[i])
  {
  }

  lemma PublicationEvents(s: State, t: State, i: nat)
    requires EventsOk(s) && Aligned(s) && i < |s.serves| && PublicationStep(s, t, i)
    ensures EventsOk(t)
  {
    var w := t.serves[i];
    assert PubsOk(s.serves[i]);
    forall k | 0 <= k < |w.pubs|
      ensures PublicationOk(w, w.pubs[k])
    {
      assert PublicationOk(s.serves[i], s.serves[i].pubs[k]);
    }
    forall p | 0 <= p < |t.serves|
      ensures PubsOk(t.serves[p]) && FanOk(t.serves, t.serves[p])
    {
      if p != i {
        OtherFans(s.serves, i, w, p);
      }
    }
    forall j | 0 <= j < |t.chans|
      ensures EventsLogged(t.chans[j], j, t.serves) && InOrder(t.chans[j])
    {
      GrownLog(s.chans[j], j, s.serves, i, w);
    }
  }

  lemma UnrelatedEvents(cfg: Config, s: State, t: State, i: nat, a: ServeAct)
    requires ServeNext(cfg, s, t, i, a) && !FanAct(a) && !a.ReadPublish? && Registered(s) && EventsOk(s)
    ensures EventsOk(t)
  {
    StepAdvances(cfg, s, t, ServeStep(i, a));
    ServeQuietEvents(cfg, s, t, i, a);
    ServeLogs(cfg, s, t, i, a);
    QuietEvents(s, t);
  }

  lemma ServeEvents(cfg: Config, s: State, t: State, i: nat, a: ServeAct)
    requires ServeNext(cfg, s, t, i, a) && Registered(s) && EventsOk(s)
    ensures EventsOk(t)
  {
    if {
      case a.TakeSnapshot? => SnapshotEvents(s, t, i, a.order);
      case a.LookUpSubscriber? => SubscriberEvents(s, t, i);
      case a.QueueEvent? => QueueEvents(s, t, i);
      case a.ReadPublish? => PublicationEvents(s, t, i);
      case !FanAct(a) && !a.ReadPublish? => UnrelatedEvents(cfg, s, t, i, a);
    }
  }

  lemma OutsideEvents(s: State, t: State)
    requires EventsOk(s) && Outside(s, t)
    ensures EventsOk(t)
  {
    QuietEvents(s, t);
  }

  lemma StepEvents(cfg: Config, s: State, t: State, step: Step)
    requires Next(cfg, s, t, step) && Registered(s) && EventsOk(s)
    ensures EventsOk(t)
  {
    match step
    case CallStep(n, a) => CallEvents(cfg, s, t, n, a);
    case ServeStep(i, a) => ServeEvents(cfg, s, t, i, a);
    case _ => OutsideStep(cfg, s, t, step); OutsideEvents(s, t);
  }

  // ----- what a logged event says of the records ------------------------------------------------------------

  /** A logged event is a recorded publication of another service, and the service of `j` had been selected for it. */
  lemma EventIsRecorded(s: State, j: nat, a: nat)
    requires EventsOk(s) && j < |s.chans| && a < |s.chans[j].tags| && s.chans[j].tags[a].ByPublish?
    ensures var tag := s.chans[j].tags[a];
            && tag.conn < |s.serves| && tag.publication < |s.serves[tag.conn].pubs|
            && j < |s.serves| && s.serves[tag.conn].hello.Some? && s.serves[j].hello.Some?
            && var p := s.serves[tag.conn].pubs[tag.publication];
               && a < |s.chans[j].queued| && s.chans[j].queued[a] == EventFrame(p.event)
               && s.serves[j].hello.value.service in p.targets
               && s.serves[j].hello.value.service != s.serves[tag.conn].hello.value.service
  {
  }

  /** At most one event per record and subscribing service. */
  lemma OneEventPerRecord(s: State, i: nat, a: nat, j: nat, b: nat)
    requires EventsOk(s) && Aligned(s) && i < |s.chans| && j < |s.chans|
    requires a < |s.chans[i].tags| && b < |s.chans[j].tags| && s.chans[i].tags[a].ByPublish?
    requires s.chans[i].tags[a] == s.chans[j].tags[b] && SameService(s, i, j)
    ensures i == j && a == b
  {
  }

  lemma RecordOrder(s: State, j: nat, a: nat, b: nat)
    requires EventsOk(s) && j < |s.chans| && a < b < |s.chans[j].tags|
    requires s.chans[j].tags[a].ByPublish? && s.chans[j].tags[b].ByPublish?
    requires s.chans[j].tags[a].conn == s.chans[j].tags[b].conn
    ensures s.chans[j].tags[a].publication < s.chans[j].tags[b].publication
  {
  }
}
