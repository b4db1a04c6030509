/**
 * Publications are the Publish frames the publisher sent: the records a connection keeps are exactly those frames,
 * stamped, in the order they were read. Hence every event can be followed back to the frame it came from.
 */
module BusPublications {
  import opened Prelude
  import opened Frames
  import opened BrokerTables
  import opened Connection
  import opened Bus
  import opened BusSteps
  import opened BusRegistration
  import opened BusEvents
  import opened BusFanout

  // ----- the Publish frames of a stream -----------------------------------------------------------------

  function Stamp(e: Event, me: string): Event {
    e.(from := Some(me))
  }

  /** The events published in a stream, stamped with the sender's name. */
  function Published(frames: seq<BusFrame>, me: string): seq<Event> {
    if frames == [] then []
    else
      var before, last := Published(frames[..|frames| - 1], me), frames[|frames| - 1];
      if last.Publish? then before + [Stamp(last.event, me)] else before
  }

  function PublishCount(frames: seq<BusFrame>): nat {
    if frames == [] then 0
    else PublishCount(frames[..|frames| - 1]) + (if frames[|frames| - 1].Publish? then 1 else 0)
  }

  /** The position of Publish frame number `k`, counted from 0. */
  function NthPublish(frames: seq<BusFrame>, k: nat): nat {
    if frames == [] then 0
    else
      var before := frames[..|frames| - 1];
      if frames[|frames| - 1].Publish? && PublishCount(before) == k then |before| else NthPublish(before, k)
  }

  lemma {:induction false} NthIsPublish(frames: seq<BusFrame>, me: string, k: nat)
    requires k < PublishCount(frames)
    ensures |Published(frames, me)| == PublishCount(frames)
    ensures var at := NthPublish(frames, k);
            && at < |frames| && frames[at].Publish? && PublishCount(frames[..at]) == k
            && Published(frames, me)[k] == Stamp(frames[at].event, me)
  {
    var before := frames[..|frames| - 1];
    PublishedCount(before, me);
    if k < PublishCount(before) {
      NthIsPublish(before, me, k);
      var at := NthPublish(before, k);
      assert before[..at] == frames[..at];
    }
  }

  lemma {:induction false} PublishedCount(frames: seq<BusFrame>, me: string)
    ensures |Published(frames, me)| == PublishCount(frames)
  {
    if frames != [] {
      PublishedCount(frames[..|frames| - 1], me);
    }
  }

  lemma {:induction false} CountGrows(frames: seq<BusFrame>, x: nat, y: nat)
    requires x <= y <= |frames|
    ensures PublishCount(frames[..x]) <= PublishCount(frames[..y])
    decreases y
  {
    if x < y {
      CountGrows(frames, x, y - 1);
      assert frames[..y][..y - 1] == frames[..y - 1];
    }
  }

  lemma NthOrder(frames: seq<BusFrame>, k: nat, l: nat)
    requires k < l < PublishCount(frames)
    ensures NthPublish(frames, k) < NthPublish(frames, l)
  {
    NthIsPublish(frames, "", k);
    NthIsPublish(frames, "", l);
    if NthPublish(frames, l) <= NthPublish(frames, k) {
      CountGrows(frames, NthPublish(frames, l), NthPublish(frames, k));
    }
  }

  /** Every Publish frame has its number. */
  lemma {:induction false} NumberOfPublish(frames: seq<BusFrame>, at: nat)
    requires at < |frames| && frames[at].Publish?
    ensures PublishCount(frames[..at]) < PublishCount(frames)
    ensures NthPublish(frames, PublishCount(frames[..at])) == at
  {
    var before := frames[..|frames| - 1];
    if at == |before| {
    } else {
      NumberOfPublish(before, at);
      assert before[..at] == frames[..at];
    }
  }

  // ----- the invariant ----------------------------------------------------------------------------------

  function EventsOf(pubs: seq<Publication>): seq<Event> {
    seq(|pubs|, k requires 0 <= k < |pubs| => pubs[k].event)
  }

  /** The publication that has been read but not recorded yet. */
  function Held(pc: ServePc): seq<Event> {
    if pc.Snapshot? then [pc.event] else []
  }

  /** The records of a greeted connection, and the event in hand, are the Publish frames read so far. */
  predicate PublishedOk(v: Serve, inb: Inbound) {
    && (v.pc == AwaitHello ==> inb.consumed == [])
    && (v.hello.None? ==> v.pubs == [] && !v.pc.Snapshot?)
    && (v.hello.Some? ==> Published(inb.consumed, v.hello.value.service) == EventsOf(v.pubs) + Held(v.pc))
  }

  ghost predicate PublicationsOk(s: State) {
    |s.inbs| == |s.serves| && forall i :: 0 <= i < |s.serves| ==> PublishedOk(s.serves[i], s.inbs[i])
  }

  // ----- preservation -----------------------------------------------------------------------------------

  /** Nothing is published, recorded or taken in hand. */
  predicate PublishesNothing(v: Serve, w: Serve, a: Inbound, b: Inbound) {
    && w.pubs == v.pubs && w.hello == v.hello && Held(w.pc) == Held(v.pc) && w.pc != AwaitHello
    && (|| b.consumed == a.consumed
        || (a.stream != [] && !a.stream[0].Publish? && b.consumed == a.consumed + [a.stream[0]]))
  }

  lemma NothingPublished(v: Serve, w: Serve, a: Inbound, b: Inbound)
    requires PublishedOk(v, a) && PublishesNothing(v, w, a, b)
    ensures PublishedOk(w, b)
  {
    if b.consumed != a.consumed {
      assert b.consumed[..|b.consumed| - 1] == a.consumed;
    }
  }

  lemma ServeKeepsRecords(cfg: Config, s: State, t: State, i: nat, a: ServeAct)
    requires ServeNext(cfg, s, t, i, a) && !a.ReadHello? && !a.ReadPublish? && !FanAct(a)
    ensures i < |t.serves|
    ensures var v, w := s.serves[i], t.serves[i];
            w.pubs == v.pubs && w.hello == v.hello && Held(w.pc) == Held(v.pc) && w.pc != AwaitHello
  {
  }

  lemma ServeReadsOther(cfg: Config, s: State, t: State, i: nat, a: ServeAct)
    requires ServeNext(cfg, s, t, i, a) && ReadAct(a) && !a.ReadHello? && !a.ReadPublish?
    ensures s.inbs[i].stream != [] && !s.inbs[i].stream[0].Publish?
  {
  }

  lemma ServePublishesNothing(cfg: Config, s: State, t: State, i: nat, a: ServeAct)
    requires ServeNext(cfg, s, t, i, a) && !a.ReadHello? && !a.ReadPublish? && !FanAct(a)
    ensures OneTask(s, t, i) && PublishesNothing(s.serves[i], t.serves[i], s.inbs[i], t.inbs[i])
  {
    ServeKeepsRecords(cfg, s, t, i, a);
    ServeTask(cfg, s, t, i, a);
    if ReadAct(a) {
      ServeReadsOther(cfg, s, t, i, a);
    }
  }

  lemma HelloPublished(s: State, t: State, i: nat)
    requires Aligned(s) && i < |s.serves| && HelloStep(s, t, i) && PublishedOk(s.serves[i], s.inbs[i])
    requires s.serves[i].hello.None?
    ensures PublishedOk(t.serves[i], t.inbs[i])
  {
    var f := s.inbs[i].stream[0];
    assert t.inbs[i].consumed == [f] && [f][..0] == [];
    assert f.Hello? ==> Published([f], f.hello.service) == [];
  }

  lemma FramePublished(s: State, t: State, i: nat)
    requires Aligned(s) && i < |s.serves| && PublicationStep(s, t, i) && PublishedOk(s.serves[i], s.inbs[i])
    ensures PublishedOk(t.serves[i], t.inbs[i])
  {
    var after := t.inbs[i].consumed;
    assert after[..|after| - 1] == s.inbs[i].consumed;
    assert EventsOf(s.serves[i].pubs) + [] == EventsOf(s.serves[i].pubs);
  }

  lemma SnapshotPublished(s: State, t: State, i: nat, order: seq<string>)
    requires Aligned(s) && i < |s.serves| && SnapshotStep(s, t, i, order) && PublishedOk(s.serves[i], s.inbs[i])
    ensures PublishedOk(t.serves[i], t.inbs[i])
  {
    assert EventsOf(t.serves[i].pubs) == EventsOf(s.serves[i].pubs) + [s.serves[i].pc.event];
    assert EventsOf(t.serves[i].pubs) + [] == EventsOf(t.serves[i].pubs);
  }

  lemma SubscriberPublished(s: State, t: State, i: nat)
    requires Aligned(s) && i < |s.serves| && SubscriberStep(s, t, i) && PublishedOk(s.serves[i], s.inbs[i])
    ensures PublishedOk(t.serves[i], t.inbs[i])
  {
    assert EventsOf(t.serves[i].pubs) == EventsOf(s.serves[i].pubs);
  }

  lemma EventPublished(s: State, t: State, i: nat)
    requires Aligned(s) && i < |s.serves| && EventStep(s, t, i) && PublishedOk(s.serves[i], s.inbs[i])
    ensures PublishedOk(t.serves[i], t.inbs[i])
  {
    assert EventsOf(t.serves[i].pubs) == EventsOf(s.serves[i].pubs);
  }

  lemma ServePublished(cfg: Config, s: State, t: State, i: nat, a: ServeAct)
    requires ServeNext(cfg, s, t, i, a) && ServeOk(s.serves[i]) && PublishedOk(s.serves[i], s.inbs[i])
    ensures i < |t.serves| && i < |t.inbs| && PublishedOk(t.serves[i], t.inbs[i])
  {
    if {
      case a.ReadHello? => HelloPublished(s, t, i);
      case a.ReadPublish? => FramePublished(s, t, i);
      case a.TakeSnapshot? => SnapshotPublished(s, t, i, a.order);
      case a.LookUpSubscriber? => SubscriberPublished(s, t, i);
      case a.QueueEvent? => EventPublished(s, t, i);
      case !a.ReadHello? && !a.ReadPublish? && !FanAct(a) =>
        ServePublishesNothing(cfg, s, t, i, a);
        NothingPublished(s.serves[i], t.serves[i], s.inbs[i], t.inbs[i]);
    }
  }

  lemma ServePublications(cfg: Config, s: State, t: State, i: nat, a: ServeAct)
    requires ServeNext(cfg, s, t, i, a) && StagesOk(s.serves, s.reg) && PublicationsOk(s)
    ensures PublicationsOk(t)
  {
    assert ServeOk(s.serves[i]) && PublishedOk(s.serves[i], s.inbs[i]);
    ServePublished(cfg, s, t, i, a);
    ServeTask(cfg, s, t, i, a);
  }

  lemma OutsidePublications(s: State, t: State)
    requires Outside(s, t) && PublicationsOk(s)
    ensures PublicationsOk(t)
  {
  }

  lemma StepPublications(cfg: Config, s: State, t: State, step: Step)
    requires Next(cfg, s, t, step) && Registered(s) && PublicationsOk(s)
    ensures PublicationsOk(t)
  {
    match step
    case ServeStep(i, a) => ServePublications(cfg, s, t, i, a);
    case CallStep(n, a) => CallTask(cfg, s, t, n, a);
    case _ => OutsideStep(cfg, s, t, step); OutsidePublications(s, t);
  }

  // ----- what a subscriber can rely on --------------------------------------------------------------------

  /** Publication number `k` of connection `i` is Publish frame number `k` of what was read from it. */
  lemma RecordIsFrame(s: State, i: nat, k: nat)
    requires PublicationsOk(s) && i < |s.serves| && k < |s.serves[i].pubs|
    ensures s.serves[i].hello.Some? && k < PublishCount(s.inbs[i].consumed)
    ensures var at := NthPublish(s.inbs[i].consumed, k);
            && at < |s.inbs[i].consumed| && s.inbs[i].consumed[at].Publish?
            && s.serves[i].pubs[k].event == Stamp(s.inbs[i].consumed[at].event, s.serves[i].hello.value.service)
  {
    var v, frames := s.serves[i], s.inbs[i].consumed;
    assert PublishedOk(v, s.inbs[i]);
    PublishedCount(frames, v.hello.value.service);
    assert |EventsOf(v.pubs)| == |v.pubs| && EventsOf(v.pubs)[k] == v.pubs[k].event;
    assert Published(frames, v.hello.value.service)[k] == EventsOf(v.pubs)[k];
    NthIsPublish(frames, v.hello.value.service, k);
  }

  /** The connection a logged event came from, and the position of its Publish frame among the frames read there. */
  function Origins(s: State, j: nat, a: nat): (nat, nat)
    requires j < |s.chans| && a < |s.chans[j].tags| && s.chans[j].tags[a].ByPublish?
    requires s.chans[j].tags[a].conn < |s.inbs|
  {
    var tag := s.chans[j].tags[a];
    (tag.conn, NthPublish(s.inbs[tag.conn].consumed, tag.publication))
  }

  ghost predicate IsEvent(s: State, j: nat, a: nat) {
    j < |s.chans| && a < |s.chans[j].tags| && s.chans[j].tags[a].ByPublish? && s.chans[j].tags[a].conn < |s.inbs|
  }

  /**
   * Event `a` in the log of connection `j` is a Publish frame that a connection of another service sent, unchanged but
   * for the sender's name, and the service of `j` was among those selected for it.
   */
  ghost predicate FromFrame(s: State, j: nat, a: nat) {
    && IsEvent(s, j, a) && j < |s.serves| && s.serves[j].hello.Some? && a < |s.chans[j].queued|
    && var (i, at) := Origins(s, j, a);
       && i < |s.serves| && s.serves[i].hello.Some? && at < |s.inbs[i].consumed| && s.inbs[i].consumed[at].Publish?
       && var me, you := s.serves[i].hello.value.service, s.serves[j].hello.value.service;
          && s.chans[j].queued[a] == EventFrame(Stamp(s.inbs[i].consumed[at].event, me)) && you != me
          && var n := PublishCount(s.inbs[i].consumed[..at]);
             n < |s.serves[i].pubs| && you in s.serves[i].pubs[n].targets
  }

  /** Every event in a log comes from a Publish frame. */
  lemma EventProvenance(s: State, j: nat, a: nat)
    requires EventsOk(s) && PublicationsOk(s) && j < |s.chans|
    requires a < |s.chans[j].tags| && s.chans[j].tags[a].ByPublish?
    ensures FromFrame(s, j, a)
  {
    EventIsRecorded(s, j, a);
    var tag := s.chans[j].tags[a];
    RecordIsFrame(s, tag.conn, tag.publication);
    NthIsPublish(s.inbs[tag.conn].consumed, "", tag.publication);
  }

  /** At most one event per Publish frame and subscribing service, even when the service reconnects meanwhile. */
  lemma OneEventPerService(s: State, i: nat, a: nat, j: nat, b: nat)
    requires EventsOk(s) && PublicationsOk(s) && Aligned(s) && IsEvent(s, i, a) && IsEvent(s, j, b)
    requires Origins(s, i, a) == Origins(s, j, b) && SameService(s, i, j)
    ensures i == j && a == b
  {
    var x, y := s.chans[i].tags[a], s.chans[j].tags[b];
    EventIsRecorded(s, i, a);
    EventIsRecorded(s, j, b);
    RecordIsFrame(s, x.conn, x.publication);
    RecordIsFrame(s, y.conn, y.publication);
    if x.publication < y.publication {
      NthOrder(s.inbs[x.conn].consumed, x.publication, y.publication);
    } else if y.publication < x.publication {
      NthOrder(s.inbs[x.conn].consumed, y.publication, x.publication);
    }
    OneEventPerRecord(s, i, a, j, b);
  }

  /** The events of one publishing connection reach a subscriber connection in the order their frames were sent. */
  lemma PublicationOrder(s: State, j: nat, a: nat, b: nat)
    requires EventsOk(s) && PublicationsOk(s) && IsEvent(s, j, a) && IsEvent(s, j, b) && a < b
    requires Origins(s, j, a).0 == Origins(s, j, b).0
    ensures Origins(s, j, a).1 < Origins(s, j, b).1
  {
    var x, y := s.chans[j].tags[a], s.chans[j].tags[b];
    EventIsRecorded(s, j, a);
    EventIsRecorded(s, j, b);
    RecordOrder(s, j, a, b);
    RecordIsFrame(s, x.conn, y.publication);
    NthOrder(s.inbs[x.conn].consumed, x.publication, y.publication);
  }

  /**
   * Publish frame `at` read from connection `i` is in hand, or it is recorded and, once its fan-out is over, each
   * service selected for it was found unregistered or had the event queued on the connection registered then.
   */
  predicate FannedOut(s: State, i: nat, at: nat)
    requires i < |s.serves| && s.serves[i].hello.Some? && i < |s.inbs|
    requires at < |s.inbs[i].consumed| && s.inbs[i].consumed[at].Publish?
  {
    var v, n := s.serves[i], PublishCount(s.inbs[i].consumed[..at]);
    var e := Stamp(s.inbs[i].consumed[at].event, v.hello.value.service);
    if n < |v.pubs| then
      && v.pubs[n].event == e
      && (Remaining(v.pc, n) == [] ==>
            forall svc :: svc in v.pubs[n].targets ==>
              svc in v.pubs[n].skipped
              || (svc in v.pubs[n].served && EventQueued(s, i, n, v.pubs[n].served[svc])))
    else
      n == |v.pubs| && v.pc == Snapshot(e)
  }

  /** No Publish frame is lost. */
  lemma PublishedToAll(s: State, i: nat, at: nat)
    requires PublicationsOk(s) && FanoutOk(s) && i < |s.serves| && s.serves[i].hello.Some?
    requires at < |s.inbs[i].consumed| && s.inbs[i].consumed[at].Publish?
    ensures FannedOut(s, i, at)
  {
    var v, frames, me := s.serves[i], s.inbs[i].consumed, s.serves[i].hello.value.service;
    var n := PublishCount(frames[..at]);
    assert PublishedOk(v, s.inbs[i]);
    PublishedCount(frames, me);
    NumberOfPublish(frames, at);
    NthIsPublish(frames, me, n);
    assert |EventsOf(v.pubs) + Held(v.pc)| == |v.pubs| + |Held(v.pc)|;
    if n < |v.pubs| {
      RecordIsFrame(s, i, n);
      if Remaining(v.pc, n) == [] {
        forall svc | svc in v.pubs[n].targets
          ensures svc in v.pubs[n].skipped
                  || (svc in v.pubs[n].served && EventQueued(s, i, n, v.pubs[n].served[svc]))
        {
          FanoutComplete(s, i, n, svc);
        }
      }
    } else {
      assert (EventsOf(v.pubs) + Held(v.pc))[n] == Held(v.pc)[0];
    }
  }
}
