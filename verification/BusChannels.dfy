/**
 * Every connection refines a FIFO: what the peer has read is a prefix of the ack followed by the frames the channel
 * accepted, in order, and nothing is lost while the writer runs.
 */
module BusChannels {
  import opened Prelude
  import opened Frames
  import opened Connection
  import opened Bus
  import opened BusRegistration
  import Client = ClientState

  // ----- one channel -------------------------------------------------------------------------

  predicate ChannelOk(ch: Channel) {
    && |ch.tags| == |ch.queued| && |ch.head| <= 1
    && (ch.head == [] ==> ch.delivered == [] && ch.wire == [])
    && (ch.writing ==> ch.open && |ch.head| == 1 && ch.delivered + ch.wire + ch.queue == ch.head + ch.queued)
    && (ch.open && !ch.writing ==> ch.head == [] && ch.queue == ch.queued)
    && (!ch.open ==> !ch.writing && ch.queue == [] && ch.delivered + ch.wire <= ch.head + ch.queued)
  }

  lemma PushOk(ch: Channel, f: BusFrame, by_: Sender)
    requires ChannelOk(ch)
    ensures ChannelOk(Push(ch, f, by_))
  {
    assert ch.delivered + ch.wire + (ch.queue + [f]) == (ch.delivered + ch.wire + ch.queue) + [f];
    assert ch.head + (ch.queued + [f]) == (ch.head + ch.queued) + [f];
  }

  lemma StartWriterOk(ch: Channel, ack: BusFrame)
    requires ChannelOk(ch) && ch.open && !ch.writing
    ensures ChannelOk(StartWriter(ch, ack))
  {
  }

  lemma CloseOk(ch: Channel)
    requires ChannelOk(ch)
    ensures ChannelOk(Close(ch))
  {
  }

  lemma DeliverOk(ch: Channel)
    requires ChannelOk(ch) && ch.wire != []
    ensures ChannelOk(Deliver(ch))
  {
  }

  // ----- channel and `serve` together -------------------------------------------------------------

  /** Before the channel exists nothing has been written; until the ack, frames only queue up. */
  predicate StageChannelOk(v: Serve, ch: Channel) {
    && (Rank(v.pc) <= 2 ==> ch == NEW_CHANNEL)
    && (3 <= Rank(v.pc) <= 5 ==> ch.open && !ch.writing)
    && (v.pc == Returned ==> !ch.open)
  }

  predicate AckOk(v: Serve, ch: Channel, heartbeatMs: nat) {
    v.generation > 0 && ch.head != [] ==> ch.head == [HelloAck(v.clientId, heartbeatMs)]
  }

  predicate PipeOk(v: Serve, ch: Channel, heartbeatMs: nat) {
    ChannelOk(ch) && StageChannelOk(v, ch) && AckOk(v, ch, heartbeatMs)
  }

  ghost predicate ChannelsOk(cfg: Config, s: State) {
    |s.chans| == |s.serves| && forall i :: 0 <= i < |s.serves| ==> PipeOk(s.serves[i], s.chans[i], cfg.heartbeatMs)
  }

  lemma PushPipe(v: Serve, ch: Channel, hb: nat, f: BusFrame, by_: Sender)
    requires PipeOk(v, ch, hb)
    ensures PipeOk(v, Push(ch, f, by_), hb)
  {
    PushOk(ch, f, by_);
  }

  lemma QueuePipes(cfg: Config, s: State, t: State, n: nat, a: CallAct)
    requires CallNext(cfg, s, t, n, a) && ChannelsOk(cfg, s)
    ensures ChannelsOk(cfg, t)
  {
    forall i | 0 <= i < |t.serves|
      ensures PipeOk(t.serves[i], t.chans[i], cfg.heartbeatMs)
    {
      assert PipeOk(s.serves[i], s.chans[i], cfg.heartbeatMs);
      var k := s.calls[n];
      if a.QueueInvoke? {
        PushPipe(s.serves[i], s.chans[i], cfg.heartbeatMs,
                 InvokeFrame(Invoke(k.reqId, k.methodName, k.payload, k.caller)), ByCall(n));
      } else if a.QueueReply? {
        PushPipe(s.serves[i], s.chans[i], cfg.heartbeatMs,
                 ResponseFrame(k.origin.reqId, ReplyOf(k.outcome.value)), ByRoute(n));
      }
    }
  }

  lemma WirePipes(cfg: Config, s: State, t: State, i: nat, a: WireAct)
    requires WireNext(s, t, i, a) && ChannelsOk(cfg, s)
    ensures ChannelsOk(cfg, t)
  {
  }

  lemma PeerChannel(s: State, t: State, i: nat, a: AppAct)
    requires AppNext(s, t, i, a)
    ensures t.serves == s.serves && t.chans == s.chans[i := t.chans[i]]
    ensures t.chans[i] == s.chans[i] || (s.chans[i].wire != [] && t.chans[i] == Deliver(s.chans[i]))
  {
  }

  lemma AppPipes(cfg: Config, s: State, t: State, i: nat, a: AppAct)
    requires AppNext(s, t, i, a) && ChannelsOk(cfg, s)
    ensures ChannelsOk(cfg, t)
  {
    PeerChannel(s, t, i, a);
    assert PipeOk(s.serves[i], s.chans[i], cfg.heartbeatMs);
    if t.chans[i] != s.chans[i] {
      DeliverOk(s.chans[i]);
    }
  }

  predicate ChannelAct(a: ServeAct) {
    a.ReadHello? || a.SpendHelloToken? || a.IdentifyClient? || a.NumberEntry? || a.AckWritten? || a.QueueEvent?
    || a.ReturnFromServe?
  }

  lemma OtherServePipes(cfg: Config, s: State, t: State, i: nat, a: ServeAct)
    requires ServeNext(cfg, s, t, i, a) && !ChannelAct(a)
    ensures t.chans == s.chans && i < |t.serves| && t.serves == s.serves[i := t.serves[i]]
    ensures t.serves[i].pc != Returned
  {
  }

  /** Such a step keeps the ids, and moves within the points up to the ack or past it. */
  predicate SameStage(v: Serve, w: Serve) {
    && w.generation == v.generation && w.clientId == v.clientId
    && (Rank(w.pc) <= 2 ==> Rank(v.pc) <= 2) && (3 <= Rank(w.pc) <= 5 ==> 3 <= Rank(v.pc) <= 5)
    && w.pc != Returned
  }

  lemma OtherServeIds(cfg: Config, s: State, t: State, i: nat, a: ServeAct)
    requires ServeNext(cfg, s, t, i, a) && !ChannelAct(a)
    ensures i < |t.serves|
    ensures t.serves[i].generation == s.serves[i].generation && t.serves[i].clientId == s.serves[i].clientId
  {
  }

  lemma EventPipes(cfg: Config, s: State, t: State, i: nat)
    requires Aligned(s) && i < |s.serves| && EventStep(s, t, i) && ChannelsOk(cfg, s)
    ensures ChannelsOk(cfg, t)
  {
    var FanSend(ev, n, _, tx, _) := s.serves[i].pc;
    forall j | 0 <= j < |t.serves|
      ensures PipeOk(t.serves[j], t.chans[j], cfg.heartbeatMs)
    {
      assert PipeOk(s.serves[j], s.chans[j], cfg.heartbeatMs);
      PushPipe(s.serves[j], s.chans[j], cfg.heartbeatMs, EventFrame(ev), ByPublish(i, n));
    }
  }

  lemma HelloPipe(cfg: Config, s: State, t: State, i: nat, a: ServeAct)
    requires ServeNext(cfg, s, t, i, a) && (a.ReadHello? || a.SpendHelloToken?) && ChannelsOk(cfg, s)
    requires StagesOk(s.serves, s.reg)
    ensures ChannelsOk(cfg, t)
  {
    assert PipeOk(s.serves[i], s.chans[i], cfg.heartbeatMs) && ServeOk(s.serves[i]);
  }

  lemma OpenPipe(cfg: Config, s: State, t: State, i: nat, a: ServeAct)
    requires ServeNext(cfg, s, t, i, a) && (a.IdentifyClient? || a.NumberEntry?) && ChannelsOk(cfg, s)
    ensures ChannelsOk(cfg, t)
  {
    assert PipeOk(s.serves[i], s.chans[i], cfg.heartbeatMs);
  }

  lemma AckPipe(cfg: Config, s: State, t: State, i: nat, a: ServeAct)
    requires ServeNext(cfg, s, t, i, a) && (a.AckWritten? || a.ReturnFromServe?) && ChannelsOk(cfg, s)
    ensures ChannelsOk(cfg, t)
  {
    assert PipeOk(s.serves[i], s.chans[i], cfg.heartbeatMs);
    if a.AckWritten? {
      StartWriterOk(s.chans[i], HelloAck(s.serves[i].clientId, cfg.heartbeatMs));
    } else {
      CloseOk(s.chans[i]);
    }
  }

  lemma ServePipes(cfg: Config, s: State, t: State, i: nat, a: ServeAct)
    requires ServeNext(cfg, s, t, i, a) && ChannelsOk(cfg, s) && StagesOk(s.serves, s.reg)
    ensures ChannelsOk(cfg, t)
  {
    if {
      case a.ReadHello? || a.SpendHelloToken? => HelloPipe(cfg, s, t, i, a);
      case a.IdentifyClient? || a.NumberEntry? => OpenPipe(cfg, s, t, i, a);
      case a.AckWritten? || a.ReturnFromServe? => AckPipe(cfg, s, t, i, a);
      case a.QueueEvent? => EventPipes(cfg, s, t, i);
      case !ChannelAct(a) => UntouchedPipes(cfg, s, t, i, a);
    }
  }

  lemma UntouchedPipes(cfg: Config, s: State, t: State, i: nat, a: ServeAct)
    requires ServeNext(cfg, s, t, i, a) && !ChannelAct(a) && ChannelsOk(cfg, s)
    ensures ChannelsOk(cfg, t)
  {
    OtherServePipes(cfg, s, t, i, a);
    OtherServeIds(cfg, s, t, i, a);
    ServeFrom(cfg, s, t, i, a);
    ServeTo(cfg, s, t, i, a);
    StagePipes(cfg, s, t, i);
  }

  lemma StagePipes(cfg: Config, s: State, t: State, i: nat)
    requires ChannelsOk(cfg, s) && i < |s.serves| && t.chans == s.chans
    requires i < |t.serves| && t.serves == s.serves[i := t.serves[i]] && SameStage(s.serves[i], t.serves[i])
    ensures ChannelsOk(cfg, t)
  {
  }

  lemma HostPipes(cfg: Config, s: State, t: State, a: HostAct)
    requires HostNext(s, t, a) && ChannelsOk(cfg, s)
    ensures ChannelsOk(cfg, t)
  {
  }

  lemma StepChannels(cfg: Config, s: State, t: State, step: Step)
    requires Next(cfg, s, t, step) && Registered(s) && ChannelsOk(cfg, s)
    ensures ChannelsOk(cfg, t)
  {
    match step
    case HostStep(a) => HostPipes(cfg, s, t, a);
    case WireStep(i, a) => WirePipes(cfg, s, t, i, a);
    case AppStep(i, a) => AppPipes(cfg, s, t, i, a);
    case CallStep(n, a) => QueuePipes(cfg, s, t, n, a);
    case ServeStep(i, a) => ServePipes(cfg, s, t, i, a);
  }

  // ----- the FIFO that a peer sees ------------------------------------------------------------------

  /**
   * The peer has read a prefix of the ack followed by the queued frames; while the writer runs everything else is still
   * on its way, and before that nothing has been read.
   */
  predicate ReadsPrefix(ch: Channel, ack: BusFrame) {
    && ch.delivered <= [ack] + ch.queued
    && (ch.writing ==> ch.delivered + ch.wire + ch.queue == [ack] + ch.queued)
    && (ch.open && !ch.writing ==> ch.delivered == [] && ch.queue == ch.queued)
  }

  /** An admitted peer reads the ack first and then the queued frames in order. */
  lemma PeerReadsPrefix(cfg: Config, s: State, i: nat)
    requires ChannelsOk(cfg, s) && i < |s.serves| && s.serves[i].generation > 0
    ensures ReadsPrefix(s.chans[i], HelloAck(s.serves[i].clientId, cfg.heartbeatMs))
  {
  }
}
