/**
 * One `BusClient` and its half of the connection: what it has sent and why, what it has read and what became of it.
 */
module ClientInvariants {
  import opened Prelude
  import opened Frames
  import opened Connection
  import opened ClientState

  // ----- the outbound half ------------------------------------------------------------------------

  /** What `serve` has read and will read is a prefix of what was sent; without a cut nothing is missing. */
  predicate OutboundOk(x: AppClient, inb: Inbound) {
    && |x.why| == |x.sent|
    && inb.consumed + inb.stream <= x.sent
    && (!inb.cut ==> inb.consumed + inb.stream + x.tx == x.sent)
    && (x.phase.Start? ==> x.sent == [])
    && (x.txOpen ==> x.phase.Running?)
    && (!x.txOpen ==> x.tx == [])
  }

  /** Why a frame was sent determines the frame. */
  predicate CauseOk(x: AppClient, why: Cause, f: BusFrame) {
    match why
    case Handshake => f == Hello(x.hello)
    case ByInvoke(n) => n < |x.invokes| && x.invokes[n].pc.Waiting? && f == InvokeFrame(WireInvoke(x.invokes[n]))
    case ByDispatch(d) =>
      d < |x.dispatches| && x.dispatches[d].reply.Some?
      && f == ResponseFrame(x.dispatches[d].reqId, x.dispatches[d].reply.value)
    case Plain => !f.Hello? && !f.InvokeFrame? && !f.ResponseFrame?
  }

  ghost predicate CausesOk(x: AppClient) {
    && |x.why| == |x.sent|
    && (forall k :: 0 <= k < |x.why| ==> CauseOk(x, x.why[k], x.sent[k]))
    && (forall k, l :: 0 <= k < l < |x.why| && x.why[k] == x.why[l] ==> x.why[k].Plain?)
  }

  // ----- outbound calls ------------------------------------------------------------------------------

  predicate InvokeIdOk(x: AppClient, n: nat)
    requires n < |x.invokes|
  {
    x.invokes[n].reqId == n + 1
  }

  ghost predicate InvokeIdsOk(x: AppClient) {
    && x.nextReqId == |x.invokes| + 1
    && forall n :: 0 <= n < |x.invokes| ==> InvokeIdOk(x, n)
  }

  /** A pending id leads to the call that drew it. */
  predicate PendingEntryOk(x: AppClient, r: nat)
    requires r in x.pending
  {
    && x.pending[r] < |x.invokes| && x.invokes[x.pending[r]].reqId == r
    && !x.invokes[x.pending[r]].pc.Allocated? && x.invokes[x.pending[r]].slot.None?
  }

  /** A filled oneshot was filled by a Response with the call's own id; a call waiting for one is pending. */
  predicate ReplySlotOk(x: AppClient, n: nat, delivered: seq<BusFrame>)
    requires n < |x.invokes|
  {
    var k := x.invokes[n];
    && (k.slot.Some? ==> 1 <= k.at < |delivered| && delivered[k.at] == ResponseFrame(k.reqId, k.slot.value))
    && ((k.pc.Inserted? || k.pc.Waiting?) && k.slot.None? ==> k.reqId in x.pending && x.pending[k.reqId] == n)
    && (k.pc.Allocated? ==> k.slot.None?)
  }

  ghost predicate PendingsOk(x: AppClient, delivered: seq<BusFrame>) {
    && (forall r :: r in x.pending ==> PendingEntryOk(x, r))
    && (forall n :: 0 <= n < |x.invokes| ==> ReplySlotOk(x, n, delivered))
  }

  // ----- inbound calls ---------------------------------------------------------------------------------

  /** A dispatch task runs exactly the Invoke it was spawned for, and its scope starts with that caller's user. */
  predicate DispatchOk(k: Dispatch, delivered: seq<BusFrame>) {
    && 1 <= k.at < |delivered|
    && delivered[k.at] == InvokeFrame(Invoke(k.reqId, k.methodName, k.payload, k.caller))
    && (!k.userSet ==> k.user == k.caller.userId)
  }

  /** Dispatch tasks were spawned in reading order, one per Invoke. */
  ghost predicate DispatchesOk(x: AppClient, delivered: seq<BusFrame>) {
    && (forall d :: 0 <= d < |x.dispatches| ==> DispatchOk(x.dispatches[d], delivered))
    && (forall d, e :: 0 <= d < e < |x.dispatches| ==> x.dispatches[d].at < x.dispatches[e].at)
  }

  /** A call made with `auto_caller` in a dispatch whose scope was not overwritten carries that dispatch's user. */
  predicate ContextOk(x: AppClient, k: ClientCall) {
    && (k.parent.Some? ==> k.parent.value < |x.dispatches|)
    && (k.parent.Some? && k.auto && !x.dispatches[k.parent.value].userSet ==>
          k.caller.userId == x.dispatches[k.parent.value].caller.userId)
  }

  ghost predicate ContextsOk(x: AppClient) {
    forall n :: 0 <= n < |x.invokes| ==> ContextOk(x, x.invokes[n])
  }

  // ----- the handshake ---------------------------------------------------------------------------------

  /** A Shutdown has been read after the ack. */
  predicate ShutdownRead(delivered: seq<BusFrame>) {
    exists at :: 1 <= at < |delivered| && delivered[at].Shutdown?
  }

  /** While the client runs, its shutdown signal has fired exactly when the broker has asked for it. */
  predicate ShutdownOk(x: AppClient, delivered: seq<BusFrame>) {
    && (x.phase.Start? || x.phase.AwaitAck? ==> !x.shutdownFired)
    && (x.phase.Running? ==> (x.shutdownFired <==> ShutdownRead(delivered)))
  }

  predicate HandshakeOk(x: AppClient, delivered: seq<BusFrame>) {
    && (x.phase.Start? || x.phase.AwaitAck? ==>
          delivered == [] && x.invokes == [] && x.dispatches == [] && x.pending == map[])
    && (x.phase.Running? ==> |delivered| >= 1)
  }

  ghost predicate ClientCore(x: AppClient, inb: Inbound, delivered: seq<BusFrame>) {
    && OutboundOk(x, inb) && CausesOk(x) && InvokeIdsOk(x) && PendingsOk(x, delivered)
    && DispatchesOk(x, delivered) && ContextsOk(x) && HandshakeOk(x, delivered)
  }

  ghost predicate ClientOk(x: AppClient, inb: Inbound, delivered: seq<BusFrame>) {
    ClientCore(x, inb, delivered) && ShutdownOk(x, delivered)
  }

  // ----- sending a frame --------------------------------------------------------------------------------

  lemma SendOutbound(x: AppClient, inb: Inbound, f: BusFrame, why: Cause)
    requires OutboundOk(x, inb)
    ensures OutboundOk(SendFrame(x, f, why), inb)
  {
  }

  /** Appending a frame with a new cause. */
  lemma SendCauses(x: AppClient, f: BusFrame, why: Cause)
    requires CausesOk(x) && (x.txOpen ==> CauseOk(x, why, f) && (why.Plain? || why !in x.why))
    ensures CausesOk(SendFrame(x, f, why))
  {
  }

  // ----- steps of the client -------------------------------------------------------------------------------

  lemma PlainSend(x: AppClient, inb: Inbound, delivered: seq<BusFrame>, f: BusFrame)
    requires ClientOk(x, inb, delivered) && !f.Hello? && !f.InvokeFrame? && !f.ResponseFrame?
    ensures ClientOk(SendFrame(x, f, Plain), inb, delivered)
  {
    SendOutbound(x, inb, f, Plain);
    SendCauses(x, f, Plain);
    SendKeepsCalls(x, delivered, f, Plain);
  }

  lemma SendKeepsCalls(x: AppClient, delivered: seq<BusFrame>, f: BusFrame, why: Cause)
    requires InvokeIdsOk(x) && PendingsOk(x, delivered) && DispatchesOk(x, delivered) && ContextsOk(x)
    requires HandshakeOk(x, delivered)
    ensures var y := SendFrame(x, f, why);
            InvokeIdsOk(y) && PendingsOk(y, delivered) && DispatchesOk(y, delivered) && ContextsOk(y)
            && HandshakeOk(y, delivered)
  {
    var y := SendFrame(x, f, why);
    forall n | 0 <= n < |y.invokes|
      ensures InvokeIdOk(y, n) && ReplySlotOk(y, n, delivered) && ContextOk(y, y.invokes[n])
    {
      assert InvokeIdOk(x, n) && ReplySlotOk(x, n, delivered) && ContextOk(x, x.invokes[n]);
    }
    forall r | r in y.pending
      ensures PendingEntryOk(y, r)
    {
      assert PendingEntryOk(x, r);
    }
  }

  lemma BeginInvokeOk(x: AppClient, inb: Inbound, delivered: seq<BusFrame>, k: ClientCall)
    requires ClientOk(x, inb, delivered) && ContextOk(x, k) && !x.phase.Start? && !x.phase.AwaitAck?
    ensures ClientOk(BeginInvoke(x, k), inb, delivered)
  {
    var y := BeginInvoke(x, k);
    forall l | 0 <= l < |y.why|
      ensures CauseOk(y, y.why[l], y.sent[l])
    {
      assert CauseOk(x, x.why[l], x.sent[l]);
    }
    forall n | 0 <= n < |y.invokes|
      ensures InvokeIdOk(y, n) && ReplySlotOk(y, n, delivered) && ContextOk(y, y.invokes[n])
    {
      if n < |x.invokes| {
        assert InvokeIdOk(x, n) && ReplySlotOk(x, n, delivered) && ContextOk(x, x.invokes[n]);
      }
    }
    forall r | r in y.pending
      ensures PendingEntryOk(y, r)
    {
      assert PendingEntryOk(x, r);
    }
  }

  lemma RegisterInvokeOk(x: AppClient, inb: Inbound, delivered: seq<BusFrame>, m: nat)
    requires ClientOk(x, inb, delivered) && m < |x.invokes| && x.invokes[m].pc.Allocated?
    ensures ClientOk(InsertPendingInvoke(x, m), inb, delivered)
  {
    var y := InsertPendingInvoke(x, m);
    assert InvokeIdOk(x, m) && ReplySlotOk(x, m, delivered) && ContextOk(x, x.invokes[m]);
    forall l | 0 <= l < |y.why|
      ensures CauseOk(y, y.why[l], y.sent[l])
    {
      assert CauseOk(x, x.why[l], x.sent[l]);
    }
    forall n | 0 <= n < |y.invokes|
      ensures InvokeIdOk(y, n) && ReplySlotOk(y, n, delivered) && ContextOk(y, y.invokes[n])
    {
      assert InvokeIdOk(x, n) && ReplySlotOk(x, n, delivered) && ContextOk(x, x.invokes[n]);
    }
    forall r | r in y.pending
      ensures PendingEntryOk(y, r)
    {
      if r != x.invokes[m].reqId {
        assert PendingEntryOk(x, r);
        assert InvokeIdOk(x, x.pending[r]);
      }
    }
  }

  lemma QueueInvokeOk(x: AppClient, inb: Inbound, delivered: seq<BusFrame>, m: nat)
    requires ClientOk(x, inb, delivered) && m < |x.invokes| && x.invokes[m].pc.Inserted?
    ensures ClientOk(QueueInvokeFrame(x, m), inb, delivered)
  {
    var k := x.invokes[m];
    var f := InvokeFrame(WireInvoke(k));
    var mid := x.(invokes := x.invokes[m := k.(pc := if x.txOpen then Waiting else SendFailed)]);
    MovedInvokeOk(x, inb, delivered, m, mid);
    assert QueueInvokeFrame(x, m) == SendFrame(mid, f, ByInvoke(m));
    forall l | 0 <= l < |x.why|
      ensures x.why[l] != ByInvoke(m)
    {
      assert CauseOk(x, x.why[l], x.sent[l]);
    }
    SendOutbound(mid, inb, f, ByInvoke(m));
    SendCauses(mid, f, ByInvoke(m));
    SendKeepsCalls(mid, delivered, f, ByInvoke(m));
  }

  lemma MovedInvokeOk(x: AppClient, inb: Inbound, delivered: seq<BusFrame>, m: nat, y: AppClient)
    requires ClientOk(x, inb, delivered) && m < |x.invokes| && x.invokes[m].pc.Inserted?
    requires y == x.(invokes := x.invokes[m := x.invokes[m].(pc := if x.txOpen then Waiting else SendFailed)])
    ensures ClientOk(y, inb, delivered)
  {
    forall l | 0 <= l < |y.why|
      ensures CauseOk(y, y.why[l], y.sent[l])
    {
      assert CauseOk(x, x.why[l], x.sent[l]);
    }
    forall n | 0 <= n < |y.invokes|
      ensures InvokeIdOk(y, n) && ReplySlotOk(y, n, delivered) && ContextOk(y, y.invokes[n])
    {
      assert InvokeIdOk(x, n) && ReplySlotOk(x, n, delivered) && ContextOk(x, x.invokes[n]);
    }
    forall r | r in y.pending
      ensures PendingEntryOk(y, r)
    {
      assert PendingEntryOk(x, r);
    }
  }

  lemma ChangeUserOk(x: AppClient, inb: Inbound, delivered: seq<BusFrame>, m: nat, user: Option<string>)
    requires ClientOk(x, inb, delivered) && m < |x.dispatches|
    ensures ClientOk(SetUser(x, m, user), inb, delivered)
  {
    var y := SetUser(x, m, user);
    MovedDispatchOk(x, inb, delivered, m, y);
  }

  /** A dispatch moved on without changing what it was spawned for. */
  lemma MovedDispatchOk(x: AppClient, inb: Inbound, delivered: seq<BusFrame>, m: nat, y: AppClient)
    requires ClientOk(x, inb, delivered) && m < |x.dispatches| && m < |y.dispatches|
    requires y == x.(dispatches := x.dispatches[m := y.dispatches[m]])
    requires var k, l := x.dispatches[m], y.dispatches[m];
             && l.reqId == k.reqId && l.methodName == k.methodName && l.payload == k.payload
             && l.caller == k.caller && l.at == k.at && (k.userSet ==> l.userSet)
             && (k.reply.Some? ==> l.reply == k.reply) && (!l.userSet ==> l.user == k.user)
    ensures ClientOk(y, inb, delivered)
  {
    forall l | 0 <= l < |y.why|
      ensures CauseOk(y, y.why[l], y.sent[l])
    {
      assert CauseOk(x, x.why[l], x.sent[l]);
    }
    forall n | 0 <= n < |y.invokes|
      ensures InvokeIdOk(y, n) && ReplySlotOk(y, n, delivered) && ContextOk(y, y.invokes[n])
    {
      assert InvokeIdOk(x, n) && ReplySlotOk(x, n, delivered) && ContextOk(x, x.invokes[n]);
    }
    forall r | r in y.pending
      ensures PendingEntryOk(y, r)
    {
      assert PendingEntryOk(x, r);
    }
    forall d | 0 <= d < |y.dispatches|
      ensures DispatchOk(y.dispatches[d], delivered)
    {
      assert DispatchOk(x.dispatches[d], delivered);
    }
  }

  lemma AnswerOk(x: AppClient, inb: Inbound, delivered: seq<BusFrame>, m: nat, reply: Reply)
    requires ClientOk(x, inb, delivered) && MayAnswer(x, m, reply)
    ensures ClientOk(FinishDispatch(x, m, reply), inb, delivered)
  {
    var k := x.dispatches[m];
    var mid := x.(dispatches := x.dispatches[m := k.(reply := Some(reply))]);
    MovedDispatchOk(x, inb, delivered, m, mid);
    var f := ResponseFrame(k.reqId, reply);
    assert FinishDispatch(x, m, reply) == SendFrame(mid, f, ByDispatch(m));
    forall l | 0 <= l < |x.why|
      ensures x.why[l] != ByDispatch(m)
    {
      assert CauseOk(x, x.why[l], x.sent[l]);
    }
    SendOutbound(mid, inb, f, ByDispatch(m));
    SendCauses(mid, f, ByDispatch(m));
    SendKeepsCalls(mid, delivered, f, ByDispatch(m));
  }

  // ----- reading ---------------------------------------------------------------------------------------------

  /** Reading one more frame keeps everything that does not depend on it. */
  lemma MoreShutdown(delivered: seq<BusFrame>, f: BusFrame)
    requires !f.Shutdown?
    ensures ShutdownRead(delivered + [f]) <==> ShutdownRead(delivered)
  {
    if at :| 1 <= at < |delivered| && delivered[at].Shutdown? {
      assert (delivered + [f])[at].Shutdown?;
    }
  }

  lemma MoreDelivered(x: AppClient, inb: Inbound, delivered: seq<BusFrame>, f: BusFrame)
    requires ClientOk(x, inb, delivered) && !x.phase.Start? && !x.phase.AwaitAck?
    ensures ClientCore(x, inb, delivered + [f]) && (!f.Shutdown? ==> ClientOk(x, inb, delivered + [f]))
  {
    if !f.Shutdown? {
      MoreShutdown(delivered, f);
    }
    forall n | 0 <= n < |x.invokes|
      ensures ReplySlotOk(x, n, delivered + [f])
    {
      assert ReplySlotOk(x, n, delivered);
    }
    forall d | 0 <= d < |x.dispatches|
      ensures DispatchOk(x.dispatches[d], delivered + [f])
    {
      assert DispatchOk(x.dispatches[d], delivered);
    }
  }

  lemma SpawnDispatchOk(x: AppClient, inb: Inbound, delivered: seq<BusFrame>, inv: Invoke)
    requires ClientOk(x, inb, delivered) && x.phase.Running?
    ensures ClientOk(HandleInbound(x, InvokeFrame(inv), |delivered|), inb, delivered + [InvokeFrame(inv)])
  {
    MoreDelivered(x, inb, delivered, InvokeFrame(inv));
    var y := HandleInbound(x, InvokeFrame(inv), |delivered|);
    var after := delivered + [InvokeFrame(inv)];
    forall l | 0 <= l < |y.why|
      ensures CauseOk(y, y.why[l], y.sent[l])
    {
      assert CauseOk(x, x.why[l], x.sent[l]);
    }
    forall n | 0 <= n < |y.invokes|
      ensures InvokeIdOk(y, n) && ReplySlotOk(y, n, after) && ContextOk(y, y.invokes[n])
    {
      assert InvokeIdOk(x, n) && ReplySlotOk(x, n, after) && ContextOk(x, x.invokes[n]);
    }
    forall r | r in y.pending
      ensures PendingEntryOk(y, r)
    {
      assert PendingEntryOk(x, r);
    }
    forall d | 0 <= d < |y.dispatches|
      ensures DispatchOk(y.dispatches[d], after)
    {
      assert d < |x.dispatches| ==> DispatchOk(x.dispatches[d], delivered);
    }
    forall d, e | 0 <= d < e < |y.dispatches|
      ensures y.dispatches[d].at < y.dispatches[e].at
    {
      assert DispatchOk(x.dispatches[d], delivered);
    }
  }

  lemma FillSlotOk(x: AppClient, inb: Inbound, delivered: seq<BusFrame>, r: nat, reply: Reply)
    requires ClientOk(x, inb, delivered) && x.phase.Running?
    ensures ClientOk(HandleInbound(x, ResponseFrame(r, reply), |delivered|), inb, delivered + [ResponseFrame(r, reply)])
  {
    MoreDelivered(x, inb, delivered, ResponseFrame(r, reply));
    if r in x.pending {
      FillPendingOk(x, inb, delivered, r, reply);
    }
  }

  /** After the reply is filed, every oneshot is still accounted for. */
  lemma FilledSlot(x: AppClient, delivered: seq<BusFrame>, r: nat, reply: Reply, n: nat)
    requires InvokeIdsOk(x) && PendingsOk(x, delivered) && r in x.pending && n < |x.invokes| && |delivered| >= 1
    ensures var y := HandleInbound(x, ResponseFrame(r, reply), |delivered|);
            n < |y.invokes| && InvokeIdOk(y, n) && ReplySlotOk(y, n, delivered + [ResponseFrame(r, reply)])
  {
    var m := x.pending[r];
    assert PendingEntryOk(x, r) && InvokeIdOk(x, m) && InvokeIdOk(x, n) && ReplySlotOk(x, n, delivered);
  }

  lemma FilledPendings(x: AppClient, delivered: seq<BusFrame>, r: nat, reply: Reply)
    requires InvokeIdsOk(x) && PendingsOk(x, delivered) && r in x.pending && |delivered| >= 1
    ensures var y := HandleInbound(x, ResponseFrame(r, reply), |delivered|);
            InvokeIdsOk(y) && PendingsOk(y, delivered + [ResponseFrame(r, reply)])
  {
    var y := HandleInbound(x, ResponseFrame(r, reply), |delivered|);
    assert PendingEntryOk(x, r);
    forall q | q in y.pending
      ensures PendingEntryOk(y, q)
    {
      assert PendingEntryOk(x, q);
    }
    forall n | 0 <= n < |y.invokes|
      ensures InvokeIdOk(y, n) && ReplySlotOk(y, n, delivered + [ResponseFrame(r, reply)])
    {
      FilledSlot(x, delivered, r, reply, n);
    }
  }

  lemma FilledCauses(x: AppClient, y: AppClient, m: nat, reply: Reply, at: nat)
    requires CausesOk(x) && ContextsOk(x) && m < |x.invokes|
    requires y == x.(pending := y.pending, invokes := x.invokes[m := x.invokes[m].(slot := Some(reply), at := at)])
    ensures CausesOk(y) && ContextsOk(y)
  {
  }

  lemma FillPendingOk(x: AppClient, inb: Inbound, delivered: seq<BusFrame>, r: nat, reply: Reply)
    requires ClientOk(x, inb, delivered) && x.phase.Running? && r in x.pending
    ensures ClientOk(HandleInbound(x, ResponseFrame(r, reply), |delivered|), inb, delivered + [ResponseFrame(r, reply)])
  {
    var y := HandleInbound(x, ResponseFrame(r, reply), |delivered|);
    assert PendingEntryOk(x, r);
    MoreDelivered(x, inb, delivered, ResponseFrame(r, reply));
    FilledPendings(x, delivered, r, reply);
    if !x.invokes[x.pending[r]].pc.SendFailed? {
      FilledCauses(x, y, x.pending[r], reply, |delivered|);
    }
  }

  lemma ReadOk(x: AppClient, inb: Inbound, delivered: seq<BusFrame>, f: BusFrame)
    requires ClientOk(x, inb, delivered) && x.phase.Running?
    ensures ClientOk(HandleInbound(x, f, |delivered|), inb, delivered + [f])
  {
    match f
    case InvokeFrame(inv) => SpawnDispatchOk(x, inb, delivered, inv);
    case ResponseFrame(r, reply) => FillSlotOk(x, inb, delivered, r, reply);
    case Ping =>
      MoreDelivered(x, inb, delivered, f);
      PlainSend(x, inb, delivered + [f], Pong);
    case Shutdown =>
      MoreDelivered(x, inb, delivered, f);
      assert (delivered + [f])[|delivered|].Shutdown?;
      SameCallsOk(x, HandleInbound(x, f, |delivered|), inb, inb, delivered + [f]);
    case _ => MoreDelivered(x, inb, delivered, f);
  }

  /** A change of flags, outbound buffer or stream that leaves calls, dispatches and history alone. */
  lemma SameCallsOk(x: AppClient, y: AppClient, inb: Inbound, after: Inbound, delivered: seq<BusFrame>)
    requires ClientCore(x, inb, delivered) && OutboundOk(y, after)
    requires HandshakeOk(y, delivered) && ShutdownOk(y, delivered)
    requires y.invokes == x.invokes && y.dispatches == x.dispatches && y.pending == x.pending
    requires y.nextReqId == x.nextReqId && y.sent == x.sent && y.why == x.why && y.hello == x.hello
    ensures ClientOk(y, after, delivered)
  {
    forall l | 0 <= l < |y.why|
      ensures CauseOk(y, y.why[l], y.sent[l])
    {
      assert CauseOk(x, x.why[l], x.sent[l]);
    }
    forall n | 0 <= n < |y.invokes|
      ensures InvokeIdOk(y, n) && ReplySlotOk(y, n, delivered) && ContextOk(y, y.invokes[n])
    {
      assert InvokeIdOk(x, n) && ReplySlotOk(x, n, delivered) && ContextOk(x, x.invokes[n]);
    }
    forall r | r in y.pending
      ensures PendingEntryOk(y, r)
    {
      assert PendingEntryOk(x, r);
    }
  }

  lemma AckReadOk(x: AppClient, inb: Inbound, f: BusFrame)
    requires ClientOk(x, inb, []) && x.phase.AwaitAck?
    ensures ClientOk(HandleAck(x, f), inb, [f])
  {
  }
}
