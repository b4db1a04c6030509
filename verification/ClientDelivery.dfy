/**
 * What a `BusClient` never forgets: every Invoke it reads is dispatched, every answer and every outbound call is sent
 * while the channel is open, and a Response it has read leaves no pending entry behind.
 */
module ClientDelivery {
  import opened Prelude
  import opened Frames
  import opened Connection
  import opened ClientState
  import opened ClientInvariants

  // ----- invariants -------------------------------------------------------------------------------

  ghost predicate DispatchedAt(x: AppClient, at: nat) {
    exists d :: 0 <= d < |x.dispatches| && x.dispatches[d].at == at
  }

  /** Every Invoke read after the ack has its dispatch task. */
  ghost predicate InvokesDispatched(x: AppClient, delivered: seq<BusFrame>) {
    forall at :: 1 <= at < |delivered| && delivered[at].InvokeFrame? ==> DispatchedAt(x, at)
  }

  /** A finished dispatch has queued its answer, unless the channel is gone. */
  predicate AnswerSent(x: AppClient, d: nat)
    requires d < |x.dispatches|
  {
    x.dispatches[d].reply.Some? && x.txOpen ==> ByDispatch(d) in x.why
  }

  /** A call that waits has queued its Invoke. */
  predicate InvokeSent(x: AppClient, n: nat)
    requires n < |x.invokes|
  {
    x.invokes[n].pc.Waiting? ==> ByInvoke(n) in x.why
  }

  /** No Response for id `r` has been read after the ack. */
  ghost predicate Unanswered(delivered: seq<BusFrame>, r: nat) {
    forall at :: 1 <= at < |delivered| && delivered[at].ResponseFrame? ==> delivered[at].reqId != r
  }

  ghost predicate PendingUnanswered(x: AppClient, delivered: seq<BusFrame>) {
    forall r :: r in x.pending ==> Unanswered(delivered, r)
  }

  predicate HelloFirst(x: AppClient) {
    && (!x.phase.Start? ==> x.sent != [])
    && (x.sent != [] ==> x.sent[0] == Hello(x.hello))
  }

  ghost predicate FlowOk(x: AppClient, delivered: seq<BusFrame>) {
    && InvokesDispatched(x, delivered)
    && (forall d :: 0 <= d < |x.dispatches| ==> AnswerSent(x, d))
    && (forall n :: 0 <= n < |x.invokes| ==> InvokeSent(x, n))
    && PendingUnanswered(x, delivered) && HelloFirst(x)
  }

  // ----- what a change has to keep ---------------------------------------------------------------------

  /** `y` continues `x`: history only grows, and whatever is new in it has been sent. */
  ghost predicate Continues(x: AppClient, y: AppClient, delivered: seq<BusFrame>) {
    && y.hello == x.hello && (y.phase.Start? <==> x.phase.Start?)
    && x.sent <= y.sent && (y.sent == x.sent || !x.phase.Start?)
    && x.why <= y.why && (y.txOpen ==> x.txOpen)
    && |y.dispatches| == |x.dispatches| && |x.invokes| <= |y.invokes|
    && (forall d :: 0 <= d < |x.dispatches| ==> y.dispatches[d].at == x.dispatches[d].at)
    && (forall d :: 0 <= d < |x.dispatches| ==> y.dispatches[d].reply == x.dispatches[d].reply || AnswerSent(y, d))
    && (forall n :: 0 <= n < |y.invokes| ==>
          InvokeSent(y, n) || (n < |x.invokes| && y.invokes[n].pc == x.invokes[n].pc))
    && (forall r :: r in y.pending ==> r in x.pending || Unanswered(delivered, r))
  }

  lemma ContinuedFlow(x: AppClient, y: AppClient, delivered: seq<BusFrame>)
    requires FlowOk(x, delivered) && Continues(x, y, delivered)
    ensures FlowOk(y, delivered)
  {
    forall at | 1 <= at < |delivered| && delivered[at].InvokeFrame?
      ensures DispatchedAt(y, at)
    {
      assert DispatchedAt(x, at);
      var d :| 0 <= d < |x.dispatches| && x.dispatches[d].at == at;
      assert y.dispatches[d].at == at;
    }
    forall d | 0 <= d < |y.dispatches|
      ensures AnswerSent(y, d)
    {
      assert AnswerSent(x, d);
    }
    forall n | 0 <= n < |y.invokes|
      ensures InvokeSent(y, n)
    {
      assert n < |x.invokes| ==> InvokeSent(x, n);
    }
  }

  // ----- steps of the client ---------------------------------------------------------------------------------

  lemma SendFlow(x: AppClient, f: BusFrame, why: Cause, delivered: seq<BusFrame>)
    requires FlowOk(x, delivered) && !x.phase.Start?
    ensures FlowOk(SendFrame(x, f, why), delivered)
  {
    ContinuedFlow(x, SendFrame(x, f, why), delivered);
  }

  lemma QueueInvokeFlow(x: AppClient, delivered: seq<BusFrame>, m: nat)
    requires FlowOk(x, delivered) && m < |x.invokes| && !x.phase.Start?
    ensures FlowOk(QueueInvokeFrame(x, m), delivered)
  {
    var y := QueueInvokeFrame(x, m);
    assert x.txOpen ==> y.why[|x.why|] == ByInvoke(m);
    ContinuedFlow(x, y, delivered);
  }

  lemma AnswerFlow(x: AppClient, delivered: seq<BusFrame>, m: nat, reply: Reply)
    requires FlowOk(x, delivered) && m < |x.dispatches| && !x.phase.Start?
    ensures FlowOk(FinishDispatch(x, m, reply), delivered)
  {
    var y := FinishDispatch(x, m, reply);
    assert x.txOpen ==> y.why[|x.why|] == ByDispatch(m);
    ContinuedFlow(x, y, delivered);
  }

  // ----- reading ---------------------------------------------------------------------------------------------

  /** One more frame that is neither an Invoke nor a Response to a pending call. */
  lemma MoreFlow(x: AppClient, delivered: seq<BusFrame>, f: BusFrame)
    requires FlowOk(x, delivered) && !f.InvokeFrame? && (f.ResponseFrame? ==> f.reqId !in x.pending)
    ensures FlowOk(x, delivered + [f])
  {
  }

  lemma SpawnFlow(x: AppClient, delivered: seq<BusFrame>, inv: Invoke)
    requires FlowOk(x, delivered)
    ensures FlowOk(HandleInbound(x, InvokeFrame(inv), |delivered|), delivered + [InvokeFrame(inv)])
  {
    var y, after := HandleInbound(x, InvokeFrame(inv), |delivered|), delivered + [InvokeFrame(inv)];
    forall at | 1 <= at < |after| && after[at].InvokeFrame?
      ensures DispatchedAt(y, at)
    {
      if at < |delivered| {
        assert DispatchedAt(x, at);
        var d :| 0 <= d < |x.dispatches| && x.dispatches[d].at == at;
        assert y.dispatches[d].at == at;
      } else {
        assert y.dispatches[|x.dispatches|].at == at;
      }
    }
    forall d | 0 <= d < |y.dispatches|
      ensures AnswerSent(y, d)
    {
      assert d < |x.dispatches| ==> AnswerSent(x, d);
    }
    forall n | 0 <= n < |y.invokes|
      ensures InvokeSent(y, n)
    {
      assert InvokeSent(x, n);
    }
    forall r | r in y.pending
      ensures Unanswered(after, r)
    {
      assert Unanswered(delivered, r);
    }
  }

  lemma FillFlow(x: AppClient, delivered: seq<BusFrame>, r: nat, reply: Reply)
    requires FlowOk(x, delivered) && !x.phase.Start?
    ensures FlowOk(HandleInbound(x, ResponseFrame(r, reply), |delivered|), delivered + [ResponseFrame(r, reply)])
  {
    var y := HandleInbound(x, ResponseFrame(r, reply), |delivered|);
    ContinuedFlow(x, y, delivered);
    MoreFlow(y, delivered, ResponseFrame(r, reply));
  }

  lemma ReadFlow(x: AppClient, delivered: seq<BusFrame>, f: BusFrame)
    requires FlowOk(x, delivered) && x.phase.Running?
    ensures FlowOk(HandleInbound(x, f, |delivered|), delivered + [f])
  {
    match f
    case InvokeFrame(inv) => SpawnFlow(x, delivered, inv);
    case ResponseFrame(r, reply) => FillFlow(x, delivered, r, reply);
    case _ =>
      MoreFlow(x, delivered, f);
      ContinuedFlow(x, HandleInbound(x, f, |delivered|), delivered + [f]);
  }

  lemma AckFlow(x: AppClient, f: BusFrame)
    requires FlowOk(x, []) && HandshakeOk(x, []) && x.phase.AwaitAck?
    ensures FlowOk(HandleAck(x, f), [f])
  {
  }
}
