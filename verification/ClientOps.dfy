/** client.rs: the `BusClient` object; every method moves the state as the bus model's client steps do. */
module ClientOps {
  import opened Prelude
  import opened Frames
  import opened ClientState

  /**
   * The fields of the client and of its tasks. `invokes` and `dispatches` stand for the futures and spawned tasks,
   * `sent` and `why` remember what was accepted for sending.
   */
  class BusClient {
    const hello: HelloRequest
    const handlers: set<string>
    var phase: Phase
    var tx: seq<BusFrame>
    var txOpen: bool
    var nextReqId: nat
    var pending: map<nat, nat>
    var invokes: seq<ClientCall>
    var dispatches: seq<Dispatch>
    var shutdownFired: bool
    ghost var sent: seq<BusFrame>
    ghost var why: seq<Cause>

    ghost function State(): AppClient
      reads this
    {
      AppClient(phase, hello, handlers, tx, txOpen, nextReqId, pending, invokes, dispatches, shutdownFired, sent, why)
    }

    constructor (hello: HelloRequest, handlers: set<string>)
      ensures State() == NewClient(hello, handlers)
    {
      this.hello, this.handlers := hello, handlers;
      phase, tx, txOpen, nextReqId, pending := Start, [], false, 1, map[];
      invokes, dispatches, shutdownFired := [], [], false;
      sent, why := [], [];
    }

    /** `tx.send`. */
    method Send(f: BusFrame, ghost cause: Cause) returns (ok: bool)
      modifies this`tx, this`sent, this`why
      ensures ok == txOpen && State() == SendFrame(old(State()), f, cause)
    {
      ok := txOpen;
      if txOpen {
        tx := tx + [f];
        sent, why := sent + [f], why + [cause];
      }
    }

    /** `invoke` up to its wait: draw an id, enter `pending`, queue the Invoke. */
    method Invoke(service: string, methodName: string, payload: Bytes, caller: CallerCtx, parent: Option<nat>)
      returns (n: nat)
      modifies this
      ensures n == |old(invokes)|
      ensures var k := ClientCall(0, service, methodName, payload, caller, parent, false, Allocated, None, 0);
              State() == QueueInvokeFrame(InsertPendingInvoke(BeginInvoke(old(State()), k), n), n)
    {
      n := |invokes|;
      var k := ClientCall(nextReqId, service, methodName, payload, caller, parent, false, Allocated, None, 0);
      nextReqId := nextReqId + 1;
      invokes := invokes + [k];
      pending := pending[k.reqId := n];
      invokes := invokes[n := k.(pc := Inserted)];
      var frame := Frames.InvokeFrame(Frames.Invoke.Invoke(k.reqId, service + "." + methodName, payload, caller));
      var ok := Send(frame, ByInvoke(n));
      invokes := invokes[n := k.(pc := if ok then Waiting else SendFailed)];
    }

    /** `handle_inbound`: Invokes are spawned, never awaited, so that the loop keeps reading. */
    method OnInbound(f: BusFrame, at: nat)
      modifies this
      ensures State() == HandleInbound(old(State()), f, at)
    {
      match f {
        case Ping => var _ := Send(Pong, Plain);
        case Shutdown => shutdownFired := true;
        case InvokeFrame(inv) =>
          dispatches := dispatches
            + [Dispatch(inv.reqId, inv.methodName, inv.payload, inv.caller, inv.caller.userId, false, None, at)];
        case ResponseFrame(reqId, reply) =>
          if reqId in pending {
            var n := pending[reqId];
            pending := pending - {reqId};
            if n < |invokes| && !invokes[n].pc.SendFailed? {
              invokes := invokes[n := invokes[n].(slot := Some(reply), at := at)];
            }
          }
        case _ =>
      }
    }

    /** The end of `dispatch_invoke`; without a handler the answer is `MethodNotFound`. */
    method FinishTask(d: nat, handlerReply: Reply) returns (reply: Reply)
      requires d < |dispatches| && dispatches[d].reply.None?
      modifies this`tx, this`sent, this`why, this`dispatches
      ensures MayAnswer(old(State()), d, reply) && State() == FinishDispatch(old(State()), d, reply)
      ensures dispatches[d].methodName in handlers ==> reply == handlerReply
      ensures dispatches[d].methodName !in handlers ==>
                reply == Err(MethodNotFound(hello.service, dispatches[d].methodName))
    {
      var k := dispatches[d];
      reply := if k.methodName in handlers then handlerReply else Err(MethodNotFound(hello.service, k.methodName));
      var _ := Send(ResponseFrame(k.reqId, reply), ByDispatch(d));
      dispatches := dispatches[d := k.(reply := Some(reply))];
    }

    /** The reader loop ended: `shutdown` fires and the writer task is aborted. */
    method StopConnection()
      modifies this
      ensures State() == Stop(old(State()))
    {
      phase, shutdownFired, tx, txOpen := Stopped, true, [], false;
    }
  }

  /**
   * A call and its answer, undisturbed: the Response with the call's id completes exactly that call, and a second one
   * changes nothing.
   */
  lemma AnsweredOnce(x: AppClient, k: ClientCall, reply: Reply, again: Reply, at: nat, later: nat)
    requires x.txOpen && x.nextReqId !in x.pending
    ensures var n := |x.invokes|;
            var y := QueueInvokeFrame(InsertPendingInvoke(BeginInvoke(x, k), n), n);
            var z := HandleInbound(y, ResponseFrame(x.nextReqId, reply), at);
            && y.invokes[n].Outcome().None? && z.invokes[n].Outcome() == Some(reply)
            && z.pending == x.pending && z.invokes[..n] == x.invokes
            && HandleInbound(z, ResponseFrame(x.nextReqId, again), later) == z
  {
  }
}
