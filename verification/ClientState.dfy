/** client.rs: one `BusClient` with its outbound channel, pending calls and dispatch tasks. */
module ClientState {
  import opened Prelude
  import opened Frames

  datatype Phase = Start | AwaitAck | Running | Stopped

  /** Where an outbound `invoke` future stands. */
  datatype InvokePc = Allocated | Inserted | Waiting | SendFailed

  /**
   * An outbound `invoke`. `slot` is its oneshot channel and `at` the inbound position of the Response that filled it;
   * `parent` is the dispatch task the call runs in, `auto` that its caller came from `auto_caller`.
   */
  datatype ClientCall = ClientCall(
    reqId: nat,
    service: string,
    methodName: string,
    payload: Bytes,
    caller: CallerCtx,
    parent: Option<nat>,
    auto: bool,
    pc: InvokePc,
    slot: Option<Reply>,
    at: nat)
  {
    /** What the caller of `invoke` has been given, if anything yet. */
    function Outcome(): Option<Reply> {
      if pc.SendFailed? then Some(Err(ConnectionClosed))
      else if pc.Waiting? then slot
      else None
    }
  }

  /** A spawned `dispatch_invoke`; `user` is its task-local user id, `at` the inbound position of its Invoke. */
  datatype Dispatch = Dispatch(
    reqId: nat,
    methodName: string,
    payload: Bytes,
    caller: CallerCtx,
    user: Option<string>,
    userSet: bool,
    reply: Option<Reply>,
    at: nat)

  /** Why a frame entered the outbound channel. */
  datatype Cause = Handshake | ByInvoke(call: nat) | ByDispatch(dispatch: nat) | Plain

  /** `sent` and `why` are history: every frame accepted for sending, in order, with its cause. */
  datatype AppClient = AppClient(
    phase: Phase,
    hello: HelloRequest,
    handlers: set<string>,
    tx: seq<BusFrame>,
    txOpen: bool,
    nextReqId: nat,
    pending: map<nat, nat>,
    invokes: seq<ClientCall>,
    dispatches: seq<Dispatch>,
    shutdownFired: bool,
    sent: seq<BusFrame>,
    why: seq<Cause>)

  function NewClient(hello: HelloRequest, handlers: set<string>): AppClient {
    AppClient(Start, hello, handlers, [], false, 1, map[], [], [], false, [], [])
  }

  /** `connect_with_builder` refuses a handler no declaration names. */
  predicate HandlersDeclared(hello: HelloRequest, handlers: set<string>) {
    forall h :: h in handlers ==> exists d :: d in hello.methods && d.name == h
  }

  function SendFrame(c: AppClient, f: BusFrame, why: Cause): AppClient {
    if c.txOpen then c.(tx := c.tx + [f], sent := c.sent + [f], why := c.why + [why]) else c
  }

  /** The Invoke frame an outbound call puts on the wire. */
  function WireInvoke(k: ClientCall): Invoke {
    Invoke(k.reqId, Join(k.service, k.methodName), k.payload, k.caller)
  }

  /** `invoke`, first step: take a request id. */
  function BeginInvoke(c: AppClient, k: ClientCall): AppClient {
    c.(nextReqId := c.nextReqId + 1, invokes := c.invokes + [k.(reqId := c.nextReqId, pc := Allocated, slot := None)])
  }

  /** `invoke`, second step: the reply sender enters `pending`. */
  function InsertPendingInvoke(c: AppClient, n: nat): AppClient
    requires n < |c.invokes|
  {
    c.(pending := c.pending[c.invokes[n].reqId := n], invokes := c.invokes[n := c.invokes[n].(pc := Inserted)])
  }

  /** `invoke`, third step: queue the frame, or fail and leave the pending entry behind. */
  function QueueInvokeFrame(c: AppClient, n: nat): AppClient
    requires n < |c.invokes|
  {
    var k := c.invokes[n];
    SendFrame(c, InvokeFrame(WireInvoke(k)), ByInvoke(n))
    .(invokes := c.invokes[n := k.(pc := if c.txOpen then Waiting else SendFailed)])
  }

  /** `handle_inbound` for the frame at inbound position `at`. */
  function HandleInbound(c: AppClient, f: BusFrame, at: nat): AppClient {
    match f
    case Ping => SendFrame(c, Pong, Plain)
    case Shutdown => c.(shutdownFired := true)
    case InvokeFrame(inv) =>
      c.(dispatches := c.dispatches
          + [Dispatch(inv.reqId, inv.methodName, inv.payload, inv.caller, inv.caller.userId, false, None, at)])
    case ResponseFrame(reqId, reply) =>
      if reqId in c.pending then
        var n := c.pending[reqId];
        var taken := c.(pending := c.pending - {reqId});
        if n < |c.invokes| && !c.invokes[n].pc.SendFailed?
        then taken.(invokes := c.invokes[n := c.invokes[n].(slot := Some(reply), at := at)])
        else taken
      else c
    case _ => c
  }

  /** The first inbound frame decides the handshake. */
  function HandleAck(c: AppClient, f: BusFrame): AppClient {
    if f.HelloAck? then c.(phase := Running, txOpen := true) else c.(phase := Stopped)
  }

  /** What a dispatch task may answer: a missing handler always answers `MethodNotFound`. */
  predicate MayAnswer(c: AppClient, d: nat, reply: Reply) {
    d < |c.dispatches| && c.dispatches[d].reply.None? &&
    (c.dispatches[d].methodName !in c.handlers ==>
      reply == Err(MethodNotFound(c.hello.service, c.dispatches[d].methodName)))
  }

  function FinishDispatch(c: AppClient, d: nat, reply: Reply): AppClient
    requires d < |c.dispatches|
  {
    var k := c.dispatches[d];
    SendFrame(c, ResponseFrame(k.reqId, reply), ByDispatch(d))
    .(dispatches := c.dispatches[d := k.(reply := Some(reply))])
  }

  /** `current_user_id` in the task of a dispatch, and outside any scope. */
  function CurrentUser(c: AppClient, parent: Option<nat>): Option<string> {
    if parent.Some? && parent.value < |c.dispatches| then c.dispatches[parent.value].user else None
  }

  /** `set_user_id` inside a dispatch's scope. */
  function SetUser(c: AppClient, d: nat, user: Option<string>): AppClient
    requires d < |c.dispatches|
  {
    c.(dispatches := c.dispatches[d := c.dispatches[d].(user := user, userSet := true)])
  }

  /** `auto_caller`: user id from the task scope, everything else fresh. */
  function AutoCaller(c: AppClient, parent: Option<nat>, appId: string, requestId: string): CallerCtx {
    CallerCtx(CurrentUser(c, parent), requestId, None, Some(appId))
  }

  /** The connection ended: `shutdown` fires and the writer is aborted. */
  function Stop(c: AppClient): AppClient {
    c.(phase := Stopped, shutdownFired := true, tx := [], txOpen := false)
  }
}
