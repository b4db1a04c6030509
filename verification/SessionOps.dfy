/** session.rs: the pending table of one session, and what the frame loop does with each frame. */
module SessionOps {
  import opened Prelude
  import opened Frames
  import opened ServiceRegistry
  import opened BrokerTables
  import opened BrokerOps
  import opened Connection

  /** `pending_out` and `next_req_id`; the ghost fields remember what became of every id. */
  class PendingTable {
    var pendingOut: map<nat, nat>
    var nextReqId: nat
    ghost var owners: map<nat, nat>
    ghost var answered: set<nat>
    ghost var expired: set<nat>

    ghost function State(): Session
      reads this
    {
      Session(pendingOut, nextReqId, owners, answered, expired)
    }

    constructor ()
      ensures State() == NEW_SESSION
    {
      pendingOut, nextReqId := map[], 1;
      owners, answered, expired := map[], {}, {};
    }

    /** `next_req_id.fetch_add(1)`. */
    method Draw(call: nat) returns (reqId: nat)
      modifies this
      ensures reqId == old(nextReqId) && State() == TakeReqId(old(State()), call)
    {
      reqId := nextReqId;
      nextReqId := nextReqId + 1;
      owners := owners[reqId := call];
    }

    method Insert(reqId: nat, call: nat)
      modifies this
      ensures State() == InsertPending(old(State()), reqId, call)
    {
      pendingOut := pendingOut[reqId := call];
    }

    /** `pending_out.remove` for a Response. */
    method TakeAnswered(reqId: nat) returns (waker: Option<nat>)
      modifies this
      ensures waker == if reqId in old(pendingOut) then Some(old(pendingOut)[reqId]) else None
      ensures State() == RemoveAnswered(old(State()), reqId)
    {
      waker := None;
      if reqId in pendingOut {
        waker := Some(pendingOut[reqId]);
        pendingOut := pendingOut - {reqId};
        answered := answered + {reqId};
      }
    }

    /** `pending_out.remove` after a timeout. */
    method Expire(reqId: nat)
      modifies this
      ensures State() == RemoveExpired(old(State()), reqId)
    {
      if reqId in pendingOut {
        pendingOut := pendingOut - {reqId};
        expired := expired + {reqId};
      }
    }
  }

  /** What one frame makes the loop do besides changing tables. */
  datatype Effect =
    | Nothing
    | WakeCall(call: nat, reply: Reply)
    | Forward(event: Event, txs: seq<nat>)
    | RouteCall(service: string, methodName: string, payload: Bytes, caller: CallerCtx, reqId: nat)
    | Refuse(reqId: nat, error: BusError)

  /** The routing decision for an Invoke of the app `originator`. */
  function Routing(inv: Invoke, originator: string): Effect {
    match SplitOnce(inv.methodName)
    case None => Refuse(inv.reqId, BadRequest("invoke method must be `service.method`, got `" + inv.methodName + "`"))
    case Some(p) => Effect.RouteCall(p.0, p.1, inv.payload, inv.caller.(callerAppId := Some(originator)), inv.reqId)
  }

  /** What a frame from the app registered as `me` does to the broker's tables, and to the session's own table. */
  function TablesAfter(b: Tables, me: string, f: BusFrame): Tables {
    match f
    case Subscribe(prefix) => AddSubscription(b, me, prefix)
    case Unsubscribe(prefix) => DropSubscription(b, me, prefix)
    case _ => b
  }

  function SessionAfter(x: Session, f: BusFrame): Session {
    match f
    case ResponseFrame(reqId, _) => RemoveAnswered(x, reqId)
    case _ => x
  }

  /** One turn of the frame loop for the app registered as `me`. */
  method OnFrame(b: Broker, x: PendingTable, me: string, f: BusFrame) returns (effect: Effect)
    modifies b`subscriptions, x
    ensures f.ResponseFrame? ==>
              && x.State() == RemoveAnswered(old(x.State()), f.reqId) && b.State() == old(b.State())
              && effect == if f.reqId in old(x.pendingOut) then WakeCall(old(x.pendingOut)[f.reqId], f.reply)
                           else Nothing
    ensures !f.ResponseFrame? ==> x.State() == old(x.State())
    ensures f.Subscribe? ==> b.State() == AddSubscription(old(b.State()), me, f.topicPrefix) && effect == Nothing
    ensures f.Unsubscribe? ==> b.State() == DropSubscription(old(b.State()), me, f.topicPrefix) && effect == Nothing
    ensures !f.Subscribe? && !f.Unsubscribe? ==> b.State() == old(b.State())
    ensures f.InvokeFrame? ==> effect == Routing(f.inv, me)
    ensures f.Publish? ==>
              && effect.Forward? && effect.event == f.event.(from := Some(me))
              && (forall tx :: tx in effect.txs <==>
                    exists svc :: svc in Targets(b.State(), me, f.event.topic) && svc in b.registry.entries
                                  && b.registry.entries[svc].tx == tx)
    ensures !f.ResponseFrame? && !f.Publish? && !f.InvokeFrame? ==> effect == Nothing
    ensures b.State() == TablesAfter(old(b.State()), me, f) && x.State() == SessionAfter(old(x.State()), f)
  {
    effect := Nothing;
    match f {
      case ResponseFrame(reqId, reply) =>
        var waker := x.TakeAnswered(reqId);
        if waker.Some? {
          effect := WakeCall(waker.value, reply);
        }
      case Publish(event) =>
        var stamped, order, txs := b.Fanout(me, event);
        SendsAreRegistered(b.registry.State(), order);
        effect := Forward(stamped, txs);
      case Subscribe(prefix) => b.Subscribe(me, prefix);
      case Unsubscribe(prefix) => b.Unsubscribe(me, prefix);
      case InvokeFrame(inv) =>
        match SplitOnce(inv.methodName) {
          case None =>
            effect := Refuse(inv.reqId,
                             BadRequest("invoke method must be `service.method`, got `" + inv.methodName + "`"));
          case Some(p) =>
            effect := Effect.RouteCall(p.0, p.1, inv.payload, inv.caller.(callerAppId := Some(me)), inv.reqId);
        }
      case _ =>
    }
  }

  /** A client's `invoke` of `service.method` is routed to exactly that pair, with the caller stamped by the broker. */
  lemma RoutedAsAddressed(reqId: nat, service: string, methodName: string, payload: Bytes, caller: CallerCtx,
                          me: string)
    ensures Routing(Invoke(reqId, Join(service, methodName), payload, caller), me)
         == Effect.RouteCall(service, methodName, payload, caller.(callerAppId := Some(me)), reqId)
       <==> '.' !in service
  {
    JoinSplitRoundTrip(service, methodName);
    assert Join(service, methodName)[|service|] == '.';
  }
}
