/** The parts of one connection: outbound channel and writer task, inbound stream, session table, `serve` and peer. */
module Connection {
  import opened Prelude
  import opened Frames
  import Client = ClientState

  /** Who queued a frame on an outbound channel (history only). */
  datatype Sender =
    | ByCall(call: nat)
    | ByRoute(call: nat)
    | ByPublish(conn: nat, publication: nat)

  /**
   * The outbound side. `open`: the receiver half still exists. `writing`: the writer task runs.
   * `queue` is the unbounded channel, `wire` what has been written but not yet read by the peer.
   * History: `head` what `serve` wrote before the writer task existed, `queued` (with `tags`) every frame the
   * channel accepted, `delivered` every frame the peer has read.
   */
  datatype Channel = Channel(
    open: bool,
    writing: bool,
    queue: seq<BusFrame>,
    wire: seq<BusFrame>,
    head: seq<BusFrame>,
    queued: seq<BusFrame>,
    tags: seq<Sender>,
    delivered: seq<BusFrame>)

  const NEW_CHANNEL := Channel(false, false, [], [], [], [], [], [])

  /** `tx.send`: accepted while the receiver half exists. */
  function Push(ch: Channel, f: BusFrame, by_: Sender): Channel {
    if ch.open
    then ch.(queue := ch.queue + [f], queued := ch.queued + [f], tags := ch.tags + [by_])
    else ch
  }

  /** `serve` writes one frame itself and never starts a writer task. */
  function Reject(ch: Channel, f: BusFrame): Channel {
    ch.(wire := ch.wire + [f], head := ch.head + [f])
  }

  /** `serve` writes the ack and then hands the receiver to the writer task. */
  function StartWriter(ch: Channel, ack: BusFrame): Channel {
    ch.(wire := ch.wire + [ack], head := ch.head + [ack], writing := true)
  }

  function WriteOne(ch: Channel): Channel
    requires ch.queue != []
  {
    ch.(queue := ch.queue[1..], wire := ch.wire + [ch.queue[0]])
  }

  /** The receiver half is dropped: the writer failed or was aborted, or `serve` returned before starting it. */
  function Close(ch: Channel): Channel {
    ch.(open := false, writing := false, queue := [])
  }

  /** The peer reads one frame. */
  function Deliver(ch: Channel): Channel
    requires ch.wire != []
  {
    ch.(wire := ch.wire[1..], delivered := ch.delivered + [ch.wire[0]])
  }

  /** The stream breaks: only a prefix of what was written arrives. */
  function Truncate(ch: Channel, n: nat): Channel
    requires n <= |ch.wire|
  {
    ch.(wire := ch.wire[..n])
  }

  /** The inbound side. `cut`: nothing more can arrive. History: `consumed`, every frame `serve` has read. */
  datatype Inbound = Inbound(stream: seq<BusFrame>, cut: bool, consumed: seq<BusFrame>)

  const NEW_INBOUND := Inbound([], false, [])

  function Arrive(b: Inbound, f: BusFrame): Inbound {
    if b.cut then b else b.(stream := b.stream + [f])
  }

  function Consume(b: Inbound): Inbound
    requires b.stream != []
  {
    b.(stream := b.stream[1..], consumed := b.consumed + [b.stream[0]])
  }

  function CutInbound(b: Inbound, n: nat): Inbound
    requires n <= |b.stream|
  {
    b.(stream := b.stream[..n], cut := true)
  }

  /**
   * The pending-call table of a session and its request-id counter.
   * History: `owners` (id -> the call that took it), ids removed by a Response, ids removed by a timeout.
   */
  datatype Session = Session(
    pendingOut: map<nat, nat>,
    nextReqId: nat,
    owners: map<nat, nat>,
    answered: set<nat>,
    expired: set<nat>)

  const NEW_SESSION := Session(map[], 1, map[], {}, {})

  function TakeReqId(x: Session, call: nat): Session {
    x.(nextReqId := x.nextReqId + 1, owners := x.owners[x.nextReqId := call])
  }

  function InsertPending(x: Session, reqId: nat, call: nat): Session {
    x.(pendingOut := x.pendingOut[reqId := call])
  }

  function RemoveAnswered(x: Session, reqId: nat): Session {
    if reqId in x.pendingOut
    then x.(pendingOut := x.pendingOut - {reqId}, answered := x.answered + {reqId})
    else x
  }

  function RemoveExpired(x: Session, reqId: nat): Session {
    if reqId in x.pendingOut
    then x.(pendingOut := x.pendingOut - {reqId}, expired := x.expired + {reqId})
    else x
  }

  /** Where `serve` stands. */
  datatype ServePc =
    | AwaitHello
    | CheckToken
    | GetClientId
    | GetGeneration
    | WriteEntry
    | WriteAck
    | Attach
    | BeginProbe
    | Loop
    | Wake(call: nat, reply: Reply, at: nat)
    | Snapshot(event: Event)
    | FanLookup(event: Event, publication: nat, targets: seq<string>)
    | FanSend(event: Event, publication: nat, subscriber: string, tx: nat, targets: seq<string>)
    | Detach
    | DetachCheck
    | DetachCaps
    | Unregister
    | Closing
    | Returned

  /** Order in which `serve` passes its program points; the frame loop is one level. */
  function Rank(pc: ServePc): nat {
    match pc
    case AwaitHello => 0
    case CheckToken => 1
    case GetClientId => 2
    case GetGeneration => 3
    case WriteEntry => 4
    case WriteAck => 5
    case Attach => 6
    case BeginProbe => 7
    case Loop => 8
    case Wake(_, _, _) => 8
    case Snapshot(_) => 8
    case FanLookup(_, _, _) => 8
    case FanSend(_, _, _, _, _) => 8
    case Detach => 9
    case DetachCheck => 10
    case DetachCaps => 11
    case Unregister => 12
    case Closing => 13
    case Returned => 14
  }

  /** What the registry and the session table know of a connection at each point of `serve`. */
  datatype Phase = Unknown | Greeted | Numbered | Published | Attached | Gone

  function PhaseOf(pc: ServePc): Phase {
    var r := Rank(pc);
    if r == 0 then Unknown
    else if r <= 3 then Greeted
    else if r == 4 then Numbered
    else if r <= 6 then Published
    else if r <= 9 then Attached
    else if r <= 12 then Published
    else Gone
  }

  /**
   * A publication as it was routed (history): the stamped event, the services selected at the snapshot, the
   * connection each of them was sent to so far, and those that were not registered when their turn came.
   */
  datatype Publication = Publication(
    event: Event,
    targets: set<string>,
    served: map<string, nat>,
    skipped: set<string>)

  /**
   * The `serve` task. History: `ticket` (which placed token admitted it), `pubs`, and `routes`
   * (position of an Invoke in `consumed` -> the routing call spawned for it).
   */
  datatype Serve = Serve(
    pc: ServePc,
    hello: Option<HelloRequest>,
    clientId: nat,
    generation: nat,
    ticket: Option<nat>,
    pubs: seq<Publication>,
    routes: map<nat, nat>)

  const NEW_SERVE := Serve(AwaitHello, None, 0, 0, None, [], map[])

  /** The peer: either anything at all, or a `BusClient`. */
  datatype App = Wild | Managed(client: Client.AppClient)

  /** The registry write of this connection has happened. */
  predicate EverPut(v: Serve) {
    v.generation > 0 && !PhaseOf(v.pc).Numbered?
  }
}
