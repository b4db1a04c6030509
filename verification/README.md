# Verification of the bus

A Dafny model of the service bus: the broker with its sessions and registry, the client library, the frame codec and
the process supervisor, with proofs of what they promise together. `dafny verify dfyconfig.toml` checks everything.

## What is modelled

**The bus as one step relation** (`Bus.dfy`). A state holds every accepted connection (its `serve` task with a program
counter, its outbound channel with writer task, its inbound stream, its pending table and its peer), the registry, the
broker's tables, all broker calls ever made, and the issued tokens. There is one step for every map operation, channel
operation and await point, so every interleaving of the real tasks is a run of the model. A peer is either arbitrary
(it may send any frame at any time) or a `BusClient` whose own tasks are modelled step by step. Streams may break at
any point and lose any suffix; timeouts may fire at any moment. History fields (queued frames with their senders, owners
of request ids, answered and expired ids, publications, routes, placements of tokens) decide nothing: a step only extends
them. Three steps name one in a guard that keeps the update defined (`TokenStep` the placement of the token it found,
`SubscriberStep` and `EventStep` the record of the running publication), and the invariants make these guards true.

| steps | source |
|---|---|
| HelloStep, HelloEndedStep | crates/broker/src/session.rs:24-53 |
| TokenStep | crates/broker/src/session.rs:55-66 |
| IdentifyStep | crates/broker/src/session.rs:68-77 |
| NumberStep, PublishStep | crates/broker/src/registry.rs:38-44 |
| AckStep, AckLostStep | crates/broker/src/session.rs:89-112 |
| AttachStep | crates/broker/src/session.rs:118 |
| ProbeStep | crates/broker/src/broker.rs:255-258 |
| ResponseStep, WakeStep | crates/broker/src/session.rs:124-128 |
| PublicationStep, SnapshotStep, SubscriberStep, EventStep | crates/broker/src/broker.rs:463-478 |
| SubscriptionStep | crates/broker/src/session.rs:132-137 |
| InvokeStep, RouteCall, QueueReplyStep | crates/broker/src/session.rs:138-170 |
| IgnoredStep, StreamEndedStep | crates/broker/src/session.rs:172-183 |
| DetachStep, StaleStep, DropCapsStep | crates/broker/src/broker.rs:502-512 |
| UnpublishStep, ReturnStep | crates/broker/src/session.rs:187-188 |
| LocalLookupStep, LocalGateStep, LocalReturnStep, LocalTimeoutStep | crates/broker/src/broker.rs:331-360 |
| EntryStep, HandleStep | crates/broker/src/broker.rs:362-400 |
| TakeIdStep, EnterPendingStep, QueueInvokeStep | crates/broker/src/broker.rs:402-415 |
| ReceiveStep, DroppedStep, DeadlineStep, LeavePendingStep | crates/broker/src/broker.rs:417-433 |
| VerifyProbeStep, CacheProbeStep | crates/broker/src/broker.rs:285-298 |
| ClientNext | crates/client/src/client.rs:111-126, 171-217, 259-361 |

The invariants are spread over the `Bus*.dfy` modules by subject and put together in `BusSafety.dfy`, where they are
proved for every reachable state. `BusDelivery`, `BusWork` and `BusProgress` prove that calls finish: a measure falls
with every step that is not a stimulus from outside, and a state in which nothing can move has nothing left to do.
`BusEffects` says what single steps mean to callers and peers, `BusSubscriptions` what a run of them makes of Subscribe
and Unsubscribe frames.

**Objects.** `Registry`, `Broker`, `PendingTable`, `BusClient`, `TaskLocal` and `Backoff` are classes with the fields of
the source's objects. Their methods are proved against functions: the single map operations are the very functions the
step relation uses, and `OpsAgree.dfy` proves that the longer ones (`Resolve`, `Sends`, `Routing`, `FirstReply` and the
task-local scopes) are what the corresponding steps arrive at.

**The codec** (`ByteStreams.dfy`, `Codec.dfy`) works on byte streams that deliver arbitrary pieces, accept arbitrary
prefixes, and break or fail to flush anywhere. The MessagePack encoding is an abstract pair of functions with the
hypothesis that decoding an encoded value gives the value back.

**The supervisor** (`Supervisor.dfy`, `SupervisorTasks.dfy`, `ServiceChildren.dfy`, `StopService.dfy`, `Restarts.dfy`) is a
state machine over child slots, their locks and the tasks that use them, and the backoff arithmetic of a resident loop.

**What does not hold.** `BusLimits.dfy`, `BusNewest.dfy`, `BusReplies.dfy`, `BusStopped.dfy`, `BusStale.dfy`,
`Topics.dfy`, `ServiceChildren.dfy` and `StopService.dfy` treat promises the code does not keep: each is broken in a
reachable state or by a concrete input (runs of the bus are put together in `BusScenarios.dfy`), and a theorem says
exactly when it is kept.

## Where the code differs from its documentation

- Topic prefixes: `crates/protocol/src/frame.rs:234` speaks of dot-separated parents; the code matches any string prefix.
  `Topics.MatchDiffersExactly` says when that makes a difference.
- Clean end of stream: `crates/protocol/src/codec.rs:45` says before any bytes; the code also ends cleanly after one to
  three bytes of a header.
- `README.md:51` lists auto-reconnect; only the initial connect is retried (`BusStopped.NoReconnect`).
- `crates/broker/src/registry.rs:14` calls the generation monotonically increasing per reconnect; two racing
  registrations can leave the older generation in place (`BusLimits.OlderGenerationCanWin`, `BusNewest.NewestExactly`).
- `crates/broker/src/broker.rs:420` and `:425` prepare for a dropped sender; that cannot happen while the call waits.
- A client call in flight when the connection ends is never completed (`BusStopped.StoppedCallHangs`), although
  `crates/client/src/client.rs:194` prepares an error for it.
- `crates/supervisor/src/lib.rs:205` has `stop_service` kill the child; it first waits for the lock of the slot, which a
  resident loop holds until its child exits by itself (`StopService.StopBeginsExactly`, `StopService.StopCanBeBlocked`).
- `crates/broker/src/broker.rs:255` ties cached capabilities to the registered generation by a check before the store; the
  check can be outdated by then (`BusStale.StaleSetStored`, `BusStale.CurrentExactly`).

## Model

| member | source | states |
|---|---|---|
| `Frames.FindsFirst` | crates/broker/src/broker.rs:380-387 | the lookup finds a declaration exactly when the name occurs, and it is the first one that carries the name |
| `Frames.GateExactly` | crates/broker/src/broker.rs:380-394 | the gate admits a call if and only if a declaration has the name and the first one needs no user or the caller has one; a refusal is `MethodNotFound` for an undeclared name and `Unauthorized` for a declared one |
| `Frames.SplitOnce` | crates/broker/src/session.rs:144-156 | cutting at the first dot: the two halves join back to the input, the first has no dot, and there is no cut exactly when there is no dot |
| `Frames.JoinSplitRoundTrip` | crates/broker/src/session.rs:144-145 | the broker recovers the `(service, method)` pair a client joined if and only if the service name has no dot |
| `ServiceRegistry.Registry.DrawGeneration` | crates/broker/src/registry.rs:38-42 | only the counter moves, by one, and the new value is returned |
| `ServiceRegistry.Registry.Insert` | crates/broker/src/registry.rs:37-46 | both halves together: counter and entry change as the two separate steps of the bus do, and the entry registered last carries the returned generation |
| `ServiceRegistry.Registry.Get` | crates/broker/src/registry.rs:49-51 | a copy of the entry, or nothing |
| `ServiceRegistry.Registry.RemoveEntryIf` | crates/broker/src/registry.rs:55-66 | removes the entry if and only if it still has the generation, and says whether it did |
| `BrokerOps.Broker.IssueToken` | crates/broker/src/broker.rs:119-123 | the new token carries the process-wide counter, which moves on, and replaces the token of the service |
| `BrokerOps.Broker.ConsumeToken` | crates/broker/src/broker.rs:126-131 | true exactly on a match; the stored token is gone either way |
| `BrokerOps.Broker.DrawClientId` | crates/broker/src/broker.rs:482-484 | client ids are drawn one after the other |
| `BrokerOps.Broker.RegisterLocalService` | crates/broker/src/broker.rs:207-217 | catalog and handler are stored, and every handler keeps having a catalog |
| `BrokerOps.Broker.AttachSession` | crates/broker/src/broker.rs:486-500 | the session is stored under service and generation |
| `BrokerOps.Broker.DetachSession` | crates/broker/src/broker.rs:502-512 | removes exactly its own session; the cached capabilities go unless another generation is registered, and also when nothing is |
| `BrokerOps.Broker.StoreCapabilities` | crates/broker/src/broker.rs:285-298 | capabilities are cached only while the probing generation is the registered one |
| `BrokerOps.Broker.Subscribe` | crates/broker/src/broker.rs:451-454 | the prefix joins the set of the service |
| `BrokerOps.Broker.Unsubscribe` | crates/broker/src/broker.rs:456-461 | the prefix leaves the set, and an unknown service changes nothing |
| `BrokerOps.Broker.AnyPrefix` | crates/broker/src/broker.rs:469 | the search over the prefixes finds one exactly when one exists |
| `BrokerOps.Broker.CollectTargets` | crates/broker/src/broker.rs:465-472 | the collected targets are exactly those of the specification, each once |
| `BrokerOps.Broker.Fanout` | crates/broker/src/broker.rs:463-478 | the event is stamped with the sender and sent, in order, to the entry of every target that is registered when its turn comes |
| `BrokerOps.Broker.ResolveCall` | crates/broker/src/broker.rs:332-400 | which answer each call gets: `MethodNotFound` exactly for a method no found catalog declares, `Unauthorized` exactly when the first declaration of that name requires auth and there is no user, `ServiceNotFound` exactly for an unknown service or an admissible call without a session, and otherwise where the call goes |
| `BrokerOps.ResolveExactly` | crates/broker/src/broker.rs:332-400 | the same for the function the check steps of the bus are compared with: it gives every call the one answer that was described |
| `BrokerOps.SubscriptionChanges` | crates/broker/src/broker.rs:451-472 | what subscribing and unsubscribing change about the targets of any later publication, for the service itself and for all others |
| `BrokerOps.SendsAreRegistered` | crates/broker/src/broker.rs:473-477 | a fan-out sends one event for every registered target and nothing to anybody else |
| `Tokens.TokenStringInjective` | crates/broker/src/broker.rs:558-571 | token strings determine all three of their fields as long as each fits its machine width, so tokens of different counter values differ |
| `Tokens.TokenLayout` | crates/broker/src/broker.rs:558-571 | a token is 40 lower-case hex digits: time, process id and counter, each at its full width and read back as itself |
| `SessionOps.PendingTable.Draw` | crates/broker/src/broker.rs:402 | `fetch_add` on the request-id counter |
| `SessionOps.PendingTable.Insert` | crates/broker/src/broker.rs:404 | the waker enters the pending table under its id |
| `SessionOps.PendingTable.TakeAnswered` | crates/broker/src/session.rs:124-128 | a Response takes exactly the waker of its id out of the table, or nothing |
| `SessionOps.PendingTable.Expire` | crates/broker/src/broker.rs:426-427 | a timeout removes exactly its own entry |
| `SessionOps.OnFrame` | crates/broker/src/session.rs:121-184 | what each frame changes and triggers: waking a call, fan-out to exactly the registered targets, subscription changes, routing or refusing an Invoke, or nothing |
| `SessionOps.RoutedAsAddressed` | crates/broker/src/session.rs:144-159 | a client's call of `service.method` is routed to that pair, payload and stamped caller if and only if the service name has no dot |
| `ClientOps.BusClient.Invoke` | crates/client/src/client.rs:171-196 | id drawn, pending entry made, Invoke queued or the call failed, as the three client steps of the bus do |
| `ClientOps.BusClient.OnInbound` | crates/client/src/client.rs:304-341 | what every inbound frame does to the client; an Invoke only spawns a task |
| `ClientOps.BusClient.FinishTask` | crates/client/src/client.rs:343-361 | the answer is the handler's, or `MethodNotFound` without one, and is queued under the request's id |
| `ClientOps.BusClient.StopConnection` | crates/client/src/client.rs:300-301 | shutdown fires and the outbound channel closes |
| `ClientOps.AnsweredOnce` | crates/client/src/client.rs:171-196 | a Response with the call's id completes exactly that call and restores `pending`; a second one changes nothing |
| `ClientHandshake.RetryWaitClosedForm` | crates/client/src/client.rs:96-103 | the retry wait is 50 ms doubled up to the cap of one second |
| `ClientHandshake.Connect` | crates/client/src/client.rs:91-110 | the loop ends with the outcome of its last attempt; every failure before it was an I/O error whose message contains one of the two texts and came back before the deadline, a failure that ends the loop before the deadline is no such error; it sleeps less than the limit plus one second in all; without a limit it tries once |
| `ClientHandshake.TransientExactly` | crates/client/src/client.rs:366-368 | transient are exactly the I/O failures in whose message one of the two texts stands somewhere |
| `ClientHandshake.ContainsExactly` | crates/client/src/client.rs:366-368 | the search finds a text exactly when it stands at some position |
| `ClientHandshake.FirstReplyMeaning` | crates/client/src/client.rs:113-127 | the client is connected exactly when the first reply is the ack, and a refusal reaches the caller unchanged |
| `TaskLocals.TaskLocal.CurrentUserId` | crates/protocol/src/task_local.rs:35-37 | the user of the innermost scope, none outside every scope |
| `TaskLocals.TaskLocal.SetUserId` | crates/protocol/src/task_local.rs:40-44 | overwrites the innermost scope only, and does nothing outside |
| `TaskLocals.TaskLocal.Step` | crates/protocol/src/task_local.rs:51-56 | `scope_user_id` runs its body in a scope of its own and leaves the outer scopes as they were |
| `TaskLocals.ScopeKept` | crates/protocol/src/task_local.rs:51-56 | code can only ever change the innermost scope it runs in |
| `TaskLocals.UserKept` | crates/protocol/src/task_local.rs:35-56 | code that does not call `set_user_id` in its own scope keeps its user, whatever nested scopes do |
| `TaskLocals.ScopesNest` | crates/protocol/src/task_local.rs:35-56 | a nested scope reads its own user and the outer one is read again afterwards; a write outside every scope is lost |
| `ByteStreams.ByteSource.ReadExact` | crates/protocol/src/codec.rs:51-56 | fills the buffer from arbitrary pieces, or fails having read everything |
| `ByteStreams.ByteSink.WriteAll` | crates/protocol/src/codec.rs:25-26 | writes everything, or what the stream accepts before it breaks |
| `Codec.LengthRoundTrip` | crates/protocol/src/codec.rs:24-25 | the four length bytes, most significant first, and that they read back as the length |
| `Codec.FrameLayout` | crates/protocol/src/codec.rs:24-26 | where every byte of a frame stands: the length in the first four, most significant first, then the payload |
| `Codec.WritableExactly` | crates/protocol/src/codec.rs:9-22 | a value is written exactly when it can be encoded in at most 33554432 bytes |
| `Codec.ParseLayout` | crates/protocol/src/codec.rs:46-68 | the reader takes the weighted sum of the first four bytes as the length, refuses exactly the sums above 33554432, and decodes that many bytes |
| `Codec.WriteFrame` | crates/protocol/src/codec.rs:12-29 | nothing is written of a value that cannot be encoded or exceeds the limit; otherwise length and payload are, as far as the stream accepts them, then the flush; success exactly when all of it was accepted and flushed |
| `Codec.ReadFrameOpt` | crates/protocol/src/codec.rs:46-68 | for every chunking of the input, the result and the rest of the stream are those of the parsing function |
| `Codec.ReadFrame` | crates/protocol/src/codec.rs:34-43 | the same, with an end of stream reported as `ConnectionClosed` |
| `Codec.WriterTask` | crates/broker/src/session.rs:104-112 | the task writes the frames up to the first refused value, failed flush or break of the stream, and nothing after it |
| `Codec.ReaderLoop` | crates/client/src/client.rs:284-298 | the loop collects exactly the frames the stream holds and ends as the stream does |
| `Codec.FramesReadBack` | crates/protocol/src/codec.rs:12-68 | a concatenation of frames reads back as exactly the values that were written |
| `Codec.CutAnywhere` | crates/protocol/src/codec.rs:46-68 | a stream cut anywhere yields the whole frames before the cut, then a clean end if 0 to 3 header bytes are left over and an I/O error inside a body |
| `Codec.WriterReaderFifo` | crates/protocol/src/codec.rs:12-68 | writer task and reader loop over one stream are a FIFO that can lose only a suffix, wherever the stream breaks and whichever flush fails |
| `BusRegistration.StepRegistration` | crates/broker/src/session.rs:68-101 | every step keeps: generations are never shared, every entry belongs to a task that has not unregistered, and the session table is exactly the attached tasks |
| `BusRegistration.RetiredForGood` | crates/broker/src/registry.rs:37-66 | whatever step is taken, a generation that stopped being the registered one does not become it again |
| `BusRegistration.EntryLostOnlyToOwnerOrSuccessor` | crates/broker/src/registry.rs:53-66 | a registered connection loses its entry only to its own teardown or to a successor of the same service |
| `BusRegistration.SessionLostOnlyToOwner` | crates/broker/src/broker.rs:502-503 | a session leaves the table only by the `detach_session` of its own connection |
| `BusRegistration.NothingLeaks` | crates/broker/src/session.rs:186-188 | once every task is past its teardown, registry and session table are empty |
| `BusSafety.NeverRegisteredAgain` | crates/broker/src/registry.rs:37-66 | the same over the rest of any run |
| `BusSafety.ReachableRegistry` | crates/broker/src/session.rs:68-119 | in every reachable state: unshared generations, accounted entries, exact session table |
| `BusEffects.FirstFrame` | crates/broker/src/session.rs:24-53 | what each first frame leads to: a Hello of major version 1 goes on to the token, another version is told both versions, any other frame ends the connection without an answer |
| `BusEffects.TokenChecked` | crates/broker/src/session.rs:55-66 | the connection is admitted exactly on the stored token, the token is spent either way, and a refused peer is told `InvalidAuthToken` |
| `BusEffects.StepClientIds` | crates/broker/src/broker.rs:482-484 | every step keeps: every admitted connection has a client id of its own, below the counter |
| `BusSafety.ReachableClientIds` | crates/broker/src/broker.rs:482-484 | in every reachable state two admitted connections never share a client id |
| `BusEffects.DetachExactly` | crates/broker/src/broker.rs:502-512 | an undisturbed teardown takes its own session along, and the cached capabilities unless another generation is registered |
| `BusCalls.HandleTarget` | crates/broker/src/broker.rs:396-400 | the session a call finds is that of the very connection whose entry it copied |
| `BusCalls.StepCalls` | crates/broker/src/broker.rs:321-434 | every step keeps: a call's locals agree with how far it has come, and its entry and session denote one connection of the service it named |
| `BusEffects.LocalGateExactly` | crates/broker/src/broker.rs:331-349 | which error a local call gets from its catalog, and exactly when its handler is asked |
| `BusEffects.EntryExactly` | crates/broker/src/broker.rs:362-394 | which error a remote call gets when nobody is registered or the registered catalog refuses it, and exactly when it goes on with that entry |
| `BusEffects.SessionExactly` | crates/broker/src/broker.rs:396-400 | an admitted call fails with `ServiceNotFound` exactly when the session of the copied generation is missing |
| `BusEffects.LocalExactly` | crates/broker/src/broker.rs:331-360 | local services come first, a local answer is the call's outcome, and a late one is a timeout only when a timeout was set |
| `BusEffects.StepRequests` | crates/broker/src/broker.rs:260-267 | every step keeps: a probe asks for `capabilities` with the payload `{}` as nobody, and probes and routed calls have the default timeout |
| `BusSafety.ReachableRequests` | crates/broker/src/broker.rs:260-267 | the same for every probe and routed call of every reachable state |
| `BusEffects.MalformedInvoke` | crates/broker/src/session.rs:144-156 | a routing task fails at once with `BadRequest` exactly when the method has no dot |
| `BusSessions.StepSessions` | crates/broker/src/broker.rs:402-431 | every step keeps: each id ever drawn has exactly one of four fates, and a pending id leads to the call that drew it |
| `BusSafety.ReachableIds` | crates/broker/src/broker.rs:402-431 | in every reachable state `next_req_id - 1` is the number of ids answered plus timed out plus pending plus drawn but not inserted |
| `BusReplies.StepFinals` | crates/broker/src/broker.rs:402-433 | every step keeps: a finished call that drew an id was answered, timed out with its entry removed, or was refused by the send |
| `BusReplies.RefusedBySendOnly` | crates/broker/src/broker.rs:412-415 | a call that holds an id is refused only by its own send, on a channel whose receiver is gone |
| `BusSafety.ReachableLeftovers` | crates/broker/src/broker.rs:402-433 | in every reachable state a finished call still has its entry in `pending_out` if and only if its Invoke was refused and no Response took the id |
| `BusSafety.ReachableEntries` | crates/broker/src/broker.rs:402-433 | in every reachable state the owner of an entry in `pending_out` is a call in progress or one whose Invoke was refused |
| `BusSafety.ReachableOwnEntry` | crates/broker/src/broker.rs:402-431 | in every reachable state a call in progress that was neither answered nor timed out has its own entry and no other |
| `BusReplies.StepReplies` | crates/broker/src/session.rs:124-128 | every step keeps: a filled oneshot was filled by a Response with the call's id read on the call's own connection |
| `BusSafety.ReachableReplies` | crates/broker/src/broker.rs:417-433 | from every reachable state: a oneshot is filled at most once and only by the connection whose entry the call copied, with a Response for the call's id; a wait ends only with the call's own reply or its timeout |
| `BusReplies.LateResponseIgnored` | crates/broker/src/session.rs:124-128 | a Response whose id was answered, timed out or never drawn changes nothing but the stream |
| `BusSafety.CompletedOnce` | crates/broker/src/session.rs:124-128 | a reply once given to a call stays the same for the rest of the run |
| `BusSafety.ReachableSender` | crates/broker/src/broker.rs:417-431 | in every reachable state the sender of a waiting call is alive, even after its session was torn down |
| `BusReplies.SenderNeverDropped` | crates/broker/src/broker.rs:420-425 | the receiver-dropped arms of the wait cannot be taken |
| `BusChannels.StepChannels` | crates/broker/src/session.rs:69-112 | every step keeps: what was written or read is the ack followed by the queued frames in order |
| `BusSafety.ReachableStreams` | crates/broker/src/session.rs:69-112 | in every reachable state a peer has read a prefix of the ack followed by all frames queued since registration, and nothing is missing while the writer lives |
| `BusLogs.StepLogs` | crates/broker/src/broker.rs:406-415 | every step keeps: each queued frame is one its sender had to send on exactly this connection, and no call is queued twice |
| `BusSafety.ReachableInvokes` | crates/broker/src/broker.rs:380-415 | in every reachable state every Invoke ever queued names a method of the connection's own catalog and carries a user if its first declaration requires one |
| `BusProbes.LocalCallsAreGated` | crates/broker/src/broker.rs:332-349 | a local handler always has a catalog, and runs if and only if the catalog admits the call |
| `BusPeers.StepPeers` | crates/client/src/client.rs:171-361 | every step keeps the client's half: ids, pending entries, dispatch tasks and the frames it sent agree |
| `BusEffects.ClientReads` | crates/client/src/client.rs:304-341 | what a running client does with each frame: a Pong for a Ping, the signal for a Shutdown, a task of its own for an Invoke, nothing for a Response nobody waits for or any other frame |
| `BusEffects.ClientActs` | crates/client/src/client.rs:198-217 | what the client's own requests queue, as long as its connection takes frames, and what the end of the connection does to it |
| `BusEffects.ClientCalls` | crates/client/src/client.rs:160-196 | a new call carries what its caller asked for, and one made with `auto_caller` the user of the task it runs in |
| `BusEffects.ClientAnswers` | crates/client/src/client.rs:343-361 | a task answers once, under the id of its Invoke, and without a handler with `MethodNotFound` |
| `BusSafety.ReachableShutdown` | crates/client/src/client.rs:309-312 | in every reachable state the shutdown signal of a running client has fired if and only if it has read a Shutdown after its ack |
| `BusRouting.StepRoutes` | crates/broker/src/session.rs:138-170 | every step keeps: a routed call was spawned for one Invoke its connection read, and asks for what that Invoke said |
| `BusRouting.ReplyIsRouted` | crates/client/src/client.rs:321-324 | a client call that has a reply got it from the routing task of its own Invoke |
| `BusRouting.AnswerIsDispatched` | crates/client/src/client.rs:343-361 | a broker call answered by a client was answered by the dispatch task spawned for that very call |
| `BusRouting.TwoHopCall` | crates/broker/src/session.rs:138-170 | every reply a client call has received was decided by one broker call, and if a client answered it, by one run of its handler |
| `BusRouting.CarriedOnce` | crates/broker/src/session.rs:138-170 | a client call is carried by at most one broker call |
| `BusRouting.DispatchedOnce` | crates/client/src/client.rs:313-320 | a broker call is served by at most one dispatch task |
| `BusSafety.TwoHopRefinesDirectCall` | crates/client/src/client.rs:171-196 | in every reachable state a reply to `invoke` was decided by the one broker call that carries the call's own id: a broker error, a local service's answer, or what the only run of the named service's handler for that broker call returned for this method, payload and caller |
| `BusStopped.ClientSenderKept` | crates/client/src/client.rs:192-195 | a client call that waits keeps its sender in `pending`, so its own receiver-dropped arm is never taken |
| `BusStopped.NoReconnect` | crates/client/src/client.rs:259-302 | over the rest of any run a stopped client stays stopped, sends nothing, and nothing more arrives from it |
| `BusStopped.StoppedCallHangs` | crates/client/src/client.rs:300-302 | over the rest of any run after the stop: a call waiting without a reply stays exactly as it is, and every other call past queueing has its outcome |
| `BusStopped.StoppedCallEndsExactly` | crates/client/src/client.rs:300-302 | after the stop some continuation gives a call an outcome if and only if its slot was filled or its frame was not yet queued |
| `BusStopped.SomeCallHangs` | crates/client/src/client.rs:171-196 | a reachable state with a call that hangs for ever, for every service name |
| `BusRouting.HopKeepsUser` | crates/client/src/client.rs:160-167 | one nested hop made with `auto_caller` in an untouched scope keeps the user and is stamped with the service that made it |
| `BusSafety.ReachableChains` | crates/broker/src/session.rs:157-159 | in every reachable state, along a chain of any length every hop carries the root's user and the immediately preceding service |
| `BusProbes.StepProbes` | crates/broker/src/broker.rs:255-300 | every step keeps: a probe that resolved to another generation belongs to a connection replaced for good, so it cannot pass the check |
| `BusEffects.ProbeForgets` | crates/broker/src/broker.rs:255-267 | a probe first forgets the cached set, then asks the service it was started for |
| `BusEffects.ProbeDecides` | crates/broker/src/broker.rs:268-298 | an answer is kept exactly when it is a parsed success and the probed generation is the registered one |
| `BusSafety.ReachableCapabilities` | crates/broker/src/broker.rs:255-300 | in every reachable state, unless a local service shadows the name, a cached capability set was answered by the connection of the generation whose probe stored it |
| `BusStale.CurrentExactly` | crates/broker/src/broker.rs:255-300 | registering a connection leaves whatever is cached, about to be stored or about to be dropped for its service to the registered generation if and only if there is no such thing at that moment |
| `BusStale.StepCurrent` | crates/broker/src/broker.rs:255-300 | no other step puts the cache out of order |
| `BusSafety.CacheStaysCurrent` | crates/broker/src/broker.rs:255-300 | in a run that registers a service only while nothing is cached, approved or being dropped for it, its cache is in order in every state |
| `BusSafety.CurrentSetIsRegistered` | crates/broker/src/broker.rs:255-300 | in order, the cached set of a registered service was answered by the registered connection |
| `BusStale.StaleSetStored` | crates/broker/src/broker.rs:285-298 | a reachable state in which a probe stores its set after another generation was registered |
| `BusStale.CurrentSetDropped` | crates/broker/src/broker.rs:502-512 | a reachable state in which a teardown drops the set of the generation registered since its check |
| `BusEvents.StepEvents` | crates/broker/src/broker.rs:463-478 | every step keeps: each queued event is a recorded publication, on the one connection its service was served on |
| `BusSubscriptions.StepHolds` | crates/broker/src/session.rs:132-137 | a step makes a service hold a prefix exactly by reading its Subscribe, and stop holding it exactly by reading its Unsubscribe |
| `BusSubscriptions.HoldsExactly` | crates/broker/src/session.rs:132-137 | in every state of every run a service holds a prefix if and only if the last Subscribe or Unsubscribe of it read from any of its connections was a Subscribe |
| `BusSubscriptions.SelectedExactly` | crates/broker/src/broker.rs:463-472 | over every run a service is selected for a publication if and only if it is another one and its last frame about some prefix of the topic was a Subscribe |
| `BusSubscriptions.SnapshotExactly` | crates/broker/src/broker.rs:463-472 | a snapshot records and queues exactly the selected services, each once |
| `BusPublications.StepPublications` | crates/broker/src/session.rs:129-131 | every step keeps: the publications of a connection, and the one in hand, are exactly the Publish frames read from it, stamped, in order |
| `BusPublications.EventProvenance` | crates/broker/src/broker.rs:463-478 | an event is a Publish frame read from a connection of another service, unchanged but stamped with that service, and its receiver had been selected for it |
| `BusSafety.ReachableOneEvent` | crates/broker/src/broker.rs:473-477 | in every reachable state a service has got a Publish frame as an event at most once, even when it reconnects during the fan-out |
| `BusPublications.PublicationOrder` | crates/broker/src/session.rs:129-131 | events of one publishing connection reach a subscriber connection in the order in which their Publish frames were sent |
| `BusSafety.ReachableEvents` | crates/broker/src/broker.rs:463-478 | origin and order of events in every reachable state |
| `BusSafety.ReachablePublished` | crates/broker/src/broker.rs:463-478 | in every reachable state each Publish frame read is recorded or in hand, and after its fan-out every selected service was unregistered at its turn or had the event queued, unless that channel had closed |
| `BusAdmission.StepAdmission` | crates/broker/src/broker.rs:117-131 | every step keeps: minted strings carry their counter, live tokens are the latest placed, and every admitted connection spent one of its own |
| `BusAdmission.TokenAdmitsOnce` | crates/broker/src/session.rs:55-66 | no token string admits two connections, whatever services they claim |
| `BusSafety.ReachableAdmitted` | crates/broker/src/session.rs:55-66 | from every reachable state a Hello is admitted if and only if it carries the latest token placed for its service and that token is unspent |
| `BusSafety.ReachableTokenLost` | crates/broker/src/session.rs:40-66 | from every reachable state a stored token is lost only to a newer one or to a Hello for its service under the broker's own major version |
| `BusSafety.ReachableAdmissions` | crates/broker/src/broker.rs:117-131 | in every reachable state accepted Hellos plus live tokens never exceed the tokens issued, and no token string admits two connections |
| `BusDelivery.StepDelivery` | crates/broker/src/session.rs:138-170 | every step keeps: every Invoke read is routed or dispatched, every ended route or dispatch was answered, an answered id is not pending, and a nested call is younger than its parent |
| `BusWork.StepWork` | crates/client/src/client.rs:313-320 | every step either is an outside stimulus of bounded cost or uses up work |
| `BusWork.FragmentBounded` | crates/client/src/client.rs:313-320 | from any state that keeps the invariants, the number of steps is bounded by the work present and the stimuli received |
| `BusWork.RunBounded` | crates/client/src/client.rs:313-320 | from the empty broker a run is never longer than its stimuli allow, through nested calls, timeouts and disconnects |
| `BusProgress.NoDeadlock` | crates/client/src/client.rs:313-320 | when the bus has no step left, no call was lost with its connection and every running handler waits for a call of its own, then no handler and no call is left |
| `BusProgress.NoneLostWhileUp` | crates/broker/src/broker.rs:396-415 | while every connection is up, no call in flight is lost |
| `BusSafety.ReachableNoDeadlock` | crates/client/src/client.rs:313-320 | the same in every reachable state |
| `BusSafety.StepKeepsInvariant` | crates/broker/src/session.rs:17-189 | every step of every component keeps all invariants together |
| `BusSafety.ReachableOk` | crates/broker/src/session.rs:17-189 | all invariants hold in every reachable state |
| `BusNewest.NewestExactly` | crates/broker/src/registry.rs:38-44 | after an entry is stored, nobody who ever stored one for the service is newer than the registered connection if and only if nobody newer had stored before |
| `BusNewest.NewestWins` | crates/broker/src/registry.rs:38-44 | throughout a run in which no two handshakes of a service stand between counter and map at once, the registered connection is the newest that stored an entry |
| `BusLimits.OlderGenerationCanWin` | crates/broker/src/registry.rs:38-44 | for every service a reachable state in which two racing registrations have left the older generation registered |
| `BusLimits.RegisteredWithoutSession` | crates/broker/src/session.rs:78-118 | a call that copied an entry fails to find the session if and only if the connection is not attached, which for a registered one means before `attach_session` or after `detach_session` |
| `BusLimits.FailsBeforeAttach` | crates/broker/src/session.rs:78-118 | a reachable state in which a call to a registered service fails because its session is not attached yet |
| `BusLimits.FailsAfterDetach` | crates/broker/src/session.rs:186-187 | a reachable state in which a call to a registered service fails because its session is already detached |
| `BusLimits.WrongTokenSpends` | crates/broker/src/broker.rs:126-131 | after a Hello with a wrong token, until a token is placed for the service again, every Hello for it is refused in any continuation of the run |
| `BusLimits.RightTokenRefused` | crates/broker/src/broker.rs:126-131 | a reachable state in which the holder of the right token is refused after another's wrong guess |
| `BusLimits.FailedSendLeavesEntry` | crates/broker/src/broker.rs:404-415 | a reachable state in which a call whose Invoke could not be queued has left its pending entry behind |
| `Topics.DottedMatchOnCharacters` | crates/protocol/src/frame.rs:234-237 | the documented match on dotted segments, told on characters: equality, or the prefix followed by a dot |
| `Topics.MatchDiffersExactly` | crates/broker/src/broker.rs:469 | for every prefix and topic the code's match differs from the documented one if and only if the prefix ends inside a segment of the topic |
| `Topics.OverreachExactly` | crates/broker/src/broker.rs:469 | a set of prefixes draws in an undocumented topic if and only if some prefix starts it and each that does ends inside a segment |
| `Topics.TrailingDotMeansDescendants` | crates/broker/src/broker.rs:469 | a subscription to a prefix with a dot behind it matches exactly the strict dotted descendants |
| `Topics.PrefixIgnoresDots` | crates/broker/src/broker.rs:469 | a topic outside the documented match that is delivered |
| `Restarts.Backoff.Bump` | crates/supervisor/src/lib.rs:106-110 | returns the current wait and doubles it up to 300 s |
| `Restarts.Backoff.Reset` | crates/supervisor/src/lib.rs:111-113 | back to one second |
| `Restarts.ResidentLoop` | crates/supervisor/src/lib.rs:239-274 | each round of a resident loop waits by the counter of the `AppState` it found, with a reset before the wait after a clean exit |
| `Restarts.WaitsPerApp` | crates/supervisor/src/lib.rs:239-274 | the waits counted by one `AppState` depend on its own rounds alone, however rounds of others come between |
| `Restarts.WaitClosedForm` | crates/supervisor/src/lib.rs:95-114 | the k-th failed round of an `AppState` waits min(2^k, 300) s, k counted from 0 on a fresh one and from 1 after a clean exit; a clean exit waits 1 s |
| `Restarts.FailuresTakeTotal` | crates/supervisor/src/lib.rs:95-114 | n failures from a fresh state wait 2^n - 1 s for n up to 9 and 511 + 300(n - 9) s beyond |
| `Restarts.FailingSpawnRate` | crates/supervisor/src/lib.rs:239-274 | how many failing spawns of one loop fit into a window of time |
| `Restarts.SpawnRate` | crates/supervisor/src/lib.rs:239-274 | at most one spawn a second, whatever the children do and however often the `AppState` is replaced |
| `Supervisor.StepOk` | crates/supervisor/src/lib.rs:206-275 | every step keeps: a lock is held by the task inside its critical section, and each live child is in its slot or in the hands of the stop task holding the lock |
| `Supervisor.AtMostOneChild` | crates/supervisor/src/lib.rs:206-275 | in every reachable state an `AppState` has at most one live child, and where it is |
| `SupervisorTasks.EnsureUp` | crates/supervisor/src/lib.rs:230-236 | an `ensure_up` that meets no error ends with a running child of that `AppState` in its slot; it spawned one if and only if none was running, and left a running one alone |
| `SupervisorTasks.EnsureUpAlone` | crates/supervisor/src/lib.rs:223-237 | undisturbed, from the lookup on: nothing without an entry, and otherwise a running child of the entry's `AppState` |
| `SupervisorTasks.LoopStep` | crates/supervisor/src/lib.rs:239-274 | a resident loop stops exactly when the service is unregistered or the slot is empty when it comes back to wait |
| `SupervisorTasks.LoopEndsExactly` | crates/supervisor/src/lib.rs:239-274 | over any stretch of a run a resident loop goes on if and only if it never took such a step |
| `SupervisorTasks.RestartsChild` | crates/supervisor/src/lib.rs:239-274 | after its child has gone a resident loop can take its next five steps, and undisturbed they leave a fresh running child in the slot |
| `SupervisorTasks.FailedSpawn` | crates/supervisor/src/lib.rs:246-252 | a failed spawn keeps the lock through the backoff, changes no child, and leads back to the lookup |
| `SupervisorTasks.UnregisterAlone` | crates/supervisor/src/lib.rs:195-220 | undisturbed, an unregistration does nothing without an entry, and otherwise stops the child and removes the entry |
| `SupervisorTasks.ReplaceAlone` | crates/supervisor/src/lib.rs:169-192 | undisturbed, a replacement stops the old child, puts a fresh `AppState` in place, and starts a loop exactly for a resident app |
| `SupervisorTasks.FromLookup` | crates/supervisor/src/lib.rs:170-220 | the same from the lookup of `stop_service` on, for both callers, also when the entry has gone in the meantime |
| `SupervisorTasks.RegisterAdds` | crates/supervisor/src/lib.rs:143-151 | registering puts a fresh `AppState` in place and starts nothing |
| `SupervisorTasks.GoesExactly` | crates/supervisor/src/lib.rs:206-275 | a task stands still if and only if it is done, waits for a running child, or waits for a lock another task holds |
| `SupervisorTasks.OnlyChildrenAreAwaited` | crates/supervisor/src/lib.rs:206-275 | in every reachable state where no task can go on, only loops with running children and tasks queued behind such loops are left |
| `StopService.StopMovesExactly` | crates/supervisor/src/lib.rs:206-210 | a stop can take the lock of the slot in the next step if and only if no task is inside the critical section |
| `StopService.StopStaysBlocked` | crates/supervisor/src/lib.rs:254-261 | over any continuation in which the child neither exits by itself nor its wait fails: the loop waits, the child lives and the stop has not begun |
| `StopService.StopBeginsExactly` | crates/supervisor/src/lib.rs:206-275 | some continuation without a child exit or failed wait lets the stop begin if and only if the lock is not held by a loop waiting for a live child |
| `StopService.StopCanBeBlocked` | crates/supervisor/src/lib.rs:193-210 | for every service a reachable state in which a stop stands blocked behind such a loop |
| `StopService.StopLeavesNoChild` | crates/supervisor/src/lib.rs:210-219 | when a stop lets go of the slot its `AppState` has no live child |
| `ServiceChildren.TwoChildrenExactly` | crates/supervisor/src/lib.rs:141-201 | in every reachable state a service has two live children if and only if one of them belongs to a replaced or removed `AppState` |
| `ServiceChildren.OneChildPerService` | crates/supervisor/src/lib.rs:141-201 | if an `AppState` is only ever added when no earlier one of the service has a live child or a task holding on to it, every service has at most one live child |
| `ServiceChildren.TwoChildrenOfOneService` | crates/supervisor/src/lib.rs:141-151 | a reachable state in which a re-registered service has two live children |
| `OpsAgree.ChecksResolve` | crates/broker/src/broker.rs:332-400 | undisturbed, the check steps of a call arrive at what `Broker.ResolveCall` computes |
| `OpsAgree.FansOutSends` | crates/broker/src/broker.rs:473-477 | undisturbed, the fan-out steps send to exactly the connections `Broker.Fanout` does, in order |
| `OpsAgree.FramesAlike` | crates/broker/src/session.rs:121-184 | each step of the frame loop changes tables and pending table as `SessionOps.OnFrame` states, and goes on to the same effect |
| `OpsAgree.RoutedAlike` | crates/broker/src/session.rs:138-170 | the call spawned for an Invoke is the one the frame loop decides on |
| `OpsAgree.AcknowledgedAlike` | crates/client/src/client.rs:113-127 | the client's tasks start exactly when `establish` returns a connection |
| `OpsAgree.ScopesAlike` | crates/protocol/src/task_local.rs:35-56 | user of a dispatch task in the bus and innermost task-local scope are read and written alike |

## Left out

- Sockets, named pipes, stale-socket cleanup, `listen` and `accept_loop`: an accepted connection is a step of the host.
- MessagePack and JSON: abstract functions; the capability parser is a parameter of the bus.
- The auth and cli crates, the axum adapters and `auth_middleware`: foreign libraries or text formatting.
- Spawning details of a child (environment, `pre_exec`, log forwarding, `svc_color`): input and output only.
- The clock: timeouts are steps that may happen at any time; only backoff and the connect loop count time.
- Heartbeats, stream frames, `Ping` from the broker and delivery of events inside the client: there is no sender for
  them, or only a stub.
- `shutdown_service`: it queues one Shutdown frame on the channel of the registered connection; the client's reaction to
  that frame is modelled, the step of the host that sends it is not.
- Idle exit, `last_activity` and the `Notify` of the client: a shutdown fired early is missed, so nothing is promised.
- 64-bit wrap-around of generations, client ids and request ids: counters are unbounded; the token counter is bounded.
- `serve`, the routing tasks, `call_with_timeout` and the client's loops as one imperative body: they run concurrently and
  are steps of the bus; `SessionOps.OnFrame` and `Broker.ResolveCall` give their sequential parts.
- Cancellation of a call by its caller: a future that is started is polled until it returns.
- Updates in place inside a DashMap shard and lock contention: a map operation is one step.
- The log line about methods missing from cached capabilities: it changes nothing.
- Errors other than a clean end on a frame read: `serve` and the client treat both alike, so both are one step.
- Debug text of a frame inside an error message: `FirstReply` gives the fixed part of the message only.
- BusProgress.NoDeadlock: an in-process handler of a local service is assumed to return when its turn comes.
- Supervisor.AtMostOneChild: a child dropped with its slot is killed in the same step, as `kill_on_drop` asks.
