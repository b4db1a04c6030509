/** All invariants together, over every run from the empty broker, and what they mean for every reachable state. */
module BusSafety {
  import opened Prelude
  import opened Frames
  import opened ServiceRegistry
  import opened BrokerTables
  import opened Connection
  import opened Bus
  import opened BusSteps
  import Client = ClientState
  import opened ClientInvariants
  import opened BusRegistration
  import opened BusCalls
  import opened BusSessions
  import opened BusReplies
  import opened BusChannels
  import opened BusLogs
  import opened BusPeers
  import opened BusRouting
  import opened BusDelivery
  import opened BusEvents
  import opened BusFanout
  import opened BusProbes
  import opened BusAdmission
  import opened BusWork
  import opened BusProgress
  import opened BusPublications
  import opened BusEffects
  import opened BusStale

  ghost predicate SideOk(cfg: Config, s: State) {
    EventsOk(s) && FanoutOk(s) && CapabilitiesOk(cfg, s) && LocalCatalogsOk(s) && AdmissionOk(s) && SubscribersOk(s)
  }

  /** What the histories record is what happened. */
  ghost predicate RecordsOk(cfg: Config, s: State) {
    PublicationsOk(s) && FinalsOk(s) && ClientIdsOk(s) && RequestsOk(cfg, s)
  }

  ghost predicate Invariant(cfg: Config, s: State) {
    BusOk(cfg, s) && DeliveryOk(s) && SideOk(cfg, s) && RecordsOk(cfg, s)
  }

  lemma InitialOk(cfg: Config)
    ensures Invariant(cfg, INITIAL)
  {
    InitialRecords(cfg);
    assert BusOk(cfg, INITIAL);
    assert SideOk(cfg, INITIAL);
  }

  lemma InitialRecords(cfg: Config)
    ensures RecordsOk(cfg, INITIAL)
  {
  }

  lemma StepBus(cfg: Config, s: State, t: State, step: Step)
    requires Next(cfg, s, t, step) && BusOk(cfg, s)
    ensures BusOk(cfg, t)
  {
    CountersFromTables(s);
    StepRegistration(cfg, s, t, step);
    StepCalls(cfg, s, t, step);
    StepSessions(cfg, s, t, step);
    StepReplies(cfg, s, t, step);
    StepChannels(cfg, s, t, step);
    StepLogs(cfg, s, t, step);
    StepPeers(cfg, s, t, step);
    StepRoutes(cfg, s, t, step);
  }

  lemma StepSide(cfg: Config, s: State, t: State, step: Step)
    requires Next(cfg, s, t, step) && Registered(s) && CallsOk(s) && CountersPositive(s) && SideOk(cfg, s)
    ensures SideOk(cfg, t)
  {
    StepEvents(cfg, s, t, step);
    StepFanout(cfg, s, t, step);
    StepProbes(cfg, s, t, step);
    StepCache(cfg, s, t, step);
    StepLocalCatalogs(cfg, s, t, step);
    StepAdmission(cfg, s, t, step);
    StepSubscribers(cfg, s, t, step);
  }

  lemma StepRecords(cfg: Config, s: State, t: State, step: Step)
    requires Next(cfg, s, t, step) && BusOk(cfg, s) && CountersPositive(s) && RecordsOk(cfg, s)
    ensures RecordsOk(cfg, t)
  {
    StepPublications(cfg, s, t, step);
    StepFinals(cfg, s, t, step);
    StepClientIds(cfg, s, t, step);
    StepRequests(cfg, s, t, step);
  }

  /** Every step of every component keeps every invariant. */
  lemma StepKeepsInvariant(cfg: Config, s: State, t: State, step: Step)
    requires Next(cfg, s, t, step) && Invariant(cfg, s)
    ensures Invariant(cfg, t)
  {
    CountersFromTables(s);
    StepBus(cfg, s, t, step);
    StepDelivery(cfg, s, t, step);
    StepSide(cfg, s, t, step);
    StepRecords(cfg, s, t, step);
  }

  lemma FragmentKeepsInvariant(cfg: Config, states: seq<State>, steps: seq<Step>, k: nat)
    requires IsFragment(cfg, states, steps) && k < |steps| && Invariant(cfg, states[k])
    ensures Invariant(cfg, states[k + 1])
  {
    FragmentNext(cfg, states, steps, k);
    StepKeepsInvariant(cfg, states[k], states[k + 1], steps[k]);
  }

  lemma {:induction false} FragmentInvariant(cfg: Config, states: seq<State>, steps: seq<Step>, k: nat)
    requires IsFragment(cfg, states, steps) && Invariant(cfg, states[0]) && k < |states|
    ensures Invariant(cfg, states[k])
  {
    if k > 0 {
      FragmentInvariant(cfg, states, steps, k - 1);
      FragmentKeepsInvariant(cfg, states, steps, k - 1);
    }
  }

  lemma RunKeepsInvariant(cfg: Config, states: seq<State>, steps: seq<Step>, k: nat)
    requires IsRun(cfg, states, steps) && k < |states|
    ensures Invariant(cfg, states[k])
  {
    InitialOk(cfg);
    FragmentInvariant(cfg, states, steps, k);
  }

  lemma ReachableOk(cfg: Config, s: State)
    requires Reachable(cfg, s)
    ensures Invariant(cfg, s)
  {
    var states, steps :| IsRun(cfg, states, steps) && states[|states| - 1] == s;
    RunKeepsInvariant(cfg, states, steps, |states| - 1);
  }

  // ----- over runs ----------------------------------------------------------------------------------------

  lemma RunRetires(cfg: Config, states: seq<State>, steps: seq<Step>, k: nat, i: nat)
    requires IsRun(cfg, states, steps) && k < |steps| && Retired(states[k], i)
    ensures Retired(states[k + 1], i)
  {
    RunKeepsInvariant(cfg, states, steps, k);
    FragmentNext(cfg, states, steps, k);
    RetiredForGood(cfg, states[k], states[k + 1], steps[k], i);
  }

  /** No ABA: once a generation has stopped being the registered one, it never is again in the rest of the run. */
  lemma {:induction false} NeverRegisteredAgain(cfg: Config, states: seq<State>, steps: seq<Step>, k: nat, l: nat,
                                                i: nat)
    requires IsRun(cfg, states, steps) && k <= l < |states| && Retired(states[k], i)
    ensures Retired(states[l], i)
  {
    if k < l {
      NeverRegisteredAgain(cfg, states, steps, k, l - 1, i);
      RunRetires(cfg, states, steps, l - 1, i);
    }
  }

  predicate CompletedWith(s: State, n: nat, reply: Reply) {
    n < |s.calls| && s.calls[n].slot == Some(reply)
  }

  lemma RunCompletes(cfg: Config, states: seq<State>, steps: seq<Step>, k: nat, n: nat, reply: Reply)
    requires IsRun(cfg, states, steps) && k < |steps| && CompletedWith(states[k], n, reply)
    ensures CompletedWith(states[k + 1], n, reply)
  {
    RunKeepsInvariant(cfg, states, steps, k);
    FragmentNext(cfg, states, steps, k);
    StillCompleted(cfg, states[k], states[k + 1], steps[k], n);
  }

  /** A reply, once in a call's oneshot, stays for the rest of the run: no call is ever completed twice. */
  lemma {:induction false} CompletedOnce(cfg: Config, states: seq<State>, steps: seq<Step>, k: nat, l: nat, n: nat,
                                         reply: Reply)
    requires IsRun(cfg, states, steps) && k <= l < |states| && CompletedWith(states[k], n, reply)
    ensures CompletedWith(states[l], n, reply)
  {
    if k < l {
      CompletedOnce(cfg, states, steps, k, l - 1, n, reply);
      RunCompletes(cfg, states, steps, l - 1, n, reply);
    }
  }

  lemma StillCompleted(cfg: Config, s: State, t: State, step: Step, n: nat)
    requires Next(cfg, s, t, step) && BusOk(cfg, s) && n < |s.calls| && s.calls[n].slot.Some?
    ensures n < |t.calls| && t.calls[n].slot == s.calls[n].slot
  {
    CountersFromTables(s);
    StepCallEffect(cfg, s, t, step);
    EffectAdvances(s, t, Touched(s, step));
    if t.calls[n].slot != s.calls[n].slot {
      FilledByOwnConnection(cfg, s, t, step, n);
    }
  }

  // ----- in every reachable state ---------------------------------------------------------------------------

  /** Broker call `k` was spawned for call `n` of the client on connection `i`. */
  predicate Carries(k: Call, i: nat, n: nat) {
    k.origin.Routed? && k.origin.conn == i && k.origin.reqId == n + 1
  }

  ghost predicate OnlyCarrier(s: State, i: nat, n: nat, c: nat) {
    forall b :: 0 <= b < |s.calls| && Carries(s.calls[b], i, n) ==> b == c
  }

  /** Dispatch `d` is the only one the client of connection `j` ever spawned for request id `r`. */
  ghost predicate OnlyRun(s: State, j: nat, r: nat, d: nat)
    requires j < |s.apps| && s.apps[j].Managed?
  {
    forall e :: 0 <= e < |s.apps[j].client.dispatches| && s.apps[j].client.dispatches[e].reqId == r ==> e == d
  }

  /**
   * Dispatch `d` on connection `j` is the one run of the target's handler that broker call `c` asked for on behalf of
   * call `n` of the client on connection `i`, and `reply` is what it returned.
   */
  ghost predicate RanHandler(s: State, i: nat, n: nat, c: nat, j: nat, d: nat, reply: Reply)
    requires i < |s.apps| && s.apps[i].Managed? && n < |s.apps[i].client.invokes| && c < |s.calls|
  {
    && i < |s.serves| && j < |s.serves| && j < |s.apps| && s.apps[j].Managed? && d < |s.apps[j].client.dispatches|
    && s.serves[i].hello.Some? && s.serves[j].hello.Some? && s.calls[c].handle == Some(j)
    && var k, h := s.apps[i].client.invokes[n], s.apps[j].client.dispatches[d];
       && s.serves[j].hello.value.service == k.service
       && h.reqId == s.calls[c].reqId > 0 && h.methodName == k.methodName && h.payload == k.payload
       && h.caller == k.caller.(callerAppId := Some(s.serves[i].hello.value.service))
       && h.reply == Some(reply) && OnlyRun(s, j, h.reqId, d)
  }

  /** Broker call `c` is the one that carries client call `n` of connection `i`, and this is how it got `reply`. */
  ghost predicate DecidedBy(s: State, i: nat, n: nat, c: nat, reply: Reply)
    requires i < |s.apps| && s.apps[i].Managed? && n < |s.apps[i].client.invokes|
  {
    && c < |s.calls| && Carries(s.calls[c], i, n) && OnlyCarrier(s, i, n, c) && s.calls[c].outcome.Some?
    && match s.calls[c].outcome.value
       case Failed(e) => reply == Err(e)
       case LocalAnswer(r) =>
         reply == r && s.calls[c].service == s.apps[i].client.invokes[n].service
         && s.calls[c].service in s.tab.localServices
       case Answered(r) =>
         && reply == r && s.calls[c].entry.Some? && s.calls[c].entry.value.tx < |s.apps|
         && var j := s.calls[c].entry.value.tx;
            && j < |s.serves| && s.serves[j].hello.Some?
            && s.serves[j].hello.value.service == s.apps[i].client.invokes[n].service
            && ReadReply(s.inbs, j, s.calls[c].answeredAt, s.calls[c].reqId, reply)
            && (s.apps[j].Managed? ==> exists d: nat :: RanHandler(s, i, n, c, j, d, reply))
  }

  /**
   * A two-hop call refines a direct call. In every reachable state, a reply that `invoke` of `service.method` has
   * received was decided by the one broker call spawned for it: it is an error of the broker, the answer of a local
   * service of that name, or a Response with the broker call's id read from a connection of that service. When that
   * connection is a client's, it is what the one run of the handler for it returned for exactly this method, payload
   * and user. The service name must have no dot; otherwise another service is asked.
   */
  lemma TwoHopRefinesDirectCall(cfg: Config, s: State, i: nat, n: nat)
    requires Reachable(cfg, s) && i < |s.apps| && s.apps[i].Managed? && n < |s.apps[i].client.invokes|
    requires s.apps[i].client.invokes[n].slot.Some? && '.' !in s.apps[i].client.invokes[n].service
    ensures exists c: nat :: DecidedBy(s, i, n, c, s.apps[i].client.invokes[n].slot.value)
  {
    ReachableOk(cfg, s);
    TwoHopCall(cfg, s, i, n);
    var reply := s.apps[i].client.invokes[n].slot.value;
    var c: nat :| CarriedBy(s, i, n, c, reply);
    assert ProbeOk(cfg, s, s.calls[c]);
    CarriedIsDecided(cfg, s, i, n, c, reply);
  }

  lemma CarriedIsDecided(cfg: Config, s: State, i: nat, n: nat, c: nat, reply: Reply)
    requires BusOk(cfg, s) && i < |s.apps| && s.apps[i].Managed? && n < |s.apps[i].client.invokes|
    requires '.' !in s.apps[i].client.invokes[n].service && CarriedBy(s, i, n, c, reply)
    requires LocalOk(s.tab.localServices, s.calls[c])
    ensures DecidedBy(s, i, n, c, reply)
  {
    AddressedAsNamed(s.calls[c], s.apps[i].client.invokes[n], s.serves[i].hello.value.service);
    CarriedByOne(s, i, n, c);
    assert LocalsOk(s.calls[c]) && TargetOk(s.serves, s.calls[c]) && SlotOk(s.calls[c], s.sess, s.inbs);
    if s.calls[c].outcome.value.Answered? && s.apps[s.calls[c].entry.value.tx].Managed? {
      CarriedRan(cfg, s, i, n, c, reply);
    }
  }

  lemma CarriedByOne(s: State, i: nat, n: nat, c: nat)
    requires RoutesOk(s) && PeersOk(s) && i < |s.apps| && s.apps[i].Managed? && c < |s.calls|
    requires Carries(s.calls[c], i, n)
    ensures OnlyCarrier(s, i, n, c)
  {
    forall b | 0 <= b < |s.calls| && Carries(s.calls[b], i, n)
      ensures b == c
    {
      CarriedOnce(s, i, b, c);
    }
  }

  lemma DispatchedByOne(cfg: Config, s: State, j: nat, d: nat)
    requires BusOk(cfg, s) && j < |s.apps| && s.apps[j].Managed? && d < |s.apps[j].client.dispatches|
    ensures OnlyRun(s, j, s.apps[j].client.dispatches[d].reqId, d)
  {
    var ds := s.apps[j].client.dispatches;
    forall e | 0 <= e < |ds| && ds[e].reqId == ds[d].reqId
      ensures e == d
    {
      DispatchedOnce(cfg, s, j, e, d);
    }
  }

  lemma CarriedRan(cfg: Config, s: State, i: nat, n: nat, c: nat, reply: Reply)
    requires BusOk(cfg, s) && i < |s.apps| && s.apps[i].Managed? && n < |s.apps[i].client.invokes|
    requires '.' !in s.apps[i].client.invokes[n].service && CarriedBy(s, i, n, c, reply)
    requires s.calls[c].outcome.value.Answered? && s.apps[s.calls[c].entry.value.tx].Managed?
    ensures exists d: nat :: RanHandler(s, i, n, c, s.calls[c].entry.value.tx, d, reply)
  {
    var k := s.calls[c];
    var j := k.entry.value.tx;
    AddressedAsNamed(k, s.apps[i].client.invokes[n], s.serves[i].hello.value.service);
    assert LocalsOk(k) && TargetOk(s.serves, k);
    var d: nat :| AnsweredByDispatch(s, j, d, k, reply);
    DispatchedByOne(cfg, s, j, d);
    assert RanHandler(s, i, n, c, j, d, reply);
  }

  /** In a reachable state no deadlock is possible; see `BusProgress.NoDeadlock`. */
  lemma ReachableNoDeadlock(cfg: Config, s: State)
    requires Reachable(cfg, s) && Quiet(cfg, s) && HandlersWait(s) && NoneLost(s)
    ensures forall n :: 0 <= n < |s.calls| ==> Over(s.calls[n])
    ensures forall i: nat :: Live(s, i) ==> ClientDone(s.apps[i].client)
  {
    ReachableOk(cfg, s);
    NoDeadlock(cfg, s);
  }

  /** Two connections never share a generation, and both tables name only connections that still hold their place. */
  lemma ReachableRegistry(cfg: Config, s: State, i: nat, j: nat)
    requires Reachable(cfg, s) && i < j < |s.serves| && s.serves[i].generation > 0
    ensures s.serves[i].generation != s.serves[j].generation
    ensures forall svc :: svc in s.reg.entries ==> EntryOk(s.serves, svc, s.reg.entries[svc])
    ensures SessionsExact(s.serves, s.tab.sessions)
  {
    ReachableOk(cfg, s);
  }

  // ----- more of what holds in every reachable state -------------------------------------------------------

  /** Every request id drawn on a connection was answered, timed out, is pending or is about to be inserted. */
  lemma ReachableIds(cfg: Config, s: State, j: nat)
    requires Reachable(cfg, s) && j < |s.sess|
    ensures var x := s.sess[j];
            x.nextReqId - 1 == |x.answered| + |x.expired| + |x.pendingOut| + |Undecided(x, s.calls)|
  {
    ReachableOk(cfg, s);
    RequestIdsConserved(s, j);
  }

  /** An id in a pending table belongs to a call in progress or to one whose Invoke was refused. */
  lemma ReachableEntries(cfg: Config, s: State, j: nat, r: nat)
    requires Reachable(cfg, s) && j < |s.sess| && r in s.sess[j].pendingOut
    ensures s.sess[j].pendingOut[r] < |s.calls|
    ensures var k := s.calls[s.sess[j].pendingOut[r]];
            k.handle == Some(j) && k.reqId == r && (Refused(k) || 7 <= CallRank(k.pc) <= 9)
  {
    ReachableOk(cfg, s);
    EntryOwner(s, j, r);
  }

  /** A finished call still has its entry exactly when its Invoke was refused and no Response has taken the id. */
  lemma ReachableLeftovers(cfg: Config, s: State, n: nat, j: nat)
    requires Reachable(cfg, s) && n < |s.calls| && s.calls[n].outcome.Some?
    requires s.calls[n].reqId > 0 && s.calls[n].handle == Some(j)
    ensures j < |s.sess|
    ensures s.calls[n].reqId in s.sess[j].pendingOut <==>
              Refused(s.calls[n]) && s.calls[n].reqId !in s.sess[j].answered
  {
    ReachableOk(cfg, s);
    FinishedEntry(s, n, j);
  }

  /** While a broker call waits without a reply its sender is alive. */
  lemma ReachableSender(cfg: Config, s: State, n: nat)
    requires Reachable(cfg, s) && n < |s.calls| && s.calls[n].pc == Waiting && s.calls[n].slot.None?
    ensures Aligned(s) && SenderAlive(s, n)
  {
    ReachableOk(cfg, s);
    WaitingSenderAlive(s, n);
  }

  lemma ReachableCapabilities(cfg: Config, s: State, svc: string)
    requires Reachable(cfg, s) && svc in s.tab.capabilities && svc !in s.tab.localServices
    ensures AnsweredByProbed(cfg, s, s.tab.capabilities[svc])
  {
    ReachableOk(cfg, s);
    CapabilityProvenance(cfg, s, svc);
  }

  lemma ReachableStreams(cfg: Config, s: State, i: nat)
    requires Reachable(cfg, s) && i < |s.serves| && s.serves[i].generation > 0
    ensures Aligned(s) && ReadsPrefix(s.chans[i], HelloAck(s.serves[i].clientId, cfg.heartbeatMs))
  {
    ReachableOk(cfg, s);
    PeerReadsPrefix(cfg, s, i);
  }

  /** However long a chain of nested calls, the user stays and each hop is stamped with the service before it. */
  lemma ReachableChains(cfg: Config, s: State, calls: seq<nat>)
    requires Reachable(cfg, s) && Chain(s, calls)
    ensures forall k :: 0 <= k < |calls| ==> SameUser(s, calls[0], calls[k])
    ensures forall k :: 0 <= k < |calls| - 1 ==> StampedBy(s, calls[k], calls[k + 1])
  {
    ReachableOk(cfg, s);
    ChainKeepsUser(cfg, s, calls);
  }

  /** No connection is ever sent an Invoke that its own catalog does not admit. */
  lemma ReachableInvokes(cfg: Config, s: State, j: nat, a: nat)
    requires Reachable(cfg, s) && j < |s.serves| && j < |s.chans|
    requires a < |s.chans[j].queued| && s.chans[j].queued[a].InvokeFrame?
    ensures s.serves[j].hello.Some?
    ensures var inv := s.chans[j].queued[a].inv;
            Admissible(s.serves[j].hello.value.methods, inv.methodName, inv.caller)
  {
    ReachableOk(cfg, s);
    QueuedInvokesAreGated(s, j, a);
  }

  /** Accepted Hellos plus live tokens never exceed the tokens issued, and no token admits two connections. */
  lemma ReachableAdmissions(cfg: Config, s: State)
    requires Reachable(cfg, s)
    ensures AdmittedCount(s.serves) + |s.tab.tokens| <= |s.iss.placed| <= |s.iss.minted|
    ensures forall i, j :: 0 <= i < j < |s.serves| && Admitted(s, i) && Admitted(s, j)
                           && s.serves[i].hello.Some? && s.serves[j].hello.Some? ==>
              s.serves[i].hello.value.authToken != s.serves[j].hello.value.authToken
  {
    ReachableOk(cfg, s);
    AdmissionAccounting(s);
    forall i, j | 0 <= i < j < |s.serves| && Admitted(s, i) && Admitted(s, j)
                  && s.serves[i].hello.Some? && s.serves[j].hello.Some?
      ensures s.serves[i].hello.value.authToken != s.serves[j].hello.value.authToken
    {
      if s.serves[i].hello.value.authToken == s.serves[j].hello.value.authToken {
        TokenAdmitsOnce(s, i, j);
      }
    }
  }

  /** Every event comes from a Publish frame of another service, and its log keeps the order of those frames. */
  lemma ReachableEvents(cfg: Config, s: State, j: nat, a: nat)
    requires Reachable(cfg, s) && j < |s.chans| && a < |s.chans[j].tags| && s.chans[j].tags[a].ByPublish?
    ensures FromFrame(s, j, a)
    ensures forall b :: a < b && IsEvent(s, j, b) && Origins(s, j, a).0 == Origins(s, j, b).0 ==>
              Origins(s, j, a).1 < Origins(s, j, b).1
  {
    ReachableOk(cfg, s);
    EventProvenance(s, j, a);
    forall b: nat | a < b && IsEvent(s, j, b) && Origins(s, j, a).0 == Origins(s, j, b).0
      ensures Origins(s, j, a).1 < Origins(s, j, b).1
    {
      PublicationOrder(s, j, a, b);
    }
  }

  /** A broker call that was neither answered nor timed out has exactly its own entry. */
  lemma ReachableOwnEntry(cfg: Config, s: State, n: nat, j: nat)
    requires Reachable(cfg, s) && n < |s.calls| && s.calls[n].handle == Some(j) && j < |s.sess|
    requires 7 <= CallRank(s.calls[n].pc) <= 9 && s.calls[n].reqId !in s.sess[j].answered
    ensures forall r :: r in s.sess[j].pendingOut && s.sess[j].pendingOut[r] == n <==> r == s.calls[n].reqId
  {
    ReachableOk(cfg, s);
    OwnEntryOnly(s, n, j);
  }

  /** A oneshot is filled once, by the call's own connection, and a wait ends only by the reply or the timeout. */
  lemma ReachableReplies(cfg: Config, s: State, t: State, step: Step, n: nat)
    requires Reachable(cfg, s) && Next(cfg, s, t, step) && n < |s.calls| && n < |t.calls|
    ensures t.calls[n].slot != s.calls[n].slot ==> FillsOwn(s, t, step, n)
    ensures s.calls[n].pc == Waiting && t.calls[n].pc != Waiting ==> EndsWait(s, t, step, n)
  {
    ReachableOk(cfg, s);
    if t.calls[n].slot != s.calls[n].slot {
      FilledByOwnConnection(cfg, s, t, step, n);
    }
    if s.calls[n].pc == Waiting && t.calls[n].pc != Waiting {
      WaitEndsByReplyOrTimeout(cfg, s, t, step, n);
    }
  }

  /** At most one event per Publish frame and subscribing service, even when the service reconnects meanwhile. */
  lemma ReachableOneEvent(cfg: Config, s: State, i: nat, a: nat, j: nat, b: nat)
    requires Reachable(cfg, s) && IsEvent(s, i, a) && IsEvent(s, j, b)
    requires Origins(s, i, a) == Origins(s, j, b) && SameService(s, i, j)
    ensures i == j && a == b
  {
    ReachableOk(cfg, s);
    OneEventPerService(s, i, a, j, b);
  }

  /** No Publish frame is lost on its way through a fan-out. */
  lemma ReachablePublished(cfg: Config, s: State, i: nat, at: nat)
    requires Reachable(cfg, s) && i < |s.serves| && s.serves[i].hello.Some? && i < |s.inbs|
    requires at < |s.inbs[i].consumed| && s.inbs[i].consumed[at].Publish?
    ensures FannedOut(s, i, at)
  {
    ReachableOk(cfg, s);
    PublishedToAll(s, i, at);
  }

  /** A Hello is admitted exactly when its token is the latest one placed for its service and still unspent. */
  lemma ReachableAdmitted(cfg: Config, s: State, t: State, i: nat)
    requires Reachable(cfg, s) && Aligned(s) && i < |s.serves| && TokenStep(s, t, i)
    ensures Admitted(t, i) <==> CarriesLatest(s.iss, s.serves[i].hello.value)
  {
    ReachableOk(cfg, s);
    AdmittedByLatest(s, t, i);
  }

  /** A stored token is lost only to a newer one or to a Hello for its service under the broker's own major version. */
  lemma ReachableTokenLost(cfg: Config, s: State, t: State, step: Step, svc: string)
    requires Reachable(cfg, s) && Next(cfg, s, t, step) && svc in s.tab.tokens
    requires svc !in t.tab.tokens || t.tab.tokens[svc] != s.tab.tokens[svc]
    ensures MaySpend(s, step, svc)
  {
    ReachableOk(cfg, s);
    TokenLostOnlyTo(cfg, s, t, step, svc);
  }

  /** No two connections are ever acknowledged under the same client id. */
  lemma ReachableClientIds(cfg: Config, s: State, i: nat, j: nat)
    requires Reachable(cfg, s) && i < j < |s.serves|
    requires s.serves[i].generation > 0 && s.serves[j].generation > 0
    ensures s.serves[i].clientId != s.serves[j].clientId
  {
    ReachableOk(cfg, s);
  }

  /** Probes ask for `capabilities` as nobody, and both they and routed calls run under the default timeout. */
  lemma ReachableRequests(cfg: Config, s: State, n: nat)
    requires Reachable(cfg, s) && n < |s.calls|
    ensures RequestOk(cfg, s.calls[n])
  {
    ReachableOk(cfg, s);
  }

  /** A running client's shutdown signal has fired exactly when it has read a Shutdown after its ack. */
  lemma ReachableShutdown(cfg: Config, s: State, i: nat)
    requires Reachable(cfg, s) && i < |s.apps| && i < |s.chans|
    requires s.apps[i].Managed? && s.apps[i].client.phase.Running?
    ensures s.apps[i].client.shutdownFired <==> ShutdownRead(s.chans[i].delivered)
  {
    ReachableOk(cfg, s);
    assert ConnPeerOk(s, i);
  }

  // ----- cached capabilities over a run ---------------------------------------------------------------------

  /** The probe that stored a set of the registered generation belongs to the registered connection. */
  lemma StoredByRegistered(cfg: Config, s: State, svc: string)
    requires Registered(s) && CacheCurrent(s, svc) && svc in s.tab.capabilities && svc in s.reg.entries
    requires AnsweredByProbed(cfg, s, s.tab.capabilities[svc])
    ensures s.calls[s.tab.capabilities[svc].storedBy].origin.conn == s.reg.entries[svc].tx
  {
    assert EntryOk(s.serves, svc, s.reg.entries[svc]);
  }

  lemma CurrentStepAt(cfg: Config, states: seq<State>, steps: seq<Step>, k: nat, svc: string)
    requires IsRun(cfg, states, steps) && k < |steps| && CacheCurrent(states[k], svc)
    requires Registers(states[k], steps[k], svc) ==> CacheIdle(states[k], svc)
    ensures CacheCurrent(states[k + 1], svc)
  {
    RunKeepsInvariant(cfg, states, steps, k);
    FragmentNext(cfg, states, steps, k);
    if Registers(states[k], steps[k], svc) {
      RegisterCurrent(cfg, states[k], states[k + 1], steps[k], svc);
    } else {
      StepCurrent(cfg, states[k], states[k + 1], steps[k], svc);
    }
  }

  /**
   * The cache stays in order throughout a run in which the service is only ever registered while no set of it is cached
   * and none is about to be stored or dropped.
   */
  lemma {:induction false} CacheStaysCurrent(cfg: Config, states: seq<State>, steps: seq<Step>, k: nat, svc: string)
    requires IsRun(cfg, states, steps) && k <= |steps|
    requires forall l :: 0 <= l < k && Registers(states[l], steps[l], svc) ==> CacheIdle(states[l], svc)
    ensures CacheCurrent(states[k], svc)
  {
    if k > 0 {
      CacheStaysCurrent(cfg, states, steps, k - 1, svc);
      CurrentStepAt(cfg, states, steps, k - 1, svc);
    }
  }

  /** In order, the cached set of a registered service is what its registered connection answered. */
  lemma CurrentSetIsRegistered(cfg: Config, s: State, svc: string)
    requires Reachable(cfg, s) && CacheCurrent(s, svc)
    requires svc in s.tab.capabilities && svc in s.reg.entries && svc !in s.tab.localServices
    ensures AnsweredByProbed(cfg, s, s.tab.capabilities[svc])
    ensures s.calls[s.tab.capabilities[svc].storedBy].origin.conn == s.reg.entries[svc].tx
  {
    ReachableOk(cfg, s);
    CapabilityProvenance(cfg, s, svc);
    StoredByRegistered(cfg, s, svc);
  }
}
