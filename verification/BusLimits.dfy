/** What the bus does not promise: for each promise a reachable state that breaks it, and exactly when it is kept. */
module BusLimits {
  import opened Prelude
  import opened Frames
  import opened ServiceRegistry
  import opened BrokerTables
  import opened Connection
  import opened Bus
  import opened BusSteps
  import opened BusRegistration
  import opened BusCalls
  import opened BusSessions
  import opened BusReplies
  import opened BusNewest
  import opened BusScenarios

  // ----- the newest generation ------------------------------------------------------------------------------

  /** Two connections of the service have stored their entries, and the older one is registered. */
  predicate OlderWins(s: State, i: nat, j: nat, svc: string) {
    && i < |s.serves| && j < |s.serves| && HasStored(s.serves[i], svc) && HasStored(s.serves[j], svc)
    && s.serves[i].generation < s.serves[j].generation && Current(s, i)
  }

  /**
   * For every service there is a run after which an older connection is registered: two handshakes store their entries
   * in the other order than they drew their generations. `BusNewest.NewestExactly` says when this does not happen.
   */
  lemma OlderGenerationCanWin(cfg: Config, svc: string)
    ensures exists s :: Reachable(cfg, s) && OlderWins(s, 0, 1, svc)
  {
    var s1 := Enrolled(INITIAL, svc, false);
    var s2 := Enrolled(s1, svc, false);
    NothingHappened(cfg);
    Enrolls(cfg, INITIAL, svc, false);
    Enrolls(cfg, s1, svc, false);
    Stores(cfg, s2, 1);
    Stores(cfg, Stored(s2, 1), 0);
    assert OlderWins(Stored(Stored(s2, 1), 0), 0, 1, svc);
  }

  // ----- registered without a session --------------------------------------------------------------------------

  /**
   * A call that has copied the entry of connection `i` fails to find its session exactly when `i` is not attached.
   * While `i` is registered, these are two windows: from storing the entry to `attach_session`, and from
   * `detach_session` to `remove_if`.
   */
  lemma RegisteredWithoutSession(s: State, t: State, i: nat, n: nat)
    requires Aligned(s) && Registered(s) && CallsOk(s) && n < |s.calls| && HandleStep(s, t, n)
    requires s.calls[n].entry.value.tx == i
    ensures i < |s.serves| && n < |t.calls|
    ensures t.calls[n].outcome == Some(Failed(ServiceNotFound(s.calls[n].service)))
            <==> !PhaseOf(s.serves[i].pc).Attached?
    ensures t.calls[n].outcome.None? <==> PhaseOf(s.serves[i].pc).Attached?
    ensures Current(s, i) ==>
              (t.calls[n].outcome.Some? <==>
                 s.serves[i].pc in {WriteAck, Attach, DetachCheck, DetachCaps, Unregister})
  {
    assert TargetOk(s.serves, s.calls[n]) && ServeOk(s.serves[i]) && LocalsOk(s.calls[n]);
    if !PhaseOf(s.serves[i].pc).Attached? {
      UnattachedKey(s, i);
    }
  }

  /** The service is registered and a call for it fails for want of a session. */
  ghost predicate FailsWhileRegistered(s: State, t: State, i: nat, n: nat) {
    && Aligned(s) && i < |s.serves| && n < |s.calls| && Current(s, i) && HandleStep(s, t, n) && n < |t.calls|
    && s.calls[n].entry.value.tx == i && t.calls[n].outcome == Some(Failed(ServiceNotFound(s.calls[n].service)))
  }

  lemma MissesSession(s: State, svc: string)
    requires Callable(s, svc) && SessionKey(svc, s.reg.entries[svc].generation) !in s.tab.sessions
    requires var i := s.reg.entries[svc].tx; i < |s.serves| && s.serves[i].hello.Some?
                                             && s.serves[i].hello.value.service == svc
    ensures var u, n := Resolved(s, svc), |s.calls|;
            FailsWhileRegistered(u, u.(calls := u.calls[n := FinishCall(u.calls[n], Failed(ServiceNotFound(svc)))]),
                                 s.reg.entries[svc].tx, n)
  {
  }

  /** Both windows occur in runs: before the session is attached and after it is detached. */
  lemma FailsBeforeAttach(cfg: Config, svc: string)
    ensures exists s, t :: Reachable(cfg, s) && FailsWhileRegistered(s, t, 0, 0) && s.serves[0].pc == WriteAck
  {
    var s1 := Enrolled(INITIAL, svc, false);
    NothingHappened(cfg);
    Enrolls(cfg, INITIAL, svc, false);
    Stores(cfg, s1, 0);
    Resolves(cfg, Stored(s1, 0), svc);
    MissesSession(Stored(s1, 0), svc);
  }

  lemma FailsAfterDetach(cfg: Config, svc: string)
    ensures exists s, t :: Reachable(cfg, s) && FailsWhileRegistered(s, t, 0, 1) && s.serves[0].pc == DetachCheck
  {
    var s1 := Enrolled(INITIAL, svc, false);
    var s2 := Looping(cfg, s1, 0);
    var s3 := s2.(serves := Goto(s2, 0, Detach));
    var s4 := s3.(serves := Goto(s3, 0, DetachCheck),
                  tab := s3.tab.(sessions := s3.tab.sessions - {KeyOf(s3.serves[0])}));
    NothingHappened(cfg);
    Enrolls(cfg, INITIAL, svc, false);
    Loops(cfg, s1, 0);
    ReachesNext(cfg, s2, s3, ServeStep(0, StreamEnded));
    ReachesNext(cfg, s3, s4, ServeStep(0, DetachSession));
    Resolves(cfg, s4, svc);
    MissesSession(s4, svc);
  }

  // ----- a wrong token -------------------------------------------------------------------------------------------

  predicate PlacesFor(step: Step, svc: string) {
    step.HostStep? && step.host.PlaceToken? && step.host.service == svc
  }

  /** Connection `i` shows a token that is not the one stored for its service. */
  ghost predicate WrongToken(s: State, t: State, i: nat) {
    && Aligned(s) && i < |s.serves| && TokenStep(s, t, i)
    && !TokenMatches(s.tab, s.serves[i].hello.value.service, s.serves[i].hello.value.authToken)
  }

  lemma ServeTokenless(cfg: Config, s: State, t: State, i: nat, a: ServeAct, svc: string)
    requires ServeNext(cfg, s, t, i, a) && svc !in s.tab.tokens
    ensures svc !in t.tab.tokens
  {
    if !WritesTables(a) {
      OthersKeepTables(cfg, s, t, i, a);
    }
  }

  lemma TokenlessStep(cfg: Config, s: State, t: State, step: Step, svc: string)
    requires Next(cfg, s, t, step) && svc !in s.tab.tokens && !PlacesFor(step, svc)
    ensures svc !in t.tab.tokens
  {
    match step
    case ServeStep(i, a) => ServeTokenless(cfg, s, t, i, a, svc);
    case CallStep(n, a) => CallTask(cfg, s, t, n, a);
    case HostStep(_) =>
    case WireStep(_, _) =>
    case AppStep(_, _) =>
  }

  lemma {:induction false} StaysTokenless(cfg: Config, states: seq<State>, steps: seq<Step>, k: nat, svc: string)
    requires IsFragment(cfg, states, steps) && k <= |steps| && svc !in states[0].tab.tokens
    requires forall l :: 0 <= l < k ==> !PlacesFor(steps[l], svc)
    ensures svc !in states[k].tab.tokens
  {
    if k > 0 {
      StaysTokenless(cfg, states, steps, k - 1, svc);
      FragmentNext(cfg, states, steps, k - 1);
      TokenlessStep(cfg, states[k - 1], states[k], steps[k - 1], svc);
    }
  }

  /**
   * A wrong token spends the stored one: however the run goes on, until a token is placed for the service again every
   * connection that greets for it is refused, whatever token it carries.
   */
  lemma WrongTokenSpends(cfg: Config, s: State, i: nat, states: seq<State>, steps: seq<Step>, k: nat, j: nat)
    requires IsFragment(cfg, states, steps) && WrongToken(s, states[0], i) && k < |steps|
    requires forall l :: 0 <= l < k ==> !PlacesFor(steps[l], s.serves[i].hello.value.service)
    requires steps[k] == ServeStep(j, SpendHelloToken) && j < |states[k].serves| && states[k].serves[j].hello.Some?
    requires states[k].serves[j].hello.value.service == s.serves[i].hello.value.service
    ensures j < |states[k + 1].serves| && states[k + 1].serves[j].pc == Closing
  {
    StaysTokenless(cfg, states, steps, k, s.serves[i].hello.value.service);
    FragmentNext(cfg, states, steps, k);
  }

  function Spoilt(s: State, i: nat): State
    requires Aligned(s) && i < |s.serves| && s.serves[i].hello.Some?
  {
    var svc := s.serves[i].hello.value.service;
    s.(serves := Goto(s, i, Closing), tab := SpendToken(s.tab, svc), iss := s.iss.(live := s.iss.live - {svc}),
       chans := s.chans[i := Reject(s.chans[i], ResponseFrame(0, Err(InvalidAuthToken)))])
  }

  /** In some run a connection that holds the right token is refused because another one guessed wrong before it. */
  lemma RightTokenRefused(cfg: Config, svc: string)
    ensures exists s, t, u :: Reachable(cfg, s) && Invited(s, 0) && WrongToken(s, t, 1) && Aligned(t)
                              && TokenStep(t, u, 0) && u.serves[0].pc == Closing
  {
    var s1 := Placed(INITIAL, svc);
    var s2 := Arrived(s1, svc, TokenNow(INITIAL), false);
    var s3 := Arrived(s2, svc, TokenNow(INITIAL) + "?", false);
    NothingHappened(cfg);
    Places(cfg, INITIAL, svc);
    Arrives(cfg, s1, svc, TokenNow(INITIAL), false);
    Arrives(cfg, s2, svc, TokenNow(INITIAL) + "?", false);
    var t := Spoilt(s3, 1);
    var u := Spoilt(t, 0);
    assert TokenNow(INITIAL) + "?" != TokenNow(INITIAL);
    assert WrongToken(s3, t, 1) && TokenStep(t, u, 0);
  }

  // ----- entries left in a pending table ----------------------------------------------------------------------------

  /** A finished call, its entry still in the pending table of its connection. */
  predicate LeftBehind(s: State, n: nat, j: nat) {
    && n < |s.calls| && s.calls[n].outcome.Some? && s.calls[n].handle == Some(j) && j < |s.sess|
    && s.calls[n].reqId in s.sess[j].pendingOut
  }

  /**
   * In some run the writer of a connection fails while a call is on its way to it: the call fails and its entry stays.
   * `BusReplies.FinishedEntry` says that there is no other way.
   */
  lemma FailedSendLeavesEntry(cfg: Config, svc: string)
    ensures exists s :: Reachable(cfg, s) && LeftBehind(s, 1, 0) && Refused(s.calls[1])
  {
    var s1 := Enrolled(INITIAL, svc, false);
    var s2 := Looping(cfg, s1, 0);
    NothingHappened(cfg);
    Enrolls(cfg, INITIAL, svc, false);
    Loops(cfg, s1, 0);
    Resolves(cfg, s2, svc);
    assert SessionKey(svc, 1) in s2.tab.sessions;
    EntryLeft(cfg, Resolved(s2, svc), 1, 0);
  }

  lemma EntryLeft(cfg: Config, s: State, n: nat, j: nat)
    requires Reachable(cfg, s) && Aligned(s) && j < |s.serves| && n < |s.calls|
    requires s.calls[n].pc == FindSession && s.calls[n].entry.Some? && s.calls[n].outcome.None?
    requires s.calls[n].entry.value.tx == j && s.chans[j].writing && s.sess[j] == NEW_SESSION
    requires var key := SessionKey(s.calls[n].service, s.calls[n].entry.value.generation);
             key in s.tab.sessions && s.tab.sessions[key] == j
    ensures exists t :: Reachable(cfg, t) && LeftBehind(t, n, j) && Refused(t.calls[n])
  {
    var k := s.calls[n];
    var s1 := s.(calls := s.calls[n := k.(pc := AllocId, handle := Some(j))]);
    var s2 := s1.(sess := s1.sess[j := TakeReqId(NEW_SESSION, n)],
                  calls := s1.calls[n := s1.calls[n].(pc := PutPending, reqId := 1)]);
    ReachesNext(cfg, s, s1, CallStep(n, LookUpSession));
    ReachesNext(cfg, s1, s2, CallStep(n, TakeRequestId));
    EntryRefused(cfg, s2, n, j);
  }

  lemma EntryRefused(cfg: Config, s: State, n: nat, j: nat)
    requires Reachable(cfg, s) && Aligned(s) && j < |s.serves| && n < |s.calls| && s.chans[j].writing
    requires s.calls[n].pc == PutPending && s.calls[n].handle == Some(j) && s.calls[n].reqId > 0
    requires s.calls[n].entry.Some? && s.calls[n].entry.value.tx == j
    ensures exists t :: Reachable(cfg, t) && LeftBehind(t, n, j) && Refused(t.calls[n])
  {
    var s1 := s.(sess := s.sess[j := InsertPending(s.sess[j], s.calls[n].reqId, n)],
                 calls := s.calls[n := s.calls[n].(pc := SendInvoke)]);
    var s2 := s1.(chans := s1.chans[j := Close(s1.chans[j])]);
    var k := s2.calls[n];
    var s3 := s2.(calls := s2.calls[n := FinishCall(k, Failed(ServiceNotFound(k.service)))]);
    ReachesNext(cfg, s, s1, CallStep(n, EnterPending));
    ReachesNext(cfg, s1, s2, WireStep(j, WriterFailed));
    assert s2.chans[j := s2.chans[j]] == s2.chans;
    ReachesNext(cfg, s2, s3, CallStep(n, QueueInvoke));
  }
}
