/**
 * How a Response reaches a call: it is read on the connection the call's Invoke was addressed to, wakes the call that
 * drew its id there, and does so at most once. A waiting call always keeps a live sender.
 */
module BusReplies {
  import opened Prelude
  import opened Frames
  import opened BrokerTables
  import opened Connection
  import opened Bus
  import opened BusSteps
  import opened BusRegistration
  import opened BusCalls
  import opened BusSessions

  // ----- invariants ------------------------------------------------------------------------------

  /** Frame `at` that `serve` of connection `j` has read is a Response for id `r` carrying `reply`. */
  predicate ReadReply(inbs: seq<Inbound>, j: nat, at: nat, r: nat, reply: Reply) {
    j < |inbs| && at < |inbs[j].consumed| && inbs[j].consumed[at] == ResponseFrame(r, reply)
  }

  predicate Removed(sess: seq<Session>, j: nat, r: nat) {
    j < |sess| && r in sess[j].answered
  }

  /** A waker in hand belongs to an unanswered call of this very connection. */
  predicate WakeOk(v: Serve, j: nat, calls: seq<Call>, sess: seq<Session>, inbs: seq<Inbound>) {
    v.pc.Wake? ==>
      && v.pc.call < |calls|
      && var k := calls[v.pc.call];
         && k.handle == Some(j) && k.slot.None?
         && Removed(sess, j, k.reqId) && ReadReply(inbs, j, v.pc.at, k.reqId, v.pc.reply)
  }

  /** A filled oneshot was filled by a Response read on the call's own connection. */
  predicate SlotOk(k: Call, sess: seq<Session>, inbs: seq<Inbound>) {
    k.slot.Some? ==>
      && k.handle.Some? && Removed(sess, k.handle.value, k.reqId)
      && ReadReply(inbs, k.handle.value, k.answeredAt, k.reqId, k.slot.value)
  }

  predicate Listening(k: Call) {
    k.pc == SendInvoke || k.pc == Waiting
  }

  /** An answered call that still listens has its reply, or its connection is about to hand it over. */
  predicate HandoverOk(n: nat, k: Call, serves: seq<Serve>, sess: seq<Session>) {
    Listening(k) && k.slot.None? && k.handle.Some? && k.handle.value < |serves|
    && Removed(sess, k.handle.value, k.reqId)
    ==> serves[k.handle.value].pc.Wake? && serves[k.handle.value].pc.call == n
  }

  ghost predicate WakesOk(s: State) {
    forall j :: 0 <= j < |s.serves| ==> WakeOk(s.serves[j], j, s.calls, s.sess, s.inbs)
  }

  ghost predicate SlotsOk(s: State) {
    forall n :: 0 <= n < |s.calls| ==> SlotOk(s.calls[n], s.sess, s.inbs)
  }

  ghost predicate HandoversOk(s: State) {
    forall n :: 0 <= n < |s.calls| ==> HandoverOk(n, s.calls[n], s.serves, s.sess)
  }

  ghost predicate RepliesOk(s: State) {
    WakesOk(s) && SlotsOk(s) && HandoversOk(s)
  }

  // ----- steps that neither read nor deliver a Response ---------------------------------------------

  ghost predicate InboundGrows(a: seq<Inbound>, b: seq<Inbound>) {
    |a| <= |b| && forall j :: 0 <= j < |a| ==> a[j].consumed <= b[j].consumed
  }

  ghost predicate AnswersKept(a: seq<Session>, b: seq<Session>) {
    |a| <= |b| && (forall j :: 0 <= j < |a| ==> b[j].answered == a[j].answered)
    && (forall j :: |a| <= j < |b| ==> b[j] == NEW_SESSION)
  }

  ghost predicate WakesKept(a: seq<Serve>, b: seq<Serve>) {
    && |a| <= |b|
    && (forall j :: 0 <= j < |a| && (a[j].pc.Wake? || b[j].pc.Wake?) ==> b[j].pc == a[j].pc)
    && (forall j :: |a| <= j < |b| ==> b[j] == NEW_SERVE)
  }

  /** The call keeps its oneshot, and starts to listen only if its id has not been removed. */
  predicate CallQuiet(k: Call, l: Call, sess: seq<Session>) {
    && l.slot == k.slot && l.answeredAt == k.answeredAt
    && ((l.handle == k.handle && l.reqId == k.reqId)
        || (k.slot.None? && (k.handle.None? || l.handle == k.handle) && k.reqId == 0 && !Listening(l)))
    && (Listening(l) ==> (Listening(k) || (l.handle.Some? && !Removed(sess, l.handle.value, l.reqId))))
  }

  ghost predicate RepliesQuiet(s: State, t: State, n: nat) {
    && InboundGrows(s.inbs, t.inbs) && AnswersKept(s.sess, t.sess) && WakesKept(s.serves, t.serves)
    && CallEffect(s, t, n)
    && (n < |s.calls| && n < |t.calls| ==> CallQuiet(s.calls[n], t.calls[n], s.sess))
  }

  lemma QuietWakes(s: State, t: State, n: nat)
    requires RepliesOk(s) && RepliesQuiet(s, t, n) && Aligned(s) && Aligned(t) && IdsOk(s.sess, s.calls)
    requires SessionsOk(s)
    ensures WakesOk(t)
  {
    forall j | 0 <= j < |t.serves|
      ensures WakeOk(t.serves[j], j, t.calls, t.sess, t.inbs)
    {
      if j < |s.serves| && t.serves[j].pc.Wake? {
        assert WakeOk(s.serves[j], j, s.calls, s.sess, s.inbs);
        var c := s.serves[j].pc.call;
        assert SessionTableOk(s.sess[j], j, s.calls);
        assert s.calls[c].reqId in s.sess[j].owners;
        assert s.calls[c].reqId > 0;
      }
    }
  }

  lemma QuietSlots(s: State, t: State, n: nat)
    requires RepliesOk(s) && RepliesQuiet(s, t, n) && Aligned(s) && Aligned(t)
    ensures SlotsOk(t)
  {
  }

  lemma QuietHandovers(s: State, t: State, n: nat)
    requires RepliesOk(s) && RepliesQuiet(s, t, n) && Aligned(s) && Aligned(t)
    requires AllTargetsOk(s.serves, s.calls) && AllLocalsOk(s.calls)
    ensures HandoversOk(t)
  {
  }

  lemma QuietReplies(s: State, t: State, n: nat)
    requires RepliesOk(s) && RepliesQuiet(s, t, n) && Aligned(s) && Aligned(t) && SessionsOk(s) && CallsOk(s)
    ensures RepliesOk(t)
  {
    QuietWakes(s, t, n);
    QuietSlots(s, t, n);
    QuietHandovers(s, t, n);
  }

  lemma OutsideReplies(s: State, t: State)
    requires Outside(s, t) && RepliesOk(s) && SessionsOk(s) && CallsOk(s)
    ensures RepliesOk(t)
  {
    OutsideEffect(s, t);
    QuietReplies(s, t, 0);
  }

  lemma ServeQuiet(cfg: Config, s: State, t: State, i: nat, a: ServeAct)
    requires ServeNext(cfg, s, t, i, a) && !a.ReadResponse? && !a.WakeCaller?
    ensures i < |t.serves|
    ensures !s.serves[i].pc.Wake? && !t.serves[i].pc.Wake?
  {
  }

  lemma CallQuietLocal(cfg: Config, s: State, t: State, n: nat, a: CallAct)
    requires CallNext(cfg, s, t, n, a) && !a.EnterPending? && LocalsOk(s.calls[n])
    ensures CallQuiet(s.calls[n], t.calls[n], s.sess)
  {
  }

  /** An id that is still to be inserted has not been answered. */
  lemma UninsertedUnanswered(s: State, n: nat, j: nat)
    requires SessionsOk(s) && n < |s.calls| && s.calls[n].pc == PutPending
    requires s.calls[n].handle == Some(j) && s.calls[n].reqId > 0
    ensures !Removed(s.sess, j, s.calls[n].reqId)
  {
    assert IdOk(s.sess, s.calls, n);
    assert SessionTableOk(s.sess[j], j, s.calls);
    assert OneFate(s.sess[j], s.calls[n].reqId, s.calls);
  }

  lemma EnterQuiet(s: State, t: State, n: nat)
    requires AllLocalsOk(s.calls) && SessionsOk(s) && Aligned(s) && n < |s.calls| && EnterPendingStep(s, t, n)
    ensures CallQuiet(s.calls[n], t.calls[n], s.sess)
  {
    assert LocalsOk(s.calls[n]);
    UninsertedUnanswered(s, n, s.calls[n].handle.value);
  }

  lemma CallFrame(cfg: Config, s: State, t: State, n: nat, a: CallAct)
    requires CallNext(cfg, s, t, n, a)
    ensures OneCall(s, t, n) && AnswersKept(s.sess, t.sess)
  {
    CallTask(cfg, s, t, n, a);
  }

  lemma CallStepReplies(cfg: Config, s: State, t: State, n: nat, a: CallAct)
    requires CallNext(cfg, s, t, n, a) && CallsOk(s) && SessionsOk(s) && RepliesOk(s) && CallEffect(s, t, n)
    ensures RepliesOk(t)
  {
    CallFrame(cfg, s, t, n, a);
    if a.EnterPending? {
      EnterQuiet(s, t, n);
    } else {
      CallQuietLocal(cfg, s, t, n, a);
    }
    QuietReplies(s, t, n);
  }

  // ----- reading a Response and handing it over ------------------------------------------------------

  lemma LateResponse(s: State, t: State, i: nat)
    requires RepliesOk(s) && SessionsOk(s) && CallsOk(s) && Aligned(s) && i < |s.serves| && ResponseStep(s, t, i)
    requires s.inbs[i].stream[0].reqId !in s.sess[i].pendingOut
    ensures RepliesOk(t)
  {
    QuietReplies(s, t, |s.calls|);
  }

  /** The call whose sender sits under a pending id has not been answered. */
  lemma PendingCall(s: State, i: nat, r: nat)
    requires SlotsOk(s) && SessionsOk(s) && i < |s.sess| && r in s.sess[i].pendingOut
    ensures s.sess[i].pendingOut[r] < |s.calls|
    ensures var k := s.calls[s.sess[i].pendingOut[r]];
            k.handle == Some(i) && k.reqId == r && k.slot.None? && r !in s.sess[i].answered
  {
  }

  /** The loop takes the waker of a pending call out of the table. */
  ghost predicate TakesWaker(s: State, t: State, i: nat) {
    && Aligned(s) && i < |s.serves| && ResponseStep(s, t, i)
    && s.inbs[i].stream[0].reqId in s.sess[i].pendingOut
  }

  lemma TakenWakes(s: State, t: State, i: nat)
    requires RepliesOk(s) && SessionsOk(s) && TakesWaker(s, t, i)
    ensures WakesOk(t)
  {
    PendingCall(s, i, s.inbs[i].stream[0].reqId);
    forall j | 0 <= j < |t.serves|
      ensures WakeOk(t.serves[j], j, t.calls, t.sess, t.inbs)
    {
      assert WakeOk(s.serves[j], j, s.calls, s.sess, s.inbs);
    }
  }

  lemma TakenSlots(s: State, t: State, i: nat)
    requires RepliesOk(s) && TakesWaker(s, t, i)
    ensures SlotsOk(t)
  {
  }

  lemma TakenHandovers(s: State, t: State, i: nat)
    requires RepliesOk(s) && SessionsOk(s) && CallsOk(s) && TakesWaker(s, t, i)
    ensures HandoversOk(t)
  {
    forall m | 0 <= m < |t.calls|
      ensures HandoverOk(m, t.calls[m], t.serves, t.sess)
    {
      TakenOwner(s, i, s.inbs[i].stream[0].reqId, m);
      TakenHandover(s, t, i, m);
    }
  }

  lemma TakenHandover(s: State, t: State, i: nat, m: nat)
    requires HandoversOk(s) && TakesWaker(s, t, i) && m < |s.calls|
    requires Listening(s.calls[m]) && s.calls[m].handle == Some(i) && s.calls[m].reqId == s.inbs[i].stream[0].reqId ==>
               s.sess[i].pendingOut[s.inbs[i].stream[0].reqId] == m
    ensures HandoverOk(m, t.calls[m], t.serves, t.sess)
  {
    assert HandoverOk(m, s.calls[m], s.serves, s.sess);
  }

  /** Only the call that drew the id loses it. */
  lemma TakenOwner(s: State, i: nat, r: nat, m: nat)
    requires SessionsOk(s) && CallsOk(s) && i < |s.sess| && r in s.sess[i].pendingOut && m < |s.calls|
    ensures Listening(s.calls[m]) && s.calls[m].handle == Some(i) && s.calls[m].reqId == r ==>
              s.sess[i].pendingOut[r] == m
  {
    assert IdOk(s.sess, s.calls, m) && LocalsOk(s.calls[m]);
    assert SessionTableOk(s.sess[i], i, s.calls);
    assert PendingOk(s.sess[i], r);
  }

  lemma TimelyResponse(s: State, t: State, i: nat)
    requires RepliesOk(s) && SessionsOk(s) && CallsOk(s) && TakesWaker(s, t, i)
    ensures RepliesOk(t)
  {
    TakenWakes(s, t, i);
    TakenSlots(s, t, i);
    TakenHandovers(s, t, i);
  }

  lemma WakeReplies(s: State, t: State, i: nat)
    requires RepliesOk(s) && CallsOk(s) && Aligned(s) && i < |s.serves| && WakeStep(s, t, i)
    ensures RepliesOk(t)
  {
  }

  lemma StepReplies(cfg: Config, s: State, t: State, step: Step)
    requires Next(cfg, s, t, step) && Registered(s) && CallsOk(s) && SessionsOk(s) && RepliesOk(s)
    ensures RepliesOk(t)
  {
    StepCallEffect(cfg, s, t, step);
    match step
    case CallStep(n, a) => CallStepReplies(cfg, s, t, n, a);
    case ServeStep(i, a) => ServeStepReplies(cfg, s, t, i, a);
    case _ => OutsideStep(cfg, s, t, step); OutsideReplies(s, t);
  }

  lemma ServeStepReplies(cfg: Config, s: State, t: State, i: nat, a: ServeAct)
    requires ServeNext(cfg, s, t, i, a) && CallsOk(s) && SessionsOk(s) && RepliesOk(s)
    ensures RepliesOk(t)
  {
    if a.ReadResponse? {
      if s.inbs[i].stream[0].reqId in s.sess[i].pendingOut {
        TimelyResponse(s, t, i);
      } else {
        LateResponse(s, t, i);
      }
    } else if a.WakeCaller? {
      WakeReplies(s, t, i);
    } else {
      ServeQuiet(cfg, s, t, i, a);
      ServeTask(cfg, s, t, i, a);
      ServeTables(cfg, s, t, i, a);
      ServeEffect(cfg, s, t, i, a);
      assert 0 < |s.calls| ==> t.calls[0] == t.calls[..|s.calls|][0];
      QuietReplies(s, t, 0);
    }
  }

  // ----- what follows for callers --------------------------------------------------------------------

  /**
   * While a call waits without a reply, its sender is alive: a disconnect, a replacement of the service or the
   * teardown of the session never drops it.
   */
  lemma WaitingSenderAlive(s: State, n: nat)
    requires Aligned(s) && CallsOk(s) && SessionsOk(s) && RepliesOk(s)
    requires n < |s.calls| && s.calls[n].pc == Waiting && s.calls[n].slot.None?
    ensures SenderAlive(s, n)
  {
    var k := s.calls[n];
    assert LocalsOk(k) && IdOk(s.sess, s.calls, n) && TargetOk(s.serves, k) && HandoverOk(n, k, s.serves, s.sess);
    var j := k.handle.value;
    assert SessionTableOk(s.sess[j], j, s.calls);
    assert OneFate(s.sess[j], k.reqId, s.calls) && ExpiredOk(s.sess[j], k.reqId, s.calls);
    if k.reqId in s.sess[j].pendingOut {
      assert PendingOk(s.sess[j], k.reqId);
      assert HoldsHandle(k, j);
    }
  }

  /** The receiver-dropped arm of the wait is never taken. */
  lemma SenderNeverDropped(cfg: Config, s: State, t: State, n: nat)
    requires CallsOk(s) && SessionsOk(s) && RepliesOk(s)
    ensures !CallNext(cfg, s, t, n, SenderDropped)
  {
    if CallNext(cfg, s, t, n, SenderDropped) {
      WaitingSenderAlive(s, n);
      assert false;
    }
  }

  /** The step ends the wait of call `n`: the call takes its reply, or its deadline passes. */
  predicate EndsWait(s: State, t: State, step: Step, n: nat)
    requires n < |s.calls| && n < |t.calls|
  {
    || (step == CallStep(n, ReceiveReply)
        && s.calls[n].slot.Some? && t.calls[n].outcome == Some(Answered(s.calls[n].slot.value)))
    || (step == CallStep(n, DeadlinePassed) && s.calls[n].timeoutMs > 0)
  }

  /** A wait ends only with the call's own reply or with its timeout. */
  lemma WaitEndsByReplyOrTimeout(cfg: Config, s: State, t: State, step: Step, n: nat)
    requires Next(cfg, s, t, step) && Registered(s) && CallsOk(s) && SessionsOk(s) && RepliesOk(s)
    requires n < |s.calls| && s.calls[n].pc == Waiting && n < |t.calls| && t.calls[n].pc != Waiting
    ensures EndsWait(s, t, step, n)
  {
    match step
    case CallStep(m, a) =>
      CallTask(cfg, s, t, m, a);
      if a.SenderDropped? {
        SenderNeverDropped(cfg, s, t, m);
      } else if m == n {
        WaitLeft(cfg, s, t, n, a);
      }
    case ServeStep(i, a) => ServeKeepsWait(cfg, s, t, i, a, n);
    case _ => OutsideStep(cfg, s, t, step);
  }

  lemma WaitLeft(cfg: Config, s: State, t: State, n: nat, a: CallAct)
    requires CallNext(cfg, s, t, n, a) && s.calls[n].pc == Waiting && !a.SenderDropped?
    ensures a.ReceiveReply? || a.DeadlinePassed?
    ensures a.ReceiveReply? ==> s.calls[n].slot.Some? && t.calls[n].outcome == Some(Answered(s.calls[n].slot.value))
    ensures a.DeadlinePassed? ==> s.calls[n].timeoutMs > 0
  {
  }

  lemma ServeKeepsWait(cfg: Config, s: State, t: State, i: nat, a: ServeAct, n: nat)
    requires ServeNext(cfg, s, t, i, a) && n < |s.calls| && n < |t.calls|
    ensures t.calls[n].pc == s.calls[n].pc
  {
  }

  /** The step fills the oneshot of call `n`, with a Response for its own id, read on the connection it addressed. */
  predicate FillsOwn(s: State, t: State, step: Step, n: nat)
    requires n < |s.calls| && n < |t.calls|
  {
    && s.calls[n].slot.None? && t.calls[n].slot.Some? && s.calls[n].entry.Some?
    && var j := s.calls[n].entry.value.tx;
       && step == ServeStep(j, WakeCaller) && j < |s.serves|
       && s.serves[j].generation == s.calls[n].entry.value.generation
       && ReadReply(s.inbs, j, t.calls[n].answeredAt, s.calls[n].reqId, t.calls[n].slot.value)
  }

  /** Connection isolation: a oneshot is filled at most once, and only by the connection whose entry the call copied. */
  lemma FilledByOwnConnection(cfg: Config, s: State, t: State, step: Step, n: nat)
    requires Next(cfg, s, t, step) && CallsOk(s) && RepliesOk(s)
    requires n < |s.calls| && n < |t.calls| && t.calls[n].slot != s.calls[n].slot
    ensures FillsOwn(s, t, step, n)
  {
    match step
    case ServeStep(i, a) =>
      if a.WakeCaller? {
        WokenByOwnConnection(s, t, i, n);
      } else {
        ServeKeepsSlot(cfg, s, t, i, a, n);
      }
    case CallStep(m, a) => CallKeepsSlot(cfg, s, t, m, a, n);
    case HostStep(_) =>
    case WireStep(_, _) =>
    case AppStep(_, _) =>
  }

  lemma WokenByOwnConnection(s: State, t: State, i: nat, n: nat)
    requires Aligned(s) && i < |s.serves| && WakeStep(s, t, i) && CallsOk(s) && RepliesOk(s)
    requires n < |s.calls| && n < |t.calls| && t.calls[n].slot != s.calls[n].slot
    ensures s.calls[n].slot.None? && t.calls[n].slot.Some?
    ensures s.calls[n].entry.Some? && s.calls[n].entry.value.tx == i
    ensures s.serves[i].generation == s.calls[n].entry.value.generation
    ensures ReadReply(s.inbs, i, t.calls[n].answeredAt, s.calls[n].reqId, t.calls[n].slot.value)
  {
  }

  lemma ServeKeepsSlot(cfg: Config, s: State, t: State, i: nat, a: ServeAct, n: nat)
    requires ServeNext(cfg, s, t, i, a) && !a.WakeCaller? && n < |s.calls| && n < |t.calls|
    ensures t.calls[n].slot == s.calls[n].slot
  {
  }

  lemma CallKeepsSlot(cfg: Config, s: State, t: State, m: nat, a: CallAct, n: nat)
    requires CallNext(cfg, s, t, m, a) && n < |s.calls| && n < |t.calls|
    ensures t.calls[n].slot == s.calls[n].slot
  {
  }

  /** A Response whose id was answered, timed out or never drawn on this connection changes nothing but the stream. */
  lemma LateResponseIgnored(s: State, t: State, i: nat)
    requires SessionsOk(s) && Aligned(s) && i < |s.serves| && ResponseStep(s, t, i)
    requires var r := s.inbs[i].stream[0].reqId;
             r in s.sess[i].answered || r in s.sess[i].expired || r == 0 || r >= s.sess[i].nextReqId
    ensures t == s.(inbs := s.inbs[i := Consume(s.inbs[i])])
  {
  }

  // ----- entries that stay in a pending table --------------------------------------------------------------

  predicate PendingAt(sess: seq<Session>, k: Call) {
    k.handle.Some? && k.handle.value < |sess| && k.reqId in sess[k.handle.value].pendingOut
  }

  /** A call that has drawn an id ends answered, timed out with its entry removed, or because its Invoke was refused. */
  predicate FinalOk(k: Call, sess: seq<Session>) {
    k.outcome.Some? && k.reqId > 0 ==>
      match k.outcome.value
      case Answered(_) => true
      case LocalAnswer(_) => false
      case Failed(e) =>
        e == ServiceNotFound(k.service) || (e == Timeout(k.timeoutMs) && !PendingAt(sess, k))
  }

  ghost predicate FinalsOk(s: State) {
    forall n :: 0 <= n < |s.calls| ==> FinalOk(s.calls[n], s.sess)
  }

  // ----- preservation ---------------------------------------------------------------------------------

  /** No pending table gains an id. */
  ghost predicate PendingShrinks(a: seq<Session>, b: seq<Session>) {
    && |a| <= |b|
    && (forall j :: 0 <= j < |a| ==> b[j].pendingOut.Keys <= a[j].pendingOut.Keys)
    && (forall j :: |a| <= j < |b| ==> b[j] == NEW_SESSION)
  }

  /** The call ends properly, or it is as final as before. */
  predicate EndsWell(k: Call, l: Call, sess: seq<Session>) {
    || FinalOk(l, sess)
    || (l.outcome == k.outcome && l.reqId == k.reqId && l.handle == k.handle && SameRequest(k, l))
  }

  lemma FinalsKept(s: State, t: State, n: nat)
    requires FinalsOk(s) && CallEffect(s, t, n) && PendingShrinks(s.sess, t.sess)
    requires n < |s.calls| && n < |t.calls| ==> EndsWell(s.calls[n], t.calls[n], t.sess)
    ensures FinalsOk(t)
  {
    forall m | 0 <= m < |t.calls|
      ensures FinalOk(t.calls[m], t.sess)
    {
      assert m < |s.calls| ==> FinalOk(s.calls[m], s.sess);
    }
  }

  lemma CallEnds(cfg: Config, s: State, t: State, n: nat, a: CallAct)
    requires CallNext(cfg, s, t, n, a) && LocalsOk(s.calls[n]) && !a.EnterPending? && !a.SenderDropped?
    ensures n < |t.calls| && EndsWell(s.calls[n], t.calls[n], t.sess)
  {
  }

  lemma CallShrinks(cfg: Config, s: State, t: State, n: nat, a: CallAct)
    requires CallNext(cfg, s, t, n, a) && !a.EnterPending?
    ensures PendingShrinks(s.sess, t.sess)
  {
  }

  /** The one step that adds an id to a table adds the id of a call in progress. */
  lemma EnterFinals(s: State, t: State, n: nat)
    requires FinalsOk(s) && CallsOk(s) && IdsOk(s.sess, s.calls) && Aligned(s) && n < |s.calls|
    requires EnterPendingStep(s, t, n)
    ensures FinalsOk(t)
  {
    assert LocalsOk(s.calls[n]) && IdOk(s.sess, s.calls, n);
    forall m | 0 <= m < |t.calls|
      ensures FinalOk(t.calls[m], t.sess)
    {
      assert FinalOk(s.calls[m], s.sess) && LocalsOk(s.calls[m]) && IdOk(s.sess, s.calls, m);
    }
  }

  lemma CallFinals(cfg: Config, s: State, t: State, n: nat, a: CallAct)
    requires CallNext(cfg, s, t, n, a) && CallsOk(s) && SessionsOk(s) && RepliesOk(s) && FinalsOk(s)
    requires CallEffect(s, t, n)
    ensures FinalsOk(t)
  {
    assert LocalsOk(s.calls[n]);
    if {
      case a.EnterPending? => EnterFinals(s, t, n);
      case a.SenderDropped? => SenderNeverDropped(cfg, s, t, n);
      case !a.EnterPending? && !a.SenderDropped? =>
        CallEnds(cfg, s, t, n, a);
        CallShrinks(cfg, s, t, n, a);
        FinalsKept(s, t, n);
    }
  }

  lemma ServeShrinks(cfg: Config, s: State, t: State, i: nat, a: ServeAct)
    requires ServeNext(cfg, s, t, i, a)
    ensures PendingShrinks(s.sess, t.sess)
  {
    if !a.ReadResponse? && !a.WakeCaller? {
      ServeTables(cfg, s, t, i, a);
    }
  }

  lemma ServeFinals(cfg: Config, s: State, t: State, i: nat, a: ServeAct, n: nat)
    requires ServeNext(cfg, s, t, i, a) && FinalsOk(s) && CallEffect(s, t, n)
    requires n == if a.WakeCaller? then s.serves[i].pc.call else 0
    ensures FinalsOk(t)
  {
    ServeShrinks(cfg, s, t, i, a);
    if !a.WakeCaller? {
      ServeFirstCall(cfg, s, t, i, a);
    }
    FinalsKept(s, t, n);
  }

  lemma OutsideFinals(s: State, t: State)
    requires Outside(s, t) && FinalsOk(s)
    ensures FinalsOk(t)
  {
    OutsideEffect(s, t);
    FinalsKept(s, t, 0);
  }

  lemma StepFinals(cfg: Config, s: State, t: State, step: Step)
    requires Next(cfg, s, t, step) && Registered(s) && CallsOk(s) && CountersPositive(s) && SessionsOk(s)
    requires RepliesOk(s) && FinalsOk(s)
    ensures FinalsOk(t)
  {
    StepCallEffect(cfg, s, t, step);
    match step
    case CallStep(n, a) => CallFinals(cfg, s, t, n, a);
    case ServeStep(i, a) => ServeFinals(cfg, s, t, i, a, Touched(s, step));
    case _ => OutsideStep(cfg, s, t, step); OutsideFinals(s, t);
  }

  // ----- what is left behind ----------------------------------------------------------------------------

  /**
   * The Invoke of call `k` could not be queued: it has drawn an id and still ended as if its service were unknown.
   * `RefusedBySendOnly` says that no other step brings this about.
   */
  predicate Refused(k: Call) {
    k.reqId > 0 && k.outcome == Some(Failed(ServiceNotFound(k.service)))
  }

  /** A finished call still has its entry exactly when its Invoke was refused and no Response has taken the id. */
  lemma FinishedEntry(s: State, n: nat, j: nat)
    requires CallsOk(s) && SessionsOk(s) && RepliesOk(s) && FinalsOk(s)
    requires n < |s.calls| && s.calls[n].outcome.Some? && s.calls[n].reqId > 0 && s.calls[n].handle == Some(j)
    ensures j < |s.sess|
    ensures s.calls[n].reqId in s.sess[j].pendingOut <==>
              Refused(s.calls[n]) && s.calls[n].reqId !in s.sess[j].answered
  {
    assert IdOk(s.sess, s.calls, n) && LocalsOk(s.calls[n]) && SlotOk(s.calls[n], s.sess, s.inbs);
    assert FinalOk(s.calls[n], s.sess) && SessionTableOk(s.sess[j], j, s.calls);
    FinishedFate(s.sess, j, s.calls, n, s.inbs);
  }

  lemma FinishedFate(sess: seq<Session>, j: nat, calls: seq<Call>, n: nat, inbs: seq<Inbound>)
    requires j < |sess| && SessionTableOk(sess[j], j, calls) && n < |calls| && calls[n].handle == Some(j)
    requires IdOk(sess, calls, n) && LocalsOk(calls[n]) && SlotOk(calls[n], sess, inbs) && FinalOk(calls[n], sess)
    requires calls[n].outcome.Some? && calls[n].reqId > 0
    ensures calls[n].reqId in sess[j].pendingOut <==> Refused(calls[n]) && calls[n].reqId !in sess[j].answered
  {
    assert OneFate(sess[j], calls[n].reqId, calls) && ExpiredOk(sess[j], calls[n].reqId, calls);
  }

  /** The owner of an entry in a pending table is either still in progress or a call whose Invoke was refused. */
  lemma EntryOwner(s: State, j: nat, r: nat)
    requires CallsOk(s) && SessionsOk(s) && RepliesOk(s) && FinalsOk(s) && j < |s.sess| && r in s.sess[j].pendingOut
    ensures s.sess[j].pendingOut[r] < |s.calls|
    ensures var k := s.calls[s.sess[j].pendingOut[r]];
            k.handle == Some(j) && k.reqId == r && (Refused(k) || 7 <= CallRank(k.pc) <= 9)
  {
    PendingCall(s, j, r);
    var n := s.sess[j].pendingOut[r];
    assert SessionTableOk(s.sess[j], j, s.calls);
    assert OneFate(s.sess[j], r, s.calls) && LocalsOk(s.calls[n]);
    if s.calls[n].outcome.Some? {
      FinishedEntry(s, n, j);
    }
  }

  /** A call is refused only by its own `QueueInvoke`, on a channel whose receiver is gone. */
  lemma RefusedBySendOnly(cfg: Config, s: State, t: State, step: Step, n: nat)
    requires Next(cfg, s, t, step) && Registered(s) && CallsOk(s) && CountersPositive(s)
    requires n < |s.calls| && !Refused(s.calls[n]) && n < |t.calls| && Refused(t.calls[n])
    ensures step == CallStep(n, QueueInvoke) && s.calls[n].entry.Some? && s.calls[n].entry.value.tx < |s.chans|
    ensures !s.chans[s.calls[n].entry.value.tx].open
  {
    match step
    case CallStep(m, a) =>
      CallTask(cfg, s, t, m, a);
      assert LocalsOk(s.calls[m]);
      RefusedHere(cfg, s, t, m, a);
    case ServeStep(i, a) => ServeRefusesNone(cfg, s, t, i, a, n);
    case _ => OutsideStep(cfg, s, t, step);
  }

  lemma RefusedHere(cfg: Config, s: State, t: State, n: nat, a: CallAct)
    requires CallNext(cfg, s, t, n, a) && LocalsOk(s.calls[n])
    ensures n < |t.calls|
    ensures !Refused(s.calls[n]) && Refused(t.calls[n]) ==>
              a.QueueInvoke? && !s.chans[s.calls[n].entry.value.tx].open
  {
  }

  lemma ServeRefusesNone(cfg: Config, s: State, t: State, i: nat, a: ServeAct, n: nat)
    requires ServeNext(cfg, s, t, i, a) && n < |s.calls| && n < |t.calls|
    ensures t.calls[n].outcome == s.calls[n].outcome && t.calls[n].reqId == s.calls[n].reqId
    ensures t.calls[n].service == s.calls[n].service
  {
  }
}
