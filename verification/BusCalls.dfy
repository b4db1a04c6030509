/**
 * Broker calls under every interleaving: what a call's program counter says about its locals, and that the entry,
 * the session handle and the registry name of a call all denote one connection.
 */
module BusCalls {
  import opened Prelude
  import opened Frames
  import opened ServiceRegistry
  import opened BrokerTables
  import opened Connection
  import opened Bus
  import opened BusSteps
  import opened BusRegistration

  function CallRank(pc: CallPc): nat {
    match pc
    case FindLocal => 0
    case CheckCatalog => 1
    case RunLocal => 2
    case FindEntry => 3
    case FindSession => 4
    case AllocId => 5
    case PutPending => 6
    case SendInvoke => 7
    case Waiting => 8
    case DropPending => 9
    case Finished => 10
    case StoreCaps => 11
    case Ended => 12
  }

  // ----- locals of a call ------------------------------------------------------------------

  /** Locals are filled in program order, and an outcome agrees with where it came from. */
  predicate LocalsOk(k: Call) {
    && (CallRank(k.pc) < 4 ==> k.entry.None?)
    && (4 <= CallRank(k.pc) < 10 ==> k.entry.Some?)
    && (CallRank(k.pc) < 5 ==> k.handle.None?)
    && (5 <= CallRank(k.pc) < 10 ==> k.handle.Some?)
    && (CallRank(k.pc) < 6 ==> k.reqId == 0)
    && (6 <= CallRank(k.pc) < 10 ==> k.reqId > 0)
    && (CallRank(k.pc) < 7 ==> k.slot.None?)
    && (k.outcome.Some? <==> CallRank(k.pc) >= 10)
    && (k.handle.Some? ==> k.entry.Some?)
    && (k.reqId > 0 ==> k.handle.Some?)
    && (k.slot.Some? ==> k.reqId > 0)
    && (k.outcome.Some? && k.outcome.value.Answered? ==> k.slot == Some(k.outcome.value.reply))
    && (k.outcome.Some? && k.outcome.value.LocalAnswer? ==> k.entry.None?)
    && (k.entry.Some? ==> Admissible(k.entry.value.methods, k.methodName, k.caller))
    && (k.pc == StoreCaps ==> k.origin.Probe?)
  }

  ghost predicate AllLocalsOk(calls: seq<Call>) {
    forall n :: 0 <= n < |calls| ==> LocalsOk(calls[n])
  }

  /** The entry a call copied belongs to a connection that has been registered under the name the call asked for. */
  predicate TargetOk(serves: seq<Serve>, k: Call) {
    && (k.entry.Some? ==>
          && var e := k.entry.value;
             && e.tx < |serves|
             && EverPut(serves[e.tx]) && serves[e.tx].generation == e.generation
             && serves[e.tx].hello.Some? && serves[e.tx].hello.value.service == k.service == e.service
             && serves[e.tx].hello.value.methods == e.methods)
    && (k.handle.Some? ==> k.entry.Some? && k.handle.value == k.entry.value.tx)
  }

  ghost predicate AllTargetsOk(serves: seq<Serve>, calls: seq<Call>) {
    forall n :: 0 <= n < |calls| ==> TargetOk(serves, calls[n])
  }

  ghost predicate CallsOk(s: State) {
    AllLocalsOk(s.calls) && AllTargetsOk(s.serves, s.calls)
  }

  // ----- how calls change --------------------------------------------------------------------

  predicate SameRequest(k: Call, l: Call) {
    && l.origin == k.origin && l.service == k.service && l.methodName == k.methodName
    && l.payload == k.payload && l.caller == k.caller && l.timeoutMs == k.timeoutMs
  }

  /** Calls only move forward and never change what they have fixed. */
  predicate CallAdvances(k: Call, l: Call) {
    && SameRequest(k, l)
    && CallRank(k.pc) <= CallRank(l.pc)
    && (CallRank(k.pc) >= 4 ==> l.entry == k.entry)
    && (CallRank(k.pc) >= 5 ==> l.handle == k.handle)
    && (CallRank(k.pc) >= 6 ==> l.reqId == k.reqId)
    && (CallRank(k.pc) >= 10 ==> l.outcome == k.outcome && l.slot == k.slot && l.answeredAt == k.answeredAt)
  }

  ghost predicate CallsAdvance(a: seq<Call>, b: seq<Call>) {
    |a| <= |b| && forall n :: 0 <= n < |a| ==> CallAdvances(a[n], b[n])
  }

  predicate FreshCall(k: Call) {
    && k.entry.None? && k.handle.None? && k.reqId == 0 && k.slot.None?
    && ((k.pc == FindLocal && k.outcome.None?)
        || (k.pc == Finished && k.outcome.Some? && k.outcome.value.Failed? && k.outcome.value.error.BadRequest?))
  }

  /** At most call `n` changes, and it advances; or one fresh call is appended. */
  ghost predicate CallEffect(s: State, t: State, n: nat) {
    || t.calls == s.calls
    || (n < |s.calls| && n < |t.calls| && t.calls == s.calls[n := t.calls[n]]
        && CallAdvances(s.calls[n], t.calls[n]) && (LocalsOk(s.calls[n]) ==> LocalsOk(t.calls[n])))
    || (|t.calls| == |s.calls| + 1 && t.calls == s.calls + [t.calls[|s.calls|]] && FreshCall(t.calls[|s.calls|]))
  }

  predicate LookupAct(a: CallAct) {
    a.LookUpLocal? || a.GateLocal? || a.LocalReturned? || a.LocalTimedOut? || a.LookUpEntry? || a.LookUpSession?
  }

  predicate ExchangeAct(a: CallAct) {
    a.TakeRequestId? || a.EnterPending? || a.QueueInvoke? || a.LeavePending? || a.QueueReply?
  }

  predicate ConcludeAct(a: CallAct) {
    a.ReceiveReply? || a.SenderDropped? || a.DeadlinePassed? || a.VerifyProbe? || a.CacheProbe?
  }

  lemma LookupEffect(cfg: Config, s: State, t: State, n: nat, a: CallAct)
    requires CallNext(cfg, s, t, n, a) && LookupAct(a)
    ensures CallEffect(s, t, n)
  {
  }

  lemma ExchangeEffect(cfg: Config, s: State, t: State, n: nat, a: CallAct)
    requires CallNext(cfg, s, t, n, a) && ExchangeAct(a)
    requires a.TakeRequestId? ==> CountersPositive(s)
    ensures CallEffect(s, t, n)
  {
  }

  lemma ConcludeEffect(cfg: Config, s: State, t: State, n: nat, a: CallAct)
    requires CallNext(cfg, s, t, n, a) && ConcludeAct(a)
    ensures CallEffect(s, t, n)
  {
  }

  lemma ServeEffect(cfg: Config, s: State, t: State, i: nat, a: ServeAct)
    requires ServeNext(cfg, s, t, i, a) && !a.WakeCaller?
    ensures CallEffect(s, t, 0)
  {
  }

  lemma ServeFirstCall(cfg: Config, s: State, t: State, i: nat, a: ServeAct)
    requires ServeNext(cfg, s, t, i, a) && !a.WakeCaller?
    ensures 0 < |s.calls| && 0 < |t.calls| ==> t.calls[0] == s.calls[0]
  {
  }

  lemma WakeEffect(s: State, t: State, i: nat)
    requires Aligned(s) && i < |s.serves| && WakeStep(s, t, i)
    ensures CallEffect(s, t, s.serves[i].pc.call)
  {
  }

  lemma OutsideEffect(s: State, t: State)
    requires Outside(s, t)
    ensures CallEffect(s, t, 0) && (0 < |s.calls| ==> t.calls[0] == s.calls[0])
  {
  }

  // ----- preservation -------------------------------------------------------------------------

  lemma AdvanceTargets(a: seq<Serve>, b: seq<Serve>, calls: seq<Call>)
    requires AllTargetsOk(a, calls) && ServesAdvance(a, b)
    ensures AllTargetsOk(b, calls)
  {
  }

  /** The call that changed still has a good target, or its target did not change. */
  ghost predicate TargetEffect(s: State, t: State, n: nat) {
    n < |s.calls| && n < |t.calls| ==>
      || TargetOk(s.serves, t.calls[n])
      || (t.calls[n].service == s.calls[n].service && t.calls[n].entry == s.calls[n].entry
          && t.calls[n].handle == s.calls[n].handle)
  }

  lemma EffectCalls(s: State, t: State, n: nat)
    requires CallsOk(s) && CallEffect(s, t, n) && TargetEffect(s, t, n) && ServesAdvance(s.serves, t.serves)
    ensures CallsOk(t)
  {
    assert AllTargetsOk(s.serves, t.calls);
    AdvanceTargets(s.serves, t.serves, t.calls);
  }

  lemma EntryTarget(s: State, t: State, n: nat)
    requires Registered(s) && CallsOk(s) && Aligned(s) && n < |s.calls| && EntryStep(s, t, n)
    ensures TargetOk(s.serves, t.calls[n])
  {
    var svc := s.calls[n].service;
    if svc in s.reg.entries {
      assert EntryOk(s.serves, svc, s.reg.entries[svc]);
    }
    assert LocalsOk(s.calls[n]);
  }

  /** The session a call finds is the session of the very connection whose entry it copied. */
  lemma HandleTarget(s: State, t: State, n: nat)
    requires Registered(s) && CallsOk(s) && Aligned(s) && n < |s.calls| && HandleStep(s, t, n)
    ensures TargetOk(s.serves, t.calls[n])
  {
  }

  lemma LookupTargets(cfg: Config, s: State, t: State, n: nat, a: CallAct)
    requires CallNext(cfg, s, t, n, a) && LookupAct(a) && Registered(s) && CallsOk(s)
    ensures TargetEffect(s, t, n)
  {
    match a
    case LookUpEntry => EntryTarget(s, t, n);
    case LookUpSession => HandleTarget(s, t, n);
    case _ =>
  }

  lemma OtherTargets(cfg: Config, s: State, t: State, n: nat, a: CallAct)
    requires CallNext(cfg, s, t, n, a) && !LookupAct(a)
    ensures TargetEffect(s, t, n)
  {
  }

  ghost predicate CountersPositive(s: State) {
    forall j :: 0 <= j < |s.sess| ==> s.sess[j].nextReqId > 0
  }

  lemma CallStepCalls(cfg: Config, s: State, t: State, n: nat, a: CallAct)
    requires CallNext(cfg, s, t, n, a) && Registered(s) && CallsOk(s) && CountersPositive(s)
    ensures CallEffect(s, t, n) && TargetEffect(s, t, n)
  {
    if LookupAct(a) {
      LookupEffect(cfg, s, t, n, a);
      LookupTargets(cfg, s, t, n, a);
    } else {
      OtherTargets(cfg, s, t, n, a);
      if ExchangeAct(a) {
        ExchangeEffect(cfg, s, t, n, a);
      } else {
        ConcludeEffect(cfg, s, t, n, a);
      }
    }
  }

  /** Which call a step may change. */
  function Touched(s: State, step: Step): nat {
    match step
    case CallStep(n, _) => n
    case ServeStep(i, WakeCaller) => if i < |s.serves| && s.serves[i].pc.Wake? then s.serves[i].pc.call else 0
    case _ => 0
  }

  lemma StepCallEffect(cfg: Config, s: State, t: State, step: Step)
    requires Next(cfg, s, t, step) && Registered(s) && CallsOk(s) && CountersPositive(s)
    ensures CallEffect(s, t, Touched(s, step)) && TargetEffect(s, t, Touched(s, step))
  {
    match step
    case CallStep(n, a) => CallStepCalls(cfg, s, t, n, a);
    case ServeStep(i, a) =>
      if a.WakeCaller? {
        WakeEffect(s, t, i);
      } else {
        ServeEffect(cfg, s, t, i, a);
      }
    case _ => OutsideStep(cfg, s, t, step); OutsideEffect(s, t);
  }

  lemma StepCalls(cfg: Config, s: State, t: State, step: Step)
    requires Next(cfg, s, t, step) && Registered(s) && CallsOk(s) && CountersPositive(s)
    ensures CallsOk(t)
  {
    StepCallEffect(cfg, s, t, step);
    StepAdvances(cfg, s, t, step);
    EffectCalls(s, t, Touched(s, step));
  }

  lemma EffectAdvances(s: State, t: State, n: nat)
    requires CallEffect(s, t, n)
    ensures CallsAdvance(s.calls, t.calls)
  {
  }
}
