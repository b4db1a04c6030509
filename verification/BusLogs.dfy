/**
 * What has ever been queued on a connection: every Invoke is a gated broker call addressed to exactly this connection,
 * every Response answers an Invoke read from it, and no call is queued twice.
 */
module BusLogs {
  import opened Prelude
  import opened Frames
  import opened BrokerTables
  import opened Connection
  import opened Bus
  import opened BusSteps
  import opened BusRegistration
  import opened BusCalls

  // ----- invariants ---------------------------------------------------------------------------

  /** The Invoke frame of a call. */
  function InvokeOf(k: Call): BusFrame {
    InvokeFrame(Invoke(k.reqId, k.methodName, k.payload, k.caller))
  }

  /** A logged frame is the one its sender had to send, on the connection it had to use. */
  predicate TagOk(tag: Sender, f: BusFrame, j: nat, calls: seq<Call>) {
    match tag
    case ByCall(c) =>
      && c < |calls| && calls[c].handle == Some(j) && calls[c].reqId > 0 && CallRank(calls[c].pc) >= 8
      && f == InvokeOf(calls[c])
    case ByRoute(c) =>
      && c < |calls| && calls[c].pc == Ended && calls[c].origin.Routed? && calls[c].origin.conn == j
      && calls[c].outcome.Some? && f == ResponseFrame(calls[c].origin.reqId, ReplyOf(calls[c].outcome.value))
    case ByPublish(_, _) => f.EventFrame?
  }

  ghost predicate LogOk(ch: Channel, j: nat, calls: seq<Call>) {
    && |ch.tags| == |ch.queued|
    && (forall a :: 0 <= a < |ch.tags| ==> TagOk(ch.tags[a], ch.queued[a], j, calls))
  }

  /** No call is queued twice, neither its Invoke nor its answer. */
  ghost predicate CallsDistinct(ch: Channel) {
    forall a, b :: 0 <= a < b < |ch.tags| && ch.tags[a] == ch.tags[b] ==> ch.tags[a].ByPublish?
  }

  /** The call waits, or a Response or a deadline has ended its wait. */
  predicate MustBeSent(k: Call) {
    k.pc == Waiting || k.pc == DropPending || (k.outcome.Some? && k.outcome.value.Answered?)
  }

  /** Then its Invoke is in the log of its connection. */
  predicate SentOk(n: nat, k: Call, chans: seq<Channel>) {
    MustBeSent(k) ==> k.handle.Some? && k.handle.value < |chans| && ByCall(n) in chans[k.handle.value].tags
  }

  ghost predicate LogsOk(s: State) {
    && (forall j :: 0 <= j < |s.chans| ==> LogOk(s.chans[j], j, s.calls) && CallsDistinct(s.chans[j]))
    && (forall n :: 0 <= n < |s.calls| ==> SentOk(n, s.calls[n], s.chans))
  }

  // ----- steps that queue nothing -----------------------------------------------------------------

  ghost predicate LogsKept(a: seq<Channel>, b: seq<Channel>) {
    && |a| <= |b|
    && (forall j :: 0 <= j < |a| ==> b[j].tags == a[j].tags && b[j].queued == a[j].queued)
    && (forall j :: |a| <= j < |b| ==> b[j] == NEW_CHANNEL)
  }

  lemma CallsMove(ch: Channel, j: nat, a: seq<Call>, b: seq<Call>)
    requires LogOk(ch, j, a) && CallsAdvance(a, b)
    ensures LogOk(ch, j, b)
  {
  }

  /** The touched call does not enter a state in which its Invoke must have been queued. */
  predicate NotNewlySent(k: Call, l: Call) {
    MustBeSent(l) ==> MustBeSent(k) && l.handle == k.handle
  }

  lemma KeptLogs(s: State, t: State, n: nat)
    requires LogsOk(s) && CallEffect(s, t, n) && LogsKept(s.chans, t.chans)
    requires n < |s.calls| && n < |t.calls| ==> NotNewlySent(s.calls[n], t.calls[n])
    ensures LogsOk(t)
  {
    EffectAdvances(s, t, n);
    forall j | 0 <= j < |t.chans|
      ensures LogOk(t.chans[j], j, t.calls) && CallsDistinct(t.chans[j])
    {
      if j < |s.chans| {
        CallsMove(s.chans[j], j, s.calls, t.calls);
      }
    }
    forall m | 0 <= m < |t.calls|
      ensures SentOk(m, t.calls[m], t.chans)
    {
      if m < |s.calls| {
        assert SentOk(m, s.calls[m], s.chans);
      }
    }
  }

  // ----- the two pushes of a call ------------------------------------------------------------------

  lemma PushLog(ch: Channel, j: nat, calls: seq<Call>, f: BusFrame, tag: Sender)
    requires LogOk(ch, j, calls) && CallsDistinct(ch) && TagOk(tag, f, j, calls)
    requires tag.ByPublish? || tag !in ch.tags
    ensures LogOk(Push(ch, f, tag), j, calls) && CallsDistinct(Push(ch, f, tag))
  {
  }

  lemma QueueInvokeLogs(s: State, t: State, n: nat)
    requires LogsOk(s) && CallsOk(s) && Aligned(s) && n < |s.calls| && QueueInvokeStep(s, t, n) && CallEffect(s, t, n)
    ensures LogsOk(t)
  {
    EffectAdvances(s, t, n);
    var k := s.calls[n];
    assert LocalsOk(k) && TargetOk(s.serves, k);
    var j := k.handle.value;
    forall i | 0 <= i < |t.chans|
      ensures LogOk(t.chans[i], i, t.calls) && CallsDistinct(t.chans[i])
    {
      CallsMove(s.chans[i], i, s.calls, t.calls);
      if i == j && s.chans[j].open {
        forall a | 0 <= a < |s.chans[j].tags|
          ensures s.chans[j].tags[a] != ByCall(n)
        {
          assert TagOk(s.chans[j].tags[a], s.chans[j].queued[a], j, s.calls);
        }
        PushLog(s.chans[j], j, t.calls, InvokeOf(k), ByCall(n));
      }
    }
    forall m | 0 <= m < |t.calls|
      ensures SentOk(m, t.calls[m], t.chans)
    {
      assert SentOk(m, s.calls[m], s.chans);
      if m == n && s.chans[j].open {
        assert t.chans[j].tags[|s.chans[j].tags|] == ByCall(n);
      }
      assert forall x :: x in s.chans[j].tags ==> x in t.chans[j].tags;
    }
  }

  lemma QueueReplyLogs(s: State, t: State, n: nat)
    requires LogsOk(s) && CallsOk(s) && Aligned(s) && n < |s.calls| && QueueReplyStep(s, t, n) && CallEffect(s, t, n)
    ensures LogsOk(t)
  {
    EffectAdvances(s, t, n);
    var k := s.calls[n];
    var j := k.origin.conn;
    forall i | 0 <= i < |t.chans|
      ensures LogOk(t.chans[i], i, t.calls) && CallsDistinct(t.chans[i])
    {
      CallsMove(s.chans[i], i, s.calls, t.calls);
      if i == j && s.chans[j].open {
        forall a | 0 <= a < |s.chans[j].tags|
          ensures s.chans[j].tags[a] != ByRoute(n)
        {
          assert TagOk(s.chans[j].tags[a], s.chans[j].queued[a], j, s.calls);
        }
        PushLog(s.chans[j], j, t.calls, ResponseFrame(k.origin.reqId, ReplyOf(k.outcome.value)), ByRoute(n));
      }
    }
    forall m | 0 <= m < |t.calls|
      ensures SentOk(m, t.calls[m], t.chans)
    {
      assert SentOk(m, s.calls[m], s.chans);
      assert forall x :: x in s.chans[j].tags ==> x in t.chans[j].tags;
    }
  }

  lemma EventLogs(s: State, t: State, i: nat)
    requires LogsOk(s) && Aligned(s) && i < |s.serves| && EventStep(s, t, i)
    ensures LogsOk(t)
  {
    var FanSend(ev, p, _, tx, _) := s.serves[i].pc;
    PushLog(s.chans[tx], tx, s.calls, EventFrame(ev), ByPublish(i, p));
    forall m | 0 <= m < |t.calls|
      ensures SentOk(m, t.calls[m], t.chans)
    {
      assert SentOk(m, s.calls[m], s.chans);
      assert forall x :: x in s.chans[tx].tags ==> x in t.chans[tx].tags;
    }
  }

  // ----- preservation --------------------------------------------------------------------------------

  lemma OutsideLogs(s: State, t: State)
    requires LogsOk(s) && Outside(s, t)
    ensures LogsOk(t)
  {
    OutsideEffect(s, t);
    KeptLogs(s, t, 0);
  }

  lemma ServeLogs(cfg: Config, s: State, t: State, i: nat, a: ServeAct)
    requires ServeNext(cfg, s, t, i, a) && !a.QueueEvent?
    ensures LogsKept(s.chans, t.chans)
  {
    ServeLog(cfg, s, t, i, a);
  }

  lemma ServeLog(cfg: Config, s: State, t: State, i: nat, a: ServeAct)
    requires ServeNext(cfg, s, t, i, a) && !a.QueueEvent?
    ensures |t.chans| == |s.chans| && t.chans == s.chans[i := t.chans[i]]
    ensures t.chans[i].tags == s.chans[i].tags && t.chans[i].queued == s.chans[i].queued
  {
  }

  lemma CallLogs(cfg: Config, s: State, t: State, n: nat, a: CallAct)
    requires CallNext(cfg, s, t, n, a) && !a.QueueInvoke? && !a.QueueReply? && LocalsOk(s.calls[n])
    ensures t.chans == s.chans
    ensures NotNewlySent(s.calls[n], t.calls[n])
  {
  }

  lemma CallStepLogs(cfg: Config, s: State, t: State, n: nat, a: CallAct)
    requires CallNext(cfg, s, t, n, a) && LogsOk(s) && CallsOk(s) && CallEffect(s, t, n)
    ensures LogsOk(t)
  {
    if a.QueueInvoke? {
      QueueInvokeLogs(s, t, n);
    } else if a.QueueReply? {
      QueueReplyLogs(s, t, n);
    } else {
      CallLogs(cfg, s, t, n, a);
      KeptLogs(s, t, n);
    }
  }

  lemma ServeStepLogs(cfg: Config, s: State, t: State, i: nat, a: ServeAct)
    requires ServeNext(cfg, s, t, i, a) && LogsOk(s)
    ensures LogsOk(t)
  {
    if a.QueueEvent? {
      EventLogs(s, t, i);
    } else if a.WakeCaller? {
      ServeLogs(cfg, s, t, i, a);
      WakeEffect(s, t, i);
      KeptLogs(s, t, s.serves[i].pc.call);
    } else {
      ServeLogs(cfg, s, t, i, a);
      ServeEffect(cfg, s, t, i, a);
      ServeFirstCall(cfg, s, t, i, a);
      KeptLogs(s, t, 0);
    }
  }

  lemma StepLogs(cfg: Config, s: State, t: State, step: Step)
    requires Next(cfg, s, t, step) && Registered(s) && CallsOk(s) && CountersPositive(s) && LogsOk(s)
    ensures LogsOk(t)
  {
    StepCallEffect(cfg, s, t, step);
    match step
    case CallStep(n, a) => CallStepLogs(cfg, s, t, n, a);
    case ServeStep(i, a) => ServeStepLogs(cfg, s, t, i, a);
    case _ => OutsideStep(cfg, s, t, step); OutsideLogs(s, t);
  }

  // ----- what an app is ever asked to do -----------------------------------------------------------------

  /**
   * The dispatch gate over whole runs: every Invoke ever queued to a connection names a method of that connection's
   * own Hello catalog, and carries a user id if the first declaration of that name requires one.
   */
  lemma QueuedInvokesAreGated(s: State, j: nat, a: nat)
    requires LogsOk(s) && CallsOk(s) && Aligned(s)
    requires j < |s.serves| && a < |s.chans[j].queued| && s.chans[j].queued[a].InvokeFrame?
    ensures s.serves[j].hello.Some?
    ensures var inv := s.chans[j].queued[a].inv;
            Admissible(s.serves[j].hello.value.methods, inv.methodName, inv.caller)
  {
  }
}
