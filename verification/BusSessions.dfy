/**
 * Request ids and pending tables under every interleaving: every id ever drawn on a connection has exactly one fate,
 * and a Response can only reach the call that drew its id on the very connection it is read from.
 */
module BusSessions {
  import opened Prelude
  import opened Frames
  import opened BrokerTables
  import opened Connection
  import opened Bus
  import opened BusSteps
  import opened BusRegistration
  import opened BusCalls

  // ----- one session table ---------------------------------------------------------------------

  /** The call that drew id `r`, and the four places an id can be. */
  predicate OwnerOk(x: Session, j: nat, r: nat, calls: seq<Call>)
    requires r in x.owners
  {
    x.owners[r] < |calls| && calls[x.owners[r]].handle == Some(j) && calls[x.owners[r]].reqId == r
  }

  predicate Uninserted(x: Session, r: nat, calls: seq<Call>)
    requires r in x.owners
  {
    x.owners[r] < |calls| && calls[x.owners[r]].pc == PutPending
  }

  function Count(b: bool): nat {
    if b then 1 else 0
  }

  /** Exactly one of: still to be inserted, pending, removed by a Response, removed by a timeout. */
  predicate OneFate(x: Session, r: nat, calls: seq<Call>)
    requires r in x.owners
  {
    Count(Uninserted(x, r, calls)) + Count(r in x.pendingOut) + Count(r in x.answered) + Count(r in x.expired) == 1
  }

  predicate ExpiredOk(x: Session, r: nat, calls: seq<Call>)
    requires r in x.owners
  {
    r in x.expired ==>
      && x.owners[r] < |calls| && calls[x.owners[r]].outcome.Some?
      && calls[x.owners[r]].outcome.value == Failed(Timeout(calls[x.owners[r]].timeoutMs))
  }

  predicate PendingOk(x: Session, r: nat)
    requires r in x.pendingOut
  {
    r in x.owners && x.pendingOut[r] == x.owners[r]
  }

  ghost predicate SessionTableOk(x: Session, j: nat, calls: seq<Call>) {
    && x.nextReqId > 0
    && (forall r :: r in x.owners <==> 1 <= r < x.nextReqId)
    && (forall r :: r in x.owners ==> OwnerOk(x, j, r, calls) && OneFate(x, r, calls) && ExpiredOk(x, r, calls))
    && (forall r :: r in x.pendingOut ==> PendingOk(x, r))
    && (forall r :: r in x.answered || r in x.expired ==> r in x.owners)
  }

  ghost predicate TablesOk(sess: seq<Session>, calls: seq<Call>) {
    forall j :: 0 <= j < |sess| ==> SessionTableOk(sess[j], j, calls)
  }

  /** The id a call holds is the one it drew. */
  predicate IdOk(sess: seq<Session>, calls: seq<Call>, n: nat)
    requires n < |calls|
  {
    calls[n].reqId > 0 ==>
      && calls[n].handle.Some? && calls[n].handle.value < |sess|
      && calls[n].reqId in sess[calls[n].handle.value].owners
      && sess[calls[n].handle.value].owners[calls[n].reqId] == n
  }

  ghost predicate IdsOk(sess: seq<Session>, calls: seq<Call>) {
    forall n :: 0 <= n < |calls| ==> IdOk(sess, calls, n)
  }

  ghost predicate SessionsOk(s: State) {
    TablesOk(s.sess, s.calls) && IdsOk(s.sess, s.calls)
  }

  // ----- the calls change, the tables do not -----------------------------------------------------

  predicate KeepsId(k: Call, l: Call) {
    && l.handle == k.handle && l.reqId == k.reqId
    && (l.pc == PutPending <==> k.pc == PutPending)
    && (k.outcome.Some? ==> l.outcome == k.outcome) && l.timeoutMs == k.timeoutMs
  }

  /** A call that holds no id before or after does not matter to any table. */
  predicate NoId(k: Call, l: Call) {
    k.reqId == 0 && l.reqId == 0
  }

  lemma TableKept(x: Session, j: nat, calls: seq<Call>, n: nat, l: Call)
    requires SessionTableOk(x, j, calls) && n < |calls| && (KeepsId(calls[n], l) || NoId(calls[n], l))
    ensures SessionTableOk(x, j, calls[n := l])
  {
  }

  lemma TablesKept(sess: seq<Session>, calls: seq<Call>, n: nat, l: Call)
    requires TablesOk(sess, calls) && IdsOk(sess, calls) && n < |calls| && (KeepsId(calls[n], l) || NoId(calls[n], l))
    ensures TablesOk(sess, calls[n := l]) && IdsOk(sess, calls[n := l])
  {
    var after := calls[n := l];
    forall j | 0 <= j < |sess|
      ensures SessionTableOk(sess[j], j, after)
    {
      TableKept(sess[j], j, calls, n, l);
    }
    forall m | 0 <= m < |after|
      ensures IdOk(sess, after, m)
    {
      assert IdOk(sess, calls, m);
    }
  }

  lemma TableExtended(x: Session, j: nat, calls: seq<Call>, l: Call)
    requires SessionTableOk(x, j, calls)
    ensures SessionTableOk(x, j, calls + [l])
  {
  }

  lemma TablesExtended(sess: seq<Session>, calls: seq<Call>, l: Call)
    requires TablesOk(sess, calls) && IdsOk(sess, calls) && l.reqId == 0
    ensures TablesOk(sess, calls + [l]) && IdsOk(sess, calls + [l])
  {
    forall j | 0 <= j < |sess|
      ensures SessionTableOk(sess[j], j, calls + [l])
    {
      TableExtended(sess[j], j, calls, l);
    }
    forall m | 0 <= m < |calls + [l]|
      ensures IdOk(sess, calls + [l], m)
    {
      assert m < |calls| ==> IdOk(sess, calls, m);
    }
  }

  // ----- one table changes together with its call ---------------------------------------------------

  /** The other tables do not mention a call that belongs to table `j`. */
  lemma OtherTable(x: Session, i: nat, calls: seq<Call>, n: nat, l: Call)
    requires SessionTableOk(x, i, calls) && n < |calls| && calls[n].handle != Some(i)
    ensures SessionTableOk(x, i, calls[n := l])
  {
  }

  lemma TakeIdTable(x: Session, j: nat, calls: seq<Call>, n: nat, l: Call)
    requires SessionTableOk(x, j, calls) && n < |calls| && calls[n].reqId == 0 && calls[n].handle == Some(j)
    requires l == calls[n].(pc := PutPending, reqId := x.nextReqId)
    ensures SessionTableOk(TakeReqId(x, n), j, calls[n := l])
  {
  }

  lemma InsertTable(x: Session, j: nat, calls: seq<Call>, n: nat, l: Call)
    requires SessionTableOk(x, j, calls) && n < |calls| && calls[n].pc == PutPending
    requires calls[n].reqId in x.owners && x.owners[calls[n].reqId] == n
    requires l == calls[n].(pc := SendInvoke)
    ensures SessionTableOk(InsertPending(x, calls[n].reqId, n), j, calls[n := l])
  {
    var y := InsertPending(x, calls[n].reqId, n);
    forall r | r in y.owners
      ensures OwnerOk(y, j, r, calls[n := l]) && OneFate(y, r, calls[n := l]) && ExpiredOk(y, r, calls[n := l])
    {
      assert OwnerOk(x, j, r, calls) && OneFate(x, r, calls) && ExpiredOk(x, r, calls);
    }
  }

  lemma AnswerTable(x: Session, j: nat, calls: seq<Call>, r0: nat)
    requires SessionTableOk(x, j, calls)
    ensures SessionTableOk(RemoveAnswered(x, r0), j, calls)
  {
  }

  lemma ExpireTable(x: Session, j: nat, calls: seq<Call>, n: nat, l: Call)
    requires SessionTableOk(x, j, calls) && n < |calls| && calls[n].pc == DropPending && calls[n].outcome.None?
    requires calls[n].reqId in x.owners && x.owners[calls[n].reqId] == n
    requires l == FinishCall(calls[n], Failed(Timeout(calls[n].timeoutMs)))
    ensures SessionTableOk(RemoveExpired(x, calls[n].reqId), j, calls[n := l])
  {
    var y := RemoveExpired(x, calls[n].reqId);
    forall r | r in y.owners
      ensures OwnerOk(y, j, r, calls[n := l]) && OneFate(y, r, calls[n := l]) && ExpiredOk(y, r, calls[n := l])
    {
      assert OwnerOk(x, j, r, calls) && OneFate(x, r, calls) && ExpiredOk(x, r, calls);
    }
  }

  // ----- preservation -------------------------------------------------------------------------------

  lemma TakeIdSessions(s: State, t: State, n: nat)
    requires CallsOk(s) && SessionsOk(s) && Aligned(s) && n < |s.calls| && TakeIdStep(s, t, n)
    ensures SessionsOk(t)
  {
    var j := s.calls[n].handle.value;
    var l := t.calls[n];
    assert LocalsOk(s.calls[n]);
    forall i | 0 <= i < |t.sess|
      ensures SessionTableOk(t.sess[i], i, t.calls)
    {
      if i == j {
        TakeIdTable(s.sess[j], j, s.calls, n, l);
      } else {
        OtherTable(s.sess[i], i, s.calls, n, l);
      }
    }
    forall m | 0 <= m < |t.calls|
      ensures IdOk(t.sess, t.calls, m)
    {
      assert IdOk(s.sess, s.calls, m);
    }
  }

  lemma EnterSessions(s: State, t: State, n: nat)
    requires CallsOk(s) && SessionsOk(s) && Aligned(s) && n < |s.calls| && EnterPendingStep(s, t, n)
    ensures SessionsOk(t)
  {
    assert LocalsOk(s.calls[n]) && IdOk(s.sess, s.calls, n);
    EnterTables(s, t, n);
    EnterIds(s, t, n);
  }

  lemma EnterIds(s: State, t: State, n: nat)
    requires IdsOk(s.sess, s.calls) && Aligned(s) && n < |s.calls| && EnterPendingStep(s, t, n)
    ensures IdsOk(t.sess, t.calls)
  {
    forall m | 0 <= m < |t.calls|
      ensures IdOk(t.sess, t.calls, m)
    {
      assert IdOk(s.sess, s.calls, m);
    }
  }

  lemma EnterTables(s: State, t: State, n: nat)
    requires TablesOk(s.sess, s.calls) && Aligned(s) && n < |s.calls| && EnterPendingStep(s, t, n)
    requires var j, r := s.calls[n].handle.value, s.calls[n].reqId; r in s.sess[j].owners && s.sess[j].owners[r] == n
    ensures TablesOk(t.sess, t.calls)
  {
    var j := s.calls[n].handle.value;
    forall i | 0 <= i < |t.sess|
      ensures SessionTableOk(t.sess[i], i, t.calls)
    {
      assert SessionTableOk(s.sess[i], i, s.calls);
      if i == j {
        InsertTable(s.sess[j], j, s.calls, n, t.calls[n]);
      } else {
        OtherTable(s.sess[i], i, s.calls, n, t.calls[n]);
      }
    }
  }

  lemma LeaveSessions(s: State, t: State, n: nat)
    requires CallsOk(s) && SessionsOk(s) && Aligned(s) && n < |s.calls| && LeavePendingStep(s, t, n)
    ensures SessionsOk(t)
  {
    var j := s.calls[n].handle.value;
    assert LocalsOk(s.calls[n]) && IdOk(s.sess, s.calls, n);
    forall i | 0 <= i < |t.sess|
      ensures SessionTableOk(t.sess[i], i, t.calls)
    {
      if i == j {
        ExpireTable(s.sess[j], j, s.calls, n, t.calls[n]);
      } else {
        OtherTable(s.sess[i], i, s.calls, n, t.calls[n]);
      }
    }
    forall m | 0 <= m < |t.calls|
      ensures IdOk(t.sess, t.calls, m)
    {
      assert IdOk(s.sess, s.calls, m);
    }
  }

  lemma ResponseSessions(s: State, t: State, i: nat)
    requires SessionsOk(s) && Aligned(s) && i < |s.serves| && ResponseStep(s, t, i)
    ensures SessionsOk(t)
  {
    AnswerTable(s.sess[i], i, s.calls, s.inbs[i].stream[0].reqId);
    forall m | 0 <= m < |t.calls|
      ensures IdOk(t.sess, t.calls, m)
    {
      assert IdOk(s.sess, s.calls, m);
    }
  }

  /** The tables stay, or an empty one joins; the touched call keeps its id or has none. */
  ghost predicate TablesStay(s: State, t: State, n: nat) {
    && (t.sess == s.sess || t.sess == s.sess + [NEW_SESSION])
    && (n < |s.calls| && n < |t.calls| ==> KeepsId(s.calls[n], t.calls[n]) || NoId(s.calls[n], t.calls[n]))
  }

  lemma AcceptTables(sess: seq<Session>, calls: seq<Call>)
    requires TablesOk(sess, calls) && IdsOk(sess, calls)
    ensures TablesOk(sess + [NEW_SESSION], calls) && IdsOk(sess + [NEW_SESSION], calls)
  {
    forall m | 0 <= m < |calls|
      ensures IdOk(sess + [NEW_SESSION], calls, m)
    {
      assert IdOk(sess, calls, m);
    }
  }

  lemma StaySessions(s: State, t: State, n: nat)
    requires SessionsOk(s) && CallEffect(s, t, n) && TablesStay(s, t, n)
    ensures SessionsOk(t)
  {
    if t.calls == s.calls {
    } else if |t.calls| == |s.calls| {
      TablesKept(s.sess, s.calls, n, t.calls[n]);
    } else {
      TablesExtended(s.sess, s.calls, t.calls[|s.calls|]);
    }
    AcceptTables(s.sess, t.calls);
  }

  lemma OutsideSessions(s: State, t: State)
    requires SessionsOk(s) && Outside(s, t)
    ensures SessionsOk(t)
  {
    OutsideEffect(s, t);
    StaySessions(s, t, 0);
  }

  predicate TableAct(a: CallAct) {
    a.TakeRequestId? || a.EnterPending? || a.LeavePending?
  }

  lemma CallTables(cfg: Config, s: State, t: State, n: nat, a: CallAct)
    requires CallNext(cfg, s, t, n, a) && !TableAct(a) && LocalsOk(s.calls[n])
    ensures TablesStay(s, t, n)
  {
  }

  lemma ServeTables(cfg: Config, s: State, t: State, i: nat, a: ServeAct)
    requires ServeNext(cfg, s, t, i, a) && !a.ReadResponse? && !a.WakeCaller?
    ensures t.sess == s.sess && |t.calls| >= |s.calls| && t.calls[..|s.calls|] == s.calls
  {
  }

  lemma CallStepSessions(cfg: Config, s: State, t: State, n: nat, a: CallAct)
    requires CallNext(cfg, s, t, n, a) && SessionsOk(s) && CallsOk(s) && CallEffect(s, t, n)
    ensures SessionsOk(t)
  {
    if {
      case a.TakeRequestId? => TakeIdSessions(s, t, n);
      case a.EnterPending? => EnterSessions(s, t, n);
      case a.LeavePending? => LeaveSessions(s, t, n);
      case !TableAct(a) =>
        assert LocalsOk(s.calls[n]);
        CallTables(cfg, s, t, n, a);
        StaySessions(s, t, n);
    }
  }

  lemma StepSessions(cfg: Config, s: State, t: State, step: Step)
    requires Next(cfg, s, t, step) && Registered(s) && CallsOk(s) && SessionsOk(s)
    ensures SessionsOk(t)
  {
    StepCallEffect(cfg, s, t, step);
    match step
    case CallStep(n, a) => CallStepSessions(cfg, s, t, n, a);
    case ServeStep(i, a) => ServeStepSessions(cfg, s, t, i, a, Touched(s, step));
    case _ => OutsideStep(cfg, s, t, step); OutsideSessions(s, t);
  }

  lemma ServeStepSessions(cfg: Config, s: State, t: State, i: nat, a: ServeAct, n: nat)
    requires ServeNext(cfg, s, t, i, a) && SessionsOk(s) && CallEffect(s, t, n)
    requires n == if a.WakeCaller? then s.serves[i].pc.call else 0
    ensures SessionsOk(t)
  {
    if a.ReadResponse? {
      ResponseSessions(s, t, i);
    } else if !a.WakeCaller? {
      ServeTables(cfg, s, t, i, a);
      assert 0 < |s.calls| ==> t.calls[0] == t.calls[..|s.calls|][0];
      StaySessions(s, t, n);
    } else {
      StaySessions(s, t, n);
    }
  }

  // ----- counting ids --------------------------------------------------------------------------------

  /** Ids drawn but not yet entered into `pending_out`. */
  function Undecided(x: Session, calls: seq<Call>): set<nat> {
    set r | r in x.owners && Uninserted(x, r, calls)
  }

  lemma {:induction false} IdsBelow(n: nat) returns (ids: set<nat>)
    requires n > 0
    ensures (forall r :: r in ids <==> 1 <= r < n) && |ids| == n - 1
  {
    if n == 1 {
      ids := {};
    } else {
      var fewer := IdsBelow(n - 1);
      ids := fewer + {n - 1};
    }
  }

  /** Exactly the ids drawn so far have a fate, and each has just one. */
  lemma FateOf(x: Session, j: nat, calls: seq<Call>, r: nat)
    requires SessionTableOk(x, j, calls)
    ensures Count(r in x.answered) + Count(r in x.expired) + Count(r in x.pendingOut)
            + Count(r in Undecided(x, calls)) == Count(1 <= r < x.nextReqId)
  {
    assert r in x.pendingOut ==> PendingOk(x, r);
    assert r in x.owners ==> OneFate(x, r, calls);
  }

  /** Conservation of request ids: each one drawn was answered, timed out, is pending, or is about to be inserted. */
  lemma RequestIdsConserved(s: State, j: nat)
    requires SessionsOk(s) && j < |s.sess|
    ensures var x := s.sess[j];
            x.nextReqId - 1 == |x.answered| + |x.expired| + |x.pendingOut| + |Undecided(x, s.calls)|
  {
    assert SessionTableOk(s.sess[j], j, s.calls);
    TableConserved(s.sess[j], j, s.calls);
  }

  lemma TableConserved(x: Session, j: nat, calls: seq<Call>)
    requires SessionTableOk(x, j, calls)
    ensures x.nextReqId - 1 == |x.answered| + |x.expired| + |x.pendingOut| + |Undecided(x, calls)|
  {
    var ids := IdsBelow(x.nextReqId);
    forall r: nat
      ensures Share(r, ids, x.answered, x.expired, x.pendingOut.Keys, Undecided(x, calls))
    {
      FateOf(x, j, calls, r);
    }
    FourParts(ids, x.answered, x.expired, x.pendingOut.Keys, Undecided(x, calls));
  }

  /** `r` is in exactly one of four sets if it is in `all`, and otherwise in none. */
  predicate Share(r: nat, all: set<nat>, a: set<nat>, b: set<nat>, c: set<nat>, d: set<nat>) {
    Count(r in a) + Count(r in b) + Count(r in c) + Count(r in d) == Count(r in all)
  }

  lemma FourParts(all: set<nat>, a: set<nat>, b: set<nat>, c: set<nat>, d: set<nat>)
    requires forall r: nat :: Share(r, all, a, b, c, d)
    ensures |all| == |a| + |b| + |c| + |d|
  {
    forall r: nat | r in all || r in a || r in b || r in c || r in d
      ensures Share(r, all, a, b, c, d)
    {
    }
    assert a !! b && (a + b) !! c && (a + b + c) !! d;
    assert all == a + b + c + d;
  }

  /** A call that holds an id and was neither answered nor timed out has exactly its own entry. */
  lemma OwnEntryOnly(s: State, n: nat, j: nat)
    requires CallsOk(s) && SessionsOk(s) && n < |s.calls| && s.calls[n].handle == Some(j) && j < |s.sess|
    requires 7 <= CallRank(s.calls[n].pc) <= 9
    requires s.calls[n].reqId !in s.sess[j].answered
    ensures forall r :: r in s.sess[j].pendingOut && s.sess[j].pendingOut[r] == n <==> r == s.calls[n].reqId
  {
    var x, k := s.sess[j], s.calls[n];
    assert LocalsOk(k) && IdOk(s.sess, s.calls, n) && SessionTableOk(x, j, s.calls);
    assert OneFate(x, k.reqId, s.calls) && ExpiredOk(x, k.reqId, s.calls);
    forall r
      ensures r in x.pendingOut && x.pendingOut[r] == n <==> r == k.reqId
    {
      if r in x.pendingOut {
        assert PendingOk(x, r) && OwnerOk(x, j, r, s.calls);
      }
    }
  }
}
