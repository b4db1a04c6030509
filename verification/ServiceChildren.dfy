/** How many children a service can have: one per `AppState`, and one in all if only dead `AppState`s are replaced. */
module ServiceChildren {
  import opened Prelude
  import opened Supervisor

  /** A live child of service `svc`. */
  predicate ChildOf(s: Sup, c: nat, svc: string) {
    c in s.alive && c < |s.spawnedBy| && s.spawnedBy[c] < |s.states| && s.states[s.spawnedBy[c]].service == svc
  }

  /** `AppState` `a` is no longer the one its service is looked up as. */
  predicate Replaced(s: Sup, a: nat)
    requires a < |s.states|
  {
    s.states[a].service !in s.apps || s.apps[s.states[a].service] != a
  }

  ghost predicate TwoChildrenAlive(s: Sup, svc: string) {
    exists c: nat, d: nat :: c != d && ChildOf(s, c, svc) && ChildOf(s, d, svc)
  }

  ghost predicate ReplacedOneAlive(s: Sup, svc: string) {
    exists c: nat, d: nat :: c != d && ChildOf(s, c, svc) && ChildOf(s, d, svc) && Replaced(s, s.spawnedBy[c])
  }

  /**
   * In every reachable state a service has two live children exactly when one of them belongs to an `AppState` that
   * was replaced or removed: the `AppState` the service is looked up as never has more than one.
   */
  lemma TwoChildrenExactly(s: Sup, svc: string)
    requires Reachable(s)
    ensures TwoChildrenAlive(s, svc) <==> ReplacedOneAlive(s, svc)
  {
    if TwoChildrenAlive(s, svc) {
      var c: nat, d: nat :| c != d && ChildOf(s, c, svc) && ChildOf(s, d, svc);
      AtMostOneChild(s, c, d);
      assert Replaced(s, s.spawnedBy[c]) || Replaced(s, s.spawnedBy[d]);
    }
  }

  // ----- when replacing is safe ---------------------------------------------------------------------------------

  /** `AppState` `a` has no live child in its slot and no task holds on to it. */
  ghost predicate Inert(s: Sup, a: nat)
    requires a < |s.states|
  {
    && (s.states[a].slot.Some? ==> s.states[a].slot.value !in s.alive)
    && forall t :: 0 <= t < |s.tasks| ==> HeldState(s.tasks[t]) != Some(a)
  }

  /** Every earlier `AppState` of the service is inert. */
  ghost predicate MayReplace(s: Sup, svc: string) {
    forall a :: 0 <= a < |s.states| && s.states[a].service == svc ==> Inert(s, a)
  }

  /** The act adds an `AppState` only for a service whose earlier ones are inert. */
  ghost predicate Careful(s: Sup, act: Act) {
    match act
    case Register(svc) => MayReplace(s, svc)
    case RunTask(t, _) => t < |s.tasks| && s.tasks[t].InsertEntry? ==> MayReplace(s, s.tasks[t].service)
    case _ => true
  }

  /** Only the newest `AppState` of a service can be looked up; all earlier ones are inert. */
  ghost predicate NewestOnly(s: Sup) {
    && (forall a, b :: 0 <= a < b < |s.states| && s.states[a].service == s.states[b].service ==> Inert(s, a))
    && (forall svc, a :: svc in s.apps && 0 <= a < |s.states| && s.states[a].service == svc ==> a <= s.apps[svc])
  }

  /** No `AppState` is added, no inert one that is not looked up gains a child or a holder. */
  ghost predicate StaysInert(s: Sup, s': Sup) {
    && |s'.states| == |s.states|
    && (forall a :: 0 <= a < |s.states| ==> s'.states[a].service == s.states[a].service)
    && (forall svc :: svc in s'.apps ==> svc in s.apps && s'.apps[svc] == s.apps[svc])
    && (forall a :: 0 <= a < |s.states| && Inert(s, a) && !Inert(s', a) ==> !Replaced(s, a))
  }

  lemma InertKept(s: Sup, s': Sup)
    requires NewestOnly(s) && StaysInert(s, s') && RefsOk(s)
    ensures NewestOnly(s')
  {
  }

  lemma ResidentInert(s: Sup, s': Sup, t: nat, fails: bool)
    requires SupOk(s) && t < |s.tasks| && ResidentStep(s, s', t, fails)
    ensures StaysInert(s, s')
  {
  }

  lemma EnsureInert(s: Sup, s': Sup, t: nat, fails: bool)
    requires SupOk(s) && t < |s.tasks| && EnsureStep(s, s', t, fails)
    ensures StaysInert(s, s')
  {
  }

  lemma StopInert(s: Sup, s': Sup, t: nat)
    requires SupOk(s) && t < |s.tasks| && StopStep(s, s', t)
    ensures StaysInert(s, s')
  {
  }

  lemma TableInert(s: Sup, s': Sup, t: nat)
    requires SupOk(s) && t < |s.tasks| && TableStep(s, s', t) && !s.tasks[t].InsertEntry?
    ensures StaysInert(s, s')
  {
  }

  lemma AddedNewest(s: Sup, svc: string)
    requires NewestOnly(s) && RefsOk(s) && MayReplace(s, svc)
    ensures NewestOnly(AddState(s, svc))
  {
    var s' := AddState(s, svc);
    forall a, b | 0 <= a < b < |s'.states| && s'.states[a].service == s'.states[b].service
      ensures Inert(s', a)
    {
      assert Inert(s, a);
    }
  }

  lemma TaskAdded(s: Sup, pc: TaskPc)
    requires NewestOnly(s) && HeldState(pc).None?
    ensures NewestOnly(s.(tasks := s.tasks + [pc]))
  {
    var s' := s.(tasks := s.tasks + [pc]);
    forall a, b | 0 <= a < b < |s'.states| && s'.states[a].service == s'.states[b].service
      ensures Inert(s', a)
    {
      assert Inert(s, a);
    }
  }

  lemma GotoIdle(s: Sup, t: nat, svc: string, pc: TaskPc)
    requires NewestOnly(s) && t < |s.tasks| && HeldState(pc).None? && MayReplace(s, svc)
    ensures NewestOnly(Goto(s, t, pc)) && MayReplace(Goto(s, t, pc), svc)
  {
    var s' := Goto(s, t, pc);
    forall a | 0 <= a < |s.states| && Inert(s, a)
      ensures Inert(s', a)
    {
    }
  }

  lemma InsertNewest(s: Sup, s': Sup, t: nat)
    requires SupOk(s) && NewestOnly(s) && t < |s.tasks| && s.tasks[t].InsertEntry? && TableStep(s, s', t)
    requires MayReplace(s, s.tasks[t].service)
    ensures NewestOnly(s')
  {
    var svc := s.tasks[t].service;
    GotoIdle(s, t, svc, Done);
    AddedNewest(Goto(s, t, Done), svc);
    TaskAdded(AddState(Goto(s, t, Done), svc), ResidentLookup(svc));
  }

  lemma TaskNewest(s: Sup, s': Sup, t: nat, fails: bool)
    requires SupOk(s) && NewestOnly(s) && Next(s, s', RunTask(t, fails)) && !s.tasks[t].InsertEntry?
    ensures NewestOnly(s')
  {
    if {
      case ResidentStep(s, s', t, fails) => ResidentInert(s, s', t, fails);
      case EnsureStep(s, s', t, fails) => EnsureInert(s, s', t, fails);
      case StopStep(s, s', t) => StopInert(s, s', t);
      case TableStep(s, s', t) => TableInert(s, s', t);
    }
    InertKept(s, s');
  }

  lemma StepNewest(s: Sup, s': Sup, act: Act)
    requires SupOk(s) && NewestOnly(s) && Next(s, s', act) && Careful(s, act)
    ensures NewestOnly(s')
  {
    match act
    case Register(svc) => AddedNewest(s, svc);
    case StartTask(pc) => TaskAdded(s, pc);
    case RunTask(t, fails) =>
      if s.tasks[t].InsertEntry? {
        InsertNewest(s, s', t);
      } else {
        TaskNewest(s, s', t, fails);
      }
    case _ => InertKept(s, s');
  }

  ghost predicate CarefulRun(states: seq<Sup>, acts: seq<Act>) {
    IsRun(states, acts) && forall k :: 0 <= k < |acts| ==> Careful(states[k], acts[k])
  }

  lemma {:induction false} CarefulNewest(states: seq<Sup>, acts: seq<Act>, k: nat)
    requires CarefulRun(states, acts) && k <= |acts|
    ensures SupOk(states[k]) && NewestOnly(states[k])
  {
    RunOk(states, acts, k);
    if k > 0 {
      CarefulNewest(states, acts, k - 1);
      assert StepAt(states, acts, k - 1);
      StepNewest(states[k - 1], states[k], acts[k - 1]);
    }
  }

  /** An inert `AppState` has no live child at all, not even one in the hands of a stop task. */
  lemma InertChildless(s: Sup, c: nat)
    requires SupOk(s) && c in s.alive
    ensures ChildOk(s, c) && !Inert(s, s.spawnedBy[c])
  {
    assert ChildOk(s, c);
    if s.states[s.spawnedBy[c]].slot != Some(c) {
      var t: nat :| InHand(s, c, t);
      assert TaskOk(s, s.tasks[t]);
    }
  }

  /**
   * As long as nobody adds an `AppState` for a service while an earlier one still has a live child or a task that holds
   * on to it, every service has at most one live child in every state of the run.
   */
  lemma OneChildPerService(states: seq<Sup>, acts: seq<Act>, k: nat, svc: string, c: nat, d: nat)
    requires CarefulRun(states, acts) && k <= |acts|
    requires ChildOf(states[k], c, svc) && ChildOf(states[k], d, svc)
    ensures c == d
  {
    var s := states[k];
    CarefulNewest(states, acts, k);
    InertChildless(s, c);
    InertChildless(s, d);
    assert s.spawnedBy[c] == s.spawnedBy[d];
    InHandLocked(s, c);
    InHandLocked(s, d);
  }

  // ----- two children at once ------------------------------------------------------------------------------------

  /** One resident loop has spawned a child and waits for it. */
  function OneChild(svc: string): Sup {
    Sup(map[svc := 0], [AppState(svc, Some(0), Some(0))], [ResidentWait(0, 0)], [0], {0})
  }

  lemma LoopStarted(svc: string)
    ensures Reachable(Sup(map[svc := 0], [AppState(svc, None, None)], [ResidentLock(0)], [], {}))
  {
    var free := AppState(svc, None, None);
    var s1 := Sup(map[svc := 0], [free], [], [], {});
    var s2 := s1.(tasks := [ResidentLookup(svc)]);
    var s3 := s1.(tasks := [ResidentLock(0)]);
    NothingHappened();
    ReachesNext(EMPTY, s1, Register(svc));
    ReachesNext(s1, s2, StartTask(ResidentLookup(svc)));
    ReachesNext(s2, s3, RunTask(0, false));
  }

  lemma OneChildReachable(svc: string)
    ensures Reachable(OneChild(svc))
  {
    var free := AppState(svc, None, None);
    var s3 := Sup(map[svc := 0], [free], [ResidentLock(0)], [], {});
    var s4 := Sup(map[svc := 0], [free.(lock := Some(0))], [ResidentSpawn(0)], [], {});
    var s5 := Sup(map[svc := 0], [free.(slot := Some(0))], [ResidentRelock(0)], [0], {0});
    LoopStarted(svc);
    ReachesNext(s3, s4, RunTask(0, false));
    ReachesNext(s4, s5, RunTask(0, false));
    ReachesNext(s5, OneChild(svc), RunTask(0, false));
  }

  /** The service was registered again meanwhile, and `ensure_up` spawned a second child for it. */
  function TwoChildren(svc: string): Sup {
    Sup(map[svc := 1], [AppState(svc, Some(0), Some(0)), AppState(svc, Some(1), None)], [ResidentWait(0, 0), Done],
        [0, 1], {0, 1})
  }

  lemma SecondChildReachable(svc: string)
    requires Reachable(OneChild(svc))
    ensures Reachable(TwoChildren(svc))
  {
    var held, free := AppState(svc, Some(0), Some(0)), AppState(svc, None, None);
    var s7 := Sup(map[svc := 1], [held, free], [ResidentWait(0, 0)], [0], {0});
    var s8 := s7.(tasks := [ResidentWait(0, 0), EnsureLookup(svc)]);
    ReachesNext(OneChild(svc), s7, Register(svc));
    ReachesNext(s7, s8, StartTask(EnsureLookup(svc)));
    SecondSpawns(svc, s8);
  }

  lemma SecondSpawns(svc: string, s8: Sup)
    requires Reachable(s8)
    requires s8 == Sup(map[svc := 1], [AppState(svc, Some(0), Some(0)), AppState(svc, None, None)],
                       [ResidentWait(0, 0), EnsureLookup(svc)], [0], {0})
    ensures Reachable(TwoChildren(svc))
  {
    var s9 := Goto(s8, 1, EnsureLock(1));
    var s10 := SetLock(Goto(s9, 1, EnsureCheck(1)), 1, Some(1));
    ReachesNext(s8, s9, RunTask(1, false));
    ReachesNext(s9, s10, RunTask(1, false));
    ReachesNext(s10, TwoChildren(svc), RunTask(1, false));
  }

  /** Nothing keeps a service to one child: after a plain re-registration two of them can run at once. */
  lemma TwoChildrenOfOneService(svc: string)
    ensures Reachable(TwoChildren(svc))
    ensures var s := TwoChildren(svc);
            && 0 in s.alive && 1 in s.alive && s.spawnedBy == [0, 1]
            && s.states[0].service == svc && s.states[1].service == svc
  {
    OneChildReachable(svc);
    SecondChildReachable(svc);
  }
}
