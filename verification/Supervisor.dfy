/**
 * The process supervisor: child slots behind async locks, and the tasks that spawn, wait for and stop children, one
 * step per await point.
 */
module Supervisor {
  import opened Prelude

  // ----- state --------------------------------------------------------------------------------------------

  datatype Lifecycle = Resident | OnDemand

  /** One `AppState`: the child in its slot, and the task that holds the slot's lock. */
  datatype AppState = AppState(service: string, slot: Option<nat>, lock: Option<nat>)

  /** What `stop_service` was called for. */
  datatype Purpose = Replacement(lifecycle: Lifecycle) | Removal

  datatype TaskPc =
    | ResidentLookup(service: string)
    | ResidentLock(app: nat)
    | ResidentSpawn(app: nat)
    | ResidentRelock(app: nat)
    | ResidentBackoff(app: nat)
    | ResidentWait(app: nat, child: nat)
    | Sleeping(app: nat)
    | EnsureLookup(service: string)
    | EnsureLock(app: nat)
    | EnsureCheck(app: nat)
    | ReplaceCheck(service: string, lifecycle: Lifecycle)
    | UnregisterCheck(service: string)
    | StopLookup(service: string, purpose: Purpose)
    | StopLock(app: nat, purpose: Purpose)
    | StopTake(app: nat, purpose: Purpose)
    | Killing(app: nat, child: nat, purpose: Purpose)
    | RemoveEntry(service: string, purpose: Purpose)
    | InsertEntry(service: string, lifecycle: Lifecycle)
    | Done

  /**
   * `apps` maps a service to its current `AppState`; an `AppState` that was replaced stays in `states` for the tasks
   * that still hold it. `spawnedBy` gives the `AppState` of every child ever spawned, `alive` those still running.
   */
  datatype Sup = Sup(
    apps: map<string, nat>,
    states: seq<AppState>,
    tasks: seq<TaskPc>,
    spawnedBy: seq<nat>,
    alive: set<nat>)

  const EMPTY := Sup(map[], [], [], [], {})

  // ----- steps ----------------------------------------------------------------------------------------------

  predicate Startable(pc: TaskPc) {
    pc.ResidentLookup? || pc.EnsureLookup? || pc.ReplaceCheck? || pc.UnregisterCheck?
  }

  /** `fails`: the operation of the step (spawn, wait, kill, try_wait) reports an error. */
  datatype Act =
    | Register(service: string)
    | StartTask(pc: TaskPc)
    | RunTask(task: nat, fails: bool)
    | ChildExits(child: nat)
    | DropState(app: nat)

  function Goto(s: Sup, t: nat, pc: TaskPc): Sup
    requires t < |s.tasks|
  {
    s.(tasks := s.tasks[t := pc])
  }

  function SetLock(s: Sup, a: nat, holder: Option<nat>): Sup
    requires a < |s.states|
  {
    s.(states := s.states[a := s.states[a].(lock := holder)])
  }

  /** Dropping a child kills it. */
  function DropChild(alive: set<nat>, child: Option<nat>): set<nat> {
    if child.Some? then alive - {child.value} else alive
  }

  /** `spawn_once`: the new child takes the slot and the one that was in it is dropped; the lock is released after. */
  function SpawnInto(s: Sup, a: nat): Sup
    requires a < |s.states|
  {
    var child := |s.spawnedBy|;
    s.(states := s.states[a := s.states[a].(slot := Some(child), lock := None)],
       spawnedBy := s.spawnedBy + [a],
       alive := DropChild(s.alive, s.states[a].slot) + {child})
  }

  function AddState(s: Sup, service: string): Sup {
    s.(apps := s.apps[service := |s.states|], states := s.states + [AppState(service, None, None)])
  }

  /** The lock is free and task `t` takes it. */
  ghost predicate TakesLock(s: Sup, s': Sup, t: nat, a: nat, pc: TaskPc)
    requires t < |s.tasks|
  {
    a < |s.states| && s.states[a].lock.None? && s' == SetLock(Goto(s, t, pc), a, Some(t))
  }

  ghost predicate ResidentStep(s: Sup, s': Sup, t: nat, fails: bool)
    requires t < |s.tasks|
  {
    match s.tasks[t]
    case ResidentLookup(svc) =>
      s' == Goto(s, t, if svc in s.apps then ResidentLock(s.apps[svc]) else Done)
    case ResidentLock(a) => TakesLock(s, s', t, a, ResidentSpawn(a))
    case ResidentSpawn(a) =>
      a < |s.states|
      && s' == if fails then Goto(s, t, ResidentBackoff(a)) else SpawnInto(Goto(s, t, ResidentRelock(a)), a)
    case ResidentBackoff(a) =>
      // the guard lives until the sleep after a failed spawn is over
      a < |s.states| && s' == SetLock(Goto(s, t, ResidentLookup(s.states[a].service)), a, None)
    case ResidentRelock(a) =>
      a < |s.states| && s.states[a].lock.None?
      && (match s.states[a].slot
          case None => s' == Goto(s, t, Done)
          case Some(c) => TakesLock(s, s', t, a, ResidentWait(a, c)))
    case ResidentWait(a, c) =>
      a < |s.states| && (fails || c !in s.alive)
      && s' == SetLock(Goto(s, t, Sleeping(a)), a, None)
    case Sleeping(a) => a < |s.states| && s' == Goto(s, t, ResidentLookup(s.states[a].service))
    case _ => false
  }

  ghost predicate EnsureStep(s: Sup, s': Sup, t: nat, fails: bool)
    requires t < |s.tasks|
  {
    match s.tasks[t]
    case EnsureLookup(svc) =>
      s' == Goto(s, t, if svc in s.apps then EnsureLock(s.apps[svc]) else Done)
    case EnsureLock(a) => TakesLock(s, s', t, a, EnsureCheck(a))
    case EnsureCheck(a) =>
      a < |s.states|
      && var up := s.states[a].slot.Some? && s.states[a].slot.value in s.alive;
         s' == if up || fails then SetLock(Goto(s, t, Done), a, None) else SpawnInto(Goto(s, t, Done), a)
    case _ => false
  }

  ghost predicate StopStep(s: Sup, s': Sup, t: nat)
    requires t < |s.tasks|
  {
    match s.tasks[t]
    case StopLookup(svc, p) =>
      s' == Goto(s, t, if svc in s.apps then StopLock(s.apps[svc], p) else RemoveEntry(svc, p))
    case StopLock(a, p) => TakesLock(s, s', t, a, StopTake(a, p))
    case StopTake(a, p) =>
      a < |s.states|
      && (match s.states[a].slot
          case None => s' == SetLock(Goto(s, t, RemoveEntry(s.states[a].service, p)), a, None)
          case Some(c) => s' == Goto(s, t, Killing(a, c, p)).(states := s.states[a := s.states[a].(slot := None)]))
    case Killing(a, c, p) =>
      a < |s.states|
      && s' == SetLock(Goto(s, t, RemoveEntry(s.states[a].service, p)), a, None).(alive := s.alive - {c})
    case _ => false
  }

  ghost predicate TableStep(s: Sup, s': Sup, t: nat)
    requires t < |s.tasks|
  {
    match s.tasks[t]
    case ReplaceCheck(svc, l) =>
      s' == Goto(s, t, if svc in s.apps then StopLookup(svc, Replacement(l)) else InsertEntry(svc, l))
    case UnregisterCheck(svc) => s' == Goto(s, t, if svc in s.apps then StopLookup(svc, Removal) else Done)
    case RemoveEntry(svc, p) =>
      s' == Goto(s, t, if p.Replacement? then InsertEntry(svc, p.lifecycle) else Done).(apps := s.apps - {svc})
    case InsertEntry(svc, l) =>
      var added := AddState(Goto(s, t, Done), svc);
      s' == if l.Resident? then added.(tasks := added.tasks + [ResidentLookup(svc)]) else added
    case _ => false
  }

  /** The `AppState` a task holds on to. */
  function HeldState(pc: TaskPc): Option<nat> {
    match pc
    case ResidentLock(a) => Some(a)
    case ResidentSpawn(a) => Some(a)
    case ResidentRelock(a) => Some(a)
    case ResidentBackoff(a) => Some(a)
    case ResidentWait(a, _) => Some(a)
    case Sleeping(a) => Some(a)
    case EnsureLock(a) => Some(a)
    case EnsureCheck(a) => Some(a)
    case StopLock(a, _) => Some(a)
    case StopTake(a, _) => Some(a)
    case Killing(a, _, _) => Some(a)
    case _ => None
  }

  ghost predicate Next(s: Sup, s': Sup, act: Act) {
    match act
    case Register(svc) => s' == AddState(s, svc)
    case StartTask(pc) => Startable(pc) && s' == s.(tasks := s.tasks + [pc])
    case RunTask(t, fails) =>
      && t < |s.tasks|
      && (ResidentStep(s, s', t, fails) || EnsureStep(s, s', t, fails) || StopStep(s, s', t) || TableStep(s, s', t))
    case ChildExits(c) => s' == s.(alive := s.alive - {c})
    case DropState(a) =>
      && a < |s.states| && (forall svc :: svc in s.apps ==> s.apps[svc] != a)
      && (forall t :: 0 <= t < |s.tasks| ==> HeldState(s.tasks[t]) != Some(a))
      && s' == s.(states := s.states[a := s.states[a].(slot := None)], alive := DropChild(s.alive, s.states[a].slot))
  }

  // ----- invariant -------------------------------------------------------------------------------------------------

  predicate HoldsLock(pc: TaskPc, a: nat) {
    match pc
    case ResidentSpawn(b) => a == b
    case ResidentBackoff(b) => a == b
    case ResidentWait(b, _) => a == b
    case EnsureCheck(b) => a == b
    case StopTake(b, _) => a == b
    case Killing(b, _, _) => a == b
    case _ => false
  }

  /** A lock is held by exactly the task that is inside its critical section. */
  ghost predicate LocksOk(s: Sup) {
    forall a, t :: 0 <= a < |s.states| && 0 <= t < |s.tasks| ==>
      (s.states[a].lock == Some(t) <==> HoldsLock(s.tasks[t], a))
  }

  ghost predicate RefsOk(s: Sup) {
    && (forall a :: 0 <= a < |s.states| && s.states[a].lock.Some? ==> s.states[a].lock.value < |s.tasks|)
    && (forall t :: 0 <= t < |s.tasks| && HeldState(s.tasks[t]).Some? ==> HeldState(s.tasks[t]).value < |s.states|)
    && (forall svc :: svc in s.apps ==> s.apps[svc] < |s.states| && s.states[s.apps[svc]].service == svc)
  }

  predicate SpawnedBy(s: Sup, c: nat, a: nat) {
    c < |s.spawnedBy| && s.spawnedBy[c] == a
  }

  predicate TaskOk(s: Sup, pc: TaskPc) {
    match pc
    case ResidentWait(a, c) => a < |s.states| && s.states[a].slot == Some(c)
    case Killing(a, c, _) => a < |s.states| && s.states[a].slot.None? && SpawnedBy(s, c, a)
    case _ => true
  }

  predicate InHand(s: Sup, c: nat, t: nat) {
    t < |s.tasks| && s.tasks[t].Killing? && s.tasks[t].child == c
  }

  /** A live child is in its slot, or in the hands of the stop task that holds the slot's lock. */
  ghost predicate ChildOk(s: Sup, c: nat) {
    && c < |s.spawnedBy| && s.spawnedBy[c] < |s.states|
    && (s.states[s.spawnedBy[c]].slot == Some(c) || exists t: nat :: InHand(s, c, t))
  }

  ghost predicate ChildrenOk(s: Sup) {
    && (forall a :: 0 <= a < |s.states| && s.states[a].slot.Some? ==> SpawnedBy(s, s.states[a].slot.value, a))
    && (forall t :: 0 <= t < |s.tasks| ==> TaskOk(s, s.tasks[t]))
    && (forall c :: c in s.alive ==> ChildOk(s, c))
  }

  ghost predicate SupOk(s: Sup) {
    LocksOk(s) && RefsOk(s) && ChildrenOk(s)
  }

  lemma InitialOk()
    ensures SupOk(EMPTY)
  {
  }

  // ----- steps that move one task -----------------------------------------------------------------------------------

  /** Task `t` moves to a point where it holds no lock and owes nothing. */
  predicate Plain(pc: TaskPc) {
    !pc.ResidentSpawn? && !pc.ResidentBackoff? && !pc.ResidentWait? && !pc.EnsureCheck? && !pc.StopTake? && !pc.Killing?
  }

  /** A child stays accounted for when its slot is untouched and nobody who holds it lets go. */
  lemma ChildKept(s: Sup, s': Sup, c: nat)
    requires ChildOk(s, c) && c < |s'.spawnedBy| && s'.spawnedBy[c] == s.spawnedBy[c] && |s.states| <= |s'.states|
    requires s'.states[s.spawnedBy[c]].slot == s.states[s.spawnedBy[c]].slot
    requires forall u: nat :: InHand(s, c, u) ==> InHand(s', c, u)
    ensures ChildOk(s', c)
  {
  }

  lemma GotoOk(s: Sup, t: nat, pc: TaskPc)
    requires SupOk(s) && t < |s.tasks| && Plain(s.tasks[t]) && Plain(pc)
    requires HeldState(pc).Some? ==> HeldState(pc).value < |s.states|
    ensures SupOk(Goto(s, t, pc))
  {
    forall c | c in s.alive
      ensures ChildOk(Goto(s, t, pc), c)
    {
      ChildKept(s, Goto(s, t, pc), c);
    }
  }

  lemma TakesLockOk(s: Sup, s': Sup, t: nat, a: nat, pc: TaskPc)
    requires SupOk(s) && t < |s.tasks| && TakesLock(s, s', t, a, pc) && Plain(s.tasks[t])
    requires HoldsLock(pc, a) && HeldState(pc) == Some(a) && TaskOk(s, pc) && !pc.Killing?
    ensures SupOk(s')
  {
    forall c | c in s'.alive
      ensures ChildOk(s', c)
    {
      ChildKept(s, s', c);
    }
  }

  /** Task `t` leaves the critical section of `a` without touching the slot. */
  lemma ReleaseOk(s: Sup, t: nat, a: nat, pc: TaskPc)
    requires SupOk(s) && t < |s.tasks| && a < |s.states| && HoldsLock(s.tasks[t], a) && !s.tasks[t].Killing?
    requires Plain(pc) && (HeldState(pc).Some? ==> HeldState(pc).value < |s.states|)
    ensures SupOk(SetLock(Goto(s, t, pc), a, None))
  {
    var s' := SetLock(Goto(s, t, pc), a, None);
    forall c | c in s'.alive
      ensures ChildOk(s', c)
    {
      ChildKept(s, s', c);
    }
  }

  /** The spawn failed: the task sleeps inside the critical section. */
  lemma BackoffOk(s: Sup, t: nat, a: nat)
    requires SupOk(s) && t < |s.tasks| && a < |s.states| && s.tasks[t] == ResidentSpawn(a)
    ensures SupOk(Goto(s, t, ResidentBackoff(a)))
  {
    var s' := Goto(s, t, ResidentBackoff(a));
    forall c | c in s'.alive
      ensures ChildOk(s', c)
    {
      ChildKept(s, s', c);
    }
  }

  // ----- spawning --------------------------------------------------------------------------------------------------

  lemma SpawnChildren(s: Sup, t: nat, a: nat, pc: TaskPc)
    requires SupOk(s) && t < |s.tasks| && a < |s.states| && HoldsLock(s.tasks[t], a)
    requires !s.tasks[t].Killing? && !s.tasks[t].ResidentWait? && Plain(pc)
    ensures ChildrenOk(SpawnInto(Goto(s, t, pc), a))
  {
    var s' := SpawnInto(Goto(s, t, pc), a);
    forall c | c in s'.alive
      ensures ChildOk(s', c)
    {
      if c != |s.spawnedBy| {
        ChildKept(s, s', c);
      }
    }
    forall u | 0 <= u < |s'.tasks|
      ensures TaskOk(s', s'.tasks[u])
    {
      assert TaskOk(s, s.tasks[u]);
      if u != t {
        assert s.states[a].lock == Some(t);
        assert !HoldsLock(s.tasks[u], a);
      }
    }
  }

  lemma SpawnOk(s: Sup, t: nat, a: nat, pc: TaskPc)
    requires SupOk(s) && t < |s.tasks| && a < |s.states| && HoldsLock(s.tasks[t], a)
    requires !s.tasks[t].Killing? && !s.tasks[t].ResidentWait? && Plain(pc)
    requires HeldState(pc).Some? ==> HeldState(pc).value < |s.states|
    ensures SupOk(SpawnInto(Goto(s, t, pc), a))
  {
    SpawnChildren(s, t, a, pc);
  }

  lemma ResidentOk(s: Sup, s': Sup, t: nat, fails: bool)
    requires SupOk(s) && t < |s.tasks| && ResidentStep(s, s', t, fails)
    ensures SupOk(s')
  {
    match s.tasks[t]
    case ResidentLookup(svc) => GotoOk(s, t, if svc in s.apps then ResidentLock(s.apps[svc]) else Done);
    case ResidentLock(a) => TakesLockOk(s, s', t, a, ResidentSpawn(a));
    case ResidentSpawn(a) =>
      if fails {
        BackoffOk(s, t, a);
      } else {
        SpawnOk(s, t, a, ResidentRelock(a));
      }
    case ResidentRelock(a) =>
      if s.states[a].slot.None? {
        GotoOk(s, t, Done);
      } else {
        TakesLockOk(s, s', t, a, ResidentWait(a, s.states[a].slot.value));
      }
    case ResidentBackoff(a) => ReleaseOk(s, t, a, ResidentLookup(s.states[a].service));
    case ResidentWait(a, c) => ReleaseOk(s, t, a, Sleeping(a));
    case Sleeping(a) => GotoOk(s, t, ResidentLookup(s.states[a].service));
  }

  lemma EnsureOk(s: Sup, s': Sup, t: nat, fails: bool)
    requires SupOk(s) && t < |s.tasks| && EnsureStep(s, s', t, fails)
    ensures SupOk(s')
  {
    match s.tasks[t]
    case EnsureLookup(svc) => GotoOk(s, t, if svc in s.apps then EnsureLock(s.apps[svc]) else Done);
    case EnsureLock(a) => TakesLockOk(s, s', t, a, EnsureCheck(a));
    case EnsureCheck(a) =>
      if (s.states[a].slot.Some? && s.states[a].slot.value in s.alive) || fails {
        ReleaseOk(s, t, a, Done);
      } else {
        SpawnOk(s, t, a, Done);
      }
  }

  // ----- stopping ----------------------------------------------------------------------------------------------------

  lemma TakeChildOk(s: Sup, s': Sup, t: nat, a: nat, c: nat, p: Purpose)
    requires SupOk(s) && t < |s.tasks| && a < |s.states| && s.tasks[t] == StopTake(a, p) && s.states[a].slot == Some(c)
    requires s' == Goto(s, t, Killing(a, c, p)).(states := s.states[a := s.states[a].(slot := None)])
    ensures SupOk(s')
  {
    assert SpawnedBy(s, c, a);
    forall d | d in s'.alive
      ensures ChildOk(s', d)
    {
      assert ChildOk(s, d);
      if d == c {
        assert InHand(s', d, t);
      } else if s.states[s.spawnedBy[d]].slot != Some(d) {
        var u: nat :| InHand(s, d, u);
        assert InHand(s', d, u);
      }
    }
    forall u | 0 <= u < |s'.tasks|
      ensures TaskOk(s', s'.tasks[u])
    {
      assert TaskOk(s, s.tasks[u]);
      if u != t {
        assert s.states[a].lock == Some(t);
        assert !HoldsLock(s.tasks[u], a);
      }
    }
  }

  lemma KilledOk(s: Sup, s': Sup, t: nat, a: nat, c: nat, p: Purpose)
    requires SupOk(s) && t < |s.tasks| && a < |s.states| && s.tasks[t] == Killing(a, c, p)
    requires s' == SetLock(Goto(s, t, RemoveEntry(s.states[a].service, p)), a, None).(alive := s.alive - {c})
    ensures SupOk(s')
  {
    forall d | d in s'.alive
      ensures ChildOk(s', d)
    {
      ChildKept(s, s', d);
    }
    assert LocksOk(s') by {
      assert s.states[a].lock == Some(t);
    }
  }

  lemma StopOk(s: Sup, s': Sup, t: nat)
    requires SupOk(s) && t < |s.tasks| && StopStep(s, s', t)
    ensures SupOk(s')
  {
    match s.tasks[t]
    case StopLookup(svc, p) => GotoOk(s, t, if svc in s.apps then StopLock(s.apps[svc], p) else RemoveEntry(svc, p));
    case StopLock(a, p) => TakesLockOk(s, s', t, a, StopTake(a, p));
    case StopTake(a, p) =>
      if s.states[a].slot.None? {
        ReleaseOk(s, t, a, RemoveEntry(s.states[a].service, p));
      } else {
        TakeChildOk(s, s', t, a, s.states[a].slot.value, p);
      }
    case Killing(a, c, p) => KilledOk(s, s', t, a, c, p);
  }

  // ----- the table of apps -----------------------------------------------------------------------------------------

  lemma AddStateOk(s: Sup, svc: string)
    requires SupOk(s)
    ensures SupOk(AddState(s, svc))
  {
    var s' := AddState(s, svc);
    forall c | c in s'.alive
      ensures ChildOk(s', c)
    {
      ChildKept(s, s', c);
    }
    forall u | 0 <= u < |s'.tasks|
      ensures TaskOk(s', s'.tasks[u]) && !HoldsLock(s'.tasks[u], |s.states|)
    {
      assert TaskOk(s, s.tasks[u]);
      assert HeldState(s.tasks[u]).Some? ==> HeldState(s.tasks[u]).value < |s.states|;
    }
  }

  lemma StartTaskOk(s: Sup, pc: TaskPc)
    requires SupOk(s) && Startable(pc)
    ensures SupOk(s.(tasks := s.tasks + [pc]))
  {
    var s' := s.(tasks := s.tasks + [pc]);
    forall c | c in s'.alive
      ensures ChildOk(s', c)
    {
      ChildKept(s, s', c);
    }
  }

  lemma RemoveEntryOk(s: Sup, svc: string)
    requires SupOk(s)
    ensures SupOk(s.(apps := s.apps - {svc}))
  {
    forall c | c in s.alive
      ensures ChildOk(s.(apps := s.apps - {svc}), c)
    {
      ChildKept(s, s.(apps := s.apps - {svc}), c);
    }
  }

  lemma TableOk(s: Sup, s': Sup, t: nat)
    requires SupOk(s) && t < |s.tasks| && TableStep(s, s', t)
    ensures SupOk(s')
  {
    match s.tasks[t]
    case ReplaceCheck(svc, l) =>
      GotoOk(s, t, if svc in s.apps then StopLookup(svc, Replacement(l)) else InsertEntry(svc, l));
    case UnregisterCheck(svc) => GotoOk(s, t, if svc in s.apps then StopLookup(svc, Removal) else Done);
    case RemoveEntry(svc, p) =>
      var pc := if p.Replacement? then InsertEntry(svc, p.lifecycle) else Done;
      GotoOk(s, t, pc);
      RemoveEntryOk(Goto(s, t, pc), svc);
    case InsertEntry(svc, l) =>
      GotoOk(s, t, Done);
      AddStateOk(Goto(s, t, Done), svc);
      StartTaskOk(AddState(Goto(s, t, Done), svc), ResidentLookup(svc));
  }

  // ----- children end -----------------------------------------------------------------------------------------------

  lemma FewerAliveOk(s: Sup, alive: set<nat>)
    requires SupOk(s) && alive <= s.alive
    ensures SupOk(s.(alive := alive))
  {
    forall c | c in alive
      ensures ChildOk(s.(alive := alive), c)
    {
      ChildKept(s, s.(alive := alive), c);
    }
  }

  lemma DropStateOk(s: Sup, s': Sup, a: nat)
    requires SupOk(s) && Next(s, s', DropState(a))
    ensures SupOk(s')
  {
    forall c | c in s'.alive
      ensures ChildOk(s', c)
    {
      ChildKept(s, s', c);
    }
    forall u | 0 <= u < |s'.tasks|
      ensures TaskOk(s', s'.tasks[u])
    {
      assert TaskOk(s, s.tasks[u]) && HeldState(s.tasks[u]) != Some(a);
    }
  }

  /** The invariant survives every interleaving of resident loops, `ensure_up`, stops and registrations. */
  lemma StepOk(s: Sup, s': Sup, act: Act)
    requires SupOk(s) && Next(s, s', act)
    ensures SupOk(s')
  {
    match act
    case Register(svc) => AddStateOk(s, svc);
    case StartTask(pc) => StartTaskOk(s, pc);
    case ChildExits(c) => FewerAliveOk(s, s.alive - {c});
    case DropState(a) => DropStateOk(s, s', a);
    case RunTask(t, fails) =>
      if {
        case ResidentStep(s, s', t, fails) => ResidentOk(s, s', t, fails);
        case EnsureStep(s, s', t, fails) => EnsureOk(s, s', t, fails);
        case StopStep(s, s', t) => StopOk(s, s', t);
        case TableStep(s, s', t) => TableOk(s, s', t);
      }
  }

  // ----- runs ------------------------------------------------------------------------------------------------------

  ghost predicate StepAt(states: seq<Sup>, acts: seq<Act>, k: nat)
    requires k < |acts| < |states|
  {
    Next(states[k], states[k + 1], acts[k])
  }

  /** A finite piece of a run: states, from any first one, and the acts between them. */
  ghost predicate IsFragment(states: seq<Sup>, acts: seq<Act>) {
    |states| == |acts| + 1 && forall k :: 0 <= k < |acts| ==> StepAt(states, acts, k)
  }

  ghost predicate IsRun(states: seq<Sup>, acts: seq<Act>) {
    IsFragment(states, acts) && states[0] == EMPTY
  }

  ghost predicate Reachable(s: Sup) {
    exists states, acts :: IsRun(states, acts) && states[|acts|] == s
  }

  lemma {:induction false} FragmentOk(states: seq<Sup>, acts: seq<Act>, k: nat)
    requires IsFragment(states, acts) && SupOk(states[0]) && k <= |acts|
    ensures SupOk(states[k])
  {
    if k > 0 {
      FragmentOk(states, acts, k - 1);
      assert StepAt(states, acts, k - 1);
      StepOk(states[k - 1], states[k], acts[k - 1]);
    }
  }

  lemma RunOk(states: seq<Sup>, acts: seq<Act>, k: nat)
    requires IsRun(states, acts) && k <= |acts|
    ensures SupOk(states[k])
  {
    InitialOk();
    FragmentOk(states, acts, k);
  }

  lemma ReachableOk(s: Sup)
    requires Reachable(s)
    ensures SupOk(s)
  {
    var states, acts :| IsRun(states, acts) && states[|acts|] == s;
    RunOk(states, acts, |acts|);
  }

  /**
   * In every reachable state each `AppState` has at most one live child, and that child is the one in its slot unless a
   * stop task has taken it out and is killing it under the lock.
   */
  lemma AtMostOneChild(s: Sup, c: nat, d: nat)
    requires Reachable(s) && c in s.alive && d in s.alive
    ensures c < |s.spawnedBy| && s.spawnedBy[c] < |s.states| && d < |s.spawnedBy|
    ensures s.spawnedBy[c] == s.spawnedBy[d] ==> c == d
    ensures s.states[s.spawnedBy[c]].slot == Some(c)
            || (s.states[s.spawnedBy[c]].lock.Some?
                && InHand(s, c, s.states[s.spawnedBy[c]].lock.value))
  {
    ReachableOk(s);
    assert ChildOk(s, c) && ChildOk(s, d);
    InHandLocked(s, c);
    InHandLocked(s, d);
  }

  lemma InHandLocked(s: Sup, c: nat)
    requires SupOk(s) && c in s.alive
    ensures ChildOk(s, c)
    ensures var a := s.spawnedBy[c];
            s.states[a].slot != Some(c) ==>
              s.states[a].slot.None? && s.states[a].lock.Some? && InHand(s, c, s.states[a].lock.value)
  {
  }

  // ----- one task at a time -------------------------------------------------------------------------------------

  /** No task but `t` moves, and no `AppState` goes away. */
  ghost predicate MovesAlone(s: Sup, s': Sup, t: nat) {
    && |s.tasks| <= |s'.tasks| && |s.states| <= |s'.states|
    && forall u :: 0 <= u < |s.tasks| && u != t ==> s'.tasks[u] == s.tasks[u]
  }

  lemma ResidentAlone(s: Sup, s': Sup, t: nat, fails: bool)
    requires t < |s.tasks| && ResidentStep(s, s', t, fails)
    ensures MovesAlone(s, s', t)
  {
  }

  lemma EnsureAlone(s: Sup, s': Sup, t: nat, fails: bool)
    requires t < |s.tasks| && EnsureStep(s, s', t, fails)
    ensures MovesAlone(s, s', t)
  {
  }

  lemma StopAlone(s: Sup, s': Sup, t: nat)
    requires t < |s.tasks| && StopStep(s, s', t)
    ensures MovesAlone(s, s', t)
  {
  }

  lemma TableAlone(s: Sup, s': Sup, t: nat)
    requires t < |s.tasks| && TableStep(s, s', t)
    ensures MovesAlone(s, s', t)
  {
  }

  lemma OthersStay(s: Sup, s': Sup, act: Act, u: nat)
    requires Next(s, s', act) && u < |s.tasks|
    ensures u < |s'.tasks| && |s.states| <= |s'.states|
    ensures s'.tasks[u] == s.tasks[u] || (act.RunTask? && act.task == u)
  {
    match act
    case RunTask(t, fails) =>
      if {
        case ResidentStep(s, s', t, fails) => ResidentAlone(s, s', t, fails);
        case EnsureStep(s, s', t, fails) => EnsureAlone(s, s', t, fails);
        case StopStep(s, s', t) => StopAlone(s, s', t);
        case TableStep(s, s', t) => TableAlone(s, s', t);
      }
    case _ =>
  }

  // ----- what the supervisor does not promise ------------------------------------------------------------------------

  /**
   * Whoever holds the lock of a slot, be it a resident loop that waits for its child or sleeps after a failed spawn,
   * holds off every stop of that `AppState` until its own next step.
   */
  lemma StopWaitsForLock(s: Sup, s': Sup, act: Act, r: nat, a: nat)
    requires SupOk(s) && Next(s, s', act) && r < |s.tasks| && HoldsLock(s.tasks[r], a)
    ensures act.RunTask? && act.task < |s.tasks| ==> !s.tasks[act.task].StopLock? || s.tasks[act.task].app != a
    ensures (act.RunTask? && act.task == r) || (r < |s'.tasks| && s'.tasks[r] == s.tasks[r])
  {
    assert s.states[a].lock == Some(r);
    OthersStay(s, s', act, r);
    if act.RunTask? {
      LockAwaited(s, s', act.task, act.fails, a);
    }
  }

  /** A stop moves only when the lock it asks for is free. */
  lemma LockAwaited(s: Sup, s': Sup, t: nat, fails: bool, a: nat)
    requires Next(s, s', RunTask(t, fails)) && a < |s.states| && s.states[a].lock.Some?
    ensures !s.tasks[t].StopLock? || s.tasks[t].app != a
  {
  }

  /**
   * While a resident loop waits for its child it holds the slot's lock, so a stop cannot even begin: the child is gone
   * only when it exits by itself, or when waiting for it fails first.
   */
  lemma StopWaitsForChild(s: Sup, s': Sup, act: Act, r: nat, a: nat, c: nat)
    requires SupOk(s) && Next(s, s', act) && r < |s.tasks| && s.tasks[r] == ResidentWait(a, c) && c in s.alive
    ensures c !in s'.alive ==> act == ChildExits(c)
    ensures act.RunTask? && act.task < |s.tasks| ==> !s.tasks[act.task].StopLock? || s.tasks[act.task].app != a
    ensures r < |s'.tasks|
    ensures s'.tasks[r] == s.tasks[r] || act == RunTask(r, true)
  {
    assert TaskOk(s, s.tasks[r]) && HoldsLock(s.tasks[r], a) && s.states[a].lock == Some(r);
    StopWaitsForLock(s, s', act, r, a);
    if act.RunTask? && act.task != r {
      OtherTaskKeepsChild(s, s', act.task, act.fails, r, a, c);
    }
    if act.DropState? {
      assert HeldState(s.tasks[r]) == Some(a);
      assert s.states[a].slot == Some(c) && (act.app != a ==> s.states[act.app].slot != Some(c)) by {
        assert s.states[act.app].slot.Some? ==> SpawnedBy(s, s.states[act.app].slot.value, act.app);
        assert SpawnedBy(s, c, a);
      }
    }
  }

  /** Another task may drop or kill children, but only those of an `AppState` whose lock it holds. */
  lemma OtherTaskKeepsChild(s: Sup, s': Sup, t: nat, fails: bool, r: nat, a: nat, c: nat)
    requires SupOk(s) && Next(s, s', RunTask(t, fails)) && t != r && r < |s.tasks|
    requires s.tasks[r] == ResidentWait(a, c) && c in s.alive
    requires s.states[a].lock == Some(r) && s.states[a].slot == Some(c)
    ensures c in s'.alive && r < |s'.tasks| && s'.tasks[r] == s.tasks[r]
  {
    OthersStay(s, s', RunTask(t, fails), r);
    assert SpawnedBy(s, c, a) && TaskOk(s, s.tasks[t]) && !HoldsLock(s.tasks[t], a);
    assert forall b :: 0 <= b < |s.states| && b != a && s.states[b].slot.Some? ==>
             SpawnedBy(s, s.states[b].slot.value, b) && s.states[b].slot.value != c;
    if {
      case ResidentStep(s, s', t, fails) => ResidentKeepsChild(s, s', t, fails, a, c);
      case EnsureStep(s, s', t, fails) => EnsureKeepsChild(s, s', t, fails, a, c);
      case StopStep(s, s', t) => StopKeepsChild(s, s', t, a, c);
      case TableStep(s, s', t) =>
    }
  }

  lemma ResidentKeepsChild(s: Sup, s': Sup, t: nat, fails: bool, a: nat, c: nat)
    requires t < |s.tasks| && ResidentStep(s, s', t, fails) && c in s.alive && !HoldsLock(s.tasks[t], a)
    requires forall b :: 0 <= b < |s.states| && b != a && s.states[b].slot.Some? ==> s.states[b].slot.value != c
    ensures c in s'.alive
  {
  }

  lemma EnsureKeepsChild(s: Sup, s': Sup, t: nat, fails: bool, a: nat, c: nat)
    requires t < |s.tasks| && EnsureStep(s, s', t, fails) && c in s.alive && !HoldsLock(s.tasks[t], a)
    requires forall b :: 0 <= b < |s.states| && b != a && s.states[b].slot.Some? ==> s.states[b].slot.value != c
    ensures c in s'.alive
  {
  }

  lemma StopKeepsChild(s: Sup, s': Sup, t: nat, a: nat, c: nat)
    requires t < |s.tasks| && StopStep(s, s', t) && c in s.alive && !HoldsLock(s.tasks[t], a)
    requires TaskOk(s, s.tasks[t]) && SpawnedBy(s, c, a)
    ensures c in s'.alive
  {
  }

  lemma Extend(states: seq<Sup>, acts: seq<Act>, s': Sup, act: Act)
    requires IsFragment(states, acts) && Next(states[|acts|], s', act)
    ensures IsFragment(states + [s'], acts + [act])
  {
    var more, steps := states + [s'], acts + [act];
    forall k | 0 <= k < |steps|
      ensures StepAt(more, steps, k)
    {
      assert k < |acts| ==> StepAt(states, acts, k);
    }
  }

  lemma ReachesNext(s: Sup, s': Sup, act: Act)
    requires Reachable(s) && Next(s, s', act)
    ensures Reachable(s')
  {
    var states, acts :| IsRun(states, acts) && states[|acts|] == s;
    Extend(states, acts, s', act);
    var more, steps := states + [s'], acts + [act];
    assert IsRun(more, steps) && more[|steps|] == s';
  }

  lemma NothingHappened()
    ensures Reachable(EMPTY)
  {
    var acts: seq<Act> := [];
    assert IsRun([EMPTY], acts) && [EMPTY][|acts|] == EMPTY;
  }
}
