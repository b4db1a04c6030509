/**
 * `stop_service`: it kills the child and waits for it, but only once it gets the lock of the slot. A resident loop that
 * waits for a live child keeps that lock for as long as the child runs.
 */
module StopService {
  import opened Prelude
  import opened Supervisor
  import opened ServiceChildren

  // ----- when a stop has its turn -------------------------------------------------------------------------------

  /** Task `t` is a stop that has found `AppState` `a` and is about to lock it. */
  predicate AtLock(s: Sup, t: nat, a: nat, p: Purpose) {
    t < |s.tasks| && a < |s.states| && s.tasks[t] == StopLock(a, p)
  }

  ghost predicate Unlocked(s: Sup, a: nat) {
    forall r :: 0 <= r < |s.tasks| ==> !HoldsLock(s.tasks[r], a)
  }

  ghost predicate CanMove(s: Sup, t: nat) {
    exists s', fails :: Next(s, s', RunTask(t, fails))
  }

  /** The state after the stop has taken the lock. */
  function Locked(s: Sup, t: nat, a: nat, p: Purpose): Sup
    requires AtLock(s, t, a, p)
  {
    SetLock(Goto(s, t, StopTake(a, p)), a, Some(t))
  }

  lemma FreeLock(s: Sup, a: nat)
    requires SupOk(s) && a < |s.states|
    ensures s.states[a].lock.None? <==> Unlocked(s, a)
    ensures s.states[a].lock.Some? ==>
              s.states[a].lock.value < |s.tasks| && HoldsLock(s.tasks[s.states[a].lock.value], a)
  {
  }

  /** A stop can take the lock in the next step exactly when no task is inside the critical section of the slot. */
  lemma StopMovesExactly(s: Sup, t: nat, a: nat, p: Purpose)
    requires SupOk(s) && AtLock(s, t, a, p)
    ensures CanMove(s, t) <==> Unlocked(s, a)
    ensures forall s', fails :: Next(s, s', RunTask(t, fails)) ==> s' == Locked(s, t, a, p)
  {
    FreeLock(s, a);
    if Unlocked(s, a) {
      assert StopStep(s, Locked(s, t, a, p), t);
      assert Next(s, Locked(s, t, a, p), RunTask(t, false));
    }
  }

  // ----- behind a waiting loop ----------------------------------------------------------------------------------

  /** Resident loop `r` waits for the live child `c` of `AppState` `a`. */
  predicate WaitsFor(s: Sup, r: nat, a: nat, c: nat) {
    r < |s.tasks| && s.tasks[r] == ResidentWait(a, c) && c in s.alive
  }

  /** The act ends the wait of loop `r` for child `c`: the child exits by itself, or waiting for it fails. */
  predicate EndsWait(act: Act, r: nat, c: nat) {
    act == ChildExits(c) || act == RunTask(r, true)
  }

  /** What the wait keeps: the loop waits, the child lives, the stop stands at the lock. */
  predicate Blocked(s: Sup, r: nat, a: nat, c: nat, t: nat, p: Purpose) {
    WaitsFor(s, r, a, c) && AtLock(s, t, a, p)
  }

  lemma BlockedStep(s: Sup, s': Sup, act: Act, r: nat, a: nat, c: nat, t: nat, p: Purpose)
    requires SupOk(s) && Next(s, s', act) && Blocked(s, r, a, c, t, p) && !EndsWait(act, r, c)
    ensures Blocked(s', r, a, c, t, p)
  {
    StopWaitsForChild(s, s', act, r, a, c);
    OthersStay(s, s', act, t);
  }

  lemma BlockedStepAt(states: seq<Sup>, acts: seq<Act>, k: nat, r: nat, a: nat, c: nat, t: nat, p: Purpose)
    requires IsFragment(states, acts) && SupOk(states[0]) && k < |acts|
    requires Blocked(states[k], r, a, c, t, p) && !EndsWait(acts[k], r, c)
    ensures Blocked(states[k + 1], r, a, c, t, p)
  {
    FragmentOk(states, acts, k);
    assert StepAt(states, acts, k);
    BlockedStep(states[k], states[k + 1], acts[k], r, a, c, t, p);
  }

  /**
   * However the run goes on, as long as the child neither exits by itself nor its wait fails, the loop still waits, the
   * child is still alive and the stop has not begun.
   */
  lemma {:induction false} StopStaysBlocked(states: seq<Sup>, acts: seq<Act>, k: nat, r: nat, a: nat, c: nat, t: nat,
                                            p: Purpose)
    requires IsFragment(states, acts) && SupOk(states[0]) && Blocked(states[0], r, a, c, t, p) && k <= |acts|
    requires forall l :: 0 <= l < k ==> !EndsWait(acts[l], r, c)
    ensures Blocked(states[k], r, a, c, t, p)
  {
    if k > 0 {
      StopStaysBlocked(states, acts, k - 1, r, a, c, t, p);
      BlockedStepAt(states, acts, k - 1, r, a, c, t, p);
    }
  }

  // ----- exactly when a stop can begin --------------------------------------------------------------------------

  /** No child exits by itself in this step and no loop gives up waiting for its child. */
  predicate Undisturbed(s: Sup, act: Act) {
    match act
    case ChildExits(_) => false
    case RunTask(r, fails) => !(fails && r < |s.tasks| && s.tasks[r].ResidentWait?)
    case _ => true
  }

  ghost predicate Continues(states: seq<Sup>, acts: seq<Act>) {
    IsFragment(states, acts) && forall k :: 0 <= k < |acts| ==> Undisturbed(states[k], acts[k])
  }

  ghost predicate LeadsTo(s: Sup, u: Sup) {
    exists states, acts :: Continues(states, acts) && states[0] == s && states[|acts|] == u
  }

  /** Some continuation without a child exit and without a failed wait lets the stop take the lock. */
  ghost predicate CanBegin(s: Sup, t: nat, a: nat, p: Purpose) {
    exists u :: LeadsTo(s, u) && t < |u.tasks| && u.tasks[t] == StopTake(a, p)
  }

  /** A loop holds the lock of `a` for as long as its child lives. */
  ghost predicate HeldForChild(s: Sup, a: nat) {
    exists r: nat, c: nat :: WaitsFor(s, r, a, c)
  }

  lemma LeadsHere(s: Sup)
    ensures LeadsTo(s, s)
  {
    var acts: seq<Act> := [];
    assert Continues([s], acts) && [s][|acts|] == s;
  }

  lemma LeadsNext(s: Sup, u: Sup, v: Sup, act: Act)
    requires LeadsTo(s, u) && Next(u, v, act) && Undisturbed(u, act)
    ensures LeadsTo(s, v)
  {
    var states, acts :| Continues(states, acts) && states[0] == s && states[|acts|] == u;
    Extend(states, acts, v, act);
    var more, steps := states + [v], acts + [act];
    forall k | 0 <= k < |steps|
      ensures Undisturbed(more[k], steps[k])
    {
      assert k < |acts| ==> Undisturbed(states[k], acts[k]);
    }
    assert Continues(more, steps) && more[0] == s && more[|steps|] == v;
  }

  /** With the lock free the stop begins. */
  lemma FreeBegins(s: Sup, u: Sup, t: nat, a: nat, p: Purpose)
    requires LeadsTo(s, u) && AtLock(u, t, a, p) && u.states[a].lock.None?
    ensures CanBegin(s, t, a, p)
  {
    var v := Locked(u, t, a, p);
    assert StopStep(u, v, t);
    LeadsNext(s, u, v, RunTask(t, false));
    assert v.tasks[t] == StopTake(a, p);
  }

  /** Task `r` can leave the critical section of `a` in the next step. */
  predicate Leaving(s: Sup, r: nat, a: nat) {
    && r < |s.tasks| && a < |s.states| && HoldsLock(s.tasks[r], a)
    && (s.tasks[r].StopTake? ==> s.states[a].slot.None?)
    && (s.tasks[r].ResidentWait? ==> s.tasks[r].child !in s.alive)
  }

  /** What task `r` leaves behind: the lock is free, and of the other tasks none has moved. */
  function Left(s: Sup, r: nat, a: nat): Sup
    requires Leaving(s, r, a)
  {
    match s.tasks[r]
    case ResidentSpawn(_) => SpawnInto(Goto(s, r, ResidentRelock(a)), a)
    case ResidentBackoff(_) => SetLock(Goto(s, r, ResidentLookup(s.states[a].service)), a, None)
    case ResidentWait(_, _) => SetLock(Goto(s, r, Sleeping(a)), a, None)
    case EnsureCheck(_) => SetLock(Goto(s, r, Done), a, None)
    case StopTake(_, p) => SetLock(Goto(s, r, RemoveEntry(s.states[a].service, p)), a, None)
    case Killing(_, c, p) =>
      SetLock(Goto(s, r, RemoveEntry(s.states[a].service, p)), a, None).(alive := s.alive - {c})
  }

  lemma Leaves(s: Sup, r: nat, a: nat)
    requires Leaving(s, r, a)
    ensures Next(s, Left(s, r, a), RunTask(r, s.tasks[r].EnsureCheck?))
    ensures Undisturbed(s, RunTask(r, s.tasks[r].EnsureCheck?))
    ensures var u := Left(s, r, a);
            |u.tasks| == |s.tasks| && |u.states| == |s.states| && u.states[a].lock.None?
    ensures forall t :: 0 <= t < |s.tasks| && t != r ==> Left(s, r, a).tasks[t] == s.tasks[t]
  {
    if s.tasks[r].ResidentSpawn? || s.tasks[r].ResidentBackoff? || s.tasks[r].ResidentWait? {
      assert ResidentStep(s, Left(s, r, a), r, false);
    } else if s.tasks[r].EnsureCheck? {
      assert EnsureStep(s, Left(s, r, a), r, true);
    } else {
      assert StopStep(s, Left(s, r, a), r);
    }
  }

  lemma LeavingBegins(s: Sup, u: Sup, r: nat, t: nat, a: nat, p: Purpose)
    requires LeadsTo(s, u) && AtLock(u, t, a, p) && Leaving(u, r, a)
    ensures CanBegin(s, t, a, p)
  {
    Leaves(u, r, a);
    LeadsNext(s, u, Left(u, r, a), RunTask(r, u.tasks[r].EnsureCheck?));
    FreeBegins(s, Left(u, r, a), t, a, p);
  }

  /** Another stop takes the child first and kills it. */
  lemma TakerBegins(s: Sup, r: nat, t: nat, a: nat, p: Purpose)
    requires AtLock(s, t, a, p) && r < |s.tasks| && HoldsLock(s.tasks[r], a)
    requires s.tasks[r].StopTake? && s.states[a].slot.Some?
    ensures CanBegin(s, t, a, p)
  {
    var q, c := s.tasks[r].purpose, s.states[a].slot.value;
    var u := Goto(s, r, Killing(a, c, q)).(states := s.states[a := s.states[a].(slot := None)]);
    assert StopStep(s, u, r);
    LeadsHere(s);
    LeadsNext(s, s, u, RunTask(r, false));
    LeavingBegins(s, u, r, t, a, p);
  }

  lemma NotHeldBegins(s: Sup, t: nat, a: nat, p: Purpose)
    requires SupOk(s) && AtLock(s, t, a, p) && !HeldForChild(s, a)
    ensures CanBegin(s, t, a, p)
  {
    LeadsHere(s);
    FreeLock(s, a);
    if s.states[a].lock.None? {
      FreeBegins(s, s, t, a, p);
    } else {
      var r := s.states[a].lock.value;
      assert s.tasks[r].ResidentWait? ==> !WaitsFor(s, r, a, s.tasks[r].child);
      if s.tasks[r].StopTake? && s.states[a].slot.Some? {
        TakerBegins(s, r, t, a, p);
      } else {
        LeavingBegins(s, s, r, t, a, p);
      }
    }
  }

  /**
   * `stop_service` can begin without its child exiting by itself, and without a failed wait, exactly when the lock of
   * the slot is not held by a resident loop that waits for a live child.
   */
  lemma StopBeginsExactly(s: Sup, t: nat, a: nat, p: Purpose)
    requires Reachable(s) && AtLock(s, t, a, p)
    ensures CanBegin(s, t, a, p) <==> !HeldForChild(s, a)
  {
    ReachableOk(s);
    if !HeldForChild(s, a) {
      NotHeldBegins(s, t, a, p);
    } else if CanBegin(s, t, a, p) {
      var r: nat, c: nat :| WaitsFor(s, r, a, c);
      var u :| LeadsTo(s, u) && t < |u.tasks| && u.tasks[t] == StopTake(a, p);
      var states, acts :| Continues(states, acts) && states[0] == s && states[|acts|] == u;
      ContinuesBlocked(states, acts, |acts|, r, a, c, t, p);
    }
  }

  lemma WaitGoesOn(s: Sup, act: Act, r: nat, a: nat, c: nat)
    requires Undisturbed(s, act) && WaitsFor(s, r, a, c)
    ensures !EndsWait(act, r, c)
  {
  }

  lemma {:induction false} ContinuesBlocked(states: seq<Sup>, acts: seq<Act>, k: nat, r: nat, a: nat, c: nat, t: nat,
                                            p: Purpose)
    requires Continues(states, acts) && SupOk(states[0]) && Blocked(states[0], r, a, c, t, p) && k <= |acts|
    ensures Blocked(states[k], r, a, c, t, p)
  {
    if k > 0 {
      ContinuesBlocked(states, acts, k - 1, r, a, c, t, p);
      WaitGoesOn(states[k - 1], acts[k - 1], r, a, c);
      BlockedStepAt(states, acts, k - 1, r, a, c, t, p);
    }
  }

  // ----- what a stop does once it has begun ---------------------------------------------------------------------

  /** When the stop lets go of the slot, the `AppState` has no live child left. */
  lemma StopLeavesNoChild(s: Sup, s': Sup, t: nat, fails: bool, a: nat, c: nat)
    requires SupOk(s) && Next(s, s', RunTask(t, fails)) && t < |s.tasks| && t < |s'.tasks|
    requires (s.tasks[t].StopTake? || s.tasks[t].Killing?) && s.tasks[t].app == a && s'.tasks[t].RemoveEntry?
    requires c in s'.alive
    ensures c < |s'.spawnedBy| && s'.spawnedBy[c] != a
  {
    assert c in s.alive && ChildOk(s, c) && s.states[a].lock == Some(t);
    InHandLocked(s, c);
    assert TaskOk(s, s.tasks[t]);
  }

  // ----- a stop that has to wait --------------------------------------------------------------------------------

  /** The loop waits for its child, and somebody has asked to unregister the service. */
  function StopAsked(svc: string): Sup {
    OneChild(svc).(tasks := [ResidentWait(0, 0), StopLock(0, Removal)])
  }

  /** For every service there is a run after which a stop stands behind the loop that waits for the child. */
  lemma StopCanBeBlocked(svc: string)
    ensures Reachable(StopAsked(svc)) && Blocked(StopAsked(svc), 0, 0, 0, 1, Removal)
    ensures !CanBegin(StopAsked(svc), 1, 0, Removal)
  {
    var s0 := OneChild(svc);
    var s1 := s0.(tasks := [ResidentWait(0, 0), UnregisterCheck(svc)]);
    var s2 := Goto(s1, 1, StopLookup(svc, Removal));
    OneChildReachable(svc);
    ReachesNext(s0, s1, StartTask(UnregisterCheck(svc)));
    ReachesNext(s1, s2, RunTask(1, false));
    assert StopAsked(svc) == Goto(s2, 1, StopLock(0, Removal));
    ReachesNext(s2, StopAsked(svc), RunTask(1, false));
    assert WaitsFor(StopAsked(svc), 0, 0, 0);
    StopBeginsExactly(StopAsked(svc), 1, 0, Removal);
  }
}
