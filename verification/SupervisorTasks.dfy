/** What the supervisor's tasks bring about: children that are started and restarted, entries that come and go. */
module SupervisorTasks {
  import opened Prelude
  import opened Supervisor

  /** Child `c` of `AppState` `a` is in its slot and runs. */
  predicate Up(s: Sup, a: nat, c: nat) {
    a < |s.states| && s.states[a].slot == Some(c) && c in s.alive && SpawnedBy(s, c, a)
  }

  ghost predicate IsUp(s: Sup, a: nat) {
    exists c: nat :: Up(s, a, c)
  }

  lemma SlotUp(s: Sup, a: nat)
    requires SupOk(s) && a < |s.states|
    ensures IsUp(s, a) <==> s.states[a].slot.Some? && s.states[a].slot.value in s.alive
  {
    if s.states[a].slot.Some? && s.states[a].slot.value in s.alive {
      assert Up(s, a, s.states[a].slot.value);
    }
  }

  // ----- ensure_up --------------------------------------------------------------------------------------------

  /** The last step of an `ensure_up` that meets no error leaves a running child, a fresh one unless one was running. */
  lemma EnsureUp(s: Sup, s': Sup, t: nat, a: nat)
    requires SupOk(s) && t < |s.tasks| && s.tasks[t] == EnsureCheck(a) && Next(s, s', RunTask(t, false))
    ensures a < |s.states| && |s'.states| == |s.states| && s'.states[a].lock.None? && s'.tasks == s.tasks[t := Done]
    ensures IsUp(s', a)
    ensures |s'.spawnedBy| == |s.spawnedBy| + 1 <==> !IsUp(s, a)
    ensures IsUp(s, a) ==>
              s'.states[a].slot == s.states[a].slot && s'.alive == s.alive && s'.spawnedBy == s.spawnedBy
    ensures !IsUp(s, a) ==> Up(s', a, |s.spawnedBy|) && s'.alive == s.alive + {|s.spawnedBy|}
    ensures forall b :: 0 <= b < |s.states| && b != a ==> s'.states[b] == s.states[b]
  {
    SlotUp(s, a);
    if s.states[a].slot.Some? && s.states[a].slot.value in s.alive {
      assert Up(s', a, s.states[a].slot.value);
    } else {
      assert Up(s', a, |s.spawnedBy|);
    }
  }

  /** An `ensure_up` that meets an error changes no child. */
  lemma EnsureFailed(s: Sup, s': Sup, t: nat, a: nat)
    requires t < |s.tasks| && s.tasks[t] == EnsureCheck(a) && Next(s, s', RunTask(t, true))
    ensures a < |s.states| && s'.states == s.states[a := s.states[a].(lock := None)]
    ensures s'.tasks == s.tasks[t := Done] && s'.alive == s.alive && s'.spawnedBy == s.spawnedBy
  {
  }

  // ----- resident loops ---------------------------------------------------------------------------------------

  predicate IsLoop(pc: TaskPc) {
    pc.ResidentLookup? || pc.ResidentLock? || pc.ResidentSpawn? || pc.ResidentRelock? || pc.ResidentBackoff?
    || pc.ResidentWait? || pc.Sleeping?
  }

  predicate InLoop(s: Sup, t: nat) {
    t < |s.tasks| && IsLoop(s.tasks[t])
  }

  /** The loop finds its service unregistered, or finds the slot empty when it comes back to wait for its child. */
  predicate GivesUp(s: Sup, t: nat) {
    t < |s.tasks| &&
    match s.tasks[t]
    case ResidentLookup(svc) => svc !in s.apps
    case ResidentRelock(a) => a < |s.states| && s.states[a].slot.None?
    case _ => false
  }

  lemma LoopStep(s: Sup, s': Sup, t: nat, fails: bool)
    requires InLoop(s, t) && Next(s, s', RunTask(t, fails))
    ensures InLoop(s', t) <==> !GivesUp(s, t)
    ensures GivesUp(s, t) ==> s' == s.(tasks := s.tasks[t := Done])
  {
  }

  ghost predicate GaveUp(states: seq<Sup>, acts: seq<Act>, k: nat, t: nat)
    requires k <= |acts| < |states|
  {
    exists m: nat :: m < k && acts[m].RunTask? && acts[m].task == t && GivesUp(states[m], t)
  }

  /** Over any stretch of a run a resident loop goes on unless it takes a step with nothing to supervise. */
  lemma {:induction false} LoopEndsExactly(states: seq<Sup>, acts: seq<Act>, k: nat, t: nat)
    requires IsFragment(states, acts) && InLoop(states[0], t) && k <= |acts|
    ensures InLoop(states[k], t) <==> !GaveUp(states, acts, k, t)
    ensures t < |states[k].tasks| && (InLoop(states[k], t) || states[k].tasks[t] == Done)
  {
    if k > 0 {
      LoopEndsExactly(states, acts, k - 1, t);
      assert StepAt(states, acts, k - 1);
      LoopAct(states[k - 1], states[k], acts[k - 1], t);
      var before := k - 1;
      assert GaveUp(states, acts, k, t) <==>
               GaveUp(states, acts, before, t)
               || (acts[before].RunTask? && acts[before].task == t && GivesUp(states[before], t));
    }
  }

  lemma LoopAct(s: Sup, s': Sup, act: Act, t: nat)
    requires Next(s, s', act) && t < |s.tasks| && (IsLoop(s.tasks[t]) || s.tasks[t] == Done)
    ensures t < |s'.tasks| && (IsLoop(s'.tasks[t]) || s'.tasks[t] == Done)
    ensures IsLoop(s'.tasks[t]) <==> IsLoop(s.tasks[t]) && !(act.RunTask? && act.task == t && GivesUp(s, t))
  {
    if act.RunTask? && act.task == t {
      if IsLoop(s.tasks[t]) {
        LoopStep(s, s', t, act.fails);
      }
    } else {
      OthersStay(s, s', act, t);
    }
  }

  /** A resident loop whose child has gone, with the next lock free. */
  predicate ChildLost(s: Sup, t: nat, b: nat) {
    && t < |s.tasks| && s.tasks[t].ResidentWait? && s.tasks[t].app < |s.states| && b < |s.states|
    && s.tasks[t].child !in s.alive
    && var svc := s.states[s.tasks[t].app].service;
       svc in s.apps && s.apps[svc] == b && (b == s.tasks[t].app || s.states[b].lock.None?)
  }

  /** The five steps of the loop from the end of one child to the start of the next. */
  ghost predicate Round(s: Sup, a: Sup, b: Sup, c: Sup, d: Sup, e: Sup, t: nat) {
    && Next(s, a, RunTask(t, false)) && Next(a, b, RunTask(t, false)) && Next(b, c, RunTask(t, false))
    && Next(c, d, RunTask(t, false)) && Next(d, e, RunTask(t, false))
  }

  /** A fresh child runs in the slot and the loop is about to wait for it. */
  predicate Restarted(s: Sup, y: Sup, t: nat, b: nat) {
    Up(y, b, |s.spawnedBy|) && |y.spawnedBy| == |s.spawnedBy| + 1 && t < |y.tasks| && y.tasks[t] == ResidentRelock(b)
  }

  /** After a loss the loop can take a whole round, and an undisturbed one leaves a fresh running child. */
  lemma RestartsChild(s: Sup, t: nat, b: nat)
    requires SupOk(s) && ChildLost(s, t, b)
    ensures exists u, v, w, x, y :: Round(s, u, v, w, x, y, t)
    ensures forall u, v, w, x, y :: Round(s, u, v, w, x, y, t) ==>
              Restarted(s, y, t, b)
  {
    var a := s.tasks[t].app;
    var u := SetLock(Goto(s, t, Sleeping(a)), a, None);
    var v := Goto(u, t, ResidentLookup(s.states[a].service));
    var w := Goto(v, t, ResidentLock(b));
    var x := SetLock(Goto(w, t, ResidentSpawn(b)), b, Some(t));
    var y := SpawnInto(Goto(x, t, ResidentRelock(b)), b);
    WaitEnds(s, t);
    SleepEnds(u, t);
    LookupGoesOn(v, t);
    LockTaken(w, t);
    SpawnGoesOn(x, t);
    assert Round(s, u, v, w, x, y, t);
    forall u', v', w', x', y' | Round(s, u', v', w', x', y', t)
      ensures Restarted(s, y', t, b)
    {
      assert u' == u && v' == v && w' == w && x' == x && y' == y;
    }
  }

  lemma WaitEnds(s: Sup, t: nat)
    requires t < |s.tasks| && s.tasks[t].ResidentWait? && s.tasks[t].app < |s.states| && s.tasks[t].child !in s.alive
    ensures forall u :: Next(s, u, RunTask(t, false)) <==>
              u == SetLock(Goto(s, t, Sleeping(s.tasks[t].app)), s.tasks[t].app, None)
  {
  }

  lemma SleepEnds(s: Sup, t: nat)
    requires t < |s.tasks| && s.tasks[t].Sleeping? && s.tasks[t].app < |s.states|
    ensures forall u :: Next(s, u, RunTask(t, false)) <==>
              u == Goto(s, t, ResidentLookup(s.states[s.tasks[t].app].service))
  {
  }

  lemma LookupGoesOn(s: Sup, t: nat)
    requires t < |s.tasks| && s.tasks[t].ResidentLookup? && s.tasks[t].service in s.apps
    ensures forall u :: Next(s, u, RunTask(t, false)) <==> u == Goto(s, t, ResidentLock(s.apps[s.tasks[t].service]))
  {
  }

  lemma LockTaken(s: Sup, t: nat)
    requires t < |s.tasks| && s.tasks[t].ResidentLock? && s.tasks[t].app < |s.states|
    requires s.states[s.tasks[t].app].lock.None?
    ensures forall u :: Next(s, u, RunTask(t, false)) <==>
              u == SetLock(Goto(s, t, ResidentSpawn(s.tasks[t].app)), s.tasks[t].app, Some(t))
  {
  }

  lemma SpawnGoesOn(s: Sup, t: nat)
    requires t < |s.tasks| && s.tasks[t].ResidentSpawn? && s.tasks[t].app < |s.states|
    ensures forall u :: Next(s, u, RunTask(t, false)) <==>
              u == SpawnInto(Goto(s, t, ResidentRelock(s.tasks[t].app)), s.tasks[t].app)
  {
  }

  /** A failed spawn keeps the lock through the backoff, changes no child, and comes back to look the service up. */
  lemma FailedSpawn(s: Sup, u: Sup, v: Sup, t: nat, fails: bool)
    requires t < |s.tasks| && s.tasks[t].ResidentSpawn? && s.tasks[t].app < |s.states|
    requires Next(s, u, RunTask(t, true)) && Next(u, v, RunTask(t, fails))
    ensures var a := s.tasks[t].app;
            && u == s.(tasks := u.tasks) && u.tasks == s.tasks[t := ResidentBackoff(a)]
            && v == s.(tasks := s.tasks[t := ResidentLookup(s.states[a].service)],
                       states := s.states[a := s.states[a].(lock := None)])
  {
    assert u.tasks[t] == ResidentBackoff(s.tasks[t].app);
    assert v.tasks == s.tasks[t := ResidentLookup(s.states[s.tasks[t].app].service)];
  }

  // ----- registering, replacing and unregistering ---------------------------------------------------------------

  /** The service has a new `AppState`, empty and unlocked; the older ones are as they were. */
  predicate Fresh(s: Sup, s': Sup, svc: string) {
    && s'.apps == s.apps[svc := |s.states|]
    && |s'.states| == |s.states| + 1 && s'.states[..|s.states|] == s.states
    && s'.states[|s.states|] == AppState(svc, None, None)
  }

  /** Task `t` moves on its own from the first state to the last. */
  ghost predicate Alone(path: seq<Sup>, t: nat) {
    path != [] && forall k :: 0 <= k < |path| - 1 ==> Moves(path, k, t)
  }

  ghost predicate Moves(path: seq<Sup>, k: nat, t: nat)
    requires k + 1 < |path|
  {
    exists fails :: Next(path[k], path[k + 1], RunTask(t, fails))
  }

  predicate Ends(path: seq<Sup>, t: nat) {
    path != [] && t < |path[|path| - 1].tasks| && path[|path| - 1].tasks[t] == Done
  }

  lemma FirstMove(path: seq<Sup>, t: nat)
    requires Alone(path, t) && Ends(path, t) && t < |path[0].tasks| && path[0].tasks[t] != Done
    ensures |path| > 1 && Moves(path, 0, t)
    ensures Alone(path[1..], t) && Ends(path[1..], t)
  {
    assert |path| > 1;
    forall k | 0 <= k < |path| - 2
      ensures Moves(path[1..], k, t)
    {
      assert Moves(path, k + 1, t);
    }
  }

  /** Nothing follows the end of a task. */
  lemma NothingAfter(path: seq<Sup>, t: nat)
    requires Alone(path, t) && t < |path[0].tasks| && path[0].tasks[t] == Done
    ensures |path| == 1
  {
    if |path| > 1 {
      DoneStands(path, t);
    }
  }

  lemma DoneStands(path: seq<Sup>, t: nat)
    requires |path| > 1 && t < |path[0].tasks| && path[0].tasks[t] == Done
    ensures !Moves(path, 0, t)
  {
  }

  /** What is left once the entry has gone: nothing, or for a replacement a fresh entry, with a loop if resident. */
  predicate EntryGone(s: Sup, e: Sup, t: nat, svc: string, p: Purpose) {
    && e.alive == s.alive && e.spawnedBy == s.spawnedBy && t < |s.tasks|
    && match p
       case Removal => e == s.(apps := s.apps - {svc}, tasks := e.tasks) && e.tasks == s.tasks[t := Done]
       case Replacement(l) =>
         Fresh(s, e, svc)
         && e.tasks == s.tasks[t := Done] + if l.Resident? then [ResidentLookup(svc)] else []
  }

  function Last(path: seq<Sup>): Sup
    requires path != []
  {
    path[|path| - 1]
  }

  /** The child in the slot is killed and the slot is empty and unlocked. */
  function Stopped(s: Sup, a: nat): Sup
    requires a < |s.states|
  {
    s.(states := s.states[a := s.states[a].(slot := None, lock := None)],
       alive := DropChild(s.alive, s.states[a].slot))
  }

  lemma FromInsert(path: seq<Sup>, t: nat, svc: string, l: Lifecycle)
    requires Alone(path, t) && Ends(path, t) && t < |path[0].tasks| && path[0].tasks[t] == InsertEntry(svc, l)
    ensures EntryGone(path[0], Last(path), t, svc, Replacement(l))
  {
    FirstMove(path, t);
    NothingAfter(path[1..], t);
  }

  lemma FromRemove(path: seq<Sup>, t: nat, svc: string, p: Purpose)
    requires Alone(path, t) && Ends(path, t) && t < |path[0].tasks| && path[0].tasks[t] == RemoveEntry(svc, p)
    ensures EntryGone(path[0], Last(path), t, svc, p)
  {
    FirstMove(path, t);
    var s, u := path[0], path[1];
    assert path[1..][0] == u && Last(path[1..]) == Last(path);
    assert u.apps == s.apps - {svc};
    match p
    case Removal => NothingAfter(path[1..], t);
    case Replacement(l) =>
      FromInsert(path[1..], t, svc, l);
      assert s.apps[svc := |s.states|] == u.apps[svc := |s.states|];
  }

  lemma FromKilling(path: seq<Sup>, t: nat, a: nat, c: nat, p: Purpose)
    requires Alone(path, t) && Ends(path, t) && t < |path[0].tasks| && path[0].tasks[t] == Killing(a, c, p)
    requires a < |path[0].states| && path[0].states[a].slot.None?
    ensures EntryGone(Stopped(path[0], a).(alive := path[0].alive - {c}), Last(path), t, path[0].states[a].service, p)
  {
    FirstMove(path, t);
    assert path[1..][0] == path[1] && Last(path[1..]) == Last(path);
    FromRemove(path[1..], t, path[0].states[a].service, p);
  }

  lemma FromTake(path: seq<Sup>, t: nat, a: nat, p: Purpose)
    requires Alone(path, t) && Ends(path, t) && t < |path[0].tasks| && path[0].tasks[t] == StopTake(a, p)
    requires a < |path[0].states|
    ensures EntryGone(Stopped(path[0], a), Last(path), t, path[0].states[a].service, p)
  {
    FirstMove(path, t);
    assert path[1..][0] == path[1] && Last(path[1..]) == Last(path);
    var s := path[0];
    match s.states[a].slot
    case None => FromRemove(path[1..], t, s.states[a].service, p);
    case Some(c) => FromKilling(path[1..], t, a, c, p);
  }

  lemma FromLock(path: seq<Sup>, t: nat, a: nat, p: Purpose)
    requires Alone(path, t) && Ends(path, t) && t < |path[0].tasks| && path[0].tasks[t] == StopLock(a, p)
    requires a < |path[0].states|
    ensures EntryGone(Stopped(path[0], a), Last(path), t, path[0].states[a].service, p)
  {
    FirstMove(path, t);
    assert path[1..][0] == path[1] && Last(path[1..]) == Last(path);
    FromTake(path[1..], t, a, p);
  }

  /** `stop_service` and what follows it: an entry that is gone by then makes the stop, but nothing else, a no-op. */
  lemma FromLookup(path: seq<Sup>, t: nat, svc: string, p: Purpose)
    requires Alone(path, t) && Ends(path, t) && t < |path[0].tasks| && path[0].tasks[t] == StopLookup(svc, p)
    requires RefsOk(path[0])
    ensures var s := path[0];
            EntryGone(if svc in s.apps then Stopped(s, s.apps[svc]) else s, Last(path), t, svc, p)
  {
    FirstMove(path, t);
    assert path[1..][0] == path[1] && Last(path[1..]) == Last(path);
    if svc in path[0].apps {
      FromLock(path[1..], t, path[0].apps[svc], p);
    } else {
      FromRemove(path[1..], t, svc, p);
    }
  }

  /** `unregister` on its own: it fails when nobody is registered, and otherwise stops the child and drops the entry. */
  lemma UnregisterAlone(path: seq<Sup>, t: nat, svc: string)
    requires Alone(path, t) && Ends(path, t) && SupOk(path[0])
    requires t < |path[0].tasks| && path[0].tasks[t] == UnregisterCheck(svc)
    ensures var s, e := path[0], Last(path);
            if svc in s.apps then EntryGone(Stopped(s, s.apps[svc]), e, t, svc, Removal)
            else e == s.(tasks := s.tasks[t := Done])
  {
    FirstMove(path, t);
    assert path[1..][0] == path[1] && Last(path[1..]) == Last(path);
    if svc in path[0].apps {
      FromLookup(path[1..], t, svc, Removal);
    } else {
      NothingAfter(path[1..], t);
    }
  }

  /** `register_or_replace` on its own: the child of the old entry is stopped, and a fresh entry takes its place. */
  lemma ReplaceAlone(path: seq<Sup>, t: nat, svc: string, l: Lifecycle)
    requires Alone(path, t) && Ends(path, t) && SupOk(path[0])
    requires t < |path[0].tasks| && path[0].tasks[t] == ReplaceCheck(svc, l)
    ensures var s, e := path[0], Last(path);
            EntryGone(if svc in s.apps then Stopped(s, s.apps[svc]) else s, e, t, svc, Replacement(l))
  {
    FirstMove(path, t);
    assert path[1..][0] == path[1] && Last(path[1..]) == Last(path);
    if svc in path[0].apps {
      FromLookup(path[1..], t, svc, Replacement(l));
    } else {
      FromInsert(path[1..], t, svc, l);
    }
  }

  /** `register` adds a fresh entry and starts nothing. */
  lemma RegisterAdds(s: Sup, s': Sup, svc: string)
    requires Next(s, s', Register(svc))
    ensures Fresh(s, s', svc) && s'.tasks == s.tasks && s'.alive == s.alive && s'.spawnedBy == s.spawnedBy
  {
  }

  /** `ensure_up` on its own: it fails when nobody is registered, and otherwise the service has a running child. */
  lemma EnsureUpAlone(s: Sup, u: Sup, v: Sup, w: Sup, t: nat, svc: string)
    requires SupOk(s) && t < |s.tasks| && s.tasks[t] == EnsureLookup(svc) && Next(s, u, RunTask(t, false))
    requires svc in s.apps ==> Next(u, v, RunTask(t, false)) && Next(v, w, RunTask(t, false))
    ensures svc !in s.apps ==> u == s.(tasks := s.tasks[t := Done])
    ensures svc in s.apps ==>
              && w.apps == s.apps && w.tasks == s.tasks[t := Done] && IsUp(w, s.apps[svc])
              && (IsUp(s, s.apps[svc]) ==> w.alive == s.alive && w.spawnedBy == s.spawnedBy)
              && (!IsUp(s, s.apps[svc]) ==> Up(w, s.apps[svc], |s.spawnedBy|) && |w.spawnedBy| == |s.spawnedBy| + 1)
  {
    if svc in s.apps {
      var a := s.apps[svc];
      StepOk(s, u, RunTask(t, false));
      StepOk(u, v, RunTask(t, false));
      SlotUp(s, a);
      SlotUp(v, a);
      assert v.tasks[t] == EnsureCheck(a) && w.apps == s.apps;
      EnsureUp(v, w, t, a);
    }
  }

  // ----- nothing gets stuck ---------------------------------------------------------------------------------------

  /** The task can take its next step with every operation succeeding. */
  ghost predicate CanGo(s: Sup, t: nat) {
    exists s' :: Next(s, s', RunTask(t, false))
  }

  /** The `AppState` whose lock the task asks for next. */
  function WantsLock(pc: TaskPc): Option<nat> {
    match pc
    case ResidentLock(a) => Some(a)
    case ResidentRelock(a) => Some(a)
    case EnsureLock(a) => Some(a)
    case StopLock(a, _) => Some(a)
    case _ => None
  }

  predicate WaitsForChild(s: Sup, t: nat) {
    t < |s.tasks| && s.tasks[t].ResidentWait? && s.tasks[t].child in s.alive
  }

  predicate WaitsForLock(s: Sup, t: nat) {
    && t < |s.tasks| && WantsLock(s.tasks[t]).Some? && WantsLock(s.tasks[t]).value < |s.states|
    && s.states[WantsLock(s.tasks[t]).value].lock.Some?
  }

  /** A task stands still exactly when it is done, waits for a running child, or waits for a lock another task holds. */
  lemma GoesExactly(s: Sup, t: nat)
    requires SupOk(s) && t < |s.tasks|
    ensures CanGo(s, t) <==> s.tasks[t] != Done && !WaitsForChild(s, t) && !WaitsForLock(s, t)
  {
    var pc := s.tasks[t];
    if !WaitsForChild(s, t) && !WaitsForLock(s, t) && pc != Done {
      if WantsLock(pc).Some? {
        LockGoes(s, t);
      } else if pc.RemoveEntry? || pc.InsertEntry? || pc.ReplaceCheck? || pc.UnregisterCheck? || pc.StopLookup? {
        EntryGoes(s, t);
      } else {
        SlotGoes(s, t);
      }
    }
  }

  lemma LockGoes(s: Sup, t: nat)
    requires SupOk(s) && t < |s.tasks| && WantsLock(s.tasks[t]).Some? && !WaitsForLock(s, t)
    ensures CanGo(s, t)
  {
    var a := WantsLock(s.tasks[t]).value;
    match s.tasks[t]
    case ResidentLock(_) => assert Next(s, SetLock(Goto(s, t, ResidentSpawn(a)), a, Some(t)), RunTask(t, false));
    case EnsureLock(_) => assert Next(s, SetLock(Goto(s, t, EnsureCheck(a)), a, Some(t)), RunTask(t, false));
    case StopLock(_, p) => assert Next(s, SetLock(Goto(s, t, StopTake(a, p)), a, Some(t)), RunTask(t, false));
    case ResidentRelock(_) =>
      if s.states[a].slot.None? {
        assert Next(s, Goto(s, t, Done), RunTask(t, false));
      } else {
        var wait := ResidentWait(a, s.states[a].slot.value);
        assert Next(s, SetLock(Goto(s, t, wait), a, Some(t)), RunTask(t, false));
      }
    case _ =>
  }

  lemma EntryGoes(s: Sup, t: nat)
    requires t < |s.tasks|
    requires s.tasks[t].RemoveEntry? || s.tasks[t].InsertEntry? || s.tasks[t].ReplaceCheck?
             || s.tasks[t].UnregisterCheck? || s.tasks[t].StopLookup?
    ensures CanGo(s, t)
  {
    var go := RunTask(t, false);
    match s.tasks[t]
    case StopLookup(svc, p) =>
      assert Next(s, Goto(s, t, if svc in s.apps then StopLock(s.apps[svc], p) else RemoveEntry(svc, p)), go);
    case ReplaceCheck(svc, l) =>
      assert Next(s, Goto(s, t, if svc in s.apps then StopLookup(svc, Replacement(l)) else InsertEntry(svc, l)), go);
    case UnregisterCheck(svc) =>
      assert Next(s, Goto(s, t, if svc in s.apps then StopLookup(svc, Removal) else Done), go);
    case RemoveEntry(svc, p) =>
      var u := Goto(s, t, if p.Replacement? then InsertEntry(svc, p.lifecycle) else Done);
      assert Next(s, u.(apps := s.apps - {svc}), go);
    case InsertEntry(svc, l) =>
      var u := AddState(Goto(s, t, Done), svc);
      assert Next(s, if l.Resident? then u.(tasks := u.tasks + [ResidentLookup(svc)]) else u, go);
    case _ =>
  }

  lemma SlotGoes(s: Sup, t: nat)
    requires RefsOk(s) && t < |s.tasks| && s.tasks[t] != Done && WantsLock(s.tasks[t]).None? && !WaitsForChild(s, t)
    requires HeldState(s.tasks[t]).Some? || s.tasks[t].ResidentLookup? || s.tasks[t].EnsureLookup?
    ensures CanGo(s, t)
  {
    var go := RunTask(t, false);
    match s.tasks[t]
    case ResidentLookup(svc) =>
      assert Next(s, Goto(s, t, if svc in s.apps then ResidentLock(s.apps[svc]) else Done), go);
    case EnsureLookup(svc) =>
      assert Next(s, Goto(s, t, if svc in s.apps then EnsureLock(s.apps[svc]) else Done), go);
    case ResidentSpawn(a) => assert Next(s, SpawnInto(Goto(s, t, ResidentRelock(a)), a), go);
    case ResidentWait(a, c) => assert Next(s, SetLock(Goto(s, t, Sleeping(a)), a, None), go);
    case Sleeping(a) => assert Next(s, Goto(s, t, ResidentLookup(s.states[a].service)), go);
    case ResidentBackoff(a) =>
      assert Next(s, SetLock(Goto(s, t, ResidentLookup(s.states[a].service)), a, None), go);
    case EnsureCheck(a) =>
      var up := s.states[a].slot.Some? && s.states[a].slot.value in s.alive;
      assert Next(s, if up then SetLock(Goto(s, t, Done), a, None) else SpawnInto(Goto(s, t, Done), a), go);
    case _ => StopGoes(s, t);
  }

  lemma StopGoes(s: Sup, t: nat)
    requires RefsOk(s) && t < |s.tasks| && (s.tasks[t].StopTake? || s.tasks[t].Killing?)
    ensures CanGo(s, t)
  {
    var go := RunTask(t, false);
    match s.tasks[t]
    case StopTake(a, p) =>
      if s.states[a].slot.None? {
        assert Next(s, SetLock(Goto(s, t, RemoveEntry(s.states[a].service, p)), a, None), go);
      } else {
        var u := Goto(s, t, Killing(a, s.states[a].slot.value, p));
        assert Next(s, u.(states := s.states[a := s.states[a].(slot := None)]), go);
      }
    case Killing(a, c, p) =>
      var u := SetLock(Goto(s, t, RemoveEntry(s.states[a].service, p)), a, None);
      assert Next(s, u.(alive := s.alive - {c}), go);
    case _ =>
  }

  /**
   * In every reachable state where no task can go on, nothing is left but loops that wait for running children and
   * tasks queued behind such a loop: `ensure_up`, stops and loops never block each other for good.
   */
  lemma OnlyChildrenAreAwaited(s: Sup, t: nat)
    requires Reachable(s) && t < |s.tasks| && forall u :: 0 <= u < |s.tasks| ==> !CanGo(s, u)
    ensures s.tasks[t] == Done || WaitsForChild(s, t) || WaitsForLock(s, t)
    ensures WaitsForLock(s, t) ==>
              var lock := s.states[WantsLock(s.tasks[t]).value].lock.value;
              WaitsForChild(s, lock) && s.tasks[lock].app == WantsLock(s.tasks[t]).value
  {
    ReachableOk(s);
    GoesExactly(s, t);
    if WaitsForLock(s, t) {
      var a := WantsLock(s.tasks[t]).value;
      var r := s.states[a].lock.value;
      assert HoldsLock(s.tasks[r], a);
      GoesExactly(s, r);
    }
  }
}
