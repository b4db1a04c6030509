/**
 * When the registered connection of a service is its newest one. The counter and the map are written in two steps, so
 * this is not always so; it is exactly as long as the stores keep the order of the draws.
 */
module BusNewest {
  import opened Prelude
  import opened Frames
  import opened ServiceRegistry
  import opened Connection
  import opened Bus
  import opened BusSteps
  import opened BusRegistration

  predicate Names(v: Serve, svc: string) {
    v.hello.Some? && v.hello.value.service == svc
  }

  /** Between drawing a generation and storing the entry. */
  predicate Storing(v: Serve, svc: string) {
    v.pc == WriteEntry && Names(v, svc)
  }

  predicate HasStored(v: Serve, svc: string) {
    EverPut(v) && Names(v, svc)
  }

  /** No connection that ever stored an entry of the service is newer than the registered one. */
  ghost predicate NewestRegistered(s: State, svc: string) {
    svc in s.reg.entries ==>
      forall j :: 0 <= j < |s.serves| && HasStored(s.serves[j], svc) ==>
        s.serves[j].generation <= s.reg.entries[svc].generation
  }

  /** Nobody has stored an entry of the service with a generation drawn after `g`. */
  ghost predicate NoneStoredAfter(serves: seq<Serve>, svc: string, g: nat) {
    forall j :: 0 <= j < |serves| && HasStored(serves[j], svc) ==> serves[j].generation < g
  }

  /** Storing an entry leaves the newest one registered exactly when nobody newer has stored one before. */
  lemma NewestExactly(s: State, t: State, i: nat)
    requires Registered(s) && Aligned(s) && i < |s.serves| && PublishStep(s, t, i)
    ensures var svc := s.serves[i].hello.value.service;
            NewestRegistered(t, svc) <==> NoneStoredAfter(s.serves, svc, s.serves[i].generation)
  {
    var svc, g := s.serves[i].hello.value.service, s.serves[i].generation;
    assert ServeOk(s.serves[i]) && t.reg.entries[svc].generation == g;
    if NewestRegistered(t, svc) {
      forall j | 0 <= j < |s.serves| && HasStored(s.serves[j], svc)
        ensures s.serves[j].generation < g
      {
        assert HasStored(t.serves[j], svc);
      }
    }
  }

  // ----- handshakes one after the other ----------------------------------------------------------------------

  ghost predicate OneStoring(s: State, svc: string) {
    forall i, j :: 0 <= i < j < |s.serves| ==> !Storing(s.serves[i], svc) || !Storing(s.serves[j], svc)
  }

  /** Whoever is about to store an entry of the service is newer than everybody who has. */
  ghost predicate StoringNewest(serves: seq<Serve>, svc: string) {
    forall i :: 0 <= i < |serves| && Storing(serves[i], svc) ==> NoneStoredAfter(serves, svc, serves[i].generation)
  }

  /** The task neither draws a generation nor stores its entry. */
  predicate SameStage(v: Serve, w: Serve) {
    && (w.pc == WriteEntry ==> v.pc == WriteEntry && w.hello == v.hello && w.generation == v.generation)
    && (EverPut(w) ==> EverPut(v) && w.hello == v.hello && w.generation == v.generation)
  }

  lemma ServeSameStage(cfg: Config, s: State, t: State, i: nat, a: ServeAct)
    requires ServeNext(cfg, s, t, i, a) && !a.NumberEntry? && !a.PublishEntry? && ServeOk(s.serves[i])
    ensures OneTask(s, t, i) && SameStage(s.serves[i], t.serves[i])
  {
    ServeTask(cfg, s, t, i, a);
  }

  lemma StageKept(s: State, t: State, i: nat, svc: string)
    requires OneTask(s, t, i) && SameStage(s.serves[i], t.serves[i])
    requires svc in t.reg.entries ==> svc in s.reg.entries && t.reg.entries[svc] == s.reg.entries[svc]
    requires StoringNewest(s.serves, svc) && NewestRegistered(s, svc)
    ensures StoringNewest(t.serves, svc) && NewestRegistered(t, svc)
  {
    forall j | 0 <= j < |t.serves| && Storing(t.serves[j], svc)
      ensures NoneStoredAfter(t.serves, svc, t.serves[j].generation)
    {
      assert Storing(s.serves[j], svc);
      forall k | 0 <= k < |t.serves| && HasStored(t.serves[k], svc)
        ensures t.serves[k].generation < t.serves[j].generation
      {
        assert HasStored(s.serves[k], svc);
      }
    }
    forall k | 0 <= k < |t.serves| && HasStored(t.serves[k], svc)
      ensures HasStored(s.serves[k], svc) && t.serves[k].generation == s.serves[k].generation
    {
    }
  }

  /** A new generation is above everything stored so far. */
  lemma NumberNewest(s: State, t: State, i: nat, svc: string)
    requires Registered(s) && Aligned(s) && i < |s.serves| && NumberStep(s, t, i)
    requires StoringNewest(s.serves, svc) && NewestRegistered(s, svc)
    ensures StoringNewest(t.serves, svc) && NewestRegistered(t, svc)
  {
    assert ServeOk(s.serves[i]);
    forall k | 0 <= k < |t.serves| && HasStored(t.serves[k], svc)
      ensures k != i && HasStored(s.serves[k], svc) && t.serves[k].generation <= s.reg.nextGen
    {
    }
    forall j | 0 <= j < |t.serves| && Storing(t.serves[j], svc)
      ensures NoneStoredAfter(t.serves, svc, t.serves[j].generation)
    {
      assert j != i ==> Storing(s.serves[j], svc);
    }
  }

  lemma PublishNewest(s: State, t: State, i: nat, svc: string)
    requires Registered(s) && Aligned(s) && i < |s.serves| && PublishStep(s, t, i) && OneStoring(s, svc)
    requires StoringNewest(s.serves, svc) && NewestRegistered(s, svc)
    ensures StoringNewest(t.serves, svc) && NewestRegistered(t, svc)
  {
    var me := s.serves[i].hello.value.service;
    if me == svc {
      assert Storing(s.serves[i], svc);
      NewestExactly(s, t, i);
      forall j | 0 <= j < |t.serves|
        ensures !Storing(t.serves[j], svc)
      {
        assert j != i ==> t.serves[j] == s.serves[j];
      }
    } else {
      assert forall k :: 0 <= k < |t.serves| ==> (HasStored(t.serves[k], svc) <==> HasStored(s.serves[k], svc));
      assert forall k :: 0 <= k < |t.serves| ==> (Storing(t.serves[k], svc) <==> Storing(s.serves[k], svc));
    }
  }

  lemma RegistryShrinks(cfg: Config, s: State, t: State, i: nat, a: ServeAct, svc: string)
    requires ServeNext(cfg, s, t, i, a) && !a.PublishEntry?
    ensures svc in t.reg.entries ==> svc in s.reg.entries && t.reg.entries[svc] == s.reg.entries[svc]
  {
    RegistryChange(cfg, s, t, i, a);
  }

  lemma ServeNewest(cfg: Config, s: State, t: State, i: nat, a: ServeAct, svc: string)
    requires Registered(s) && ServeNext(cfg, s, t, i, a) && OneStoring(s, svc)
    requires StoringNewest(s.serves, svc) && NewestRegistered(s, svc)
    ensures StoringNewest(t.serves, svc) && NewestRegistered(t, svc)
  {
    if {
      case a.NumberEntry? => NumberNewest(s, t, i, svc);
      case a.PublishEntry? => PublishNewest(s, t, i, svc);
      case !a.NumberEntry? && !a.PublishEntry? =>
        assert ServeOk(s.serves[i]);
        ServeSameStage(cfg, s, t, i, a);
        RegistryShrinks(cfg, s, t, i, a, svc);
        StageKept(s, t, i, svc);
    }
  }

  lemma OthersNewest(s: State, t: State, svc: string)
    requires ServesKept(s, t) && StoringNewest(s.serves, svc) && NewestRegistered(s, svc)
    ensures StoringNewest(t.serves, svc) && NewestRegistered(t, svc)
  {
  }

  lemma StepNewest(cfg: Config, s: State, t: State, step: Step, svc: string)
    requires Registered(s) && Next(cfg, s, t, step) && OneStoring(s, svc)
    requires StoringNewest(s.serves, svc) && NewestRegistered(s, svc)
    ensures StoringNewest(t.serves, svc) && NewestRegistered(t, svc)
  {
    match step
    case ServeStep(i, a) => ServeNewest(cfg, s, t, i, a, svc);
    case _ => TasksStay(cfg, s, t, step); OthersNewest(s, t, svc);
  }

  lemma {:induction false} RunRegistered(cfg: Config, states: seq<State>, steps: seq<Step>, k: nat)
    requires IsRun(cfg, states, steps) && k <= |steps|
    ensures Registered(states[k])
  {
    if k > 0 {
      RunRegistered(cfg, states, steps, k - 1);
      FragmentNext(cfg, states, steps, k - 1);
      StepRegistration(cfg, states[k - 1], states[k], steps[k - 1]);
    }
  }

  /**
   * The newest generation wins throughout a run in which the handshakes of a service do not overlap between counter and
   * map: in every state no connection that ever stored an entry of the service is newer than the registered one.
   */
  lemma {:induction false} NewestWins(cfg: Config, states: seq<State>, steps: seq<Step>, k: nat, svc: string)
    requires IsRun(cfg, states, steps) && k <= |steps|
    requires forall l :: 0 <= l < k ==> OneStoring(states[l], svc)
    ensures StoringNewest(states[k].serves, svc) && NewestRegistered(states[k], svc)
  {
    if k > 0 {
      NewestWins(cfg, states, steps, k - 1, svc);
      RunRegistered(cfg, states, steps, k - 1);
      FragmentNext(cfg, states, steps, k - 1);
      StepNewest(cfg, states[k - 1], states[k], steps[k - 1], svc);
    }
  }
}
