/**
 * Whose capabilities are cached. A probe checks the registry and stores its set in two steps, a teardown checks and
 * drops in two steps, and registering does not touch the cache; so the cached set need not be the registered one's.
 */
module BusStale {
  import opened Prelude
  import opened Frames
  import opened ServiceRegistry
  import opened BrokerTables
  import opened Connection
  import opened Bus
  import opened BusSteps
  import opened BusRegistration
  import opened BusCalls
  import opened BusProbes
  import opened BusNewest
  import opened BusScenarios

  // ----- what concerns the cached set of a service ----------------------------------------------------------

  /** A probe of the service that has passed its check and is about to store its set. */
  predicate Approving(k: Call, svc: string) {
    k.pc == StoreCaps && k.origin.Probe? && k.service == svc
  }

  /** A teardown of the service that has passed its check and is about to drop the set. */
  predicate Dropping(v: Serve, svc: string) {
    v.pc == DetachCaps && Names(v, svc)
  }

  /** The set was stored by a probe of generation `g`. */
  predicate StoredBy(calls: seq<Call>, c: Cached, g: nat) {
    c.storedBy < |calls| && calls[c.storedBy].origin.Probe? && calls[c.storedBy].origin.generation == g
  }

  /** While the service is registered, whoever has stored, will store or will drop its set is the registered one. */
  ghost predicate CacheCurrent(s: State, svc: string) {
    svc in s.reg.entries ==>
      var g := s.reg.entries[svc].generation;
      && (svc in s.tab.capabilities ==> StoredBy(s.calls, s.tab.capabilities[svc], g))
      && (forall n :: 0 <= n < |s.calls| && Approving(s.calls[n], svc) ==> s.calls[n].origin.generation == g)
      && (forall i :: 0 <= i < |s.serves| && Dropping(s.serves[i], svc) ==> s.serves[i].generation == g)
  }

  /** No set of the service is cached, about to be stored or about to be dropped. */
  ghost predicate CacheIdle(s: State, svc: string) {
    && svc !in s.tab.capabilities
    && (forall n :: 0 <= n < |s.calls| ==> !Approving(s.calls[n], svc))
    && (forall i :: 0 <= i < |s.serves| ==> !Dropping(s.serves[i], svc))
  }

  // ----- registering ----------------------------------------------------------------------------------------

  /** Only a connection that has stored its entry can have a probe, and the new one has not. */
  lemma ProbesAreOlder(cfg: Config, s: State, i: nat, n: nat)
    requires Registered(s) && ProbesOk(cfg, s) && i < |s.serves| && s.serves[i].pc == WriteEntry
    requires n < |s.calls| && s.calls[n].origin.Probe?
    ensures s.calls[n].origin.generation != s.serves[i].generation
  {
    assert ProbeOk(cfg, s, s.calls[n]);
  }

  /** Registering keeps the cache in order exactly when nothing of an earlier generation is cached or under way. */
  lemma CurrentExactly(cfg: Config, s: State, t: State, i: nat)
    requires Registered(s) && CapabilitiesOk(cfg, s) && Aligned(s) && i < |s.serves| && PublishStep(s, t, i)
    ensures var svc := s.serves[i].hello.value.service; CacheCurrent(t, svc) <==> CacheIdle(s, svc)
  {
    var svc := s.serves[i].hello.value.service;
    assert ServeOk(s.serves[i]);
    if CacheCurrent(t, svc) {
      if svc in s.tab.capabilities {
        assert CachedOk(cfg, s.calls, svc, s.tab.capabilities[svc]);
        ProbesAreOlder(cfg, s, i, s.tab.capabilities[svc].storedBy);
      }
      forall n | 0 <= n < |s.calls|
        ensures !Approving(s.calls[n], svc)
      {
        if Approving(s.calls[n], svc) {
          ProbesAreOlder(cfg, s, i, n);
        }
      }
      NothingDropping(s, t, i, svc);
    }
  }

  lemma NothingDropping(s: State, t: State, i: nat, svc: string)
    requires Registered(s) && Aligned(s) && i < |s.serves| && PublishStep(s, t, i) && CacheCurrent(t, svc)
    requires s.serves[i].hello.value.service == svc
    ensures forall j :: 0 <= j < |s.serves| ==> !Dropping(s.serves[j], svc)
  {
    forall j | 0 <= j < |s.serves|
      ensures !Dropping(s.serves[j], svc)
    {
      var w := t.serves[j];
      assert ServeOk(s.serves[i]) && ServeOk(s.serves[j]) && (j == i || w == s.serves[j]);
      assert Dropping(w, svc) ==> w.generation == s.serves[i].generation;
    }
  }

  // ----- every other step -----------------------------------------------------------------------------------

  predicate CallsStay(a: seq<Call>, b: seq<Call>) {
    && |a| <= |b|
    && (forall n :: 0 <= n < |a| ==>
          b[n].pc == a[n].pc && b[n].origin == a[n].origin && b[n].service == a[n].service)
    && (forall n :: |a| <= n < |b| ==> b[n].pc != StoreCaps)
  }

  /** Nothing that concerns the cached set is added. */
  ghost predicate NothingNew(s: State, t: State, svc: string) {
    && (svc in t.reg.entries ==> svc in s.reg.entries && t.reg.entries[svc] == s.reg.entries[svc])
    && (svc in t.tab.capabilities ==>
          svc in s.tab.capabilities && t.tab.capabilities[svc] == s.tab.capabilities[svc])
    && CallsStay(s.calls, t.calls)
    && (forall i :: 0 <= i < |t.serves| && Dropping(t.serves[i], svc) ==>
          i < |s.serves| && Dropping(s.serves[i], svc) && t.serves[i].generation == s.serves[i].generation)
  }

  lemma NothingNewCurrent(s: State, t: State, svc: string)
    requires CacheCurrent(s, svc) && NothingNew(s, t, svc)
    ensures CacheCurrent(t, svc)
  {
  }

  lemma WakeCalls(s: State, t: State, i: nat)
    requires Aligned(s) && i < |s.serves| && WakeStep(s, t, i)
    ensures CallsStay(s.calls, t.calls)
  {
  }

  lemma EffectCallsStay(s: State, t: State)
    requires CallEffect(s, t, 0) && (0 < |s.calls| && 0 < |t.calls| ==> t.calls[0] == s.calls[0])
    ensures CallsStay(s.calls, t.calls)
  {
  }

  lemma ServeCalls(cfg: Config, s: State, t: State, i: nat, a: ServeAct)
    requires ServeNext(cfg, s, t, i, a)
    ensures CallsStay(s.calls, t.calls)
  {
    if a.WakeCaller? {
      WakeCalls(s, t, i);
    } else {
      ServeEffect(cfg, s, t, i, a);
      ServeFirstCall(cfg, s, t, i, a);
      EffectCallsStay(s, t);
    }
  }

  lemma ServeSets(cfg: Config, s: State, t: State, i: nat, a: ServeAct, svc: string)
    requires ServeNext(cfg, s, t, i, a) && svc in t.tab.capabilities
    ensures svc in s.tab.capabilities && t.tab.capabilities[svc] == s.tab.capabilities[svc]
  {
    if !WritesTables(a) {
      OthersKeepTables(cfg, s, t, i, a);
    }
  }

  lemma ServeDrops(cfg: Config, s: State, t: State, i: nat, a: ServeAct)
    requires ServeNext(cfg, s, t, i, a) && !a.CheckStale?
    ensures i < |t.serves| && t.serves[i].pc != DetachCaps
  {
  }

  lemma CheckedCurrent(s: State, t: State, i: nat, svc: string)
    requires Aligned(s) && i < |s.serves| && StaleStep(s, t, i) && CacheCurrent(s, svc)
    ensures CacheCurrent(t, svc)
  {
    forall j | 0 <= j < |t.serves| && Dropping(t.serves[j], svc) && svc in t.reg.entries
      ensures t.serves[j].generation == t.reg.entries[svc].generation
    {
      assert j != i ==> Dropping(s.serves[j], svc);
    }
  }

  predicate Registers(s: State, step: Step, svc: string) {
    step.ServeStep? && step.serve.PublishEntry? && step.conn < |s.serves| && Names(s.serves[step.conn], svc)
  }

  lemma ServeEntries(cfg: Config, s: State, t: State, i: nat, a: ServeAct, svc: string)
    requires ServeNext(cfg, s, t, i, a) && !Registers(s, ServeStep(i, a), svc)
    ensures svc in t.reg.entries ==> svc in s.reg.entries && t.reg.entries[svc] == s.reg.entries[svc]
  {
    if !a.PublishEntry? {
      RegistryShrinks(cfg, s, t, i, a, svc);
    }
  }

  lemma ServeCurrent(cfg: Config, s: State, t: State, i: nat, a: ServeAct, svc: string)
    requires ServeNext(cfg, s, t, i, a) && !Registers(s, ServeStep(i, a), svc) && CacheCurrent(s, svc)
    ensures CacheCurrent(t, svc)
  {
    if a.CheckStale? {
      CheckedCurrent(s, t, i, svc);
    } else {
      ServeTask(cfg, s, t, i, a);
      ServeEntries(cfg, s, t, i, a, svc);
      ServeCalls(cfg, s, t, i, a);
      ServeDrops(cfg, s, t, i, a);
      if svc in t.tab.capabilities {
        ServeSets(cfg, s, t, i, a, svc);
      }
      NothingNewCurrent(s, t, svc);
    }
  }

  /** Apart from its check and its store, a call does not concern the cache. */
  lemma CallQuiet(cfg: Config, s: State, t: State, n: nat, a: CallAct)
    requires CallNext(cfg, s, t, n, a) && !a.VerifyProbe? && !a.CacheProbe?
    ensures t.tab == s.tab && n < |t.calls| && t.calls[n].pc != StoreCaps && t.calls[n].origin == s.calls[n].origin
  {
  }

  lemma VerdictCurrent(cfg: Config, s: State, t: State, n: nat, svc: string)
    requires Aligned(s) && n < |s.calls| && VerifyProbeStep(cfg, s, t, n) && CacheCurrent(s, svc)
    ensures CacheCurrent(t, svc)
  {
  }

  lemma StoreCurrent(cfg: Config, s: State, t: State, n: nat, svc: string)
    requires Aligned(s) && n < |s.calls| && CacheProbeStep(cfg, s, t, n) && CacheCurrent(s, svc) && LocalsOk(s.calls[n])
    ensures CacheCurrent(t, svc)
  {
  }

  lemma CallCurrent(cfg: Config, s: State, t: State, n: nat, a: CallAct, svc: string)
    requires CallNext(cfg, s, t, n, a) && CacheCurrent(s, svc) && AllLocalsOk(s.calls)
    ensures CacheCurrent(t, svc)
  {
    assert LocalsOk(s.calls[n]);
    if {
      case a.VerifyProbe? => VerdictCurrent(cfg, s, t, n, svc);
      case a.CacheProbe? => StoreCurrent(cfg, s, t, n, svc);
      case !a.VerifyProbe? && !a.CacheProbe? => CallTask(cfg, s, t, n, a); CallQuiet(cfg, s, t, n, a);
    }
  }

  lemma OutsideCurrent(s: State, t: State, svc: string)
    requires Outside(s, t) && CacheCurrent(s, svc)
    ensures CacheCurrent(t, svc)
  {
  }

  /** Only registering can put the cache out of order. */
  lemma StepCurrent(cfg: Config, s: State, t: State, step: Step, svc: string)
    requires Next(cfg, s, t, step) && !Registers(s, step, svc) && CacheCurrent(s, svc) && AllLocalsOk(s.calls)
    ensures CacheCurrent(t, svc)
  {
    match step
    case ServeStep(i, a) => ServeCurrent(cfg, s, t, i, a, svc);
    case CallStep(n, a) => CallCurrent(cfg, s, t, n, a, svc);
    case _ => OutsideStep(cfg, s, t, step); OutsideCurrent(s, t, svc);
  }

  lemma RegisterCurrent(cfg: Config, s: State, t: State, step: Step, svc: string)
    requires Next(cfg, s, t, step) && Registers(s, step, svc) && CacheIdle(s, svc)
    ensures CacheCurrent(t, svc)
  {
    var i := step.conn;
    assert PublishStep(s, t, i);
    assert forall j :: 0 <= j < |t.serves| && j != i ==> t.serves[j] == s.serves[j];
  }

  // ----- sets that are not the registered one's -------------------------------------------------------------

  /** A first connection of the service is up, and its probe has not started. */
  lemma FirstUp(cfg: Config, svc: string) returns (s: State)
    ensures Reachable(cfg, s) && Probing(s, 0, 0) && |s.serves| == 1 && |s.calls| == 1 && |s.iss.minted| == 1
    ensures s.reg.nextGen == s.serves[0].generation == 1 && Names(s.serves[0], svc)
    ensures svc !in s.tab.capabilities && s.tab.localServices == {}
  {
    var s1 := Enrolled(INITIAL, svc, true);
    NothingHappened(cfg);
    Enrolls(cfg, INITIAL, svc, true);
    Loops(cfg, s1, 0);
    s := Looping(cfg, s1, 0);
  }

  /** A second connection of the service has drawn its generation. */
  lemma SecondReady(cfg: Config, s: State, svc: string) returns (t: State)
    requires Reachable(cfg, s) && Aligned(s) && |s.serves| == 1 && |s.iss.minted| == 1
    ensures Reachable(cfg, t) && Ready(t, 1) && |t.serves| == 2 && t.serves[0] == s.serves[0] && t.calls == s.calls
    ensures Names(t.serves[1], svc) && t.serves[1].generation == s.reg.nextGen + 1
    ensures t.serves[1].hello.value.methods == METHODS && t.apps[1] == Wild && t.sess[1] == NEW_SESSION
    ensures t.inbs[1].stream == [] && !t.inbs[1].cut && t.chans[1].open
    ensures t.tab.capabilities == s.tab.capabilities && t.tab.localServices == s.tab.localServices
  {
    Enrolls(cfg, s, svc, true);
    t := Enrolled(s, svc, true);
  }

  /** In some run a probe stores its set although another generation has been registered since it checked. */
  lemma StaleSetStored(cfg: Config, svc: string, bytes: Bytes)
    requires cfg.parse(bytes).Some?
    ensures exists s, t :: Reachable(cfg, s) && CallNext(cfg, s, t, 0, CacheProbe) && svc !in s.tab.capabilities
                           && svc in t.tab.capabilities && svc in t.reg.entries && !CacheCurrent(t, svc)
  {
    var s2 := FirstUp(cfg, svc);
    Approves(cfg, s2, 0, 0, bytes);
    var s3 := Approved(s2, 0, 0, bytes);
    var s4 := SecondReady(cfg, s3, svc);
    Stores(cfg, s4, 1);
    var s := Stored(s4, 1);
    StoresStale(cfg, s, svc);
  }

  lemma StoresStale(cfg: Config, s: State, svc: string)
    requires Reachable(cfg, s) && Aligned(s) && |s.calls| > 0 && Approving(s.calls[0], svc)
    requires ProbeResult(cfg, s.calls[0]).Some? && svc !in s.tab.capabilities
    requires svc in s.reg.entries && s.reg.entries[svc].generation != s.calls[0].origin.generation
    ensures exists t :: CallNext(cfg, s, t, 0, CacheProbe)
                        && svc in t.tab.capabilities && svc in t.reg.entries && !CacheCurrent(t, svc)
  {
    var k := s.calls[0];
    var t := s.(calls := s.calls[0 := k.(pc := Ended)],
                tab := s.tab.(capabilities := s.tab.capabilities[svc := Cached(ProbeResult(cfg, k).value, 0)]));
    assert CacheProbeStep(cfg, s, t, 0);
    assert !StoredBy(t.calls, t.tab.capabilities[svc], t.reg.entries[svc].generation);
  }

  /** A first connection is still registered and about to drop the cached set. */
  lemma FirstLeaving(cfg: Config, svc: string) returns (t: State)
    ensures Reachable(cfg, t) && Aligned(t) && |t.serves| == 1 && |t.calls| == 1 && |t.iss.minted| == 1
    ensures Dropping(t.serves[0], svc) && t.tab.localServices == {}
  {
    var s := FirstUp(cfg, svc);
    var s1 := s.(serves := Goto(s, 0, Detach));
    ReachesNext(cfg, s, s1, ServeStep(0, StreamEnded));
    var s2 := s1.(serves := Goto(s1, 0, DetachCheck),
                  tab := s1.tab.(sessions := s1.tab.sessions - {KeyOf(s1.serves[0])}));
    ReachesNext(cfg, s1, s2, ServeStep(0, DetachSession));
    t := s2.(serves := Goto(s2, 0, DetachCaps));
    ReachesNext(cfg, s2, t, ServeStep(0, CheckStale));
  }

  /** In some run a teardown drops the set of the generation that has been registered since it checked. */
  lemma CurrentSetDropped(cfg: Config, svc: string, bytes: Bytes)
    requires cfg.parse(bytes).Some?
    ensures exists s, t :: Reachable(cfg, s) && DropsCurrent(cfg, s, t, svc)
  {
    var s1 := FirstLeaving(cfg, svc);
    var s2 := SecondReady(cfg, s1, svc);
    Loops(cfg, s2, 1);
    var s3 := Looping(cfg, s2, 1);
    Approves(cfg, s3, 1, 1, bytes);
    Drops(cfg, Approved(s3, 1, 1, bytes), svc);
  }

  /** Connection 0 drops a set that the registered connection 1 has stored. */
  ghost predicate DropsCurrent(cfg: Config, s: State, t: State, svc: string) {
    && ServeNext(cfg, s, t, 0, DropCapabilities) && svc in s.reg.entries && s.reg.entries[svc].tx == 1
    && svc in s.tab.capabilities && StoredBy(s.calls, s.tab.capabilities[svc], s.reg.entries[svc].generation)
    && svc !in t.tab.capabilities
  }

  lemma Drops(cfg: Config, s: State, svc: string)
    requires Reachable(cfg, s) && Aligned(s) && |s.calls| > 1 && Approving(s.calls[1], svc)
    requires ProbeResult(cfg, s.calls[1]).Some? && |s.serves| > 1 && Dropping(s.serves[0], svc)
    requires svc in s.reg.entries && s.reg.entries[svc].tx == 1
    requires s.reg.entries[svc].generation == s.calls[1].origin.generation
    ensures exists u, v :: Reachable(cfg, u) && DropsCurrent(cfg, u, v, svc)
  {
    var k := s.calls[1];
    var u := s.(calls := s.calls[1 := k.(pc := Ended)],
                tab := s.tab.(capabilities := s.tab.capabilities[svc := Cached(ProbeResult(cfg, k).value, 1)]));
    ReachesNext(cfg, s, u, CallStep(1, CacheProbe));
    var v := u.(serves := Goto(u, 0, Unregister), tab := u.tab.(capabilities := u.tab.capabilities - {svc}));
    assert DropCapsStep(u, v, 0) && DropsCurrent(cfg, u, v, svc);
  }
}
