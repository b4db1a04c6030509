/**
 * Capability provenance: a cached capability set was answered by the connection of the very generation whose probe
 * stored it, although the probe addresses its target by service name.
 */
module BusProbes {
  import opened Prelude
  import opened Frames
  import opened ServiceRegistry
  import opened BrokerTables
  import opened Connection
  import opened Bus
  import opened BusSteps
  import opened BusRegistration
  import opened BusCalls
  import opened BusSessions
  import opened BusReplies

  // ----- invariants ---------------------------------------------------------------------------------

  /** The connection a probe was spawned for. */
  predicate ProberOk(serves: seq<Serve>, k: Call) {
    k.origin.Probe? ==>
      && k.origin.conn < |serves|
      && var v := serves[k.origin.conn];
         EverPut(v) && v.generation == k.origin.generation && v.hello.Some? && v.hello.value.service == k.service
  }

  /** A probe that resolved to another generation belongs to a connection that has been replaced for good. */
  predicate MisroutedOk(s: State, k: Call) {
    k.origin.Probe? && k.entry.Some? && k.entry.value.generation != k.origin.generation ==> Retired(s, k.origin.conn)
  }

  /** What a probe is about to cache came from its own generation, or from a local service of the same name. */
  predicate VerdictOk(cfg: Config, k: Call) {
    k.pc == StoreCaps ==>
      && k.origin.Probe? && ProbeResult(cfg, k).Some?
      && (k.entry.Some? ==> k.entry.value.generation == k.origin.generation)
  }

  predicate LocalOk(localServices: set<string>, k: Call) {
    (k.pc == CheckCatalog || k.pc == RunLocal || (k.outcome.Some? && k.outcome.value.LocalAnswer?)) ==>
      k.service in localServices
  }

  predicate ProbeOk(cfg: Config, s: State, k: Call) {
    ProberOk(s.serves, k) && MisroutedOk(s, k) && VerdictOk(cfg, k) && LocalOk(s.tab.localServices, k)
  }

  ghost predicate ProbesOk(cfg: Config, s: State) {
    forall n :: 0 <= n < |s.calls| ==> ProbeOk(cfg, s, s.calls[n])
  }

  /** The probe that stored a cached set. */
  predicate CachedOk(cfg: Config, calls: seq<Call>, svc: string, c: Cached) {
    && c.storedBy < |calls|
    && var k := calls[c.storedBy];
       && k.origin.Probe? && k.service == svc && k.pc == Ended && ProbeResult(cfg, k) == Some(c.caps)
       && (k.entry.Some? ==> k.entry.value.generation == k.origin.generation)
  }

  ghost predicate CacheOk(cfg: Config, s: State) {
    forall svc :: svc in s.tab.capabilities ==> CachedOk(cfg, s.calls, svc, s.tab.capabilities[svc])
  }

  ghost predicate CapabilitiesOk(cfg: Config, s: State) {
    ProbesOk(cfg, s) && CacheOk(cfg, s)
  }

  // ----- how a step touches one call -----------------------------------------------------------------

  lemma KeptProbe(cfg: Config, s: State, t: State, step: Step, k: Call)
    requires Registered(s) && Next(cfg, s, t, step) && ProbeOk(cfg, s, k)
    requires s.tab.localServices <= t.tab.localServices
    ensures ProbeOk(cfg, t, k)
  {
    StepAdvances(cfg, s, t, step);
    if k.origin.Probe? && k.entry.Some? && k.entry.value.generation != k.origin.generation {
      RetiredForGood(cfg, s, t, step, k.origin.conn);
    }
  }

  lemma EntryProbe(cfg: Config, s: State, t: State, n: nat)
    requires Registered(s) && ProbesOk(cfg, s) && Aligned(s) && n < |s.calls| && EntryStep(s, t, n)
    requires LocalsOk(s.calls[n])
    ensures ProbeOk(cfg, s, t.calls[n])
  {
    var k := s.calls[n];
    assert ProbeOk(cfg, s, k);
    if k.service in s.reg.entries {
      assert EntryOk(s.serves, k.service, s.reg.entries[k.service]);
    }
  }

  /** The verdict: while its generation is the registered one, a probe cannot have been misrouted. */
  lemma VerifyProbe(cfg: Config, s: State, t: State, n: nat)
    requires Registered(s) && ProbesOk(cfg, s) && Aligned(s) && n < |s.calls| && VerifyProbeStep(cfg, s, t, n)
    ensures ProbeOk(cfg, s, t.calls[n])
  {
  }

  lemma OtherProbe(cfg: Config, s: State, t: State, n: nat, a: CallAct)
    requires CallNext(cfg, s, t, n, a) && !a.LookUpEntry? && !a.VerifyProbe? && ProbeOk(cfg, s, s.calls[n])
    requires LocalsOk(s.calls[n])
    ensures ProbeOk(cfg, s, t.calls[n])
  {
  }

  lemma CallProbe(cfg: Config, s: State, t: State, n: nat, a: CallAct)
    requires CallNext(cfg, s, t, n, a) && Registered(s) && ProbesOk(cfg, s) && CallsOk(s)
    ensures ProbeOk(cfg, s, t.calls[n])
  {
    assert LocalsOk(s.calls[n]);
    if a.LookUpEntry? {
      EntryProbe(cfg, s, t, n);
    } else if a.VerifyProbe? {
      VerifyProbe(cfg, s, t, n);
    } else {
      OtherProbe(cfg, s, t, n, a);
    }
  }

  // ----- a new call ----------------------------------------------------------------------------------

  /** Every call appended by a step of `serve` is fine: a probe is only spawned for an attached connection. */
  lemma Spawners(cfg: Config, s: State, t: State, i: nat, a: ServeAct)
    requires ServeNext(cfg, s, t, i, a) && |t.calls| > |s.calls|
    ensures a.StartProbing? || a.ReadInvoke?
  {
  }

  lemma SpawnedProbe(cfg: Config, s: State, t: State, i: nat, a: ServeAct)
    requires ServeNext(cfg, s, t, i, a) && (a.StartProbing? || a.ReadInvoke?) && Registered(s)
    ensures |t.calls| == |s.calls| + 1 && ProbeOk(cfg, s, t.calls[|s.calls|])
  {
  }

  // ----- preservation -----------------------------------------------------------------------------------

  predicate LocalsGrow(s: State, t: State) {
    s.tab.localServices <= t.tab.localServices
  }

  /** Cached capabilities are only dropped. */
  ghost predicate CacheShrinks(s: State, t: State) {
    forall svc :: svc in t.tab.capabilities ==>
      svc in s.tab.capabilities && t.tab.capabilities[svc] == s.tab.capabilities[svc]
  }

  lemma WritersKeepLocals(cfg: Config, s: State, t: State, i: nat, a: ServeAct)
    requires ServeNext(cfg, s, t, i, a) && WritesTables(a)
    ensures t.tab.localServices == s.tab.localServices
  {
  }

  lemma ServeLocals(cfg: Config, s: State, t: State, i: nat, a: ServeAct)
    requires ServeNext(cfg, s, t, i, a)
    ensures t.tab.localServices == s.tab.localServices
  {
    if WritesTables(a) {
      WritersKeepLocals(cfg, s, t, i, a);
    } else {
      OthersKeepTables(cfg, s, t, i, a);
    }
  }

  /** Within `serve`, only starting a probe and dropping the capabilities touch the cache. */
  lemma ServeCache(cfg: Config, s: State, t: State, i: nat, a: ServeAct)
    requires ServeNext(cfg, s, t, i, a) && WritesTables(a) && !a.StartProbing? && !a.DropCapabilities?
    ensures t.tab.capabilities == s.tab.capabilities
  {
  }

  lemma ServeForgets(cfg: Config, s: State, t: State, i: nat, a: ServeAct)
    requires ServeNext(cfg, s, t, i, a) && (a.StartProbing? || a.DropCapabilities?)
    ensures CacheShrinks(s, t)
  {
  }

  lemma CallCache(cfg: Config, s: State, t: State, n: nat, a: CallAct)
    requires CallNext(cfg, s, t, n, a)
    ensures t.tab.localServices == s.tab.localServices
    ensures !a.CacheProbe? ==> t.tab.capabilities == s.tab.capabilities
  {
  }

  lemma StepCacheEffect(cfg: Config, s: State, t: State, step: Step)
    requires Next(cfg, s, t, step)
    ensures LocalsGrow(s, t)
    ensures CacheShrinks(s, t) || (step.CallStep? && step.act.CacheProbe?)
  {
    match step
    case CallStep(n, a) => CallCache(cfg, s, t, n, a);
    case ServeStep(i, a) =>
      ServeLocals(cfg, s, t, i, a);
      if a.StartProbing? || a.DropCapabilities? {
        ServeForgets(cfg, s, t, i, a);
      } else if WritesTables(a) {
        ServeCache(cfg, s, t, i, a);
      } else {
        OthersKeepTables(cfg, s, t, i, a);
      }
    case _ => OutsideStep(cfg, s, t, step);
  }

  /** The call touched by the step is fine in the old tables. */
  lemma TouchedProbe(cfg: Config, s: State, t: State, step: Step, n: nat)
    requires Next(cfg, s, t, step) && Registered(s) && CallsOk(s) && ProbesOk(cfg, s)
    requires n == Touched(s, step) && n < |s.calls| && n < |t.calls|
    ensures ProbeOk(cfg, s, t.calls[n])
  {
    assert ProbeOk(cfg, s, s.calls[n]);
    if step.CallStep? {
      CallProbe(cfg, s, t, n, step.act);
    } else if step.ServeStep? && step.serve.WakeCaller? {
      WokenProbe(cfg, s, t, step.conn);
    } else {
      FirstCallKept(cfg, s, t, step);
    }
  }

  lemma WokenProbe(cfg: Config, s: State, t: State, i: nat)
    requires Aligned(s) && i < |s.serves| && WakeStep(s, t, i) && s.serves[i].pc.call < |s.calls|
    requires ProbeOk(cfg, s, s.calls[s.serves[i].pc.call]) && AllLocalsOk(s.calls)
    ensures s.serves[i].pc.call < |t.calls| && ProbeOk(cfg, s, t.calls[s.serves[i].pc.call])
  {
  }

  lemma FirstCallKept(cfg: Config, s: State, t: State, step: Step)
    requires Next(cfg, s, t, step) && !step.CallStep? && !(step.ServeStep? && step.serve.WakeCaller?)
    ensures |s.calls| > 0 && |t.calls| > 0 ==> t.calls[0] == s.calls[0]
  {
  }

  lemma AppendedProbe(cfg: Config, s: State, t: State, step: Step)
    requires Next(cfg, s, t, step) && Registered(s) && CallsOk(s) && CountersPositive(s) && |t.calls| > |s.calls|
    ensures ProbeOk(cfg, s, t.calls[|s.calls|])
  {
    StepCallEffect(cfg, s, t, step);
    match step
    case ServeStep(i, a) => Spawners(cfg, s, t, i, a); SpawnedProbe(cfg, s, t, i, a);
    case CallStep(n, a) => CallTask(cfg, s, t, n, a);
    case _ => OutsideStep(cfg, s, t, step);
  }

  lemma StepProbes(cfg: Config, s: State, t: State, step: Step)
    requires Next(cfg, s, t, step) && Registered(s) && CallsOk(s) && CountersPositive(s) && ProbesOk(cfg, s)
    ensures ProbesOk(cfg, t)
  {
    StepCallEffect(cfg, s, t, step);
    StepCacheEffect(cfg, s, t, step);
    var n := Touched(s, step);
    forall m | 0 <= m < |t.calls|
      ensures ProbeOk(cfg, t, t.calls[m])
    {
      if m >= |s.calls| {
        AppendedProbe(cfg, s, t, step);
      } else if m == n {
        TouchedProbe(cfg, s, t, step, n);
      } else {
        assert ProbeOk(cfg, s, s.calls[m]);
      }
      KeptProbe(cfg, s, t, step, t.calls[m]);
    }
  }

  lemma CachedKept(cfg: Config, s: State, t: State, svc: string, c: Cached)
    requires CachedOk(cfg, s.calls, svc, c) && CallsAdvance(s.calls, t.calls)
    ensures CachedOk(cfg, t.calls, svc, c)
  {
  }

  lemma CacheProbeCache(cfg: Config, s: State, t: State, n: nat)
    requires Aligned(s) && n < |s.calls| && CacheProbeStep(cfg, s, t, n) && CallsOk(s) && CapabilitiesOk(cfg, s)
    requires CallsAdvance(s.calls, t.calls)
    ensures CacheOk(cfg, t)
  {
  }

  lemma StepCache(cfg: Config, s: State, t: State, step: Step)
    requires Next(cfg, s, t, step) && Registered(s) && CallsOk(s) && CountersPositive(s) && CapabilitiesOk(cfg, s)
    ensures CacheOk(cfg, t)
  {
    StepCallEffect(cfg, s, t, step);
    EffectAdvances(s, t, Touched(s, step));
    StepCacheEffect(cfg, s, t, step);
    if step.CallStep? && step.act.CacheProbe? {
      CacheProbeCache(cfg, s, t, step.call);
    } else {
      forall svc | svc in t.tab.capabilities
        ensures CachedOk(cfg, t.calls, svc, t.tab.capabilities[svc])
      {
        CachedKept(cfg, s, t, svc, s.tab.capabilities[svc]);
      }
    }
  }

  // ----- what a cached set means ---------------------------------------------------------------------------

  /** The connection of the storing probe's own generation sent a Response, and the cached set is its parsed payload. */
  predicate AnsweredByProbed(cfg: Config, s: State, c: Cached) {
    && c.storedBy < |s.calls|
    && var k := s.calls[c.storedBy];
       && k.origin.Probe? && k.origin.conn < |s.serves|
       && s.serves[k.origin.conn].generation == k.origin.generation
       && k.outcome.Some? && k.outcome.value.Answered? && k.outcome.value.reply.Ok?
       && ReadReply(s.inbs, k.origin.conn, k.answeredAt, k.reqId, k.outcome.value.reply)
       && cfg.parse(k.outcome.value.reply.value) == Some(c.caps)
  }

  /** When no local service carries the name, a cached capability set is what its own generation answered. */
  lemma CapabilityProvenance(cfg: Config, s: State, svc: string)
    requires Aligned(s) && Registered(s) && CallsOk(s) && SessionsOk(s) && RepliesOk(s) && CapabilitiesOk(cfg, s)
    requires svc in s.tab.capabilities && svc !in s.tab.localServices
    ensures AnsweredByProbed(cfg, s, s.tab.capabilities[svc])
  {
    var c := s.tab.capabilities[svc];
    assert CachedOk(cfg, s.calls, svc, c);
    var k := s.calls[c.storedBy];
    assert ProbeOk(cfg, s, k) && LocalsOk(k) && TargetOk(s.serves, k) && SlotOk(k, s.sess, s.inbs);
    if k.outcome.value.Answered? {
      var i, j := k.origin.conn, k.entry.value.tx;
      assert s.serves[i].generation == s.serves[j].generation;
      assert i == j;
    }
  }

  // ----- services in the broker process --------------------------------------------------------------------

  /** The catalog is stored before the handler and neither is ever removed. */
  ghost predicate LocalCatalogsOk(s: State) {
    s.tab.localServices <= s.tab.localMethods.Keys
  }

  lemma WritersKeepCatalogs(cfg: Config, s: State, t: State, i: nat, a: ServeAct)
    requires ServeNext(cfg, s, t, i, a) && WritesTables(a)
    ensures t.tab.localMethods == s.tab.localMethods
  {
  }

  lemma CallKeepsCatalogs(cfg: Config, s: State, t: State, n: nat, a: CallAct)
    requires CallNext(cfg, s, t, n, a)
    ensures t.tab.localMethods == s.tab.localMethods
  {
  }

  lemma StepLocalCatalogs(cfg: Config, s: State, t: State, step: Step)
    requires Next(cfg, s, t, step) && LocalCatalogsOk(s)
    ensures LocalCatalogsOk(t)
  {
    match step
    case ServeStep(i, a) =>
      ServeLocals(cfg, s, t, i, a);
      if WritesTables(a) {
        WritersKeepCatalogs(cfg, s, t, i, a);
      } else {
        OthersKeepTables(cfg, s, t, i, a);
      }
    case CallStep(n, a) => CallCache(cfg, s, t, n, a); CallKeepsCatalogs(cfg, s, t, n, a);
    case HostStep(_) =>
    case WireStep(_, _) =>
    case AppStep(_, _) =>
  }

  /** So the arm that runs a local handler without consulting a catalog is never taken. */
  lemma LocalCallsAreGated(cfg: Config, s: State, t: State, n: nat)
    requires Aligned(s) && n < |s.calls| && LocalGateStep(s, t, n) && LocalCatalogsOk(s) && ProbesOk(cfg, s)
    ensures var k := s.calls[n];
            k.service in s.tab.localMethods
            && (t.calls[n].pc == RunLocal <==> Admissible(s.tab.localMethods[k.service], k.methodName, k.caller))
  {
  }
}
