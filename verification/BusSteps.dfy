/** What whole groups of steps leave alone; the invariants build on these summaries. */
module BusSteps {
  import opened Prelude
  import opened Frames
  import opened ServiceRegistry
  import opened BrokerTables
  import opened Connection
  import opened Bus

  // ----- host, stream and peer -------------------------------------------------------------------------

  /** The channel's log is untouched and it has not been opened. */
  predicate SameLog(a: Channel, b: Channel) {
    b.tags == a.tags && b.queued == a.queued && (b.open ==> a.open)
  }

  ghost predicate LogsStay(a: seq<Channel>, b: seq<Channel>) {
    && |a| <= |b|
    && (forall j :: 0 <= j < |a| ==> SameLog(a[j], b[j]))
    && (forall j :: |a| <= j < |b| ==> b[j] == NEW_CHANNEL)
  }

  ghost predicate NothingConsumed(a: seq<Inbound>, b: seq<Inbound>) {
    && |a| <= |b|
    && (forall j :: 0 <= j < |a| ==> b[j].consumed == a[j].consumed)
    && (forall j :: |a| <= j < |b| ==> b[j] == NEW_INBOUND)
  }

  ghost predicate SamePeers(a: seq<App>, b: seq<App>) {
    |a| <= |b| && forall j :: 0 <= j < |a| ==> (b[j].Managed? <==> a[j].Managed?)
  }

  /** A call the host has just started. */
  predicate HostCall(k: Call) {
    k == NewCall(Host, k.service, k.methodName, k.payload, k.caller, k.timeoutMs)
  }

  /** No task of the broker moves: at most a connection is accepted, a call started, or a table filled by the host. */
  ghost predicate Outside(s: State, t: State) {
    && Aligned(s) && Aligned(t)
    && (t.serves == s.serves || t.serves == s.serves + [NEW_SERVE])
    && (t.sess == s.sess || t.sess == s.sess + [NEW_SESSION])
    && (t.calls == s.calls
        || (|t.calls| == |s.calls| + 1 && t.calls == s.calls + [t.calls[|s.calls|]] && HostCall(t.calls[|s.calls|])))
    && t.reg == s.reg && t.tab.sessions == s.tab.sessions && t.tab.subscriptions == s.tab.subscriptions
    && t.tab.capabilities == s.tab.capabilities && s.tab.localServices <= t.tab.localServices
    && LogsStay(s.chans, t.chans) && NothingConsumed(s.inbs, t.inbs) && SamePeers(s.apps, t.apps)
  }

  lemma HostOutside(s: State, t: State, a: HostAct)
    requires HostNext(s, t, a)
    ensures Outside(s, t)
  {
  }

  lemma WireOutside(s: State, t: State, i: nat, a: WireAct)
    requires WireNext(s, t, i, a)
    ensures Outside(s, t)
  {
  }

  lemma AppOutside(s: State, t: State, i: nat, a: AppAct)
    requires AppNext(s, t, i, a)
    ensures Outside(s, t)
  {
  }

  lemma OutsideStep(cfg: Config, s: State, t: State, step: Step)
    requires Next(cfg, s, t, step) && !step.ServeStep? && !step.CallStep?
    ensures Outside(s, t)
  {
    match step
    case HostStep(a) => HostOutside(s, t, a);
    case WireStep(i, a) => WireOutside(s, t, i, a);
    case AppStep(i, a) => AppOutside(s, t, i, a);
  }

  // ----- calls ---------------------------------------------------------------------------------------------

  /** A step of call `n` changes that call, and of the rest only a pending table, a log or the capability cache. */
  ghost predicate OneCall(s: State, t: State, n: nat) {
    && Aligned(s) && Aligned(t) && n < |s.calls| && |t.calls| == |s.calls| && t.calls == s.calls[n := t.calls[n]]
    && t.serves == s.serves && t.inbs == s.inbs && t.apps == s.apps && t.reg == s.reg && t.iss == s.iss
    && t.tab.(capabilities := s.tab.capabilities) == s.tab
  }

  lemma CallTask(cfg: Config, s: State, t: State, n: nat, a: CallAct)
    requires CallNext(cfg, s, t, n, a)
    ensures OneCall(s, t, n)
  {
  }

  /** Registry and session table stay, and so does every `serve` task; a connection may be accepted. */
  predicate ServesKept(s: State, t: State) {
    && t.reg == s.reg && t.tab.sessions == s.tab.sessions && t.tab.subscriptions == s.tab.subscriptions
    && (t.serves == s.serves || t.serves == s.serves + [NEW_SERVE])
  }

  lemma TasksStay(cfg: Config, s: State, t: State, step: Step)
    requires Next(cfg, s, t, step) && !step.ServeStep?
    ensures ServesKept(s, t)
  {
    match step
    case CallStep(n, a) => CallTask(cfg, s, t, n, a);
    case _ => OutsideStep(cfg, s, t, step);
  }

  // ----- `serve` -----------------------------------------------------------------------------------------

  /** A step of `serve` changes one task, at most one inbound stream, and no peer. */
  ghost predicate OneTask(s: State, t: State, i: nat) {
    && Aligned(s) && Aligned(t) && i < |s.serves| && |t.serves| == |s.serves| && t.apps == s.apps
    && t.serves == s.serves[i := t.serves[i]]
    && (t.inbs == s.inbs || (s.inbs[i].stream != [] && t.inbs == s.inbs[i := Consume(s.inbs[i])]))
  }

  predicate ReadAct(a: ServeAct) {
    a.ReadHello? || a.ReadResponse? || a.ReadPublish? || a.ReadSubscription? || a.ReadInvoke? || a.ReadIgnored?
  }

  lemma ReaderStep(cfg: Config, s: State, t: State, i: nat, a: ServeAct)
    requires ServeNext(cfg, s, t, i, a) && ReadAct(a)
    ensures OneTask(s, t, i) && s.inbs[i].stream != [] && t.inbs == s.inbs[i := Consume(s.inbs[i])]
  {
  }

  lemma QuietStep(cfg: Config, s: State, t: State, i: nat, a: ServeAct)
    requires ServeNext(cfg, s, t, i, a) && !ReadAct(a)
    ensures OneTask(s, t, i) && t.inbs == s.inbs
  {
  }

  predicate WritesTables(a: ServeAct) {
    a.SpendHelloToken? || a.IdentifyClient? || a.AttachSession? || a.StartProbing? || a.ReadSubscription?
    || a.DetachSession? || a.DropCapabilities?
  }

  lemma OthersKeepTables(cfg: Config, s: State, t: State, i: nat, a: ServeAct)
    requires ServeNext(cfg, s, t, i, a) && !WritesTables(a)
    ensures t.tab == s.tab
  {
  }

  lemma ServeTask(cfg: Config, s: State, t: State, i: nat, a: ServeAct)
    requires ServeNext(cfg, s, t, i, a)
    ensures OneTask(s, t, i)
    ensures t.inbs == if ReadAct(a) && s.inbs[i].stream != [] then s.inbs[i := Consume(s.inbs[i])] else s.inbs
    ensures ReadAct(a) ==> s.inbs[i].stream != []
  {
    if ReadAct(a) {
      ReaderStep(cfg, s, t, i, a);
    } else {
      QuietStep(cfg, s, t, i, a);
    }
  }
}
