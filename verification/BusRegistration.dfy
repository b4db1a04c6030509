/**
 * Registry and session table under every interleaving: generations are never shared, an entry or session
 * belongs to exactly the `serve` task that wrote it, and nothing leaks.
 */
module BusRegistration {
  import opened Prelude
  import opened Frames
  import opened ServiceRegistry
  import opened BrokerTables
  import opened Connection
  import opened Bus
  import opened BusSteps

  // ----- invariants -------------------------------------------------------------------

  predicate ServeOk(v: Serve) {
    match PhaseOf(v.pc)
    case Unknown => v.generation == 0 && v.hello.None?
    case Greeted => v.generation == 0 && v.hello.Some?
    case Gone => v.generation > 0 ==> v.hello.Some?
    case _ => v.generation > 0 && v.hello.Some?
  }

  ghost predicate StagesOk(serves: seq<Serve>, reg: RegistryState) {
    forall i :: 0 <= i < |serves| ==> ServeOk(serves[i]) && serves[i].generation <= reg.nextGen
  }

  ghost predicate UniqueGenerations(serves: seq<Serve>) {
    forall i, j :: 0 <= i < j < |serves| && serves[i].generation > 0 ==>
      serves[i].generation != serves[j].generation
  }

  /** The registered entry of a service was written by a `serve` task that has not unregistered yet. */
  predicate EntryOk(serves: seq<Serve>, service: string, e: ServiceEntry) {
    && e.tx < |serves|
    && var v := serves[e.tx];
       && v.generation == e.generation > 0
       && v.hello.Some? && v.hello.value.service == service == e.service
       && v.hello.value.methods == e.methods && v.hello.value.pid == e.pid && v.hello.value.dataPlane == e.dataPlane
       && (PhaseOf(v.pc).Published? || PhaseOf(v.pc).Attached?)
  }

  ghost predicate EntriesOk(serves: seq<Serve>, reg: RegistryState) {
    forall svc :: svc in reg.entries ==> EntryOk(serves, svc, reg.entries[svc])
  }

  predicate SessionOk(serves: seq<Serve>, key: SessionKey, j: nat) {
    && j < |serves|
    && serves[j].hello.Some? && key == KeyOf(serves[j]) && PhaseOf(serves[j].pc).Attached?
  }

  /** The session table is exactly the attached `serve` tasks. */
  ghost predicate SessionsExact(serves: seq<Serve>, sessions: map<SessionKey, nat>) {
    && (forall key :: key in sessions ==> SessionOk(serves, key, sessions[key]))
    && (forall i :: 0 <= i < |serves| && PhaseOf(serves[i].pc).Attached? ==>
          serves[i].hello.Some? && KeyOf(serves[i]) in sessions && sessions[KeyOf(serves[i])] == i)
  }

  ghost predicate RegistrationInv(serves: seq<Serve>, reg: RegistryState, sessions: map<SessionKey, nat>) {
    && StagesOk(serves, reg) && UniqueGenerations(serves)
    && EntriesOk(serves, reg) && SessionsExact(serves, sessions)
  }

  ghost predicate Registered(s: State) {
    RegistrationInv(s.serves, s.reg, s.tab.sessions)
  }

  // ----- one task moves on ---------------------------------------------------------------

  predicate SamePhase(v: Serve, w: Serve) {
    w.hello == v.hello && w.generation == v.generation && PhaseOf(w.pc) == PhaseOf(v.pc)
  }

  /** A task that has no generation yet and will not have one after the move. */
  predicate Unnumbered(v: Serve, w: Serve) {
    && (PhaseOf(v.pc).Unknown? || PhaseOf(v.pc).Greeted?)
    && (v.hello.Some? ==> w.hello == v.hello)
    && w.generation == 0 && ServeOk(w) && (PhaseOf(w.pc).Greeted? || PhaseOf(w.pc).Gone?)
  }

  predicate Moves(v: Serve, w: Serve) {
    SamePhase(v, w) || Unnumbered(v, w)
  }

  lemma MoveEntries(serves: seq<Serve>, reg: RegistryState, i: nat, w: Serve)
    requires EntriesOk(serves, reg) && StagesOk(serves, reg) && i < |serves| && Moves(serves[i], w)
    ensures EntriesOk(serves[i := w], reg)
  {
  }

  lemma MoveSessions(serves: seq<Serve>, sessions: map<SessionKey, nat>, i: nat, w: Serve)
    requires SessionsExact(serves, sessions) && i < |serves| && Moves(serves[i], w)
    ensures SessionsExact(serves[i := w], sessions)
  {
  }

  lemma MoveStages(serves: seq<Serve>, reg: RegistryState, i: nat, w: Serve)
    requires StagesOk(serves, reg) && UniqueGenerations(serves) && i < |serves| && Moves(serves[i], w)
    ensures StagesOk(serves[i := w], reg) && UniqueGenerations(serves[i := w])
  {
  }

  /** The step changes at most the task of connection `i`, and only within the limits of `Moves`. */
  ghost predicate MoveStep(s: State, t: State, i: nat) {
    && i < |s.serves| && i < |t.serves|
    && t.serves == s.serves[i := t.serves[i]] && Moves(s.serves[i], t.serves[i])
    && t.reg == s.reg && t.tab.sessions == s.tab.sessions
  }

  lemma KeptByMove(s: State, t: State, i: nat)
    requires Registered(s) && MoveStep(s, t, i)
    ensures Registered(t)
  {
    MoveEntries(s.serves, s.reg, i, t.serves[i]);
    MoveSessions(s.serves, s.tab.sessions, i, t.serves[i]);
    MoveStages(s.serves, s.reg, i, t.serves[i]);
  }

  predicate HelloMove(a: ServeAct) {
    a.ReadHello? || a.HelloEnded?
  }

  predicate AdmitMove(a: ServeAct) {
    a.SpendHelloToken? || a.IdentifyClient?
  }

  predicate StageMove(a: ServeAct) {
    a.AckWritten? || a.AckLost? || a.StartProbing? || a.StreamEnded?
  }

  predicate LeaveMove(a: ServeAct) {
    a.CheckStale? || a.DropCapabilities? || a.ReturnFromServe?
  }

  predicate ReadMove(a: ServeAct) {
    a.ReadResponse? || a.ReadPublish? || a.ReadSubscription? || a.ReadInvoke? || a.ReadIgnored?
  }

  predicate FanMove(a: ServeAct) {
    a.WakeCaller? || a.TakeSnapshot? || a.LookUpSubscriber? || a.QueueEvent?
  }

  /** The five steps that write registry or session table. */
  predicate WriteMove(a: ServeAct) {
    a.NumberEntry? || a.PublishEntry? || a.AttachSession? || a.DetachSession? || a.UnpublishEntry?
  }

  lemma HelloMoves(cfg: Config, s: State, t: State, i: nat, a: ServeAct)
    requires ServeNext(cfg, s, t, i, a) && HelloMove(a) && ServeOk(s.serves[i])
    ensures MoveStep(s, t, i)
  {
  }

  lemma AdmitMoves(cfg: Config, s: State, t: State, i: nat, a: ServeAct)
    requires ServeNext(cfg, s, t, i, a) && AdmitMove(a) && ServeOk(s.serves[i])
    ensures MoveStep(s, t, i)
  {
  }

  lemma StageMoves(cfg: Config, s: State, t: State, i: nat, a: ServeAct)
    requires ServeNext(cfg, s, t, i, a) && StageMove(a)
    ensures MoveStep(s, t, i)
  {
  }

  lemma LeaveMoves(cfg: Config, s: State, t: State, i: nat, a: ServeAct)
    requires ServeNext(cfg, s, t, i, a) && LeaveMove(a)
    ensures MoveStep(s, t, i)
  {
  }

  lemma ReadMoves(cfg: Config, s: State, t: State, i: nat, a: ServeAct)
    requires ServeNext(cfg, s, t, i, a) && ReadMove(a)
    ensures MoveStep(s, t, i)
  {
  }

  lemma FanMoves(cfg: Config, s: State, t: State, i: nat, a: ServeAct)
    requires ServeNext(cfg, s, t, i, a) && FanMove(a)
    ensures MoveStep(s, t, i)
  {
  }

  // ----- the five steps that write registry or session table ---------------------------------

  lemma NumberRegistration(s: State, t: State, i: nat)
    requires Registered(s) && Aligned(s) && i < |s.serves| && NumberStep(s, t, i)
    ensures Registered(t)
  {
    assert EntriesOk(t.serves, t.reg);
  }

  lemma PutEntryOk(serves: seq<Serve>, reg: RegistryState, i: nat, w: Serve)
    requires EntriesOk(serves, reg) && i < |serves| && serves[i].hello.Some? && serves[i].generation > 0
    requires PhaseOf(serves[i].pc).Numbered? && w == serves[i].(pc := WriteAck)
    ensures EntriesOk(serves[i := w], PutEntry(reg, EntryOf(i, serves[i])))
  {
  }

  lemma PublishRegistration(s: State, t: State, i: nat)
    requires Registered(s) && Aligned(s) && i < |s.serves| && PublishStep(s, t, i)
    ensures Registered(t)
  {
    PutEntryOk(s.serves, s.reg, i, t.serves[i]);
  }

  lemma AttachSessionOk(serves: seq<Serve>, sessions: map<SessionKey, nat>, i: nat, w: Serve)
    requires SessionsExact(serves, sessions) && UniqueGenerations(serves) && i < |serves|
    requires serves[i].hello.Some? && serves[i].generation > 0 && w == serves[i].(pc := BeginProbe)
    requires PhaseOf(serves[i].pc).Published?
    ensures SessionsExact(serves[i := w], sessions[KeyOf(serves[i]) := i])
  {
  }

  lemma AttachRegistration(s: State, t: State, i: nat)
    requires Registered(s) && Aligned(s) && i < |s.serves| && AttachStep(s, t, i)
    ensures Registered(t)
  {
    assert ServeOk(s.serves[i]);
    PlaceKept(s.serves, s.reg, i, t.serves[i]);
    AttachSessionOk(s.serves, s.tab.sessions, i, t.serves[i]);
  }

  lemma DetachSessionOk(serves: seq<Serve>, sessions: map<SessionKey, nat>, i: nat, w: Serve)
    requires SessionsExact(serves, sessions) && i < |serves|
    requires PhaseOf(serves[i].pc).Attached? && serves[i].hello.Some? && w == serves[i].(pc := DetachCheck)
    ensures SessionsExact(serves[i := w], sessions - {KeyOf(serves[i])})
  {
  }

  /** A task that stays registered keeps every entry as it is. */
  lemma PlaceKept(serves: seq<Serve>, reg: RegistryState, i: nat, w: Serve)
    requires StagesOk(serves, reg) && UniqueGenerations(serves) && EntriesOk(serves, reg) && i < |serves|
    requires w.hello == serves[i].hello && w.generation == serves[i].generation && ServeOk(w)
    requires PhaseOf(w.pc).Published? || PhaseOf(w.pc).Attached?
    ensures StagesOk(serves[i := w], reg) && UniqueGenerations(serves[i := w]) && EntriesOk(serves[i := w], reg)
  {
  }

  lemma DetachRegistration(s: State, t: State, i: nat)
    requires Registered(s) && Aligned(s) && i < |s.serves| && DetachStep(s, t, i)
    ensures Registered(t)
  {
    assert ServeOk(s.serves[i]);
    PlaceKept(s.serves, s.reg, i, t.serves[i]);
    DetachSessionOk(s.serves, s.tab.sessions, i, t.serves[i]);
  }

  lemma RemoveEntryOk(serves: seq<Serve>, reg: RegistryState, i: nat, w: Serve)
    requires EntriesOk(serves, reg) && UniqueGenerations(serves) && i < |serves|
    requires serves[i].hello.Some? && serves[i].generation > 0 && w == serves[i].(pc := Closing)
    ensures EntriesOk(serves[i := w], RemoveIf(reg, serves[i].hello.value.service, serves[i].generation))
  {
  }

  lemma UnpublishRegistration(s: State, t: State, i: nat)
    requires Registered(s) && Aligned(s) && i < |s.serves| && UnpublishStep(s, t, i)
    ensures Registered(t)
  {
    RemoveEntryOk(s.serves, s.reg, i, t.serves[i]);
  }

  // ----- preservation ------------------------------------------------------------------------

  lemma KeptRegistration(s: State, t: State)
    requires Registered(s) && ServesKept(s, t)
    ensures Registered(t)
  {
  }

  lemma ServeRegistration(cfg: Config, s: State, t: State, i: nat, a: ServeAct)
    requires Registered(s) && ServeNext(cfg, s, t, i, a)
    ensures Registered(t)
  {
    if {
      case HelloMove(a) => HelloMoves(cfg, s, t, i, a); KeptByMove(s, t, i);
      case AdmitMove(a) => AdmitMoves(cfg, s, t, i, a); KeptByMove(s, t, i);
      case StageMove(a) => StageMoves(cfg, s, t, i, a); KeptByMove(s, t, i);
      case LeaveMove(a) => LeaveMoves(cfg, s, t, i, a); KeptByMove(s, t, i);
      case ReadMove(a) => ReadMoves(cfg, s, t, i, a); KeptByMove(s, t, i);
      case FanMove(a) => FanMoves(cfg, s, t, i, a); KeptByMove(s, t, i);
      case a.NumberEntry? => NumberRegistration(s, t, i);
      case a.PublishEntry? => PublishRegistration(s, t, i);
      case a.AttachSession? => AttachRegistration(s, t, i);
      case a.DetachSession? => DetachRegistration(s, t, i);
      case a.UnpublishEntry? => UnpublishRegistration(s, t, i);
    }
  }

  lemma StepRegistration(cfg: Config, s: State, t: State, step: Step)
    requires Registered(s) && Next(cfg, s, t, step)
    ensures Registered(t)
  {
    match step
    case ServeStep(i, a) => ServeRegistration(cfg, s, t, i, a);
    case _ => TasksStay(cfg, s, t, step); KeptRegistration(s, t);
  }

  // ----- what a task has fixed stays fixed ----------------------------------------------------

  predicate Advances(v: Serve, w: Serve) {
    && (v.hello.Some? ==> w.hello == v.hello)
    && (v.generation > 0 ==> w.generation == v.generation)
    && (EverPut(v) ==> EverPut(w))
  }

  ghost predicate ServesAdvance(a: seq<Serve>, b: seq<Serve>) {
    |a| <= |b| && forall i :: 0 <= i < |a| ==> Advances(a[i], b[i])
  }

  lemma WriteAdvances(cfg: Config, s: State, t: State, i: nat, a: ServeAct)
    requires ServeNext(cfg, s, t, i, a) && StagesOk(s.serves, s.reg) && WriteMove(a)
    ensures ServesAdvance(s.serves, t.serves)
  {
  }

  lemma MoveAdvances(s: State, t: State, i: nat)
    requires MoveStep(s, t, i) && StagesOk(s.serves, s.reg)
    ensures ServesAdvance(s.serves, t.serves)
  {
  }

  lemma ServeAdvances(cfg: Config, s: State, t: State, i: nat, a: ServeAct)
    requires ServeNext(cfg, s, t, i, a) && StagesOk(s.serves, s.reg)
    ensures ServesAdvance(s.serves, t.serves)
  {
    assert ServeOk(s.serves[i]);
    if WriteMove(a) {
      WriteAdvances(cfg, s, t, i, a);
    } else {
      if {
        case HelloMove(a) => HelloMoves(cfg, s, t, i, a);
        case AdmitMove(a) => AdmitMoves(cfg, s, t, i, a);
        case StageMove(a) => StageMoves(cfg, s, t, i, a);
        case LeaveMove(a) => LeaveMoves(cfg, s, t, i, a);
        case ReadMove(a) => ReadMoves(cfg, s, t, i, a);
        case FanMove(a) => FanMoves(cfg, s, t, i, a);
      }
      MoveAdvances(s, t, i);
    }
  }

  lemma StepAdvances(cfg: Config, s: State, t: State, step: Step)
    requires Registered(s) && Next(cfg, s, t, step)
    ensures ServesAdvance(s.serves, t.serves)
  {
    match step
    case ServeStep(i, a) => ServeAdvances(cfg, s, t, i, a);
    case _ => TasksStay(cfg, s, t, step);
  }

  /** The point of `serve` at which an act is taken, and the least point it leads to. */
  function FromRank(a: ServeAct): nat {
    match a
    case ReadHello => 0
    case HelloEnded => 0
    case SpendHelloToken => 1
    case IdentifyClient => 2
    case NumberEntry => 3
    case PublishEntry => 4
    case AckWritten => 5
    case AckLost => 5
    case AttachSession => 6
    case StartProbing => 7
    case DetachSession => 9
    case CheckStale => 10
    case DropCapabilities => 11
    case UnpublishEntry => 12
    case ReturnFromServe => 13
    case _ => 8
  }

  function ToRank(a: ServeAct): nat {
    if a.HelloEnded? then 13
    else if a.AckLost? then 12
    else if FromRank(a) != 8 || a.StreamEnded? then FromRank(a) + 1
    else 8
  }

  /** `serve` only moves forward. */
  lemma ServeFrom(cfg: Config, s: State, t: State, i: nat, a: ServeAct)
    requires ServeNext(cfg, s, t, i, a)
    ensures Rank(s.serves[i].pc) == FromRank(a)
  {
  }

  lemma ServeTo(cfg: Config, s: State, t: State, i: nat, a: ServeAct)
    requires ServeNext(cfg, s, t, i, a)
    ensures i < |t.serves| && Rank(t.serves[i].pc) >= ToRank(a)
  {
    if FromRank(a) == 8 {
      LoopTo(cfg, s, t, i, a);
    } else if FromRank(a) < 5 {
      HelloTo(cfg, s, t, i, a);
    } else if FromRank(a) < 8 {
      StageTo(cfg, s, t, i, a);
    } else {
      LeaveTo(cfg, s, t, i, a);
    }
  }

  lemma LoopTo(cfg: Config, s: State, t: State, i: nat, a: ServeAct)
    requires ServeNext(cfg, s, t, i, a) && FromRank(a) == 8
    ensures i < |t.serves| && Rank(t.serves[i].pc) >= 8 && (a.StreamEnded? ==> Rank(t.serves[i].pc) == 9)
  {
  }

  lemma HelloTo(cfg: Config, s: State, t: State, i: nat, a: ServeAct)
    requires ServeNext(cfg, s, t, i, a) && FromRank(a) < 5
    ensures i < |t.serves| && Rank(t.serves[i].pc) >= ToRank(a)
  {
  }

  lemma StageTo(cfg: Config, s: State, t: State, i: nat, a: ServeAct)
    requires ServeNext(cfg, s, t, i, a) && 5 <= FromRank(a) < 8
    ensures i < |t.serves| && Rank(t.serves[i].pc) >= ToRank(a)
  {
  }

  lemma LeaveTo(cfg: Config, s: State, t: State, i: nat, a: ServeAct)
    requires ServeNext(cfg, s, t, i, a) && FromRank(a) > 8
    ensures i < |t.serves| && Rank(t.serves[i].pc) > FromRank(a)
  {
  }

  // ----- no ABA on generations ------------------------------------------------------------------

  /** Connection `i` is the one currently registered under its service name. */
  predicate Current(s: State, i: nat) {
    && i < |s.serves| && s.serves[i].hello.Some?
    && var svc := s.serves[i].hello.value.service;
       svc in s.reg.entries && s.reg.entries[svc].tx == i
  }

  /** Connection `i` has been registered once and no longer is. */
  predicate Retired(s: State, i: nat) {
    i < |s.serves| && EverPut(s.serves[i]) && !Current(s, i)
  }

  predicate SameService(s: State, i: nat, j: nat) {
    && i < |s.serves| && j < |s.serves| && s.serves[i].hello.Some? && s.serves[j].hello.Some?
    && s.serves[i].hello.value.service == s.serves[j].hello.value.service
  }

  /** The registry and the hello of every greeted connection, seen by the two lemmas below. */
  lemma RegistryChange(cfg: Config, s: State, t: State, i: nat, a: ServeAct)
    requires ServeNext(cfg, s, t, i, a)
    ensures t.reg.entries == s.reg.entries || a.PublishEntry? || a.UnpublishEntry?
  {
  }

  /** A generation that has stopped being the registered one never becomes it again, whatever step is taken. */
  lemma RetiredForGood(cfg: Config, s: State, t: State, step: Step, i: nat)
    requires Registered(s) && Next(cfg, s, t, step) && Retired(s, i)
    ensures Retired(t, i)
  {
    match step
    case ServeStep(j, a) => ServeRetires(cfg, s, t, j, a, i);
    case _ => TasksStay(cfg, s, t, step);
  }

  lemma ServeRetires(cfg: Config, s: State, t: State, j: nat, a: ServeAct, i: nat)
    requires Registered(s) && ServeNext(cfg, s, t, j, a) && Retired(s, i)
    ensures Retired(t, i)
  {
    ServeAdvances(cfg, s, t, j, a);
    ServeRegistration(cfg, s, t, j, a);
    RegistryChange(cfg, s, t, j, a);
  }

  /** The registered connection loses its entry only to its own teardown or to a successor of the same service. */
  lemma EntryLostOnlyToOwnerOrSuccessor(cfg: Config, s: State, t: State, step: Step, i: nat)
    requires Registered(s) && Next(cfg, s, t, step) && Current(s, i) && !Current(t, i)
    ensures step.ServeStep?
    ensures step.serve.UnpublishEntry? ==> step.conn == i
    ensures !step.serve.UnpublishEntry? ==> step.serve.PublishEntry? && step.conn != i && SameService(s, i, step.conn)
  {
    match step
    case ServeStep(j, a) => ServeLosesEntry(cfg, s, t, j, a, i);
    case _ => TasksStay(cfg, s, t, step);
  }

  lemma ServeLosesEntry(cfg: Config, s: State, t: State, j: nat, a: ServeAct, i: nat)
    requires Registered(s) && ServeNext(cfg, s, t, j, a) && Current(s, i) && !Current(t, i)
    ensures a.UnpublishEntry? ==> j == i
    ensures !a.UnpublishEntry? ==> a.PublishEntry? && j != i && SameService(s, i, j)
  {
    ServeAdvances(cfg, s, t, j, a);
    RegistryChange(cfg, s, t, j, a);
  }

  lemma UnattachedKey(s: State, i: nat)
    requires Registered(s) && i < |s.serves| && s.serves[i].hello.Some? && s.serves[i].generation > 0
    requires !PhaseOf(s.serves[i].pc).Attached?
    ensures KeyOf(s.serves[i]) !in s.tab.sessions
  {
  }

  /** An attached session disappears only by its own connection's `detach_session`. */
  lemma SessionLostOnlyToOwner(cfg: Config, s: State, t: State, step: Step, key: SessionKey)
    requires Registered(s) && Next(cfg, s, t, step) && key in s.tab.sessions
    requires key !in t.tab.sessions || t.tab.sessions[key] != s.tab.sessions[key]
    ensures step == ServeStep(s.tab.sessions[key], DetachSession)
  {
    match step
    case ServeStep(i, a) =>
      if a.AttachSession? {
        UnattachedKey(s, i);
      } else if !a.DetachSession? {
        SessionsUntouched(cfg, s, t, i, a);
      }
    case _ => TasksStay(cfg, s, t, step);
  }

  /** Within `serve`, only attaching and detaching write the session table. */
  lemma SessionsUntouched(cfg: Config, s: State, t: State, i: nat, a: ServeAct)
    requires ServeNext(cfg, s, t, i, a) && !a.AttachSession? && !a.DetachSession?
    ensures t.tab.sessions == s.tab.sessions
  {
    if !WritesTables(a) {
      OthersKeepTables(cfg, s, t, i, a);
    }
  }

  /** Once every `serve` task is past its teardown, both tables are empty. */
  lemma NothingLeaks(s: State)
    requires Registered(s) && forall i :: 0 <= i < |s.serves| ==> PhaseOf(s.serves[i].pc).Gone?
    ensures s.reg.entries == map[] && s.tab.sessions == map[]
  {
  }
}
