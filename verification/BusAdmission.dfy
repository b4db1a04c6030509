/**
 * Admission: every accepted Hello spends one placed token, the latest of its service, and no token string admits twice.
 */
module BusAdmission {
  import opened Prelude
  import opened Frames
  import opened BrokerTables
  import opened Connection
  import opened Tokens
  import opened Bus
  import opened BusRegistration

  // ----- invariants -------------------------------------------------------------------------------

  /** The token minted under counter value `k`. */
  predicate MintOk(m: Mint, k: nat) {
    m.ns < U64_LIMIT && m.pid < U32_LIMIT && m.text == TokenString(m.ns, m.pid, k)
  }

  ghost predicate MintsOk(iss: Issuance) {
    && |iss.minted| <= U64_LIMIT
    && (forall k :: 0 <= k < |iss.minted| ==> MintOk(iss.minted[k], k))
    && (forall k :: k in iss.unplaced ==> k < |iss.minted|)
  }

  ghost predicate PlacedOk(iss: Issuance) {
    && (forall x :: 0 <= x < |iss.placed| ==>
          iss.placed[x].ticket < |iss.minted| && iss.placed[x].ticket !in iss.unplaced)
    && (forall x, y :: 0 <= x < y < |iss.placed| ==> iss.placed[x].ticket != iss.placed[y].ticket)
  }

  /** Placement `x` is the most recent one for the service. */
  ghost predicate Latest(iss: Issuance, service: string, x: nat) {
    && x < |iss.placed| && iss.placed[x].service == service
    && forall y :: x < y < |iss.placed| ==> iss.placed[y].service != service
  }

  ghost predicate LiveOk(iss: Issuance, tokens: map<string, string>, service: string)
    requires service in iss.live
  {
    && Latest(iss, service, iss.live[service])
    && service in tokens
    && iss.placed[iss.live[service]].ticket < |iss.minted|
    && tokens[service] == iss.minted[iss.placed[iss.live[service]].ticket].text
  }

  ghost predicate TokensOk(iss: Issuance, tokens: map<string, string>) {
    && tokens.Keys == iss.live.Keys
    && forall service :: service in iss.live ==> LiveOk(iss, tokens, service)
  }

  /** A connection past the token check holds the placement it spent; one waiting for it speaks our major version. */
  predicate TicketOk(iss: Issuance, v: Serve) {
    && (2 <= Rank(v.pc) <= 12 ==> v.ticket.Some?)
    && (v.pc == CheckToken ==> v.hello.Some? && v.hello.value.protocol.major == CURRENT.major)
    && (Rank(v.pc) <= 1 ==> v.ticket.None?)
    && (v.ticket.Some? ==>
          && v.hello.Some? && v.ticket.value < |iss.placed|
          && var p := iss.placed[v.ticket.value];
             && p.service == v.hello.value.service && p.ticket < |iss.minted|
             && v.hello.value.authToken == iss.minted[p.ticket].text)
  }

  ghost predicate TicketsOk(iss: Issuance, serves: seq<Serve>) {
    forall i :: 0 <= i < |serves| ==> TicketOk(iss, serves[i])
  }

  /** A spent placement is neither live nor held twice. */
  ghost predicate SpentOnce(iss: Issuance, serves: seq<Serve>) {
    && (forall i, j :: 0 <= i < j < |serves| && serves[i].ticket.Some? ==> serves[j].ticket != serves[i].ticket)
    && (forall i, svc :: 0 <= i < |serves| && svc in iss.live ==> serves[i].ticket != Some(iss.live[svc]))
  }

  ghost predicate AdmissionOk(s: State) {
    && MintsOk(s.iss) && PlacedOk(s.iss) && TokensOk(s.iss, s.tab.tokens)
    && TicketsOk(s.iss, s.serves) && SpentOnce(s.iss, s.serves)
  }

  // ----- minting and placing -----------------------------------------------------------------------

  lemma MintAdmission(s: State, t: State, ns: nat, pid: nat)
    requires AdmissionOk(s) && HostNext(s, t, MintToken(ns, pid))
    ensures AdmissionOk(t)
  {
    forall service | service in t.iss.live
      ensures LiveOk(t.iss, t.tab.tokens, service)
    {
      assert LiveOk(s.iss, s.tab.tokens, service);
    }
  }

  lemma PlacedLive(iss: Issuance, tokens: map<string, string>, service: string, ticket: nat, token: string, svc: string)
    requires svc in iss.live && LiveOk(iss, tokens, svc) && svc != service
    ensures var after := iss.(unplaced := iss.unplaced - {ticket}, live := iss.live[service := |iss.placed|],
                              placed := iss.placed + [Placement(service, ticket)]);
            LiveOk(after, tokens[service := token], svc)
  {
  }

  lemma PlaceMints(s: State, t: State, service: string, ticket: nat)
    requires AdmissionOk(s) && HostNext(s, t, PlaceToken(service, ticket))
    ensures MintsOk(t.iss) && PlacedOk(t.iss)
  {
  }

  lemma PlaceTokens(s: State, t: State, service: string, ticket: nat)
    requires AdmissionOk(s) && HostNext(s, t, PlaceToken(service, ticket))
    ensures TokensOk(t.iss, t.tab.tokens)
  {
    forall svc | svc in t.iss.live
      ensures LiveOk(t.iss, t.tab.tokens, svc)
    {
      if svc != service {
        PlacedLive(s.iss, s.tab.tokens, service, ticket, s.iss.minted[ticket].text, svc);
      }
    }
  }

  lemma PlaceTickets(s: State, t: State, service: string, ticket: nat)
    requires AdmissionOk(s) && HostNext(s, t, PlaceToken(service, ticket))
    ensures TicketsOk(t.iss, t.serves) && SpentOnce(t.iss, t.serves)
  {
  }

  // ----- spending -----------------------------------------------------------------------------------

  lemma SpendTokens(s: State, t: State, i: nat)
    requires AdmissionOk(s) && Aligned(s) && i < |s.serves| && TokenStep(s, t, i)
    ensures TokensOk(t.iss, t.tab.tokens)
  {
    var h := s.serves[i].hello.value;
    forall svc | svc in t.iss.live
      ensures LiveOk(t.iss, t.tab.tokens, svc)
    {
      assert LiveOk(s.iss, s.tab.tokens, svc);
    }
  }

  lemma TicketStable(a: Issuance, b: Issuance, v: Serve)
    requires TicketOk(a, v) && b.minted == a.minted && b.placed == a.placed
    ensures TicketOk(b, v)
  {
  }

  /** What a live token says about the placement it came from. */
  predicate LivePlacement(iss: Issuance, tokens: map<string, string>, service: string) {
    service in iss.live && service in tokens ==>
      && iss.live[service] < |iss.placed|
      && var p := iss.placed[iss.live[service]];
         p.service == service && p.ticket < |iss.minted| && tokens[service] == iss.minted[p.ticket].text
  }

  lemma SpenderTicket(s: State, t: State, i: nat)
    requires Aligned(s) && i < |s.serves| && TokenStep(s, t, i) && TicketOk(s.iss, s.serves[i])
    requires LivePlacement(s.iss, s.tab.tokens, s.serves[i].hello.value.service)
    ensures TicketOk(s.iss, t.serves[i])
    ensures t.iss.minted == s.iss.minted && t.iss.placed == s.iss.placed
    ensures t.serves == s.serves[i := t.serves[i]]
  {
  }

  lemma SpendTickets(s: State, t: State, i: nat)
    requires AdmissionOk(s) && Aligned(s) && i < |s.serves| && TokenStep(s, t, i)
    ensures TicketsOk(t.iss, t.serves)
  {
    var h := s.serves[i].hello.value;
    if h.service in s.iss.live {
      assert LiveOk(s.iss, s.tab.tokens, h.service);
    }
    SpenderTicket(s, t, i);
    forall j | 0 <= j < |t.serves|
      ensures TicketOk(t.iss, t.serves[j])
    {
      assert j != i ==> TicketOk(s.iss, s.serves[j]);
      TicketStable(s.iss, t.iss, t.serves[j]);
    }
  }

  lemma SpendOnce(s: State, t: State, i: nat)
    requires AdmissionOk(s) && Aligned(s) && i < |s.serves| && TokenStep(s, t, i)
    ensures SpentOnce(t.iss, t.serves)
  {
    var svc0 := s.serves[i].hello.value.service;
    if svc0 in s.iss.live {
      assert LiveOk(s.iss, s.tab.tokens, svc0);
      forall svc | svc in s.iss.live && svc != svc0
        ensures s.iss.live[svc] != s.iss.live[svc0]
      {
        assert LiveOk(s.iss, s.tab.tokens, svc);
      }
    }
    SpendDistinct(s.iss, s.serves, t.iss, t.serves, i, svc0);
  }

  lemma SpendDistinct(a: Issuance, serves: seq<Serve>, b: Issuance, after: seq<Serve>, i: nat, svc0: string)
    requires SpentOnce(a, serves) && i < |serves| && i < |after| && after == serves[i := after[i]]
    requires b.live == a.live - {svc0}
    requires svc0 in a.live ==> forall svc :: svc in a.live && svc != svc0 ==> a.live[svc] != a.live[svc0]
    requires after[i].ticket == serves[i].ticket || (svc0 in a.live && after[i].ticket == Some(a.live[svc0]))
    ensures SpentOnce(b, after)
  {
  }

  // ----- everything else ----------------------------------------------------------------------------

  predicate TicketKept(v: Serve, w: Serve) {
    && w.ticket == v.ticket
    && (v.ticket.Some? ==> w.hello == v.hello)
    && (2 <= Rank(w.pc) <= 12 ==> 2 <= Rank(v.pc) <= 12)
    && (Rank(w.pc) <= 1 ==> Rank(v.pc) <= 1)
    && (w.pc == CheckToken ==> w.hello.Some? && w.hello.value.protocol.major == CURRENT.major)
  }

  ghost predicate TicketStep(s: State, t: State, i: nat) {
    && i < |s.serves| && i < |t.serves| && t.serves == s.serves[i := t.serves[i]]
    && TicketKept(s.serves[i], t.serves[i]) && t.iss == s.iss && t.tab.tokens == s.tab.tokens
  }

  lemma HelloTicketKept(cfg: Config, s: State, t: State, i: nat, a: ServeAct)
    requires ServeNext(cfg, s, t, i, a) && HelloMove(a) && TicketOk(s.iss, s.serves[i])
    ensures TicketStep(s, t, i)
  {
  }

  lemma StageTicketKept(cfg: Config, s: State, t: State, i: nat, a: ServeAct)
    requires ServeNext(cfg, s, t, i, a) && (StageMove(a) || a.IdentifyClient?) && TicketOk(s.iss, s.serves[i])
    ensures TicketStep(s, t, i)
  {
  }

  lemma LeaveTicketKept(cfg: Config, s: State, t: State, i: nat, a: ServeAct)
    requires ServeNext(cfg, s, t, i, a) && LeaveMove(a) && TicketOk(s.iss, s.serves[i])
    ensures TicketStep(s, t, i)
  {
  }

  lemma ReadTicketKept(cfg: Config, s: State, t: State, i: nat, a: ServeAct)
    requires ServeNext(cfg, s, t, i, a) && ReadMove(a) && TicketOk(s.iss, s.serves[i])
    ensures TicketStep(s, t, i)
  {
  }

  lemma FanTicketKept(cfg: Config, s: State, t: State, i: nat, a: ServeAct)
    requires ServeNext(cfg, s, t, i, a) && FanMove(a) && TicketOk(s.iss, s.serves[i])
    ensures TicketStep(s, t, i)
  {
  }

  lemma WriteTicketKept(cfg: Config, s: State, t: State, i: nat, a: ServeAct)
    requires ServeNext(cfg, s, t, i, a) && WriteMove(a) && TicketOk(s.iss, s.serves[i])
    ensures TicketStep(s, t, i)
  {
  }

  lemma ServeTicketKept(cfg: Config, s: State, t: State, i: nat, a: ServeAct)
    requires ServeNext(cfg, s, t, i, a) && !a.SpendHelloToken? && TicketOk(s.iss, s.serves[i])
    ensures TicketStep(s, t, i)
  {
    if {
      case HelloMove(a) => HelloTicketKept(cfg, s, t, i, a);
      case StageMove(a) || a.IdentifyClient? => StageTicketKept(cfg, s, t, i, a);
      case LeaveMove(a) => LeaveTicketKept(cfg, s, t, i, a);
      case ReadMove(a) => ReadTicketKept(cfg, s, t, i, a);
      case FanMove(a) => FanTicketKept(cfg, s, t, i, a);
      case WriteMove(a) => WriteTicketKept(cfg, s, t, i, a);
    }
  }

  lemma KeptTickets(s: State, t: State, i: nat)
    requires AdmissionOk(s) && TicketStep(s, t, i)
    ensures AdmissionOk(t)
  {
  }

  predicate AdmissionUntouched(s: State, t: State) {
    && t.iss == s.iss && t.tab.tokens == s.tab.tokens
    && (t.serves == s.serves || t.serves == s.serves + [NEW_SERVE])
  }

  lemma OutsideAdmission(cfg: Config, s: State, t: State, step: Step)
    requires Next(cfg, s, t, step) && !step.ServeStep?
    requires step.HostStep? ==> !step.host.MintToken? && !step.host.PlaceToken?
    ensures AdmissionUntouched(s, t)
  {
  }

  lemma UntouchedAdmission(s: State, t: State)
    requires AdmissionOk(s) && AdmissionUntouched(s, t)
    ensures AdmissionOk(t)
  {
  }

  lemma StepAdmission(cfg: Config, s: State, t: State, step: Step)
    requires Next(cfg, s, t, step) && AdmissionOk(s)
    ensures AdmissionOk(t)
  {
    if step.ServeStep? {
      var i := step.conn;
      if step.serve.SpendHelloToken? {
        SpendTokens(s, t, i);
        SpendTickets(s, t, i);
        SpendOnce(s, t, i);
      } else {
        assert TicketOk(s.iss, s.serves[i]);
        ServeTicketKept(cfg, s, t, i, step.serve);
        KeptTickets(s, t, i);
      }
    } else if step.HostStep? && step.host.MintToken? {
      MintAdmission(s, t, step.host.ns, step.host.pid);
    } else if step.HostStep? && step.host.PlaceToken? {
      PlaceMints(s, t, step.host.service, step.host.ticket);
      PlaceTokens(s, t, step.host.service, step.host.ticket);
      PlaceTickets(s, t, step.host.service, step.host.ticket);
    } else {
      OutsideAdmission(cfg, s, t, step);
      UntouchedAdmission(s, t);
    }
  }

  // ----- what admission guarantees ---------------------------------------------------------------------

  predicate Admitted(s: State, i: nat) {
    i < |s.serves| && s.serves[i].ticket.Some?
  }

  /** No token string ever admits two connections, whatever services they claim. */
  lemma TokenAdmitsOnce(s: State, i: nat, j: nat)
    requires AdmissionOk(s) && Admitted(s, i) && Admitted(s, j)
    requires s.serves[i].hello.Some? && s.serves[j].hello.Some?
    requires s.serves[i].hello.value.authToken == s.serves[j].hello.value.authToken
    ensures i == j
  {
    assert TicketOk(s.iss, s.serves[i]) && TicketOk(s.iss, s.serves[j]);
    var x, y := s.iss.placed[s.serves[i].ticket.value], s.iss.placed[s.serves[j].ticket.value];
    var m, n := s.iss.minted[x.ticket], s.iss.minted[y.ticket];
    assert MintOk(m, x.ticket) && MintOk(n, y.ticket);
    TokenStringInjective(m.ns, m.pid, x.ticket, n.ns, n.pid, y.ticket);
    assert s.serves[i].ticket.value == s.serves[j].ticket.value;
  }

  /** The Hello carries the string of the most recent placement for its service, and that placement is unspent. */
  ghost predicate CarriesLatest(iss: Issuance, h: HelloRequest) {
    && h.service in iss.live && Latest(iss, h.service, iss.live[h.service])
    && iss.placed[iss.live[h.service]].ticket < |iss.minted|
    && h.authToken == iss.minted[iss.placed[iss.live[h.service]].ticket].text
  }

  /** A Hello is admitted exactly when its token is the latest one placed for its service and still unspent. */
  lemma AdmittedByLatest(s: State, t: State, i: nat)
    requires AdmissionOk(s) && Aligned(s) && i < |s.serves| && TokenStep(s, t, i)
    ensures Admitted(t, i) <==> CarriesLatest(s.iss, s.serves[i].hello.value)
  {
  }

  lemma TokenLostInServe(cfg: Config, s: State, t: State, i: nat, a: ServeAct, svc: string)
    requires ServeNext(cfg, s, t, i, a) && TicketOk(s.iss, s.serves[i]) && svc in s.tab.tokens
    requires svc !in t.tab.tokens || t.tab.tokens[svc] != s.tab.tokens[svc]
    ensures a.SpendHelloToken? && s.serves[i].hello.Some? && s.serves[i].hello.value.service == svc
    ensures s.serves[i].hello.value.protocol.major == CURRENT.major
  {
    if !a.SpendHelloToken? {
      ServeTicketKept(cfg, s, t, i, a);
    }
  }

  /** The step places a token for the service, or checks one for a Hello under the broker's own major version. */
  predicate MaySpend(s: State, step: Step, svc: string) {
    || (step.HostStep? && step.host.PlaceToken? && step.host.service == svc)
    || (step.ServeStep? && step.serve.SpendHelloToken? && step.conn < |s.serves| && s.serves[step.conn].hello.Some?
        && s.serves[step.conn].hello.value.service == svc
        && s.serves[step.conn].hello.value.protocol.major == CURRENT.major)
  }

  /**
   * A stored token is only lost by being overwritten or to a Hello that names its service under the broker's own
   * major version: a version mismatch spends nothing, while a wrong token does.
   */
  lemma TokenLostOnlyTo(cfg: Config, s: State, t: State, step: Step, svc: string)
    requires Next(cfg, s, t, step) && AdmissionOk(s) && svc in s.tab.tokens
    requires svc !in t.tab.tokens || t.tab.tokens[svc] != s.tab.tokens[svc]
    ensures MaySpend(s, step, svc)
  {
    match step
    case ServeStep(i, a) =>
      assert TicketOk(s.iss, s.serves[i]);
      TokenLostInServe(cfg, s, t, i, a, svc);
    case HostStep(a) =>
      if !a.PlaceToken? && !a.MintToken? {
        OutsideAdmission(cfg, s, t, step);
      }
    case _ => OutsideAdmission(cfg, s, t, step);
  }

  // ----- counting --------------------------------------------------------------------------------------

  function Tickets(serves: seq<Serve>): (r: set<nat>) {
    set i | 0 <= i < |serves| && serves[i].ticket.Some? :: serves[i].ticket.value
  }

  function AdmittedCount(serves: seq<Serve>): (n: nat) {
    if serves == [] then 0
    else AdmittedCount(serves[..|serves| - 1]) + (if serves[|serves| - 1].ticket.Some? then 1 else 0)
  }

  lemma {:induction false} CountTickets(serves: seq<Serve>)
    requires forall i, j :: 0 <= i < j < |serves| && serves[i].ticket.Some? ==> serves[j].ticket != serves[i].ticket
    ensures |Tickets(serves)| == AdmittedCount(serves)
  {
    if serves != [] {
      var front, last := serves[..|serves| - 1], serves[|serves| - 1];
      CountTickets(front);
      if last.ticket.Some? {
        assert Tickets(serves) == Tickets(front) + {last.ticket.value};
      } else {
        assert Tickets(serves) == Tickets(front);
      }
    }
  }

  lemma {:induction false} Below(n: nat) returns (r: set<nat>)
    ensures (forall x: nat :: x in r <==> x < n) && |r| == n
  {
    if n == 0 {
      r := {};
    } else {
      var q := Below(n - 1);
      r := q + {n - 1};
    }
  }

  /** The values of a map whose keys are told apart by their values. */
  lemma {:induction false} InjectiveValues(m: map<string, nat>)
    requires forall a, b :: a in m && b in m && m[a] == m[b] ==> a == b
    ensures |m.Values| == |m|
    decreases m.Keys
  {
    if m != map[] {
      var k :| k in m;
      var rest := m - {k};
      InjectiveValues(rest);
      assert m.Values == rest.Values + {m[k]};
      assert m.Keys == rest.Keys + {k};
      assert |m| == |m.Keys| && |rest| == |rest.Keys|;
    }
  }

  function PlacedTickets(placed: seq<Placement>): set<nat> {
    set x | 0 <= x < |placed| :: placed[x].ticket
  }

  lemma {:induction false} CountPlaced(placed: seq<Placement>)
    requires forall x, y :: 0 <= x < y < |placed| ==> placed[x].ticket != placed[y].ticket
    ensures |PlacedTickets(placed)| == |placed|
  {
    if placed != [] {
      var front, last := placed[..|placed| - 1], placed[|placed| - 1];
      CountPlaced(front);
      assert PlacedTickets(placed) == PlacedTickets(front) + {last.ticket};
    }
  }

  /** Every placement used up a token that was minted. */
  lemma PlacedWereMinted(iss: Issuance)
    requires PlacedOk(iss)
    ensures |iss.placed| <= |iss.minted|
  {
    CountPlaced(iss.placed);
    var all := Below(|iss.minted|);
    SubsetSize(PlacedTickets(iss.placed), all);
  }

  /** Accepted Hellos plus live tokens never exceed the tokens issued. */
  lemma AdmissionAccounting(s: State)
    requires AdmissionOk(s)
    ensures AdmittedCount(s.serves) + |s.tab.tokens| <= |s.iss.placed| <= |s.iss.minted|
  {
    PlacedWereMinted(s.iss);
    CountTickets(s.serves);
    forall a, b | a in s.iss.live && b in s.iss.live && s.iss.live[a] == s.iss.live[b]
      ensures a == b
    {
      assert LiveOk(s.iss, s.tab.tokens, a) && LiveOk(s.iss, s.tab.tokens, b);
    }
    InjectiveValues(s.iss.live);
    assert |s.tab.tokens| == |s.tab.tokens.Keys| == |s.iss.live.Keys| == |s.iss.live|;
    var spent, live := Tickets(s.serves), s.iss.live.Values;
    forall x | x in spent
      ensures x !in live && x < |s.iss.placed|
    {
      var i :| 0 <= i < |s.serves| && s.serves[i].ticket == Some(x);
      assert TicketOk(s.iss, s.serves[i]);
    }
    forall x | x in live
      ensures x < |s.iss.placed|
    {
      var svc :| svc in s.iss.live && s.iss.live[svc] == x;
      assert LiveOk(s.iss, s.tab.tokens, svc);
    }
    var all := Below(|s.iss.placed|);
    assert spent + live <= all;
    SubsetSize(spent + live, all);
    assert |spent + live| == |spent| + |live|;
  }

  lemma {:induction false} SubsetSize(a: set<nat>, b: set<nat>)
    requires a <= b
    ensures |a| <= |b|
    decreases a
  {
    if a != {} {
      var x :| x in a;
      SubsetSize(a - {x}, b - {x});
    }
  }
}
