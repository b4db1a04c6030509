/** The objects and the step relation describe one bus: what an object computes at once, undisturbed steps arrive at. */
module OpsAgree {
  import opened Prelude
  import opened Frames
  import opened ServiceRegistry
  import opened BrokerTables
  import BrokerOps
  import SessionOps
  import ClientHandshake
  import TaskLocals
  import opened Connection
  import opened Bus
  import Client = ClientState

  // ----- the checks before a call is sent ------------------------------------------------------------------

  /** Where a call stands after its checks, seen as the result of `BrokerOps.Resolve`. */
  predicate Stands(k: Call, route: Result<BrokerOps.Route, BusError>) {
    match route
    case Ok(Local) => k.pc == RunLocal && k.outcome.None?
    case Ok(Remote(e, j)) => k.pc == AllocId && k.entry == Some(e) && k.handle == Some(j) && k.outcome.None?
    case Err(e) => k.pc == Finished && k.outcome == Some(Failed(e))
  }

  /** The check steps of call `n`, with no other step between them. */
  ghost predicate Checks(s: State, a: State, b: State, c: State, n: nat) {
    && Aligned(s) && Aligned(a) && Aligned(b) && n < |s.calls| && n < |a.calls| && n < |b.calls| && n < |c.calls|
    && LocalLookupStep(s, a, n)
    && (if s.calls[n].service in s.tab.localServices then LocalGateStep(a, b, n) && c == b
        else EntryStep(a, b, n) && (if b.calls[n].pc == FindSession then HandleStep(b, c, n) else c == b))
  }

  /** Undisturbed, the check steps decide as `call_with_timeout` does in one go. */
  lemma ChecksResolve(s: State, a: State, b: State, c: State, n: nat)
    requires Checks(s, a, b, c, n) && s.calls[n].outcome.None?
    ensures var k := s.calls[n];
            Stands(c.calls[n], BrokerOps.Resolve(s.tab, s.reg, k.service, k.methodName, k.caller))
    ensures c == s.(calls := s.calls[n := c.calls[n]])
  {
    if s.calls[n].service in s.tab.localServices {
      assert c.calls == s.calls[n := c.calls[n]];
    } else {
      RemoteChecks(s, a, b, c, n);
    }
  }

  lemma RemoteChecks(s: State, a: State, b: State, c: State, n: nat)
    requires Checks(s, a, b, c, n) && s.calls[n].outcome.None? && s.calls[n].service !in s.tab.localServices
    ensures var k := s.calls[n];
            Stands(c.calls[n], BrokerOps.Resolve(s.tab, s.reg, k.service, k.methodName, k.caller))
    ensures c == s.(calls := s.calls[n := c.calls[n]])
  {
    assert b.calls == s.calls[n := b.calls[n]];
    assert c.calls == s.calls[n := c.calls[n]];
  }

  // ----- the fan-out ---------------------------------------------------------------------------------------

  /** The fan-out of connection `i` from `s`, with no other step between its own, sends to `txs` in this order. */
  ghost predicate FansOut(s: State, i: nat, txs: seq<nat>)
    requires Aligned(s) && i < |s.serves| && s.serves[i].pc.FanLookup?
    decreases |s.serves[i].pc.targets|
  {
    if s.serves[i].pc.targets == [] then txs == []
    else
      exists t :: Aligned(t) && i < |t.serves| && SubscriberStep(s, t, i) &&
        if t.serves[i].pc.FanLookup? then FansOut(t, i, txs)
        else
          t.serves[i].pc.FanSend? && txs != [] && txs[0] == t.serves[i].pc.tx
          && exists u :: Aligned(u) && i < |u.serves| && EventStep(t, u, i) && FansOut(u, i, txs[1..])
  }

  lemma TurnSkips(s: State, t: State, i: nat)
    requires Aligned(s) && i < |s.serves| && s.serves[i].pc.FanLookup? && s.serves[i].pc.targets != []
    requires SubscriberStep(s, t, i) && i < |t.serves| && t.serves[i].pc.FanLookup?
    ensures t.serves[i].pc.targets == s.serves[i].pc.targets[1..]
    ensures BrokerOps.Sends(s.reg, s.serves[i].pc.targets) == BrokerOps.Sends(t.reg, t.serves[i].pc.targets)
  {
  }

  lemma TurnSends(s: State, t: State, u: State, i: nat)
    requires Aligned(s) && i < |s.serves| && s.serves[i].pc.FanLookup? && s.serves[i].pc.targets != []
    requires SubscriberStep(s, t, i) && Aligned(t) && i < |t.serves| && t.serves[i].pc.FanSend?
    requires EventStep(t, u, i) && i < |u.serves| && u.serves[i].pc.FanLookup?
    ensures u.serves[i].pc.targets == s.serves[i].pc.targets[1..]
    ensures BrokerOps.Sends(s.reg, s.serves[i].pc.targets)
         == [t.serves[i].pc.tx] + BrokerOps.Sends(u.reg, u.serves[i].pc.targets)
  {
  }

  /** Undisturbed, the fan-out steps send exactly as `Broker.Fanout` does. */
  lemma {:induction false} FansOutSends(s: State, i: nat, txs: seq<nat>)
    requires Aligned(s) && i < |s.serves| && s.serves[i].pc.FanLookup? && FansOut(s, i, txs)
    ensures txs == BrokerOps.Sends(s.reg, s.serves[i].pc.targets)
    decreases |s.serves[i].pc.targets|
  {
    if s.serves[i].pc.targets != [] {
      var t :| Aligned(t) && i < |t.serves| && SubscriberStep(s, t, i) &&
        if t.serves[i].pc.FanLookup? then FansOut(t, i, txs)
        else
          t.serves[i].pc.FanSend? && txs != [] && txs[0] == t.serves[i].pc.tx
          && exists u :: Aligned(u) && i < |u.serves| && EventStep(t, u, i) && FansOut(u, i, txs[1..]);
      if t.serves[i].pc.FanLookup? {
        TurnSkips(s, t, i);
        FansOutSends(t, i, txs);
      } else {
        var u :| Aligned(u) && i < |u.serves| && EventStep(t, u, i) && FansOut(u, i, txs[1..]);
        TurnSends(s, t, u, i);
        FansOutSends(u, i, txs[1..]);
        assert txs == [txs[0]] + txs[1..];
      }
    }
  }

  // ----- the frame loop ------------------------------------------------------------------------------------

  /** A step of the frame loop changes the tables as the turn for its frame does, and goes on to the same effect. */
  lemma FramesAlike(cfg: Config, s: State, t: State, i: nat, a: ServeAct)
    requires ServeNext(cfg, s, t, i, a) && s.serves[i].hello.Some?
    requires a.ReadResponse? || a.ReadPublish? || a.ReadSubscription? || a.ReadInvoke? || a.ReadIgnored?
    ensures i < |t.serves| && i < |t.inbs| && s.inbs[i].stream != []
    ensures var me, f, at := s.serves[i].hello.value.service, s.inbs[i].stream[0], |s.inbs[i].consumed|;
            && t.tab == SessionOps.TablesAfter(s.tab, me, f) && t.reg == s.reg
            && t.sess == s.sess[i := SessionOps.SessionAfter(s.sess[i], f)]
            && t.inbs == s.inbs[i := t.inbs[i]] && t.inbs[i].consumed == s.inbs[i].consumed + [f]
            && t.serves[i].pc == (if f.ResponseFrame? && f.reqId in s.sess[i].pendingOut
                                  then Wake(s.sess[i].pendingOut[f.reqId], f.reply, at)
                                  else if f.Publish? then Snapshot(f.event.(from := Some(me)))
                                  else Loop)
            && t.calls == (if f.InvokeFrame? then s.calls + [RouteCall(i, at, f.inv, me, cfg.defaultTimeoutMs)]
                           else s.calls)
  {
  }

  // ----- routing an app's Invoke ---------------------------------------------------------------------------

  /** The call the step relation spawns for an Invoke is the one the frame loop decides on. */
  lemma RoutedAlike(i: nat, at: nat, inv: Invoke, me: string, timeoutMs: nat)
    ensures match SessionOps.Routing(inv, me)
            case RouteCall(service, methodName, payload, caller, reqId) =>
              RouteCall(i, at, inv, me, timeoutMs)
              == NewCall(Routed(i, reqId, at), service, methodName, payload, caller, timeoutMs)
            case Refuse(reqId, e) =>
              RouteCall(i, at, inv, me, timeoutMs).origin == Routed(i, reqId, at)
              && RouteCall(i, at, inv, me, timeoutMs).outcome == Some(Failed(e))
            case _ => false
  {
  }

  // ----- the client ----------------------------------------------------------------------------------------

  /** The first frame starts the client exactly when `establish` returns a connection, and stops it otherwise. */
  lemma AcknowledgedAlike(x: Client.AppClient, f: BusFrame)
    ensures Client.HandleAck(x, f).phase.Running? <==> ClientHandshake.FirstReply(Some(f)).Ok?
    ensures Client.HandleAck(x, f).phase.Stopped? <==> ClientHandshake.FirstReply(Some(f)).Err?
  {
  }

  /** The task-local scopes of the code that runs as `parent`: one for a dispatch task, none elsewhere. */
  function Scopes(x: Client.AppClient, parent: Option<nat>): seq<TaskLocals.UserId> {
    if parent.Some? && parent.value < |x.dispatches| then [x.dispatches[parent.value].user] else []
  }

  lemma ScopesAlike(x: Client.AppClient, parent: Option<nat>, d: nat, user: Option<string>)
    requires d < |x.dispatches|
    ensures Client.CurrentUser(x, parent) == TaskLocals.Top(Scopes(x, parent))
    ensures Scopes(Client.SetUser(x, d, user), Some(d)) == TaskLocals.WriteTop(Scopes(x, Some(d)), user)
    ensures parent != Some(d) ==> Scopes(Client.SetUser(x, d, user), parent) == Scopes(x, parent)
  {
  }
}
