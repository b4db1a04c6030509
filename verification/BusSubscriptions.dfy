/**
 * Subscriptions are what the apps asked for: over every run, which prefixes a service holds is decided by the Subscribe
 * and Unsubscribe frames read from its connections, and those prefixes decide who is selected for a publication.
 */
module BusSubscriptions {
  import opened Prelude
  import opened Frames
  import opened BrokerTables
  import opened Connection
  import opened Bus
  import opened BusSteps

  predicate Holds(s: State, svc: string, p: string) {
    svc in s.tab.subscriptions && p in s.tab.subscriptions[svc]
  }

  /** In this step the frame loop of a connection of the service reads the frame. */
  predicate Reads(s: State, step: Step, svc: string, f: BusFrame) {
    && step.ServeStep? && step.serve.ReadSubscription? && step.conn < |s.serves| && step.conn < |s.inbs|
    && s.serves[step.conn].hello.Some? && s.serves[step.conn].hello.value.service == svc
    && s.inbs[step.conn].stream != [] && s.inbs[step.conn].stream[0] == f
  }

  // ----- one step -----------------------------------------------------------------------------------------

  lemma ReadHolds(s: State, t: State, i: nat, svc: string, p: string)
    requires Aligned(s) && i < |s.serves| && SubscriptionStep(s, t, i)
    ensures Holds(t, svc, p) <==>
              || Reads(s, ServeStep(i, ReadSubscription), svc, Subscribe(p))
              || (Holds(s, svc, p) && !Reads(s, ServeStep(i, ReadSubscription), svc, Unsubscribe(p)))
  {
  }

  lemma OtherHolds(cfg: Config, s: State, t: State, i: nat, a: ServeAct)
    requires ServeNext(cfg, s, t, i, a) && !a.ReadSubscription?
    ensures t.tab.subscriptions == s.tab.subscriptions
  {
    if !WritesTables(a) {
      OthersKeepTables(cfg, s, t, i, a);
    }
  }

  /** A step makes a service hold a prefix by reading its Subscribe, and stop holding it by reading its Unsubscribe. */
  lemma StepHolds(cfg: Config, s: State, t: State, step: Step, svc: string, p: string)
    requires Next(cfg, s, t, step)
    ensures Holds(t, svc, p) <==>
              Reads(s, step, svc, Subscribe(p)) || (Holds(s, svc, p) && !Reads(s, step, svc, Unsubscribe(p)))
  {
    match step
    case ServeStep(i, a) =>
      if a.ReadSubscription? {
        ReadHolds(s, t, i, svc, p);
      } else {
        OtherHolds(cfg, s, t, i, a);
      }
    case CallStep(n, a) => CallTask(cfg, s, t, n, a);
    case _ => OutsideStep(cfg, s, t, step);
  }

  // ----- a whole run --------------------------------------------------------------------------------------

  /** Step `l`, one of the first `k`, reads a Subscribe of `p` for the service, and none after it an Unsubscribe. */
  ghost predicate LastSubscribed(states: seq<State>, steps: seq<Step>, k: nat, l: nat, svc: string, p: string)
    requires k <= |steps| < |states|
  {
    && l < k && Reads(states[l], steps[l], svc, Subscribe(p))
    && forall m :: l < m < k ==> !Reads(states[m], steps[m], svc, Unsubscribe(p))
  }

  /** Of the frames about `p` read from connections of the service in the first `k` steps, the last was a Subscribe. */
  ghost predicate Asked(states: seq<State>, steps: seq<Step>, k: nat, svc: string, p: string)
    requires k <= |steps| < |states|
  {
    exists l: nat :: LastSubscribed(states, steps, k, l, svc, p)
  }

  /**
   * In every state of every run, a service holds a prefix exactly when the last such frame read from any of its
   * connections was a Subscribe; neither a disconnect nor a successor changes that.
   */
  lemma {:induction false} HoldsExactly(cfg: Config, states: seq<State>, steps: seq<Step>, k: nat, svc: string,
                                        p: string)
    requires IsRun(cfg, states, steps) && k <= |steps|
    ensures Holds(states[k], svc, p) <==> Asked(states, steps, k, svc, p)
  {
    if k > 0 {
      HoldsExactly(cfg, states, steps, k - 1, svc, p);
      FragmentNext(cfg, states, steps, k - 1);
      StepHolds(cfg, states[k - 1], states[k], steps[k - 1], svc, p);
      LastOfMore(states, steps, k, svc, p);
    }
  }

  lemma LastOfMore(states: seq<State>, steps: seq<Step>, k: nat, svc: string, p: string)
    requires 0 < k <= |steps| < |states|
    ensures Asked(states, steps, k, svc, p) <==>
              || Reads(states[k - 1], steps[k - 1], svc, Subscribe(p))
              || (Asked(states, steps, k - 1, svc, p) && !Reads(states[k - 1], steps[k - 1], svc, Unsubscribe(p)))
  {
    if Reads(states[k - 1], steps[k - 1], svc, Subscribe(p)) {
      assert LastSubscribed(states, steps, k, k - 1, svc, p);
    } else {
      if l: nat :| LastSubscribed(states, steps, k, l, svc, p) {
        assert l < k - 1 && LastSubscribed(states, steps, k - 1, l, svc, p);
      }
      var before := k - 1;
      if l: nat :| LastSubscribed(states, steps, before, l, svc, p) {
        assert !Reads(states[k - 1], steps[k - 1], svc, Unsubscribe(p)) ==> LastSubscribed(states, steps, k, l, svc, p);
      }
    }
  }

  // ----- the snapshot of a publication --------------------------------------------------------------------

  /** The service is selected: it is another one, and holds a prefix of the topic. */
  ghost predicate Selected(s: State, i: nat, svc: string, topic: string)
    requires i < |s.serves| && s.serves[i].hello.Some?
  {
    svc != s.serves[i].hello.value.service && exists p :: Holds(s, svc, p) && p <= topic
  }

  /** A snapshot records the publication with exactly the selected services, and queues each of them once. */
  lemma SnapshotExactly(s: State, t: State, i: nat, order: seq<string>)
    requires Aligned(s) && i < |s.serves| && SnapshotStep(s, t, i, order)
    ensures i < |t.serves| && |t.serves[i].pubs| == |s.serves[i].pubs| + 1 && t.serves[i].pc.FanLookup?
    ensures var e, p := s.serves[i].pc.event, t.serves[i].pubs[|s.serves[i].pubs|];
            && p.event == e && p.served == map[] && p.skipped == {}
            && (forall svc :: svc in p.targets <==> Selected(s, i, svc, e.topic))
            && (forall svc :: svc in t.serves[i].pc.targets <==> Selected(s, i, svc, e.topic))
    ensures forall a, b :: 0 <= a < b < |order| ==> t.serves[i].pc.targets[a] != t.serves[i].pc.targets[b]
  {
    var e := s.serves[i].pc.event;
    forall svc
      ensures svc in Targets(s.tab, s.serves[i].hello.value.service, e.topic) <==> Selected(s, i, svc, e.topic)
    {
      if svc in s.tab.subscriptions && Wants(s.tab.subscriptions[svc], e.topic) {
        var p :| p in s.tab.subscriptions[svc] && p <= e.topic;
        assert Holds(s, svc, p);
      }
    }
  }

  /** Over a run, a service is selected exactly when its last frame about some prefix of the topic was a Subscribe. */
  lemma SelectedExactly(cfg: Config, states: seq<State>, steps: seq<Step>, k: nat, i: nat, svc: string, topic: string)
    requires IsRun(cfg, states, steps) && k <= |steps| && i < |states[k].serves| && states[k].serves[i].hello.Some?
    ensures Selected(states[k], i, svc, topic) <==>
              && svc != states[k].serves[i].hello.value.service
              && exists p :: p <= topic && Asked(states, steps, k, svc, p)
  {
    forall p
      ensures Holds(states[k], svc, p) <==> Asked(states, steps, k, svc, p)
    {
      HoldsExactly(cfg, states, steps, k, svc, p);
    }
  }
}
