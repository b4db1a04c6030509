/** The supervisor's restart backoff: 1 s, 2 s, 4 s and so on up to 5 minutes, reset by a clean exit. */
module Restarts {

  const CAP := 300

  function Min(a: nat, b: nat): nat {
    if a < b then a else b
  }

  function Pow2(k: nat): (r: nat)
    ensures r > 0
  {
    if k == 0 then 1 else 2 * Pow2(k - 1)
  }

  // ----- the counter ----------------------------------------------------------------------------------

  class Backoff {
    var next: nat

    constructor ()
      ensures next == 1
    {
      next := 1;
    }

    method Bump() returns (wait: nat)
      modifies this
      ensures wait == old(next) && next == Min(old(next) * 2, CAP)
    {
      wait := next;
      next := Min(next * 2, CAP);
    }

    method Reset()
      modifies this
      ensures next == 1
    {
      next := 1;
    }
  }

  /** How one round of a resident loop ends: the child exits cleanly, or it fails, cannot be waited for or spawned. */
  datatype Outcome = Clean | Failure

  /** The waits counted by one `AppState` whose counter stands at `next`. */
  function Waits(next: nat, outcomes: seq<Outcome>): (waits: seq<nat>)
    ensures |waits| == |outcomes|
    decreases |outcomes|
  {
    if outcomes == [] then []
    else
      var wait := if outcomes[0].Clean? then 1 else next;
      [wait] + Waits(Min(wait * 2, CAP), outcomes[1..])
  }

  /** A round of a resident loop: the `AppState` the service was looked up as, and how the round ended. */
  datatype Round = Round(app: nat, outcome: Outcome)

  function RoundWait(next: seq<nat>, round: Round): nat
    requires round.app < |next|
  {
    if round.outcome.Clean? then 1 else next[round.app]
  }

  /** The waits of a loop whose `AppState`s have their counters at `next`. */
  function LoopWaits(next: seq<nat>, rounds: seq<Round>): (waits: seq<nat>)
    requires forall r :: r in rounds ==> r.app < |next|
    ensures |waits| == |rounds|
    decreases |rounds|
  {
    if rounds == [] then []
    else
      var wait := RoundWait(next, rounds[0]);
      [wait] + LoopWaits(next[rounds[0].app := Min(wait * 2, CAP)], rounds[1..])
  }

  ghost function Counters(backoffs: seq<Backoff>): (next: seq<nat>)
    reads set b | b in backoffs
    ensures |next| == |backoffs|
  {
    seq(|backoffs|, k requires 0 <= k < |backoffs| reads set b | b in backoffs => backoffs[k].next)
  }

  /** One round adds its wait, and the others start from the doubled counter. */
  lemma LoopTurn(waits: seq<nat>, next: seq<nat>, rounds: seq<Round>, i: nat)
    requires i < |rounds| && forall r :: r in rounds ==> r.app < |next|
    ensures var wait := RoundWait(next, rounds[i]);
            waits + LoopWaits(next, rounds[i..])
            == (waits + [wait]) + LoopWaits(next[rounds[i].app := Min(wait * 2, CAP)], rounds[i + 1..])
  {
    var wait := RoundWait(next, rounds[i]);
    var rest := LoopWaits(next[rounds[i].app := Min(wait * 2, CAP)], rounds[i + 1..]);
    assert rounds[i..][1..] == rounds[i + 1..];
    assert LoopWaits(next, rounds[i..]) == [wait] + rest;
    assert waits + ([wait] + rest) == (waits + [wait]) + rest;
  }

  /** The end of one round. */
  method Turn(backoffs: seq<Backoff>, round: Round) returns (wait: nat)
    requires round.app < |backoffs|
    requires forall a, b :: 0 <= a < b < |backoffs| ==> backoffs[a] != backoffs[b]
    modifies backoffs[round.app]
    ensures wait == RoundWait(old(Counters(backoffs)), round)
    ensures Counters(backoffs) == old(Counters(backoffs))[round.app := Min(wait * 2, CAP)]
  {
    var backoff := backoffs[round.app];
    if round.outcome.Clean? {
      backoff.Reset();
    }
    wait := backoff.Bump();
  }

  /**
   * The part of the resident loop that decides how long to sleep between rounds. Every round uses the counter of the
   * `AppState` it found, which is a fresh one after a replacement.
   */
  method ResidentLoop(backoffs: seq<Backoff>, rounds: seq<Round>) returns (waits: seq<nat>)
    requires forall r :: r in rounds ==> r.app < |backoffs|
    requires forall a, b :: 0 <= a < b < |backoffs| ==> backoffs[a] != backoffs[b]
    modifies set b | b in backoffs
    ensures waits == LoopWaits(old(Counters(backoffs)), rounds)
  {
    ghost var first := Counters(backoffs);
    waits := [];
    for i := 0 to |rounds|
      invariant waits + LoopWaits(Counters(backoffs), rounds[i..]) == LoopWaits(first, rounds)
    {
      ghost var next, before := Counters(backoffs), waits;
      var wait := Turn(backoffs, rounds[i]);
      LoopTurn(before, next, rounds, i);
      waits := waits + [wait];
    }
  }

  // ----- each `AppState` counts for itself --------------------------------------------------------------

  function OutcomesOf(rounds: seq<Round>, app: nat): seq<Outcome> {
    if rounds == [] then []
    else (if rounds[0].app == app then [rounds[0].outcome] else []) + OutcomesOf(rounds[1..], app)
  }

  function WaitsOf(waits: seq<nat>, rounds: seq<Round>, app: nat): seq<nat>
    requires |waits| == |rounds|
  {
    if rounds == [] then []
    else (if rounds[0].app == app then [waits[0]] else []) + WaitsOf(waits[1..], rounds[1..], app)
  }

  /** The waits after the rounds of one `AppState` depend on those rounds alone, whatever comes between them. */
  lemma {:induction false} WaitsPerApp(next: seq<nat>, rounds: seq<Round>, app: nat)
    requires app < |next| && forall r :: r in rounds ==> r.app < |next|
    ensures WaitsOf(LoopWaits(next, rounds), rounds, app) == Waits(next[app], OutcomesOf(rounds, app))
    decreases |rounds|
  {
    if rounds != [] {
      var wait := RoundWait(next, rounds[0]);
      var after := next[rounds[0].app := Min(wait * 2, CAP)];
      var all := LoopWaits(next, rounds);
      assert all[0] == wait && all[1..] == LoopWaits(after, rounds[1..]);
      WaitsPerApp(after, rounds[1..], app);
      var mine, later := OutcomesOf(rounds, app), OutcomesOf(rounds[1..], app);
      if rounds[0].app == app {
        assert mine[0] == rounds[0].outcome && mine[1..] == later;
        assert Waits(next[app], mine) == [wait] + Waits(after[app], later);
      } else {
        assert mine == later && after[app] == next[app];
      }
    }
  }

  // ----- closed form ------------------------------------------------------------------------------------

  /** How often the counter has been doubled when round `i` ends: from 0 on a fresh state, from 1 after a clean exit. */
  function Level(outcomes: seq<Outcome>, i: nat): nat
    requires i <= |outcomes|
  {
    if i == 0 then 0 else if outcomes[i - 1].Clean? then 1 else Level(outcomes, i - 1) + 1
  }

  function Capped(level: nat): nat {
    Min(Pow2(level), CAP)
  }

  lemma CappedDoubles(level: nat)
    ensures Min(Capped(level) * 2, CAP) == Capped(level + 1)
  {
  }

  /** Waits from a counter that has been doubled `level` times. */
  lemma {:induction false} WaitsFrom(level: nat, outcomes: seq<Outcome>, i: nat)
    requires i < |outcomes|
    ensures Waits(Capped(level), outcomes)[i]
         == if outcomes[i].Clean? then 1
            else Capped(Level(outcomes, i) + (if Clean in outcomes[..i] then 0 else level))
    decreases i
  {
    CappedDoubles(level);
    assert Capped(0) == 1 && Capped(1) == 2 by { assert Pow2(1) == 2 * Pow2(0); }
    if i > 0 {
      var rest := outcomes[1..];
      var after := if outcomes[0].Clean? then 1 else level + 1;
      WaitsFrom(after, rest, i - 1);
      assert outcomes[..i] == [outcomes[0]] + rest[..i - 1];
      LevelShifts(outcomes, i);
    }
  }

  /** Leaving out the first round only matters until the first clean exit. */
  lemma {:induction false} LevelShifts(outcomes: seq<Outcome>, i: nat)
    requires 0 < i <= |outcomes|
    ensures Level(outcomes, i) == Level(outcomes[1..], i - 1) + (if Clean in outcomes[1..][..i - 1] then 0 else 1)
  {
    if i > 1 {
      LevelShifts(outcomes, i - 1);
      assert outcomes[1..][..i - 1] == outcomes[1..][..i - 2] + [outcomes[i - 1]];
    }
  }

  /**
   * The wait after round `i` of an `AppState` that started fresh, whatever the loop does in between: 1 after a clean
   * exit, otherwise the capped power of its level.
   */
  lemma WaitClosedForm(next: seq<nat>, rounds: seq<Round>, app: nat, i: nat)
    requires app < |next| && next[app] == 1 && forall r :: r in rounds ==> r.app < |next|
    requires i < |OutcomesOf(rounds, app)|
    ensures var waits, mine := WaitsOf(LoopWaits(next, rounds), rounds, app), OutcomesOf(rounds, app);
            |waits| == |mine| && waits[i] == if mine[i].Clean? then 1 else Min(Pow2(Level(mine, i)), 300)
  {
    WaitsPerApp(next, rounds, app);
    assert Capped(0) == 1;
    WaitsFrom(0, OutcomesOf(rounds, app), i);
  }

  // ----- totals and the spawn rate -----------------------------------------------------------------------

  function Sum(waits: seq<nat>): nat {
    if waits == [] then 0 else waits[0] + Sum(waits[1..])
  }

  function Failures(n: nat): (outcomes: seq<Outcome>)
    ensures |outcomes| == n && forall k :: 0 <= k < n ==> outcomes[k] == Failure
  {
    seq(n, _ => Failure)
  }

  /** The sum of the first `n` capped powers from `level` on. */
  function CappedSum(level: nat, n: nat): nat
    decreases n
  {
    if n == 0 then 0 else Capped(level) + CappedSum(level + 1, n - 1)
  }

  lemma {:induction false} FailureSum(level: nat, n: nat)
    ensures Sum(Waits(Capped(level), Failures(n))) == CappedSum(level, n)
    decreases n
  {
    if n > 0 {
      CappedDoubles(level);
      assert Failures(n)[1..] == Failures(n - 1);
      FailureSum(level + 1, n - 1);
    }
  }

  lemma {:induction false} CappedSumLast(level: nat, n: nat)
    ensures CappedSum(level, n + 1) == CappedSum(level, n) + Capped(level + n)
    decreases n
  {
    if n > 0 {
      CappedSumLast(level + 1, n - 1);
    }
  }

  lemma SmallPowers()
    ensures Pow2(9) == 512
    ensures forall k: nat :: k <= 8 ==> Pow2(k) <= 256
  {
  }

  lemma {:induction false} PowersGrow(a: nat, b: nat)
    requires a <= b
    ensures Pow2(a) <= Pow2(b)
  {
    if a < b {
      PowersGrow(a, b - 1);
    }
  }

  /** What `n` failures in a row from a fresh state wait in all. */
  function FailureTotal(n: nat): nat {
    if n <= 9 then Pow2(n) - 1 else 511 + 300 * (n - 9)
  }

  lemma {:induction false} FailureTotalIsSum(n: nat)
    ensures CappedSum(0, n) == FailureTotal(n)
  {
    if n > 0 {
      FailureTotalIsSum(n - 1);
      CappedSumLast(0, n - 1);
      SmallPowers();
      if n - 1 > 8 {
        PowersGrow(9, n - 1);
      }
    }
  }

  lemma FailuresTakeTotal(n: nat)
    ensures Sum(Waits(1, Failures(n))) == FailureTotal(n)
  {
    assert Capped(0) == 1;
    FailureSum(0, n);
    FailureTotalIsSum(n);
  }

  /** When the loop starts spawn attempt `i`: each attempt comes no earlier than the wait after the previous one. */
  ghost predicate Paced(starts: seq<nat>, waits: seq<nat>) {
    |starts| == |waits| + 1 && forall i :: 0 <= i < |waits| ==> starts[i + 1] >= starts[i] + waits[i]
  }

  lemma {:induction false} PacedSpan(starts: seq<nat>, waits: seq<nat>)
    requires Paced(starts, waits)
    ensures starts[|waits|] >= starts[0] + Sum(waits)
  {
    if waits != [] {
      assert starts[0 + 1] >= starts[0] + waits[0];
      forall i | 0 <= i < |waits[1..]|
        ensures starts[1..][i + 1] >= starts[1..][i] + waits[1..][i]
      {
        assert starts[i + 1 + 1] >= starts[i + 1] + waits[i + 1];
      }
      PacedSpan(starts[1..], waits[1..]);
    }
  }

  lemma {:induction false} LaterSumsGrow(level: nat, n: nat)
    ensures CappedSum(level, n) >= CappedSum(0, n)
    decreases n
  {
    if n > 0 {
      CappedSumLast(level, n - 1);
      CappedSumLast(0, n - 1);
      LaterSumsGrow(level, n - 1);
      PowersGrow(n - 1, level + n - 1);
    }
  }

  /**
   * Spawn rate while the child keeps failing: whatever the counter stood at, attempt number `n` of a streak comes at
   * least `FailureTotal(n)` seconds after its first, so no more than the stated number fit into `window` seconds.
   */
  lemma FailingSpawnRate(starts: seq<nat>, level: nat, n: nat, window: nat)
    requires Paced(starts, Waits(Capped(level), Failures(n))) && starts[n] <= starts[0] + window
    ensures FailureTotal(n) <= window
    ensures window < 511 ==> n <= 9 && Pow2(n) <= window + 1
    ensures window >= 511 ==> n <= 9 + (window - 511) / 300
  {
    PacedSpan(starts, Waits(Capped(level), Failures(n)));
    FailureSum(level, n);
    LaterSumsGrow(level, n);
    FailureTotalIsSum(n);
    SmallPowers();
  }

  lemma {:induction false} WaitsPositive(next: seq<nat>, rounds: seq<Round>)
    requires (forall r :: r in rounds ==> r.app < |next|) && forall a :: 0 <= a < |next| ==> next[a] > 0
    ensures Sum(LoopWaits(next, rounds)) >= |rounds|
    decreases |rounds|
  {
    if rounds != [] {
      var wait := RoundWait(next, rounds[0]);
      WaitsPositive(next[rounds[0].app := Min(wait * 2, CAP)], rounds[1..]);
    }
  }

  /** Whatever its children do and whichever `AppState`s it meets, a loop attempts at most one spawn a second. */
  lemma SpawnRate(starts: seq<nat>, next: seq<nat>, rounds: seq<Round>)
    requires (forall r :: r in rounds ==> r.app < |next|) && forall a :: 0 <= a < |next| ==> next[a] > 0
    requires Paced(starts, LoopWaits(next, rounds))
    ensures starts[|rounds|] >= starts[0] + |rounds|
  {
    PacedSpan(starts, LoopWaits(next, rounds));
    WaitsPositive(next, rounds);
  }
}
