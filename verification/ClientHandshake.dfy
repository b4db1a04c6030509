/** client.rs, `establish`: retrying the initial connect, and what the first reply to a Hello means. */
module ClientHandshake {
  import opened Prelude
  import opened Frames

  /** `str::contains`. */
  predicate Contains(text: string, part: string) {
    part <= text || (text != "" && Contains(text[1..], part))
  }

  /** `is_transient_connect_msg`. */
  predicate IsTransient(e: BusError) {
    e.Io? && (Contains(e.msg, "Connection refused") || Contains(e.msg, "No such file or directory"))
  }

  /** `part` stands somewhere in `text`. */
  ghost predicate Occurs(part: string, text: string) {
    exists i: nat :: OccursAt(part, text, i)
  }

  predicate OccursAt(part: string, text: string, i: nat) {
    i + |part| <= |text| && text[i..i + |part|] == part
  }

  lemma {:induction false} ContainsExactly(text: string, part: string)
    ensures Contains(text, part) <==> Occurs(part, text)
    decreases |text|
  {
    if part <= text {
      assert OccursAt(part, text, 0);
    } else if text != "" {
      ContainsExactly(text[1..], part);
      if i: nat :| OccursAt(part, text[1..], i) {
        assert text[1..][i..i + |part|] == text[i + 1..i + 1 + |part|];
        assert OccursAt(part, text, i + 1);
      }
      if i: nat :| OccursAt(part, text, i) {
        assert text[i..i + |part|] == part && i > 0;
        assert text[1..][i - 1..i - 1 + |part|] == text[i..i + |part|];
        assert OccursAt(part, text[1..], i - 1);
      }
    }
  }

  /** An I/O failure whose message says that nobody listens at the endpoint yet. */
  ghost predicate NotThereYet(e: BusError) {
    e.Io? && (Occurs("Connection refused", e.msg) || Occurs("No such file or directory", e.msg))
  }

  lemma TransientExactly(e: BusError)
    ensures IsTransient(e) <==> NotThereYet(e)
  {
    if e.Io? {
      ContainsExactly(e.msg, "Connection refused");
      ContainsExactly(e.msg, "No such file or directory");
    }
  }

  const FIRST_WAIT: nat := 50
  const LONGEST_WAIT: nat := 1000

  function NextWait(wait: nat): nat {
    if 2 * wait < LONGEST_WAIT then 2 * wait else LONGEST_WAIT
  }

  /** The wait after failed attempt `k`, in milliseconds. */
  function RetryWait(k: nat): nat {
    if k == 0 then FIRST_WAIT else NextWait(RetryWait(k - 1))
  }

  /** Time spent sleeping after the first `k` failed attempts. */
  function SleptFor(k: nat): nat {
    if k == 0 then 0 else SleptFor(k - 1) + RetryWait(k - 1)
  }

  /** The wait doubles from 50 ms five times; from the sixth retry on it is one second. */
  lemma {:induction false} RetryWaitClosedForm(k: nat)
    ensures RetryWait(0) == 50 && RetryWait(1) == 100 && RetryWait(2) == 200
    ensures RetryWait(3) == 400 && RetryWait(4) == 800
    ensures k >= 5 ==> RetryWait(k) == 1000
    ensures 50 <= RetryWait(k) <= 1000
  {
    assert RetryWait(2) == NextWait(RetryWait(1)) && RetryWait(3) == NextWait(RetryWait(2));
    assert RetryWait(4) == NextWait(RetryWait(3)) && RetryWait(5) == NextWait(RetryWait(4));
    if k > 5 {
      RetryWaitClosedForm(k - 1);
    } else {
      assert k == 0 || k == 1 || k == 2 || k == 3 || k == 4 || k == 5;
    }
  }

  /**
   * The connect loop. `attempt(k)` is what the `k`-th attempt yields and `took(k)` how long it takes; without a
   * configured maximum there is a single attempt.
   */
  method Connect(attempt: nat -> Option<BusError>, took: nat -> nat, maxBackoff: Option<nat>)
    returns (failure: Option<BusError>, attempts: nat)
    ensures attempts > 0 && failure == attempt(attempts - 1)
    ensures forall k :: 0 <= k < attempts - 1 ==> attempt(k).Some? && NotThereYet(attempt(k).value)
    ensures maxBackoff.None? ==> attempts == 1
    ensures maxBackoff.Some? ==> forall k :: 0 <= k < attempts - 1 ==> FailedAt(took, k) < maxBackoff.value
    ensures maxBackoff.Some? ==> SleptFor(attempts - 1) < maxBackoff.value + LONGEST_WAIT
    ensures failure.Some? && maxBackoff.Some? && FailedAt(took, attempts - 1) < maxBackoff.value ==>
              !NotThereYet(failure.value)
  {
    if maxBackoff.None? {
      return attempt(0), 1;
    }
    var now, wait := 0, FIRST_WAIT;
    attempts := 0;
    while true
      invariant wait == RetryWait(attempts) && 50 <= wait <= LONGEST_WAIT
      invariant now == SleptFor(attempts) + Spent(took, attempts)
      invariant attempts > 0 ==> SleptFor(attempts) < maxBackoff.value + LONGEST_WAIT
      invariant forall k :: 0 <= k < attempts ==> FailedAt(took, k) < maxBackoff.value
      invariant forall k :: 0 <= k < attempts ==> attempt(k).Some? && NotThereYet(attempt(k).value)
      decreases maxBackoff.value + LONGEST_WAIT - now
    {
      failure := attempt(attempts);
      now := now + took(attempts);
      attempts := attempts + 1;
      if failure.Some? {
        TransientExactly(failure.value);
      }
      if failure.None? || !IsTransient(failure.value) || now >= maxBackoff.value {
        return;
      }
      now := now + wait;
      wait := NextWait(wait);
    }
  }

  /** Time spent in the first `k` attempts. */
  function Spent(took: nat -> nat, k: nat): nat {
    if k == 0 then 0 else Spent(took, k - 1) + took(k - 1)
  }

  /** When attempt `k` comes back, counted from the first one. */
  function FailedAt(took: nat -> nat, k: nat): nat {
    SleptFor(k) + Spent(took, k + 1)
  }

  /** What the first frame after the Hello decides; `None` is the end of the stream. */
  function FirstReply(reply: Option<BusFrame>): Result<nat, BusError> {
    match reply
    case Some(HelloAck(clientId, _)) => Ok(clientId)
    case Some(ResponseFrame(_, Err(e))) => Err(e)
    case Some(ResponseFrame(_, Ok(_))) => Err(Internal("broker rejected Hello without explaining"))
    case Some(_) => Err(Internal("expected HelloAck"))
    case None => Err(ConnectionClosed)
  }

  /** The client is connected exactly by an ack, under the id it carries; a refusal reaches the caller unchanged. */
  lemma FirstReplyMeaning(reply: Option<BusFrame>, clientId: nat, heartbeatMs: nat, e: BusError, reqId: nat)
    ensures FirstReply(reply).Ok? <==> reply.Some? && reply.value.HelloAck?
    ensures FirstReply(Some(HelloAck(clientId, heartbeatMs))) == Ok(clientId)
    ensures FirstReply(Some(ResponseFrame(reqId, Err(e)))) == Err(e)
    ensures FirstReply(None) == Err(ConnectionClosed)
    ensures FirstReply(reply).Err? && reply.Some? && !(reply.value.ResponseFrame? && reply.value.reply.Err?) ==>
              FirstReply(reply).error.Internal?
  {
  }
}
