/** codec.rs: length-prefixed frames over a byte stream, with the MessagePack encoding of a value left abstract. */
module Codec {
  import opened Prelude
  import opened Frames
  import opened ByteStreams

  const MAX_FRAME_BYTES: nat := 32 * 1024 * 1024

  /** An encoder and decoder pair; either may fail with a message. */
  datatype Serde<!T> = Serde(encode: T -> Result<Bytes, string>, decode: Bytes -> Result<T, string>)

  ghost predicate RoundTrips<T(!new)>(sd: Serde<T>) {
    forall v: T :: sd.encode(v).Ok? ==> sd.decode(sd.encode(v).value) == Ok(v)
  }

  // ----- the four length bytes ---------------------------------------------------------------------------

  /** `u32::to_be_bytes`. */
  function ToBeBytes(n: nat): (b: Bytes)
    requires n < U32_LIMIT
    ensures |b| == 4
  {
    [n / 0x100_0000, n / 0x1_0000 % 0x100, n / 0x100 % 0x100, n % 0x100]
  }

  /** `u32::from_be_bytes`. */
  function FromBeBytes(b: Bytes): (n: nat)
    requires |b| == 4
    ensures n < U32_LIMIT
  {
    0x100_0000 * (b[0] as int) + 0x1_0000 * (b[1] as int) + 0x100 * (b[2] as int) + b[3] as int
  }

  /** Four bytes, the most significant first, that read back as the length. */
  lemma LengthRoundTrip(n: nat)
    requires n < U32_LIMIT
    ensures FromBeBytes(ToBeBytes(n)) == n
    ensures var b := ToBeBytes(n);
            |b| == 4 && b[0] == n / 16777216 && b[1] == n / 65536 % 256 && b[2] == n / 256 % 256 && b[3] == n % 256
  {
    var hi, mid, lo := n / 0x100_0000, n / 0x1_0000, n / 0x100;
    assert mid == hi * 0x100 + mid % 0x100;
    assert lo == mid * 0x100 + lo % 0x100;
  }

  // ----- one frame ----------------------------------------------------------------------------------------

  /** Whether `write_frame` gets as far as writing. */
  predicate Writable<T>(sd: Serde<T>, v: T) {
    sd.encode(v).Ok? && |sd.encode(v).value| <= MAX_FRAME_BYTES
  }

  /** `[u32 BE len][payload]`. */
  function FrameBytes<T>(sd: Serde<T>, v: T): (b: Bytes)
    requires Writable(sd, v)
    ensures |b| == 4 + |sd.encode(v).value|
  {
    ToBeBytes(|sd.encode(v).value|) + sd.encode(v).value
  }

  /** Why `write_frame` refuses a value before touching the stream. */
  function Refusal<T>(sd: Serde<T>, v: T): BusError
    requires !Writable(sd, v)
  {
    match sd.encode(v)
    case Err(e) => BusError.Codec("encode: " + e)
    case Ok(bytes) => FrameTooLarge(|bytes|, MAX_FRAME_BYTES)
  }

  method WriteFrame<T>(sd: Serde<T>, w: ByteSink, v: T) returns (failure: Option<BusError>)
    modifies w
    ensures !Writable(sd, v) ==>
              failure == Some(Refusal(sd, v)) && w.written == old(w.written) && w.Left() == old(w.Left())
    ensures Writable(sd, v) ==>
              var frame := FrameBytes(sd, v);
              var sent := Accepted(frame, old(w.room));
              && w.written == old(w.written) + sent && w.Left() == FrameLeaves(frame, old(w.Left()))
              && failure == if sent == frame && old(w.flushes) != Some(0) then None else Some(Io(w.error.msg))
    ensures sd.encode(v).Ok? ==>
              (failure == Some(FrameTooLarge(|sd.encode(v).value|, 33554432)) <==> |sd.encode(v).value| > 33554432)
    ensures sd.encode(v).Err? ==> failure == Some(BusError.Codec("encode: " + sd.encode(v).error))
  {
    var bytes := sd.encode(v);
    if bytes.Err? {
      return Some(BusError.Codec("encode: " + bytes.error));
    }
    if |bytes.value| > MAX_FRAME_BYTES {
      return Some(FrameTooLarge(|bytes.value|, MAX_FRAME_BYTES));
    }
    AcceptedTwice(ToBeBytes(|bytes.value|), bytes.value, w.room);
    var e := w.WriteAll(ToBeBytes(|bytes.value|));
    if e.Some? {
      return Some(Io(e.value.msg));
    }
    e := w.WriteAll(bytes.value);
    if e.Some? {
      return Some(Io(e.value.msg));
    }
    e := w.Flush();
    if e.Some? {
      return Some(Io(e.value.msg));
    }
    failure := None;
  }

  /** What a stream still takes after a frame: a frame it has taken whole is flushed. */
  function FrameLeaves(frame: Bytes, left: Limits): Limits {
    Limits(RoomAfter(frame, left.room),
           if Accepted(frame, left.room) == frame then FlushesAfter(1, left.flushes) else left.flushes)
  }

  /** Result of reading one frame and what is left of the stream. */
  datatype Parsed<T> = Parsed(result: Result<Option<T>, BusError>, rest: Bytes)

  /** What `read_frame_opt` returns on a stream that holds `data` and then ends as `end` says. */
  function ParseFrame<T>(sd: Serde<T>, data: Bytes, end: End): (p: Parsed<T>)
    ensures p.result.Ok? && p.result.value.Some? ==> |p.rest| < |data|
  {
    if |data| < 4 then
      Parsed(if ExactError(end).eof then Ok(None) else Err(Io(ExactError(end).msg)), [])
    else
      var len, body := FromBeBytes(data[..4]), data[4..];
      if len > MAX_FRAME_BYTES then Parsed(Err(FrameTooLarge(len, MAX_FRAME_BYTES)), body)
      else if |body| < len then Parsed(Err(Io(ExactError(end).msg)), [])
      else
        Parsed(match sd.decode(body[..len])
               case Ok(v) => Ok(Some(v))
               case Err(e) => Err(BusError.Codec("decode: " + e)),
               body[len..])
  }

  method ReadFrameOpt<T>(sd: Serde<T>, r: ByteSource) returns (result: Result<Option<T>, BusError>)
    modifies r`unread
    ensures Parsed(result, r.unread) == ParseFrame(sd, old(r.unread), r.end)
  {
    var lenBuf := new byte[4];
    var e := r.ReadExact(lenBuf);
    if e.Some? {
      return if e.value.eof then Ok(None) else Err(Io(e.value.msg));
    }
    var len := FromBeBytes(lenBuf[..]);
    if len > MAX_FRAME_BYTES {
      return Err(FrameTooLarge(len, MAX_FRAME_BYTES));
    }
    var buf := new byte[len];
    e := r.ReadExact(buf);
    if e.Some? {
      return Err(Io(e.value.msg));
    }
    match sd.decode(buf[..]) {
      case Ok(v) => result := Ok(Some(v));
      case Err(msg) => result := Err(BusError.Codec("decode: " + msg));
    }
  }

  /** `read_frame`: an end of stream is an error too. */
  method ReadFrame<T>(sd: Serde<T>, r: ByteSource) returns (result: Result<T, BusError>)
    modifies r`unread
    ensures var p := ParseFrame(sd, old(r.unread), r.end);
            && r.unread == p.rest
            && result == match p.result
                         case Ok(Some(v)) => Ok(v)
                         case Ok(None) => Err(ConnectionClosed)
                         case Err(e) => Err(e)
  {
    var read := ReadFrameOpt(sd, r);
    match read {
      case Ok(Some(v)) => result := Ok(v);
      case Ok(None) => result := Err(ConnectionClosed);
      case Err(e) => result := Err(e);
    }
  }

  // ----- writer task and reader loop --------------------------------------------------------------------------

  function FramesBytes<T>(sd: Serde<T>, vs: seq<T>): Bytes
    requires forall v :: v in vs ==> Writable(sd, v)
  {
    if vs == [] then [] else FrameBytes(sd, vs[0]) + FramesBytes(sd, vs[1..])
  }

  /** Where the writer task stops on a stream that never breaks: at the first value it must refuse. */
  function FirstRefused<T>(sd: Serde<T>, vs: seq<T>): (k: nat)
    ensures k <= |vs| && (forall j :: 0 <= j < k ==> Writable(sd, vs[j])) && (k < |vs| ==> !Writable(sd, vs[k]))
  {
    if vs == [] || !Writable(sd, vs[0]) then 0 else 1 + FirstRefused(sd, vs[1..])
  }

  lemma {:induction false} FramesAppend<T>(sd: Serde<T>, vs: seq<T>, v: T)
    requires (forall x :: x in vs ==> Writable(sd, x)) && Writable(sd, v)
    ensures forall x :: x in vs + [v] ==> Writable(sd, x)
    ensures FramesBytes(sd, vs + [v]) == FramesBytes(sd, vs) + FrameBytes(sd, v)
  {
    if vs == [] {
      assert vs + [v] == [v] && [v][1..] == [];
    } else {
      assert (vs + [v])[1..] == vs[1..] + [v];
      FramesAppend(sd, vs[1..], v);
    }
  }

  /** How many frames the writer task begins on a stream that takes all bytes: it also stops when a flush fails. */
  function Begun<T>(sd: Serde<T>, vs: seq<T>, flushes: Option<nat>): (k: nat)
    ensures k <= FirstRefused(sd, vs)
    ensures k < FirstRefused(sd, vs) ==> flushes.Some? && k == flushes.value + 1
  {
    var n := FirstRefused(sd, vs);
    if flushes.Some? && flushes.value < n then flushes.value + 1 else n
  }

  /** All frames so far were written and flushed, and this is what the stream still takes. */
  ghost predicate WrittenUpTo<T>(sd: Serde<T>, queue: seq<T>, k: nat, limits: Limits, left: Limits) {
    && k <= FirstRefused(sd, queue) && (limits.flushes.Some? ==> k <= limits.flushes.value)
    && Accepted(FramesBytes(sd, queue[..k]), limits.room) == FramesBytes(sd, queue[..k])
    && left == Limits(RoomAfter(FramesBytes(sd, queue[..k]), limits.room), FlushesAfter(k, limits.flushes))
  }

  lemma FrameWritten<T>(sd: Serde<T>, queue: seq<T>, k: nat, limits: Limits, left: Limits)
    requires WrittenUpTo(sd, queue, k, limits, left) && k < FirstRefused(sd, queue)
    requires Accepted(FrameBytes(sd, queue[k]), left.room) == FrameBytes(sd, queue[k])
    ensures FramesBytes(sd, queue[..k + 1]) == FramesBytes(sd, queue[..k]) + FrameBytes(sd, queue[k])
    ensures Accepted(FramesBytes(sd, queue[..k + 1]), limits.room) == FramesBytes(sd, queue[..k + 1])
    ensures left.flushes != Some(0) ==>
              WrittenUpTo(sd, queue, k + 1, limits, FrameLeaves(FrameBytes(sd, queue[k]), left))
  {
    assert queue[..k + 1] == queue[..k] + [queue[k]];
    FramesAppend(sd, queue[..k], queue[k]);
    AcceptedTwice(FramesBytes(sd, queue[..k]), FrameBytes(sd, queue[k]), limits.room);
  }

  /** A frame's bytes split the bytes of all frames into those before, its own, and those after. */
  lemma FramesAround<T>(sd: Serde<T>, vs: seq<T>, k: nat)
    requires k < |vs| && forall v :: v in vs ==> Writable(sd, v)
    ensures FramesBytes(sd, vs)
         == FramesBytes(sd, vs[..k]) + (FrameBytes(sd, vs[k]) + FramesBytes(sd, vs[k + 1..]))
  {
    assert vs == vs[..k] + vs[k..] && vs[k..][1..] == vs[k + 1..];
    FramesConcat(sd, vs[..k], vs[k..]);
  }

  /** The stream broke inside frame `k`: nothing after it is accepted. */
  lemma FrameBroken<T>(sd: Serde<T>, queue: seq<T>, k: nat, limits: Limits, left: Limits)
    requires WrittenUpTo(sd, queue, k, limits, left) && k < FirstRefused(sd, queue)
    requires Accepted(FrameBytes(sd, queue[k]), left.room) != FrameBytes(sd, queue[k])
    ensures var done := FramesBytes(sd, queue[..Begun(sd, queue, limits.flushes)]);
            Accepted(done, limits.room)
            == FramesBytes(sd, queue[..k]) + Accepted(FrameBytes(sd, queue[k]), left.room) != done
  {
    var done := queue[..Begun(sd, queue, limits.flushes)];
    assert done[..k] == queue[..k];
    var b, c := FrameBytes(sd, done[k]), FramesBytes(sd, done[k + 1..]);
    FramesAround(sd, done, k);
    AcceptedTwice(FramesBytes(sd, done[..k]), b + c, limits.room);
    AcceptedTwice(b, c, left.room);
    assert |Accepted(b, left.room)| < |b|;
  }

  /**
   * What a writer task leaves on the stream: the frames up to the first refused value or failed flush, as far as the
   * stream took them.
   */
  ghost predicate WriterOutcome<T>(sd: Serde<T>, queue: seq<T>, limits: Limits, output: Bytes, failed: bool) {
    var n := FirstRefused(sd, queue);
    var done := FramesBytes(sd, queue[..Begun(sd, queue, limits.flushes)]);
    && output == Accepted(done, limits.room)
    && (failed <==>
          n < |queue| || (limits.flushes.Some? && limits.flushes.value < n) || Accepted(done, limits.room) != done)
  }

  /** What `WriteFrame` puts on a stream that takes `left`. */
  function FramePart<T>(sd: Serde<T>, v: T, left: Limits): Bytes {
    if Writable(sd, v) then Accepted(FrameBytes(sd, v), left.room) else []
  }

  predicate FrameSent<T>(sd: Serde<T>, v: T, left: Limits) {
    Writable(sd, v) && Accepted(FrameBytes(sd, v), left.room) == FrameBytes(sd, v) && left.flushes != Some(0)
  }

  /** A frame that was not sent is the last one begun. */
  lemma StoppedAt<T>(sd: Serde<T>, queue: seq<T>, k: nat, limits: Limits, left: Limits)
    requires WrittenUpTo(sd, queue, k, limits, left) && k < |queue| && !FrameSent(sd, queue[k], left)
    ensures WriterOutcome(sd, queue, limits, FramesBytes(sd, queue[..k]) + FramePart(sd, queue[k], left), true)
  {
    if !Writable(sd, queue[k]) {
      assert FramesBytes(sd, queue[..k]) + [] == FramesBytes(sd, queue[..k]);
    } else if Accepted(FrameBytes(sd, queue[k]), left.room) != FrameBytes(sd, queue[k]) {
      FrameBroken(sd, queue, k, limits, left);
    } else {
      FrameWritten(sd, queue, k, limits, left);
    }
  }

  lemma AllWritten<T>(sd: Serde<T>, queue: seq<T>, limits: Limits, left: Limits)
    requires WrittenUpTo(sd, queue, |queue|, limits, left)
    ensures queue[..|queue|] == queue && WriterOutcome(sd, queue, limits, FramesBytes(sd, queue), false)
  {
  }

  /** The writer task over the frames its channel yields, ending at the first failure. */
  method WriterTask<T>(sd: Serde<T>, w: ByteSink, queue: seq<T>)
    returns (failure: Option<BusError>, ghost output: Bytes)
    modifies w
    ensures w.written == old(w.written) + output && WriterOutcome(sd, queue, old(w.Left()), output, failure.Some?)
  {
    var k := 0;
    ghost var limits, before := w.Left(), w.written;
    while k < |queue|
      invariant WrittenUpTo(sd, queue, k, limits, w.Left()) && w.written == before + FramesBytes(sd, queue[..k])
    {
      ghost var left := w.Left();
      ghost var done, part := FramesBytes(sd, queue[..k]), FramePart(sd, queue[k], left);
      failure := WriteFrame(sd, w, queue[k]);
      assert w.written == before + (done + part);
      if failure.Some? {
        StoppedAt(sd, queue, k, limits, left);
        output := done + part;
        return;
      }
      FrameWritten(sd, queue, k, limits, left);
      k := k + 1;
    }
    output := FramesBytes(sd, queue);
    AllWritten(sd, queue, old(w.Left()), w.Left());
    failure := None;
  }

  lemma {:induction false} FramesConcat<T>(sd: Serde<T>, a: seq<T>, b: seq<T>)
    requires forall v :: v in a + b ==> Writable(sd, v)
    ensures (forall v :: v in a ==> Writable(sd, v)) && (forall v :: v in b ==> Writable(sd, v))
    ensures FramesBytes(sd, a + b) == FramesBytes(sd, a) + FramesBytes(sd, b)
  {
    assert forall v :: v in a ==> v in a + b;
    assert forall v :: v in b ==> v in a + b;
    if a == [] {
      assert a + b == b;
    } else {
      assert (a + b)[1..] == a[1..] + b;
      FramesConcat(sd, a[1..], b);
    }
  }

  /** Everything a reader loop gets before the stream ends cleanly (`None`) or with an error. */
  datatype Reading<T> = Reading(frames: seq<T>, failure: Option<BusError>)

  function ReadAll<T>(sd: Serde<T>, data: Bytes, end: End): Reading<T>
    decreases |data|
  {
    var p := ParseFrame(sd, data, end);
    match p.result
    case Err(e) => Reading([], Some(e))
    case Ok(None) => Reading([], None)
    case Ok(Some(v)) =>
      var more := ReadAll(sd, p.rest, end);
      Reading([v] + more.frames, more.failure)
  }

  /** The reader loop of either side. */
  method ReaderLoop<T>(sd: Serde<T>, r: ByteSource) returns (frames: seq<T>, failure: Option<BusError>)
    modifies r`unread
    ensures Reading(frames, failure) == ReadAll(sd, old(r.unread), r.end)
  {
    frames := [];
    while true
      invariant ReadAll(sd, old(r.unread), r.end)
             == Reading(frames + ReadAll(sd, r.unread, r.end).frames, ReadAll(sd, r.unread, r.end).failure)
      decreases |r.unread|
    {
      ghost var more := ReadAll(sd, r.unread, r.end).frames;
      var read := ReadFrameOpt(sd, r);
      if read.Err? {
        return frames, Some(read.error);
      }
      if read.value.None? {
        return frames, None;
      }
      assert frames + more == (frames + [read.value.value]) + more[1..];
      frames := frames + [read.value.value];
    }
  }

  // ----- round trips -----------------------------------------------------------------------------------------------

  lemma ParseWritten<T(!new)>(sd: Serde<T>, v: T, rest: Bytes, end: End)
    requires RoundTrips(sd) && Writable(sd, v)
    ensures ParseFrame(sd, FrameBytes(sd, v) + rest, end) == Parsed(Ok(Some(v)), rest)
  {
    var payload := sd.encode(v).value;
    var data := FrameBytes(sd, v) + rest;
    LengthRoundTrip(|payload|);
    assert data[..4] == ToBeBytes(|payload|);
    assert data[4..] == payload + rest;
    assert (payload + rest)[..|payload|] == payload && (payload + rest)[|payload|..] == rest;
  }

  lemma ReadWritten<T(!new)>(sd: Serde<T>, v: T, rest: Bytes, end: End)
    requires RoundTrips(sd) && Writable(sd, v)
    ensures ReadAll(sd, FrameBytes(sd, v) + rest, end) == After([v], ReadAll(sd, rest, end))
  {
    ParseWritten(sd, v, rest, end);
  }

  lemma FrontFrame<T>(sd: Serde<T>, vs: seq<T>, tail: Bytes)
    requires vs != [] && forall v :: v in vs ==> Writable(sd, v)
    ensures FramesBytes(sd, vs) + tail == FrameBytes(sd, vs[0]) + (FramesBytes(sd, vs[1..]) + tail)
  {
  }

  /** `vs` is read first, and then whatever `more` says. */
  function After<T>(vs: seq<T>, more: Reading<T>): Reading<T> {
    Reading(vs + more.frames, more.failure)
  }

  /** Framing round trip: a concatenation of frames reads back as exactly those values, then the rest. */
  lemma {:induction false} FramesReadBack<T(!new)>(sd: Serde<T>, vs: seq<T>, tail: Bytes, end: End)
    requires RoundTrips(sd) && forall v :: v in vs ==> Writable(sd, v)
    ensures ReadAll(sd, FramesBytes(sd, vs) + tail, end) == After(vs, ReadAll(sd, tail, end))
  {
    if vs == [] {
      assert FramesBytes(sd, vs) + tail == tail;
    } else {
      FrontFrame(sd, vs, tail);
      ReadWritten(sd, vs[0], FramesBytes(sd, vs[1..]) + tail, end);
      FramesReadBack(sd, vs[1..], tail, end);
      AfterBoth(vs, ReadAll(sd, tail, end));
    }
  }

  lemma AfterBoth<T>(vs: seq<T>, more: Reading<T>)
    requires vs != []
    ensures After([vs[0]], After(vs[1..], more)) == After(vs, more)
  {
  }

  // ----- truncation ----------------------------------------------------------------------------------------------

  /** How many whole frames lie before a cut after `n` bytes. */
  function WholeFrames<T>(sd: Serde<T>, vs: seq<T>, n: nat): (k: nat)
    requires forall v :: v in vs ==> Writable(sd, v)
    ensures k <= |vs| && |FramesBytes(sd, vs[..k])| <= n
    ensures k < |vs| ==> n < |FramesBytes(sd, vs[..k])| + |FrameBytes(sd, vs[k])|
  {
    if vs == [] || n < |FrameBytes(sd, vs[0])| then 0
    else
      var k := WholeFrames(sd, vs[1..], n - |FrameBytes(sd, vs[0])|);
      assert vs[..k + 1][1..] == vs[1..][..k];
      k + 1
  }

  /** What a reader makes of a stream that ends `left` bytes into a frame: nothing at all, or an error in the body. */
  function CutOutcome(left: nat, end: End): Option<BusError> {
    if left < 4 && ExactError(end).eof then None else Some(Io(ExactError(end).msg))
  }

  /** The whole frames before a cut after `n` bytes, and what the rest amounts to. */
  function CutReading<T>(sd: Serde<T>, vs: seq<T>, n: nat, end: End): Reading<T>
    requires forall v :: v in vs ==> Writable(sd, v)
  {
    var k := WholeFrames(sd, vs, n);
    Reading(vs[..k], CutOutcome(n - |FramesBytes(sd, vs[..k])|, end))
  }

  lemma CutInsideFrame<T>(sd: Serde<T>, v: T, left: nat, end: End)
    requires Writable(sd, v) && left < |FrameBytes(sd, v)|
    ensures ReadAll(sd, FrameBytes(sd, v)[..left], end) == Reading([], CutOutcome(left, end))
  {
    var payload := sd.encode(v).value;
    var data := FrameBytes(sd, v)[..left];
    if left >= 4 {
      LengthRoundTrip(|payload|);
      assert data[..4] == ToBeBytes(|payload|);
    }
  }

  lemma PrefixLater<T>(sd: Serde<T>, vs: seq<T>, k: nat)
    requires k < |vs| && forall v :: v in vs ==> Writable(sd, v)
    ensures vs[..k + 1] == [vs[0]] + vs[1..][..k]
    ensures |FramesBytes(sd, vs[..k + 1])| == |FrameBytes(sd, vs[0])| + |FramesBytes(sd, vs[1..][..k])|
  {
    assert vs[..k + 1][0] == vs[0] && vs[..k + 1][1..] == vs[1..][..k];
  }

  lemma WholeLater<T>(sd: Serde<T>, vs: seq<T>, n: nat)
    requires vs != [] && (forall v :: v in vs ==> Writable(sd, v)) && n >= |FrameBytes(sd, vs[0])|
    ensures WholeFrames(sd, vs, n) == WholeFrames(sd, vs[1..], n - |FrameBytes(sd, vs[0])|) + 1
  {
  }

  /** A cut behind the first frame is a cut of the rest. */
  lemma CutLater<T>(sd: Serde<T>, vs: seq<T>, n: nat, end: End)
    requires vs != [] && (forall v :: v in vs ==> Writable(sd, v)) && n >= |FrameBytes(sd, vs[0])|
    ensures CutReading(sd, vs, n, end)
         == After([vs[0]], CutReading(sd, vs[1..], n - |FrameBytes(sd, vs[0])|, end))
  {
    var left := n - |FrameBytes(sd, vs[0])|;
    var k := WholeFrames(sd, vs[1..], left);
    WholeLater(sd, vs, n);
    PrefixLater(sd, vs, k);
    assert n - |FramesBytes(sd, vs[..k + 1])| == left - |FramesBytes(sd, vs[1..][..k])|;
  }

  /**
   * Truncation: a stream of frames cut anywhere yields the whole frames before the cut, and then a clean end when at
   * most three header bytes are left over and an I/O error when the cut is after a complete header.
   */
  lemma {:induction false} CutAnywhere<T(!new)>(sd: Serde<T>, vs: seq<T>, n: nat, end: End)
    requires RoundTrips(sd) && (forall v :: v in vs ==> Writable(sd, v)) && n <= |FramesBytes(sd, vs)|
    ensures ReadAll(sd, FramesBytes(sd, vs)[..n], end) == CutReading(sd, vs, n, end)
  {
    if vs == [] {
      assert FramesBytes(sd, vs)[..n] == [];
    } else {
      var first, rest := FrameBytes(sd, vs[0]), FramesBytes(sd, vs[1..]);
      if n < |first| {
        assert (first + rest)[..n] == first[..n];
        CutInsideFrame(sd, vs[0], n, end);
      } else {
        assert (first + rest)[..n] == first + rest[..n - |first|];
        ReadWritten(sd, vs[0], rest[..n - |first|], end);
        CutAnywhere(sd, vs[1..], n - |first|, end);
        CutLater(sd, vs, n, end);
      }
    }
  }

  // ----- the bytes on the wire -------------------------------------------------------------------------------------

  /** A frame is the payload behind its length, four bytes with the most significant first. */
  lemma FrameLayout<T>(sd: Serde<T>, v: T)
    requires Writable(sd, v)
    ensures var b, n := FrameBytes(sd, v), |sd.encode(v).value|;
            && b[0] == n / 16777216 && b[1] == n / 65536 % 256 && b[2] == n / 256 % 256 && b[3] == n % 256
            && b[4..] == sd.encode(v).value
  {
  }

  /** A value is written exactly when its encoding has at most 32 MiB. */
  lemma WritableExactly<T>(sd: Serde<T>, v: T)
    ensures Writable(sd, v) <==> sd.encode(v).Ok? && |sd.encode(v).value| <= 33554432
  {
  }

  function HeaderSum(data: Bytes): nat
    requires |data| >= 4
  {
    16777216 * (data[0] as nat) + 65536 * (data[1] as nat) + 256 * (data[2] as nat) + data[3] as nat
  }

  /**
   * A reader takes the length from the first four bytes, most significant first, refuses exactly the lengths above
   * 32 MiB, and decodes that many bytes behind them.
   */
  lemma ParseLayout<T>(sd: Serde<T>, data: Bytes, end: End)
    requires |data| >= 4
    ensures var p, n := ParseFrame(sd, data, end), HeaderSum(data);
            && (p.result == Err(FrameTooLarge(n, 33554432)) <==> n > 33554432)
            && (n > 33554432 ==> p.rest == data[4..])
            && (n <= 33554432 && |data| >= 4 + n ==>
                  && p.rest == data[4 + n..]
                  && p.result == match sd.decode(data[4..4 + n])
                                 case Ok(v) => Ok(Some(v))
                                 case Err(e) => Err(BusError.Codec("decode: " + e)))
            && (n <= 33554432 && |data| < 4 + n ==> p.result.Err? && p.result.error.Io?)
  {
    assert data[..4][0] == data[0] && data[..4][1] == data[1] && data[..4][2] == data[2] && data[..4][3] == data[3];
    var n := HeaderSum(data);
    if n <= 33554432 && |data| >= 4 + n {
      assert data[4..][..n] == data[4..4 + n] && data[4..][n..] == data[4 + n..];
    }
  }

  // ----- the two ends agree ----------------------------------------------------------------------------------------

  /** The size limit is the same on both sides, and the reader applies it before it reads any of the body. */
  lemma OversizedHeader<T>(sd: Serde<T>, data: Bytes, end: End)
    requires |data| >= 4
    ensures var refused := Parsed(Err(FrameTooLarge(FromBeBytes(data[..4]), MAX_FRAME_BYTES)), data[4..]);
            FromBeBytes(data[..4]) > MAX_FRAME_BYTES <==> ParseFrame(sd, data, end) == refused
  {
  }

  /**
   * A writer task and a reader loop over one stream are a FIFO that can only lose a suffix: whatever byte the stream
   * breaks at and whichever flush fails, the reader gets a prefix of the queue, and all of it up to the first refused
   * value if nothing goes wrong.
   */
  lemma WriterReaderFifo<T(!new)>(sd: Serde<T>, queue: seq<T>, limits: Limits, output: Bytes, failed: bool, end: End)
    requires RoundTrips(sd) && WriterOutcome(sd, queue, limits, output, failed)
    ensures ReadAll(sd, output, end).frames <= queue
    ensures limits.room.None? ==> ReadAll(sd, output, end).frames == queue[..Begun(sd, queue, limits.flushes)]
    ensures limits == Limits(None, None) ==> ReadAll(sd, output, end).frames == queue[..FirstRefused(sd, queue)]
    ensures !failed ==> ReadAll(sd, output, end).frames == queue
  {
    var done := queue[..Begun(sd, queue, limits.flushes)];
    var bytes := FramesBytes(sd, done);
    CutAnywhere(sd, done, |output|, end);
    assert bytes[..|output|] == output;
    if output == bytes {
      FramesReadBack(sd, done, [], end);
      assert bytes + [] == bytes && done + [] == done;
    }
  }
}
