/** Byte streams as the codec meets them: any chunking on the way in, any split on the way out, a break anywhere. */
module ByteStreams {
  import opened Prelude

  datatype IoError = IoError(eof: bool, msg: string)

  /** What a reader meets after the last byte. */
  datatype End = Eof | Broken(error: IoError)

  /** `read_exact` reports an end of stream inside its buffer as an error of its own. */
  const EARLY_EOF := IoError(true, "early eof")

  function ExactError(end: End): IoError {
    match end
    case Eof => EARLY_EOF
    case Broken(e) => e
  }

  /** The readable half of a stream. */
  class ByteSource {
    var unread: Bytes
    const end: End

    constructor (data: Bytes, end: End)
      ensures unread == data && this.end == end
    {
      this.unread, this.end := data, end;
    }

    /** One read: any non-empty piece of what is left that fits, or the end of the stream. */
    method Read(max: nat) returns (r: Result<Bytes, IoError>)
      requires max > 0
      modifies this`unread
      ensures old(unread) != [] ==> r.Ok? && 1 <= |r.value| <= max && r.value + unread == old(unread)
      ensures old(unread) == [] ==> unread == [] && r == (if end.Eof? then Ok([]) else Err(end.error))
    {
      if unread == [] {
        r := if end.Eof? then Ok([]) else Err(end.error);
      } else {
        var most := if max < |unread| then max else |unread|;
        var n: nat :| 1 <= n <= most;
        r := Ok(unread[..n]);
        unread := unread[n..];
      }
    }

    /** `read_exact`: fill the whole buffer, from as many reads as it takes. */
    method ReadExact(buf: array<byte>) returns (failure: Option<IoError>)
      modifies this`unread, buf
      ensures buf.Length <= |old(unread)| ==>
                failure.None? && buf[..] == old(unread)[..buf.Length] && unread == old(unread)[buf.Length..]
      ensures buf.Length > |old(unread)| ==> failure == Some(ExactError(end)) && unread == []
    {
      var filled := 0;
      while filled < buf.Length
        invariant filled <= buf.Length && buf[..filled] + unread == old(unread)
      {
        var piece := Read(buf.Length - filled);
        if piece.Err? {
          return Some(piece.error);
        }
        if piece.value == [] {
          return Some(EARLY_EOF);
        }
        ghost var before := buf[..filled];
        forall k | 0 <= k < |piece.value| {
          buf[filled + k] := piece.value[k];
        }
        filled := filled + |piece.value|;
        assert buf[..filled] == before + piece.value;
      }
      failure := None;
    }
  }

  /** How much of `bytes` a stream that breaks after `room` more bytes accepts. */
  function Accepted(bytes: Bytes, room: Option<nat>): Bytes {
    if room.Some? && room.value < |bytes| then bytes[..room.value] else bytes
  }

  function RoomAfter(bytes: Bytes, room: Option<nat>): Option<nat> {
    if room.None? then None else Some(room.value - |Accepted(bytes, room)|)
  }

  /** What is left of the flushes after `n` more of them, of which at most the last has failed. */
  function FlushesAfter(n: nat, flushes: Option<nat>): Option<nat> {
    if flushes.None? then None else if flushes.value < n then Some(0) else Some(flushes.value - n)
  }

  /** What a stream still takes: the bytes before it breaks and the flushes before one fails; `None` is no limit. */
  datatype Limits = Limits(room: Option<nat>, flushes: Option<nat>)

  /** The writable half of a stream. */
  class ByteSink {
    var written: Bytes
    var room: Option<nat>
    var flushes: Option<nat>
    const error: IoError

    constructor (limits: Limits, error: IoError)
      ensures written == [] && Left() == limits && this.error == error
    {
      this.written, this.room, this.flushes, this.error := [], limits.room, limits.flushes, error;
    }

    ghost function Left(): Limits
      reads this
    {
      Limits(room, flushes)
    }

    /** One write: any non-empty prefix may be accepted. */
    method Write(bytes: Bytes) returns (r: Result<nat, IoError>)
      requires bytes != []
      modifies this`written, this`room
      ensures r.Err? <==> old(room) == Some(0)
      ensures r.Err? ==> r.error == error && written == old(written) && room == old(room)
      ensures r.Ok? ==> 1 <= r.value <= |bytes| && written == old(written) + bytes[..r.value]
      ensures r.Ok? ==> (if old(room).None? then room.None?
                         else old(room).value >= r.value && room == Some(old(room).value - r.value))
    {
      if room == Some(0) {
        return Err(error);
      }
      var most := if room.Some? && room.value < |bytes| then room.value else |bytes|;
      var n: nat :| 1 <= n <= most;
      written := written + bytes[..n];
      room := if room.None? then None else Some(room.value - n);
      r := Ok(n);
    }

    /** `write_all`. */
    method WriteAll(bytes: Bytes) returns (failure: Option<IoError>)
      modifies this`written, this`room
      ensures written == old(written) + Accepted(bytes, old(room)) && room == RoomAfter(bytes, old(room))
      ensures failure == if Accepted(bytes, old(room)) == bytes then None else Some(error)
    {
      var done := 0;
      while done < |bytes|
        invariant done <= |bytes| && written == old(written) + bytes[..done]
        invariant if old(room).None? then room.None?
                  else old(room).value >= done && room == Some(old(room).value - done)
      {
        var r := Write(bytes[done..]);
        if r.Err? {
          assert Accepted(bytes, old(room)) == bytes[..done];
          return Some(r.error);
        }
        assert bytes[..done] + bytes[done..][..r.value] == bytes[..done + r.value];
        done := done + r.value;
      }
      assert bytes[..done] == bytes;
      failure := None;
    }

    method Flush() returns (failure: Option<IoError>)
      modifies this`flushes
      ensures failure == if old(flushes) == Some(0) then Some(error) else None
      ensures flushes == FlushesAfter(1, old(flushes))
    {
      if flushes == Some(0) {
        return Some(error);
      }
      flushes := if flushes.None? then None else Some(flushes.value - 1);
      failure := None;
    }
  }

  /** Writing twice is writing once. */
  lemma AcceptedTwice(a: Bytes, b: Bytes, room: Option<nat>)
    ensures Accepted(a, room) == a ==>
              && Accepted(a + b, room) == a + Accepted(b, RoomAfter(a, room))
              && RoomAfter(a + b, room) == RoomAfter(b, RoomAfter(a, room))
    ensures Accepted(a, room) != a ==> Accepted(a + b, room) == Accepted(a, room) != a + b
  {
  }
}
