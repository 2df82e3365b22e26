/** Reading a stream that returns short reads, proved against the parsers of `Wires` for every schedule. */
module WireReaders {
  import opened Basics
  import opened Wires

  function Lesser(a: nat, b: nat): nat { if a < b then a else b }

  /** An inbound stream. `grain` is the schedule: how much the i-th read yields at most, beyond the first byte. */
  class Stream {
    const data: Bytes
    const grain: nat -> nat
    var pos: nat
    var calls: nat

    ghost predicate Valid()
      reads this
    {
      pos <= |data|
    }

    constructor (data: Bytes, grain: nat -> nat)
      ensures Valid() && pos == 0 && this.data == data && this.grain == grain
    {
      this.data, this.grain := data, grain;
      pos, calls := 0, 0;
    }

    /** Yields some bytes, fewer than wanted at will; none only at the end or when none are wanted. */
    method PollRead(want: nat) returns (out: Bytes)
      requires Valid()
      modifies this
      ensures Valid() && old(pos) <= pos && out == data[old(pos)..pos] && |out| <= want
      ensures out == [] <==> want == 0 || old(pos) == |data|
    {
      var n := Lesser(Lesser(want, |data| - pos), grain(calls) + 1);
      out := data[pos..pos + n];
      pos, calls := pos + n, calls + 1;
    }

    method Fill(n: nat) returns (r: Result<Bytes, IoError>)
      requires Valid()
      modifies this
      ensures Valid()
      ensures match ReadExact(data, old(pos), n)
              case Ok((bytes, next)) => r == Ok(bytes) && pos == next
              case Err(e) => r == Err(e)
    {
      var out: Bytes := [];
      while |out| < n
        invariant Valid() && |out| <= n && old(pos) + |out| == pos && out == data[old(pos)..pos]
      {
        var more := PollRead(n - |out|);
        if more == [] { return Err(UnexpectedEof); }
        out := out + more;
      }
      return Ok(out);
    }

    method TakeSelector() returns (r: Result<Protocol, IoError>)
      requires Valid()
      modifies this
      ensures Valid()
      ensures match ReadSelector(data, old(pos))
              case Ok((p, next)) => r == Ok(p) && pos == next
              case Err(e) => r == Err(e)
    {
      var b := Fill(1);
      match b
      case Err(e) => return Err(e);
      case Ok(bytes) => return FromSelector(bytes[0]);
    }

    method TakeFramed(codec: Codec) returns (r: Result<Header, IoError>)
      requires Valid()
      modifies this
      ensures Valid()
      ensures match ReadFramed(codec, data, old(pos))
              case Ok((h, next)) => r == Ok(h) && pos == next
              case Err(e) => r == Err(e)
    {
      var b := Fill(4);
      if b.Err? { return Err(b.error); }
      var len := FromBe32(b.value);
      if len > MAX_FRAME_BYTES { return Err(InvalidData); }
      var body := Fill(len);
      if body.Err? { return Err(body.error); }
      match codec.decode(body.value)
      case None => return Err(InvalidData);
      case Some(h) => return Ok(h);
    }
  }

  /** A reader bounded to the payload's declared length. */
  class ChunkPayloadReader {
    const stream: Stream
    var remaining: nat

    constructor (stream: Stream, remaining: nat)
      ensures this.stream == stream && this.remaining == remaining
    {
      this.stream, this.remaining := stream, remaining;
    }

    /**
     * One read into a buffer with room for `room` bytes: clean end once everything was read, an error when the stream
     * ends early, and also when the buffer has no room.
     */
    method PollRead(room: nat) returns (r: Result<Bytes, IoError>)
      requires stream.Valid()
      modifies this, stream
      ensures stream.Valid()
      ensures old(remaining) == 0 ==> r == Ok([]) && remaining == 0 && stream.pos == old(stream.pos)
      ensures r.Err? <==> old(remaining) > 0 && (room == 0 || old(stream.pos) == |stream.data|)
      ensures r.Err? ==> r.error == UnexpectedEof && remaining == old(remaining)
      ensures r.Ok? ==>
                && |r.value| <= room
                && stream.pos == old(stream.pos) + |r.value| && remaining == old(remaining) - |r.value|
                && r.value == stream.data[old(stream.pos)..stream.pos]
                && (old(remaining) > 0 ==> r.value != [])
    {
      if remaining == 0 { return Ok([]); }
      var want := Lesser(remaining, room);
      var out := stream.PollRead(want);
      if |out| == 0 { return Err(UnexpectedEof); }
      remaining := remaining - |out|;
      return Ok(out);
    }

    /** Reads to the end into nonempty buffers: exactly the declared bytes, or an error if the stream is short. */
    method ReadToEnd(room: nat -> nat) returns (r: Result<Bytes, IoError>)
      requires stream.Valid() && forall i: nat :: room(i) > 0
      modifies this, stream
      ensures stream.Valid()
      ensures match ReadExact(stream.data, old(stream.pos), old(remaining))
              case Ok((bytes, next)) => r == Ok(bytes) && stream.pos == next && remaining == 0
              case Err(e) => r == Err(e)
    {
      var out: Bytes := [];
      var i := 0;
      while true
        invariant stream.Valid()
        invariant |out| + remaining == old(remaining) && old(stream.pos) + |out| == stream.pos
        invariant out == stream.data[old(stream.pos)..stream.pos]
        decreases remaining
      {
        var more := PollRead(room(i));
        if more.Err? { return more; }
        if more.value == [] { return Ok(out); }
        out := out + more.value;
        i := i + 1;
      }
    }
  }

  method ReadChunkStream(codec: Codec, s: Stream) returns (r: Result<(Header, ChunkPayloadReader), IoError>)
    requires s.Valid()
    modifies s
    ensures s.Valid()
    ensures match ReadChunkHeader(codec, s.data, old(s.pos))
            case Ok((h, next)) =>
              && r.Ok? && r.value.0 == h && s.pos == next
              && fresh(r.value.1) && r.value.1.stream == s && r.value.1.remaining == h.dataLength
            case Err(e) => r == Err(e)
  {
    var f := s.TakeFramed(codec);
    if f.Err? { return Err(f.error); }
    var h := f.value;
    if h.dataLength > MAX_CHUNK_DATA_BYTES { return Err(InvalidData); }
    var reader := new ChunkPayloadReader(s, h.dataLength);
    return Ok((h, reader));
  }

  /**
   * A receiver of one CHUNK stream: selector, header, then the payload into nonempty buffers. Whatever the schedule of
   * short reads, it gives what `ParseChunk` gives; on success the stream stands at the end of the chunk.
   */
  method ReceiveChunk(codec: Codec, data: Bytes, grain: nat -> nat, room: nat -> nat)
    returns (r: Result<(Header, Bytes), IoError>, pos: nat)
    requires forall i: nat :: room(i) > 0
    ensures match ParseChunk(codec, data)
            case Ok(p) => r == Ok((p.header, p.payload)) && pos == p.end
            case Err(e) => r == Err(e)
  {
    var s := new Stream(data, grain);
    var p := s.TakeSelector();
    if p.Err? { return Err(p.error), s.pos; }
    if !p.value.Chunk? { return Err(InvalidData), s.pos; }
    var hr := ReadChunkStream(codec, s);
    if hr.Err? { return Err(hr.error), s.pos; }
    var (h, reader) := hr.value;
    var payload := reader.ReadToEnd(room);
    if payload.Err? { return Err(payload.error), s.pos; }
    return Ok((h, payload.value)), s.pos;
  }

  /** The CHUNK round trip through the readers: same header, exactly the payload, exactly the written bytes consumed. */
  method SendAndReceive(codec: Codec, h: Header, payload: Bytes, after: Bytes, grain: nat -> nat, room: nat -> nat)
    returns (r: Result<(Header, Bytes), IoError>, pos: nat)
    requires DecodeInverts(codec, h) && WriteChunk(codec, h, payload).1.Ok?
    requires forall i: nat :: room(i) > 0
    ensures r == Ok((h, payload)) && pos == |WriteChunk(codec, h, payload).0|
  {
    ChunkRoundTrip(codec, h, payload, after);
    r, pos := ReceiveChunk(codec, WriteChunk(codec, h, payload).0 + after, grain, room);
  }
}
