/** Stream framing: the protocol selector, length-prefixed frames and the CHUNK stream, as printers and parsers on bytes. */
module Wires {
  import opened Basics

  const MAX_FRAME_BYTES := 1024 * 1024
  const MAX_CHUNK_DATA_BYTES := 1024 * 1024

  datatype Protocol = Unspecified | Bcast | Sess | Chunk

  datatype IoError = InvalidInput | InvalidData | UnexpectedEof

  datatype Header = Header(channel: Bytes, message: Bytes, chunkId: Bytes, dataLength: nat)

  /** The protobuf codec of the header. */
  datatype Codec = Codec(encode: Header -> Bytes, decode: Bytes -> Option<Header>)

  ghost predicate DecodeInverts(codec: Codec, h: Header) {
    codec.decode(codec.encode(h)) == Some(h)
  }

  // ---- Selector ----

  function Selector(p: Protocol): Byte {
    match p
    case Unspecified => 0
    case Bcast => 1
    case Sess => 2
    case Chunk => 3
  }

  /** Zero and unknown values are refused. */
  function FromSelector(b: Byte): (r: Result<Protocol, IoError>)
    ensures r.Ok? <==> 1 <= b <= 3
    ensures r.Ok? ==> Selector(r.value) == b && !r.value.Unspecified?
  {
    match b
    case 1 => Ok(Bcast)
    case 2 => Ok(Sess)
    case 3 => Ok(Chunk)
    case _ => Err(InvalidData)
  }

  // ---- Big-endian length ----

  function Be32(n: nat): Bytes
    requires n < 0x1_0000_0000
  {
    [n / 256 / 256 / 256, n / 256 / 256 % 256, n / 256 % 256, n % 256]
  }

  function FromBe32(b: Bytes): nat
    requires |b| == 4
  {
    var hi: nat, upper: nat, lower: nat, lo: nat := b[0], b[1], b[2], b[3];
    ((hi * 256 + upper) * 256 + lower) * 256 + lo
  }

  lemma Be32RoundTrip(n: nat)
    requires n < 0x1_0000_0000
    ensures |Be32(n)| == 4 && FromBe32(Be32(n)) == n
  {
  }

  lemma FromBe32RoundTrip(b: Bytes)
    requires |b| == 4
    ensures FromBe32(b) < 0x1_0000_0000 && Be32(FromBe32(b)) == b
  {
    var n := FromBe32(b);
    var hi: nat, upper: nat, lower: nat, lo: nat := b[0], b[1], b[2], b[3];
    var n1, n2 := (hi * 256 + upper) * 256 + lower, hi * 256 + upper;
    assert n == n1 * 256 + lo && n / 256 == n1 && n % 256 == lo;
    assert n1 / 256 == n2 && n1 % 256 == lower;
    assert n2 / 256 == hi && n2 % 256 == upper;
  }

  // ---- Printers: what is written, and whether the call succeeds ----

  /** Writes nothing when the frame is too large. */
  function WriteFramed(body: Bytes): (r: (Bytes, Result<(), IoError>))
    ensures r.1.Ok? <==> |body| <= MAX_FRAME_BYTES
  {
    if |body| > MAX_FRAME_BYTES then ([], Err(InvalidInput))
    else (Be32(|body|) + body, Ok(()))
  }

  /** A header too large for a frame fails after the selector has been written. */
  function WriteChunk(codec: Codec, h: Header, payload: Bytes): (Bytes, Result<(), IoError>) {
    if h.dataLength > MAX_CHUNK_DATA_BYTES || |payload| != h.dataLength then ([], Err(InvalidInput))
    else
      var (frame, r) := WriteFramed(codec.encode(h));
      if r.Err? then ([Selector(Chunk)], r)
      else ([Selector(Chunk)] + frame + payload, Ok(()))
  }

  // ---- Parsers: the value and the position after it ----

  function ReadExact(data: Bytes, pos: nat, n: nat): (r: Result<(Bytes, nat), IoError>)
    ensures r.Ok? ==> r.value.1 == pos + n <= |data| && r.value.0 == data[pos..pos + n]
  {
    if pos + n <= |data| then Ok((data[pos..pos + n], pos + n)) else Err(UnexpectedEof)
  }

  function ReadSelector(data: Bytes, pos: nat): Result<(Protocol, nat), IoError> {
    match ReadExact(data, pos, 1)
    case Err(e) => Err(e)
    case Ok((b, next)) =>
      match FromSelector(b[0])
      case Err(e) => Err(e)
      case Ok(p) => Ok((p, next))
  }

  function ReadFramed(codec: Codec, data: Bytes, pos: nat): Result<(Header, nat), IoError> {
    match ReadExact(data, pos, 4)
    case Err(e) => Err(e)
    case Ok((b, next)) =>
      var len := FromBe32(b);
      if len > MAX_FRAME_BYTES then Err(InvalidData)
      else match ReadExact(data, next, len)
        case Err(e) => Err(e)
        case Ok((body, end)) =>
          match codec.decode(body)
          case None => Err(InvalidData)
          case Some(h) => Ok((h, end))
  }

  /** The header of a CHUNK stream after its selector; an oversized payload is refused before any of it is read. */
  function ReadChunkHeader(codec: Codec, data: Bytes, pos: nat): Result<(Header, nat), IoError> {
    match ReadFramed(codec, data, pos)
    case Err(e) => Err(e)
    case Ok((h, next)) => if h.dataLength > MAX_CHUNK_DATA_BYTES then Err(InvalidData) else Ok((h, next))
  }

  datatype Parsed = Parsed(header: Header, payload: Bytes, end: nat)

  /** A whole CHUNK stream. */
  function ParseChunk(codec: Codec, data: Bytes): Result<Parsed, IoError> {
    match ReadSelector(data, 0)
    case Err(e) => Err(e)
    case Ok((p, pos)) =>
      if !p.Chunk? then Err(InvalidData)
      else match ReadChunkHeader(codec, data, pos)
        case Err(e) => Err(e)
        case Ok((h, start)) =>
          match ReadExact(data, start, h.dataLength)
          case Err(e) => Err(e)
          case Ok((payload, end)) => Ok(Parsed(h, payload, end))
  }

  // ---- Round trip, exact consumption, truncation ----

  lemma ReadBackFrame(codec: Codec, h: Header, before: Bytes, after: Bytes)
    requires DecodeInverts(codec, h) && |codec.encode(h)| <= MAX_FRAME_BYTES
    ensures var frame := WriteFramed(codec.encode(h)).0;
            ReadFramed(codec, before + frame + after, |before|) == Ok((h, |before| + |frame|))
  {
    var body := codec.encode(h);
    var frame := WriteFramed(body).0;
    var data := before + frame + after;
    Be32RoundTrip(|body|);
    assert data[|before|..|before| + 4] == Be32(|body|);
    assert data[|before| + 4..|before| + 4 + |body|] == body;
  }

  /** What was written reads back: the same header and payload, consuming exactly the written bytes. */
  lemma ChunkRoundTrip(codec: Codec, h: Header, payload: Bytes, after: Bytes)
    requires DecodeInverts(codec, h) && WriteChunk(codec, h, payload).1.Ok?
    ensures var written := WriteChunk(codec, h, payload).0;
            ParseChunk(codec, written + after) == Ok(Parsed(h, payload, |written|))
  {
    var written := WriteChunk(codec, h, payload).0;
    var frame := WriteFramed(codec.encode(h)).0;
    var data := written + after;
    assert data == [Selector(Chunk)] + frame + (payload + after);
    ReadBackFrame(codec, h, [Selector(Chunk)], payload + after);
    assert data[1 + |frame|..1 + |frame| + |payload|] == payload;
    hide ReadFramed, WriteFramed;
    assert data[0..1] == [Selector(Chunk)];
    assert ReadSelector(data, 0) == Ok((Chunk, 1));
  }

  /** Parsing looks at no byte past its end, so more bytes do not change the result. */
  lemma ParsePrefix(codec: Codec, data: Bytes, after: Bytes)
    requires ParseChunk(codec, data).Ok?
    ensures ParseChunk(codec, data + after) == ParseChunk(codec, data)
    ensures ParseChunk(codec, data).value.end <= |data|
  {
    SelectorPrefix(data, after, 0);
    var pos := ReadSelector(data, 0).value.1;
    FramePrefix(codec, data, after, pos);
    var (h, start) := ReadChunkHeader(codec, data, pos).value;
    hide ReadFramed, ReadSelector;
    ExactPrefix(data, after, start, h.dataLength);
  }

  lemma ExactPrefix(data: Bytes, after: Bytes, pos: nat, n: nat)
    requires ReadExact(data, pos, n).Ok?
    ensures ReadExact(data + after, pos, n) == ReadExact(data, pos, n)
  {
    assert (data + after)[pos..pos + n] == data[pos..pos + n];
  }

  lemma SelectorPrefix(data: Bytes, after: Bytes, pos: nat)
    requires ReadSelector(data, pos).Ok?
    ensures ReadSelector(data + after, pos) == ReadSelector(data, pos)
  {
    ExactPrefix(data, after, pos, 1);
  }

  lemma FramePrefix(codec: Codec, data: Bytes, after: Bytes, pos: nat)
    requires ReadFramed(codec, data, pos).Ok?
    ensures ReadFramed(codec, data + after, pos) == ReadFramed(codec, data, pos)
  {
    ExactPrefix(data, after, pos, 4);
    var (b, next) := ReadExact(data, pos, 4).value;
    ExactPrefix(data, after, next, FromBe32(b));
  }

  /** Any strict prefix of a written stream is an error, never a shorter payload. */
  lemma StrictPrefixFails(codec: Codec, h: Header, payload: Bytes, n: nat)
    requires DecodeInverts(codec, h) && WriteChunk(codec, h, payload).1.Ok?
    requires n < |WriteChunk(codec, h, payload).0|
    ensures ParseChunk(codec, WriteChunk(codec, h, payload).0[..n]).Err?
  {
    var written := WriteChunk(codec, h, payload).0;
    var part := written[..n];
    assert part + written[n..] == written && written + [] == written;
    ChunkRoundTrip(codec, h, payload, []);
    hide ParseChunk, WriteChunk;
    if ParseChunk(codec, part).Ok? {
      ParsePrefix(codec, part, written[n..]);
    }
  }

  /** Whatever parses is a selector, a frame that decodes to the header, and exactly the declared payload. */
  lemma ParseIsSound(codec: Codec, data: Bytes)
    requires ParseChunk(codec, data).Ok?
    ensures var r := ParseChunk(codec, data).value;
            && |r.payload| == r.header.dataLength <= MAX_CHUNK_DATA_BYTES
            && exists body: Bytes :: |body| <= MAX_FRAME_BYTES && codec.decode(body) == Some(r.header)
                 && r.end <= |data| && data[..r.end] == [Selector(Chunk)] + Be32(|body|) + body + r.payload
  {
    hide ReadSelector, ReadChunkHeader, Be32;
    var r := ParseChunk(codec, data).value;
    SelectorForm(data);
    var body := FrameForm(codec, data, 1);
    var start := 5 + |body|;
    assert data[..r.end] == data[..1] + data[1..start] + data[start..r.end];
    assert data[..1] + (Be32(|body|) + body) + r.payload == [Selector(Chunk)] + Be32(|body|) + body + r.payload;
  }

  lemma SelectorForm(data: Bytes)
    requires ReadSelector(data, 0).Ok? && ReadSelector(data, 0).value.0.Chunk?
    ensures ReadSelector(data, 0).value.1 == 1 && |data| >= 1 && data[..1] == [Selector(Chunk)]
  {
  }

  /** The body of a frame that was read. */
  lemma FrameForm(codec: Codec, data: Bytes, pos: nat) returns (body: Bytes)
    requires ReadChunkHeader(codec, data, pos).Ok?
    ensures var (h, next) := ReadChunkHeader(codec, data, pos).value;
            && h.dataLength <= MAX_CHUNK_DATA_BYTES && |body| <= MAX_FRAME_BYTES && codec.decode(body) == Some(h)
            && next == pos + 4 + |body| <= |data| && data[pos..next] == Be32(|body|) + body
  {
    var prefix := data[pos..pos + 4];
    var len := FromBe32(prefix);
    body := data[pos + 4..pos + 4 + len];
    FromBe32RoundTrip(prefix);
    hide Be32, FromBe32;
    assert data[pos..pos + 4 + len] == prefix + body;
  }
}
