/** Reed-Solomon encoding, decoding and chunk verification over an arbitrary hash and erasure-code library. */
module Coding {
  import opened Basics

  datatype RsConfig = RsConfig(
    dataShards: nat,
    parityShards: nat,
    chunkLen: nat,
    bitmapThreshold: nat,
    forwardMultiplier: nat,
    disableBitmap: bool)

  datatype Preamble = Preamble(numData: int, numParity: int, length: int, hashes: seq<Bytes>, hash: Bytes)
  {
    function Total(): int { numData + numParity }
  }

  /**
   * The libraries the source calls: SHA-256, the Reed-Solomon codec (which shapes it accepts, the parity
   * shards of some data shards, and reconstruction of missing data shards) and the protobuf preamble parser.
   */
  datatype Lib = Lib(
    sha: Bytes -> Bytes,
    rsOk: (nat, nat) -> bool,
    parity: (nat, nat, seq<Bytes>) -> seq<Bytes>,
    recover: (nat, nat, seq<Option<Bytes>>) -> Option<seq<Option<Bytes>>>,
    parse: Bytes -> Option<Preamble>)

  const HASH_LEN := 32
  const I32_LIMIT := 0x8000_0000
  const U32_LIMIT := 0x1_0000_0000

  // ---- Hypotheses about the libraries ----

  ghost predicate HashIsFixedLength(lib: Lib) {
    forall b: Bytes :: |lib.sha(b)| == HASH_LEN
  }

  /** No other string has the hash of `b`. A hash of fixed length cannot have this for every `b`. */
  ghost predicate Unforged(lib: Lib, b: Bytes) {
    forall a: Bytes :: lib.sha(a) == lib.sha(b) ==> a == b
  }

  ghost predicate AllUnforged(lib: Lib, shards: seq<Bytes>) {
    forall i | 0 <= i < |shards| :: Unforged(lib, shards[i])
  }

  predicate SameLength(shards: seq<Bytes>, len: nat) {
    forall i | 0 <= i < |shards| :: |shards[i]| == len
  }

  /** The slots that are filled hold shards of the codeword. */
  predicate Agrees(slots: seq<Option<Bytes>>, codeword: seq<Bytes>) {
    |slots| == |codeword| && forall i | 0 <= i < |slots| && slots[i].Some? :: slots[i].value == codeword[i]
  }

  function CountSome(slots: seq<Option<Bytes>>): (c: nat)
    ensures c <= |slots|
  {
    if slots == [] then 0 else CountSome(slots[1..]) + if slots[0].Some? then 1 else 0
  }

  function Codeword(lib: Lib, k: nat, m: nat, data: seq<Bytes>): seq<Bytes> {
    data + lib.parity(k, m, data)
  }

  /** The data shards come back from any `k` shards of their codeword. */
  ghost predicate RecoversData(lib: Lib, k: nat, m: nat, data: seq<Bytes>)
    requires |data| == k
  {
    forall slots ::
      Agrees(slots, Codeword(lib, k, m, data)) && CountSome(slots) >= k ==>
        var out := lib.recover(k, m, slots);
        && out.Some?
        && |out.value| == k + m
        && forall i | 0 <= i < k :: out.value[i] == Some(data[i])
  }

  /** The k-of-n law of the erasure code. */
  ghost predicate RecoversFromAnyK(lib: Lib) {
    forall k: nat, m: nat, data: seq<Bytes>, len: nat ::
      lib.rsOk(k, m) && len > 0 && |data| == k && SameLength(data, len) ==>
        && k > 0
        && |lib.parity(k, m, data)| == m
        && SameLength(lib.parity(k, m, data), len)
        && RecoversData(lib, k, m, data)
  }

  // ---- Shape and padding ----

  function DivCeil(a: nat, b: nat): nat
    requires b > 0
  {
    (a + b - 1) / b
  }

  /** `DivCeil(a, b)` is the least number of blocks of size `b` that cover `a`. */
  lemma DivCeilCovers(a: nat, b: nat)
    requires b > 0
    ensures DivCeil(a, b) * b >= a
    ensures forall c: nat :: c * b >= a ==> c >= DivCeil(a, b)
  {
    var q := DivCeil(a, b);
    assert a + b - 1 == q * b + (a + b - 1) % b;
    forall c: nat | c * b >= a
      ensures c >= q
    {
      if c < q {
        MulMono(c, q - 1, b);
        assert false;
      }
    }
  }

  lemma MulMono(a: nat, b: nat, c: nat)
    requires a <= b
    ensures a * c <= b * c
  {
  }

  datatype Shape = Shape(data: nat, parity: nat, len: nat)

  function ResolveShape(length: nat, cfg: RsConfig): Shape
    requires cfg.chunkLen > 0 || cfg.dataShards > 0
  {
    if cfg.chunkLen > 0 then
      var k := DivCeil(length, cfg.chunkLen);
      Shape(k, k, cfg.chunkLen)
    else
      Shape(cfg.dataShards, cfg.parityShards, DivCeil(length, cfg.dataShards))
  }

  /** The data shards hold the payload, and the copy loop touches no shard past them. */
  lemma ShapeFits(length: nat, cfg: RsConfig)
    requires length > 0 && (cfg.chunkLen > 0 || cfg.dataShards > 0)
    ensures var s := ResolveShape(length, cfg);
            s.len > 0 && s.data > 0 && length <= s.data * s.len && DivCeil(length, s.len) <= s.data
  {
    var s := ResolveShape(length, cfg);
    if cfg.chunkLen > 0 {
      DivCeilCovers(length, cfg.chunkLen);
    } else {
      DivCeilCovers(length, cfg.dataShards);
      assert s.data * s.len == s.len * s.data;
      assert s.len > 0;
      DivCeilCovers(length, s.len);
    }
  }

  function Zeros(n: nat): Bytes {
    seq(n, _ => 0 as Byte)
  }

  function Pad(chunk: Bytes, len: nat): Bytes
    requires |chunk| <= len
  {
    chunk + Zeros(len - |chunk|)
  }

  function Head(payload: Bytes, len: nat): nat {
    if len <= |payload| then len else |payload|
  }

  /** The payload cut into `k` shards of `len` bytes, zero-padded. */
  function Split(payload: Bytes, len: nat, k: nat): (shards: seq<Bytes>)
    ensures |shards| == k && SameLength(shards, len)
  {
    if k == 0 then []
    else
      var h := Head(payload, len);
      [Pad(payload[..h], len)] + Split(payload[h..], len, k - 1)
  }

  function Concat(shards: seq<Bytes>): Bytes {
    if shards == [] then [] else shards[0] + Concat(shards[1..])
  }

  lemma {:induction false} SplitOfEmpty(len: nat, k: nat, i: nat)
    requires i < k
    ensures Split([], len, k)[i] == Zeros(len)
    decreases k
  {
    assert Pad([], len) == Zeros(len);
    if i > 0 { SplitOfEmpty(len, k - 1, i - 1); }
  }

  /** Bytes that `c` shards hold. */
  ghost function Room(c: nat, len: nat): nat {
    if c == 0 then 0 else len + Room(c - 1, len)
  }

  lemma {:induction false} RoomIsProduct(c: nat, len: nat)
    ensures Room(c, len) == c * len
    decreases c
  {
    if c > 0 {
      RoomIsProduct(c - 1, len);
      assert c * len == (c - 1) * len + len;
    }
  }

  lemma SplitCons(payload: Bytes, len: nat, k: nat)
    requires k > 0
    ensures var h := Head(payload, len);
            Split(payload, len, k) == [Pad(payload[..h], len)] + Split(payload[h..], len, k - 1)
  {
    hide Pad;
  }

  lemma ConcatCons(first: Bytes, rest: seq<Bytes>)
    ensures Concat([first] + rest) == first + Concat(rest)
  {
    assert ([first] + rest)[1..] == rest;
  }

  lemma {:induction false} ConcatRoom(payload: Bytes, len: nat, k: nat)
    requires |payload| <= Room(k, len)
    ensures Concat(Split(payload, len, k)) == payload + Zeros(Room(k, len) - |payload|)
    decreases k
  {
    if k == 0 {
      NothingToConcat(payload, len);
    } else {
      RoomStep(payload, len, k);
      hide Concat, Split, Zeros, Pad, Room, Head;
      var h := Head(payload, len);
      SplitCons(payload, len, k);
      ConcatCons(Pad(payload[..h], len), Split(payload[h..], len, k - 1));
      ConcatRoom(payload[h..], len, k - 1);
      PadThenRest(payload, len, Room(k - 1, len));
    }
  }

  lemma NothingToConcat(payload: Bytes, len: nat)
    requires |payload| <= Room(0, len)
    ensures Concat(Split(payload, len, 0)) == payload + Zeros(Room(0, len) - |payload|)
  {
    assert payload == [] && Zeros(0) == [];
  }

  lemma RoomStep(payload: Bytes, len: nat, k: nat)
    requires k > 0 && |payload| <= Room(k, len)
    ensures Room(k, len) == len + Room(k - 1, len)
    ensures Head(payload, len) <= |payload| && Head(payload, len) <= len
    ensures |payload[Head(payload, len)..]| <= Room(k - 1, len)
  {
  }

  lemma ZerosAdd(a: nat, b: nat)
    ensures Zeros(a) + Zeros(b) == Zeros(a + b)
  {
  }

  /** A padded head followed by the padded rest is the padded whole. */
  lemma PadThenRest(payload: Bytes, len: nat, room: nat)
    requires |payload| <= len + room
    ensures Pad(payload[..Head(payload, len)], len)
          + (payload[Head(payload, len)..] + Zeros(room - |payload[Head(payload, len)..]|))
         == payload + Zeros(len + room - |payload|)
  {
    var h := Head(payload, len);
    assert payload == payload[..h] + payload[h..];
    if h == len {
      assert Zeros(0) == [];
      hide Zeros;
    } else {
      assert payload[..h] == payload && payload[h..] == [];
      ZerosAdd(len - h, room);
      hide Zeros;
    }
  }

  /** Concatenating the shards gives back the payload followed by padding. */
  lemma ConcatSplit(payload: Bytes, len: nat, k: nat)
    requires |payload| <= k * len
    ensures Concat(Split(payload, len, k)) == payload + Zeros(k * len - |payload|)
  {
    RoomIsProduct(k, len);
    ConcatRoom(payload, len, k);
  }

  lemma {:induction false} ConcatLength(shards: seq<Bytes>, len: nat)
    requires SameLength(shards, len)
    ensures |Concat(shards)| == |shards| * len
    decreases |shards|
  {
    if shards != [] {
      ConcatLength(shards[1..], len);
      assert |shards| * len == (|shards| - 1) * len + len;
    }
  }

  // ---- Preamble validation and chunk verification ----

  datatype PreambleError =
    | NegativeShardCount
    | NegativeLength
    | ShardCountOverflow
    | HashCountMismatch
    | HashLengthInvalid(idx: nat)
    | MessageHashLengthInvalid

  function BadHash(hashes: seq<Bytes>, i: nat): (r: Option<nat>)
    requires i <= |hashes|
    ensures r.None? <==> forall j | i <= j < |hashes| :: |hashes[j]| == HASH_LEN
    decreases |hashes| - i
  {
    if i == |hashes| then None
    else if |hashes[i]| != HASH_LEN then Some(i)
    else BadHash(hashes, i + 1)
  }

  function ValidatePreamble(p: Preamble): (r: Option<PreambleError>)
    ensures r.None? <==> WellShaped(p)
  {
    if p.numData < 0 || p.numParity < 0 then Some(NegativeShardCount)
    else if p.length < 0 then Some(NegativeLength)
    else if p.Total() >= U32_LIMIT then Some(ShardCountOverflow)
    else if |p.hashes| != p.Total() then Some(HashCountMismatch)
    else match BadHash(p.hashes, 0)
      case Some(i) => Some(HashLengthInvalid(i))
      case None => if |p.hash| != HASH_LEN then Some(MessageHashLengthInvalid) else None
  }

  predicate WellShaped(p: Preamble) {
    && p.numData >= 0 && p.numParity >= 0 && p.length >= 0
    && p.Total() < U32_LIMIT
    && |p.hashes| == p.Total()
    && (forall i | 0 <= i < |p.hashes| :: |p.hashes[i]| == HASH_LEN)
    && |p.hash| == HASH_LEN
  }

  datatype Verdict = Accepted | Redundant | Decoding | Surplus | Invalid

  function VerifyChunk(lib: Lib, p: Preamble, idx: nat, data: Bytes): (v: Verdict)
    ensures v == Accepted || v == Invalid
    ensures WellShaped(p) ==> (v == Accepted <==> idx < p.Total() && lib.sha(data) == p.hashes[idx])
  {
    if p.numData < 0 || p.numParity < 0 || p.Total() >= U32_LIMIT then Invalid
    else if idx >= p.Total() then Invalid
    else if idx >= |p.hashes| || |p.hashes[idx]| != HASH_LEN then Invalid
    else if lib.sha(data) == p.hashes[idx] then Accepted
    else Invalid
  }

  // ---- Encoding ----

  datatype EncodeError = EmptyPayload | BadShape | TooMany

  function PreambleOf(lib: Lib, payload: Bytes, s: Shape, shards: seq<Bytes>): Preamble {
    Preamble(s.data, s.parity, |payload|,
             seq(|shards|, i requires 0 <= i < |shards| => lib.sha(shards[i])), lib.sha(payload))
  }

  function Encode(lib: Lib, payload: Bytes, cfg: RsConfig): Result<(Preamble, seq<Bytes>), EncodeError>
    requires cfg.chunkLen > 0 || cfg.dataShards > 0
  {
    if payload == [] then Err(EmptyPayload)
    else
      var s := ResolveShape(|payload|, cfg);
      if !lib.rsOk(s.data, s.parity) then Err(BadShape)
      else
        var shards := Codeword(lib, s.data, s.parity, Split(payload, s.len, s.data));
        if s.data >= I32_LIMIT || s.parity >= I32_LIMIT || |payload| >= I32_LIMIT then Err(TooMany)
        else Ok((PreambleOf(lib, payload, s, shards), shards))
  }

  /** The copy loop: chunk `i` of the payload lands at the front of zeroed shard `i`. */
  method CopyPayload(payload: Bytes, len: nat, k: nat) returns (shards: seq<Bytes>)
    requires len > 0 && |payload| <= Room(k, len)
    ensures shards == Split(payload, len, k)
  {
    hide Split, Room, Zeros, Blank, Copied, Head;
    shards := Blank(k, len);
    var off, i := 0, 0;
    ghost var want := Split(payload, len, k);
    NothingCopied(payload, len, k);
    while off < |payload|
      invariant 0 <= off <= |payload| && 0 <= i <= k
      invariant |payload| - off <= Room(k - i, len) && Copied(shards, want, i, len)
      invariant Split(payload[off..], len, k - i) == want[i..]
    {
      CopyStep(payload, off, len, k, i, want);
      CopiedAt(shards, want, i, len);
      var h := Head(payload[off..], len);
      CopiedOn(shards, want, i, len);
      shards := shards[i := payload[off..off + h] + shards[i][h..]];
      off, i := off + h, i + 1;
    }
    RestIsBlank(payload, off, len, k, i, want);
    CopiedAll(shards, want, i, len);
  }

  function Blank(k: nat, len: nat): seq<Bytes> {
    seq(k, _ => Zeros(len))
  }

  /** The first `i` shards are as wanted, the others still blank. */
  ghost predicate Copied(shards: seq<Bytes>, want: seq<Bytes>, i: nat, len: nat) {
    && i <= |shards| == |want|
    && (forall j | 0 <= j < i :: shards[j] == want[j])
    && (forall j | i <= j < |shards| :: shards[j] == Zeros(len))
  }

  lemma NothingCopied(payload: Bytes, len: nat, k: nat)
    ensures var want := Split(payload, len, k);
            Copied(Blank(k, len), want, 0, len) && Split(payload[0..], len, k) == want[0..]
  {
    assert payload[0..] == payload;
  }

  lemma CopiedAt(shards: seq<Bytes>, want: seq<Bytes>, i: nat, len: nat)
    requires Copied(shards, want, i, len) && i < |want|
    ensures |shards| == |want| && shards[i] == Zeros(len)
  {
  }

  lemma CopiedOn(shards: seq<Bytes>, want: seq<Bytes>, i: nat, len: nat)
    requires Copied(shards, want, i, len) && i < |want|
    ensures |shards| == |want| && Copied(shards[i := want[i]], want, i + 1, len)
  {
  }

  lemma CopiedAll(shards: seq<Bytes>, want: seq<Bytes>, i: nat, len: nat)
    requires Copied(shards, want, i, len) && forall j | i <= j < |want| :: want[j] == Zeros(len)
    ensures shards == want
  {
  }

  lemma RestIsBlank(payload: Bytes, off: nat, len: nat, k: nat, i: nat, want: seq<Bytes>)
    requires off == |payload| && i <= k == |want| && Split(payload[off..], len, k - i) == want[i..]
    ensures forall j | i <= j < k :: want[j] == Zeros(len)
  {
    assert payload[off..] == [];
    forall j | i <= j < k
      ensures want[j] == Zeros(len)
    {
      SplitOfEmpty(len, k - i, j - i);
      assert want[i..][j - i] == want[j];
    }
  }

  /** One turn of the copy loop: the bytes written over a zeroed shard make the next shard of the split. */
  lemma CopyStep(payload: Bytes, off: nat, len: nat, k: nat, i: nat, want: seq<Bytes>)
    requires off < |payload| && i <= k == |want| && len > 0
    requires |payload| - off <= Room(k - i, len) && Split(payload[off..], len, k - i) == want[i..]
    ensures i < k && |Zeros(len)| == len
    ensures var h := Head(payload[off..], len);
            && 0 < h <= len && off + h <= |payload|
            && payload[off..off + h] + Zeros(len)[h..] == want[i]
            && Split(payload[off + h..], len, k - i - 1) == want[i + 1..]
            && |payload| - (off + h) <= Room(k - i - 1, len)
  {
    SplitStep(payload, off, len, k - i);
    assert want[i..][0] == want[i] && want[i..][1..] == want[i + 1..];
  }

  lemma SplitStep(payload: Bytes, off: nat, len: nat, c: nat)
    requires off <= |payload| && c > 0
    ensures var h := Head(payload[off..], len);
            && Split(payload[off..], len, c)[0] == Pad(payload[off..off + h], len)
            && Split(payload[off..], len, c)[1..] == Split(payload[off + h..], len, c - 1)
  {
    var h := Head(payload[off..], len);
    assert payload[off..][..h] == payload[off..off + h];
    assert payload[off..][h..] == payload[off + h..];
  }

  method HashAll(lib: Lib, shards: seq<Bytes>) returns (hashes: seq<Bytes>)
    ensures |hashes| == |shards| && forall q | 0 <= q < |shards| :: hashes[q] == lib.sha(shards[q])
  {
    hashes := [];
    for j := 0 to |shards|
      invariant |hashes| == j
      invariant forall q | 0 <= q < j :: hashes[q] == lib.sha(shards[q])
    {
      hashes := hashes + [lib.sha(shards[j])];
    }
  }

  /** The encoder as it runs: zeroed shards, the copy loop, then parity and hashes. */
  method EncodeLoop(lib: Lib, payload: Bytes, cfg: RsConfig)
    returns (r: Result<(Preamble, seq<Bytes>), EncodeError>)
    requires cfg.chunkLen > 0 || cfg.dataShards > 0
    ensures r == Encode(lib, payload, cfg)
  {
    if payload == [] {
      return Err(EmptyPayload);
    }
    var s := ResolveShape(|payload|, cfg);
    ShapeFits(|payload|, cfg);
    if !lib.rsOk(s.data, s.parity) {
      return Err(BadShape);
    }
    RoomIsProduct(s.data, s.len);
    var shards := CopyPayload(payload, s.len, s.data);
    shards := shards + lib.parity(s.data, s.parity, shards);
    var hashes := HashAll(lib, shards);
    if s.data >= I32_LIMIT || s.parity >= I32_LIMIT || |payload| >= I32_LIMIT {
      return Err(TooMany);
    }
    assert hashes == PreambleOf(lib, payload, s, shards).hashes;
    return Ok((Preamble(s.data, s.parity, |payload|, hashes, lib.sha(payload)), shards));
  }

  // ---- Decoding ----

  datatype DecodeError =
    | BadPreamble(e: PreambleError)
    | TooFewShards
    | BadCode
    | ShardIndexOutOfRange(idx: nat)
    | DuplicateShardIndex(dup: nat)
    | InconsistentShardLength
    | MessageHashMismatch

  type IndexedShard = (nat, Bytes)

  /** Files the shards into their slots, stopping at the first bad one. */
  function Fill(slots: seq<Option<Bytes>>, len: nat, shards: seq<IndexedShard>): Result<seq<Option<Bytes>>, DecodeError>
    decreases |shards|
  {
    if shards == [] then Ok(slots)
    else
      var (idx, data) := shards[0];
      if idx >= |slots| then Err(ShardIndexOutOfRange(idx))
      else if |data| != len then Err(InconsistentShardLength)
      else if slots[idx].Some? then Err(DuplicateShardIndex(idx))
      else Fill(slots[idx := Some(data)], len, shards[1..])
  }

  function Join(slots: seq<Option<Bytes>>): Option<Bytes> {
    if slots == [] then Some([])
    else if slots[0].None? then None
    else match Join(slots[1..])
      case None => None
      case Some(rest) => Some(slots[0].value + rest)
  }

  function Finish(lib: Lib, p: Preamble, joined: Option<Bytes>): Result<Bytes, DecodeError>
    requires p.length >= 0
  {
    if joined.None? then Err(TooFewShards)
    else if p.length > |joined.value| then Err(InconsistentShardLength)
    else
      var out := joined.value[..p.length];
      if lib.sha(out) != p.hash then Err(MessageHashMismatch) else Ok(out)
  }

  function EmptySlots(n: nat): seq<Option<Bytes>> {
    seq(n, _ => None)
  }

  function Decode(lib: Lib, p: Preamble, shards: seq<IndexedShard>): Result<Bytes, DecodeError> {
    match ValidatePreamble(p)
    case Some(e) => Err(BadPreamble(e))
    case None =>
      if shards == [] then Err(TooFewShards)
      else match Fill(EmptySlots(p.Total()), |shards[0].1|, shards)
        case Err(e) => Err(e)
        case Ok(slots) =>
          if !lib.rsOk(p.numData, p.numParity) then Err(BadCode)
          else match lib.recover(p.numData, p.numParity, slots)
            case None => Err(TooFewShards)
            case Some(full) =>
              if |full| < p.numData then Err(TooFewShards) else Finish(lib, p, Join(full[..p.numData]))
  }

  method JoinLoop(slots: seq<Option<Bytes>>) returns (r: Option<Bytes>)
    ensures r == Join(slots)
  {
    var out: Bytes := [];
    assert slots[0..] == slots;
    for j := 0 to |slots|
      invariant Join(slots).Some? <==> Join(slots[j..]).Some?
      invariant Join(slots).Some? ==> Join(slots).value == out + Join(slots[j..]).value
    {
      var rest := slots[j..];
      assert rest[0] == slots[j] && rest[1..] == slots[j + 1..];
      if slots[j].None? {
        return None;
      }
      out := out + slots[j].value;
    }
    assert slots[|slots|..] == [];
    assert out + [] == out;
    assert Join(slots[|slots|..]) == Some([]);
    return Some(out);
  }

  /** The decoder as it runs: fill buckets, reconstruct, concatenate, truncate, check the hash. */
  method DecodeLoop(lib: Lib, p: Preamble, shards: seq<IndexedShard>) returns (r: Result<Bytes, DecodeError>)
    ensures r == Decode(lib, p, shards)
  {
    var bad := ValidatePreamble(p);
    if bad.Some? {
      return Err(BadPreamble(bad.value));
    }
    if shards == [] {
      return Err(TooFewShards);
    }
    var len := |shards[0].1|;
    var slots := EmptySlots(p.Total());
    ghost var start := slots;
    for j := 0 to |shards|
      invariant |slots| == p.Total()
      invariant Fill(slots, len, shards[j..]) == Fill(start, len, shards)
    {
      var (idx, data) := shards[j];
      assert shards[j..][0] == shards[j] && shards[j..][1..] == shards[j + 1..];
      if idx >= |slots| {
        return Err(ShardIndexOutOfRange(idx));
      }
      if |data| != len {
        return Err(InconsistentShardLength);
      }
      if slots[idx].Some? {
        return Err(DuplicateShardIndex(idx));
      }
      slots := slots[idx := Some(data)];
    }
    if !lib.rsOk(p.numData, p.numParity) {
      return Err(BadCode);
    }
    var full := lib.recover(p.numData, p.numParity, slots);
    if full.None? || |full.value| < p.numData {
      return Err(TooFewShards);
    }
    var joined := JoinLoop(full.value[..p.numData]);
    if joined.None? {
      return Err(TooFewShards);
    }
    var out := joined.value;
    if p.length > |out| {
      return Err(InconsistentShardLength);
    }
    out := out[..p.length];
    if lib.sha(out) != p.hash {
      return Err(MessageHashMismatch);
    }
    return Ok(out);
  }

  /** Whatever `decode` returns has exactly the declared length and hash. */
  lemma DecodeIsSound(lib: Lib, p: Preamble, shards: seq<IndexedShard>)
    requires Decode(lib, p, shards).Ok?
    ensures var out := Decode(lib, p, shards).value;
            |out| == p.length && lib.sha(out) == p.hash
  {
  }

  // ---- The k-of-n round trip ----

  /** Distinct, in-range indices, each with the shard the encoder produced for it. */
  predicate Genuine(xs: seq<IndexedShard>, shards: seq<Bytes>) {
    && (forall i | 0 <= i < |xs| :: xs[i].0 < |shards| && xs[i].1 == shards[xs[i].0])
    && (forall i, j | 0 <= i < j < |xs| :: xs[i].0 != xs[j].0)
  }

  lemma {:induction false} CountAfterFill(slots: seq<Option<Bytes>>, i: nat, d: Bytes)
    requires i < |slots| && slots[i].None?
    ensures CountSome(slots[i := Some(d)]) == CountSome(slots) + 1
    decreases |slots|
  {
    var filled := slots[i := Some(d)];
    if i == 0 {
      assert filled[1..] == slots[1..];
    } else {
      assert filled[1..] == slots[1..][i - 1 := Some(d)];
      CountAfterFill(slots[1..], i - 1, d);
    }
  }

  lemma {:induction false} FillGenuine(slots: seq<Option<Bytes>>, len: nat, xs: seq<IndexedShard>, shards: seq<Bytes>)
    requires Agrees(slots, shards) && SameLength(shards, len)
    requires Genuine(xs, shards)
    requires forall i | 0 <= i < |xs| :: slots[xs[i].0].None?
    ensures var r := Fill(slots, len, xs);
            r.Ok? && Agrees(r.value, shards) && CountSome(r.value) == CountSome(slots) + |xs|
    decreases |xs|
  {
    if xs != [] {
      var (idx, data) := xs[0];
      CountAfterFill(slots, idx, data);
      FillGenuine(slots[idx := Some(data)], len, xs[1..], shards);
    }
  }

  lemma {:induction false} JoinOfData(slots: seq<Option<Bytes>>, data: seq<Bytes>)
    requires |slots| == |data| && forall i | 0 <= i < |data| :: slots[i] == Some(data[i])
    ensures Join(slots) == Some(Concat(data))
    decreases |data|
  {
    if data != [] {
      JoinOfData(slots[1..], data[1..]);
    }
  }

  lemma {:induction false} NoneCounted(n: nat)
    ensures CountSome(EmptySlots(n)) == 0
  {
    if n > 0 {
      assert EmptySlots(n)[1..] == EmptySlots(n - 1);
      NoneCounted(n - 1);
    }
  }

  lemma CodewordShape(lib: Lib, k: nat, m: nat, data: seq<Bytes>, len: nat)
    requires RecoversFromAnyK(lib) && lib.rsOk(k, m) && len > 0 && |data| == k && SameLength(data, len)
    ensures |Codeword(lib, k, m, data)| == k + m && SameLength(Codeword(lib, k, m, data), len)
    ensures RecoversData(lib, k, m, data)
  {
    assert SameLength(lib.parity(k, m, data), len);
  }

  /** What a successful encode returns. */
  ghost predicate Encoded(lib: Lib, payload: Bytes, s: Shape, p: Preamble, shards: seq<Bytes>) {
    && s.len > 0 && s.data > 0 && lib.rsOk(s.data, s.parity)
    && |payload| <= s.data * s.len
    && shards == Codeword(lib, s.data, s.parity, Split(payload, s.len, s.data))
    && p.numData == s.data && p.numParity == s.parity && p.length == |payload|
    && |p.hashes| == |shards|
    && (forall i | 0 <= i < |shards| :: p.hashes[i] == lib.sha(shards[i]))
    && p.hash == lib.sha(payload)
    && s.data < I32_LIMIT && s.parity < I32_LIMIT
  }

  lemma EncodeForm(lib: Lib, payload: Bytes, cfg: RsConfig)
    requires cfg.chunkLen > 0 || cfg.dataShards > 0
    requires Encode(lib, payload, cfg).Ok?
    ensures var (p, shards) := Encode(lib, payload, cfg).value;
            Encoded(lib, payload, ResolveShape(|payload|, cfg), p, shards)
  {
    ShapeFits(|payload|, cfg);
  }

  lemma EncodedShape(lib: Lib, payload: Bytes, s: Shape, p: Preamble, shards: seq<Bytes>)
    requires HashIsFixedLength(lib) && RecoversFromAnyK(lib)
    requires Encoded(lib, payload, s, p, shards)
    ensures |shards| == p.Total() && SameLength(shards, s.len) && WellShaped(p)
    ensures RecoversData(lib, s.data, s.parity, Split(payload, s.len, s.data))
  {
    CodewordShape(lib, s.data, s.parity, Split(payload, s.len, s.data), s.len);
    assert forall i | 0 <= i < |p.hashes| :: |p.hashes[i]| == HASH_LEN;
  }

  /** Any `k` or more genuine shards with distinct indices, in any order, decode to the payload. */
  lemma KOfNRoundTrip(lib: Lib, payload: Bytes, cfg: RsConfig, xs: seq<IndexedShard>)
    requires cfg.chunkLen > 0 || cfg.dataShards > 0
    requires HashIsFixedLength(lib) && RecoversFromAnyK(lib)
    requires Encode(lib, payload, cfg).Ok?
    requires Genuine(xs, Encode(lib, payload, cfg).value.1)
    requires |xs| >= Encode(lib, payload, cfg).value.0.numData
    ensures Decode(lib, Encode(lib, payload, cfg).value.0, xs) == Ok(payload)
  {
    EncodeForm(lib, payload, cfg);
    var (p, shards) := Encode(lib, payload, cfg).value;
    DecodeEncoded(lib, payload, ResolveShape(|payload|, cfg), p, shards, xs);
  }

  lemma DecodeEncoded(lib: Lib, payload: Bytes, s: Shape, p: Preamble, shards: seq<Bytes>, xs: seq<IndexedShard>)
    requires HashIsFixedLength(lib) && RecoversFromAnyK(lib)
    requires Encoded(lib, payload, s, p, shards)
    requires Genuine(xs, shards) && |xs| >= p.numData
    ensures Decode(lib, p, xs) == Ok(payload)
  {
    EncodedShape(lib, payload, s, p, shards);
    var data := Split(payload, s.len, s.data);
    var k, m := s.data, s.parity;
    NoneCounted(p.Total());
    FillGenuine(EmptySlots(p.Total()), s.len, xs, shards);
    assert |xs[0].1| == s.len;
    var slots := Fill(EmptySlots(p.Total()), s.len, xs).value;
    hide RecoversFromAnyK, Fill, Split;
    var full := lib.recover(k, m, slots);
    assert full.Some? && |full.value| == k + m;
    JoinOfData(full.value[..k], data);
    ConcatSplit(payload, s.len, k);
    assert (payload + Zeros(k * s.len - |payload|))[..|payload|] == payload;
  }

  // ---- What decoding refuses ----

  /** The shards can be filed: indices in range and distinct, all of one length. */
  ghost predicate Fileable(xs: seq<IndexedShard>, total: nat) {
    && (forall i | 0 <= i < |xs| :: xs[i].0 < total && |xs[i].1| == |xs[0].1|)
    && (forall i, j | 0 <= i < j < |xs| :: xs[i].0 != xs[j].0)
  }

  /** Every slot that was free and is named by a shard now holds it; the others are as before. */
  ghost predicate Filed(before: seq<Option<Bytes>>, after: seq<Option<Bytes>>, xs: seq<IndexedShard>) {
    && |after| == |before|
    && (forall i | 0 <= i < |xs| :: xs[i].0 < |after| && after[xs[i].0] == Some(xs[i].1))
    && (forall k | 0 <= k < |after| && (forall i | 0 <= i < |xs| :: xs[i].0 != k) :: after[k] == before[k])
  }

  /** Each shard fits its slot and no two claim the same one. */
  ghost predicate Fits(slots: seq<Option<Bytes>>, len: nat, xs: seq<IndexedShard>) {
    && (forall i | 0 <= i < |xs| :: xs[i].0 < |slots| && |xs[i].1| == len && slots[xs[i].0].None?)
    && (forall i, j | 0 <= i < j < |xs| :: xs[i].0 != xs[j].0)
  }

  lemma FitsCons(slots: seq<Option<Bytes>>, len: nat, xs: seq<IndexedShard>)
    requires xs != []
    ensures var (idx, data) := xs[0];
            Fits(slots, len, xs) <==>
              && idx < |slots| && |data| == len && slots[idx].None?
              && Fits(slots[idx := Some(data)], len, xs[1..])
  {
    var (idx, data) := xs[0];
    var rest := xs[1..];
    assert forall i | 0 < i < |xs| :: xs[i] == rest[i - 1];
    assert forall i | 0 <= i < |rest| :: rest[i] == xs[i + 1];
    if idx < |slots| && |data| == len && slots[idx].None? {
      var next := slots[idx := Some(data)];
      if Fits(next, len, rest) {
        forall i | 0 < i < |xs|
          ensures xs[i].0 != idx && slots[xs[i].0].None?
        {
          assert next[rest[i - 1].0].None?;
        }
      }
    }
  }

  /** The shards are filed exactly when they fit, and then each is in its slot. */
  lemma {:induction false} FillsIff(slots: seq<Option<Bytes>>, len: nat, xs: seq<IndexedShard>)
    ensures Fill(slots, len, xs).Ok? <==> Fits(slots, len, xs)
    ensures Fill(slots, len, xs).Ok? ==> Filed(slots, Fill(slots, len, xs).value, xs)
    decreases |xs|
  {
    if xs != [] {
      var (idx, data) := xs[0];
      FitsCons(slots, len, xs);
      if idx < |slots| && |data| == len && slots[idx].None? {
        var next := slots[idx := Some(data)];
        FillsIff(next, len, xs[1..]);
        if Fits(slots, len, xs) { FiledOn(slots, next, Fill(next, len, xs[1..]).value, xs); }
        hide Filed, Fits;
      }
    }
  }

  lemma FiledOn(slots: seq<Option<Bytes>>, next: seq<Option<Bytes>>, after: seq<Option<Bytes>>, xs: seq<IndexedShard>)
    requires xs != [] && xs[0].0 < |slots| && next == slots[xs[0].0 := Some(xs[0].1)] && Filed(next, after, xs[1..])
    requires forall i, j | 0 <= i < j < |xs| :: xs[i].0 != xs[j].0
    ensures Filed(slots, after, xs)
  {
    var rest := xs[1..];
    assert forall i | 0 < i < |xs| :: xs[i] == rest[i - 1];
    forall k | 0 <= k < |after| && (forall i | 0 <= i < |xs| :: xs[i].0 != k)
      ensures after[k] == slots[k]
    {
      assert forall i | 0 <= i < |rest| :: rest[i] == xs[i + 1];
    }
    assert after[xs[0].0] == next[xs[0].0];
  }

  /**
   * Decoding accepts no malformed input: a payload comes out only of a well-shaped preamble and of shards with distinct
   * indices in range and one common length.
   */
  lemma DecodeNeedsFileable(lib: Lib, p: Preamble, xs: seq<IndexedShard>)
    requires Decode(lib, p, xs).Ok?
    ensures WellShaped(p) && xs != [] && Fileable(xs, p.Total())
  {
    NoneCounted(p.Total());
    FillsIff(EmptySlots(p.Total()), |xs[0].1|, xs);
    hide Fill, Finish, Join, WellShaped;
  }

  /** The three errors of `Fill` name a shard that is at fault. */
  lemma {:induction false} FillErrors(slots: seq<Option<Bytes>>, len: nat, xs: seq<IndexedShard>)
    ensures Fill(slots, len, xs).Err? ==>
              match Fill(slots, len, xs).error
              case ShardIndexOutOfRange(k) => k >= |slots| && exists i | 0 <= i < |xs| :: xs[i].0 == k
              case InconsistentShardLength => exists i | 0 <= i < |xs| :: |xs[i].1| != len
              case DuplicateShardIndex(k) =>
                k < |slots| && exists i | 0 <= i < |xs| :: xs[i].0 == k && (slots[k].Some? || exists j | 0 <= j < i :: xs[j].0 == k)
              case _ => false
    decreases |xs|
  {
    if xs != [] {
      var (idx, data) := xs[0];
      assert xs[0].0 == idx && xs[0].1 == data;
      if idx < |slots| && |data| == len && slots[idx].None? {
        var next, rest := slots[idx := Some(data)], xs[1..];
        FillErrors(next, len, rest);
        assert forall i | 0 <= i < |rest| :: rest[i] == xs[i + 1];
        var r := Fill(next, len, rest);
        if r.Err? && r.error.DuplicateShardIndex? {
          var k := r.error.dup;
          var i :| 0 <= i < |rest| && rest[i].0 == k && (next[k].Some? || exists j | 0 <= j < i :: rest[j].0 == k);
          assert xs[i + 1].0 == k;
          if !slots[k].Some? {
            if k == idx {
              assert xs[0].0 == k;
            } else {
              var j :| 0 <= j < i && rest[j].0 == k;
              assert xs[j + 1].0 == k;
            }
          }
        }
      }
    }
  }

  // ---- How much may be lost ----

  /** The shards that are left, in order, when those with the given indices are lost. */
  function Left(shards: seq<Bytes>, lost: set<nat>): (r: seq<IndexedShard>)
    ensures forall x | x in r :: x.0 < |shards| && x.0 !in lost && x.1 == shards[x.0]
  {
    if shards == [] then []
    else
      var n := |shards| - 1;
      Left(shards[..n], lost) + if n in lost then [] else [(n, shards[n])]
  }

  lemma {:induction false} LeftIsGenuine(shards: seq<Bytes>, lost: set<nat>)
    ensures Genuine(Left(shards, lost), shards) && |Left(shards, lost)| + |lost| >= |shards|
    decreases |shards|
  {
    if shards != [] {
      var n := |shards| - 1;
      var rest := Left(shards[..n], lost - {n});
      LeftIsGenuine(shards[..n], lost - {n});
      LeftIgnores(shards[..n], lost, n);
      var all := Left(shards, lost);
      forall i, j | 0 <= i < j < |all|
        ensures all[i].0 != all[j].0
      {
        assert all[i] == rest[i];
        assert rest[i] in rest;
      }
    }
  }

  lemma {:induction false} LeftIgnores(shards: seq<Bytes>, lost: set<nat>, n: nat)
    requires n >= |shards|
    ensures Left(shards, lost - {n}) == Left(shards, lost)
    decreases |shards|
  {
    if shards != [] { LeftIgnores(shards[..|shards| - 1], lost, n); }
  }

  /** `c` pieces of `len` bytes hold the payload and no fewer do. */
  ghost predicate LeastCover(payload: Bytes, c: nat, len: nat) {
    c * len >= |payload| && forall d: nat | d * len >= |payload| :: d >= c
  }

  /** The number of shards, their length and their loss tolerance, as the configuration asks for them. */
  ghost predicate AsConfigured(payload: Bytes, cfg: RsConfig, data: nat, shards: seq<Bytes>) {
    if cfg.chunkLen > 0 then
      && LeastCover(payload, data, cfg.chunkLen) && |shards| == 2 * data
      && forall i | 0 <= i < |shards| :: |shards[i]| == cfg.chunkLen
    else
      && data == cfg.dataShards && |shards| == cfg.dataShards + cfg.parityShards
      && forall i | 0 <= i < |shards| :: LeastCover(payload, |shards[i]|, data)
  }

  /** How many shards may be lost: half of them with a fixed chunk length, the configured parity count otherwise. */
  function Tolerance(cfg: RsConfig, total: nat): nat {
    if cfg.chunkLen > 0 then total / 2 else cfg.parityShards
  }

  lemma ShapeAsConfigured(payload: Bytes, cfg: RsConfig)
    requires payload != [] && (cfg.chunkLen > 0 || cfg.dataShards > 0)
    ensures var s := ResolveShape(|payload|, cfg);
            if cfg.chunkLen > 0
            then s.len == cfg.chunkLen && LeastCover(payload, s.data, s.len) && s.parity == s.data
            else s.data == cfg.dataShards && s.parity == cfg.parityShards && LeastCover(payload, s.len, s.data)
  {
    DivCeilCovers(|payload|, if cfg.chunkLen > 0 then cfg.chunkLen else cfg.dataShards);
  }

  /** The shard counts the configuration asks for: given, or as many data shards as cover the payload and as many again. */
  ghost predicate Asks(payload: Bytes, cfg: RsConfig, k: nat, m: nat) {
    if cfg.chunkLen > 0 then LeastCover(payload, k, cfg.chunkLen) && m == k
    else k == cfg.dataShards && m == cfg.parityShards
  }

  /** Encoding accepts exactly the payloads it should, and names the first reason when it refuses. */
  lemma EncodeAcceptsIff(lib: Lib, payload: Bytes, cfg: RsConfig, k: nat, m: nat)
    requires cfg.chunkLen > 0 || cfg.dataShards > 0
    requires Asks(payload, cfg, k, m)
    ensures var r := Encode(lib, payload, cfg);
            && (r.Ok? <==> payload != [] && lib.rsOk(k, m) && k < I32_LIMIT && m < I32_LIMIT && |payload| < I32_LIMIT)
            && (r == Err(EmptyPayload) <==> payload == [])
            && (r == Err(BadShape) <==> payload != [] && !lib.rsOk(k, m))
  {
    if payload != [] { AskedShape(payload, cfg, k, m); }
    hide Split, ResolveShape, Asks;
  }

  lemma AskedShape(payload: Bytes, cfg: RsConfig, k: nat, m: nat)
    requires payload != [] && (cfg.chunkLen > 0 || cfg.dataShards > 0) && Asks(payload, cfg, k, m)
    ensures ResolveShape(|payload|, cfg).data == k && ResolveShape(|payload|, cfg).parity == m
  {
    ShapeAsConfigured(payload, cfg);
    var s := ResolveShape(|payload|, cfg);
    hide ResolveShape;
    if cfg.chunkLen > 0 {
      assert k * cfg.chunkLen >= |payload| && s.data * cfg.chunkLen >= |payload|;
    }
  }

  /**
   * What an encoding survives, stated by the configuration: with a data and a parity count, any loss of at most that many
   * shards as the parity count; with a chunk length, the loss of any half of its shards, of which the data shards are the
   * fewest that hold the payload. The shards left decode to the payload.
   */
  lemma EncodingSurvives(lib: Lib, payload: Bytes, cfg: RsConfig, lost: set<nat>)
    requires cfg.chunkLen > 0 || cfg.dataShards > 0
    requires HashIsFixedLength(lib) && RecoversFromAnyK(lib)
    requires Encode(lib, payload, cfg).Ok?
    ensures var (p, shards) := Encode(lib, payload, cfg).value;
            && p.numData >= 0 && AsConfigured(payload, cfg, p.numData, shards)
            && (|lost| <= Tolerance(cfg, |shards|) ==> Decode(lib, p, Left(shards, lost)) == Ok(payload))
  {
    EncodeForm(lib, payload, cfg);
    ShapeAsConfigured(payload, cfg);
    var (p, shards) := Encode(lib, payload, cfg).value;
    var s := ResolveShape(|payload|, cfg);
    hide Encode, ResolveShape, Decode, LeastCover, RecoversFromAnyK;
    EncodedShape(lib, payload, s, p, shards);
    LeftIsGenuine(shards, lost);
    if |lost| <= Tolerance(cfg, |shards|) {
      KOfNRoundTrip(lib, payload, cfg, Left(shards, lost));
    }
  }

  /** A chunk passes verification exactly when it is the encoder's own shard (for a collision-free hash). */
  lemma OnlyGenuineChunksVerify(lib: Lib, payload: Bytes, cfg: RsConfig, idx: nat, data: Bytes)
    requires cfg.chunkLen > 0 || cfg.dataShards > 0
    requires HashIsFixedLength(lib) && RecoversFromAnyK(lib)
    requires Encode(lib, payload, cfg).Ok? && AllUnforged(lib, Encode(lib, payload, cfg).value.1)
    ensures var (p, shards) := Encode(lib, payload, cfg).value;
            VerifyChunk(lib, p, idx, data) == Accepted <==> idx < |shards| && data == shards[idx]
  {
    EncodeForm(lib, payload, cfg);
    var (p, shards) := Encode(lib, payload, cfg).value;
    EncodedShape(lib, payload, ResolveShape(|payload|, cfg), p, shards);
    if idx < |shards| {
      assert p.hashes[idx] == lib.sha(shards[idx]);
      assert Unforged(lib, shards[idx]);
    }
  }
}
