/** The Reed-Solomon strategy: accepted chunks, the planner and the dispatches in flight. */
module Strategies {
  import opened Basics
  import opened Havelists
  import opened Coding
  import P = Planners

  type Handle = nat

  /** A chunk in flight: which peer it goes to and which shard it carries. */
  datatype Flight = Flight(peer: PeerId, idx: nat)

  datatype Dispatch = Dispatch(peer: PeerId, idx: nat, handle: Handle, payload: Bytes)

  datatype TakeOutcome = TakeOutcome(verdict: Verdict, complete: bool)

  /** The chunk's index is not below the shard count. */
  datatype TakeError = OutOfRange

  /**
   * Strategy state. `burned` is a history variable: how often an allocation of each shard was cancelled
   * without a refund because the shard was not held. The source keeps no such count.
   */
  datatype Strategy = Strategy(
    cfg: RsConfig,
    preamble: Preamble,
    chunks: seq<Option<Bytes>>,
    planner: P.Planner,
    attached: set<PeerId>,
    inFlight: map<Handle, Flight>,
    nextHandle: Handle,
    lastCount: nat,
    burned: map<nat, nat>)
  {
    predicate Held(i: nat) {
      i < |chunks| && chunks[i].Some?
    }

    function Accepted(): nat { CountSome(chunks) }

    predicate CanReconstruct() { Accepted() >= preamble.numData }

    function Burned(i: nat): nat {
      if i in burned then burned[i] else 0
    }

    function LocalHavelist(): Havelist {
      Havelist(|chunks|, set i: nat | i < |chunks| && chunks[i].Some?)
    }

    predicate ThresholdReached() {
      |chunks| == 0 || Accepted() * 100 / |chunks| >= cfg.bitmapThreshold
    }

    /** Whether the next poll emits a routing update. */
    predicate RoutingDue() {
      !cfg.disableBitmap && ThresholdReached() && Accepted() != lastCount
    }
  }

  function With(cfg: RsConfig, p: Preamble, chunks: seq<Option<Bytes>>, planner: P.Planner): Strategy {
    Strategy(cfg, p, chunks, planner, {}, map[], 0, 0, map[])
  }

  function NewOrigin(lib: Lib, payload: Bytes, cfg: RsConfig, fib: nat -> nat): Result<Strategy, EncodeError>
    requires cfg.chunkLen > 0 || cfg.dataShards > 0
  {
    match Encode(lib, payload, cfg)
    case Err(e) => Err(e)
    case Ok((p, shards)) =>
      var chunks := seq(|shards|, i requires 0 <= i < |shards| => Some(shards[i]));
      Ok(With(cfg, p, chunks, P.New(|shards|, fib, P.Origin)))
  }

  function NewRelay(p: Preamble, cfg: RsConfig, fib: nat -> nat): Result<Strategy, PreambleError> {
    match ValidatePreamble(p)
    case Some(e) => Err(e)
    case None => Ok(With(cfg, p, EmptySlots(p.Total()), P.New(p.Total(), fib, P.Relay(cfg.forwardMultiplier))))
  }

  // ---- Operations ----

  function TakeChunk(lib: Lib, s: Strategy, idx: nat, data: Bytes): (Strategy, Result<TakeOutcome, TakeError>) {
    if idx >= |s.chunks| then (s, Err(OutOfRange))
    else if s.chunks[idx].Some? then (s, Ok(TakeOutcome(Redundant, s.CanReconstruct())))
    else match VerifyChunk(lib, s.preamble, idx, data)
      case Accepted =>
        var s' := s.(chunks := s.chunks[idx := Some(data)]);
        (s', Ok(TakeOutcome(Verdict.Accepted, s'.CanReconstruct())))
      case other => (s, Ok(TakeOutcome(other, false)))
  }

  function AttachPeer(s: Strategy, p: PeerId): Strategy {
    s.(attached := s.attached + {p})
  }

  function DetachPeer(s: Strategy, p: PeerId): Strategy {
    s.(attached := s.attached - {p},
       inFlight := map h | h in s.inFlight && s.inFlight[h].peer != p :: s.inFlight[h],
       planner := P.RemovePeer(s.planner, p))
  }

  /** Merges a peer's havelist into the planner's view of it and names the sends it makes redundant. */
  function RoutingUpdate(s: Strategy, p: PeerId, update: Havelist): (Strategy, set<Handle>) {
    var have := s.planner.PeerOf(p).have;
    var merged :=
      if have.None? then update
      else if have.value.n == update.n then Havelist(update.n, have.value.bits + update.bits)
      else have.value;
    var s' := s.(planner := P.SetHavelist(s.planner, p, merged));
    var redundant := set h | h in s.inFlight
                           && s.inFlight[h].peer == p
                           && s'.planner.InFlight(p, s.inFlight[h].idx)
                           && s'.planner.Has(p, s.inFlight[h].idx);
    (s', redundant)
  }

  /** The strategy after sending shard `i` to `p` under a new handle. */
  function Launched(s: Strategy, p: PeerId, i: nat): Strategy {
    s.(planner := P.Assigned(s.planner, p, i),
       inFlight := s.inFlight[s.nextHandle := Flight(p, i)],
       nextHandle := s.nextHandle + 1)
  }

  /** The strategy after allocating shard `i` for `p` and cancelling, because the shard is not held. */
  function Burnt(s: Strategy, p: PeerId, i: nat): Strategy {
    s.(planner := P.CancelInFlight(P.Assigned(s.planner, p, i), p, i),
       burned := s.burned[i := s.Burned(i) + 1])
  }

  function PollPeer(s: Strategy, p: PeerId): (Strategy, Option<Dispatch>) {
    var (q, choice) := P.Allocate(s.planner, p);
    match choice
    case None => (s.(planner := q), None)
    case Some(i) =>
      if s.Held(i) then (Launched(s, p, i), Some(Dispatch(p, i, s.nextHandle, s.chunks[i].value)))
      else (Burnt(s, p, i), None)
  }

  function PollFrom(s: Strategy, peers: seq<PeerId>): (Strategy, seq<Dispatch>)
    decreases |peers|
  {
    if peers == [] then (s, [])
    else
      var (s1, d) := PollPeer(s, peers[0]);
      var (s2, ds) := PollFrom(s1, peers[1..]);
      (s2, if d.Some? then [d.value] + ds else ds)
  }

  function PollChunks(s: Strategy): (Strategy, seq<Dispatch>) {
    PollFrom(s, Sorted(s.attached))
  }

  function PollRouting(s: Strategy): (Strategy, Option<Havelist>) {
    if s.RoutingDue() then (s.(lastCount := s.Accepted()), Some(s.LocalHavelist())) else (s, None)
  }

  function ChunkSent(s: Strategy, p: PeerId, h: Handle, ok: bool): Strategy {
    if h !in s.inFlight then s
    else
      var i := s.inFlight[h].idx;
      var q := if ok then P.RecordSent(s.planner, p, i)
               else P.Refund(P.CancelInFlight(s.planner, p, i), i);
      s.(inFlight := s.inFlight - {h}, planner := q)
  }

  function ChunkPairs(chunks: seq<Option<Bytes>>, from: nat): seq<IndexedShard>
    requires from <= |chunks|
    decreases |chunks| - from
  {
    if from == |chunks| then []
    else if chunks[from].Some? then [(from, chunks[from].value)] + ChunkPairs(chunks, from + 1)
    else ChunkPairs(chunks, from + 1)
  }

  function Reconstruct(lib: Lib, s: Strategy): Result<Bytes, DecodeError> {
    Decode(lib, s.preamble, ChunkPairs(s.chunks, 0))
  }

  // ---- Invariants ----

  ghost predicate Shaped(s: Strategy) {
    WellShaped(s.preamble) && |s.chunks| == s.preamble.Total() == s.planner.n
  }

  /** The planner's in-flight (peer, shard) pairs. */
  ghost function Flights(q: P.Planner): set<Flight> {
    set p, i | p in q.peers && i in q.peers[p].inFlight :: Flight(p, i)
  }

  ghost predicate Injective(m: map<Handle, Flight>) {
    forall h, g | h in m && g in m && m[h] == m[g] :: h == g
  }

  /** Handles and the planner's in-flight pairs correspond one to one; each carries a held shard to an attached peer. */
  ghost predicate Matched(s: Strategy) {
    && Injective(s.inFlight)
    && s.inFlight.Values == Flights(s.planner)
    && (forall h | h in s.inFlight ::
          h < s.nextHandle && s.inFlight[h].peer in s.attached && s.Held(s.inFlight[h].idx))
  }

  /** The peers shard `i` is in flight to. */
  ghost function Carriers(q: P.Planner, i: nat): set<PeerId> {
    set p | p in q.peers && i in q.peers[p].inFlight
  }

  /** Every allocation of a shard was sent, is in flight, or was burned. */
  ghost predicate Balanced(s: Strategy) {
    forall i: nat :: s.planner.Alloc(i) == s.planner.Sent(i) + |Carriers(s.planner, i)| + s.Burned(i)
  }

  /** A relay never allocates a shard more often than the forward multiplier. */
  ghost predicate Capped(s: Strategy) {
    s.planner.mode.Relay? ==> forall i: nat :: s.planner.Alloc(i) <= s.planner.mode.cap
  }

  ghost predicate Inv(s: Strategy) {
    Shaped(s) && Matched(s) && Balanced(s) && Capped(s)
  }

  /** What a constructor returns: nobody attached, nothing allocated. */
  ghost predicate Fresh(s: Strategy) {
    && Shaped(s)
    && s.attached == {} && s.inFlight == map[] && s.burned == map[] && s.lastCount == 0
    && s.planner.allocation == map[] && s.planner.sent == map[] && s.planner.peers == map[]
  }

  lemma FreshInv(s: Strategy)
    requires Fresh(s)
    ensures Inv(s)
  {
    forall i: nat
      ensures Carriers(s.planner, i) == {}
    {
    }
  }

  lemma NewRelayFresh(p: Preamble, cfg: RsConfig, fib: nat -> nat)
    requires NewRelay(p, cfg, fib).Ok?
    ensures Fresh(NewRelay(p, cfg, fib).value)
  {
  }

  lemma NewOriginFresh(lib: Lib, payload: Bytes, cfg: RsConfig, fib: nat -> nat)
    requires cfg.chunkLen > 0 || cfg.dataShards > 0
    requires HashIsFixedLength(lib) && RecoversFromAnyK(lib)
    requires NewOrigin(lib, payload, cfg, fib).Ok?
    ensures var s := NewOrigin(lib, payload, cfg, fib).value;
            Fresh(s) && s.planner.mode.Origin? && forall i | 0 <= i < |s.chunks| :: s.Held(i)
  {
    EncodeForm(lib, payload, cfg);
    var (p, shards) := Encode(lib, payload, cfg).value;
    EncodedShape(lib, payload, ResolveShape(|payload|, cfg), p, shards);
  }

  /**
   * What a chunk's outcome means for a well-shaped relay: out of range is an error; accepted if its slot was free and its hash is
   * the entry of its index, and then it is stored; redundant if the slot was taken; invalid otherwise. It counts as
   * completing if enough chunks are held afterwards, unless it is invalid.
   */
  lemma TakeOutcomes(lib: Lib, s: Strategy, idx: nat, data: Bytes)
    requires Shaped(s)
    ensures var (t, r) := TakeChunk(lib, s, idx, data);
            var n := s.preamble.Total();
            && (r == Err(OutOfRange) <==> idx >= n)
            && (r.Ok? ==>
                  && (r.value.verdict == Verdict.Accepted <==> !s.Held(idx) && lib.sha(data) == s.preamble.hashes[idx])
                  && (r.value.verdict == Redundant <==> s.Held(idx))
                  && r.value.verdict in {Verdict.Accepted, Redundant, Invalid}
                  && (r.value.complete <==> r.value.verdict != Invalid && CountSome(t.chunks) >= s.preamble.numData))
            && (forall i | 0 <= i < n ::
                  t.chunks[i] == if r.Ok? && r.value.verdict == Verdict.Accepted && i == idx then Some(data) else s.chunks[i])
  {
  }

  // ---- How planner steps move the in-flight pairs ----

  lemma FlightIff(q: P.Planner, p: PeerId, i: nat)
    ensures Flight(p, i) in Flights(q) <==> q.InFlight(p, i)
    ensures p in Carriers(q, i) <==> q.InFlight(p, i)
  {
  }

  lemma AssignedFlights(q: P.Planner, p: PeerId, i: nat, j: nat)
    ensures Flights(P.Assigned(q, p, i)) == Flights(q) + {Flight(p, i)}
    ensures Carriers(P.Assigned(q, p, i), j) == if j == i then Carriers(q, j) + {p} else Carriers(q, j)
  {
    var r := P.Assigned(q, p, i);
    forall x: PeerId, k: nat
      ensures r.InFlight(x, k) <==> q.InFlight(x, k) || (x == p && k == i)
    {
    }
    SameByFlight(r, q, {Flight(p, i)}, {}, j);
  }

  lemma LandedFlights(q: P.Planner, p: PeerId, s: P.PeerState, i: nat, j: nat)
    requires s.inFlight == q.PeerOf(p).inFlight - {i}
    ensures Flights(P.WithPeer(q, p, s)) == Flights(q) - {Flight(p, i)}
    ensures Carriers(P.WithPeer(q, p, s), j) == if j == i then Carriers(q, j) - {p} else Carriers(q, j)
  {
    var r := P.WithPeer(q, p, s);
    forall x: PeerId, k: nat
      ensures r.InFlight(x, k) <==> q.InFlight(x, k) && !(x == p && k == i)
    {
    }
    SameByFlight(r, q, {}, {Flight(p, i)}, j);
  }

  lemma RemovedFlights(q: P.Planner, p: PeerId, j: nat)
    ensures Flights(q.(peers := q.peers - {p})) == set f | f in Flights(q) && f.peer != p
    ensures Carriers(q.(peers := q.peers - {p}), j) == Carriers(q, j) - {p}
  {
    var r := q.(peers := q.peers - {p});
    forall f: Flight
      ensures f in Flights(r) <==> f in Flights(q) && f.peer != p
    {
      FlightIff(r, f.peer, f.idx);
      FlightIff(q, f.peer, f.idx);
    }
  }

  /** Pairs and carriers depend only on the peer table's in-flight sets. */
  lemma SameByFlight(r: P.Planner, q: P.Planner, plus: set<Flight>, minus: set<Flight>, j: nat)
    requires forall x: PeerId, k: nat ::
               r.InFlight(x, k) <==> (q.InFlight(x, k) && Flight(x, k) !in minus) || Flight(x, k) in plus
    ensures Flights(r) == Flights(q) - minus + plus
    ensures forall x :: x in Carriers(r, j) <==> (x in Carriers(q, j) && Flight(x, j) !in minus) || Flight(x, j) in plus
  {
    forall f: Flight
      ensures f in Flights(r) <==> (f in Flights(q) && f !in minus) || f in plus
    {
      FlightIff(r, f.peer, f.idx);
      FlightIff(q, f.peer, f.idx);
    }
    forall x
      ensures x in Carriers(r, j) <==> (x in Carriers(q, j) && Flight(x, j) !in minus) || Flight(x, j) in plus
    {
      if x is nat {
        FlightIff(r, x, j);
        FlightIff(q, x, j);
      }
    }
  }

  // ---- How the handle table changes ----

  lemma InsertedValues(m: map<Handle, Flight>, h: Handle, f: Flight)
    requires h !in m && Injective(m) && f !in m.Values
    ensures Injective(m[h := f]) && m[h := f].Values == m.Values + {f}
  {
    var m' := m[h := f];
    assert h in m' && m'[h] == f;
    forall g: Flight
      ensures g in m'.Values <==> g in m.Values + {f}
    {
      if g in m.Values {
        var k :| k in m && m[k] == g;
        assert k in m' && m'[k] == g;
      }
    }
  }

  lemma RemovedValues(m: map<Handle, Flight>, h: Handle)
    requires h in m && Injective(m)
    ensures Injective(m - {h}) && (m - {h}).Values == m.Values - {m[h]}
  {
    var m' := m - {h};
    forall g: Flight
      ensures g in m'.Values <==> g in m.Values - {m[h]}
    {
      if g in m.Values && g != m[h] {
        var k :| k in m && m[k] == g;
        assert k in m' && m'[k] == g;
      }
    }
  }

  ghost function Without(m: map<Handle, Flight>, p: PeerId): map<Handle, Flight> {
    map h | h in m && m[h].peer != p :: m[h]
  }

  lemma FilteredValues(m: map<Handle, Flight>, p: PeerId)
    requires Injective(m)
    ensures Injective(Without(m, p)) && Without(m, p).Values == set f | f in m.Values && f.peer != p
  {
    var m' := Without(m, p);
    forall f: Flight
      ensures f in m'.Values <==> f in m.Values && f.peer != p
    {
      if f in m.Values && f.peer != p {
        var h :| h in m && m[h] == f;
        assert h in m' && m'[h] == f;
      }
    }
  }

  // ---- Every operation keeps the invariant ----

  lemma TakeChunkInv(lib: Lib, s: Strategy, idx: nat, data: Bytes)
    requires Inv(s)
    ensures Inv(TakeChunk(lib, s, idx, data).0)
  {
    var s' := TakeChunk(lib, s, idx, data).0;
    assert forall i: nat :: s.Burned(i) == s'.Burned(i);
  }

  lemma AttachPeerInv(s: Strategy, p: PeerId)
    requires Inv(s)
    ensures Inv(AttachPeer(s, p))
  {
    var s' := AttachPeer(s, p);
    assert forall i: nat :: s.Burned(i) == s'.Burned(i);
  }

  lemma DetachKeepsBalance(s: Strategy, p: PeerId, i: nat)
    requires Balanced(s)
    ensures var s' := DetachPeer(s, p);
            && s'.planner.Alloc(i) == s'.planner.Sent(i) + |Carriers(s'.planner, i)| + s'.Burned(i)
            && s'.planner.Alloc(i) <= s.planner.Alloc(i)
            && s'.planner.mode == s.planner.mode && s'.planner.n == s.planner.n
  {
    var s' := DetachPeer(s, p);
    P.RemovePeerRefunds(s.planner, p, i);
    hide P.RemovePeer;
    RemovedFlights(s.planner, p, i);
    assert Carriers(s'.planner, i) == Carriers(s.planner, i) - {p};
    FlightIff(s.planner, p, i);
    assert s.planner.Sent(i) == s'.planner.Sent(i) && s.Burned(i) == s'.Burned(i);
  }

  lemma DetachKeepsMatch(s: Strategy, p: PeerId)
    requires Matched(s)
    ensures Matched(DetachPeer(s, p))
  {
    var s' := DetachPeer(s, p);
    P.RemovePeerRefunds(s.planner, p, 0);
    hide P.RemovePeer;
    RemovedFlights(s.planner, p, 0);
    FilteredValues(s.inFlight, p);
    assert s'.inFlight == Without(s.inFlight, p);
    assert Flights(s'.planner) == Flights(s.planner.(peers := s.planner.peers - {p}));
    hide Flights;
  }

  lemma DetachPeerInv(s: Strategy, p: PeerId)
    requires Inv(s)
    ensures Inv(DetachPeer(s, p))
  {
    var s' := DetachPeer(s, p);
    DetachKeepsMatch(s, p);
    DetachKeepsBalance(s, p, 0);
    forall i: nat
      ensures s'.planner.Alloc(i) == s'.planner.Sent(i) + |Carriers(s'.planner, i)| + s'.Burned(i)
      ensures s'.planner.Alloc(i) <= s.planner.Alloc(i)
    {
      DetachKeepsBalance(s, p, i);
    }
    hide P.RemovePeer, Matched, Carriers;
  }

  lemma RoutingUpdateInv(s: Strategy, p: PeerId, update: Havelist)
    requires Inv(s)
    ensures Inv(RoutingUpdate(s, p, update).0)
  {
    var s' := RoutingUpdate(s, p, update).0;
    forall x: PeerId, i: nat
      ensures s'.planner.InFlight(x, i) <==> s.planner.InFlight(x, i)
    {
    }
    SameByFlight(s'.planner, s.planner, {}, {}, 0);
    forall i: nat
      ensures Carriers(s'.planner, i) == Carriers(s.planner, i)
    {
      SameByFlight(s'.planner, s.planner, {}, {}, i);
    }
    assert forall i: nat :: s.Burned(i) == s'.Burned(i);
  }

  // Polling one peer: nothing to send, a dispatch, or a burned allocation.

  lemma LaunchedBalance(s: Strategy, p: PeerId, i: nat, j: nat)
    requires Balanced(s) && !s.planner.InFlight(p, i)
    ensures var s' := Launched(s, p, i);
            s'.planner.Alloc(j) == s'.planner.Sent(j) + |Carriers(s'.planner, j)| + s'.Burned(j)
  {
    AssignedFlights(s.planner, p, i, j);
    FlightIff(s.planner, p, i);
    assert s.planner.Alloc(j) == s.planner.Sent(j) + |Carriers(s.planner, j)| + s.Burned(j);
  }

  lemma BurntFlights(s: Strategy, p: PeerId, i: nat, j: nat)
    requires !s.planner.InFlight(p, i)
    ensures Flights(Burnt(s, p, i).planner) == Flights(s.planner)
    ensures Carriers(Burnt(s, p, i).planner, j) == Carriers(s.planner, j)
  {
    AssignedFlights(s.planner, p, i, j);
    var q := P.Assigned(s.planner, p, i);
    var state := q.PeerOf(p).(inFlight := q.PeerOf(p).inFlight - {i});
    LandedFlights(q, p, state, i, j);
    FlightIff(s.planner, p, i);
    assert Burnt(s, p, i).planner == P.WithPeer(q, p, state);
    assert Flights(s.planner) + {Flight(p, i)} - {Flight(p, i)} == Flights(s.planner);
    assert Carriers(s.planner, i) + {p} - {p} == Carriers(s.planner, i);
  }

  lemma BurntBalance(s: Strategy, p: PeerId, i: nat, j: nat)
    requires Balanced(s) && !s.planner.InFlight(p, i)
    ensures var s' := Burnt(s, p, i);
            s'.planner.Alloc(j) == s'.planner.Sent(j) + |Carriers(s'.planner, j)| + s'.Burned(j)
  {
    BurntFlights(s, p, i, j);
    assert s.planner.Alloc(j) == s.planner.Sent(j) + |Carriers(s.planner, j)| + s.Burned(j);
  }

  lemma LaunchedMatch(s: Strategy, p: PeerId, i: nat)
    requires Matched(s) && p in s.attached && s.Held(i) && !s.planner.InFlight(p, i)
    ensures Matched(Launched(s, p, i))
  {
    AssignedFlights(s.planner, p, i, 0);
    FlightIff(s.planner, p, i);
    InsertedValues(s.inFlight, s.nextHandle, Flight(p, i));
    hide Flights, P.Assigned, Injective;
  }

  lemma LaunchedInv(s: Strategy, p: PeerId, i: nat)
    requires Inv(s) && p in s.attached && s.Held(i) && s.planner.Eligible(p, i)
    ensures Inv(Launched(s, p, i))
  {
    var s' := Launched(s, p, i);
    LaunchedMatch(s, p, i);
    forall j: nat
      ensures s'.planner.Alloc(j) == s'.planner.Sent(j) + |Carriers(s'.planner, j)| + s'.Burned(j)
    {
      LaunchedBalance(s, p, i, j);
    }
    assert forall j: nat :: s'.planner.Alloc(j) == if j == i then s.planner.Alloc(i) + 1 else s.planner.Alloc(j);
    hide Flights, Carriers, Matched;
  }

  lemma BurntInv(s: Strategy, p: PeerId, i: nat)
    requires Inv(s) && s.planner.Eligible(p, i)
    ensures Inv(Burnt(s, p, i))
  {
    var s' := Burnt(s, p, i);
    forall j: nat
      ensures s'.planner.Alloc(j) == s'.planner.Sent(j) + |Carriers(s'.planner, j)| + s'.Burned(j)
    {
      BurntBalance(s, p, i, j);
    }
    BurntFlights(s, p, i, 0);
    assert forall j: nat :: s'.planner.Alloc(j) == if j == i then s.planner.Alloc(i) + 1 else s.planner.Alloc(j);
  }

  lemma IdleInv(s: Strategy, p: PeerId)
    requires Inv(s)
    ensures Inv(s.(planner := P.WithPeer(s.planner, p, s.planner.PeerOf(p))))
  {
    var s' := s.(planner := P.WithPeer(s.planner, p, s.planner.PeerOf(p)));
    SameByFlight(s'.planner, s.planner, {}, {}, 0);
    forall i: nat
      ensures Carriers(s'.planner, i) == Carriers(s.planner, i)
    {
      SameByFlight(s'.planner, s.planner, {}, {}, i);
    }
    assert forall i: nat :: s.Burned(i) == s'.Burned(i);
  }

  lemma PollPeerInv(s: Strategy, p: PeerId)
    requires Inv(s) && p in s.attached
    ensures Inv(PollPeer(s, p).0)
  {
    var choice := P.Choose(s.planner, p);
    if choice.None? {
      IdleInv(s, p);
    } else if s.Held(choice.value) {
      LaunchedInv(s, p, choice.value);
    } else {
      BurntInv(s, p, choice.value);
    }
    hide Inv, Launched, Burnt;
  }

  /** What a poll leaves alone. */
  ghost predicate SameContent(s: Strategy, t: Strategy) {
    && s.cfg == t.cfg && s.preamble == t.preamble && s.chunks == t.chunks
    && s.attached == t.attached && s.lastCount == t.lastCount
    && s.planner.n == t.planner.n && s.planner.mode == t.planner.mode
  }

  lemma {:induction false} PollFromInv(s: Strategy, peers: seq<PeerId>)
    requires Inv(s) && forall p | p in peers :: p in s.attached
    ensures Inv(PollFrom(s, peers).0) && SameContent(s, PollFrom(s, peers).0)
    decreases |peers|
  {
    if peers != [] {
      PollPeerInv(s, peers[0]);
      hide Inv;
      PollFromInv(PollPeer(s, peers[0]).0, peers[1..]);
    }
  }

  lemma PollChunksInv(s: Strategy)
    requires Inv(s)
    ensures Inv(PollChunks(s).0) && SameContent(s, PollChunks(s).0)
  {
    hide Inv;
    PollFromInv(s, Sorted(s.attached));
  }

  lemma PollRoutingInv(s: Strategy)
    requires Inv(s)
    ensures Inv(PollRouting(s).0)
  {
    var s' := PollRouting(s).0;
    assert forall i: nat :: s.Burned(i) == s'.Burned(i);
  }

  // Settling a dispatch.

  lemma ChunkSentFlights(s: Strategy, h: Handle, ok: bool, i: nat)
    requires h in s.inFlight
    ensures var f := s.inFlight[h];
            var q := ChunkSent(s, f.peer, h, ok).planner;
            && Flights(q) == Flights(s.planner) - {f}
            && Carriers(q, i) == if i == f.idx then Carriers(s.planner, i) - {f.peer} else Carriers(s.planner, i)
  {
    var f := s.inFlight[h];
    var q := ChunkSent(s, f.peer, h, ok).planner;
    var landed := q.PeerOf(f.peer);
    LandedFlights(s.planner, f.peer, landed, f.idx, i);
    assert q.peers == P.WithPeer(s.planner, f.peer, landed).peers;
  }

  lemma ChunkSentCounts(s: Strategy, h: Handle, ok: bool, i: nat)
    requires h in s.inFlight
    ensures var f, q := s.inFlight[h], s.planner;
            var r := ChunkSent(s, f.peer, h, ok).planner;
            && r.Sent(i) == (if ok && i == f.idx then q.Sent(i) + 1 else q.Sent(i))
            && r.Alloc(i) == (if !ok && i == f.idx && q.Alloc(i) > 0 then q.Alloc(i) - 1 else q.Alloc(i))
            && r.mode == q.mode && r.n == q.n
  {
  }

  lemma ChunkSentBalance(s: Strategy, h: Handle, ok: bool, i: nat)
    requires Balanced(s) && Matched(s) && h in s.inFlight
    ensures var s' := ChunkSent(s, s.inFlight[h].peer, h, ok);
            && s'.planner.Alloc(i) == s'.planner.Sent(i) + |Carriers(s'.planner, i)| + s'.Burned(i)
            && s'.planner.Alloc(i) <= s.planner.Alloc(i)
  {
    var f := s.inFlight[h];
    var s' := ChunkSent(s, f.peer, h, ok);
    ChunkSentFlights(s, h, ok, i);
    ChunkSentCounts(s, h, ok, i);
    assert f in s.inFlight.Values;
    FlightIff(s.planner, f.peer, f.idx);
    assert s'.burned == s.burned;
    hide P.RecordSent, P.Refund, P.CancelInFlight, Carriers, Flights;
    assert s.planner.Alloc(i) == s.planner.Sent(i) + |Carriers(s.planner, i)| + s.Burned(i);
  }

  /** Settling keeps the invariant when the reported peer is the one the dispatch went to. */
  lemma ChunkSentInv(s: Strategy, p: PeerId, h: Handle, ok: bool)
    requires Inv(s) && (h in s.inFlight ==> s.inFlight[h].peer == p)
    ensures Inv(ChunkSent(s, p, h, ok))
  {
    if h in s.inFlight {
      var s' := ChunkSent(s, p, h, ok);
      assert Shaped(s') && s'.planner.mode == s.planner.mode;
      ChunkSentMatch(s, h, ok);
      forall i: nat
        ensures s'.planner.Alloc(i) == s'.planner.Sent(i) + |Carriers(s'.planner, i)| + s'.Burned(i)
        ensures s'.planner.Alloc(i) <= s.planner.Alloc(i)
      {
        ChunkSentBalance(s, h, ok, i);
      }
      hide Matched, Shaped, ChunkSent, Carriers;
    }
  }

  lemma ChunkSentMatch(s: Strategy, h: Handle, ok: bool)
    requires Matched(s) && h in s.inFlight
    ensures Matched(ChunkSent(s, s.inFlight[h].peer, h, ok))
  {
    ChunkSentFlights(s, h, ok, 0);
    RemovedValues(s.inFlight, h);
    hide P.RecordSent, P.Refund, P.CancelInFlight, Flights, Injective;
  }
}
