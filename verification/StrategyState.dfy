/** The Reed-Solomon strategy as the source keeps it, updated in place over the heap planner and proved against `Strategies`. */
module StrategyStates {
  import opened Basics
  import opened Havelists
  import opened BitMaps
  import opened Coding
  import opened Strategies
  import A = Arrivals
  import P = Planners
  import H = PlannerHeap

  class RsStrategy {
    const cfg: RsConfig
    const preamble: Preamble
    const planner: H.EmitPlanner
    var chunks: seq<Option<Bytes>>
    var attached: set<PeerId>
    var inFlight: map<Handle, Flight>
    var nextHandle: Handle
    var lastCount: nat
    ghost var burned: map<nat, nat>

    ghost function View(): Strategy
      reads this, planner
    {
      Strategy(cfg, preamble, chunks, planner.View(), attached, inFlight, nextHandle, lastCount, burned)
    }

    ghost predicate Valid()
      reads this, planner
    {
      planner.Valid()
    }

    constructor (cfg: RsConfig, preamble: Preamble, chunks: seq<Option<Bytes>>, planner: H.EmitPlanner)
      requires planner.Valid()
      ensures Valid() && View() == With(cfg, preamble, chunks, planner.View()) && this.planner == planner
    {
      this.cfg, this.preamble, this.chunks, this.planner := cfg, preamble, chunks, planner;
      attached, inFlight, nextHandle, lastCount, burned := {}, map[], 0, 0, map[];
    }

    static method MakeOrigin(lib: Lib, payload: Bytes, cfg: RsConfig, fib: nat -> nat)
      returns (r: Result<RsStrategy, EncodeError>)
      requires cfg.chunkLen > 0 || cfg.dataShards > 0
      ensures match NewOrigin(lib, payload, cfg, fib)
              case Err(e) => r == Err(e)
              case Ok(s) => r.Ok? && fresh(r.value) && fresh(r.value.planner) && r.value.Valid() && r.value.View() == s
    {
      var encoded := EncodeLoop(lib, payload, cfg);
      if encoded.Err? { return Err(encoded.error); }
      var (p, shards) := encoded.value;
      var planner := new H.EmitPlanner(|shards|, fib, P.Origin);
      var s := new RsStrategy(cfg, p, seq(|shards|, i requires 0 <= i < |shards| => Some(shards[i])), planner);
      return Ok(s);
    }

    static method MakeRelay(p: Preamble, cfg: RsConfig, fib: nat -> nat) returns (r: Result<RsStrategy, PreambleError>)
      ensures match NewRelay(p, cfg, fib)
              case Err(e) => r == Err(e)
              case Ok(s) => r.Ok? && fresh(r.value) && fresh(r.value.planner) && r.value.Valid() && r.value.View() == s
    {
      var bad := ValidatePreamble(p);
      if bad.Some? { return Err(bad.value); }
      var planner := new H.EmitPlanner(p.Total(), fib, P.Relay(cfg.forwardMultiplier));
      var s := new RsStrategy(cfg, p, EmptySlots(p.Total()), planner);
      return Ok(s);
    }

    method AcceptedCount() returns (count: nat)
      requires Valid()
      ensures count == View().Accepted()
    {
      count := 0;
      assert chunks[0..] == chunks;
      for i := 0 to |chunks|
        invariant count + CountSome(chunks[i..]) == CountSome(chunks)
      {
        assert chunks[i..][1..] == chunks[i + 1..];
        if chunks[i].Some? { count := count + 1; }
      }
    }

    method Take(lib: Lib, idx: nat, data: Bytes) returns (r: Result<TakeOutcome, TakeError>)
      requires Valid()
      modifies this`chunks
      ensures Valid() && (View(), r) == TakeChunk(lib, old(View()), idx, data)
    {
      if idx >= |chunks| { return Err(OutOfRange); }
      if chunks[idx].Some? {
        var have := AcceptedCount();
        return Ok(TakeOutcome(Redundant, have >= preamble.numData));
      }
      var verdict := VerifyChunk(lib, preamble, idx, data);
      if verdict == Accepted {
        chunks := chunks[idx := Some(data)];
        var have := AcceptedCount();
        return Ok(TakeOutcome(Accepted, have >= preamble.numData));
      }
      return Ok(TakeOutcome(verdict, false));
    }

    method Attach(p: PeerId)
      requires Valid()
      modifies this`attached
      ensures Valid() && View() == AttachPeer(old(View()), p)
    {
      attached := attached + {p};
    }

    method Detach(p: PeerId)
      requires Valid()
      modifies this`attached, this`inFlight, planner
      ensures Valid() && View() == DetachPeer(old(View()), p)
    {
      hide P.RemovePeer;
      attached := attached - {p};
      inFlight := map h | h in inFlight && inFlight[h].peer != p :: inFlight[h];
      planner.RemovePeer(p);
    }

    /** Merges a peer's havelist and lists, in order, the sends it makes redundant. */
    method Route(p: PeerId, update: Havelist) returns (redundant: seq<Handle>)
      requires Valid()
      modifies planner`peers
      ensures Valid() && View() == RoutingUpdate(old(View()), p, update).0
      ensures Ascending(redundant) && (forall h :: h in redundant <==> h in RoutingUpdate(old(View()), p, update).1)
    {
      var have := planner.View().PeerOf(p).have;
      var merged := update;
      if have.Some? {
        merged := have.value;
        if merged.n == update.n { merged := Havelist(update.n, merged.bits + update.bits); }
      }
      planner.SetPeerHavelist(p, merged);
      redundant := RedundantSends(inFlight, planner.View(), p);
    }

    method IssueHandle() returns (h: Handle)
      modifies this`nextHandle
      ensures h == old(nextHandle) && nextHandle == h + 1
    {
      h := nextHandle;
      nextHandle := nextHandle + 1;
    }

    /** At most one shard for one peer; an allocation of a shard not held is cancelled and not refunded. */
    method PollOne(p: PeerId) returns (d: Option<Dispatch>)
      requires Valid()
      modifies this`inFlight, this`nextHandle, this`burned, planner
      ensures Valid() && (View(), d) == PollPeer(old(View()), p)
    {
      hide P.Choose, H.EmitPlanner.Valid, H.EmitPlanner.Exact, H.EmitPlanner.LiveEntries;
      var choice := planner.Allocate(p);
      if choice.None? { return None; }
      var i := choice.value;
      if !(i < |chunks| && chunks[i].Some?) {
        planner.CancelInFlight(p, i);
        burned := burned[i := View().Burned(i) + 1];
        return None;
      }
      var h := IssueHandle();
      inFlight := inFlight[h := Flight(p, i)];
      return Some(Dispatch(p, i, h, chunks[i].value));
    }

    method Poll() returns (ds: seq<Dispatch>)
      requires Valid()
      modifies this`inFlight, this`nextHandle, this`burned, planner
      ensures Valid() && (View(), ds) == PollChunks(old(View()))
    {
      hide PollPeer;
      var peers := Sorted(attached);
      ghost var goal := PollFrom(View(), peers);
      ds := [];
      assert peers[0..] == peers;
      for k := 0 to |peers|
        invariant Valid() && PollFrom(View(), peers[k..]).0 == goal.0 && ds + PollFrom(View(), peers[k..]).1 == goal.1
      {
        PollFromCons(View(), peers, k, ds);
        var d := PollOne(peers[k]);
        if d.Some? { ds := ds + [d.value]; }
      }
      assert peers[|peers|..] == [] && ds + [] == ds;
    }

    /** The accepted chunks as a bitmap object. */
    method LocalBitmap() returns (b: BitMap)
      requires Valid()
      ensures fresh(b) && b.Valid() && b.View() == View().LocalHavelist()
    {
      hide BitMap.Valid, Members, HeldBelow;
      b := new BitMap.WithCapacity(|chunks|);
      HeldBelowIs(chunks, 0);
      for i := 0 to |chunks|
        invariant fresh(b) && b.Valid() && b.n == |chunks|
        invariant b.View() == Havelist(|chunks|, HeldBelow(chunks, i))
      {
        HeldBelowIs(chunks, i);
        if chunks[i].Some? { var _ := b.Set(i); }
      }
      HeldBelowIs(chunks, |chunks|);
    }

    method PollRoute() returns (r: Option<Havelist>)
      requires Valid()
      modifies this`lastCount
      ensures Valid() && (View(), r) == PollRouting(old(View()))
    {
      if cfg.disableBitmap { return None; }
      var local := LocalBitmap();
      var count := local.CountOnes();
      A.HeldCount(chunks);
      assert A.HeldIndices(chunks) == View().LocalHavelist().bits;
      var crossed := |chunks| == 0 || count * 100 / |chunks| >= cfg.bitmapThreshold;
      if crossed && count != lastCount {
        lastCount := count;
        return Some(Havelist(|chunks|, set j: nat | j < |chunks| && chunks[j].Some?));
      }
      return None;
    }

    method Settle(p: PeerId, h: Handle, ok: bool)
      requires Valid()
      modifies this`inFlight, planner
      ensures Valid() && View() == ChunkSent(old(View()), p, h, ok)
    {
      hide P.RecordSent, P.Refund, P.CancelInFlight;
      if h !in inFlight { return; }
      var i := inFlight[h].idx;
      inFlight := inFlight - {h};
      if ok {
        planner.RecordSent(p, i);
      } else {
        planner.CancelInFlight(p, i);
        planner.RefundAllocation(i);
      }
    }

    method Rebuild(lib: Lib) returns (r: Result<Bytes, DecodeError>)
      requires Valid()
      ensures r == Reconstruct(lib, View())
    {
      var pairs: seq<IndexedShard> := [];
      for i := 0 to |chunks|
        invariant ChunkPairs(chunks, 0) == pairs + ChunkPairs(chunks, i)
      {
        if chunks[i].Some? { pairs := pairs + [(i, chunks[i].value)]; }
      }
      assert pairs + [] == pairs;
      r := DecodeLoop(lib, preamble, pairs);
    }
  }

  /** The held indices below `i`. */
  ghost function HeldBelow(chunks: seq<Option<Bytes>>, i: nat): set<nat>
    requires i <= |chunks|
  {
    set j: nat | j < i && chunks[j].Some?
  }

  lemma HeldBelowIs(chunks: seq<Option<Bytes>>, i: nat)
    requires i <= |chunks|
    ensures i == 0 ==> HeldBelow(chunks, i) == {}
    ensures i < |chunks| ==>
              HeldBelow(chunks, i + 1) == HeldBelow(chunks, i) + if chunks[i].Some? then {i} else {}
    ensures i == |chunks| ==> HeldBelow(chunks, i) == set j: nat | j < |chunks| && chunks[j].Some?
  {
  }

  lemma PollFromCons(s: Strategy, peers: seq<PeerId>, k: nat, ds: seq<Dispatch>)
    requires k < |peers|
    ensures var (t, d) := PollPeer(s, peers[k]);
            var (u, rest) := PollFrom(t, peers[k + 1..]);
            && PollFrom(s, peers[k..]).0 == u
            && ds + PollFrom(s, peers[k..]).1 == (if d.Some? then ds + [d.value] else ds) + rest
  {
    hide PollPeer;
    assert peers[k..][1..] == peers[k + 1..];
  }

  /** The flight goes to the peer, which now claims to have its shard. */
  predicate Claimed(f: Flight, q: P.Planner, p: PeerId) {
    f.peer == p && q.InFlight(p, f.idx) && q.Has(p, f.idx)
  }

  ghost predicate Picks(r: seq<Handle>, from: seq<Handle>, m: map<Handle, Flight>, q: P.Planner, p: PeerId)
    requires forall h | h in from :: h in m
  {
    Ascending(r) && forall h :: h in r <==> h in from && Claimed(m[h], q, p)
  }

  lemma PickNext(r: seq<Handle>, all: seq<Handle>, i: nat, m: map<Handle, Flight>, q: P.Planner, p: PeerId)
    requires Ascending(all) && i < |all| && (forall h | h in all :: h in m) && Picks(r, all[..i], m, q, p)
    ensures Picks(if Claimed(m[all[i]], q, p) then r + [all[i]] else r, all[..i + 1], m, q, p)
  {
    hide Claimed;
    assert all[..i + 1] == all[..i] + [all[i]];
    forall k | 0 <= k < |r|
      ensures r[k] < all[i]
    {
      assert r[k] in all[..i];
    }
  }

  /** The handles in flight to the peer whose shards it now claims to have, in order. */
  method RedundantSends(inFlight: map<Handle, Flight>, q: P.Planner, p: PeerId) returns (redundant: seq<Handle>)
    ensures Ascending(redundant)
    ensures forall h :: h in redundant <==> h in inFlight && Claimed(inFlight[h], q, p)
  {
    var handles := Sorted(inFlight.Keys);
    redundant := [];
    assert Picks([], handles[..0], inFlight, q, p);
    hide Picks, Claimed;
    for i := 0 to |handles|
      invariant Picks(redundant, handles[..i], inFlight, q, p)
    {
      PickNext(redundant, handles, i, inFlight, q, p);
      if Claimed(inFlight[handles[i]], q, p) {
        redundant := redundant + [handles[i]];
      }
    }
    assert handles[..|handles|] == handles;
    Picked(redundant, handles, inFlight, q, p);
  }

  lemma Picked(r: seq<Handle>, all: seq<Handle>, m: map<Handle, Flight>, q: P.Planner, p: PeerId)
    requires (forall h | h in all :: h in m) && (forall h | h in m :: h in all) && Picks(r, all, m, q, p)
    ensures Ascending(r) && forall h :: h in r <==> h in m && Claimed(m[h], q, p)
  {
    hide Claimed;
  }
}
