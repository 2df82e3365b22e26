/** The emit planner as a plain argmin over allocation counts. The heap that computes it is in `PlannerHeap`. */
module Planners {
  import opened Basics
  import opened Havelists

  /** Origins allocate without bound; relays at most `cap` times per shard. */
  datatype Mode = Origin | Relay(cap: nat)

  datatype PeerState = PeerState(inFlight: set<nat>, have: Option<Havelist>)

  const NO_STATE := PeerState({}, None)

  datatype Planner = Planner(
    mode: Mode,
    n: nat,
    fib: nat -> nat,
    allocation: map<nat, nat>,
    sent: map<nat, nat>,
    peers: map<PeerId, PeerState>)
  {
    function Alloc(i: nat): nat {
      if i in allocation then allocation[i] else 0
    }

    function Sent(i: nat): nat {
      if i in sent then sent[i] else 0
    }

    function PeerOf(p: PeerId): PeerState {
      if p in peers then peers[p] else NO_STATE
    }

    predicate InFlight(p: PeerId, i: nat) {
      i in PeerOf(p).inFlight
    }

    /** Whether the peer is believed to hold shard `i`. */
    predicate Has(p: PeerId, i: nat) {
      var have := PeerOf(p).have;
      have.Some? && i < have.value.n && i in have.value.bits
    }

    predicate UnderCap(i: nat) {
      mode.Origin? || Alloc(i) < mode.cap
    }

    predicate Eligible(p: PeerId, i: nat) {
      i < n && UnderCap(i) && !Has(p, i) && !InFlight(p, i)
    }

    /** Emission order: fewest allocations, then lowest priority, then lowest index. */
    predicate Before(i: nat, j: nat) {
      || Alloc(i) < Alloc(j)
      || (Alloc(i) == Alloc(j) && fib(i) < fib(j))
      || (Alloc(i) == Alloc(j) && fib(i) == fib(j) && i < j)
    }

    /** `i` is the shard the planner must pick for `p`. */
    ghost predicate IsBest(p: PeerId, i: nat) {
      Eligible(p, i) && forall j | j != i && Eligible(p, j) :: Before(i, j)
    }
  }

  function New(n: nat, fib: nat -> nat, mode: Mode): Planner {
    Planner(mode, n, fib, map[], map[], map[])
  }

  // ---- Choosing a shard ----

  function BestBelow(q: Planner, p: PeerId, m: nat): (r: Option<nat>)
    requires m <= q.n
    ensures r.None? ==> forall i | 0 <= i < m :: !q.Eligible(p, i)
    ensures r.Some? ==> r.value < m && q.Eligible(p, r.value)
    ensures r.Some? ==> forall j | 0 <= j < m && j != r.value && q.Eligible(p, j) :: q.Before(r.value, j)
  {
    if m == 0 then None
    else
      var r := BestBelow(q, p, m - 1);
      if q.Eligible(p, m - 1) && (r.None? || q.Before(m - 1, r.value)) then Some(m - 1) else r
  }

  /** The argmin: the best eligible shard, or none when there is no eligible shard. */
  function Choose(q: Planner, p: PeerId): (r: Option<nat>)
    ensures r.None? <==> forall i :: !q.Eligible(p, i)
    ensures r.Some? ==> q.IsBest(p, r.value)
  {
    BestBelow(q, p, q.n)
  }

  lemma BestIsUnique(q: Planner, p: PeerId, i: nat, j: nat)
    requires q.IsBest(p, i) && q.IsBest(p, j)
    ensures i == j
  {
  }

  /**
   * The choice in plain terms: an index below n, below the cap, not in flight to the peer and not believed held by it, with
   * the fewest allocations among those, of these the lowest priority, and of these the lowest index.
   */
  lemma ChoiceIsLeast(q: Planner, p: PeerId, i: nat, j: nat)
    requires Choose(q, p) == Some(i)
    requires j < q.n && (q.mode.Relay? ==> q.Alloc(j) < q.mode.cap) && !q.InFlight(p, j) && !q.Has(p, j)
    ensures i < q.n && (q.mode.Relay? ==> q.Alloc(i) < q.mode.cap) && !q.InFlight(p, i) && !q.Has(p, i)
    ensures q.Alloc(i) <= q.Alloc(j)
    ensures q.Alloc(i) == q.Alloc(j) ==> q.fib(i) <= q.fib(j)
    ensures q.Alloc(i) == q.Alloc(j) && q.fib(i) == q.fib(j) ==> i <= j
  {
    assert q.Eligible(p, j);
  }

  // ---- Operations ----

  function WithPeer(q: Planner, p: PeerId, s: PeerState): Planner {
    q.(peers := q.peers[p := s])
  }

  function Allocate(q: Planner, p: PeerId): (Planner, Option<nat>) {
    match Choose(q, p)
    case None => (WithPeer(q, p, q.PeerOf(p)), None)
    case Some(i) => (Assigned(q, p, i), Some(i))
  }

  /** The planner after giving shard `i` to `p`. */
  function Assigned(q: Planner, p: PeerId, i: nat): Planner {
    var s := q.PeerOf(p);
    var counted := q.(allocation := q.allocation[i := q.Alloc(i) + 1]);
    WithPeer(counted, p, s.(inFlight := s.inFlight + {i}))
  }

  /** `Allocate` assigns the best shard when there is one and otherwise only registers the peer. */
  lemma AllocateIsArgmin(q: Planner, p: PeerId)
    ensures (forall i :: !q.Eligible(p, i)) ==> Allocate(q, p) == (WithPeer(q, p, q.PeerOf(p)), None)
    ensures forall i: nat :: q.IsBest(p, i) ==> Allocate(q, p) == (Assigned(q, p, i), Some(i))
  {
    forall i: nat | q.IsBest(p, i)
      ensures Allocate(q, p) == (Assigned(q, p, i), Some(i))
    {
      BestIsUnique(q, p, i, Choose(q, p).value);
    }
  }

  function RecordSent(q: Planner, p: PeerId, i: nat): Planner {
    var s := q.PeerOf(p);
    var have := if s.have.Some? then s.have.value else Havelist(q.n, {});
    var marked := if i < have.n then have.(bits := have.bits + {i}) else have;
    WithPeer(q, p, PeerState(s.inFlight - {i}, Some(marked))).(sent := q.sent[i := q.Sent(i) + 1])
  }

  function CancelInFlight(q: Planner, p: PeerId, i: nat): Planner {
    var s := q.PeerOf(p);
    WithPeer(q, p, s.(inFlight := s.inFlight - {i}))
  }

  function Refund(q: Planner, i: nat): Planner {
    if q.Alloc(i) == 0 then q
    else if q.Alloc(i) == 1 then q.(allocation := q.allocation - {i})
    else q.(allocation := q.allocation[i := q.Alloc(i) - 1])
  }

  function RefundAll(q: Planner, shards: seq<nat>): Planner
    decreases |shards|
  {
    if shards == [] then q else RefundAll(Refund(q, shards[0]), shards[1..])
  }

  function RemovePeer(q: Planner, p: PeerId): Planner {
    if p !in q.peers then q
    else RefundAll(q.(peers := q.peers - {p}), Sorted(q.peers[p].inFlight))
  }

  function SetHavelist(q: Planner, p: PeerId, have: Havelist): Planner {
    WithPeer(q, p, q.PeerOf(p).(have := Some(have)))
  }

  // ---- What refunds do ----

  lemma {:induction false} RefundAllFrame(q: Planner, shards: seq<nat>)
    ensures RefundAll(q, shards) == q.(allocation := RefundAll(q, shards).allocation)
    decreases |shards|
  {
    if shards != [] {
      RefundAllFrame(Refund(q, shards[0]), shards[1..]);
    }
  }

  /** Each refunded shard loses exactly one allocation; the others keep theirs. */
  lemma {:induction false} RefundAllCounts(q: Planner, shards: seq<nat>, i: nat)
    requires Ascending(shards)
    ensures RefundAll(q, shards).Alloc(i)
         == if i in shards && q.Alloc(i) > 0 then q.Alloc(i) - 1 else q.Alloc(i)
    decreases |shards|
  {
    if shards != [] {
      RefundAllCounts(Refund(q, shards[0]), shards[1..], i);
      assert shards == [shards[0]] + shards[1..];
    }
  }

  /** Removing a peer forgets it and refunds exactly its in-flight shards. */
  lemma RemovePeerRefunds(q: Planner, p: PeerId, i: nat)
    ensures var r := RemovePeer(q, p);
            && r.peers == q.peers - {p} && r.sent == q.sent
            && r.mode == q.mode && r.n == q.n && r.fib == q.fib
            && r.Alloc(i) == if q.InFlight(p, i) && q.Alloc(i) > 0 then q.Alloc(i) - 1 else q.Alloc(i)
  {
    if p in q.peers {
      var bare, shards := q.(peers := q.peers - {p}), Sorted(q.peers[p].inFlight);
      RefundAllFrame(bare, shards);
      RefundAllCounts(bare, shards, i);
    } else {
      assert q.peers - {p} == q.peers;
    }
  }
}
