/** The emit planner as the source runs it: a lazily invalidated min-heap that refines the argmin of `Planners`. */
module PlannerHeap {
  import opened Basics
  import opened Havelists
  import P = Planners

  datatype EmitEntry = EmitEntry(allocation: nat, fib: nat, idx: nat)

  /** Heap order: allocation, then priority, then index. */
  predicate Leq(a: EmitEntry, b: EmitEntry) {
    || a.allocation < b.allocation
    || (a.allocation == b.allocation && a.fib < b.fib)
    || (a.allocation == b.allocation && a.fib == b.fib && a.idx <= b.idx)
  }

  lemma {:induction false} LeastOf(s: set<EmitEntry>)
    requires s != {}
    ensures exists e :: e in s && forall x | x in s :: Leq(e, x)
    decreases |s|
  {
    var y :| y in s;
    var rest := s - {y};
    if rest != {} {
      LeastOf(rest);
      var m :| m in rest && forall x | x in rest :: Leq(m, x);
      var least := if Leq(y, m) then y else m;
      forall x | x in s
        ensures Leq(least, x)
      {
        assert x == y || x in rest;
      }
      assert least in s;
    } else {
      assert s == {y};
    }
  }

  lemma LeastExists(heap: multiset<EmitEntry>)
    requires heap != multiset{}
    ensures exists e :: e in heap && forall x | x in heap :: Leq(e, x)
  {
    var s := set e | e in heap;
    var y :| y in heap;
    assert y in s;
    LeastOf(s);
    var e :| e in s && forall x | x in s :: Leq(e, x);
    assert forall x | x in heap :: x in s;
  }

  /** The entry for shard `i` that carries its authoritative count. */
  function Live(q: P.Planner, i: nat): EmitEntry {
    EmitEntry(q.Alloc(i), q.fib(i), i)
  }

  /** Every entry names a real shard with its own priority. */
  predicate Shaped(q: P.Planner, heap: multiset<EmitEntry>) {
    forall e | e in heap :: e.idx < q.n && e.fib == q.fib(e.idx)
  }

  /** At least one live entry per shard. */
  predicate Covered(q: P.Planner, heap: multiset<EmitEntry>) {
    forall i | 0 <= i < q.n :: Live(q, i) in heap
  }

  // ---- Which entries the pop loop keeps ----

  /** Only stale entries are gone, and none that comes after an entry still in `rest`. */
  ghost predicate Trimmed(q: P.Planner, heap: multiset<EmitEntry>, rest: multiset<EmitEntry>, kept: multiset<EmitEntry>) {
    && (forall x: EmitEntry :: (rest + kept)[x] <= heap[x])
    && (forall x: EmitEntry | x.allocation == q.Alloc(x.idx) :: (rest + kept)[x] == heap[x])
    && (forall x: EmitEntry, y: EmitEntry | (rest + kept)[x] < heap[x] && y in rest :: Leq(x, y))
  }

  lemma TrimStale(q: P.Planner, heap: multiset<EmitEntry>, rest: multiset<EmitEntry>, kept: multiset<EmitEntry>,
                  entry: EmitEntry)
    requires Trimmed(q, heap, rest, kept) && entry in rest && (forall x | x in rest :: Leq(entry, x))
    requires entry.allocation != q.Alloc(entry.idx)
    ensures Trimmed(q, heap, rest - multiset{entry}, kept)
  {
  }

  lemma TrimSkip(q: P.Planner, heap: multiset<EmitEntry>, rest: multiset<EmitEntry>, kept: multiset<EmitEntry>,
                 entry: EmitEntry)
    requires Trimmed(q, heap, rest, kept) && entry in rest
    ensures Trimmed(q, heap, rest - multiset{entry}, kept + multiset{entry})
  {
    assert rest - multiset{entry} + (kept + multiset{entry}) == rest + kept;
  }

  /** What is left of the heap once `chosen` is taken: live entries and all entries after it keep their multiplicity. */
  ghost predicate Taken(q: P.Planner, heap: multiset<EmitEntry>, left: multiset<EmitEntry>, chosen: Option<EmitEntry>) {
    && (forall x: EmitEntry :: left[x] <= heap[x])
    && (forall x: EmitEntry | x.allocation == q.Alloc(x.idx) && chosen != Some(x) :: left[x] == heap[x])
    && (chosen.Some? ==>
          && left[chosen.value] + 1 == heap[chosen.value]
          && forall x: EmitEntry | x != chosen.value && Leq(chosen.value, x) :: left[x] == heap[x])
  }

  lemma TrimTake(q: P.Planner, heap: multiset<EmitEntry>, rest: multiset<EmitEntry>, kept: multiset<EmitEntry>,
                 entry: EmitEntry)
    requires Trimmed(q, heap, rest, kept) && entry in rest && entry.allocation == q.Alloc(entry.idx)
    ensures Taken(q, heap, rest - multiset{entry} + kept, Some(entry))
  {
    var left := rest - multiset{entry} + kept;
    forall x: EmitEntry | x != entry && Leq(entry, x)
      ensures left[x] == heap[x]
    {
      assert left[x] == (rest + kept)[x];
    }
  }

  lemma TrimNone(q: P.Planner, heap: multiset<EmitEntry>, kept: multiset<EmitEntry>)
    requires Trimmed(q, heap, multiset{}, kept)
    ensures Taken(q, heap, kept, None)
  {
    assert multiset{} + kept == kept;
  }

  // ---- The pop loop ----

  /** The state of the loop: what is set aside is not eligible, and every shard still has a live entry. */
  ghost predicate Popping(q: P.Planner, heap: multiset<EmitEntry>, rest: multiset<EmitEntry>, kept: multiset<EmitEntry>,
                          peer: PeerId)
  {
    && Shaped(q, rest) && Shaped(q, kept) && Covered(q, rest + kept) && Trimmed(q, heap, rest, kept)
    && forall e | e in kept :: !q.Eligible(peer, e.idx)
  }

  /** The result of the loop: the best eligible shard's live entry, or none when no shard is eligible. */
  ghost predicate Popped(q: P.Planner, heap: multiset<EmitEntry>, left: multiset<EmitEntry>, chosen: Option<EmitEntry>,
                         peer: PeerId)
  {
    && Shaped(q, left) && Taken(q, heap, left, chosen)
    && (chosen.None? ==> Covered(q, left) && forall i :: !q.Eligible(peer, i))
    && (chosen.Some? ==>
          && q.IsBest(peer, chosen.value.idx) && chosen.value == Live(q, chosen.value.idx)
          && Covered(q, left + multiset{chosen.value}))
  }

  lemma StartPopping(q: P.Planner, heap: multiset<EmitEntry>, peer: PeerId)
    requires Shaped(q, heap) && Covered(q, heap)
    ensures Popping(q, heap, heap, multiset{}, peer)
  {
    assert heap + multiset{} == heap;
  }

  lemma PopStale(q: P.Planner, heap: multiset<EmitEntry>, rest: multiset<EmitEntry>, kept: multiset<EmitEntry>,
                 peer: PeerId, entry: EmitEntry)
    requires Popping(q, heap, rest, kept, peer) && entry in rest && (forall x | x in rest :: Leq(entry, x))
    requires entry.allocation != q.Alloc(entry.idx)
    ensures Popping(q, heap, rest - multiset{entry}, kept, peer)
  {
    TrimStale(q, heap, rest, kept, entry);
    hide Trimmed;
    forall i | 0 <= i < q.n
      ensures Live(q, i) in rest - multiset{entry} + kept
    {
      assert Live(q, i) != entry && Live(q, i) in rest + kept;
    }
  }

  lemma PopSkip(q: P.Planner, heap: multiset<EmitEntry>, rest: multiset<EmitEntry>, kept: multiset<EmitEntry>,
                peer: PeerId, entry: EmitEntry)
    requires Popping(q, heap, rest, kept, peer) && entry in rest && !q.Eligible(peer, entry.idx)
    ensures Popping(q, heap, rest - multiset{entry}, kept + multiset{entry}, peer)
  {
    TrimSkip(q, heap, rest, kept, entry);
    hide Trimmed;
    assert rest - multiset{entry} + (kept + multiset{entry}) == rest + kept;
  }

  lemma PopTake(q: P.Planner, heap: multiset<EmitEntry>, rest: multiset<EmitEntry>, kept: multiset<EmitEntry>,
                peer: PeerId, entry: EmitEntry)
    requires Popping(q, heap, rest, kept, peer) && entry in rest && (forall x | x in rest :: Leq(entry, x))
    requires entry.allocation == q.Alloc(entry.idx) && q.Eligible(peer, entry.idx)
    ensures Popped(q, heap, rest - multiset{entry} + kept, Some(entry), peer)
  {
    TrimTake(q, heap, rest, kept, entry);
    LeastLiveIsBest(q, rest, kept, peer, entry);
    hide Trimmed, Taken, Leq, P.Planner.IsBest;
    assert rest - multiset{entry} + kept + multiset{entry} == rest + kept;
  }

  lemma PopNone(q: P.Planner, heap: multiset<EmitEntry>, kept: multiset<EmitEntry>, peer: PeerId)
    requires Popping(q, heap, multiset{}, kept, peer)
    ensures Popped(q, heap, kept, None, peer)
  {
    TrimNone(q, heap, kept);
    hide Trimmed, Taken;
    assert multiset{} + kept == kept;
    forall i: nat
      ensures !q.Eligible(peer, i)
    {
      assert i < q.n ==> Live(q, i) in kept;
    }
  }

  lemma LeastLiveIsBest(q: P.Planner, heap: multiset<EmitEntry>, skipped: multiset<EmitEntry>, peer: PeerId,
                        entry: EmitEntry)
    requires Shaped(q, heap) && Covered(q, heap + skipped)
    requires forall e | e in skipped :: !q.Eligible(peer, e.idx)
    requires entry in heap && (forall x | x in heap :: Leq(entry, x))
    requires entry.allocation == q.Alloc(entry.idx) && q.Eligible(peer, entry.idx)
    ensures q.IsBest(peer, entry.idx)
  {
    forall j: nat | j != entry.idx && q.Eligible(peer, j)
      ensures q.Before(entry.idx, j)
    {
      assert Live(q, j) in heap + skipped;
      assert Live(q, j) in heap;
      assert Leq(entry, Live(q, j));
    }
  }

  /** Pops entries until one is acceptable and restores those set aside; stale entries met on the way are dropped. */
  method PopAcceptable(q: P.Planner, heap: multiset<EmitEntry>, peer: PeerId)
    returns (chosen: Option<EmitEntry>, rest: multiset<EmitEntry>)
    requires Shaped(q, heap) && Covered(q, heap)
    ensures Popped(q, heap, rest, chosen, peer)
  {
    StartPopping(q, heap, peer);
    hide Popping, Popped, Shaped, Covered;
    rest := heap;
    var state := q.PeerOf(peer);
    var skipped: multiset<EmitEntry> := multiset{};
    while rest != multiset{}
      invariant Popping(q, heap, rest, skipped, peer)
      decreases |rest|
    {
      LeastExists(rest);
      var entry :| entry in rest && forall x | x in rest :: Leq(entry, x);
      if entry.allocation != q.Alloc(entry.idx) {
        // A stale entry: dropped.
        PopStale(q, heap, rest, skipped, peer, entry);
        rest := rest - multiset{entry};
        continue;
      }
      var capped := q.mode.Relay? && entry.allocation >= q.mode.cap;
      if capped || q.Has(peer, entry.idx) || entry.idx in state.inFlight {
        PopSkip(q, heap, rest, skipped, peer, entry);
        rest, skipped := rest - multiset{entry}, skipped + multiset{entry};
        continue;
      }
      EntryInRange(q, heap, rest, skipped, peer, entry);
      PopTake(q, heap, rest, skipped, peer, entry);
      return Some(entry), rest - multiset{entry} + skipped;
    }
    PopNone(q, heap, skipped, peer);
    return None, skipped;
  }

  lemma EntryInRange(q: P.Planner, heap: multiset<EmitEntry>, rest: multiset<EmitEntry>, kept: multiset<EmitEntry>,
                     peer: PeerId, entry: EmitEntry)
    requires Popping(q, heap, rest, kept, peer) && entry in rest
    ensures entry.idx < q.n
  {
  }

  class EmitPlanner {
    const mode: P.Mode
    const numShards: nat
    const fib: nat -> nat
    var heap: multiset<EmitEntry>
    var allocation: map<nat, nat>
    var sentCount: map<nat, nat>
    var peers: map<PeerId, P.PeerState>

    /** The planner value this object stands for; the heap is not part of it. */
    function View(): P.Planner
      reads this
    {
      P.Planner(mode, numShards, fib, allocation, sentCount, peers)
    }

    ghost predicate Valid()
      reads this
    {
      && Shaped(View(), heap)
      && Covered(View(), heap)
      && (forall i | i in allocation :: i < numShards)
    }

    constructor (numShards: nat, fib: nat -> nat, mode: P.Mode)
      ensures Valid() && Exact() && View() == P.New(numShards, fib, mode)
    {
      var entries: multiset<EmitEntry> := multiset{};
      for idx := 0 to numShards
        invariant forall x: EmitEntry :: entries[x] == if x.idx < idx && x == EmitEntry(0, fib(x.idx), x.idx) then 1 else 0
      {
        entries := entries + multiset{EmitEntry(0, fib(idx), idx)};
      }
      this.mode, this.numShards, this.fib := mode, numShards, fib;
      heap, allocation, sentCount, peers := entries, map[], map[], map[];
    }

    /** How many entries carry the authoritative count of shard `i`. */
    ghost function LiveEntries(i: nat): nat
      reads this
    {
      heap[Live(View(), i)]
    }

    /** Every shard has exactly one live entry and nothing is stale. */
    ghost predicate Exact()
      reads this
    {
      Single(View(), heap)
    }

    /** The argmin. The chosen shard gains one entry at its new count; the other shards' live entries stay. */
    method Allocate(peer: PeerId) returns (r: Option<nat>)
      requires Valid()
      modifies this
      ensures Valid()
      ensures (View(), r) == P.Allocate(old(View()), peer)
      ensures r.Some? ==> LiveEntries(r.value) == old(heap)[Live(View(), r.value)] + 1
      ensures forall j: nat | r != Some(j) :: LiveEntries(j) == old(LiveEntries(j))
      ensures old(Exact()) ==> Exact()
    {
      hide Popped, Taken, Single, Shaped, Covered, P.Planner.IsBest, P.Allocate;
      ghost var q, before := View(), heap;
      var state := View().PeerOf(peer);
      var chosen, rest := PopAcceptable(View(), heap, peer);
      PoppedIs(q, before, rest, chosen, peer);
      heap := rest;
      if chosen.Some? {
        var e := chosen.value;
        allocation := allocation[e.idx := View().Alloc(e.idx) + 1];
        heap := heap + multiset{EmitEntry(e.allocation + 1, e.fib, e.idx)};
        peers := peers[peer := state.(inFlight := state.inFlight + {e.idx})];
        r := Some(e.idx);
        CountingKeepsCover(q, View(), rest, e);
        RaisedEntries(q, View(), before, rest, e);
      } else {
        peers := peers[peer := state];
        r := None;
        SameCountsSameCover(q, View(), heap);
        KeptEntries(q, View(), before, rest);
      }
    }

    method RecordSent(peer: PeerId, idx: nat)
      requires Valid()
      modifies this`peers, this`sentCount
      ensures Valid()
      ensures View() == P.RecordSent(old(View()), peer, idx)
      ensures old(Exact()) ==> Exact()
    {
      hide Single, Shaped, Covered;
      var s := View().PeerOf(peer);
      var have := if s.have.Some? then s.have.value else Havelist(numShards, {});
      if idx < have.n {
        have := have.(bits := have.bits + {idx});
      }
      peers := peers[peer := P.PeerState(s.inFlight - {idx}, Some(have))];
      sentCount := sentCount[idx := View().Sent(idx) + 1];
      SameCountsSameCover(old(View()), View(), heap);
    }

    method CancelInFlight(peer: PeerId, idx: nat)
      requires Valid()
      modifies this`peers
      ensures Valid()
      ensures View() == P.CancelInFlight(old(View()), peer, idx)
      ensures old(Exact()) ==> Exact()
    {
      var s := View().PeerOf(peer);
      peers := peers[peer := s.(inFlight := s.inFlight - {idx})];
      SameCountsSameCover(old(View()), View(), heap);
    }

    /** A refunded shard gains one entry at its lowered count; the other shards' live entries stay. */
    method RefundAllocation(idx: nat)
      requires Valid()
      modifies this`allocation, this`heap
      ensures Valid()
      ensures View() == P.Refund(old(View()), idx)
      ensures old(View().Alloc(idx)) > 0 ==> heap == old(heap) + multiset{Live(View(), idx)}
      ensures forall j: nat | j != idx :: LiveEntries(j) == old(LiveEntries(j))
    {
      hide Shaped, Covered;
      var count := View().Alloc(idx);
      if count == 0 {
        return;
      }
      ghost var q, before := View(), heap;
      if count - 1 == 0 {
        allocation := allocation - {idx};
      } else {
        allocation := allocation[idx := count - 1];
      }
      var entry := EmitEntry(count - 1, fib(idx), idx);
      heap := heap + multiset{entry};
      LoweredEntries(q, View(), before, entry);
    }

    method RemovePeer(peer: PeerId)
      requires Valid()
      modifies this
      ensures Valid()
      ensures View() == P.RemovePeer(old(View()), peer)
      ensures old(Exact()) && old(View()).PeerOf(peer).inFlight == {} ==> Exact()
    {
      hide Single, Shaped, Covered;
      if peer !in peers {
        return;
      }
      var shards := Sorted(peers[peer].inFlight);
      peers := peers - {peer};
      SameCountsSameCover(old(View()), View(), heap);
      ghost var start := View();
      for k := 0 to |shards|
        invariant Valid() && (k == 0 && old(Exact()) ==> Exact())
        invariant P.RefundAll(View(), shards[k..]) == P.RefundAll(start, shards)
      {
        assert shards[k..][1..] == shards[k + 1..];
        RefundAllocation(shards[k]);
      }
    }

    method SetPeerHavelist(peer: PeerId, have: Havelist)
      requires Valid()
      modifies this`peers
      ensures Valid()
      ensures View() == P.SetHavelist(old(View()), peer, have)
      ensures old(Exact()) ==> Exact()
    {
      peers := peers[peer := View().PeerOf(peer).(have := Some(have))];
      SameCountsSameCover(old(View()), View(), heap);
    }
  }

  /** What the loop's result means for the planner. */
  lemma PoppedIs(q: P.Planner, heap: multiset<EmitEntry>, left: multiset<EmitEntry>, chosen: Option<EmitEntry>, peer: PeerId)
    requires Popped(q, heap, left, chosen, peer)
    ensures Shaped(q, left) && Taken(q, heap, left, chosen)
    ensures chosen.None? ==> Covered(q, left) && P.Allocate(q, peer) == (P.WithPeer(q, peer, q.PeerOf(peer)), None)
    ensures chosen.Some? ==>
              var e := chosen.value;
              && e.idx < q.n && e == Live(q, e.idx) && Covered(q, left + multiset{e})
              && P.Allocate(q, peer) == (P.Assigned(q, peer, e.idx), Some(e.idx))
  {
    hide Taken, Shaped, Covered, P.Allocate;
    P.AllocateIsArgmin(q, peer);
  }

  ghost predicate Single(q: P.Planner, heap: multiset<EmitEntry>) {
    forall x: EmitEntry :: heap[x] == if x.idx < q.n && x == Live(q, x.idx) then 1 else 0
  }

  /** The heap after the chosen shard's count went up. */
  lemma RaisedEntries(q: P.Planner, r: P.Planner, heap: multiset<EmitEntry>, rest: multiset<EmitEntry>, e: EmitEntry)
    requires q.n == r.n && q.fib == r.fib && e == Live(q, e.idx) && e.idx < q.n
    requires r.allocation == q.allocation[e.idx := q.Alloc(e.idx) + 1]
    requires Shaped(q, heap) && Taken(q, heap, rest, Some(e))
    ensures var raised := EmitEntry(e.allocation + 1, e.fib, e.idx);
            && raised == Live(r, e.idx) && (rest + multiset{raised})[raised] == heap[raised] + 1
            && (forall j: nat | j != e.idx :: (rest + multiset{raised})[Live(r, j)] == heap[Live(q, j)])
            && (Single(q, heap) ==> Single(r, rest + multiset{raised}))
  {
    var raised := EmitEntry(e.allocation + 1, e.fib, e.idx);
    assert Leq(e, raised) && raised != e;
    forall j: nat | j != e.idx
      ensures Live(r, j) == Live(q, j) && rest[Live(q, j)] == heap[Live(q, j)]
    {
    }
    if Single(q, heap) {
      forall x: EmitEntry
        ensures (rest + multiset{raised})[x] == if x.idx < r.n && x == Live(r, x.idx) then 1 else 0
      {
        assert rest[x] <= heap[x];
        if x.idx == e.idx && x != e { assert heap[x] == 0; }
      }
    }
  }

  /** The heap after a loop that chose nothing. */
  lemma KeptEntries(q: P.Planner, r: P.Planner, heap: multiset<EmitEntry>, rest: multiset<EmitEntry>)
    requires q.n == r.n && q.fib == r.fib && q.allocation == r.allocation && Taken(q, heap, rest, None)
    ensures forall j: nat :: rest[Live(r, j)] == heap[Live(q, j)]
    ensures Single(q, heap) ==> Single(r, rest)
  {
    assert forall j: nat :: Live(r, j) == Live(q, j);
  }

  lemma LoweredEntries(q: P.Planner, r: P.Planner, heap: multiset<EmitEntry>, entry: EmitEntry)
    requires q.n == r.n && q.fib == r.fib && Shaped(q, heap) && Covered(q, heap) && entry.idx < q.n
    requires entry == Live(r, entry.idx) && forall j: nat | j != entry.idx :: r.Alloc(j) == q.Alloc(j)
    ensures Shaped(r, heap + multiset{entry}) && Covered(r, heap + multiset{entry})
    ensures forall j: nat | j != entry.idx :: (heap + multiset{entry})[Live(r, j)] == heap[Live(q, j)]
  {
    forall j: nat | j != entry.idx
      ensures Live(r, j) == Live(q, j)
    {
    }
  }

  lemma SameCountsSameCover(q: P.Planner, r: P.Planner, heap: multiset<EmitEntry>)
    requires q.allocation == r.allocation && q.n == r.n && q.fib == r.fib
    requires Shaped(q, heap) && Covered(q, heap)
    ensures Shaped(r, heap) && Covered(r, heap) && (Single(q, heap) ==> Single(r, heap))
  {
    assert forall i: nat :: Live(q, i) == Live(r, i);
  }

  lemma CountingKeepsCover(q: P.Planner, r: P.Planner, rest: multiset<EmitEntry>, e: EmitEntry)
    requires q.n == r.n && q.fib == r.fib && e.idx < q.n && e == Live(q, e.idx)
    requires r.allocation == q.allocation[e.idx := q.Alloc(e.idx) + 1]
    requires Shaped(q, rest) && Covered(q, rest + multiset{e})
    ensures var heap := rest + multiset{EmitEntry(e.allocation + 1, e.fib, e.idx)};
            Shaped(r, heap) && Covered(r, heap)
  {
    var heap := rest + multiset{EmitEntry(e.allocation + 1, e.fib, e.idx)};
    forall i | 0 <= i < r.n
      ensures Live(r, i) in heap
    {
      if i != e.idx {
        assert Live(q, i) == Live(r, i);
        assert Live(q, i) in rest + multiset{e};
      }
    }
  }

  lemma OneShardChoice(q: P.Planner, p: PeerId)
    requires q.n == 1 && q.Eligible(p, 0)
    ensures P.Allocate(q, p) == (P.Assigned(q, p, 0), Some(0))
  {
    assert q.IsBest(p, 0);
    P.AllocateIsArgmin(q, p);
    hide P.Allocate;
  }

  /** Allocate, fail and refund, allocate again: the shard then has two live entries. */
  method RefundDuplicates(fib: nat -> nat, p: PeerId) returns (x: EmitPlanner)
    ensures fresh(x) && x.Valid() && x.LiveEntries(0) == 2
  {
    x := new EmitPlanner(1, fib, P.Origin);
    hide P.Allocate, Shaped, Covered;
    OneShardChoice(x.View(), p);
    var first := x.Allocate(p);
    assert x.heap[EmitEntry(1, fib(0), 0)] == 1;
    x.CancelInFlight(p, 0);
    x.RefundAllocation(0);
    assert x.heap[EmitEntry(1, fib(0), 0)] == 1;
    OneShardChoice(x.View(), p);
    var second := x.Allocate(p);
  }
}
