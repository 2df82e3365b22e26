/** What one poll of the strategy emits, and the measure that polling uses up. */
module Polling {
  import opened Basics
  import opened Havelists
  import opened Coding
  import opened Strategies
  import P = Planners

  /** The dispatches of a poll: new consecutive handles, held shards, nothing the peer has or is already being sent. */
  ghost predicate Emits(s: Strategy, t: Strategy, ds: seq<Dispatch>) {
    && SameContent(s, t)
    && t.nextHandle == s.nextHandle + |ds|
    && (forall h | h in s.inFlight :: h in t.inFlight && t.inFlight[h] == s.inFlight[h])
    && (forall h | h in t.inFlight && h !in s.inFlight :: s.nextHandle <= h < t.nextHandle)
    && (forall k | 0 <= k < |ds| ::
          && ds[k].handle == s.nextHandle + k
          && ds[k].handle in t.inFlight
          && t.inFlight[ds[k].handle] == Flight(ds[k].peer, ds[k].idx)
          && ds[k].idx < |s.chunks| && s.chunks[ds[k].idx] == Some(ds[k].payload))
  }

  lemma PollPeerEmits(s: Strategy, p: PeerId)
    requires forall h | h in s.inFlight :: h < s.nextHandle
    ensures var (t, d) := PollPeer(s, p);
            Emits(s, t, if d.Some? then [d.value] else []) && (d.Some? ==> d.value.peer == p)
  {
  }

  lemma {:induction false} PollFromEmits(s: Strategy, peers: seq<PeerId>)
    requires forall h | h in s.inFlight :: h < s.nextHandle
    ensures Emits(s, PollFrom(s, peers).0, PollFrom(s, peers).1)
    ensures forall d | d in PollFrom(s, peers).1 :: d.peer in peers
    decreases |peers|
  {
    if peers != [] {
      PollPeerEmits(s, peers[0]);
      var (s1, d) := PollPeer(s, peers[0]);
      var first := if d.Some? then [d.value] else [];
      hide PollPeer;
      PollFromEmits(s1, peers[1..]);
      var (s2, rest) := PollFrom(s1, peers[1..]);
      EmitsCompose(s, s1, s2, first, rest);
      assert PollFrom(s, peers).1 == first + rest;
      hide Emits;
      forall e | e in first + rest
        ensures e.peer in peers
      {
        if e in rest { assert e.peer in peers[1..]; }
      }
    }
  }

  lemma EmitsCompose(s: Strategy, t: Strategy, u: Strategy, ds: seq<Dispatch>, es: seq<Dispatch>)
    requires Emits(s, t, ds) && Emits(t, u, es)
    ensures Emits(s, u, ds + es)
  {
    var all := ds + es;
    forall k | 0 <= k < |all|
      ensures all[k].handle == s.nextHandle + k
      ensures all[k].handle in u.inFlight
      ensures u.inFlight[all[k].handle] == Flight(all[k].peer, all[k].idx)
      ensures all[k].idx < |s.chunks| && s.chunks[all[k].idx] == Some(all[k].payload)
    {
      if k < |ds| {
        assert all[k] == ds[k];
      } else {
        assert all[k] == es[k - |ds|];
      }
    }
  }

  // ---- The measure ----

  /** Shards neither in flight to `p` nor believed held by it. */
  ghost function Free(q: P.Planner, p: PeerId): set<nat> {
    set i: nat | i < q.n && !q.InFlight(p, i) && !q.Has(p, i)
  }

  ghost function FreeSum(q: P.Planner, peers: seq<PeerId>): nat {
    if peers == [] then 0 else |Free(q, peers[0])| + FreeSum(q, peers[1..])
  }

  lemma PollPeerFree(s: Strategy, p: PeerId, x: PeerId)
    ensures var (t, d) := PollPeer(s, p);
            Free(t.planner, x) == if x == p && d.Some? then Free(s.planner, x) - {d.value.idx} else Free(s.planner, x)
    ensures var (t, d) := PollPeer(s, p);
            d.Some? ==> d.value.peer == p && d.value.idx in Free(s.planner, p)
  {
    var (t, d) := PollPeer(s, p);
    forall i: nat
      ensures t.planner.Has(x, i) <==> s.planner.Has(x, i)
      ensures t.planner.InFlight(x, i) <==> s.planner.InFlight(x, i) || (x == p && d.Some? && i == d.value.idx)
    {
    }
  }

  lemma {:induction false} PollPeerFreeSum(s: Strategy, p: PeerId, all: seq<PeerId>)
    requires Ascending(all)
    ensures var (t, d) := PollPeer(s, p);
            FreeSum(t.planner, all) == FreeSum(s.planner, all) - (if d.Some? && p in all then 1 else 0)
    decreases |all|
  {
    if all != [] {
      var (t, d) := PollPeer(s, p);
      PollPeerFree(s, p, all[0]);
      hide PollPeer, Free;
      assert all == [all[0]] + all[1..];
      assert p == all[0] ==> p !in all[1..];
      PollPeerFreeSum(s, p, all[1..]);
    }
  }

  /** A poll uses up exactly one unit of the measure per dispatch, burned allocations included. */
  lemma {:induction false} PollFromFreeSum(s: Strategy, peers: seq<PeerId>, all: seq<PeerId>)
    requires Ascending(all) && forall p | p in peers :: p in all
    ensures FreeSum(PollFrom(s, peers).0.planner, all) == FreeSum(s.planner, all) - |PollFrom(s, peers).1|
    decreases |peers|
  {
    if peers != [] {
      PollPeerFreeSum(s, peers[0], all);
      hide PollPeer, FreeSum;
      PollFromFreeSum(PollPeer(s, peers[0]).0, peers[1..], all);
    }
  }

  /** The drain loop's measure: routing still due, plus free shards over the attached peers. */
  ghost function Measure(s: Strategy): nat {
    FreeSum(s.planner, Sorted(s.attached)) + if s.RoutingDue() then 1 else 0
  }

  function Polled(s: Strategy): Strategy {
    PollChunks(PollRouting(s).0).0
  }

  /** A poll that produced work strictly lowers the measure. */
  lemma PollLowersMeasure(s: Strategy)
    ensures Measure(Polled(s)) == Measure(s) - |PollChunks(PollRouting(s).0).1| - (if s.RoutingDue() then 1 else 0)
    ensures !Polled(s).RoutingDue()
    ensures SameContent(Polled(s), s.(lastCount := Polled(s).lastCount))
  {
    var r := PollRouting(s).0;
    assert r.RoutingDue() ==> false;
    PollFromFreeSum(r, Sorted(r.attached), Sorted(r.attached));
    PollFromContent(r, Sorted(r.attached));
  }

  lemma {:induction false} PollFromContent(s: Strategy, peers: seq<PeerId>)
    ensures SameContent(s, PollFrom(s, peers).0)
    decreases |peers|
  {
    if peers != [] {
      PollFromContent(PollPeer(s, peers[0]).0, peers[1..]);
    }
  }

  // ---- An origin with nothing to send has served everyone ----

  ghost predicate Full(s: Strategy) {
    forall i | 0 <= i < |s.chunks| :: s.chunks[i].Some?
  }

  /** Every shard is in flight to, or believed held by, every listed peer. */
  ghost predicate Served(q: P.Planner, peers: seq<PeerId>) {
    forall p, i: nat | p in peers && i < q.n :: q.InFlight(p, i) || q.Has(p, i)
  }

  lemma {:induction false} QuietPollServes(s: Strategy, peers: seq<PeerId>)
    requires s.planner.mode.Origin? && |s.chunks| == s.planner.n
    requires Full(s)
    requires PollFrom(s, peers).1 == []
    ensures Served(s.planner, peers)
    ensures Served(PollFrom(s, peers).0.planner, peers)
    decreases |peers|
  {
    if peers != [] {
      var (t, d) := PollPeer(s, peers[0]);
      assert d.None? && P.Choose(s.planner, peers[0]).None?;
      forall i: nat | i < s.planner.n
        ensures s.planner.InFlight(peers[0], i) || s.planner.Has(peers[0], i)
      {
        assert !s.planner.Eligible(peers[0], i);
      }
      QuietKeepsViews(s, peers[0]);
      QuietPollServes(t, peers[1..]);
      QuietPollUnchanged(s, peers);
      forall p, i: nat | p in peers && i < s.planner.n
        ensures s.planner.InFlight(p, i) || s.planner.Has(p, i)
      {
        if p != peers[0] {
          assert p in peers[1..];
          assert t.planner.InFlight(p, i) || t.planner.Has(p, i);
        }
      }
    }
  }

  /** Two planners with the same view of every peer. */
  ghost predicate SameViews(q: P.Planner, r: P.Planner) {
    q.n == r.n && q.mode == r.mode && forall p: PeerId, i: nat ::
      (q.InFlight(p, i) <==> r.InFlight(p, i)) && (q.Has(p, i) <==> r.Has(p, i))
  }

  lemma QuietKeepsViews(s: Strategy, p: PeerId)
    requires P.Choose(s.planner, p).None?
    ensures SameViews(s.planner, PollPeer(s, p).0.planner)
  {
  }

  lemma {:induction false} QuietPollUnchanged(s: Strategy, peers: seq<PeerId>)
    requires s.planner.mode.Origin? && |s.chunks| == s.planner.n
    requires Full(s)
    requires PollFrom(s, peers).1 == []
    ensures SameViews(s.planner, PollFrom(s, peers).0.planner)
    decreases |peers|
  {
    if peers != [] {
      assert P.Choose(s.planner, peers[0]).None?;
      QuietKeepsViews(s, peers[0]);
      QuietPollUnchanged(PollPeer(s, peers[0]).0, peers[1..]);
    }
  }

  // ---- What an origin owes a peer it sends within as many polls ----

  /** In a poll of a full origin, a peer with free shards gets one of them; the others stay free. */
  lemma {:induction false} PollFromServes(s: Strategy, peers: seq<PeerId>, p: PeerId)
    requires s.planner.mode.Origin? && |s.chunks| == s.planner.n && Full(s)
    requires Ascending(peers) && p in peers && Free(s.planner, p) != {}
    ensures var (t, ds) := PollFrom(s, peers);
            exists d | d in ds :: d.peer == p && d.idx in Free(s.planner, p) && Free(t.planner, p) == Free(s.planner, p) - {d.idx}
    decreases |peers|
  {
    var (t, d) := PollPeer(s, peers[0]);
    var (u, ds) := PollFrom(t, peers[1..]);
    PollPeerFree(s, peers[0], p);
    if p == peers[0] {
      FreeIsChosen(s, p);
      assert p !in peers[1..];
      PollFromSpares(t, peers[1..], p);
      assert d.value in PollFrom(s, peers).1;
    } else {
      assert p in peers[1..];
      hide Free, Full;
      PollPeerContent(s, peers[0]);
      PollFromServes(t, peers[1..], p);
      hide PollPeer;
      var c :| c in ds && c.peer == p && c.idx in Free(t.planner, p) && Free(u.planner, p) == Free(t.planner, p) - {c.idx};
      assert c in PollFrom(s, peers).1;
    }
  }

  lemma PollPeerContent(s: Strategy, p: PeerId)
    requires s.planner.mode.Origin? && |s.chunks| == s.planner.n && Full(s)
    ensures var t := PollPeer(s, p).0; t.planner.mode.Origin? && |t.chunks| == t.planner.n && Full(t)
  {
  }

  lemma FreeIsChosen(s: Strategy, p: PeerId)
    requires s.planner.mode.Origin? && |s.chunks| == s.planner.n && Full(s) && Free(s.planner, p) != {}
    ensures PollPeer(s, p).1.Some?
  {
    var i :| i in Free(s.planner, p);
    assert s.planner.Eligible(p, i);
  }

  /** A poll of other peers leaves a peer's free shards. */
  lemma {:induction false} PollFromSpares(s: Strategy, peers: seq<PeerId>, p: PeerId)
    requires p !in peers
    ensures Free(PollFrom(s, peers).0.planner, p) == Free(s.planner, p)
    decreases |peers|
  {
    if peers != [] {
      PollPeerFree(s, peers[0], p);
      hide PollPeer, Free;
      PollFromSpares(PollPeer(s, peers[0]).0, peers[1..], p);
    }
  }

  /** The state before the poll number `k`, counted from 0. */
  function PolledTimes(s: Strategy, k: nat): Strategy
    decreases k
  {
    if k == 0 then s else PolledTimes(Polled(s), k - 1)
  }

  /** The chunks that poll number `k` sends. */
  function DispatchesOf(s: Strategy, k: nat): seq<Dispatch> {
    PollChunks(PollRouting(PolledTimes(s, k)).0).1
  }

  ghost predicate Sends(ds: seq<Dispatch>, p: PeerId, i: nat) {
    exists d | d in ds :: d.peer == p && d.idx == i
  }

  /** One poll of a full origin sends an attached peer one of its free shards. */
  lemma PollServes(s: Strategy, p: PeerId) returns (d: Dispatch)
    requires s.planner.mode.Origin? && |s.chunks| == s.planner.n && Full(s)
    requires p in s.attached && Free(s.planner, p) != {}
    ensures d in DispatchesOf(s, 0) && d.peer == p && d.idx in Free(s.planner, p)
    ensures Free(Polled(s).planner, p) == Free(s.planner, p) - {d.idx}
    ensures var t := Polled(s); t.planner.mode.Origin? && |t.chunks| == t.planner.n && Full(t) && t.attached == s.attached
  {
    var r := PollRouting(s).0;
    hide PollFrom, Free;
    var (t, ds) := PollFrom(r, Sorted(r.attached));
    PollFromServes(r, Sorted(r.attached), p);
    PollFromContent(r, Sorted(r.attached));
    d :| d in ds && d.peer == p && d.idx in Free(r.planner, p) && Free(t.planner, p) == Free(r.planner, p) - {d.idx};
    assert PolledTimes(s, 0) == s;
  }

  lemma NextDispatches(s: Strategy, k: nat)
    ensures DispatchesOf(s, k + 1) == DispatchesOf(Polled(s), k)
  {
    hide Polled, PollChunks;
  }

  /**
   * An origin that holds every shard sends an attached peer each shard it neither has nor is being sent, within as many polls
   * as there are such shards, whatever the order of the planner and whoever else is attached.
   */
  lemma {:induction false} FreeShardIsSent(s: Strategy, p: PeerId, i: nat)
    requires s.planner.mode.Origin? && |s.chunks| == s.planner.n && Full(s)
    requires p in s.attached && i in Free(s.planner, p)
    ensures exists k | 0 <= k < |Free(s.planner, p)| :: Sends(DispatchesOf(s, k), p, i)
    decreases |Free(s.planner, p)|
  {
    hide Free, DispatchesOf, Polled, Full;
    var d := PollServes(s, p);
    if d.idx == i {
      assert Sends(DispatchesOf(s, 0), p, i);
    } else {
      var t := Polled(s);
      FreeShardIsSent(t, p, i);
      var k :| 0 <= k < |Free(t.planner, p)| && Sends(DispatchesOf(t, k), p, i);
      NextDispatches(s, k);
    }
  }
}
