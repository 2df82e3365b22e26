/** What a poll must send: to each peer in turn the best shard if it is held, and in the end every held shard. */
module Forwarding {
  import opened Basics
  import opened Havelists
  import opened Coding
  import opened Strategies
  import opened Polling
  import P = Planners

  // ---- Each peer's turn ----

  /** The dispatches to one peer, in order. */
  ghost function SentTo(ds: seq<Dispatch>, p: PeerId): seq<Dispatch> {
    if ds == [] then [] else (if ds[0].peer == p then [ds[0]] else []) + SentTo(ds[1..], p)
  }

  lemma {:induction false} SentToAppend(ds: seq<Dispatch>, es: seq<Dispatch>, p: PeerId)
    ensures SentTo(ds + es, p) == SentTo(ds, p) + SentTo(es, p)
    decreases |ds|
  {
    if ds == [] {
      assert ds + es == es;
    } else {
      assert (ds + es)[1..] == ds[1..] + es;
      SentToAppend(ds[1..], es, p);
    }
  }

  lemma {:induction false} SentToNone(ds: seq<Dispatch>, p: PeerId)
    requires forall d | d in ds :: d.peer != p
    ensures SentTo(ds, p) == []
    decreases |ds|
  {
    if ds != [] { SentToNone(ds[1..], p); }
  }

  /** At its turn the peer is sent its best shard, whole and under the next handle, if that is held; otherwise nothing. */
  ghost predicate Turn(s: Strategy, p: PeerId, out: seq<Dispatch>) {
    && (forall i: nat | s.planner.IsBest(p, i) && s.Held(i) ::
          out == [Dispatch(p, i, s.nextHandle, s.chunks[i].value)])
    && ((forall i: nat | s.planner.IsBest(p, i) :: !s.Held(i)) ==> out == [])
  }

  lemma PollPeerTurn(s: Strategy, p: PeerId)
    ensures var d := PollPeer(s, p).1; Turn(s, p, if d.Some? then [d.value] else [])
    ensures var d := PollPeer(s, p).1; d.Some? ==> d.value.peer == p
  {
    var choice := P.Choose(s.planner, p);
    forall i: nat | s.planner.IsBest(p, i)
      ensures choice == Some(i)
    {
      P.BestIsUnique(s.planner, p, i, choice.value);
    }
    hide P.Planner.IsBest, P.Choose;
  }

  lemma {:induction false} PolledPeers(s: Strategy, peers: seq<PeerId>)
    ensures forall d | d in PollFrom(s, peers).1 :: d.peer in peers
    decreases |peers|
  {
    if peers != [] {
      PollPeerTurn(s, peers[0]);
      var (t, d) := PollPeer(s, peers[0]);
      hide PollPeer, Turn;
      PolledPeers(t, peers[1..]);
      assert forall x | x in peers[1..] :: x in peers;
    }
  }

  lemma PollFromCons(s: Strategy, peers: seq<PeerId>)
    requires peers != []
    ensures var (t, d) := PollPeer(s, peers[0]);
            PollFrom(s, peers).1 == (if d.Some? then [d.value] else []) + PollFrom(t, peers[1..]).1
  {
    hide PollPeer;
  }

  lemma PrefixCons(s: Strategy, peers: seq<PeerId>, j: nat)
    requires 0 < j <= |peers|
    ensures PollFrom(s, peers[..j]).0 == PollFrom(PollPeer(s, peers[0]).0, peers[1..][..j - 1]).0
  {
    hide PollPeer;
    assert peers[..j][0] == peers[0] && peers[..j][1..] == peers[1..][..j - 1];
  }

  /**
   * The poll of a strategy in either mode, peer by peer: given the strategy at the peer's turn, the peer is sent exactly its
   * best eligible shard if that is held, and nothing if it is not or if there is none.
   */
  lemma {:induction false} TurnServes(s: Strategy, peers: seq<PeerId>, j: nat)
    requires Ascending(peers) && j < |peers|
    ensures Turn(PollFrom(s, peers[..j]).0, peers[j], SentTo(PollFrom(s, peers).1, peers[j]))
    decreases j
  {
    hide PollPeer, Turn;
    var (t, d) := PollPeer(s, peers[0]);
    var first := if d.Some? then [d.value] else [];
    var rest := PollFrom(t, peers[1..]).1;
    PollFromCons(s, peers);
    PollPeerTurn(s, peers[0]);
    SentToAppend(first, rest, peers[j]);
    if j == 0 {
      assert peers[..0] == [];
      PolledPeers(t, peers[1..]);
      assert peers[0] !in peers[1..];
      SentToNone(rest, peers[0]);
      assert SentTo(first, peers[0]) == first;
    } else {
      PrefixCons(s, peers, j);
      TurnServes(t, peers[1..], j - 1);
      assert peers[1..][j - 1] == peers[j] != peers[0];
      SentToNone(first, peers[j]);
      assert [] + SentTo(rest, peers[j]) == SentTo(rest, peers[j]);
      assert SentTo(PollFrom(s, peers).1, peers[j]) == SentTo(rest, peers[j]);
    }
  }

  // ---- A relay forwards what it holds ----

  /** Allocations of the shard that the relay's cap still allows. */
  ghost function Spare(q: P.Planner, i: nat): nat {
    if q.mode.Relay? && q.Alloc(i) < q.mode.cap then q.mode.cap - q.Alloc(i) else 0
  }

  ghost predicate IsFree(q: P.Planner, p: PeerId, i: nat) {
    i < q.n && !q.InFlight(p, i) && !q.Has(p, i)
  }

  /** Allocations still possible for the peer: over its free shards among the first `m`, what the cap allows. */
  ghost function Room(q: P.Planner, p: PeerId, m: nat): nat {
    if m == 0 then 0 else Room(q, p, m - 1) + if IsFree(q, p, m - 1) then Spare(q, m - 1) else 0
  }

  /** The cap allows nothing more, and no shard becomes free. */
  ghost predicate Tighter(q: P.Planner, r: P.Planner, p: PeerId) {
    && r.n == q.n && r.mode == q.mode
    && (forall i: nat :: q.Alloc(i) <= r.Alloc(i))
    && (forall i: nat :: IsFree(r, p, i) ==> IsFree(q, p, i))
  }

  lemma {:induction false} RoomShrinks(q: P.Planner, r: P.Planner, p: PeerId, m: nat)
    requires Tighter(q, r, p)
    ensures Room(r, p, m) <= Room(q, p, m)
    decreases m
  {
    if m > 0 {
      RoomShrinks(q, r, p, m - 1);
      assert q.Alloc(m - 1) <= r.Alloc(m - 1);
    }
  }

  lemma {:induction false} RoomDrops(q: P.Planner, r: P.Planner, p: PeerId, m: nat, j: nat)
    requires Tighter(q, r, p) && j < m && IsFree(q, p, j) && q.mode.Relay? && q.Alloc(j) < q.mode.cap
    requires q.Alloc(j) < r.Alloc(j)
    ensures Room(r, p, m) < Room(q, p, m)
    decreases m
  {
    if m - 1 == j {
      RoomShrinks(q, r, p, m - 1);
    } else {
      RoomDrops(q, r, p, m - 1, j);
      assert q.Alloc(m - 1) <= r.Alloc(m - 1);
    }
  }

  lemma TighterOn(q: P.Planner, r: P.Planner, u: P.Planner, p: PeerId)
    requires Tighter(q, r, p) && Tighter(r, u, p)
    ensures Tighter(q, u, p)
  {
    hide IsFree;
    assert forall i: nat :: q.Alloc(i) <= r.Alloc(i) && r.Alloc(i) <= u.Alloc(i);
  }

  lemma TighterSelf(q: P.Planner, p: PeerId)
    ensures Tighter(q, q, p)
  {
  }

  /** One turn only tightens; the peer's own turn takes one of its eligible shards if there is any. */
  lemma PollPeerTightens(s: Strategy, x: PeerId, p: PeerId)
    ensures Tighter(s.planner, PollPeer(s, x).0.planner, p)
  {
    var t := PollPeer(s, x).0;
    PollPeerFree(s, x, p);
    forall i: nat
      ensures s.planner.Alloc(i) <= t.planner.Alloc(i)
      ensures IsFree(t.planner, p, i) ==> IsFree(s.planner, p, i)
    {
      assert i in Free(t.planner, p) <==> IsFree(t.planner, p, i);
      assert i in Free(s.planner, p) <==> IsFree(s.planner, p, i);
    }
  }

  lemma {:induction false} PollFromTightens(s: Strategy, peers: seq<PeerId>, p: PeerId)
    ensures Tighter(s.planner, PollFrom(s, peers).0.planner, p)
    decreases |peers|
  {
    TighterSelf(s.planner, p);
    if peers != [] {
      var t := PollPeer(s, peers[0]).0;
      PollPeerTightens(s, peers[0], p);
      hide PollPeer, Tighter;
      PollFromTightens(t, peers[1..], p);
      TighterOn(s.planner, t.planner, PollFrom(t, peers[1..]).0.planner, p);
    }
  }

  /** A relay holds the shard, the peer is free for it, and the cap allows another allocation. */
  ghost predicate Owes(s: Strategy, p: PeerId, i: nat) {
    && s.planner.mode.Relay? && |s.chunks| == s.planner.n && s.Held(i)
    && IsFree(s.planner, p, i) && s.planner.Alloc(i) < s.planner.mode.cap
  }

  lemma OwnTurn(s: Strategy, p: PeerId, i: nat)
    requires Owes(s, p, i)
    ensures var (t, d) := PollPeer(s, p);
            || (d.Some? && d.value.peer == p && d.value.idx == i)
            || (Room(t.planner, p, t.planner.n) < Room(s.planner, p, s.planner.n) && IsFree(t.planner, p, i))
  {
    assert s.planner.Eligible(p, i);
    var j := P.Choose(s.planner, p).value;
    var t := PollPeer(s, p).0;
    PollPeerTightens(s, p, p);
    assert IsFree(s.planner, p, j) && s.planner.Alloc(j) < s.planner.mode.cap && t.planner.Alloc(j) == s.planner.Alloc(j) + 1;
    RoomDrops(s.planner, t.planner, p, s.planner.n, j);
    hide Room, Tighter;
    if j != i {
      PollPeerFree(s, p, p);
      assert i in Free(s.planner, p);
      assert i in Free(t.planner, p);
    }
  }

  lemma OtherTurn(s: Strategy, x: PeerId, p: PeerId, i: nat)
    requires x != p && Owes(s, p, i)
    ensures var t := PollPeer(s, x).0;
            && Room(t.planner, p, t.planner.n) <= Room(s.planner, p, s.planner.n)
            && (t.planner.Alloc(i) >= s.planner.mode.cap || Owes(t, p, i))
  {
    var t := PollPeer(s, x).0;
    PollPeerTightens(s, x, p);
    RoomShrinks(s.planner, t.planner, p, s.planner.n);
    PollPeerFree(s, x, p);
    assert i in Free(s.planner, p);
    assert i in Free(t.planner, p);
    hide Room, Tighter;
    OneTurnContent(s, x);
    hide PollPeer;
  }

  lemma OneTurnContent(s: Strategy, x: PeerId)
    ensures SameContent(s, PollPeer(s, x).0)
  {
  }

  /** In one poll the shard is sent to the peer, reaches the cap, or the peer's room shrinks. */
  lemma {:induction false} PollFromForwards(s: Strategy, peers: seq<PeerId>, p: PeerId, i: nat)
    requires Owes(s, p, i) && Ascending(peers) && p in peers
    ensures var (t, ds) := PollFrom(s, peers);
            || Sends(ds, p, i)
            || t.planner.Alloc(i) >= s.planner.mode.cap
            || (Room(t.planner, p, t.planner.n) < Room(s.planner, p, s.planner.n) && Owes(t, p, i))
    decreases |peers|
  {
    var x := peers[0];
    var (t, d) := PollPeer(s, x);
    var (u, ds) := PollFrom(t, peers[1..]);
    PollFromCons(s, peers);
    PollFromTightens(t, peers[1..], p);
    OneTurnContent(s, x);
    PollFromContent(t, peers[1..]);
    assert PollFrom(s, peers).0 == u;
    if x == p {
      OwnTurn(s, p, i);
      assert p !in peers[1..];
      PollFromSpares(t, peers[1..], p);
      hide PollPeer, PollFrom;
      if d.Some? && d.value.idx == i && d.value.peer == p {
        assert Sends([d.value] + ds, p, i);
      } else {
        RoomShrinks(t.planner, u.planner, p, t.planner.n);
        assert i in Free(t.planner, p) && i in Free(u.planner, p);
        hide Room;
      }
    } else {
      OtherTurn(s, x, p, i);
      hide PollPeer, Room, Owes;
      if t.planner.Alloc(i) < s.planner.mode.cap {
        assert p in peers[1..];
        PollFromForwards(t, peers[1..], p, i);
        assert Sends(ds, p, i) ==> Sends(PollFrom(s, peers).1, p, i);
      } else {
        assert t.planner.Alloc(i) <= u.planner.Alloc(i);
      }
    }
  }

  lemma PollForwards(s: Strategy, p: PeerId, i: nat)
    requires Owes(s, p, i) && p in s.attached
    ensures var t := Polled(s);
            || Sends(DispatchesOf(s, 0), p, i)
            || t.planner.Alloc(i) >= s.planner.mode.cap
            || (Room(t.planner, p, t.planner.n) < Room(s.planner, p, s.planner.n) && Owes(t, p, i) && p in t.attached)
    ensures Polled(s).planner.mode == s.planner.mode
  {
    var r := PollRouting(s).0;
    assert Owes(r, p, i) && r.planner == s.planner;
    hide PollFrom, Room, Sends, Owes;
    PollFromForwards(r, Sorted(r.attached), p, i);
    PollFromContent(r, Sorted(r.attached));
    assert PolledTimes(s, 0) == s;
  }

  /** The shard was sent to the peer in poll number `k`, or its allocations reached the cap by the end of it. */
  ghost predicate ForwardedBy(s: Strategy, p: PeerId, i: nat, cap: nat, k: nat) {
    Sends(DispatchesOf(s, k), p, i) || PolledTimes(s, k + 1).planner.Alloc(i) >= cap
  }

  lemma ForwardedOn(s: Strategy, p: PeerId, i: nat, cap: nat, k: nat)
    requires ForwardedBy(Polled(s), p, i, cap, k)
    ensures ForwardedBy(s, p, i, cap, k + 1)
  {
    hide DispatchesOf, PolledTimes, Polled, Sends;
    NextDispatches(s, k);
    NextTimes(s, k + 1);
  }

  lemma FirstForwards(s: Strategy, p: PeerId, i: nat)
    requires Owes(s, p, i) && p in s.attached
    ensures var t := Polled(s);
            && t.planner.mode == s.planner.mode
            && (|| ForwardedBy(s, p, i, s.planner.mode.cap, 0)
                || (Room(t.planner, p, t.planner.n) < Room(s.planner, p, s.planner.n) && Owes(t, p, i) && p in t.attached))
  {
    hide Polled, DispatchesOf, Room, Sends;
    PollForwards(s, p, i);
    NextTimes(s, 0);
    hide Owes, PolledTimes;
  }

  lemma {:induction false} ForwardedWithin(s: Strategy, p: PeerId, i: nat, cap: nat, room: nat) returns (k: nat)
    requires Owes(s, p, i) && p in s.attached && s.planner.mode == P.Relay(cap) && Room(s.planner, p, s.planner.n) <= room
    ensures k < room && ForwardedBy(s, p, i, cap, k)
    decreases room
  {
    hide *;
    SomeRoom(s, p, i);
    FirstForwards(s, p, i);
    k := 0;
    if !ForwardedBy(s, p, i, cap, 0) {
      var m := ForwardedWithin(Polled(s), p, i, cap, room - 1);
      ForwardedOn(s, p, i, cap, m);
      k := m + 1;
    }
  }

  /**
   * A relay forwards what it holds: a held shard that an attached peer neither has nor is being sent is sent to it within as
   * many polls as the cap still allows allocations for the peer, at most n times the cap, or the shard's own allocations
   * reach the cap by then.
   */
  lemma HeldShardIsForwarded(s: Strategy, p: PeerId, i: nat) returns (k: nat)
    requires Owes(s, p, i) && p in s.attached
    ensures k < Room(s.planner, p, s.planner.n) <= s.planner.n * s.planner.mode.cap
    ensures ForwardedBy(s, p, i, s.planner.mode.cap, k)
  {
    RoomBound(s.planner, p, s.planner.n);
    hide Room, ForwardedBy, IsFree;
    k := ForwardedWithin(s, p, i, s.planner.mode.cap, Room(s.planner, p, s.planner.n));
  }

  lemma NextTimes(s: Strategy, k: nat)
    ensures PolledTimes(s, k + 1) == PolledTimes(Polled(s), k) && PolledTimes(Polled(s), 0) == Polled(s)
  {
    hide Polled;
  }

  lemma {:induction false} RoomAt(q: P.Planner, p: PeerId, m: nat, i: nat)
    requires i < m && IsFree(q, p, i) && q.mode.Relay? && q.Alloc(i) < q.mode.cap
    ensures Room(q, p, m) > 0
    decreases m
  {
    if m - 1 != i { RoomAt(q, p, m - 1, i); }
  }

  lemma SomeRoom(s: Strategy, p: PeerId, i: nat)
    requires Owes(s, p, i)
    ensures Room(s.planner, p, s.planner.n) > 0
  {
    RoomAt(s.planner, p, s.planner.n, i);
  }

  /** At most n times the cap. */
  lemma {:induction false} RoomBound(q: P.Planner, p: PeerId, m: nat)
    requires q.mode.Relay?
    ensures Room(q, p, m) <= m * q.mode.cap
    decreases m
  {
    if m > 0 {
      RoomBound(q, p, m - 1);
      assert m * q.mode.cap == (m - 1) * q.mode.cap + q.mode.cap;
    }
  }
}
