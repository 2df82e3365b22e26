/** Properties of a strategy over every run of its operations. */
module StrategyRuns {
  import opened Basics
  import opened Havelists
  import opened Coding
  import opened Strategies
  import opened Polling
  import P = Planners

  datatype Op =
    | Take(idx: nat, data: Bytes)
    | Attach(peer: PeerId)
    | Detach(peer: PeerId)
    | Route(peer: PeerId, update: Havelist)
    | Poll
    | Settle(peer: PeerId, handle: Handle, ok: bool)

  function Apply(lib: Lib, s: Strategy, op: Op): Strategy {
    match op
    case Take(idx, data) => TakeChunk(lib, s, idx, data).0
    case Attach(p) => AttachPeer(s, p)
    case Detach(p) => DetachPeer(s, p)
    case Route(p, u) => RoutingUpdate(s, p, u).0
    case Poll => Polled(s)
    case Settle(p, h, ok) => ChunkSent(s, p, h, ok)
  }

  function Run(lib: Lib, s: Strategy, ops: seq<Op>): Strategy
    decreases |ops|
  {
    if ops == [] then s else Run(lib, Apply(lib, s, ops[0]), ops[1..])
  }

  /** The transport reports a send outcome for the peer the send went to. */
  ghost predicate Echoes(s: Strategy, op: Op) {
    op.Settle? && op.handle in s.inFlight ==> s.inFlight[op.handle].peer == op.peer
  }

  ghost predicate EchoRun(lib: Lib, s: Strategy, ops: seq<Op>)
    decreases |ops|
  {
    ops == [] || (Echoes(s, ops[0]) && EchoRun(lib, Apply(lib, s, ops[0]), ops[1..]))
  }

  lemma ApplyInv(lib: Lib, s: Strategy, op: Op)
    requires Inv(s) && Echoes(s, op)
    ensures Inv(Apply(lib, s, op))
  {
    match op
    case Take(idx, data) => TakeChunkInv(lib, s, idx, data);
    case Attach(p) => AttachPeerInv(s, p);
    case Detach(p) => DetachPeerInv(s, p);
    case Route(p, u) => RoutingUpdateInv(s, p, u);
    case Poll => PollRoutingInv(s); PollChunksInv(PollRouting(s).0);
    case Settle(p, h, ok) => ChunkSentInv(s, p, h, ok);
  }

  lemma {:induction false} RunInv(lib: Lib, s: Strategy, ops: seq<Op>)
    requires Inv(s) && EchoRun(lib, s, ops)
    ensures Inv(Run(lib, s, ops))
    decreases |ops|
  {
    hide Inv, Apply, Echoes;
    if ops != [] {
      ApplyInv(lib, s, ops[0]);
      RunInv(lib, Apply(lib, s, ops[0]), ops[1..]);
    }
  }

  lemma ApplyKeepsMode(lib: Lib, s: Strategy, op: Op)
    ensures Apply(lib, s, op).planner.mode == s.planner.mode
    ensures Apply(lib, s, op).planner.n == s.planner.n
    ensures |Apply(lib, s, op).chunks| == |s.chunks|
  {
    match op
    case Take(idx, data) =>
    case Attach(p) =>
    case Detach(p) => P.RemovePeerRefunds(s.planner, p, 0);
    case Route(p, u) =>
    case Poll => PollFromContent(PollRouting(s).0, Sorted(PollRouting(s).0.attached));
    case Settle(p, h, ok) => if h in s.inFlight { SettleKeepsMode(s, p, h, ok); }
  }

  lemma SettleKeepsMode(s: Strategy, p: PeerId, h: Handle, ok: bool)
    ensures ChunkSent(s, p, h, ok).planner.mode == s.planner.mode
    ensures ChunkSent(s, p, h, ok).planner.n == s.planner.n
  {
  }

  lemma {:induction false} RunKeepsMode(lib: Lib, s: Strategy, ops: seq<Op>)
    ensures Run(lib, s, ops).planner.mode == s.planner.mode
    decreases |ops|
  {
    hide Apply;
    if ops != [] {
      ApplyKeepsMode(lib, s, ops[0]);
      RunKeepsMode(lib, Apply(lib, s, ops[0]), ops[1..]);
    }
  }

  /**
   * Budget conservation: over every run of a new strategy, a shard's allocations are its successful sends,
   * the peers it is in flight to and the allocations burned; a relay's successful sends stay within its cap.
   */
  lemma BudgetConserved(lib: Lib, s: Strategy, ops: seq<Op>, i: nat)
    requires Fresh(s) && EchoRun(lib, s, ops)
    ensures var t := Run(lib, s, ops);
            t.planner.Alloc(i) == t.planner.Sent(i) + |Carriers(t.planner, i)| + t.Burned(i)
    ensures s.planner.mode.Relay? ==>
              Run(lib, s, ops).planner.Sent(i) <= Run(lib, s, ops).planner.Alloc(i) <= s.planner.mode.cap
  {
    FreshInv(s);
    RunInv(lib, s, ops);
    RunKeepsMode(lib, s, ops);
    var t := Run(lib, s, ops);
    hide Run, EchoRun;
    assert Balanced(t) && Capped(t);
  }

  // ---- Settlement ----

  lemma HandleGone(lib: Lib, s: Strategy, op: Op, h: Handle)
    requires Inv(s) && h < s.nextHandle && h !in s.inFlight
    ensures h < Apply(lib, s, op).nextHandle && h !in Apply(lib, s, op).inFlight
  {
    if op.Poll? {
      assert forall g | g in s.inFlight :: g < s.nextHandle by { assert Matched(s); }
      hide Inv, Polled;
      PollIssuesNew(s, h);
    } else {
      hide Inv;
      QuietHandles(lib, s, op);
      hide Apply;
    }
  }

  lemma PollIssuesNew(s: Strategy, h: Handle)
    requires (forall g | g in s.inFlight :: g < s.nextHandle) && h < s.nextHandle && h !in s.inFlight
    ensures h < Polled(s).nextHandle && h !in Polled(s).inFlight
  {
    var r := PollRouting(s).0;
    hide PollFrom;
    PollFromEmits(r, Sorted(r.attached));
  }

  /** Only a poll issues handles or starts flights. */
  lemma QuietHandles(lib: Lib, s: Strategy, op: Op)
    requires !op.Poll?
    ensures var t := Apply(lib, s, op); t.nextHandle == s.nextHandle && t.inFlight.Keys <= s.inFlight.Keys
  {
    hide P.RemovePeer, P.RecordSent, P.Refund, P.CancelInFlight, VerifyChunk;
  }

  /** A settled handle is settled for good: no run brings it back, and a late or repeated result changes nothing. */
  lemma {:induction false} SettledForGood(lib: Lib, s: Strategy, ops: seq<Op>, h: Handle, p: PeerId, ok: bool)
    requires Inv(s) && EchoRun(lib, s, ops) && h < s.nextHandle && h !in s.inFlight
    ensures ChunkSent(Run(lib, s, ops), p, h, ok) == Run(lib, s, ops)
    decreases |ops|
  {
    if ops != [] {
      ApplyInv(lib, s, ops[0]);
      HandleGone(lib, s, ops[0], h);
      hide Apply, Inv, Echoes;
      SettledForGood(lib, Apply(lib, s, ops[0]), ops[1..], h, p, ok);
    }
  }

  /** An outcome and a departure both settle a handle. */
  lemma OutcomeSettles(s: Strategy, h: Handle, ok: bool)
    requires Inv(s) && h in s.inFlight
    ensures h !in ChunkSent(s, s.inFlight[h].peer, h, ok).inFlight
    ensures h !in DetachPeer(s, s.inFlight[h].peer).inFlight
  {
  }

  // ---- No wasted sends ----

  lemma {:induction false} PollSendsOnlyFree(s: Strategy, peers: seq<PeerId>, d: Dispatch)
    requires d in PollFrom(s, peers).1
    ensures d.idx in Free(s.planner, d.peer)
    decreases |peers|
  {
    var (t, e) := PollPeer(s, peers[0]);
    PollPeerFree(s, peers[0], d.peer);
    if !(e.Some? && d == e.value) {
      hide PollPeer, Free;
      PollSendsOnlyFree(t, peers[1..], d);
    }
  }

  lemma TurnKeepsHas(s: Strategy, x: PeerId, p: PeerId, i: nat)
    ensures PollPeer(s, x).0.planner.Has(p, i) <==> s.planner.Has(p, i)
  {
  }

  lemma {:induction false} PollKeepsHas(s: Strategy, peers: seq<PeerId>, p: PeerId, i: nat)
    ensures PollFrom(s, peers).0.planner.Has(p, i) <==> s.planner.Has(p, i)
    decreases |peers|
  {
    hide PollPeer, P.Planner.Has;
    if peers != [] {
      TurnKeepsHas(s, peers[0], p, i);
      PollKeepsHas(PollPeer(s, peers[0]).0, peers[1..], p, i);
    }
  }

  lemma HasSticks(lib: Lib, s: Strategy, op: Op, p: PeerId, i: nat)
    requires s.planner.Has(p, i) && op != Detach(p)
    ensures Apply(lib, s, op).planner.Has(p, i)
  {
    match op
    case Take(idx, data) =>
    case Attach(x) =>
    case Detach(x) => P.RemovePeerRefunds(s.planner, x, 0);
    case Route(x, u) =>
    case Poll => PollKeepsHas(PollRouting(s).0, Sorted(s.attached), p, i);
    case Settle(x, h, ok) => if h in s.inFlight { SettleKeepsHas(s, x, h, ok, p, i); }
  }

  lemma SettleKeepsHas(s: Strategy, x: PeerId, h: Handle, ok: bool, p: PeerId, i: nat)
    requires h in s.inFlight && s.planner.Has(p, i)
    ensures ChunkSent(s, x, h, ok).planner.Has(p, i)
  {
  }

  /** While `p` stays attached, a shard it is believed to hold is never sent to it again. */
  lemma {:induction false} NeverSentAgain(lib: Lib, s: Strategy, ops: seq<Op>, p: PeerId, i: nat)
    requires s.planner.Has(p, i)
    requires forall k | 0 <= k < |ops| :: ops[k] != Detach(p)
    ensures Run(lib, s, ops).planner.Has(p, i)
    ensures forall d | d in PollChunks(PollRouting(Run(lib, s, ops)).0).1 :: !(d.peer == p && d.idx == i)
    decreases |ops|
  {
    if ops == [] {
      var r := PollRouting(s).0;
      forall d | d in PollChunks(r).1
        ensures !(d.peer == p && d.idx == i)
      {
        PollSendsOnlyFree(r, Sorted(r.attached), d);
      }
    } else {
      HasSticks(lib, s, ops[0], p, i);
      hide Apply, PollChunks;
      NeverSentAgain(lib, Apply(lib, s, ops[0]), ops[1..], p, i);
    }
  }

  /**
   * A successful send marks the shard as held exactly when the peer's havelist is absent or large enough. A first
   * routing update is merged without a size check, so it can be too small.
   */
  lemma AckMarksWhenHavelistFits(s: Strategy, h: Handle)
    requires Inv(s) && h in s.inFlight
    ensures var f := s.inFlight[h];
            var have := s.planner.PeerOf(f.peer).have;
            ChunkSent(s, f.peer, h, true).planner.Has(f.peer, f.idx) <==> have.None? || f.idx < have.value.n
  {
  }

  /**
   * With an undersized havelist an acknowledged shard stays eligible, and an origin that holds every shard sends it to the
   * peer again within as many polls as the peer has free shards.
   */
  lemma UndersizedHavelistResends(s: Strategy, h: Handle)
    requires Inv(s) && h in s.inFlight && s.planner.mode.Origin?
    requires var have := s.planner.PeerOf(s.inFlight[h].peer).have; have.Some? && have.value.n <= s.inFlight[h].idx
    ensures var f := s.inFlight[h];
            var t := ChunkSent(s, f.peer, h, true);
            && t.planner.Eligible(f.peer, f.idx)
            && (Full(s) ==> exists k | 0 <= k < |Free(t.planner, f.peer)| :: Sends(DispatchesOf(t, k), f.peer, f.idx))
  {
    var f := s.inFlight[h];
    var t := ChunkSent(s, f.peer, h, true);
    assert s.Held(f.idx);
    if Full(s) {
      assert f.idx in Free(t.planner, f.peer);
      hide Free, DispatchesOf;
      FreeShardIsSent(t, f.peer, f.idx);
    }
  }

  /** Every known havelist covers all shards. */
  ghost predicate WellSized(s: Strategy) {
    forall p: PeerId :: var have := s.planner.PeerOf(p).have; have.Some? ==> have.value.n == s.planner.n
  }

  ghost predicate SizedOp(op: Op, n: nat) {
    op.Route? ==> op.update.n == n
  }

  lemma {:induction false} PollKeepsSizes(s: Strategy, peers: seq<PeerId>)
    requires WellSized(s)
    ensures WellSized(PollFrom(s, peers).0)
    decreases |peers|
  {
    if peers != [] {
      var t := PollPeer(s, peers[0]).0;
      assert WellSized(t) by {
        forall p: PeerId
          ensures t.planner.PeerOf(p).have == s.planner.PeerOf(p).have
        {
        }
      }
      hide PollPeer, WellSized;
      PollKeepsSizes(t, peers[1..]);
    }
  }

  lemma SettleKeepsSizes(s: Strategy, p: PeerId, h: Handle, ok: bool)
    requires WellSized(s)
    ensures WellSized(ChunkSent(s, p, h, ok))
  {
    var t := ChunkSent(s, p, h, ok);
    forall x: PeerId
      ensures t.planner.PeerOf(x).have.Some? ==> t.planner.PeerOf(x).have.value.n == t.planner.n
    {
      assert s.planner.PeerOf(x).have.Some? ==> s.planner.PeerOf(x).have.value.n == s.planner.n;
    }
  }

  lemma DetachKeepsSizes(s: Strategy, p: PeerId)
    requires WellSized(s)
    ensures WellSized(DetachPeer(s, p))
  {
    P.RemovePeerRefunds(s.planner, p, 0);
    hide P.RemovePeer;
    var t := DetachPeer(s, p);
    forall x: PeerId
      ensures t.planner.PeerOf(x).have.Some? ==> t.planner.PeerOf(x).have.value.n == t.planner.n
    {
      assert s.planner.PeerOf(x).have.Some? ==> s.planner.PeerOf(x).have.value.n == s.planner.n;
    }
  }

  lemma RouteKeepsSizes(s: Strategy, p: PeerId, u: Havelist)
    requires WellSized(s) && u.n == s.planner.n
    ensures WellSized(RoutingUpdate(s, p, u).0)
  {
    var t := RoutingUpdate(s, p, u).0;
    forall x: PeerId
      ensures t.planner.PeerOf(x).have.Some? ==> t.planner.PeerOf(x).have.value.n == t.planner.n
    {
      assert s.planner.PeerOf(x).have.Some? ==> s.planner.PeerOf(x).have.value.n == s.planner.n;
    }
  }

  lemma ApplyKeepsSizes(lib: Lib, s: Strategy, op: Op)
    requires WellSized(s) && SizedOp(op, s.planner.n)
    ensures WellSized(Apply(lib, s, op))
  {
    match op
    case Take(idx, data) =>
    case Attach(p) =>
    case Detach(p) => DetachKeepsSizes(s, p);
    case Route(p, u) => RouteKeepsSizes(s, p, u);
    case Poll =>
      assert PollRouting(s).0.planner == s.planner;
      assert WellSized(PollRouting(s).0);
      PollKeepsSizes(PollRouting(s).0, Sorted(s.attached));
    case Settle(p, h, ok) => SettleKeepsSizes(s, p, h, ok);
  }

  lemma {:induction false} RunKeepsSizes(lib: Lib, s: Strategy, ops: seq<Op>)
    requires WellSized(s) && forall k | 0 <= k < |ops| :: SizedOp(ops[k], s.planner.n)
    ensures WellSized(Run(lib, s, ops))
    decreases |ops|
  {
    hide WellSized, Apply;
    if ops != [] {
      ApplyKeepsSizes(lib, s, ops[0]);
      ApplyKeepsMode(lib, s, ops[0]);
      RunKeepsSizes(lib, Apply(lib, s, ops[0]), ops[1..]);
    }
  }

  /**
   * No wasted sends: on every run with well-sized routing updates, once a send of a shard to a peer is acknowledged, no
   * later poll sends that shard to that peer while it stays attached.
   */
  lemma {:induction false} NoShardSentTwice(lib: Lib, s: Strategy, before: seq<Op>, h: Handle, after: seq<Op>)
    requires Fresh(s) && EchoRun(lib, s, before) && h in Run(lib, s, before).inFlight
    requires forall k | 0 <= k < |before| :: SizedOp(before[k], s.planner.n)
    requires forall k | 0 <= k < |after| :: after[k] != Detach(Run(lib, s, before).inFlight[h].peer)
    ensures var f := Run(lib, s, before).inFlight[h];
            var acked := ChunkSent(Run(lib, s, before), f.peer, h, true);
            forall d | d in PollChunks(PollRouting(Run(lib, acked, after)).0).1 :: !(d.peer == f.peer && d.idx == f.idx)
  {
    FreshInv(s);
    RunInv(lib, s, before);
    RunKeepsSizes(lib, s, before);
    var t := Run(lib, s, before);
    var f := t.inFlight[h];
    hide Run, EchoRun;
    assert t.Held(f.idx);
    AckMarksWhenHavelistFits(t, h);
    hide Inv, Fresh, ChunkSent, PollChunks, WellSized;
    NeverSentAgain(lib, ChunkSent(t, f.peer, h, true), after, f.peer, f.idx);
  }

  lemma {:induction false} FullPollBurnsNothing(s: Strategy, peers: seq<PeerId>)
    requires Full(s) && |s.chunks| == s.planner.n && s.burned == map[]
    ensures PollFrom(s, peers).0.burned == map[]
    decreases |peers|
  {
    if peers != [] {
      FullPollBurnsNothing(PollPeer(s, peers[0]).0, peers[1..]);
    }
  }

  ghost predicate Unburnt(s: Strategy) {
    Full(s) && |s.chunks| == s.planner.n && s.burned == map[]
  }

  lemma ApplyBurnsNothing(lib: Lib, s: Strategy, op: Op)
    requires Unburnt(s)
    ensures Unburnt(Apply(lib, s, op))
  {
    ApplyKeepsMode(lib, s, op);
    hide P.RemovePeer, P.RecordSent, P.Refund, P.CancelInFlight, P.SetHavelist, PollFrom;
    match op
    case Take(idx, data) =>
    case Attach(p) =>
    case Detach(p) =>
    case Route(p, u) =>
    case Poll =>
      FullPollBurnsNothing(PollRouting(s).0, Sorted(s.attached));
      PollFromContent(PollRouting(s).0, Sorted(s.attached));
    case Settle(p, h, ok) =>
  }

  /** An origin that holds every shard burns none of its allocations. */
  lemma {:induction false} OriginBurnsNothing(lib: Lib, s: Strategy, ops: seq<Op>)
    requires Unburnt(s)
    ensures Run(lib, s, ops).burned == map[]
    decreases |ops|
  {
    if ops != [] {
      ApplyBurnsNothing(lib, s, ops[0]);
      hide Apply, Unburnt;
      OriginBurnsNothing(lib, Apply(lib, s, ops[0]), ops[1..]);
    }
  }

  /**
   * A routing update of the right size teaches exactly its bits about exactly that peer, starts and ends no flight, and
   * names exactly the sends to the peer of shards it now has; one of another size teaches nothing once a havelist is known.
   */
  lemma RoutingUpdateLearns(s: Strategy, p: PeerId, u: Havelist, x: PeerId, i: nat)
    ensures var (t, redundant) := RoutingUpdate(s, p, u);
            var have := s.planner.PeerOf(p).have;
            var fits := have.None? || have.value.n == u.n;
            && (t.planner.Has(x, i) <==> s.planner.Has(x, i) || (x == p && fits && i < u.n && i in u.bits))
            && (t.planner.InFlight(x, i) <==> s.planner.InFlight(x, i)) && t.inFlight == s.inFlight
            && (forall h :: h in redundant <==>
                  && h in s.inFlight && s.inFlight[h].peer == p
                  && s.planner.InFlight(p, s.inFlight[h].idx) && t.planner.Has(p, s.inFlight[h].idx))
  {
  }

  // ---- A relay can burn its whole budget before it holds anything ----

  /** Nothing in flight and every shard at the cap. */
  ghost predicate Exhausted(s: Strategy) {
    && s.planner.mode.Relay? && s.inFlight == map[]
    && (forall p: PeerId, i: nat :: !s.planner.InFlight(p, i))
    && (forall i: nat | i < s.planner.n :: s.planner.Alloc(i) >= s.planner.mode.cap)
  }

  lemma {:induction false} ExhaustedPoll(s: Strategy, peers: seq<PeerId>)
    requires Exhausted(s)
    ensures PollFrom(s, peers).1 == [] && Exhausted(PollFrom(s, peers).0)
    decreases |peers|
  {
    if peers != [] {
      assert P.Choose(s.planner, peers[0]).None?;
      var t := PollPeer(s, peers[0]).0;
      forall x: PeerId, i: nat
        ensures !t.planner.InFlight(x, i)
      {
        assert !s.planner.InFlight(x, i);
      }
      assert forall i: nat :: t.planner.Alloc(i) == s.planner.Alloc(i);
      assert Exhausted(t);
      hide PollPeer;
      ExhaustedPoll(t, peers[1..]);
    }
  }

  lemma ExhaustedSticks(lib: Lib, s: Strategy, op: Op)
    requires Exhausted(s)
    ensures Exhausted(Apply(lib, s, op))
  {
    var t := Apply(lib, s, op);
    match op
    case Take(idx, data) =>
    case Attach(p) =>
    case Detach(p) =>
      P.RemovePeerRefunds(s.planner, p, 0);
      forall i: nat
        ensures t.planner.Alloc(i) == s.planner.Alloc(i)
      {
        P.RemovePeerRefunds(s.planner, p, i);
        assert !s.planner.InFlight(p, i);
      }
      hide P.RemovePeer;
      forall x: PeerId, i: nat
        ensures !t.planner.InFlight(x, i)
      {
        assert !s.planner.InFlight(x, i);
      }
      assert t.inFlight == map[];
    case Route(p, u) =>
      forall x: PeerId, i: nat
        ensures !t.planner.InFlight(x, i)
      {
        assert !s.planner.InFlight(x, i);
      }
      assert forall i: nat :: t.planner.Alloc(i) == s.planner.Alloc(i);
    case Poll => ExhaustedPoll(PollRouting(s).0, Sorted(s.attached));
    case Settle(p, h, ok) =>
  }

  /** An exhausted relay never forwards anything again, whatever it receives and whoever comes or goes. */
  lemma {:induction false} ExhaustedForever(lib: Lib, s: Strategy, ops: seq<Op>)
    requires Exhausted(s)
    ensures PollChunks(PollRouting(Run(lib, s, ops)).0).1 == []
    decreases |ops|
  {
    if ops == [] {
      ExhaustedPoll(PollRouting(s).0, Sorted(s.attached));
    } else {
      ExhaustedSticks(lib, s, ops[0]);
      hide Exhausted, Apply, PollChunks;
      ExhaustedForever(lib, Apply(lib, s, ops[0]), ops[1..]);
    }
  }

  ghost function AllocSum(q: P.Planner, m: nat): nat {
    if m == 0 then 0 else AllocSum(q, m - 1) + q.Alloc(m - 1)
  }

  lemma {:induction false} SumOfOneMore(q: P.Planner, r: P.Planner, i: nat, m: nat)
    requires forall j: nat :: r.Alloc(j) == q.Alloc(j) + if j == i then 1 else 0
    ensures AllocSum(r, m) == AllocSum(q, m) + if i < m then 1 else 0
    decreases m
  {
    if m > 0 { SumOfOneMore(q, r, i, m - 1); }
  }

  lemma {:induction false} FullSum(q: P.Planner, cap: nat, m: nat)
    requires forall i: nat :: q.Alloc(i) <= cap
    ensures AllocSum(q, m) <= m * cap
    ensures AllocSum(q, m) == m * cap ==> forall i: nat | i < m :: q.Alloc(i) == cap
    decreases m
  {
    if m > 0 {
      FullSum(q, cap, m - 1);
      assert m * cap == (m - 1) * cap + cap;
    }
  }

  /** A relay without chunks and with nothing in flight that has burned `spent` allocations. */
  ghost predicate Wasting(s: Strategy, spent: nat) {
    && s.planner.mode.Relay? && s.inFlight == map[]
    && (forall i | 0 <= i < |s.chunks| :: s.chunks[i].None?)
    && (forall x: PeerId, i: nat :: !s.planner.InFlight(x, i) && !s.planner.Has(x, i))
    && (forall i: nat :: s.planner.Alloc(i) <= s.planner.mode.cap)
    && AllocSum(s.planner, s.planner.n) == spent
  }

  /** A turn of any peer burns one more. */
  lemma WastingPoll(s: Strategy, p: PeerId, spent: nat)
    requires Wasting(s, spent) && spent < s.planner.n * s.planner.mode.cap
    ensures Wasting(PollPeer(s, p).0, spent + 1)
    ensures PollPeer(s, p).0.planner.n == s.planner.n && PollPeer(s, p).0.planner.mode == s.planner.mode
  {
    var choice := P.Choose(s.planner, p);
    if choice.None? {
      forall i: nat | i < s.planner.n
        ensures s.planner.Alloc(i) == s.planner.mode.cap
      {
        assert !s.planner.Eligible(p, i);
      }
      AtCapSum(s.planner, s.planner.mode.cap, s.planner.n);
      assert false;
    }
    var i := choice.value;
    var t := PollPeer(s, p).0;
    assert t == Burnt(s, p, i);
    forall j: nat
      ensures t.planner.Alloc(j) == s.planner.Alloc(j) + if j == i then 1 else 0
    {
    }
    SumOfOneMore(s.planner, t.planner, i, s.planner.n);
    BurntViews(s, p, i);
  }

  lemma BurntViews(s: Strategy, p: PeerId, i: nat)
    requires !s.planner.InFlight(p, i)
    ensures SameViews(s.planner, Burnt(s, p, i).planner)
  {
  }

  lemma {:induction false} AtCapSum(q: P.Planner, cap: nat, m: nat)
    requires forall i: nat | i < m :: q.Alloc(i) == cap
    ensures AllocSum(q, m) == m * cap
    decreases m
  {
    if m > 0 {
      AtCapSum(q, cap, m - 1);
      assert m * cap == (m - 1) * cap + cap;
    }
  }

  /** `k` polls of the chunk planner. */
  ghost function PollTimes(s: Strategy, k: nat): Strategy
    decreases k
  {
    if k == 0 then s else PollTimes(PollChunks(s).0, k - 1)
  }

  /** A relay without chunks that has burned at least `spent` allocations, or all there are. */
  ghost predicate Spends(s: Strategy, spent: nat) {
    Exhausted(s) || exists m | m >= spent :: Wasting(s, m)
  }

  /** A wasting relay has burned at most everything, and then it is exhausted. */
  lemma WastingBound(s: Strategy, m: nat)
    requires Wasting(s, m)
    ensures m <= s.planner.n * s.planner.mode.cap
    ensures m == s.planner.n * s.planner.mode.cap ==> Exhausted(s)
  {
    FullSum(s.planner, s.planner.mode.cap, s.planner.n);
  }

  lemma SpendingTurn(s: Strategy, p: PeerId, spent: nat)
    requires Spends(s, spent)
    ensures Spends(PollPeer(s, p).0, spent + 1)
  {
    if Exhausted(s) {
      ExhaustedTurn(s, p);
    } else {
      var m :| m >= spent && Wasting(s, m);
      hide Wasting, Exhausted, PollPeer;
      WastingBound(s, m);
      WastingPoll(s, p, m);
      assert Wasting(PollPeer(s, p).0, m + 1);
    }
  }

  lemma ExhaustedTurn(s: Strategy, p: PeerId)
    requires Exhausted(s)
    ensures Exhausted(PollPeer(s, p).0)
  {
    hide Exhausted, PollPeer;
    ExhaustedPoll(s, [p]);
    assert [p][1..] == [];
    assert PollFrom(s, [p]).0 == PollFrom(PollPeer(s, p).0, []).0;
  }

  lemma {:induction false} SpendingTurns(s: Strategy, peers: seq<PeerId>, spent: nat)
    requires Spends(s, spent)
    ensures Spends(PollFrom(s, peers).0, spent + |peers|)
    decreases |peers|
  {
    if peers != [] {
      SpendingTurn(s, peers[0], spent);
      hide Spends, PollPeer;
      SpendingTurns(PollPeer(s, peers[0]).0, peers[1..], spent + 1);
    }
  }

  /** One poll with some peer attached. */
  lemma SpendingPoll(s: Strategy, spent: nat)
    requires Spends(s, spent) && s.attached != {}
    ensures var t := PollChunks(s).0;
            && Spends(t, spent + 1) && t.attached == s.attached
            && t.planner.n == s.planner.n && t.planner.mode == s.planner.mode
  {
    hide Spends, PollFrom;
    var peers := Sorted(s.attached);
    SomePeer(s.attached);
    SpendingTurns(s, peers, spent);
    PollFromContent(s, peers);
    SpendsLess(PollFrom(s, peers).0, spent + |peers|, spent + 1);
  }

  lemma {:induction false} SpendingPolls(s: Strategy, spent: nat, k: nat)
    requires Spends(s, spent) && s.attached != {}
    ensures Spends(PollTimes(s, k), spent + k)
    ensures PollTimes(s, k).planner.n == s.planner.n && PollTimes(s, k).planner.mode == s.planner.mode
    decreases k
  {
    hide Spends, PollChunks;
    if k > 0 {
      SpendingPoll(s, spent);
      SpendingPolls(PollChunks(s).0, spent + 1, k - 1);
    }
  }

  lemma SomePeer(peers: set<PeerId>)
    requires peers != {}
    ensures Sorted(peers) != []
  {
  }

  lemma SpendsLess(s: Strategy, spent: nat, less: nat)
    requires Spends(s, spent) && less <= spent
    ensures Spends(s, less)
  {
    hide Wasting, Exhausted;
  }

  lemma OnlyOne(p: PeerId)
    ensures Sorted({p}) == [p]
  {
    assert Sorted({p})[0] in Sorted({p});
  }

  /**
   * A new relay, whatever its subscribers, that is polled n * cap times before its first chunk arrives has burned its whole
   * forward budget: it will never forward a chunk in that session.
   */
  lemma RelayStarves(lib: Lib, s: Strategy, subscribers: set<PeerId>, ops: seq<Op>)
    requires Fresh(s) && s.planner.mode.Relay? && forall i | 0 <= i < |s.chunks| :: s.chunks[i].None?
    requires subscribers != {}
    ensures var starved := PollTimes(s.(attached := subscribers), s.planner.n * s.planner.mode.cap);
            Exhausted(starved) && PollChunks(PollRouting(Run(lib, starved, ops)).0).1 == []
  {
    var a, all := s.(attached := subscribers), s.planner.n * s.planner.mode.cap;
    ZeroSum(a.planner, a.planner.n);
    assert Wasting(a, 0);
    SpendingPolls(a, 0, all);
    var t := PollTimes(a, all);
    hide Fresh, PollTimes, PollChunks, Run;
    if !Exhausted(t) {
      var m :| m >= all && Wasting(t, m);
      WastingBound(t, m);
    }
    ExhaustedForever(lib, t, ops);
  }

  lemma {:induction false} ZeroSum(q: P.Planner, m: nat)
    requires q.allocation == map[]
    ensures AllocSum(q, m) == 0
  {
    if m > 0 { ZeroSum(q, m - 1); }
  }
}
