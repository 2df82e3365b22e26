/** Burned allocations: exactly when a poll burns one, and what a spent shard budget means for every run. */
module StrategySpent {
  import opened Basics
  import opened Havelists
  import opened Coding
  import opened Strategies
  import opened Polling
  import opened StrategyRuns
  import P = Planners

  // ---- When a poll burns ----

  /** For each peer in turn the planner's choice is none or a shard that is held. */
  ghost predicate HeldChoices(s: Strategy, peers: seq<PeerId>)
    decreases |peers|
  {
    peers == [] ||
    var choice := P.Choose(s.planner, peers[0]);
    (choice.None? || s.Held(choice.value)) && HeldChoices(PollPeer(s, peers[0]).0, peers[1..])
  }

  lemma PollPeerBurns(s: Strategy, p: PeerId, i: nat)
    ensures PollPeer(s, p).0.Burned(i)
         == s.Burned(i) + if P.Choose(s.planner, p) == Some(i) && !s.Held(i) then 1 else 0
  {
    hide P.Choose, P.Assigned, P.CancelInFlight;
  }

  lemma {:induction false} BurnsGrow(s: Strategy, peers: seq<PeerId>, i: nat)
    ensures s.Burned(i) <= PollFrom(s, peers).0.Burned(i)
    decreases |peers|
  {
    if peers != [] {
      PollPeerBurns(s, peers[0], i);
      hide PollPeer;
      BurnsGrow(PollPeer(s, peers[0]).0, peers[1..], i);
    }
  }

  ghost predicate SameBurns(s: Strategy, t: Strategy) {
    forall i: nat :: t.Burned(i) == s.Burned(i)
  }

  /** A poll burns no allocation if and only if, for each peer in turn, the planner chooses none or a held shard. */
  lemma {:induction false} PollBurnsNothingIff(s: Strategy, peers: seq<PeerId>)
    ensures SameBurns(s, PollFrom(s, peers).0) <==> HeldChoices(s, peers)
    decreases |peers|
  {
    if peers != [] {
      var choice := P.Choose(s.planner, peers[0]);
      var t := PollPeer(s, peers[0]).0;
      PollBurnsNothingIff(t, peers[1..]);
      forall i: nat
        ensures t.Burned(i) == s.Burned(i) + if choice == Some(i) && !s.Held(i) then 1 else 0
      {
        PollPeerBurns(s, peers[0], i);
      }
      if choice.Some? && !s.Held(choice.value) {
        BurnsGrow(t, peers[1..], choice.value);
      }
      hide PollPeer, P.Choose;
    }
  }

  // ---- A spent shard ----

  /** The relay has sent or burned the shard as often as its cap allows. */
  ghost predicate Spent(s: Strategy, i: nat) {
    s.planner.mode.Relay? && s.planner.Sent(i) + s.Burned(i) >= s.planner.mode.cap
  }

  /** No allocation of a spent shard is outstanding, and none is possible. */
  lemma SpentIsIneligible(s: Strategy, p: PeerId, i: nat)
    requires Inv(s) && Spent(s, i)
    ensures !s.planner.Eligible(p, i)
  {
    assert Balanced(s);
  }

  lemma SpentPollPeer(s: Strategy, p: PeerId, i: nat)
    requires Inv(s) && Spent(s, i)
    ensures Spent(PollPeer(s, p).0, i)
    ensures PollPeer(s, p).1.Some? ==> PollPeer(s, p).1.value.idx != i
  {
    SpentIsIneligible(s, p, i);
    PollPeerBurns(s, p, i);
    var choice := P.Choose(s.planner, p);
    assert choice.Some? ==> s.planner.Eligible(p, choice.value);
    hide Inv, P.Choose, P.Planner.Eligible;
  }

  lemma {:induction false} SpentPoll(s: Strategy, peers: seq<PeerId>, i: nat)
    requires Inv(s) && Spent(s, i) && forall p | p in peers :: p in s.attached
    ensures Spent(PollFrom(s, peers).0, i)
    ensures forall d | d in PollFrom(s, peers).1 :: d.idx != i
    decreases |peers|
  {
    if peers != [] {
      SpentPollPeer(s, peers[0], i);
      PollPeerInv(s, peers[0]);
      PollFromContent(s, [peers[0]]);
      var (t, d) := PollPeer(s, peers[0]);
      assert t.attached == s.attached;
      hide PollPeer, Inv, Spent;
      SpentPoll(t, peers[1..], i);
    }
  }

  lemma SpentApply(lib: Lib, s: Strategy, op: Op, i: nat)
    requires Inv(s) && Spent(s, i)
    ensures Spent(Apply(lib, s, op), i)
  {
    match op
    case Take(idx, data) =>
    case Attach(p) =>
    case Detach(p) => P.RemovePeerRefunds(s.planner, p, i);
    case Route(p, u) =>
    case Poll =>
      PollRoutingInv(s);
      var r := PollRouting(s).0;
      assert Spent(r, i);
      hide PollFrom, Inv;
      SpentPoll(r, Sorted(r.attached), i);
    case Settle(p, h, ok) => if h in s.inFlight { SpentSettle(s, p, h, ok, i); }
  }

  lemma SpentSettle(s: Strategy, p: PeerId, h: Handle, ok: bool, i: nat)
    requires Spent(s, i)
    ensures Spent(ChunkSent(s, p, h, ok), i)
  {
  }

  /** Once its sends and burned allocations reach the cap, a shard is never dispatched again, on any run. */
  lemma {:induction false} SpentForever(lib: Lib, s: Strategy, ops: seq<Op>, i: nat)
    requires Inv(s) && EchoRun(lib, s, ops) && Spent(s, i)
    ensures Spent(Run(lib, s, ops), i)
    ensures forall d | d in PollChunks(PollRouting(Run(lib, s, ops)).0).1 :: d.idx != i
    decreases |ops|
  {
    if ops == [] {
      PollRoutingInv(s);
      var r := PollRouting(s).0;
      assert Spent(r, i);
      hide Inv, PollFrom;
      SpentPoll(r, Sorted(r.attached), i);
    } else {
      ApplyInv(lib, s, ops[0]);
      SpentApply(lib, s, ops[0], i);
      hide Inv, Apply, Spent, PollChunks, Echoes;
      SpentForever(lib, Apply(lib, s, ops[0]), ops[1..], i);
    }
  }
}
