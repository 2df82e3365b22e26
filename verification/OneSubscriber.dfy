/** An origin as its constructor makes it, with one attached peer. The witness runs are built from it. */
module OneSubscriber {
  import opened Basics
  import opened Havelists
  import opened Coding
  import opened Strategies
  import opened Sessions
  import opened Polling
  import R = StrategyRuns
  import P = Planners

  /** What the constructor of an origin returns. */
  ghost predicate Started(s: Strategy) {
    Fresh(s) && s.planner.mode.Origin? && Full(s) && s.nextHandle == 0 && s.planner.n > 0
  }

  /** The libraries work and the constructor accepts the payload. */
  ghost predicate Builds(lib: Lib, payload: Bytes, rs: RsConfig, fib: nat -> nat) {
    && (rs.chunkLen > 0 || rs.dataShards > 0)
    && HashIsFixedLength(lib) && RecoversFromAnyK(lib)
    && NewOrigin(lib, payload, rs, fib).Ok?
  }

  /** The origin strategy for the payload. */
  ghost function Built(lib: Lib, payload: Bytes, rs: RsConfig, fib: nat -> nat): Strategy
    requires Builds(lib, payload, rs, fib)
  {
    NewOrigin(lib, payload, rs, fib).value
  }

  lemma BuiltIsStarted(lib: Lib, payload: Bytes, rs: RsConfig, fib: nat -> nat)
    requires Builds(lib, payload, rs, fib)
    ensures Started(Built(lib, payload, rs, fib))
  {
    NewOriginFresh(lib, payload, rs, fib);
    ShapeFits(|payload|, rs);
    var s := Built(lib, payload, rs, fib);
    assert |s.chunks| > 0 by { CodewordIsLonger(lib, payload, ResolveShape(|payload|, rs)); }
    hide Encode;
  }

  lemma CodewordIsLonger(lib: Lib, payload: Bytes, s: Shape)
    ensures |Codeword(lib, s.data, s.parity, Split(payload, s.len, s.data))| >= s.data
  {
  }

  // ---- One poll ----

  /** An origin that holds every shard and serves one peer. */
  ghost predicate Sole(s: Strategy, p: PeerId) {
    s.planner.mode.Origin? && |s.chunks| == s.planner.n && Full(s) && s.attached == {p}
  }

  lemma StartedSole(s: Strategy, p: PeerId)
    requires Started(s)
    ensures Sole(AttachPeer(s, p), p) && Free(AttachPeer(s, p).planner, p) != {}
  {
    assert 0 in Free(AttachPeer(s, p).planner, p);
  }

  lemma OnePeerPolled(s: Strategy, p: PeerId)
    requires s.attached == {p}
    ensures PollChunks(s) == (PollPeer(s, p).0, if PollPeer(s, p).1.Some? then [PollPeer(s, p).1.value] else [])
  {
    R.OnlyOne(p);
    hide PollPeer;
    var (t, d) := PollPeer(s, p);
    assert [p][1..] == [] && PollFrom(t, []) == (t, []);
    assert PollFrom(s, [p]) == (t, if d.Some? then [d.value] + [] else []);
    assert d.Some? ==> [d.value] + [] == [d.value];
  }

  /** A poll sends the peer one shard that it neither has nor is being sent, under the next handle. */
  lemma SolePoll(x: Session, p: PeerId)
    requires Sole(x.strategy, p) && Free(x.strategy.planner, p) != {}
    ensures var (r, update) := PollRouting(x.strategy);
            var (y, routing, ds) := Poll(x);
            && routing == update && y.phase == x.phase
            && |ds| == 1 && ds[0].peer == p && ds[0].handle == r.nextHandle && ds[0].idx in Free(r.planner, p)
            && y.strategy == Launched(r, p, ds[0].idx)
  {
    var r := PollRouting(x.strategy).0;
    FreeIsChosen(r, p);
    OnePeerPolled(r, p);
    ChosenIsLaunched(r, p);
    hide PollPeer, Free;
  }

  lemma ChosenIsLaunched(s: Strategy, p: PeerId)
    requires Sole(s, p) && PollPeer(s, p).1.Some?
    ensures var (t, d) := PollPeer(s, p);
            && d.value.peer == p && d.value.handle == s.nextHandle && d.value.idx in Free(s.planner, p)
            && t == Launched(s, p, d.value.idx)
  {
  }

  // ---- A havelist that is too small ----

  lemma RunCons(lib: Lib, s: Strategy, op: R.Op, rest: seq<R.Op>)
    ensures R.Run(lib, s, [op] + rest) == R.Run(lib, R.Apply(lib, s, op), rest)
    ensures R.EchoRun(lib, s, [op] + rest) <==> R.Echoes(s, op) && R.EchoRun(lib, R.Apply(lib, s, op), rest)
  {
    hide R.Apply, R.Echoes;
    assert ([op] + rest)[1..] == rest;
  }

  lemma FourOps(lib: Lib, s: Strategy, a: R.Op, b: R.Op, c: R.Op, d: R.Op)
    requires !a.Settle? && !b.Settle? && !c.Settle?
    ensures var s3 := R.Apply(lib, R.Apply(lib, R.Apply(lib, s, a), b), c);
            && R.Run(lib, s, [a, b, c, d]) == R.Apply(lib, s3, d)
            && (R.Echoes(s3, d) ==> R.EchoRun(lib, s, [a, b, c, d]))
  {
    hide R.Apply;
    var s1 := R.Apply(lib, s, a);
    var s2 := R.Apply(lib, s1, b);
    assert [a] + [b, c, d] == [a, b, c, d] && [b] + [c, d] == [b, c, d] && [c] + [d] == [c, d] && [d] + [] == [d];
    RunCons(lib, s, a, [b, c, d]);
    RunCons(lib, s1, b, [c, d]);
    RunCons(lib, s2, c, [d]);
    RunCons(lib, R.Apply(lib, s2, c), d, []);
  }

  /** An origin whose peer announced a havelist of size 0. */
  ghost predicate Misled(s: Strategy, p: PeerId) {
    Sole(s, p) && s.planner.PeerOf(p).have == Some(Havelist(0, {}))
  }

  lemma StartedMisled(s: Strategy, p: PeerId)
    requires Started(s)
    ensures var t := RoutingUpdate(AttachPeer(s, p), p, Havelist(0, {})).0;
            && Misled(t, p) && Free(t.planner, p) != {} && t.nextHandle == 0 && t.inFlight == map[]
            && t.planner.sent == map[] && t.planner.n == s.planner.n
  {
    assert 0 in Free(RoutingUpdate(AttachPeer(s, p), p, Havelist(0, {})).0.planner, p);
  }

  lemma MisledPoll(s: Strategy, p: PeerId) returns (i: nat)
    requires Misled(s, p) && Free(s.planner, p) != {} && s.nextHandle == 0 && s.inFlight == map[] && s.planner.sent == map[]
    ensures var t := Polled(s);
            && Misled(t, p) && t.inFlight == map[0 := Flight(p, i)] && t.planner.sent == map[] && i < t.planner.n
            && t.planner.n == s.planner.n
  {
    SolePoll(Session(Phase.Origin, s), p);
    i := Poll(Session(Phase.Origin, s)).2[0].idx;
    hide PollChunks;
  }

  /** The acknowledgement is not remembered. */
  lemma MisledAck(s: Strategy, p: PeerId, i: nat)
    requires Misled(s, p) && s.inFlight == map[0 := Flight(p, i)] && s.planner.sent == map[] && i < s.planner.n
    ensures var t := ChunkSent(s, p, 0, true);
            && Sole(t, p) && t.planner.Sent(i) == 1 && i in Free(t.planner, p) && t.planner.n == s.planner.n
  {
  }

  lemma {:induction false} BoundedCard(a: set<nat>, n: nat)
    requires forall i | i in a :: i < n
    ensures |a| <= n
    decreases n
  {
    if n == 0 {
      assert a == {};
    } else {
      BoundedCard(a - {n - 1}, n - 1);
      assert |a| <= |a - {n - 1}| + 1;
    }
  }

  /** The acknowledged shard goes out again within n polls. */
  lemma MisledResends(s: Strategy, p: PeerId, i: nat) returns (k: nat)
    requires Misled(s, p) && s.inFlight == map[0 := Flight(p, i)] && s.planner.sent == map[] && i < s.planner.n
    ensures var t := ChunkSent(s, p, 0, true);
            p in t.attached && t.planner.Sent(i) == 1 && k < s.planner.n && Sends(DispatchesOf(t, k), p, i)
  {
    MisledAck(s, p, i);
    var t := ChunkSent(s, p, 0, true);
    hide ChunkSent, DispatchesOf, Sends;
    BoundedCard(Free(t.planner, p), t.planner.n);
    hide Free;
    FreeShardIsSent(t, p, i);
    k :| 0 <= k < |Free(t.planner, p)| && Sends(DispatchesOf(t, k), p, i);
  }

  lemma StartedResends(s: Strategy, p: PeerId) returns (i: nat, k: nat)
    requires Started(s)
    ensures var s3 := Polled(RoutingUpdate(AttachPeer(s, p), p, Havelist(0, {})).0);
            var s4 := ChunkSent(s3, p, 0, true);
            && 0 in s3.inFlight && s3.inFlight[0].peer == p
            && p in s4.attached && s4.planner.Sent(i) == 1 && k < s.planner.n && Sends(DispatchesOf(s4, k), p, i)
  {
    StartedMisled(s, p);
    hide Started, Polled, DispatchesOf, ChunkSent, RoutingUpdate, AttachPeer, Free, Misled, Sends;
    var s2 := RoutingUpdate(AttachPeer(s, p), p, Havelist(0, {})).0;
    i := MisledPoll(s2, p);
    k := MisledResends(Polled(s2), p, i);
  }

  /** The peer attaches, announces a havelist of size 0, is sent a shard and acknowledges it. */
  function Misleading(p: PeerId): seq<R.Op> {
    [R.Attach(p), R.Route(p, Havelist(0, {})), R.Poll, R.Settle(p, 0, true)]
  }

  lemma {:induction false} MisleadingRun(lib: Lib, s: Strategy, p: PeerId)
    ensures var s3 := Polled(RoutingUpdate(AttachPeer(s, p), p, Havelist(0, {})).0);
            && R.Run(lib, s, Misleading(p)) == ChunkSent(s3, p, 0, true)
            && (0 in s3.inFlight && s3.inFlight[0].peer == p ==> R.EchoRun(lib, s, Misleading(p)))
  {
    hide Polled, ChunkSent, RoutingUpdate, AttachPeer, R.Run, R.EchoRun;
    FourOps(lib, s, R.Attach(p), R.Route(p, Havelist(0, {})), R.Poll, R.Settle(p, 0, true));
  }

  /**
   * A first routing update that is too small, here of size 0, makes an origin send a shard again that the peer has
   * acknowledged: a run from the strategy that its constructor makes for the payload, and one of the n polls after it.
   */
  lemma {:induction false} TooSmallHavelistResends(lib: Lib, payload: Bytes, rs: RsConfig, fib: nat -> nat, p: PeerId)
    returns (i: nat, k: nat)
    requires Builds(lib, payload, rs, fib)
    ensures var s0 := Built(lib, payload, rs, fib);
            var s := R.Run(lib, s0, Misleading(p));
            && R.EchoRun(lib, s0, Misleading(p))
            && p in s.attached && s.planner.Sent(i) == 1
            && k < s0.planner.n && Sends(DispatchesOf(s, k), p, i)
  {
    hide *;
    var s0 := Built(lib, payload, rs, fib);
    BuiltIsStarted(lib, payload, rs, fib);
    i, k := StartedResends(s0, p);
    MisleadingRun(lib, s0, p);
  }
}
