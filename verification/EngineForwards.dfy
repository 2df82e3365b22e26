/** A relay in an engine forwards what it holds: a run from a new engine. */
module EngineForwards {
  import opened Basics
  import opened Havelists
  import opened Coding
  import opened Strategies
  import opened Sessions
  import opened Engines
  import opened EngineSteps
  import opened EngineBase
  import opened EngineRuns
  import opened EngineOrigin
  import opened EngineJoins
  import opened EnginePublication
  import opened EngineWitness
  import opened Forwarding
  import P = Planners
  import R = StrategyRuns

  /** A relay strategy that nobody is attached to and that has planned nothing. */
  ghost predicate Idling(s: Strategy, pre: Preamble, cap: nat, fib: nat -> nat) {
    && s.preamble == pre && pre.Total() >= 0 && s.planner == P.New(pre.Total(), fib, P.Relay(cap)) && |s.chunks| == pre.Total()
    && s.attached == {} && s.inFlight == map[] && s.nextHandle == 0
  }

  /** The engine has just this session, on a channel without subscribers. */
  ghost predicate Lone(e: Engine, key: Key, now: nat, pre: Preamble, cap: nat, fib: nat -> nat) {
    && e.sessions.Keys == {key} && Idling(e.sessions[key].strategy, pre, cap, fib)
    && key.channel in e.channels && e.channels[key.channel].subscribers == {}
    && key !in e.tombstones && now < e.nextCleanup
  }

  ghost predicate NothingHeld(s: Strategy) {
    forall i | 0 <= i < |s.chunks| :: s.chunks[i].None?
  }

  lemma MadeIdling(lib: Lib, e: Engine, key: Key, bytes: Bytes, pre: Preamble, fib: nat -> nat) returns (s: Strategy)
    requires key.channel in e.channels && e.channels[key.channel].subscribers == {}
    requires lib.parse(bytes) == Some(pre) && WellShaped(pre)
    ensures RelayStrategy(lib, e, key, bytes, fib) == Some(s) && NothingHeld(s)
    ensures Idling(s, pre, e.channels[key.channel].cfg.forwardMultiplier, fib)
  {
    var t := NewRelay(pre, e.channels[key.channel].cfg, fib).value;
    assert t.attached + {} == t.attached;
    s := AttachAll(t, {});
  }

  /** Noting a routing update as made leaves the relay idling. */
  lemma NotedIdling(s: Strategy, pre: Preamble, cap: nat, fib: nat -> nat)
    requires Idling(s, pre, cap, fib)
    ensures var t := PollRouting(s).0; Idling(t, pre, cap, fib) && t.chunks == s.chunks && !t.RoutingDue()
  {
  }

  lemma OpenStep(lib: Lib, e: Engine, cfg: Config, now: nat, key: Key, q: PeerId, bytes: Bytes, pre: Preamble, rs: RsConfig,
                 fib: nat -> nat)
    requires Hosted(e, cfg, now, key.channel, rs) && cfg.cleanupInterval > 0
    requires lib.parse(bytes) == Some(pre) && WellShaped(pre)
    ensures var f := Step(lib, e, Net(SessionOpenIn(q, key, bytes), At(now), Yes, fib));
            && Lone(f, key, now, pre, rs.forwardMultiplier, fib)
            && f.sessions[key].phase.Consuming? && NothingHeld(f.sessions[key].strategy)
  {
    hide WellShaped, RelayStrategy, PollRouting, Idling, NothingHeld, Drain;
    var s := MadeIdling(lib, e, key, bytes, pre, fib);
    var e1 := DoCreating(e, key, Session(Consuming, s), bytes, now);
    NotedIdling(s, pre, rs.forwardMultiplier, fib);
    IdlingMeans(s, pre, rs.forwardMultiplier, fib);
    SameNothing(s, PollRouting(s).0);
    UnservedDrain(e1, key, Consuming, s);
    OpenedBare(lib, e, key, bytes, s, now, fib);
    OpenCleans(lib, e, now, q, key, bytes, fib);
  }

  /** Nothing is parked, so an accepted open creates the session and drains it. */
  lemma OpenedBare(lib: Lib, e: Engine, key: Key, bytes: Bytes, s: Strategy, now: nat, fib: nat -> nat)
    requires key !in e.sessions && key !in e.tombstones && e.parked == map[]
    requires RelayStrategy(lib, e, key, bytes, fib) == Some(s)
    ensures OnOpen(lib, e, key, bytes, At(now), Yes, fib) == Drain(DoCreating(e, key, Session(Consuming, s), bytes, now), key, Yes).0
  {
    var e1 := DoCreating(e, key, Session(Consuming, s), bytes, now);
    assert e1.parked == map[];
    hide RelayStrategy, Drain, DoCreating, Deliveries, SameCores;
    DrainFrame(e1, key, Yes);
  }

  lemma OpenCleans(lib: Lib, e: Engine, now: nat, q: PeerId, key: Key, bytes: Bytes, fib: nat -> nat)
    requires now < OnOpen(lib, e, key, bytes, At(now), Yes, fib).nextCleanup
    ensures Step(lib, e, Net(SessionOpenIn(q, key, bytes), At(now), Yes, fib)) == OnOpen(lib, e, key, bytes, At(now), Yes, fib)
  {
    hide OnOpen;
  }

  lemma IdlingMeans(s: Strategy, pre: Preamble, cap: nat, fib: nat -> nat)
    requires Idling(s, pre, cap, fib)
    ensures s.attached == {} && s.preamble == pre && |s.chunks| == pre.Total()
  {
  }

  lemma SameNothing(s: Strategy, t: Strategy)
    requires NothingHeld(s) && t.chunks == s.chunks
    ensures NothingHeld(t)
  {
  }

  /** The relay accepts the chunk. */
  lemma TakesChunk(lib: Lib, x: Session, pre: Preamble, cap: nat, fib: nat -> nat, i: nat, data: Bytes)
    requires x.phase.Consuming? && Idling(x.strategy, pre, cap, fib) && NothingHeld(x.strategy) && WellShaped(pre)
    requires i < pre.Total() && lib.sha(data) == pre.hashes[i]
    ensures var y := Take(lib, x, i, data).0;
            Idling(y.strategy, pre, cap, fib) && y.strategy.chunks == x.strategy.chunks[i := Some(data)]
  {
  }

  lemma DeliverKeepsStrategy(lib: Lib, e: Engine, key: Key, at: nat, ok: Oracle)
    requires key in e.sessions
    ensures var f := Deliver(lib, e, key, at, ok);
            && f.sessions.Keys == e.sessions.Keys && f.sessions[key].strategy == e.sessions[key].strategy
            && f.channels == e.channels && f.tombstones == e.tombstones && f.nextCleanup == e.nextCleanup
  {
    hide DecodeAndFinish, DoFinishing;
    FinishingSteady(lib, e, key, at);
  }

  lemma FinishingSteady(lib: Lib, e: Engine, key: Key, at: nat)
    requires key in e.sessions
    ensures var f := DoFinishing(lib, e, key, at);
            && f.sessions.Keys == e.sessions.Keys && f.sessions[key].strategy == e.sessions[key].strategy
            && f.channels == e.channels && f.tombstones == e.tombstones && f.nextCleanup == e.nextCleanup
  {
    FinishKeepsStrategy(lib, e.sessions[key]);
    hide DecodeAndFinish, Stamped, Ending;
  }

  lemma FinishKeepsStrategy(lib: Lib, s: Session)
    ensures DecodeAndFinish(lib, s).0.strategy == s.strategy
  {
    hide Reconstruct;
  }

  /** A chunk that the relay takes, up to its drain. */
  lemma TakenLone(lib: Lib, e: Engine, now: nat, key: Key, pre: Preamble, cap: nat, fib: nat -> nat, i: nat, data: Bytes)
    requires Lone(e, key, now, pre, cap, fib) && WellShaped(pre) && i < pre.Total() && lib.sha(data) == pre.hashes[i]
    requires e.sessions[key].phase.Consuming? && NothingHeld(e.sessions[key].strategy)
    ensures var f := Drain(DoTaking(lib, e, key, i, data), key, Yes).0;
            && Lone(f, key, now, pre, cap, fib)
            && i < |f.sessions[key].strategy.chunks| && f.sessions[key].strategy.chunks[i] == Some(data)
            && !f.sessions[key].strategy.RoutingDue()
  {
    var y := Take(lib, e.sessions[key], i, data).0;
    TakesChunk(lib, e.sessions[key], pre, cap, fib, i, data);
    hide WellShaped, PollRouting, Idling, NothingHeld, Drain, Take, Strategy.RoutingDue;
    NotedIdling(y.strategy, pre, cap, fib);
    IdlingMeans(e.sessions[key].strategy, pre, cap, fib);
    IdlingMeans(y.strategy, pre, cap, fib);
    var e1 := DoTaking(lib, e, key, i, data);
    assert e1.sessions[key] == y && e1.sessions.Keys == {key};
    UnservedDrain(e1, key, y.phase, y.strategy);
  }

  lemma ChunkStep(lib: Lib, e: Engine, now: nat, key: Key, q: PeerId, pre: Preamble, cap: nat, fib: nat -> nat, i: nat, data: Bytes)
    requires Lone(e, key, now, pre, cap, fib) && WellShaped(pre) && i < pre.Total() && lib.sha(data) == pre.hashes[i]
    requires e.sessions[key].phase.Consuming? && NothingHeld(e.sessions[key].strategy)
    ensures var f := Step(lib, e, Net(ChunkIn(q, key, i, data), At(now), Yes, fib));
            && Lone(f, key, now, pre, cap, fib)
            && i < |f.sessions[key].strategy.chunks| && f.sessions[key].strategy.chunks[i] == Some(data)
            && !f.sessions[key].strategy.RoutingDue()
  {
    hide WellShaped, Idling, NothingHeld, Drain, DoTaking, Deliver, Completes, Strategy.RoutingDue;
    TakenLone(lib, e, now, key, pre, cap, fib, i, data);
    var e2 := Drain(DoTaking(lib, e, key, i, data), key, Yes).0;
    DeliverKeepsStrategy(lib, e2, key, now, Yes);
  }

  /** The shard comes before every other one in the tie-break order. */
  ghost predicate First(fib: nat -> nat, n: nat, i: nat) {
    i < n && forall j: nat | j < n && j != i :: fib(i) < fib(j) || (fib(i) == fib(j) && i < j)
  }

  lemma {:induction false} SentToMember(ds: seq<Dispatch>, p: PeerId, d: Dispatch)
    requires d in SentTo(ds, p)
    ensures d in ds
    decreases |ds|
  {
    if !(ds[0].peer == p && d == ds[0]) { SentToMember(ds[1..], p, d); }
  }

  /** The poll after the first peer attached: the held shard that comes first goes to it. */
  lemma FirstPoll(x: Session, p: PeerId, pre: Preamble, cap: nat, fib: nat -> nat, i: nat, data: Bytes)
    requires Idling(x.strategy, pre, cap, fib) && !x.strategy.RoutingDue() && cap > 0 && First(fib, pre.Total(), i)
    requires i < |x.strategy.chunks| && x.strategy.chunks[i] == Some(data)
    ensures Dispatch(p, i, 0, data) in Poll(x.(strategy := AttachPeer(x.strategy, p))).2
  {
    var s := AttachPeer(x.strategy, p);
    assert s.planner.IsBest(p, i) && s.Held(i);
    assert PollRouting(s) == (s, None);
    R.OnlyOne(p);
    assert Sorted(s.attached) == [p] by { assert s.attached == {p}; }
    assert PollFrom(s, [p][..0]).0 == s by { assert [p][..0] == []; }
    TurnServes(s, [p], 0);
    var out := SentTo(PollFrom(s, [p]).1, p);
    assert out == [Dispatch(p, i, 0, data)];
    SentToMember(PollFrom(s, [p]).1, p, out[0]);
    hide PollFrom;
  }

  lemma JoinStepForwards(lib: Lib, e: Engine, now: nat, key: Key, p: PeerId, pre: Preamble, cap: nat, fib: nat -> nat, i: nat,
                         data: Bytes)
    requires Base(e) && Lone(e, key, now, pre, cap, fib) && cap > 0 && First(fib, pre.Total(), i)
    requires i < |e.sessions[key].strategy.chunks| && e.sessions[key].strategy.chunks[i] == Some(data)
    requires !e.sessions[key].strategy.RoutingDue()
    ensures Sent(Chunk(p, key, i, data, 0), true)
         in Step(lib, e, Net(SubscribeIn(p, key.channel), At(now), Yes, fib)).log
  {
    var g := DoJoining(e, key.channel, p);
    FirstPoll(e.sessions[key], p, pre, cap, fib, i, data);
    assert key in g.sessions && g.sessions[key] == e.sessions[key].(strategy := AttachPeer(e.sessions[key].strategy, p));
    hide Base, Step, Drain, DoJoining, Poll, Idling, First, AttachPeer, Strategy.RoutingDue;
    JoiningBase(e, key.channel, p);
    DrainSendsPoll(lib, g, key, Yes, Dispatch(p, i, 0, data));
    JoinDrains(lib, e, now, key, p, Yes, fib);
  }

  /** Host a channel, open a session, receive a chunk of it, gain a subscriber. */
  function Forwarded(now: nat, key: Key, p: PeerId, q: PeerId, bytes: Bytes, rs: RsConfig, i: nat, data: Bytes, fib: nat -> nat)
    : seq<Input>
  {
    [Subscribing(key.channel, rs, Yes),
     Net(SessionOpenIn(q, key, bytes), At(now), Yes, fib),
     Net(ChunkIn(q, key, i, data), At(now), Yes, fib),
     Net(SubscribeIn(p, key.channel), At(now), Yes, fib)]
  }

  lemma {:induction false} ForwardedIs(now: nat, key: Key, p: PeerId, q: PeerId, bytes: Bytes, rs: RsConfig, i: nat,
                                       data: Bytes, fib: nat -> nat)
    ensures var xs := Forwarded(now, key, p, q, bytes, rs, i, data, fib);
            && GoodInputs(xs) && GoodInputs([xs[0], xs[1], xs[2]]) && xs == [xs[0], xs[1], xs[2], xs[3]]
  {
  }

  /**
   * A run from a new engine in which a relay forwards: it hosts a channel, an open with a valid preamble arrives, then a valid
   * chunk of the shard that comes first in the planner's order, then a subscriber. With a transport that accepts every send
   * the log holds that chunk to the subscriber.
   */
  lemma {:induction false} RelayForwards(lib: Lib, cfg: Config, now: nat, key: Key, p: PeerId, q: PeerId, bytes: Bytes, pre: Preamble,
                                         rs: RsConfig, i: nat, data: Bytes, fib: nat -> nat)
    requires cfg.cleanupInterval > 0 && rs.forwardMultiplier > 0 && lib.parse(bytes) == Some(pre) && WellShaped(pre)
    requires First(fib, pre.Total(), i) && lib.sha(data) == pre.hashes[i]
    ensures var xs := Forwarded(now, key, p, q, bytes, rs, i, data, fib);
            Sent(Chunk(p, key, i, data, 0), true) in Run(lib, New(cfg, now), xs).log
  {
    var n := pre.Total();
    assert i < n;
    hide *;
    var xs, e0 := Forwarded(now, key, p, q, bytes, rs, i, data, fib), New(cfg, now);
    ForwardedIs(now, key, p, q, bytes, rs, i, data, fib);
    ForwardedAt(now, key, p, q, bytes, rs, i, data, fib);
    HostStep(lib, cfg, now, key.channel, rs);
    var e1 := Step(lib, e0, xs[0]);
    OpenStep(lib, e1, cfg, now, key, q, bytes, pre, rs, fib);
    var e2 := Step(lib, e1, xs[1]);
    LoneHas(e2, key, now, pre, rs.forwardMultiplier, fib);
    ChunkStep(lib, e2, now, key, q, pre, rs.forwardMultiplier, fib, i, data);
    var e3 := Step(lib, e2, xs[2]);
    LoneHas(e3, key, now, pre, rs.forwardMultiplier, fib);
    FiveSteps(lib, e0, xs[0], xs[1], xs[2], xs[3], xs[3]);
    NewBase(cfg, now);
    RunBase(lib, e0, [xs[0], xs[1], xs[2]]);
    JoinStepForwards(lib, e3, now, key, p, pre, rs.forwardMultiplier, fib, i, data);
  }

  lemma {:induction false} ForwardedAt(now: nat, key: Key, p: PeerId, q: PeerId, bytes: Bytes, rs: RsConfig, i: nat,
                                       data: Bytes, fib: nat -> nat)
    ensures var xs := Forwarded(now, key, p, q, bytes, rs, i, data, fib);
            && |xs| == 4
            && xs[0] == Subscribing(key.channel, rs, Yes)
            && xs[1] == Net(SessionOpenIn(q, key, bytes), At(now), Yes, fib)
            && xs[2] == Net(ChunkIn(q, key, i, data), At(now), Yes, fib)
            && xs[3] == Net(SubscribeIn(p, key.channel), At(now), Yes, fib)
  {
  }

  lemma LoneHas(e: Engine, key: Key, now: nat, pre: Preamble, cap: nat, fib: nat -> nat)
    requires Lone(e, key, now, pre, cap, fib)
    ensures key in e.sessions
  {
  }
}
