/** An origin and its only subscriber in an engine: drains, the publication, and the first steps of a run. */
module EnginePublication {
  import opened Basics
  import opened Havelists
  import opened Coding
  import opened Strategies
  import opened Sessions
  import opened Engines
  import opened EngineSteps
  import opened EngineBase
  import opened EngineRuns
  import opened EngineSettlement
  import opened EngineOrigin
  import opened OneSubscriber
  import opened Polling
  import P = Planners
  import R = StrategyRuns

  // ---- Draining while the transport accepts ----

  /** Flights go on, nothing more is counted as sent, and the notes on peers not served stay. */
  ghost predicate Carried(s: Strategy, t: Strategy) {
    && (forall h | h in s.inFlight :: h in t.inFlight && t.inFlight[h] == s.inFlight[h])
    && t.planner.sent == s.planner.sent && t.attached == s.attached
    && (forall x: PeerId | x !in s.attached :: t.planner.PeerOf(x) == s.planner.PeerOf(x))
  }

  lemma {:induction false} PollFromNotes(s: Strategy, peers: seq<PeerId>)
    ensures var t := PollFrom(s, peers).0;
            && t.planner.sent == s.planner.sent
            && forall x: PeerId | x !in peers :: t.planner.PeerOf(x) == s.planner.PeerOf(x)
    decreases |peers|
  {
    if peers != [] {
      var t := PollPeer(s, peers[0]).0;
      assert t.planner.sent == s.planner.sent;
      assert forall x: PeerId | x != peers[0] :: t.planner.PeerOf(x) == s.planner.PeerOf(x);
      hide PollPeer, P.Planner.PeerOf;
      PollFromNotes(t, peers[1..]);
    }
  }

  lemma PollCarries(x: Session)
    requires FlightsOk(x.strategy)
    ensures var t := Poll(x).0.strategy; Carried(x.strategy, t) && FlightsOk(t) && !t.RoutingDue()
  {
    var r := PollRouting(x.strategy).0;
    PollFlights(r, Sorted(r.attached));
    PollLowersMeasure(x.strategy);
    PollFromNotes(r, Sorted(r.attached));
    PollFromEmits(r, Sorted(r.attached));
    hide PollFrom, P.Planner.PeerOf;
  }

  lemma {:induction false} DispatchesAwaited(e: Engine, key: Key, ds: seq<Dispatch>, ok: Oracle)
    requires Accepting(ok)
    ensures var f := SendDispatches(e, key, ds, ok).0;
            && (forall t | t in e.pending :: t in f.pending)
            && (forall i | 0 <= i < |ds| :: Ticket(key, ds[i].handle) in f.pending)
    decreases |ds|
  {
    if ds != [] {
      var e1 := EnsureOpen(e, key, ds[0].peer, ok).0;
      hide DoOpening;
      var e2 := DoChunking(e1, key, ds[0], true);
      DispatchesAwaited(e2, key, ds[1..], ok);
      forall i | 0 < i < |ds|
        ensures Ticket(key, ds[i].handle) in SendDispatches(e2, key, ds[1..], ok).0.pending
      {
        assert ds[i] == ds[1..][i - 1];
      }
    }
  }

  lemma WorkAwaited(e: Engine, key: Key, routing: Option<Havelist>, ds: seq<Dispatch>, ok: Oracle)
    requires Accepting(ok)
    ensures var (f, end) := SendWork(e, key, routing, ds, ok);
            && end.None? && f.sessions == e.sessions
            && (forall t | t in e.pending :: t in f.pending)
            && (forall i | 0 <= i < |ds| :: Ticket(key, ds[i].handle) in f.pending)
  {
    WorkSucceeds(e, key, routing, ds, ok);
    hide SendRouting, SendDispatches, Accepting;
    var e1 := if routing.Some? then SendRouting(e, key, Sorted(e.Subscribers(key.channel)), routing.value, ok).0 else e;
    DispatchesAwaited(e1, key, ds, ok);
  }

  /** A round whose sends are all accepted: the session is polled and every chunk of the poll is awaited. */
  lemma RoundAccepts(e: Engine, key: Key, ok: Oracle)
    requires Accepting(ok) && key in e.sessions
    ensures var (x, routing, ds) := Poll(e.sessions[key]);
            var (f, end) := DrainRound(e, key, ok);
            && f.sessions == e.sessions[key := x] && (ds != [] ==> end.None?)
            && (forall t | t in e.pending :: t in f.pending)
            && (forall i | 0 <= i < |ds| :: Ticket(key, ds[i].handle) in f.pending)
  {
    var (x, routing, ds) := Poll(e.sessions[key]);
    hide Poll, SendWork, Accepting;
    WorkAwaited(e.(sessions := e.sessions[key := x]), key, routing, ds, ok);
  }

  lemma CarriedOn(s: Strategy, t: Strategy, u: Strategy)
    requires Carried(s, t) && Carried(t, u)
    ensures Carried(s, u)
  {
    hide P.Planner.PeerOf;
  }

  lemma {:induction false} AcceptingCarries(e: Engine, key: Key, ok: Oracle)
    requires Accepting(ok) && key in e.sessions && FlightsOk(e.sessions[key].strategy)
    ensures var f := Drain(e, key, ok).0;
            && key in f.sessions && Carried(e.sessions[key].strategy, f.sessions[key].strategy)
            && FlightsOk(f.sessions[key].strategy) && !f.sessions[key].strategy.RoutingDue()
            && (forall t | t in e.pending :: t in f.pending)
    decreases Measure(e.sessions[key].strategy)
  {
    hide Accepting, Carried, FlightsOk, Poll, Strategy.RoutingDue;
    RoundAccepts(e, key, ok);
    PollCarries(e.sessions[key]);
    var (e1, end) := DrainRound(e, key, ok);
    if end.None? {
      RoundLowersMeasure(e, key, ok);
      hide DrainRound;
      AcceptingCarries(e1, key, ok);
      CarriedOn(e.sessions[key].strategy, e1.sessions[key].strategy, Drain(e1, key, ok).0.sessions[key].strategy);
    } else {
      hide DrainRound;
    }
  }

  ghost predicate HasSole(e: Engine, key: Key, p: PeerId) {
    key in e.sessions && Sole(e.sessions[key].strategy, p) && FlightsOk(e.sessions[key].strategy)
  }

  lemma SoleStays(e: Engine, key: Key, p: PeerId, ok: Oracle)
    requires HasSole(e, key, p) && Accepting(ok)
    ensures HasSole(Drain(e, key, ok).0, key, p)
    ensures Drain(e, key, ok).0.sessions[key].strategy.planner.n == e.sessions[key].strategy.planner.n
  {
    hide Drain, Accepting, Carried, FlightsOk, Full, Deliveries, Strategy.RoutingDue;
    AcceptingCarries(e, key, ok);
    DrainFrame(e, key, ok);
    var s, t := e.sessions[key], Drain(e, key, ok).0.sessions[key];
    assert SameCore(s, t);
    SoleCore(s.strategy, t.strategy, p);
  }

  lemma SoleCore(s: Strategy, t: Strategy, p: PeerId)
    requires Sole(s, p) && t.chunks == s.chunks && t.attached == s.attached
    requires t.planner.mode == s.planner.mode && t.planner.n == s.planner.n
    ensures Sole(t, p)
  {
  }

  /** A round that has a shard to send goes on, with the chunk in flight and awaited. */
  lemma SoleRound(e: Engine, key: Key, p: PeerId, ok: Oracle)
    requires HasSole(e, key, p) && Free(e.sessions[key].strategy.planner, p) != {} && Accepting(ok)
    ensures var h := e.sessions[key].strategy.nextHandle;
            var (f, end) := DrainRound(e, key, ok);
            && end.None? && key in f.sessions && FlightsOk(f.sessions[key].strategy)
            && h in InFlight(f, key) && InFlight(f, key)[h].peer == p && Ticket(key, h) in f.pending
  {
    hide Poll, Accepting, DrainRound, FlightsOk, Free, Launched, Carried, Strategy.RoutingDue;
    var x := e.sessions[key];
    SolePoll(x, p);
    PollCarries(x);
    RoundAccepts(e, key, ok);
    FirstFlight(x.strategy, Poll(x).0.strategy, p, Poll(x).2[0].idx);
  }

  /** The first chunk of a drain: in flight under the next handle, and awaited, at the end of it. */
  lemma SoleDrain(e: Engine, key: Key, p: PeerId, ok: Oracle)
    requires HasSole(e, key, p) && Free(e.sessions[key].strategy.planner, p) != {} && Accepting(ok)
    ensures var s := e.sessions[key].strategy;
            var f := Drain(e, key, ok).0;
            && HasSole(f, key, p) && Carried(s, f.sessions[key].strategy) && !f.sessions[key].strategy.RoutingDue()
            && f.sessions[key].strategy.planner.n == s.planner.n
            && s.nextHandle in InFlight(f, key) && InFlight(f, key)[s.nextHandle].peer == p
            && Ticket(key, s.nextHandle) in f.pending && (forall t | t in e.pending :: t in f.pending)
  {
    SoleStays(e, key, p, ok);
    SoleRound(e, key, p, ok);
    hide Accepting, DrainRound, Drain, Strategy.RoutingDue, FlightsOk, Free, Sole, P.Planner.PeerOf;
    AcceptingCarries(e, key, ok);
    AcceptingCarries(DrainRound(e, key, ok).0, key, ok);
    NextRound(e, key, ok);
  }

  lemma NextRound(e: Engine, key: Key, ok: Oracle)
    requires key in e.sessions && DrainRound(e, key, ok).1.None?
    ensures Drain(e, key, ok) == Drain(DrainRound(e, key, ok).0, key, ok)
  {
    hide DrainRound;
  }

  lemma FirstFlight(s: Strategy, t: Strategy, p: PeerId, i: nat)
    requires t == Launched(PollRouting(s).0, p, i)
    ensures PollRouting(s).0.nextHandle == s.nextHandle && s.nextHandle in t.inFlight
    ensures t.inFlight[s.nextHandle] == Flight(p, i)
  {
  }

  // ---- Publishing to a single subscriber ----

  /** The channel has exactly this subscriber and nothing is known of the key. */
  ghost predicate Awaiting(e: Engine, key: Key, p: PeerId) {
    && key.channel in e.channels && e.channels[key.channel].subscribers == {p}
    && key !in e.sessions && key !in e.meta && key !in e.openedTo
  }

  /** The session of the key serves the peer: its first chunk is in flight under handle 0 and awaited, none is acknowledged. */
  ghost predicate Sending(e: Engine, key: Key, p: PeerId) {
    && HasSole(e, key, p)
    && 0 in InFlight(e, key) && InFlight(e, key)[0].peer == p && Ticket(key, 0) in e.pending
    && var s := e.sessions[key].strategy;
       s.planner.sent == map[] && s.planner.n > 0 && !s.RoutingDue() && forall x: PeerId | x != p :: s.planner.PeerOf(x) == P.NO_STATE
  }

  lemma OpensOne(e: Engine, key: Key, p: PeerId, ok: Oracle)
    requires key in e.preambles && key !in e.openedTo && Accepting(ok)
    ensures OpenEach(e, key, [p], ok) == (DoOpening(e, key, p, true), true)
  {
    hide DoOpening;
    assert [p][1..] == [];
  }

  /** A new origin with its subscriber. */
  ghost predicate Newborn(s: Strategy, p: PeerId) {
    && Sole(s, p) && Free(s.planner, p) != {} && s.nextHandle == 0 && s.inFlight == map[]
    && s.planner.sent == map[] && s.planner.peers == map[] && s.planner.n > 0
  }

  lemma StartedReady(s: Strategy, p: PeerId)
    requires Started(s)
    ensures Newborn(AttachAll(s, {p}), p) && Sorted({p}) == [p]
  {
    R.OnlyOne(p);
    StartedSole(s, p);
    assert AttachAll(s, {p}) == AttachPeer(s, p);
  }

  lemma NewbornFlights(s: Strategy, p: PeerId)
    requires Newborn(s, p)
    ensures FlightsOk(s)
  {
  }

  lemma CarriedNewborn(s: Strategy, t: Strategy, p: PeerId)
    requires Newborn(s, p) && Carried(s, t)
    ensures t.planner.sent == map[] && forall x: PeerId | x != p :: t.planner.PeerOf(x) == P.NO_STATE
  {
    hide Free, Full;
  }

  /** The first drain of a new origin. */
  lemma FirstDrain(e: Engine, key: Key, p: PeerId, ok: Oracle)
    requires key in e.sessions && Newborn(e.sessions[key].strategy, p) && Accepting(ok)
    ensures Sending(Drain(e, key, ok).0, key, p)
  {
    hide Drain, Free, Full, Strategy.RoutingDue, Accepting, FlightsOk, Carried;
    NewbornFlights(e.sessions[key].strategy, p);
    SoleDrain(e, key, p, ok);
    CarriedNewborn(e.sessions[key].strategy, Drain(e, key, ok).0.sessions[key].strategy, p);
  }

  lemma PublishSends(e: Engine, key: Key, p: PeerId, s: Strategy, pre: Bytes, at: nat, ok: Oracle)
    requires Awaiting(e, key, p) && Accepting(ok) && Started(s)
    ensures var f := Publish(e, key, s, pre, at, ok);
            && Sending(f, key, p) && f.channels == e.channels && f.cfg == e.cfg && f.nextCleanup == e.nextCleanup
            && f.meta == e.meta[key := Meta(at, None)]
            && f.sessions.Keys == e.sessions.Keys + {key} && key in f.preambles
  {
    hide DoCreating, DoOpening, OpenEach, Drain, Sending, Newborn, Deliveries, SameCore, Accepting, Started;
    StartedReady(s, p);
    var x := Session(Phase.Origin, AttachAll(s, {p}));
    var e1 := DoCreating(e, key, x, pre, at);
    assert e.Subscribers(key.channel) == {p};
    CreatedAndOpened(e, key, p, x, pre, at);
    var e2 := DoOpening(e1, key, p, true);
    OpensOne(e1, key, p, ok);
    FirstDrain(e2, key, p, ok);
    DrainFrame(e2, key, ok);
  }

  lemma CreatedAndOpened(e: Engine, key: Key, p: PeerId, x: Session, pre: Bytes, at: nat)
    requires key !in e.meta && key !in e.openedTo
    ensures var e1 := DoCreating(e, key, x, pre, at);
            var e2 := DoOpening(e1, key, p, true);
            && key in e1.preambles && key !in e1.openedTo && key in e2.preambles
            && key in e2.sessions && e2.sessions[key] == x && e2.sessions.Keys == e.sessions.Keys + {key}
            && e2.channels == e.channels && e2.cfg == e.cfg && e2.nextCleanup == e.nextCleanup
            && e2.meta == e.meta[key := Meta(at, None)]
  {
  }

  // ---- The first steps of a run ----

  function Yes(i: nat): bool { true }

  function No(i: nat): bool { false }

  function At(t: nat): Ticks { Ticks(t, t, t) }

  lemma {:induction false} RunSnoc(lib: Lib, e: Engine, inputs: seq<Input>, inp: Input)
    ensures Run(lib, e, inputs + [inp]) == Step(lib, Run(lib, e, inputs), inp)
    decreases |inputs|
  {
    hide Step;
    if inputs == [] {
      assert [] + [inp] == [inp] && [inp][1..] == [];
    } else {
      assert (inputs + [inp])[1..] == inputs[1..] + [inp];
      RunSnoc(lib, Step(lib, e, inputs[0]), inputs[1..], inp);
    }
  }

  /** A new engine that hosts the channel and has nothing else. */
  ghost predicate Hosted(e: Engine, cfg: Config, now: nat, c: ChannelId, rs: RsConfig) {
    && e.cfg == cfg && e.nextCleanup == now + cfg.cleanupInterval
    && e.channels == map[c := Channel({}, rs)]
    && e.sessions == map[] && e.pending == map[] && e.meta == map[] && e.openedTo == map[] && e.tombstones == map[] && e.parked == map[]
  }

  lemma HostStep(lib: Lib, cfg: Config, now: nat, c: ChannelId, rs: RsConfig)
    ensures Hosted(Step(lib, New(cfg, now), Subscribing(c, rs, Yes)), cfg, now, c, rs)
  {
    assert Sorted({}) == [];
  }

  lemma JoinStep(lib: Lib, e: Engine, cfg: Config, now: nat, key: Key, p: PeerId, rs: RsConfig, fib: nat -> nat)
    requires Hosted(e, cfg, now, key.channel, rs) && cfg.cleanupInterval > 0
    ensures var f := Step(lib, e, Net(SubscribeIn(p, key.channel), At(now), Yes, fib));
            && Awaiting(f, key, p) && f.cfg == cfg && f.nextCleanup == now + cfg.cleanupInterval && f.meta == map[]
            && f.channels[key.channel].cfg == rs && f.tombstones == map[] && f.parked == map[] && f.sessions == map[]
  {
    var c := key.channel;
    var f := DoJoining(e, c, p);
    assert f.sessions == map[] by { assert AttachedTo(map[], c, p) == map[]; }
    assert Messages(f, c) == {};
    assert Sorted({}) == [];
    assert DrainChannel(f, c, Yes) == f;
  }

  /** The sweep that disposes the session. */
  lemma SweepStep(lib: Lib, e: Engine, key: Key, p: PeerId, at: nat, later: nat, fib: nat -> nat)
    requires key.channel in e.channels && e.channels[key.channel].subscribers == {p}
    requires e.meta == map[key := Meta(at, None)] && later > at + e.cfg.activeTtl && later >= e.nextCleanup
    ensures var f := Step(lib, e, Net(RoutingUpdateIn(p, key), At(later), Yes, fib));
            Awaiting(f, key, p) && f.cfg == e.cfg && f.meta == map[]
  {
    hide DoCleaning, ExpiredKeys;
    OnlyExpired(e, key, at, later);
    SweptOut(e, key, later);
  }

  lemma OnlyExpired(e: Engine, key: Key, at: nat, later: nat)
    requires e.meta == map[key := Meta(at, None)] && later > at + e.cfg.activeTtl
    ensures ExpiredKeys(e, later) == {key}
  {
  }

  lemma SweptOut(e: Engine, key: Key, later: nat)
    requires ExpiredKeys(e, later) == {key}
    ensures var f := DoCleaning(e, later);
            && f.channels == e.channels && f.cfg == e.cfg && f.meta == e.meta - {key}
            && key !in f.sessions && key !in f.openedTo
  {
    hide ExpiredKeys, Standing, Waiting;
  }

  lemma FiveSteps(lib: Lib, e: Engine, a: Input, b: Input, c: Input, d: Input, x: Input)
    ensures Run(lib, e, [a, b, c]) == Step(lib, Step(lib, Step(lib, e, a), b), c)
    ensures Run(lib, e, [a, b, c, d]) == Step(lib, Run(lib, e, [a, b, c]), d)
    ensures Run(lib, e, [a, b, c, d, x]) == Step(lib, Run(lib, e, [a, b, c, d]), x)
  {
    hide Step;
    assert [] + [a] == [a] && [a] + [b] == [a, b] && [a, b] + [c] == [a, b, c];
    assert [a, b, c] + [d] == [a, b, c, d] && [a, b, c, d] + [x] == [a, b, c, d, x];
    RunSnoc(lib, e, [], a);
    RunSnoc(lib, e, [a], b);
    RunSnoc(lib, e, [a, b], c);
    RunSnoc(lib, e, [a, b, c], d);
    RunSnoc(lib, e, [a, b, c, d], x);
  }

  /** Host a channel, gain a subscriber, publish to it. */
  function Publication(now: nat, key: Key, p: PeerId, s: Strategy, pre: Bytes, fib: nat -> nat): seq<Input> {
    [Subscribing(key.channel, s.cfg, Yes),
     Net(SubscribeIn(p, key.channel), At(now), Yes, fib),
     Publishing(key, s, pre, now, Yes)]
  }

  lemma {:induction false} PublicationRun(lib: Lib, cfg: Config, now: nat, key: Key, p: PeerId, s: Strategy, pre: Bytes, fib: nat -> nat)
    requires cfg.cleanupInterval > 0 && Started(s)
    ensures var e := Run(lib, New(cfg, now), Publication(now, key, p, s, pre, fib));
            && Base(e) && Sending(e, key, p) && e.cfg == cfg && e.nextCleanup == now + cfg.cleanupInterval
            && e.meta == map[key := Meta(now, None)] && e.sessions.Keys == {key} && key in e.preambles
            && key.channel in e.channels && e.channels[key.channel].subscribers == {p}
  {
    hide New, Publish, HandleEvent, Cleanup, SubscribeTo, Sending, Started, At, Base, GoodInput, Run, Step;
    var xs, e0 := Publication(now, key, p, s, pre, fib), New(cfg, now);
    PublicationIsGood(now, key, p, s, pre, fib);
    NewBase(cfg, now);
    RunBase(lib, e0, xs);
    HostStep(lib, cfg, now, key.channel, s.cfg);
    var e1 := Step(lib, e0, xs[0]);
    JoinStep(lib, e1, cfg, now, key, p, s.cfg, fib);
    hide Hosted;
    var e2 := Step(lib, e1, xs[1]);
    PublishSends(e2, key, p, s, pre, now, Yes);
    PublishIs(lib, e2, key, s, pre, now);
    FiveSteps(lib, e0, xs[0], xs[1], xs[2], xs[0], xs[0]);
  }

  lemma {:induction false} PublicationIsGood(now: nat, key: Key, p: PeerId, s: Strategy, pre: Bytes, fib: nat -> nat)
    requires Started(s)
    ensures var xs := Publication(now, key, p, s, pre, fib); GoodInputs(xs) && xs == [xs[0], xs[1], xs[2]]
  {
    hide Fresh;
  }

  lemma PublishIs(lib: Lib, e: Engine, key: Key, s: Strategy, pre: Bytes, at: nat)
    ensures Step(lib, e, Publishing(key, s, pre, at, Yes)) == Publish(e, key, s, pre, at, Yes)
  {
    hide Publish;
  }
}
