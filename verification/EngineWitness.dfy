/** Runs from a new engine that reach the corner cases: late outcomes that drain or cross lives, and a stranded chunk. */
module EngineWitness {
  import opened Basics
  import opened Havelists
  import opened Coding
  import opened Strategies
  import opened Sessions
  import opened Engines
  import opened EngineSteps
  import opened EngineBase
  import opened EngineRuns
  import opened EngineSettlement
  import opened EngineScript
  import opened EngineResults
  import opened EngineOrigin
  import opened OneSubscriber
  import opened EnginePublication
  import opened Polling
  import P = Planners

  // ---- An outcome that crosses lives ----

  ghost function SentCounts(e: Engine, key: Key): map<nat, nat>
    requires key in e.sessions
  {
    e.sessions[key].strategy.planner.sent
  }

  lemma ChunkCounts(e: Engine, key: Key, d: Dispatch, sent: bool)
    requires key in e.sessions
    ensures var f := DoChunking(e, key, d, sent); key in f.sessions && SentCounts(f, key) == SentCounts(e, key)
  {
  }

  lemma {:induction false} DispatchesCount(e: Engine, key: Key, ds: seq<Dispatch>, ok: Oracle)
    requires key in e.sessions
    ensures var f := SendDispatches(e, key, ds, ok).0; key in f.sessions && SentCounts(f, key) == SentCounts(e, key)
    decreases |ds|
  {
    if ds != [] {
      var (e1, isOpen) := EnsureOpen(e, key, ds[0].peer, ok);
      hide EnsureOpen, DoChunking;
      if isOpen {
        ChunkCounts(e1, key, ds[0], ok(|e1.log|));
        hide SentCounts;
        DispatchesCount(DoChunking(e1, key, ds[0], ok(|e1.log|)), key, ds[1..], ok);
      }
    }
  }

  lemma RoundCounts(e: Engine, key: Key, ok: Oracle)
    requires key in e.sessions && FlightsOk(e.sessions[key].strategy)
    ensures var f := DrainRound(e, key, ok).0; key in f.sessions && SentCounts(f, key) == SentCounts(e, key)
  {
    PollCarries(e.sessions[key]);
    var (x, routing, ds) := Poll(e.sessions[key]);
    var e1 := e.(sessions := e.sessions[key := x]);
    assert SentCounts(e1, key) == SentCounts(e, key);
    hide Poll, SendWork, FlightsOk, Strategy.RoutingDue, Carried, SentCounts;
    WorkCounts(e1, key, routing, ds, ok);
  }

  lemma WorkCounts(e: Engine, key: Key, routing: Option<Havelist>, ds: seq<Dispatch>, ok: Oracle)
    requires key in e.sessions
    ensures var f := SendWork(e, key, routing, ds, ok).0; key in f.sessions && SentCounts(f, key) == SentCounts(e, key)
  {
    hide SendRouting, SendDispatches;
    var subs := Sorted(e.Subscribers(key.channel));
    var e1 := if routing.Some? then SendRouting(e, key, subs, routing.value, ok).0 else e;
    DispatchesCount(e1, key, ds, ok);
  }

  /** A drain counts no send as done. */
  lemma {:induction false} DrainCounts(lib: Lib, e: Engine, key: Key, ok: Oracle)
    requires Base(e) && key in e.sessions
    ensures var f := Drain(e, key, ok).0; key in f.sessions && SentCounts(f, key) == SentCounts(e, key)
    decreases Measure(e.sessions[key].strategy)
  {
    FlightsAt(e, key);
    hide Base, FlightsOk, SentCounts;
    RoundCounts(e, key, ok);
    RoundBase(lib, e, key, ok);
    if DrainRound(e, key, ok).1.None? {
      RoundLowersMeasure(e, key, ok);
      hide DrainRound;
      DrainCounts(lib, DrainRound(e, key, ok).0, key, ok);
    }
  }

  lemma AckedFirst(e: Engine, key: Key, p: PeerId)
    requires Sending(e, key, p)
    ensures var g := DoResolving(e, key, p, 0, true);
            SettledAt(g, key, 0) && SentCounts(g, key) == map[InFlight(e, key)[0].idx := 1]
  {
    hide Sole, P.Planner.PeerOf, Strategy.RoutingDue;
  }

  lemma ResolveIs(lib: Lib, e: Engine, key: Key, p: PeerId, h: Handle, sent: bool, t: Ticks, ok: Oracle, fib: nat -> nat)
    requires Ticket(key, h) in e.pending
    ensures HandleEvent(lib, e, ChunkSendResult(p, key, h, sent), t, ok, fib)
         == Drain(DoResolving(e, key, p, h, sent), key, ok).0
  {
    hide Drain, DoResolving;
  }

  /** The outcome of handle 0 settles its flight and counts it as sent. */
  lemma SettleFirst(lib: Lib, e: Engine, key: Key, p: PeerId, t: Ticks, ok: Oracle, fib: nat -> nat)
    requires Base(e) && Sending(e, key, p)
    ensures var f := HandleEvent(lib, e, ChunkSendResult(p, key, 0, true), t, ok, fib);
            && key in f.sessions && 0 !in InFlight(f, key) && Ticket(key, 0) !in f.pending
            && SentCounts(f, key) == map[InFlight(e, key)[0].idx := 1]
  {
    hide Base, Drain, DoResolving, HandleEvent, SentCounts, Sole, P.Planner.PeerOf, Strategy.RoutingDue, FlightsOk;
    var g := DoResolving(e, key, p, 0, true);
    AckedFirst(e, key, p);
    ResolveIs(lib, e, key, p, 0, true, t, ok, fib);
    ResolvingBase(e, key, p, 0, true);
    OutcomeTaken(lib, e, key, 0, p, true, t, ok, fib);
    SettledDrained(lib, g, key, ok, key, 0);
    DrainCounts(lib, g, key, ok);
  }

  /** The publication, then a time at which the session has expired, then a second publication. */
  function TwoLives(cfg: Config, now: nat, key: Key, p: PeerId, s: Strategy, pre: Bytes, fib: nat -> nat): seq<Input> {
    var later := now + cfg.activeTtl + cfg.cleanupInterval + 1;
    Publication(now, key, p, s, pre, fib)
    + [Net(RoutingUpdateIn(p, key), At(later), Yes, fib), Publishing(key, s, pre, later, Yes)]
  }

  lemma {:induction false} TwoLivesIs(cfg: Config, now: nat, key: Key, p: PeerId, s: Strategy, pre: Bytes, fib: nat -> nat)
    requires Started(s)
    ensures var xs, ys := TwoLives(cfg, now, key, p, s, pre, fib), Publication(now, key, p, s, pre, fib);
            && GoodInputs(xs) && |xs| == 5 && ys == [xs[0], xs[1], xs[2]] && xs[..3] == ys
            && xs[..4] == [xs[0], xs[1], xs[2], xs[3]] && xs == [xs[0], xs[1], xs[2], xs[3], xs[4]]
            && var later := now + cfg.activeTtl + cfg.cleanupInterval + 1;
               xs[3] == Net(RoutingUpdateIn(p, key), At(later), Yes, fib) && xs[4] == Publishing(key, s, pre, later, Yes)
  {
    hide Fresh;
  }

  lemma {:induction false} LivesRun(lib: Lib, cfg: Config, now: nat, key: Key, p: PeerId, s: Strategy, pre: Bytes, fib: nat -> nat)
    requires cfg.cleanupInterval > 0 && Started(s)
    ensures var xs := TwoLives(cfg, now, key, p, s, pre, fib);
            && GoodInputs(xs)
            && Sending(Run(lib, New(cfg, now), xs[..3]), key, p)
            && key !in Run(lib, New(cfg, now), xs[..4]).sessions
            && Sending(Run(lib, New(cfg, now), xs), key, p) && Base(Run(lib, New(cfg, now), xs))
  {
    var xs, e0 := TwoLives(cfg, now, key, p, s, pre, fib), New(cfg, now);
    var later := now + cfg.activeTtl + cfg.cleanupInterval + 1;
    TwoLivesIs(cfg, now, key, p, s, pre, fib);
    hide New, Run, Publish, HandleEvent, Cleanup, SubscribeTo, Sending, Started, At, Base, GoodInput, GoodInputs, Step,
         Publication;
    NewBase(cfg, now);
    PublicationRun(lib, cfg, now, key, p, s, pre, fib);
    var e3 := Run(lib, e0, xs[..3]);
    SweepStep(lib, e3, key, p, now, later, fib);
    var e4 := Step(lib, e3, xs[3]);
    PublishSends(e4, key, p, s, pre, later, Yes);
    PublishIs(lib, e4, key, s, pre, later);
    FiveSteps(lib, e0, xs[0], xs[1], xs[2], xs[3], xs[4]);
    RunBase(lib, e0, xs);
  }

  /**
   * An outcome crosses lives: the first life's chunk is awaited under handle 0, the session is disposed, the same key is
   * published again, and the outcome reported for the first life's handle 0 then settles the second life's flight and
   * counts as its send. The published strategy is the one its constructor makes for the payload.
   */
  lemma OutcomeCrossesLives(lib: Lib, cfg: Config, now: nat, key: Key, p: PeerId, payload: Bytes, rs: RsConfig, pre: Bytes,
                            fib: nat -> nat, t: Ticks, ok: Oracle)
    requires cfg.cleanupInterval > 0 && Builds(lib, payload, rs, fib)
    ensures var xs := TwoLives(cfg, now, key, p, Built(lib, payload, rs, fib), pre, fib);
            var e1, e := Run(lib, New(cfg, now), xs[..3]), Run(lib, New(cfg, now), xs);
            var f := HandleEvent(lib, e, ChunkSendResult(p, key, 0, true), t, ok, fib);
            && GoodInputs(xs)
            && 0 in InFlight(e1, key) && InFlight(e1, key)[0].peer == p && Ticket(key, 0) in e1.pending
            && key !in Run(lib, New(cfg, now), xs[..4]).sessions
            && 0 in InFlight(e, key) && SentCounts(e, key) == map[]
            && key in f.sessions && 0 !in InFlight(f, key) && SentCounts(f, key) == map[InFlight(e, key)[0].idx := 1]
  {
    BuiltIsStarted(lib, payload, rs, fib);
    var s := Built(lib, payload, rs, fib);
    hide Builds, Built, Started, Run, New, HandleEvent, Sole, P.Planner.PeerOf, Strategy.RoutingDue, Base, GoodInputs,
         FlightsOk, TwoLives;
    LivesRun(lib, cfg, now, key, p, s, pre, fib);
    SettleFirst(lib, Run(lib, New(cfg, now), TwoLives(cfg, now, key, p, s, pre, fib)), key, p, t, ok, fib);
  }

  // ---- A late outcome that sends another peer's chunk ----

  /** An origin session that nobody is attached to: nothing is in flight and the planner has no notes on any peer. */
  ghost predicate Deserted(s: Strategy) {
    && s.planner.mode.Origin? && |s.chunks| == s.planner.n && Full(s) && s.planner.n > 0 && s.nextHandle > 0
    && s.attached == {} && s.inFlight == map[] && !s.RoutingDue()
    && forall x: PeerId :: s.planner.PeerOf(x) == P.NO_STATE
  }

  lemma LastLeaves(s: Strategy, p: PeerId)
    requires Sole(s, p) && FlightsOk(s) && 0 in s.inFlight && !s.RoutingDue() && s.planner.n > 0
    requires forall x: PeerId | x != p :: s.planner.PeerOf(x) == P.NO_STATE
    ensures Deserted(DetachPeer(s, p))
  {
    hide P.RemovePeer;
    P.RemovePeerRefunds(s.planner, p, 0);
    var t := DetachPeer(s, p);
    assert t.inFlight == map[];
    forall x: PeerId
      ensures t.planner.PeerOf(x) == P.NO_STATE
    {
      assert x != p ==> t.planner.PeerOf(x) == s.planner.PeerOf(x);
    }
  }

  /** The session is all there is, nobody is attached to it, and the outcome of its handle 0 is awaited. */
  ghost predicate LeftAlone(e: Engine, key: Key, now: nat) {
    && e.sessions.Keys == {key} && Deserted(e.sessions[key].strategy)
    && Ticket(key, 0) in e.pending && key in e.preambles && now < e.nextCleanup
    && key.channel in e.channels && e.channels[key.channel].subscribers == {}
  }

  lemma LeaveStep(lib: Lib, e: Engine, key: Key, p: PeerId, now: nat, fib: nat -> nat)
    requires Sending(e, key, p) && e.sessions.Keys == {key} && key in e.preambles && now < e.nextCleanup
    requires key.channel in e.channels && e.channels[key.channel].subscribers == {p}
    ensures LeftAlone(Step(lib, e, Net(UnsubscribeIn(p, key.channel), At(now), Yes, fib)), key, now)
  {
    hide Deserted, Sole, FlightsOk, Strategy.RoutingDue, P.Planner.PeerOf, DetachPeer;
    LastLeaves(e.sessions[key].strategy, p);
    var f := DoLeaving(e, key.channel, p);
    LeavingIs(lib, e, key, p, now, fib);
  }

  lemma LeavingIs(lib: Lib, e: Engine, key: Key, p: PeerId, now: nat, fib: nat -> nat)
    requires key in e.sessions && now < e.nextCleanup
    requires key.channel in e.channels && e.channels[key.channel].subscribers == {p}
    ensures var f := Step(lib, e, Net(UnsubscribeIn(p, key.channel), At(now), Yes, fib));
            && f.sessions.Keys == e.sessions.Keys && f.sessions[key].strategy == DetachPeer(e.sessions[key].strategy, p)
            && f.pending == e.pending && f.preambles == e.preambles && f.nextCleanup == e.nextCleanup
            && key.channel in f.channels && f.channels[key.channel].subscribers == {}
  {
    hide DetachPeer;
  }

  function Below(n: nat): Oracle { i => i < n }

  /** The position at which a drain to this peer sends its first chunk, when no routing update is due. */
  ghost function ChunkPosition(e: Engine, key: Key, p: PeerId): nat {
    |EnsureOpen(e, key, p, Yes).0.log|
  }

  lemma OpenedBelow(e: Engine, key: Key, p: PeerId)
    ensures EnsureOpen(e, key, p, Below(ChunkPosition(e, key, p))) == EnsureOpen(e, key, p, Yes)
    ensures EnsureOpen(e, key, p, Yes).1
  {
  }

  lemma RefusedDispatch(e: Engine, key: Key, d: Dispatch)
    ensures var ok := Below(ChunkPosition(e, key, d.peer));
            SendDispatches(e, key, [d], ok) == (DoChunking(EnsureOpen(e, key, d.peer, Yes).0, key, d, false), Stalled)
  {
    hide DoChunking;
    OpenedBelow(e, key, d.peer);
    var e1 := EnsureOpen(e, key, d.peer, Yes).0;
    hide EnsureOpen;
    assert [d][1..] == [];
    var e2 := DoChunking(e1, key, d, false);
    assert SendDispatches(e2, key, [], Below(ChunkPosition(e, key, d.peer))) == (e2, Clear);
  }

  /** The drain whose only chunk is refused: the chunk is refunded and the drain stops. */
  lemma RefusedDrain(e: Engine, key: Key, q: PeerId) returns (i: nat)
    requires HasSole(e, key, q) && Free(e.sessions[key].strategy.planner, q) != {}
    requires !e.sessions[key].strategy.RoutingDue()
    ensures var s := e.sessions[key].strategy;
            var f := Drain(e, key, Below(ChunkPosition(e, key, q))).0;
            && key in f.sessions && f.pending == e.pending
            && i in Free(s.planner, q) && f.sessions[key].strategy == ChunkSent(Launched(s, q, i), q, s.nextHandle, false)
  {
    var ok := Below(ChunkPosition(e, key, q));
    var s := e.sessions[key].strategy;
    assert PollRouting(s) == (s, None);
    hide Strategy.RoutingDue, Free, ChunkSent, Launched, Below, EnsureOpen, FlightsOk, Sole;
    SolePoll(e.sessions[key], q);
    var (x, routing, ds) := Poll(e.sessions[key]);
    hide Poll;
    var e1 := e.(sessions := e.sessions[key := x]);
    SamePosition(e, e1, key, q);
    assert ds == [ds[0]];
    i := ds[0].idx;
    RefusedDispatch(e1, key, ds[0]);
    hide SendDispatches;
    assert DrainRound(e, key, ok) == (DoChunking(EnsureOpen(e1, key, q, Yes).0, key, ds[0], false), Some(Stall));
  }

  lemma SamePosition(e: Engine, f: Engine, key: Key, p: PeerId)
    requires f == e.(sessions := f.sessions)
    ensures ChunkPosition(f, key, p) == ChunkPosition(e, key, p)
  {
  }

  /** After the refund everything is as before, except that a handle was used up. */
  lemma RefundedFirst(s: Strategy, q: PeerId, i: nat)
    requires Deserted(s) && i in Free(s.planner, q)
    ensures var t := ChunkSent(Launched(AttachPeer(s, q), q, i), q, s.nextHandle, false);
            && Sole(t, q) && FlightsOk(t) && t.inFlight == map[] && Free(t.planner, q) != {} && t.nextHandle == s.nextHandle + 1
  {
    var t := ChunkSent(Launched(AttachPeer(s, q), q, i), q, s.nextHandle, false);
    assert t.inFlight == map[];
    assert s.planner.PeerOf(q) == P.NO_STATE;
    assert t.planner.PeerOf(q) == P.NO_STATE;
    assert 0 in Free(t.planner, q);
  }

  /** The peer joins alone; the session's drain is all that happens. */
  lemma JoinDrains(lib: Lib, e: Engine, now: nat, key: Key, p: PeerId, ok: Oracle, fib: nat -> nat)
    requires e.sessions.Keys == {key} && key.channel in e.channels && now < e.nextCleanup
    ensures Step(lib, e, Net(SubscribeIn(p, key.channel), At(now), ok, fib)) == Drain(DoJoining(e, key.channel, p), key, ok).0
  {
    var g := DoJoining(e, key.channel, p);
    assert g.sessions.Keys == {key} && key.channel in g.channels && g.nextCleanup == e.nextCleanup;
    hide DoJoining, Drain, DrainChannel, DoCleaning;
    DrainFrame(g, key, ok);
    hide Framed;
    OneDrain(g, key, ok);
  }

  lemma OneDrain(e: Engine, key: Key, ok: Oracle)
    requires e.sessions.Keys == {key} && key.channel in e.channels
    ensures DrainChannel(e, key.channel, ok) == Drain(e, key, ok).0
  {
    hide Drain;
    OnlyMessage(e, key);
    hide Messages;
    assert [key.message][1..] == [];
    assert DrainEach(e, key.channel, [key.message], ok) == Drain(e, key, ok).0;
  }

  lemma OnlyMessage(e: Engine, key: Key)
    requires e.sessions.Keys == {key}
    ensures Sorted(Messages(e, key.channel)) == [key.message]
  {
    assert Messages(e, key.channel) == {key.message};
    assert Sorted({key.message})[0] in Sorted({key.message});
  }

  lemma JoinsAlone(s: Strategy, q: PeerId)
    requires Deserted(s)
    ensures var t := AttachPeer(s, q);
            && Sole(t, q) && FlightsOk(t) && Free(t.planner, q) != {} && !t.RoutingDue() && Free(t.planner, q) == Free(s.planner, q)
  {
    assert s.planner.PeerOf(q) == P.NO_STATE;
    assert 0 in Free(AttachPeer(s, q).planner, q);
  }

  lemma JoinedSession(e: Engine, key: Key, q: PeerId)
    requires e.sessions.Keys == {key} && key.channel in e.channels && e.channels[key.channel].subscribers == {}
    ensures var g := DoJoining(e, key.channel, q);
            && key in g.sessions && g.sessions[key].strategy == AttachPeer(e.sessions[key].strategy, q)
            && g.pending == e.pending
  {
    hide AttachPeer;
  }

  /** The session serves this peer, none of its chunks is in flight, and the outcome of handle 0 is awaited. */
  ghost predicate Stalling(e: Engine, key: Key, q: PeerId) {
    && HasSole(e, key, q) && Free(e.sessions[key].strategy.planner, q) != {}
    && InFlight(e, key) == map[] && NextHandle(e, key) > 0 && Ticket(key, 0) in e.pending
  }

  lemma StalledDrain(e: Engine, key: Key, q: PeerId, s: Strategy)
    requires key in e.sessions && e.sessions[key].strategy == AttachPeer(s, q) && Deserted(s) && Ticket(key, 0) in e.pending
    ensures Stalling(Drain(e, key, Below(ChunkPosition(e, key, q))).0, key, q)
  {
    JoinsAlone(s, q);
    assert AttachPeer(s, q).nextHandle == s.nextHandle && s.nextHandle > 0;
    hide Drain, Deserted, Free, Sole, FlightsOk, Strategy.RoutingDue, AttachPeer, ChunkSent, Launched, Below, ChunkPosition;
    var i := RefusedDrain(e, key, q);
    RefundedFirst(s, q, i);
  }

  /** Another peer subscribes and its first chunk is refused. */
  lemma JoinStalls(lib: Lib, e: Engine, key: Key, q: PeerId, now: nat, fib: nat -> nat)
    requires LeftAlone(e, key, now)
    ensures var n := ChunkPosition(DoJoining(e, key.channel, q), key, q);
            Stalling(Step(lib, e, Net(SubscribeIn(q, key.channel), At(now), Below(n), fib)), key, q)
  {
    var g := DoJoining(e, key.channel, q);
    hide Step, Drain, DoJoining, Deserted, AttachPeer, Below, ChunkPosition, Stalling;
    JoinedSession(e, key, q);
    StalledDrain(g, key, q, e.sessions[key].strategy);
    JoinDrains(lib, e, now, key, q, Below(ChunkPosition(g, key, q)), fib);
  }

  /** The late outcome starts a drain, and the drain sends the other peer a chunk. */
  lemma LateDrain(lib: Lib, e: Engine, key: Key, p: PeerId, q: PeerId, sent: bool, t: Ticks, ok: Oracle, fib: nat -> nat)
    requires Stalling(e, key, q) && Accepting(ok)
    ensures var h := NextHandle(e, key);
            var f := HandleEvent(lib, e, ChunkSendResult(p, key, 0, sent), t, ok, fib);
            h in InFlight(f, key) && InFlight(f, key)[h].peer == q && Ticket(key, h) in f.pending
  {
    hide Sole, FlightsOk, Free, Drain, HandleEvent, Accepting, Carried, Strategy.RoutingDue;
    SettledOutcomeOnlyDrains(lib, e, key, 0, p, sent, t, ok, fib);
    var g := e.(pending := e.pending - {Ticket(key, 0)});
    SoleDrain(g, key, q, ok);
  }

  /** The publication; its subscriber leaves; another one joins, and the transport refuses the `n`-th and later sends. */
  function LateRun(now: nat, key: Key, p: PeerId, q: PeerId, s: Strategy, pre: Bytes, fib: nat -> nat, n: nat): seq<Input> {
    Publication(now, key, p, s, pre, fib)
    + [Net(UnsubscribeIn(p, key.channel), At(now), Yes, fib), Net(SubscribeIn(q, key.channel), At(now), Below(n), fib)]
  }

  lemma {:induction false} LateRunIs(now: nat, key: Key, p: PeerId, q: PeerId, s: Strategy, pre: Bytes, fib: nat -> nat, n: nat)
    requires Started(s)
    ensures var xs, ys := LateRun(now, key, p, q, s, pre, fib, n), Publication(now, key, p, s, pre, fib);
            && GoodInputs(xs) && |xs| == 5 && ys == [xs[0], xs[1], xs[2]]
            && xs == [xs[0], xs[1], xs[2], xs[3], xs[4]]
            && xs[3] == Net(UnsubscribeIn(p, key.channel), At(now), Yes, fib)
            && xs[4] == Net(SubscribeIn(q, key.channel), At(now), Below(n), fib)
  {
    hide Fresh;
  }

  lemma {:induction false} LateRunStalls(lib: Lib, cfg: Config, now: nat, key: Key, p: PeerId, q: PeerId, s: Strategy,
                                         pre: Bytes, fib: nat -> nat) returns (n: nat)
    requires cfg.cleanupInterval > 0 && Started(s)
    ensures var xs := LateRun(now, key, p, q, s, pre, fib, n);
            GoodInputs(xs) && Stalling(Run(lib, New(cfg, now), xs), key, q)
  {
    var e0 := New(cfg, now);
    hide New, Run, Step, Sending, Started, At, Base, GoodInput, GoodInputs, Publication, LateRun, LeftAlone, Below, Stalling;
    PublicationRun(lib, cfg, now, key, p, s, pre, fib);
    var e3 := Run(lib, e0, Publication(now, key, p, s, pre, fib));
    LeaveStep(lib, e3, key, p, now, fib);
    var e4 := Step(lib, e3, Net(UnsubscribeIn(p, key.channel), At(now), Yes, fib));
    n := ChunkPosition(DoJoining(e4, key.channel, q), key, q);
    JoinStalls(lib, e4, key, q, now, fib);
    LateRunIs(now, key, p, q, s, pre, fib, n);
    var xs := LateRun(now, key, p, q, s, pre, fib, n);
    FiveSteps(lib, e0, xs[0], xs[1], xs[2], xs[3], xs[4]);
  }

  /**
   * A late outcome of a settled handle moves another peer's chunk within one life of the session. The chunk to the first
   * subscriber is accepted under handle 0; that peer unsubscribes, which settles the handle and leaves its outcome awaited; a
   * second subscriber's first chunk is refused, and the drain stops. The first peer's outcome then arrives, whatever it
   * says, and a new chunk goes to the second peer.
   */
  lemma LateOutcomeSends(lib: Lib, cfg: Config, now: nat, key: Key, p: PeerId, q: PeerId, payload: Bytes, rs: RsConfig,
                         pre: Bytes, fib: nat -> nat, sent: bool, t: Ticks, ok: Oracle) returns (n: nat)
    requires cfg.cleanupInterval > 0 && Builds(lib, payload, rs, fib) && Accepting(ok)
    ensures var xs := LateRun(now, key, p, q, Built(lib, payload, rs, fib), pre, fib, n);
            var e := Run(lib, New(cfg, now), xs);
            var f := HandleEvent(lib, e, ChunkSendResult(p, key, 0, sent), t, ok, fib);
            var h := NextHandle(e, key);
            && GoodInputs(xs)
            && SettledAt(e, key, 0) && Ticket(key, 0) in e.pending && InFlight(e, key) == map[]
            && h in InFlight(f, key) && InFlight(f, key)[h].peer == q && Ticket(key, h) in f.pending
  {
    BuiltIsStarted(lib, payload, rs, fib);
    var s := Built(lib, payload, rs, fib);
    hide Builds, Built, Started, Run, New, HandleEvent, Sole, FlightsOk, Free, GoodInputs, LateRun, Accepting;
    n := LateRunStalls(lib, cfg, now, key, p, q, s, pre, fib);
    LateDrain(lib, Run(lib, New(cfg, now), LateRun(now, key, p, q, s, pre, fib, n)), key, p, q, sent, t, ok, fib);
  }

  // ---- A stranded chunk ----

  /** Publish without subscribers; then a peer subscribes and the transport refuses to open the session to it. */
  function RefusedOpen(now: nat, key: Key, p: PeerId, s: Strategy, pre: Bytes, fib: nat -> nat): seq<Input> {
    [Subscribing(key.channel, s.cfg, Yes),
     Publishing(key, s, pre, now, Yes),
     Net(SubscribeIn(p, key.channel), At(now), No, fib)]
  }

  lemma UnservedPoll(phase: Phase, s: Strategy)
    requires s.attached == {}
    ensures Poll(Session(phase, s)) == (Session(phase, PollRouting(s).0), PollRouting(s).1, [])
    ensures PollRouting(PollRouting(s).0) == (PollRouting(s).0, None)
  {
    assert Sorted({}) == [];
  }

  /** Without subscribers a drain sends nothing; at most it notes the routing update as made. */
  lemma UnservedDrain(e: Engine, key: Key, phase: Phase, s: Strategy)
    requires key in e.sessions && e.sessions[key] == Session(phase, s) && s.attached == {}
    requires e.Subscribers(key.channel) == {}
    ensures Drain(e, key, Yes).0 == e.(sessions := e.sessions[key := Session(phase, PollRouting(s).0)])
  {
    var r := PollRouting(s).0;
    var e1 := e.(sessions := e.sessions[key := Session(phase, r)]);
    UnservedPoll(phase, s);
    UnservedPoll(phase, r);
    assert Sorted({}) == [];
    hide Poll, PollRouting;
    assert e1.sessions[key := e1.sessions[key]] == e1.sessions;
    assert DrainRound(e1, key, Yes) == (e1, Some(Idle));
    assert Drain(e1, key, Yes) == (e1, Idle);
    UnservedWork(e1, key, PollRouting(s).1);
    assert DrainRound(e, key, Yes).0 == e1;
    hide DrainRound;
  }

  lemma UnservedWork(e: Engine, key: Key, routing: Option<Havelist>)
    requires e.Subscribers(key.channel) == {}
    ensures SendWork(e, key, routing, [], Yes) == (e, None)
  {
    assert Sorted({}) == [];
  }

  lemma LonePublish(e: Engine, cfg: Config, now: nat, key: Key, s: Strategy, pre: Bytes)
    requires Hosted(e, cfg, now, key.channel, s.cfg) && Started(s)
    ensures var f := Publish(e, key, s, pre, now, Yes);
            && f.sessions == map[key := Session(Phase.Origin, PollRouting(s).0)] && key in f.preambles
            && f.channels == e.channels && f.openedTo == map[] && f.nextCleanup == e.nextCleanup
  {
    assert s.attached + {} == s.attached;
    assert AttachAll(s, {}) == s;
    var e1 := DoCreating(e, key, Session(Phase.Origin, s), pre, now);
    assert Sorted({}) == [];
    hide PollRouting, Drain, Started;
    UnservedDrain(e1, key, Phase.Origin, s);
    assert OpenEach(e1, key, [], Yes) == (e1, true);
  }

  /** A new origin that nobody is attached to and that has no routing update due. */
  ghost predicate Unserved(s: Strategy) {
    && s.planner.mode.Origin? && |s.chunks| == s.planner.n && Full(s) && s.planner.n > 0 && s.nextHandle == 0
    && s.attached == {} && s.planner.peers == map[] && !s.RoutingDue()
  }

  lemma StartedUnserved(s: Strategy)
    requires Started(s)
    ensures Unserved(PollRouting(s).0)
  {
  }

  /** The peer's first poll, before anything is sent to it. */
  lemma UnservedJoins(s: Strategy, p: PeerId)
    requires Unserved(s)
    ensures var (x, routing, ds) := Poll(Session(Phase.Origin, AttachPeer(s, p)));
            routing == None && |ds| == 1 && ds[0].peer == p && ds[0].handle == 0 && x.strategy.nextHandle > 0
  {
    var t := AttachPeer(s, p);
    assert 0 in Free(t.planner, p);
    assert PollRouting(t) == (t, None);
    hide Poll, Free, Full;
    SolePoll(Session(Phase.Origin, t), p);
  }

  /** The drain whose open is refused strands the chunk. */
  lemma StrandingDrain(e: Engine, key: Key, p: PeerId, s: Strategy)
    requires Base(e) && key in e.sessions && e.sessions[key] == Session(Phase.Origin, AttachPeer(s, p)) && Unserved(s)
    requires p !in e.Opened(key)
    ensures var f := Drain(e, key, No).0; 0 in InFlight(f, key) && Ticket(key, 0) !in f.pending
  {
    PreambleThere(e, key);
    hide Base, Unserved, AttachPeer, Poll, DrainRound, Refused, WorkScript;
    UnservedJoins(s, p);
    var ds := Poll(e.sessions[key]).2;
    var cut := RoundStrandsRest(e, key, No);
    OpenRefused(e, key, p);
    RoundFailsIff(e, key, No);
    assert Stranded(DrainRound(e, key, No).0, key, ds[0]);
  }

  lemma OpenRefused(e: Engine, key: Key, p: PeerId)
    requires key in e.sessions && p !in e.Opened(key)
    requires var (_, routing, ds) := Poll(e.sessions[key]); routing == None && |ds| == 1 && ds[0].peer == p
    ensures Refused(No, |e.log|, Script(e, key))
  {
    hide Poll;
    assert IsControl(Script(e, key)[0]) && !No(|e.log| + 0);
  }

  lemma RefusedJoin(lib: Lib, e: Engine, now: nat, key: Key, p: PeerId, s: Strategy, fib: nat -> nat)
    requires Base(e) && e.sessions == map[key := Session(Phase.Origin, s)] && Unserved(s)
    requires key.channel in e.channels && e.channels[key.channel].subscribers == {} && e.openedTo == map[]
    requires now < e.nextCleanup
    ensures var f := Step(lib, e, Net(SubscribeIn(p, key.channel), At(now), No, fib));
            0 in InFlight(f, key) && Ticket(key, 0) !in f.pending
  {
    hide Base, Drain, Step, Unserved, AttachPeer;
    JoiningBase(e, key.channel, p);
    var g := DoJoining(e, key.channel, p);
    assert g.sessions[key] == Session(Phase.Origin, AttachPeer(s, p)) && p !in g.Opened(key);
    hide DoJoining;
    StrandingDrain(g, key, p, s);
    JoinDrains(lib, e, now, key, p, No, fib);
  }

  lemma {:induction false} RefusedOpenIs(now: nat, key: Key, p: PeerId, s: Strategy, pre: Bytes, fib: nat -> nat)
    requires Started(s)
    ensures var xs := RefusedOpen(now, key, p, s, pre, fib); GoodInputs(xs) && xs == [xs[0], xs[1], xs[2]]
  {
    hide Fresh;
  }

  /**
   * A run from a new engine that leaves a chunk in flight with no outcome awaited. The published strategy is the one its
   * constructor makes for the payload.
   */
  lemma RefusedOpenStrands(lib: Lib, cfg: Config, now: nat, key: Key, p: PeerId, payload: Bytes, rs: RsConfig, pre: Bytes,
                           fib: nat -> nat)
    requires cfg.cleanupInterval > 0 && Builds(lib, payload, rs, fib)
    ensures var xs := RefusedOpen(now, key, p, Built(lib, payload, rs, fib), pre, fib);
            var e := Run(lib, New(cfg, now), xs);
            && GoodInputs(xs) && 0 in InFlight(e, key) && Ticket(key, 0) !in e.pending
  {
    BuiltIsStarted(lib, payload, rs, fib);
    var s := Built(lib, payload, rs, fib);
    hide Builds, Built, Run, New;
    StrandingRun(lib, cfg, now, key, p, s, pre, fib);
  }

  lemma {:induction false} StrandingRun(lib: Lib, cfg: Config, now: nat, key: Key, p: PeerId, s: Strategy, pre: Bytes,
                                        fib: nat -> nat)
    requires cfg.cleanupInterval > 0 && Started(s)
    ensures var xs := RefusedOpen(now, key, p, s, pre, fib);
            var e := Run(lib, New(cfg, now), xs);
            && GoodInputs(xs) && 0 in InFlight(e, key) && Ticket(key, 0) !in e.pending
  {
    hide New, Run, Step, Publish, Started, Unserved, At, Base, PollRouting;
    var xs, e0 := RefusedOpen(now, key, p, s, pre, fib), New(cfg, now);
    RefusedOpenIs(now, key, p, s, pre, fib);
    HostStep(lib, cfg, now, key.channel, s.cfg);
    var e1 := Step(lib, e0, xs[0]);
    LonePublish(e1, cfg, now, key, s, pre);
    PublishIs(lib, e1, key, s, pre, now);
    var e2 := Step(lib, e1, xs[1]);
    NewBase(cfg, now);
    StepBase(lib, e0, xs[0]);
    StepBase(lib, e1, xs[1]);
    StartedUnserved(s);
    RefusedJoin(lib, e2, now, key, p, PollRouting(s).0, fib);
    FiveSteps(lib, e0, xs[0], xs[1], xs[2], xs[0], xs[0]);
  }
}
