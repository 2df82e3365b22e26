/** What a drain leaves alone, and the induction principle over whole steps and runs. */
module EngineRuns {
  import opened Basics
  import opened Havelists
  import opened Coding
  import opened Strategies
  import opened Sessions
  import opened Engines
  import opened EngineSteps
  import opened EngineBase
  import P = Polling

  // ---- A drain touches neither phases nor chunks ----

  /** The part of a session that draining does not touch. */
  ghost predicate SameCore(s: Session, t: Session) {
    && t.phase == s.phase
    && t.strategy.preamble == s.strategy.preamble
    && t.strategy.chunks == s.strategy.chunks
    && t.strategy.attached == s.strategy.attached
    && t.strategy.cfg == s.strategy.cfg
    && t.strategy.planner.mode == s.strategy.planner.mode
    && t.strategy.planner.n == s.strategy.planner.n
  }

  ghost predicate SameCores(m: map<Key, Session>, n: map<Key, Session>) {
    n.Keys == m.Keys && forall k | k in m :: SameCore(m[k], n[k])
  }

  /** The deliveries in a log, in order. */
  ghost function Deliveries(log: seq<Event>): seq<Event> {
    if log == [] then []
    else
      var last := log[|log| - 1];
      Deliveries(log[..|log| - 1]) + if last.Delivered? then [last] else []
  }

  lemma DeliveriesAppend(log: seq<Event>, x: Event)
    ensures Deliveries(log + [x]) == Deliveries(log) + if x.Delivered? then [x] else []
  {
    assert (log + [x])[..|log|] == log;
  }

  ghost predicate Framed(e: Engine, f: Engine) {
    && f.cfg == e.cfg && f.channels == e.channels && f.connected == e.connected && f.preambles == e.preambles
    && f.meta == e.meta && f.tombstones == e.tombstones && f.parked == e.parked && f.nextCleanup == e.nextCleanup
    && SameCores(e.sessions, f.sessions)
    && Deliveries(f.log) == Deliveries(e.log)
  }

  lemma FramedTrans(e: Engine, f: Engine, g: Engine)
    requires Framed(e, f) && Framed(f, g)
    ensures Framed(e, g)
  {
    hide Deliveries;
  }

  lemma FramedSelf(e: Engine)
    ensures Framed(e, e)
  {
  }

  /** Logging a send and updating the opened, pending or one session's planner stays within the frame. */
  lemma LoggedFrame(e: Engine, x: Event, f: Engine)
    requires !x.Delivered? && f.log == e.log + [x]
    requires f == e.(log := f.log, openedTo := f.openedTo, pending := f.pending, sessions := f.sessions)
    requires SameCores(e.sessions, f.sessions)
    ensures Framed(e, f)
  {
    DeliveriesAppend(e.log, x);
  }

  lemma SelfCores(m: map<Key, Session>)
    ensures SameCores(m, m)
  {
  }

  lemma OpeningFrame(e: Engine, key: Key, p: PeerId, sent: bool)
    ensures Framed(e, DoOpening(e, key, p, sent))
  {
    SelfCores(e.sessions);
    hide Framed, Deliveries, SameCores;
    LoggedFrame(e, Sent(SessionOpen(p, key, e.Preamble(key)), sent), DoOpening(e, key, p, sent));
  }

  lemma EnsureOpenFrame(e: Engine, key: Key, p: PeerId, ok: Oracle)
    ensures Framed(e, EnsureOpen(e, key, p, ok).0)
  {
    FramedSelf(e);
    OpeningFrame(e, key, p, ok(|e.log|));
    hide Framed, DoOpening;
  }

  lemma NotingFrame(e: Engine, msg: NetSend, sent: bool)
    ensures Framed(e, DoNoting(e, msg, sent))
  {
    SelfCores(e.sessions);
    hide Framed, Deliveries, SameCores;
    LoggedFrame(e, Sent(msg, sent), DoNoting(e, msg, sent));
  }

  lemma ChunkingFrame(e: Engine, key: Key, d: Dispatch, sent: bool)
    ensures Framed(e, DoChunking(e, key, d, sent))
  {
    if !sent && key in e.sessions {
      SettleCore(e.sessions[key], d.peer, d.handle);
    }
    hide ChunkSent, Deliveries, Framed;
    var f := DoChunking(e, key, d, sent);
    assert SameCores(e.sessions, f.sessions);
    LoggedFrame(e, Sent(Chunk(d.peer, key, d.idx, d.payload, d.handle), sent), f);
  }

  lemma SettleCore(s: Session, p: PeerId, h: Handle)
    ensures SameCore(s, s.(strategy := ChunkSent(s.strategy, p, h, false)))
  {
  }

  lemma {:induction false} SendRoutingFrame(e: Engine, key: Key, peers: seq<PeerId>, have: Havelist, ok: Oracle)
    ensures Framed(e, SendRouting(e, key, peers, have, ok).0)
    decreases |peers|
  {
    FramedSelf(e);
    if peers != [] {
      EnsureOpenFrame(e, key, peers[0], ok);
      var (e1, isOpen) := EnsureOpen(e, key, peers[0], ok);
      hide Framed, EnsureOpen, DoNoting;
      if isOpen {
        var e2 := DoNoting(e1, RoutingUpdate(peers[0], key, have), ok(|e1.log|));
        NotingFrame(e1, RoutingUpdate(peers[0], key, have), ok(|e1.log|));
        SendRoutingFrame(e2, key, peers[1..], have, ok);
        FramedTrans(e, e1, e2);
        FramedTrans(e, e2, SendRouting(e2, key, peers[1..], have, ok).0);
      }
    }
  }

  lemma {:induction false} SendDispatchesFrame(e: Engine, key: Key, ds: seq<Dispatch>, ok: Oracle)
    ensures Framed(e, SendDispatches(e, key, ds, ok).0)
    decreases |ds|
  {
    FramedSelf(e);
    if ds != [] {
      EnsureOpenFrame(e, key, ds[0].peer, ok);
      var (e1, isOpen) := EnsureOpen(e, key, ds[0].peer, ok);
      hide Framed, EnsureOpen, DoChunking;
      if isOpen {
        var e2 := DoChunking(e1, key, ds[0], ok(|e1.log|));
        ChunkingFrame(e1, key, ds[0], ok(|e1.log|));
        SendDispatchesFrame(e2, key, ds[1..], ok);
        FramedTrans(e, e1, e2);
        FramedTrans(e, e2, SendDispatches(e2, key, ds[1..], ok).0);
      }
    }
  }

  lemma PollCore(s: Session)
    ensures SameCore(s, Poll(s).0)
  {
    var r := PollRouting(s.strategy).0;
    P.PollFromContent(r, Sorted(r.attached));
    hide PollFrom;
  }

  lemma SendWorkFrame(e: Engine, key: Key, routing: Option<Havelist>, ds: seq<Dispatch>, ok: Oracle)
    ensures Framed(e, SendWork(e, key, routing, ds, ok).0)
  {
    FramedSelf(e);
    hide Framed, SendRouting, SendDispatches;
    var subs := Sorted(e.Subscribers(key.channel));
    var e1 := if routing.Some? then SendRouting(e, key, subs, routing.value, ok).0 else e;
    if routing.Some? {
      SendRoutingFrame(e, key, subs, routing.value, ok);
    }
    SendDispatchesFrame(e1, key, ds, ok);
    FramedTrans(e, e1, SendDispatches(e1, key, ds, ok).0);
  }

  lemma RoundFrame(e: Engine, key: Key, ok: Oracle)
    requires key in e.sessions
    ensures Framed(e, DrainRound(e, key, ok).0)
  {
    var (s, routing, ds) := Poll(e.sessions[key]);
    PollCore(e.sessions[key]);
    hide Poll;
    var e1 := e.(sessions := e.sessions[key := s]);
    assert Framed(e, e1);
    hide Framed, SendWork;
    SendWorkFrame(e1, key, routing, ds, ok);
    FramedTrans(e, e1, SendWork(e1, key, routing, ds, ok).0);
  }

  lemma {:induction false} DrainFrame(e: Engine, key: Key, ok: Oracle)
    ensures Framed(e, Drain(e, key, ok).0)
    decreases if key in e.sessions then P.Measure(e.sessions[key].strategy) else 0
  {
    FramedSelf(e);
    if key in e.sessions {
      RoundFrame(e, key, ok);
      var (e1, end) := DrainRound(e, key, ok);
      if end.None? {
        RoundLowersMeasure(e, key, ok);
        hide Framed, DrainRound;
        DrainFrame(e1, key, ok);
        FramedTrans(e, e1, Drain(e1, key, ok).0);
      }
    }
  }

  // ---- Induction over a step ----

  /** The context of an induction: the input, the invariant and the start state. */
  ghost predicate Runs(lib: Lib, inp: Input, m: Mode, I: Engine -> bool, e: Engine) {
    Preserved(lib, inp, m, I) && I(e)
  }

  lemma After(lib: Lib, inp: Input, m: Mode, I: Engine -> bool, e: Engine, a: Act)
    requires Runs(lib, inp, m, I, e) && Allowed(lib, inp, m, e, a)
    ensures Runs(lib, inp, m, I, Do(lib, e, a))
  {
    hide Preserved, Allowed, Do;
    Apply(lib, inp, m, I, e, a);
  }

  lemma AfterDrain(lib: Lib, inp: Input, m: Mode, I: Engine -> bool, e: Engine, key: Key, ok: Oracle)
    requires Runs(lib, inp, m, I, e)
    ensures Runs(lib, inp, m, I, Drain(e, key, ok).0)
  {
    hide Preserved, Drain;
    DrainKeeps(lib, inp, m, I, e, key, ok);
  }

  lemma InBase(lib: Lib, inp: Input, m: Mode, I: Engine -> bool, e: Engine)
    requires Runs(lib, inp, m, I, e)
    ensures Base(e)
  {
    hide Base, Allowed, Do;
  }

  lemma {:induction false} DrainEachKeeps(lib: Lib, inp: Input, m: Mode, I: Engine -> bool, e: Engine,
                                          c: ChannelId, messages: seq<MessageId>, ok: Oracle)
    requires Runs(lib, inp, m, I, e)
    ensures Runs(lib, inp, m, I, DrainEach(e, c, messages, ok))
    decreases |messages|
  {
    hide Runs, Drain;
    if messages != [] {
      AfterDrain(lib, inp, m, I, e, Key(c, messages[0]), ok);
      DrainEachKeeps(lib, inp, m, I, Drain(e, Key(c, messages[0]), ok).0, c, messages[1..], ok);
    }
  }

  lemma JoiningKeeps(lib: Lib, inp: Input, m: Mode, I: Engine -> bool, e: Engine, c: ChannelId, p: PeerId, ok: Oracle)
    requires Runs(lib, inp, m, I, e)
    ensures Runs(lib, inp, m, I, DrainChannel(DoJoining(e, c, p), c, ok))
  {
    DoIs(lib, e, Joining(c, p));
    hide Runs, Do, DoJoining, DrainEach;
    After(lib, inp, m, I, e, Joining(c, p));
    var e1 := DoJoining(e, c, p);
    DrainEachKeeps(lib, inp, m, I, e1, c, Sorted(Messages(e1, c)), ok);
  }

  lemma {:induction false} JoinEachKeeps(lib: Lib, inp: Input, m: Mode, I: Engine -> bool, e: Engine, p: PeerId,
                                         channels: seq<ChannelId>, ok: Oracle)
    requires Runs(lib, inp, m, I, e)
    ensures Runs(lib, inp, m, I, JoinEach(e, p, channels, ok))
    decreases |channels|
  {
    hide Runs, DoJoining, DrainChannel;
    if channels != [] {
      JoiningKeeps(lib, inp, m, I, e, channels[0], p, ok);
      JoinEachKeeps(lib, inp, m, I, DrainChannel(DoJoining(e, channels[0], p), channels[0], ok), p,
                    channels[1..], ok);
    }
  }

  lemma DeliverKeeps(lib: Lib, inp: Input, m: Mode, I: Engine -> bool, e: Engine, key: Key, at: nat, ok: Oracle)
    requires Runs(lib, inp, m, I, e) && inp.Net? && at == inp.ticks.second
    requires key in e.sessions && e.sessions[key].phase.Decoding?
    ensures Runs(lib, inp, m, I, Deliver(lib, e, key, at, ok))
  {
    DoIs(lib, e, Finishing(key, at));
    hide Runs, Do, DoFinishing, DecodeAndFinish;
    After(lib, inp, m, I, e, Finishing(key, at));
    var e1 := DoFinishing(lib, e, key, at);
    var a := Noting(SessionReconstructed(key), ok(|e1.log|));
    DoIs(lib, e1, a);
    After(lib, inp, m, I, e1, a);
  }

  /** A session that reported completion is decoding, and stays so through a drain. */
  lemma DecodingAfterDrain(e: Engine, key: Key, ok: Oracle)
    requires key in e.sessions && e.sessions[key].phase.Decoding?
    ensures var f := Drain(e, key, ok).0;
            key in f.sessions && f.sessions[key].phase.Decoding?
  {
    DrainFrame(e, key, ok);
    hide Drain, Deliveries;
  }

  lemma HungryAt(e: Engine, key: Key)
    requires Base(e) && key in e.sessions
    ensures Hungry(e.sessions[key])
  {
    assert Live(e, key);
  }

  lemma TakingKeeps(lib: Lib, inp: Input, m: Mode, I: Engine -> bool, e: Engine, key: Key, idx: nat, data: Bytes)
    requires Runs(lib, inp, m, I, e) && key in e.sessions && Feeds(inp, key)
    ensures var f := DoTaking(lib, e, key, idx, data);
            && Runs(lib, inp, m, I, f) && key in f.sessions
            && (Completes(lib, e, key, idx, data) ==> f.sessions[key].phase.Decoding?)
            && (e.sessions[key].phase.Decoding? ==> f.sessions[key].phase.Decoding?)
  {
    hide Runs, Do, Base, Take, Hungry;
    InBase(lib, inp, m, I, e);
    HungryAt(e, key);
    TakeCompletes(lib, e.sessions[key], idx, data);
    StaysDecoding(lib, e.sessions[key], idx, data);
    TakingIs(lib, e, key, idx, data);
    After(lib, inp, m, I, e, Taking(key, idx, data));
  }

  lemma StaysDecoding(lib: Lib, s: Session, idx: nat, data: Bytes)
    ensures s.phase.Decoding? ==> Take(lib, s, idx, data).0.phase.Decoding?
  {
  }

  lemma TakingIs(lib: Lib, e: Engine, key: Key, idx: nat, data: Bytes)
    ensures Do(lib, e, Taking(key, idx, data)) == DoTaking(lib, e, key, idx, data)
  {
  }

  lemma {:induction false} TakeAllKeeps(lib: Lib, inp: Input, m: Mode, I: Engine -> bool, e: Engine, key: Key,
                                        chunks: seq<ParkedChunk>)
    requires Runs(lib, inp, m, I, e) && key in e.sessions && Feeds(inp, key)
    ensures var (f, complete) := TakeAll(lib, e, key, chunks);
            && Runs(lib, inp, m, I, f) && key in f.sessions
            && (complete || e.sessions[key].phase.Decoding? ==> f.sessions[key].phase.Decoding?)
    decreases |chunks|
  {
    hide Runs, DoTaking, Completes;
    if chunks != [] {
      var c := chunks[0];
      TakingKeeps(lib, inp, m, I, e, key, c.idx, c.data);
      TakeAllKeeps(lib, inp, m, I, DoTaking(lib, e, key, c.idx, c.data), key, chunks[1..]);
    }
  }

  lemma Unparked(lib: Lib, e: Engine, key: Key)
    ensures Do(lib, e, Unparking(key)) == DoUnparking(e, key)
  {
  }

  lemma Created(lib: Lib, e: Engine, key: Key, s: Session, preamble: Bytes, at: nat)
    ensures Do(lib, e, Creating(key, s, preamble, at)) == DoCreating(e, key, s, preamble, at)
    ensures key in DoCreating(e, key, s, preamble, at).sessions
  {
  }

  lemma ReplayKeeps(lib: Lib, inp: Input, m: Mode, I: Engine -> bool, e: Engine, key: Key, at: nat, ok: Oracle)
    requires Runs(lib, inp, m, I, e) && Feeds(inp, key) && at == inp.ticks.second && key in e.sessions
    ensures Runs(lib, inp, m, I, Replay(lib, e, key, at, ok))
  {
    hide Runs, Do, TakeAll, Drain, Deliver;
    if key in e.parked {
      Unparked(lib, e, key);
      After(lib, inp, m, I, e, Unparking(key));
      var e0 := DoUnparking(e, key);
      TakeAllKeeps(lib, inp, m, I, e0, key, e.parked[key]);
      var (e1, complete) := TakeAll(lib, e0, key, e.parked[key]);
      AfterDrain(lib, inp, m, I, e1, key, ok);
      if complete {
        DecodingAfterDrain(e1, key, ok);
        DeliverKeeps(lib, inp, m, I, Drain(e1, key, ok).0, key, at, ok);
      }
    }
  }

  lemma OnOpenKeeps(lib: Lib, inp: Input, m: Mode, I: Engine -> bool, e: Engine)
    requires Runs(lib, inp, m, I, e) && inp.Net? && inp.event.SessionOpenIn?
    ensures Runs(lib, inp, m, I, OnOpen(lib, e, inp.event.key, inp.event.preamble, inp.ticks, inp.ok, inp.fib))
  {
    hide Runs, Do, Replay, Drain, RelayStrategy, DoCreating, NewSession;
    var key, preamble := inp.event.key, inp.event.preamble;
    if key !in e.tombstones && key !in e.sessions {
      var s := RelayStrategy(lib, e, key, preamble, inp.fib);
      if s.Some? {
        var a := Creating(key, Session(Consuming, s.value), preamble, inp.ticks.first);
        OpenIsNew(lib, inp, e);
        Created(lib, e, key, a.session, preamble, a.at);
        After(lib, inp, m, I, e, a);
        var e1 := DoCreating(e, key, a.session, preamble, a.at);
        AfterDrain(lib, inp, m, I, e1, key, inp.ok);
        StillThere(e1, key, inp.ok);
        ReplayKeeps(lib, inp, m, I, Drain(e1, key, inp.ok).0, key, inp.ticks.second, inp.ok);
      }
    }
  }

  lemma OpenIsNew(lib: Lib, inp: Input, e: Engine)
    requires inp.Net? && inp.event.SessionOpenIn? && inp.event.key !in e.tombstones && inp.event.key !in e.sessions
    requires RelayStrategy(lib, e, inp.event.key, inp.event.preamble, inp.fib).Some?
    ensures var s := RelayStrategy(lib, e, inp.event.key, inp.event.preamble, inp.fib).value;
            NewSession(lib, inp, e, inp.event.key, Session(Consuming, s), inp.event.preamble, inp.ticks.first)
  {
  }

  lemma StillThere(e: Engine, key: Key, ok: Oracle)
    requires key in e.sessions
    ensures key in Drain(e, key, ok).0.sessions
  {
    DrainFrame(e, key, ok);
    hide Drain, Deliveries;
  }

  lemma OnChunkKeeps(lib: Lib, inp: Input, m: Mode, I: Engine -> bool, e: Engine)
    requires Runs(lib, inp, m, I, e) && inp.Net? && inp.event.ChunkIn?
    ensures Runs(lib, inp, m, I, OnChunk(lib, e, inp.event.key, inp.event.idx, inp.event.data, inp.ticks, inp.ok))
  {
    var key, idx, data := inp.event.key, inp.event.idx, inp.event.data;
    hide Runs, Do, Drain, Completes, DoTaking, Deliver, DoParking;
    if key !in e.tombstones {
      if key !in e.sessions {
        var a := Parking(key, ParkedChunk(idx, data, inp.ticks.first));
        DoIs(lib, e, a);
        After(lib, inp, m, I, e, a);
      } else {
        TakingKeeps(lib, inp, m, I, e, key, idx, data);
        var e1 := DoTaking(lib, e, key, idx, data);
        AfterDrain(lib, inp, m, I, e1, key, inp.ok);
        if Completes(lib, e, key, idx, data) {
          DecodingAfterDrain(e1, key, inp.ok);
          DeliverKeeps(lib, inp, m, I, Drain(e1, key, inp.ok).0, key, inp.ticks.second, inp.ok);
        }
      }
    }
  }

  lemma RegisterKeeps(lib: Lib, inp: Input, m: Mode, I: Engine -> bool, e: Engine, p: PeerId, ok: Oracle)
    requires Runs(lib, inp, m, I, e)
    ensures Runs(lib, inp, m, I, Register(e, p, ok))
  {
    DoIs(lib, e, Linking(p, true));
    hide Runs, Do, DoLinking, DoNoting;
    After(lib, inp, m, I, e, Linking(p, true));
    var e1 := DoLinking(e, p, true);
    var a := Noting(Handshake(p, PROTOCOL_VERSION, e.channels.Keys), ok(|e1.log|));
    DoIs(lib, e1, a);
    After(lib, inp, m, I, e1, a);
  }

  lemma ResolveKeeps(lib: Lib, inp: Input, m: Mode, I: Engine -> bool, e: Engine)
    requires Runs(lib, inp, m, I, e) && inp.Net? && inp.event.ChunkSendResult? && (m.echo ==> Echo(e, inp))
    ensures var ev := inp.event;
            Runs(lib, inp, m, I, Resolve(e, ev.peer, ev.key, ev.token, ev.ok, inp.ok))
  {
    var ev := inp.event;
    hide Runs, Do, DoResolving, Drain;
    if Ticket(ev.key, ev.token) in e.pending {
      var a := Resolving(ev.key, ev.peer, ev.token, ev.ok);
      DoIs(lib, e, a);
      After(lib, inp, m, I, e, a);
      AfterDrain(lib, inp, m, I, DoResolving(e, ev.key, ev.peer, ev.token, ev.ok), ev.key, inp.ok);
    }
  }

  lemma HandleEventKeeps(lib: Lib, inp: Input, m: Mode, I: Engine -> bool, e: Engine)
    requires Runs(lib, inp, m, I, e) && inp.Net? && (m.echo ==> Echo(e, inp))
    ensures Runs(lib, inp, m, I, HandleEvent(lib, e, inp.event, inp.ticks, inp.ok, inp.fib))
  {
    hide Runs, Do, JoinEach, DrainChannel, DoJoining, OnOpen, OnChunk, Register, Resolve, DoLeaving, DoDropping,
         DoDetaching, DoLinking, Echo;
    match inp.event
    case HandshakeIn(p, version, channels) =>
      var a := Linking(p, version == PROTOCOL_VERSION);
      DoIs(lib, e, a);
      After(lib, inp, m, I, e, a);
      JoinEachKeeps(lib, inp, m, I, DoLinking(e, p, version == PROTOCOL_VERSION), p, channels, inp.ok);
    case SubscribeIn(p, c) => JoiningKeeps(lib, inp, m, I, e, c, p, inp.ok);
    case UnsubscribeIn(p, c) => DoIs(lib, e, Leaving(c, p)); After(lib, inp, m, I, e, Leaving(c, p));
    case SessionOpenIn(_, key, preamble) => OnOpenKeeps(lib, inp, m, I, e);
    case ChunkIn(_, key, idx, data) => OnChunkKeeps(lib, inp, m, I, e);
    case RoutingUpdateIn(_, _) =>
    case PeerDisconnected(p) => DoIs(lib, e, Dropping(p)); After(lib, inp, m, I, e, Dropping(p));
    case PeerConnected(p) => RegisterKeeps(lib, inp, m, I, e, p, inp.ok);
    case ChunkSendResult(p, key, token, sent) => ResolveKeeps(lib, inp, m, I, e);
    case PeerReconstructed(p, key) =>
      DoIs(lib, e, Detaching(key, p, true));
      After(lib, inp, m, I, e, Detaching(key, p, true));
    case SessionClosed(p, key) =>
      DoIs(lib, e, Detaching(key, p, false));
      After(lib, inp, m, I, e, Detaching(key, p, false));
  }

  lemma {:induction false} OpenEachKeeps(lib: Lib, inp: Input, m: Mode, I: Engine -> bool, e: Engine, key: Key,
                                         peers: seq<PeerId>, ok: Oracle)
    requires Runs(lib, inp, m, I, e) && key in e.sessions
    ensures Runs(lib, inp, m, I, OpenEach(e, key, peers, ok).0)
    ensures OpenEach(e, key, peers, ok).0.sessions == e.sessions
    decreases |peers|
  {
    hide Preserved, EnsureOpen;
    if peers != [] {
      EnsureOpenKeeps(lib, inp, m, I, e, key, peers[0], ok);
      OpenEachKeeps(lib, inp, m, I, EnsureOpen(e, key, peers[0], ok).0, key, peers[1..], ok);
    }
  }

  lemma PublishKeeps(lib: Lib, inp: Input, m: Mode, I: Engine -> bool, e: Engine)
    requires Runs(lib, inp, m, I, e) && inp.Publishing?
    ensures Runs(lib, inp, m, I, Publish(e, inp.key, inp.strategy, inp.preamble, inp.at, inp.ok))
  {
    var key := inp.key;
    hide Runs, Do, OpenEach, Drain;
    if key.channel in e.channels && key !in e.sessions {
      var subs := e.Subscribers(key.channel);
      var a := Creating(key, Session(Phase.Origin, AttachAll(inp.strategy, subs)), inp.preamble, inp.at);
      assert NewSession(lib, inp, e, key, a.session, inp.preamble, inp.at);
      hide DoCreating;
      Created(lib, e, key, a.session, inp.preamble, inp.at);
      After(lib, inp, m, I, e, a);
      var e1 := DoCreating(e, key, a.session, inp.preamble, inp.at);
      OpenEachKeeps(lib, inp, m, I, e1, key, Sorted(subs), inp.ok);
      AfterDrain(lib, inp, m, I, OpenEach(e1, key, Sorted(subs), inp.ok).0, key, inp.ok);
    }
  }

  lemma {:induction false} AnnounceKeeps(lib: Lib, inp: Input, m: Mode, I: Engine -> bool, e: Engine, c: ChannelId,
                                         peers: seq<PeerId>, ok: Oracle)
    requires Runs(lib, inp, m, I, e)
    ensures Runs(lib, inp, m, I, Announce(e, c, peers, ok))
    decreases |peers|
  {
    hide Runs, Do, DoNoting;
    if peers != [] {
      var a := Noting(Subscribe(peers[0], c), ok(|e.log|));
      DoIs(lib, e, a);
      After(lib, inp, m, I, e, a);
      AnnounceKeeps(lib, inp, m, I, DoNoting(e, a.msg, a.sent), c, peers[1..], ok);
    }
  }

  lemma SubscribeKeeps(lib: Lib, inp: Input, m: Mode, I: Engine -> bool, e: Engine, c: ChannelId, rs: RsConfig, ok: Oracle)
    requires Runs(lib, inp, m, I, e)
    ensures Runs(lib, inp, m, I, SubscribeTo(e, c, rs, ok))
  {
    var e1 := DoHosting(e, c, rs);
    assert c in e.channels ==> e1 == e;
    hide Runs, Do, DoHosting, Announce;
    if c !in e.channels {
      DoIs(lib, e, Hosting(c, rs));
      After(lib, inp, m, I, e, Hosting(c, rs));
    }
    AnnounceKeeps(lib, inp, m, I, e1, c, Sorted(e1.connected), ok);
  }

  lemma CleanupKeeps(lib: Lib, inp: Input, m: Mode, I: Engine -> bool, e: Engine)
    requires Runs(lib, inp, m, I, e) && inp.Net? && m.sweep
    ensures Runs(lib, inp, m, I, Cleanup(e, inp.ticks.sweep))
  {
    hide Runs, Do, DoCleaning;
    var a := Cleaning(inp.ticks.sweep);
    if inp.ticks.sweep >= e.nextCleanup {
      DoIs(lib, e, a);
      After(lib, inp, m, I, e, a);
    }
  }

  /** An invariant that every allowed update keeps is kept by the whole step. */
  lemma StepKeeps(lib: Lib, inp: Input, m: Mode, I: Engine -> bool, e: Engine)
    requires Preserved(lib, inp, m, I) && I(e) && m.sweep && (m.echo ==> Echo(e, inp))
    ensures I(Step(lib, e, inp))
  {
    assert Runs(lib, inp, m, I, e);
    hide Preserved, Cleanup, HandleEvent, Publish, SubscribeTo, Register, Echo;
    match inp
    case Net(ev, t, ok, fib) =>
      HandleEventKeeps(lib, inp, m, I, e);
      CleanupKeeps(lib, inp, m, I, HandleEvent(lib, e, ev, t, ok, fib));
    case Publishing(key, s, preamble, at, ok) => PublishKeeps(lib, inp, m, I, e);
    case Subscribing(c, rs, ok) => SubscribeKeeps(lib, inp, m, I, e, c, rs, ok);
    case Dialing(p, ok) => RegisterKeeps(lib, inp, m, I, e, p, ok);
  }

  // ---- Runs ----

  ghost predicate GoodInputs(inputs: seq<Input>) {
    forall i | 0 <= i < |inputs| :: GoodInput(inputs[i])
  }

  /** Every permitted update of every step keeps `I`. */
  ghost predicate Kept(lib: Lib, m: Mode, I: Engine -> bool) {
    forall inp: Input :: GoodInput(inp) ==> Preserved(lib, inp, m, I)
  }

  /** Such an invariant holds after every run. */
  lemma {:induction false} RunKeeps(lib: Lib, m: Mode, I: Engine -> bool, e: Engine, inputs: seq<Input>)
    requires Kept(lib, m, I) && I(e) && m.sweep && !m.echo && GoodInputs(inputs)
    ensures I(Run(lib, e, inputs))
    decreases |inputs|
  {
    hide Step, GoodInput, Preserved;
    if inputs != [] {
      StepKeeps(lib, inputs[0], m, I, e);
      hide Kept;
      RunKeeps(lib, m, I, Step(lib, e, inputs[0]), inputs[1..]);
    }
  }

  lemma BasePreserved(lib: Lib, inp: Input)
    requires GoodInput(inp)
    ensures Preserved(lib, inp, PLAIN, e => Base(e))
  {
    hide Base, Do, Allowed, GoodInput;
    forall e: Engine, a: Act | Base(e) && Allowed(lib, inp, PLAIN, e, a)
      ensures Base(Do(lib, e, a))
    {
      BaseKept(lib, inp, PLAIN, e, a);
    }
  }

  lemma StepBase(lib: Lib, e: Engine, inp: Input)
    requires Base(e) && GoodInput(inp)
    ensures Base(Step(lib, e, inp))
  {
    hide Base, GoodInput, Preserved, Step;
    BasePreserved(lib, inp);
    StepKeeps(lib, inp, PLAIN, e => Base(e), e);
  }

  lemma NewBase(cfg: Config, now: nat)
    ensures Base(New(cfg, now))
  {
  }

  lemma RunBase(lib: Lib, e: Engine, inputs: seq<Input>)
    requires Base(e) && GoodInputs(inputs)
    ensures Base(Run(lib, e, inputs))
  {
    hide Base, GoodInput, GoodInputs, Preserved, Run;
    forall inp: Input | GoodInput(inp)
      ensures Preserved(lib, inp, PLAIN, e => Base(e))
    {
      BasePreserved(lib, inp);
    }
    RunKeeps(lib, PLAIN, e => Base(e), e, inputs);
  }

  /** The engine's tables agree in every reachable state. */
  lemma TablesAgree(lib: Lib, cfg: Config, now: nat, inputs: seq<Input>)
    requires GoodInputs(inputs)
    ensures Base(Run(lib, New(cfg, now), inputs))
  {
    NewBase(cfg, now);
    RunBase(lib, New(cfg, now), inputs);
  }
}
