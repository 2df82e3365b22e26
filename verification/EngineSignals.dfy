/** Every delivery is signalled at once, and nothing else is. */
module EngineSignals {
  import opened Basics
  import opened Havelists
  import opened Coding
  import opened Strategies
  import opened Sessions
  import opened Engines
  import P = Polling

  ghost predicate IsSignal(x: Event, k: Key) {
    x.Sent? && x.msg == SessionReconstructed(k)
  }

  ghost predicate Plain(x: Event) {
    !x.Delivered? && !(x.Sent? && x.msg.SessionReconstructed?)
  }

  /** Each delivery is followed directly by the send of its signal, and each signal follows directly on its delivery. */
  ghost predicate Signalled(log: seq<Event>) {
    && (forall i | 0 <= i < |log| && log[i].Delivered? :: i + 1 < |log| && IsSignal(log[i + 1], log[i].key))
    && (forall i | 0 <= i < |log| && !Plain(log[i]) && !log[i].Delivered? ::
          0 < i && log[i - 1].Delivered? && IsSignal(log[i], log[i - 1].key))
  }

  lemma PlainAppend(log: seq<Event>, x: Event)
    requires Signalled(log) && Plain(x)
    ensures Signalled(log + [x])
  {
    var all := log + [x];
    forall i | 0 <= i < |all| && all[i].Delivered?
      ensures i + 1 < |all| && IsSignal(all[i + 1], all[i].key)
    {
      assert log[i].Delivered?;
    }
  }

  lemma PairAppend(log: seq<Event>, x: Event, y: Event)
    requires Signalled(log) && x.Delivered? && IsSignal(y, x.key)
    ensures Signalled(log + [x] + [y])
  {
    var all := log + [x] + [y];
    forall i | 0 <= i < |all| && all[i].Delivered?
      ensures i + 1 < |all| && IsSignal(all[i + 1], all[i].key)
    {
      if i < |log| { assert log[i].Delivered?; }
    }
  }

  lemma OpeningSignals(e: Engine, key: Key, p: PeerId, sent: bool)
    requires Signalled(e.log)
    ensures Signalled(DoOpening(e, key, p, sent).log)
  {
    hide Signalled;
    PlainAppend(e.log, Sent(SessionOpen(p, key, e.Preamble(key)), sent));
  }

  lemma EnsureOpenSignals(e: Engine, key: Key, p: PeerId, ok: Oracle)
    requires Signalled(e.log)
    ensures Signalled(EnsureOpen(e, key, p, ok).0.log)
  {
    hide Signalled, DoOpening;
    OpeningSignals(e, key, p, ok(|e.log|));
  }

  lemma NotingSignals(e: Engine, m: NetSend, sent: bool)
    requires Signalled(e.log) && !m.SessionReconstructed?
    ensures Signalled(DoNoting(e, m, sent).log)
  {
    hide Signalled;
    PlainAppend(e.log, Sent(m, sent));
  }

  lemma {:induction false} RoutingSignals(e: Engine, key: Key, peers: seq<PeerId>, have: Havelist, ok: Oracle)
    requires Signalled(e.log)
    ensures Signalled(SendRouting(e, key, peers, have, ok).0.log)
    decreases |peers|
  {
    hide Signalled, EnsureOpen, DoNoting;
    if peers != [] {
      EnsureOpenSignals(e, key, peers[0], ok);
      var (e1, isOpen) := EnsureOpen(e, key, peers[0], ok);
      if isOpen {
        var m := RoutingUpdate(peers[0], key, have);
        NotingSignals(e1, m, ok(|e1.log|));
        RoutingSignals(DoNoting(e1, m, ok(|e1.log|)), key, peers[1..], have, ok);
      }
    }
  }

  lemma ChunkingSignals(e: Engine, key: Key, d: Dispatch, sent: bool)
    requires Signalled(e.log)
    ensures Signalled(DoChunking(e, key, d, sent).log)
  {
    hide Signalled, Engine.Settled;
    PlainAppend(e.log, Sent(Chunk(d.peer, key, d.idx, d.payload, d.handle), sent));
  }

  lemma {:induction false} DispatchesSignal(e: Engine, key: Key, ds: seq<Dispatch>, ok: Oracle)
    requires Signalled(e.log)
    ensures Signalled(SendDispatches(e, key, ds, ok).0.log)
    decreases |ds|
  {
    hide Signalled, EnsureOpen, DoChunking;
    if ds != [] {
      EnsureOpenSignals(e, key, ds[0].peer, ok);
      var (e1, isOpen) := EnsureOpen(e, key, ds[0].peer, ok);
      if isOpen {
        ChunkingSignals(e1, key, ds[0], ok(|e1.log|));
        DispatchesSignal(DoChunking(e1, key, ds[0], ok(|e1.log|)), key, ds[1..], ok);
      }
    }
  }

  lemma WorkSignals(e: Engine, key: Key, routing: Option<Havelist>, ds: seq<Dispatch>, ok: Oracle)
    requires Signalled(e.log)
    ensures Signalled(SendWork(e, key, routing, ds, ok).0.log)
  {
    hide Signalled, SendRouting, SendDispatches;
    var subs := Sorted(e.Subscribers(key.channel));
    var e1 := if routing.Some? then SendRouting(e, key, subs, routing.value, ok).0 else e;
    if routing.Some? { RoutingSignals(e, key, subs, routing.value, ok); }
    DispatchesSignal(e1, key, ds, ok);
  }

  lemma RoundSignals(e: Engine, key: Key, ok: Oracle)
    requires key in e.sessions && Signalled(e.log)
    ensures Signalled(DrainRound(e, key, ok).0.log)
  {
    var (s, routing, ds) := Poll(e.sessions[key]);
    hide Signalled, Poll, SendWork;
    WorkSignals(e.(sessions := e.sessions[key := s]), key, routing, ds, ok);
  }

  lemma {:induction false} DrainSignals(e: Engine, key: Key, ok: Oracle)
    requires Signalled(e.log)
    ensures Signalled(Drain(e, key, ok).0.log)
    decreases if key in e.sessions then P.Measure(e.sessions[key].strategy) else 0
  {
    hide Signalled;
    if key in e.sessions {
      RoundSignals(e, key, ok);
      if DrainRound(e, key, ok).1.None? {
        RoundLowersMeasure(e, key, ok);
        hide DrainRound;
        DrainSignals(DrainRound(e, key, ok).0, key, ok);
      }
    }
  }

  lemma {:induction false} EachSignals(e: Engine, c: ChannelId, messages: seq<MessageId>, ok: Oracle)
    requires Signalled(e.log)
    ensures Signalled(DrainEach(e, c, messages, ok).log)
    decreases |messages|
  {
    hide Signalled, Drain;
    if messages != [] {
      DrainSignals(e, Key(c, messages[0]), ok);
      EachSignals(Drain(e, Key(c, messages[0]), ok).0, c, messages[1..], ok);
    }
  }

  lemma JoiningSignals(e: Engine, c: ChannelId, p: PeerId)
    requires Signalled(e.log)
    ensures Signalled(DoJoining(e, c, p).log)
  {
    hide Signalled;
    PlainAppend(e.log, Event.Joined(c, p));
  }

  lemma JoinSignals(e: Engine, c: ChannelId, p: PeerId, ok: Oracle)
    requires Signalled(e.log)
    ensures Signalled(DrainChannel(DoJoining(e, c, p), c, ok).log)
  {
    hide Signalled, DoJoining, DrainEach;
    JoiningSignals(e, c, p);
    var f := DoJoining(e, c, p);
    EachSignals(f, c, Sorted(Messages(f, c)), ok);
  }

  lemma {:induction false} JoinsSignal(e: Engine, p: PeerId, cs: seq<ChannelId>, ok: Oracle)
    requires Signalled(e.log)
    ensures Signalled(JoinEach(e, p, cs, ok).log)
    decreases |cs|
  {
    hide Signalled, DoJoining, DrainChannel;
    if cs != [] {
      JoinSignals(e, cs[0], p, ok);
      JoinsSignal(DrainChannel(DoJoining(e, cs[0], p), cs[0], ok), p, cs[1..], ok);
    }
  }

  lemma DeliverSignals(lib: Lib, e: Engine, key: Key, at: nat, ok: Oracle)
    requires Signalled(e.log)
    ensures Signalled(Deliver(lib, e, key, at, ok).log)
  {
    if key in e.sessions {
      var r := DecodeAndFinish(lib, e.sessions[key]).1;
      hide Signalled, DecodeAndFinish, Stamped;
      var e1 := DoFinishing(lib, e, key, at);
      assert e1.log == e.log + [Ending(key, r, at)];
      if r.Ok? {
        PairAppend(e.log, Ending(key, r, at), Sent(SessionReconstructed(key), ok(|e1.log|)));
      } else {
        PlainAppend(e.log, Ending(key, r, at));
      }
    }
  }

  lemma {:induction false} TakeAllLogs(lib: Lib, e: Engine, key: Key, chunks: seq<ParkedChunk>)
    ensures TakeAll(lib, e, key, chunks).0.log == e.log
    decreases |chunks|
  {
    hide Take, Completes;
    if chunks != [] {
      TakeAllLogs(lib, DoTaking(lib, e, key, chunks[0].idx, chunks[0].data), key, chunks[1..]);
    }
  }

  lemma ReplaySignals(lib: Lib, e: Engine, key: Key, at: nat, ok: Oracle)
    requires Signalled(e.log)
    ensures Signalled(Replay(lib, e, key, at, ok).log)
  {
    hide Signalled, TakeAll, Drain, Deliver;
    if key in e.parked {
      TakeAllLogs(lib, DoUnparking(e, key), key, e.parked[key]);
      var e1 := TakeAll(lib, DoUnparking(e, key), key, e.parked[key]).0;
      DrainSignals(e1, key, ok);
      DeliverSignals(lib, Drain(e1, key, ok).0, key, at, ok);
    }
  }

  lemma CreatingSignals(e: Engine, key: Key, s: Session, preamble: Bytes, at: nat)
    requires Signalled(e.log)
    ensures Signalled(DoCreating(e, key, s, preamble, at).log)
  {
    hide Signalled;
    PlainAppend(e.log, Created(key, s.phase.Origin?, at));
  }

  lemma OpenSignals(lib: Lib, e: Engine, key: Key, preamble: Bytes, t: Ticks, ok: Oracle, fib: nat -> nat)
    requires Signalled(e.log)
    ensures Signalled(OnOpen(lib, e, key, preamble, t, ok, fib).log)
  {
    hide Signalled, DoCreating, Drain, Replay, RelayStrategy;
    var r := RelayStrategy(lib, e, key, preamble, fib);
    if r.Some? {
      var s := Session(Consuming, r.value);
      CreatingSignals(e, key, s, preamble, t.first);
      DrainSignals(DoCreating(e, key, s, preamble, t.first), key, ok);
      ReplaySignals(lib, Drain(DoCreating(e, key, s, preamble, t.first), key, ok).0, key, t.second, ok);
    }
  }

  lemma ChunkSignals(lib: Lib, e: Engine, key: Key, idx: nat, data: Bytes, t: Ticks, ok: Oracle)
    requires Signalled(e.log)
    ensures Signalled(OnChunk(lib, e, key, idx, data, t, ok).log)
  {
    assert DoTaking(lib, e, key, idx, data).log == e.log && DoParking(e, key, ParkedChunk(idx, data, t.first)).log == e.log;
    hide Signalled, DoTaking, DoParking, Drain, Deliver, Completes;
    DrainSignals(DoTaking(lib, e, key, idx, data), key, ok);
    DeliverSignals(lib, Drain(DoTaking(lib, e, key, idx, data), key, ok).0, key, t.second, ok);
  }

  lemma RegisterSignals(e: Engine, p: PeerId, ok: Oracle)
    requires Signalled(e.log)
    ensures Signalled(Register(e, p, ok).log)
  {
    hide Signalled, DoNoting;
    var e1 := DoLinking(e, p, true);
    NotingSignals(e1, Handshake(p, PROTOCOL_VERSION, e.channels.Keys), ok(|e1.log|));
  }

  lemma ResolveSignals(e: Engine, p: PeerId, key: Key, token: Handle, sent: bool, ok: Oracle)
    requires Signalled(e.log)
    ensures Signalled(Resolve(e, p, key, token, sent, ok).log)
  {
    hide Signalled, Drain, Engine.Settled;
    var f := DoResolving(e, key, p, token, sent);
    if e.Flying(key, token) { PlainAppend(e.log, Outcome(key, e.sessions[key].strategy.inFlight[token], sent)); }
    DrainSignals(f, key, ok);
  }

  lemma LeavingSignals(e: Engine, c: ChannelId, p: PeerId)
    requires Signalled(e.log)
    ensures Signalled(DoLeaving(e, c, p).log)
  {
    hide Signalled, DetachedFrom;
    PlainAppend(e.log, Event.Left(c, p));
  }

  lemma DroppingSignals(e: Engine, p: PeerId)
    requires Signalled(e.log)
    ensures Signalled(DoDropping(e, p).log)
  {
    PlainAppend(e.log, Disconnected(p));
    hide Signalled, Detached, Engine.Subscribers;
  }

  lemma DetachingSignals(e: Engine, key: Key, p: PeerId, completed: bool)
    requires Signalled(e.log)
    ensures Signalled(DoDetaching(e, key, p, completed).log)
  {
    hide Signalled, Detached;
    PlainAppend(e.log, if completed then PeerDone(key, p) else PeerClosed(key, p));
  }

  lemma EventSignals(lib: Lib, e: Engine, ev: NetEvent, t: Ticks, ok: Oracle, fib: nat -> nat)
    requires Signalled(e.log)
    ensures Signalled(HandleEvent(lib, e, ev, t, ok, fib).log)
  {
    assert forall p, up :: DoLinking(e, p, up).log == e.log;
    hide Signalled, JoinEach, DrainChannel, DoJoining, OnOpen, OnChunk, Register, Resolve, DoLeaving, DoDropping, DoDetaching,
         DoLinking;
    match ev
    case HandshakeIn(p, version, channels) => JoinsSignal(DoLinking(e, p, true), p, channels, ok);
    case SubscribeIn(p, c) => JoinSignals(e, c, p, ok);
    case UnsubscribeIn(p, c) => LeavingSignals(e, c, p);
    case SessionOpenIn(_, key, preamble) => OpenSignals(lib, e, key, preamble, t, ok, fib);
    case ChunkIn(_, key, idx, data) => ChunkSignals(lib, e, key, idx, data, t, ok);
    case RoutingUpdateIn(_, _) =>
    case PeerDisconnected(p) => DroppingSignals(e, p);
    case PeerConnected(p) => RegisterSignals(e, p, ok);
    case ChunkSendResult(p, key, token, sent) => ResolveSignals(e, p, key, token, sent, ok);
    case PeerReconstructed(p, key) => DetachingSignals(e, key, p, true);
    case SessionClosed(p, key) => DetachingSignals(e, key, p, false);
  }

  lemma {:induction false} OpensSignal(e: Engine, key: Key, peers: seq<PeerId>, ok: Oracle)
    requires Signalled(e.log)
    ensures Signalled(OpenEach(e, key, peers, ok).0.log)
    decreases |peers|
  {
    hide Signalled, EnsureOpen;
    if peers != [] {
      EnsureOpenSignals(e, key, peers[0], ok);
      OpensSignal(EnsureOpen(e, key, peers[0], ok).0, key, peers[1..], ok);
    }
  }

  lemma PublishSignals(e: Engine, key: Key, s: Strategy, preamble: Bytes, at: nat, ok: Oracle)
    requires Signalled(e.log)
    ensures Signalled(Publish(e, key, s, preamble, at, ok).log)
  {
    hide Signalled, DoCreating, OpenEach, Drain;
    var subs := e.Subscribers(key.channel);
    var x := Session(Phase.Origin, AttachAll(s, subs));
    CreatingSignals(e, key, x, preamble, at);
    var e1 := DoCreating(e, key, x, preamble, at);
    OpensSignal(e1, key, Sorted(subs), ok);
    DrainSignals(OpenEach(e1, key, Sorted(subs), ok).0, key, ok);
  }

  lemma {:induction false} AnnounceSignals(e: Engine, c: ChannelId, peers: seq<PeerId>, ok: Oracle)
    requires Signalled(e.log)
    ensures Signalled(Announce(e, c, peers, ok).log)
    decreases |peers|
  {
    hide Signalled, DoNoting;
    if peers != [] {
      NotingSignals(e, Subscribe(peers[0], c), ok(|e.log|));
      AnnounceSignals(DoNoting(e, Subscribe(peers[0], c), ok(|e.log|)), c, peers[1..], ok);
    }
  }

  lemma CleanupSignals(e: Engine, now: nat)
    requires Signalled(e.log)
    ensures Signalled(Cleanup(e, now).log)
  {
    hide Signalled, ExpiredKeys, Standing, Waiting;
    PlainAppend(e.log, Disposed(ExpiredKeys(e, now), now));
  }

  lemma StepSignals(lib: Lib, e: Engine, inp: Input)
    requires Signalled(e.log)
    ensures Signalled(Step(lib, e, inp).log)
  {
    assert inp.Subscribing? ==> DoHosting(e, inp.channel, inp.rs).log == e.log;
    hide Signalled, HandleEvent, Cleanup, Publish, Announce, Register, DoHosting;
    match inp
    case Net(ev, t, ok, fib) =>
      EventSignals(lib, e, ev, t, ok, fib);
      CleanupSignals(HandleEvent(lib, e, ev, t, ok, fib), t.sweep);
    case Publishing(key, s, preamble, at, ok) => PublishSignals(e, key, s, preamble, at, ok);
    case Subscribing(c, rs, ok) =>
      var f := DoHosting(e, c, rs);
      AnnounceSignals(f, c, Sorted(f.connected), ok);
    case Dialing(p, ok) => RegisterSignals(e, p, ok);
  }

  lemma {:induction false} RunSignals(lib: Lib, e: Engine, inputs: seq<Input>)
    requires Signalled(e.log)
    ensures Signalled(Run(lib, e, inputs).log)
    decreases |inputs|
  {
    hide Signalled, Step;
    if inputs != [] {
      StepSignals(lib, e, inputs[0]);
      RunSignals(lib, Step(lib, e, inputs[0]), inputs[1..]);
    }
  }

  /**
   * In the log of any run, every delivery is followed directly by the send of `SessionReconstructed` for its message, and no
   * such send occurs otherwise.
   */
  lemma DeliveriesAreSignalled(lib: Lib, cfg: Config, now: nat, inputs: seq<Input>)
    ensures Signalled(Run(lib, New(cfg, now), inputs).log)
  {
    RunSignals(lib, New(cfg, now), inputs);
  }
}
