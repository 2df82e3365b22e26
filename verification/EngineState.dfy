/** The engine as the source keeps it: tables updated in place, each method proved against the step function it runs. */
module EngineStates {
  import opened Basics
  import opened Havelists
  import opened Coding
  import opened Strategies
  import opened Sessions
  import opened Engines
  import P = Polling

  /** `log` stands for the network and the delivery queue: what the engine hands out, in order. */
  class EngineState {
    const cfg: Config
    var channels: map<ChannelId, Channel>
    var sessions: map<Key, Session>
    var connected: set<PeerId>
    var pending: map<Ticket, PeerId>
    var preambles: map<Key, Bytes>
    var openedTo: map<Key, set<PeerId>>
    var meta: map<Key, Meta>
    var tombstones: map<Key, nat>
    var parked: map<Key, seq<ParkedChunk>>
    var nextCleanup: nat
    var log: seq<Event>

    function View(): Engine
      reads this
    {
      Engine(cfg, channels, sessions, connected, pending, preambles, openedTo, meta, tombstones, parked, nextCleanup, log)
    }

    constructor (cfg: Config, now: nat)
      ensures View() == New(cfg, now)
    {
      this.cfg, nextCleanup := cfg, now + cfg.cleanupInterval;
      channels, sessions, connected, pending := map[], map[], {}, map[];
      preambles, openedTo, meta, tombstones, parked, log := map[], map[], map[], map[], map[], [];
    }

    /** Hands a message to the transport, which accepts it or not. */
    method Send(msg: NetSend, ok: Oracle) returns (sent: bool)
      modifies this`log
      ensures sent == ok(|old(log)|) && View() == DoNoting(old(View()), msg, sent)
    {
      sent := ok(|log|);
      log := log + [Sent(msg, sent)];
    }

    method EnsureSessionOpen(key: Key, p: PeerId, ok: Oracle) returns (isOpen: bool)
      modifies this`log, this`openedTo
      ensures (View(), isOpen) == EnsureOpen(old(View()), key, p, ok)
    {
      if key in openedTo && p in openedTo[key] { return true; }
      if key !in preambles { return true; }
      var sent := Send(SessionOpen(p, key, preambles[key]), ok);
      if !sent { return false; }
      openedTo := openedTo[key := (if key in openedTo then openedTo[key] else {}) + {p}];
      return true;
    }

    // ---- Draining ----

    method SendRoutingUpdate(key: Key, peers: seq<PeerId>, have: Havelist, ok: Oracle) returns (done: bool)
      modifies this`log, this`openedTo
      ensures (View(), done) == SendRouting(old(View()), key, peers, have, ok)
    {
      hide EnsureOpen, DoNoting;
      ghost var goal := SendRouting(View(), key, peers, have, ok);
      assert peers[0..] == peers;
      for i := 0 to |peers|
        invariant SendRouting(View(), key, peers[i..], have, ok) == goal
      {
        assert peers[i..][1..] == peers[i + 1..];
        var isOpen := EnsureSessionOpen(key, peers[i], ok);
        if !isOpen { return false; }
        var sent := Send(RoutingUpdate(peers[i], key, have), ok);
        if !sent { return false; }
      }
      return true;
    }

    /** One chunk: pending once the transport has it, refunded when it refuses. */
    method SendChunk(key: Key, d: Dispatch, ok: Oracle) returns (sent: bool)
      modifies this`log, this`pending, this`sessions
      ensures sent == ok(|old(log)|) && View() == DoChunking(old(View()), key, d, sent)
    {
      sent := Send(Chunk(d.peer, key, d.idx, d.payload, d.handle), ok);
      if sent {
        pending := pending[Ticket(key, d.handle) := d.peer];
      } else if key in sessions {
        sessions := sessions[key := sessions[key].(strategy := ChunkSent(sessions[key].strategy, d.peer, d.handle, false))];
      }
    }

    method SendChunks(key: Key, ds: seq<Dispatch>, ok: Oracle) returns (round: Round)
      modifies this`log, this`openedTo, this`pending, this`sessions
      ensures (View(), round) == SendDispatches(old(View()), key, ds, ok)
    {
      hide EnsureOpen, DoChunking;
      var stalled := false;
      ghost var goal := SendDispatches(View(), key, ds, ok);
      assert ds[0..] == ds;
      for i := 0 to |ds|
        invariant SendDispatches(View(), key, ds[i..], ok).0 == goal.0
        invariant goal.1 == Combined(stalled, SendDispatches(View(), key, ds[i..], ok).1)
      {
        assert ds[i..][1..] == ds[i + 1..];
        var isOpen := EnsureSessionOpen(key, ds[i].peer, ok);
        if !isOpen { return Broken; }
        var sent := SendChunk(key, ds[i], ok);
        if !sent { stalled := true; }
      }
      return if stalled then Stalled else Clear;
    }

    /** One round: poll, send the routing update to the subscribers, send the chunks. */
    method DrainOnce(key: Key, ok: Oracle) returns (end: Option<DrainEnd>)
      requires key in sessions
      modifies this`log, this`openedTo, this`pending, this`sessions
      ensures (View(), end) == DrainRound(old(View()), key, ok)
    {
      hide Poll, SendRouting, SendDispatches;
      var (s, routing, ds) := Poll(sessions[key]);
      sessions := sessions[key := s];
      if routing.None? && ds == [] { return Some(Idle); }
      if routing.Some? {
        var done := SendRoutingUpdate(key, Sorted(View().Subscribers(key.channel)), routing.value, ok);
        if !done { return Some(Failure); }
      }
      var round := SendChunks(key, ds, ok);
      match round
      case Broken => return Some(Failure);
      case Stalled => return Some(Stall);
      case Clear => return None;
    }

    /** The drain loop. It ends because every round that goes on lowers the strategy's measure. */
    method DrainSession(key: Key, ok: Oracle) returns (end: DrainEnd)
      modifies this`log, this`openedTo, this`pending, this`sessions
      ensures (View(), end) == Drain(old(View()), key, ok)
    {
      hide DrainRound, P.Measure;
      ghost var goal := Drain(View(), key, ok);
      while key in sessions
        invariant Drain(View(), key, ok) == goal
        decreases if key in sessions then P.Measure(sessions[key].strategy) else 0
      {
        ghost var before := View();
        var r := DrainOnce(key, ok);
        if r.Some? { return r.value; }
        RoundLowersMeasure(before, key, ok);
      }
      return NoSession;
    }

    method DrainWholeChannel(c: ChannelId, ok: Oracle)
      modifies this`log, this`openedTo, this`pending, this`sessions
      ensures View() == DrainChannel(old(View()), c, ok)
    {
      hide Drain;
      if c !in channels { return; }
      var messages := Sorted(Messages(View(), c));
      ghost var goal := DrainEach(View(), c, messages, ok);
      assert messages[0..] == messages;
      for i := 0 to |messages|
        invariant DrainEach(View(), c, messages[i..], ok) == goal
      {
        assert messages[i..][1..] == messages[i + 1..];
        var end := DrainSession(Key(c, messages[i]), ok);
        if end.Failure? { return; }
      }
    }

    // ---- Chunks and opens ----

    method FinishSession(lib: Lib, key: Key, at: nat, ok: Oracle)
      modifies this`sessions, this`meta, this`log
      ensures View() == Deliver(lib, old(View()), key, at, ok)
    {
      hide DecodeAndFinish;
      if key !in sessions { return; }
      var (s, r) := DecodeAndFinish(lib, sessions[key]);
      sessions := sessions[key := s];
      if key in meta && meta[key].terminal.None? {
        meta := meta[key := meta[key].(terminal := Some(at))];
      }
      log := log + [Ending(key, r, at)];
      if r.Ok? {
        var _ := Send(SessionReconstructed(key), ok);
      }
    }

    /** True when the chunk completes its session. */
    method TakeOne(lib: Lib, key: Key, idx: nat, data: Bytes) returns (complete: bool)
      modifies this`sessions
      ensures View() == DoTaking(lib, old(View()), key, idx, data)
      ensures complete == Completes(lib, old(View()), key, idx, data)
    {
      hide Take;
      if key !in sessions { return false; }
      var (s, r) := Take(lib, sessions[key], idx, data);
      sessions := sessions[key := s];
      return r.Ok? && r.value.complete;
    }

    method ParkChunk(key: Key, idx: nat, data: Bytes, at: nat)
      modifies this`parked
      ensures View() == DoParking(old(View()), key, ParkedChunk(idx, data, at))
    {
      var buf := if key in parked then parked[key] else [];
      if |buf| >= MAX_PARKED { buf := buf[1..]; }
      parked := parked[key := buf + [ParkedChunk(idx, data, at)]];
    }

    method ReplayParked(lib: Lib, key: Key, at: nat, ok: Oracle)
      modifies this`sessions, this`meta, this`log, this`parked, this`openedTo, this`pending
      ensures View() == Replay(lib, old(View()), key, at, ok)
    {
      hide Drain, Deliver, DoTaking, Completes;
      if key !in parked { return; }
      var chunks := parked[key];
      parked := parked - {key};
      var complete := false;
      ghost var goal := TakeAll(lib, View(), key, chunks);
      assert chunks[0..] == chunks;
      for i := 0 to |chunks|
        invariant TakeAll(lib, View(), key, chunks[i..]).0 == goal.0
        invariant goal.1 == (complete || TakeAll(lib, View(), key, chunks[i..]).1)
        invariant parked == old(parked) - {key}
      {
        assert chunks[i..][1..] == chunks[i + 1..];
        var done := TakeOne(lib, key, chunks[i].idx, chunks[i].data);
        complete := complete || done;
      }
      assert chunks[|chunks|..] == [];
      var _ := DrainSession(key, ok);
      if complete { FinishSession(lib, key, at, ok); }
    }

    method OpenSession(lib: Lib, key: Key, preamble: Bytes, t: Ticks, ok: Oracle, fib: nat -> nat)
      modifies this
      ensures View() == OnOpen(lib, old(View()), key, preamble, t, ok, fib)
    {
      hide RelayStrategy, Drain, Replay;
      if key in tombstones || key in sessions { return; }
      var s := RelayStrategy(lib, View(), key, preamble, fib);
      if s.None? { return; }
      CreateSession(key, Session(Consuming, s.value), preamble, t.first);
      var _ := DrainSession(key, ok);
      ReplayParked(lib, key, t.second, ok);
    }

    method CreateSession(key: Key, s: Session, preamble: Bytes, at: nat)
      modifies this`sessions, this`preambles, this`meta, this`log
      ensures View() == DoCreating(old(View()), key, s, preamble, at)
    {
      sessions := sessions[key := s];
      preambles := preambles[key := preamble];
      if key !in meta { meta := meta[key := Meta(at, None)]; }
      log := log + [Created(key, s.phase.Origin?, at)];
    }

    method ReceiveChunk(lib: Lib, key: Key, idx: nat, data: Bytes, t: Ticks, ok: Oracle)
      modifies this
      ensures View() == OnChunk(lib, old(View()), key, idx, data, t, ok)
    {
      hide Drain, Deliver, DoTaking, Completes, DoParking;
      if key in tombstones { return; }
      if key !in sessions {
        ParkChunk(key, idx, data, t.first);
        return;
      }
      var complete := TakeOne(lib, key, idx, data);
      var _ := DrainSession(key, ok);
      if complete { FinishSession(lib, key, t.second, ok); }
    }

    // ---- Membership ----

    method SubscribePeer(c: ChannelId, p: PeerId)
      modifies this`channels, this`sessions, this`log
      ensures View() == DoJoining(old(View()), c, p)
    {
      hide AttachPeer;
      if c !in channels || p in channels[c].subscribers { return; }
      channels := channels[c := channels[c].(subscribers := channels[c].subscribers + {p})];
      sessions := AttachEach(sessions, c, p);
      log := log + [Joined(c, p)];
    }

    method UnsubscribePeer(c: ChannelId, p: PeerId)
      modifies this`channels, this`sessions, this`log
      ensures View() == DoLeaving(old(View()), c, p)
    {
      hide Detached;
      if c !in channels || p !in channels[c].subscribers { return; }
      channels := channels[c := channels[c].(subscribers := channels[c].subscribers - {p})];
      sessions := DetachEach(sessions, c, p);
      log := log + [Left(c, p)];
    }

    /** The peer leaves every channel; its pending sends and opened sessions are forgotten. */
    method DropPeer(p: PeerId)
      modifies this`connected, this`pending, this`openedTo, this`channels, this`sessions, this`log
      ensures View() == DoDropping(old(View()), p)
    {
      hide Unpended, Unopened, Unsubscribed, AfterLeaving, DoDropping;
      ghost var before := View();
      connected := connected - {p};
      pending := Unpended(pending, p);
      openedTo := Unopened(openedTo, p);
      channels, sessions := LeaveEach(channels, sessions, p);
      log := log + [Disconnected(p)];
      DroppedAre(before, p);
      assert View() == DoDropping(before, p);
    }

    method DetachFromSession(key: Key, p: PeerId, completed: bool)
      modifies this`sessions, this`log
      ensures View() == DoDetaching(old(View()), key, p, completed)
    {
      if key !in sessions { return; }
      sessions := sessions[key := Detached(sessions[key], p)];
      log := log + [if completed then PeerDone(key, p) else PeerClosed(key, p)];
    }

    method JoinChannels(p: PeerId, cs: seq<ChannelId>, ok: Oracle)
      modifies this`channels, this`sessions, this`log, this`openedTo, this`pending
      ensures View() == JoinEach(old(View()), p, cs, ok)
    {
      hide DoJoining, DrainChannel;
      ghost var goal := JoinEach(View(), p, cs, ok);
      assert cs[0..] == cs;
      for i := 0 to |cs|
        invariant JoinEach(View(), p, cs[i..], ok) == goal
      {
        assert cs[i..][1..] == cs[i + 1..];
        SubscribePeer(cs[i], p);
        DrainWholeChannel(cs[i], ok);
      }
    }

    method RegisterPeer(p: PeerId, ok: Oracle)
      modifies this`connected, this`log
      ensures View() == Register(old(View()), p, ok)
    {
      if p in connected { return; }
      connected := connected + {p};
      var _ := Send(Handshake(p, PROTOCOL_VERSION, channels.Keys), ok);
    }

    method ResolveChunkSend(p: PeerId, key: Key, token: Handle, sent: bool, ok: Oracle)
      modifies this`pending, this`sessions, this`log, this`openedTo
      ensures View() == Resolve(old(View()), p, key, token, sent, ok)
    {
      hide Drain, ChunkSent;
      if Ticket(key, token) !in pending { return; }
      pending := pending - {Ticket(key, token)};
      if key in sessions {
        if token in sessions[key].strategy.inFlight {
          log := log + [Outcome(key, sessions[key].strategy.inFlight[token], sent)];
        }
        sessions := sessions[key := sessions[key].(strategy := ChunkSent(sessions[key].strategy, p, token, sent))];
      }
      var _ := DrainSession(key, ok);
    }

    // ---- Cleanup ----

    method DisposeSession(key: Key, now: nat)
      modifies this`sessions, this`meta, this`preambles, this`openedTo, this`parked, this`pending, this`tombstones
      ensures sessions == old(sessions) - {key} && meta == old(meta) - {key} && preambles == old(preambles) - {key}
      ensures openedTo == old(openedTo) - {key} && parked == old(parked) - {key}
      ensures pending == Unkeyed(old(pending), {key}) && tombstones == old(tombstones)[key := now]
    {
      sessions, meta, preambles := sessions - {key}, meta - {key}, preambles - {key};
      openedTo, parked := openedTo - {key}, parked - {key};
      pending := Unkeyed(pending, {key});
      tombstones := tombstones[key := now];
    }

    method DisposeAll(keys: set<Key>, now: nat)
      modifies this`sessions, this`meta, this`preambles, this`openedTo, this`parked, this`pending, this`tombstones,
               this`log
      ensures View() == DoDisposing(old(View()), keys, now)
    {
      hide Cleared;
      var left := keys;
      ClearedNone(View(), now);
      assert keys - keys == {};
      while left != {}
        invariant left <= keys && View() == Cleared(old(View()), keys - left, now)
        decreases left
      {
        var key :| key in left;
        assert keys - (left - {key}) == (keys - left) + {key};
        ClearedOne(old(View()), keys - left, key, now);
        ghost var before := View();
        DisposeSession(key, now);
        ClearedBy(before, View(), key, now);
        left := left - {key};
      }
      assert keys - {} == keys;
      ClearedLogged(old(View()), keys, now);
      log := log + [Disposed(keys, now)];
    }

    /** A sweep once its time has come. */
    method MaybeRunCleanup(now: nat)
      modifies this
      ensures View() == Cleanup(old(View()), now)
    {
      hide ExpiredKeys, DoDisposing, Standing, Waiting;
      if now < nextCleanup { return; }
      var expired := ExpiredKeys(View(), now);
      nextCleanup := now + cfg.cleanupInterval;
      DisposeAll(expired, now);
      tombstones := Standing(tombstones, now, cfg.tombstoneTtl);
      parked := Waiting(parked, now);
    }

    // ---- Entry points ----

    method Handle(lib: Lib, ev: NetEvent, t: Ticks, ok: Oracle, fib: nat -> nat)
      modifies this
      ensures View() == HandleEvent(lib, old(View()), ev, t, ok, fib)
    {
      hide JoinEach, DrainChannel, DoJoining, OnOpen, OnChunk, Register, Resolve, DoLeaving, DoDropping, DoDetaching;
      match ev
      case HandshakeIn(p, version, cs) =>
        if version == PROTOCOL_VERSION {
          connected := connected + {p};
          JoinChannels(p, cs, ok);
        } else {
          connected := connected - {p};
        }
      case SubscribeIn(p, c) =>
        SubscribePeer(c, p);
        DrainWholeChannel(c, ok);
      case UnsubscribeIn(p, c) => UnsubscribePeer(c, p);
      case SessionOpenIn(_, key, preamble) => OpenSession(lib, key, preamble, t, ok, fib);
      case ChunkIn(_, key, idx, data) => ReceiveChunk(lib, key, idx, data, t, ok);
      case RoutingUpdateIn(_, _) =>
      case PeerDisconnected(p) => DropPeer(p);
      case PeerConnected(p) => RegisterPeer(p, ok);
      case ChunkSendResult(p, key, token, sent) => ResolveChunkSend(p, key, token, sent, ok);
      case PeerReconstructed(p, key) => DetachFromSession(key, p, true);
      case SessionClosed(p, key) => DetachFromSession(key, p, false);
    }

    method RunOneStep(lib: Lib, ev: NetEvent, t: Ticks, ok: Oracle, fib: nat -> nat)
      modifies this
      ensures View() == Step(lib, old(View()), Net(ev, t, ok, fib))
    {
      hide HandleEvent, Cleanup;
      Handle(lib, ev, t, ok, fib);
      MaybeRunCleanup(t.sweep);
    }

    method PublishMessage(key: Key, s: Strategy, preamble: Bytes, at: nat, ok: Oracle)
      modifies this
      ensures View() == Publish(old(View()), key, s, preamble, at, ok)
    {
      hide Drain, EnsureOpen, DoCreating;
      if key.channel !in channels || key in sessions { return; }
      var subs := channels[key.channel].subscribers;
      CreateSession(key, Session(Phase.Origin, AttachAll(s, subs)), preamble, at);
      var peers := Sorted(subs);
      ghost var goal := OpenEach(View(), key, peers, ok);
      assert peers[0..] == peers;
      for i := 0 to |peers|
        invariant OpenEach(View(), key, peers[i..], ok) == goal
      {
        assert peers[i..][1..] == peers[i + 1..];
        var isOpen := EnsureSessionOpen(key, peers[i], ok);
        if !isOpen { return; }
      }
      var _ := DrainSession(key, ok);
    }

    method SubscribeLocally(c: ChannelId, rs: RsConfig, ok: Oracle)
      modifies this`channels, this`log
      ensures View() == SubscribeTo(old(View()), c, rs, ok)
    {
      hide DoNoting;
      if c !in channels { channels := channels[c := Channel({}, rs)]; }
      var peers := Sorted(connected);
      ghost var goal := Announce(View(), c, peers, ok);
      assert peers[0..] == peers;
      for i := 0 to |peers|
        invariant Announce(View(), c, peers[i..], ok) == goal
      {
        assert peers[i..][1..] == peers[i + 1..];
        var sent := Send(Subscribe(peers[i], c), ok);
        if !sent { return; }
      }
    }
  }

  // ---- Tables ----

  function Unkeyed(pending: map<Ticket, PeerId>, keys: set<Key>): map<Ticket, PeerId> {
    map t | t in pending && t.key !in keys :: pending[t]
  }

  function Buried(tombstones: map<Key, nat>, keys: set<Key>, now: nat): map<Key, nat> {
    map k | k in tombstones.Keys + keys :: if k in keys then now else tombstones[k]
  }

  /** The engine with all state of these sessions gone and tombstones in their place. */
  ghost function Cleared(e: Engine, keys: set<Key>, now: nat): Engine {
    e.(sessions := e.sessions - keys, meta := e.meta - keys, preambles := e.preambles - keys,
       openedTo := e.openedTo - keys, parked := e.parked - keys, pending := Unkeyed(e.pending, keys),
       tombstones := Buried(e.tombstones, keys, now))
  }

  lemma BuryOne(tombstones: map<Key, nat>, key: Key, now: nat)
    ensures tombstones[key := now] == Buried(tombstones, {key}, now)
  {
  }

  lemma ClearedBy(e: Engine, f: Engine, key: Key, now: nat)
    requires f == e.(sessions := e.sessions - {key}, meta := e.meta - {key}, preambles := e.preambles - {key},
                     openedTo := e.openedTo - {key}, parked := e.parked - {key}, pending := Unkeyed(e.pending, {key}),
                     tombstones := e.tombstones[key := now])
    ensures f == Cleared(e, {key}, now)
  {
    hide Unkeyed, Buried;
    BuryOne(e.tombstones, key, now);
  }

  lemma UnkeyedTwice(pending: map<Ticket, PeerId>, keys: set<Key>, key: Key)
    ensures Unkeyed(Unkeyed(pending, keys), {key}) == Unkeyed(pending, keys + {key})
  {
  }

  lemma BuriedTwice(tombstones: map<Key, nat>, keys: set<Key>, key: Key, now: nat)
    ensures Buried(Buried(tombstones, keys, now), {key}, now) == Buried(tombstones, keys + {key}, now)
  {
  }

  lemma MinusTwice<V>(m: map<Key, V>, keys: set<Key>, key: Key)
    ensures m - keys - {key} == m - (keys + {key})
  {
  }

  lemma ClearedOne(e: Engine, keys: set<Key>, key: Key, now: nat)
    ensures Cleared(Cleared(e, keys, now), {key}, now) == Cleared(e, keys + {key}, now)
  {
    hide Unkeyed, Buried;
    UnkeyedTwice(e.pending, keys, key);
    BuriedTwice(e.tombstones, keys, key, now);
    MinusTwice(e.sessions, keys, key);
    MinusTwice(e.meta, keys, key);
    MinusTwice(e.preambles, keys, key);
    MinusTwice(e.openedTo, keys, key);
    MinusTwice(e.parked, keys, key);
  }

  lemma ClearedNone(e: Engine, now: nat)
    ensures Cleared(e, {}, now) == e
  {
    assert Unkeyed(e.pending, {}) == e.pending;
    assert Buried(e.tombstones, {}, now) == e.tombstones;
  }

  lemma ClearedLogged(e: Engine, keys: set<Key>, now: nat)
    ensures DoDisposing(e, keys, now) == Cleared(e, keys, now).(log := e.log + [Disposed(keys, now)])
    ensures Cleared(e, keys, now).log == e.log
  {
  }

  method AttachEach(sessions: map<Key, Session>, c: ChannelId, p: PeerId) returns (r: map<Key, Session>)
    ensures r == map k | k in sessions ::
                   if k.channel == c then sessions[k].(strategy := AttachPeer(sessions[k].strategy, p)) else sessions[k]
  {
    hide AttachPeer;
    r := sessions;
    var left := set k | k in sessions && k.channel == c;
    while left != {}
      invariant left <= sessions.Keys && r.Keys == sessions.Keys
      invariant forall k | k in sessions ::
                  r[k] == if k.channel == c && k !in left
                          then sessions[k].(strategy := AttachPeer(sessions[k].strategy, p)) else sessions[k]
      decreases left
    {
      var k :| k in left;
      r := r[k := r[k].(strategy := AttachPeer(r[k].strategy, p))];
      left := left - {k};
    }
  }

  method DetachEach(sessions: map<Key, Session>, c: ChannelId, p: PeerId) returns (r: map<Key, Session>)
    ensures r == map k | k in sessions :: if k.channel == c then Detached(sessions[k], p) else sessions[k]
  {
    hide Detached;
    r := sessions;
    var left := set k | k in sessions && k.channel == c;
    while left != {}
      invariant left <= sessions.Keys && r.Keys == sessions.Keys
      invariant forall k | k in sessions ::
                  r[k] == if k.channel == c && k !in left then Detached(sessions[k], p) else sessions[k]
      decreases left
    {
      var k :| k in left;
      r := r[k := Detached(r[k], p)];
      left := left - {k};
    }
  }

  ghost predicate Member(channels: map<ChannelId, Channel>, c: ChannelId, p: PeerId) {
    c in channels && p in channels[c].subscribers
  }

  function Unpended(pending: map<Ticket, PeerId>, p: PeerId): map<Ticket, PeerId> {
    map t | t in pending && pending[t] != p :: pending[t]
  }

  function Unopened(openedTo: map<Key, set<PeerId>>, p: PeerId): map<Key, set<PeerId>> {
    map k | k in openedTo :: openedTo[k] - {p}
  }

  function Unsubscribed(channels: map<ChannelId, Channel>, p: PeerId): map<ChannelId, Channel> {
    map c | c in channels :: channels[c].(subscribers := channels[c].subscribers - {p})
  }

  /** The sessions after the peer left every channel it was in. */
  ghost function AfterLeaving(channels: map<ChannelId, Channel>, sessions: map<Key, Session>, p: PeerId): map<Key, Session> {
    map k | k in sessions :: if Member(channels, k.channel, p) then Detached(sessions[k], p) else sessions[k]
  }

  lemma DroppedAre(e: Engine, p: PeerId)
    ensures DoDropping(e, p)
         == e.(connected := e.connected - {p}, pending := Unpended(e.pending, p), openedTo := Unopened(e.openedTo, p),
               channels := Unsubscribed(e.channels, p), sessions := AfterLeaving(e.channels, e.sessions, p),
               log := e.log + [Disconnected(p)])
  {
    hide Detached;
  }

  /** The peer leaves each channel it is in, and with it the channel's sessions. */
  method LeaveEach(channels: map<ChannelId, Channel>, sessions: map<Key, Session>, p: PeerId)
    returns (cs: map<ChannelId, Channel>, ss: map<Key, Session>)
    ensures cs == Unsubscribed(channels, p) && ss == AfterLeaving(channels, sessions, p)
  {
    hide Detached;
    cs, ss := channels, sessions;
    var left := channels.Keys;
    while left != {}
      invariant left <= channels.Keys == cs.Keys && ss.Keys == sessions.Keys
      invariant forall c | c in channels ::
                  cs[c] == if c in left then channels[c] else channels[c].(subscribers := channels[c].subscribers - {p})
      invariant forall k | k in sessions ::
                  ss[k] == if Member(channels, k.channel, p) && k.channel !in left
                           then Detached(sessions[k], p) else sessions[k]
      decreases left
    {
      var c :| c in left;
      if p in cs[c].subscribers {
        cs := cs[c := cs[c].(subscribers := cs[c].subscribers - {p})];
        ss := DetachEach(ss, c, p);
      } else {
        assert cs[c].subscribers - {p} == cs[c].subscribers;
      }
      left := left - {c};
    }
  }

  /** The outcome of a round given that an earlier chunk was refused. */
  function Combined(stalled: bool, rest: Round): Round {
    if stalled && rest.Clear? then Stalled else rest
  }
}
