/** The broadcast engine as a state machine: its tables, the primitive updates, and its entry points. */
module Engines {
  import opened Basics
  import opened Havelists
  import opened Coding
  import opened Strategies
  import opened Sessions
  import Polling

  const PROTOCOL_VERSION := 1
  const MAX_PARKED := 32
  const PARKED_TTL := 10_000_000_000

  /** Durations and instants are naturals (nanoseconds). */
  datatype Config = Config(activeTtl: nat, linger: nat, tombstoneTtl: nat, cleanupInterval: nat)

  datatype Meta = Meta(created: nat, terminal: Option<nat>)

  datatype ParkedChunk = ParkedChunk(idx: nat, data: Bytes, at: nat)

  datatype Channel = Channel(subscribers: set<PeerId>, cfg: RsConfig)

  /** Key of a pending send: the session and the dispatch handle used as token. */
  datatype Ticket = Ticket(key: Key, handle: Handle)

  datatype NetSend =
    | Handshake(peer: PeerId, version: nat, channels: set<ChannelId>)
    | Subscribe(peer: PeerId, channel: ChannelId)
    | SessionOpen(peer: PeerId, key: Key, preamble: Bytes)
    | RoutingUpdate(peer: PeerId, key: Key, have: Havelist)
    | Chunk(peer: PeerId, key: Key, idx: nat, data: Bytes, token: Handle)
    | SessionReconstructed(key: Key)

  datatype NetEvent =
    | HandshakeIn(peer: PeerId, version: nat, channels: seq<ChannelId>)
    | SubscribeIn(peer: PeerId, channel: ChannelId)
    | UnsubscribeIn(peer: PeerId, channel: ChannelId)
    | SessionOpenIn(peer: PeerId, key: Key, preamble: Bytes)
    | ChunkIn(peer: PeerId, key: Key, idx: nat, data: Bytes)
    | RoutingUpdateIn(peer: PeerId, key: Key)
    | PeerDisconnected(peer: PeerId)
    | PeerConnected(peer: PeerId)
    | ChunkSendResult(peer: PeerId, key: Key, token: Handle, ok: bool)
    | PeerReconstructed(peer: PeerId, key: Key)
    | SessionClosed(peer: PeerId, key: Key)

  /** What an observer of the engine sees, in order. The source keeps no such log. */
  datatype Event =
    | Sent(msg: NetSend, ok: bool)
    | Created(key: Key, origin: bool, at: nat)
    | Delivered(key: Key, payload: Bytes, at: nat)
    | Undecodable(key: Key, at: nat)
    | Disposed(keys: set<Key>, at: nat)
    | Disconnected(peer: PeerId)
    | Joined(channel: ChannelId, peer: PeerId)
    | Left(channel: ChannelId, peer: PeerId)
    | PeerDone(key: Key, peer: PeerId)
    | PeerClosed(key: Key, peer: PeerId)
    | Outcome(key: Key, flight: Flight, ok: bool)

  datatype Engine = Engine(
    cfg: Config,
    channels: map<ChannelId, Channel>,
    sessions: map<Key, Session>,
    connected: set<PeerId>,
    pending: map<Ticket, PeerId>,
    preambles: map<Key, Bytes>,
    openedTo: map<Key, set<PeerId>>,
    meta: map<Key, Meta>,
    tombstones: map<Key, nat>,
    parked: map<Key, seq<ParkedChunk>>,
    nextCleanup: nat,
    log: seq<Event>)
  {
    function Subscribers(c: ChannelId): set<PeerId> {
      if c in channels then channels[c].subscribers else {}
    }

    function Opened(key: Key): set<PeerId> {
      if key in openedTo then openedTo[key] else {}
    }

    function Preamble(key: Key): Bytes {
      if key in preambles then preambles[key] else []
    }

    function Buffer(key: Key): seq<ParkedChunk> {
      if key in parked then parked[key] else []
    }

    /** A chunk of the session is in flight under the handle. */
    predicate Flying(key: Key, h: Handle) {
      key in sessions && h in sessions[key].strategy.inFlight
    }

    /** The sessions after one chunk outcome is reported to the session's strategy. */
    function Settled(key: Key, p: PeerId, h: Handle, ok: bool): map<Key, Session> {
      if key in sessions
      then sessions[key := sessions[key].(strategy := ChunkSent(sessions[key].strategy, p, h, ok))]
      else sessions
    }
  }

  function New(cfg: Config, now: nat): Engine {
    Engine(cfg, map[], map[], {}, map[], map[], map[], map[], map[], map[], now + cfg.cleanupInterval, [])
  }

  // ---- Primitive updates: one table change each, with what it shows the outside ----

  function DoNoting(e: Engine, msg: NetSend, sent: bool): Engine {
    e.(log := e.log + [Sent(msg, sent)])
  }

  function DoPolling(e: Engine, key: Key): Engine {
    e.(sessions := if key in e.sessions then e.sessions[key := Poll(e.sessions[key]).0] else e.sessions)
  }

  function DoTaking(lib: Lib, e: Engine, key: Key, idx: nat, data: Bytes): Engine {
    e.(sessions := if key in e.sessions then e.sessions[key := Take(lib, e.sessions[key], idx, data).0] else e.sessions)
  }

  function DoUnparking(e: Engine, key: Key): Engine {
    e.(parked := e.parked - {key})
  }

  function DoLinking(e: Engine, p: PeerId, up: bool): Engine {
    e.(connected := if up then e.connected + {p} else e.connected - {p})
  }

  function DoHosting(e: Engine, c: ChannelId, rs: RsConfig): Engine {
    e.(channels := if c in e.channels then e.channels else e.channels[c := Channel({}, rs)])
  }

  function DoOpening(e: Engine, key: Key, p: PeerId, sent: bool): Engine {
    e.(log := e.log + [Sent(SessionOpen(p, key, e.Preamble(key)), sent)],
       openedTo := if sent then e.openedTo[key := e.Opened(key) + {p}] else e.openedTo)
  }

  /** A chunk enters the transport and awaits its outcome, or is refused and refunded on the spot. */
  function DoChunking(e: Engine, key: Key, d: Dispatch, sent: bool): Engine {
    e.(log := e.log + [Sent(Chunk(d.peer, key, d.idx, d.payload, d.handle), sent)],
       pending := if sent then e.pending[Ticket(key, d.handle) := d.peer] else e.pending,
       sessions := if sent then e.sessions else e.Settled(key, d.peer, d.handle, false))
  }

  /** The terminal time is set once. */
  function Stamped(meta: map<Key, Meta>, key: Key, at: nat): map<Key, Meta> {
    if key in meta && meta[key].terminal.None? then meta[key := meta[key].(terminal := Some(at))] else meta
  }

  /** What the end of a session's decoding shows. */
  function Ending(key: Key, r: Result<Bytes, SessionError>, at: nat): Event {
    if r.Ok? then Delivered(key, r.value, at) else Undecodable(key, at)
  }

  /** Decodes the session and delivers the payload if that succeeds. */
  function DoFinishing(lib: Lib, e: Engine, key: Key, at: nat): Engine {
    var live := key in e.sessions;
    e.(sessions := if live then e.sessions[key := DecodeAndFinish(lib, e.sessions[key]).0] else e.sessions,
       meta := if live then Stamped(e.meta, key, at) else e.meta,
       log := if live then e.log + [Ending(key, DecodeAndFinish(lib, e.sessions[key]).1, at)] else e.log)
  }

  function DoParking(e: Engine, key: Key, chunk: ParkedChunk): Engine {
    var buf := e.Buffer(key);
    var room := if |buf| >= MAX_PARKED then buf[1..] else buf;
    e.(parked := e.parked[key := room + [chunk]])
  }

  function DoCreating(e: Engine, key: Key, session: Session, preamble: Bytes, at: nat): Engine {
    e.(sessions := e.sessions[key := session],
       preambles := e.preambles[key := preamble],
       meta := if key in e.meta then e.meta else e.meta[key := Meta(at, None)],
       log := e.log + [Created(key, session.phase.Origin?, at)])
  }

  predicate Expired(e: Engine, key: Key, now: nat)
    requires key in e.meta
  {
    || now > e.meta[key].created + e.cfg.activeTtl
    || (e.meta[key].terminal.Some? && now > e.meta[key].terminal.value + e.cfg.linger)
  }

  function ExpiredKeys(e: Engine, now: nat): set<Key> {
    set k | k in e.meta && Expired(e, k, now)
  }

  /** The sweep: dispose what expired, then drop old tombstones and parked chunks. */
  function DoCleaning(e: Engine, now: nat): Engine {
    DoSweeping(DoDisposing(e.(nextCleanup := now + e.cfg.cleanupInterval), ExpiredKeys(e, now), now), now)
  }

  /** Drops all state of the sessions and leaves tombstones. */
  function DoDisposing(e: Engine, keys: set<Key>, at: nat): Engine {
    e.(sessions := e.sessions - keys,
       meta := e.meta - keys,
       preambles := e.preambles - keys,
       openedTo := e.openedTo - keys,
       parked := e.parked - keys,
       pending := map t | t in e.pending && t.key !in keys :: e.pending[t],
       tombstones := map k | k in e.tombstones.Keys + keys :: if k in keys then at else e.tombstones[k],
       log := e.log + [Disposed(keys, at)])
  }

  function DoJoining(e: Engine, c: ChannelId, p: PeerId): Engine {
    var joins := c in e.channels && p !in e.channels[c].subscribers;
    e.(channels := if joins then e.channels[c := e.channels[c].(subscribers := e.channels[c].subscribers + {p})]
                   else e.channels,
       sessions := if joins then AttachedTo(e.sessions, c, p) else e.sessions,
       log := if joins then e.log + [Joined(c, p)] else e.log)
  }

  function AttachedTo(sessions: map<Key, Session>, c: ChannelId, p: PeerId): map<Key, Session> {
    map k | k in sessions ::
      if k.channel == c then sessions[k].(strategy := AttachPeer(sessions[k].strategy, p)) else sessions[k]
  }

  function Detached(s: Session, p: PeerId): Session {
    s.(strategy := DetachPeer(s.strategy, p))
  }

  function DetachedFrom(sessions: map<Key, Session>, c: ChannelId, p: PeerId): map<Key, Session> {
    map k | k in sessions :: if k.channel == c then Detached(sessions[k], p) else sessions[k]
  }

  function DoLeaving(e: Engine, c: ChannelId, p: PeerId): Engine {
    var leaves := c in e.channels && p in e.channels[c].subscribers;
    e.(channels := if leaves then e.channels[c := e.channels[c].(subscribers := e.channels[c].subscribers - {p})]
                   else e.channels,
       sessions := if leaves then DetachedFrom(e.sessions, c, p) else e.sessions,
       log := if leaves then e.log + [Left(c, p)] else e.log)
  }

  function DoDetaching(e: Engine, key: Key, p: PeerId, completed: bool): Engine {
    var live := key in e.sessions;
    e.(sessions := if live then e.sessions[key := Detached(e.sessions[key], p)] else e.sessions,
       log := if live then e.log + [if completed then PeerDone(key, p) else PeerClosed(key, p)] else e.log)
  }

  function DoResolving(e: Engine, key: Key, p: PeerId, token: Handle, ok: bool): Engine {
    e.(pending := e.pending - {Ticket(key, token)}, sessions := e.Settled(key, p, token, ok),
       log := if e.Flying(key, token) then e.log + [Outcome(key, e.sessions[key].strategy.inFlight[token], ok)] else e.log)
  }

  /** A peer disconnects: forget its pending sends and the sessions opened to it, and leave every channel it was in. */
  function DoDropping(e: Engine, p: PeerId): Engine {
    e.(connected := e.connected - {p},
       pending := map t | t in e.pending && e.pending[t] != p :: e.pending[t],
       openedTo := map k | k in e.openedTo :: e.openedTo[k] - {p},
       channels := map c | c in e.channels ::
         e.channels[c].(subscribers := e.channels[c].subscribers - {p}),
       sessions := map k | k in e.sessions ::
         if p in e.Subscribers(k.channel) then Detached(e.sessions[k], p) else e.sessions[k],
       log := e.log + [Disconnected(p)])
  }

  function Unexpired(buf: seq<ParkedChunk>, at: nat): (r: seq<ParkedChunk>)
    ensures |r| <= |buf|
    ensures forall x | x in r :: x in buf && at <= x.at + PARKED_TTL
  {
    if buf == [] then []
    else if at <= buf[0].at + PARKED_TTL then [buf[0]] + Unexpired(buf[1..], at)
    else Unexpired(buf[1..], at)
  }

  /** Drops tombstones and parked chunks past their lifetimes. */
  function DoSweeping(e: Engine, at: nat): Engine {
    e.(tombstones := Standing(e.tombstones, at, e.cfg.tombstoneTtl), parked := Waiting(e.parked, at))
  }

  function Standing(tombstones: map<Key, nat>, at: nat, ttl: nat): map<Key, nat> {
    map k | k in tombstones && at <= tombstones[k] + ttl :: tombstones[k]
  }

  function Waiting(parked: map<Key, seq<ParkedChunk>>, at: nat): map<Key, seq<ParkedChunk>> {
    map k | k in parked && Unexpired(parked[k], at) != [] :: Unexpired(parked[k], at)
  }

  // ---- Draining a session ----

  /** The result of the `n`-th send, counted by log position. */
  type Oracle = nat -> bool

  function EnsureOpen(e: Engine, key: Key, p: PeerId, ok: Oracle): (r: (Engine, bool))
    ensures r.0.sessions == e.sessions && r.0.channels == e.channels && r.0.preambles == e.preambles
    ensures r.0.pending == e.pending
  {
    if p in e.Opened(key) || key !in e.preambles then (e, true)
    else
      var sent := ok(|e.log|);
      (DoOpening(e, key, p, sent), sent)
  }

  function SendRouting(e: Engine, key: Key, peers: seq<PeerId>, have: Havelist, ok: Oracle): (r: (Engine, bool))
    ensures r.0.sessions == e.sessions && r.0.pending == e.pending
    decreases |peers|
  {
    if peers == [] then (e, true)
    else
      var (e1, isOpen) := EnsureOpen(e, key, peers[0], ok);
      if !isOpen then (e1, false)
      else
        var sent := ok(|e1.log|);
        var e2 := DoNoting(e1, RoutingUpdate(peers[0], key, have), sent);
        if sent then SendRouting(e2, key, peers[1..], have, ok) else (e2, false)
  }

  datatype Round = Clear | Stalled | Broken

  function SendDispatches(e: Engine, key: Key, ds: seq<Dispatch>, ok: Oracle): (r: (Engine, Round))
    ensures r.1.Clear? ==> r.0.sessions == e.sessions
    decreases |ds|
  {
    if ds == [] then (e, Clear)
    else
      var (e1, isOpen) := EnsureOpen(e, key, ds[0].peer, ok);
      if !isOpen then (e1, Broken)
      else
        var sent := ok(|e1.log|);
        var e2 := DoChunking(e1, key, ds[0], sent);
        var (e3, round) := SendDispatches(e2, key, ds[1..], ok);
        (e3, if round.Clear? && !sent then Stalled else round)
  }

  /** Why a drain stopped: no session, a poll without work, a refused chunk, or a failed control send. */
  datatype DrainEnd = NoSession | Idle | Stall | Failure

  /** Sends what a poll produced: the routing update to every subscriber, then the chunks. */
  function SendWork(e: Engine, key: Key, routing: Option<Havelist>, ds: seq<Dispatch>, ok: Oracle)
    : (r: (Engine, Option<DrainEnd>))
    ensures r.1.None? ==> r.0.sessions == e.sessions
  {
    var (e1, routed) :=
      if routing.Some? then SendRouting(e, key, Sorted(e.Subscribers(key.channel)), routing.value, ok)
      else (e, true);
    if !routed then (e1, Some(Failure))
    else
      var (e2, round) := SendDispatches(e1, key, ds, ok);
      (e2, match round case Broken => Some(Failure) case Stalled => Some(Stall) case Clear => None)
  }

  /** One iteration of the drain loop. No end means: poll again. */
  function DrainRound(e: Engine, key: Key, ok: Oracle): (Engine, Option<DrainEnd>)
    requires key in e.sessions
  {
    var (s, routing, ds) := Poll(e.sessions[key]);
    var e1 := e.(sessions := e.sessions[key := s]);
    if routing.None? && ds == [] then (e1, Some(Idle)) else SendWork(e1, key, routing, ds, ok)
  }

  /** A round that does not end the loop leaves the session polled and lowers the measure. */
  lemma RoundLowersMeasure(e: Engine, key: Key, ok: Oracle)
    requires key in e.sessions && DrainRound(e, key, ok).1.None?
    ensures var e' := DrainRound(e, key, ok).0;
            && key in e'.sessions
            && Polling.Measure(e'.sessions[key].strategy) < Polling.Measure(e.sessions[key].strategy)
  {
    Polling.PollLowersMeasure(e.sessions[key].strategy);
  }

  function Drain(e: Engine, key: Key, ok: Oracle): (Engine, DrainEnd)
    decreases if key in e.sessions then Polling.Measure(e.sessions[key].strategy) else 0
  {
    if key !in e.sessions then (e, NoSession)
    else
      var (e1, end) := DrainRound(e, key, ok);
      if end.Some? then (e1, end.value)
      else
        RoundLowersMeasure(e, key, ok);
        Drain(e1, key, ok)
  }

  function Messages(e: Engine, c: ChannelId): set<MessageId> {
    set k | k in e.sessions && k.channel == c :: k.message
  }

  function DrainEach(e: Engine, c: ChannelId, messages: seq<MessageId>, ok: Oracle): Engine
    decreases |messages|
  {
    if messages == [] then e
    else
      var (e1, end) := Drain(e, Key(c, messages[0]), ok);
      if end.Failure? then e1 else DrainEach(e1, c, messages[1..], ok)
  }

  function DrainChannel(e: Engine, c: ChannelId, ok: Oracle): Engine {
    if c !in e.channels then e else DrainEach(e, c, Sorted(Messages(e, c)), ok)
  }

  // ---- Chunks, opens and deliveries ----

  /** The clock readings of one step: at creation or parking, at completion, at the cleanup check. */
  datatype Ticks = Ticks(first: nat, second: nat, sweep: nat)

  /** Whether taking this chunk reports the session complete. */
  predicate Completes(lib: Lib, e: Engine, key: Key, idx: nat, data: Bytes) {
    key in e.sessions &&
    var r := Take(lib, e.sessions[key], idx, data).1;
    r.Ok? && r.value.complete
  }

  function Deliver(lib: Lib, e: Engine, key: Key, at: nat, ok: Oracle): Engine {
    if key !in e.sessions then e
    else
      var e1 := DoFinishing(lib, e, key, at);
      if DecodeAndFinish(lib, e.sessions[key]).1.Ok?
      then DoNoting(e1, SessionReconstructed(key), ok(|e1.log|))
      else e1
  }

  function TakeAll(lib: Lib, e: Engine, key: Key, chunks: seq<ParkedChunk>): (Engine, bool)
    decreases |chunks|
  {
    if chunks == [] then (e, false)
    else
      var c := chunks[0];
      var done := Completes(lib, e, key, c.idx, c.data);
      var (e1, more) := TakeAll(lib, DoTaking(lib, e, key, c.idx, c.data), key, chunks[1..]);
      (e1, done || more)
  }

  function Replay(lib: Lib, e: Engine, key: Key, at: nat, ok: Oracle): Engine {
    if key !in e.parked then e
    else
      var (e1, complete) := TakeAll(lib, DoUnparking(e, key), key, e.parked[key]);
      var e2 := Drain(e1, key, ok).0;
      if complete then Deliver(lib, e2, key, at, ok) else e2
  }

  function AttachAll(s: Strategy, peers: set<PeerId>): Strategy {
    s.(attached := s.attached + peers)
  }

  /** The relay strategy the channel's factory builds from a preamble, if it accepts it. */
  function RelayStrategy(lib: Lib, e: Engine, key: Key, preamble: Bytes, fib: nat -> nat): Option<Strategy> {
    if key.channel !in e.channels then None
    else match lib.parse(preamble)
      case None => None
      case Some(p) =>
        match NewRelay(p, e.channels[key.channel].cfg, fib)
        case Err(_) => None
        case Ok(s) => Some(AttachAll(s, e.Subscribers(key.channel)))
  }

  function OnOpen(lib: Lib, e: Engine, key: Key, preamble: Bytes, t: Ticks, ok: Oracle, fib: nat -> nat): Engine {
    if key in e.tombstones || key in e.sessions then e
    else match RelayStrategy(lib, e, key, preamble, fib)
      case None => e
      case Some(s) =>
        var e1 := DoCreating(e, key, Session(Consuming, s), preamble, t.first);
        Replay(lib, Drain(e1, key, ok).0, key, t.second, ok)
  }

  function OnChunk(lib: Lib, e: Engine, key: Key, idx: nat, data: Bytes, t: Ticks, ok: Oracle): Engine {
    if key in e.tombstones then e
    else if key !in e.sessions then DoParking(e, key, ParkedChunk(idx, data, t.first))
    else
      var complete := Completes(lib, e, key, idx, data);
      var e1 := Drain(DoTaking(lib, e, key, idx, data), key, ok).0;
      if complete then Deliver(lib, e1, key, t.second, ok) else e1
  }

  function JoinEach(e: Engine, p: PeerId, channels: seq<ChannelId>, ok: Oracle): Engine
    decreases |channels|
  {
    if channels == [] then e
    else
      var e1 := DrainChannel(DoJoining(e, channels[0], p), channels[0], ok);
      JoinEach(e1, p, channels[1..], ok)
  }

  function Register(e: Engine, p: PeerId, ok: Oracle): Engine {
    if p in e.connected then e
    else
      var e1 := DoLinking(e, p, true);
      DoNoting(e1, Handshake(p, PROTOCOL_VERSION, e.channels.Keys), ok(|e1.log|))
  }

  function Resolve(e: Engine, p: PeerId, key: Key, token: Handle, sent: bool, ok: Oracle): Engine {
    if Ticket(key, token) !in e.pending then e
    else Drain(DoResolving(e, key, p, token, sent), key, ok).0
  }

  function HandleEvent(lib: Lib, e: Engine, ev: NetEvent, t: Ticks, ok: Oracle, fib: nat -> nat): Engine {
    match ev
    case HandshakeIn(p, version, channels) =>
      if version == PROTOCOL_VERSION then JoinEach(DoLinking(e, p, true), p, channels, ok)
      else DoLinking(e, p, false)
    case SubscribeIn(p, c) => DrainChannel(DoJoining(e, c, p), c, ok)
    case UnsubscribeIn(p, c) => DoLeaving(e, c, p)
    case SessionOpenIn(_, key, preamble) => OnOpen(lib, e, key, preamble, t, ok, fib)
    case ChunkIn(_, key, idx, data) => OnChunk(lib, e, key, idx, data, t, ok)
    case RoutingUpdateIn(_, _) => e
    case PeerDisconnected(p) => DoDropping(e, p)
    case PeerConnected(p) => Register(e, p, ok)
    case ChunkSendResult(p, key, token, sent) => Resolve(e, p, key, token, sent, ok)
    case PeerReconstructed(p, key) => DoDetaching(e, key, p, true)
    case SessionClosed(p, key) => DoDetaching(e, key, p, false)
  }

  /** A cleanup check: a sweep runs once the scheduled time has come. */
  function Cleanup(e: Engine, now: nat): Engine {
    if now < e.nextCleanup then e else DoCleaning(e, now)
  }

  // ---- Entry points ----

  datatype Input =
    | Net(event: NetEvent, ticks: Ticks, ok: Oracle, fib: nat -> nat)
    | Publishing(key: Key, strategy: Strategy, preamble: Bytes, at: nat, ok: Oracle)
    | Subscribing(channel: ChannelId, rs: RsConfig, ok: Oracle)
    | Dialing(peer: PeerId, ok: Oracle)

  function OpenEach(e: Engine, key: Key, peers: seq<PeerId>, ok: Oracle): (Engine, bool)
    decreases |peers|
  {
    if peers == [] then (e, true)
    else
      var (e1, isOpen) := EnsureOpen(e, key, peers[0], ok);
      if isOpen then OpenEach(e1, key, peers[1..], ok) else (e1, false)
  }

  /** `publish`: refused for an unknown channel or a live session; otherwise create, open to subscribers, drain. */
  function Publish(e: Engine, key: Key, s: Strategy, preamble: Bytes, at: nat, ok: Oracle): Engine {
    if key.channel !in e.channels || key in e.sessions then e
    else
      var subs := e.Subscribers(key.channel);
      var e1 := DoCreating(e, key, Session(Phase.Origin, AttachAll(s, subs)), preamble, at);
      var (e2, isOpen) := OpenEach(e1, key, Sorted(subs), ok);
      if isOpen then Drain(e2, key, ok).0 else e2
  }

  function Announce(e: Engine, c: ChannelId, peers: seq<PeerId>, ok: Oracle): Engine
    decreases |peers|
  {
    if peers == [] then e
    else
      var sent := ok(|e.log|);
      var e1 := DoNoting(e, Subscribe(peers[0], c), sent);
      if sent then Announce(e1, c, peers[1..], ok) else e1
  }

  function SubscribeTo(e: Engine, c: ChannelId, rs: RsConfig, ok: Oracle): Engine {
    var e1 := DoHosting(e, c, rs);
    Announce(e1, c, Sorted(e1.connected), ok)
  }

  function Step(lib: Lib, e: Engine, inp: Input): Engine {
    match inp
    case Net(ev, t, ok, fib) => Cleanup(HandleEvent(lib, e, ev, t, ok, fib), t.sweep)
    case Publishing(key, s, preamble, at, ok) => Publish(e, key, s, preamble, at, ok)
    case Subscribing(c, rs, ok) => SubscribeTo(e, c, rs, ok)
    case Dialing(p, ok) => Register(e, p, ok)
  }

  function Run(lib: Lib, e: Engine, inputs: seq<Input>): Engine
    decreases |inputs|
  {
    if inputs == [] then e else Run(lib, Step(lib, e, inputs[0]), inputs[1..])
  }
}
