/** Which primitive updates each entry point performs, and the induction principle over them. */
module EngineSteps {
  import opened Basics
  import opened Havelists
  import opened Coding
  import opened Strategies
  import opened Sessions
  import opened Engines
  import P = Polling

  // ---- Primitive updates ----

  /** One table update together with what it shows the outside. Every entry point is a sequence of these. */
  datatype Act =
    | Opening(key: Key, peer: PeerId, sent: bool)
    | Routing(key: Key, peer: PeerId, have: Havelist, sent: bool)
    | Chunking(key: Key, d: Dispatch, sent: bool)
    | Polling(key: Key)
    | Taking(key: Key, idx: nat, data: Bytes)
    | Finishing(key: Key, at: nat)
    | Parking(key: Key, chunk: ParkedChunk)
    | Unparking(key: Key)
    | Creating(key: Key, session: Session, preamble: Bytes, at: nat)
    | Cleaning(at: nat)
    | Joining(channel: ChannelId, peer: PeerId)
    | Leaving(channel: ChannelId, peer: PeerId)
    | Detaching(key: Key, peer: PeerId, completed: bool)
    | Resolving(key: Key, peer: PeerId, token: Handle, ok: bool)
    | Dropping(peer: PeerId)
    | Noting(msg: NetSend, sent: bool)
    | Linking(peer: PeerId, up: bool)
    | Hosting(channel: ChannelId, rs: RsConfig)

  ghost function Do(lib: Lib, e: Engine, a: Act): Engine {
    match a
    case Opening(key, p, sent) => DoOpening(e, key, p, sent)
    case Routing(key, p, have, sent) => DoNoting(e, RoutingUpdate(p, key, have), sent)
    case Chunking(key, d, sent) => DoChunking(e, key, d, sent)
    case Polling(key) => DoPolling(e, key)
    case Taking(key, idx, data) => DoTaking(lib, e, key, idx, data)
    case Finishing(key, at) => DoFinishing(lib, e, key, at)
    case Parking(key, chunk) => DoParking(e, key, chunk)
    case Unparking(key) => DoUnparking(e, key)
    case Creating(key, session, preamble, at) => DoCreating(e, key, session, preamble, at)
    case Cleaning(at) => DoCleaning(e, at)
    case Joining(c, p) => DoJoining(e, c, p)
    case Leaving(c, p) => DoLeaving(e, c, p)
    case Detaching(key, p, completed) => DoDetaching(e, key, p, completed)
    case Resolving(key, p, token, ok) => DoResolving(e, key, p, token, ok)
    case Dropping(p) => DoDropping(e, p)
    case Noting(msg, sent) => DoNoting(e, msg, sent)
    case Linking(p, up) => DoLinking(e, p, up)
    case Hosting(c, rs) => DoHosting(e, c, rs)
  }

  /** `Do` dispatches to the engine's own updates. */
  lemma DoIs(lib: Lib, e: Engine, a: Act)
    ensures var f := Do(lib, e, a);
            match a
            case Opening(key, p, sent) => f == DoOpening(e, key, p, sent)
            case Routing(key, p, have, sent) => f == DoNoting(e, RoutingUpdate(p, key, have), sent)
            case Chunking(key, d, sent) => f == DoChunking(e, key, d, sent)
            case Polling(key) => f == DoPolling(e, key)
            case Taking(key, idx, data) => f == DoTaking(lib, e, key, idx, data)
            case Finishing(key, at) => f == DoFinishing(lib, e, key, at)
            case Parking(key, chunk) => f == DoParking(e, key, chunk)
            case Unparking(key) => f == DoUnparking(e, key)
            case Creating(key, session, preamble, at) => f == DoCreating(e, key, session, preamble, at)
            case Cleaning(at) => f == DoCleaning(e, at)
            case Joining(c, p) => f == DoJoining(e, c, p)
            case Leaving(c, p) => f == DoLeaving(e, c, p)
            case Detaching(key, p, completed) => f == DoDetaching(e, key, p, completed)
            case Resolving(key, p, token, ok) => f == DoResolving(e, key, p, token, ok)
            case Dropping(p) => f == DoDropping(e, p)
            case Noting(msg, sent) => f == DoNoting(e, msg, sent)
            case Linking(p, up) => f == DoLinking(e, p, up)
            case Hosting(c, rs) => f == DoHosting(e, c, rs)
  {
  }

  // ---- The base invariant ----

  /** The per-session tables have the same keys. */
  ghost predicate SameKeys(e: Engine) {
    && e.meta.Keys == e.sessions.Keys
    && e.preambles.Keys == e.sessions.Keys
    && e.openedTo.Keys <= e.sessions.Keys
  }

  ghost predicate FlightsOk(s: Strategy) {
    forall h | h in s.inFlight :: h < s.nextHandle && s.inFlight[h].peer in s.attached
  }

  /** A consuming session does not yet hold enough chunks. */
  ghost predicate Hungry(s: Session) {
    s.phase.Consuming? ==> s.strategy.Accepted() == 0 || s.strategy.Accepted() < s.strategy.preamble.numData
  }

  /**
   * A live session: its channel is hosted, its attached peers subscribe, its flights are well numbered, a relay
   * session is not tombstoned, and the terminal time is set exactly in the terminal phases.
   */
  ghost predicate Live(e: Engine, k: Key)
    requires k in e.sessions
  {
    && k.channel in e.channels
    && e.sessions[k].strategy.attached <= e.Subscribers(k.channel)
    && FlightsOk(e.sessions[k].strategy)
    && Hungry(e.sessions[k])
    && (e.sessions[k].phase.Origin? || k !in e.tombstones)
    && k in e.meta
    && (e.meta[k].terminal.Some? <==> e.sessions[k].Terminal())
  }

  ghost predicate AllLive(e: Engine) {
    forall k | k in e.sessions :: Live(e, k)
  }

  /** A pending send belongs to a live session and to the peer its dispatch went to. */
  ghost predicate Honest(e: Engine, t: Ticket)
    requires t in e.pending
  {
    && t.key in e.sessions
    && t.handle < e.sessions[t.key].strategy.nextHandle
    && (t.handle in e.sessions[t.key].strategy.inFlight ==>
          e.sessions[t.key].strategy.inFlight[t.handle].peer == e.pending[t])
  }

  ghost predicate PendingOk(e: Engine) {
    forall t | t in e.pending :: Honest(e, t)
  }

  ghost predicate ParkedOk(e: Engine) {
    forall k | k in e.parked :: 1 <= |e.parked[k]| <= MAX_PARKED
  }

  ghost predicate Base(e: Engine) {
    SameKeys(e) && AllLive(e) && PendingOk(e) && ParkedOk(e)
  }

  // ---- When an update may happen ----

  ghost predicate Ready(e: Engine, key: Key, d: Dispatch) {
    && key in e.sessions
    && d.handle in e.sessions[key].strategy.inFlight
    && e.sessions[key].strategy.inFlight[d.handle] == Flight(d.peer, d.idx)
    && d.idx < |e.sessions[key].strategy.chunks|
    && e.sessions[key].strategy.chunks[d.idx] == Some(d.payload)
  }

  /** Updates a drain makes. */
  ghost predicate DrainAllowed(e: Engine, a: Act) {
    match a
    case Opening(key, p, _) => key in e.sessions && p !in e.Opened(key)
    case Routing(key, p, _, _) => key in e.sessions && p in e.Opened(key)
    case Chunking(key, d, _) => Ready(e, key, d) && d.peer in e.Opened(key) && Ticket(key, d.handle) !in e.pending
    case Polling(key) => key in e.sessions
    case _ => false
  }

  ghost predicate NewSession(lib: Lib, inp: Input, e: Engine, key: Key, s: Session, preamble: Bytes, at: nat) {
    && key !in e.sessions && key.channel in e.channels
    && (inp.Net? ==>
          && inp.event.SessionOpenIn? && inp.event.key == key && inp.event.preamble == preamble
          && at == inp.ticks.first && key !in e.tombstones
          && s.phase.Consuming?
          && RelayStrategy(lib, e, key, preamble, inp.fib) == Some(s.strategy))
    && (!inp.Net? ==>
          && inp.Publishing? && inp.key == key && inp.preamble == preamble && at == inp.at
          && s == Session(Phase.Origin, AttachAll(inp.strategy, e.Subscribers(key.channel))))
  }

  /** The event may hand chunks to this session. */
  ghost predicate Feeds(inp: Input, key: Key) {
    inp.Net? && (inp.event.ChunkIn? || inp.event.SessionOpenIn?) && inp.event.key == key
  }

  /**
   * Whether send outcomes are known to name the peer the send went to, whether the sweep is included, and whether a
   * drain counts as one update instead of as its polls and sends.
   */
  datatype Mode = Mode(echo: bool, sweep: bool, whole: bool)

  const PLAIN := Mode(false, true, false)

  /** Updates the step for `inp` may make in state `e`. */
  ghost predicate Allowed(lib: Lib, inp: Input, m: Mode, e: Engine, a: Act) {
    || (DrainAllowed(e, a) && (m.whole ==> a.Opening?))
    || match a
       case Taking(key, idx, data) => key in e.sessions && Feeds(inp, key)
       case Finishing(key, at) =>
         key in e.sessions && e.sessions[key].phase.Decoding? && inp.Net? && at == inp.ticks.second
       case Parking(key, c) =>
         key !in e.sessions && key !in e.tombstones && Feeds(inp, key) && c.at == inp.ticks.first
       case Unparking(key) => Feeds(inp, key)
       case Creating(key, s, preamble, at) => NewSession(lib, inp, e, key, s, preamble, at)
       case Cleaning(at) => m.sweep && inp.Net? && at == inp.ticks.sweep && at >= e.nextCleanup
       case Joining(_, _) => true
       case Leaving(_, _) => true
       case Detaching(_, _, _) => true
       case Resolving(key, p, token, ok) =>
         && Ticket(key, token) in e.pending
         && (m.echo ==> e.pending[Ticket(key, token)] == p)
       case Dropping(_) => true
       case Noting(msg, _) => msg.Handshake? || msg.Subscribe? || msg.SessionReconstructed?
       case Linking(_, _) => true
       case Hosting(c, _) => c !in e.channels
       case _ => false
  }

  /** A publisher supplies a strategy as its constructor made it. */
  ghost predicate GoodInput(inp: Input) {
    inp.Publishing? ==> Fresh(inp.strategy)
  }

  /** A send outcome names the peer the pending entry names. */
  ghost predicate Echo(e: Engine, inp: Input) {
    inp.Net? && inp.event.ChunkSendResult? ==>
      var t := Ticket(inp.event.key, inp.event.token);
      t in e.pending ==> e.pending[t] == inp.event.peer
  }

  /** Every update the step for `inp` may make keeps `I`, and `I` includes the base invariant. */
  ghost predicate Preserved(lib: Lib, inp: Input, m: Mode, I: Engine -> bool) {
    && (forall e: Engine, a: Act :: I(e) && Allowed(lib, inp, m, e, a) ==> I(Do(lib, e, a)))
    && (forall e: Engine :: I(e) ==> Base(e))
    && (m.whole ==> forall e: Engine, key: Key, ok: Oracle :: I(e) ==> I(Drain(e, key, ok).0))
  }

  // ---- Induction over a drain ----

  lemma Apply(lib: Lib, inp: Input, m: Mode, I: Engine -> bool, e: Engine, a: Act)
    requires Preserved(lib, inp, m, I) && I(e) && Allowed(lib, inp, m, e, a)
    ensures I(Do(lib, e, a))
  {
    hide Base, Allowed, Do;
  }

  lemma EnsureOpenKeeps(lib: Lib, inp: Input, m: Mode, I: Engine -> bool, e: Engine, key: Key, p: PeerId, ok: Oracle)
    requires Preserved(lib, inp, m, I) && I(e) && key in e.sessions
    ensures I(EnsureOpen(e, key, p, ok).0)
    ensures EnsureOpen(e, key, p, ok).1 ==> p in EnsureOpen(e, key, p, ok).0.Opened(key)
  {
    assert Base(e);
    if p !in e.Opened(key) {
      var a := Opening(key, p, ok(|e.log|));
      assert DrainAllowed(e, a);
      DoIs(lib, e, a);
      hide Do, Base, DoOpening, Preserved;
      Apply(lib, inp, m, I, e, a);
    }
  }

  lemma {:induction false} SendRoutingKeeps(lib: Lib, inp: Input, m: Mode, I: Engine -> bool, e: Engine, key: Key,
                                            peers: seq<PeerId>, have: Havelist, ok: Oracle)
    requires Preserved(lib, inp, m, I) && I(e) && !m.whole && key in e.sessions
    ensures I(SendRouting(e, key, peers, have, ok).0)
    decreases |peers|
  {
    if peers != [] {
      EnsureOpenKeeps(lib, inp, m, I, e, key, peers[0], ok);
      var (e1, isOpen) := EnsureOpen(e, key, peers[0], ok);
      hide EnsureOpen, Preserved, Base;
      if isOpen {
        var a := Routing(key, peers[0], have, ok(|e1.log|));
        assert DrainAllowed(e1, a);
        DoIs(lib, e1, a);
        hide Do;
        Apply(lib, inp, m, I, e1, a);
        SendRoutingKeeps(lib, inp, m, I, Do(lib, e1, a), key, peers[1..], have, ok);
      }
    }
  }

  /** The dispatches are in flight under different handles, carry held shards and were not sent yet. */
  ghost predicate AllReady(e: Engine, key: Key, ds: seq<Dispatch>) {
    && (forall i | 0 <= i < |ds| :: Ready(e, key, ds[i]))
    && (forall i, j | 0 <= i < j < |ds| :: ds[i].handle != ds[j].handle)
    && (forall i | 0 <= i < |ds| :: Ticket(key, ds[i].handle) !in e.pending)
  }

  lemma ReadyAfter(e: Engine, key: Key, d: Dispatch, first: Dispatch, sent: bool)
    requires Ready(e, key, d) && d.handle != first.handle && Ticket(key, d.handle) !in e.pending
    ensures Ready(DoChunking(e, key, first, sent), key, d)
    ensures Ticket(key, d.handle) !in DoChunking(e, key, first, sent).pending
  {
  }

  lemma ChunkingKeepsReady(e: Engine, key: Key, ds: seq<Dispatch>, sent: bool)
    requires ds != [] && AllReady(e, key, ds)
    ensures AllReady(DoChunking(e, key, ds[0], sent), key, ds[1..])
  {
    var e' := DoChunking(e, key, ds[0], sent);
    hide Ready, DoChunking;
    forall i | 0 <= i < |ds[1..]|
      ensures Ready(e', key, ds[1..][i]) && Ticket(key, ds[1..][i].handle) !in e'.pending
    {
      assert ds[1..][i] == ds[i + 1] && ds[0].handle != ds[i + 1].handle;
      ReadyAfter(e, key, ds[i + 1], ds[0], sent);
    }
  }

  lemma SameSessionsReady(e: Engine, f: Engine, key: Key, ds: seq<Dispatch>)
    requires AllReady(e, key, ds) && f.sessions == e.sessions && f.pending == e.pending
    ensures AllReady(f, key, ds)
  {
    forall i | 0 <= i < |ds|
      ensures Ready(f, key, ds[i])
    {
      assert Ready(e, key, ds[i]);
    }
  }

  lemma {:induction false} SendDispatchesKeeps(lib: Lib, inp: Input, m: Mode, I: Engine -> bool, e: Engine,
                                               key: Key, ds: seq<Dispatch>, ok: Oracle)
    requires Preserved(lib, inp, m, I) && I(e) && !m.whole && key in e.sessions
    requires AllReady(e, key, ds)
    ensures I(SendDispatches(e, key, ds, ok).0)
    decreases |ds|
  {
    if ds != [] {
      EnsureOpenKeeps(lib, inp, m, I, e, key, ds[0].peer, ok);
      var (e1, isOpen) := EnsureOpen(e, key, ds[0].peer, ok);
      hide EnsureOpen, Preserved, Base, Ready;
      SameSessionsReady(e, e1, key, ds);
      if isOpen {
        var a := Chunking(key, ds[0], ok(|e1.log|));
        assert DrainAllowed(e1, a);
        DoIs(lib, e1, a);
        hide Do;
        Apply(lib, inp, m, I, e1, a);
        ChunkingKeepsReady(e1, key, ds, a.sent);
        assert key in DoChunking(e1, key, ds[0], a.sent).sessions;
        hide DoChunking, AllReady;
        SendDispatchesKeeps(lib, inp, m, I, Do(lib, e1, a), key, ds[1..], ok);
      }
    }
  }

  /** The dispatches of a poll are ready to send. */
  lemma PollReady(e: Engine, key: Key)
    requires Base(e) && key in e.sessions
    ensures var (s, _, ds) := Poll(e.sessions[key]);
            AllReady(e.(sessions := e.sessions[key := s]), key, ds)
  {
    hide Base, PollFrom;
    PendingIssued(e, key);
    var r := PollRouting(e.sessions[key].strategy).0;
    P.PollFromEmits(r, Sorted(r.attached));
  }

  /** Pending sends carry handles issued before. */
  lemma PendingIssued(e: Engine, key: Key)
    requires Base(e) && key in e.sessions
    ensures forall t | t in e.pending && t.key == key :: t.handle < e.sessions[key].strategy.nextHandle
    ensures FlightsOk(e.sessions[key].strategy)
  {
    assert Live(e, key);
    forall t | t in e.pending && t.key == key
      ensures t.handle < e.sessions[key].strategy.nextHandle
    {
      assert Honest(e, t);
    }
  }

  lemma SendWorkKeeps(lib: Lib, inp: Input, m: Mode, I: Engine -> bool, e: Engine, key: Key,
                      routing: Option<Havelist>, ds: seq<Dispatch>, ok: Oracle)
    requires Preserved(lib, inp, m, I) && I(e) && !m.whole && key in e.sessions && AllReady(e, key, ds)
    ensures I(SendWork(e, key, routing, ds, ok).0)
  {
    hide Preserved, Base, SendRouting, SendDispatches, Ready;
    var subs := Sorted(e.Subscribers(key.channel));
    var e1 := if routing.Some? then SendRouting(e, key, subs, routing.value, ok).0 else e;
    if routing.Some? {
      SendRoutingKeeps(lib, inp, m, I, e, key, subs, routing.value, ok);
    }
    SameSessionsReady(e, e1, key, ds);
    hide AllReady;
    SendDispatchesKeeps(lib, inp, m, I, e1, key, ds, ok);
  }

  lemma RoundKeeps(lib: Lib, inp: Input, m: Mode, I: Engine -> bool, e: Engine, key: Key, ok: Oracle)
    requires Preserved(lib, inp, m, I) && I(e) && !m.whole && key in e.sessions
    ensures I(DrainRound(e, key, ok).0)
  {
    assert Base(e);
    PollReady(e, key);
    assert DrainAllowed(e, Polling(key));
    DoIs(lib, e, Polling(key));
    hide Do;
    Apply(lib, inp, m, I, e, Polling(key));
    var (s, routing, ds) := Poll(e.sessions[key]);
    var e1 := e.(sessions := e.sessions[key := s]);
    assert e1 == Do(lib, e, Polling(key));
    hide Preserved, Base, Poll, SendWork, AllReady;
    SendWorkKeeps(lib, inp, m, I, e1, key, routing, ds, ok);
  }

  lemma {:induction false} DrainKeeps(lib: Lib, inp: Input, m: Mode, I: Engine -> bool, e: Engine, key: Key, ok: Oracle)
    requires Preserved(lib, inp, m, I) && I(e)
    ensures I(Drain(e, key, ok).0)
    decreases if key in e.sessions then P.Measure(e.sessions[key].strategy) else 0
  {
    if !m.whole && key in e.sessions {
      RoundKeeps(lib, inp, m, I, e, key, ok);
      var (e1, end) := DrainRound(e, key, ok);
      if end.None? {
        RoundLowersMeasure(e, key, ok);
        hide Preserved, DrainRound;
        DrainKeeps(lib, inp, m, I, e1, key, ok);
      }
    }
  }
}
