/** Every primitive update keeps the base invariant. */
module EngineBase {
  import opened Basics
  import opened Havelists
  import opened Coding
  import opened Strategies
  import opened Sessions
  import opened Engines
  import opened EngineSteps
  import P = Polling
  import Planners

  /** How a session may change within a step without disturbing the tables. */
  ghost predicate Succeeds(s: Session, t: Session) {
    && (t.phase.Origin? <==> s.phase.Origin?)
    && (t.Terminal() <==> s.Terminal())
    && Hungry(t)
    && FlightsOk(t.strategy)
    && t.strategy.nextHandle >= s.strategy.nextHandle
    && (forall h | h in t.strategy.inFlight ::
          || (h in s.strategy.inFlight && s.strategy.inFlight[h] == t.strategy.inFlight[h])
          || h >= s.strategy.nextHandle)
  }

  // ---- One session, one ticket ----

  lemma LiveMoves(e: Engine, f: Engine, k: Key)
    requires k in e.sessions && k in f.sessions && Live(e, k) && Succeeds(e.sessions[k], f.sessions[k])
    requires k.channel in f.channels && f.sessions[k].strategy.attached <= f.Subscribers(k.channel)
    requires f.tombstones.Keys <= e.tombstones.Keys && f.meta == e.meta
    ensures Live(f, k)
  {
  }

  lemma LiveStays(e: Engine, f: Engine, k: Key)
    requires k in e.sessions && k in f.sessions && Live(e, k) && f.sessions[k] == e.sessions[k]
    requires e.channels.Keys <= f.channels.Keys && f.Subscribers(k.channel) == e.Subscribers(k.channel)
    requires k in f.tombstones ==> k in e.tombstones
    requires k in e.meta ==> k in f.meta && f.meta[k] == e.meta[k]
    ensures Live(f, k)
  {
  }

  lemma HonestMoves(e: Engine, f: Engine, t: Ticket)
    requires t in e.pending && t in f.pending && f.pending[t] == e.pending[t] && Honest(e, t)
    requires t.key in e.sessions ==> t.key in f.sessions && Succeeds(e.sessions[t.key], f.sessions[t.key])
    ensures Honest(f, t)
  {
  }

  lemma HonestStays(e: Engine, f: Engine, t: Ticket)
    requires t in e.pending && t in f.pending && f.pending[t] == e.pending[t] && Honest(e, t)
    requires t.key in e.sessions ==> t.key in f.sessions && f.sessions[t.key].strategy == e.sessions[t.key].strategy
    ensures Honest(f, t)
  {
  }

  // ---- Whole tables ----

  /** What is left of the tables is as before. */
  lemma TablesStay(e: Engine, f: Engine)
    requires AllLive(e) && PendingOk(e)
    requires forall k | k in f.sessions ::
               && k in e.sessions && f.sessions[k] == e.sessions[k]
               && f.Subscribers(k.channel) == e.Subscribers(k.channel)
               && (k in f.tombstones ==> k in e.tombstones)
               && (k in e.meta ==> k in f.meta && f.meta[k] == e.meta[k])
    requires forall t | t in f.pending ::
               t in e.pending && f.pending[t] == e.pending[t] && (t.key in e.sessions ==> t.key in f.sessions)
    requires e.channels.Keys <= f.channels.Keys
    ensures AllLive(f) && PendingOk(f)
  {
    hide Live, Honest;
    forall k | k in f.sessions
      ensures Live(f, k)
    {
      LiveStays(e, f, k);
    }
    forall t | t in f.pending
      ensures Honest(f, t)
    {
      HonestStays(e, f, t);
    }
  }

  /** The sessions, channels, metadata and pending sends are untouched. */
  lemma SameTables(e: Engine, f: Engine)
    requires AllLive(e) && PendingOk(e)
    requires f.sessions == e.sessions && f.channels == e.channels && f.meta == e.meta && f.pending == e.pending
    requires f.tombstones == e.tombstones
    ensures AllLive(f) && PendingOk(f)
  {
    hide Live, Honest;
    forall k | k in f.sessions
      ensures Live(f, k)
    {
      LiveStays(e, f, k);
    }
    forall t | t in f.pending
      ensures Honest(f, t)
    {
      HonestStays(e, f, t);
    }
  }

  /** An update that only moves sessions along, within the subscriber sets, keeps the base invariant. */
  lemma UpdateBase(e: Engine, f: Engine)
    requires Base(e)
    requires f.meta == e.meta && f.preambles == e.preambles && f.tombstones == e.tombstones
    requires f.openedTo.Keys <= e.sessions.Keys && f.parked == e.parked
    requires f.sessions.Keys == e.sessions.Keys
    requires forall k | k in e.sessions :: Succeeds(e.sessions[k], f.sessions[k])
    requires forall k | k in e.sessions ::
               k.channel in f.channels && f.sessions[k].strategy.attached <= f.Subscribers(k.channel)
    requires forall t | t in f.pending :: t in e.pending && f.pending[t] == e.pending[t]
    ensures Base(f)
  {
    hide Live, Honest, Succeeds;
    forall k | k in f.sessions
      ensures Live(f, k)
    {
      LiveMoves(e, f, k);
    }
    forall t | t in f.pending
      ensures Honest(f, t)
    {
      HonestMoves(e, f, t);
    }
  }

  lemma OneUpdateBase(e: Engine, key: Key, t: Session)
    requires Base(e) && key in e.sessions
    requires Succeeds(e.sessions[key], t) && t.strategy.attached <= e.sessions[key].strategy.attached
    ensures Base(e.(sessions := e.sessions[key := t]))
  {
    var f := e.(sessions := e.sessions[key := t]);
    forall k | k in e.sessions
      ensures Succeeds(e.sessions[k], f.sessions[k])
      ensures k.channel in f.channels && f.sessions[k].strategy.attached <= f.Subscribers(k.channel)
    {
      assert Live(e, k);
      assert k != key ==> f.sessions[k] == e.sessions[k];
    }
    hide Succeeds, Base, Live, Honest;
    UpdateBase(e, f);
  }

  /** The log, the clock schedule and the set of connected peers play no part. */
  lemma ElsewhereBase(e: Engine, f: Engine)
    requires Base(e)
    requires f == e.(log := f.log, connected := f.connected, nextCleanup := f.nextCleanup)
    ensures Base(f)
  {
    hide AllLive, PendingOk, ParkedOk;
    SameTables(e, f);
    assert ParkedOk(f) by { SameParked(e, f); }
  }

  lemma SameParked(e: Engine, f: Engine)
    requires ParkedOk(e) && f.parked == e.parked
    ensures ParkedOk(f)
  {
  }

  // ---- Session changes ----

  lemma {:induction false} SomeCounted(slots: seq<Option<Bytes>>, i: nat)
    requires i < |slots| && slots[i].Some?
    ensures CountSome(slots) > 0
    decreases |slots|
  {
    if i > 0 { SomeCounted(slots[1..], i - 1); }
  }

  /** A hungry session that reports completion has just moved to decoding. */
  lemma TakeCompletes(lib: Lib, s: Session, idx: nat, data: Bytes)
    requires Hungry(s)
    ensures var (t, r) := Take(lib, s, idx, data);
            Hungry(t) && (r.Ok? && r.value.complete ==> s.phase.Consuming? && t.phase.Decoding?)
  {
    if s.phase.Consuming? && s.strategy.Held(idx) {
      SomeCounted(s.strategy.chunks, idx);
    }
  }

  lemma TakeSucceeds(lib: Lib, s: Session, idx: nat, data: Bytes)
    requires Hungry(s) && FlightsOk(s.strategy)
    ensures Succeeds(s, Take(lib, s, idx, data).0)
    ensures Take(lib, s, idx, data).0.strategy.attached == s.strategy.attached
  {
    TakeCompletes(lib, s, idx, data);
    hide VerifyChunk, CountSome, Strategy.CanReconstruct;
  }

  lemma PollSucceeds(s: Session)
    requires Hungry(s) && FlightsOk(s.strategy)
    ensures Succeeds(s, Poll(s).0)
    ensures Poll(s).0.strategy.attached == s.strategy.attached
  {
    hide PollFrom, CountSome;
    var r := PollRouting(s.strategy).0;
    P.PollFromEmits(r, Sorted(r.attached));
    PollFlights(r, Sorted(r.attached));
  }

  /** Polling only launches towards the polled peers. */
  lemma {:induction false} PollFlights(s: Strategy, peers: seq<PeerId>)
    requires FlightsOk(s) && forall p | p in peers :: p in s.attached
    ensures FlightsOk(PollFrom(s, peers).0)
    decreases |peers|
  {
    if peers != [] {
      var t := PollPeer(s, peers[0]).0;
      assert FlightsOk(t) && t.attached == s.attached;
      hide PollPeer;
      PollFlights(t, peers[1..]);
    }
  }

  lemma SettleSucceeds(s: Session, p: PeerId, h: Handle, ok: bool)
    requires Hungry(s) && FlightsOk(s.strategy)
    ensures var t := s.(strategy := ChunkSent(s.strategy, p, h, ok));
            Succeeds(s, t) && t.strategy.attached == s.strategy.attached
  {
  }

  lemma DetachSucceeds(s: Session, p: PeerId)
    requires Hungry(s) && FlightsOk(s.strategy)
    ensures Succeeds(s, Detached(s, p))
    ensures Detached(s, p).strategy.attached == s.strategy.attached - {p}
  {
    hide Planners.RemovePeer, CountSome;
  }

  // ---- The updates ----

  lemma ChunkingBase(e: Engine, key: Key, d: Dispatch, sent: bool)
    requires Base(e) && Ready(e, key, d)
    ensures Base(DoChunking(e, key, d, sent))
  {
    if sent {
      hide SameKeys, AllLive, PendingOk, ParkedOk, Ready, DoChunking;
      var g := e.(log := e.log + [Sent(Chunk(d.peer, key, d.idx, d.payload, d.handle), true)]);
      ElsewhereBase(e, g);
      PendedBase(g, Ticket(key, d.handle), d);
      DoChunkingIs(e, key, d);
    } else {
      assert Live(e, key);
      var f, s := DoChunking(e, key, d, sent), e.sessions[key];
      var t := s.(strategy := ChunkSent(s.strategy, d.peer, d.handle, false));
      SettleSucceeds(s, d.peer, d.handle, false);
      hide Base, ChunkSent, Succeeds, Live;
      OneUpdateBase(e, key, t);
      ElsewhereBase(e.(sessions := e.sessions[key := t]), f);
    }
  }

  lemma DoChunkingIs(e: Engine, key: Key, d: Dispatch)
    ensures DoChunking(e, key, d, true)
         == e.(log := e.log + [Sent(Chunk(d.peer, key, d.idx, d.payload, d.handle), true)],
               pending := e.pending[Ticket(key, d.handle) := d.peer])
  {
  }

  /** A send of a dispatch in flight becomes pending. */
  lemma PendedBase(e: Engine, t: Ticket, d: Dispatch)
    requires Base(e) && Ready(e, t.key, d) && t.handle == d.handle
    ensures Base(e.(pending := e.pending[t := d.peer]))
  {
    hide Live, Honest, SameKeys, ParkedOk, Ready;
    var f := e.(pending := e.pending[t := d.peer]);
    assert Live(e, t.key) by { ReadyLive(e, t.key, d); }
    PendedHonest(e, t, d);
    SameKeysOf(e, f);
    SameParked(e, f);
    forall k | k in f.sessions
      ensures Live(f, k)
    {
      LiveStays(e, f, k);
    }
    forall u | u in f.pending
      ensures Honest(f, u)
    {
      if u != t { HonestStays(e, f, u); }
    }
  }

  lemma ReadyLive(e: Engine, key: Key, d: Dispatch)
    requires AllLive(e) && Ready(e, key, d)
    ensures key in e.sessions && Live(e, key)
  {
  }

  lemma PendedHonest(e: Engine, t: Ticket, d: Dispatch)
    requires Ready(e, t.key, d) && Live(e, t.key) && t.handle == d.handle
    ensures Honest(e.(pending := e.pending[t := d.peer]), t)
  {
  }

  lemma SameKeysOf(e: Engine, f: Engine)
    requires SameKeys(e) && f.sessions == e.sessions && f.meta == e.meta && f.preambles == e.preambles
    requires f.openedTo == e.openedTo
    ensures SameKeys(f)
  {
  }

  lemma PollingBase(e: Engine, key: Key)
    requires Base(e) && key in e.sessions
    ensures Base(DoPolling(e, key))
  {
    assert Live(e, key);
    PollSucceeds(e.sessions[key]);
    hide Base, Poll, Succeeds, Live;
    OneUpdateBase(e, key, Poll(e.sessions[key]).0);
  }

  lemma TakingBase(lib: Lib, e: Engine, key: Key, idx: nat, data: Bytes)
    requires Base(e) && key in e.sessions
    ensures Base(DoTaking(lib, e, key, idx, data))
  {
    assert Live(e, key);
    TakeSucceeds(lib, e.sessions[key], idx, data);
    hide Base, Take, Succeeds, Live;
    OneUpdateBase(e, key, Take(lib, e.sessions[key], idx, data).0);
  }

  lemma FinishEnds(lib: Lib, s: Session)
    requires s.phase.Decoding?
    ensures var t := DecodeAndFinish(lib, s).0;
            t.strategy == s.strategy && t.Terminal()
  {
    hide Reconstruct;
  }

  lemma FinishingBase(lib: Lib, e: Engine, key: Key, at: nat)
    requires Base(e) && key in e.sessions && e.sessions[key].phase.Decoding?
    ensures Base(DoFinishing(lib, e, key, at))
  {
    assert Live(e, key);
    FinishEnds(lib, e.sessions[key]);
    var t := DecodeAndFinish(lib, e.sessions[key]).0;
    FinishedBase(e, key, t, at);
    hide Base, DecodeAndFinish, Live;
    var g := Marked(e, key, t, at);
    var f := DoFinishing(lib, e, key, at);
    assert f == g.(log := f.log);
    ElsewhereBase(g, f);
  }

  ghost function Marked(e: Engine, key: Key, t: Session, at: nat): Engine
    requires key in e.meta
  {
    e.(sessions := e.sessions[key := t], meta := e.meta[key := e.meta[key].(terminal := Some(at))])
  }

  lemma MarkedLive(e: Engine, key: Key, t: Session, at: nat)
    requires key in e.sessions && key in e.meta && Live(e, key) && e.sessions[key].phase.Decoding?
    requires t.strategy == e.sessions[key].strategy && t.Terminal()
    ensures Live(Marked(e, key, t, at), key)
  {
  }

  lemma MarkedKeys(e: Engine, key: Key, t: Session, at: nat)
    requires SameKeys(e) && key in e.sessions
    ensures SameKeys(Marked(e, key, t, at))
  {
  }

  lemma FinishedBase(e: Engine, key: Key, t: Session, at: nat)
    requires Base(e) && key in e.sessions && e.sessions[key].phase.Decoding?
    requires t.strategy == e.sessions[key].strategy && t.Terminal() && key in e.meta
    ensures Base(Marked(e, key, t, at))
  {
    hide Live, Honest, SameKeys, ParkedOk, Session.Terminal;
    var f := Marked(e, key, t, at);
    MarkedLive(e, key, t, at);
    MarkedKeys(e, key, t, at);
    SameParked(e, f);
    forall k | k in f.sessions
      ensures Live(f, k)
    {
      if k != key { LiveStays(e, f, k); }
    }
    forall t | t in f.pending
      ensures Honest(f, t)
    {
      HonestStays(e, f, t);
    }
  }

  lemma CreatingBase(lib: Lib, inp: Input, e: Engine, key: Key, s: Session, preamble: Bytes, at: nat)
    requires Base(e) && GoodInput(inp) && NewSession(lib, inp, e, key, s, preamble, at)
    ensures Base(DoCreating(e, key, s, preamble, at))
  {
    hide *;
    NewSessionFresh(lib, inp, e, key, s, preamble, at);
    CreatedBase(e, key, s, preamble, at);
  }

  lemma CreatedLive(e: Engine, key: Key, s: Session, preamble: Bytes, at: nat)
    requires key !in e.meta && key.channel in e.channels
    requires s.strategy.inFlight == map[] && s.strategy.attached == e.Subscribers(key.channel)
    requires s.phase.Origin? || (s.phase.Consuming? && key !in e.tombstones && s.strategy.Accepted() == 0)
    ensures Live(DoCreating(e, key, s, preamble, at), key)
  {
  }

  lemma CreatedKeys(e: Engine, key: Key, s: Session, preamble: Bytes, at: nat)
    requires SameKeys(e) && key !in e.sessions
    ensures SameKeys(DoCreating(e, key, s, preamble, at)) && key !in e.meta
  {
  }

  lemma CreatedBase(e: Engine, key: Key, s: Session, preamble: Bytes, at: nat)
    requires Base(e) && key !in e.sessions && key.channel in e.channels
    requires s.strategy.inFlight == map[] && s.strategy.attached == e.Subscribers(key.channel)
    requires s.phase.Origin? || (s.phase.Consuming? && key !in e.tombstones && s.strategy.Accepted() == 0)
    ensures Base(DoCreating(e, key, s, preamble, at))
  {
    var f := DoCreating(e, key, s, preamble, at);
    hide Live, Honest, SameKeys, ParkedOk;
    CreatedKeys(e, key, s, preamble, at);
    CreatedLive(e, key, s, preamble, at);
    SameParked(e, f);
    forall k | k in f.sessions
      ensures Live(f, k)
    {
      if k != key { LiveStays(e, f, k); }
    }
    forall t | t in f.pending
      ensures Honest(f, t)
    {
      PendingLive(e, t);
      HonestStays(e, f, t);
    }
  }

  lemma PendingLive(e: Engine, t: Ticket)
    requires PendingOk(e) && t in e.pending
    ensures t.key in e.sessions
  {
    assert Honest(e, t);
  }

  lemma NewSessionFresh(lib: Lib, inp: Input, e: Engine, key: Key, s: Session, preamble: Bytes, at: nat)
    requires GoodInput(inp) && NewSession(lib, inp, e, key, s, preamble, at)
    ensures key !in e.sessions && key.channel in e.channels
    ensures s.strategy.inFlight == map[] && s.strategy.attached == e.Subscribers(key.channel)
    ensures s.phase.Origin? || (s.phase.Consuming? && key !in e.tombstones && s.strategy.Accepted() == 0)
    ensures Fresh(s.strategy.(attached := {}))
  {
    if inp.Net? {
      var p := lib.parse(preamble).value;
      var r := NewRelay(p, e.channels[key.channel].cfg, inp.fib).value;
      NewRelayFresh(p, e.channels[key.channel].cfg, inp.fib);
      NoneCounted(p.Total());
      assert r.attached == {} && r.(attached := {}) == r;
      assert s.strategy.(attached := {}) == r;
    } else {
      assert inp.strategy.(attached := {}) == inp.strategy;
      assert s.strategy.(attached := {}) == inp.strategy;
    }
  }

  lemma DisposingBase(e: Engine, keys: set<Key>, at: nat)
    requires Base(e) && keys <= e.sessions.Keys
    ensures Base(DoDisposing(e, keys, at))
  {
    hide AllLive, PendingOk;
    TablesStay(e, DoDisposing(e, keys, at));
  }

  lemma SweepingBase(e: Engine, at: nat)
    requires Base(e)
    ensures Base(DoSweeping(e, at))
  {
    hide AllLive, PendingOk;
    TablesStay(e, DoSweeping(e, at));
  }

  lemma ExpiredAreLive(e: Engine, at: nat)
    requires Base(e)
    ensures ExpiredKeys(e, at) <= e.sessions.Keys
  {
    hide AllLive, PendingOk, ParkedOk, Expired;
  }

  lemma CleaningBase(e: Engine, at: nat)
    requires Base(e)
    ensures Base(DoCleaning(e, at))
  {
    hide DoSweeping, DoDisposing, Base, ExpiredKeys;
    var e1 := e.(nextCleanup := at + e.cfg.cleanupInterval);
    ExpiredAreLive(e, at);
    ElsewhereBase(e, e1);
    DisposingBase(e1, ExpiredKeys(e, at), at);
    SweepingBase(DoDisposing(e1, ExpiredKeys(e, at), at), at);
  }

  lemma JoiningBase(e: Engine, c: ChannelId, p: PeerId)
    requires Base(e)
    ensures Base(DoJoining(e, c, p))
  {
    var f := DoJoining(e, c, p);
    if c in e.channels && p !in e.channels[c].subscribers {
      forall k | k in e.sessions
        ensures Succeeds(e.sessions[k], f.sessions[k])
        ensures k.channel in f.channels && f.sessions[k].strategy.attached <= f.Subscribers(k.channel)
      {
        assert Live(e, k);
      }
      hide Succeeds, AllLive, PendingOk, FlightsOk, Hungry;
      UpdateBase(e, f);
    }
  }

  lemma LeavingBase(e: Engine, c: ChannelId, p: PeerId)
    requires Base(e)
    ensures Base(DoLeaving(e, c, p))
  {
    var f := DoLeaving(e, c, p);
    if p in e.Subscribers(c) {
      forall k | k in e.sessions
        ensures Succeeds(e.sessions[k], f.sessions[k])
        ensures k.channel in f.channels && f.sessions[k].strategy.attached <= f.Subscribers(k.channel)
      {
        assert Live(e, k);
        DetachSucceeds(e.sessions[k], p);
      }
      hide Succeeds, AllLive, PendingOk, Detached;
      UpdateBase(e, f);
    }
  }

  lemma DroppingBase(e: Engine, p: PeerId)
    requires Base(e)
    ensures Base(DoDropping(e, p))
  {
    hide Succeeds, AllLive, PendingOk, Detached, ParkedOk;
    var f := DoDropping(e, p);
    forall k | k in e.sessions
      ensures Succeeds(e.sessions[k], f.sessions[k])
      ensures k.channel in f.channels && f.sessions[k].strategy.attached <= f.Subscribers(k.channel)
    {
      DroppedAt(e, p, k);
    }
    assert f.openedTo.Keys == e.openedTo.Keys;
    UpdateBase(e, f);
  }

  lemma DroppedAt(e: Engine, p: PeerId, k: Key)
    requires AllLive(e) && k in e.sessions
    ensures var f := DoDropping(e, p);
            && k in f.sessions && Succeeds(e.sessions[k], f.sessions[k])
            && k.channel in f.channels && f.sessions[k].strategy.attached <= f.Subscribers(k.channel)
  {
    assert Live(e, k);
    DetachSucceeds(e.sessions[k], p);
    hide Detached, Succeeds, AllLive;
    assert DoDropping(e, p).Subscribers(k.channel) == e.Subscribers(k.channel) - {p};
  }

  lemma DetachingBase(e: Engine, key: Key, p: PeerId, completed: bool)
    requires Base(e)
    ensures Base(DoDetaching(e, key, p, completed))
  {
    if key in e.sessions {
      assert Live(e, key);
      DetachSucceeds(e.sessions[key], p);
      hide Base, Succeeds, Detached, Live;
      OneUpdateBase(e, key, Detached(e.sessions[key], p));
      ElsewhereBase(e.(sessions := e.sessions[key := Detached(e.sessions[key], p)]), DoDetaching(e, key, p, completed));
    }
  }

  lemma ResolvingBase(e: Engine, key: Key, p: PeerId, token: Handle, ok: bool)
    requires Base(e)
    ensures Base(DoResolving(e, key, p, token, ok))
  {
    var g := e.(pending := e.pending - {Ticket(key, token)}, log := DoResolving(e, key, p, token, ok).log);
    UnpendedBase(e, Ticket(key, token));
    ElsewhereBase(e.(pending := e.pending - {Ticket(key, token)}), g);
    if key in e.sessions {
      assert Live(g, key);
      var t := e.sessions[key].(strategy := ChunkSent(e.sessions[key].strategy, p, token, ok));
      SettleSucceeds(e.sessions[key], p, token, ok);
      hide Base, Succeeds, ChunkSent, Live;
      OneUpdateBase(g, key, t);
    }
  }

  lemma UnpendedBase(e: Engine, t: Ticket)
    requires Base(e)
    ensures Base(e.(pending := e.pending - {t}))
  {
    var f := e.(pending := e.pending - {t});
    hide AllLive, PendingOk, SameKeys, ParkedOk;
    SameKeysOf(e, f);
    SameParked(e, f);
    TablesStay(e, f);
  }

  lemma HostingBase(e: Engine, c: ChannelId, rs: RsConfig)
    requires Base(e) && c !in e.channels
    ensures Base(DoHosting(e, c, rs))
  {
    var f := DoHosting(e, c, rs);
    forall k | k in f.sessions
      ensures f.Subscribers(k.channel) == e.Subscribers(k.channel)
    {
      assert Live(e, k);
    }
    hide AllLive, PendingOk;
    TablesStay(e, f);
  }

  lemma OpeningBase(e: Engine, key: Key, p: PeerId, sent: bool)
    requires Base(e) && key in e.sessions
    ensures Base(DoOpening(e, key, p, sent))
  {
    hide AllLive, PendingOk, ParkedOk;
    SameTables(e, DoOpening(e, key, p, sent));
    SameParked(e, DoOpening(e, key, p, sent));
  }

  lemma ParkingBase(e: Engine, key: Key, chunk: ParkedChunk)
    requires Base(e)
    ensures Base(DoParking(e, key, chunk)) && Base(DoUnparking(e, key))
  {
    hide AllLive, PendingOk;
    SameTables(e, DoParking(e, key, chunk));
    SameTables(e, DoUnparking(e, key));
  }

  lemma BaseKept(lib: Lib, inp: Input, m: Mode, e: Engine, a: Act)
    requires Base(e) && GoodInput(inp) && Allowed(lib, inp, m, e, a)
    ensures Base(Do(lib, e, a))
  {
    DoIs(lib, e, a);
    hide Base, GoodInput, NewSession, Ready, Do, DoOpening, DoNoting, DoChunking, DoPolling, DoTaking, DoFinishing,
         DoParking, DoUnparking, DoCreating, DoCleaning, DoJoining, DoLeaving, DoDetaching, DoResolving, DoDropping,
         DoHosting;
    match a
    case Opening(key, p, sent) => OpeningBase(e, key, p, sent);
    case Routing(key, p, have, sent) => NotingBase(e, RoutingUpdate(p, key, have), sent);
    case Chunking(key, d, sent) => ChunkingBase(e, key, d, sent);
    case Polling(key) => PollingBase(e, key);
    case Taking(key, idx, data) => TakingBase(lib, e, key, idx, data);
    case Finishing(key, at) => FinishingBase(lib, e, key, at);
    case Parking(key, chunk) => ParkingBase(e, key, chunk);
    case Unparking(key) => ParkingBase(e, key, ParkedChunk(0, [], 0));
    case Creating(key, s, preamble, at) => CreatingBase(lib, inp, e, key, s, preamble, at);
    case Cleaning(at) => CleaningBase(e, at);
    case Joining(c, p) => JoiningBase(e, c, p);
    case Leaving(c, p) => LeavingBase(e, c, p);
    case Detaching(key, p, completed) => DetachingBase(e, key, p, completed);
    case Resolving(key, p, token, ok) => ResolvingBase(e, key, p, token, ok);
    case Dropping(p) => DroppingBase(e, p);
    case Noting(msg, sent) => NotingBase(e, msg, sent);
    case Linking(p, up) => ElsewhereBase(e, DoLinking(e, p, up));
    case Hosting(c, rs) => HostingBase(e, c, rs);
  }

  lemma NotingBase(e: Engine, msg: NetSend, sent: bool)
    requires Base(e)
    ensures Base(DoNoting(e, msg, sent))
  {
    ElsewhereBase(e, DoNoting(e, msg, sent));
  }
}
