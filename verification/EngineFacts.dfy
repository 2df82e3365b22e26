/** What each primitive update shows in the log and does to phases and opened peers. */
module EngineFacts {
  import opened Basics
  import opened Havelists
  import opened Coding
  import opened Strategies
  import opened Sessions
  import opened Engines
  import opened EngineSteps
  import opened EngineBase
  import opened EngineRuns

  /** The event an update logs, if any. */
  ghost function EventOf(lib: Lib, e: Engine, a: Act): Option<Event> {
    match a
    case Opening(key, p, sent) => Some(Sent(SessionOpen(p, key, e.Preamble(key)), sent))
    case Routing(key, p, have, sent) => Some(Sent(RoutingUpdate(p, key, have), sent))
    case Chunking(key, d, sent) => Some(Sent(Chunk(d.peer, key, d.idx, d.payload, d.handle), sent))
    case Finishing(key, at) =>
      if key in e.sessions then Some(Ending(key, DecodeAndFinish(lib, e.sessions[key]).1, at)) else None
    case Creating(key, s, _, at) => Some(Created(key, s.phase.Origin?, at))
    case Cleaning(at) => Some(Disposed(ExpiredKeys(e, at), at))
    case Joining(c, p) => if c in e.channels && p !in e.Subscribers(c) then Some(Joined(c, p)) else None
    case Leaving(c, p) => if c in e.channels && p in e.Subscribers(c) then Some(Left(c, p)) else None
    case Detaching(key, p, completed) =>
      if key in e.sessions then Some(if completed then PeerDone(key, p) else PeerClosed(key, p)) else None
    case Resolving(key, _, token, ok) =>
      if e.Flying(key, token) then Some(Outcome(key, e.sessions[key].strategy.inFlight[token], ok)) else None
    case Dropping(p) => Some(Disconnected(p))
    case Noting(msg, sent) => Some(Sent(msg, sent))
    case _ => None
  }

  ghost function Extend(log: seq<Event>, x: Option<Event>): seq<Event> {
    if x.Some? then log + [x.value] else log
  }

  /** Whether the session is opened to the peer after an update. */
  ghost predicate OpenedAfter(e: Engine, a: Act, k: Key, p: PeerId) {
    match a
    case Opening(key, x, sent) => p in e.Opened(k) || (sent && k == key && p == x)
    case Cleaning(at) => p in e.Opened(k) && k !in ExpiredKeys(e, at)
    case Dropping(x) => p in e.Opened(k) && p != x
    case _ => p in e.Opened(k)
  }

  /** What can happen to one live session in an update. */
  datatype Change =
    | Same
    | Settled(p: PeerId, h: Handle, ok: bool)
    | Polled
    | Fed(idx: nat, data: Bytes)
    | Ended
    | Gained(p: PeerId)
    | Lost(p: PeerId)

  ghost function Changed(lib: Lib, s: Session, c: Change): Session {
    match c
    case Same => s
    case Settled(p, h, ok) => s.(strategy := ChunkSent(s.strategy, p, h, ok))
    case Polled => Poll(s).0
    case Fed(idx, data) => Take(lib, s, idx, data).0
    case Ended => DecodeAndFinish(lib, s).0
    case Gained(p) => s.(strategy := AttachPeer(s.strategy, p))
    case Lost(p) => Detached(s, p)
  }

  /** What an update other than creation or cleanup does to the session. */
  ghost function ChangeOf(e: Engine, a: Act, k: Key): Change {
    match a
    case Chunking(key, d, sent) => if key == k && !sent then Settled(d.peer, d.handle, false) else Same
    case Polling(key) => if key == k then Polled else Same
    case Taking(key, idx, data) => if key == k then Fed(idx, data) else Same
    case Finishing(key, at) => if key == k then Ended else Same
    case Joining(c, p) => if k.channel == c && c in e.channels && p !in e.Subscribers(c) then Gained(p) else Same
    case Leaving(c, p) => if k.channel == c && p in e.Subscribers(c) then Lost(p) else Same
    case Detaching(key, p, _) => if key == k then Lost(p) else Same
    case Resolving(key, p, token, ok) => if key == k then Settled(p, token, ok) else Same
    case Dropping(p) => if p in e.Subscribers(k.channel) then Lost(p) else Same
    case _ => Same
  }

  ghost function SessionOf(lib: Lib, e: Engine, a: Act, k: Key): Session
    requires k in e.sessions
  {
    Changed(lib, e.sessions[k], ChangeOf(e, a, k))
  }

  /** The pending sends after an update. */
  ghost function PendingAfter(e: Engine, a: Act): map<Ticket, PeerId> {
    match a
    case Chunking(key, d, sent) => if sent then e.pending[Ticket(key, d.handle) := d.peer] else e.pending
    case Resolving(key, _, token, _) => e.pending - {Ticket(key, token)}
    case Dropping(p) => map t | t in e.pending && e.pending[t] != p :: e.pending[t]
    case Cleaning(at) => map t | t in e.pending && t.key !in ExpiredKeys(e, at) :: e.pending[t]
    case _ => e.pending
  }

  /** All that the lemmas below say about an update from `e` to `f`, for one session and one peer. */
  ghost predicate Facts(lib: Lib, e: Engine, a: Act, f: Engine, k: Key, p: PeerId) {
    && f.log == Extend(e.log, EventOf(lib, e, a))
    && (p in f.Opened(k) <==> OpenedAfter(e, a, k, p))
    && (!a.Cleaning? && !(a.Creating? && a.key == k) && k in e.sessions ==>
          k in f.sessions && f.sessions[k] == SessionOf(lib, e, a, k))
    && (k !in e.sessions && !(a.Creating? && a.key == k) ==> k !in f.sessions)
    && (!a.Cleaning? ==> f.tombstones == e.tombstones && f.nextCleanup == e.nextCleanup)
    && (!a.Creating? && !a.Cleaning? ==> f.preambles == e.preambles)
    && (!a.Creating? && !a.Cleaning? && !a.Finishing? ==> f.meta == e.meta)
    && (!a.Parking? && !a.Unparking? && !a.Cleaning? ==> f.parked == e.parked)
    && f.pending == PendingAfter(e, a)
    && SameHost(e, f, k.channel)
    && f.cfg == e.cfg
  }

  /** A hosted channel stays hosted with its code parameters. */
  ghost predicate SameHost(e: Engine, f: Engine, c: ChannelId) {
    c in e.channels ==> c in f.channels && f.channels[c].cfg == e.channels[c].cfg
  }

  lemma SendingFacts(lib: Lib, e: Engine, a: Act, k: Key, p: PeerId)
    requires a.Opening? || a.Routing? || a.Noting?
    ensures Facts(lib, e, a, Do(lib, e, a), k, p)
  {
    hide DecodeAndFinish, Poll, Take, ChunkSent, Detached, AttachPeer, ExpiredKeys, Unexpired, DoChunking, DoPolling,
         DoTaking, DoFinishing, DoParking, DoUnparking, DoCreating, DoCleaning, DoJoining, DoLeaving, DoDetaching,
         DoResolving, DoDropping, DoLinking, DoHosting;
  }

  lemma ChunkingFacts(lib: Lib, e: Engine, a: Act, k: Key, p: PeerId)
    requires a.Chunking?
    ensures Facts(lib, e, a, Do(lib, e, a), k, p)
  {
    hide DecodeAndFinish, Poll, Take, ChunkSent, Detached, AttachPeer, ExpiredKeys, Unexpired, DoOpening, DoNoting, DoPolling,
         DoTaking, DoFinishing, DoParking, DoUnparking, DoCreating, DoCleaning, DoJoining, DoLeaving, DoDetaching,
         DoResolving, DoDropping, DoLinking, DoHosting;
  }

  lemma FeedingFacts(lib: Lib, e: Engine, a: Act, k: Key, p: PeerId)
    requires a.Polling? || a.Taking?
    ensures Facts(lib, e, a, Do(lib, e, a), k, p)
  {
    hide DecodeAndFinish, Poll, Take, ChunkSent, Detached, AttachPeer, ExpiredKeys, Unexpired, DoFinishing, DoOpening,
         DoNoting, DoChunking, DoParking, DoUnparking, DoCreating, DoCleaning, DoJoining, DoLeaving, DoDetaching,
         DoResolving, DoDropping, DoLinking, DoHosting;
  }

  lemma FinishingFacts(lib: Lib, e: Engine, a: Act, k: Key, p: PeerId)
    requires a.Finishing?
    ensures Facts(lib, e, a, Do(lib, e, a), k, p)
  {
    hide DecodeAndFinish, Poll, Take, ChunkSent, Detached, AttachPeer, ExpiredKeys, Unexpired, DoPolling, DoTaking, DoOpening,
         DoNoting, DoChunking, DoParking, DoUnparking, DoCreating, DoCleaning, DoJoining, DoLeaving, DoDetaching,
         DoResolving, DoDropping, DoLinking, DoHosting;
  }

  lemma SettlingFacts(lib: Lib, e: Engine, a: Act, k: Key, p: PeerId)
    requires a.Detaching? || a.Resolving?
    ensures Facts(lib, e, a, Do(lib, e, a), k, p)
  {
    hide DecodeAndFinish, Poll, Take, ChunkSent, Detached, AttachPeer, ExpiredKeys, Unexpired, DoOpening,
         DoNoting, DoChunking, DoPolling, DoTaking, DoFinishing, DoParking, DoUnparking, DoCreating, DoCleaning,
         DoJoining, DoLeaving, DoDropping, DoLinking, DoHosting;
  }

  lemma JoiningFacts(lib: Lib, e: Engine, a: Act, k: Key, p: PeerId)
    requires a.Joining?
    ensures Facts(lib, e, a, Do(lib, e, a), k, p)
  {
    hide DecodeAndFinish, Poll, Take, ChunkSent, Detached, AttachPeer, ExpiredKeys, Unexpired, DoOpening,
         DoNoting, DoChunking, DoPolling, DoTaking, DoFinishing, DoParking, DoUnparking, DoCreating, DoCleaning,
         DoLeaving, DetachedFrom, DoDetaching, DoResolving, DoDropping, DoLinking, DoHosting;
  }

  lemma LeavingFacts(lib: Lib, e: Engine, a: Act, k: Key, p: PeerId)
    requires a.Leaving?
    ensures Facts(lib, e, a, Do(lib, e, a), k, p)
  {
    hide DecodeAndFinish, Poll, Take, ChunkSent, Detached, AttachPeer, ExpiredKeys, Unexpired, DoOpening,
         DoNoting, DoChunking, DoPolling, DoTaking, DoFinishing, DoParking, DoUnparking, DoCreating, DoCleaning,
         DoJoining, AttachedTo, DoDetaching, DoResolving, DoDropping, DoLinking, DoHosting;
  }

  lemma LinkingFacts(lib: Lib, e: Engine, a: Act, k: Key, p: PeerId)
    requires a.Dropping? || a.Linking? || a.Hosting?
    ensures Facts(lib, e, a, Do(lib, e, a), k, p)
  {
    hide DecodeAndFinish, Poll, Take, ChunkSent, Detached, AttachPeer, ExpiredKeys, Unexpired, DoOpening,
         DoNoting, DoChunking, DoPolling, DoTaking, DoFinishing, DoParking, DoUnparking, DoCreating, DoCleaning,
         DoJoining, DoLeaving, DoDetaching, DoResolving;
  }

  lemma ParkingFacts(lib: Lib, e: Engine, a: Act, k: Key, p: PeerId)
    requires a.Parking? || a.Unparking?
    ensures Facts(lib, e, a, Do(lib, e, a), k, p)
  {
    hide DecodeAndFinish, Poll, Take, ChunkSent, Detached, AttachPeer, ExpiredKeys, Unexpired, DoCreating, DoOpening,
         DoNoting, DoChunking, DoPolling, DoTaking, DoFinishing, DoCleaning, DoJoining, DoLeaving, DoDetaching,
         DoResolving, DoDropping, DoLinking, DoHosting;
  }

  lemma CreatingFacts(lib: Lib, e: Engine, a: Act, k: Key, p: PeerId)
    requires a.Creating?
    ensures Facts(lib, e, a, Do(lib, e, a), k, p)
  {
    hide DecodeAndFinish, Poll, Take, ChunkSent, Detached, AttachPeer, ExpiredKeys, Unexpired, DoParking, DoUnparking, DoOpening,
         DoNoting, DoChunking, DoPolling, DoTaking, DoFinishing, DoCleaning, DoJoining, DoLeaving, DoDetaching,
         DoResolving, DoDropping, DoLinking, DoHosting;
  }

  lemma SweepingFacts(lib: Lib, e: Engine, a: Act, k: Key, p: PeerId)
    requires a.Cleaning?
    ensures Facts(lib, e, a, Do(lib, e, a), k, p)
  {
    hide DecodeAndFinish, Poll, Take, ChunkSent, Detached, AttachPeer, ExpiredKeys, Unexpired, DoOpening,
         DoNoting, DoChunking, DoPolling, DoTaking, DoFinishing, DoParking, DoUnparking, DoCreating, DoJoining,
         DoLeaving, DoDetaching, DoResolving, DoDropping, DoLinking, DoHosting;
  }

  lemma FactsOf(lib: Lib, e: Engine, a: Act, k: Key, p: PeerId)
    ensures Facts(lib, e, a, Do(lib, e, a), k, p)
  {
    hide Do, Facts;
    match a
    case Opening(_, _, _) => SendingFacts(lib, e, a, k, p);
    case Routing(_, _, _, _) => SendingFacts(lib, e, a, k, p);
    case Chunking(_, _, _) => ChunkingFacts(lib, e, a, k, p);
    case Polling(_) => FeedingFacts(lib, e, a, k, p);
    case Taking(_, _, _) => FeedingFacts(lib, e, a, k, p);
    case Finishing(_, _) => FinishingFacts(lib, e, a, k, p);
    case Parking(_, _) => ParkingFacts(lib, e, a, k, p);
    case Unparking(_) => ParkingFacts(lib, e, a, k, p);
    case Creating(_, _, _, _) => CreatingFacts(lib, e, a, k, p);
    case Cleaning(_) => SweepingFacts(lib, e, a, k, p);
    case Joining(_, _) => JoiningFacts(lib, e, a, k, p);
    case Leaving(_, _) => LeavingFacts(lib, e, a, k, p);
    case Detaching(_, _, _) => SettlingFacts(lib, e, a, k, p);
    case Resolving(_, _, _, _) => SettlingFacts(lib, e, a, k, p);
    case Dropping(_) => LinkingFacts(lib, e, a, k, p);
    case Noting(_, _) => SendingFacts(lib, e, a, k, p);
    case Linking(_, _) => LinkingFacts(lib, e, a, k, p);
    case Hosting(_, _) => LinkingFacts(lib, e, a, k, p);
  }

  lemma LogOf(lib: Lib, e: Engine, a: Act)
    ensures Do(lib, e, a).log == Extend(e.log, EventOf(lib, e, a))
  {
    hide Do, EventOf, SessionOf, OpenedAfter, PendingAfter;
    FactsOf(lib, e, a, Key(0, 0), 0);
  }

  lemma PendingOf(lib: Lib, e: Engine, a: Act)
    ensures Do(lib, e, a).pending == PendingAfter(e, a)
  {
    hide Do, EventOf, SessionOf, OpenedAfter, PendingAfter;
    FactsOf(lib, e, a, Key(0, 0), 0);
  }

  lemma HostOf(lib: Lib, e: Engine, a: Act, k: Key)
    ensures SameHost(e, Do(lib, e, a), k.channel)
  {
    hide Do, EventOf, SessionOf, OpenedAfter, PendingAfter;
    FactsOf(lib, e, a, k, 0);
  }

  /** How an update changes the peers a session is opened to. */
  lemma OpenedOf(lib: Lib, e: Engine, a: Act, k: Key, p: PeerId)
    ensures p in Do(lib, e, a).Opened(k) <==> OpenedAfter(e, a, k, p)
  {
    hide Do, EventOf, SessionOf, OpenedAfter, PendingAfter;
    FactsOf(lib, e, a, k, p);
  }

  lemma SessionsOf(lib: Lib, e: Engine, a: Act, k: Key)
    requires k in e.sessions && !a.Cleaning? && (a.Creating? ==> a.key != k)
    ensures k in Do(lib, e, a).sessions && Do(lib, e, a).sessions[k] == SessionOf(lib, e, a, k)
  {
    hide Do, EventOf, SessionOf, OpenedAfter, PendingAfter;
    FactsOf(lib, e, a, k, 0);
  }

  lemma KeysOf(lib: Lib, e: Engine, a: Act, k: Key)
    requires k !in e.sessions && (a.Creating? ==> a.key != k)
    ensures k !in Do(lib, e, a).sessions
  {
    hide Do, EventOf, SessionOf, OpenedAfter, PendingAfter;
    FactsOf(lib, e, a, k, 0);
  }

  /** Apart from creation and cleanup, an update keeps these tables. */
  lemma SteadyOf(lib: Lib, e: Engine, a: Act)
    requires !a.Creating? && !a.Cleaning?
    ensures var f := Do(lib, e, a);
            && f.tombstones == e.tombstones && f.preambles == e.preambles && f.cfg == e.cfg
            && f.nextCleanup == e.nextCleanup
  {
    hide Do, EventOf, SessionOf, OpenedAfter, PendingAfter;
    FactsOf(lib, e, a, Key(0, 0), 0);
  }

  /** How a phase may move in one update. */
  ghost predicate PhaseMoves(a: Act, k: Key, x: Phase, y: Phase) {
    || y == x
    || (a.Taking? && a.key == k && x.Consuming? && y.Decoding?)
    || (a.Finishing? && a.key == k && x.Decoding? && (y.Reconstructed? || y.Failed?))
  }

  lemma ChangedPhase(lib: Lib, s: Session, c: Change)
    ensures var t := Changed(lib, s, c);
            || t.phase == s.phase
            || (c.Fed? && s.phase.Consuming? && t.phase.Decoding?)
            || (c.Ended? && s.phase.Decoding? && t.Terminal())
  {
    hide TakeChunk, Reconstruct, PollRouting, PollChunks, ChunkSent, DetachPeer, AttachPeer;
  }

  lemma PhasesOf(lib: Lib, e: Engine, a: Act, k: Key)
    requires k in e.sessions
    ensures PhaseMoves(a, k, e.sessions[k].phase, SessionOf(lib, e, a, k).phase)
  {
    hide Changed;
    ChangedPhase(lib, e.sessions[k], ChangeOf(e, a, k));
  }

  /** Only finishing sets a terminal time, only creation and cleanup change which sessions have metadata. */
  lemma MetaOf(lib: Lib, e: Engine, a: Act)
    requires !a.Creating? && !a.Cleaning? && !a.Finishing?
    ensures Do(lib, e, a).meta == e.meta
  {
    hide Do, EventOf, SessionOf, OpenedAfter, PendingAfter;
    FactsOf(lib, e, a, Key(0, 0), 0);
  }

  lemma ParkedOf(lib: Lib, e: Engine, a: Act)
    requires !a.Parking? && !a.Unparking? && !a.Cleaning?
    ensures Do(lib, e, a).parked == e.parked
  {
    hide Do, EventOf, SessionOf, OpenedAfter, PendingAfter;
    FactsOf(lib, e, a, Key(0, 0), 0);
  }

  /** What the sweep does to the tables: expired sessions go, the others stay as they are. */
  lemma CleaningOf(lib: Lib, e: Engine, at: nat)
    ensures var f, gone := Do(lib, e, Cleaning(at)), ExpiredKeys(e, at);
            && f.sessions == e.sessions - gone && f.meta == e.meta - gone && f.preambles == e.preambles - gone
            && f.channels == e.channels && f.cfg == e.cfg && f.connected == e.connected
            && f.nextCleanup == at + e.cfg.cleanupInterval
            && f.pending == map t | t in e.pending && t.key !in gone :: e.pending[t]
  {
    hide ExpiredKeys;
    DoIs(lib, e, Cleaning(at));
    hide Do;
  }
}
