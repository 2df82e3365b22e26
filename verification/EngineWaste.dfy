/** No wasted sends: what lies between two accepted sends of the same shard to the same peer. */
module EngineWaste {
  import opened Basics
  import opened Havelists
  import opened Coding
  import opened Strategies
  import opened Sessions
  import opened Engines
  import opened EngineSteps
  import opened EngineBase
  import opened EngineRuns
  import opened EngineFacts
  import opened EngineStrategies
  import opened EngineResults
  import R = StrategyRuns
  import Polling
  import P = Planners

  // ---- The log ----

  ghost predicate IsAccepted(x: Event, k: Key, p: PeerId, i: nat) {
    x.Sent? && x.ok && x.msg.Chunk? && x.msg.key == k && x.msg.peer == p && x.msg.idx == i
  }

  /** A failed outcome of the shard at the peer, a departure of the peer, or the end of the session. */
  ghost predicate IsRelease(x: Event, k: Key, p: PeerId, i: nat) {
    match x
    case Outcome(key, flight, ok) => key == k && flight == Flight(p, i) && !ok
    case Disconnected(q) => q == p
    case Left(c, q) => c == k.channel && q == p
    case PeerDone(key, q) => key == k && q == p
    case PeerClosed(key, q) => key == k && q == p
    case Disposed(keys, _) => k in keys
    case _ => false
  }

  /** The shard was accepted for the peer and not released since. */
  ghost predicate Busy(log: seq<Event>, k: Key, p: PeerId, i: nat) {
    log != [] &&
    var x := log[|log| - 1];
    !IsRelease(x, k, p, i) && (IsAccepted(x, k, p, i) || Busy(log[..|log| - 1], k, p, i))
  }

  ghost predicate Spares(log: seq<Event>, x: Event) {
    x.Sent? && x.ok && x.msg.Chunk? ==> !Busy(log, x.msg.key, x.msg.peer, x.msg.idx)
  }

  ghost predicate Thrifty(log: seq<Event>) {
    forall j | 0 <= j < |log| :: Spares(log[..j], log[j])
  }

  lemma ThriftyAppend(log: seq<Event>, x: Event)
    requires Thrifty(log) && Spares(log, x)
    ensures Thrifty(log + [x])
  {
    hide Spares;
    forall j | 0 <= j < |log + [x]|
      ensures Spares((log + [x])[..j], (log + [x])[j])
    {
      assert (log + [x])[..j] == log[..j];
      assert log[..|log|] == log;
    }
  }

  lemma BusyAppend(log: seq<Event>, x: Event, k: Key, p: PeerId, i: nat)
    ensures Busy(log + [x], k, p, i) <==> !IsRelease(x, k, p, i) && (IsAccepted(x, k, p, i) || Busy(log, k, p, i))
  {
    assert (log + [x])[..|log|] == log;
  }

  // ---- Strategies that never see a routing update ----

  /** Nothing is in flight to a peer that has it, and every known havelist covers all shards. */
  ghost predicate Clear(s: Strategy) {
    R.WellSized(s) && forall p: PeerId, i: nat :: !(s.planner.InFlight(p, i) && s.planner.Has(p, i))
  }

  lemma PollPeerClear(s: Strategy, p: PeerId)
    requires Clear(s)
    ensures Clear(PollPeer(s, p).0)
  {
    var t := PollPeer(s, p).0;
    var choice := P.Choose(s.planner, p);
    assert choice.Some? ==> s.planner.Eligible(p, choice.value);
    hide P.Choose;
    forall x: PeerId, i: nat
      ensures !(t.planner.InFlight(x, i) && t.planner.Has(x, i))
    {
      assert !(s.planner.InFlight(x, i) && s.planner.Has(x, i));
    }
    assert PollFrom(s, [p]).0 == t by { assert [p][1..] == []; }
    R.PollKeepsSizes(s, [p]);
  }

  lemma {:induction false} PollFromClear(s: Strategy, peers: seq<PeerId>)
    requires Clear(s)
    ensures Clear(PollFrom(s, peers).0)
    decreases |peers|
  {
    if peers != [] {
      PollPeerClear(s, peers[0]);
      hide Clear, PollPeer;
      PollFromClear(PollPeer(s, peers[0]).0, peers[1..]);
    }
  }

  lemma SettleClear(s: Strategy, p: PeerId, h: Handle, ok: bool)
    requires Clear(s)
    ensures Clear(ChunkSent(s, p, h, ok))
  {
    R.SettleKeepsSizes(s, p, h, ok);
    var t := ChunkSent(s, p, h, ok);
    hide R.WellSized;
    forall x: PeerId, i: nat
      ensures !(t.planner.InFlight(x, i) && t.planner.Has(x, i))
    {
      assert !(s.planner.InFlight(x, i) && s.planner.Has(x, i));
    }
  }

  lemma LostClear(s: Strategy, p: PeerId)
    requires Clear(s)
    ensures Clear(DetachPeer(s, p))
  {
    R.DetachKeepsSizes(s, p);
    P.RemovePeerRefunds(s.planner, p, 0);
    hide P.RemovePeer, R.WellSized;
    var t := DetachPeer(s, p);
    forall x: PeerId, i: nat
      ensures !(t.planner.InFlight(x, i) && t.planner.Has(x, i))
    {
      assert !(s.planner.InFlight(x, i) && s.planner.Has(x, i));
    }
  }

  lemma SamePlannerClear(s: Strategy, t: Strategy)
    requires Clear(s) && t.planner == s.planner
    ensures Clear(t)
  {
  }

  lemma ChangedClear(lib: Lib, s: Session, c: Change)
    requires Clear(s.strategy)
    ensures Clear(Changed(lib, s, c).strategy)
  {
    var t := Changed(lib, s, c).strategy;
    hide Clear, ChunkSent, PollFrom, DetachPeer, TakeChunk, Reconstruct, VerifyChunk;
    match c
    case Settled(p, h, ok) => SettleClear(s.strategy, p, h, ok);
    case Polled =>
      var r := PollRouting(s.strategy).0;
      SamePlannerClear(s.strategy, r);
      PollFromClear(r, Sorted(r.attached));
    case Lost(p) => LostClear(s.strategy, p);
    case Fed(idx, data) =>
      TakeKeepsPlanner(lib, s, idx, data);
      SamePlannerClear(s.strategy, t);
    case _ => SamePlannerClear(s.strategy, t);
  }

  lemma TakeKeepsPlanner(lib: Lib, s: Session, idx: nat, data: Bytes)
    ensures Take(lib, s, idx, data).0.strategy.planner == s.strategy.planner
    ensures Take(lib, s, idx, data).0.strategy.inFlight == s.strategy.inFlight
  {
  }

  lemma FreshClear(s: Strategy)
    requires s.planner.peers == map[]
    ensures Clear(s)
  {
  }

  // ---- What a busy shard is backed by ----

  /** The peer is believed to hold the shard, or a send of it to the peer awaits its outcome. */
  ghost predicate Pledged(e: Engine, k: Key, p: PeerId, i: nat) {
    k in e.sessions && (e.sessions[k].strategy.planner.Has(p, i) || exists h: Handle :: Awaited(e, k, h, Flight(p, i)))
  }

  ghost predicate Awaited(e: Engine, k: Key, h: Handle, f: Flight)
    requires k in e.sessions
  {
    h in e.sessions[k].strategy.inFlight && e.sessions[k].strategy.inFlight[h] == f && Ticket(k, h) in e.pending
  }

  /** What a change does to a belief: it stays unless the peer is lost. */
  lemma ChangedHas(lib: Lib, s: Session, c: Change, p: PeerId, i: nat)
    requires s.strategy.planner.Has(p, i) && c != Lost(p)
    ensures Changed(lib, s, c).strategy.planner.Has(p, i)
  {
    hide Reconstruct, TakeChunk, VerifyChunk;
    match c
    case Settled(x, h, ok) => R.HasSticks(lib, s.strategy, R.Settle(x, h, ok), p, i);
    case Polled => R.PollKeepsHas(PollRouting(s.strategy).0, Sorted(s.strategy.attached), p, i);
    case Lost(x) => R.HasSticks(lib, s.strategy, R.Detach(x), p, i);
    case Fed(idx, data) => TakeKeepsPlanner(lib, s, idx, data);
    case _ =>
  }

  /** A flight stays unless it is settled or its peer is lost. */
  lemma ChangedFlight(lib: Lib, s: Session, c: Change, h: Handle)
    requires FlightsOk(s.strategy) && h in s.strategy.inFlight
    requires c != Lost(s.strategy.inFlight[h].peer) && !(c.Settled? && c.h == h)
    ensures var t := Changed(lib, s, c).strategy;
            h in t.inFlight && t.inFlight[h] == s.strategy.inFlight[h]
  {
    hide Reconstruct, TakeChunk, VerifyChunk;
    match c
    case Polled =>
      var r := PollRouting(s.strategy).0;
      Polling.PollFromEmits(r, Sorted(r.attached));
      hide PollFrom;
    case Fed(idx, data) => TakeKeepsPlanner(lib, s, idx, data);
    case _ =>
  }

  /** A successful outcome of the flight leaves its peer believed to hold the shard. */
  lemma SettledHas(s: Strategy, h: Handle)
    requires Inv(s) && R.WellSized(s) && h in s.inFlight
    ensures ChunkSent(s, s.inFlight[h].peer, h, true).planner.Has(s.inFlight[h].peer, s.inFlight[h].idx)
  {
    assert s.Held(s.inFlight[h].idx);
    R.AckMarksWhenHavelistFits(s, h);
    hide ChunkSent, Inv;
  }

  ghost predicate WasteInv(e: Engine) {
    && AllSound(e) && Thrifty(e.log)
    && (forall k | k in e.sessions :: Clear(e.sessions[k].strategy))
    && (forall k: Key, p: PeerId, i: nat :: Busy(e.log, k, p, i) ==> Pledged(e, k, p, i))
  }

  // ---- Updates ----

  /** An update that loses a peer shows its departure. */
  lemma LossIsReleased(lib: Lib, e: Engine, a: Act, k: Key, p: PeerId, i: nat)
    requires k in e.sessions && ChangeOf(e, a, k) == Lost(p)
    ensures EventOf(lib, e, a).Some? && IsRelease(EventOf(lib, e, a).value, k, p, i)
  {
    hide ExpiredKeys, DecodeAndFinish, Engine.Preamble;
  }

  lemma PendingPeer(e: Engine, k: Key, h: Handle)
    requires Base(e) && k in e.sessions && h in e.sessions[k].strategy.inFlight && Ticket(k, h) in e.pending
    ensures e.pending[Ticket(k, h)] == e.sessions[k].strategy.inFlight[h].peer
  {
    assert Honest(e, Ticket(k, h));
  }

  /** An update that settles an awaited flight reports its outcome; the peer it names is the flight's. */
  lemma SettlementShows(lib: Lib, inp: Input, m: Mode, e: Engine, a: Act, k: Key, h: Handle)
    requires Base(e) && m.echo && Allowed(lib, inp, m, e, a) && k in e.sessions
    requires h in e.sessions[k].strategy.inFlight && Ticket(k, h) in e.pending
    requires ChangeOf(e, a, k).Settled? && ChangeOf(e, a, k).h == h
    ensures var f := e.sessions[k].strategy.inFlight[h];
            && ChangeOf(e, a, k).p == f.peer
            && EventOf(lib, e, a) == Some(Outcome(k, f, ChangeOf(e, a, k).ok))
  {
    hide Base, ExpiredKeys, DecodeAndFinish, Ready, NewSession, Engine.Preamble, Engine.Opened, Engine.Subscribers;
    PendingPeer(e, k, h);
    assert a.Resolving?;
  }

  lemma HasStays(lib: Lib, e: Engine, a: Act, k: Key, p: PeerId, i: nat)
    requires k in e.sessions && !a.Cleaning? && !(a.Creating? && a.key == k)
    requires e.sessions[k].strategy.planner.Has(p, i)
    requires EventOf(lib, e, a).Some? ==> !IsRelease(EventOf(lib, e, a).value, k, p, i)
    ensures Pledged(Do(lib, e, a), k, p, i)
  {
    hide Do, Changed, ChangeOf, EventOf, IsRelease, P.Planner.Has;
    SessionsOf(lib, e, a, k);
    if ChangeOf(e, a, k) == Lost(p) { LossIsReleased(lib, e, a, k, p, i); }
    ChangedHas(lib, e.sessions[k], ChangeOf(e, a, k), p, i);
  }

  /** The pending entry of an awaited flight stays unless the flight is settled, its peer leaves or the session ends. */
  lemma TicketStays(lib: Lib, inp: Input, m: Mode, e: Engine, a: Act, k: Key, h: Handle)
    requires Base(e) && Allowed(lib, inp, m, e, a) && k in e.sessions && !a.Cleaning?
    requires h in e.sessions[k].strategy.inFlight && Ticket(k, h) in e.pending
    requires !(ChangeOf(e, a, k).Settled? && ChangeOf(e, a, k).h == h)
    requires a != Dropping(e.sessions[k].strategy.inFlight[h].peer)
    ensures Ticket(k, h) in PendingAfter(e, a)
  {
    hide Base, ExpiredKeys, Ready, NewSession, Engine.Opened, Engine.Subscribers;
    PendingPeer(e, k, h);
  }

  lemma FlightStays(lib: Lib, inp: Input, m: Mode, e: Engine, a: Act, k: Key, p: PeerId, i: nat, h: Handle)
    requires Base(e) && m.echo && Allowed(lib, inp, m, e, a) && k in e.sessions
    requires Sound(e.sessions[k]) && Clear(e.sessions[k].strategy)
    requires !a.Cleaning? && !(a.Creating? && a.key == k) && Awaited(e, k, h, Flight(p, i))
    requires EventOf(lib, e, a).Some? ==> !IsRelease(EventOf(lib, e, a).value, k, p, i)
    ensures Pledged(Do(lib, e, a), k, p, i)
  {
    hide Do, Changed, ChangeOf, EventOf, Allowed, Base, Sound, PendingAfter, Clear, P.Planner.Has, FlightsOk;
    var s, c := e.sessions[k], ChangeOf(e, a, k);
    FlightsAt(e, k);
    SessionsOf(lib, e, a, k);
    if c == Lost(p) { LossIsReleased(lib, e, a, k, p, i); }
    if c.Settled? && c.h == h {
      SettlementShows(lib, inp, m, e, a, k, h);
      SettledPledge(lib, s, c, h);
    } else {
      PendingOf(lib, e, a);
      if a == Dropping(p) { DropShows(lib, e, p); }
      ChangedFlight(lib, s, c, h);
      TicketStays(lib, inp, m, e, a, k, h);
      assert Awaited(Do(lib, e, a), k, h, Flight(p, i));
    }
  }

  lemma DropShows(lib: Lib, e: Engine, p: PeerId)
    ensures EventOf(lib, e, Dropping(p)) == Some(Disconnected(p))
  {
  }

  lemma SettledPledge(lib: Lib, s: Session, c: Change, h: Handle)
    requires Sound(s) && Clear(s.strategy) && h in s.strategy.inFlight
    requires c == Settled(s.strategy.inFlight[h].peer, h, true)
    ensures Changed(lib, s, c).strategy.planner.Has(s.strategy.inFlight[h].peer, s.strategy.inFlight[h].idx)
  {
    SettledHas(s.strategy, h);
    hide ChunkSent, Inv;
  }

  lemma PledgedCleaned(lib: Lib, e: Engine, at: nat, k: Key, p: PeerId, i: nat)
    requires Pledged(e, k, p, i) && k !in ExpiredKeys(e, at)
    ensures Pledged(Do(lib, e, Cleaning(at)), k, p, i)
  {
    hide Do, ExpiredKeys;
    CleaningOf(lib, e, at);
    if !e.sessions[k].strategy.planner.Has(p, i) {
      var h: Handle :| Awaited(e, k, h, Flight(p, i));
      assert Awaited(Do(lib, e, Cleaning(at)), k, h, Flight(p, i));
    }
  }

  lemma PledgedKept(lib: Lib, inp: Input, m: Mode, e: Engine, a: Act, k: Key, p: PeerId, i: nat)
    requires Base(e) && m.echo && Allowed(lib, inp, m, e, a) && Pledged(e, k, p, i)
    requires Sound(e.sessions[k]) && Clear(e.sessions[k].strategy)
    requires EventOf(lib, e, a).Some? ==> !IsRelease(EventOf(lib, e, a).value, k, p, i)
    ensures Pledged(Do(lib, e, a), k, p, i)
  {
    hide Do, Sound, Base, Clear, P.Planner.Has, ExpiredKeys, DecodeAndFinish, Ready, RelayStrategy;
    if a.Cleaning? {
      PledgedCleaned(lib, e, a.at, k, p, i);
    } else {
      assert a.Creating? ==> a.key != k;
      hide Allowed, EventOf, IsRelease;
      if e.sessions[k].strategy.planner.Has(p, i) {
        HasStays(lib, e, a, k, p, i);
      } else {
        var h: Handle :| Awaited(e, k, h, Flight(p, i));
        FlightStays(lib, inp, m, e, a, k, p, i, h);
      }
    }
  }

  /** A chunk accepted by the transport becomes an awaited flight. */
  lemma AcceptedPledged(lib: Lib, e: Engine, key: Key, d: Dispatch)
    requires Ready(e, key, d)
    ensures Pledged(Do(lib, e, Chunking(key, d, true)), key, d.peer, d.idx)
  {
    var a := Chunking(key, d, true);
    hide Do, Changed;
    SessionsOf(lib, e, a, key);
    PendingOf(lib, e, a);
    assert ChangeOf(e, a, key) == Same;
    assert Changed(lib, e.sessions[key], Same) == e.sessions[key] by { UnchangedIs(lib, e.sessions[key]); }
    assert Awaited(Do(lib, e, a), key, d.handle, Flight(d.peer, d.idx));
  }

  lemma UnchangedIs(lib: Lib, s: Session)
    ensures Changed(lib, s, Same) == s
  {
  }

  /** A chunk about to be sent is not backed yet: its flight is the only one of its shard to its peer, and not pending. */
  lemma UnsentUnpledged(e: Engine, key: Key, d: Dispatch)
    requires AllSound(e) && Ready(e, key, d) && Ticket(key, d.handle) !in e.pending && Clear(e.sessions[key].strategy)
    ensures !Pledged(e, key, d.peer, d.idx)
  {
    var s := e.sessions[key].strategy;
    assert Sound(e.sessions[key]);
    hide AllSound;
    UniqueFlight(s, d.handle);
    hide Sound, Inv;
  }

  lemma UniqueFlight(s: Strategy, h: Handle)
    requires Matched(s) && h in s.inFlight
    ensures s.planner.InFlight(s.inFlight[h].peer, s.inFlight[h].idx)
    ensures forall g: Handle | g in s.inFlight && s.inFlight[g] == s.inFlight[h] :: g == h
  {
    FlightIff(s.planner, s.inFlight[h].peer, s.inFlight[h].idx);
    assert s.inFlight[h] in s.inFlight.Values;
    hide Flights;
  }

  // ---- The invariant over updates ----

  lemma SparesAct(lib: Lib, inp: Input, m: Mode, e: Engine, a: Act, x: Event)
    requires WasteInv(e) && Allowed(lib, inp, m, e, a) && EventOf(lib, e, a) == Some(x)
    ensures Spares(e.log, x)
  {
    hide AllSound, Thrifty, Clear, Busy, Pledged, Ready, NewSession, ExpiredKeys, DecodeAndFinish, Engine.Opened,
         Engine.Preamble;
    if a.Chunking? {
      assert a.key in e.sessions by { ReadyThere(e, a.key, a.d); }
      UnsentUnpledged(e, a.key, a.d);
    }
  }

  lemma ReadyThere(e: Engine, key: Key, d: Dispatch)
    requires Ready(e, key, d)
    ensures key in e.sessions
  {
  }

  lemma ThriftyKept(lib: Lib, inp: Input, m: Mode, e: Engine, a: Act)
    requires WasteInv(e) && Allowed(lib, inp, m, e, a)
    ensures Thrifty(Do(lib, e, a).log)
  {
    hide Do, EventOf, Allowed, AllSound, Clear, Busy, Pledged, Thrifty;
    LogOf(lib, e, a);
    var x := EventOf(lib, e, a);
    if x.Some? {
      SparesAct(lib, inp, m, e, a, x.value);
      ThriftyAppend(e.log, x.value);
    }
  }

  /** Only a chunk update shows an accepted chunk. */
  lemma AcceptedIs(lib: Lib, inp: Input, m: Mode, e: Engine, a: Act, k: Key, p: PeerId, i: nat)
    requires Allowed(lib, inp, m, e, a) && EventOf(lib, e, a).Some? && IsAccepted(EventOf(lib, e, a).value, k, p, i)
    ensures a.Chunking? && a.sent && a.key == k && a.d.peer == p && a.d.idx == i && Ready(e, k, a.d)
  {
    hide ExpiredKeys, DecodeAndFinish, NewSession, Engine.Opened, Engine.Preamble, Ready;
  }

  lemma BusyKept(lib: Lib, inp: Input, m: Mode, e: Engine, a: Act, k: Key, p: PeerId, i: nat)
    requires WasteInv(e) && m.echo && Allowed(lib, inp, m, e, a)
    ensures Busy(Do(lib, e, a).log, k, p, i) ==> Pledged(Do(lib, e, a), k, p, i)
  {
    hide Do, EventOf, Allowed, Base, Sound, Clear, Busy, Pledged, Thrifty, IsRelease, IsAccepted, Ready;
    LogOf(lib, e, a);
    var x := EventOf(lib, e, a);
    if x.Some? { BusyAppend(e.log, x.value, k, p, i); }
    if Busy(Do(lib, e, a).log, k, p, i) {
      if x.Some? && IsAccepted(x.value, k, p, i) {
        AcceptedIs(lib, inp, m, e, a, k, p, i);
        AcceptedPledged(lib, e, k, a.d);
      } else {
        assert k in e.sessions by { PledgedThere(e, k, p, i); }
        PledgedKept(lib, inp, m, e, a, k, p, i);
      }
    }
  }

  lemma PledgedThere(e: Engine, k: Key, p: PeerId, i: nat)
    requires Pledged(e, k, p, i)
    ensures k in e.sessions
  {
  }

  lemma ClearAfter(lib: Lib, inp: Input, m: Mode, e: Engine, a: Act, k: Key)
    requires OriginInput(inp) && Allowed(lib, inp, m, e, a) && k in Do(lib, e, a).sessions
    requires forall k | k in e.sessions :: Clear(e.sessions[k].strategy)
    ensures Clear(Do(lib, e, a).sessions[k].strategy)
  {
    hide Do, Clear, RelayStrategy, ExpiredKeys, Changed, ChangeOf, Ready, Polling.Full;
    if a.Cleaning? {
      CleaningOf(lib, e, a.at);
    } else if a.Creating? && a.key == k {
      assert NewSession(lib, inp, e, k, a.session, a.preamble, a.at);
      assert GoodInput(inp);
      NewSessionFresh(lib, inp, e, k, a.session, a.preamble, a.at);
      FreshClear(a.session.strategy);
      DoIs(lib, e, a);
    } else if k in e.sessions {
      SessionsOf(lib, e, a, k);
      ChangedClear(lib, e.sessions[k], ChangeOf(e, a, k));
    } else {
      KeysOf(lib, e, a, k);
    }
  }

  lemma WasteKept(lib: Lib, inp: Input, m: Mode, e: Engine, a: Act)
    requires WasteInv(e) && OriginInput(inp) && m.echo && Allowed(lib, inp, m, e, a)
    ensures WasteInv(Do(lib, e, a))
  {
    hide Do, AllSound, Thrifty, Clear, Busy, Pledged, OriginInput, Allowed;
    AllSoundKept(lib, inp, m, e, a);
    ThriftyKept(lib, inp, m, e, a);
    forall k | k in Do(lib, e, a).sessions
      ensures Clear(Do(lib, e, a).sessions[k].strategy)
    {
      ClearAfter(lib, inp, m, e, a, k);
    }
    forall k: Key, p: PeerId, i: nat
      ensures Busy(Do(lib, e, a).log, k, p, i) ==> Pledged(Do(lib, e, a), k, p, i)
    {
      BusyKept(lib, inp, m, e, a, k, p, i);
    }
  }

  lemma StepThrifty(lib: Lib, e: Engine, inp: Input)
    requires WasteInv(e) && OriginInput(inp) && Echo(e, inp)
    ensures WasteInv(Step(lib, e, inp))
  {
    hide AllSound, Thrifty, Clear, Busy, Pledged, Do, Allowed, OriginInput, Step, Echo;
    var I := (e: Engine) => WasteInv(e);
    forall e: Engine, a: Act | I(e) && Allowed(lib, inp, ECHO, e, a)
      ensures I(Do(lib, e, a))
    {
      WasteKept(lib, inp, ECHO, e, a);
    }
    forall e: Engine | I(e)
      ensures Base(e)
    {
      SoundBase(e);
    }
    assert Preserved(lib, inp, ECHO, I);
    hide Preserved, WasteInv;
    StepKeeps(lib, inp, ECHO, I, e);
  }

  lemma SoundBase(e: Engine)
    requires AllSound(e)
    ensures Base(e)
  {
    hide Base;
  }

  lemma {:induction false} RunThrifty(lib: Lib, e: Engine, inputs: seq<Input>)
    requires WasteInv(e) && HonestRun(lib, e, inputs)
    ensures WasteInv(Run(lib, e, inputs))
    decreases |inputs|
  {
    hide WasteInv, Step, OriginInput, Echo;
    if inputs != [] {
      StepThrifty(lib, e, inputs[0]);
      RunThrifty(lib, Step(lib, e, inputs[0]), inputs[1..]);
    }
  }

  lemma {:induction false} BusyFrom(log: seq<Event>, k: Key, p: PeerId, i: nat, j: nat)
    requires j < |log| && IsAccepted(log[j], k, p, i) && forall l: nat | j < l < |log| :: !IsRelease(log[l], k, p, i)
    ensures Busy(log, k, p, i)
    decreases |log|
  {
    if j < |log| - 1 {
      var rest := log[..|log| - 1];
      assert forall l: nat | j < l < |rest| :: rest[l] == log[l];
      BusyFrom(rest, k, p, i, j);
    }
  }

  lemma NewWaste(cfg: Config, now: nat)
    ensures WasteInv(New(cfg, now))
  {
    NewBase(cfg, now);
  }

  /**
   * No wasted sends: between two accepted sends of the same shard of a session to the same peer lies a failed outcome of
   * that shard at that peer, a departure of the peer, or the disposal of the session.
   */
  lemma NoWastedSends(lib: Lib, cfg: Config, now: nat, inputs: seq<Input>, j: nat, l: nat, k: Key, p: PeerId, i: nat)
    requires HonestRun(lib, New(cfg, now), inputs)
    requires j < l < |Run(lib, New(cfg, now), inputs).log|
    requires IsAccepted(Run(lib, New(cfg, now), inputs).log[j], k, p, i)
    requires IsAccepted(Run(lib, New(cfg, now), inputs).log[l], k, p, i)
    ensures exists r: nat | j < r < l :: IsRelease(Run(lib, New(cfg, now), inputs).log[r], k, p, i)
  {
    NewWaste(cfg, now);
    RunThrifty(lib, New(cfg, now), inputs);
    var log := Run(lib, New(cfg, now), inputs).log;
    hide AllSound, Clear, Pledged, Run, New, HonestRun, IsRelease;
    assert Spares(log[..l], log[l]);
    if forall r: nat | j < r < l :: !IsRelease(log[r], k, p, i) {
      assert forall r: nat | r < l :: log[..l][r] == log[r];
      BusyFrom(log[..l], k, p, i, j);
    }
  }
}
