/** Outcomes that arrive after their handle was settled: which settlements leave them awaited, and why. */
module EngineLate {
  import opened Basics
  import opened Coding
  import opened Strategies
  import opened Sessions
  import opened Engines
  import opened EngineSteps
  import opened EngineBase
  import opened EngineRuns
  import opened EngineFacts
  import opened EngineSettlement
  import opened EngineResults
  import P = Polling
  import Planners

  // ---- Which settlements leave the outcome awaited ----

  /** An unsubscription, a reconstruction report or a close. */
  ghost predicate Departs(a: Act) {
    a.Leaving? || a.Detaching?
  }

  /** The update settles the flight: under an outcome, a refusal or a departure of its peer. */
  lemma SettledBy(lib: Lib, e: Engine, a: Act, k: Key, h: Handle)
    requires k in e.sessions && h in InFlight(e, k) && FlightsOk(e.sessions[k].strategy)
    requires !a.Cleaning? && (a.Creating? ==> a.key != k)
    requires h !in InFlight(Do(lib, e, a), k)
    ensures || (a.Chunking? && !a.sent && a.key == k && a.d.handle == h)
            || (a.Resolving? && a.key == k && a.token == h)
            || (a.Dropping? && a.peer == InFlight(e, k)[h].peer)
            || (a.Leaving? && a.peer == InFlight(e, k)[h].peer && a.channel == k.channel && a.peer in e.Subscribers(a.channel))
            || (a.Detaching? && a.key == k && a.peer == InFlight(e, k)[h].peer)
  {
    hide Do, FlightsOk, Engine.Subscribers;
    SessionsOf(lib, e, a, k);
    ChangeSettles(lib, e.sessions[k], ChangeOf(e, a, k), h);
    hide Changed;
  }

  lemma ChangeSettles(lib: Lib, s: Session, c: Change, h: Handle)
    requires FlightsOk(s.strategy) && h in s.strategy.inFlight && h !in Changed(lib, s, c).strategy.inFlight
    ensures (c.Settled? && c.h == h) || (c.Lost? && c.p == s.strategy.inFlight[h].peer)
  {
    hide Reconstruct, VerifyChunk, Poll, FlightsOk, Planners.RemovePeer, Planners.RecordSent, Planners.Refund,
         Planners.CancelInFlight;
    if c.Polled? { PollKeepsFlight(s, h); }
  }

  lemma PollKeepsFlight(s: Session, h: Handle)
    requires FlightsOk(s.strategy) && h in s.strategy.inFlight
    ensures h in Poll(s).0.strategy.inFlight && Poll(s).0.strategy.inFlight[h] == s.strategy.inFlight[h]
  {
    var r := PollRouting(s.strategy).0;
    P.PollFromEmits(r, Sorted(r.attached));
    hide PollFrom;
  }

  /**
   * Which settlements leave the handle's outcome awaited, for every permitted update of every step: an awaited one stays
   * awaited exactly when the peer unsubscribes, reports the session reconstructed or closes it. An outcome, a refused send
   * and a disconnect leave nothing awaited.
   */
  lemma LeftAwaitedIff(lib: Lib, inp: Input, m: Mode, e: Engine, a: Act, k: Key, h: Handle)
    requires Base(e) && Allowed(lib, inp, m, e, a) && h in InFlight(e, k)
    requires k in Do(lib, e, a).sessions && h !in InFlight(Do(lib, e, a), k)
    ensures Ticket(k, h) in Do(lib, e, a).pending <==> Ticket(k, h) in e.pending && Departs(a)
  {
    hide Do, Base, Ready, RelayStrategy, ExpiredKeys, Engine.Subscribers, FlightsOk;
    NotCleanedNorCreated(lib, inp, m, e, a, k, h);
    FlightsAt(e, k);
    PendingOf(lib, e, a);
    SettledBy(lib, e, a, k, h);
    if a.Dropping? && Ticket(k, h) in e.pending { AwaitedPeer(e, k, h); }
  }

  lemma AwaitedPeer(e: Engine, k: Key, h: Handle)
    requires Base(e) && Ticket(k, h) in e.pending && h in InFlight(e, k)
    ensures e.pending[Ticket(k, h)] == InFlight(e, k)[h].peer
  {
    assert Honest(e, Ticket(k, h));
  }

  /** The peer of an awaited flight departs, by any of the four events: all settle it, only a disconnect forgets it. */
  lemma DepartureEvents(lib: Lib, e: Engine, k: Key, h: Handle, ev: NetEvent, t: Ticks, ok: Oracle, fib: nat -> nat)
    requires Base(e) && Ticket(k, h) in e.pending && h in InFlight(e, k)
    requires var p := InFlight(e, k)[h].peer;
             ev in {UnsubscribeIn(p, k.channel), PeerReconstructed(p, k), SessionClosed(p, k), PeerDisconnected(p)}
    ensures var f := HandleEvent(lib, e, ev, t, ok, fib);
            SettledAt(f, k, h) && (Ticket(k, h) in f.pending <==> !ev.PeerDisconnected?)
  {
    hide Drain, OnOpen, OnChunk, JoinEach, Planners.RemovePeer, Base;
    var p := InFlight(e, k)[h].peer;
    AwaitedPeer(e, k, h);
    IssuedBefore(e, Ticket(k, h));
    DroppedFlight(e, k, h, p);
    assert h !in Detached(e.sessions[k], p).strategy.inFlight;
  }

  /** The chunk under this handle was accepted for the peer. */
  ghost predicate IsAccepted(x: Event, k: Key, h: Handle, p: PeerId) {
    x.Sent? && x.ok && x.msg.Chunk? && x.msg.key == k && x.msg.token == h && x.msg.peer == p
  }

  /** The peer left the channel, or reported the session reconstructed or closed. */
  ghost predicate IsDeparture(x: Event, k: Key, p: PeerId) {
    x == Left(k.channel, p) || x == PeerDone(k, p) || x == PeerClosed(k, p)
  }

  ghost predicate AcceptedBefore(log: seq<Event>, n: nat, k: Key, h: Handle, p: PeerId) {
    exists i: nat | i < n <= |log| :: IsAccepted(log[i], k, h, p)
  }

  ghost predicate DepartedSince(log: seq<Event>, k: Key, h: Handle, p: PeerId) {
    exists j: nat | j < |log| :: IsDeparture(log[j], k, p) && AcceptedBefore(log, j, k, h, p)
  }

  /** An awaited outcome is of an accepted chunk; if nothing is in flight under it, the chunk's peer has departed since. */
  ghost predicate Explained(e: Engine, t: Ticket)
    requires t in e.pending
  {
    && AcceptedBefore(e.log, |e.log|, t.key, t.handle, e.pending[t])
    && (t.handle in InFlight(e, t.key) || DepartedSince(e.log, t.key, t.handle, e.pending[t]))
  }

  ghost predicate ExplainedInv(e: Engine) {
    Base(e) && forall t | t in e.pending :: Explained(e, t)
  }

  lemma AcceptedStays(log: seq<Event>, more: seq<Event>, n: nat, m: nat, k: Key, h: Handle, p: PeerId)
    requires AcceptedBefore(log, n, k, h, p) && log <= more && n <= m <= |more|
    ensures AcceptedBefore(more, m, k, h, p)
  {
    var i: nat :| i < n <= |log| && IsAccepted(log[i], k, h, p);
    assert IsAccepted(more[i], k, h, p);
  }

  lemma DepartedStays(log: seq<Event>, more: seq<Event>, k: Key, h: Handle, p: PeerId)
    requires DepartedSince(log, k, h, p) && log <= more
    ensures DepartedSince(more, k, h, p)
  {
    var j: nat :| j < |log| && IsDeparture(log[j], k, p) && AcceptedBefore(log, j, k, h, p);
    AcceptedStays(log, more, j, j, k, h, p);
    assert IsDeparture(more[j], k, p);
  }

  lemma DepartedNow(log: seq<Event>, x: Event, k: Key, h: Handle, p: PeerId)
    requires IsDeparture(x, k, p) && AcceptedBefore(log, |log|, k, h, p)
    ensures DepartedSince(log + [x], k, h, p)
  {
    AcceptedStays(log, log + [x], |log|, |log|, k, h, p);
    assert (log + [x])[|log|] == x;
  }

  lemma AcceptedNow(log: seq<Event>, x: Event, k: Key, h: Handle, p: PeerId)
    requires IsAccepted(x, k, h, p)
    ensures AcceptedBefore(log + [x], |log| + 1, k, h, p)
  {
    assert (log + [x])[|log|] == x;
  }

  /** A chunk that the transport accepts is in flight. */
  lemma AcceptedFlies(lib: Lib, inp: Input, m: Mode, e: Engine, a: Act)
    requires Allowed(lib, inp, m, e, a) && a.Chunking? && a.sent
    ensures var f := Do(lib, e, a);
            && f.log == e.log + [Sent(Chunk(a.d.peer, a.key, a.d.idx, a.d.payload, a.d.handle), true)]
            && a.d.handle in InFlight(f, a.key) && f.pending == e.pending[Ticket(a.key, a.d.handle) := a.d.peer]
  {
    DoIs(lib, e, a);
    hide Do;
  }

  /** The event of a departure that settles the flight. */
  lemma DepartureShows(lib: Lib, e: Engine, a: Act, k: Key, p: PeerId)
    requires k in e.sessions && k.channel in e.channels
    requires || (a.Leaving? && a.peer == p && a.channel == k.channel && p in e.Subscribers(a.channel))
             || (a.Detaching? && a.key == k && a.peer == p)
    ensures EventOf(lib, e, a).Some? && IsDeparture(EventOf(lib, e, a).value, k, p)
  {
  }

  lemma AwaitedLive(e: Engine, t: Ticket)
    requires Base(e) && t in e.pending
    ensures t.key in e.sessions
  {
    assert Honest(e, t);
  }

  lemma ChannelAt(e: Engine, k: Key)
    requires Base(e) && k in e.sessions
    ensures k.channel in e.channels
  {
    assert Live(e, k);
  }

  /** The flight under an awaited outcome ends in a departure. */
  lemma LandedByDeparture(lib: Lib, inp: Input, m: Mode, e: Engine, a: Act, t: Ticket)
    requires Base(e) && Allowed(lib, inp, m, e, a) && t in e.pending && t.handle in InFlight(e, t.key)
    requires AcceptedBefore(e.log, |e.log|, t.key, t.handle, e.pending[t])
    requires !a.Cleaning? && (a.Creating? ==> a.key != t.key)
    requires var f := Do(lib, e, a); t in f.pending && t.key in f.sessions && t.handle !in InFlight(f, t.key)
    ensures DepartedSince(Do(lib, e, a).log, t.key, t.handle, e.pending[t])
  {
    hide Do, Base, Allowed, AcceptedBefore, DepartedSince, EventOf, IsDeparture, FlightsOk, Engine.Subscribers;
    var k, h := t.key, t.handle;
    assert Ticket(k, h) == t && k in e.sessions;
    LeftAwaitedIff(lib, inp, m, e, a, k, h);
    FlightsAt(e, k);
    AwaitedPeer(e, k, h);
    ChannelAt(e, k);
    SettledBy(lib, e, a, k, h);
    hide InFlight;
    DepartureShows(lib, e, a, k, e.pending[t]);
    LogOf(lib, e, a);
    DepartedNow(e.log, EventOf(lib, e, a).value, k, h, e.pending[t]);
  }

  /** An update that makes nothing awaited explains what stays awaited. */
  lemma StillExplained(lib: Lib, inp: Input, m: Mode, e: Engine, a: Act, t: Ticket)
    requires Base(e) && Allowed(lib, inp, m, e, a) && t in e.pending && Explained(e, t)
    requires var f := Do(lib, e, a); t in f.pending && f.pending[t] == e.pending[t] && t.key in f.sessions
    ensures Explained(Do(lib, e, a), t)
  {
    var f := Do(lib, e, a);
    hide Do, Base, Allowed, AcceptedBefore, DepartedSince, InFlight;
    LogGrows(lib, e, a);
    AcceptedStays(e.log, f.log, |e.log|, |f.log|, t.key, t.handle, e.pending[t]);
    if t.handle in InFlight(e, t.key) {
      if t.handle !in InFlight(f, t.key) {
        NotCleanedNorCreated(lib, inp, m, e, a, t.key, t.handle);
        LandedByDeparture(lib, inp, m, e, a, t);
      }
    } else {
      DepartedStays(e.log, f.log, t.key, t.handle, e.pending[t]);
    }
  }

  /** A sweep that keeps the session keeps its flights, and a live session is not created. */
  lemma NotCleanedNorCreated(lib: Lib, inp: Input, m: Mode, e: Engine, a: Act, k: Key, h: Handle)
    requires Allowed(lib, inp, m, e, a) && h in InFlight(e, k)
    requires k in Do(lib, e, a).sessions && h !in InFlight(Do(lib, e, a), k)
    ensures !a.Cleaning? && (a.Creating? ==> a.key != k)
  {
    hide Do, Ready, RelayStrategy, ExpiredKeys;
    if a.Cleaning? { CleaningOf(lib, e, a.at); }
  }

  lemma NewlyExplained(lib: Lib, inp: Input, m: Mode, e: Engine, a: Act, t: Ticket)
    requires Allowed(lib, inp, m, e, a) && a.Chunking? && a.sent && t == Ticket(a.key, a.d.handle)
    ensures t in Do(lib, e, a).pending && Explained(Do(lib, e, a), t)
  {
    AcceptedFlies(lib, inp, m, e, a);
    hide Do, Allowed, InFlight, AcceptedBefore, DepartedSince;
    AcceptedNow(e.log, Sent(Chunk(a.d.peer, a.key, a.d.idx, a.d.payload, a.d.handle), true), t.key, t.handle, a.d.peer);
  }

  lemma ExplainedKept(lib: Lib, inp: Input, m: Mode, e: Engine, a: Act, t: Ticket)
    requires ExplainedInv(e) && GoodInput(inp) && Allowed(lib, inp, m, e, a) && t in Do(lib, e, a).pending
    ensures Explained(Do(lib, e, a), t)
  {
    hide Do, GoodInput, Base, Allowed, Explained;
    if a.Chunking? && a.sent && t == Ticket(a.key, a.d.handle) {
      NewlyExplained(lib, inp, m, e, a, t);
    } else {
      PendingStays(lib, e, a, t);
      BaseKept(lib, inp, m, e, a);
      AwaitedLive(Do(lib, e, a), t);
      assert Explained(e, t);
      StillExplained(lib, inp, m, e, a, t);
    }
  }

  lemma PendingStays(lib: Lib, e: Engine, a: Act, t: Ticket)
    requires t in Do(lib, e, a).pending && !(a.Chunking? && a.sent && t == Ticket(a.key, a.d.handle))
    ensures t in e.pending && Do(lib, e, a).pending[t] == e.pending[t]
  {
    hide Do, ExpiredKeys;
    PendingOf(lib, e, a);
  }

  lemma LogGrows(lib: Lib, e: Engine, a: Act)
    ensures e.log <= Do(lib, e, a).log
  {
    hide Do, EventOf;
    LogOf(lib, e, a);
  }

  /**
   * Why a settled handle can still be awaited, in every reachable state: the chunk was accepted for a peer that since then
   * unsubscribed, reported the session reconstructed or closed it.
   */
  lemma AwaitedWithoutFlight(lib: Lib, cfg: Config, now: nat, inputs: seq<Input>, k: Key, h: Handle)
    requires GoodInputs(inputs) && Ticket(k, h) in Run(lib, New(cfg, now), inputs).pending
    requires h !in InFlight(Run(lib, New(cfg, now), inputs), k)
    ensures var e := Run(lib, New(cfg, now), inputs);
            DepartedSince(e.log, k, h, e.pending[Ticket(k, h)])
  {
    NewBase(cfg, now);
    assert ExplainedInv(New(cfg, now));
    hide Base, Do, Allowed, GoodInput, GoodInputs, Run, New, Explained;
    var I := (e: Engine) => ExplainedInv(e);
    forall inp: Input, e: Engine, a: Act | GoodInput(inp) && I(e) && Allowed(lib, inp, PLAIN, e, a)
      ensures I(Do(lib, e, a))
    {
      BaseKept(lib, inp, PLAIN, e, a);
      forall t | t in Do(lib, e, a).pending
        ensures Explained(Do(lib, e, a), t)
      {
        ExplainedKept(lib, inp, PLAIN, e, a, t);
      }
    }
    assert Kept(lib, PLAIN, I);
    hide Kept;
    RunKeeps(lib, PLAIN, I, New(cfg, now), inputs);
    var e := Run(lib, New(cfg, now), inputs);
    assert ExplainedInv(e);
    Unexplain(e, Ticket(k, h));
  }

  lemma Unexplain(e: Engine, t: Ticket)
    requires t in e.pending && Explained(e, t) && t.handle !in InFlight(e, t.key)
    ensures DepartedSince(e.log, t.key, t.handle, e.pending[t])
  {
  }
}
