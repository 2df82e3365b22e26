/** After a drain with an accepting transport a session has nothing left to announce. */
module EngineTells {
  import opened Basics
  import opened Havelists
  import opened Coding
  import opened Strategies
  import opened Sessions
  import opened Engines
  import opened EngineSteps
  import opened EngineBase
  import opened EngineRuns
  import opened EngineResults
  import opened EngineOrigin
  import opened EnginePublication

  /** The session has no routing update due, and the flights it needs for its next poll are in order. */
  ghost predicate ToldAll(e: Engine, key: Key) {
    key in e.sessions && FlightsOk(e.sessions[key].strategy) && !e.sessions[key].strategy.RoutingDue()
  }

  lemma DrainTellsAll(e: Engine, key: Key, ok: Oracle)
    requires Accepting(ok) && key in e.sessions && FlightsOk(e.sessions[key].strategy)
    ensures ToldAll(Drain(e, key, ok).0, key)
  {
    hide Drain, Accepting, Carried, FlightsOk, Strategy.RoutingDue;
    AcceptingCarries(e, key, ok);
  }

  lemma DeliverTellsAll(lib: Lib, e: Engine, key: Key, at: nat, ok: Oracle)
    requires ToldAll(e, key)
    ensures ToldAll(Deliver(lib, e, key, at, ok), key)
  {
    hide Reconstruct, Stamped, Ending, FlightsOk, Strategy.RoutingDue;
  }

  lemma TakenFlights(lib: Lib, e: Engine, key: Key, idx: nat, data: Bytes)
    requires key in e.sessions && FlightsOk(e.sessions[key].strategy)
    ensures var f := DoTaking(lib, e, key, idx, data); key in f.sessions && FlightsOk(f.sessions[key].strategy)
  {
    hide VerifyChunk;
  }

  lemma {:induction false} TakeAllFlights(lib: Lib, e: Engine, key: Key, chunks: seq<ParkedChunk>)
    requires key in e.sessions && FlightsOk(e.sessions[key].strategy)
    ensures var f := TakeAll(lib, e, key, chunks).0; key in f.sessions && FlightsOk(f.sessions[key].strategy)
    decreases |chunks|
  {
    hide DoTaking, Completes, FlightsOk;
    if chunks != [] {
      TakenFlights(lib, e, key, chunks[0].idx, chunks[0].data);
      TakeAllFlights(lib, DoTaking(lib, e, key, chunks[0].idx, chunks[0].data), key, chunks[1..]);
    }
  }

  lemma ReplayTellsAll(lib: Lib, e: Engine, key: Key, at: nat, ok: Oracle)
    requires ToldAll(e, key) && Accepting(ok)
    ensures ToldAll(Replay(lib, e, key, at, ok), key)
  {
    if key in e.parked {
      var e0 := DoUnparking(e, key);
      assert e0.sessions == e.sessions;
      hide TakeAll, Drain, Deliver, FlightsOk, Accepting;
      TakeAllFlights(lib, e0, key, e.parked[key]);
      var e1 := TakeAll(lib, e0, key, e.parked[key]).0;
      DrainTellsAll(e1, key, ok);
      DeliverTellsAll(lib, Drain(e1, key, ok).0, key, at, ok);
    }
  }

  /** Events that end in a drain of the session: an open that starts it, a chunk for it, an awaited outcome. */
  ghost predicate Drains(e: Engine, f: Engine, ev: NetEvent, key: Key) {
    || (ev.SessionOpenIn? && ev.key == key && key !in e.sessions && key in f.sessions)
    || (ev.ChunkIn? && ev.key == key && key in e.sessions && key !in e.tombstones)
    || (ev.ChunkSendResult? && ev.key == key && Ticket(key, ev.token) in e.pending)
  }

  lemma StartedFlights(lib: Lib, e: Engine, key: Key, bytes: Bytes, at: nat, fib: nat -> nat)
    requires RelayStrategy(lib, e, key, bytes, fib).Some?
    ensures var f := DoCreating(e, key, Session(Consuming, RelayStrategy(lib, e, key, bytes, fib).value), bytes, at);
            key in f.sessions && FlightsOk(f.sessions[key].strategy)
  {
  }

  lemma OpenTellsAll(lib: Lib, e: Engine, key: Key, bytes: Bytes, t: Ticks, ok: Oracle, fib: nat -> nat)
    requires Accepting(ok) && key !in e.sessions && key in OnOpen(lib, e, key, bytes, t, ok, fib).sessions
    ensures ToldAll(OnOpen(lib, e, key, bytes, t, ok, fib), key)
  {
    hide RelayStrategy, Drain, Replay, DoCreating, ToldAll, Accepting, FlightsOk;
    var s := RelayStrategy(lib, e, key, bytes, fib).value;
    var e1 := DoCreating(e, key, Session(Consuming, s), bytes, t.first);
    StartedFlights(lib, e, key, bytes, t.first, fib);
    DrainTellsAll(e1, key, ok);
    ReplayTellsAll(lib, Drain(e1, key, ok).0, key, t.second, ok);
  }

  lemma ChunkTellsAll(lib: Lib, e: Engine, key: Key, idx: nat, data: Bytes, t: Ticks, ok: Oracle)
    requires Accepting(ok) && key in e.sessions && key !in e.tombstones && FlightsOk(e.sessions[key].strategy)
    ensures ToldAll(OnChunk(lib, e, key, idx, data, t, ok), key)
  {
    hide Drain, Deliver, DoTaking, Completes, ToldAll, Accepting, FlightsOk;
    var e1 := DoTaking(lib, e, key, idx, data);
    TakenFlights(lib, e, key, idx, data);
    DrainTellsAll(e1, key, ok);
    DeliverTellsAll(lib, Drain(e1, key, ok).0, key, t.second, ok);
  }

  lemma OutcomeTellsAll(e: Engine, p: PeerId, key: Key, h: Handle, sent: bool, ok: Oracle)
    requires Base(e) && Accepting(ok) && Ticket(key, h) in e.pending
    ensures ToldAll(Resolve(e, p, key, h, sent, ok), key)
  {
    assert Honest(e, Ticket(key, h));
    ResolvingBase(e, key, p, h, sent);
    var e1 := DoResolving(e, key, p, h, sent);
    assert key in e1.sessions;
    assert Live(e1, key);
    assert FlightsOk(e1.sessions[key].strategy);
    hide Base, Drain, DoResolving, ToldAll, Accepting, FlightsOk;
    DrainTellsAll(e1, key, ok);
  }

  /**
   * After an event that ends in a drain of a session, with a transport that accepts everything, the session has nothing left to
   * announce: its next poll emits no routing update.
   */
  lemma NothingLeftToAnnounce(lib: Lib, e: Engine, ev: NetEvent, key: Key, t: Ticks, ok: Oracle, fib: nat -> nat)
    requires Base(e) && Accepting(ok) && Drains(e, HandleEvent(lib, e, ev, t, ok, fib), ev, key)
    ensures var f := HandleEvent(lib, e, ev, t, ok, fib);
            key in f.sessions && Poll(f.sessions[key]).1 == None
  {
    hide Base, Accepting, ToldAll, Poll, Drains, HandleEvent, FlightsOk;
    EventTellsAll(lib, e, ev, key, t, ok, fib);
    ToldIsQuiet(HandleEvent(lib, e, ev, t, ok, fib), key);
  }

  lemma ToldIsQuiet(e: Engine, key: Key)
    requires ToldAll(e, key)
    ensures key in e.sessions && Poll(e.sessions[key]).1 == None
  {
    hide PollChunks;
  }

  lemma EventTellsAll(lib: Lib, e: Engine, ev: NetEvent, key: Key, t: Ticks, ok: Oracle, fib: nat -> nat)
    requires Base(e) && Accepting(ok) && Drains(e, HandleEvent(lib, e, ev, t, ok, fib), ev, key)
    ensures ToldAll(HandleEvent(lib, e, ev, t, ok, fib), key)
  {
    hide Base, OnOpen, OnChunk, Resolve, Accepting, ToldAll, FlightsOk, JoinEach, DrainChannel, DoJoining, DoLeaving, DoDropping,
         DoDetaching, Register, DoLinking;
    if ev.SessionOpenIn? {
      OpenTellsAll(lib, e, key, ev.preamble, t, ok, fib);
    } else if ev.ChunkIn? {
      FlightsAt(e, key);
      ChunkTellsAll(lib, e, key, ev.idx, ev.data, t, ok);
    } else {
      OutcomeTellsAll(e, ev.peer, key, ev.token, ev.ok, ok);
    }
  }
}
