/** Dispatch settlement: in-flight handles against pending sends, late results, and what an aborted drain strands. */
module EngineSettlement {
  import opened Basics
  import opened Havelists
  import opened Coding
  import opened Strategies
  import opened Sessions
  import opened Engines
  import opened EngineSteps
  import opened EngineBase
  import opened EngineRuns
  import opened EngineFacts
  import P = Polling

  ghost predicate IsControlFailure(x: Event) {
    x.Sent? && !x.ok && (x.msg.SessionOpen? || x.msg.RoutingUpdate?)
  }

  ghost predicate ControlFailed(log: seq<Event>) {
    exists i | 0 <= i < |log| :: IsControlFailure(log[i])
  }

  lemma FailureAppend(log: seq<Event>, x: Event)
    ensures ControlFailed(log) || IsControlFailure(x) ==> ControlFailed(log + [x])
  {
    if ControlFailed(log) {
      var i :| 0 <= i < |log| && IsControlFailure(log[i]);
      assert IsControlFailure((log + [x])[i]);
    } else if IsControlFailure(x) {
      assert IsControlFailure((log + [x])[|log|]);
    }
  }

  ghost function NextHandle(e: Engine, k: Key): Handle {
    if k in e.sessions then e.sessions[k].strategy.nextHandle else 0
  }

  ghost function InFlight(e: Engine, k: Key): map<Handle, Flight> {
    if k in e.sessions then e.sessions[k].strategy.inFlight else map[]
  }

  // ---- What a drain of one session does to handles and pending sends ----

  /** Other sessions are untouched; pending sends only grow, by handles of this session from `n` on. */
  ghost predicate Grown(e: Engine, f: Engine, key: Key, n: Handle) {
    && (ControlFailed(e.log) ==> ControlFailed(f.log))
    && (forall k: Key | k != key :: InFlight(f, k) == InFlight(e, k) && NextHandle(f, k) == NextHandle(e, k))
    && NextHandle(e, key) <= NextHandle(f, key)
    && (forall t | t in e.pending :: t in f.pending)
    && (forall t | t in f.pending && t !in e.pending :: t.key == key && t.handle >= n)
  }

  lemma GrownTrans(e: Engine, f: Engine, g: Engine, key: Key, n: Handle, m: Handle)
    requires Grown(e, f, key, n) && Grown(f, g, key, m) && n <= m
    ensures Grown(e, g, key, n)
  {
    hide ControlFailed, InFlight, NextHandle;
    forall t | t in g.pending && t !in e.pending
      ensures t.key == key && t.handle >= n
    {
      if t !in f.pending { assert t.handle >= m; }
    }
  }

  lemma GrownSelf(e: Engine, key: Key, n: Handle)
    ensures Grown(e, e, key, n)
  {
  }

  /** Every handle in flight is pending or still to be sent. */
  ghost predicate Owing(e: Engine, key: Key, ds: seq<Dispatch>) {
    forall h | h in InFlight(e, key) ::
      Ticket(key, h) in e.pending || exists i | 0 <= i < |ds| :: ds[i].handle == h
  }

  ghost predicate Covered(e: Engine, key: Key) {
    forall h | h in InFlight(e, key) :: Ticket(key, h) in e.pending
  }

  lemma OpenGrows(e: Engine, key: Key, p: PeerId, ok: Oracle, n: Handle)
    ensures var (f, isOpen) := EnsureOpen(e, key, p, ok);
            && Grown(e, f, key, n) && f.pending == e.pending && f.sessions == e.sessions
            && (!isOpen ==> ControlFailed(f.log))
  {
    var sent := ok(|e.log|);
    FailureAppend(e.log, Sent(SessionOpen(p, key, e.Preamble(key)), sent));
    hide ControlFailed;
  }

  lemma NoteGrows(e: Engine, key: Key, m: NetSend, sent: bool, n: Handle)
    ensures var f := DoNoting(e, m, sent);
            && Grown(e, f, key, n) && f.pending == e.pending && f.sessions == e.sessions
            && (!sent && m.RoutingUpdate? ==> ControlFailed(f.log))
  {
    hide ControlFailed;
    FailureAppend(e.log, Sent(m, sent));
  }

  lemma {:induction false} RoutingGrows(e: Engine, key: Key, peers: seq<PeerId>, have: Havelist, ok: Oracle, n: Handle)
    ensures var (f, done) := SendRouting(e, key, peers, have, ok);
            && Grown(e, f, key, n) && f.pending == e.pending && f.sessions == e.sessions
            && (!done ==> ControlFailed(f.log))
    decreases |peers|
  {
    hide EnsureOpen, ControlFailed, Grown, DoNoting;
    GrownSelf(e, key, n);
    if peers != [] {
      OpenGrows(e, key, peers[0], ok, n);
      var (e1, isOpen) := EnsureOpen(e, key, peers[0], ok);
      if isOpen {
        var sent := ok(|e1.log|);
        var e2 := DoNoting(e1, RoutingUpdate(peers[0], key, have), sent);
        NoteGrows(e1, key, RoutingUpdate(peers[0], key, have), sent, n);
        GrownTrans(e, e1, e2, key, n, n);
        RoutingGrows(e2, key, peers[1..], have, ok, n);
        GrownTrans(e, e2, SendRouting(e2, key, peers[1..], have, ok).0, key, n, n);
      }
    }
  }

  lemma ChunkGrows(e: Engine, key: Key, d: Dispatch, sent: bool, n: Handle)
    requires d.handle >= n
    ensures Grown(e, DoChunking(e, key, d, sent), key, n)
  {
    hide ControlFailed, ChunkSent;
    FailureAppend(e.log, Sent(Chunk(d.peer, key, d.idx, d.payload, d.handle), sent));
    if key in e.sessions { RefusalKeepsNumber(e.sessions[key].strategy, d); }
  }

  lemma RefusalKeepsNumber(s: Strategy, d: Dispatch)
    ensures ChunkSent(s, d.peer, d.handle, false).nextHandle == s.nextHandle
  {
  }

  lemma ChunkPays(e: Engine, key: Key, ds: seq<Dispatch>, sent: bool)
    requires ds != [] && Owing(e, key, ds)
    ensures Owing(DoChunking(e, key, ds[0], sent), key, ds[1..])
  {
    var f := DoChunking(e, key, ds[0], sent);
    forall h | h in InFlight(f, key)
      ensures Ticket(key, h) in f.pending || exists i | 0 <= i < |ds[1..]| :: ds[1..][i].handle == h
    {
      assert h in InFlight(e, key);
      if Ticket(key, h) !in e.pending && h != ds[0].handle {
        var i :| 0 <= i < |ds| && ds[i].handle == h;
        assert ds[1..][i - 1].handle == h;
      }
    }
  }

  /** Sending the dispatches covers the session, unless an open fails on the way. */
  lemma {:induction false} DispatchesGrow(e: Engine, key: Key, ds: seq<Dispatch>, ok: Oracle, n: Handle)
    requires forall i | 0 <= i < |ds| :: ds[i].handle >= n
    ensures var (f, round) := SendDispatches(e, key, ds, ok);
            && Grown(e, f, key, n)
            && (round.Broken? ==> ControlFailed(f.log))
            && (!round.Broken? && Owing(e, key, ds) ==> Covered(f, key))
    decreases |ds|
  {
    GrownSelf(e, key, n);
    if ds != [] {
      OpenGrows(e, key, ds[0].peer, ok, n);
      var (e1, isOpen) := EnsureOpen(e, key, ds[0].peer, ok);
      hide EnsureOpen, ControlFailed;
      if isOpen {
        assert Owing(e, key, ds) ==> Owing(e1, key, ds);
        hide Grown, DoChunking, Owing, Covered;
        var sent := ok(|e1.log|);
        ChunkGrows(e1, key, ds[0], sent, n);
        if Owing(e1, key, ds) { ChunkPays(e1, key, ds, sent); }
        var e2 := DoChunking(e1, key, ds[0], sent);
        GrownTrans(e, e1, e2, key, n, n);
        DispatchesGrow(e2, key, ds[1..], ok, n);
        GrownTrans(e, e2, SendDispatches(e2, key, ds[1..], ok).0, key, n, n);
      }
    }
  }

  /** A poll's new flights are its dispatches, under new handles. */
  lemma PollNumbers(s: Session)
    requires FlightsOk(s.strategy)
    ensures var (t, _, ds) := Poll(s);
            && s.strategy.nextHandle <= t.strategy.nextHandle
            && (forall i | 0 <= i < |ds| :: ds[i].handle >= s.strategy.nextHandle)
            && (forall h | h in t.strategy.inFlight && h !in s.strategy.inFlight ::
                  exists i | 0 <= i < |ds| :: ds[i].handle == h)
  {
    var r := PollRouting(s.strategy).0;
    P.PollFromEmits(r, Sorted(r.attached));
    hide PollFrom;
    var (t, _, ds) := Poll(s);
    forall h | h in t.strategy.inFlight && h !in s.strategy.inFlight
      ensures exists i | 0 <= i < |ds| :: ds[i].handle == h
    {
      assert ds[h - r.nextHandle].handle == h;
    }
  }

  lemma PollGrown(e: Engine, key: Key, s: Session)
    requires key in e.sessions && e.sessions[key].strategy.nextHandle <= s.strategy.nextHandle
    ensures Grown(e, e.(sessions := e.sessions[key := s]), key, NextHandle(e, key))
  {
    hide ControlFailed;
  }

  lemma PollOwes(e: Engine, key: Key, s: Session, ds: seq<Dispatch>)
    requires key in e.sessions && Covered(e, key)
    requires forall h | h in s.strategy.inFlight && h !in e.sessions[key].strategy.inFlight ::
               exists i | 0 <= i < |ds| :: ds[i].handle == h
    ensures Owing(e.(sessions := e.sessions[key := s]), key, ds)
  {
  }

  lemma PollGrows(e: Engine, key: Key)
    requires key in e.sessions && FlightsOk(e.sessions[key].strategy)
    ensures var (s, _, ds) := Poll(e.sessions[key]);
            var f := e.(sessions := e.sessions[key := s]);
            && Grown(e, f, key, NextHandle(e, key))
            && (Covered(e, key) ==> Owing(f, key, ds))
  {
    hide Poll, Grown, Owing, Covered, FlightsOk;
    PollNumbers(e.sessions[key]);
    var (s, _, ds) := Poll(e.sessions[key]);
    PollGrown(e, key, s);
    if Covered(e, key) { PollOwes(e, key, s, ds); }
  }

  lemma SameOwing(e: Engine, f: Engine, key: Key, ds: seq<Dispatch>)
    requires Owing(e, key, ds) && f.sessions == e.sessions && f.pending == e.pending
    ensures Owing(f, key, ds)
  {
  }

  lemma NothingOwed(e: Engine, key: Key)
    requires Owing(e, key, [])
    ensures Covered(e, key)
  {
  }

  lemma WorkGrows(e: Engine, key: Key, routing: Option<Havelist>, ds: seq<Dispatch>, ok: Oracle, n: Handle)
    requires forall i | 0 <= i < |ds| :: ds[i].handle >= n
    ensures var (f, end) := SendWork(e, key, routing, ds, ok);
            && Grown(e, f, key, n)
            && (end == Some(Failure) ==> ControlFailed(f.log))
            && (end != Some(Failure) && Owing(e, key, ds) ==> Covered(f, key))
  {
    hide SendRouting, SendDispatches, Grown, ControlFailed, Owing, Covered;
    GrownSelf(e, key, n);
    var subs := Sorted(e.Subscribers(key.channel));
    if routing.Some? {
      RoutingGrows(e, key, subs, routing.value, ok, n);
    }
    var (e1, done) := if routing.Some? then SendRouting(e, key, subs, routing.value, ok) else (e, true);
    if done {
      if Owing(e, key, ds) { SameOwing(e, e1, key, ds); }
      DispatchesGrow(e1, key, ds, ok, n);
      GrownTrans(e, e1, SendDispatches(e1, key, ds, ok).0, key, n, n);
    }
  }

  lemma RoundGrows(e: Engine, key: Key, ok: Oracle)
    requires Base(e) && key in e.sessions
    ensures var (f, end) := DrainRound(e, key, ok);
            && Grown(e, f, key, NextHandle(e, key))
            && (end == Some(Failure) ==> ControlFailed(f.log))
            && (end != Some(Failure) && Covered(e, key) ==> Covered(f, key))
  {
    assert FlightsOk(e.sessions[key].strategy) by { assert Live(e, key); }
    hide Base, Grown, Owing, Covered, SendWork, ControlFailed;
    PollNumbers(e.sessions[key]);
    PollGrows(e, key);
    var n := NextHandle(e, key);
    var (s, routing, ds) := Poll(e.sessions[key]);
    var e1 := e.(sessions := e.sessions[key := s]);
    hide Poll, FlightsOk;
    if ds == [] && Covered(e, key) { NothingOwed(e1, key); }
    WorkGrows(e1, key, routing, ds, ok, n);
    GrownTrans(e, e1, SendWork(e1, key, routing, ds, ok).0, key, n, n);
  }

  lemma RoundBase(lib: Lib, e: Engine, key: Key, ok: Oracle)
    requires Base(e) && key in e.sessions
    ensures Base(DrainRound(e, key, ok).0)
  {
    hide Base, DrainRound, Preserved;
    BasePreserved(lib, Dialing(0, ok));
    RoundKeeps(lib, Dialing(0, ok), PLAIN, e => Base(e), e, key, ok);
  }

  /** A drain of a covered session leaves it covered, unless a control send failed. */
  lemma {:induction false} DrainGrows(lib: Lib, e: Engine, key: Key, ok: Oracle)
    requires Base(e)
    ensures var (f, end) := Drain(e, key, ok);
            && Grown(e, f, key, NextHandle(e, key))
            && (end.Failure? ==> ControlFailed(f.log))
            && (!end.Failure? && Covered(e, key) ==> Covered(f, key))
    decreases if key in e.sessions then P.Measure(e.sessions[key].strategy) else 0
  {
    hide Base, Covered, ControlFailed;
    GrownSelf(e, key, NextHandle(e, key));
    if key in e.sessions {
      RoundBase(lib, e, key, ok);
      RoundGrows(e, key, ok);
      var (e1, end) := DrainRound(e, key, ok);
      if end.None? {
        RoundLowersMeasure(e, key, ok);
        assert NextHandle(e, key) <= NextHandle(e1, key);
        hide Grown, DrainRound, NextHandle;
        DrainGrows(lib, e1, key, ok);
        GrownTrans(e, e1, Drain(e1, key, ok).0, key, NextHandle(e, key), NextHandle(e1, key));
      }
    }
  }
}
