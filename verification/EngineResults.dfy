/** Send outcomes over whole runs: every flight awaits one, each counts once, and what a late one does. */
module EngineResults {
  import opened Basics
  import opened Havelists
  import opened Coding
  import opened Strategies
  import opened Sessions
  import opened Engines
  import opened EngineSteps
  import opened EngineBase
  import opened EngineRuns
  import opened EngineFacts
  import opened EngineSettlement
  import P = Polling

  // ---- What updates do to pending sends and flights ----

  /** Flights of `t` are flights of `s`, and no handle was issued. */
  ghost predicate FewerFlights(s: Strategy, t: Strategy) {
    t.nextHandle == s.nextHandle && forall h | h in t.inFlight :: h in s.inFlight && t.inFlight[h] == s.inFlight[h]
  }

  lemma ChangedFlights(lib: Lib, s: Session, c: Change)
    requires !c.Polled?
    ensures var t := Changed(lib, s, c).strategy;
            && FewerFlights(s.strategy, t)
            && (c.Settled? ==> c.h !in t.inFlight)
            && (c.Lost? ==> forall h | h in t.inFlight :: s.strategy.inFlight[h].peer != c.p)
  {
    hide Reconstruct;
  }

  /** An update other than a poll starts no flight; a settlement or departure ends its flights. */
  lemma FlightsOf(lib: Lib, e: Engine, a: Act, k: Key)
    requires k in e.sessions && !a.Polling?
    ensures var s, t := e.sessions[k].strategy, SessionOf(lib, e, a, k).strategy;
            && FewerFlights(s, t)
            && (a.Resolving? && a.key == k ==> a.token !in t.inFlight)
            && (a.Dropping? && a.peer in e.Subscribers(k.channel) ==>
                  forall h | h in t.inFlight :: s.inFlight[h].peer != a.peer)
  {
    hide Changed;
    ChangedFlights(lib, e.sessions[k], ChangeOf(e, a, k));
  }

  // ---- Every flight is pending ----

  /** A send dropped from pending with its peer has no flight left. */
  lemma DroppedFlight(e: Engine, k: Key, h: Handle, p: PeerId)
    requires Base(e) && k in e.sessions && h in e.sessions[k].strategy.inFlight
    requires Ticket(k, h) in e.pending && e.pending[Ticket(k, h)] == p
    ensures p in e.Subscribers(k.channel) && e.sessions[k].strategy.inFlight[h].peer == p
  {
    assert Live(e, k) && Honest(e, Ticket(k, h));
  }

  lemma CoveredLive(lib: Lib, e: Engine, a: Act, k: Key, h: Handle)
    requires Base(e) && k in e.sessions && !a.Polling? && !a.Cleaning? && !(a.Creating? && a.key == k)
    requires h in InFlight(e, k) ==> Ticket(k, h) in e.pending
    ensures h in InFlight(Do(lib, e, a), k) ==> Ticket(k, h) in Do(lib, e, a).pending
  {
    hide Do, Base, SessionOf, Engine.Subscribers;
    PendingOf(lib, e, a);
    SessionsOf(lib, e, a, k);
    FlightsOf(lib, e, a, k);
    if a.Dropping? && h in InFlight(e, k) && e.pending[Ticket(k, h)] == a.peer {
      DroppedFlight(e, k, h, a.peer);
    }
  }

  lemma CoveredKept(lib: Lib, inp: Input, m: Mode, e: Engine, a: Act, k: Key, h: Handle)
    requires Base(e) && Allowed(lib, inp, m, e, a) && GoodInput(inp) && !a.Polling?
    requires h in InFlight(e, k) ==> Ticket(k, h) in e.pending
    ensures h in InFlight(Do(lib, e, a), k) ==> Ticket(k, h) in Do(lib, e, a).pending
  {
    hide Do, Base, GoodInput, ExpiredKeys, DrainAllowed, NewSession;
    if a.Cleaning? {
      CleaningOf(lib, e, a.at);
    } else if a.Creating? && a.key == k {
      CreatedUncharged(lib, inp, m, e, a);
    } else if k !in e.sessions {
      KeysOf(lib, e, a, k);
    } else {
      CoveredLive(lib, e, a, k, h);
    }
  }

  lemma CreatedUncharged(lib: Lib, inp: Input, m: Mode, e: Engine, a: Act)
    requires Allowed(lib, inp, m, e, a) && GoodInput(inp) && a.Creating?
    ensures InFlight(Do(lib, e, a), a.key) == map[]
  {
    hide Do, RelayStrategy, GoodInput;
    NewSessionFresh(lib, inp, e, a.key, a.session, a.preamble, a.at);
    DoIs(lib, e, a);
  }

  ghost predicate CoverInv(e: Engine) {
    Base(e) && (ControlFailed(e.log) || forall k: Key :: Covered(e, k))
  }

  lemma CoverKept(lib: Lib, inp: Input, m: Mode, e: Engine, a: Act)
    requires CoverInv(e) && GoodInput(inp) && Allowed(lib, inp, m, e, a) && m.whole
    ensures CoverInv(Do(lib, e, a))
  {
    assert !a.Polling?;
    hide Base, Do, Allowed, GoodInput, ControlFailed, InFlight, EventOf;
    BaseKept(lib, inp, m, e, a);
    LogOf(lib, e, a);
    if ControlFailed(e.log) {
      if EventOf(lib, e, a).Some? { FailureAppend(e.log, EventOf(lib, e, a).value); }
    } else {
      forall k: Key, h | h in InFlight(Do(lib, e, a), k)
        ensures Ticket(k, h) in Do(lib, e, a).pending
      {
        assert Covered(e, k);
        CoveredKept(lib, inp, m, e, a, k, h);
      }
    }
  }

  lemma CoverDrained(lib: Lib, e: Engine, key: Key, ok: Oracle)
    requires CoverInv(e)
    ensures Base(Drain(e, key, ok).0) ==> CoverInv(Drain(e, key, ok).0)
  {
    hide Base, ControlFailed, Drain;
    DrainGrows(lib, e, key, ok);
    var (f, end) := Drain(e, key, ok);
    if !ControlFailed(f.log) {
      forall k: Key
        ensures Covered(f, k)
      {
        assert Covered(e, k);
        if k != key { assert InFlight(f, k) == InFlight(e, k); }
      }
    }
  }

  ghost const WHOLE := Mode(false, true, true)

  lemma DrainBase(lib: Lib, e: Engine, key: Key, ok: Oracle)
    requires Base(e)
    ensures Base(Drain(e, key, ok).0)
  {
    hide Base, Drain, Preserved;
    BasePreserved(lib, Dialing(0, ok));
    DrainKeeps(lib, Dialing(0, ok), PLAIN, e => Base(e), e, key, ok);
  }

  lemma RunCovers(lib: Lib, e: Engine, inputs: seq<Input>)
    requires CoverInv(e) && GoodInputs(inputs)
    ensures CoverInv(Run(lib, e, inputs))
  {
    hide Base, Do, Allowed, GoodInput, GoodInputs, Run, Drain, ControlFailed, Covered;
    var I := (e: Engine) => CoverInv(e);
    forall inp: Input, e: Engine, a: Act | GoodInput(inp) && I(e) && Allowed(lib, inp, WHOLE, e, a)
      ensures I(Do(lib, e, a))
    {
      CoverKept(lib, inp, WHOLE, e, a);
    }
    forall e: Engine, key: Key, ok: Oracle | I(e)
      ensures I(Drain(e, key, ok).0)
    {
      DrainBase(lib, e, key, ok);
      CoverDrained(lib, e, key, ok);
    }
    assert Kept(lib, WHOLE, I);
    hide Kept, CoverInv;
    RunKeeps(lib, WHOLE, I, e, inputs);
  }

  /**
   * Between steps of a run in which every control send succeeded, every handle in flight awaits its outcome: it has
   * a pending entry, for the peer the chunk went to.
   */
  lemma FlightsArePending(lib: Lib, cfg: Config, now: nat, inputs: seq<Input>, k: Key, h: Handle)
    requires GoodInputs(inputs) && !ControlFailed(Run(lib, New(cfg, now), inputs).log)
    requires h in InFlight(Run(lib, New(cfg, now), inputs), k)
    ensures var e := Run(lib, New(cfg, now), inputs);
            Ticket(k, h) in e.pending && e.pending[Ticket(k, h)] == InFlight(e, k)[h].peer
  {
    NewBase(cfg, now);
    RunCovers(lib, New(cfg, now), inputs);
    var e := Run(lib, New(cfg, now), inputs);
    hide Run, New, ControlFailed;
    assert Covered(e, k);
    assert Honest(e, Ticket(k, h));
  }

  // ---- Outcomes count once ----

  /** The session was disposed at or after log position `n`. */
  ghost predicate EndedSince(log: seq<Event>, n: nat, k: Key) {
    exists i: nat | n <= i < |log| :: log[i].Disposed? && k in log[i].keys
  }

  lemma EndedAppend(log: seq<Event>, x: Event, n: nat, k: Key)
    requires n <= |log|
    ensures EndedSince(log, n, k) || (x.Disposed? && k in x.keys) ==> EndedSince(log + [x], n, k)
  {
    if EndedSince(log, n, k) {
      var i: nat :| n <= i < |log| && log[i].Disposed? && k in log[i].keys;
      assert (log + [x])[i] == log[i];
    } else {
      assert (log + [x])[|log|] == x;
    }
  }

  /** In this life of the session the handle was issued and nothing is in flight under it. */
  ghost predicate SettledAt(e: Engine, k: Key, h: Handle) {
    k in e.sessions && h < NextHandle(e, k) && h !in InFlight(e, k)
  }

  ghost predicate SettledInv(e: Engine, n: nat, k: Key, h: Handle) {
    Base(e) && n <= |e.log| && (EndedSince(e.log, n, k) || SettledAt(e, k, h))
  }

  lemma SettledAtKept(lib: Lib, inp: Input, m: Mode, e: Engine, a: Act, k: Key, h: Handle)
    requires Base(e) && Allowed(lib, inp, m, e, a) && SettledAt(e, k, h)
    requires a.Cleaning? ==> k !in ExpiredKeys(e, a.at)
    ensures SettledAt(Do(lib, e, a), k, h)
  {
    hide Do, ExpiredKeys, Base, Ready, RelayStrategy;
    assert a.Creating? ==> a.key != k;
    hide Allowed;
    if a.Cleaning? {
      CleaningOf(lib, e, a.at);
    } else {
      SessionsOf(lib, e, a, k);
      if a.Polling? {
        FlightsAt(e, k);
        hide Poll;
        PollKeepsSettled(e.sessions[k], h);
      } else {
        FlightsOf(lib, e, a, k);
        hide SessionOf;
      }
    }
  }

  lemma FlightsAt(e: Engine, k: Key)
    requires Base(e) && k in e.sessions
    ensures FlightsOk(e.sessions[k].strategy)
  {
    assert Live(e, k);
  }

  lemma PollKeepsSettled(s: Session, h: Handle)
    requires FlightsOk(s.strategy) && h < s.strategy.nextHandle && h !in s.strategy.inFlight
    ensures var t := Poll(s).0.strategy; h < t.nextHandle && h !in t.inFlight
  {
    PollNumbers(s);
    hide Poll;
  }

  lemma SettledKept(lib: Lib, inp: Input, m: Mode, e: Engine, a: Act, n: nat, k: Key, h: Handle)
    requires SettledInv(e, n, k, h) && GoodInput(inp) && Allowed(lib, inp, m, e, a)
    ensures SettledInv(Do(lib, e, a), n, k, h)
  {
    hide Base, Do, Allowed, GoodInput, EndedSince, SettledAt, ExpiredKeys;
    var x := EventOf(lib, e, a);
    assert a.Cleaning? ==> x == Some(Disposed(ExpiredKeys(e, a.at), a.at));
    hide EventOf;
    BaseKept(lib, inp, m, e, a);
    LogOf(lib, e, a);
    if x.Some? { EndedAppend(e.log, x.value, n, k); }
    if !EndedSince(e.log, n, k) && !(a.Cleaning? && k in ExpiredKeys(e, a.at)) {
      SettledAtKept(lib, inp, m, e, a, k, h);
    }
  }

  lemma RunSettled(lib: Lib, e: Engine, inputs: seq<Input>, n: nat, k: Key, h: Handle)
    requires SettledInv(e, n, k, h) && GoodInputs(inputs)
    ensures SettledInv(Run(lib, e, inputs), n, k, h)
  {
    hide Base, Do, Allowed, GoodInput, GoodInputs, Run, Drain, EndedSince, SettledAt;
    var I := (e: Engine) => SettledInv(e, n, k, h);
    forall inp: Input, e: Engine, a: Act | GoodInput(inp) && I(e) && Allowed(lib, inp, PLAIN, e, a)
      ensures I(Do(lib, e, a))
    {
      SettledKept(lib, inp, PLAIN, e, a, n, k, h);
    }
    assert Kept(lib, PLAIN, I);
    hide Kept, SettledInv;
    RunKeeps(lib, PLAIN, I, e, inputs);
  }

  /** Settling a settled handle again does nothing to the session. */
  lemma ResolvingSettled(f: Engine, k: Key, h: Handle, p: PeerId, sent: bool)
    requires SettledAt(f, k, h)
    ensures DoResolving(f, k, p, h, sent) == f.(pending := f.pending - {Ticket(k, h)})
  {
    assert ChunkSent(f.sessions[k].strategy, p, h, sent) == f.sessions[k].strategy;
    assert f.sessions[k := f.sessions[k]] == f.sessions;
  }

  /**
   * What handling an outcome of a settled handle does, for every peer and outcome it names: nothing if the engine no
   * longer awaits it, and otherwise exactly one drain of the session, after the handle is no longer awaited.
   */
  lemma SettledOutcomeOnlyDrains(lib: Lib, f: Engine, k: Key, h: Handle, p: PeerId, sent: bool, t: Ticks, ok: Oracle,
                                 fib: nat -> nat)
    requires SettledAt(f, k, h)
    ensures HandleEvent(lib, f, ChunkSendResult(p, k, h, sent), t, ok, fib)
         == if Ticket(k, h) in f.pending then Drain(f.(pending := f.pending - {Ticket(k, h)}), k, ok).0 else f
  {
    ResolvingSettled(f, k, h, p, sent);
    hide Drain, DoResolving, SettledAt;
  }

  /**
   * Once a handle is settled - by an outcome, a refusal or a departure - an outcome reported for it later in the session's
   * life settles nothing, even after its peer comes back: its only effect is a drain, and only while the engine still
   * awaits it.
   */
  lemma LateOutcomeOnlyDrains(lib: Lib, e: Engine, inputs: seq<Input>, k: Key, h: Handle, p: PeerId, sent: bool,
                              t: Ticks, ok: Oracle, fib: nat -> nat)
    requires Base(e) && GoodInputs(inputs) && SettledAt(e, k, h)
    requires !EndedSince(Run(lib, e, inputs).log, |e.log|, k)
    ensures var f := Run(lib, e, inputs);
            && SettledAt(f, k, h)
            && DoResolving(f, k, p, h, sent).sessions == f.sessions
            && HandleEvent(lib, f, ChunkSendResult(p, k, h, sent), t, ok, fib)
               == if Ticket(k, h) in f.pending then Drain(f.(pending := f.pending - {Ticket(k, h)}), k, ok).0 else f
  {
    hide Run, Base, EndedSince, GoodInputs, HandleEvent, Drain, DoResolving, SettledAt;
    RunSettled(lib, e, inputs, |e.log|, k, h);
    var f := Run(lib, e, inputs);
    ResolvingSettled(f, k, h, p, sent);
    SettledOutcomeOnlyDrains(lib, f, k, h, p, sent, t, ok, fib);
  }

  // ---- An outcome is taken once; a stranded handle never gets one ----

  /** In this life of the session the handle was issued and no outcome is awaited for it. */
  ghost predicate Unawaited(e: Engine, k: Key, h: Handle) {
    k in e.sessions && h < NextHandle(e, k) && Ticket(k, h) !in e.pending
  }

  ghost predicate UnawaitedInv(e: Engine, n: nat, k: Key, h: Handle) {
    Base(e) && n <= |e.log| && (EndedSince(e.log, n, k) || Unawaited(e, k, h))
  }

  lemma UnawaitedAtKept(lib: Lib, inp: Input, m: Mode, e: Engine, a: Act, k: Key, h: Handle)
    requires Base(e) && m.whole && Allowed(lib, inp, m, e, a) && Unawaited(e, k, h)
    requires a.Cleaning? ==> k !in ExpiredKeys(e, a.at)
    ensures Unawaited(Do(lib, e, a), k, h)
  {
    hide Do, ExpiredKeys, Base, Ready, RelayStrategy, SessionOf;
    assert (a.Creating? ==> a.key != k) && !a.Polling? && !a.Chunking?;
    hide Allowed;
    PendingOf(lib, e, a);
    if a.Cleaning? {
      CleaningOf(lib, e, a.at);
    } else {
      SessionsOf(lib, e, a, k);
      FlightsOf(lib, e, a, k);
    }
  }

  lemma UnawaitedKept(lib: Lib, inp: Input, m: Mode, e: Engine, a: Act, n: nat, k: Key, h: Handle)
    requires UnawaitedInv(e, n, k, h) && m.whole && GoodInput(inp) && Allowed(lib, inp, m, e, a)
    ensures UnawaitedInv(Do(lib, e, a), n, k, h)
  {
    hide Base, Do, Allowed, GoodInput, EndedSince, Unawaited, ExpiredKeys;
    var x := EventOf(lib, e, a);
    assert a.Cleaning? ==> x == Some(Disposed(ExpiredKeys(e, a.at), a.at));
    hide EventOf;
    BaseKept(lib, inp, m, e, a);
    LogOf(lib, e, a);
    if x.Some? { EndedAppend(e.log, x.value, n, k); }
    if !EndedSince(e.log, n, k) && !(a.Cleaning? && k in ExpiredKeys(e, a.at)) {
      UnawaitedAtKept(lib, inp, m, e, a, k, h);
    }
  }

  ghost predicate LogKeeps(e: Engine, log: seq<Event>) {
    Base(e) && log <= e.log
  }

  lemma LogKeepsPreserved(lib: Lib, inp: Input, log: seq<Event>)
    requires GoodInput(inp)
    ensures Preserved(lib, inp, PLAIN, e => LogKeeps(e, log))
  {
    hide Base, Do, Allowed, GoodInput, EventOf;
    forall e: Engine, a: Act | LogKeeps(e, log) && Allowed(lib, inp, PLAIN, e, a)
      ensures LogKeeps(Do(lib, e, a), log)
    {
      BaseKept(lib, inp, PLAIN, e, a);
      LogOf(lib, e, a);
    }
  }

  lemma DrainLogs(lib: Lib, e: Engine, key: Key, ok: Oracle)
    requires Base(e)
    ensures e.log <= Drain(e, key, ok).0.log
  {
    hide Base, Drain, Preserved;
    LogKeepsPreserved(lib, Dialing(0, ok), e.log);
    DrainKeeps(lib, Dialing(0, ok), PLAIN, x => LogKeeps(x, e.log), e, key, ok);
    assert LogKeeps(Drain(e, key, ok).0, e.log);
  }

  lemma EndedGrows(log: seq<Event>, more: seq<Event>, n: nat, k: Key)
    requires EndedSince(log, n, k) && log <= more
    ensures EndedSince(more, n, k)
  {
    var i: nat :| n <= i < |log| && log[i].Disposed? && k in log[i].keys;
    assert more[i] == log[i];
  }

  lemma UnawaitedDrained(lib: Lib, e: Engine, key: Key, ok: Oracle, n: nat, k: Key, h: Handle)
    requires UnawaitedInv(e, n, k, h)
    ensures UnawaitedInv(Drain(e, key, ok).0, n, k, h)
  {
    var f := Drain(e, key, ok).0;
    hide Base, Drain, EndedSince, ControlFailed;
    DrainBase(lib, e, key, ok);
    DrainLogs(lib, e, key, ok);
    if EndedSince(e.log, n, k) {
      EndedGrows(e.log, f.log, n, k);
    } else {
      DrainGrows(lib, e, key, ok);
      DrainFrame(e, key, ok);
      hide Deliveries, SameCore, Covered;
      assert k in f.sessions;
      assert h < NextHandle(f, k) by { if k != key { assert NextHandle(f, k) == NextHandle(e, k); } }
      hide NextHandle;
      assert Ticket(k, h) !in f.pending;
    }
  }

  lemma RunUnawaited(lib: Lib, e: Engine, inputs: seq<Input>, n: nat, k: Key, h: Handle)
    requires UnawaitedInv(e, n, k, h) && GoodInputs(inputs)
    ensures UnawaitedInv(Run(lib, e, inputs), n, k, h)
  {
    hide Base, Do, Allowed, GoodInput, GoodInputs, Run, Drain, EndedSince, Unawaited;
    var I := (e: Engine) => UnawaitedInv(e, n, k, h);
    forall inp: Input, e: Engine, a: Act | GoodInput(inp) && I(e) && Allowed(lib, inp, WHOLE, e, a)
      ensures I(Do(lib, e, a))
    {
      UnawaitedKept(lib, inp, WHOLE, e, a, n, k, h);
    }
    forall e: Engine, key: Key, ok: Oracle | I(e)
      ensures I(Drain(e, key, ok).0)
    {
      UnawaitedDrained(lib, e, key, ok, n, k, h);
    }
    assert Kept(lib, WHOLE, I);
    hide Kept, UnawaitedInv;
    RunKeeps(lib, WHOLE, I, e, inputs);
  }

  /** An outcome nobody awaits is not awaited later in the session's life: the engine ignores it. */
  lemma UnawaitedIsIgnored(lib: Lib, e: Engine, inputs: seq<Input>, k: Key, h: Handle, p: PeerId, sent: bool,
                           t: Ticks, ok: Oracle, fib: nat -> nat)
    requires Base(e) && GoodInputs(inputs) && Unawaited(e, k, h)
    requires !EndedSince(Run(lib, e, inputs).log, |e.log|, k)
    ensures var f := Run(lib, e, inputs);
            HandleEvent(lib, f, ChunkSendResult(p, k, h, sent), t, ok, fib) == f
  {
    hide Run, Base, EndedSince, Drain, HandleEvent, GoodInputs;
    RunUnawaited(lib, e, inputs, |e.log|, k, h);
    IgnoredIs(lib, Run(lib, e, inputs), k, h, p, sent, t, ok, fib);
  }

  lemma IgnoredIs(lib: Lib, e: Engine, k: Key, h: Handle, p: PeerId, sent: bool, t: Ticks, ok: Oracle, fib: nat -> nat)
    requires Ticket(k, h) !in e.pending
    ensures HandleEvent(lib, e, ChunkSendResult(p, k, h, sent), t, ok, fib) == e
  {
    hide Drain, DoResolving;
  }

  lemma ResolvedUnawaited(e: Engine, k: Key, h: Handle, p: PeerId, sent: bool)
    requires Base(e) && Ticket(k, h) in e.pending
    ensures Base(DoResolving(e, k, p, h, sent)) && Unawaited(DoResolving(e, k, p, h, sent), k, h)
  {
    ResolvingBase(e, k, p, h, sent);
    assert Honest(e, Ticket(k, h));
    hide Base;
  }

  lemma DrainedUnawaited(lib: Lib, e: Engine, k: Key, h: Handle, ok: Oracle)
    requires Base(e) && Unawaited(e, k, h)
    ensures Unawaited(Drain(e, k, ok).0, k, h)
  {
    hide Base, Drain, EndedSince, Unawaited;
    UnawaitedDrained(lib, e, k, ok, |e.log|, k, h);
    DrainNeverEnds(lib, e, k, ok, k);
  }

  /** Taking an outcome leaves the handle no longer awaited: with `UnawaitedIsIgnored`, it counts once. */
  lemma OutcomeTaken(lib: Lib, e: Engine, k: Key, h: Handle, p: PeerId, sent: bool, t: Ticks, ok: Oracle, fib: nat -> nat)
    requires Base(e) && Ticket(k, h) in e.pending
    ensures Unawaited(HandleEvent(lib, e, ChunkSendResult(p, k, h, sent), t, ok, fib), k, h)
  {
    hide Base, Drain, Unawaited, DoResolving;
    ResolvedUnawaited(e, k, h, p, sent);
    DrainedUnawaited(lib, DoResolving(e, k, p, h, sent), k, h, ok);
  }

  /**
   * In every reachable state, whatever lives the key has had: handling a reported outcome leaves the engine as it is if
   * and only if the engine awaits no outcome under that key and handle.
   */
  lemma OutcomeIgnoredIff(lib: Lib, cfg: Config, now: nat, inputs: seq<Input>, k: Key, h: Handle, p: PeerId, sent: bool,
                          t: Ticks, ok: Oracle, fib: nat -> nat)
    requires GoodInputs(inputs)
    ensures var f := Run(lib, New(cfg, now), inputs);
            HandleEvent(lib, f, ChunkSendResult(p, k, h, sent), t, ok, fib) == f <==> Ticket(k, h) !in f.pending
  {
    var f := Run(lib, New(cfg, now), inputs);
    NewBase(cfg, now);
    hide Run, New, Base, HandleEvent, GoodInputs;
    RunBase(lib, New(cfg, now), inputs);
    if Ticket(k, h) in f.pending {
      OutcomeTaken(lib, f, k, h, p, sent, t, ok, fib);
    } else {
      IgnoredIs(lib, f, k, h, p, sent, t, ok, fib);
    }
  }

  ghost predicate NotEnded(e: Engine, n: nat, k: Key) {
    Base(e) && n <= |e.log| && !EndedSince(e.log, n, k)
  }

  /** A drain disposes nothing. */
  lemma DrainNeverEnds(lib: Lib, e: Engine, key: Key, ok: Oracle, k: Key)
    requires Base(e)
    ensures !EndedSince(Drain(e, key, ok).0.log, |e.log|, k)
  {
    var inp, m, n := Dialing(0, ok), Mode(false, false, false), |e.log|;
    var I := (x: Engine) => NotEnded(x, n, k);
    hide Base, Drain, Do, GoodInput, Allowed, EventOf;
    forall x: Engine, a: Act | I(x) && Allowed(lib, inp, m, x, a)
      ensures I(Do(lib, x, a))
    {
      BaseKept(lib, inp, m, x, a);
      LogOf(lib, x, a);
      NoDisposal(lib, inp, m, x, a);
      var ev := EventOf(lib, x, a);
      if ev.Some? { NotEndedAppend(x.log, ev.value, n, k); }
    }
    assert Preserved(lib, inp, m, I);
    hide Preserved;
    DrainKeeps(lib, inp, m, I, e, key, ok);
    assert NotEnded(Drain(e, key, ok).0, n, k);
  }

  lemma NoDisposal(lib: Lib, inp: Input, m: Mode, e: Engine, a: Act)
    requires Allowed(lib, inp, m, e, a) && !m.sweep
    ensures EventOf(lib, e, a).Some? ==> !EventOf(lib, e, a).value.Disposed?
  {
    hide Ready, NewSession, DecodeAndFinish, ExpiredKeys, Engine.Opened, Engine.Preamble, Engine.Subscribers;
  }

  lemma NotEndedAppend(log: seq<Event>, x: Event, n: nat, k: Key)
    requires n <= |log| && !EndedSince(log, n, k) && !x.Disposed?
    ensures !EndedSince(log + [x], n, k)
  {
    assert forall i: nat | i < |log| :: (log + [x])[i] == log[i];
  }

  /** A drain brings no settled handle back. */
  lemma SettledDrained(lib: Lib, e: Engine, key: Key, ok: Oracle, k: Key, h: Handle)
    requires Base(e) && SettledAt(e, k, h)
    ensures SettledAt(Drain(e, key, ok).0, k, h)
  {
    var inp, n := Dialing(0, ok), |e.log|;
    var I := (x: Engine) => SettledInv(x, n, k, h);
    hide Base, Drain, Do, Allowed, EndedSince, SettledAt;
    forall x: Engine, a: Act | I(x) && Allowed(lib, inp, PLAIN, x, a)
      ensures I(Do(lib, x, a))
    {
      SettledKept(lib, inp, PLAIN, x, a, n, k, h);
    }
    assert Preserved(lib, inp, PLAIN, I);
    hide Preserved;
    DrainKeeps(lib, inp, PLAIN, I, e, key, ok);
    assert SettledInv(Drain(e, key, ok).0, n, k, h);
    DrainNeverEnds(lib, e, key, ok, k);
  }

  /** A pending send carries a handle issued before. */
  lemma IssuedBefore(e: Engine, t: Ticket)
    requires Base(e) && t in e.pending
    ensures t.handle < NextHandle(e, t.key)
  {
    assert Honest(e, t);
  }
}
