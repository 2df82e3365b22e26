/** What the cleanup sweep takes and what it spares, over the log of any run. */
module EngineSweeps {
  import opened Basics
  import opened Coding
  import opened Strategies
  import opened Sessions
  import opened Engines
  import opened EngineSteps
  import opened EngineBase
  import opened EngineRuns
  import opened EngineFacts
  import opened EngineResults

  // ---- Births and ends, read off the log ----

  /** When the key's present session was created; none if there is none. */
  ghost function BornAt(log: seq<Event>, k: Key): Option<nat> {
    if log == [] then None
    else
      var x := log[|log| - 1];
      if x.Created? && x.key == k then Some(x.at)
      else if x.Disposed? && k in x.keys then None
      else BornAt(log[..|log| - 1], k)
  }

  /** When the decoding of the key's present session ended, in success or failure; none if it has not. */
  ghost function DecodedAt(log: seq<Event>, k: Key): Option<nat> {
    if log == [] then None
    else
      var x := log[|log| - 1];
      if (x.Created? && x.key == k) || (x.Disposed? && k in x.keys) then None
      else if (x.Delivered? || x.Undecodable?) && x.key == k then Some(x.at)
      else DecodedAt(log[..|log| - 1], k)
  }

  /** At this time the key's session is past its active lifetime, or past its linger time after decoding. */
  ghost predicate Due(log: seq<Event>, k: Key, at: nat, cfg: Config) {
    && BornAt(log, k).Some?
    && (|| at > BornAt(log, k).value + cfg.activeTtl
        || (DecodedAt(log, k).Some? && at > DecodedAt(log, k).value + cfg.linger))
  }

  /** Every sweep so far disposed exactly what was due. */
  ghost predicate DueOnly(log: seq<Event>, cfg: Config) {
    forall i, k: Key | 0 <= i < |log| && log[i].Disposed? ::
      k in log[i].keys <==> Due(log[..i], k, log[i].at, cfg)
  }

  lemma BornAppend(log: seq<Event>, x: Event, k: Key)
    ensures BornAt(log + [x], k) ==
              if x.Created? && x.key == k then Some(x.at)
              else if x.Disposed? && k in x.keys then None
              else BornAt(log, k)
    ensures DecodedAt(log + [x], k) ==
              if (x.Created? && x.key == k) || (x.Disposed? && k in x.keys) then None
              else if (x.Delivered? || x.Undecodable?) && x.key == k then Some(x.at)
              else DecodedAt(log, k)
  {
    assert (log + [x])[..|log|] == log;
  }

  lemma DueAppend(log: seq<Event>, x: Event, cfg: Config)
    requires DueOnly(log, cfg)
    requires x.Disposed? ==> forall k: Key :: k in x.keys <==> Due(log, k, x.at, cfg)
    ensures DueOnly(log + [x], cfg)
  {
    hide Due;
    var all := log + [x];
    forall i, k: Key | 0 <= i < |all| && all[i].Disposed?
      ensures k in all[i].keys <==> Due(all[..i], k, all[i].at, cfg)
    {
      assert all[..i] == log[..i];
      assert log[..|log|] == log;
    }
  }

  // ---- The table of creation times agrees with the log ----

  ghost predicate Dated(e: Engine, k: Key) {
    if k in e.meta
    then BornAt(e.log, k) == Some(e.meta[k].created) && DecodedAt(e.log, k) == e.meta[k].terminal
    else BornAt(e.log, k) == None
  }

  ghost predicate DatedInv(e: Engine) {
    Base(e) && DueOnly(e.log, e.cfg) && forall k: Key :: Dated(e, k)
  }

  /** What an update does to the metadata of one key. */
  ghost predicate MetaMoves(lib: Lib, e: Engine, a: Act, f: Engine, k: Key) {
    match a
    case Creating(key, _, _, at) =>
      if key == k then k in f.meta && f.meta[k] == Meta(at, None) else (k in f.meta <==> k in e.meta) && (k in e.meta ==> f.meta[k] == e.meta[k])
    case Finishing(key, at) =>
      && (k in f.meta <==> k in e.meta)
      && (k in e.meta ==> f.meta[k] == if key == k then e.meta[k].(terminal := Some(at)) else e.meta[k])
    case Cleaning(at) => (k in f.meta <==> k in e.meta && k !in ExpiredKeys(e, at)) && (k in f.meta ==> f.meta[k] == e.meta[k])
    case _ => f.meta == e.meta
  }

  lemma MetaMoved(lib: Lib, inp: Input, m: Mode, e: Engine, a: Act, k: Key)
    requires Base(e) && Allowed(lib, inp, m, e, a)
    ensures MetaMoves(lib, e, a, Do(lib, e, a), k)
  {
    hide Do, Base, Allowed, MetaMoves, ExpiredKeys;
    if a.Creating? {
      CreatingMoves(lib, inp, m, e, a, k);
    } else if a.Finishing? {
      FinishingMoves(lib, inp, m, e, a, k);
    } else {
      OtherMoves(lib, e, a, k);
    }
  }

  lemma CreatingMoves(lib: Lib, inp: Input, m: Mode, e: Engine, a: Act, k: Key)
    requires Base(e) && Allowed(lib, inp, m, e, a) && a.Creating?
    ensures MetaMoves(lib, e, a, Do(lib, e, a), k)
  {
    DoIs(lib, e, a);
    hide Do, Base, RelayStrategy, DoCreating;
    CreatedMeta(e, a.key, a.session, a.preamble, a.at);
  }

  lemma FinishingMoves(lib: Lib, inp: Input, m: Mode, e: Engine, a: Act, k: Key)
    requires Base(e) && Allowed(lib, inp, m, e, a) && a.Finishing?
    ensures MetaMoves(lib, e, a, Do(lib, e, a), k)
  {
    DoIs(lib, e, a);
    hide Do, Base, DoFinishing;
    FinishedMeta(lib, e, a.key, a.at);
  }

  lemma OtherMoves(lib: Lib, e: Engine, a: Act, k: Key)
    requires !a.Creating? && !a.Finishing?
    ensures MetaMoves(lib, e, a, Do(lib, e, a), k)
  {
    hide Do, ExpiredKeys;
    if a.Cleaning? {
      CleaningOf(lib, e, a.at);
    } else {
      MetaOf(lib, e, a);
    }
  }

  lemma CreatedMeta(e: Engine, key: Key, s: Session, preamble: Bytes, at: nat)
    requires Base(e) && key !in e.sessions
    ensures DoCreating(e, key, s, preamble, at).meta == e.meta[key := Meta(at, None)]
  {
    assert key !in e.meta;
  }

  lemma FinishedMeta(lib: Lib, e: Engine, key: Key, at: nat)
    requires Base(e) && key in e.sessions && e.sessions[key].phase.Decoding?
    ensures key in e.meta && DoFinishing(lib, e, key, at).meta == e.meta[key := e.meta[key].(terminal := Some(at))]
  {
    hide DecodeAndFinish;
    assert Live(e, key);
  }

  /** What an update shows of births and ends. */
  ghost predicate Shows(e: Engine, a: Act, x: Option<Event>) {
    && (a.Creating? ==> x.Some? && x.value.Created? && x.value.key == a.key && x.value.at == a.at)
    && (a.Cleaning? ==> x == Some(Disposed(ExpiredKeys(e, a.at), a.at)))
    && (a.Finishing? ==> x.Some? && (x.value.Delivered? || x.value.Undecodable?) && x.value.key == a.key && x.value.at == a.at)
    && (!a.Creating? && x.Some? ==> !x.value.Created?)
    && (!a.Cleaning? && x.Some? ==> !x.value.Disposed?)
    && (!a.Finishing? && x.Some? ==> !x.value.Delivered? && !x.value.Undecodable?)
  }

  lemma ShownOf(lib: Lib, inp: Input, m: Mode, e: Engine, a: Act)
    requires Allowed(lib, inp, m, e, a)
    ensures Shows(e, a, EventOf(lib, e, a))
  {
    hide Ready, NewSession, DecodeAndFinish, ExpiredKeys, Engine.Opened, Engine.Preamble, Engine.Subscribers;
  }

  lemma DatedFrom(lib: Lib, e: Engine, f: Engine, a: Act, x: Option<Event>, k: Key)
    requires Dated(e, k) && MetaMoves(lib, e, a, f, k) && Shows(e, a, x) && f.log == Extend(e.log, x)
    ensures Dated(f, k)
  {
    hide ExpiredKeys, BornAt, DecodedAt;
    if x.Some? { BornAppend(e.log, x.value, k); }
  }

  lemma DatedKept(lib: Lib, inp: Input, m: Mode, e: Engine, a: Act, k: Key)
    requires Base(e) && Dated(e, k) && Allowed(lib, inp, m, e, a)
    ensures Dated(Do(lib, e, a), k)
  {
    hide Base, Allowed, Do, EventOf, Dated, MetaMoves, Shows, Extend;
    MetaMoved(lib, inp, m, e, a, k);
    ShownOf(lib, inp, m, e, a);
    LogOf(lib, e, a);
    DatedFrom(lib, e, Do(lib, e, a), a, EventOf(lib, e, a), k);
  }

  lemma ExpiredIsDue(e: Engine, k: Key, at: nat)
    requires Dated(e, k)
    ensures k in ExpiredKeys(e, at) <==> Due(e.log, k, at, e.cfg)
  {
  }

  lemma CfgOf(lib: Lib, e: Engine, a: Act)
    ensures Do(lib, e, a).cfg == e.cfg
  {
    hide Do, EventOf, SessionOf, OpenedAfter, PendingAfter;
    FactsOf(lib, e, a, Key(0, 0), 0);
  }

  lemma DatedInvKept(lib: Lib, inp: Input, m: Mode, e: Engine, a: Act)
    requires DatedInv(e) && GoodInput(inp) && Allowed(lib, inp, m, e, a)
    ensures DatedInv(Do(lib, e, a))
  {
    var x := EventOf(lib, e, a);
    hide Base, Allowed, Do, GoodInput, EventOf, ExpiredKeys, DueOnly, Dated, Due;
    BaseKept(lib, inp, m, e, a);
    ShownOf(lib, inp, m, e, a);
    CfgOf(lib, e, a);
    LogOf(lib, e, a);
    if x.Some? {
      if x.value.Disposed? {
        forall k: Key
          ensures k in x.value.keys <==> Due(e.log, k, x.value.at, e.cfg)
        {
          ExpiredIsDue(e, k, x.value.at);
        }
      }
      DueAppend(e.log, x.value, e.cfg);
    }
    forall k: Key
      ensures Dated(Do(lib, e, a), k)
    {
      DatedKept(lib, inp, m, e, a, k);
    }
  }

  lemma RunDated(lib: Lib, cfg: Config, now: nat, inputs: seq<Input>)
    requires GoodInputs(inputs)
    ensures DatedInv(Run(lib, New(cfg, now), inputs)) && Run(lib, New(cfg, now), inputs).cfg == cfg
  {
    NewBase(cfg, now);
    var I := (e: Engine) => DatedInv(e) && e.cfg == cfg;
    assert I(New(cfg, now));
    hide Base, Do, Allowed, GoodInput, GoodInputs, Run, New, DueOnly, Dated;
    forall inp: Input, e: Engine, a: Act | GoodInput(inp) && I(e) && Allowed(lib, inp, PLAIN, e, a)
      ensures I(Do(lib, e, a))
    {
      DatedInvKept(lib, inp, PLAIN, e, a);
      CfgOf(lib, e, a);
    }
    assert Kept(lib, PLAIN, I);
    hide Kept, DatedInv;
    RunKeeps(lib, PLAIN, I, New(cfg, now), inputs);
    assert I(Run(lib, New(cfg, now), inputs));
  }

  /**
   * The sweep disposes exactly what is due, in every sweep of every run: a key is among the disposed ones if and only if its
   * present session was created more than the active lifetime ago, or ended its decoding more than the linger time ago.
   */
  lemma DisposedExactlyWhenDue(lib: Lib, cfg: Config, now: nat, inputs: seq<Input>, i: nat, k: Key)
    requires GoodInputs(inputs) && i < |Run(lib, New(cfg, now), inputs).log|
    requires Run(lib, New(cfg, now), inputs).log[i].Disposed?
    ensures var log := Run(lib, New(cfg, now), inputs).log;
            k in log[i].keys <==> Due(log[..i], k, log[i].at, cfg)
  {
    RunDated(lib, cfg, now, inputs);
    hide Run, New, Base, Due, Dated;
  }

  /** In every reachable state the sessions are exactly those created and not disposed since. */
  lemma SessionsAreBorn(lib: Lib, cfg: Config, now: nat, inputs: seq<Input>, k: Key)
    requires GoodInputs(inputs)
    ensures var e := Run(lib, New(cfg, now), inputs);
            k in e.sessions <==> BornAt(e.log, k).Some?
  {
    RunDated(lib, cfg, now, inputs);
    var e := Run(lib, New(cfg, now), inputs);
    hide Run, New, DueOnly, BornAt, DecodedAt;
    assert Dated(e, k) && SameKeys(e);
  }

  // ---- Sweeps are an interval apart ----

  ghost predicate SpacedSweeps(log: seq<Event>, interval: nat) {
    forall i, j | 0 <= i < j < |log| && log[i].Disposed? && log[j].Disposed? :: log[j].at >= log[i].at + interval
  }

  /** The next sweep is scheduled at least an interval after every sweep so far. */
  ghost predicate SweepInv(e: Engine) {
    Base(e) && SpacedSweeps(e.log, e.cfg.cleanupInterval) && Scheduled(e.log, e.cfg.cleanupInterval, e.nextCleanup)
  }

  lemma ScheduleOf(lib: Lib, inp: Input, m: Mode, e: Engine, a: Act)
    requires Allowed(lib, inp, m, e, a)
    ensures var f := Do(lib, e, a);
            if a.Cleaning? then a.at >= e.nextCleanup && f.nextCleanup == a.at + e.cfg.cleanupInterval
            else f.nextCleanup == e.nextCleanup
  {
    hide Do, EventOf, SessionOf, OpenedAfter, PendingAfter, Ready, NewSession;
    if a.Cleaning? {
      DoIs(lib, e, a);
      hide ExpiredKeys, Standing, Waiting;
    } else {
      FactsOf(lib, e, a, Key(0, 0), 0);
    }
  }

  ghost predicate Scheduled(log: seq<Event>, interval: nat, next: nat) {
    forall i | 0 <= i < |log| && log[i].Disposed? :: next >= log[i].at + interval
  }

  lemma SweepAppend(log: seq<Event>, x: Event, interval: nat, before: nat, after: nat)
    requires SpacedSweeps(log, interval) && Scheduled(log, interval, before)
    requires if x.Disposed? then x.at >= before && after == x.at + interval else after == before
    ensures SpacedSweeps(log + [x], interval) && Scheduled(log + [x], interval, after)
  {
  }

  lemma SweepShown(lib: Lib, inp: Input, m: Mode, e: Engine, a: Act)
    requires Allowed(lib, inp, m, e, a)
    ensures var x := EventOf(lib, e, a);
            if a.Cleaning? then x.Some? && x.value.Disposed? && x.value.at == a.at else x.Some? ==> !x.value.Disposed?
  {
    ShownOf(lib, inp, m, e, a);
    hide Allowed, EventOf, ExpiredKeys;
  }

  lemma SweepKept(lib: Lib, inp: Input, m: Mode, e: Engine, a: Act)
    requires SweepInv(e) && GoodInput(inp) && Allowed(lib, inp, m, e, a)
    ensures SweepInv(Do(lib, e, a))
  {
    hide Base, Do, GoodInput, EventOf, Allowed, ExpiredKeys, SpacedSweeps, Scheduled, Shows;
    BaseKept(lib, inp, m, e, a);
    SweepShown(lib, inp, m, e, a);
    ScheduleOf(lib, inp, m, e, a);
    CfgOf(lib, e, a);
    LogOf(lib, e, a);
    var x := EventOf(lib, e, a);
    if x.Some? { SweepAppend(e.log, x.value, e.cfg.cleanupInterval, e.nextCleanup, Do(lib, e, a).nextCleanup); }
  }

  /** On every run, whatever the clock: a sweep comes at least a cleanup interval after every sweep before it. */
  lemma SweepsAreSpaced(lib: Lib, cfg: Config, now: nat, inputs: seq<Input>)
    requires GoodInputs(inputs)
    ensures SpacedSweeps(Run(lib, New(cfg, now), inputs).log, cfg.cleanupInterval)
  {
    NewBase(cfg, now);
    var I := (e: Engine) => SweepInv(e) && e.cfg == cfg;
    assert I(New(cfg, now));
    hide Base, Do, Allowed, GoodInput, GoodInputs, Run, New, SpacedSweeps, Scheduled;
    forall inp: Input, e: Engine, a: Act | GoodInput(inp) && I(e) && Allowed(lib, inp, PLAIN, e, a)
      ensures I(Do(lib, e, a))
    {
      SweepKept(lib, inp, PLAIN, e, a);
      CfgOf(lib, e, a);
    }
    assert Kept(lib, PLAIN, I);
    hide Kept;
    RunKeeps(lib, PLAIN, I, New(cfg, now), inputs);
    assert I(Run(lib, New(cfg, now), inputs));
  }

  // ---- What a step spares of parked chunks and tombstones ----

  lemma {:induction false} UnexpiredKeeps(buf: seq<ParkedChunk>, at: nat, x: ParkedChunk)
    requires x in buf && at <= x.at + PARKED_TTL
    ensures x in Unexpired(buf, at)
    decreases |buf|
  {
    if x != buf[0] { UnexpiredKeeps(buf[1..], at, x); }
  }

  ghost predicate Waits(e: Engine, k: Key, x: ParkedChunk) {
    k in e.parked && x in e.parked[k]
  }

  lemma SweepSparesChunk(e: Engine, at: nat, k: Key, x: ParkedChunk)
    requires Waits(e, k, x) && at <= x.at + PARKED_TTL && k !in ExpiredKeys(e, at)
    ensures Waits(DoCleaning(e, at), k, x)
  {
    hide ExpiredKeys;
    UnexpiredKeeps(e.parked[k], at, x);
  }

  /** Since log position `n` the session was disposed, or the chunk still waits. */
  ghost predicate WaitsInv(e: Engine, n: nat, k: Key, x: ParkedChunk) {
    Base(e) && n <= |e.log| && (EndedSince(e.log, n, k) || Waits(e, k, x))
  }

  /** Whether the sweep of this step is within the lifetime that began at `since`. */
  ghost predicate SweepsBy(inp: Input, deadline: nat) {
    inp.Net? ==> inp.ticks.sweep <= deadline
  }

  lemma ParkedSteady(lib: Lib, inp: Input, m: Mode, e: Engine, a: Act, k: Key)
    requires Allowed(lib, inp, m, e, a) && !Feeds(inp, k) && !a.Cleaning?
    ensures (k in Do(lib, e, a).parked <==> k in e.parked) && Do(lib, e, a).Buffer(k) == e.Buffer(k)
  {
    hide Do, Ready, RelayStrategy, Engine.Opened;
    if a.Parking? || a.Unparking? {
      DoIs(lib, e, a);
    } else {
      ParkedOf(lib, e, a);
    }
  }

  lemma EndedGrowth(lib: Lib, e: Engine, a: Act, n: nat, k: Key)
    requires n <= |e.log|
    ensures n <= |Do(lib, e, a).log|
    ensures EndedSince(e.log, n, k) || (a.Cleaning? && k in ExpiredKeys(e, a.at)) ==> EndedSince(Do(lib, e, a).log, n, k)
  {
    var v := EventOf(lib, e, a);
    assert a.Cleaning? ==> v == Some(Disposed(ExpiredKeys(e, a.at), a.at));
    hide Do, EndedSince, EventOf, ExpiredKeys;
    LogOf(lib, e, a);
    if v.Some? { EndedAppend(e.log, v.value, n, k); }
  }

  lemma SweepIs(lib: Lib, inp: Input, m: Mode, e: Engine, a: Act)
    requires Allowed(lib, inp, m, e, a) && a.Cleaning?
    ensures inp.Net? && a.at == inp.ticks.sweep && Do(lib, e, a) == DoCleaning(e, a.at)
  {
    hide DoCleaning;
  }

  lemma WaitsKept(lib: Lib, inp: Input, m: Mode, e: Engine, a: Act, n: nat, k: Key, x: ParkedChunk)
    requires WaitsInv(e, n, k, x) && GoodInput(inp) && Allowed(lib, inp, m, e, a)
    requires SweepsBy(inp, x.at + PARKED_TTL) && (Feeds(inp, k) ==> a.Cleaning?)
    ensures WaitsInv(Do(lib, e, a), n, k, x)
  {
    hide Base, Do, GoodInput, EndedSince, ExpiredKeys, Allowed, DoCleaning;
    BaseKept(lib, inp, m, e, a);
    EndedGrowth(lib, e, a, n, k);
    if a.Cleaning? {
      SweepIs(lib, inp, m, e, a);
      if Waits(e, k, x) && k !in ExpiredKeys(e, a.at) { SweepSparesChunk(e, a.at, k, x); }
    } else {
      ParkedSteady(lib, inp, m, e, a, k);
    }
  }

  /** A sweep that comes in time spares the chunk, unless it disposes the key. */
  lemma CleanupSpares(lib: Lib, e: Engine, inp: Input, n: nat, k: Key, x: ParkedChunk)
    requires WaitsInv(e, n, k, x) && inp.Net? && SweepsBy(inp, x.at + PARKED_TTL)
    ensures WaitsInv(Cleanup(e, inp.ticks.sweep), n, k, x)
  {
    var at := inp.ticks.sweep;
    if at >= e.nextCleanup {
      hide Base, WaitsInv, Do, DoCleaning;
      WaitsKept(lib, inp, PLAIN, e, Cleaning(at), n, k, x);
      DoIs(lib, e, Cleaning(at));
    }
  }

  /** The open of this event is accepted, so that it takes the parked chunks of the key. */
  ghost predicate Opens(lib: Lib, e: Engine, inp: Input, k: Key) {
    && inp.Net? && inp.event.SessionOpenIn? && inp.event.key == k && k !in e.tombstones && k !in e.sessions
    && RelayStrategy(lib, e, k, inp.event.preamble, inp.fib).Some?
  }

  /** The event parks a chunk in a full buffer, which drops the first of it. */
  ghost predicate Overflows(e: Engine, inp: Input, k: Key) {
    inp.Net? && inp.event.ChunkIn? && inp.event.key == k && |e.Buffer(k)| >= MAX_PARKED
  }

  lemma FinishParks(lib: Lib, e: Engine, key: Key, at: nat)
    ensures var f := DoFinishing(lib, e, key, at); f.parked == e.parked && e.log <= f.log
  {
    hide DecodeAndFinish, Stamped, Ending;
  }

  lemma DeliverParks(lib: Lib, e: Engine, key: Key, at: nat, ok: Oracle)
    ensures Deliver(lib, e, key, at, ok).parked == e.parked && e.log <= Deliver(lib, e, key, at, ok).log
  {
    hide DecodeAndFinish, DoFinishing;
    FinishParks(lib, e, key, at);
  }

  lemma TakingSteady(lib: Lib, e: Engine, key: Key, idx: nat, data: Bytes)
    ensures var f := DoTaking(lib, e, key, idx, data); f.parked == e.parked && f.log == e.log
  {
    hide Take;
  }

  lemma DrainParks(e: Engine, key: Key, ok: Oracle)
    ensures Drain(e, key, ok).0.parked == e.parked
  {
    hide Drain, Deliveries, SameCores;
    DrainFrame(e, key, ok);
  }

  lemma OnChunkIs(lib: Lib, e: Engine, key: Key, idx: nat, data: Bytes, t: Ticks, ok: Oracle)
    requires key in e.sessions && key !in e.tombstones
    ensures var e1 := Drain(DoTaking(lib, e, key, idx, data), key, ok).0;
            OnChunk(lib, e, key, idx, data, t, ok) in {e1, Deliver(lib, e1, key, t.second, ok)}
  {
    hide Drain, DoTaking, Deliver, Completes;
  }

  /** A chunk for a live session leaves what is parked. */
  lemma TakingSpares(lib: Lib, e: Engine, key: Key, idx: nat, data: Bytes, t: Ticks, ok: Oracle)
    requires Base(e) && key in e.sessions && key !in e.tombstones
    ensures var f := OnChunk(lib, e, key, idx, data, t, ok); f.parked == e.parked && e.log <= f.log
  {
    hide *;
    var e1 := DoTaking(lib, e, key, idx, data);
    TakingSteady(lib, e, key, idx, data);
    DrainParks(e1, key, ok);
    ChunkDrainLogs(lib, e, key, idx, data, ok);
    DeliverParks(lib, Drain(e1, key, ok).0, key, t.second, ok);
    OnChunkIs(lib, e, key, idx, data, t, ok);
  }

  lemma ParkingSpares(e: Engine, k: Key, c: ParkedChunk, x: ParkedChunk)
    requires Waits(e, k, x) && (|e.parked[k]| >= MAX_PARKED ==> x in e.parked[k][1..])
    ensures Waits(DoParking(e, k, c), k, x)
  {
  }

  /** A chunk of the key leaves what is parked for it, and at most adds to it. */
  lemma ChunkSpares(lib: Lib, e: Engine, inp: Input, k: Key, x: ParkedChunk)
    requires Base(e) && inp.Net? && inp.event.ChunkIn? && inp.event.key == k && Waits(e, k, x)
    requires |e.parked[k]| >= MAX_PARKED ==> x in e.parked[k][1..]
    ensures Waits(HandleEvent(lib, e, inp.event, inp.ticks, inp.ok, inp.fib), k, x)
    ensures e.log <= HandleEvent(lib, e, inp.event, inp.ticks, inp.ok, inp.fib).log
  {
    hide Base, Drain, DoTaking, Completes, Deliver, DoParking;
    var idx, data := inp.event.idx, inp.event.data;
    if k !in e.tombstones {
      if k in e.sessions {
        TakingSpares(lib, e, k, idx, data, inp.ticks, inp.ok);
      } else {
        ParkingSpares(e, k, ParkedChunk(idx, data, inp.ticks.first), x);
        ParkingLogs(e, k, ParkedChunk(idx, data, inp.ticks.first));
      }
    }
  }

  lemma ParkingLogs(e: Engine, k: Key, c: ParkedChunk)
    ensures DoParking(e, k, c).log == e.log
  {
  }

  lemma ChunkDrainLogs(lib: Lib, e: Engine, k: Key, idx: nat, data: Bytes, ok: Oracle)
    requires Base(e) && k in e.sessions
    ensures e.log <= Drain(DoTaking(lib, e, k, idx, data), k, ok).0.log
  {
    TakingBase(lib, e, k, idx, data);
    TakingSteady(lib, e, k, idx, data);
    hide Base, Drain, DoTaking;
    DrainLogs(lib, DoTaking(lib, e, k, idx, data), k, ok);
  }

  lemma HandledBase(lib: Lib, e: Engine, inp: Input)
    requires Base(e) && GoodInput(inp) && inp.Net?
    ensures Base(HandleEvent(lib, e, inp.event, inp.ticks, inp.ok, inp.fib))
  {
    hide Base, GoodInput, Preserved, HandleEvent;
    BasePreserved(lib, inp);
    HandleEventKeeps(lib, inp, PLAIN, e => Base(e), e);
  }

  lemma FedStep(lib: Lib, e: Engine, inp: Input, k: Key, x: ParkedChunk)
    requires Base(e) && GoodInput(inp) && Waits(e, k, x) && Feeds(inp, k) && SweepsBy(inp, x.at + PARKED_TTL)
    requires !Opens(lib, e, inp, k) && (Overflows(e, inp, k) ==> x in e.parked[k][1..])
    ensures WaitsInv(Step(lib, e, inp), |e.log|, k, x)
  {
    hide Base, OnChunk, Cleanup, RelayStrategy, EndedSince;
    var f := HandleEvent(lib, e, inp.event, inp.ticks, inp.ok, inp.fib);
    if inp.event.ChunkIn? {
      ChunkSpares(lib, e, inp, k, x);
    } else {
      assert f == e;
    }
    HandledBase(lib, e, inp);
    hide HandleEvent;
    CleanupSpares(lib, f, inp, |e.log|, k, x);
  }

  /**
   * A parked chunk that is not past its lifetime at the step's sweep survives the step, unless the step opens its session,
   * pushes it out of a full buffer or disposes a session of its key.
   */
  lemma ParkedChunkSurvives(lib: Lib, e: Engine, inp: Input, k: Key, x: ParkedChunk)
    requires Base(e) && GoodInput(inp) && Waits(e, k, x) && SweepsBy(inp, x.at + PARKED_TTL)
    requires !Opens(lib, e, inp, k) && (Overflows(e, inp, k) ==> x in e.parked[k][1..])
    ensures var f := Step(lib, e, inp); EndedSince(f.log, |e.log|, k) || Waits(f, k, x)
  {
    if Feeds(inp, k) {
      FedStep(lib, e, inp, k, x);
    } else {
      var n := |e.log|;
      var I := (y: Engine) => WaitsInv(y, n, k, x);
      assert I(e);
      hide Base, Do, Allowed, GoodInput, EndedSince, Waits, Step;
      forall y: Engine, a: Act | I(y) && Allowed(lib, inp, PLAIN, y, a)
        ensures I(Do(lib, y, a))
      {
        WaitsKept(lib, inp, PLAIN, y, a, n, k, x);
      }
      assert Preserved(lib, inp, PLAIN, I);
      hide Preserved, WaitsInv;
      StepKeeps(lib, inp, PLAIN, I, e);
      assert WaitsInv(Step(lib, e, inp), n, k, x);
    }
  }

  /** Since log position `n` the key was disposed, or its tombstone of time `at` stands. */
  ghost predicate StandsInv(e: Engine, n: nat, cfg: Config, k: Key, at: nat) {
    && Base(e) && n <= |e.log| && e.cfg == cfg
    && (EndedSince(e.log, n, k) || (k in e.tombstones && e.tombstones[k] == at))
  }

  lemma SweepSparesTombstone(e: Engine, now: nat, k: Key)
    requires k in e.tombstones && now <= e.tombstones[k] + e.cfg.tombstoneTtl && k !in ExpiredKeys(e, now)
    ensures var f := DoCleaning(e, now); k in f.tombstones && f.tombstones[k] == e.tombstones[k]
  {
    hide ExpiredKeys;
  }

  lemma TombstonesSteady(lib: Lib, e: Engine, a: Act)
    requires !a.Cleaning?
    ensures Do(lib, e, a).tombstones == e.tombstones
  {
    hide Do, EventOf, SessionOf, OpenedAfter, PendingAfter;
    FactsOf(lib, e, a, Key(0, 0), 0);
  }

  lemma StandsKept(lib: Lib, inp: Input, m: Mode, e: Engine, a: Act, n: nat, cfg: Config, k: Key, at: nat)
    requires StandsInv(e, n, cfg, k, at) && GoodInput(inp) && Allowed(lib, inp, m, e, a)
    requires SweepsBy(inp, at + cfg.tombstoneTtl)
    ensures StandsInv(Do(lib, e, a), n, cfg, k, at)
  {
    hide Base, Do, GoodInput, EndedSince, ExpiredKeys, Allowed, DoCleaning;
    BaseKept(lib, inp, m, e, a);
    EndedGrowth(lib, e, a, n, k);
    CfgOf(lib, e, a);
    if a.Cleaning? {
      SweepIs(lib, inp, m, e, a);
      if !EndedSince(e.log, n, k) && k !in ExpiredKeys(e, a.at) { SweepSparesTombstone(e, a.at, k); }
    } else {
      TombstonesSteady(lib, e, a);
    }
  }

  lemma StepStands(lib: Lib, e: Engine, inp: Input, n: nat, cfg: Config, k: Key, at: nat)
    requires StandsInv(e, n, cfg, k, at) && GoodInput(inp) && SweepsBy(inp, at + cfg.tombstoneTtl)
    ensures StandsInv(Step(lib, e, inp), n, cfg, k, at)
  {
    var I := (y: Engine) => StandsInv(y, n, cfg, k, at);
    hide Base, Do, Allowed, GoodInput, EndedSince, Step;
    forall y: Engine, a: Act | I(y) && Allowed(lib, inp, PLAIN, y, a)
      ensures I(Do(lib, y, a))
    {
      StandsKept(lib, inp, PLAIN, y, a, n, cfg, k, at);
    }
    assert Preserved(lib, inp, PLAIN, I);
    hide Preserved, StandsInv;
    StepKeeps(lib, inp, PLAIN, I, e);
  }

  lemma {:induction false} RunStands(lib: Lib, e: Engine, inputs: seq<Input>, n: nat, cfg: Config, k: Key, at: nat)
    requires StandsInv(e, n, cfg, k, at) && GoodInputs(inputs)
    requires forall i | 0 <= i < |inputs| :: SweepsBy(inputs[i], at + cfg.tombstoneTtl)
    ensures StandsInv(Run(lib, e, inputs), n, cfg, k, at)
    decreases |inputs|
  {
    hide StandsInv, Step, GoodInput, SweepsBy;
    if inputs != [] {
      StepStands(lib, e, inputs[0], n, cfg, k, at);
      RunStands(lib, Step(lib, e, inputs[0]), inputs[1..], n, cfg, k, at);
    }
  }

  /** A tombstone stands for its whole lifetime on every run, unless another session of the key is disposed meanwhile. */
  lemma TombstoneStands(lib: Lib, e: Engine, inputs: seq<Input>, k: Key)
    requires Base(e) && GoodInputs(inputs) && k in e.tombstones
    requires forall i | 0 <= i < |inputs| :: SweepsBy(inputs[i], e.tombstones[k] + e.cfg.tombstoneTtl)
    ensures var f := Run(lib, e, inputs);
            EndedSince(f.log, |e.log|, k) || (k in f.tombstones && f.tombstones[k] == e.tombstones[k])
  {
    hide Base, Run, EndedSince, GoodInputs, SweepsBy;
    RunStands(lib, e, inputs, |e.log|, e.cfg, k, e.tombstones[k]);
  }

  // ---- A standing tombstone blocks its key ----

  /** Nothing is live or parked under the key. */
  ghost predicate Barred(e: Engine, k: Key) {
    k !in e.sessions && k !in e.parked
  }

  ghost predicate BarredInv(e: Engine, cfg: Config, k: Key, at: nat) {
    Base(e) && e.cfg == cfg && Barred(e, k) && k in e.tombstones && e.tombstones[k] == at
  }

  lemma BarredSweep(e: Engine, now: nat, k: Key)
    requires Base(e) && Barred(e, k) && k in e.tombstones && now <= e.tombstones[k] + e.cfg.tombstoneTtl
    ensures var f := DoCleaning(e, now);
            Barred(f, k) && k in f.tombstones && f.tombstones[k] == e.tombstones[k]
  {
    assert k !in ExpiredKeys(e, now);
    SweepSparesTombstone(e, now, k);
    hide ExpiredKeys, Standing;
  }

  lemma BarredElse(lib: Lib, inp: Input, m: Mode, e: Engine, a: Act, k: Key)
    requires Allowed(lib, inp, m, e, a) && !a.Cleaning? && Barred(e, k) && k in e.tombstones
    requires !(inp.Publishing? && inp.key == k)
    ensures Barred(Do(lib, e, a), k)
  {
    hide Do, Ready, RelayStrategy, Engine.Opened;
    assert a.Creating? ==> a.key != k;
    KeysOf(lib, e, a, k);
    if a.Parking? || a.Unparking? {
      DoIs(lib, e, a);
    } else {
      ParkedOf(lib, e, a);
    }
  }

  lemma BarredKept(lib: Lib, inp: Input, m: Mode, e: Engine, a: Act, cfg: Config, k: Key, at: nat)
    requires BarredInv(e, cfg, k, at) && GoodInput(inp) && Allowed(lib, inp, m, e, a)
    requires SweepsBy(inp, at + cfg.tombstoneTtl) && !(inp.Publishing? && inp.key == k)
    ensures BarredInv(Do(lib, e, a), cfg, k, at)
  {
    hide Base, Do, GoodInput, Allowed, DoCleaning, Barred;
    BaseKept(lib, inp, m, e, a);
    CfgOf(lib, e, a);
    if a.Cleaning? {
      SweepIs(lib, inp, m, e, a);
      BarredSweep(e, a.at, k);
    } else {
      BarredElse(lib, inp, m, e, a, k);
      TombstonesSteady(lib, e, a);
    }
  }

  lemma {:induction false} RunBarred(lib: Lib, e: Engine, inputs: seq<Input>, cfg: Config, k: Key, at: nat)
    requires BarredInv(e, cfg, k, at) && GoodInputs(inputs)
    requires forall i | 0 <= i < |inputs| :: SweepsBy(inputs[i], at + cfg.tombstoneTtl)
    requires forall i | 0 <= i < |inputs| :: !(inputs[i].Publishing? && inputs[i].key == k)
    ensures BarredInv(Run(lib, e, inputs), cfg, k, at)
    decreases |inputs|
  {
    hide BarredInv, Step, GoodInput, SweepsBy;
    if inputs != [] {
      StepBarred(lib, e, inputs[0], cfg, k, at);
      RunBarred(lib, Step(lib, e, inputs[0]), inputs[1..], cfg, k, at);
    }
  }

  lemma StepBarred(lib: Lib, e: Engine, inp: Input, cfg: Config, k: Key, at: nat)
    requires BarredInv(e, cfg, k, at) && GoodInput(inp)
    requires SweepsBy(inp, at + cfg.tombstoneTtl) && !(inp.Publishing? && inp.key == k)
    ensures BarredInv(Step(lib, e, inp), cfg, k, at)
  {
    var I := (y: Engine) => BarredInv(y, cfg, k, at);
    hide Base, Do, Allowed, GoodInput, Barred, Step;
    forall y: Engine, a: Act | I(y) && Allowed(lib, inp, PLAIN, y, a)
      ensures I(Do(lib, y, a))
    {
      BarredKept(lib, inp, PLAIN, y, a, cfg, k, at);
    }
    assert Preserved(lib, inp, PLAIN, I);
    hide Preserved, BarredInv;
    StepKeeps(lib, inp, PLAIN, I, e);
  }

  lemma JustDisposed(e: Engine, at: nat, k: Key)
    requires k in ExpiredKeys(e, at)
    ensures var f := DoCleaning(e, at); Barred(f, k) && k in f.tombstones && f.tombstones[k] == at && f.cfg == e.cfg
  {
    hide ExpiredKeys;
  }

  /**
   * A disposed key stays barred: from the sweep that disposed it, for the whole lifetime of its tombstone and whatever opens
   * and chunks arrive for it, no session of it is live and no chunk of it is parked, unless it is published here again.
   */
  lemma DisposedStaysBarred(lib: Lib, e: Engine, at: nat, inputs: seq<Input>, k: Key)
    requires Base(e) && k in ExpiredKeys(e, at) && GoodInputs(inputs)
    requires forall i | 0 <= i < |inputs| :: SweepsBy(inputs[i], at + e.cfg.tombstoneTtl)
    requires forall i | 0 <= i < |inputs| :: !(inputs[i].Publishing? && inputs[i].key == k)
    ensures var f := Run(lib, DoCleaning(e, at), inputs);
            Barred(f, k) && k in f.tombstones && f.tombstones[k] == at
  {
    JustDisposed(e, at, k);
    CleaningBase(e, at);
    hide Base, Run, GoodInputs, SweepsBy, DoCleaning, Barred, ExpiredKeys;
    RunBarred(lib, DoCleaning(e, at), inputs, e.cfg, k, at);
  }
}
