/** Delivery spacing and bounded ages on every run with a nondecreasing clock. */
module EngineTimes {
  import opened Basics
  import opened Coding
  import opened Strategies
  import opened Sessions
  import opened Engines
  import opened EngineSteps
  import opened EngineBase
  import opened EngineRuns
  import opened EngineFacts

  // ---- The clock ----

  /** The readings a step takes do not decrease and start no earlier than `t`. */
  ghost predicate Timed(t: nat, inp: Input) {
    && (inp.Net? ==> t <= inp.ticks.first <= inp.ticks.second <= inp.ticks.sweep)
    && (inp.Publishing? ==> t <= inp.at)
  }

  /** The last reading of a step that began at or after `t`. */
  ghost function End(t: nat, inp: Input): nat {
    if inp.Net? then inp.ticks.sweep else if inp.Publishing? then inp.at else t
  }

  ghost predicate Clocked(t: nat, inputs: seq<Input>)
    decreases |inputs|
  {
    inputs == [] || (Timed(t, inputs[0]) && Clocked(End(t, inputs[0]), inputs[1..]))
  }

  ghost function Finish(t: nat, inputs: seq<Input>): nat
    decreases |inputs|
  {
    if inputs == [] then t else Finish(End(t, inputs[0]), inputs[1..])
  }

  // ---- Deliveries ----

  /** A past delivery still blocks another one, or lies more than the tombstone lifetime before `t`. */
  ghost predicate Accounted(e: Engine, t: nat, x: Event)
    requires x.Delivered?
  {
    || (x.key in e.sessions && e.sessions[x.key].Terminal())
    || (x.key in e.tombstones && e.tombstones[x.key] >= x.at)
    || t > x.at + e.cfg.tombstoneTtl
  }

  /** Deliveries are accounted for at `t` and none is later than `u`. */
  ghost predicate DeliveryInv(e: Engine, t: nat, u: nat) {
    forall i | 0 <= i < |e.log| && e.log[i].Delivered? :: e.log[i].at <= u && Accounted(e, t, e.log[i])
  }

  ghost predicate Spaced(log: seq<Event>, ttl: nat) {
    forall i, j | 0 <= i < j < |log| && log[i].Delivered? && log[j].Delivered? && log[i].key == log[j].key ::
      log[j].at > log[i].at + ttl
  }

  lemma TombstonesOf(lib: Lib, e: Engine, a: Act)
    requires !a.Cleaning?
    ensures Do(lib, e, a).tombstones == e.tombstones && Do(lib, e, a).cfg == e.cfg
    ensures Do(lib, e, a).nextCleanup == e.nextCleanup
  {
    hide Do;
    if a.Creating? {
      DoIs(lib, e, a);
    } else {
      SteadyOf(lib, e, a);
    }
  }

  lemma AccountedKept(lib: Lib, inp: Input, m: Mode, e: Engine, a: Act, t: nat, x: Event)
    requires Allowed(lib, inp, m, e, a) && !a.Cleaning? && x.Delivered? && Accounted(e, t, x)
    ensures Accounted(Do(lib, e, a), t, x)
  {
    hide Do, Ready, RelayStrategy, Engine.Opened;
    TombstonesOf(lib, e, a);
    if x.key in e.sessions {
      SessionsOf(lib, e, a, x.key);
      PhasesOf(lib, e, a, x.key);
      hide SessionOf;
    }
  }

  /** The delivery an update makes, if any. */
  lemma DeliveryOf(lib: Lib, inp: Input, m: Mode, e: Engine, a: Act, x: Event)
    requires Allowed(lib, inp, m, e, a) && EventOf(lib, e, a) == Some(x) && x.Delivered?
    ensures inp.Net? && x.at == inp.ticks.second
    ensures x.key in e.sessions && e.sessions[x.key].phase.Decoding?
    ensures x.key in Do(lib, e, a).sessions && Do(lib, e, a).sessions[x.key].Terminal()
  {
    assert a.Finishing? && x.key == a.key by { hide DecodeAndFinish, Do; }
    FinishEnds(lib, e.sessions[a.key]);
    hide DecodeAndFinish, Do, EventOf;
    SessionsOf(lib, e, a, a.key);
  }

  lemma DecodingUnblocked(e: Engine, k: Key)
    requires Base(e) && k in e.sessions && e.sessions[k].phase.Decoding?
    ensures k !in e.tombstones
  {
    assert Live(e, k);
  }

  lemma SpacedAppend(e: Engine, x: Event, t: nat, u: nat)
    requires DeliveryInv(e, t, u) && Spaced(e.log, e.cfg.tombstoneTtl)
    requires x.Delivered? ==> x.key in e.sessions && !e.sessions[x.key].Terminal() && x.key !in e.tombstones && t <= x.at
    ensures Spaced(e.log + [x], e.cfg.tombstoneTtl)
  {
    var log := e.log + [x];
    forall i, j | 0 <= i < j < |log| && log[i].Delivered? && log[j].Delivered? && log[i].key == log[j].key
      ensures log[j].at > log[i].at + e.cfg.tombstoneTtl
    {
      assert log[i] == e.log[i];
      if j < |e.log| {
        assert log[j] == e.log[j];
      }
    }
  }

  lemma DeliveriesKept(lib: Lib, inp: Input, m: Mode, e: Engine, a: Act, t: nat, u: nat)
    requires Base(e) && Allowed(lib, inp, m, e, a) && !a.Cleaning? && Timed(t, inp)
    requires inp.Net? ==> inp.ticks.second <= u
    requires DeliveryInv(e, t, u) && Spaced(e.log, e.cfg.tombstoneTtl)
    ensures DeliveryInv(Do(lib, e, a), t, u) && Spaced(Do(lib, e, a).log, e.cfg.tombstoneTtl)
  {
    var f, ev := Do(lib, e, a), EventOf(lib, e, a);
    hide Base, Allowed, Do, EventOf, Accounted;
    LogOf(lib, e, a);
    if ev.Some? {
      if ev.value.Delivered? {
        DeliveryOf(lib, inp, m, e, a, ev.value);
        DecodingUnblocked(e, ev.value.key);
      }
      SpacedAppend(e, ev.value, t, u);
    }
    hide Spaced;
    forall i | 0 <= i < |f.log| && f.log[i].Delivered?
      ensures f.log[i].at <= u && Accounted(f, t, f.log[i])
    {
      if i < |e.log| {
        assert f.log[i] == e.log[i];
        AccountedKept(lib, inp, m, e, a, t, e.log[i]);
      } else {
        TerminalAccounted(f, t, f.log[i]);
      }
    }
  }

  lemma TerminalAccounted(e: Engine, t: nat, x: Event)
    requires x.Delivered? && x.key in e.sessions && e.sessions[x.key].Terminal()
    ensures Accounted(e, t, x)
  {
  }

  // ---- Ages ----

  /** The instant is within the lifetime and one cleanup interval of the next sweep. */
  ghost predicate Young(e: Engine, at: nat, ttl: nat) {
    e.nextCleanup <= at + ttl + e.cfg.cleanupInterval
  }

  ghost predicate YoungMeta(e: Engine, m: Meta) {
    Young(e, m.created, e.cfg.activeTtl) && (m.terminal.Some? ==> Young(e, m.terminal.value, e.cfg.linger))
  }

  ghost predicate YoungBuffer(e: Engine, buf: seq<ParkedChunk>) {
    forall c | c in buf :: Young(e, c.at, PARKED_TTL)
  }

  ghost predicate AgeInv(e: Engine, t: nat) {
    && e.nextCleanup <= t + e.cfg.cleanupInterval
    && (forall k | k in e.meta :: YoungMeta(e, e.meta[k]))
    && (forall k | k in e.tombstones :: Young(e, e.tombstones[k], e.cfg.tombstoneTtl))
    && (forall k | k in e.parked :: YoungBuffer(e, e.parked[k]))
  }

  lemma MetaKept(lib: Lib, inp: Input, m: Mode, e: Engine, a: Act, t: nat, k: Key)
    requires Allowed(lib, inp, m, e, a) && !a.Cleaning? && Timed(t, inp) && AgeInv(e, t) && k in Do(lib, e, a).meta
    ensures YoungMeta(Do(lib, e, a), Do(lib, e, a).meta[k])
  {
    hide Do, Ready, RelayStrategy, Engine.Opened, YoungBuffer;
    TombstonesOf(lib, e, a);
    if a.Creating? || a.Finishing? {
      DoIs(lib, e, a);
      hide DecodeAndFinish;
    } else {
      MetaOf(lib, e, a);
    }
  }

  lemma BufferKept(lib: Lib, inp: Input, m: Mode, e: Engine, a: Act, t: nat, k: Key)
    requires Allowed(lib, inp, m, e, a) && !a.Cleaning? && Timed(t, inp) && AgeInv(e, t) && k in Do(lib, e, a).parked
    ensures YoungBuffer(Do(lib, e, a), Do(lib, e, a).parked[k])
  {
    hide Do, Ready, RelayStrategy, Engine.Opened, YoungMeta;
    TombstonesOf(lib, e, a);
    if a.Parking? || a.Unparking? {
      DoIs(lib, e, a);
    } else {
      ParkedOf(lib, e, a);
    }
  }

  lemma AgesKept(lib: Lib, inp: Input, m: Mode, e: Engine, a: Act, t: nat)
    requires Allowed(lib, inp, m, e, a) && !a.Cleaning? && Timed(t, inp) && AgeInv(e, t)
    ensures AgeInv(Do(lib, e, a), t)
  {
    var f := Do(lib, e, a);
    TombstonesOf(lib, e, a);
    hide Do, Allowed, YoungMeta, YoungBuffer;
    forall k | k in f.meta
      ensures YoungMeta(f, f.meta[k])
    {
      MetaKept(lib, inp, m, e, a, t, k);
    }
    forall k | k in f.parked
      ensures YoungBuffer(f, f.parked[k])
    {
      BufferKept(lib, inp, m, e, a, t, k);
    }
  }

  // ---- The sweep ----

  lemma SweepAges(e: Engine, t: nat, at: nat)
    requires AgeInv(e, t)
    ensures AgeInv(DoCleaning(e, at), at)
  {
    var gone := ExpiredKeys(e, at);
    var f := DoCleaning(e, at);
    forall k | k in f.meta
      ensures YoungMeta(f, f.meta[k])
    {
      assert k in e.meta && k !in gone && f.meta[k] == e.meta[k];
    }
    hide ExpiredKeys;
    forall k | k in f.parked
      ensures YoungBuffer(f, f.parked[k])
    {
    }
  }

  lemma SweepDeliveries(e: Engine, t: nat, at: nat)
    requires DeliveryInv(e, t, at) && t <= at && Spaced(e.log, e.cfg.tombstoneTtl)
    ensures DeliveryInv(DoCleaning(e, at), at, at) && Spaced(DoCleaning(e, at).log, e.cfg.tombstoneTtl)
  {
    var f := DoCleaning(e, at);
    hide ExpiredKeys;
    assert f.log == e.log + [Disposed(ExpiredKeys(e, at), at)];
    SpacedAppend(e, Disposed(ExpiredKeys(e, at), at), t, at);
    hide Spaced;
    forall i | 0 <= i < |f.log| && f.log[i].Delivered?
      ensures f.log[i].at <= at && Accounted(f, at, f.log[i])
    {
      assert f.log[i] == e.log[i];
      SweepAccounted(e, t, at, e.log[i]);
    }
  }

  lemma SweepAccounted(e: Engine, t: nat, at: nat, x: Event)
    requires x.Delivered? && Accounted(e, t, x) && x.at <= at && t <= at
    ensures Accounted(DoCleaning(e, at), at, x)
  {
    hide ExpiredKeys;
  }

  // ---- Steps and runs ----

  ghost predicate TimeInv(e: Engine, cfg: Config, t: nat, u: nat) {
    && e.cfg == cfg && Base(e)
    && DeliveryInv(e, t, u) && Spaced(e.log, cfg.tombstoneTtl) && AgeInv(e, t)
  }

  lemma TimePreserved(lib: Lib, inp: Input, m: Mode, cfg: Config, t: nat, u: nat)
    requires GoodInput(inp) && Timed(t, inp) && (inp.Net? ==> inp.ticks.second <= u && !m.sweep)
    requires !m.whole
    ensures Preserved(lib, inp, m, e => TimeInv(e, cfg, t, u))
  {
    hide Do, Base, DeliveryInv, Spaced, AgeInv, GoodInput, Ready, NewSession;
    forall e: Engine, a: Act | TimeInv(e, cfg, t, u) && Allowed(lib, inp, m, e, a)
      ensures TimeInv(Do(lib, e, a), cfg, t, u)
    {
      assert !a.Cleaning?;
      hide Allowed;
      BaseKept(lib, inp, m, e, a);
      TombstonesOf(lib, e, a);
      DeliveriesKept(lib, inp, m, e, a, t, u);
      AgesKept(lib, inp, m, e, a, t);
    }
  }

  /** The bounds at `t` carry over to any later instant. */
  lemma Later(e: Engine, cfg: Config, t: nat, u: nat, t': nat, u': nat)
    requires TimeInv(e, cfg, t, u) && t <= t' && u <= u'
    ensures TimeInv(e, cfg, t', u')
  {
    hide Base, Spaced;
  }

  lemma CleanupTimes(e: Engine, cfg: Config, t: nat, at: nat)
    requires TimeInv(e, cfg, t, at) && t <= at
    ensures TimeInv(Cleanup(e, at), cfg, at, at) && at <= Cleanup(e, at).nextCleanup
  {
    if at < e.nextCleanup {
      Later(e, cfg, t, at, at, at);
    } else {
      assert DoCleaning(e, at).cfg == cfg && DoCleaning(e, at).nextCleanup == at + cfg.cleanupInterval;
      hide DoCleaning, AgeInv, DeliveryInv, Spaced, Base;
      CleaningBase(e, at);
      SweepAges(e, t, at);
      SweepDeliveries(e, t, at);
    }
  }

  lemma StepTimes(lib: Lib, e: Engine, inp: Input, cfg: Config, t: nat)
    requires TimeInv(e, cfg, t, t) && GoodInput(inp) && Timed(t, inp)
    ensures TimeInv(Step(lib, e, inp), cfg, End(t, inp), End(t, inp))
    ensures inp.Net? ==> inp.ticks.sweep <= Step(lib, e, inp).nextCleanup
  {
    var u := End(t, inp);
    Later(e, cfg, t, t, t, u);
    hide TimeInv, GoodInput, Preserved, HandleEvent, Cleanup, Publish, Register, SubscribeTo;
    var I := (e: Engine) => TimeInv(e, cfg, t, u);
    if inp.Net? {
      var m := Mode(false, false, false);
      TimePreserved(lib, inp, m, cfg, t, u);
      HandleEventKeeps(lib, inp, m, I, e);
      var f := HandleEvent(lib, e, inp.event, inp.ticks, inp.ok, inp.fib);
      assert TimeInv(f, cfg, t, u);
      CleanupTimes(f, cfg, t, u);
    } else {
      TimePreserved(lib, inp, PLAIN, cfg, t, u);
      StepKeeps(lib, inp, PLAIN, I, e);
      assert TimeInv(Step(lib, e, inp), cfg, t, u);
      Later(Step(lib, e, inp), cfg, t, u, u, u);
    }
  }

  lemma {:induction false} RunTimes(lib: Lib, e: Engine, inputs: seq<Input>, cfg: Config, t: nat)
    requires TimeInv(e, cfg, t, t) && GoodInputs(inputs) && Clocked(t, inputs)
    ensures TimeInv(Run(lib, e, inputs), cfg, Finish(t, inputs), Finish(t, inputs))
    decreases |inputs|
  {
    hide TimeInv, Step, GoodInput;
    if inputs != [] {
      StepTimes(lib, e, inputs[0], cfg, t);
      RunTimes(lib, Step(lib, e, inputs[0]), inputs[1..], cfg, End(t, inputs[0]));
    }
  }

  lemma NewTimes(cfg: Config, now: nat)
    ensures TimeInv(New(cfg, now), cfg, now, now)
  {
    NewBase(cfg, now);
  }

  /** Two deliveries for the same message are more than the tombstone lifetime apart. */
  lemma DeliveriesAreSpaced(lib: Lib, cfg: Config, now: nat, inputs: seq<Input>, i: nat, j: nat)
    requires GoodInputs(inputs) && Clocked(now, inputs) && i < j < |Run(lib, New(cfg, now), inputs).log|
    requires var log := Run(lib, New(cfg, now), inputs).log;
             log[i].Delivered? && log[j].Delivered? && log[i].key == log[j].key
    ensures var log := Run(lib, New(cfg, now), inputs).log;
            log[j].at > log[i].at + cfg.tombstoneTtl
  {
    NewTimes(cfg, now);
    RunTimes(lib, New(cfg, now), inputs, cfg, now);
    hide Run, New, Base, AgeInv, DeliveryInv;
  }

  /**
   * After every handled event, however long the gap before it: no session is older than its lifetime plus one cleanup
   * interval, no terminal session has lingered longer than the linger time plus the interval, and tombstones and
   * parked chunks meet the like bounds.
   */
  lemma AgesAreBounded(lib: Lib, cfg: Config, now: nat, inputs: seq<Input>, inp: Input)
    requires GoodInputs(inputs) && Clocked(now, inputs) && inp.Net?
    requires GoodInput(inp) && Timed(Finish(now, inputs), inp)
    ensures var e := Step(lib, Run(lib, New(cfg, now), inputs), inp);
            var t := inp.ticks.sweep;
            && (forall k | k in e.sessions :: k in e.meta && t <= e.meta[k].created + cfg.activeTtl + cfg.cleanupInterval)
            && (forall k | k in e.sessions && e.sessions[k].Terminal() ::
                  && k in e.meta && e.meta[k].terminal.Some?
                  && t <= e.meta[k].terminal.value + cfg.linger + cfg.cleanupInterval)
            && (forall k | k in e.tombstones :: t <= e.tombstones[k] + cfg.tombstoneTtl + cfg.cleanupInterval)
            && (forall k, c | k in e.parked && c in e.parked[k] :: t <= c.at + PARKED_TTL + cfg.cleanupInterval)
  {
    NewTimes(cfg, now);
    RunTimes(lib, New(cfg, now), inputs, cfg, now);
    var f := Run(lib, New(cfg, now), inputs);
    StepTimes(lib, f, inp, cfg, Finish(now, inputs));
    var e, t := Step(lib, f, inp), inp.ticks.sweep;
    hide Run, New, Step, DeliveryInv, Spaced;
    BoundsAt(e, cfg, t);
  }

  lemma BoundsAt(e: Engine, cfg: Config, t: nat)
    requires e.cfg == cfg && Base(e) && AgeInv(e, t) && t <= e.nextCleanup
    ensures forall k | k in e.sessions :: k in e.meta && t <= e.meta[k].created + cfg.activeTtl + cfg.cleanupInterval
    ensures forall k | k in e.sessions && e.sessions[k].Terminal() ::
              && k in e.meta && e.meta[k].terminal.Some?
              && t <= e.meta[k].terminal.value + cfg.linger + cfg.cleanupInterval
    ensures forall k | k in e.tombstones :: t <= e.tombstones[k] + cfg.tombstoneTtl + cfg.cleanupInterval
    ensures forall k, c | k in e.parked && c in e.parked[k] :: t <= c.at + PARKED_TTL + cfg.cleanupInterval
  {
    forall k | k in e.sessions
      ensures k in e.meta && t <= e.meta[k].created + cfg.activeTtl + cfg.cleanupInterval
      ensures e.sessions[k].Terminal() ==>
                e.meta[k].terminal.Some? && t <= e.meta[k].terminal.value + cfg.linger + cfg.cleanupInterval
    {
      assert Live(e, k) && YoungMeta(e, e.meta[k]);
    }
    hide Base;
    forall k, c | k in e.parked && c in e.parked[k]
      ensures t <= c.at + PARKED_TTL + cfg.cleanupInterval
    {
      assert YoungBuffer(e, e.parked[k]);
    }
  }
}
