/** Between steps no session is decoding, and no live relay session has parked chunks. */
module EngineRest {
  import opened Basics
  import opened Coding
  import opened Strategies
  import opened Sessions
  import opened Engines
  import opened EngineSteps
  import opened EngineBase
  import opened EngineRuns
  import opened EngineFacts

  ghost predicate RestAt(e: Engine, k: Key) {
    k in e.sessions ==> !e.sessions[k].phase.Decoding? && (k in e.parked ==> e.sessions[k].phase.Origin?)
  }

  ghost predicate Resting(e: Engine) {
    forall k: Key :: RestAt(e, k)
  }

  /** The session a step may leave its resting state for. */
  ghost function Target(inp: Input): Option<Key> {
    if inp.Net? && (inp.event.ChunkIn? || inp.event.SessionOpenIn?) then Some(inp.event.key) else None
  }

  ghost predicate OthersRest(e: Engine, x: Option<Key>) {
    Base(e) && forall k: Key | Some(k) != x :: RestAt(e, k)
  }

  lemma ParkedKeysOf(lib: Lib, e: Engine, a: Act, k: Key)
    requires a.Parking? ==> a.key != k
    ensures k in Do(lib, e, a).parked ==> k in e.parked
  {
    hide Do, ExpiredKeys, Unexpired;
    if a.Parking? || a.Unparking? || a.Cleaning? {
      DoIs(lib, e, a);
    } else {
      ParkedOf(lib, e, a);
    }
  }

  lemma RestKept(lib: Lib, inp: Input, m: Mode, e: Engine, a: Act, k: Key)
    requires Allowed(lib, inp, m, e, a) && RestAt(e, k) && Some(k) != Target(inp)
    ensures RestAt(Do(lib, e, a), k)
  {
    hide Do, Ready, Engine.Opened, RelayStrategy;
    if k !in e.sessions {
      if !(a.Creating? && a.key == k) {
        KeysOf(lib, e, a, k);
      } else {
        DoIs(lib, e, a);
      }
    } else if a.Cleaning? {
      CleaningOf(lib, e, a.at);
      ParkedKeysOf(lib, e, a, k);
    } else {
      SessionsOf(lib, e, a, k);
      PhasesOf(lib, e, a, k);
      ParkedKeysOf(lib, e, a, k);
      hide SessionOf;
    }
  }

  lemma RestPreserved(lib: Lib, inp: Input)
    requires GoodInput(inp)
    ensures Preserved(lib, inp, PLAIN, e => OthersRest(e, Target(inp)))
  {
    hide Base, Do, Allowed, GoodInput, RestAt, Target;
    forall e: Engine, a: Act | OthersRest(e, Target(inp)) && Allowed(lib, inp, PLAIN, e, a)
      ensures OthersRest(Do(lib, e, a), Target(inp))
    {
      BaseKept(lib, inp, PLAIN, e, a);
      forall k: Key | Some(k) != Target(inp)
        ensures RestAt(Do(lib, e, a), k)
      {
        RestKept(lib, inp, PLAIN, e, a, k);
      }
    }
  }

  // ---- The session a chunk or open is for ----

  /** The two phases of a relay session before its delivery. */
  ghost predicate Gathering(e: Engine, key: Key) {
    key in e.sessions && (e.sessions[key].phase.Consuming? || e.sessions[key].phase.Decoding?) && Hungry(e.sessions[key])
  }

  lemma TakingRest(lib: Lib, e: Engine, key: Key, idx: nat, data: Bytes)
    requires Gathering(e, key)
    ensures var f := DoTaking(lib, e, key, idx, data);
            && Gathering(f, key) && f.parked == e.parked
            && (f.sessions[key].phase.Decoding? <==>
                  e.sessions[key].phase.Decoding? || Completes(lib, e, key, idx, data))
  {
    hide Take, Hungry;
    TakeCompletes(lib, e.sessions[key], idx, data);
    TakePhases(lib, e.sessions[key], idx, data);
  }

  lemma TakePhases(lib: Lib, s: Session, idx: nat, data: Bytes)
    requires s.phase.Consuming? || s.phase.Decoding?
    ensures var (t, r) := Take(lib, s, idx, data);
            && (t.phase.Consuming? || t.phase.Decoding?) && (s.phase.Decoding? ==> t.phase.Decoding?)
            && (t.phase.Decoding? ==> s.phase.Decoding? || (r.Ok? && r.value.complete))
  {
    hide TakeChunk;
  }

  lemma {:induction false} TakeAllRest(lib: Lib, e: Engine, key: Key, chunks: seq<ParkedChunk>)
    requires Gathering(e, key)
    ensures var (f, complete) := TakeAll(lib, e, key, chunks);
            && Gathering(f, key) && f.parked == e.parked
            && (f.sessions[key].phase.Decoding? <==> e.sessions[key].phase.Decoding? || complete)
    decreases |chunks|
  {
    if chunks != [] {
      TakingRest(lib, e, key, chunks[0].idx, chunks[0].data);
      hide DoTaking, Completes, Hungry;
      TakeAllRest(lib, DoTaking(lib, e, key, chunks[0].idx, chunks[0].data), key, chunks[1..]);
    }
  }

  /** A drain changes neither the phase nor what is parked. */
  lemma DrainRests(e: Engine, key: Key, ok: Oracle)
    ensures var f := Drain(e, key, ok).0;
            && f.parked == e.parked && f.sessions.Keys == e.sessions.Keys
            && (key in e.sessions ==> SameCore(e.sessions[key], f.sessions[key]))
  {
    DrainFrame(e, key, ok);
    hide Drain, Deliveries, SameCore;
  }

  lemma DeliverRest(lib: Lib, e: Engine, key: Key, at: nat, ok: Oracle)
    requires key in e.sessions && e.sessions[key].phase.Decoding?
    ensures var f := Deliver(lib, e, key, at, ok);
            key in f.sessions && f.sessions[key].Terminal() && f.parked == e.parked
  {
    hide DecodeAndFinish, DoFinishing;
    FinishEnds(lib, e.sessions[key]);
    FinishingKeeps(lib, e, key, at);
  }

  lemma FinishingKeeps(lib: Lib, e: Engine, key: Key, at: nat)
    requires key in e.sessions
    ensures var f := DoFinishing(lib, e, key, at);
            key in f.sessions && f.sessions[key] == DecodeAndFinish(lib, e.sessions[key]).0 && f.parked == e.parked
  {
    hide DecodeAndFinish;
  }

  lemma ReplayRest(lib: Lib, e: Engine, key: Key, at: nat, ok: Oracle)
    requires key in e.sessions && e.sessions[key].phase.Consuming? && Hungry(e.sessions[key])
    ensures RestAt(Replay(lib, e, key, at, ok), key)
  {
    if key in e.parked {
      var e0 := DoUnparking(e, key);
      hide Hungry;
      TakeAllRest(lib, e0, key, e.parked[key]);
      var (e1, complete) := TakeAll(lib, e0, key, e.parked[key]);
      DrainRests(e1, key, ok);
      var e2 := Drain(e1, key, ok).0;
      hide Drain, TakeAll, Deliver;
      if complete {
        DeliverRest(lib, e2, key, at, ok);
      }
    }
  }

  lemma OnOpenRest(lib: Lib, e: Engine, key: Key, preamble: Bytes, t: Ticks, ok: Oracle, fib: nat -> nat)
    requires RestAt(e, key)
    ensures RestAt(OnOpen(lib, e, key, preamble, t, ok, fib), key)
  {
    hide RelayStrategy;
    if key !in e.tombstones && key !in e.sessions {
      var s := RelayStrategy(lib, e, key, preamble, fib);
      if s.Some? {
        RelayEmpty(lib, e, key, preamble, fib);
        var e1 := DoCreating(e, key, Session(Consuming, s.value), preamble, t.first);
        hide Replay, Drain;
        DrainRests(e1, key, ok);
        ReplayRest(lib, Drain(e1, key, ok).0, key, t.second, ok);
      }
    }
  }

  lemma RelayEmpty(lib: Lib, e: Engine, key: Key, preamble: Bytes, fib: nat -> nat)
    requires RelayStrategy(lib, e, key, preamble, fib).Some?
    ensures RelayStrategy(lib, e, key, preamble, fib).value.Accepted() == 0
  {
    NoneCounted(lib.parse(preamble).value.Total());
  }

  lemma OnChunkRest(lib: Lib, e: Engine, key: Key, idx: nat, data: Bytes, t: Ticks, ok: Oracle)
    requires Base(e) && RestAt(e, key)
    ensures RestAt(OnChunk(lib, e, key, idx, data, t, ok), key)
  {
    if key !in e.tombstones && key in e.sessions {
      HungryAt(e, key);
      hide Base, Hungry;
      var e1 := DoTaking(lib, e, key, idx, data);
      DrainRests(e1, key, ok);
      if e.sessions[key].phase.Consuming? {
        TakingRest(lib, e, key, idx, data);
        hide Drain, DoTaking, Completes, Deliver;
        if Completes(lib, e, key, idx, data) {
          DeliverRest(lib, Drain(e1, key, ok).0, key, t.second, ok);
        }
      } else {
        hide Drain, Deliver;
      }
    }
  }

  lemma HandleEventRests(lib: Lib, inp: Input, e: Engine)
    requires inp.Net? && Base(e) && Resting(e) && GoodInput(inp)
    ensures Resting(HandleEvent(lib, e, inp.event, inp.ticks, inp.ok, inp.fib))
  {
    hide Base, RestAt, Preserved, HandleEvent, GoodInput;
    var I := (e: Engine) => OthersRest(e, Target(inp));
    var f := HandleEvent(lib, e, inp.event, inp.ticks, inp.ok, inp.fib);
    RestPreserved(lib, inp);
    assert Runs(lib, inp, PLAIN, I, e);
    HandleEventKeeps(lib, inp, PLAIN, I, e);
    assert OthersRest(f, Target(inp));
    if Target(inp).Some? { TargetRests(lib, inp, e); }
  }

  lemma TargetRests(lib: Lib, inp: Input, e: Engine)
    requires inp.Net? && Base(e) && Target(inp).Some? && RestAt(e, Target(inp).value)
    ensures RestAt(HandleEvent(lib, e, inp.event, inp.ticks, inp.ok, inp.fib), Target(inp).value)
  {
    hide Base, RestAt, OnOpen, OnChunk;
    var ev := inp.event;
    if ev.SessionOpenIn? {
      OnOpenRest(lib, e, ev.key, ev.preamble, inp.ticks, inp.ok, inp.fib);
    } else {
      OnChunkRest(lib, e, ev.key, ev.idx, ev.data, inp.ticks, inp.ok);
    }
  }

  lemma CleanedRest(e: Engine, now: nat, k: Key)
    requires RestAt(e, k)
    ensures RestAt(DoCleaning(e, now), k)
  {
    hide ExpiredKeys, Unexpired;
  }

  lemma CleanupRests(e: Engine, now: nat)
    requires Resting(e)
    ensures Resting(Cleanup(e, now))
  {
    hide DoCleaning, RestAt;
    forall k: Key
      ensures RestAt(Cleanup(e, now), k)
    {
      CleanedRest(e, now, k);
    }
  }

  lemma StepRests(lib: Lib, e: Engine, inp: Input)
    requires Base(e) && Resting(e) && GoodInput(inp)
    ensures Resting(Step(lib, e, inp))
  {
    hide Base, RestAt, Cleanup, HandleEvent, Publish, SubscribeTo, Register;
    if inp.Net? {
      HandleEventRests(lib, inp, e);
      CleanupRests(HandleEvent(lib, e, inp.event, inp.ticks, inp.ok, inp.fib), inp.ticks.sweep);
    } else {
      RestPreserved(lib, inp);
      hide Preserved;
      StepKeeps(lib, inp, PLAIN, e => OthersRest(e, Target(inp)), e);
      assert OthersRest(Step(lib, e, inp), Target(inp));
    }
  }

  lemma {:induction false} RunRests(lib: Lib, e: Engine, inputs: seq<Input>)
    requires Base(e) && Resting(e) && GoodInputs(inputs)
    ensures Resting(Run(lib, e, inputs))
    decreases |inputs|
  {
    hide Base, Resting, Step, GoodInput;
    if inputs != [] {
      StepBase(lib, e, inputs[0]);
      StepRests(lib, e, inputs[0]);
      RunRests(lib, Step(lib, e, inputs[0]), inputs[1..]);
    }
  }

  /**
   * In every reachable state no session is decoding, and a key with parked chunks or a tombstone has no live relay
   * session.
   */
  lemma RelaysRest(lib: Lib, cfg: Config, now: nat, inputs: seq<Input>, k: Key)
    requires GoodInputs(inputs) && k in Run(lib, New(cfg, now), inputs).sessions
    ensures var e := Run(lib, New(cfg, now), inputs);
            && !e.sessions[k].phase.Decoding?
            && (k in e.parked || k in e.tombstones ==> e.sessions[k].phase.Origin?)
  {
    NewBase(cfg, now);
    RunBase(lib, New(cfg, now), inputs);
    RunRests(lib, New(cfg, now), inputs);
    var e := Run(lib, New(cfg, now), inputs);
    hide Run;
    assert RestAt(e, k) && Live(e, k);
  }
}
