/** What a drain of an origin session achieves. */
module EngineOrigin {
  import opened Basics
  import opened Havelists
  import opened Coding
  import opened Strategies
  import opened Sessions
  import opened Engines
  import opened EngineSteps
  import opened EngineBase
  import opened EngineRuns
  import opened EngineFacts
  import opened EngineStrategies
  import Planners
  import P = Polling

  /** A session that holds every shard and forwards without a cap. */
  ghost predicate Complete(s: Session) {
    s.strategy.planner.mode.Origin? && |s.strategy.chunks| == s.strategy.planner.n && P.Full(s.strategy)
  }

  /** Every shard is in flight to, or believed held by, every attached peer. */
  ghost predicate AllServed(s: Session) {
    forall p, i: nat | p in s.strategy.attached && i < s.strategy.planner.n ::
      s.strategy.planner.InFlight(p, i) || s.strategy.planner.Has(p, i)
  }

  lemma QuietServes(s: Session)
    requires Complete(s) && Poll(s).1.None? && Poll(s).2 == []
    ensures AllServed(Poll(s).0)
  {
    var r := PollRouting(s.strategy).0;
    P.QuietPollServes(r, Sorted(r.attached));
    PollCore(s);
    assert PollChunks(r).0 == Poll(s).0.strategy;
    hide PollFrom;
  }

  lemma CompleteStays(s: Session, t: Session)
    requires Complete(s) && SameCore(s, t)
    ensures Complete(t)
  {
  }

  lemma RoundComplete(e: Engine, key: Key, ok: Oracle)
    requires key in e.sessions && Complete(e.sessions[key])
    ensures var f := DrainRound(e, key, ok).0; key in f.sessions && Complete(f.sessions[key])
  {
    RoundFrame(e, key, ok);
    hide DrainRound, Deliveries, Complete;
    CompleteStays(e.sessions[key], DrainRound(e, key, ok).0.sessions[key]);
  }

  /** A round that finds no work ends with everyone served. */
  lemma IdleRoundServes(e: Engine, key: Key, ok: Oracle)
    requires key in e.sessions && Complete(e.sessions[key]) && DrainRound(e, key, ok).1 == Some(Idle)
    ensures var f := DrainRound(e, key, ok).0; key in f.sessions && AllServed(f.sessions[key])
  {
    var (s, routing, ds) := Poll(e.sessions[key]);
    hide Poll, Complete, AllServed;
    var e1 := e.(sessions := e.sessions[key := s]);
    if routing.None? && ds == [] {
      QuietServes(e.sessions[key]);
    } else {
      WorkIsNotIdle(e1, key, routing, ds, ok);
      assert false;
    }
  }

  lemma WorkIsNotIdle(e: Engine, key: Key, routing: Option<Havelist>, ds: seq<Dispatch>, ok: Oracle)
    ensures SendWork(e, key, routing, ds, ok).1 != Some(Idle)
  {
    hide SendRouting, SendDispatches;
  }

  /** A drain of an origin that ends for lack of work has every shard in flight to, or held by, every attached peer. */
  lemma {:induction false} DrainServes(e: Engine, key: Key, ok: Oracle)
    requires key in e.sessions && Complete(e.sessions[key]) && Drain(e, key, ok).1.Idle?
    ensures var f := Drain(e, key, ok).0; key in f.sessions && AllServed(f.sessions[key])
    decreases P.Measure(e.sessions[key].strategy)
  {
    var (e1, end) := DrainRound(e, key, ok);
    RoundComplete(e, key, ok);
    if end.None? {
      RoundLowersMeasure(e, key, ok);
      hide DrainRound, Complete, AllServed;
      DrainServes(e1, key, ok);
    } else {
      hide Complete, AllServed;
      IdleRoundServes(e, key, ok);
      hide DrainRound;
    }
  }

  // ---- A transport that accepts everything ----

  ghost predicate Accepting(ok: Oracle) {
    forall i: nat :: ok(i)
  }

  lemma {:induction false} RoutingSucceeds(e: Engine, key: Key, peers: seq<PeerId>, have: Havelist, ok: Oracle)
    requires Accepting(ok)
    ensures SendRouting(e, key, peers, have, ok).1
    decreases |peers|
  {
    if peers != [] {
      var e1 := EnsureOpen(e, key, peers[0], ok).0;
      hide DoOpening, DoNoting;
      RoutingSucceeds(DoNoting(e1, RoutingUpdate(peers[0], key, have), true), key, peers[1..], have, ok);
    }
  }

  lemma {:induction false} DispatchesSucceed(e: Engine, key: Key, ds: seq<Dispatch>, ok: Oracle)
    requires Accepting(ok)
    ensures SendDispatches(e, key, ds, ok).1.Clear?
    decreases |ds|
  {
    if ds != [] {
      var e1 := EnsureOpen(e, key, ds[0].peer, ok).0;
      hide DoOpening, DoChunking;
      DispatchesSucceed(DoChunking(e1, key, ds[0], true), key, ds[1..], ok);
    }
  }

  lemma WorkSucceeds(e: Engine, key: Key, routing: Option<Havelist>, ds: seq<Dispatch>, ok: Oracle)
    requires Accepting(ok)
    ensures SendWork(e, key, routing, ds, ok).1.None?
  {
    var subs := Sorted(e.Subscribers(key.channel));
    var e1 := if routing.Some? then SendRouting(e, key, subs, routing.value, ok).0 else e;
    if routing.Some? { RoutingSucceeds(e, key, subs, routing.value, ok); }
    DispatchesSucceed(e1, key, ds, ok);
    hide SendRouting, SendDispatches;
  }

  lemma {:induction false} AcceptingDrainIsIdle(e: Engine, key: Key, ok: Oracle)
    requires Accepting(ok) && key in e.sessions
    ensures Drain(e, key, ok).1.Idle?
    decreases P.Measure(e.sessions[key].strategy)
  {
    var (s, routing, ds) := Poll(e.sessions[key]);
    var e1 := e.(sessions := e.sessions[key := s]);
    WorkSucceeds(e1, key, routing, ds, ok);
    hide Poll, SendWork;
    if DrainRound(e, key, ok).1.None? {
      RoundLowersMeasure(e, key, ok);
      hide DrainRound;
      AcceptingDrainIsIdle(DrainRound(e, key, ok).0, key, ok);
    }
  }

  // ---- Origins stay complete ----

  /** Every origin session holds every shard and forwards without a cap. */
  ghost predicate OriginsComplete(e: Engine) {
    Base(e) && forall k | k in e.sessions && e.sessions[k].phase.Origin? :: Complete(e.sessions[k])
  }

  /** Whatever happens to an origin session, even an outcome under a wrong peer, it stays complete. */
  lemma ChangedComplete(lib: Lib, s: Session, c: Change)
    requires s.phase.Origin? ==> Complete(s)
    ensures Changed(lib, s, c).phase.Origin? ==> Complete(Changed(lib, s, c))
  {
    hide Reconstruct, Planners.RemovePeer, Planners.RecordSent;
    ChangedPhase(lib, s, c);
    match c
    case Polled =>
      PollCore(s);
      hide Poll;
    case Lost(p) => Planners.RemovePeerRefunds(s.strategy.planner, p, 0);
    case Settled(p, h, ok) => SettledComplete(s, p, h, ok);
    case _ =>
  }

  lemma SettledComplete(s: Session, p: PeerId, h: Handle, ok: bool)
    ensures var t := ChunkSent(s.strategy, p, h, ok);
            && t.chunks == s.strategy.chunks && t.planner.mode == s.strategy.planner.mode
            && t.planner.n == s.strategy.planner.n
  {
  }

  lemma CreatedComplete(lib: Lib, inp: Input, e: Engine, key: Key, s: Session, preamble: Bytes, at: nat)
    requires OriginInput(inp) && NewSession(lib, inp, e, key, s, preamble, at) && s.phase.Origin?
    ensures Complete(s)
  {
    hide RelayStrategy;
  }

  lemma CompleteAfter(lib: Lib, inp: Input, m: Mode, e: Engine, a: Act, k: Key)
    requires OriginsComplete(e) && OriginInput(inp) && Allowed(lib, inp, m, e, a) && k in Do(lib, e, a).sessions
    ensures var s := Do(lib, e, a).sessions[k]; s.phase.Origin? ==> Complete(s)
  {
    hide Complete, Do, Base, OriginInput, RelayStrategy;
    if a.Cleaning? {
      CleaningOf(lib, e, a.at);
      hide ExpiredKeys;
    } else if a.Creating? && a.key == k {
      assert NewSession(lib, inp, e, k, a.session, a.preamble, a.at);
      DoIs(lib, e, a);
      if a.session.phase.Origin? { CreatedComplete(lib, inp, e, k, a.session, a.preamble, a.at); }
    } else if k in e.sessions {
      hide Allowed, Changed;
      SessionsOf(lib, e, a, k);
      ChangedComplete(lib, e.sessions[k], ChangeOf(e, a, k));
    } else {
      KeysOf(lib, e, a, k);
    }
  }

  lemma StepComplete(lib: Lib, e: Engine, inp: Input)
    requires OriginsComplete(e) && OriginInput(inp)
    ensures OriginsComplete(Step(lib, e, inp))
  {
    hide Base, Complete, Do, Allowed, Step, Fresh, P.Full;
    assert GoodInput(inp);
    var I := (e: Engine) => OriginsComplete(e);
    forall e: Engine, a: Act | I(e) && Allowed(lib, inp, PLAIN, e, a)
      ensures I(Do(lib, e, a))
    {
      BaseKept(lib, inp, PLAIN, e, a);
      forall k | k in Do(lib, e, a).sessions && Do(lib, e, a).sessions[k].phase.Origin?
        ensures Complete(Do(lib, e, a).sessions[k])
      {
        CompleteAfter(lib, inp, PLAIN, e, a, k);
      }
    }
    assert Preserved(lib, inp, PLAIN, I);
    hide Preserved, OriginsComplete;
    StepKeeps(lib, inp, PLAIN, I, e);
  }

  /** Published strategies are origins as their constructor makes them; nothing is assumed of the other inputs. */
  ghost predicate OriginInputs(inputs: seq<Input>) {
    forall i | 0 <= i < |inputs| :: OriginInput(inputs[i])
  }

  lemma {:induction false} RunComplete(lib: Lib, e: Engine, inputs: seq<Input>)
    requires OriginsComplete(e) && OriginInputs(inputs)
    ensures OriginsComplete(Run(lib, e, inputs))
    decreases |inputs|
  {
    hide OriginsComplete, Step, OriginInput;
    if inputs != [] {
      StepComplete(lib, e, inputs[0]);
      RunComplete(lib, Step(lib, e, inputs[0]), inputs[1..]);
    }
  }

  /**
   * Origin drain completeness in every reachable state, whatever outcomes were reported for which peers: a drain of an
   * origin session that ends for lack of work has served every attached peer, and with a transport that accepts every
   * send it always ends that way.
   */
  lemma OriginDrainServes(lib: Lib, cfg: Config, now: nat, inputs: seq<Input>, key: Key, ok: Oracle)
    requires OriginInputs(inputs)
    requires var e := Run(lib, New(cfg, now), inputs); key in e.sessions && e.sessions[key].phase.Origin?
    ensures var (f, end) := Drain(Run(lib, New(cfg, now), inputs), key, ok);
            && (end.Idle? ==> key in f.sessions && AllServed(f.sessions[key]))
            && (Accepting(ok) ==> end.Idle?)
  {
    NewBase(cfg, now);
    RunComplete(lib, New(cfg, now), inputs);
    var e := Run(lib, New(cfg, now), inputs);
    hide Run, New, Base, OriginInputs, Drain, Complete, AllServed, Accepting;
    if Drain(e, key, ok).1.Idle? { DrainServes(e, key, ok); }
    if Accepting(ok) { AcceptingDrainIsIdle(e, key, ok); }
  }
}
