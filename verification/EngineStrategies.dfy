/** The strategy invariant for every session of every reachable engine. */
module EngineStrategies {
  import opened Basics
  import opened Coding
  import opened Strategies
  import opened Sessions
  import opened Engines
  import opened EngineSteps
  import opened EngineBase
  import opened EngineRuns
  import opened EngineFacts
  import P = Polling
  import Planners

  /** The strategy invariant holds; origin sessions hold every shard and have no cap, relays have one. */
  ghost predicate Sound(s: Session) {
    && Inv(s.strategy)
    && (s.phase.Origin? <==> s.strategy.planner.mode.Origin?)
    && (s.phase.Origin? ==> P.Full(s.strategy))
  }

  ghost predicate AllSound(e: Engine) {
    Base(e) && forall k | k in e.sessions :: Sound(e.sessions[k])
  }

  /** A publisher supplies the strategy `NewOrigin` builds. */
  ghost predicate OriginInput(inp: Input) {
    inp.Publishing? ==> Fresh(inp.strategy) && inp.strategy.planner.mode.Origin? && P.Full(inp.strategy)
  }

  ghost const ECHO := Mode(true, true, false)

  // ---- Session operations ----

  lemma PollSound(s: Session)
    requires Sound(s)
    ensures Sound(Poll(s).0)
  {
    PollRoutingInv(s.strategy);
    PollCore(s);
    hide Inv, PollChunks;
    PollChunksInv(PollRouting(s.strategy).0);
  }

  lemma TakeSound(lib: Lib, s: Session, idx: nat, data: Bytes)
    requires Sound(s)
    ensures Sound(Take(lib, s, idx, data).0)
  {
    TakeChunkInv(lib, s.strategy, idx, data);
    hide Inv;
  }

  lemma FinishSound(lib: Lib, s: Session)
    requires Sound(s)
    ensures Sound(DecodeAndFinish(lib, s).0)
  {
    hide Inv, Reconstruct;
  }

  lemma AttachSound(s: Session, p: PeerId)
    requires Sound(s)
    ensures Sound(s.(strategy := AttachPeer(s.strategy, p)))
  {
    AttachPeerInv(s.strategy, p);
    hide Inv;
  }

  lemma DetachSound(s: Session, p: PeerId)
    requires Sound(s)
    ensures Sound(Detached(s, p))
  {
    DetachPeerInv(s.strategy, p);
    Planners.RemovePeerRefunds(s.strategy.planner, p, 0);
    hide Inv, Planners.RemovePeer;
  }

  /** The outcome an update settles names the peer of the flight. */
  ghost predicate Names(s: Session, p: PeerId, h: Handle) {
    h in s.strategy.inFlight ==> s.strategy.inFlight[h].peer == p
  }

  lemma SettleSound(s: Session, p: PeerId, h: Handle, ok: bool)
    requires Sound(s) && Names(s, p, h)
    ensures Sound(s.(strategy := ChunkSent(s.strategy, p, h, ok)))
  {
    ChunkSentInv(s.strategy, p, h, ok);
    hide Inv;
  }

  // ---- Updates ----

  lemma EchoedPeer(lib: Lib, inp: Input, m: Mode, e: Engine, key: Key, p: PeerId, token: Handle, ok: bool)
    requires Base(e) && m.echo && Allowed(lib, inp, m, e, Resolving(key, p, token, ok))
    ensures key in e.sessions
    ensures var s := e.sessions[key].strategy; token in s.inFlight ==> s.inFlight[token].peer == p
  {
    assert Honest(e, Ticket(key, token));
  }

  lemma SettledPeer(lib: Lib, inp: Input, m: Mode, e: Engine, a: Act)
    requires Base(e) && m.echo && Allowed(lib, inp, m, e, a) && (a.Chunking? || a.Resolving?)
    ensures a.key in e.sessions
    ensures a.Chunking? ==> Names(e.sessions[a.key], a.d.peer, a.d.handle)
    ensures a.Resolving? ==> Names(e.sessions[a.key], a.peer, a.token)
  {
    if a.Resolving? {
      EchoedPeer(lib, inp, m, e, a.key, a.peer, a.token, a.ok);
    }
    hide Base;
  }

  lemma ChangedSound(lib: Lib, s: Session, c: Change)
    requires Sound(s) && (c.Settled? ==> Names(s, c.p, c.h))
    ensures Sound(Changed(lib, s, c))
  {
    hide Sound, DecodeAndFinish, Poll, Take, ChunkSent, Detached, AttachPeer, Names;
    match c
    case Same =>
    case Settled(p, h, ok) => SettleSound(s, p, h, ok);
    case Polled => PollSound(s);
    case Fed(idx, data) => TakeSound(lib, s, idx, data);
    case Ended => FinishSound(lib, s);
    case Gained(p) => AttachSound(s, p);
    case Lost(p) => DetachSound(s, p);
  }

  lemma SoundKept(lib: Lib, inp: Input, m: Mode, e: Engine, a: Act, k: Key)
    requires Base(e) && m.echo && Allowed(lib, inp, m, e, a)
    requires k in e.sessions && Sound(e.sessions[k])
    ensures Sound(SessionOf(lib, e, a, k))
  {
    hide Base, Sound, Allowed, Names, Changed;
    if a.Chunking? || a.Resolving? {
      SettledPeer(lib, inp, m, e, a);
    }
    ChangedSound(lib, e.sessions[k], ChangeOf(e, a, k));
  }

  lemma AttachAllInv(s: Strategy, peers: set<PeerId>)
    requires Inv(s)
    ensures Inv(AttachAll(s, peers))
  {
    var t := AttachAll(s, peers);
    assert forall i: nat :: t.Burned(i) == s.Burned(i);
  }

  lemma NewSound(lib: Lib, inp: Input, e: Engine, key: Key, s: Session, preamble: Bytes, at: nat)
    requires OriginInput(inp) && NewSession(lib, inp, e, key, s, preamble, at)
    ensures Sound(s)
  {
    NewSessionFresh(lib, inp, e, key, s, preamble, at);
    var t := s.strategy.(attached := {});
    FreshInv(t);
    assert s.strategy == AttachAll(t, s.strategy.attached);
    AttachAllInv(t, s.strategy.attached);
    hide Inv, Fresh;
  }

  lemma AllSoundKept(lib: Lib, inp: Input, m: Mode, e: Engine, a: Act)
    requires AllSound(e) && OriginInput(inp) && m.echo && Allowed(lib, inp, m, e, a)
    ensures AllSound(Do(lib, e, a))
  {
    hide Sound, Do, Ready, Base, NewSession;
    assert GoodInput(inp);
    BaseKept(lib, inp, m, e, a);
    forall k | k in Do(lib, e, a).sessions
      ensures Sound(Do(lib, e, a).sessions[k])
    {
      SoundAfter(lib, inp, m, e, a, k);
    }
  }

  lemma SoundAfter(lib: Lib, inp: Input, m: Mode, e: Engine, a: Act, k: Key)
    requires AllSound(e) && OriginInput(inp) && m.echo && Allowed(lib, inp, m, e, a) && k in Do(lib, e, a).sessions
    ensures Sound(Do(lib, e, a).sessions[k])
  {
    hide Sound, Do, Base, OriginInput, RelayStrategy;
    if a.Cleaning? {
      CleaningOf(lib, e, a.at);
      hide ExpiredKeys;
    } else if a.Creating? && a.key == k {
      assert NewSession(lib, inp, e, k, a.session, a.preamble, a.at);
      NewSound(lib, inp, e, k, a.session, a.preamble, a.at);
      DoIs(lib, e, a);
    } else if k in e.sessions {
      hide Allowed, SessionOf;
      SessionsOf(lib, e, a, k);
      SoundKept(lib, inp, m, e, a, k);
    } else {
      KeysOf(lib, e, a, k);
    }
  }

  // ---- Steps and runs ----

  lemma StepSound(lib: Lib, e: Engine, inp: Input)
    requires AllSound(e) && OriginInput(inp) && Echo(e, inp)
    ensures AllSound(Step(lib, e, inp))
  {
    hide Base, Sound, Do, Allowed, OriginInput, Step, Echo;
    var I := (e: Engine) => AllSound(e);
    forall e: Engine, a: Act | I(e) && Allowed(lib, inp, ECHO, e, a)
      ensures I(Do(lib, e, a))
    {
      AllSoundKept(lib, inp, ECHO, e, a);
    }
    assert Preserved(lib, inp, ECHO, I);
    hide Preserved, AllSound;
    StepKeeps(lib, inp, ECHO, I, e);
  }

  /** Published strategies are origins and every send outcome names the peer the send went to. */
  ghost predicate HonestRun(lib: Lib, e: Engine, inputs: seq<Input>)
    decreases |inputs|
  {
    inputs == [] ||
    (OriginInput(inputs[0]) && Echo(e, inputs[0]) && HonestRun(lib, Step(lib, e, inputs[0]), inputs[1..]))
  }

  lemma {:induction false} RunSound(lib: Lib, e: Engine, inputs: seq<Input>)
    requires AllSound(e) && HonestRun(lib, e, inputs)
    ensures AllSound(Run(lib, e, inputs))
    decreases |inputs|
  {
    hide AllSound, Step, OriginInput, Echo;
    if inputs != [] {
      StepSound(lib, e, inputs[0]);
      RunSound(lib, Step(lib, e, inputs[0]), inputs[1..]);
    }
  }

  /**
   * In every session of every reachable engine: handles and planner pairs correspond one to one, every shard's
   * allocations are its sends, its flights and its burned allocations, and a relay stays within its cap.
   */
  lemma SessionsConserveBudget(lib: Lib, cfg: Config, now: nat, inputs: seq<Input>, k: Key, i: nat)
    requires HonestRun(lib, New(cfg, now), inputs) && k in Run(lib, New(cfg, now), inputs).sessions
    ensures var s := Run(lib, New(cfg, now), inputs).sessions[k].strategy;
            && Matched(s)
            && s.planner.Alloc(i) == s.planner.Sent(i) + |Carriers(s.planner, i)| + s.Burned(i)
            && (s.planner.mode.Relay? ==> s.planner.Sent(i) <= s.planner.Alloc(i) <= s.planner.mode.cap)
  {
    NewBase(cfg, now);
    RunSound(lib, New(cfg, now), inputs);
    var e := Run(lib, New(cfg, now), inputs);
    hide Run, New, Base, HonestRun;
    BudgetOf(e.sessions[k], i);
  }

  lemma BudgetOf(session: Session, i: nat)
    requires Sound(session)
    ensures var s := session.strategy;
            && Matched(s)
            && s.planner.Alloc(i) == s.planner.Sent(i) + |Carriers(s.planner, i)| + s.Burned(i)
            && (s.planner.mode.Relay? ==> s.planner.Sent(i) <= s.planner.Alloc(i) <= s.planner.mode.cap)
  {
    assert Balanced(session.strategy) && Capped(session.strategy);
  }
}
