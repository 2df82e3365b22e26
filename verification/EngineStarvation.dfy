/** A relay that spends its whole forward budget on shards it does not hold, as a run of an engine. */
module EngineStarvation {
  import opened Basics
  import opened Coding
  import opened Strategies
  import opened Sessions
  import opened Engines
  import opened EngineSteps
  import opened EngineBase
  import opened EngineRuns
  import opened EngineFacts
  import opened EngineResults
  import opened OneSubscriber
  import opened EnginePublication
  import R = StrategyRuns
  import P = Planners

  // ---- Once exhausted, nothing is forwarded ----

  lemma ChangedExhausted(lib: Lib, s: Session, c: Change)
    requires R.Exhausted(s.strategy)
    ensures R.Exhausted(Changed(lib, s, c).strategy)
  {
    hide R.Exhausted, ChunkSent, PollChunks, PollRouting, TakeChunk, AttachPeer, DetachPeer, Reconstruct;
    match c
    case Same =>
    case Settled(p, h, ok) => R.ExhaustedSticks(lib, s.strategy, R.Settle(p, h, ok));
    case Polled => R.ExhaustedSticks(lib, s.strategy, R.Poll);
    case Fed(idx, data) => R.ExhaustedSticks(lib, s.strategy, R.Take(idx, data));
    case Ended =>
    case Gained(p) => R.ExhaustedSticks(lib, s.strategy, R.Attach(p));
    case Lost(p) => R.ExhaustedSticks(lib, s.strategy, R.Detach(p));
  }

  ghost predicate Starved(e: Engine, k: Key) {
    k in e.sessions && R.Exhausted(e.sessions[k].strategy)
  }

  ghost predicate IsChunkOf(x: Event, k: Key) {
    x.Sent? && x.msg.Chunk? && x.msg.key == k
  }

  ghost predicate Silent(log: seq<Event>, n: nat, k: Key) {
    forall i | n <= i < |log| :: !IsChunkOf(log[i], k)
  }

  /** Until the session is disposed it stays starved and no chunk of it was handed to the transport since `n`. */
  ghost predicate StarvedInv(e: Engine, n: nat, k: Key) {
    Base(e) && n <= |e.log| && (EndedSince(e.log, n, k) || (Starved(e, k) && Silent(e.log, n, k)))
  }

  lemma StarvedAtKept(lib: Lib, inp: Input, m: Mode, e: Engine, a: Act, k: Key)
    requires Allowed(lib, inp, m, e, a) && Starved(e, k) && (a.Cleaning? ==> k !in ExpiredKeys(e, a.at))
    ensures Starved(Do(lib, e, a), k)
    ensures EventOf(lib, e, a).Some? ==> !IsChunkOf(EventOf(lib, e, a).value, k)
  {
    hide Do, ExpiredKeys, R.Exhausted, Changed, ChangeOf;
    NoChunkWhenStarved(lib, inp, m, e, a, k);
    hide Allowed, EventOf;
    if a.Cleaning? {
      CleaningOf(lib, e, a.at);
    } else {
      SessionsOf(lib, e, a, k);
      ChangedExhausted(lib, e.sessions[k], ChangeOf(e, a, k));
    }
  }

  /** Nothing of a starved session is in flight, so no update sends a chunk of it. */
  lemma NoChunkWhenStarved(lib: Lib, inp: Input, m: Mode, e: Engine, a: Act, k: Key)
    requires Allowed(lib, inp, m, e, a) && Starved(e, k)
    ensures a.Creating? ==> a.key != k
    ensures EventOf(lib, e, a).Some? ==> !IsChunkOf(EventOf(lib, e, a).value, k)
  {
    assert e.sessions[k].strategy.inFlight == map[];
    hide ExpiredKeys, RelayStrategy, DecodeAndFinish, Engine.Opened, Engine.Preamble, R.Exhausted;
  }

  lemma StarvedKept(lib: Lib, inp: Input, m: Mode, e: Engine, a: Act, n: nat, k: Key)
    requires StarvedInv(e, n, k) && GoodInput(inp) && Allowed(lib, inp, m, e, a)
    ensures StarvedInv(Do(lib, e, a), n, k)
  {
    hide Base, Do, Allowed, GoodInput, EndedSince, Starved, ExpiredKeys, IsChunkOf;
    var x := EventOf(lib, e, a);
    assert a.Cleaning? ==> x == Some(Disposed(ExpiredKeys(e, a.at), a.at));
    hide EventOf;
    BaseKept(lib, inp, m, e, a);
    LogOf(lib, e, a);
    if x.Some? { EndedAppend(e.log, x.value, n, k); }
    if !EndedSince(e.log, n, k) && !(a.Cleaning? && k in ExpiredKeys(e, a.at)) {
      StarvedAtKept(lib, inp, m, e, a, k);
    }
  }

  /** In any run from a starved session, no chunk of it is handed to the transport until it is disposed. */
  lemma StarvedNeverForwards(lib: Lib, e: Engine, inputs: seq<Input>, k: Key)
    requires Base(e) && GoodInputs(inputs) && Starved(e, k)
    requires !EndedSince(Run(lib, e, inputs).log, |e.log|, k)
    ensures Starved(Run(lib, e, inputs), k) && Silent(Run(lib, e, inputs).log, |e.log|, k)
  {
    var n := |e.log|;
    hide Base, Do, Allowed, GoodInput, GoodInputs, Run, EndedSince, Starved;
    var I := (x: Engine) => StarvedInv(x, n, k);
    forall inp: Input, x: Engine, a: Act | GoodInput(inp) && I(x) && Allowed(lib, inp, PLAIN, x, a)
      ensures I(Do(lib, x, a))
    {
      StarvedKept(lib, inp, PLAIN, x, a, n, k);
    }
    assert I(e);
    assert Kept(lib, PLAIN, I);
    hide Kept;
    RunKeeps(lib, PLAIN, I, e, inputs);
    assert StarvedInv(Run(lib, e, inputs), n, k);
  }

  // ---- A run that starves ----

  /**
   * A relay with one subscriber that has nothing new to announce: after `polls` polls it has burned exactly that many
   * allocations for shards it does not hold, or all there are.
   */
  ghost predicate Wasted(s: Strategy, p: PeerId, polls: nat) {
    && s.planner.mode.Relay? && s.attached == {p} && s.Accepted() == s.lastCount
    && if polls < s.planner.n * s.planner.mode.cap then R.Wasting(s, polls) else R.Exhausted(s)
  }

  lemma WastedStart(s: Strategy, p: PeerId)
    requires Fresh(s) && s.planner.mode.Relay? && forall i | 0 <= i < |s.chunks| :: s.chunks[i].None?
    ensures Wasted(AttachAll(s, {p}), p, 0)
  {
    var t := AttachAll(s, {p});
    R.ZeroSum(t.planner, t.planner.n);
    NoneAccepted(t.chunks);
    assert R.Wasting(t, 0);
    WastedFrom(t, p, 0);
  }

  lemma {:induction false} NoneAccepted(slots: seq<Option<Bytes>>)
    requires forall i | 0 <= i < |slots| :: slots[i].None?
    ensures CountSome(slots) == 0
  {
    if slots != [] { NoneAccepted(slots[1..]); }
  }

  /** A wasting relay that has burned everything is exhausted. */
  lemma WastedFrom(s: Strategy, p: PeerId, polls: nat)
    requires R.Wasting(s, polls) && s.attached == {p} && s.Accepted() == s.lastCount
    requires polls <= s.planner.n * s.planner.mode.cap
    ensures Wasted(s, p, polls)
  {
    if polls == s.planner.n * s.planner.mode.cap {
      R.FullSum(s.planner, s.planner.mode.cap, s.planner.n);
    }
  }

  lemma OnePeerPoll(s: Strategy, p: PeerId)
    requires s.attached == {p} && s.Accepted() == s.lastCount
    ensures PollRouting(s) == (s, None)
    ensures PollChunks(s) == (PollPeer(s, p).0, if PollPeer(s, p).1.Some? then [PollPeer(s, p).1.value] else [])
  {
    OnePeerPolled(s, p);
    hide PollChunks, PollPeer;
  }

  /** One more poll burns one more allocation and sends nothing. */
  lemma WastedPoll(x: Session, p: PeerId, polls: nat)
    requires Wasted(x.strategy, p, polls)
    ensures var (y, routing, ds) := Poll(x);
            && routing == None && ds == [] && y.phase == x.phase && Wasted(y.strategy, p, polls + 1)
            && SameContent(x.strategy, y.strategy)
  {
    var s := x.strategy;
    OnePeerPoll(s, p);
    OnePollContent(s, p);
    if polls >= s.planner.n * s.planner.mode.cap {
      R.ExhaustedPoll(s, Sorted(s.attached));
      hide PollFrom, R.Exhausted;
    } else {
      R.WastingPoll(s, p, polls);
      NoneHeld(s, p);
      hide PollPeer, R.Wasting, R.Exhausted;
      WastedFrom(PollPeer(s, p).0, p, polls + 1);
    }
  }

  lemma OnePollContent(s: Strategy, p: PeerId)
    ensures SameContent(s, PollPeer(s, p).0)
  {
  }

  lemma NoneHeld(s: Strategy, p: PeerId)
    requires forall i | 0 <= i < |s.chunks| :: s.chunks[i].None?
    ensures PollPeer(s, p).1.None?
  {
  }

  lemma WastedDrain(e: Engine, key: Key, p: PeerId, polls: nat, ok: Oracle)
    requires key in e.sessions && Wasted(e.sessions[key].strategy, p, polls)
    ensures var f := Drain(e, key, ok).0;
            && f.parked == e.parked && f.tombstones == e.tombstones && f.nextCleanup == e.nextCleanup
            && key in f.sessions && f.sessions[key].phase == e.sessions[key].phase
            && Wasted(f.sessions[key].strategy, p, polls + 1)
            && |f.sessions[key].strategy.chunks| == |e.sessions[key].strategy.chunks|
            && f.sessions[key].strategy.planner.n == e.sessions[key].strategy.planner.n
            && f.sessions[key].strategy.planner.mode == e.sessions[key].strategy.planner.mode
  {
    hide Poll, Wasted, SendWork;
    WastedPoll(e.sessions[key], p, polls);
    assert DrainRound(e, key, ok).1 == Some(Idle);
  }

  /** A live relay session of `n` shards and this cap with one subscriber, wasting. */
  ghost predicate Wasteful(e: Engine, key: Key, p: PeerId, polls: nat, n: nat, cap: nat) {
    && key in e.sessions && key !in e.tombstones && e.sessions[key].phase.Consuming?
    && Wasted(e.sessions[key].strategy, p, polls)
    && |e.sessions[key].strategy.chunks| == n && e.sessions[key].strategy.planner.n == n
    && e.sessions[key].strategy.planner.mode == P.Relay(cap)
  }

  /** A chunk with an index out of range, at a time before the next sweep. */
  function BadChunk(key: Key, q: PeerId, n: nat, now: nat, fib: nat -> nat): Input {
    Net(ChunkIn(q, key, n, []), At(now), Yes, fib)
  }

  lemma BadTake(lib: Lib, s: Session, n: nat)
    requires s.phase.Consuming? && |s.strategy.chunks| == n
    ensures Take(lib, s, n, []) == (s, Err(TakeFailed(OutOfRange)))
  {
  }

  lemma BadChunkIs(lib: Lib, e: Engine, key: Key, n: nat, t: Ticks, ok: Oracle)
    requires key in e.sessions && key !in e.tombstones && e.sessions[key].phase.Consuming?
    requires |e.sessions[key].strategy.chunks| == n
    ensures OnChunk(lib, e, key, n, [], t, ok) == Drain(e, key, ok).0
  {
    BadTake(lib, e.sessions[key], n);
    hide Take, Drain, Deliver;
    assert e.sessions[key := e.sessions[key]] == e.sessions;
    assert DoTaking(lib, e, key, n, []) == e;
  }

  /** Each such chunk costs the relay one allocation. */
  lemma BadChunkWastes(lib: Lib, e: Engine, key: Key, p: PeerId, q: PeerId, polls: nat, n: nat, cap: nat, now: nat,
                       fib: nat -> nat)
    requires Wasteful(e, key, p, polls, n, cap) && now < e.nextCleanup
    ensures var f := Step(lib, e, BadChunk(key, q, n, now, fib));
            Wasteful(f, key, p, polls + 1, n, cap) && f.nextCleanup == e.nextCleanup
  {
    hide OnChunk, Drain, Wasted;
    BadChunkIs(lib, e, key, n, At(now), Yes);
    WastedDrain(e, key, p, polls, Yes);
  }

  ghost function Repeat(k: nat, inp: Input): seq<Input> {
    seq(k, _ => inp)
  }

  lemma {:induction false} BadChunksWaste(lib: Lib, e: Engine, key: Key, p: PeerId, q: PeerId, polls: nat, n: nat, cap: nat,
                                          now: nat, fib: nat -> nat, k: nat)
    requires Wasteful(e, key, p, polls, n, cap) && now < e.nextCleanup
    ensures Wasteful(Run(lib, e, Repeat(k, BadChunk(key, q, n, now, fib))), key, p, polls + k, n, cap)
    decreases k
  {
    hide Step, Wasteful;
    var inp := BadChunk(key, q, n, now, fib);
    hide BadChunk;
    if k > 0 {
      BadChunkWastes(lib, e, key, p, q, polls, n, cap, now, fib);
      assert Repeat(k, inp)[1..] == Repeat(k - 1, inp);
      BadChunksWaste(lib, Step(lib, e, inp), key, p, q, polls + 1, n, cap, now, fib, k - 1);
    }
  }

  lemma RelayMade(lib: Lib, e: Engine, key: Key, p: PeerId, bytes: Bytes, pre: Preamble, fib: nat -> nat)
    returns (t: Strategy)
    requires Awaiting(e, key, p) && lib.parse(bytes) == Some(pre) && WellShaped(pre)
    ensures RelayStrategy(lib, e, key, bytes, fib) == Some(t) && Wasted(t, p, 0)
    ensures |t.chunks| == pre.Total() == t.planner.n
    ensures t.planner.mode == P.Relay(e.channels[key.channel].cfg.forwardMultiplier)
  {
    var rs := e.channels[key.channel].cfg;
    var s := NewRelay(pre, rs, fib).value;
    NewRelayFresh(pre, rs, fib);
    hide Wasted;
    WastedStart(s, p);
    t := AttachAll(s, {p});
  }

  lemma OpenIs(lib: Lib, e: Engine, key: Key, bytes: Bytes, t: Strategy, now: nat, ok: Oracle, fib: nat -> nat)
    requires key !in e.sessions && key !in e.tombstones && key !in e.parked
    requires RelayStrategy(lib, e, key, bytes, fib) == Some(t)
    requires var f := DoCreating(e, key, Session(Consuming, t), bytes, now); Drain(f, key, ok).0.parked == e.parked
    ensures OnOpen(lib, e, key, bytes, At(now), ok, fib)
         == Drain(DoCreating(e, key, Session(Consuming, t), bytes, now), key, ok).0
  {
    hide RelayStrategy, Drain, DoCreating;
  }

  /** An open from a valid preamble starts such a relay. */
  lemma OpenWastes(lib: Lib, e: Engine, key: Key, p: PeerId, q: PeerId, bytes: Bytes, pre: Preamble, now: nat, fib: nat -> nat)
    requires Awaiting(e, key, p) && key !in e.tombstones && key !in e.parked && now < e.nextCleanup
    requires lib.parse(bytes) == Some(pre) && WellShaped(pre)
    ensures var f := Step(lib, e, Net(SessionOpenIn(q, key, bytes), At(now), Yes, fib));
            && Wasteful(f, key, p, 1, pre.Total(), e.channels[key.channel].cfg.forwardMultiplier)
            && f.nextCleanup == e.nextCleanup
  {
    hide WellShaped, RelayStrategy, Drain, Wasted, DoCreating, OnOpen;
    var t := RelayMade(lib, e, key, p, bytes, pre, fib);
    var s := Session(Consuming, t);
    CreatedFacts(e, key, s, bytes, now);
    WastedDrain(DoCreating(e, key, s, bytes, now), key, p, 0, Yes);
    OpenIs(lib, e, key, bytes, t, now, Yes, fib);
  }

  lemma CreatedFacts(e: Engine, key: Key, s: Session, preamble: Bytes, at: nat)
    ensures var f := DoCreating(e, key, s, preamble, at);
            && key in f.sessions && f.sessions[key] == s
            && f.parked == e.parked && f.tombstones == e.tombstones && f.nextCleanup == e.nextCleanup
  {
  }

  /** Host a channel, gain one subscriber, open a session. */
  function Opening(key: Key, p: PeerId, q: PeerId, bytes: Bytes, rs: RsConfig, now: nat, fib: nat -> nat): seq<Input> {
    [Subscribing(key.channel, rs, Yes),
     Net(SubscribeIn(p, key.channel), At(now), Yes, fib),
     Net(SessionOpenIn(q, key, bytes), At(now), Yes, fib)]
  }

  lemma {:induction false} RunOn(lib: Lib, e: Engine, xs: seq<Input>, ys: seq<Input>)
    ensures Run(lib, e, xs + ys) == Run(lib, Run(lib, e, xs), ys)
    decreases |xs|
  {
    hide Step;
    if xs == [] {
      assert xs + ys == ys;
    } else {
      assert (xs + ys)[1..] == xs[1..] + ys;
      RunOn(lib, Step(lib, e, xs[0]), xs[1..], ys);
    }
  }

  lemma NotExhausted(s: Strategy, polls: nat)
    requires R.Wasting(s, polls) && polls < s.planner.n * s.planner.mode.cap
    ensures !R.Exhausted(s)
  {
    if R.Exhausted(s) { R.AtCapSum(s.planner, s.planner.mode.cap, s.planner.n); }
  }

  lemma WastedOut(e: Engine, key: Key, p: PeerId, polls: nat, n: nat, cap: nat)
    requires Wasteful(e, key, p, polls, n, cap)
    ensures Starved(e, key) <==> polls >= n * cap
  {
    hide R.Exhausted, R.Wasting;
    if polls < n * cap { NotExhausted(e.sessions[key].strategy, polls); }
  }

  ghost function Starving(key: Key, p: PeerId, q: PeerId, bytes: Bytes, rs: RsConfig, n: nat, now: nat, fib: nat -> nat,
                          k: nat): seq<Input>
  {
    Opening(key, p, q, bytes, rs, now, fib) + Repeat(k, BadChunk(key, q, n, now, fib))
  }

  lemma StarvingIsGood(key: Key, p: PeerId, q: PeerId, bytes: Bytes, rs: RsConfig, n: nat, now: nat, fib: nat -> nat, k: nat)
    ensures GoodInputs(Starving(key, p, q, bytes, rs, n, now, fib, k))
  {
    var xs := Starving(key, p, q, bytes, rs, n, now, fib, k);
    assert forall i | 0 <= i < |xs| :: !xs[i].Publishing?;
  }

  lemma StarvingRun(lib: Lib, cfg: Config, now: nat, key: Key, p: PeerId, q: PeerId, bytes: Bytes, pre: Preamble,
                    rs: RsConfig, n: nat, fib: nat -> nat, k: nat)
    requires cfg.cleanupInterval > 0 && lib.parse(bytes) == Some(pre) && WellShaped(pre)
    requires n == pre.Total()
    ensures Wasteful(Run(lib, New(cfg, now), Starving(key, p, q, bytes, rs, n, now, fib, k)),
                     key, p, 1 + k, n, rs.forwardMultiplier)
  {
    var xs := Opening(key, p, q, bytes, rs, now, fib);
    HostStep(lib, cfg, now, key.channel, rs);
    hide New, WellShaped, Wasteful, At, Step;
    var e1 := Step(lib, New(cfg, now), xs[0]);
    JoinStep(lib, e1, cfg, now, key, p, rs, fib);
    var e2 := Step(lib, e1, xs[1]);
    hide Hosted;
    OpenWastes(lib, e2, key, p, q, bytes, pre, now, fib);
    var e3 := Step(lib, e2, xs[2]);
    hide Awaiting;
    BadChunksWaste(lib, e3, key, p, q, 1, n, rs.forwardMultiplier, now, fib, k);
    FiveSteps(lib, New(cfg, now), xs[0], xs[1], xs[2], xs[0], xs[0]);
    assert xs == [xs[0], xs[1], xs[2]];
    RunOn(lib, New(cfg, now), xs, Repeat(k, BadChunk(key, q, n, now, fib)));
  }

  /**
   * Runs from a new engine that starve a relay: one subscriber, an accepted open, and then `k` chunks with an index out of
   * range. The open and each chunk cost one allocation, so the relay is starved if and only if 1 + k reaches n times the
   * forward multiplier. By `StarvedNeverForwards` it then forwards nothing until it is disposed.
   */
  lemma EngineStarves(lib: Lib, cfg: Config, now: nat, key: Key, p: PeerId, q: PeerId, bytes: Bytes, pre: Preamble,
                      rs: RsConfig, n: nat, fib: nat -> nat, k: nat)
    requires cfg.cleanupInterval > 0 && lib.parse(bytes) == Some(pre) && WellShaped(pre)
    requires n == pre.Total()
    ensures var xs := Starving(key, p, q, bytes, rs, n, now, fib, k);
            GoodInputs(xs) && (Starved(Run(lib, New(cfg, now), xs), key) <==> 1 + k >= n * rs.forwardMultiplier)
  {
    hide *;
    StarvingIsGood(key, p, q, bytes, rs, n, now, fib, k);
    StarvingRun(lib, cfg, now, key, p, q, bytes, pre, rs, n, fib, k);
    WastedOut(Run(lib, New(cfg, now), Starving(key, p, q, bytes, rs, n, now, fib, k)), key, p, 1 + k, n, rs.forwardMultiplier);
  }
}
