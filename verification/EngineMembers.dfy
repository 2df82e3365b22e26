/** Who subscribes, read off the log, and that chunks go to subscribers only; what publishing and leaving achieve. */
module EngineMembers {
  import opened Basics
  import opened Havelists
  import opened Coding
  import opened Strategies
  import opened Sessions
  import opened Engines
  import opened EngineSteps
  import opened EngineBase
  import opened EngineRuns
  import opened EngineFacts
  import opened EngineSettlement
  import opened EngineStrategies
  import opened EngineOrigin
  import opened EngineScript
  import opened EngineResults
  import opened EngineJoins
  import Planners

  // ---- Subscribers ----

  /** The peer joined the channel and has neither left it nor disconnected since. */
  ghost predicate Member(log: seq<Event>, c: ChannelId, p: PeerId) {
    log != [] &&
    var x := log[|log| - 1];
    || x == Event.Joined(c, p)
    || (x != Event.Left(c, p) && x != Disconnected(p) && Member(log[..|log| - 1], c, p))
  }

  lemma MemberAppend(log: seq<Event>, x: Event, c: ChannelId, p: PeerId)
    ensures Member(log + [x], c, p) <==>
              x == Event.Joined(c, p) || (x != Event.Left(c, p) && x != Disconnected(p) && Member(log, c, p))
  {
    assert (log + [x])[..|log|] == log;
  }

  ghost predicate IsChunkTo(x: Event, c: ChannelId, p: PeerId) {
    x.Sent? && x.msg.Chunk? && x.msg.key.channel == c && x.msg.peer == p
  }

  /** Every chunk so far was handed over for a peer that was a subscriber of its channel then. */
  ghost predicate MembersOnly(log: seq<Event>) {
    forall i, c: ChannelId, p: PeerId | 0 <= i < |log| && IsChunkTo(log[i], c, p) :: Member(log[..i], c, p)
  }

  ghost predicate MemberInv(e: Engine) {
    Base(e) && MembersOnly(e.log) && forall c: ChannelId, p: PeerId :: p in e.Subscribers(c) <==> Member(e.log, c, p)
  }

  lemma MembersAppend(log: seq<Event>, x: Event)
    requires MembersOnly(log) && forall c: ChannelId, p: PeerId | IsChunkTo(x, c, p) :: Member(log, c, p)
    ensures MembersOnly(log + [x])
  {
    hide Member;
    var all := log + [x];
    forall i, c: ChannelId, p: PeerId | 0 <= i < |all| && IsChunkTo(all[i], c, p)
      ensures Member(all[..i], c, p)
    {
      assert all[..i] == log[..i];
      assert log[..|log|] == log;
    }
  }

  /** The subscribers after an update. */
  ghost predicate SubscribersAfter(e: Engine, a: Act, c: ChannelId, p: PeerId) {
    match a
    case Joining(d, q) => p in e.Subscribers(c) || (d == c && q == p && c in e.channels)
    case Leaving(d, q) => p in e.Subscribers(c) && !(d == c && q == p)
    case Dropping(q) => p in e.Subscribers(c) && q != p
    case _ => p in e.Subscribers(c)
  }

  lemma SubscribersOf(lib: Lib, e: Engine, a: Act, c: ChannelId, p: PeerId)
    ensures p in Do(lib, e, a).Subscribers(c) <==> SubscribersAfter(e, a, c, p)
  {
    hide Do;
    if a.Joining? || a.Leaving? || a.Dropping? {
      DoIs(lib, e, a);
      hide AttachedTo, DetachedFrom, Detached;
    } else if a.Cleaning? {
      CleaningOf(lib, e, a.at);
    } else {
      SteadyHosts(lib, e, a, c);
    }
  }

  lemma SteadyHosts(lib: Lib, e: Engine, a: Act, c: ChannelId)
    requires !a.Joining? && !a.Leaving? && !a.Dropping? && !a.Cleaning?
    ensures Do(lib, e, a).Subscribers(c) == e.Subscribers(c)
  {
    hide DecodeAndFinish, Poll, Take, ChunkSent, Detached, Engine.Settled, Stamped, Ending;
  }

  /** What an update shows of joining and leaving. */
  lemma MoveEvents(lib: Lib, e: Engine, a: Act, c: ChannelId, p: PeerId)
    ensures var x := EventOf(lib, e, a);
            SubscribersAfter(e, a, c, p) <==>
              if x.Some? then
                || x.value == Event.Joined(c, p)
                || (x.value != Event.Left(c, p) && x.value != Disconnected(p) && p in e.Subscribers(c))
              else p in e.Subscribers(c)
  {
    hide DecodeAndFinish, ExpiredKeys, Engine.Opened, Engine.Preamble, Engine.Flying;
  }

  /** Only a chunk update shows a chunk, and it goes to a subscriber. */
  lemma ChunkEvents(lib: Lib, inp: Input, m: Mode, e: Engine, a: Act, c: ChannelId, p: PeerId)
    requires Base(e) && Allowed(lib, inp, m, e, a) && EventOf(lib, e, a).Some? && IsChunkTo(EventOf(lib, e, a).value, c, p)
    ensures p in e.Subscribers(c)
  {
    hide Base, RelayStrategy, DecodeAndFinish, ExpiredKeys, Engine.Opened, Engine.Preamble, Engine.Flying, Ready,
         Engine.Subscribers;
    assert a.Chunking? && Ready(e, a.key, a.d) && a.key.channel == c && a.d.peer == p;
    ChunkPeer(e, a.key, a.d);
  }

  lemma ChunkPeer(e: Engine, key: Key, d: Dispatch)
    requires Base(e) && Ready(e, key, d)
    ensures d.peer in e.Subscribers(key.channel)
  {
    assert Live(e, key);
  }

  lemma MemberKept(lib: Lib, inp: Input, m: Mode, e: Engine, a: Act)
    requires MemberInv(e) && GoodInput(inp) && Allowed(lib, inp, m, e, a)
    ensures MemberInv(Do(lib, e, a))
  {
    var x := EventOf(lib, e, a);
    hide Base, Do, Allowed, GoodInput, EventOf, Member, MembersOnly, SubscribersAfter, Engine.Subscribers;
    BaseKept(lib, inp, m, e, a);
    LogOf(lib, e, a);
    if x.Some? {
      forall c: ChannelId, p: PeerId | IsChunkTo(x.value, c, p)
        ensures Member(e.log, c, p)
      {
        ChunkEvents(lib, inp, m, e, a, c, p);
      }
      MembersAppend(e.log, x.value);
    }
    forall c: ChannelId, p: PeerId
      ensures p in Do(lib, e, a).Subscribers(c) <==> Member(Do(lib, e, a).log, c, p)
    {
      MoveEvents(lib, e, a, c, p);
      SubscribersOf(lib, e, a, c, p);
      if x.Some? { MemberAppend(e.log, x.value, c, p); }
    }
  }

  lemma RunMembers(lib: Lib, cfg: Config, now: nat, inputs: seq<Input>)
    requires GoodInputs(inputs)
    ensures MemberInv(Run(lib, New(cfg, now), inputs))
  {
    NewBase(cfg, now);
    var I := (e: Engine) => MemberInv(e);
    assert I(New(cfg, now));
    hide Base, Do, Allowed, GoodInput, GoodInputs, Run, New, MembersOnly, Member, Engine.Subscribers;
    forall inp: Input, e: Engine, a: Act | GoodInput(inp) && I(e) && Allowed(lib, inp, PLAIN, e, a)
      ensures I(Do(lib, e, a))
    {
      MemberKept(lib, inp, PLAIN, e, a);
    }
    assert Kept(lib, PLAIN, I);
    hide Kept, MemberInv;
    RunKeeps(lib, PLAIN, I, New(cfg, now), inputs);
    assert I(Run(lib, New(cfg, now), inputs));
  }

  /**
   * In every reachable state the subscribers of a channel are exactly the peers that joined it and have neither left it nor
   * disconnected since.
   */
  lemma SubscribersAreMembers(lib: Lib, cfg: Config, now: nat, inputs: seq<Input>, c: ChannelId, p: PeerId)
    requires GoodInputs(inputs)
    ensures var e := Run(lib, New(cfg, now), inputs);
            p in e.Subscribers(c) <==> Member(e.log, c, p)
  {
    RunMembers(lib, cfg, now, inputs);
    hide Run, New, Base, MembersOnly, Member, Engine.Subscribers;
  }

  /** In the log of any run, every chunk goes to a peer that is a subscriber of its channel at that moment. */
  lemma ChunksGoToMembers(lib: Lib, cfg: Config, now: nat, inputs: seq<Input>, i: nat, c: ChannelId, p: PeerId)
    requires GoodInputs(inputs) && i < |Run(lib, New(cfg, now), inputs).log|
    requires IsChunkTo(Run(lib, New(cfg, now), inputs).log[i], c, p)
    ensures Member(Run(lib, New(cfg, now), inputs).log[..i], c, p)
  {
    RunMembers(lib, cfg, now, inputs);
    hide Run, New, Base, Member, Engine.Subscribers;
  }

  // ---- Leaving ----

  /** The session is as before but for its planner, and if `leaves` the peer is detached and its flights are gone. */
  ghost predicate Leaves(s: Session, t: Session, p: PeerId, leaves: bool) {
    && t.phase == s.phase && t.strategy.preamble == s.strategy.preamble && t.strategy.chunks == s.strategy.chunks
    && (if leaves then
          && t.strategy.attached == s.strategy.attached - {p}
          && (forall h :: h in t.strategy.inFlight <==> h in s.strategy.inFlight && s.strategy.inFlight[h].peer != p)
          && (forall h | h in t.strategy.inFlight :: t.strategy.inFlight[h] == s.strategy.inFlight[h])
        else t == s)
  }

  lemma DetachedLeaves(s: Session, p: PeerId)
    ensures Leaves(s, Detached(s, p), p, true)
  {
    hide Planners.RemovePeer;
  }

  lemma NotThere(e: Engine, k: Key, p: PeerId)
    requires Base(e) && k in e.sessions && p !in e.Subscribers(k.channel)
    ensures Leaves(e.sessions[k], e.sessions[k], p, true)
  {
    assert Live(e, k);
    var s := e.sessions[k].strategy;
    assert s.attached - {p} == s.attached;
  }

  /**
   * What the departure events do, in every reachable state: an unsubscription takes the peer out of that channel and all its
   * sessions, a disconnect out of every channel and session, a reconstruction report or a close out of that session only;
   * everything else about sessions and subscribers stays.
   */
  lemma DeparturesLeave(lib: Lib, e: Engine, p: PeerId, c: ChannelId, key: Key, done: bool, t: Ticks, ok: Oracle,
                        fib: nat -> nat, k: Key)
    requires Base(e) && k in e.sessions
    ensures var f := HandleEvent(lib, e, UnsubscribeIn(p, c), t, ok, fib);
            && (forall d :: f.Subscribers(d) == e.Subscribers(d) - if d == c then {p} else {})
            && k in f.sessions && Leaves(e.sessions[k], f.sessions[k], p, k.channel == c)
    ensures var f := HandleEvent(lib, e, PeerDisconnected(p), t, ok, fib);
            && (forall d :: f.Subscribers(d) == e.Subscribers(d) - {p}) && f.connected == e.connected - {p}
            && (forall x | x in f.pending :: f.pending[x] != p) && (forall d :: p !in f.Opened(d))
            && k in f.sessions && Leaves(e.sessions[k], f.sessions[k], p, true)
    ensures var f := HandleEvent(lib, e, if done then PeerReconstructed(p, key) else SessionClosed(p, key), t, ok, fib);
            && f.channels == e.channels && f.pending == e.pending
            && k in f.sessions && Leaves(e.sessions[k], f.sessions[k], p, k == key)
  {
    DetachedLeaves(e.sessions[k], p);
    if p !in e.Subscribers(k.channel) { NotThere(e, k, p); }
    hide Base, Leaves, Detached, Drain, OnOpen, OnChunk, JoinEach, DrainChannel, Register, Resolve, DoJoining;
    UnsubscribedLeaves(lib, e, p, c, t, ok, fib, k);
    DisconnectedLeaves(lib, e, p, t, ok, fib, k);
    ClosedLeaves(lib, e, p, key, done, t, ok, fib, k);
  }

  lemma UnsubscribedLeaves(lib: Lib, e: Engine, p: PeerId, c: ChannelId, t: Ticks, ok: Oracle, fib: nat -> nat, k: Key)
    requires k in e.sessions && Leaves(e.sessions[k], Detached(e.sessions[k], p), p, true)
    requires p !in e.Subscribers(k.channel) ==> Leaves(e.sessions[k], e.sessions[k], p, true)
    ensures var f := HandleEvent(lib, e, UnsubscribeIn(p, c), t, ok, fib);
            && (forall d :: f.Subscribers(d) == e.Subscribers(d) - if d == c then {p} else {})
            && k in f.sessions && Leaves(e.sessions[k], f.sessions[k], p, k.channel == c)
  {
    hide Detached;
  }

  lemma DisconnectedLeaves(lib: Lib, e: Engine, p: PeerId, t: Ticks, ok: Oracle, fib: nat -> nat, k: Key)
    requires k in e.sessions && Leaves(e.sessions[k], Detached(e.sessions[k], p), p, true)
    requires p !in e.Subscribers(k.channel) ==> Leaves(e.sessions[k], e.sessions[k], p, true)
    ensures var f := HandleEvent(lib, e, PeerDisconnected(p), t, ok, fib);
            && (forall d :: f.Subscribers(d) == e.Subscribers(d) - {p}) && f.connected == e.connected - {p}
            && (forall x | x in f.pending :: f.pending[x] != p) && (forall d :: p !in f.Opened(d))
            && k in f.sessions && Leaves(e.sessions[k], f.sessions[k], p, true)
  {
    hide Detached, Leaves;
  }

  lemma ClosedLeaves(lib: Lib, e: Engine, p: PeerId, key: Key, done: bool, t: Ticks, ok: Oracle, fib: nat -> nat, k: Key)
    requires k in e.sessions && Leaves(e.sessions[k], Detached(e.sessions[k], p), p, true)
    ensures var f := HandleEvent(lib, e, if done then PeerReconstructed(p, key) else SessionClosed(p, key), t, ok, fib);
            && f.channels == e.channels && f.pending == e.pending
            && k in f.sessions && Leaves(e.sessions[k], f.sessions[k], p, k == key)
  {
    hide Detached;
  }

  // ---- Publishing ----

  lemma {:induction false} OpensAll(e: Engine, key: Key, peers: seq<PeerId>, ok: Oracle)
    requires Accepting(ok) && key in e.preambles
    ensures var (f, isOpen) := OpenEach(e, key, peers, ok);
            && isOpen && f.sessions == e.sessions && f.channels == e.channels && key in f.preambles
            && e.Opened(key) <= f.Opened(key) && forall p | p in peers :: p in f.Opened(key)
    decreases |peers|
  {
    if peers != [] {
      var e1 := EnsureOpen(e, key, peers[0], ok).0;
      OneOpens(e, key, peers[0], ok);
      hide EnsureOpen, Accepting, Engine.Opened;
      OpensAll(e1, key, peers[1..], ok);
    }
  }

  lemma OneOpens(e: Engine, key: Key, p: PeerId, ok: Oracle)
    requires Accepting(ok) && key in e.preambles
    ensures var (f, isOpen) := EnsureOpen(e, key, p, ok);
            && isOpen && f.sessions == e.sessions && f.channels == e.channels && key in f.preambles
            && e.Opened(key) <= f.Opened(key) && p in f.Opened(key)
  {
  }

  lemma AttachedComplete(e: Engine, key: Key, s: Strategy, preamble: Bytes, at: nat)
    requires AllComplete(e) && OriginInput(Publishing(key, s, preamble, at, _ => true))
    ensures AllComplete(DoCreating(e, key, Session(Phase.Origin, AttachAll(s, e.Subscribers(key.channel))), preamble, at))
  {
    hide Engine.Subscribers;
  }

  /**
   * Publishing on a hosted channel, in every reachable state and with a transport that accepts everything: the new origin
   * session is attached to exactly the channel's subscribers and opened to each of them, and every shard is in flight to, or
   * believed held by, each of them. No other session changes. An unknown channel or a live key is refused.
   */
  lemma PublishServes(lib: Lib, cfg: Config, now: nat, inputs: seq<Input>, key: Key, s: Strategy, preamble: Bytes, at: nat,
                      ok: Oracle)
    requires OriginInputs(inputs) && OriginInput(Publishing(key, s, preamble, at, ok)) && Accepting(ok)
    ensures var e := Run(lib, New(cfg, now), inputs);
            var f := Publish(e, key, s, preamble, at, ok);
            if key.channel !in e.channels || key in e.sessions then f == e
            else
              && key in f.sessions && f.sessions[key].phase.Origin? && AllServed(f.sessions[key])
              && f.sessions[key].strategy.attached == e.Subscribers(key.channel) <= f.Opened(key)
              && f.sessions.Keys == e.sessions.Keys + {key}
              && (forall k | k in e.sessions :: f.sessions[k] == e.sessions[k])
  {
    var e := Run(lib, New(cfg, now), inputs);
    ReachableComplete(lib, cfg, now, inputs);
    hide Run, New, OriginInputs, OriginInput, AllComplete, Accepting, AllServed, Drain;
    if key.channel in e.channels && key !in e.sessions { PublicationServes(e, key, s, preamble, at, ok); }
  }

  /** The engine with the new origin session, opened to the channel's subscribers but not yet drained. */
  lemma Prepared(e: Engine, key: Key, s: Strategy, preamble: Bytes, at: nat, ok: Oracle) returns (e2: Engine)
    requires AllComplete(e) && OriginInput(Publishing(key, s, preamble, at, ok)) && Accepting(ok)
    requires key.channel in e.channels && key !in e.sessions
    ensures var subs := e.Subscribers(key.channel);
            && AllComplete(e2) && Publish(e, key, s, preamble, at, ok) == Drain(e2, key, ok).0
            && e2.sessions == e.sessions[key := Session(Phase.Origin, AttachAll(s, subs))]
            && AttachAll(s, subs).attached == subs && subs <= e2.Opened(key)
  {
    var subs := e.Subscribers(key.channel);
    var x := Session(Phase.Origin, AttachAll(s, subs));
    AttachedComplete(e, key, s, preamble, at);
    assert x.strategy.attached == subs;
    var e1 := DoCreating(e, key, x, preamble, at);
    assert e1.sessions == e.sessions[key := x] && key in e1.preambles;
    hide DoCreating, OpenEach, Drain, Accepting, Complete, OriginInput, AttachAll;
    OpensAll(e1, key, Sorted(subs), ok);
    e2 := OpenEach(e1, key, Sorted(subs), ok).0;
  }

  lemma PublicationServes(e: Engine, key: Key, s: Strategy, preamble: Bytes, at: nat, ok: Oracle)
    requires AllComplete(e) && OriginInput(Publishing(key, s, preamble, at, ok)) && Accepting(ok)
    requires key.channel in e.channels && key !in e.sessions
    ensures var f := Publish(e, key, s, preamble, at, ok);
            && key in f.sessions && f.sessions[key].phase.Origin? && AllServed(f.sessions[key])
            && f.sessions[key].strategy.attached == e.Subscribers(key.channel) <= f.Opened(key)
            && f.sessions.Keys == e.sessions.Keys + {key}
            && (forall k | k in e.sessions :: f.sessions[k] == e.sessions[k])
  {
    hide Publish, Drain, Accepting, AllServed, AllComplete, OriginInput, AttachAll, Engine.Opened, Engine.Subscribers;
    var e2 := Prepared(e, key, s, preamble, at, ok);
    AcceptingServes(e2, key, ok, key);
    OneDrained(e2, key, ok);
    DrainElsewhere(e2, key, ok);
    assert SameCore(e2.sessions[key], Drain(e2, key, ok).0.sessions[key]);
  }

  /** The opens that a publication makes. */
  ghost function OpenScripts(key: Key, preamble: Bytes, peers: seq<PeerId>): seq<NetSend> {
    seq(|peers|, i requires 0 <= i < |peers| => SessionOpen(peers[i], key, preamble))
  }

  lemma OneOpenTraces(e: Engine, key: Key, p: PeerId, ok: Oracle)
    requires key in e.preambles && p !in e.Opened(key)
    ensures var (f, isOpen) := EnsureOpen(e, key, p, ok);
            && f.log == e.log + [Sent(SessionOpen(p, key, e.preambles[key]), ok(|e.log|))] && (isOpen <==> ok(|e.log|))
            && f.sessions == e.sessions && f.pending == e.pending && f.preambles == e.preambles
            && forall q | q in f.Opened(key) :: q in e.Opened(key) || q == p
  {
  }

  lemma ScriptsCons(key: Key, preamble: Bytes, peers: seq<PeerId>)
    requires peers != []
    ensures OpenScripts(key, preamble, peers) == [SessionOpen(peers[0], key, preamble)] + OpenScripts(key, preamble, peers[1..])
  {
  }

  lemma RefusedFirst(ok: Oracle, n: nat, m: NetSend, rest: seq<NetSend>)
    requires m.SessionOpen?
    ensures Refused(ok, n, [m] + rest) <==> !ok(n) || Refused(ok, n + 1, rest)
  {
    RefusedCons(ok, n, [m] + rest);
    hide Refused;
    assert ([m] + rest)[1..] == rest;
  }

  lemma LogCons(log: seq<Event>, x: Event, more: seq<Event>)
    ensures log + ([x] + more) == log + [x] + more
  {
  }

  lemma {:induction false} OpensTrace(e: Engine, key: Key, peers: seq<PeerId>, ok: Oracle)
    requires key in e.preambles && Ascending(peers) && forall p | p in peers :: p !in e.Opened(key)
    ensures var (f, isOpen) := OpenEach(e, key, peers, ok);
            var script := OpenScripts(key, e.preambles[key], peers);
            && f.log == e.log + Trace(ok, |e.log|, script) && f.sessions == e.sessions && f.pending == e.pending
            && (isOpen <==> !Refused(ok, |e.log|, script))
    decreases |peers|
  {
    hide Refused, Trace, EnsureOpen, OpenScripts, Engine.Opened, IsControl;
    if peers == [] {
      NoOpens(e, key, ok);
    } else {
      var rest := OpenScripts(key, e.preambles[key], peers[1..]);
      var m := SessionOpen(peers[0], key, e.preambles[key]);
      assert forall p | p in peers[1..] :: p in peers && p != peers[0];
      OneOpenTraces(e, key, peers[0], ok);
      ScriptsCons(key, e.preambles[key], peers);
      RefusedFirst(ok, |e.log|, m, rest);
      OpenCons(ok, |e.log|, m, rest);
      var (e1, isOpen) := EnsureOpen(e, key, peers[0], ok);
      if isOpen {
        OpensTrace(e1, key, peers[1..], ok);
        LogCons(e.log, Sent(m, true), Trace(ok, |e.log| + 1, rest));
      }
    }
  }

  lemma NoOpens(e: Engine, key: Key, ok: Oracle)
    requires key in e.preambles
    ensures OpenScripts(key, e.preambles[key], []) == [] && !Refused(ok, |e.log|, []) && e.log + Trace(ok, |e.log|, []) == e.log
  {
  }

  lemma OpenCons(ok: Oracle, n: nat, m: NetSend, rest: seq<NetSend>)
    requires m.SessionOpen?
    ensures Trace(ok, n, [m] + rest) == if ok(n) then [Sent(m, true)] + Trace(ok, n + 1, rest) else [Sent(m, false)]
  {
    TraceCons(ok, n, m, rest);
    hide Trace;
    assert [Sent(m, false)] + [] == [Sent(m, false)];
  }

  /** The engine with the new origin session, before its opens. */
  lemma Registered(e: Engine, key: Key, s: Strategy, preamble: Bytes, at: nat) returns (e1: Engine)
    requires Base(e) && Fresh(s) && key !in e.sessions
    ensures var subs := e.Subscribers(key.channel);
            && e1 == DoCreating(e, key, Session(Phase.Origin, AttachAll(s, subs)), preamble, at)
            && key in e1.preambles && e1.preambles[key] == preamble && e1.Opened(key) == {}
            && e1.log == e.log + [Created(key, true, at)] && e1.pending == e.pending
            && key in e1.sessions && e1.sessions[key].strategy.inFlight == map[]
  {
    var subs := e.Subscribers(key.channel);
    e1 := DoCreating(e, key, Session(Phase.Origin, AttachAll(s, subs)), preamble, at);
    assert key !in e.openedTo;
    hide AllLive, PendingOk, ParkedOk, Shaped;
  }

  /**
   * A publication opens before it sends: the session's opens go to the channel's subscribers in order, and if one of them is
   * refused, publishing ends there - nothing else is sent and nothing of the session is in flight.
   */
  lemma PublishOpensFirst(lib: Lib, e: Engine, key: Key, s: Strategy, preamble: Bytes, at: nat, ok: Oracle)
    requires Base(e) && Fresh(s) && key.channel in e.channels && key !in e.sessions
    ensures var f := Publish(e, key, s, preamble, at, ok);
            var opens := OpenScripts(key, preamble, Sorted(e.Subscribers(key.channel)));
            var n := |e.log| + 1;
            && e.log + [Created(key, true, at)] + Trace(ok, n, opens) <= f.log
            && (Refused(ok, n, opens) ==>
                  && f.log == e.log + [Created(key, true, at)] + Trace(ok, n, opens)
                  && key in f.sessions && f.sessions[key].strategy.inFlight == map[] && f.pending == e.pending)
  {
    hide Base, DoCreating, OpenEach, Drain, Trace, Refused, Fresh, AttachAll, OpenScripts, Engine.Subscribers, Engine.Opened;
    var subs := e.Subscribers(key.channel);
    PublishBase(lib, e, key, s, preamble, at, ok);
    var e1 := Registered(e, key, s, preamble, at);
    OpensTrace(e1, key, Sorted(subs), ok);
    var (e2, isOpen) := OpenEach(e1, key, Sorted(subs), ok);
    if isOpen { DrainLogs(lib, e2, key, ok); }
  }

  lemma PublishBase(lib: Lib, e: Engine, key: Key, s: Strategy, preamble: Bytes, at: nat, ok: Oracle)
    requires Base(e) && Fresh(s) && key.channel in e.channels && key !in e.sessions
    ensures var subs := e.Subscribers(key.channel);
            var e1 := DoCreating(e, key, Session(Phase.Origin, AttachAll(s, subs)), preamble, at);
            Base(OpenEach(e1, key, Sorted(subs), ok).0)
  {
    var inp := Publishing(key, s, preamble, at, ok);
    var subs := e.Subscribers(key.channel);
    var x := Session(Phase.Origin, AttachAll(s, subs));
    var e1 := DoCreating(e, key, x, preamble, at);
    assert NewSession(lib, inp, e, key, x, preamble, at);
    assert key in e1.sessions;
    hide Base, DoCreating, OpenEach, Preserved, Fresh, NewSession;
    CreatingBase(lib, inp, e, key, x, preamble, at);
    BasePreserved(lib, inp);
    OpenEachKeeps(lib, inp, PLAIN, e => Base(e), e1, key, Sorted(subs), ok);
  }

  // ---- Announcing ----

  /** The first `k` of these announcements, with their results. */
  ghost function Announcements(c: ChannelId, peers: seq<PeerId>, ok: Oracle, n: nat, k: nat): seq<Event>
    requires k <= |peers|
  {
    seq(k, i requires 0 <= i < k => Sent(Subscribe(peers[i], c), ok(n + i)))
  }

  /** Exactly the first `k` are made: all of them, or up to the first that is refused. */
  ghost predicate UpToRefusal(peers: seq<PeerId>, ok: Oracle, n: nat, k: nat) {
    && k <= |peers| && (forall j: nat | n <= j < n + k - 1 :: ok(j))
    && (k < |peers| ==> 0 < k && !ok(n + k - 1))
  }

  lemma AnnouncementsCons(c: ChannelId, peers: seq<PeerId>, ok: Oracle, n: nat, m: nat)
    requires peers != [] && m <= |peers[1..]|
    ensures Announcements(c, peers, ok, n, m + 1)
         == [Sent(Subscribe(peers[0], c), ok(n))] + Announcements(c, peers[1..], ok, n + 1, m)
    ensures Announcements(c, peers, ok, n, 0) == []
  {
  }

  lemma RefusalCons(peers: seq<PeerId>, ok: Oracle, n: nat, m: nat)
    requires peers != []
    ensures if ok(n) then UpToRefusal(peers[1..], ok, n + 1, m) ==> UpToRefusal(peers, ok, n, m + 1) else UpToRefusal(peers, ok, n, 1)
  {
  }

  lemma {:induction false} AnnouncedUpTo(e: Engine, c: ChannelId, peers: seq<PeerId>, ok: Oracle) returns (k: nat)
    ensures UpToRefusal(peers, ok, |e.log|, k)
    ensures Announce(e, c, peers, ok) == e.(log := e.log + Announcements(c, peers, ok, |e.log|, k))
    decreases |peers|
  {
    k := 0;
    if peers == [] {
      assert e.log + Announcements(c, peers, ok, |e.log|, 0) == e.log;
    } else {
      var n, sent := |e.log|, ok(|e.log|);
      var x := Sent(Subscribe(peers[0], c), sent);
      var e1 := DoNoting(e, Subscribe(peers[0], c), sent);
      hide Announcements, UpToRefusal;
      if sent {
        var m := AnnouncedUpTo(e1, c, peers[1..], ok);
        UpToLength(peers[1..], ok, n + 1, m);
        k := m + 1;
        RefusalCons(peers, ok, n, m);
        AnnouncementsCons(c, peers, ok, n, m);
        LogCons(e.log, x, Announcements(c, peers[1..], ok, n + 1, m));
      } else {
        k := 1;
        RefusalCons(peers, ok, n, 0);
        AnnouncementsCons(c, peers, ok, n, 0);
        AnnouncementsNone(c, peers[1..], ok, n + 1);
        LogCons(e.log, x, []);
      }
    }
  }

  lemma UpToLength(peers: seq<PeerId>, ok: Oracle, n: nat, k: nat)
    requires UpToRefusal(peers, ok, n, k)
    ensures k <= |peers|
  {
  }

  lemma AnnouncementsNone(c: ChannelId, peers: seq<PeerId>, ok: Oracle, n: nat)
    ensures Announcements(c, peers, ok, n, 0) == []
  {
  }

  /**
   * Subscribing locally hosts the channel, keeping an existing one as it is, and tells the connected peers in order, all of
   * them or up to the first refused send.
   */
  lemma SubscribingAnnounces(lib: Lib, e: Engine, c: ChannelId, rs: RsConfig, ok: Oracle) returns (k: nat)
    ensures var f := Step(lib, e, Subscribing(c, rs, ok));
            var peers := Sorted(e.connected);
            && UpToRefusal(peers, ok, |e.log|, k)
            && f == e.(channels := f.channels, log := e.log + Announcements(c, peers, ok, |e.log|, k))
            && f.channels == if c in e.channels then e.channels else e.channels[c := Channel({}, rs)]
  {
    hide Announce, UpToRefusal, Announcements;
    k := AnnouncedUpTo(DoHosting(e, c, rs), c, Sorted(e.connected), ok);
  }

  /**
   * A transport connection or a dial registers the peer: afterwards it is connected, it gets exactly one handshake, naming
   * the protocol version and exactly the hosted channels, and none if it was connected before.
   */
  lemma RegistersOnce(lib: Lib, e: Engine, p: PeerId, t: Ticks, ok: Oracle, fib: nat -> nat)
    ensures var f := HandleEvent(lib, e, PeerConnected(p), t, ok, fib);
            && f == Step(lib, e, Dialing(p, ok))
            && f.connected == e.connected + {p}
            && f == e.(connected := f.connected, log := f.log)
            && f.log == e.log + if p in e.connected then []
                                else [Sent(Handshake(p, PROTOCOL_VERSION, e.channels.Keys), ok(|e.log|))]
  {
    if p in e.connected { assert e.connected + {p} == e.connected; }
    assert e.log + [] == e.log;
  }

  // ---- Opening ----

  lemma {:induction false} TakeAllAttached(lib: Lib, e: Engine, key: Key, chunks: seq<ParkedChunk>)
    requires key in e.sessions
    ensures var f := TakeAll(lib, e, key, chunks).0;
            && f.sessions.Keys == e.sessions.Keys && f.channels == e.channels
            && f.sessions[key].strategy.attached == e.sessions[key].strategy.attached
            && f.sessions[key].strategy.preamble == e.sessions[key].strategy.preamble
    decreases |chunks|
  {
    if chunks != [] {
      var c := chunks[0];
      OneTakeAttached(lib, e, key, c.idx, c.data);
      hide DoTaking, Completes;
      TakeAllAttached(lib, DoTaking(lib, e, key, c.idx, c.data), key, chunks[1..]);
    }
  }

  lemma OneTakeAttached(lib: Lib, e: Engine, key: Key, idx: nat, data: Bytes)
    requires key in e.sessions
    ensures var f := DoTaking(lib, e, key, idx, data);
            && f.sessions.Keys == e.sessions.Keys && f.channels == e.channels
            && f.sessions[key].strategy.attached == e.sessions[key].strategy.attached
            && f.sessions[key].strategy.preamble == e.sessions[key].strategy.preamble
  {
    hide VerifyChunk;
  }

  /** The session exists with this preamble and serves exactly these peers. */
  ghost predicate Serving(e: Engine, key: Key, pre: Preamble, peers: set<PeerId>) {
    key in e.sessions && e.sessions[key].strategy.attached == peers && e.sessions[key].strategy.preamble == pre
  }

  lemma DrainServing(e: Engine, key: Key, ok: Oracle, pre: Preamble, peers: set<PeerId>)
    requires Serving(e, key, pre, peers)
    ensures Serving(Drain(e, key, ok).0, key, pre, peers)
  {
    OneDrained(e, key, ok);
    hide Drain;
    assert SameCore(e.sessions[key], Drain(e, key, ok).0.sessions[key]);
  }

  lemma DeliverServing(lib: Lib, e: Engine, key: Key, at: nat, ok: Oracle, pre: Preamble, peers: set<PeerId>)
    requires Serving(e, key, pre, peers)
    ensures Serving(Deliver(lib, e, key, at, ok), key, pre, peers)
  {
    hide Reconstruct, Stamped, Ending;
  }

  lemma ReplayServing(lib: Lib, e: Engine, key: Key, at: nat, ok: Oracle, pre: Preamble, peers: set<PeerId>)
    requires Serving(e, key, pre, peers)
    ensures Serving(Replay(lib, e, key, at, ok), key, pre, peers)
  {
    if key in e.parked {
      TakeAllAttached(lib, DoUnparking(e, key), key, e.parked[key]);
      hide TakeAll, Drain, Deliver;
      var e1 := TakeAll(lib, DoUnparking(e, key), key, e.parked[key]).0;
      assert Serving(e1, key, pre, peers);
      DrainServing(e1, key, ok, pre, peers);
      DeliverServing(lib, Drain(e1, key, ok).0, key, at, ok, pre, peers);
    }
  }

  /**
   * An open of a hosted channel, for a key that is neither tombstoned nor known, with a preamble that parses and is well
   * shaped, starts a relay of that preamble that serves exactly the channel's subscribers. Every other open changes nothing.
   */
  lemma OpenStartsRelay(lib: Lib, e: Engine, q: PeerId, key: Key, bytes: Bytes, t: Ticks, ok: Oracle, fib: nat -> nat)
    ensures var f := HandleEvent(lib, e, SessionOpenIn(q, key, bytes), t, ok, fib);
            var parsed := lib.parse(bytes);
            if key !in e.tombstones && key !in e.sessions && key.channel in e.channels && parsed.Some? && WellShaped(parsed.value)
            then Serving(f, key, parsed.value, e.Subscribers(key.channel))
            else f == e
  {
    hide WellShaped, Drain, Replay, Serving;
    var r := RelayStrategy(lib, e, key, bytes, fib);
    if key !in e.tombstones && key !in e.sessions && r.Some? {
      var subs := e.Subscribers(key.channel);
      var e1 := DoCreating(e, key, Session(Consuming, r.value), bytes, t.first);
      StartedServing(lib, e, key, bytes, t.first, fib);
      DrainServing(e1, key, ok, r.value.preamble, subs);
      ReplayServing(lib, Drain(e1, key, ok).0, key, t.second, ok, r.value.preamble, subs);
    }
  }

  lemma StartedServing(lib: Lib, e: Engine, key: Key, bytes: Bytes, at: nat, fib: nat -> nat)
    requires RelayStrategy(lib, e, key, bytes, fib).Some?
    ensures var s := RelayStrategy(lib, e, key, bytes, fib).value;
            && lib.parse(bytes) == Some(s.preamble)
            && Serving(DoCreating(e, key, Session(Consuming, s), bytes, at), key, s.preamble, e.Subscribers(key.channel))
  {
  }
}
