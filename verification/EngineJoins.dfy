/** Joining and channel drains: who is attached where, how far the drain of a channel gets, and what it has served. */
module EngineJoins {
  import opened Basics
  import opened Havelists
  import opened Coding
  import opened Strategies
  import opened Sessions
  import opened Engines
  import opened EngineSteps
  import opened EngineBase
  import opened EngineRuns
  import opened EngineStrategies
  import opened EngineResults
  import opened EngineSettlement
  import opened EngineScript
  import opened EngineOrigin
  import P = Polling

  // ---- A drain leaves the other sessions alone ----

  /** Only this session may differ, and no session is closed to a peer. */
  ghost predicate Elsewhere(e: Engine, f: Engine, key: Key) {
    && f.sessions.Keys == e.sessions.Keys && (forall k | k in e.sessions && k != key :: f.sessions[k] == e.sessions[k])
    && (forall k: Key :: e.Opened(k) <= f.Opened(k))
  }

  lemma ElsewhereOn(e: Engine, f: Engine, g: Engine, key: Key)
    requires Elsewhere(e, f, key) && Elsewhere(f, g, key)
    ensures Elsewhere(e, g, key)
  {
    hide Engine.Opened;
  }

  lemma OpenElsewhere(e: Engine, key: Key, p: PeerId, ok: Oracle)
    ensures Elsewhere(e, EnsureOpen(e, key, p, ok).0, key)
  {
  }

  lemma ChunkElsewhere(e: Engine, key: Key, d: Dispatch, sent: bool)
    ensures Elsewhere(e, DoChunking(e, key, d, sent), key)
  {
    hide ChunkSent;
  }

  lemma {:induction false} RoutingElsewhere(e: Engine, key: Key, peers: seq<PeerId>, have: Havelist, ok: Oracle)
    ensures Elsewhere(e, SendRouting(e, key, peers, have, ok).0, key)
    decreases |peers|
  {
    if peers != [] {
      OpenElsewhere(e, key, peers[0], ok);
      var (e1, isOpen) := EnsureOpen(e, key, peers[0], ok);
      hide EnsureOpen;
      if isOpen {
        var e2 := DoNoting(e1, RoutingUpdate(peers[0], key, have), ok(|e1.log|));
        assert Elsewhere(e1, e2, key);
        hide Elsewhere, DoNoting;
        ElsewhereOn(e, e1, e2, key);
        RoutingElsewhere(e2, key, peers[1..], have, ok);
        ElsewhereOn(e, e2, SendRouting(e2, key, peers[1..], have, ok).0, key);
      }
    }
  }

  lemma {:induction false} DispatchesElsewhere(e: Engine, key: Key, ds: seq<Dispatch>, ok: Oracle)
    ensures Elsewhere(e, SendDispatches(e, key, ds, ok).0, key)
    decreases |ds|
  {
    if ds != [] {
      OpenElsewhere(e, key, ds[0].peer, ok);
      var (e1, isOpen) := EnsureOpen(e, key, ds[0].peer, ok);
      hide EnsureOpen, DoChunking, Elsewhere;
      if isOpen {
        var e2 := DoChunking(e1, key, ds[0], ok(|e1.log|));
        ChunkElsewhere(e1, key, ds[0], ok(|e1.log|));
        ElsewhereOn(e, e1, e2, key);
        DispatchesElsewhere(e2, key, ds[1..], ok);
        ElsewhereOn(e, e2, SendDispatches(e2, key, ds[1..], ok).0, key);
      }
    }
  }

  lemma WorkElsewhere(e: Engine, key: Key, routing: Option<Havelist>, ds: seq<Dispatch>, ok: Oracle)
    ensures Elsewhere(e, SendWork(e, key, routing, ds, ok).0, key)
  {
    assert Elsewhere(e, e, key);
    hide SendRouting, SendDispatches, Elsewhere;
    var subs := Sorted(e.Subscribers(key.channel));
    var e1 := if routing.Some? then SendRouting(e, key, subs, routing.value, ok).0 else e;
    if routing.Some? { RoutingElsewhere(e, key, subs, routing.value, ok); }
    DispatchesElsewhere(e1, key, ds, ok);
    ElsewhereOn(e, e1, SendDispatches(e1, key, ds, ok).0, key);
  }

  lemma RoundElsewhere(e: Engine, key: Key, ok: Oracle)
    requires key in e.sessions
    ensures Elsewhere(e, DrainRound(e, key, ok).0, key)
  {
    var (s, routing, ds) := Poll(e.sessions[key]);
    hide Poll, SendWork;
    var e1 := e.(sessions := e.sessions[key := s]);
    assert Elsewhere(e, e1, key);
    hide Elsewhere;
    WorkElsewhere(e1, key, routing, ds, ok);
    ElsewhereOn(e, e1, SendWork(e1, key, routing, ds, ok).0, key);
  }

  lemma {:induction false} DrainElsewhere(e: Engine, key: Key, ok: Oracle)
    ensures Elsewhere(e, Drain(e, key, ok).0, key)
    decreases if key in e.sessions then P.Measure(e.sessions[key].strategy) else 0
  {
    assert Elsewhere(e, e, key);
    hide Elsewhere;
    if key in e.sessions {
      RoundElsewhere(e, key, ok);
      var (e1, end) := DrainRound(e, key, ok);
      if end.None? {
        RoundLowersMeasure(e, key, ok);
        hide DrainRound;
        DrainElsewhere(e1, key, ok);
        ElsewhereOn(e, e1, Drain(e1, key, ok).0, key);
      }
    }
  }

  // ---- How far the drain of a channel gets ----

  /** The engine after draining the first `j` of these sessions, whatever their drains ended with. */
  ghost function DrainedFirst(e: Engine, c: ChannelId, messages: seq<MessageId>, ok: Oracle, j: nat): Engine
    requires j <= |messages|
    decreases j
  {
    if j == 0 then e else Drain(DrainedFirst(e, c, messages, ok, j - 1), Key(c, messages[j - 1]), ok).0
  }

  lemma {:induction false} DrainedCons(e: Engine, c: ChannelId, messages: seq<MessageId>, ok: Oracle, j: nat)
    requires j < |messages|
    ensures DrainedFirst(e, c, messages, ok, j + 1)
         == DrainedFirst(Drain(e, Key(c, messages[0]), ok).0, c, messages[1..], ok, j)
    decreases j
  {
    hide Drain;
    if j == 0 {
      assert DrainedFirst(e, c, messages, ok, 0) == e;
    } else {
      DrainedCons(e, c, messages, ok, j - 1);
    }
  }

  /** The drain of the session before `j` in this order ended in a refused control send. */
  ghost predicate FailedBefore(e: Engine, c: ChannelId, messages: seq<MessageId>, ok: Oracle, j: nat)
    requires 0 < j <= |messages|
  {
    Fails(DrainedFirst(e, c, messages, ok, j - 1), Key(c, messages[j - 1]), ok)
  }

  lemma FailedCons(e: Engine, c: ChannelId, messages: seq<MessageId>, ok: Oracle, i: nat)
    requires 0 < i < |messages|
    ensures FailedBefore(e, c, messages, ok, i + 1)
       <==> FailedBefore(Drain(e, Key(c, messages[0]), ok).0, c, messages[1..], ok, i)
  {
    hide Drain, Fails;
    DrainedCons(e, c, messages, ok, i - 1);
  }

  /**
   * The drain of a channel drains its sessions in order and stops before one only if the transport refused an open or a
   * routing update in the drain of the session before it.
   */
  lemma {:induction false} EachStops(lib: Lib, e: Engine, c: ChannelId, messages: seq<MessageId>, ok: Oracle) returns (j: nat)
    requires Base(e)
    ensures j <= |messages| && DrainEach(e, c, messages, ok) == DrainedFirst(e, c, messages, ok, j)
    ensures j < |messages| ==> 0 < j && FailedBefore(e, c, messages, ok, j)
    ensures forall i | 0 < i < j :: !FailedBefore(e, c, messages, ok, i)
    decreases |messages|
  {
    hide Drain, Fails, Base;
    j := 0;
    if messages != [] {
      var key := Key(c, messages[0]);
      var (e1, end) := Drain(e, key, ok);
      DrainFailsIff(lib, e, key, ok);
      DrainBase(lib, e, key, ok);
      DrainedCons(e, c, messages, ok, 0);
      assert DrainedFirst(e, c, messages, ok, 0) == e && DrainedFirst(e1, c, messages[1..], ok, 0) == e1;
      assert FailedBefore(e, c, messages, ok, 1) <==> end.Failure?;
      if end.Failure? {
        j := 1;
      } else {
        var n := EachStops(lib, e1, c, messages[1..], ok);
        DrainedCons(e, c, messages, ok, n);
        j := n + 1;
        forall i | 1 < i <= j && i <= |messages|
          ensures FailedBefore(e, c, messages, ok, i) <==> FailedBefore(e1, c, messages[1..], ok, i - 1)
        {
          FailedCons(e, c, messages, ok, i - 1);
        }
      }
    }
  }

  /** The drain of a channel covers its sessions in order, up to the first whose drain had a control send refused. */
  lemma ChannelDrainStops(lib: Lib, e: Engine, c: ChannelId, ok: Oracle) returns (j: nat)
    requires Base(e) && c in e.channels
    ensures var all := Sorted(Messages(e, c));
            && j <= |all| && DrainChannel(e, c, ok) == DrainedFirst(e, c, all, ok, j)
            && (j < |all| ==> 0 < j && FailedBefore(e, c, all, ok, j))
            && (forall i | 0 < i < j :: !FailedBefore(e, c, all, ok, i))
  {
    hide DrainedFirst, DrainEach, FailedBefore, Base;
    j := EachStops(lib, e, c, Sorted(Messages(e, c)), ok);
  }

  // ---- Joining ----

  /** The session is as before but for its planner, and the peer is attached in addition if `joins`. */
  ghost predicate Attaches(s: Session, t: Session, p: PeerId, joins: bool) {
    && t.phase == s.phase && t.strategy.preamble == s.strategy.preamble && t.strategy.chunks == s.strategy.chunks
    && t.strategy.planner.mode == s.strategy.planner.mode && t.strategy.planner.n == s.strategy.planner.n
    && t.strategy.attached == s.strategy.attached + if joins then {p} else {}
  }

  ghost predicate Joins(e: Engine, p: PeerId, cs: set<ChannelId>, c: ChannelId) {
    c in cs && c in e.channels && p !in e.Subscribers(c)
  }

  /**
   * The peer subscribes to exactly those of the channels that are hosted, and is attached to exactly the sessions of the
   * channels it newly joins. Sessions of other channels stay as they are.
   */
  ghost predicate Joined(e: Engine, f: Engine, p: PeerId, cs: set<ChannelId>) {
    && f.connected == e.connected && f.channels.Keys == e.channels.Keys && f.sessions.Keys == e.sessions.Keys
    && (forall c :: f.Subscribers(c) == e.Subscribers(c) + if c in cs && c in e.channels then {p} else {})
    && (forall k | k in e.sessions :: Attaches(e.sessions[k], f.sessions[k], p, Joins(e, p, cs, k.channel)))
    && (forall k | k in e.sessions && k.channel !in cs :: f.sessions[k] == e.sessions[k])
  }

  lemma JoinedOne(e: Engine, c: ChannelId, p: PeerId)
    ensures Joined(e, DoJoining(e, c, p), p, {c})
  {
  }

  lemma JoinedNone(e: Engine, p: PeerId)
    ensures Joined(e, e, p, {})
  {
  }

  lemma JoinedOn(e: Engine, f: Engine, g: Engine, p: PeerId, cs: set<ChannelId>, ds: set<ChannelId>)
    requires Joined(e, f, p, cs) && Joined(f, g, p, ds)
    ensures Joined(e, g, p, cs + ds)
  {
    hide Engine.Subscribers, Attaches;
    forall k | k in e.sessions
      ensures Attaches(e.sessions[k], g.sessions[k], p, Joins(e, p, cs + ds, k.channel))
    {
      AttachesOn(e.sessions[k], f.sessions[k], g.sessions[k], p, Joins(e, p, cs, k.channel), Joins(f, p, ds, k.channel));
      JoinsOn(e, f, p, cs, ds, k.channel);
    }
  }

  lemma AttachesOn(s: Session, t: Session, u: Session, p: PeerId, a: bool, b: bool)
    requires Attaches(s, t, p, a) && Attaches(t, u, p, b)
    ensures Attaches(s, u, p, a || b)
  {
  }

  lemma JoinsOn(e: Engine, f: Engine, p: PeerId, cs: set<ChannelId>, ds: set<ChannelId>, c: ChannelId)
    requires f.channels.Keys == e.channels.Keys
    requires f.Subscribers(c) == e.Subscribers(c) + if c in cs && c in e.channels then {p} else {}
    ensures Joins(e, p, cs + ds, c) <==> Joins(e, p, cs, c) || Joins(f, p, ds, c)
  {
  }

  /** Draining sessions of a channel keeps its tables and touches no other channel. */
  ghost predicate OnlyDrained(e: Engine, f: Engine, c: ChannelId) {
    && f.connected == e.connected && f.channels == e.channels && SameCores(e.sessions, f.sessions)
    && (forall k | k in e.sessions && k.channel != c :: f.sessions[k] == e.sessions[k])
  }

  lemma OneDrained(e: Engine, key: Key, ok: Oracle)
    ensures OnlyDrained(e, Drain(e, key, ok).0, key.channel)
  {
    DrainFrame(e, key, ok);
    DrainElsewhere(e, key, ok);
    hide Drain, SameCores, Deliveries;
  }

  lemma DrainedOn(e: Engine, f: Engine, g: Engine, c: ChannelId)
    requires OnlyDrained(e, f, c) && OnlyDrained(f, g, c)
    ensures OnlyDrained(e, g, c)
  {
  }

  lemma {:induction false} EachDrained(e: Engine, c: ChannelId, messages: seq<MessageId>, ok: Oracle)
    ensures OnlyDrained(e, DrainEach(e, c, messages, ok), c)
    decreases |messages|
  {
    if messages == [] {
      SelfCores(e.sessions);
    } else {
      hide Drain, OnlyDrained;
      OneDrained(e, Key(c, messages[0]), ok);
      var (e1, end) := Drain(e, Key(c, messages[0]), ok);
      if !end.Failure? {
        EachDrained(e1, c, messages[1..], ok);
        DrainedOn(e, e1, DrainEach(e1, c, messages[1..], ok), c);
      }
    }
  }

  lemma ChannelDrained(e: Engine, c: ChannelId, ok: Oracle)
    ensures OnlyDrained(e, DrainChannel(e, c, ok), c)
  {
    SelfCores(e.sessions);
    hide DrainEach, SameCores;
    EachDrained(e, c, Sorted(Messages(e, c)), ok);
  }

  lemma DrainedIsJoined(e: Engine, f: Engine, g: Engine, p: PeerId, c: ChannelId)
    requires Joined(e, f, p, {c}) && OnlyDrained(f, g, c)
    ensures Joined(e, g, p, {c})
  {
    hide Attaches, Joins, SameCore;
    assert forall d :: g.Subscribers(d) == f.Subscribers(d);
    hide Engine.Subscribers;
    forall k | k in e.sessions
      ensures Attaches(e.sessions[k], g.sessions[k], p, Joins(e, p, {c}, k.channel))
    {
      AttachesCore(e.sessions[k], f.sessions[k], g.sessions[k], p, Joins(e, p, {c}, k.channel));
    }
  }

  lemma AttachesCore(s: Session, t: Session, u: Session, p: PeerId, a: bool)
    requires Attaches(s, t, p, a) && SameCore(t, u)
    ensures Attaches(s, u, p, a)
  {
  }

  lemma JoinAndDrain(e: Engine, c: ChannelId, p: PeerId, ok: Oracle)
    ensures Joined(e, DrainChannel(DoJoining(e, c, p), c, ok), p, {c})
  {
    hide DoJoining, DrainChannel, Joined, OnlyDrained;
    var f := DoJoining(e, c, p);
    JoinedOne(e, c, p);
    ChannelDrained(f, c, ok);
    DrainedIsJoined(e, f, DrainChannel(f, c, ok), p, c);
  }

  ghost function ChannelSet(cs: seq<ChannelId>): set<ChannelId> {
    set c | c in cs
  }

  lemma ChannelSetCons(cs: seq<ChannelId>)
    requires cs != []
    ensures ChannelSet(cs) == {cs[0]} + ChannelSet(cs[1..])
  {
    assert cs == [cs[0]] + cs[1..];
  }

  lemma {:induction false} EachJoined(e: Engine, p: PeerId, cs: seq<ChannelId>, ok: Oracle)
    ensures Joined(e, JoinEach(e, p, cs, ok), p, ChannelSet(cs))
    decreases |cs|
  {
    hide DoJoining, DrainChannel, Joined;
    if cs == [] {
      assert ChannelSet(cs) == {};
      JoinedNone(e, p);
    } else {
      var e1 := DrainChannel(DoJoining(e, cs[0], p), cs[0], ok);
      JoinAndDrain(e, cs[0], p, ok);
      EachJoined(e1, p, cs[1..], ok);
      ChannelSetCons(cs);
      JoinedOn(e, e1, JoinEach(e1, p, cs[1..], ok), p, {cs[0]}, ChannelSet(cs[1..]));
    }
  }

  /**
   * A handshake with the right version connects the peer, subscribes it to exactly the advertised channels that are hosted,
   * and attaches it to every session of those it newly joins. One with any other version disconnects it and does nothing
   * else.
   */
  lemma HandshakeJoins(lib: Lib, e: Engine, p: PeerId, version: nat, cs: seq<ChannelId>, t: Ticks, ok: Oracle, fib: nat -> nat)
    ensures var f := HandleEvent(lib, e, HandshakeIn(p, version, cs), t, ok, fib);
            if version == PROTOCOL_VERSION then
              p in f.connected && Joined(e.(connected := e.connected + {p}), f, p, ChannelSet(cs))
            else
              f == e.(connected := e.connected - {p})
  {
    hide JoinEach, Joined;
    EachJoined(e.(connected := e.connected + {p}), p, cs, ok);
    JoinedConnected(e.(connected := e.connected + {p}), JoinEach(DoLinking(e, p, true), p, cs, ok), p, ChannelSet(cs));
  }

  lemma JoinedConnected(e: Engine, f: Engine, p: PeerId, cs: set<ChannelId>)
    requires Joined(e, f, p, cs)
    ensures f.connected == e.connected
  {
  }

  /** A subscription joins the peer to exactly that channel, if it is hosted. */
  lemma SubscriptionJoins(lib: Lib, e: Engine, p: PeerId, c: ChannelId, t: Ticks, ok: Oracle, fib: nat -> nat)
    ensures Joined(e, HandleEvent(lib, e, SubscribeIn(p, c), t, ok, fib), p, {c})
  {
    hide DrainChannel, DoJoining, Joined;
    JoinAndDrain(e, c, p, ok);
  }

  // ---- What a channel drain has served ----

  ghost predicate AllComplete(e: Engine) {
    forall k | k in e.sessions && e.sessions[k].phase.Origin? :: Complete(e.sessions[k])
  }

  /** Every origin session of the channel has every shard in flight to, or held by, every attached peer. */
  ghost predicate ChannelServed(e: Engine, c: ChannelId) {
    forall k | k in e.sessions && k.channel == c && e.sessions[k].phase.Origin? :: AllServed(e.sessions[k])
  }

  ghost predicate ServedAt(e: Engine, k: Key) {
    k in e.sessions && e.sessions[k].phase.Origin? ==> AllServed(e.sessions[k])
  }

  lemma DrainKeepsComplete(e: Engine, key: Key, ok: Oracle)
    requires AllComplete(e)
    ensures AllComplete(Drain(e, key, ok).0)
  {
    OneDrained(e, key, ok);
    hide Drain, Complete;
    var f := Drain(e, key, ok).0;
    forall k | k in f.sessions && f.sessions[k].phase.Origin?
      ensures Complete(f.sessions[k])
    {
      assert SameCore(e.sessions[k], f.sessions[k]);
      CompleteStays(e.sessions[k], f.sessions[k]);
    }
  }

  /** With a transport that accepts everything, a drain serves its session and spoils no other. */
  lemma AcceptingServes(e: Engine, key: Key, ok: Oracle, k: Key)
    requires AllComplete(e) && Accepting(ok)
    ensures ServedAt(Drain(e, key, ok).0, key) && (k != key && ServedAt(e, k) ==> ServedAt(Drain(e, key, ok).0, k))
    ensures !Drain(e, key, ok).1.Failure?
  {
    OneDrained(e, key, ok);
    DrainElsewhere(e, key, ok);
    hide Drain, Complete, AllServed, Accepting;
    if key in e.sessions {
      assert SameCore(e.sessions[key], Drain(e, key, ok).0.sessions[key]);
      AcceptingDrainIsIdle(e, key, ok);
      if e.sessions[key].phase.Origin? { DrainServes(e, key, ok); }
    } else {
      NoSessionDrain(e, key, ok);
    }
  }

  lemma NoSessionDrain(e: Engine, key: Key, ok: Oracle)
    requires key !in e.sessions
    ensures Drain(e, key, ok) == (e, NoSession)
  {
  }

  lemma {:induction false} EachServes(e: Engine, c: ChannelId, messages: seq<MessageId>, ok: Oracle, m: MessageId)
    requires AllComplete(e) && Accepting(ok) && (m in messages || ServedAt(e, Key(c, m)))
    ensures ServedAt(DrainEach(e, c, messages, ok), Key(c, m))
    decreases |messages|
  {
    hide Drain, AllComplete, ServedAt, Accepting;
    if messages != [] {
      var key := Key(c, messages[0]);
      AcceptingServes(e, key, ok, Key(c, m));
      DrainKeepsComplete(e, key, ok);
      EachServes(Drain(e, key, ok).0, c, messages[1..], ok, m);
    }
  }

  lemma {:induction false} EachComplete(e: Engine, c: ChannelId, messages: seq<MessageId>, ok: Oracle)
    requires AllComplete(e)
    ensures AllComplete(DrainEach(e, c, messages, ok))
    decreases |messages|
  {
    hide Drain, AllComplete;
    if messages != [] {
      DrainKeepsComplete(e, Key(c, messages[0]), ok);
      EachComplete(Drain(e, Key(c, messages[0]), ok).0, c, messages[1..], ok);
    }
  }

  lemma ChannelServes(e: Engine, c: ChannelId, ok: Oracle)
    requires AllComplete(e) && Accepting(ok) && c in e.channels
    ensures AllComplete(DrainChannel(e, c, ok)) && ChannelServed(DrainChannel(e, c, ok), c)
  {
    hide DrainEach, AllServed, Complete, Accepting;
    var f := DrainChannel(e, c, ok);
    ChannelDrained(e, c, ok);
    EachComplete(e, c, Sorted(Messages(e, c)), ok);
    forall k | k in f.sessions && k.channel == c && f.sessions[k].phase.Origin?
      ensures AllServed(f.sessions[k])
    {
      assert k.message in Messages(e, c);
      EachServes(e, c, Sorted(Messages(e, c)), ok, k.message);
      assert ServedAt(f, Key(c, k.message)) && Key(c, k.message) == k;
    }
  }

  lemma JoiningComplete(e: Engine, c: ChannelId, p: PeerId)
    requires AllComplete(e)
    ensures AllComplete(DoJoining(e, c, p))
  {
    var f := DoJoining(e, c, p);
    JoinedOne(e, c, p);
    hide DoJoining, Joins, Engine.Subscribers;
    forall k | k in f.sessions && f.sessions[k].phase.Origin?
      ensures Complete(f.sessions[k])
    {
      assert Attaches(e.sessions[k], f.sessions[k], p, Joins(e, p, {c}, k.channel));
    }
  }

  lemma JoinServes(e: Engine, c: ChannelId, p: PeerId, ok: Oracle)
    requires AllComplete(e) && Accepting(ok)
    ensures var f := DrainChannel(DoJoining(e, c, p), c, ok);
            AllComplete(f) && (c in e.channels ==> ChannelServed(f, c))
  {
    JoiningComplete(e, c, p);
    assert c in e.channels <==> c in DoJoining(e, c, p).channels;
    hide DoJoining, AllComplete, ChannelServed, Accepting, DrainEach;
    if c in e.channels { ChannelServes(DoJoining(e, c, p), c, ok); }
  }

  lemma ServedKept(e: Engine, f: Engine, p: PeerId, cs: set<ChannelId>, c: ChannelId)
    requires Joined(e, f, p, cs) && c !in cs && ChannelServed(e, c)
    ensures ChannelServed(f, c)
  {
    hide AllServed, Engine.Subscribers, Attaches;
  }

  lemma {:induction false} EachJoinServes(e: Engine, p: PeerId, cs: seq<ChannelId>, ok: Oracle, c: ChannelId)
    requires AllComplete(e) && Accepting(ok) && c in e.channels && (c in cs || ChannelServed(e, c))
    ensures ChannelServed(JoinEach(e, p, cs, ok), c)
    decreases |cs|
  {
    hide DoJoining, DrainChannel, AllComplete, ChannelServed, Accepting, Joined;
    if cs != [] {
      var e1 := DrainChannel(DoJoining(e, cs[0], p), cs[0], ok);
      JoinServes(e, cs[0], p, ok);
      JoinAndDrain(e, cs[0], p, ok);
      JoinedChannels(e, e1, p, {cs[0]});
      if c != cs[0] && ChannelServed(e, c) { ServedKept(e, e1, p, {cs[0]}, c); }
      EachJoinServes(e1, p, cs[1..], ok, c);
    }
  }

  lemma JoinedChannels(e: Engine, f: Engine, p: PeerId, cs: set<ChannelId>)
    requires Joined(e, f, p, cs)
    ensures f.channels.Keys == e.channels.Keys
  {
  }

  lemma ReachableComplete(lib: Lib, cfg: Config, now: nat, inputs: seq<Input>)
    requires OriginInputs(inputs)
    ensures AllComplete(Run(lib, New(cfg, now), inputs))
  {
    NewBase(cfg, now);
    RunComplete(lib, New(cfg, now), inputs);
    hide Run, New, Base, Complete;
  }

  /**
   * In every reachable state, with a transport that accepts everything: after a subscription every origin session of the
   * channel, however many there are, has every shard in flight to, or believed held by, every attached peer.
   */
  lemma SubscriptionServes(lib: Lib, cfg: Config, now: nat, inputs: seq<Input>, p: PeerId, c: ChannelId, t: Ticks, ok: Oracle,
                           fib: nat -> nat)
    requires OriginInputs(inputs) && Accepting(ok) && c in Run(lib, New(cfg, now), inputs).channels
    ensures ChannelServed(HandleEvent(lib, Run(lib, New(cfg, now), inputs), SubscribeIn(p, c), t, ok, fib), c)
  {
    var e := Run(lib, New(cfg, now), inputs);
    ReachableComplete(lib, cfg, now, inputs);
    hide Run, New, DoJoining, DrainChannel, AllComplete, ChannelServed, Accepting, OriginInputs;
    JoinServes(e, c, p, ok);
  }

  /** The same after a handshake of the right version, for every hosted channel it advertises. */
  lemma HandshakeServes(lib: Lib, cfg: Config, now: nat, inputs: seq<Input>, p: PeerId, cs: seq<ChannelId>, c: ChannelId,
                        t: Ticks, ok: Oracle, fib: nat -> nat)
    requires OriginInputs(inputs) && Accepting(ok) && c in cs && c in Run(lib, New(cfg, now), inputs).channels
    ensures ChannelServed(HandleEvent(lib, Run(lib, New(cfg, now), inputs), HandshakeIn(p, PROTOCOL_VERSION, cs), t, ok, fib), c)
  {
    var e := Run(lib, New(cfg, now), inputs);
    ReachableComplete(lib, cfg, now, inputs);
    hide Run, New, JoinEach, Complete, ChannelServed, Accepting, OriginInputs;
    var e1 := DoLinking(e, p, true);
    assert AllComplete(e1);
    EachJoinServes(e1, p, cs, ok, c);
  }

  // ---- What a poll hands out is sent ----

  ghost function ChunkOf(key: Key, d: Dispatch): NetSend {
    Chunk(d.peer, key, d.idx, d.payload, d.handle)
  }

  lemma {:induction false} ChunkScripted(open: set<PeerId>, key: Key, preamble: Bytes, ds: seq<Dispatch>, d: Dispatch)
    requires d in ds
    ensures ChunkOf(key, d) in ChunkScript(open, key, preamble, ds)
    decreases |ds|
  {
    if d != ds[0] {
      assert d in ds[1..];
      ChunkScripted(open + {ds[0].peer}, key, preamble, ds[1..], d);
    }
  }

  lemma {:induction false} AcceptedTrace(ok: Oracle, n: nat, script: seq<NetSend>, m: NetSend)
    requires Accepting(ok) && m in script
    ensures Sent(m, true) in Trace(ok, n, script)
    decreases |script|
  {
    if m != script[0] {
      assert m in script[1..];
      AcceptedTrace(ok, n + 1, script[1..], m);
    }
  }

  lemma RoundSendsPoll(e: Engine, key: Key, ok: Oracle, d: Dispatch)
    requires Base(e) && key in e.sessions && Accepting(ok) && d in Poll(e.sessions[key]).2
    ensures Sent(ChunkOf(key, d), true) in DrainRound(e, key, ok).0.log
  {
    PreambleThere(e, key);
    hide Base, Poll, DrainRound, Accepting, Trace, RoutingScript, ChunkScript;
    RoundSendsScript(e, key, ok);
    var (_, routing, ds) := Poll(e.sessions[key]);
    var open, pre, subs := e.Opened(key), e.Preamble(key), e.Subscribers(key.channel);
    ChunkScripted(open + subs, key, pre, ds, d);
    ChunkScripted(open, key, pre, ds, d);
    AcceptedTrace(ok, |e.log|, Script(e, key), ChunkOf(key, d));
  }

  lemma DrainLogsRound(lib: Lib, e: Engine, key: Key, ok: Oracle)
    requires Base(e) && key in e.sessions
    ensures DrainRound(e, key, ok).0.log <= Drain(e, key, ok).0.log
  {
    hide Base, DrainRound, Drain;
    RoundBase(lib, e, key, ok);
    var (e1, end) := DrainRound(e, key, ok);
    if end.None? {
      DrainLogs(lib, e1, key, ok);
      DrainIs(e, key, ok);
    } else {
      DrainIs(e, key, ok);
    }
  }

  lemma DrainIs(e: Engine, key: Key, ok: Oracle)
    requires key in e.sessions
    ensures var (e1, end) := DrainRound(e, key, ok);
            Drain(e, key, ok).0 == if end.None? then Drain(e1, key, ok).0 else e1
  {
    var r := DrainRound(e, key, ok);
    hide DrainRound;
    if r.1.None? {
      assert Drain(e, key, ok) == Drain(r.0, key, ok);
    } else {
      assert Drain(e, key, ok) == (r.0, r.1.value);
    }
  }

  /** With a transport that accepts everything, a drain sends every chunk its first poll hands out, in either mode. */
  lemma DrainSendsPoll(lib: Lib, e: Engine, key: Key, ok: Oracle, d: Dispatch)
    requires Base(e) && key in e.sessions && Accepting(ok) && d in Poll(e.sessions[key]).2
    ensures Sent(ChunkOf(key, d), true) in Drain(e, key, ok).0.log
  {
    hide Base, DrainRound, Drain, Poll, Accepting;
    RoundSendsPoll(e, key, ok, d);
    DrainLogsRound(lib, e, key, ok);
  }

  lemma {:induction false} UpdateScripted(open: set<PeerId>, key: Key, preamble: Bytes, peers: seq<PeerId>, have: Havelist, p: PeerId)
    requires p in peers
    ensures RoutingUpdate(p, key, have) in RoutingScript(open, key, preamble, peers, have)
    decreases |peers|
  {
    if p != peers[0] {
      assert p in peers[1..];
      UpdateScripted(open + {peers[0]}, key, preamble, peers[1..], have, p);
    }
  }

  lemma RoundSendsUpdate(e: Engine, key: Key, ok: Oracle, have: Havelist, p: PeerId)
    requires Base(e) && key in e.sessions && Accepting(ok)
    requires Poll(e.sessions[key]).1 == Some(have) && p in e.Subscribers(key.channel)
    ensures Sent(RoutingUpdate(p, key, have), true) in DrainRound(e, key, ok).0.log
  {
    PreambleThere(e, key);
    hide Base, Poll, DrainRound, Accepting, Trace, RoutingScript, ChunkScript, Engine.Subscribers;
    RoundSendsScript(e, key, ok);
    var subs := e.Subscribers(key.channel);
    UpdateScripted(e.Opened(key), key, e.Preamble(key), Sorted(subs), have, p);
    AcceptedTrace(ok, |e.log|, Script(e, key), RoutingUpdate(p, key, have));
  }

  /** With a transport that accepts everything, a drain sends a due routing update to every subscriber of the channel. */
  lemma DrainSendsUpdate(lib: Lib, e: Engine, key: Key, ok: Oracle, have: Havelist, p: PeerId)
    requires Base(e) && key in e.sessions && Accepting(ok)
    requires Poll(e.sessions[key]).1 == Some(have) && p in e.Subscribers(key.channel)
    ensures Sent(RoutingUpdate(p, key, have), true) in Drain(e, key, ok).0.log
  {
    hide Base, DrainRound, Drain, Poll, Accepting, Engine.Subscribers;
    RoundSendsUpdate(e, key, ok, have, p);
    DrainLogsRound(lib, e, key, ok);
  }
}
