/** What a drain round would send, known before it starts, and exactly when the round strands a chunk. */
module EngineScript {
  import opened Basics
  import opened Havelists
  import opened Coding
  import opened Strategies
  import opened Sessions
  import opened Engines
  import opened EngineSteps
  import opened EngineBase
  import opened EngineRuns
  import opened EngineSettlement
  import P = Polling

  // ---- The script of a round ----

  ghost predicate IsControl(m: NetSend) {
    m.SessionOpen? || m.RoutingUpdate?
  }

  /** Some control send of the script, its first send being the transport's `n`-th, is refused. */
  ghost predicate Refused(ok: Oracle, n: nat, script: seq<NetSend>) {
    exists i | 0 <= i < |script| :: IsControl(script[i]) && !ok(n + i)
  }

  ghost function OpenScript(open: set<PeerId>, key: Key, preamble: Bytes, p: PeerId): seq<NetSend> {
    if p in open then [] else [SessionOpen(p, key, preamble)]
  }

  ghost function RoutingScript(open: set<PeerId>, key: Key, preamble: Bytes, peers: seq<PeerId>, have: Havelist)
    : seq<NetSend>
    decreases |peers|
  {
    if peers == [] then []
    else OpenScript(open, key, preamble, peers[0]) + [RoutingUpdate(peers[0], key, have)]
         + RoutingScript(open + {peers[0]}, key, preamble, peers[1..], have)
  }

  ghost function ChunkScript(open: set<PeerId>, key: Key, preamble: Bytes, ds: seq<Dispatch>): seq<NetSend>
    decreases |ds|
  {
    if ds == [] then []
    else
      var d := ds[0];
      OpenScript(open, key, preamble, d.peer) + [Chunk(d.peer, key, d.idx, d.payload, d.handle)]
      + ChunkScript(open + {d.peer}, key, preamble, ds[1..])
  }

  /** A routing update to every subscriber if one is due, then the chunks. */
  ghost function WorkScript(open: set<PeerId>, preamble: Bytes, subs: set<PeerId>, key: Key, routing: Option<Havelist>,
                            ds: seq<Dispatch>): seq<NetSend>
  {
    if routing.Some?
    then RoutingScript(open, key, preamble, Sorted(subs), routing.value) + ChunkScript(open + subs, key, preamble, ds)
    else ChunkScript(open, key, preamble, ds)
  }

  /** The sends of the next round, in order, if no control send is refused. */
  ghost function Script(e: Engine, key: Key): seq<NetSend>
    requires key in e.sessions
  {
    var (_, routing, ds) := Poll(e.sessions[key]);
    WorkScript(e.Opened(key), e.Preamble(key), e.Subscribers(key.channel), key, routing, ds)
  }

  lemma RefusedSplit(ok: Oracle, n: nat, a: seq<NetSend>, b: seq<NetSend>)
    ensures Refused(ok, n, a + b) <==> Refused(ok, n, a) || Refused(ok, n + |a|, b)
  {
    if Refused(ok, n, a + b) {
      var i :| 0 <= i < |a + b| && IsControl((a + b)[i]) && !ok(n + i);
      if i >= |a| {
        assert IsControl(b[i - |a|]) && !ok((n + |a|) + (i - |a|));
      } else {
        assert IsControl(a[i]);
      }
    }
    if Refused(ok, n, a) {
      var i :| 0 <= i < |a| && IsControl(a[i]) && !ok(n + i);
      assert IsControl((a + b)[i]);
    }
    if Refused(ok, n + |a|, b) {
      var i :| 0 <= i < |b| && IsControl(b[i]) && !ok(n + |a| + i);
      assert IsControl((a + b)[|a| + i]) && !ok(n + (|a| + i));
    }
  }

  lemma RefusedOne(ok: Oracle, n: nat, m: NetSend)
    ensures Refused(ok, n, [m]) <==> IsControl(m) && !ok(n)
  {
    if IsControl(m) && !ok(n) {
      assert IsControl([m][0]) && !ok(n + 0);
    }
  }

  // ---- A round follows its script ----

  /** Nothing was refused: the whole script was sent and the session is open to these peers. */
  ghost predicate Followed(e: Engine, f: Engine, key: Key, script: seq<NetSend>, peers: set<PeerId>) {
    |f.log| == |e.log| + |script| && f.Opened(key) == e.Opened(key) + peers && f.preambles == e.preambles
  }

  lemma OpenFollows(e: Engine, key: Key, p: PeerId, ok: Oracle)
    requires key in e.preambles
    ensures var (f, isOpen) := EnsureOpen(e, key, p, ok);
            var script := OpenScript(e.Opened(key), key, e.Preamble(key), p);
            && (isOpen <==> !Refused(ok, |e.log|, script))
            && (isOpen ==> Followed(e, f, key, script, {p}))
  {
    if p in e.Opened(key) {
      assert e.Opened(key) + {p} == e.Opened(key);
    } else {
      RefusedOne(ok, |e.log|, SessionOpen(p, key, e.Preamble(key)));
      hide Refused;
    }
  }

  lemma FollowedOn(e: Engine, f: Engine, g: Engine, key: Key, a: seq<NetSend>, b: seq<NetSend>,
                   ps: set<PeerId>, qs: set<PeerId>)
    requires Followed(e, f, key, a, ps) && Followed(f, g, key, b, qs)
    ensures Followed(e, g, key, a + b, ps + qs)
  {
    hide Engine.Opened;
    assert e.Opened(key) + ps + qs == e.Opened(key) + (ps + qs);
  }

  lemma NotingFollows(e: Engine, key: Key, m: NetSend, sent: bool)
    ensures Followed(e, DoNoting(e, m, sent), key, [m], {})
  {
    assert e.Opened(key) + {} == e.Opened(key);
  }

  lemma ChunkingFollows(e: Engine, key: Key, d: Dispatch, sent: bool)
    ensures Followed(e, DoChunking(e, key, d, sent), key, [Chunk(d.peer, key, d.idx, d.payload, d.handle)], {})
  {
    hide ChunkSent;
    assert e.Opened(key) + {} == e.Opened(key);
  }

  ghost function PeerSet(peers: seq<PeerId>): set<PeerId> {
    set p | p in peers
  }

  lemma PeerSetCons(peers: seq<PeerId>)
    requires peers != []
    ensures PeerSet(peers) == {peers[0]} + PeerSet(peers[1..])
  {
    assert peers == [peers[0]] + peers[1..];
  }

  lemma FollowedMeans(e: Engine, f: Engine, key: Key, script: seq<NetSend>, peers: set<PeerId>)
    requires Followed(e, f, key, script, peers) && key in e.preambles
    ensures |f.log| == |e.log| + |script| && f.Opened(key) == e.Opened(key) + peers
    ensures key in f.preambles && f.Preamble(key) == e.Preamble(key)
  {
  }

  /** One peer's part of a loop: the open if it is needed, then the message. */
  lemma HeadFollows(e: Engine, key: Key, p: PeerId, m: NetSend, f: Engine, ok: Oracle)
    requires key in e.preambles
    requires var (e1, isOpen) := EnsureOpen(e, key, p, ok); isOpen ==> Followed(e1, f, key, [m], {})
    ensures var (e1, isOpen) := EnsureOpen(e, key, p, ok);
            var head := OpenScript(e.Opened(key), key, e.Preamble(key), p) + [m];
            && (Refused(ok, |e.log|, head) <==> !isOpen || (IsControl(m) && !ok(|e1.log|)))
            && (isOpen ==> Followed(e, f, key, head, {p}))
  {
    OpenFollows(e, key, p, ok);
    hide EnsureOpen, Refused, OpenScript, Engine.Opened;
    var (e1, isOpen) := EnsureOpen(e, key, p, ok);
    var first := OpenScript(e.Opened(key), key, e.Preamble(key), p);
    RefusedSplit(ok, |e.log|, first, [m]);
    if isOpen {
      RefusedOne(ok, |e1.log|, m);
      FollowedOn(e, e1, f, key, first, [m], {p}, {});
      assert {p} + {} == {p};
    }
  }

  lemma RoutingNothing(e: Engine, key: Key, have: Havelist, ok: Oracle)
    ensures SendRouting(e, key, [], have, ok) == (e, true)
    ensures !Refused(ok, |e.log|, RoutingScript(e.Opened(key), key, e.Preamble(key), [], have))
    ensures Followed(e, e, key, RoutingScript(e.Opened(key), key, e.Preamble(key), [], have), PeerSet([]))
  {
    assert e.Opened(key) + PeerSet([]) == e.Opened(key);
  }

  /** The routing loop fails exactly when its script has a refused send. */
  lemma {:induction false} RoutingFollows(e: Engine, key: Key, peers: seq<PeerId>, have: Havelist, ok: Oracle)
    requires key in e.preambles
    ensures var (f, done) := SendRouting(e, key, peers, have, ok);
            var script := RoutingScript(e.Opened(key), key, e.Preamble(key), peers, have);
            && (done <==> !Refused(ok, |e.log|, script))
            && (done ==> Followed(e, f, key, script, PeerSet(peers)))
    decreases |peers|
  {
    hide EnsureOpen, DoNoting, Refused, OpenScript, Followed, Engine.Opened, Engine.Preamble, PeerSet;
    if peers == [] {
      RoutingNothing(e, key, have, ok);
    } else {
      var p := peers[0];
      var m := RoutingUpdate(p, key, have);
      var (e1, isOpen) := EnsureOpen(e, key, p, ok);
      var sent := ok(|e1.log|);
      var e2 := DoNoting(e1, m, sent);
      NotingFollows(e1, key, m, sent);
      HeadFollows(e, key, p, m, e2, ok);
      var head := OpenScript(e.Opened(key), key, e.Preamble(key), p) + [m];
      var rest := RoutingScript(e.Opened(key) + {p}, key, e.Preamble(key), peers[1..], have);
      RefusedSplit(ok, |e.log|, head, rest);
      if isOpen && sent {
        FollowedMeans(e, e2, key, head, {p});
        RoutingFollows(e2, key, peers[1..], have, ok);
        PeerSetCons(peers);
        if SendRouting(e2, key, peers[1..], have, ok).1 {
          FollowedOn(e, e2, SendRouting(e2, key, peers[1..], have, ok).0, key, head, rest, {p}, PeerSet(peers[1..]));
        }
      }
    }
  }

  /** The chunk loop breaks exactly when its script has a refused open. */
  lemma {:induction false} ChunksFollow(e: Engine, key: Key, ds: seq<Dispatch>, ok: Oracle)
    requires key in e.preambles
    ensures SendDispatches(e, key, ds, ok).1.Broken? <==>
              Refused(ok, |e.log|, ChunkScript(e.Opened(key), key, e.Preamble(key), ds))
    decreases |ds|
  {
    hide EnsureOpen, DoChunking, Refused, OpenScript, Followed, Engine.Opened, Engine.Preamble;
    if ds == [] {
      NothingRefused(ok, |e.log|);
    } else {
      var d := ds[0];
      var m := Chunk(d.peer, key, d.idx, d.payload, d.handle);
      var (e1, isOpen) := EnsureOpen(e, key, d.peer, ok);
      var e2 := DoChunking(e1, key, d, ok(|e1.log|));
      ChunkingFollows(e1, key, d, ok(|e1.log|));
      HeadFollows(e, key, d.peer, m, e2, ok);
      var head := OpenScript(e.Opened(key), key, e.Preamble(key), d.peer) + [m];
      var rest := ChunkScript(e.Opened(key) + {d.peer}, key, e.Preamble(key), ds[1..]);
      RefusedSplit(ok, |e.log|, head, rest);
      if isOpen {
        FollowedMeans(e, e2, key, head, {d.peer});
        ChunksFollow(e2, key, ds[1..], ok);
      }
    }
  }

  /** Sending a poll's work fails exactly when its script has a refused control send. */
  lemma WorkFailsIff(e: Engine, key: Key, routing: Option<Havelist>, ds: seq<Dispatch>, ok: Oracle)
    requires key in e.preambles
    ensures SendWork(e, key, routing, ds, ok).1 == Some(Failure) <==>
              Refused(ok, |e.log|, WorkScript(e.Opened(key), e.Preamble(key), e.Subscribers(key.channel), key, routing, ds))
  {
    hide Refused, SendRouting, SendDispatches, RoutingScript, ChunkScript, Followed, Engine.Opened, Engine.Preamble, PeerSet;
    var open, pre, subs := e.Opened(key), e.Preamble(key), e.Subscribers(key.channel);
    if routing.Some? {
      var script := RoutingScript(open, key, pre, Sorted(subs), routing.value);
      RoutingFollows(e, key, Sorted(subs), routing.value, ok);
      var (e1, done) := SendRouting(e, key, Sorted(subs), routing.value, ok);
      RefusedSplit(ok, |e.log|, script, ChunkScript(open + subs, key, pre, ds));
      if done {
        SortedSet(subs);
        FollowedMeans(e, e1, key, script, subs);
        ChunksFollow(e1, key, ds, ok);
      }
    } else {
      ChunksFollow(e, key, ds, ok);
    }
  }

  lemma SortedSet(s: set<PeerId>)
    ensures PeerSet(Sorted(s)) == s
  {
  }

  /** A round ends in failure exactly when some open or routing send of its script is refused. */
  lemma RoundFailsIff(e: Engine, key: Key, ok: Oracle)
    requires key in e.sessions && key in e.preambles
    ensures DrainRound(e, key, ok).1 == Some(Failure) <==> Refused(ok, |e.log|, Script(e, key))
  {
    var (s, routing, ds) := Poll(e.sessions[key]);
    hide Poll, Refused, SendWork, RoutingScript;
    var e1 := e.(sessions := e.sessions[key := s]);
    assert e1.Opened(key) == e.Opened(key) && e1.Preamble(key) == e.Preamble(key);
    assert e1.Subscribers(key.channel) == e.Subscribers(key.channel);
    WorkFailsIff(e1, key, routing, ds, ok);
    NothingRefused(ok, |e.log|);
  }

  lemma NothingRefused(ok: Oracle, n: nat)
    ensures !Refused(ok, n, [])
  {
  }

  // ---- What a round sends ----

  /** The sends of the script in order, each with its result, up to the first refused control send. */
  ghost function Trace(ok: Oracle, n: nat, script: seq<NetSend>): seq<Event>
    decreases |script|
  {
    if script == [] then []
    else
      [Sent(script[0], ok(n))]
      + if IsControl(script[0]) && !ok(n) then [] else Trace(ok, n + 1, script[1..])
  }

  lemma RefusedCons(ok: Oracle, n: nat, script: seq<NetSend>)
    requires script != []
    ensures Refused(ok, n, script) <==> (IsControl(script[0]) && !ok(n)) || Refused(ok, n + 1, script[1..])
  {
    RefusedSplit(ok, n, [script[0]], script[1..]);
    RefusedOne(ok, n, script[0]);
    hide Refused;
    assert [script[0]] + script[1..] == script;
  }

  lemma TraceCons(ok: Oracle, n: nat, m: NetSend, rest: seq<NetSend>)
    ensures Trace(ok, n, [m] + rest)
         == [Sent(m, ok(n))] + if IsControl(m) && !ok(n) then [] else Trace(ok, n + 1, rest)
  {
    assert ([m] + rest)[1..] == rest;
  }

  lemma TraceEmpty(ok: Oracle, n: nat, b: seq<NetSend>)
    ensures !Refused(ok, n, []) && Trace(ok, n, []) == [] && [] + b == b && [] + Trace(ok, n, b) == Trace(ok, n, b)
  {
  }

  lemma {:induction false} TraceSplit(ok: Oracle, n: nat, a: seq<NetSend>, b: seq<NetSend>)
    ensures !Refused(ok, n, a) ==> |Trace(ok, n, a)| == |a|
    ensures Trace(ok, n, a + b) == Trace(ok, n, a) + if Refused(ok, n, a) then [] else Trace(ok, n + |a|, b)
    decreases |a|
  {
    hide *;
    if a == [] {
      TraceEmpty(ok, n, b);
    } else {
      var m, rest := a[0], a[1..];
      RefusedCons(ok, n, a);
      TraceSplit(ok, n + 1, rest, b);
      TraceCons(ok, n, m, rest);
      TraceCons(ok, n, m, rest + b);
      assert [m] + rest == a && [m] + (rest + b) == a + b;
      ConsAppend(Sent(m, ok(n)), Trace(ok, n + 1, rest), if Refused(ok, n, a) then [] else Trace(ok, n + |a|, b));
    }
  }

  lemma ConsAppend(x: Event, xs: seq<Event>, ys: seq<Event>)
    ensures [x] + (xs + ys) == [x] + xs + ys
  {
  }

  lemma TraceOne(ok: Oracle, n: nat, m: NetSend)
    ensures Trace(ok, n, [m]) == [Sent(m, ok(n))]
  {
    assert [m][1..] == [];
    assert Trace(ok, n + 1, []) == [];
  }

  lemma OpenTraces(e: Engine, key: Key, p: PeerId, ok: Oracle)
    requires key in e.preambles
    ensures EnsureOpen(e, key, p, ok).0.log == e.log + Trace(ok, |e.log|, OpenScript(e.Opened(key), key, e.Preamble(key), p))
  {
    TraceOne(ok, |e.log|, SessionOpen(p, key, e.Preamble(key)));
  }

  /** One peer's part of a loop: the open if it is needed, then the message, if the open was not refused. */
  lemma HeadTraces(e: Engine, key: Key, p: PeerId, m: NetSend, ok: Oracle)
    requires key in e.preambles
    ensures var (e1, isOpen) := EnsureOpen(e, key, p, ok);
            var head := OpenScript(e.Opened(key), key, e.Preamble(key), p) + [m];
            e.log + Trace(ok, |e.log|, head) == if isOpen then e1.log + [Sent(m, ok(|e1.log|))] else e1.log
  {
    OpenFollows(e, key, p, ok);
    OpenTraces(e, key, p, ok);
    var (e1, isOpen) := EnsureOpen(e, key, p, ok);
    var first := OpenScript(e.Opened(key), key, e.Preamble(key), p);
    hide EnsureOpen, Refused, OpenScript, Engine.Opened;
    TraceSplit(ok, |e.log|, first, [m]);
    TraceOne(ok, |e1.log|, m);
  }

  /** Putting the trace of a loop together from its first peer's part and the rest. */
  lemma TraceOn(e: Engine, e2: Engine, g: Engine, ok: Oracle, head: seq<NetSend>, rest: seq<NetSend>)
    requires !Refused(ok, |e.log|, head) && e2.log == e.log + Trace(ok, |e.log|, head)
    requires g.log == e2.log + Trace(ok, |e2.log|, rest)
    ensures g.log == e.log + Trace(ok, |e.log|, head + rest)
  {
    hide Refused, Trace;
    TraceSplit(ok, |e.log|, head, rest);
    var x, y := Trace(ok, |e.log|, head), Trace(ok, |e.log| + |head|, rest);
    assert |e2.log| == |e.log| + |head|;
    assert e.log + (x + y) == e.log + x + y;
  }

  lemma {:induction false} RoutingTraces(e: Engine, key: Key, peers: seq<PeerId>, have: Havelist, ok: Oracle)
    requires key in e.preambles
    ensures SendRouting(e, key, peers, have, ok).0.log
         == e.log + Trace(ok, |e.log|, RoutingScript(e.Opened(key), key, e.Preamble(key), peers, have))
    decreases |peers|
  {
    hide EnsureOpen, Refused, OpenScript, Followed, Engine.Opened, Engine.Preamble, Trace;
    if peers == [] {
      assert Trace(ok, |e.log|, []) == [] by { TraceNothing(ok, |e.log|); }
    } else {
      var p := peers[0];
      var m := RoutingUpdate(p, key, have);
      var (e1, isOpen) := EnsureOpen(e, key, p, ok);
      var e2 := DoNoting(e1, m, ok(|e1.log|));
      NotingFollows(e1, key, m, ok(|e1.log|));
      HeadFollows(e, key, p, m, e2, ok);
      HeadTraces(e, key, p, m, ok);
      var head := OpenScript(e.Opened(key), key, e.Preamble(key), p) + [m];
      var rest := RoutingScript(e.Opened(key) + {p}, key, e.Preamble(key), peers[1..], have);
      TraceSplit(ok, |e.log|, head, rest);
      if isOpen && ok(|e1.log|) {
        FollowedMeans(e, e2, key, head, {p});
        RoutingTraces(e2, key, peers[1..], have, ok);
        TraceOn(e, e2, SendRouting(e2, key, peers[1..], have, ok).0, ok, head, rest);
      }
    }
  }

  lemma TraceNothing(ok: Oracle, n: nat)
    ensures Trace(ok, n, []) == []
  {
  }

  lemma {:induction false} ChunksTrace(e: Engine, key: Key, ds: seq<Dispatch>, ok: Oracle)
    requires key in e.preambles
    ensures SendDispatches(e, key, ds, ok).0.log
         == e.log + Trace(ok, |e.log|, ChunkScript(e.Opened(key), key, e.Preamble(key), ds))
    decreases |ds|
  {
    hide EnsureOpen, Refused, OpenScript, Followed, Engine.Opened, Engine.Preamble, Trace, Engine.Settled;
    if ds == [] {
      TraceNothing(ok, |e.log|);
    } else {
      var d := ds[0];
      var m := Chunk(d.peer, key, d.idx, d.payload, d.handle);
      var (e1, isOpen) := EnsureOpen(e, key, d.peer, ok);
      var e2 := DoChunking(e1, key, d, ok(|e1.log|));
      ChunkingFollows(e1, key, d, ok(|e1.log|));
      HeadFollows(e, key, d.peer, m, e2, ok);
      HeadTraces(e, key, d.peer, m, ok);
      var head := OpenScript(e.Opened(key), key, e.Preamble(key), d.peer) + [m];
      var rest := ChunkScript(e.Opened(key) + {d.peer}, key, e.Preamble(key), ds[1..]);
      TraceSplit(ok, |e.log|, head, rest);
      if isOpen {
        FollowedMeans(e, e2, key, head, {d.peer});
        ChunksTrace(e2, key, ds[1..], ok);
        TraceOn(e, e2, SendDispatches(e2, key, ds[1..], ok).0, ok, head, rest);
      }
    }
  }

  lemma WorkTraces(e: Engine, key: Key, routing: Option<Havelist>, ds: seq<Dispatch>, ok: Oracle)
    requires key in e.preambles
    ensures SendWork(e, key, routing, ds, ok).0.log
         == e.log + Trace(ok, |e.log|,
                          WorkScript(e.Opened(key), e.Preamble(key), e.Subscribers(key.channel), key, routing, ds))
  {
    hide Refused, SendRouting, SendDispatches, RoutingScript, ChunkScript, Followed, Engine.Opened, Engine.Preamble, PeerSet,
         Trace;
    var open, pre, subs := e.Opened(key), e.Preamble(key), e.Subscribers(key.channel);
    if routing.Some? {
      var script := RoutingScript(open, key, pre, Sorted(subs), routing.value);
      RoutingFollows(e, key, Sorted(subs), routing.value, ok);
      RoutingTraces(e, key, Sorted(subs), routing.value, ok);
      var (e1, done) := SendRouting(e, key, Sorted(subs), routing.value, ok);
      var rest := ChunkScript(open + subs, key, pre, ds);
      TraceSplit(ok, |e.log|, script, rest);
      if done {
        SortedSet(subs);
        FollowedMeans(e, e1, key, script, subs);
        ChunksTrace(e1, key, ds, ok);
        TraceOn(e, e1, SendDispatches(e1, key, ds, ok).0, ok, script, rest);
      }
    } else {
      ChunksTrace(e, key, ds, ok);
    }
  }

  /** A round makes exactly the sends of its script, in order, up to the first open or routing update that is refused. */
  lemma RoundSendsScript(e: Engine, key: Key, ok: Oracle)
    requires key in e.sessions && key in e.preambles
    ensures DrainRound(e, key, ok).0.log == e.log + Trace(ok, |e.log|, Script(e, key))
  {
    var (s, routing, ds) := Poll(e.sessions[key]);
    hide Poll, SendWork, RoutingScript, Trace;
    var e1 := e.(sessions := e.sessions[key := s]);
    assert e1.Opened(key) == e.Opened(key) && e1.Preamble(key) == e.Preamble(key);
    assert e1.Subscribers(key.channel) == e.Subscribers(key.channel);
    WorkTraces(e1, key, routing, ds, ok);
    TraceNothing(ok, |e.log|);
  }

  /** Some round of the drain has a control send refused. */
  ghost predicate Fails(e: Engine, key: Key, ok: Oracle)
    decreases if key in e.sessions then P.Measure(e.sessions[key].strategy) else 0
  {
    key in e.sessions &&
    (|| Refused(ok, |e.log|, Script(e, key))
     || (var (f, end) := DrainRound(e, key, ok);
         end.None? && (RoundLowersMeasure(e, key, ok); Fails(f, key, ok))))
  }

  /** A drain ends in failure if and only if the transport refuses an open or a routing update in one of its rounds. */
  lemma {:induction false} DrainFailsIff(lib: Lib, e: Engine, key: Key, ok: Oracle)
    requires Base(e)
    ensures Drain(e, key, ok).1.Failure? <==> Fails(e, key, ok)
    decreases if key in e.sessions then P.Measure(e.sessions[key].strategy) else 0
  {
    hide Base, Refused, Script, Poll, DrainRound;
    if key in e.sessions {
      PreambleThere(e, key);
      RoundFailsIff(e, key, ok);
      RoundBase(lib, e, key, ok);
      if DrainRound(e, key, ok).1.None? {
        RoundLowersMeasure(e, key, ok);
        DrainFailsIff(lib, DrainRound(e, key, ok).0, key, ok);
      }
    }
  }

  // ---- Which chunks a round strands ----

  /** The chunk is in flight and no outcome is awaited for it. */
  ghost predicate Stranded(e: Engine, key: Key, d: Dispatch) {
    d.handle in InFlight(e, key) && Ticket(key, d.handle) !in e.pending
  }

  /** Exactly the dispatches from `cut` on are stranded. */
  ghost predicate CutAt(e: Engine, key: Key, ds: seq<Dispatch>, cut: nat) {
    cut <= |ds| && forall i | 0 <= i < |ds| :: Stranded(e, key, ds[i]) <==> i >= cut
  }

  lemma ReadyIsStranded(e: Engine, key: Key, ds: seq<Dispatch>)
    requires AllReady(e, key, ds)
    ensures CutAt(e, key, ds, 0)
  {
    forall i | 0 <= i < |ds|
      ensures Stranded(e, key, ds[i])
    {
      assert Ready(e, key, ds[i]);
    }
  }

  /** A chunk handed over is not stranded, whether the transport took it or refused it. */
  lemma HandedOver(e: Engine, key: Key, c: Dispatch, sent: bool, d: Dispatch)
    requires d.handle == c.handle || !Stranded(e, key, d)
    ensures !Stranded(DoChunking(e, key, c, sent), key, d)
  {
  }

  lemma {:induction false} HandedStays(e: Engine, key: Key, ds: seq<Dispatch>, ok: Oracle, d: Dispatch)
    requires !Stranded(e, key, d)
    ensures !Stranded(SendDispatches(e, key, ds, ok).0, key, d)
    decreases |ds|
  {
    if ds != [] {
      var (e1, isOpen) := EnsureOpen(e, key, ds[0].peer, ok);
      hide EnsureOpen, DoChunking;
      assert !Stranded(e1, key, d);
      hide Stranded;
      if isOpen {
        HandedOver(e1, key, ds[0], ok(|e1.log|), d);
        HandedStays(DoChunking(e1, key, ds[0], ok(|e1.log|)), key, ds[1..], ok, d);
      }
    }
  }

  lemma {:induction false} DispatchesCut(e: Engine, key: Key, ds: seq<Dispatch>, ok: Oracle) returns (cut: nat)
    requires AllReady(e, key, ds)
    ensures var (f, round) := SendDispatches(e, key, ds, ok);
            CutAt(f, key, ds, cut) && (round.Broken? <==> cut < |ds|)
    decreases |ds|
  {
    cut := 0;
    if ds != [] {
      var (e1, isOpen) := EnsureOpen(e, key, ds[0].peer, ok);
      hide EnsureOpen, DoChunking, AllReady, Stranded;
      SameSessionsReady(e, e1, key, ds);
      if isOpen {
        var e2 := DoChunking(e1, key, ds[0], ok(|e1.log|));
        ChunkingKeepsReady(e1, key, ds, ok(|e1.log|));
        HandedOver(e1, key, ds[0], ok(|e1.log|), ds[0]);
        HandedStays(e2, key, ds[1..], ok, ds[0]);
        cut := DispatchesCut(e2, key, ds[1..], ok);
        CutCons(SendDispatches(e2, key, ds[1..], ok).0, key, ds, cut);
        cut := cut + 1;
      } else {
        ReadyIsStranded(e1, key, ds);
      }
    }
  }

  lemma CutCons(e: Engine, key: Key, ds: seq<Dispatch>, cut: nat)
    requires ds != [] && CutAt(e, key, ds[1..], cut) && !Stranded(e, key, ds[0])
    ensures CutAt(e, key, ds, cut + 1)
  {
    hide Stranded;
    forall i | 0 < i < |ds|
      ensures Stranded(e, key, ds[i]) <==> i >= cut + 1
    {
      assert ds[i] == ds[1..][i - 1];
    }
  }

  lemma WorkCut(e: Engine, key: Key, routing: Option<Havelist>, ds: seq<Dispatch>, ok: Oracle) returns (cut: nat)
    requires AllReady(e, key, ds)
    ensures var (f, end) := SendWork(e, key, routing, ds, ok);
            CutAt(f, key, ds, cut) && (cut < |ds| <==> ds != [] && end == Some(Failure))
  {
    hide SendRouting, SendDispatches, AllReady, CutAt, Grown;
    var subs := Sorted(e.Subscribers(key.channel));
    if routing.Some? { RoutingGrows(e, key, subs, routing.value, ok, 0); }
    var (e1, done) := if routing.Some? then SendRouting(e, key, subs, routing.value, ok) else (e, true);
    SameSessionsReady(e, e1, key, ds);
    if done {
      cut := DispatchesCut(e1, key, ds, ok);
      if ds == [] { NothingToSend(e1, key, ok); }
      CutBound(SendDispatches(e1, key, ds, ok).0, key, ds, cut);
    } else {
      cut := 0;
      ReadyIsStranded(e1, key, ds);
    }
  }

  lemma CutBound(e: Engine, key: Key, ds: seq<Dispatch>, cut: nat)
    requires CutAt(e, key, ds, cut)
    ensures cut <= |ds|
  {
  }

  lemma NothingToSend(e: Engine, key: Key, ok: Oracle)
    ensures SendDispatches(e, key, [], ok) == (e, Clear)
  {
  }

  /**
   * Exactly which chunks of its poll a round strands: those from some position on, and there is such a chunk if and only if
   * the poll has chunks and the transport refuses one of the opens and routing updates of the round's script. By
   * `UnawaitedIsIgnored` no outcome can ever settle a stranded chunk; only a departure can.
   */
  lemma RoundStrandsRest(e: Engine, key: Key, ok: Oracle) returns (cut: nat)
    requires Base(e) && key in e.sessions
    ensures var ds := Poll(e.sessions[key]).2;
            && CutAt(DrainRound(e, key, ok).0, key, ds, cut)
            && (cut < |ds| <==> ds != [] && Refused(ok, |e.log|, Script(e, key)))
  {
    PreambleThere(e, key);
    assert FlightsOk(e.sessions[key].strategy) by { assert Live(e, key); }
    hide Base, Refused, Script, FlightsOk, AllReady, CutAt;
    RoundFailsIff(e, key, ok);
    PollReady(e, key);
    var (s, routing, ds) := Poll(e.sessions[key]);
    hide Poll, SendWork;
    var e1 := e.(sessions := e.sessions[key := s]);
    cut := WorkCut(e1, key, routing, ds, ok);
    if ds == [] { cut := 0; ReadyIsStranded(DrainRound(e, key, ok).0, key, []); }
  }

  // ---- When all flights stay awaited ----

  lemma IdleWorkCovers(e: Engine, key: Key, routing: Option<Havelist>, ok: Oracle)
    requires Covered(e, key)
    ensures Covered(SendWork(e, key, routing, [], ok).0, key)
  {
    hide SendRouting, Grown;
    var subs := Sorted(e.Subscribers(key.channel));
    if routing.Some? { RoutingGrows(e, key, subs, routing.value, ok, 0); }
  }

  lemma StrandedUncovers(e: Engine, key: Key, ds: seq<Dispatch>, cut: nat)
    requires CutAt(e, key, ds, cut) && cut < |ds|
    ensures !Covered(e, key)
  {
    assert Stranded(e, key, ds[cut]);
  }

  /**
   * A round of a covered session leaves every flight awaited if and only if its poll has no chunks or none of the opens
   * and routing sends of its script is refused.
   */
  lemma RoundCoversIff(e: Engine, key: Key, ok: Oracle)
    requires Base(e) && key in e.sessions && Covered(e, key)
    ensures Covered(DrainRound(e, key, ok).0, key) <==>
              Poll(e.sessions[key]).2 == [] || !Refused(ok, |e.log|, Script(e, key))
  {
    assert key in e.preambles;
    assert FlightsOk(e.sessions[key].strategy) by { assert Live(e, key); }
    hide Base, Refused, Script, Covered, FlightsOk, CutAt;
    RoundFailsIff(e, key, ok);
    RoundGrows(e, key, ok);
    PollGrows(e, key);
    var cut := RoundStrandsRest(e, key, ok);
    var (s, routing, ds) := Poll(e.sessions[key]);
    hide Poll, SendWork, Grown, Owing;
    var e1 := e.(sessions := e.sessions[key := s]);
    if ds == [] {
      NothingOwed(e1, key);
      IdleWorkCovers(e1, key, routing, ok);
    } else if Refused(ok, |e.log|, Script(e, key)) {
      StrandedUncovers(DrainRound(e, key, ok).0, key, ds, cut);
    }
  }

  /** Some round of the drain polls chunks and has a control send refused. */
  ghost predicate Strands(e: Engine, key: Key, ok: Oracle)
    decreases if key in e.sessions then P.Measure(e.sessions[key].strategy) else 0
  {
    key in e.sessions &&
    if Refused(ok, |e.log|, Script(e, key)) then Poll(e.sessions[key]).2 != []
    else
      var (f, end) := DrainRound(e, key, ok);
      end.None? && (RoundLowersMeasure(e, key, ok); Strands(f, key, ok))
  }

  /** A drain of a covered session leaves every flight awaited if and only if no round of it strands. */
  lemma {:induction false} DrainCoversIff(lib: Lib, e: Engine, key: Key, ok: Oracle)
    requires Base(e) && Covered(e, key)
    ensures Covered(Drain(e, key, ok).0, key) <==> !Strands(e, key, ok)
    decreases if key in e.sessions then P.Measure(e.sessions[key].strategy) else 0
  {
    hide Base, Covered, Refused, Script, Poll, DrainRound;
    if key in e.sessions {
      PreambleThere(e, key);
      RoundCoversIff(e, key, ok);
      RoundFailsIff(e, key, ok);
      RoundBase(lib, e, key, ok);
      if DrainRound(e, key, ok).1.None? {
        RoundLowersMeasure(e, key, ok);
        DrainCoversIff(lib, DrainRound(e, key, ok).0, key, ok);
      }
    }
  }

  lemma PreambleThere(e: Engine, key: Key)
    requires Base(e) && key in e.sessions
    ensures key in e.preambles
  {
  }
}
