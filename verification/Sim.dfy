/** The discrete-event scheduler as values: order and conservation over any interleaving of its operations. */
module Sims {
  import opened Basics
  import opened Engines
  import opened Faults

  /** A delivery to a peer's inbound queue, or the wakeup of a sleeper. */
  datatype Pending = Delivery(dst: PeerId, event: NetEvent) | Wakeup

  datatype Entry = Entry(at: nat, seqNo: nat, pending: Pending)

  /** Heap order: by time, then by sequence number. */
  predicate Before(a: Entry, b: Entry) {
    a.at < b.at || (a.at == b.at && a.seqNo < b.seqNo)
  }

  datatype Disposition = Scheduled(deliverAt: nat) | Dropped(reason: DropReason)

  datatype TraceKind = Send(src: PeerId, dst: PeerId, disposition: Disposition) | EngineStep(peer: PeerId)

  datatype TraceEntry = TraceEntry(at: nat, seqNo: nat, kind: TraceKind)

  /** `pushed` and `popped` are history: every entry ever scheduled or processed, in order. */
  datatype Sim = Sim(
    now: nat,
    nextSeq: nat,
    heap: multiset<Entry>,
    trace: seq<TraceEntry>,
    inboxes: map<PeerId, seq<NetEvent>>,
    pushed: seq<Entry>,
    popped: seq<Entry>)

  // ---- Messages ----

  function Destination(msg: NetSend): PeerId
    requires !msg.SessionReconstructed?
  {
    msg.peer
  }

  /** The event the destination sees; its peer is the sender. */
  function IntoEvent(src: PeerId, msg: NetSend): NetEvent
    requires !msg.SessionReconstructed?
  {
    match msg
    case Handshake(_, version, channels) => HandshakeIn(src, version, Basics.Sorted(channels))
    case Subscribe(_, channel) => SubscribeIn(src, channel)
    case SessionOpen(_, key, preamble) => SessionOpenIn(src, key, preamble)
    case RoutingUpdate(_, key, _) => RoutingUpdateIn(src, key)
    case Chunk(_, key, idx, data, _) => ChunkIn(src, key, idx, data)
  }

  // ---- Operations ----

  ghost function Push(s: Sim, x: Entry): Sim {
    s.(nextSeq := s.nextSeq + 1, heap := s.heap + multiset{x}, pushed := s.pushed + [x])
  }

  /** A send with the fault plan's verdict. The flag is false when the destination is unknown. */
  ghost function Submit(s: Sim, src: PeerId, msg: NetSend, c: Classification): (Sim, bool) {
    if msg.SessionReconstructed? then (s, true)
    else if Destination(msg) !in s.inboxes then (s, false)
    else match c
      case Drop(reason) =>
        (s.(nextSeq := s.nextSeq + 1,
            trace := s.trace + [TraceEntry(s.now, s.nextSeq, Send(src, Destination(msg), Dropped(reason)))]), true)
      case Deliver(delay) =>
        var x := Entry(s.now + delay, s.nextSeq, Delivery(Destination(msg), IntoEvent(src, msg)));
        var t := TraceEntry(s.now, s.nextSeq, Send(src, Destination(msg), Scheduled(s.now + delay)));
        (Push(s, x).(trace := s.trace + [t]), true)
  }

  ghost function Sleep(s: Sim, d: nat): Sim {
    Push(s, Entry(s.now + d, s.nextSeq, Wakeup))
  }

  ghost predicate IsEarliest(heap: multiset<Entry>, x: Entry) {
    x in heap && forall y | y in heap :: !Before(y, x)
  }

  lemma {:induction false} EarliestOf(entries: set<Entry>)
    requires entries != {}
    ensures exists x :: x in entries && forall y | y in entries :: !Before(y, x)
    decreases |entries|
  {
    var y :| y in entries;
    var rest := entries - {y};
    if rest == {} {
      assert entries == {y};
    } else {
      EarliestOf(rest);
      var m :| m in rest && forall x | x in rest :: !Before(x, m);
      var first := if Before(y, m) then y else m;
      assert forall x | x in entries :: x == y || x in rest;
      assert first in entries && forall x | x in entries :: !Before(x, first);
    }
  }

  lemma EarliestExists(heap: multiset<Entry>)
    requires heap != multiset{}
    ensures exists x :: IsEarliest(heap, x)
  {
    var s := set x | x in heap;
    var y :| y in heap;
    assert y in s;
    EarliestOf(s);
    var x :| x in s && forall y | y in s :: !Before(y, x);
    assert forall y | y in heap :: y in s;
    assert IsEarliest(heap, x);
  }

  ghost function Earliest(heap: multiset<Entry>): Entry
    requires heap != multiset{}
  {
    EarliestExists(heap);
    var x :| IsEarliest(heap, x); x
  }

  /** Processes an entry: time moves to it, a delivery goes to its inbound queue. */
  ghost function Process(s: Sim, x: Entry): Sim {
    s.(now := x.at, heap := s.heap - multiset{x}, popped := s.popped + [x], inboxes := Queued(s.inboxes, x.pending))
  }

  /** The inbound queues after an entry was processed. */
  function Queued(inboxes: map<PeerId, seq<NetEvent>>, what: Pending): map<PeerId, seq<NetEvent>> {
    if what.Delivery? && what.dst in inboxes then inboxes[what.dst := inboxes[what.dst] + [what.event]] else inboxes
  }

  ghost function Pop(s: Sim): Sim {
    if s.heap == multiset{} then s else Process(s, Earliest(s.heap))
  }

  /** Processes everything due at or before `target`, then moves time there. */
  ghost function Advance(s: Sim, target: nat): Sim
    decreases |s.heap|
  {
    if s.heap != multiset{} && Earliest(s.heap).at <= target then Advance(Pop(s), target)
    else if target > s.now then s.(now := target)
    else s
  }

  ghost function RecordStep(s: Sim, p: PeerId): Sim {
    s.(nextSeq := s.nextSeq + 1, trace := s.trace + [TraceEntry(s.now, s.nextSeq, EngineStep(p))])
  }

  datatype Op =
    | Submitting(src: PeerId, msg: NetSend, c: Classification)
    | Sleeping(d: nat)
    | Popping
    | Advancing(target: nat)
    | Recording(peer: PeerId)

  ghost function Apply(s: Sim, op: Op): Sim {
    match op
    case Submitting(src, msg, c) => Submit(s, src, msg, c).0
    case Sleeping(d) => Sleep(s, d)
    case Popping => Pop(s)
    case Advancing(target) => Advance(s, target)
    case Recording(p) => RecordStep(s, p)
  }

  ghost function Run(s: Sim, ops: seq<Op>): Sim
    decreases |ops|
  {
    if ops == [] then s else Run(Apply(s, ops[0]), ops[1..])
  }

  /** A simulation with these peers registered. */
  function Start(peers: set<PeerId>): Sim {
    Sim(0, 0, multiset{}, [], map p | p in peers :: [], [], [])
  }

  // ---- The invariant ----

  ghost predicate Increasing(xs: seq<Entry>) {
    forall i, j | 0 <= i < j < |xs| :: Before(xs[i], xs[j])
  }

  ghost predicate Numbered(xs: seq<Entry>) {
    forall i, j | 0 <= i < j < |xs| :: xs[i].seqNo < xs[j].seqNo
  }

  /** The events delivered to a peer, in the order processed. */
  ghost function EventsTo(xs: seq<Entry>, p: PeerId): seq<NetEvent> {
    if xs == [] then []
    else
      var x := xs[|xs| - 1];
      EventsTo(xs[..|xs| - 1], p) + if x.pending.Delivery? && x.pending.dst == p then [x.pending.event] else []
  }

  /** Nothing pending lies in the past or before anything already processed. */
  ghost predicate Ahead(s: Sim) {
    && (forall x | x in s.heap :: s.now <= x.at)
    && (forall x, i | x in s.heap && 0 <= i < |s.popped| :: Before(s.popped[i], x))
    && (forall i | 0 <= i < |s.popped| :: s.popped[i].at <= s.now)
  }

  /** Everything ever scheduled is pending or was processed, exactly once. */
  ghost predicate Conserved(s: Sim) {
    multiset(s.pushed) == s.heap + multiset(s.popped)
  }

  ghost predicate Counted(s: Sim) {
    Numbered(s.pushed) && forall i | 0 <= i < |s.pushed| :: s.pushed[i].seqNo < s.nextSeq
  }

  /** Every inbound queue holds what was processed for it, and deliveries go to registered peers. */
  ghost predicate Routed(s: Sim) {
    && (forall p | p in s.inboxes :: s.inboxes[p] == EventsTo(s.popped, p))
    && (forall i | 0 <= i < |s.pushed| && s.pushed[i].pending.Delivery? :: s.pushed[i].pending.dst in s.inboxes)
  }

  ghost predicate Inv(s: Sim) {
    Ahead(s) && Conserved(s) && Counted(s) && Increasing(s.popped) && Routed(s)
  }

  lemma PushInv(s: Sim, x: Entry)
    requires Inv(s) && s.now <= x.at && x.seqNo == s.nextSeq
    requires x.pending.Delivery? ==> x.pending.dst in s.inboxes
    ensures Inv(Push(s, x))
  {
    PushAhead(s, x);
    var t := Push(s, x);
    hide Ahead, Increasing, EventsTo;
    assert Conserved(t);
    assert Counted(t) by { hide Conserved, Routed; }
    hide Conserved, Counted;
  }

  lemma PushAhead(s: Sim, x: Entry)
    requires Inv(s) && s.now <= x.at && x.seqNo == s.nextSeq
    ensures Ahead(Push(s, x))
  {
    forall i | 0 <= i < |s.popped|
      ensures Before(s.popped[i], x)
    {
      PoppedNumber(s, i);
    }
    hide Conserved, Counted, Increasing, Routed;
  }

  lemma PoppedNumber(s: Sim, i: nat)
    requires Conserved(s) && Counted(s) && i < |s.popped|
    ensures s.popped[i] in s.pushed && s.popped[i].seqNo < s.nextSeq
  {
    assert s.popped[i] in multiset(s.popped);
    assert s.popped[i] in multiset(s.pushed);
  }

  /** Different entries have different numbers. */
  lemma PendingDistinct(s: Sim, x: Entry, y: Entry)
    requires Conserved(s) && Counted(s) && x in s.heap && y in s.heap
    ensures x != y ==> x.seqNo != y.seqNo
    ensures s.heap[x] == 1
  {
    assert x in multiset(s.pushed) && y in multiset(s.pushed);
    NumberedOnce(s.pushed, x);
    var i :| 0 <= i < |s.pushed| && s.pushed[i] == x;
    var j :| 0 <= j < |s.pushed| && s.pushed[j] == y;
    assert i < j || j < i || i == j;
    assert s.heap[x] <= multiset(s.pushed)[x];
  }

  lemma {:induction false} NumberedOnce(xs: seq<Entry>, x: Entry)
    requires Numbered(xs)
    ensures multiset(xs)[x] <= 1
    decreases |xs|
  {
    if xs != [] {
      var last := xs[|xs| - 1];
      var rest := xs[..|xs| - 1];
      assert xs == rest + [last];
      NumberedOnce(rest, x);
      assert forall i | 0 <= i < |rest| :: rest[i].seqNo < last.seqNo;
    }
  }

  lemma EventsAppend(xs: seq<Entry>, x: Entry, p: PeerId)
    ensures EventsTo(xs + [x], p)
         == EventsTo(xs, p) + if x.pending.Delivery? && x.pending.dst == p then [x.pending.event] else []
  {
    assert (xs + [x])[..|xs|] == xs;
  }

  lemma ProcessAhead(s: Sim, x: Entry)
    requires Inv(s) && IsEarliest(s.heap, x)
    ensures Ahead(Process(s, x)) && Increasing(Process(s, x).popped)
  {
    var t := Process(s, x);
    forall y | y in t.heap
      ensures t.now <= y.at && Before(x, y)
    {
      PendingDistinct(s, x, y);
      assert y in s.heap && y != x && !Before(y, x);
    }
  }

  lemma ProcessInv(s: Sim, x: Entry)
    requires Inv(s) && IsEarliest(s.heap, x)
    ensures Inv(Process(s, x))
  {
    var t := Process(s, x);
    ProcessAhead(s, x);
    hide Ahead, Increasing;
    assert Conserved(t);
    forall p | p in t.inboxes
      ensures t.inboxes[p] == EventsTo(t.popped, p)
    {
      EventsAppend(s.popped, x, p);
    }
  }

  lemma PopInv(s: Sim)
    requires Inv(s)
    ensures Inv(Pop(s))
  {
    if s.heap != multiset{} { ProcessInv(s, Earliest(s.heap)); }
  }

  lemma {:induction false} AdvanceInv(s: Sim, target: nat)
    requires Inv(s)
    ensures Inv(Advance(s, target))
    decreases |s.heap|
  {
    hide Inv;
    if s.heap != multiset{} && Earliest(s.heap).at <= target {
      assert |Pop(s).heap| < |s.heap| by { assert IsEarliest(s.heap, Earliest(s.heap)); }
      hide Pop;
      PopInv(s);
      AdvanceInv(Pop(s), target);
    } else if target > s.now {
      WaitInv(s, target);
    }
  }

  /** Time may pass up to the earliest entry. */
  lemma WaitInv(s: Sim, target: nat)
    requires Inv(s) && s.now <= target && (s.heap != multiset{} ==> Earliest(s.heap).at > target)
    ensures Inv(s.(now := target))
  {
    forall x | x in s.heap
      ensures target <= x.at
    {
      assert IsEarliest(s.heap, Earliest(s.heap));
    }
    hide Earliest;
  }

  lemma ApplyInv(s: Sim, op: Op)
    requires Inv(s)
    ensures Inv(Apply(s, op))
  {
    hide Inv, Pop, Advance, IntoEvent;
    match op
    case Submitting(src, msg, c) =>
      if !msg.SessionReconstructed? && Destination(msg) in s.inboxes && c.Deliver? {
        var x := Entry(s.now + c.delay, s.nextSeq, Delivery(Destination(msg), IntoEvent(src, msg)));
        PushInv(s, x);
        TraceFree(Push(s, x), Submit(s, src, msg, c).0);
      } else {
        NumberFree(s, Submit(s, src, msg, c).0);
      }
    case Sleeping(d) => PushInv(s, Entry(s.now + d, s.nextSeq, Wakeup));
    case Popping => PopInv(s);
    case Advancing(target) => AdvanceInv(s, target);
    case Recording(p) => NumberFree(s, RecordStep(s, p));
  }

  lemma TraceFree(s: Sim, t: Sim)
    requires Inv(s) && t == s.(trace := t.trace)
    ensures Inv(t)
  {
  }

  lemma NumberFree(s: Sim, t: Sim)
    requires Inv(s) && t == s.(trace := t.trace, nextSeq := t.nextSeq) && s.nextSeq <= t.nextSeq
    ensures Inv(t)
  {
  }

  lemma {:induction false} RunInv(s: Sim, ops: seq<Op>)
    requires Inv(s)
    ensures Inv(Run(s, ops))
    decreases |ops|
  {
    hide Inv, Apply;
    if ops != [] {
      ApplyInv(s, ops[0]);
      RunInv(Apply(s, ops[0]), ops[1..]);
    }
  }

  lemma StartInv(peers: set<PeerId>)
    ensures Inv(Start(peers))
  {
  }

  /**
   * Order and conservation on every run: nothing pending is in the past, the keys processed strictly increase, every
   * entry scheduled is pending or processed exactly once, and each inbound queue holds exactly what was processed for it.
   */
  lemma SchedulerIsOrderly(peers: set<PeerId>, ops: seq<Op>)
    ensures var s := Run(Start(peers), ops);
            && (forall x | x in s.heap :: s.now <= x.at)
            && Increasing(s.popped)
            && multiset(s.pushed) == s.heap + multiset(s.popped)
            && (forall p | p in s.inboxes :: s.inboxes[p] == EventsTo(s.popped, p))
  {
    StartInv(peers);
    RunInv(Start(peers), ops);
    hide Run, Start;
  }

  // ---- A link with constant delay is first in, first out ----

  ghost predicate OnLink(x: Entry, src: PeerId, dst: PeerId) {
    x.pending.Delivery? && x.pending.dst == dst && x.pending.event.peer == src
  }

  /** The entries of one link, in order. */
  ghost function Link(xs: seq<Entry>, src: PeerId, dst: PeerId): seq<Entry> {
    if xs == [] then []
    else Link(xs[..|xs| - 1], src, dst) + if OnLink(xs[|xs| - 1], src, dst) then [xs[|xs| - 1]] else []
  }

  /** Sends on the link that are not dropped take `d`. */
  ghost predicate Constant(op: Op, src: PeerId, dst: PeerId, d: nat) {
    op.Submitting? && op.src == src && !op.msg.SessionReconstructed? && Destination(op.msg) == dst && op.c.Deliver? ==>
      op.c.delay == d
  }

  /** The link's entries were scheduled in the order of their times, none later than `d` from now. */
  ghost predicate Timely(s: Sim, src: PeerId, dst: PeerId, d: nat) {
    && (forall i | 0 <= i < |s.pushed| && OnLink(s.pushed[i], src, dst) :: s.pushed[i].at <= s.now + d)
    && (forall i, j | 0 <= i < j < |s.pushed| && OnLink(s.pushed[i], src, dst) && OnLink(s.pushed[j], src, dst) ::
          s.pushed[i].at <= s.pushed[j].at)
  }

  lemma {:induction false} AdvanceMovesOn(s: Sim, target: nat)
    requires Inv(s)
    ensures s.now <= Advance(s, target).now && Advance(s, target).pushed == s.pushed
    decreases |s.heap|
  {
    if s.heap != multiset{} && Earliest(s.heap).at <= target {
      assert IsEarliest(s.heap, Earliest(s.heap));
      PopInv(s);
      assert s.now <= Pop(s).now;
      hide Inv;
      AdvanceMovesOn(Pop(s), target);
    }
  }

  lemma MovedOnTimely(s: Sim, t: Sim, src: PeerId, dst: PeerId, d: nat)
    requires Timely(s, src, dst, d) && s.now <= t.now && t.pushed == s.pushed
    ensures Timely(t, src, dst, d)
  {
  }

  lemma PushTimely(s: Sim, x: Entry, t: Sim, src: PeerId, dst: PeerId, d: nat)
    requires Timely(s, src, dst, d) && t.now == s.now && t.pushed == s.pushed + [x]
    requires OnLink(x, src, dst) ==> x.at == s.now + d
    ensures Timely(t, src, dst, d)
  {
  }

  lemma ApplyTimely(s: Sim, op: Op, src: PeerId, dst: PeerId, d: nat)
    requires Inv(s) && Timely(s, src, dst, d) && Constant(op, src, dst, d)
    ensures Timely(Apply(s, op), src, dst, d)
  {
    hide Timely, Advance;
    match op
    case Submitting(from, msg, c) =>
      if !msg.SessionReconstructed? && Destination(msg) in s.inboxes && c.Deliver? {
        var x := Entry(s.now + c.delay, s.nextSeq, Delivery(Destination(msg), IntoEvent(from, msg)));
        hide Inv;
        PushTimely(s, x, Submit(s, from, msg, c).0, src, dst, d);
      } else {
        hide Inv;
        MovedOnTimely(s, Submit(s, from, msg, c).0, src, dst, d);
      }
    case Sleeping(w) =>
      hide Inv;
      PushTimely(s, Entry(s.now + w, s.nextSeq, Wakeup), Sleep(s, w), src, dst, d);
    case Popping => MovedOnTimely(s, Pop(s), src, dst, d);
    case Advancing(target) =>
      hide Inv;
      AdvanceMovesOn(s, target);
      MovedOnTimely(s, Advance(s, target), src, dst, d);
    case Recording(p) =>
      hide Inv;
      MovedOnTimely(s, RecordStep(s, p), src, dst, d);
  }

  lemma {:induction false} RunTimely(s: Sim, ops: seq<Op>, src: PeerId, dst: PeerId, d: nat)
    requires Inv(s) && Timely(s, src, dst, d) && forall i | 0 <= i < |ops| :: Constant(ops[i], src, dst, d)
    ensures Timely(Run(s, ops), src, dst, d)
    decreases |ops|
  {
    hide Inv, Apply, Timely, Constant;
    if ops != [] {
      ApplyInv(s, ops[0]);
      ApplyTimely(s, ops[0], src, dst, d);
      RunTimely(Apply(s, ops[0]), ops[1..], src, dst, d);
    }
  }

  lemma {:induction false} LinkMembers(xs: seq<Entry>, src: PeerId, dst: PeerId, x: Entry)
    ensures x in Link(xs, src, dst) <==> x in xs && OnLink(x, src, dst)
    decreases |xs|
  {
    if xs != [] {
      LinkMembers(xs[..|xs| - 1], src, dst, x);
      assert xs == xs[..|xs| - 1] + [xs[|xs| - 1]];
    }
  }

  lemma {:induction false} LinkIncreasing(xs: seq<Entry>, src: PeerId, dst: PeerId)
    requires forall i, j | 0 <= i < j < |xs| && OnLink(xs[i], src, dst) && OnLink(xs[j], src, dst) :: Before(xs[i], xs[j])
    ensures Increasing(Link(xs, src, dst))
    decreases |xs|
  {
    if xs != [] {
      var rest, last := xs[..|xs| - 1], xs[|xs| - 1];
      LinkIncreasing(rest, src, dst);
      var l := Link(rest, src, dst);
      forall i | 0 <= i < |l| && OnLink(last, src, dst)
        ensures Before(l[i], last)
      {
        LinkMembers(rest, src, dst, l[i]);
        var k :| 0 <= k < |rest| && rest[k] == l[i];
        assert xs[k] == l[i] && xs[|xs| - 1] == last;
      }
    }
  }

  /** An increasing part of an increasing sequence that lies before all the rest is a prefix. */
  lemma {:induction false} PartIsPrefix(part: seq<Entry>, all: seq<Entry>)
    requires Increasing(part) && Increasing(all)
    requires forall x | x in part :: x in all
    requires forall x, y | x in all && x !in part && y in part :: Before(y, x)
    ensures part <= all
    decreases |part|
  {
    if part != [] {
      assert part[0] in part && part[0] in all && all[0] in all;
      if all[0] !in part {
        assert false;
      }
      assert part[0] == all[0];
      var p, a := part[1..], all[1..];
      forall x | x in p
        ensures x in a
      {
        assert x in part && Before(part[0], x);
      }
      forall x, y | x in a && x !in p && y in p
        ensures Before(y, x)
      {
        assert x in all && y in part;
        assert x != all[0] by { assert Before(all[0], x); }
        assert x !in part;
      }
      PartIsPrefix(p, a);
    }
  }

  /**
   * On every run, the entries processed on a link with constant delay are the first ones scheduled on it, in the order
   * of sending: nothing overtakes, is lost or repeated.
   */
  lemma LinkIsFifo(peers: set<PeerId>, ops: seq<Op>, src: PeerId, dst: PeerId, d: nat)
    requires forall i | 0 <= i < |ops| :: Constant(ops[i], src, dst, d)
    ensures var s := Run(Start(peers), ops);
            Link(s.popped, src, dst) <= Link(s.pushed, src, dst)
  {
    var s := Run(Start(peers), ops);
    StartInv(peers);
    RunInv(Start(peers), ops);
    RunTimely(Start(peers), ops, src, dst, d);
    hide Run, Start, Constant;
    FifoAt(s, src, dst, d);
  }

  lemma FifoAt(s: Sim, src: PeerId, dst: PeerId, d: nat)
    requires Inv(s) && Timely(s, src, dst, d)
    ensures Link(s.popped, src, dst) <= Link(s.pushed, src, dst)
  {
    var part, all := Link(s.popped, src, dst), Link(s.pushed, src, dst);
    LinkIncreasing(s.popped, src, dst);
    assert forall i, j | 0 <= i < j < |s.pushed| && OnLink(s.pushed[i], src, dst) && OnLink(s.pushed[j], src, dst) ::
             s.pushed[i].seqNo < s.pushed[j].seqNo && s.pushed[i].at <= s.pushed[j].at;
    LinkIncreasing(s.pushed, src, dst);
    hide Timely, Routed, Counted, Increasing, Link, OnLink;
    forall x | x in part
      ensures x in all
    {
      LinkMembers(s.popped, src, dst, x);
      LinkMembers(s.pushed, src, dst, x);
      assert x in multiset(s.popped) && x in multiset(s.pushed);
    }
    forall x, y | x in all && x !in part && y in part
      ensures Before(y, x)
    {
      LinkMembers(s.pushed, src, dst, x);
      LinkMembers(s.popped, src, dst, x);
      LinkMembers(s.popped, src, dst, y);
      assert x in multiset(s.pushed) && x !in multiset(s.popped);
      assert x in s.heap;
      var i :| 0 <= i < |s.popped| && s.popped[i] == y;
    }
    PartIsPrefix(part, all);
  }
}
