/** When a message or a wakeup comes: exactly after its delay, and not at all if it was dropped. */
module SimTimes {
  import opened Basics
  import opened Engines
  import opened Faults
  import opened Sims

  /** Advancing moves time to the target and processes exactly what is due by then. */
  lemma {:induction false} AdvanceSettles(s: Sim, target: nat, x: Entry)
    requires Inv(s) && x in s.pushed && (s.now <= target || x in s.popped || x.at > target)
    ensures var t := Advance(s, target);
            && Inv(t) && t.pushed == s.pushed && t.inboxes.Keys == s.inboxes.Keys
            && t.now == (if s.now <= target then target else s.now)
            && (x in t.popped <==> x in s.popped || x.at <= target)
            && (x in t.heap <==> !(x in s.popped || x.at <= target))
    decreases |s.heap|
  {
    hide Inv;
    AdvanceInv(s, target);
    if s.heap != multiset{} && Earliest(s.heap).at <= target {
      var y := Earliest(s.heap);
      assert IsEarliest(s.heap, y);
      PopInv(s);
      OnePopped(s, target);
      hide Earliest, Advance, Pop;
      AdvanceSettles(Pop(s), target, x);
      AdvanceIsPop(s, target);
    } else {
      NothingDue(s, target, x);
    }
  }

  lemma AdvanceIsPop(s: Sim, target: nat)
    requires s.heap != multiset{} && Earliest(s.heap).at <= target
    ensures Advance(s, target) == Advance(Pop(s), target)
  {
    hide Pop, Earliest;
  }

  lemma OnePopped(s: Sim, target: nat)
    requires Inv(s) && s.heap != multiset{} && Earliest(s.heap).at <= target
    ensures var y, t := Earliest(s.heap), Pop(s);
            && y in s.heap && |t.heap| < |s.heap| && t.pushed == s.pushed && t.inboxes.Keys == s.inboxes.Keys
            && t.popped == s.popped + [y] && y.at <= target && s.now <= t.now == y.at
            && s.now <= target
  {
    assert IsEarliest(s.heap, Earliest(s.heap));
    hide Earliest;
  }

  /** What was scheduled and not processed is pending, and the other way round. */
  lemma PendingOrPopped(s: Sim, x: Entry)
    requires Inv(s) && x in s.pushed
    ensures x in s.heap <==> x !in s.popped
  {
    assert x in multiset(s.pushed);
    assert x in s.heap || x in multiset(s.popped);
    NumberedOnce(s.pushed, x);
    assert x in multiset(s.popped) <==> x in s.popped;
    assert multiset(s.pushed)[x] == s.heap[x] + multiset(s.popped)[x];
  }

  lemma NothingDue(s: Sim, target: nat, x: Entry)
    requires Inv(s) && x in s.pushed && (s.now <= target || x in s.popped || x.at > target)
    requires s.heap != multiset{} ==> Earliest(s.heap).at > target
    ensures var t := Advance(s, target);
            && t.pushed == s.pushed && t.inboxes.Keys == s.inboxes.Keys && t.popped == s.popped && t.heap == s.heap
            && t.now == (if s.now <= target then target else s.now)
            && (x in t.popped <==> x in s.popped || x.at <= target)
            && (x in t.heap <==> !(x in s.popped || x.at <= target))
  {
    PendingOrPopped(s, x);
    if x in s.heap {
      assert IsEarliest(s.heap, Earliest(s.heap));
    }
    hide Inv, Earliest;
  }

  lemma {:induction false} EventOfPopped(xs: seq<Entry>, x: Entry)
    requires x in xs && x.pending.Delivery?
    ensures x.pending.event in EventsTo(xs, x.pending.dst)
    decreases |xs|
  {
    var n := |xs| - 1;
    if xs[n] != x {
      assert x in xs[..n];
      EventOfPopped(xs[..n], x);
    }
  }

  /** The event that carries the message: to its destination, naming the sender, with the same contents. */
  ghost predicate Carries(src: PeerId, msg: NetSend, ev: NetEvent) {
    match msg
    case Handshake(_, version, channels) =>
      ev.HandshakeIn? && ev.peer == src && ev.version == version && forall c :: c in ev.channels <==> c in channels
    case Subscribe(_, c) => ev == SubscribeIn(src, c)
    case SessionOpen(_, key, preamble) => ev == SessionOpenIn(src, key, preamble)
    case RoutingUpdate(_, key, _) => ev == RoutingUpdateIn(src, key)
    case Chunk(_, key, idx, data, _) => ev == ChunkIn(src, key, idx, data)
    case SessionReconstructed(_) => false
  }

  /** The entry that a delivered send adds. */
  ghost function EntryOf(s: Sim, src: PeerId, msg: NetSend, d: nat): Entry
    requires !msg.SessionReconstructed?
  {
    Entry(s.now + d, s.nextSeq, Delivery(msg.peer, IntoEvent(src, msg)))
  }

  /**
   * A message sent now with delay `d` to a registered peer is pending until time now + d and, once the simulation has advanced
   * that far, has been processed at exactly that time and is in the peer's inbound queue.
   */
  lemma SendArrivesOnTime(s: Sim, src: PeerId, msg: NetSend, d: nat, target: nat)
    requires Inv(s) && !msg.SessionReconstructed? && msg.peer in s.inboxes && s.now <= target
    ensures var (s1, ok) := Submit(s, src, msg, Classification.Deliver(d));
            var t, x := Advance(s1, target), EntryOf(s, src, msg, d);
            && ok && t.now == target && Carries(src, msg, x.pending.event)
            && (x in t.popped <==> s.now + d <= target) && (x in t.heap <==> target < s.now + d)
            && (s.now + d <= target ==> msg.peer in t.inboxes && x.pending.event in t.inboxes[msg.peer])
  {
    var (s1, ok) := Submit(s, src, msg, Classification.Deliver(d));
    var x := EntryOf(s, src, msg, d);
    var pushed := Push(s, x);
    PushInv(s, x);
    assert s1 == pushed.(trace := s1.trace);
    assert Inv(s1) by { TraceFree(pushed, s1); }
    NotYetPopped(s, x);
    assert x in s1.pushed && s1.popped == s.popped && s1.now == s.now;
    hide Inv, Submit, Push;
    AdvanceSettles(s1, target, x);
    var t := Advance(s1, target);
    hide Advance;
    if x in t.popped { Arrived(t, x); }
  }

  lemma NotYetPopped(s: Sim, x: Entry)
    requires Inv(s) && x.seqNo == s.nextSeq
    ensures x !in s.popped
  {
    if x in s.popped {
      var i :| 0 <= i < |s.popped| && s.popped[i] == x;
      PoppedNumber(s, i);
    }
  }

  lemma Arrived(s: Sim, x: Entry)
    requires Inv(s) && x in s.popped && x.pending.Delivery? && x.pending.dst in s.inboxes
    ensures x.pending.event in s.inboxes[x.pending.dst]
  {
    EventOfPopped(s.popped, x);
  }

  /** A dropped message is traced and schedules nothing; one to an unknown peer is refused and changes nothing. */
  lemma DroppedNeverArrives(s: Sim, src: PeerId, msg: NetSend, c: Classification)
    requires !msg.SessionReconstructed?
    ensures var (t, ok) := Submit(s, src, msg, c);
            && (ok <==> msg.peer in s.inboxes) && (!ok ==> t == s)
            && (ok && c.Drop? ==>
                  && t.heap == s.heap && t.pushed == s.pushed && t.inboxes == s.inboxes && t.now == s.now
                  && t.trace == s.trace + [TraceEntry(s.now, s.nextSeq, TraceKind.Send(src, msg.peer, Dropped(c.reason)))])
  {
  }

  /** A sleep of length `d` ends when the simulation has advanced by `d`, and not before. */
  lemma SleepEndsOnTime(s: Sim, d: nat, target: nat)
    requires Inv(s) && s.now <= target
    ensures var t, x := Advance(Sleep(s, d), target), Entry(s.now + d, s.nextSeq, Wakeup);
            && t.now == target && (x in t.popped <==> s.now + d <= target) && (x in t.heap <==> target < s.now + d)
  {
    var x := Entry(s.now + d, s.nextSeq, Wakeup);
    PushInv(s, x);
    NotYetPopped(s, x);
    var y := Push(s, x);
    assert Sleep(s, d) == y && x in y.pushed && y.popped == s.popped && y.now == s.now;
    hide Inv, Push, Sleep, Advance;
    AdvanceSettles(y, target, x);
  }
}
