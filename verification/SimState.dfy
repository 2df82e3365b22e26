/** The simulator's state as the source keeps it, updated in place and proved against `Sims`. */
module SimStates {
  import opened Basics
  import opened Engines
  import opened Faults
  import opened Sims

  datatype PumpStep = DeliveredTo(peer: PeerId) | Woke

  function StepOf(what: Pending): PumpStep {
    match what
    case Delivery(dst, _) => DeliveredTo(dst)
    case Wakeup => Woke
  }

  class SimState {
    var now: nat
    var nextSeq: nat
    var heap: multiset<Entry>
    const plan: FaultPlan
    var trace: seq<TraceEntry>
    var inboxes: map<PeerId, seq<NetEvent>>
    ghost var pushed: seq<Entry>
    ghost var popped: seq<Entry>

    ghost function View(): Sim
      reads this
    {
      Sim(now, nextSeq, heap, trace, inboxes, pushed, popped)
    }

    ghost predicate Valid()
      reads this
    {
      Inv(View())
    }

    constructor (plan: FaultPlan)
      ensures Valid() && View() == Start({}) && this.plan == plan
    {
      now, nextSeq, heap, trace, inboxes := 0, 0, multiset{}, [], map[];
      this.plan := plan;
      pushed, popped := [], [];
      StartEmpty();
    }

    /** A new inbound queue for the peer. It replaces one registered before. */
    method RegisterInbox(p: PeerId)
      requires Valid()
      modifies this`inboxes
      ensures View() == old(View()).(inboxes := old(inboxes)[p := []])
      ensures p !in old(inboxes) ==> Valid()
    {
      if p !in inboxes { NothingFor(View(), p); }
      inboxes := inboxes[p := []];
    }

    method TakeSeq() returns (n: nat)
      modifies this`nextSeq
      ensures n == old(nextSeq) && nextSeq == n + 1
    {
      n := nextSeq;
      nextSeq := nextSeq + 1;
    }

    method PushEntry(x: Entry)
      modifies this`heap, this`pushed
      ensures heap == old(heap) + multiset{x} && pushed == old(pushed) + [x]
    {
      heap := heap + multiset{x};
      pushed := pushed + [x];
    }

    /** False when the destination is unknown. A message the plan drops is still accepted. */
    method SubmitSend(src: PeerId, msg: NetSend) returns (ok: bool)
      requires Valid()
      modifies this`nextSeq, this`heap, this`trace, this`pushed, plan`cursor
      ensures Valid() && plan.rules == old(plan.rules)
      ensures msg.SessionReconstructed? || Destination(msg) !in inboxes ==>
                View() == old(View()) && plan.cursor == old(plan.cursor) && ok == msg.SessionReconstructed?
      ensures !msg.SessionReconstructed? && Destination(msg) in inboxes ==>
                var (c, next) := Classify(plan.rules, plan.rng, old(plan.cursor), Query(src, Destination(msg), now, msg));
                ok && View() == Submit(old(View()), src, msg, c).0 && plan.cursor == next
    {
      hide Inv, Classify, IntoEvent;
      if msg.SessionReconstructed? { return true; }
      var dst := Destination(msg);
      if dst !in inboxes { return false; }
      ghost var before := View();
      var n := TakeSeq();
      var at := now;
      var c := plan.ClassifyMessage(Query(src, dst, at, msg));
      SubmitInv(before, src, msg, c);
      match c {
        case Drop(reason) =>
          trace := trace + [TraceEntry(at, n, Send(src, dst, Dropped(reason)))];
        case Deliver(delay) =>
          trace := trace + [TraceEntry(at, n, Send(src, dst, Scheduled(at + delay)))];
          PushEntry(Entry(at + delay, n, Delivery(dst, IntoEvent(src, msg))));
      }
      assert View() == Submit(before, src, msg, c).0;
      return true;
    }

    method ScheduleWakeup(at: nat)
      requires Valid()
      modifies this`nextSeq, this`heap, this`pushed
      ensures View() == Push(old(View()), Entry(at, old(nextSeq), Wakeup))
      ensures old(now) <= at ==> Valid()
    {
      ghost var before := View();
      var n := TakeSeq();
      PushEntry(Entry(at, n, Wakeup));
      if before.now <= at { PushInv(before, Entry(at, n, Wakeup)); }
    }

    /** The clock's sleep: a wakeup `d` from now. */
    method SleepFor(d: nat)
      requires Valid()
      modifies this`nextSeq, this`heap, this`pushed
      ensures Valid() && View() == Sims.Sleep(old(View()), d)
    {
      ScheduleWakeup(now + d);
    }

    method Peek() returns (x: Option<Entry>)
      requires Valid()
      ensures x.None? <==> heap == multiset{}
      ensures x.Some? ==> x.value == Earliest(heap) && IsEarliest(heap, x.value)
    {
      if heap == multiset{} { return None; }
      EarliestExists(heap);
      var e :| e in heap && forall y | y in heap :: !Before(y, e);
      EarliestIsUnique(View(), e);
      return Some(e);
    }

    method PopNext() returns (step: Option<PumpStep>)
      requires Valid()
      modifies this`now, this`heap, this`inboxes, this`popped
      ensures Valid() && View() == Pop(old(View()))
      ensures step.None? <==> old(heap) == multiset{}
      ensures step.Some? ==>
                old(heap) != multiset{} && step.value == StepOf(Earliest(old(heap)).pending)
    {
      hide Inv, Pop, IsEarliest, Queued, Earliest, StepOf, Process;
      ghost var before := View();
      PopIs(before);
      var next := Peek();
      if next.None? { return None; }
      PopInv(before);
      Remove(next.value);
      return Some(StepOf(next.value.pending));
    }

    /** Time moves to the entry, and a delivery goes to its queue. */
    method Remove(x: Entry)
      modifies this`now, this`heap, this`inboxes, this`popped
      ensures View() == Process(old(View()), x)
    {
      hide Queued;
      heap := heap - multiset{x};
      popped := popped + [x];
      now := x.at;
      Enqueue(x.pending);
    }

    method Enqueue(what: Pending)
      modifies this`inboxes
      ensures inboxes == Queued(old(inboxes), what)
    {
      match what
      case Delivery(dst, event) =>
        if dst in inboxes { inboxes := inboxes[dst := inboxes[dst] + [event]]; }
      case Wakeup =>
    }

    method AdvanceTo(target: nat)
      requires Valid()
      modifies this`now, this`heap, this`inboxes, this`popped
      ensures Valid() && View() == Advance(old(View()), target)
    {
      hide Inv, Pop, IsEarliest, Earliest;
      ghost var goal := Advance(View(), target);
      AdvanceInv(View(), target);
      var next := Peek();
      while next.Some? && next.value.at <= target
        invariant Valid() && Advance(View(), target) == goal
        invariant next.None? <==> heap == multiset{}
        invariant next.Some? ==> next.value == Earliest(heap)
        decreases |heap|
      {
        AdvanceStep(View(), target);
        var _ := PopNext();
        next := Peek();
      }
      if target > now { now := target; }
    }

    method RecordEngineStep(p: PeerId)
      requires Valid()
      modifies this`nextSeq, this`trace
      ensures Valid() && View() == RecordStep(old(View()), p)
    {
      hide Inv;
      ghost var before := View();
      var n := TakeSeq();
      trace := trace + [TraceEntry(now, n, EngineStep(p))];
      ApplyInv(before, Recording(p));
      assert Apply(before, Recording(p)) == RecordStep(before, p) by { hide Inv, Pop, Advance, Submit; }
    }
  }

  lemma PopIs(s: Sim)
    ensures s.heap == multiset{} ==> Pop(s) == s
    ensures s.heap != multiset{} ==> Pop(s) == Process(s, Earliest(s.heap))
  {
  }

  lemma AdvanceStep(s: Sim, target: nat)
    requires s.heap != multiset{} && Earliest(s.heap).at <= target
    ensures Advance(Pop(s), target) == Advance(s, target) && |Pop(s).heap| < |s.heap|
  {
  }

  lemma SubmitInv(s: Sim, src: PeerId, msg: NetSend, c: Classification)
    requires Inv(s)
    ensures Inv(Submit(s, src, msg, c).0)
  {
    ApplyInv(s, Submitting(src, msg, c));
  }

  lemma StartEmpty()
    ensures Start({}) == Sim(0, 0, multiset{}, [], map[], [], [])
    ensures Inv(Start({}))
  {
    assert Start({}).inboxes == map[];
    StartInv({});
  }

  /** Nothing was processed for a peer that is not registered. */
  lemma NothingFor(s: Sim, p: PeerId)
    requires Inv(s) && p !in s.inboxes
    ensures EventsTo(s.popped, p) == []
  {
    forall i | 0 <= i < |s.popped| && s.popped[i].pending.Delivery?
      ensures s.popped[i].pending.dst != p
    {
      PoppedNumber(s, i);
    }
    NoEvents(s.popped, p);
  }

  lemma {:induction false} NoEvents(xs: seq<Entry>, p: PeerId)
    requires forall i | 0 <= i < |xs| && xs[i].pending.Delivery? :: xs[i].pending.dst != p
    ensures EventsTo(xs, p) == []
    decreases |xs|
  {
    if xs != [] { NoEvents(xs[..|xs| - 1], p); }
  }

  lemma EarliestIsUnique(s: Sim, x: Entry)
    requires Inv(s) && IsEarliest(s.heap, x)
    ensures x == Earliest(s.heap)
  {
    PendingDistinct(s, x, Earliest(s.heap));
  }
}
