/** The simulator's per-link fault rules and how a message is classified against them. */
module Faults {
  import opened Basics
  import opened Engines

  datatype Action =
    | DropIf(pred: NetSend -> bool)
    | DropWithProbability(p: real)
    | DelayIf(pred: NetSend -> bool, delay: nat)
    | DelayJitter(max: nat)
    | Partition(from: nat, until: nat)

  datatype Rule = Rule(src: PeerId, dst: PeerId, action: Action)

  datatype DropReason = ByRule | ByPartition | ByChance

  datatype Classification = Deliver(delay: nat) | Drop(reason: DropReason)

  /** The seeded generator: its n-th draw as a real in [0, 1) or as a natural up to a bound. */
  datatype Rng = Rng(unit: nat -> real, upTo: (nat, nat) -> nat)

  datatype Query = Query(src: PeerId, dst: PeerId, now: nat, msg: NetSend)

  /** What one rule does: drop, or add to the delay; and how many draws it takes. */
  datatype Effect = Dropping(why: DropReason, draws: nat) | Adding(delay: nat, draws: nat)

  function EffectOf(r: Rule, rng: Rng, cursor: nat, q: Query): Effect {
    if r.src != q.src || r.dst != q.dst then Adding(0, 0)
    else match r.action
      case Partition(from, until) => if from <= q.now < until then Dropping(ByPartition, 0) else Adding(0, 0)
      case DropIf(pred) => if pred(q.msg) then Dropping(ByRule, 0) else Adding(0, 0)
      case DropWithProbability(p) => if rng.unit(cursor) < p then Dropping(ByChance, 1) else Adding(0, 1)
      case DelayIf(pred, d) => Adding(if pred(q.msg) then d else 0, 0)
      case DelayJitter(max) => Adding(rng.upTo(cursor, max), 1)
  }

  /** The classification and the generator position after it. */
  function Classify(rules: seq<Rule>, rng: Rng, cursor: nat, q: Query): (Classification, nat)
    decreases |rules|
  {
    if rules == [] then (Deliver(0), cursor)
    else
      var x := EffectOf(rules[0], rng, cursor, q);
      if x.Dropping? then (Drop(x.why), cursor + x.draws)
      else
        var (c, next) := Classify(rules[1..], rng, cursor + x.draws, q);
        (Later(x.delay, c), next)
  }

  function Later(delay: nat, c: Classification): Classification {
    if c.Deliver? then Deliver(delay + c.delay) else c
  }

  lemma ClassifyCons(rules: seq<Rule>, i: nat, rng: Rng, cursor: nat, q: Query)
    requires i < |rules|
    ensures var x := EffectOf(rules[i], rng, cursor, q);
            var (c, next) := Classify(rules[i + 1..], rng, cursor + x.draws, q);
            && Classify(rules[i..], rng, cursor, q).0 == (if x.Dropping? then Drop(x.why) else Later(x.delay, c))
            && Classify(rules[i..], rng, cursor, q).1 == (if x.Dropping? then cursor + x.draws else next)
  {
    assert rules[i..][1..] == rules[i + 1..];
  }

  class FaultPlan {
    var rules: seq<Rule>
    const rng: Rng
    var cursor: nat

    constructor (rng: Rng)
      ensures rules == [] && cursor == 0 && this.rng == rng
    {
      rules, cursor, this.rng := [], 0, rng;
    }

    method AddRule(r: Rule)
      modifies this`rules
      ensures rules == old(rules) + [r]
    {
      rules := rules + [r];
    }

    /** Drops everything in both directions while the time is in the window. */
    method AddPartition(a: PeerId, b: PeerId, from: nat, until: nat)
      modifies this`rules
      ensures rules == old(rules) + PartitionRules(a, b, from, until)
    {
      rules := rules + [Rule(a, b, Partition(from, until))];
      rules := rules + [Rule(b, a, Partition(from, until))];
    }

    method ClassifyMessage(q: Query) returns (c: Classification)
      modifies this`cursor
      ensures (c, cursor) == Classify(rules, rng, old(cursor), q)
    {
      hide Classify;
      var delay: nat, i := 0, 0;
      assert rules[0..] == rules;
      LaterZero(rules, rng, cursor, q);
      while i < |rules|
        invariant 0 <= i <= |rules|
        invariant var rest := Classify(rules[i..], rng, cursor, q);
                  Classify(rules, rng, old(cursor), q) == (Later(delay, rest.0), rest.1)
      {
        var r := rules[i];
        ClassifyCons(rules, i, rng, cursor, q);
        i := i + 1;
        if r.src != q.src || r.dst != q.dst { continue; }
        match r.action
        case Partition(from, until) =>
          if from <= q.now && q.now < until { return Drop(ByPartition); }
        case DropIf(pred) =>
          if pred(q.msg) { return Drop(ByRule); }
        case DropWithProbability(p) =>
          var draw := rng.unit(cursor);
          cursor := cursor + 1;
          if draw < p { return Drop(ByChance); }
        case DelayIf(pred, d) =>
          if pred(q.msg) { delay := delay + d; }
        case DelayJitter(max) =>
          delay := delay + rng.upTo(cursor, max);
          cursor := cursor + 1;
      }
      ClassifyNone(rules, rng, cursor, q);
      return Deliver(delay);
    }
  }

  lemma LaterZero(rules: seq<Rule>, rng: Rng, cursor: nat, q: Query)
    ensures Later(0, Classify(rules, rng, cursor, q).0) == Classify(rules, rng, cursor, q).0
  {
    hide Classify;
  }

  lemma ClassifyNone(rules: seq<Rule>, rng: Rng, cursor: nat, q: Query)
    ensures Classify(rules[|rules|..], rng, cursor, q) == (Deliver(0), cursor)
  {
  }

  function PartitionRules(a: PeerId, b: PeerId, from: nat, until: nat): seq<Rule> {
    [Rule(a, b, Partition(from, until)), Rule(b, a, Partition(from, until))]
  }

  // ---- What rules mean ----

  ghost function OnLink(rules: seq<Rule>, src: PeerId, dst: PeerId): seq<Rule> {
    if rules == [] then []
    else (if rules[0].src == src && rules[0].dst == dst then [rules[0]] else []) + OnLink(rules[1..], src, dst)
  }

  /** Rules of other links neither affect a message nor use up randomness. */
  lemma {:induction false} OnlyOwnLink(rules: seq<Rule>, rng: Rng, cursor: nat, q: Query)
    ensures Classify(rules, rng, cursor, q) == Classify(OnLink(rules, q.src, q.dst), rng, cursor, q)
    decreases |rules|
  {
    if rules != [] {
      var x := EffectOf(rules[0], rng, cursor, q);
      OnlyOwnLink(rules[1..], rng, cursor + x.draws, q);
      if rules[0].src == q.src && rules[0].dst == q.dst {
        assert OnLink(rules, q.src, q.dst)[1..] == OnLink(rules[1..], q.src, q.dst);
      } else {
        assert OnLink(rules, q.src, q.dst) == OnLink(rules[1..], q.src, q.dst);
      }
    }
  }

  ghost predicate Between(q: Query, a: PeerId, b: PeerId) {
    (q.src == a && q.dst == b) || (q.src == b && q.dst == a)
  }

  /**
   * A partition added last drops exactly the messages between its two peers sent inside its window, and leaves every
   * other message classified as before.
   */
  lemma {:induction false} PartitionWindow(rules: seq<Rule>, rng: Rng, cursor: nat, q: Query,
                                           a: PeerId, b: PeerId, from: nat, until: nat)
    ensures var before := Classify(rules, rng, cursor, q);
            var after := Classify(rules + PartitionRules(a, b, from, until), rng, cursor, q);
            if Between(q, a, b) && from <= q.now < until then after.0.Drop? && (before.0.Drop? ==> after == before)
            else after == before
    decreases |rules|
  {
    var all := rules + PartitionRules(a, b, from, until);
    if rules == [] {
      assert all == PartitionRules(a, b, from, until);
      assert Classify(all[1..][1..], rng, cursor, q) == (Deliver(0), cursor);
    } else {
      assert all[0] == rules[0] && all[1..] == rules[1..] + PartitionRules(a, b, from, until);
      var x := EffectOf(rules[0], rng, cursor, q);
      hide EffectOf;
      PartitionWindow(rules[1..], rng, cursor + x.draws, q, a, b, from, until);
    }
  }

  /** All rules on the link are fixed delays that apply to every message. */
  ghost predicate FixedDelays(rules: seq<Rule>, src: PeerId, dst: PeerId) {
    forall i | 0 <= i < |rules| && rules[i].src == src && rules[i].dst == dst ::
      rules[i].action.DelayIf? && forall m: NetSend :: rules[i].action.pred(m)
  }

  ghost function TotalDelay(rules: seq<Rule>, src: PeerId, dst: PeerId): nat
    requires FixedDelays(rules, src, dst)
  {
    if rules == [] then 0
    else
      assert FixedDelays(rules[1..], src, dst);
      TotalDelay(rules[1..], src, dst)
      + if rules[0].src == src && rules[0].dst == dst then rules[0].action.delay else 0
  }

  /** A link with fixed delays delivers every message after their sum; one without rules delivers at once. */
  lemma {:induction false} FixedDelaysAddUp(rules: seq<Rule>, rng: Rng, cursor: nat, q: Query)
    requires FixedDelays(rules, q.src, q.dst)
    ensures Classify(rules, rng, cursor, q) == (Deliver(TotalDelay(rules, q.src, q.dst)), cursor)
    decreases |rules|
  {
    if rules != [] {
      assert FixedDelays(rules[1..], q.src, q.dst);
      FixedDelaysAddUp(rules[1..], rng, cursor, q);
    }
  }

  // ---- What a single rule does ----

  /** A generator whose draws are in range. */
  ghost predicate InRange(rng: Rng) {
    && (forall n: nat :: 0.0 <= rng.unit(n) < 1.0)
    && (forall n: nat, max: nat :: rng.upTo(n, max) <= max)
  }

  /** The action drops this message, given the draw it would take. */
  ghost predicate Drops(a: Action, q: Query, draw: real) {
    match a
    case DropIf(pred) => pred(q.msg)
    case DropWithProbability(p) => draw < p
    case Partition(from, until) => from <= q.now < until
    case _ => false
  }

  /** The action takes a draw. */
  ghost predicate Draws(a: Action) {
    a.DropWithProbability? || a.DelayJitter?
  }

  /**
   * A link with one rule: it drops exactly when its action does - a chance rule on draws below its probability, a predicate
   * rule on its predicate, a partition in its window - and otherwise delays by the rule's delay or by a jitter of at most
   * its maximum; only chance and jitter use up a draw.
   */
  lemma SingleRule(a: Action, rng: Rng, cursor: nat, q: Query)
    requires InRange(rng)
    ensures var (c, next) := Classify([Rule(q.src, q.dst, a)], rng, cursor, q);
            && (c.Drop? <==> Drops(a, q, rng.unit(cursor)))
            && (c == Drop(ByChance) <==> a.DropWithProbability? && rng.unit(cursor) < a.p)
            && (c == Drop(ByRule) <==> a.DropIf? && a.pred(q.msg))
            && (c.Deliver? && a.DelayJitter? ==> c.delay <= a.max)
            && (c.Deliver? && a.DelayIf? ==> c.delay == if a.pred(q.msg) then a.delay else 0)
            && (c.Deliver? && !a.DelayJitter? && !a.DelayIf? ==> c.delay == 0)
            && next == cursor + if Draws(a) then 1 else 0
  {
    var rules := [Rule(q.src, q.dst, a)];
    assert rules[1..] == [];
  }

  /** A chance rule of probability 0 never drops, one of probability 1 always does. */
  lemma SureChances(rng: Rng, cursor: nat, q: Query)
    requires InRange(rng)
    ensures Classify([Rule(q.src, q.dst, DropWithProbability(0.0))], rng, cursor, q).0 == Deliver(0)
    ensures Classify([Rule(q.src, q.dst, DropWithProbability(1.0))], rng, cursor, q).0 == Drop(ByChance)
  {
    SingleRule(DropWithProbability(0.0), rng, cursor, q);
    SingleRule(DropWithProbability(1.0), rng, cursor, q);
  }

  /** Rules apply in order: the first that drops decides, and until then delays add up and draws are used one by one. */
  lemma {:induction false} RulesInOrder(rules: seq<Rule>, more: seq<Rule>, rng: Rng, cursor: nat, q: Query)
    ensures var (c, next) := Classify(rules, rng, cursor, q);
            var (d, end) := Classify(more, rng, next, q);
            Classify(rules + more, rng, cursor, q) == if c.Drop? then (c, next) else (Later(c.delay, d), end)
    decreases |rules|
  {
    if rules == [] {
      assert rules + more == more;
    } else {
      var x := EffectOf(rules[0], rng, cursor, q);
      assert (rules + more)[0] == rules[0] && (rules + more)[1..] == rules[1..] + more;
      hide EffectOf;
      RulesInOrder(rules[1..], more, rng, cursor + x.draws, q);
    }
  }
}
