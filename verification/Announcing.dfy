/** When a strategy announces its shards, and what it announces, over every run. */
module Announcing {
  import opened Basics
  import opened Havelists
  import opened Coding
  import opened Strategies
  import opened Polling
  import opened StrategyRuns
  import P = Planners

  /** The indices of the shards a strategy holds. */
  ghost function Holding(s: Strategy): set<nat> {
    set i: nat | i < |s.chunks| && s.chunks[i].Some?
  }

  /** The routing updates that the polls of a run emit, in order. */
  ghost function Announced(lib: Lib, s: Strategy, ops: seq<Op>): seq<Havelist>
    decreases |ops|
  {
    if ops == [] then []
    else
      (if ops[0].Poll? && PollRouting(s).1.Some? then [PollRouting(s).1.value] else [])
      + Announced(lib, Apply(lib, s, ops[0]), ops[1..])
  }

  /** What was announced last; nothing before the first announcement. */
  ghost function LastBits(told: seq<Havelist>): set<nat> {
    if told == [] then {} else told[|told| - 1].bits
  }

  /** What was announced is held, and the recorded count is its size. */
  ghost predicate Told(s: Strategy, last: set<nat>) {
    last <= Holding(s) && |last| == s.lastCount
  }

  lemma {:induction false} HoldingSize(chunks: seq<Option<Bytes>>)
    ensures |set i: nat | i < |chunks| && chunks[i].Some?| == CountSome(chunks)
    decreases |chunks|
  {
    var all := set i: nat | i < |chunks| && chunks[i].Some?;
    if chunks == [] {
      assert all == {};
    } else {
      var n := |chunks| - 1;
      var rest := set i: nat | i < n && chunks[..n][i].Some?;
      HoldingSize(chunks[..n]);
      CountLast(chunks);
      assert all == rest + if chunks[n].Some? then {n} else {};
    }
  }

  lemma {:induction false} CountLast(chunks: seq<Option<Bytes>>)
    requires chunks != []
    ensures var n := |chunks| - 1; CountSome(chunks) == CountSome(chunks[..n]) + if chunks[n].Some? then 1 else 0
    decreases |chunks|
  {
    var n := |chunks| - 1;
    if n > 0 {
      CountLast(chunks[1..]);
      assert chunks[1..][..n - 1] == chunks[..n][1..];
    }
  }

  lemma SubsetSize(a: set<nat>, b: set<nat>)
    requires a <= b
    ensures |a| <= |b| && (|a| == |b| <==> a == b)
  {
    assert b == a + (b - a);
  }

  /** The threshold as a percentage: at least `t` of a hundred of the `n` shards are held. */
  lemma Percentage(held: nat, n: nat, t: nat)
    requires n > 0
    ensures held * 100 / n >= t <==> held * 100 >= t * n
  {
    var q := held * 100 / n;
    assert held * 100 == q * n + held * 100 % n;
    if q >= t {
      MulMono(t, q, n);
    } else {
      MulMono(q + 1, t, n);
      assert (q + 1) * n == q * n + n;
    }
  }

  /** A strategy has something to announce: it may, it holds enough, and it holds something not announced yet. */
  ghost predicate MayAnnounce(s: Strategy, last: set<nat>) {
    !s.cfg.disableBitmap && |Holding(s)| * 100 >= s.cfg.bitmapThreshold * |s.chunks| && Holding(s) != last
  }

  lemma OnePoll(s: Strategy, last: set<nat>)
    requires Told(s, last)
    ensures var (t, update) := PollRouting(s);
            && (update.Some? <==> MayAnnounce(s, last))
            && (update.Some? ==> update.value == Havelist(|s.chunks|, Holding(s)))
            && Told(t, if update.Some? then update.value.bits else last)
  {
    HoldingSize(s.chunks);
    SubsetSize(last, Holding(s));
    if |s.chunks| > 0 { Percentage(s.Accepted(), |s.chunks|, s.cfg.bitmapThreshold); }
    hide CountSome;
  }

  /** Other operations announce nothing and forget nothing. */
  lemma KeepsTold(lib: Lib, s: Strategy, op: Op, last: set<nat>)
    requires Told(s, last) && !op.Poll?
    ensures Told(Apply(lib, s, op), last)
  {
    hide P.RemovePeer, P.RecordSent, P.Refund, P.CancelInFlight, VerifyChunk, CountSome;
  }

  lemma PolledTold(s: Strategy, last: set<nat>)
    requires Told(PollRouting(s).0, last)
    ensures Told(Polled(s), last)
  {
    var r := PollRouting(s).0;
    PollFromContent(r, Sorted(r.attached));
    hide PollFrom;
  }

  lemma ToldStep(lib: Lib, s: Strategy, op: Op, last: set<nat>)
    requires Told(s, last)
    ensures var next := if op.Poll? && PollRouting(s).1.Some? then PollRouting(s).1.value.bits else last;
            Told(Apply(lib, s, op), next)
  {
    if op.Poll? {
      hide PollRouting, Polled, Told;
      OnePoll(s, last);
      PolledTold(s, if PollRouting(s).1.Some? then PollRouting(s).1.value.bits else last);
    } else {
      KeepsTold(lib, s, op, last);
    }
  }

  lemma {:induction false} RunTold(lib: Lib, s: Strategy, ops: seq<Op>, told: seq<Havelist>)
    requires Told(s, LastBits(told))
    ensures Told(Run(lib, s, ops), LastBits(told + Announced(lib, s, ops)))
    decreases |ops|
  {
    hide Told, Apply, PollRouting;
    if ops == [] {
      assert told + [] == told;
    } else {
      var first := if ops[0].Poll? && PollRouting(s).1.Some? then [PollRouting(s).1.value] else [];
      ToldStep(lib, s, ops[0], LastBits(told));
      assert LastBits(told + first) == if first == [] then LastBits(told) else first[0].bits;
      RunTold(lib, Apply(lib, s, ops[0]), ops[1..], told + first);
      var rest := Announced(lib, Apply(lib, s, ops[0]), ops[1..]);
      assert told + first + rest == told + (first + rest);
    }
  }

  /**
   * When and what a strategy announces, after every run of a new one: the next poll emits a routing update if and only if
   * updates are enabled, at least the threshold's percentage of the shards is held, and the shards held are not the ones
   * announced last; and the update names exactly the shards held.
   */
  lemma AnnouncesWhatIsNew(lib: Lib, s: Strategy, ops: seq<Op>)
    requires Fresh(s)
    ensures var t := Run(lib, s, ops);
            var update := PollRouting(t).1;
            && (update.Some? <==> MayAnnounce(t, LastBits(Announced(lib, s, ops))))
            && (update.Some? ==> update.value == Havelist(|t.chunks|, Holding(t)))
  {
    hide Run, Announced, PollRouting;
    RunTold(lib, s, ops, []);
    assert [] + Announced(lib, s, ops) == Announced(lib, s, ops);
    OnePoll(Run(lib, s, ops), LastBits(Announced(lib, s, ops)));
  }
}
