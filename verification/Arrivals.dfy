/** A relay session fed a sequence of chunks: when it finishes, and why the moment of decoding does not matter. */
module Arrivals {
  import opened Basics
  import opened Coding
  import opened Strategies
  import opened Sessions
  import Bits

  datatype Piece = Piece(idx: nat, data: Bytes)

  /** The part of a session that chunks and decoding change. */
  ghost predicate SameBody(s: Session, t: Session) {
    t.phase == s.phase && t.strategy.preamble == s.strategy.preamble && t.strategy.chunks == s.strategy.chunks
  }

  /** Takes all chunks without decoding in between. */
  function TakeSeq(lib: Lib, s: Session, cs: seq<Piece>): Session
    decreases |cs|
  {
    if cs == [] then s else TakeSeq(lib, Take(lib, s, cs[0].idx, cs[0].data).0, cs[1..])
  }

  /** Decodes if the session has enough chunks. */
  function Finished(lib: Lib, s: Session): Session {
    DecodeAndFinish(lib, s).0
  }

  /** Takes the chunks one by one, decoding as soon as there are enough. */
  function Eager(lib: Lib, s: Session, cs: seq<Piece>): Session
    decreases |cs|
  {
    if cs == [] then s else Eager(lib, Finished(lib, Take(lib, s, cs[0].idx, cs[0].data).0), cs[1..])
  }

  lemma TakeBody(lib: Lib, s: Session, t: Session, idx: nat, data: Bytes)
    requires SameBody(s, t)
    ensures SameBody(Take(lib, s, idx, data).0, Take(lib, t, idx, data).0)
    ensures var x, y := Take(lib, s, idx, data).1, Take(lib, t, idx, data).1;
            (x.Ok? <==> y.Ok?) && (x.Ok? ==> x.value == y.value)
  {
  }

  lemma FinishedBody(lib: Lib, s: Session, t: Session)
    requires SameBody(s, t)
    ensures SameBody(Finished(lib, s), Finished(lib, t))
    ensures Reconstruct(lib, s.strategy) == Reconstruct(lib, t.strategy)
  {
  }

  lemma {:induction false} EagerBody(lib: Lib, s: Session, t: Session, cs: seq<Piece>)
    requires SameBody(s, t)
    ensures SameBody(Eager(lib, s, cs), Eager(lib, t, cs))
    decreases |cs|
  {
    if cs != [] {
      var c := cs[0];
      hide SameBody, Take, Finished;
      TakeBody(lib, s, t, c.idx, c.data);
      FinishedBody(lib, Take(lib, s, c.idx, c.data).0, Take(lib, t, c.idx, c.data).0);
      EagerBody(lib, Finished(lib, Take(lib, s, c.idx, c.data).0), Finished(lib, Take(lib, t, c.idx, c.data).0), cs[1..]);
    }
  }

  /** Chunks after the session stopped consuming change nothing. */
  lemma {:induction false} DoneTakesNothing(lib: Lib, s: Session, cs: seq<Piece>)
    requires !s.phase.Consuming?
    ensures TakeSeq(lib, s, cs) == s
    ensures !s.phase.Decoding? ==> Eager(lib, s, cs) == s
    decreases |cs|
  {
    if cs != [] { DoneTakesNothing(lib, s, cs[1..]); }
  }

  /** Decoding at once or after the last chunk gives the same session. */
  lemma {:induction false} EagerIsLazy(lib: Lib, s: Session, cs: seq<Piece>)
    requires !s.phase.Decoding?
    ensures Eager(lib, s, cs) == Finished(lib, TakeSeq(lib, s, cs))
    decreases |cs|
  {
    if cs != [] {
      var t := Take(lib, s, cs[0].idx, cs[0].data).0;
      if t.phase.Decoding? {
        assert !Finished(lib, t).phase.Decoding? && !Finished(lib, t).phase.Consuming? by { hide Reconstruct; }
        hide Take, Finished;
        DoneTakesNothing(lib, t, cs[1..]);
        DoneTakesNothing(lib, Finished(lib, t), cs[1..]);
      } else {
        assert Finished(lib, t) == t;
        hide Take, Finished;
        EagerIsLazy(lib, t, cs[1..]);
      }
    }
  }

  lemma {:induction false} EagerConcat(lib: Lib, s: Session, xs: seq<Piece>, ys: seq<Piece>)
    ensures Eager(lib, s, xs + ys) == Eager(lib, Eager(lib, s, xs), ys)
    decreases |xs|
  {
    if xs == [] {
      assert xs + ys == ys;
    } else {
      var t := Finished(lib, Take(lib, s, xs[0].idx, xs[0].data).0);
      hide Take, Finished;
      assert (xs + ys)[1..] == xs[1..] + ys;
      EagerConcat(lib, t, xs[1..], ys);
    }
  }

  // ---- When a relay finishes ----

  /** The indices for which a chunk with the right hash arrived. */
  ghost function ValidIndices(lib: Lib, p: Preamble, cs: seq<Piece>): set<nat> {
    set c | c in cs && VerifyChunk(lib, p, c.idx, c.data) == Accepted :: c.idx
  }

  ghost function HeldIndices(chunks: seq<Option<Bytes>>): set<nat> {
    set i: nat | i < |chunks| && chunks[i].Some?
  }

  lemma {:induction false} HeldCount(chunks: seq<Option<Bytes>>)
    ensures |HeldIndices(chunks)| == CountSome(chunks)
    decreases |chunks|
  {
    if chunks != [] {
      var rest := chunks[1..];
      HeldCount(rest);
      var shifted := Bits.Shift(HeldIndices(rest), 1);
      Bits.ShiftUp(HeldIndices(rest), 1);
      var first: set<nat> := if chunks[0].Some? then {0} else {};
      hide Bits.Shift;
      forall i: nat
        ensures i in HeldIndices(chunks) <==> i in shifted || i in first
      {
        if i > 0 && i < |chunks| { assert chunks[i] == rest[i - 1]; }
      }
      hide HeldIndices;
      Bits.CardOfSplit(HeldIndices(chunks), shifted, first);
    }
  }

  /** The chunk count at which a relay stops consuming. */
  ghost function Enough(p: Preamble): nat {
    if p.numData < 1 then 1 else p.numData
  }

  ghost predicate Relaying(s: Session) {
    WellShaped(s.strategy.preamble) && |s.strategy.chunks| == s.strategy.preamble.Total()
  }

  /** One chunk: a new valid index is added while consuming, and reaching the threshold ends that. */
  lemma TakeHolds(lib: Lib, s: Session, c: Piece)
    requires s.phase.Consuming? && Relaying(s) && CountSome(s.strategy.chunks) < Enough(s.strategy.preamble)
    ensures var t := Take(lib, s, c.idx, c.data).0;
            var p := s.strategy.preamble;
            && Relaying(t) && t.strategy.preamble == p
            && HeldIndices(t.strategy.chunks) == HeldIndices(s.strategy.chunks) + ValidIndices(lib, p, [c])
            && (t.phase.Consuming? || t.phase.Decoding?)
            && (t.phase.Decoding? <==> CountSome(t.strategy.chunks) >= Enough(p))
  {
    var t := Take(lib, s, c.idx, c.data).0;
    var p, chunks := s.strategy.preamble, s.strategy.chunks;
    if c.idx < |chunks| && chunks[c.idx].None? && VerifyChunk(lib, p, c.idx, c.data) == Accepted {
      CountAfterFill(chunks, c.idx, c.data);
      forall i: nat
        ensures i in HeldIndices(t.strategy.chunks) <==> i in HeldIndices(chunks) || i == c.idx
      {
      }
    }
    HeldBelow(lib, s, c);
    hide CountSome;
  }

  lemma HeldBelow(lib: Lib, s: Session, c: Piece)
    requires Relaying(s)
    ensures ValidIndices(lib, s.strategy.preamble, [c])
         == if VerifyChunk(lib, s.strategy.preamble, c.idx, c.data) == Accepted then {c.idx} else {}
    ensures c.idx >= |s.strategy.chunks| ==> VerifyChunk(lib, s.strategy.preamble, c.idx, c.data) == Invalid
  {
    assert c in [c];
  }

  lemma NoneValid(lib: Lib, p: Preamble)
    ensures ValidIndices(lib, p, []) == {}
  {
  }

  lemma ValidCons(lib: Lib, p: Preamble, cs: seq<Piece>)
    requires cs != []
    ensures ValidIndices(lib, p, cs) == ValidIndices(lib, p, [cs[0]]) + ValidIndices(lib, p, cs[1..])
  {
    assert cs == [cs[0]] + cs[1..];
  }

  /** The session stops consuming exactly when enough distinct valid indices have arrived, in whatever order. */
  lemma {:induction false} StopsWhenEnough(lib: Lib, s: Session, cs: seq<Piece>)
    requires s.phase.Consuming? && Relaying(s) && CountSome(s.strategy.chunks) < Enough(s.strategy.preamble)
    ensures var t := TakeSeq(lib, s, cs);
            var all := HeldIndices(s.strategy.chunks) + ValidIndices(lib, s.strategy.preamble, cs);
            && (t.phase.Consuming? <==> |all| < Enough(s.strategy.preamble))
            && (t.phase.Consuming? || t.phase.Decoding?)
    decreases |cs|
  {
    hide Take, HeldIndices, ValidIndices, CountSome, Relaying, Enough;
    var p := s.strategy.preamble;
    var held := HeldIndices(s.strategy.chunks);
    HeldCount(s.strategy.chunks);
    if cs == [] {
      NoneValid(lib, p);
      assert held + {} == held;
    } else {
      TakeHolds(lib, s, cs[0]);
      ValidCons(lib, p, cs);
      var t := Take(lib, s, cs[0].idx, cs[0].data).0;
      HeldCount(t.strategy.chunks);
      var first, more := ValidIndices(lib, p, [cs[0]]), ValidIndices(lib, p, cs[1..]);
      assert held + (first + more) == (held + first) + more;
      if t.phase.Decoding? {
        hide TakeSeq;
        StoppedAt(lib, s, t, cs);
        Grows(held + first, more);
      } else {
        StopsWhenEnough(lib, t, cs[1..]);
      }
    }
  }

  lemma StoppedAt(lib: Lib, s: Session, t: Session, cs: seq<Piece>)
    requires cs != [] && t == Take(lib, s, cs[0].idx, cs[0].data).0 && t.phase.Decoding?
    ensures TakeSeq(lib, s, cs) == t
  {
    hide Take;
    DoneTakesNothing(lib, t, cs[1..]);
  }

  lemma Grows(a: set<nat>, b: set<nat>)
    ensures |a + b| >= |a|
  {
    assert a + b == a + (b - a);
  }

  /** A new relay completes exactly when at least max(k, 1) distinct valid indices arrive. */
  lemma RelayCompletesIff(lib: Lib, s: Session, cs: seq<Piece>)
    requires s.phase.Consuming? && Relaying(s) && HeldIndices(s.strategy.chunks) == {}
    ensures Eager(lib, s, cs).Terminal() <==> |ValidIndices(lib, s.strategy.preamble, cs)| >= Enough(s.strategy.preamble)
    ensures !Eager(lib, s, cs).Terminal() ==> Eager(lib, s, cs).phase.Consuming?
  {
    HeldCount(s.strategy.chunks);
    StopsWhenEnough(lib, s, cs);
    EagerIsLazy(lib, s, cs);
    var v := ValidIndices(lib, s.strategy.preamble, cs);
    assert {} + v == v;
    hide Reconstruct, TakeSeq, Eager, HeldIndices, ValidIndices, CountSome;
  }

  /** Whether a relay completes does not depend on the order of its chunks. */
  lemma CompletionIgnoresOrder(lib: Lib, s: Session, cs: seq<Piece>, ds: seq<Piece>)
    requires s.phase.Consuming? && Relaying(s) && HeldIndices(s.strategy.chunks) == {}
    requires multiset(cs) == multiset(ds)
    ensures Eager(lib, s, cs).Terminal() <==> Eager(lib, s, ds).Terminal()
  {
    RelayCompletesIff(lib, s, cs);
    RelayCompletesIff(lib, s, ds);
    forall c: Piece
      ensures c in cs <==> c in ds
    {
      assert c in cs <==> c in multiset(cs);
      assert c in ds <==> c in multiset(ds);
    }
    assert ValidIndices(lib, s.strategy.preamble, cs) == ValidIndices(lib, s.strategy.preamble, ds);
  }
}
