/** Binary digits of natural numbers: the arithmetic under the bit-packed havelist. */
module Bits {

  function Pow2(k: nat): (p: nat)
    ensures p > 0
  {
    if k == 0 then 1 else 2 * Pow2(k - 1)
  }

  /** Whether binary digit `i` of `x` is one. */
  predicate Bit(x: nat, i: nat) {
    if i == 0 then x % 2 == 1 else Bit(x / 2, i - 1)
  }

  /** Right shift: `k` halvings. */
  function Shr(x: nat, k: nat): nat {
    if k == 0 then x else Shr(x / 2, k - 1)
  }

  /** The low `k` digits of `x`, that is `x & ((1 << k) - 1)`. */
  function Mask(x: nat, k: nat): nat {
    if k == 0 then 0 else x % 2 + 2 * Mask(x / 2, k - 1)
  }

  /** Bitwise or. */
  function Or(a: nat, b: nat): nat
    decreases a + b
  {
    if a == 0 then b
    else if b == 0 then a
    else 2 * Or(a / 2, b / 2) + if a % 2 == 1 || b % 2 == 1 then 1 else 0
  }

  /** Population count. */
  function Ones(x: nat): nat {
    if x == 0 then 0 else x % 2 + Ones(x / 2)
  }

  lemma {:induction false} ZeroBit(i: nat)
    ensures !Bit(0, i)
  {
    if i > 0 { ZeroBit(i - 1); }
  }

  lemma {:induction false} OrBit(a: nat, b: nat, i: nat)
    ensures Bit(Or(a, b), i) <==> Bit(a, i) || Bit(b, i)
    decreases i
  {
    ZeroBit(i);
    if a > 0 && b > 0 && i > 0 {
      OrBit(a / 2, b / 2, i - 1);
      assert Or(a, b) / 2 == Or(a / 2, b / 2);
    }
  }

  lemma {:induction false} OrBound(a: nat, b: nat, k: nat)
    requires a < Pow2(k) && b < Pow2(k)
    ensures Or(a, b) < Pow2(k)
    decreases k
  {
    if a > 0 && b > 0 {
      OrBound(a / 2, b / 2, k - 1);
    }
  }

  lemma {:induction false} BitOfPow2(k: nat, i: nat)
    ensures Bit(Pow2(k), i) <==> i == k
    decreases k
  {
    if k == 0 {
      if i > 0 { ZeroBit(i - 1); }
    } else if i > 0 {
      BitOfPow2(k - 1, i - 1);
      assert Pow2(k) / 2 == Pow2(k - 1);
    }
  }

  lemma {:induction false} Pow2Strict(b: nat, k: nat)
    requires b < k
    ensures Pow2(b) < Pow2(k)
    decreases k
  {
    if b < k - 1 { Pow2Strict(b, k - 1); }
  }

  /** The digits of `low + 2^k * high` are those of `low`, then those of `high`. */
  lemma {:induction false} BitOfSum(low: nat, high: nat, k: nat, i: nat)
    requires low < Pow2(k)
    ensures Bit(low + Pow2(k) * high, i) <==> if i < k then Bit(low, i) else Bit(high, i - k)
    decreases k
  {
    if k > 0 {
      HalfSum(low, high, k);
      if i > 0 { BitOfSum(low / 2, high, k - 1, i - 1); }
    }
  }

  lemma HalfSum(low: nat, high: nat, k: nat)
    requires k > 0
    ensures (low + Pow2(k) * high) % 2 == low % 2
    ensures (low + Pow2(k) * high) / 2 == low / 2 + Pow2(k - 1) * high
  {
    var y := Pow2(k - 1) * high;
    DoubleProduct(Pow2(k - 1), high);
    assert Pow2(k) * high == 2 * y;
  }

  lemma DoubleProduct(a: nat, b: nat)
    ensures (2 * a) * b == 2 * (a * b)
  {
  }

  lemma {:induction false} MaskBit(x: nat, k: nat, i: nat)
    ensures Bit(Mask(x, k), i) <==> i < k && Bit(x, i)
    ensures Mask(x, k) < Pow2(k)
    decreases k
  {
    if k == 0 {
      ZeroBit(i);
    } else {
      MaskBit(x / 2, k - 1, if i > 0 then i - 1 else 0);
      assert Mask(x, k) / 2 == Mask(x / 2, k - 1);
    }
  }

  lemma {:induction false} ShrBit(x: nat, k: nat, i: nat)
    ensures Bit(Shr(x, k), i) <==> Bit(x, i + k)
    decreases k
  {
    if k > 0 { ShrBit(x / 2, k - 1, i); }
  }

  /** A number below 2^k is determined by its low k digits. */
  lemma {:induction false} BitsDetermine(x: nat, y: nat, k: nat)
    requires x < Pow2(k) && y < Pow2(k)
    requires forall i | 0 <= i < k :: Bit(x, i) <==> Bit(y, i)
    ensures x == y
    decreases k
  {
    if k > 0 {
      assert Bit(x, 0) <==> Bit(y, 0);
      forall i | 0 <= i < k - 1
        ensures Bit(x / 2, i) <==> Bit(y / 2, i)
      {
        assert Bit(x, i + 1) <==> Bit(y, i + 1);
      }
      BitsDetermine(x / 2, y / 2, k - 1);
    }
  }

  /** The set of digit positions that are one, among the low k. */
  function Positions(x: nat, k: nat): (s: set<nat>) {
    set i: nat | i < k && Bit(x, i)
  }

  lemma {:induction false} OnesCountsPositions(x: nat, k: nat)
    requires x < Pow2(k)
    ensures Ones(x) == |Positions(x, k)|
    decreases k
  {
    hide Bit;
    if x == 0 {
      NoPositions(k);
    } else {
      OnesCountsPositions(x / 2, k - 1);
      var half := Positions(x / 2, k - 1);
      var unit: set<nat> := if x % 2 == 1 then {0} else {};
      ShiftUp(half, 1);
      forall i: nat
        ensures i in Positions(x, k) <==> i in Shift(half, 1) || i in unit
      {
        HalfPosition(x, k, i);
      }
      hide Positions, Shift;
      CardOfSplit(Positions(x, k), Shift(half, 1), unit);
    }
  }

  lemma CardOfSplit(c: set<nat>, a: set<nat>, b: set<nat>)
    requires forall i: nat :: i in c <==> i in a || i in b
    requires forall i: nat | i in a :: i !in b
    ensures |c| == |a| + |b|
  {
    assert c == a + b;
    assert a * b == {};
  }

  lemma NoPositions(k: nat)
    ensures Positions(0, k) == {}
  {
    forall i: nat ensures !Bit(0, i) { ZeroBit(i); }
  }

  lemma HalfPosition(x: nat, k: nat, i: nat)
    requires k > 0
    ensures i in Positions(x, k) <==> (if i == 0 then x % 2 == 1 else i - 1 in Positions(x / 2, k - 1))
  {
  }

  function Shift(s: set<nat>, d: nat): set<nat> {
    set i | i in s :: i + d
  }

  lemma {:induction false} ShiftUp(s: set<nat>, d: nat)
    ensures forall j: nat :: j in Shift(s, d) <==> j >= d && j - d in s
    ensures |Shift(s, d)| == |s|
    decreases s
  {
    forall j: nat
      ensures j in Shift(s, d) <==> j >= d && j - d in s
    {
      ShiftMember(s, d, j);
    }
    if s != {} {
      var x :| x in s;
      var rest := s - {x};
      ShiftUp(rest, d);
      hide Shift;
      CardOfSplit(Shift(s, d), Shift(rest, d), {x + d});
    }
  }

  lemma ShiftMember(s: set<nat>, d: nat, j: nat)
    ensures j in Shift(s, d) <==> j >= d && j - d in s
  {
    if j >= d && j - d in s {
      var i := j - d;
      assert i in s && j == i + d;
    }
  }

  /** Little-endian value of a byte string. */
  function FromLe(bytes: seq<nat>): nat {
    if bytes == [] then 0 else bytes[0] + 256 * FromLe(bytes[1..])
  }

  lemma {:induction false} FromLeBit(bytes: seq<nat>, i: nat)
    requires forall j | 0 <= j < |bytes| :: bytes[j] < 256
    ensures Bit(FromLe(bytes), i) <==> i / 8 < |bytes| && Bit(bytes[i / 8], i % 8)
    decreases |bytes|
  {
    if bytes == [] {
      ZeroBit(i);
    } else {
      assert Pow2(8) == 256;
      BitOfSum(bytes[0], FromLe(bytes[1..]), 8, i);
      if i >= 8 {
        FromLeBit(bytes[1..], i - 8);
      }
    }
  }

  lemma {:induction false} FromLeBound(bytes: seq<nat>, k: nat)
    requires forall j | 0 <= j < |bytes| :: bytes[j] < 256
    requires |bytes| <= k
    ensures FromLe(bytes) < Pow2(8 * k)
    decreases |bytes|
  {
    if bytes != [] {
      FromLeBound(bytes[1..], k - 1);
      assert FromLe(bytes) == bytes[0] + 256 * FromLe(bytes[1..]);
      ByteFactor(k);
    }
  }

  lemma ByteFactor(k: nat)
    requires k > 0
    ensures Pow2(8 * k) == 256 * Pow2(8 * (k - 1))
  {
    assert Pow2(8 * k) == 4 * Pow2(8 * k - 2);
    assert Pow2(8 * k - 2) == 4 * Pow2(8 * k - 4);
    assert Pow2(8 * k - 4) == 4 * Pow2(8 * k - 6);
  }
}
