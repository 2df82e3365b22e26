/** The shard havelist: a set of shard indices below a fixed size. */
module Havelists {
  datatype Havelist = Havelist(n: nat, bits: set<nat>)
}

/** The bit-packed representation of a havelist: 64-bit limbs in memory, LSB-first bytes on the wire. */
module BitMaps {
  import opened Bits
  import opened Havelists

  function LimbsFor(n: nat): nat { (n + 63) / 64 }

  function BytesFor(n: nat): nat { (n + 7) / 8 }

  predicate IsLimb(x: nat) { x < Pow2(64) }

  predicate IsByte(x: nat) { x < 256 }

  predicate IsBytes(bytes: seq<nat>) {
    forall j | 0 <= j < |bytes| :: IsByte(bytes[j])
  }

  /** Whether bit `i` of the limb vector is set. */
  predicate BitAt(limbs: seq<nat>, i: nat)
    requires i < 64 * |limbs|
  {
    Bit(limbs[i / 64], i % 64)
  }

  /** Right number of limbs, each 64 bits wide, and no bit set at or above `n`. */
  predicate WellFormed(limbs: seq<nat>, n: nat) {
    && |limbs| == LimbsFor(n)
    && (forall q | 0 <= q < |limbs| :: IsLimb(limbs[q]))
    && (forall i | n <= i < 64 * |limbs| :: !BitAt(limbs, i))
  }

  /** The set of indices a limb vector denotes. */
  function Members(limbs: seq<nat>): set<nat> {
    set i: nat | i < 64 * |limbs| && BitAt(limbs, i)
  }

  // ---- Counting ----

  function SumOnes(limbs: seq<nat>): nat {
    if limbs == [] then 0
    else SumOnes(limbs[..|limbs| - 1]) + Ones(limbs[|limbs| - 1])
  }

  /** The sum of the limbs' population counts is the number of members. */
  lemma {:induction false} SumOnesIsCard(limbs: seq<nat>)
    requires forall q | 0 <= q < |limbs| :: IsLimb(limbs[q])
    ensures SumOnes(limbs) == |Members(limbs)|
    decreases |limbs|
  {
    if limbs != [] {
      var m := |limbs| - 1;
      var init, last := limbs[..m], limbs[m];
      SumOnesIsCard(init);
      OnesCountsPositions(last, 64);
      var top := Shift(Positions(last, 64), 64 * m);
      ShiftUp(Positions(last, 64), 64 * m);
      forall i: nat
        ensures i in Members(limbs) <==> i in Members(init) || i in top
        ensures i in Members(init) ==> i !in top
      {
        LastLimbMember(limbs, i);
      }
      hide Members, Positions, Shift;
      CardOfSplit(Members(limbs), Members(init), top);
    }
  }

  lemma LastLimbMember(limbs: seq<nat>, i: nat)
    requires limbs != []
    ensures var m := |limbs| - 1;
            i in Members(limbs) <==> (if i < 64 * m then i in Members(limbs[..m]) else i - 64 * m in Positions(limbs[m], 64))
    ensures i in Members(limbs[..|limbs| - 1]) ==> i < 64 * (|limbs| - 1)
  {
    var m := |limbs| - 1;
    if i < 64 * m {
      assert BitAt(limbs, i) <==> BitAt(limbs[..m], i);
    } else if i < 64 * |limbs| {
      assert i / 64 == m && i % 64 == i - 64 * m;
    }
  }

  // ---- Wire form ----

  /** Byte `j` of the packed form. */
  function ByteAt(limbs: seq<nat>, j: nat): nat
    requires j < 8 * |limbs|
  {
    Mask(Shr(limbs[j / 8], 8 * (j % 8)), 8)
  }

  /** The bytes a havelist of size `n` puts on the wire. */
  function Packed(limbs: seq<nat>, n: nat): (bytes: seq<nat>)
    requires |limbs| == LimbsFor(n)
  {
    seq(BytesFor(n), j requires 0 <= j < BytesFor(n) => ByteAt(limbs, j))
  }

  /** Where the eight-byte window starting at byte `8 * q` ends. */
  function End(bytes: seq<nat>, q: nat): nat
    requires 8 * q <= |bytes|
    ensures 8 * q <= End(bytes, q) <= |bytes| && End(bytes, q) <= 8 * q + 8
  {
    if 8 * q + 8 <= |bytes| then 8 * q + 8 else |bytes|
  }

  /** Limb `q` of the unpacked form, with the bits at or above `n` cleared. */
  function LimbFrom(bytes: seq<nat>, n: nat, q: nat): nat
    requires |bytes| == BytesFor(n) && q < LimbsFor(n)
  {
    var limb := FromLe(bytes[8 * q..End(bytes, q)]);
    if q == LimbsFor(n) - 1 && n % 64 > 0 then Mask(limb, n % 64) else limb
  }

  function Unpacked(bytes: seq<nat>, n: nat): (limbs: seq<nat>)
    requires |bytes| == BytesFor(n)
  {
    seq(LimbsFor(n), q requires 0 <= q < LimbsFor(n) => LimbFrom(bytes, n, q))
  }

  /** The packed bytes with the unused high bits of the last one cleared. */
  function Cleared(bytes: seq<nat>, n: nat): seq<nat>
    requires |bytes| == BytesFor(n)
  {
    if n % 8 == 0 then bytes
    else bytes[..|bytes| - 1] + [Mask(bytes[|bytes| - 1], n % 8)]
  }

  lemma {:induction false} PackedBit(limbs: seq<nat>, n: nat, i: nat)
    requires |limbs| == LimbsFor(n) && i < 8 * BytesFor(n)
    ensures Packed(limbs, n)[i / 8] < 256
    ensures Bit(Packed(limbs, n)[i / 8], i % 8) <==> BitAt(limbs, i)
  {
    var j, r := i / 8, i % 8;
    MaskBit(Shr(limbs[j / 8], 8 * (j % 8)), 8, r);
    ShrBit(limbs[j / 8], 8 * (j % 8), r);
    assert j / 8 == i / 64 && r + 8 * (j % 8) == i % 64;
    assert Pow2(8) == 256;
  }

  lemma {:induction false} PackedIsBytes(limbs: seq<nat>, n: nat)
    requires |limbs| == LimbsFor(n)
    ensures IsBytes(Packed(limbs, n))
  {
    forall j | 0 <= j < BytesFor(n)
      ensures IsByte(Packed(limbs, n)[j])
    {
      PackedBit(limbs, n, 8 * j);
    }
  }

  lemma {:induction false} WindowBit(bytes: seq<nat>, q: nat, r: nat)
    requires IsBytes(bytes) && 8 * q <= |bytes| && r < 64
    ensures IsLimb(FromLe(bytes[8 * q..End(bytes, q)]))
    ensures Bit(FromLe(bytes[8 * q..End(bytes, q)]), r)
       <==> 8 * q + r / 8 < |bytes| && Bit(bytes[8 * q + r / 8], r % 8)
  {
    var part := bytes[8 * q..End(bytes, q)];
    FromLeBit(part, r);
    FromLeBound(part, 8);
  }

  /** How the byte count and the limb count of a size relate. */
  lemma SizesAgree(n: nat, q: nat, r: nat)
    requires q < LimbsFor(n) && r < 64
    ensures 64 * q + r < n ==> 8 * q + r / 8 < BytesFor(n)
    ensures 8 * q + r / 8 < BytesFor(n) && (q < LimbsFor(n) - 1 || n % 64 == 0 || r < n % 64) ==> 64 * q + r < n
    ensures q == LimbsFor(n) - 1 && n % 64 > 0 ==> 64 * q + n % 64 == n
  {
  }

  lemma {:induction false} LimbFromBit(bytes: seq<nat>, n: nat, q: nat, r: nat)
    requires |bytes| == BytesFor(n) && IsBytes(bytes)
    requires q < LimbsFor(n) && r < 64
    ensures IsLimb(LimbFrom(bytes, n, q))
    ensures Bit(LimbFrom(bytes, n, q), r) <==> 64 * q + r < n && Bit(bytes[8 * q + r / 8], r % 8)
  {
    WindowBit(bytes, q, r);
    SizesAgree(n, q, r);
    var limb := FromLe(bytes[8 * q..End(bytes, q)]);
    var used := n % 64;
    if q == LimbsFor(n) - 1 && used > 0 {
      MaskedLimb(limb, used, r);
      assert LimbFrom(bytes, n, q) == Mask(limb, used);
    } else {
      assert LimbFrom(bytes, n, q) == limb;
    }
  }

  lemma MaskedLimb(limb: nat, used: nat, r: nat)
    requires used < 64
    ensures IsLimb(Mask(limb, used))
    ensures Bit(Mask(limb, used), r) <==> r < used && Bit(limb, r)
  {
    MaskBit(limb, used, r);
    Pow2Strict(used, 64);
  }

  lemma {:induction false} UnpackedBit(bytes: seq<nat>, n: nat, i: nat)
    requires |bytes| == BytesFor(n) && IsBytes(bytes)
    requires i < 64 * LimbsFor(n)
    ensures IsLimb(Unpacked(bytes, n)[i / 64])
    ensures BitAt(Unpacked(bytes, n), i) <==> i < n && Bit(bytes[i / 8], i % 8)
  {
    LimbFromBit(bytes, n, i / 64, i % 64);
    assert i / 8 == 8 * (i / 64) + (i % 64) / 8 && i % 8 == (i % 64) % 8;
  }

  /** Unpacking gives a well-formed bitmap whose members are the set bits below `n`. */
  lemma {:induction false} UnpackedMembers(bytes: seq<nat>, n: nat)
    requires |bytes| == BytesFor(n) && IsBytes(bytes)
    ensures WellFormed(Unpacked(bytes, n), n)
    ensures Members(Unpacked(bytes, n)) == set i: nat | i < n && Bit(bytes[i / 8], i % 8)
  {
    var limbs := Unpacked(bytes, n);
    forall i: nat | i < 64 * |limbs|
      ensures IsLimb(limbs[i / 64])
      ensures BitAt(limbs, i) <==> i < n && Bit(bytes[i / 8], i % 8)
    {
      UnpackedBit(bytes, n, i);
    }
    forall q | 0 <= q < |limbs|
      ensures IsLimb(limbs[q])
    {
      assert (64 * q) / 64 == q;
      UnpackedBit(bytes, n, 64 * q);
    }
  }

  /** Well-formed limb vectors with the same members are equal. */
  lemma {:induction false} MembersDetermine(a: seq<nat>, b: seq<nat>, n: nat)
    requires WellFormed(a, n) && WellFormed(b, n)
    requires Members(a) == Members(b)
    ensures a == b
  {
    forall q | 0 <= q < |a|
      ensures a[q] == b[q]
    {
      forall r | 0 <= r < 64
        ensures Bit(a[q], r) <==> Bit(b[q], r)
      {
        var i := 64 * q + r;
        assert i / 64 == q && i % 64 == r;
        assert i in Members(a) <==> i in Members(b);
        assert BitAt(a, i) <==> BitAt(b, i);
      }
      BitsDetermine(a[q], b[q], 64);
    }
  }

  /** Reading back what was written gives the same bitmap. */
  lemma {:induction false} UnpackPacked(limbs: seq<nat>, n: nat)
    requires WellFormed(limbs, n)
    ensures Unpacked(Packed(limbs, n), n) == limbs
  {
    var bytes := Packed(limbs, n);
    PackedIsBytes(limbs, n);
    UnpackedMembers(bytes, n);
    forall i: nat
      ensures i in Members(Unpacked(bytes, n)) <==> i in Members(limbs)
    {
      if i < n {
        PackedBit(limbs, n, i);
      } else if i < 64 * |limbs| {
        assert !BitAt(limbs, i);
      }
    }
    MembersDetermine(Unpacked(bytes, n), limbs, n);
  }

  lemma {:induction false} ClearedBit(bytes: seq<nat>, n: nat, i: nat)
    requires |bytes| == BytesFor(n) && IsBytes(bytes)
    requires i < 8 * |bytes|
    ensures IsByte(Cleared(bytes, n)[i / 8])
    ensures Bit(Cleared(bytes, n)[i / 8], i % 8) <==> i < n && Bit(bytes[i / 8], i % 8)
  {
    var j := i / 8;
    if n % 8 > 0 && j == |bytes| - 1 {
      MaskBit(bytes[j], n % 8, i % 8);
      assert Pow2(8) == 256;
      Pow2Strict(n % 8, 8);
    }
  }

  lemma {:induction false} BytesDetermine(a: seq<nat>, b: seq<nat>)
    requires |a| == |b| && IsBytes(a) && IsBytes(b)
    requires forall i | 0 <= i < 8 * |a| :: Bit(a[i / 8], i % 8) <==> Bit(b[i / 8], i % 8)
    ensures a == b
  {
    forall j | 0 <= j < |a|
      ensures a[j] == b[j]
    {
      forall r | 0 <= r < 8
        ensures Bit(a[j], r) <==> Bit(b[j], r)
      {
        var i := 8 * j + r;
        assert i / 8 == j && i % 8 == r;
      }
      assert Pow2(8) == 256;
      BitsDetermine(a[j], b[j], 8);
    }
  }

  /** Writing back what was read gives the same bytes, but for unused high bits, which are cleared. */
  lemma {:induction false} PackUnpacked(bytes: seq<nat>, n: nat)
    requires |bytes| == BytesFor(n) && IsBytes(bytes)
    ensures Packed(Unpacked(bytes, n), n) == Cleared(bytes, n)
  {
    var again := Packed(Unpacked(bytes, n), n);
    var want := Cleared(bytes, n);
    PackedIsBytes(Unpacked(bytes, n), n);
    forall j | 0 <= j < |bytes|
      ensures IsByte(want[j])
    {
      assert (8 * j) / 8 == j;
      ClearedBit(bytes, n, 8 * j);
    }
    forall i | 0 <= i < 8 * |bytes|
      ensures Bit(again[i / 8], i % 8) <==> Bit(want[i / 8], i % 8)
    {
      PackedBit(Unpacked(bytes, n), n, i);
      UnpackedBit(bytes, n, i);
      ClearedBit(bytes, n, i);
    }
    BytesDetermine(again, want);
  }

  // ---- The bitmap object ----

  /** The limb-wise or of two limb sequences has the union of their members. */
  lemma OrMembers(bits: seq<nat>, mine: seq<nat>, theirs: seq<nat>)
    requires |bits| == |mine| == |theirs| && forall p | 0 <= p < |bits| :: bits[p] == Or(mine[p], theirs[p])
    ensures Members(bits) == Members(mine) + Members(theirs)
    ensures forall i: nat | i < 64 * |bits| :: BitAt(bits, i) <==> BitAt(mine, i) || BitAt(theirs, i)
  {
    forall i: nat | i < 64 * |bits|
      ensures BitAt(bits, i) <==> BitAt(mine, i) || BitAt(theirs, i)
    {
      OrBit(mine[i / 64], theirs[i / 64], i % 64);
    }
  }

  class BitMap {
    var bits: seq<nat>
    var n: nat

    ghost predicate Valid()
      reads this
    {
      WellFormed(bits, n)
    }

    ghost function View(): Havelist
      reads this
      requires Valid()
    {
      Havelist(n, Members(bits))
    }

    constructor WithCapacity(n: nat)
      ensures Valid() && View() == Havelist(n, {})
    {
      bits := seq(LimbsFor(n), _ => 0);
      this.n := n;
      new;
      forall i: nat ensures !Bit(0, i) { ZeroBit(i); }
      assert Members(bits) == {};
    }

    method Set(idx: nat) returns (ok: bool)
      requires Valid()
      modifies this
      ensures Valid()
      ensures ok == (idx < old(n))
      ensures View() == if ok then Havelist(old(n), old(View()).bits + {idx}) else old(View())
    {
      if idx >= n {
        return false;
      }
      var limb, bit := idx / 64, idx % 64;
      bits := bits[limb := Or(bits[limb], Pow2(bit))];
      ok := true;
      Pow2Strict(bit, 64);
      OrBound(old(bits)[limb], Pow2(bit), 64);
      forall i: nat | i < 64 * |bits|
        ensures BitAt(bits, i) <==> old(BitAt(bits, i)) || i == idx
      {
        OrBit(old(bits)[limb], Pow2(bit), i % 64);
        BitOfPow2(bit, i % 64);
      }
      assert Members(bits) == old(Members(bits)) + {idx};
    }

    method Get(idx: nat) returns (r: bool)
      requires Valid()
      ensures r <==> idx in View().bits
    {
      if idx >= n {
        assert idx < 64 * |bits| ==> !BitAt(bits, idx);
        return false;
      }
      var limb, bit := idx / 64, idx % 64;
      ShrBit(bits[limb], bit, 0);
      r := Shr(bits[limb], bit) % 2 == 1;
      assert r == BitAt(bits, idx);
    }

    method CountOnes() returns (count: nat)
      requires Valid()
      ensures count == |View().bits|
    {
      count := 0;
      for q := 0 to |bits|
        invariant count == SumOnes(bits[..q])
      {
        count := count + Ones(bits[q]);
        assert bits[..q + 1][..q] == bits[..q];
      }
      assert bits[..|bits|] == bits;
      SumOnesIsCard(bits);
    }

    method OrMerge(other: BitMap) returns (ok: bool)
      requires Valid() && other.Valid()
      modifies this
      ensures Valid()
      ensures ok == (old(n) == old(other.n))
      ensures View() == if ok then Havelist(old(n), old(View()).bits + old(other.View()).bits) else old(View())
    {
      hide BitAt, Members, Or;
      if n != other.n {
        return false;
      }
      ghost var mine, theirs := bits, other.bits;
      var q := 0;
      while q < |bits|
        invariant 0 <= q <= |bits| == |mine| == |theirs|
        invariant n == old(n) && other.n == n
        invariant other == this || other.bits == theirs
        invariant forall p | q <= p < |bits| :: bits[p] == mine[p]
        invariant forall p | 0 <= p < q :: bits[p] == Or(mine[p], theirs[p])
      {
        bits := bits[q := Or(bits[q], other.bits[q])];
        q := q + 1;
      }
      ok := true;
      forall p | 0 <= p < |bits|
        ensures IsLimb(bits[p])
      {
        OrBound(mine[p], theirs[p], 64);
      }
      OrMembers(bits, mine, theirs);
    }

    method AsBytes() returns (out: seq<nat>)
      requires Valid()
      ensures out == Packed(bits, n)
    {
      var nbytes := BytesFor(n);
      out := [];
      for q := 0 to |bits|
        invariant |out| == if q < |bits| || q == 0 then 8 * q else nbytes
        invariant forall j | 0 <= j < |out| :: j < 8 * |bits| && out[j] == ByteAt(bits, j)
      {
        var limb := bits[q];
        var bytes := seq(8, r requires 0 <= r < 8 => Mask(Shr(limb, 8 * r), 8));
        var take := if q == |bits| - 1 then nbytes - |out| else 8;
        forall r | 0 <= r < take
          ensures bytes[r] == ByteAt(bits, 8 * q + r)
        {
          assert (8 * q + r) / 8 == q && (8 * q + r) % 8 == r;
        }
        out := out + bytes[..take];
      }
    }

    static method FromBytes(bytes: seq<nat>, n: nat) returns (b: BitMap?)
      requires IsBytes(bytes)
      ensures b == null <==> |bytes| != BytesFor(n)
      ensures b != null ==> b.Valid() && b.n == n && b.bits == Unpacked(bytes, n) && fresh(b)
    {
      if |bytes| != BytesFor(n) {
        return null;
      }
      var limbs := LimbsFor(n);
      var out: seq<nat> := [];
      for q := 0 to limbs
        invariant |out| == q
        invariant forall p | 0 <= p < q :: out[p] == FromLe(bytes[8 * p..End(bytes, p)])
      {
        var chunk := bytes[8 * q..End(bytes, q)];
        var buf := chunk + seq(8 - |chunk|, _ => 0);
        PaddingKeepsValue(chunk, 8 - |chunk|);
        out := out + [FromLe(buf)];
      }
      if |out| > 0 {
        var used := n % 64;
        if used > 0 {
          out := out[|out| - 1 := Mask(out[|out| - 1], used)];
        }
      }
      assert out == Unpacked(bytes, n);
      UnpackedMembers(bytes, n);
      hide Unpacked;
      b := new BitMap.Raw(out, n);
    }

    constructor Raw(bits: seq<nat>, n: nat)
      ensures this.bits == bits && this.n == n
    {
      this.bits := bits;
      this.n := n;
    }
  }

  lemma {:induction false} PaddingKeepsValue(chunk: seq<nat>, k: nat)
    ensures FromLe(chunk + seq(k, _ => 0)) == FromLe(chunk)
    decreases |chunk|, k
  {
    var pad: seq<nat> := seq(k, _ => 0);
    if chunk == [] {
      assert chunk + pad == pad;
      if k > 0 {
        assert pad[1..] == seq(k - 1, _ => 0);
        PaddingKeepsValue([], k - 1);
        assert [] + seq(k - 1, _ => 0) == seq(k - 1, _ => 0);
      }
    } else {
      assert (chunk + pad)[1..] == chunk[1..] + pad;
      PaddingKeepsValue(chunk[1..], k);
    }
  }
}
