/** The hypotheses about the libraries are consistent: a small library satisfies them all, with something published. */
module Premises {
  import opened Basics
  import opened Coding
  import opened Network

  const CODE := RsConfig(1, 1, 0, 0, 1, false)
  const KEY := Key(0, 0)

  function Message(): Bytes { [7] }

  /** Distinguishes the message from everything else. */
  function Digest(b: Bytes): Bytes {
    seq(HASH_LEN, _ => if b == Message() then 1 else 0)
  }

  function Copies(m: nat, d: Bytes): seq<Bytes> {
    seq(m, _ => d)
  }

  function Filled(n: nat, d: Bytes): seq<Option<Bytes>> {
    seq(n, _ => Some(d))
  }

  function FirstHeld(slots: seq<Option<Bytes>>): Bytes {
    if slots == [] then [] else if slots[0].Some? then slots[0].value else FirstHeld(slots[1..])
  }

  function Announced(): Preamble {
    Preamble(1, 1, 1, [Digest(Message()), Digest(Message())], Digest(Message()))
  }

  /** A repetition code: one data shard, every other shard a copy of it. */
  function Library(): Lib {
    Lib(b => Digest(b),
        (k: nat, m: nat) => k == 1,
        (k: nat, m: nat, data: seq<Bytes>) => if |data| == 1 then Copies(m, data[0]) else [],
        (k: nat, m: nat, slots: seq<Option<Bytes>>) => Some(Filled(k + m, FirstHeld(slots))),
        (b: Bytes) => Some(Announced()))
  }

  lemma {:induction false} HeldCopy(slots: seq<Option<Bytes>>, d: Bytes)
    requires CountSome(slots) >= 1 && forall i | 0 <= i < |slots| && slots[i].Some? :: slots[i].value == d
    ensures FirstHeld(slots) == d
    decreases |slots|
  {
    if slots[0].None? { HeldCopy(slots[1..], d); }
  }

  lemma CopiesAgree(m: nat, data: seq<Bytes>, slots: seq<Option<Bytes>>)
    requires |data| == 1 && Agrees(slots, Codeword(Library(), 1, m, data)) && CountSome(slots) >= 1
    ensures FirstHeld(slots) == data[0]
  {
    assert Codeword(Library(), 1, m, data) == data + Copies(m, data[0]);
    hide CountSome;
    assert forall i | 0 <= i < |slots| && slots[i].Some? :: slots[i].value == data[0];
    HeldCopy(slots, data[0]);
  }

  lemma CopiesRecover(m: nat, data: seq<Bytes>)
    requires |data| == 1
    ensures RecoversData(Library(), 1, m, data)
  {
    var lib := Library();
    forall slots | Agrees(slots, Codeword(lib, 1, m, data)) && CountSome(slots) >= 1
      ensures lib.recover(1, m, slots) == Some(Filled(1 + m, data[0]))
    {
      CopiesAgree(m, data, slots);
      hide Agrees, CountSome, Codeword;
    }
    hide Agrees, CountSome, Codeword, Library;
  }

  lemma LibraryRecovers()
    ensures RecoversFromAnyK(Library())
  {
    hide RecoversData;
    var lib := Library();
    forall k: nat, m: nat, data: seq<Bytes>, len: nat
      | lib.rsOk(k, m) && len > 0 && |data| == k && SameLength(data, len)
      ensures k > 0 && |lib.parity(k, m, data)| == m
      ensures SameLength(lib.parity(k, m, data), len) && RecoversData(lib, k, m, data)
    {
      CopiesRecover(m, data);
    }
  }

  lemma MessageEncodes()
    ensures Encode(Library(), Message(), CODE) == Ok((Announced(), [Message(), Message()]))
  {
    assert ResolveShape(1, CODE) == Shape(1, 1, 1);
    assert Message()[..1] + [] == Message();
    assert Split(Message()[1..], 1, 0) == [];
    assert Split(Message(), 1, 1) == [Message()];
    assert Codeword(Library(), 1, 1, [Message()]) == [Message(), Message()];
    var p := PreambleOf(Library(), Message(), Shape(1, 1, 1), [Message(), Message()]);
    assert p.hashes == Announced().hashes;
  }

  lemma MessageUnforged()
    ensures Unforged(Library(), Message())
  {
    forall a: Bytes | Digest(a) == Digest(Message())
      ensures a == Message()
    {
      assert Digest(a)[0] == Digest(Message())[0] == 1;
    }
  }

  /** Some library and some publication satisfy every premise of end-to-end integrity. */
  lemma PremisesHaveAModel()
    ensures exists lib: Lib, book: Book :: GoodBook(lib, book) && KEY in book && Unforgeable(lib, book[KEY])
  {
    var lib, book := Library(), map[KEY := Publication(Message(), CODE, [])];
    LibraryRecovers();
    MessageEncodes();
    MessageUnforged();
    hide RecoversFromAnyK, Encode, Unforged;
    assert HashIsFixedLength(lib);
    assert GoodBook(lib, book) && Unforgeable(lib, book[KEY]);
  }
}
