/** Shared vocabulary: optional values, identifiers, byte strings and ordered iteration. */
module Basics {
  datatype Option<+T> = None | Some(value: T)

  datatype Result<+T, +E> = Ok(value: T) | Err(error: E)

  /** Peers, channels and messages are only compared and ordered, so naturals stand for them. */
  type PeerId = nat
  type ChannelId = nat
  type MessageId = nat

  datatype Key = Key(channel: ChannelId, message: MessageId)

  type Byte = x: nat | x < 256
  type Bytes = seq<Byte>

  // ---- Ordered iteration over finite sets ----

  predicate IsLeast(s: set<nat>, m: nat) {
    m in s && forall x | x in s :: m <= x
  }

  lemma {:induction false} MinExists(s: set<nat>)
    requires s != {}
    ensures exists m :: IsLeast(s, m)
    decreases |s|
  {
    var y :| y in s;
    var rest := s - {y};
    if rest == {} {
      assert s == {y};
      assert IsLeast(s, y);
    } else {
      MinExists(rest);
      var m :| IsLeast(rest, m);
      assert forall x | x in s :: x == y || x in rest;
      assert IsLeast(s, if y < m then y else m);
    }
  }

  function Min(s: set<nat>): (m: nat)
    requires s != {}
    ensures IsLeast(s, m)
  {
    MinExists(s);
    var m :| IsLeast(s, m);
    m
  }

  predicate Ascending(r: seq<nat>) {
    forall i, j | 0 <= i < j < |r| :: r[i] < r[j]
  }

  lemma ConsAscending(m: nat, rest: seq<nat>)
    requires Ascending(rest) && forall x | x in rest :: m < x
    ensures Ascending([m] + rest) && forall x :: x in [m] + rest <==> x == m || x in rest
  {
    assert forall i | 0 <= i < |rest| :: rest[i] in rest;
  }

  /** The elements of `s` in the order a `BTreeSet` visits them. */
  function Sorted(s: set<nat>): (r: seq<nat>)
    ensures forall x :: x in r <==> x in s
    ensures Ascending(r)
    ensures |r| == |s|
    decreases |s|
  {
    if s == {} then []
    else
      var m := Min(s);
      var rest := Sorted(s - {m});
      ConsAscending(m, rest);
      [m] + rest
  }
}
