/** The per-TID bitmaps of a peer: `|= (1<<TID)`, `&= (~(1<<TID))` and `& (1<<TID)`. */
module Bitmaps {

  /** `1 << tid`. */
  function Bit(tid: nat): bv16 {
    if tid == 0 then 0x01 else if tid == 1 then 0x02 else if tid == 2 then 0x04 else if tid == 3 then 0x08
    else if tid == 4 then 0x10 else if tid == 5 then 0x20 else if tid == 6 then 0x40 else 0x80
  }

  function Set(b: bv16, tid: nat): bv16 { b | Bit(tid) }

  function Clear(b: bv16, tid: nat): bv16 { b & !Bit(tid) }

  predicate Test(b: bv16, tid: nat) { b & Bit(tid) != 0 }

  /** The bits of the eight TIDs. */
  function Bits(b: bv16): (s: seq<bool>)
    ensures |s| == 8
  {
    [Test(b, 0), Test(b, 1), Test(b, 2), Test(b, 3), Test(b, 4), Test(b, 5), Test(b, 6), Test(b, 7)]
  }

  function And(a: bv16, b: bv16): bv16 { a & b }

  function Or(a: bv16, b: bv16): bv16 { a | b }

  function Without(a: bv16, b: bv16): bv16 { a & !b }

  lemma OrMask(b: bv16, x: bv16, y: bv16)
    ensures And(Or(b, x), y) == Or(And(b, y), And(x, y))
  {
  }

  lemma NotMask(b: bv16, x: bv16, y: bv16)
    requires And(x, y) == 0
    ensures And(Without(b, x), y) == And(b, y)
  {
  }

  lemma NotSelf(b: bv16, x: bv16)
    ensures And(Without(b, x), x) == 0
  {
  }

  lemma OrNonZero(a: bv16, b: bv16)
    ensures Or(a, b) != 0 <==> a != 0 || b != 0
  {
  }

  /** The masks of different TIDs have no bit in common. */
  lemma BitsApart(t: nat, u: nat)
    requires t < 8 && u < 8
    ensures And(Bit(t), Bit(u)) == if t == u then Bit(t) else 0
    ensures Bit(t) != 0
  {
  }

  lemma SetTests(b: bv16, t: nat, u: nat)
    requires t < 8 && u < 8
    ensures Test(Set(b, t), u) <==> t == u || Test(b, u)
    ensures Test(Clear(b, t), u) <==> t != u && Test(b, u)
  {
    hide Bit, And, Or, Without, Set, Clear, Test;
    TestIs(Set(b, t), u);
    TestIs(Clear(b, t), u);
    TestIs(b, u);
    BitsApart(t, u);
    SetIs(b, t);
    OrMask(b, Bit(t), Bit(u));
    OrNonZero(And(b, Bit(u)), And(Bit(t), Bit(u)));
    if t == u { NotSelf(b, Bit(u)); } else { NotMask(b, Bit(t), Bit(u)); }
  }

  lemma TestIs(b: bv16, u: nat)
    ensures Test(b, u) <==> And(b, Bit(u)) != 0
  {
    hide Bit;
  }

  lemma SetIs(b: bv16, t: nat)
    ensures Set(b, t) == Or(b, Bit(t)) && Clear(b, t) == Without(b, Bit(t))
  {
    hide Bit;
  }

  lemma BitsSet(b: bv16, t: nat)
    requires t < 8
    ensures Bits(Set(b, t)) == Bits(b)[t := true]
    ensures Bits(Clear(b, t)) == Bits(b)[t := false]
  {
    hide Set, Clear, Test;
    var s, c := Bits(Set(b, t)), Bits(Clear(b, t));
    forall u | 0 <= u < 8 ensures s[u] == Bits(b)[t := true][u] && c[u] == Bits(b)[t := false][u] {
      SetTests(b, t, u);
      BitsTest(b, u);
      BitsTest(Set(b, t), u);
      BitsTest(Clear(b, t), u);
    }
  }

  lemma BitsTest(b: bv16, t: nat)
    requires t < 8
    ensures Bits(b)[t] == Test(b, t)
  {
    hide Test;
  }

  lemma NoBits()
    ensures Bits(0) == [false, false, false, false, false, false, false, false]
  {
    hide Bit;
  }
}
