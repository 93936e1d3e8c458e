/** The 12-bit sequence-number arithmetic of the block-ack code (include/mlme.h:906-914).
    The macros work on wrapped numbers; the lemmas say what they mean for the
    unbounded frame counter of the transmitter, of which the header carries the low 12 bits. */
module SequenceNumbers {

  const MAXSEQ := 0xFFF
  const RESET_RCV_SEQ := 0xFFFF

  /** The part of an unbounded counter that fits the header. */
  function Wrap(u: int): (s: nat)
    ensures s <= MAXSEQ
  {
    u % 0x1000
  }

  /** `SEQ_STEPONE`: `(b + 1) & MAXSEQ`. */
  predicate StepOne(a: nat, b: nat) {
    a == (b + 1) % 0x1000
  }

  /** `SEQ_SMALLER`: bit 11 of the difference. */
  predicate Smaller(a: nat, b: nat) {
    (a - b) % 0x1000 >= 0x800
  }

  /** How far the wrapped number `s` is ahead of `base`, modulo 4096. */
  function Ahead(s: nat, base: int): (d: nat)
    ensures d <= MAXSEQ
  {
    (s - base) % 0x1000
  }

  /** Bit 11 decides the order of two counters that are at most half the space apart. */
  lemma SmallerIsOrder(a: int, b: int)
    requires -0x800 <= a - b < 0x800
    ensures Smaller(Wrap(a), Wrap(b)) <==> a < b
  {
    ModDifference(a, b);
  }

  lemma ModDifference(a: int, b: int)
    ensures (a % 0x1000 - b % 0x1000) % 0x1000 == (a - b) % 0x1000
  {
    var qa, qb := a / 0x1000, b / 0x1000;
    assert a == qa * 0x1000 + a % 0x1000 && b == qb * 0x1000 + b % 0x1000;
    assert a - b == (qa - qb) * 0x1000 + (a % 0x1000 - b % 0x1000);
  }

  lemma StepOneIsSuccessor(a: int, b: int)
    requires 0 <= a - b < 0x1000
    ensures StepOne(Wrap(a), Wrap(b)) <==> a == b + 1
  {
    ModDifference(a, b);
    ModDifference(b + 1, b);
  }

  /** Moving the base forward by no more than the distance shortens the distance by that much. */
  lemma AheadRebase(s: nat, base: int, d: nat)
    requires d <= Ahead(s, base)
    ensures Ahead(s, base + d) == Ahead(s, base) - d
    ensures Ahead(s, Wrap(base + d)) == Ahead(s, base) - d
  {
    var q := (s - base) / 0x1000;
    assert s - base == q * 0x1000 + Ahead(s, base);
    assert s - (base + d) == q * 0x1000 + (Ahead(s, base) - d);
    var p := (base + d) / 0x1000;
    assert s - Wrap(base + d) == (q + p) * 0x1000 + (Ahead(s, base) - d);
  }

  /** A wrapped number is its distance from any base, added to that base. */
  lemma WrapAhead(s: nat, base: int)
    requires s <= MAXSEQ
    ensures Wrap(base + Ahead(s, base)) == s
  {
    var q := (s - base) / 0x1000;
    assert base + Ahead(s, base) == s + (-q) * 0x1000;
  }

  /** Two counters less than a whole space apart are told apart by their wrapped forms. */
  lemma AheadOfCounter(u: int, base: int)
    requires 0 <= u - base < 0x1000
    ensures Ahead(Wrap(u), base) == u - base
    ensures Ahead(Wrap(u), Wrap(base)) == u - base
  {
    ModDifference(u, base);
    var q := u / 0x1000;
    assert Wrap(u) - base == (-q) * 0x1000 + (u - base);
  }

  lemma WrapSmall(u: int)
    requires 0 <= u <= MAXSEQ
    ensures Wrap(u) == u
  {
  }

  lemma WrapOfSum(u: int, d: int)
    ensures Wrap(Wrap(u) + d) == Wrap(u + d)
  {
    var q := u / 0x1000;
    assert u + d == q * 0x1000 + (Wrap(u) + d);
  }

  lemma WrapPredecessor(u: int)
    ensures Wrap(u - 1) == if Wrap(u) == 0 then MAXSEQ else Wrap(u) - 1
  {
  }

  lemma WrapPeriod(u: int, s: nat)
    ensures Wrap(u - 0x1000) == Wrap(u) && Ahead(s, u - 0x1000) == Ahead(s, u)
  {
  }

  /** An accepted request's number is 1 to half the space ahead. */
  lemma SmallerDistance(last: nat, start: nat)
    requires Smaller(last, start)
    ensures 1 <= Ahead(start, last) <= 0x800
  {
  }
}
