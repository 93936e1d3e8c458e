/** The S-box is what section 5.1.1 of FIPS 197 defines: an affine map of the inverse in GF(2^8). */
module AesSbox {
  import opened AesField
  import opened AesTables

  /** `b` if bit `i` of `a` is set. */
  function IfBit(a: bv8, i: bv8, b: bv8): bv8 {
    if a & i != 0 then b else 0
  }

  /** The product in GF(2^8): the sum of the doublings of `b` that the bits of `a` select. */
  function Times(a: bv8, b: bv8): bv8 {
    var b1 := XTime(b);
    var b2 := XTime(b1);
    var b3 := XTime(b2);
    var b4 := XTime(b3);
    var b5 := XTime(b4);
    var b6 := XTime(b5);
    var b7 := XTime(b6);
    IfBit(a, 0x01, b) ^ IfBit(a, 0x02, b1) ^ IfBit(a, 0x04, b2) ^ IfBit(a, 0x08, b3)
    ^ IfBit(a, 0x10, b4) ^ IfBit(a, 0x20, b5) ^ IfBit(a, 0x40, b6) ^ IfBit(a, 0x80, b7)
  }

  /** Bit i is the sum of bits i, i+4, i+5, i+6 and i+7, modulo 8, and of bit i of 0x63. */
  function Affine(b: bv8): bv8 {
    b ^ Turned(b, 4) ^ Turned(b, 5) ^ Turned(b, 6) ^ Turned(b, 7) ^ 0x63
  }

  /** Rotated right, so that bit i + k comes to bit i. */
  function Turned(b: bv8, k: nat): bv8
    requires k <= 8
  {
    (b >> k) | (b << (8 - k))
  }

  /** `s` is the affine image of the inverse `y` of `x`; zero counts as its own inverse. */
  predicate ImageOfInverse(x: bv8, y: bv8, s: bv8) {
    (if x == 0 then y == 0 else Times(x, y) == 1) && s == Affine(y)
  }

  /** The inverse, found by undoing the affine map. */
  function Preimage(s: bv8): bv8 {
    Turned(s, 7) ^ Turned(s, 5) ^ Turned(s, 2) ^ 0x05
  }

  /** Every entry of the S-box is the affine image of the inverse of its index. */
  lemma SboxIsDefined(x: bv8) returns (y: bv8)
    ensures (if x == 0 then y == 0 else Times(x, y) == 1) && Sbox(x) == Affine(y)
  {
    hide Times, Affine, Preimage;
    y := Preimage(Sbox(x));
    if x < 0x10 {
      Row0(x);
    } else if x < 0x20 {
      Row1(x);
    } else if x < 0x30 {
      Row2(x);
    } else if x < 0x40 {
      Row3(x);
    } else if x < 0x50 {
      Row4(x);
    } else if x < 0x60 {
      Row5(x);
    } else if x < 0x70 {
      Row6(x);
    } else if x < 0x80 {
      Row7(x);
    } else if x < 0x90 {
      Row8(x);
    } else if x < 0xA0 {
      Row9(x);
    } else if x < 0xB0 {
      RowA(x);
    } else if x < 0xC0 {
      RowB(x);
    } else if x < 0xD0 {
      RowC(x);
    } else if x < 0xE0 {
      RowD(x);
    } else if x < 0xF0 {
      RowE(x);
    } else {
      RowF(x);
    }
  }

  lemma Row0(x: bv8)
    requires x < 0x10
    ensures ImageOfInverse(x, Preimage(SboxRow0(x)), SboxRow0(x))
  {
  }

  lemma Row1(x: bv8)
    requires 0x10 <= x < 0x20
    ensures ImageOfInverse(x, Preimage(SboxRow1(x)), SboxRow1(x))
  {
  }

  lemma Row2(x: bv8)
    requires 0x20 <= x < 0x30
    ensures ImageOfInverse(x, Preimage(SboxRow2(x)), SboxRow2(x))
  {
  }

  lemma Row3(x: bv8)
    requires 0x30 <= x < 0x40
    ensures ImageOfInverse(x, Preimage(SboxRow3(x)), SboxRow3(x))
  {
  }

  lemma Row4(x: bv8)
    requires 0x40 <= x < 0x50
    ensures ImageOfInverse(x, Preimage(SboxRow4(x)), SboxRow4(x))
  {
  }

  lemma Row5(x: bv8)
    requires 0x50 <= x < 0x60
    ensures ImageOfInverse(x, Preimage(SboxRow5(x)), SboxRow5(x))
  {
  }

  lemma Row6(x: bv8)
    requires 0x60 <= x < 0x70
    ensures ImageOfInverse(x, Preimage(SboxRow6(x)), SboxRow6(x))
  {
  }

  lemma Row7(x: bv8)
    requires 0x70 <= x < 0x80
    ensures ImageOfInverse(x, Preimage(SboxRow7(x)), SboxRow7(x))
  {
  }

  lemma Row8(x: bv8)
    requires 0x80 <= x < 0x90
    ensures ImageOfInverse(x, Preimage(SboxRow8(x)), SboxRow8(x))
  {
  }

  lemma Row9(x: bv8)
    requires 0x90 <= x < 0xA0
    ensures ImageOfInverse(x, Preimage(SboxRow9(x)), SboxRow9(x))
  {
  }

  lemma RowA(x: bv8)
    requires 0xA0 <= x < 0xB0
    ensures ImageOfInverse(x, Preimage(SboxRowA(x)), SboxRowA(x))
  {
  }

  lemma RowB(x: bv8)
    requires 0xB0 <= x < 0xC0
    ensures ImageOfInverse(x, Preimage(SboxRowB(x)), SboxRowB(x))
  {
  }

  lemma RowC(x: bv8)
    requires 0xC0 <= x < 0xD0
    ensures ImageOfInverse(x, Preimage(SboxRowC(x)), SboxRowC(x))
  {
  }

  lemma RowD(x: bv8)
    requires 0xD0 <= x < 0xE0
    ensures ImageOfInverse(x, Preimage(SboxRowD(x)), SboxRowD(x))
  {
  }

  lemma RowE(x: bv8)
    requires 0xE0 <= x < 0xF0
    ensures ImageOfInverse(x, Preimage(SboxRowE(x)), SboxRowE(x))
  {
  }

  lemma RowF(x: bv8)
    requires 0xF0 <= x
    ensures ImageOfInverse(x, Preimage(SboxRowF(x)), SboxRowF(x))
  {
  }
}
