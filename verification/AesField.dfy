/** The byte arithmetic of AES: multiplication by small constants in GF(2^8), and the two column
    mixing matrices of sections 5.1.3 and 5.3.3 of FIPS 197, which are inverse to each other.
    `Xor` is a function so that a proof about sums can treat it as opaque. */
module AesField {

  function Xor(a: bv8, b: bv8): bv8 {
    a ^ b
  }

  function XTime(a: bv8): bv8 {
    if a & 0x80 != 0 then (a << 1) ^ 0x1B else a << 1
  }

  function Sum4(a: bv8, b: bv8, c: bv8, d: bv8): bv8 {
    Xor(Xor(Xor(a, b), c), d)
  }

  function Mul3(a: bv8): bv8 {
    Xor(XTime(a), a)
  }

  function MulE(a: bv8): bv8 {
    Sum4(XTime(XTime(XTime(a))), XTime(XTime(a)), XTime(a), 0)
  }

  function MulB(a: bv8): bv8 {
    Sum4(XTime(XTime(XTime(a))), 0, XTime(a), a)
  }

  function MulD(a: bv8): bv8 {
    Sum4(XTime(XTime(XTime(a))), XTime(XTime(a)), 0, a)
  }

  function Mul9(a: bv8): bv8 {
    Sum4(XTime(XTime(XTime(a))), 0, 0, a)
  }

  /** One byte of a mixed column; the other three come from rotating the arguments. */
  function MixByte(a: bv8, b: bv8, c: bv8, d: bv8): bv8 {
    Sum4(XTime(a), Mul3(b), c, d)
  }

  function InvMixByte(a: bv8, b: bv8, c: bv8, d: bv8): bv8 {
    Sum4(MulE(a), MulB(b), MulD(c), Mul9(d))
  }

  // ----- sums -----

  lemma XorLaws(a: bv8, b: bv8, c: bv8)
    ensures Xor(a, b) == Xor(b, a) && Xor(Xor(a, b), c) == Xor(a, Xor(b, c))
    ensures Xor(a, 0) == a && Xor(0, a) == a && Xor(a, a) == 0 && Xor(Xor(a, b), b) == a
  {
  }

  lemma XorSwap(a: bv8, b: bv8, c: bv8, d: bv8)
    ensures Xor(Xor(a, b), Xor(c, d)) == Xor(Xor(a, c), Xor(b, d))
  {
    hide Xor;
    XorLaws(a, b, Xor(c, d));
    XorLaws(b, c, d);
    XorLaws(c, b, d);
    XorLaws(a, c, Xor(b, d));
  }

  lemma Sum4Xor(a: bv8, b: bv8, c: bv8, d: bv8, a': bv8, b': bv8, c': bv8, d': bv8)
    ensures Sum4(Xor(a, a'), Xor(b, b'), Xor(c, c'), Xor(d, d')) == Xor(Sum4(a, b, c, d), Sum4(a', b', c', d'))
  {
    hide Xor;
    XorSwap(a, a', b, b');
    XorSwap(Xor(a, b), Xor(a', b'), c, c');
    XorSwap(Xor(Xor(a, b), c), Xor(Xor(a', b'), c'), d, d');
  }

  lemma Sum4Rotate(a: bv8, b: bv8, c: bv8, d: bv8)
    ensures Sum4(a, b, c, d) == Sum4(b, c, d, a) == Sum4(c, d, a, b) == Sum4(d, a, b, c)
  {
    hide Sum4;
    Sum4RotateOnce(a, b, c, d);
    Sum4RotateOnce(d, a, b, c);
    Sum4RotateOnce(c, d, a, b);
  }

  lemma Sum4RotateOnce(a: bv8, b: bv8, c: bv8, d: bv8)
    ensures Sum4(a, b, c, d) == Sum4(d, a, b, c)
  {
    hide Xor;
    XorLaws(Xor(Xor(a, b), c), d, 0);
    XorLaws(d, Xor(a, b), c);
    XorLaws(d, a, b);
  }

  /** A four-by-four array has one sum, by rows or by columns. */
  lemma Sum4Transpose(a: bv8, b: bv8, c: bv8, d: bv8, e: bv8, f: bv8, g: bv8, h: bv8,
                      i: bv8, j: bv8, k: bv8, l: bv8, m: bv8, n: bv8, o: bv8, p: bv8)
    ensures Sum4(Sum4(a, b, c, d), Sum4(e, f, g, h), Sum4(i, j, k, l), Sum4(m, n, o, p))
            == Sum4(Sum4(a, e, i, m), Sum4(b, f, j, n), Sum4(c, g, k, o), Sum4(d, h, l, p))
  {
    hide Xor;
    Sum4Xor(a, b, c, d, e, f, g, h);
    Sum4Xor(Xor(a, e), Xor(b, f), Xor(c, g), Xor(d, h), i, j, k, l);
    Sum4Xor(Xor(Xor(a, e), i), Xor(Xor(b, f), j), Xor(Xor(c, g), k), Xor(Xor(d, h), l), m, n, o, p);
  }

  // ----- multiplication is linear -----

  lemma XTimeXor(a: bv8, b: bv8)
    ensures XTime(Xor(a, b)) == Xor(XTime(a), XTime(b))
  {
    ShiftXor(a, b);
    if a & 0x80 != 0 && b & 0x80 != 0 {
      XorSwap(a << 1, 0x1B, b << 1, 0x1B);
    } else if a & 0x80 != 0 {
      XorSwap(a << 1, 0x1B, b << 1, 0);
    } else {
      XorLaws(a << 1, b << 1, 0x1B);
    }
  }

  lemma ShiftXor(a: bv8, b: bv8)
    ensures Xor(a, b) << 1 == Xor(a << 1, b << 1)
    ensures Xor(a, b) & 0x80 != 0 <==> (a & 0x80 != 0) != (b & 0x80 != 0)
  {
  }

  lemma MulXor(a: bv8, b: bv8)
    ensures MulE(Xor(a, b)) == Xor(MulE(a), MulE(b))
    ensures MulB(Xor(a, b)) == Xor(MulB(a), MulB(b))
    ensures MulD(Xor(a, b)) == Xor(MulD(a), MulD(b))
    ensures Mul9(Xor(a, b)) == Xor(Mul9(a), Mul9(b))
  {
    hide XTime, Sum4, Xor;
    XorLaws(0, 0, 0);
    var a1, b1 := XTime(a), XTime(b);
    var a2, b2 := XTime(a1), XTime(b1);
    var a3, b3 := XTime(a2), XTime(b2);
    XTimeXor(a, b);
    XTimeXor(a1, b1);
    XTimeXor(a2, b2);
    Sum4Xor(a3, a2, a1, 0, b3, b2, b1, 0);
    Sum4Xor(a3, 0, a1, a, b3, 0, b1, b);
    Sum4Xor(a3, a2, 0, a, b3, b2, 0, b);
    Sum4Xor(a3, 0, 0, a, b3, 0, 0, b);
  }

  lemma MulSum4(a: bv8, b: bv8, c: bv8, d: bv8)
    ensures MulE(Sum4(a, b, c, d)) == Sum4(MulE(a), MulE(b), MulE(c), MulE(d))
    ensures MulB(Sum4(a, b, c, d)) == Sum4(MulB(a), MulB(b), MulB(c), MulB(d))
    ensures MulD(Sum4(a, b, c, d)) == Sum4(MulD(a), MulD(b), MulD(c), MulD(d))
    ensures Mul9(Sum4(a, b, c, d)) == Sum4(Mul9(a), Mul9(b), Mul9(c), Mul9(d))
  {
    hide XTime, Xor, MulE, MulB, MulD, Mul9;
    MulXor(a, b);
    MulXor(Xor(a, b), c);
    MulXor(Xor(Xor(a, b), c), d);
  }

  /** The entries of the product of the two matrices: one on the diagonal, zero elsewhere. */
  lemma ProductEntries(a: bv8)
    ensures Sum4(MulE(XTime(a)), MulB(a), MulD(a), Mul9(Mul3(a))) == a
    ensures Sum4(MulE(Mul3(a)), MulB(XTime(a)), MulD(a), Mul9(a)) == 0
    ensures Sum4(MulE(a), MulB(Mul3(a)), MulD(XTime(a)), Mul9(a)) == 0
    ensures Sum4(MulE(a), MulB(a), MulD(Mul3(a)), Mul9(XTime(a))) == 0
  {
  }

  /** Inverse mixing undoes mixing, byte by byte. */
  lemma InvMixMix(a: bv8, b: bv8, c: bv8, d: bv8)
    ensures InvMixByte(MixByte(a, b, c, d), MixByte(b, c, d, a), MixByte(c, d, a, b), MixByte(d, a, b, c)) == a
  {
    hide Sum4, XTime, Mul3, MulE, MulB, MulD, Mul9;
    MulSum4(XTime(a), Mul3(b), c, d);
    MulSum4(XTime(b), Mul3(c), d, a);
    MulSum4(XTime(c), Mul3(d), a, b);
    MulSum4(XTime(d), Mul3(a), b, c);
    Sum4Rotate(MulB(XTime(b)), MulB(Mul3(c)), MulB(d), MulB(a));
    Sum4Rotate(MulD(XTime(c)), MulD(Mul3(d)), MulD(a), MulD(b));
    Sum4Rotate(Mul9(XTime(d)), Mul9(Mul3(a)), Mul9(b), Mul9(c));
    Sum4Transpose(MulE(XTime(a)), MulE(Mul3(b)), MulE(c), MulE(d),
                  MulB(a), MulB(XTime(b)), MulB(Mul3(c)), MulB(d),
                  MulD(a), MulD(b), MulD(XTime(c)), MulD(Mul3(d)),
                  Mul9(Mul3(a)), Mul9(b), Mul9(c), Mul9(XTime(d)));
    ProductEntries(a);
    ProductEntries(b);
    ProductEntries(c);
    ProductEntries(d);
    SumOfOne(a);
  }

  lemma SumOfOne(a: bv8)
    ensures Sum4(a, 0, 0, 0) == a
  {
  }

  lemma InvMixXor(a: bv8, b: bv8, c: bv8, d: bv8, a': bv8, b': bv8, c': bv8, d': bv8)
    ensures InvMixByte(Xor(a, a'), Xor(b, b'), Xor(c, c'), Xor(d, d'))
            == Xor(InvMixByte(a, b, c, d), InvMixByte(a', b', c', d'))
  {
    hide XTime, Xor, Sum4, MulE, MulB, MulD, Mul9;
    MulXor(a, a');
    MulXor(b, b');
    MulXor(c, c');
    MulXor(d, d');
    Sum4Xor(MulE(a), MulB(b), MulD(c), Mul9(d), MulE(a'), MulB(b'), MulD(c'), Mul9(d'));
  }
}
