/** A 32-bit word as four bytes, most significant first, and the column operations on words. */
module AesWords {
  import opened AesField

  function Pack(a: bv8, b: bv8, c: bv8, d: bv8): bv32 {
    ((a as bv32) << 24) | ((b as bv32) << 16) | ((c as bv32) << 8) | (d as bv32)
  }

  /** The bytes of a word: `(uint8)(w >> 24)` and so on. */
  function B3(w: bv32): bv8 {
    ((w >> 24) & 0xFF) as bv8
  }

  function B2(w: bv32): bv8 {
    ((w >> 16) & 0xFF) as bv8
  }

  function B1(w: bv32): bv8 {
    ((w >> 8) & 0xFF) as bv8
  }

  function B0(w: bv32): bv8 {
    (w & 0xFF) as bv8
  }

  function XorW(u: bv32, v: bv32): bv32 {
    u ^ v
  }

  function Ror8(w: bv32): bv32 {
    (w >> 8) | (w << 24)
  }

  lemma PackBytes(a: bv8, b: bv8, c: bv8, d: bv8)
    ensures var w := Pack(a, b, c, d); B3(w) == a && B2(w) == b && B1(w) == c && B0(w) == d
  {
  }

  lemma BytesPack(w: bv32)
    ensures Pack(B3(w), B2(w), B1(w), B0(w)) == w
  {
  }

  lemma PackXor(a: bv8, b: bv8, c: bv8, d: bv8, a': bv8, b': bv8, c': bv8, d': bv8)
    ensures XorW(Pack(a, b, c, d), Pack(a', b', c', d')) == Pack(Xor(a, a'), Xor(b, b'), Xor(c, c'), Xor(d, d'))
  {
  }

  lemma XorBytes(u: bv32, v: bv32)
    ensures B3(XorW(u, v)) == Xor(B3(u), B3(v)) && B2(XorW(u, v)) == Xor(B2(u), B2(v))
    ensures B1(XorW(u, v)) == Xor(B1(u), B1(v)) && B0(XorW(u, v)) == Xor(B0(u), B0(v))
  {
    hide Pack, B3, B2, B1, B0, XorW, Xor;
    BytesPack(u);
    BytesPack(v);
    PackXor(B3(u), B2(u), B1(u), B0(u), B3(v), B2(v), B1(v), B0(v));
    PackBytes(Xor(B3(u), B3(v)), Xor(B2(u), B2(v)), Xor(B1(u), B1(v)), Xor(B0(u), B0(v)));
  }

  lemma PackRor(a: bv8, b: bv8, c: bv8, d: bv8)
    ensures Ror8(Pack(a, b, c, d)) == Pack(d, a, b, c)
  {
  }

  lemma XorWCancel(u: bv32, v: bv32)
    ensures XorW(u, v) == XorW(v, u) && XorW(XorW(u, v), v) == u
  {
  }

  lemma XorWAssoc(u: bv32, v: bv32, w: bv32)
    ensures XorW(XorW(u, v), w) == XorW(u, XorW(v, w))
  {
  }

  function MixWord(w: bv32): bv32 {
    var a, b, c, d := B3(w), B2(w), B1(w), B0(w);
    Pack(MixByte(a, b, c, d), MixByte(b, c, d, a), MixByte(c, d, a, b), MixByte(d, a, b, c))
  }

  function InvMixWord(w: bv32): bv32 {
    var a, b, c, d := B3(w), B2(w), B1(w), B0(w);
    Pack(InvMixByte(a, b, c, d), InvMixByte(b, c, d, a), InvMixByte(c, d, a, b), InvMixByte(d, a, b, c))
  }

  lemma InvMixMixWord(w: bv32)
    ensures InvMixWord(MixWord(w)) == w
  {
    hide Pack, B3, B2, B1, B0, MixByte, InvMixByte;
    var a, b, c, d := B3(w), B2(w), B1(w), B0(w);
    PackBytes(MixByte(a, b, c, d), MixByte(b, c, d, a), MixByte(c, d, a, b), MixByte(d, a, b, c));
    InvMixMix(a, b, c, d);
    InvMixMix(b, c, d, a);
    InvMixMix(c, d, a, b);
    InvMixMix(d, a, b, c);
    BytesPack(w);
  }

  lemma InvMixWordXor(u: bv32, v: bv32)
    ensures InvMixWord(XorW(u, v)) == XorW(InvMixWord(u), InvMixWord(v))
  {
    hide Pack, B3, B2, B1, B0, XorW, Xor, InvMixByte;
    var a, b, c, d := B3(u), B2(u), B1(u), B0(u);
    var a', b', c', d' := B3(v), B2(v), B1(v), B0(v);
    XorBytes(u, v);
    InvMixXor(a, b, c, d, a', b', c', d');
    InvMixXor(b, c, d, a, b', c', d', a');
    InvMixXor(c, d, a, b, c', d', a', b');
    InvMixXor(d, a, b, c, d', a', b', c');
    PackXor(InvMixByte(a, b, c, d), InvMixByte(b, c, d, a), InvMixByte(c, d, a, b), InvMixByte(d, a, b, c),
            InvMixByte(a', b', c', d'), InvMixByte(b', c', d', a'), InvMixByte(c', d', a', b'),
              InvMixByte(d', a', b', c'));
  }

  /** A word in memory on a little-endian host, and back. */
  function LeBytes(w: bv32): (b: seq<bv8>)
    ensures |b| == 4
  {
    [B0(w), B1(w), B2(w), B3(w)]
  }

  function LeWord(b: seq<bv8>): bv32
    requires |b| == 4
  {
    Pack(b[3], b[2], b[1], b[0])
  }

  lemma LeRoundTrip(w: bv32)
    ensures LeWord(LeBytes(w)) == w
  {
    hide Pack, B3, B2, B1, B0;
    BytesPack(w);
  }

  lemma LeInjective(b: seq<bv8>, c: seq<bv8>)
    requires |b| == 4 && |c| == 4 && LeWord(b) == LeWord(c)
    ensures b == c
  {
    hide Pack, B3, B2, B1, B0;
    PackBytes(b[3], b[2], b[1], b[0]);
    PackBytes(c[3], c[2], c[1], c[0]);
  }

  lemma LeBytesInjective(v: bv32, w: bv32)
    requires LeBytes(v) == LeBytes(w)
    ensures v == w
  {
    hide Pack, B0, B1, B2, B3;
    BytesPack(v);
    BytesPack(w);
    assert LeBytes(v)[0] == LeBytes(w)[0] && LeBytes(v)[1] == LeBytes(w)[1] && LeBytes(v)[2] == LeBytes(w)[2]
        && LeBytes(v)[3] == LeBytes(w)[3];
  }
}
