/** The cipher on four words: section 5.1 of FIPS 197, the equivalent inverse cipher of section
    5.3.5, and the proof that one undoes the other. */
module AesCipher {
  import opened AesField
  import opened AesWords
  import opened AesTables

  datatype Block = Block(w0: bv32, w1: bv32, w2: bv32, w3: bv32)

  function AddKey(s: Block, k: Block): Block {
    Block(XorW(s.w0, k.w0), XorW(s.w1, k.w1), XorW(s.w2, k.w2), XorW(s.w3, k.w3))
  }

  function SubWord(w: bv32): bv32 {
    Pack(Sbox(B3(w)), Sbox(B2(w)), Sbox(B1(w)), Sbox(B0(w)))
  }

  function InvSubWord(w: bv32): bv32 {
    Pack(InvSbox(B3(w)), InvSbox(B2(w)), InvSbox(B1(w)), InvSbox(B0(w)))
  }

  /** One column after the rows are shifted: a byte of each word. */
  function Gather(a: bv32, b: bv32, c: bv32, d: bv32): bv32 {
    Pack(B3(a), B2(b), B1(c), B0(d))
  }

  function ShiftRows(s: Block): Block {
    Block(Gather(s.w0, s.w1, s.w2, s.w3), Gather(s.w1, s.w2, s.w3, s.w0),
          Gather(s.w2, s.w3, s.w0, s.w1), Gather(s.w3, s.w0, s.w1, s.w2))
  }

  function InvShiftRows(s: Block): Block {
    Block(Gather(s.w0, s.w3, s.w2, s.w1), Gather(s.w1, s.w0, s.w3, s.w2),
          Gather(s.w2, s.w1, s.w0, s.w3), Gather(s.w3, s.w2, s.w1, s.w0))
  }

  function SubBytes(s: Block): Block {
    Block(SubWord(s.w0), SubWord(s.w1), SubWord(s.w2), SubWord(s.w3))
  }

  function InvSubBytes(s: Block): Block {
    Block(InvSubWord(s.w0), InvSubWord(s.w1), InvSubWord(s.w2), InvSubWord(s.w3))
  }

  function MixColumns(s: Block): Block {
    Block(MixWord(s.w0), MixWord(s.w1), MixWord(s.w2), MixWord(s.w3))
  }

  function InvMixColumns(s: Block): Block {
    Block(InvMixWord(s.w0), InvMixWord(s.w1), InvMixWord(s.w2), InvMixWord(s.w3))
  }

  /** Round key `r` of a schedule. */
  function RoundKey(ks: seq<bv32>, r: nat): Block
    requires 4 * r + 4 <= |ks|
  {
    Block(ks[4 * r], ks[4 * r + 1], ks[4 * r + 2], ks[4 * r + 3])
  }

  function EncRound(s: Block, k: Block): Block {
    AddKey(MixColumns(ShiftRows(SubBytes(s))), k)
  }

  function DecRound(s: Block, k: Block): Block {
    AddKey(InvMixColumns(InvShiftRows(InvSubBytes(s))), k)
  }

  /** The state after the initial key and `r` full rounds. */
  function EncRounds(ks: seq<bv32>, r: nat, s: Block): Block
    requires 4 * r + 4 <= |ks|
  {
    if r == 0 then AddKey(s, RoundKey(ks, 0)) else EncRound(EncRounds(ks, r - 1, s), RoundKey(ks, r))
  }

  function DecRounds(ks: seq<bv32>, r: nat, s: Block): Block
    requires 4 * r + 4 <= |ks|
  {
    if r == 0 then AddKey(s, RoundKey(ks, 0)) else DecRound(DecRounds(ks, r - 1, s), RoundKey(ks, r))
  }

  /** `nr` rounds, the last without mixing. */
  function Encrypt(ks: seq<bv32>, nr: nat, s: Block): Block
    requires nr > 0 && 4 * nr + 4 <= |ks|
  {
    AddKey(ShiftRows(SubBytes(EncRounds(ks, nr - 1, s))), RoundKey(ks, nr))
  }

  function Decrypt(ks: seq<bv32>, nr: nat, s: Block): Block
    requires nr > 0 && 4 * nr + 4 <= |ks|
  {
    AddKey(InvShiftRows(InvSubBytes(DecRounds(ks, nr - 1, s))), RoundKey(ks, nr))
  }

  /** The decryption schedule: the encryption schedule reversed, inverse-mixed except at both ends. */
  ghost predicate IsInverseSchedule(ek: seq<bv32>, dk: seq<bv32>, nr: nat) {
    && nr > 0 && 4 * nr + 4 <= |ek| && 4 * nr + 4 <= |dk|
    && RoundKey(dk, 0) == RoundKey(ek, nr) && RoundKey(dk, nr) == RoundKey(ek, 0)
    && forall r | 0 < r < nr :: RoundKey(dk, r) == InvMixColumns(RoundKey(ek, nr - r))
  }

  // ----- each step and its inverse -----

  lemma InvSubWordSubWord(w: bv32)
    ensures InvSubWord(SubWord(w)) == w
  {
    hide Pack, B3, B2, B1, B0, Sbox, InvSbox;
    PackBytes(Sbox(B3(w)), Sbox(B2(w)), Sbox(B1(w)), Sbox(B0(w)));
    SboxInverts(B3(w));
    SboxInverts(B2(w));
    SboxInverts(B1(w));
    SboxInverts(B0(w));
    BytesPack(w);
  }

  /** The two middle steps of the inverse commute: a shift only moves bytes. */
  lemma InvSubShift(s: Block)
    ensures InvShiftRows(InvSubBytes(ShiftRows(SubBytes(s)))) == s
  {
    hide InvSubWord, SubWord;
    InvSubGather(SubWord(s.w0), SubWord(s.w1), SubWord(s.w2), SubWord(s.w3));
    InvSubGather(SubWord(s.w1), SubWord(s.w2), SubWord(s.w3), SubWord(s.w0));
    InvSubGather(SubWord(s.w2), SubWord(s.w3), SubWord(s.w0), SubWord(s.w1));
    InvSubGather(SubWord(s.w3), SubWord(s.w0), SubWord(s.w1), SubWord(s.w2));
    InvSubWordSubWord(s.w0);
    InvSubWordSubWord(s.w1);
    InvSubWordSubWord(s.w2);
    InvSubWordSubWord(s.w3);
    InvShiftShift(s);
  }

  lemma InvSubGather(a: bv32, b: bv32, c: bv32, d: bv32)
    ensures InvSubWord(Gather(a, b, c, d)) == Gather(InvSubWord(a), InvSubWord(b), InvSubWord(c), InvSubWord(d))
  {
    hide Pack, B3, B2, B1, B0, InvSbox;
    PackBytes(B3(a), B2(b), B1(c), B0(d));
    PackBytes(InvSbox(B3(a)), InvSbox(B2(a)), InvSbox(B1(a)), InvSbox(B0(a)));
    PackBytes(InvSbox(B3(b)), InvSbox(B2(b)), InvSbox(B1(b)), InvSbox(B0(b)));
    PackBytes(InvSbox(B3(c)), InvSbox(B2(c)), InvSbox(B1(c)), InvSbox(B0(c)));
    PackBytes(InvSbox(B3(d)), InvSbox(B2(d)), InvSbox(B1(d)), InvSbox(B0(d)));
  }

  lemma InvShiftShift(s: Block)
    ensures InvShiftRows(ShiftRows(s)) == s
  {
    hide Pack, B3, B2, B1, B0;
    PackBytes(B3(s.w0), B2(s.w1), B1(s.w2), B0(s.w3));
    PackBytes(B3(s.w1), B2(s.w2), B1(s.w3), B0(s.w0));
    PackBytes(B3(s.w2), B2(s.w3), B1(s.w0), B0(s.w1));
    PackBytes(B3(s.w3), B2(s.w0), B1(s.w1), B0(s.w2));
    BytesPack(s.w0);
    BytesPack(s.w1);
    BytesPack(s.w2);
    BytesPack(s.w3);
  }

  lemma AddKeyTwice(s: Block, k: Block)
    ensures AddKey(AddKey(s, k), k) == s
  {
    hide XorW;
    XorWCancel(s.w0, k.w0);
    XorWCancel(s.w1, k.w1);
    XorWCancel(s.w2, k.w2);
    XorWCancel(s.w3, k.w3);
  }

  lemma InvMixAddKey(s: Block, k: Block)
    ensures AddKey(InvMixColumns(AddKey(MixColumns(s), k)), InvMixColumns(k)) == s
  {
    hide XorW, MixWord, InvMixWord;
    InvMixXorCancels(s.w0, k.w0);
    InvMixXorCancels(s.w1, k.w1);
    InvMixXorCancels(s.w2, k.w2);
    InvMixXorCancels(s.w3, k.w3);
  }

  lemma InvMixXorCancels(s: bv32, k: bv32)
    ensures XorW(InvMixWord(XorW(MixWord(s), k)), InvMixWord(k)) == s
  {
    hide XorW, MixWord, InvMixWord;
    InvMixWordXor(MixWord(s), k);
    InvMixMixWord(s);
    XorWCancel(s, InvMixWord(k));
  }

  // ----- the rounds of the inverse retrace the rounds of the cipher -----

  /** After `r` inverse rounds the state is the shifted and substituted state of `nr - 1 - r` rounds. */
  lemma {:induction false} DecRoundsRetrace(ek: seq<bv32>, dk: seq<bv32>, nr: nat, r: nat, s: Block)
    requires IsInverseSchedule(ek, dk, nr) && r < nr
    ensures DecRounds(dk, r, Encrypt(ek, nr, s)) == ShiftRows(SubBytes(EncRounds(ek, nr - 1 - r, s)))
  {
    hide AddKey, ShiftRows, SubBytes, MixColumns, InvMixColumns, InvShiftRows, InvSubBytes;
    if r == 0 {
      AddKeyTwice(ShiftRows(SubBytes(EncRounds(ek, nr - 1, s))), RoundKey(ek, nr));
    } else {
      DecRoundsRetrace(ek, dk, nr, r - 1, s);
      var before := EncRounds(ek, nr - 1 - r, s);
      InvSubShift(EncRounds(ek, nr - r, s));
      InvMixAddKey(ShiftRows(SubBytes(before)), RoundKey(ek, nr - r));
    }
  }

  /** Decryption under the inverse schedule undoes encryption, for every block and any number of rounds. */
  lemma DecryptEncrypt(ek: seq<bv32>, dk: seq<bv32>, nr: nat, s: Block)
    requires IsInverseSchedule(ek, dk, nr)
    ensures Decrypt(dk, nr, Encrypt(ek, nr, s)) == s
  {
    hide AddKey, ShiftRows, SubBytes, MixColumns, InvMixColumns, InvShiftRows, InvSubBytes, Encrypt;
    DecRoundsRetrace(ek, dk, nr, nr - 1, s);
    InvSubShift(EncRounds(ek, 0, s));
    AddKeyTwice(s, RoundKey(ek, 0));
  }

  // ----- the table form of a round -----

  /** A word of `AES_FROUND`: the round key and four table entries. */
  function ForwardTableWord(k: bv32, a: bv8, b: bv8, c: bv8, d: bv8): bv32 {
    XorW(XorW(XorW(XorW(k, FT0(a)), FT1(b)), FT2(c)), FT3(d))
  }

  function ReverseTableWord(k: bv32, a: bv8, b: bv8, c: bv8, d: bv8): bv32 {
    XorW(XorW(XorW(XorW(k, RT0(a)), RT1(b)), RT2(c)), RT3(d))
  }

  /** A word of the last round of either cipher, from its four substituted bytes. */
  function LastWord(k: bv32, a: bv8, b: bv8, c: bv8, d: bv8): bv32 {
    XorW(XorW(XorW(XorW(k, (a as bv32) << 24), (b as bv32) << 16), (c as bv32) << 8), d as bv32)
  }

  lemma SumOfWords(k: bv32, a: bv32, b: bv32, c: bv32, d: bv32)
    ensures XorW(XorW(XorW(XorW(k, a), b), c), d) == XorW(XorW(XorW(XorW(a, b), c), d), k)
  {
    hide XorW;
    XorWAssoc(k, a, b);
    XorWAssoc(k, XorW(a, b), c);
    XorWAssoc(k, XorW(XorW(a, b), c), d);
    XorWCancel(k, XorW(XorW(XorW(a, b), c), d));
  }

  lemma SumOfPacks(a: bv8, b: bv8, c: bv8, d: bv8, e: bv8, f: bv8, g: bv8, h: bv8,
                   i: bv8, j: bv8, k: bv8, l: bv8, m: bv8, n: bv8, o: bv8, p: bv8)
    ensures XorW(XorW(XorW(Pack(a, b, c, d), Pack(e, f, g, h)), Pack(i, j, k, l)), Pack(m, n, o, p))
            == Pack(Sum4(a, e, i, m), Sum4(b, f, j, n), Sum4(c, g, k, o), Sum4(d, h, l, p))
  {
    hide XorW, Xor, Pack;
    PackXor(a, b, c, d, e, f, g, h);
    PackXor(Xor(a, e), Xor(b, f), Xor(c, g), Xor(d, h), i, j, k, l);
    PackXor(Xor(Xor(a, e), i), Xor(Xor(b, f), j), Xor(Xor(c, g), k), Xor(Xor(d, h), l), m, n, o, p);
  }

  lemma MixOfPack(a: bv8, b: bv8, c: bv8, d: bv8)
    ensures MixWord(Pack(a, b, c, d)) == Pack(Sum4(XTime(a), Mul3(b), c, d), Sum4(a, XTime(b), Mul3(c), d),
                                              Sum4(a, b, XTime(c), Mul3(d)), Sum4(Mul3(a), b, c, XTime(d)))
    ensures InvMixWord(Pack(a, b, c, d))
            == Pack(Sum4(MulE(a), MulB(b), MulD(c), Mul9(d)), Sum4(Mul9(a), MulE(b), MulB(c), MulD(d)),
                                                 Sum4(MulD(a), Mul9(b), MulE(c), MulB(d)),
                                                   Sum4(MulB(a), MulD(b), Mul9(c), MulE(d)))
  {
    hide Pack, B3, B2, B1, B0, Sum4, XTime, Mul3, MulE, MulB, MulD, Mul9;
    PackBytes(a, b, c, d);
    Sum4Rotate(XTime(b), Mul3(c), d, a);
    Sum4Rotate(XTime(c), Mul3(d), a, b);
    Sum4Rotate(XTime(d), Mul3(a), b, c);
    Sum4Rotate(MulE(b), MulB(c), MulD(d), Mul9(a));
    Sum4Rotate(MulE(c), MulB(d), MulD(a), Mul9(b));
    Sum4Rotate(MulE(d), MulB(a), MulD(b), Mul9(c));
  }

  lemma ForwardTableWordIs(k: bv32, a: bv8, b: bv8, c: bv8, d: bv8)
    ensures ForwardTableWord(k, a, b, c, d) == XorW(MixWord(Pack(Sbox(a), Sbox(b), Sbox(c), Sbox(d))), k)
  {
    hide XorW, Pack, FT0, Sbox, RT0, InvSbox, MixWord, Ror8, XTime, Mul3, Sum4, ReverseEntry;
    var sa, sb, sc, sd := Sbox(a), Sbox(b), Sbox(c), Sbox(d);
    TableEntries(a);
    TableEntries(b);
    TableEntries(c);
    TableEntries(d);
    Rotations(XTime(sb), sb, sb, Mul3(sb));
    Rotations(XTime(sc), sc, sc, Mul3(sc));
    Rotations(XTime(sd), sd, sd, Mul3(sd));
    SumOfWords(k, FT0(a), FT1(b), FT2(c), FT3(d));
    SumOfPacks(XTime(sa), sa, sa, Mul3(sa), Mul3(sb), XTime(sb), sb, sb, sc, Mul3(sc), XTime(sc), sc, sd, sd, Mul3(sd),
      XTime(sd));
    MixOfPack(sa, sb, sc, sd);
  }

  lemma Rotations(a: bv8, b: bv8, c: bv8, d: bv8)
    ensures var w := Pack(a, b, c, d);
            Ror8(w) == Pack(d, a, b, c) && Ror8(Ror8(w)) == Pack(c, d, a, b) && Ror8(Ror8(Ror8(w))) == Pack(b, c, d, a)
  {
    hide Pack, Ror8;
    PackRor(a, b, c, d);
    PackRor(d, a, b, c);
    PackRor(c, d, a, b);
  }

  lemma ReverseTableWordIs(k: bv32, a: bv8, b: bv8, c: bv8, d: bv8)
    ensures ReverseTableWord(k, a, b, c, d) == XorW(InvMixWord(Pack(InvSbox(a), InvSbox(b), InvSbox(c), InvSbox(d))), k)
  {
    hide XorW, Pack, FT0, Sbox, RT0, InvSbox, InvMixWord, Ror8, MulE, MulB, MulD, Mul9, Sum4, ForwardEntry;
    var sa, sb, sc, sd := InvSbox(a), InvSbox(b), InvSbox(c), InvSbox(d);
    TableEntries(a);
    TableEntries(b);
    TableEntries(c);
    TableEntries(d);
    Rotations(MulE(sb), Mul9(sb), MulD(sb), MulB(sb));
    Rotations(MulE(sc), Mul9(sc), MulD(sc), MulB(sc));
    Rotations(MulE(sd), Mul9(sd), MulD(sd), MulB(sd));
    SumOfWords(k, RT0(a), RT1(b), RT2(c), RT3(d));
    SumOfPacks(MulE(sa), Mul9(sa), MulD(sa), MulB(sa), MulB(sb), MulE(sb), Mul9(sb), MulD(sb),
               MulD(sc), MulB(sc), MulE(sc), Mul9(sc), Mul9(sd), MulD(sd), MulB(sd), MulE(sd));
    MixOfPack(sa, sb, sc, sd);
  }

  /** The key tables hold the inverse-mixed bytes themselves, the S-box undone. */
  lemma KeyTableWordIs(w: bv32)
    ensures XorW(XorW(XorW(KT0(B3(w)), KT1(B2(w))), KT2(B1(w))), KT3(B0(w))) == InvMixWord(w)
  {
    hide XorW, Pack, B3, B2, B1, B0, Sbox, RT0, InvSbox, InvMixWord, Ror8;
    var a, b, c, d := Sbox(B3(w)), Sbox(B2(w)), Sbox(B1(w)), Sbox(B0(w));
    ReverseTableWordIs(0, a, b, c, d);
    SumOfWords(0, RT0(a), RT1(b), RT2(c), RT3(d));
    SboxInverts(B3(w));
    SboxInverts(B2(w));
    SboxInverts(B1(w));
    SboxInverts(B0(w));
    BytesPack(w);
    XorWZero(InvMixWord(w));
    XorWZero(XorW(XorW(XorW(RT0(a), RT1(b)), RT2(c)), RT3(d)));
  }

  lemma XorWZero(w: bv32)
    ensures XorW(w, 0) == w
  {
  }

  lemma LastWordIs(k: bv32, a: bv8, b: bv8, c: bv8, d: bv8)
    ensures LastWord(k, a, b, c, d) == XorW(Pack(a, b, c, d), k)
  {
    hide XorW;
    SumOfWords(k, (a as bv32) << 24, (b as bv32) << 16, (c as bv32) << 8, d as bv32);
    DisjointBytes(a, b, c, d);
  }

  lemma DisjointBytes(a: bv8, b: bv8, c: bv8, d: bv8)
    ensures XorW(XorW(XorW((a as bv32) << 24, (b as bv32) << 16), (c as bv32) << 8), d as bv32) == Pack(a, b, c, d)
  {
  }
}
