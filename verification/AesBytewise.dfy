/** `aes128k128d` and its steps: AES-128 on sixteen separate bytes with the round key computed on
    the fly. It shares no code with the table-driven cipher and is proved to equal it. */
module AesBytewise {
  import opened AesField
  import opened AesWords
  import opened AesTables
  import opened AesCipher
  import opened AesContext
  import opened Bytes

  /** `xor_128`; `out` may be either input. */
  method Xor128(a: array<bv8>, b: array<bv8>, out: array<bv8>)
    requires a.Length >= 16 && b.Length >= 16 && out.Length >= 16
    modifies out
    ensures out[..16] == XorSeq(old(a[..16]), old(b[..16])) && out[16..] == old(out[16..])
  {
    for i := 0 to 16
      invariant forall j | 0 <= j < i :: out[j] == Xor(old(a[j]), old(b[j]))
      invariant forall j | i <= j < out.Length :: out[j] == old(out[j])
      invariant forall j | i <= j < 16 :: a[j] == old(a[j]) && b[j] == old(b[j])
    {
      out[i] := Xor(a[i], b[i]);
    }
  }

  /** `xor_32` of four bytes at an offset, in place. */
  method Xor32InPlace(key: array<bv8>, at: nat, with: nat)
    requires key.Length == 16 && at + 4 <= 16 && with + 4 <= at
    modifies key
    ensures forall j | 0 <= j < 16 && !(at <= j < at + 4) :: key[j] == old(key[j])
    ensures key[at] == Xor(old(key[at]), old(key[with])) && key[at + 1] == Xor(old(key[at + 1]), old(key[with + 1]))
    ensures key[at + 2] == Xor(old(key[at + 2]), old(key[with + 2]))
            && key[at + 3] == Xor(old(key[at + 3]), old(key[with + 3]))
  {
    for i := 0 to 4
      invariant forall j | 0 <= j < 16 && !(at <= j < at + i) :: key[j] == old(key[j])
      invariant i > 0 ==> key[at] == Xor(old(key[at]), old(key[with]))
      invariant i > 1 ==> key[at + 1] == Xor(old(key[at + 1]), old(key[with + 1]))
      invariant i > 2 ==> key[at + 2] == Xor(old(key[at + 2]), old(key[with + 2]))
      invariant i > 3 ==> key[at + 3] == Xor(old(key[at + 3]), old(key[with + 3]))
    {
      key[at + i] := Xor(key[at + i], key[with + i]);
    }
  }

  /** `rcon_table`. */
  function RconTable(round: nat): bv8 {
    if round == 0 then 0x01 else if round == 1 then 0x02 else if round == 2 then 0x04
    else if round == 3 then 0x08 else if round == 4 then 0x10 else if round == 5 then 0x20
    else if round == 6 then 0x40 else if round == 7 then 0x80 else if round == 8 then 0x1B
    else 0x36
  }

  /** The four words a round key becomes. */
  function NextKeyBlock(k: Block, round: nat): Block {
    var w0 := XorW(k.w0, XorW(SubWord(RotWord(k.w3)), Pack(RconTable(round), 0, 0, 0)));
    var w1 := XorW(k.w1, w0);
    var w2 := XorW(k.w2, w1);
    Block(w0, w1, w2, XorW(k.w3, w2))
  }

  /** `next_key`. */
  method NextKey(key: array<bv8>, round: nat)
    requires key.Length == 16
    modifies key
    ensures LoadBlock(key[..]) == NextKeyBlock(old(LoadBlock(key[..])), round)
  {
    hide Sbox, Xor, RconTable, LoadBlock, NextKeyBlock;
    ghost var k := key[..];
    var sboxKey := [Sbox(key[13]), Sbox(key[14]), Sbox(key[15]), Sbox(key[12])];
    var rcon := RconTable(round);
    key[0], key[1], key[2], key[3] :=
      Xor(key[0], sboxKey[0]), Xor(key[1], sboxKey[1]), Xor(key[2], sboxKey[2]), Xor(key[3], sboxKey[3]);
    key[0] := Xor(key[0], rcon);
    ghost var k0 := key[..];
    Xor32InPlace(key, 4, 0);
    ghost var k1 := key[..];
    Xor32InPlace(key, 8, 4);
    ghost var k2 := key[..];
    Xor32InPlace(key, 12, 8);
    NextKeyWords(k, k0, k1, k2, key[..], rcon, round);
  }

  lemma NextKeyWords(k: seq<bv8>, k0: seq<bv8>, k1: seq<bv8>, k2: seq<bv8>, k3: seq<bv8>, rcon: bv8, round: nat)
    requires |k| == |k0| == |k1| == |k2| == |k3| == 16 && rcon == RconTable(round)
    requires k0[0] == Xor(Xor(k[0], Sbox(k[13])), rcon) && k0[1] == Xor(k[1], Sbox(k[14]))
    requires k0[2] == Xor(k[2], Sbox(k[15])) && k0[3] == Xor(k[3], Sbox(k[12]))
    requires forall j | 4 <= j < 16 :: k0[j] == k[j]
    requires forall j {:trigger k1[j]} {:trigger k0[j]} | 0 <= j < 16 && !(4 <= j < 8) :: k1[j] == k0[j]
    requires k1[4] == Xor(k0[4], k0[0]) && k1[5] == Xor(k0[5], k0[1])
    requires k1[6] == Xor(k0[6], k0[2]) && k1[7] == Xor(k0[7], k0[3])
    requires forall j {:trigger k2[j]} {:trigger k1[j]} | 0 <= j < 16 && !(8 <= j < 12) :: k2[j] == k1[j]
    requires k2[8] == Xor(k1[8], k1[4]) && k2[9] == Xor(k1[9], k1[5])
    requires k2[10] == Xor(k1[10], k1[6]) && k2[11] == Xor(k1[11], k1[7])
    requires forall j {:trigger k3[j]} {:trigger k2[j]} | 0 <= j < 16 && !(12 <= j < 16) :: k3[j] == k2[j]
    requires k3[12] == Xor(k2[12], k2[8]) && k3[13] == Xor(k2[13], k2[9])
    requires k3[14] == Xor(k2[14], k2[10]) && k3[15] == Xor(k2[15], k2[11])
    ensures LoadBlock(k3) == NextKeyBlock(LoadBlock(k), round)
  {
    hide Sbox, Xor, XorW, Pack, B3, B2, B1, B0, RconTable;
    RotatedSum(k[0], k[1], k[2], k[3], k[12], k[13], k[14], k[15], rcon);
    PackXor(k[4], k[5], k[6], k[7], k0[0], k0[1], k0[2], k0[3]);
    PackXor(k[8], k[9], k[10], k[11], k1[4], k1[5], k1[6], k1[7]);
    PackXor(k[12], k[13], k[14], k[15], k2[8], k2[9], k2[10], k2[11]);
    var b := NextKeyBlock(LoadBlock(k), round);
    assert b.w0 == Pack(k0[0], k0[1], k0[2], k0[3]);
    assert b.w1 == Pack(k1[4], k1[5], k1[6], k1[7]);
    assert b.w2 == Pack(k2[8], k2[9], k2[10], k2[11]);
    assert k2[12] == k1[12] == k0[12] == k[12] && k2[13] == k1[13] == k0[13] == k[13];
    assert k2[14] == k1[14] == k0[14] == k[14] && k2[15] == k1[15] == k0[15] == k[15];
    assert b.w3 == Pack(k3[12], k3[13], k3[14], k3[15]);
  }

  lemma RotatedSum(a: bv8, b: bv8, c: bv8, d: bv8, e: bv8, f: bv8, g: bv8, h: bv8, rcon: bv8)
    ensures Pack(Xor(Xor(a, Sbox(f)), rcon), Xor(b, Sbox(g)), Xor(c, Sbox(h)), Xor(d, Sbox(e)))
            == XorW(Pack(a, b, c, d), XorW(SubWord(RotWord(Pack(e, f, g, h))), Pack(rcon, 0, 0, 0)))
  {
    hide Sbox, Xor, XorW, Pack, B3, B2, B1, B0;
    PackBytes(e, f, g, h);
    PackBytes(f, g, h, e);
    PackXor(Sbox(f), Sbox(g), Sbox(h), Sbox(e), rcon, 0, 0, 0);
    XorLaws(Sbox(g), 0, 0);
    XorLaws(Sbox(h), 0, 0);
    XorLaws(Sbox(e), 0, 0);
    XorLaws(a, Sbox(f), rcon);
    PackXor(a, b, c, d, Xor(Sbox(f), rcon), Sbox(g), Sbox(h), Sbox(e));
  }

  /** `byte_sub`. */
  method ByteSub(input: array<bv8>, out: array<bv8>)
    requires input.Length == 16 && out.Length == 16 && input != out
    modifies out
    ensures LoadBlock(out[..]) == SubBytes(LoadBlock(input[..]))
  {
    for i := 0 to 16
      invariant forall j | 0 <= j < i :: out[j] == Sbox(input[j])
    {
      out[i] := Sbox(input[i]);
    }
    SubBytesOfLoad(input[..], out[..]);
  }

  lemma SubBytesOfLoad(a: seq<bv8>, b: seq<bv8>)
    requires |a| == |b| == 16 && forall j | 0 <= j < 16 :: b[j] == Sbox(a[j])
    ensures LoadBlock(b) == SubBytes(LoadBlock(a))
  {
    hide Sbox, Pack, B3, B2, B1, B0;
    PackBytes(a[0], a[1], a[2], a[3]);
    PackBytes(a[4], a[5], a[6], a[7]);
    PackBytes(a[8], a[9], a[10], a[11]);
    PackBytes(a[12], a[13], a[14], a[15]);
  }

  /** `shift_row`. */
  method ShiftRow(input: array<bv8>, out: array<bv8>)
    requires input.Length == 16 && out.Length == 16 && input != out
    modifies out
    ensures LoadBlock(out[..]) == ShiftRows(LoadBlock(input[..]))
  {
    hide Pack, B3, B2, B1, B0, ShiftRows, LoadBlock;
    PutFour(out, 0, input[0], input[5], input[10], input[15]);
    PutFour(out, 4, input[4], input[9], input[14], input[3]);
    PutFour(out, 8, input[8], input[13], input[2], input[7]);
    PutFour(out, 12, input[12], input[1], input[6], input[11]);
    ShiftRowsOfLoad(input[..], out[..]);
  }

  method PutFour(out: array<bv8>, at: nat, a: bv8, b: bv8, c: bv8, d: bv8)
    requires at + 4 <= out.Length
    modifies out
    ensures out[at] == a && out[at + 1] == b && out[at + 2] == c && out[at + 3] == d
    ensures forall j | 0 <= j < out.Length && !(at <= j < at + 4) :: out[j] == old(out[j])
  {
    out[at], out[at + 1], out[at + 2], out[at + 3] := a, b, c, d;
  }

  lemma ShiftRowsOfLoad(a: seq<bv8>, b: seq<bv8>)
    requires |a| == |b| == 16
    requires b[0] == a[0] && b[1] == a[5] && b[2] == a[10] && b[3] == a[15]
    requires b[4] == a[4] && b[5] == a[9] && b[6] == a[14] && b[7] == a[3]
    requires b[8] == a[8] && b[9] == a[13] && b[10] == a[2] && b[11] == a[7]
    requires b[12] == a[12] && b[13] == a[1] && b[14] == a[6] && b[15] == a[11]
    ensures LoadBlock(b) == ShiftRows(LoadBlock(a))
  {
    hide Pack, B3, B2, B1, B0;
    PackBytes(a[0], a[1], a[2], a[3]);
    PackBytes(a[4], a[5], a[6], a[7]);
    PackBytes(a[8], a[9], a[10], a[11]);
    PackBytes(a[12], a[13], a[14], a[15]);
  }

  /** `mix_column` of one column: the doubled bytes by masking, shifting and a conditional 0x1b. */
  method MixColumn(input: array<bv8>, at: nat, out: array<bv8>)
    requires input.Length == 16 && out.Length == 16 && input != out && at + 4 <= 16
    modifies out
    ensures Pack(out[at], out[at + 1], out[at + 2], out[at + 3])
            == MixWord(Pack(input[at], input[at + 1], input[at + 2], input[at + 3]))
    ensures forall j | 0 <= j < 16 && !(at <= j < at + 4) :: out[j] == old(out[j])
  {
    hide Pack, MixWord, Xor;
    var a, b, c, d := input[at], input[at + 1], input[at + 2], input[at + 3];
    var add1b := [Reduce(a), Reduce(b), Reduce(c), Reduce(d)];
    var swapHalfs := [c, d, a, b];
    var rotl := [d, a, b, c];
    var andf7 := [a & 0x7F, b & 0x7F, c & 0x7F, d & 0x7F];
    var shifted := [(andf7[0] << 1) & 0xFE, ShiftIn(andf7[1], andf7[0]), ShiftIn(andf7[2], andf7[1]),
        ShiftIn(andf7[3], andf7[2])];
    var add1bf7 := XorSeq(add1b, shifted);
    var rotr := XorSeq(input[at..at + 4], add1bf7);
    rotr := [rotr[1], rotr[2], rotr[3], rotr[0]];
    var temp := XorSeq(add1bf7, rotr);
    var tempb := XorSeq(swapHalfs, rotl);
    var mixed := XorSeq(temp, tempb);
    out[at], out[at + 1], out[at + 2], out[at + 3] := mixed[0], mixed[1], mixed[2], mixed[3];
    Doubled(a, a);
    Doubled(b, a);
    Doubled(c, b);
    Doubled(d, c);
    MixedByte(a, b, c, d);
    MixedByte(b, c, d, a);
    MixedByte(c, d, a, b);
    MixedByte(d, a, b, c);
    MixWordOfPack(a, b, c, d);
  }

  function Reduce(a: bv8): bv8 {
    if a & 0x80 == 0x80 then 0x1B else 0x00
  }

  /** The shift of a byte, taking in the high bit of the byte before it. */
  function ShiftIn(a: bv8, before: bv8): bv8 {
    if before & 0x80 == 0x80 then (a << 1) | 0x01 else a << 1
  }

  lemma Doubled(a: bv8, before: bv8)
    ensures Xor(Reduce(a), ShiftIn(a & 0x7F, before & 0x7F)) == XTime(a)
    ensures Xor(Reduce(a), ((a & 0x7F) << 1) & 0xFE) == XTime(a)
  {
  }

  /** The order in which the routine adds up a byte. */
  lemma MixedByte(a: bv8, b: bv8, c: bv8, d: bv8)
    ensures Xor(Xor(XTime(a), Xor(b, XTime(b))), Xor(c, d)) == MixByte(a, b, c, d)
  {
    hide Xor, XTime;
    XorLaws(b, XTime(b), 0);
    XorLaws(Xor(XTime(a), Mul3(b)), c, d);
  }

  lemma MixWordOfPack(a: bv8, b: bv8, c: bv8, d: bv8)
    ensures MixWord(Pack(a, b, c, d)) == Pack(MixByte(a, b, c, d), MixByte(b, c, d, a), MixByte(c, d, a, b),
            MixByte(d, a, b, c))
  {
    hide Pack, B3, B2, B1, B0, MixByte;
    PackBytes(a, b, c, d);
  }

  lemma AddKeyOfLoad(a: seq<bv8>, b: seq<bv8>)
    requires |a| == |b| == 16
    ensures LoadBlock(XorSeq(a, b)) == AddKey(LoadBlock(b), LoadBlock(a)) == AddKey(LoadBlock(a), LoadBlock(b))
  {
    hide Pack, Xor, XorW;
    PackXor(a[0], a[1], a[2], a[3], b[0], b[1], b[2], b[3]);
    PackXor(a[4], a[5], a[6], a[7], b[4], b[5], b[6], b[7]);
    PackXor(a[8], a[9], a[10], a[11], b[8], b[9], b[10], b[11]);
    PackXor(a[12], a[13], a[14], a[15], b[12], b[13], b[14], b[15]);
    var x, y := LoadBlock(a), LoadBlock(b);
    XorWCancel(x.w0, y.w0);
    XorWCancel(x.w1, y.w1);
    XorWCancel(x.w2, y.w2);
    XorWCancel(x.w3, y.w3);
  }

  /** The round keys produced on the fly are those of the key expansion. */
  lemma RoundKeyStep(key: seq<bv8>, r: nat)
    requires |key| == 16 && r < 10
    ensures var ks := KeyExpansion(key, 4, 44);
            RoundKey(ks, r + 1) == NextKeyBlock(RoundKey(ks, r), r)
  {
    hide XorW, SubWord, RotWord, Pack, KeyWord;
    KeyWordStep(key, 4, r + 1, 0);
    KeyWordStep(key, 4, r + 1, 1);
    KeyWordStep(key, 4, r + 1, 2);
    KeyWordStep(key, 4, r + 1, 3);
    RconTableIs(r);
  }

  lemma RconTableIs(r: nat)
    requires r < 10
    ensures RconTable(r) == RconByte(r + 1)
  {
    var r2, r3, r4, r5 := RconByte(2), RconByte(3), RconByte(4), RconByte(5);
    assert r2 == 0x02 && r3 == 0x04 && r4 == 0x08 && r5 == 0x10;
    var r6, r7, r8, r9, r10 := RconByte(6), RconByte(7), RconByte(8), RconByte(9), RconByte(10);
    assert r6 == 0x20 && r7 == 0x40 && r8 == 0x80 && r9 == 0x1B && r10 == 0x36;
  }

  lemma FirstRoundKey(key: seq<bv8>)
    requires |key| == 16
    ensures RoundKey(KeyExpansion(key, 4, 44), 0) == LoadBlock(key)
  {
    hide Pack;
  }

  lemma AddKeyCommutes(a: Block, b: Block)
    ensures AddKey(a, b) == AddKey(b, a)
  {
    hide XorW;
    XorWCancel(a.w0, b.w0);
    XorWCancel(a.w1, b.w1);
    XorWCancel(a.w2, b.w2);
    XorWCancel(a.w3, b.w3);
  }

  lemma EncRoundsStep(ks: seq<bv32>, r: nat, s: Block)
    requires 0 < r && 4 * r + 4 <= |ks|
    ensures EncRounds(ks, r, s) == AddKey(MixColumns(ShiftRows(SubBytes(EncRounds(ks, r - 1, s)))), RoundKey(ks, r))
  {
  }

  method FullRound(ciphertext: array<bv8>, intermediateA: array<bv8>, intermediateB: array<bv8>, roundKey: array<bv8>)
    requires ciphertext.Length == 16 && intermediateA.Length == 16 && intermediateB.Length == 16
             && roundKey.Length == 16
    requires intermediateA != ciphertext && intermediateA != intermediateB && roundKey != ciphertext
    requires intermediateB != ciphertext && roundKey != intermediateA && roundKey != intermediateB
    modifies ciphertext, intermediateA, intermediateB
    ensures LoadBlock(ciphertext[..])
            == AddKey(MixColumns(ShiftRows(SubBytes(old(LoadBlock(ciphertext[..]))))), LoadBlock(roundKey[..]))
  {
    hide LoadBlock, SubBytes, ShiftRows, MixColumns, AddKey;
    ByteSub(ciphertext, intermediateA);
    ShiftRow(intermediateA, intermediateB);
    MixAll(intermediateB, intermediateA);
    AddRoundKey(intermediateA, roundKey, ciphertext);
  }

  method FinalRound(ciphertext: array<bv8>, intermediateA: array<bv8>, intermediateB: array<bv8>, roundKey: array<bv8>)
    requires ciphertext.Length == 16 && intermediateA.Length == 16 && intermediateB.Length == 16
             && roundKey.Length == 16
    requires intermediateA != ciphertext && intermediateA != intermediateB && roundKey != ciphertext
    requires intermediateB != ciphertext && roundKey != intermediateA && roundKey != intermediateB
    modifies ciphertext, intermediateA, intermediateB
    ensures LoadBlock(ciphertext[..]) == AddKey(ShiftRows(SubBytes(old(LoadBlock(ciphertext[..])))),
            LoadBlock(roundKey[..]))
  {
    hide LoadBlock, SubBytes, ShiftRows, AddKey;
    ByteSub(ciphertext, intermediateA);
    ShiftRow(intermediateA, intermediateB);
    AddRoundKey(intermediateB, roundKey, ciphertext);
  }

  /** `aes128k128d`: eleven passes, the first and the last without mixing. */
  method Aes128(key: array<bv8>, data: array<bv8>, ciphertext: array<bv8>)
    requires key.Length == 16 && data.Length == 16 && ciphertext.Length == 16
    requires ciphertext != key && ciphertext != data
    modifies ciphertext
    ensures ciphertext[..] == AesEncrypt(key[..], data[..])
  {
    hide LoadBlock, StoreBlock, SubBytes, ShiftRows, MixColumns, AddKey, NextKeyBlock, KeyExpansion, RoundKey, Encrypt,
        EncRounds;
    var intermediateA, intermediateB, roundKey := new bv8[16], new bv8[16], new bv8[16];
    for i := 0 to 16
      invariant forall j | 0 <= j < i :: roundKey[j] == key[j]
    {
      roundKey[i] := key[i];
    }
    ghost var ks, s := KeyExpansion(key[..], 4, 44), LoadBlock(data[..]);
    assert roundKey[..] == key[..] && |ks| == 44;
    FirstRoundKey(key[..]);
    EncryptEnds(ks, 10, s);
    for round := 0 to 11
      invariant roundKey != ciphertext && roundKey.Length == 16
      invariant LoadBlock(roundKey[..]) == RoundKey(ks, if round < 11 then round else 10)
      invariant 1 <= round <= 10 ==> LoadBlock(ciphertext[..]) == EncRounds(ks, round - 1, s)
      invariant round == 11 ==> LoadBlock(ciphertext[..]) == Encrypt(ks, 10, s)
    {
      if round == 0 {
        AddRoundKey(roundKey, data, ciphertext);
        AddKeyCommutes(LoadBlock(roundKey[..]), s);
        RoundKeyStep(key[..], round);
        NextKey(roundKey, round);
      } else if round == 10 {
        FinalRound(ciphertext, intermediateA, intermediateB, roundKey);
      } else {
        EncRoundsStep(ks, round, s);
        FullRound(ciphertext, intermediateA, intermediateB, roundKey);
        RoundKeyStep(key[..], round);
        NextKey(roundKey, round);
      }
    }
    StoreLoad(ciphertext[..]);
  }

  method AddRoundKey(a: array<bv8>, roundKey: array<bv8>, out: array<bv8>)
    requires a.Length == 16 && roundKey.Length == 16 && out.Length == 16 && out != a && out != roundKey
    modifies out
    ensures LoadBlock(out[..]) == AddKey(LoadBlock(a[..]), LoadBlock(roundKey[..]))
  {
    hide LoadBlock, AddKey;
    AddKeyOfLoad(a[..16], roundKey[..16]);
    assert roundKey[..16] == roundKey[..] && a[..16] == a[..];
    Xor128(a, roundKey, out);
    assert out[..16] == out[..];
  }

  /** The four `mix_column` calls of a round. */
  method MixAll(input: array<bv8>, out: array<bv8>)
    requires input.Length == 16 && out.Length == 16 && input != out
    modifies out
    ensures LoadBlock(out[..]) == MixColumns(LoadBlock(input[..]))
  {
    hide MixWord, Pack;
    MixColumn(input, 0, out);
    MixColumn(input, 4, out);
    MixColumn(input, 8, out);
    MixColumn(input, 12, out);
  }
}
