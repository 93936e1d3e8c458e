/** `rt_aes_set_key`, `rt_aes_encrypt` and `rt_aes_decrypt`: the table-driven cipher over a context
    of two round-key arrays, proved against FIPS 197. */
module AesContext {
  import opened AesField
  import opened AesWords
  import opened AesTables
  import opened AesCipher

  // ----- section 5.2 of FIPS 197 -----

  function RotWord(w: bv32): bv32 {
    Pack(B2(w), B1(w), B0(w), B3(w))
  }

  function RconByte(j: nat): bv8 {
    if j <= 1 then 1 else XTime(RconByte(j - 1))
  }

  /** Word `i` of the key expansion for a key of `nk` words. */
  function KeyWord(key: seq<bv8>, nk: nat, i: nat): bv32
    requires nk > 0 && |key| == 4 * nk
  {
    if i < nk then Pack(key[4 * i], key[4 * i + 1], key[4 * i + 2], key[4 * i + 3])
    else
      var t := KeyWord(key, nk, i - 1);
      XorW(KeyWord(key, nk, i - nk),
           if i % nk == 0 then XorW(SubWord(RotWord(t)), Pack(RconByte(i / nk), 0, 0, 0))
           else if nk > 6 && i % nk == 4 then SubWord(t)
           else t)
  }

  function KeyExpansion(key: seq<bv8>, nk: nat, n: nat): (ks: seq<bv32>)
    requires nk > 0 && |key| == 4 * nk
    ensures |ks| == n && forall i | 0 <= i < n :: ks[i] == KeyWord(key, nk, i)
  {
    seq(n, i requires 0 <= i < n => KeyWord(key, nk, i))
  }

  /** `RCON`. */
  function Rcon(i: nat): bv32 {
    if i == 0 then 0x01000000 else if i == 1 then 0x02000000 else if i == 2 then 0x04000000
    else if i == 3 then 0x08000000 else if i == 4 then 0x10000000 else if i == 5 then 0x20000000
    else if i == 6 then 0x40000000 else if i == 7 then 0x80000000 else if i == 8 then 0x1B000000
    else 0x36000000
  }

  lemma RconIsPower(i: nat)
    requires i < 10
    ensures Rcon(i) == Pack(RconByte(i + 1), 0, 0, 0)
  {
    var r2, r3, r4, r5 := RconByte(2), RconByte(3), RconByte(4), RconByte(5);
    assert r2 == 0x02 && r3 == 0x04 && r4 == 0x08 && r5 == 0x10;
    var r6, r7, r8, r9, r10 := RconByte(6), RconByte(7), RconByte(8), RconByte(9), RconByte(10);
    assert r6 == 0x20 && r7 == 0x40 && r8 == 0x80 && r9 == 0x1B && r10 == 0x36;
  }

  /** The expression of the schedule loops: `RK[0] ^ RCON[i] ^ (FSb[...] << 24) ^ ...`. */
  function RotatedKeyWord(k: bv32, rcon: bv32, t: bv32): bv32 {
    LastWord(XorW(k, rcon), Sbox(B2(t)), Sbox(B1(t)), Sbox(B0(t)), Sbox(B3(t)))
  }

  function PlainKeyWord(k: bv32, t: bv32): bv32 {
    LastWord(k, Sbox(B3(t)), Sbox(B2(t)), Sbox(B1(t)), Sbox(B0(t)))
  }

  lemma RotatedKeyWordIs(k: bv32, i: nat, t: bv32)
    requires i < 10
    ensures RotatedKeyWord(k, Rcon(i), t) == XorW(k, XorW(SubWord(RotWord(t)), Pack(RconByte(i + 1), 0, 0, 0)))
  {
    hide XorW, Pack, B3, B2, B1, B0, Sbox, Rcon, RconByte, LastWord;
    var s := Pack(Sbox(B2(t)), Sbox(B1(t)), Sbox(B0(t)), Sbox(B3(t)));
    RconIsPower(i);
    LastWordIs(XorW(k, Rcon(i)), Sbox(B2(t)), Sbox(B1(t)), Sbox(B0(t)), Sbox(B3(t)));
    PackBytes(B2(t), B1(t), B0(t), B3(t));
    XorWCancel(s, XorW(k, Rcon(i)));
    XorWAssoc(k, Rcon(i), s);
    XorWCancel(s, Rcon(i));
  }

  lemma PlainKeyWordIs(k: bv32, t: bv32)
    ensures PlainKeyWord(k, t) == XorW(k, SubWord(t))
  {
    hide XorW, Pack, B3, B2, B1, B0, Sbox, LastWord;
    LastWordIs(k, Sbox(B3(t)), Sbox(B2(t)), Sbox(B1(t)), Sbox(B0(t)));
    XorWCancel(k, SubWord(t));
  }

  /** The recurrence for a word whose index is `nk * i`, plus 4, or neither. */
  lemma KeyWordStep(key: seq<bv8>, nk: nat, i: nat, j: nat)
    requires (nk == 4 || nk == 6 || nk == 8) && |key| == 4 * nk && i > 0 && j < nk
    ensures var n := nk * i + j; var t := KeyWord(key, nk, n - 1);
            KeyWord(key, nk, n) == XorW(KeyWord(key, nk, n - nk),
                                        if j == 0 then XorW(SubWord(RotWord(t)), Pack(RconByte(i), 0, 0, 0))
                                        else if nk > 6 && j == 4 then SubWord(t) else t)
  {
    hide XorW, SubWord, RotWord, RconByte, Pack;
    DivMod(nk, i, j);
  }

  lemma DivMod(nk: nat, i: nat, j: nat)
    requires (nk == 4 || nk == 6 || nk == 8) && j < nk
    ensures (nk * i + j) / nk == i && (nk * i + j) % nk == j
  {
    if nk == 4 {
      assert (4 * i + j) / 4 == i;
    } else if nk == 6 {
      assert (6 * i + j) / 6 == i;
    } else {
      assert (8 * i + j) / 8 == i;
    }
  }

  /** Four words of input, in the byte order of `GET_UINT32`. */
  function LoadBlock(b: seq<bv8>): Block
    requires |b| == 16
  {
    Block(Pack(b[0], b[1], b[2], b[3]), Pack(b[4], b[5], b[6], b[7]),
          Pack(b[8], b[9], b[10], b[11]), Pack(b[12], b[13], b[14], b[15]))
  }

  /** `PUT_UINT32` of the four words. */
  function StoreBlock(s: Block): (b: seq<bv8>)
    ensures |b| == 16
  {
    [B3(s.w0), B2(s.w0), B1(s.w0), B0(s.w0), B3(s.w1), B2(s.w1), B1(s.w1), B0(s.w1),
     B3(s.w2), B2(s.w2), B1(s.w2), B0(s.w2), B3(s.w3), B2(s.w3), B1(s.w3), B0(s.w3)]
  }

  lemma StoreBlockIs(s: Block, b: seq<bv8>)
    requires |b| == 16
    requires b[0] == B3(s.w0) && b[1] == B2(s.w0) && b[2] == B1(s.w0) && b[3] == B0(s.w0)
    requires b[4] == B3(s.w1) && b[5] == B2(s.w1) && b[6] == B1(s.w1) && b[7] == B0(s.w1)
    requires b[8] == B3(s.w2) && b[9] == B2(s.w2) && b[10] == B1(s.w2) && b[11] == B0(s.w2)
    requires b[12] == B3(s.w3) && b[13] == B2(s.w3) && b[14] == B1(s.w3) && b[15] == B0(s.w3)
    ensures b == StoreBlock(s)
  {
    hide B3, B2, B1, B0;
    SixteenBytes(b);
  }

  lemma LoadStore(s: Block)
    ensures LoadBlock(StoreBlock(s)) == s
  {
    hide Pack, B3, B2, B1, B0;
    BytesPack(s.w0);
    BytesPack(s.w1);
    BytesPack(s.w2);
    BytesPack(s.w3);
  }

  lemma SixteenBytes(b: seq<bv8>)
    requires |b| == 16
    ensures b == [b[0], b[1], b[2], b[3], b[4], b[5], b[6], b[7], b[8], b[9], b[10], b[11], b[12], b[13], b[14], b[15]]
  {
  }

  lemma StoreLoad(b: seq<bv8>)
    requires |b| == 16
    ensures StoreBlock(LoadBlock(b)) == b
  {
    hide Pack, B3, B2, B1, B0;
    SixteenBytes(b);
    PackBytes(b[0], b[1], b[2], b[3]);
    PackBytes(b[4], b[5], b[6], b[7]);
    PackBytes(b[8], b[9], b[10], b[11]);
    PackBytes(b[12], b[13], b[14], b[15]);
  }

  class Context {
    const erk: array<bv32>
    const drk: array<bv32>
    var nr: nat

    constructor ()
      ensures erk.Length == 64 && drk.Length == 64 && erk != drk && fresh(erk) && fresh(drk)
    {
      erk := new bv32[64];
      drk := new bv32[64];
      nr := 0;
    }

    /** The words of `key` at the front of `erk`. */
    method LoadKey(key: seq<bv8>, nk: nat)
      requires erk.Length == 64 && 0 < nk <= 8 && |key| == 4 * nk
      modifies erk
      ensures Expanded(key, nk, nk)
    {
      for i := 0 to nk
        invariant forall j | 0 <= j < i :: erk[j] == KeyWord(key, nk, j)
      {
        erk[i] := Pack(key[4 * i], key[4 * i + 1], key[4 * i + 2], key[4 * i + 3]);
      }
    }

    ghost predicate Expanded(key: seq<bv8>, nk: nat, n: nat)
      requires erk.Length == 64 && n <= 64 && nk > 0 && |key| == 4 * nk
      reads erk
    {
      forall j | 0 <= j < n :: erk[j] == KeyWord(key, nk, j)
    }

    /** `RK[nk + j] = RK[j] ^ RK[nk + j - 1]`, word `j` of group `g`. */
    method PutChained(at: nat, g: nat, j: nat, nk: nat, ghost key: seq<bv8>)
      requires erk.Length == 64 && (nk == 4 || nk == 6 || nk == 8) && |key| == 4 * nk
      requires at == nk * g + j < 64 && g > 0 && 0 < j < nk && !(nk > 6 && j == 4) && Expanded(key, nk, at)
      modifies erk
      ensures Expanded(key, nk, at + 1)
    {
      hide XorW, SubWord, RotWord, RconByte, Pack, KeyWord;
      KeyWordStep(key, nk, g, j);
      erk[at] := XorW(erk[at - nk], erk[at - 1]);
    }

    /** `RK[nk] = RK[0] ^ RCON[i] ^ ...`, the first word of group `g`. */
    method PutRotated(at: nat, g: nat, nk: nat, ghost key: seq<bv8>)
      requires erk.Length == 64 && (nk == 4 || nk == 6 || nk == 8) && |key| == 4 * nk
      requires at == nk * g < 64 && 0 < g <= 10 && Expanded(key, nk, at)
      modifies erk
      ensures Expanded(key, nk, at + 1)
    {
      hide XorW, SubWord, RotWord, Rcon, RconByte, RotatedKeyWord, Pack, KeyWord;
      KeyWordStep(key, nk, g, 0);
      RotatedKeyWordIs(erk[at - nk], g - 1, erk[at - 1]);
      erk[at] := RotatedKeyWord(erk[at - nk], Rcon(g - 1), erk[at - 1]);
    }

    /** `RK[12] = RK[4] ^ ...`, the middle word of a 256-bit group. */
    method PutSubstituted(at: nat, g: nat, ghost key: seq<bv8>)
      requires erk.Length == 64 && |key| == 32 && at == 8 * g + 4 < 64 && g > 0 && Expanded(key, 8, at)
      modifies erk
      ensures Expanded(key, 8, at + 1)
    {
      hide XorW, SubWord, PlainKeyWord, KeyWord, RotWord, RconByte;
      KeyWordStep(key, 8, g, 4);
      PlainKeyWordIs(erk[at - 8], erk[at - 1]);
      erk[at] := PlainKeyWord(erk[at - 8], erk[at - 1]);
    }

    method Expand128(ghost key: seq<bv8>) returns (rk: nat)
      requires erk.Length == 64 && |key| == 16 && Expanded(key, 4, 4)
      modifies erk
      ensures rk == 40 && Expanded(key, 4, 44)
    {
      hide Context.Expanded;
      rk := 0;
      for i := 0 to 10
        invariant rk == 4 * i && Expanded(key, 4, rk + 4)
      {
        PutRotated(rk + 4, i + 1, 4, key);
        PutChained(rk + 5, i + 1, 1, 4, key);
        PutChained(rk + 6, i + 1, 2, 4, key);
        PutChained(rk + 7, i + 1, 3, 4, key);
        rk := rk + 4;
      }
    }

    method Expand192(ghost key: seq<bv8>) returns (rk: nat)
      requires erk.Length == 64 && |key| == 24 && Expanded(key, 6, 6)
      modifies erk
      ensures rk == 48 && Expanded(key, 6, 54)
    {
      hide Context.Expanded;
      rk := 0;
      for i := 0 to 8
        invariant rk == 6 * i && Expanded(key, 6, rk + 6)
      {
        PutRotated(rk + 6, i + 1, 6, key);
        PutChained(rk + 7, i + 1, 1, 6, key);
        PutChained(rk + 8, i + 1, 2, 6, key);
        PutChained(rk + 9, i + 1, 3, 6, key);
        PutChained(rk + 10, i + 1, 4, 6, key);
        PutChained(rk + 11, i + 1, 5, 6, key);
        rk := rk + 6;
      }
    }

    method Expand256(ghost key: seq<bv8>) returns (rk: nat)
      requires erk.Length == 64 && |key| == 32 && Expanded(key, 8, 8)
      modifies erk
      ensures rk == 56 && Expanded(key, 8, 64)
    {
      hide Context.Expanded;
      rk := 0;
      for i := 0 to 7
        invariant rk == 8 * i && Expanded(key, 8, rk + 8)
      {
        PutRotated(rk + 8, i + 1, 8, key);
        PutChained(rk + 9, i + 1, 1, 8, key);
        PutChained(rk + 10, i + 1, 2, 8, key);
        PutChained(rk + 11, i + 1, 3, 8, key);
        PutSubstituted(rk + 12, i + 1, key);
        PutChained(rk + 13, i + 1, 5, 8, key);
        PutChained(rk + 14, i + 1, 6, 8, key);
        PutChained(rk + 15, i + 1, 7, 8, key);
        rk := rk + 8;
      }
    }

    /** One assignment of the decryption schedule, through the key tables. */
    method PutInverse(sk: nat, rk: nat)
      requires erk.Length == 64 && drk.Length == 64 && erk != drk && sk < 64 && rk < 64
      modifies drk
      ensures drk[sk] == InvMixWord(erk[rk]) && forall j | 0 <= j < 64 && j != sk :: drk[j] == old(drk[j])
    {
      hide InvMixWord, XorW, KT0, KT1, KT2, KT3, B3, B2, B1, B0;
      KeyTableWordIs(erk[rk]);
      drk[sk] := XorW(XorW(XorW(KT0(B3(erk[rk])), KT1(B2(erk[rk]))), KT2(B1(erk[rk]))), KT3(B0(erk[rk])));
    }

    /** The four assignments of round key `r`. */
    method PutInverseKey(sk: nat, rk: nat, ghost r: nat)
      requires erk.Length == 64 && drk.Length == 64 && erk != drk && r <= nr <= 14 && sk == 4 * r && rk == 4 * (nr - r)
      modifies drk
      ensures InvertedKey(r) && forall j | 0 <= j < sk :: drk[j] == old(drk[j])
    {
      hide InvMixWord;
      PutInverse(sk, rk);
      PutInverse(sk + 1, rk + 1);
      PutInverse(sk + 2, rk + 2);
      PutInverse(sk + 3, rk + 3);
    }

    /** `*SK++ = *RK++`, four times. */
    method CopyKey(sk: nat, rk: nat)
      requires erk.Length == 64 && drk.Length == 64 && erk != drk && sk + 4 <= 64 && rk + 4 <= 64
      modifies drk
      ensures drk[sk] == erk[rk] && drk[sk + 1] == erk[rk + 1] && drk[sk + 2] == erk[rk + 2]
              && drk[sk + 3] == erk[rk + 3]
      ensures forall j | 0 <= j < sk :: drk[j] == old(drk[j])
    {
      drk[sk], drk[sk + 1], drk[sk + 2], drk[sk + 3] := erk[rk], erk[rk + 1], erk[rk + 2], erk[rk + 3];
    }

    /** The decryption keys: `rk` walks back from word `4 * nr`, `sk` forward. */
    method InvertSchedule(start: nat)
      requires erk.Length == 64 && drk.Length == 64 && erk != drk && 0 < nr <= 14 && start == 4 * nr
      modifies drk
      ensures IsInverseSchedule(erk[..], drk[..], nr)
    {
      hide InvMixWord, Context.InvertedKey, IsInverseSchedule;
      var rk, sk := start, 0;
      CopyKey(sk, rk);
      sk, rk := sk + 4, rk + 4;
      for i := 1 to nr
        invariant sk == 4 * i && rk == 4 * (nr - i) + 8
        invariant drk[0] == erk[4 * nr] && drk[1] == erk[4 * nr + 1] && drk[2] == erk[4 * nr + 2]
            && drk[3] == erk[4 * nr + 3]
        invariant forall r | 0 < r < i :: InvertedKey(r)
      {
        rk := rk - 8;
        label Before:
        PutInverseKey(sk, rk, i);
        forall r | 0 < r < i ensures InvertedKey(r) { KeepInverted@Before(r); }
        sk, rk := sk + 4, rk + 4;
      }
      rk := rk - 8;
      label Last:
      CopyKey(sk, rk);
      forall r | 0 < r < nr ensures InvertedKey(r) { KeepInverted@Last(r); }
      RoundKeysInverted();
    }

    /** Round key `r` of `drk` is the inverse-mixed round key `nr - r` of `erk`. */
    ghost predicate InvertedKey(r: nat)
      requires erk.Length == 64 && drk.Length == 64 && r <= nr <= 14
      reads this, erk, drk
    {
      var d, e := 4 * r, 4 * (nr - r);
      && drk[d] == InvMixWord(erk[e]) && drk[d + 1] == InvMixWord(erk[e + 1])
      && drk[d + 2] == InvMixWord(erk[e + 2]) && drk[d + 3] == InvMixWord(erk[e + 3])
    }

    twostate lemma KeepInverted(r: nat)
      requires erk.Length == 64 && drk.Length == 64 && r <= nr <= 14 && nr == old(nr) && unchanged(erk)
      requires old(InvertedKey(r)) && forall j | 0 <= j < 4 * r + 4 :: drk[j] == old(drk[j])
      ensures InvertedKey(r)
    {
    }

    lemma RoundKeysInverted()
      requires erk.Length == 64 && drk.Length == 64 && 0 < nr <= 14
      requires drk[0] == erk[4 * nr] && drk[1] == erk[4 * nr + 1] && drk[2] == erk[4 * nr + 2]
               && drk[3] == erk[4 * nr + 3]
      requires drk[4 * nr] == erk[0] && drk[4 * nr + 1] == erk[1] && drk[4 * nr + 2] == erk[2]
               && drk[4 * nr + 3] == erk[3]
      requires forall r | 0 < r < nr :: InvertedKey(r)
      ensures IsInverseSchedule(erk[..], drk[..], nr)
    {
      hide InvMixWord;
      forall r | 0 < r < nr ensures RoundKey(drk[..], r) == InvMixColumns(RoundKey(erk[..], nr - r)) {
        assert InvertedKey(r);
      }
    }

    /** The context holds the schedules of `key`. */
    ghost predicate Ready(key: seq<bv8>)
      reads this, erk, drk
    {
      && erk.Length == 64 && drk.Length == 64 && erk != drk
      && (|key| == 16 || |key| == 24 || |key| == 32) && nr == |key| / 4 + 6
      && Expanded(key, |key| / 4, 4 * nr + 4) && IsInverseSchedule(erk[..], drk[..], nr)
    }

    /** `rt_aes_set_key`. */
    method SetKey(key: seq<bv8>, nbits: int) returns (status: int)
      requires erk.Length == 64 && drk.Length == 64 && erk != drk
      requires nbits == 128 || nbits == 192 || nbits == 256 ==> 8 * |key| == nbits
      modifies this, erk, drk
      ensures nbits == 128 || nbits == 192 || nbits == 256 ==> status == 0 && Ready(key)
      ensures !(nbits == 128 || nbits == 192 || nbits == 256) ==>
                status == 1 && nr == old(nr) && erk[..] == old(erk[..]) && drk[..] == old(drk[..])
    {
      hide IsInverseSchedule, KeyWord;
      if nbits == 128 {
        nr := 10;
      } else if nbits == 192 {
        nr := 12;
      } else if nbits == 256 {
        nr := 14;
      } else {
        return 1;
      }
      LoadKey(key, nbits / 32);
      var rk;
      if nbits == 128 {
        rk := Expand128(key);
      } else if nbits == 192 {
        rk := Expand192(key);
      } else {
        rk := Expand256(key);
      }
      InvertSchedule(rk);
      status := 0;
    }

    /** `rt_aes_encrypt`: nine table rounds, two or four more for longer keys, and the last round. */
    method EncryptBlock(input: array<bv8>, output: array<bv8>)
      requires erk.Length == 64 && (nr == 10 || nr == 12 || nr == 14) && input.Length >= 16 && output.Length >= 16
      modifies output
      ensures output[..16] == StoreBlock(Encrypt(erk[..], nr, LoadBlock(old(input[..16]))))
      ensures output[16..] == old(output[16..])
    {
      hide EncRounds, Encrypt, FLast, AddKey, LoadBlock, StoreBlock, ShiftRows, SubBytes, RoundKey;
      ghost var ks, s := erk[..], LoadBlock(input[..16]);
      EncryptEnds(ks, nr, s);
      var x := AddKey(LoadBlock(input[..16]), RoundKey(erk[..], 0));
      x := ForwardRound(x, 1, s);
      x := ForwardRound(x, 2, s);
      x := ForwardRound(x, 3, s);
      x := ForwardRound(x, 4, s);
      x := ForwardRound(x, 5, s);
      x := ForwardRound(x, 6, s);
      x := ForwardRound(x, 7, s);
      x := ForwardRound(x, 8, s);
      x := ForwardRound(x, 9, s);
      if nr > 10 {
        x := ForwardRound(x, 10, s);
        x := ForwardRound(x, 11, s);
      }
      if nr > 12 {
        x := ForwardRound(x, 12, s);
        x := ForwardRound(x, 13, s);
      }
      FLastIs(x, RoundKey(ks, nr));
      Store(FLast(x, RoundKey(erk[..], nr)), output);
    }

    /** `AES_FROUND` with round key `r`. */
    method ForwardRound(x: Block, r: nat, ghost s: Block) returns (y: Block)
      requires erk.Length == 64 && 0 < r <= 14 && x == EncRounds(erk[..], r - 1, s)
      ensures y == EncRounds(erk[..], r, s)
    {
      hide FRound, EncRound;
      FRoundIs(x, RoundKey(erk[..], r));
      y := FRound(x, RoundKey(erk[..], r));
    }

    /** `rt_aes_decrypt`, over the decryption keys. */
    method DecryptBlock(input: array<bv8>, output: array<bv8>)
      requires drk.Length == 64 && (nr == 10 || nr == 12 || nr == 14) && input.Length >= 16 && output.Length >= 16
      modifies output
      ensures output[..16] == StoreBlock(Decrypt(drk[..], nr, LoadBlock(old(input[..16]))))
      ensures output[16..] == old(output[16..])
    {
      hide DecRounds, Decrypt, RLast, AddKey, LoadBlock, StoreBlock, InvShiftRows, InvSubBytes, RoundKey;
      ghost var ks, s := drk[..], LoadBlock(input[..16]);
      DecryptEnds(ks, nr, s);
      var x := AddKey(LoadBlock(input[..16]), RoundKey(drk[..], 0));
      x := ReverseRound(x, 1, s);
      x := ReverseRound(x, 2, s);
      x := ReverseRound(x, 3, s);
      x := ReverseRound(x, 4, s);
      x := ReverseRound(x, 5, s);
      x := ReverseRound(x, 6, s);
      x := ReverseRound(x, 7, s);
      x := ReverseRound(x, 8, s);
      x := ReverseRound(x, 9, s);
      if nr > 10 {
        x := ReverseRound(x, 10, s);
        x := ReverseRound(x, 11, s);
      }
      if nr > 12 {
        x := ReverseRound(x, 12, s);
        x := ReverseRound(x, 13, s);
      }
      RLastIs(x, RoundKey(ks, nr));
      Store(RLast(x, RoundKey(drk[..], nr)), output);
    }

    /** `AES_RROUND` with round key `r`. */
    method ReverseRound(x: Block, r: nat, ghost s: Block) returns (y: Block)
      requires drk.Length == 64 && 0 < r <= 14 && x == DecRounds(drk[..], r - 1, s)
      ensures y == DecRounds(drk[..], r, s)
    {
      hide RRound, DecRound;
      RRoundIs(x, RoundKey(drk[..], r));
      y := RRound(x, RoundKey(drk[..], r));
    }

    /** The four `PUT_UINT32`. */
    method Store(x: Block, output: array<bv8>)
      requires output.Length >= 16
      modifies output
      ensures output[..16] == StoreBlock(x) && output[16..] == old(output[16..])
    {
      hide B3, B2, B1, B0, StoreBlock;
      PutWord(x.w0, output, 0);
      PutWord(x.w1, output, 4);
      PutWord(x.w2, output, 8);
      PutWord(x.w3, output, 12);
      StoreBlockIs(x, output[..16]);
    }

    method PutWord(w: bv32, output: array<bv8>, i: nat)
      requires i + 4 <= output.Length
      modifies output
      ensures output[i] == B3(w) && output[i + 1] == B2(w) && output[i + 2] == B1(w) && output[i + 3] == B0(w)
      ensures forall j | 0 <= j < output.Length && !(i <= j < i + 4) :: output[j] == old(output[j])
    {
      hide B3, B2, B1, B0;
      output[i], output[i + 1], output[i + 2], output[i + 3] := B3(w), B2(w), B1(w), B0(w);
    }
  }

  lemma EncryptEnds(ks: seq<bv32>, nr: nat, s: Block)
    requires nr > 0 && 4 * nr + 4 <= |ks|
    ensures EncRounds(ks, 0, s) == AddKey(s, RoundKey(ks, 0))
    ensures Encrypt(ks, nr, s) == AddKey(ShiftRows(SubBytes(EncRounds(ks, nr - 1, s))), RoundKey(ks, nr))
  {
  }

  lemma DecryptEnds(ks: seq<bv32>, nr: nat, s: Block)
    requires nr > 0 && 4 * nr + 4 <= |ks|
    ensures DecRounds(ks, 0, s) == AddKey(s, RoundKey(ks, 0))
    ensures Decrypt(ks, nr, s) == AddKey(InvShiftRows(InvSubBytes(DecRounds(ks, nr - 1, s))), RoundKey(ks, nr))
  {
  }

  // ----- the macros -----

  function FRound(y: Block, k: Block): Block {
    Block(ForwardTableWord(k.w0, B3(y.w0), B2(y.w1), B1(y.w2), B0(y.w3)),
          ForwardTableWord(k.w1, B3(y.w1), B2(y.w2), B1(y.w3), B0(y.w0)),
          ForwardTableWord(k.w2, B3(y.w2), B2(y.w3), B1(y.w0), B0(y.w1)),
          ForwardTableWord(k.w3, B3(y.w3), B2(y.w0), B1(y.w1), B0(y.w2)))
  }

  function RRound(y: Block, k: Block): Block {
    Block(ReverseTableWord(k.w0, B3(y.w0), B2(y.w3), B1(y.w2), B0(y.w1)),
          ReverseTableWord(k.w1, B3(y.w1), B2(y.w0), B1(y.w3), B0(y.w2)),
          ReverseTableWord(k.w2, B3(y.w2), B2(y.w1), B1(y.w0), B0(y.w3)),
          ReverseTableWord(k.w3, B3(y.w3), B2(y.w2), B1(y.w1), B0(y.w0)))
  }

  function FLast(y: Block, k: Block): Block {
    Block(LastWord(k.w0, Sbox(B3(y.w0)), Sbox(B2(y.w1)), Sbox(B1(y.w2)), Sbox(B0(y.w3))),
          LastWord(k.w1, Sbox(B3(y.w1)), Sbox(B2(y.w2)), Sbox(B1(y.w3)), Sbox(B0(y.w0))),
          LastWord(k.w2, Sbox(B3(y.w2)), Sbox(B2(y.w3)), Sbox(B1(y.w0)), Sbox(B0(y.w1))),
          LastWord(k.w3, Sbox(B3(y.w3)), Sbox(B2(y.w0)), Sbox(B1(y.w1)), Sbox(B0(y.w2))))
  }

  function RLast(y: Block, k: Block): Block {
    Block(LastWord(k.w0, InvSbox(B3(y.w0)), InvSbox(B2(y.w3)), InvSbox(B1(y.w2)), InvSbox(B0(y.w1))),
          LastWord(k.w1, InvSbox(B3(y.w1)), InvSbox(B2(y.w0)), InvSbox(B1(y.w3)), InvSbox(B0(y.w2))),
          LastWord(k.w2, InvSbox(B3(y.w2)), InvSbox(B2(y.w1)), InvSbox(B1(y.w0)), InvSbox(B0(y.w3))),
          LastWord(k.w3, InvSbox(B3(y.w3)), InvSbox(B2(y.w2)), InvSbox(B1(y.w1)), InvSbox(B0(y.w0))))
  }

  lemma GatherSub(a: bv32, b: bv32, c: bv32, d: bv32)
    ensures Gather(SubWord(a), SubWord(b), SubWord(c), SubWord(d))
            == Pack(Sbox(B3(a)), Sbox(B2(b)), Sbox(B1(c)), Sbox(B0(d)))
    ensures Gather(InvSubWord(a), InvSubWord(b), InvSubWord(c), InvSubWord(d))
            == Pack(InvSbox(B3(a)), InvSbox(B2(b)), InvSbox(B1(c)), InvSbox(B0(d)))
  {
    hide Pack, B3, B2, B1, B0, Sbox, InvSbox;
    PackBytes(Sbox(B3(a)), Sbox(B2(a)), Sbox(B1(a)), Sbox(B0(a)));
    PackBytes(Sbox(B3(b)), Sbox(B2(b)), Sbox(B1(b)), Sbox(B0(b)));
    PackBytes(Sbox(B3(c)), Sbox(B2(c)), Sbox(B1(c)), Sbox(B0(c)));
    PackBytes(Sbox(B3(d)), Sbox(B2(d)), Sbox(B1(d)), Sbox(B0(d)));
    PackBytes(InvSbox(B3(a)), InvSbox(B2(a)), InvSbox(B1(a)), InvSbox(B0(a)));
    PackBytes(InvSbox(B3(b)), InvSbox(B2(b)), InvSbox(B1(b)), InvSbox(B0(b)));
    PackBytes(InvSbox(B3(c)), InvSbox(B2(c)), InvSbox(B1(c)), InvSbox(B0(c)));
    PackBytes(InvSbox(B3(d)), InvSbox(B2(d)), InvSbox(B1(d)), InvSbox(B0(d)));
  }

  /** A word of each of the four macros is the word of the round it stands for. */
  lemma MacroWords(k: bv32, a: bv32, b: bv32, c: bv32, d: bv32)
    ensures ForwardTableWord(k, B3(a), B2(b), B1(c), B0(d))
            == XorW(MixWord(Gather(SubWord(a), SubWord(b), SubWord(c), SubWord(d))), k)
    ensures LastWord(k, Sbox(B3(a)), Sbox(B2(b)), Sbox(B1(c)), Sbox(B0(d)))
            == XorW(Gather(SubWord(a), SubWord(b), SubWord(c), SubWord(d)), k)
    ensures ReverseTableWord(k, B3(a), B2(b), B1(c), B0(d))
            == XorW(InvMixWord(Gather(InvSubWord(a), InvSubWord(b), InvSubWord(c), InvSubWord(d))), k)
    ensures LastWord(k, InvSbox(B3(a)), InvSbox(B2(b)), InvSbox(B1(c)), InvSbox(B0(d)))
            == XorW(Gather(InvSubWord(a), InvSubWord(b), InvSubWord(c), InvSubWord(d)), k)
  {
    hide Pack, B3, B2, B1, B0, Sbox, InvSbox, XorW, MixWord, InvMixWord, ForwardTableWord, ReverseTableWord, LastWord,
        SubWord, InvSubWord, Gather;
    GatherSub(a, b, c, d);
    ForwardTableWordIs(k, B3(a), B2(b), B1(c), B0(d));
    ReverseTableWordIs(k, B3(a), B2(b), B1(c), B0(d));
    LastWordIs(k, Sbox(B3(a)), Sbox(B2(b)), Sbox(B1(c)), Sbox(B0(d)));
    LastWordIs(k, InvSbox(B3(a)), InvSbox(B2(b)), InvSbox(B1(c)), InvSbox(B0(d)));
  }

  lemma FRoundIs(y: Block, k: Block)
    ensures FRound(y, k) == EncRound(y, k)
  {
    hide B3, B2, B1, B0, Sbox, InvSbox, XorW, MixWord, InvMixWord, ForwardTableWord, ReverseTableWord, LastWord,
        SubWord, InvSubWord, Gather;
    MacroWords(k.w0, y.w0, y.w1, y.w2, y.w3);
    MacroWords(k.w1, y.w1, y.w2, y.w3, y.w0);
    MacroWords(k.w2, y.w2, y.w3, y.w0, y.w1);
    MacroWords(k.w3, y.w3, y.w0, y.w1, y.w2);
  }

  lemma FLastIs(y: Block, k: Block)
    ensures FLast(y, k) == AddKey(ShiftRows(SubBytes(y)), k)
  {
    hide B3, B2, B1, B0, Sbox, InvSbox, XorW, MixWord, InvMixWord, ForwardTableWord, ReverseTableWord, LastWord,
        SubWord, InvSubWord, Gather;
    MacroWords(k.w0, y.w0, y.w1, y.w2, y.w3);
    MacroWords(k.w1, y.w1, y.w2, y.w3, y.w0);
    MacroWords(k.w2, y.w2, y.w3, y.w0, y.w1);
    MacroWords(k.w3, y.w3, y.w0, y.w1, y.w2);
  }

  lemma RRoundIs(y: Block, k: Block)
    ensures RRound(y, k) == DecRound(y, k)
  {
    hide B3, B2, B1, B0, Sbox, InvSbox, XorW, MixWord, InvMixWord, ForwardTableWord, ReverseTableWord, LastWord,
        SubWord, InvSubWord, Gather;
    MacroWords(k.w0, y.w0, y.w3, y.w2, y.w1);
    MacroWords(k.w1, y.w1, y.w0, y.w3, y.w2);
    MacroWords(k.w2, y.w2, y.w1, y.w0, y.w3);
    MacroWords(k.w3, y.w3, y.w2, y.w1, y.w0);
  }

  lemma RLastIs(y: Block, k: Block)
    ensures RLast(y, k) == AddKey(InvShiftRows(InvSubBytes(y)), k)
  {
    hide B3, B2, B1, B0, Sbox, InvSbox, XorW, MixWord, InvMixWord, ForwardTableWord, ReverseTableWord, LastWord,
        SubWord, InvSubWord, Gather;
    MacroWords(k.w0, y.w0, y.w3, y.w2, y.w1);
    MacroWords(k.w1, y.w1, y.w0, y.w3, y.w2);
    MacroWords(k.w2, y.w2, y.w1, y.w0, y.w3);
    MacroWords(k.w3, y.w3, y.w2, y.w1, y.w0);
  }

  // ----- bytes in, bytes out -----

  /** AES of a 16-byte block under a key of 16, 24 or 32 bytes. */
  function AesEncrypt(key: seq<bv8>, b: seq<bv8>): (c: seq<bv8>)
    requires (|key| == 16 || |key| == 24 || |key| == 32) && |b| == 16
    ensures |c| == 16
  {
    var nr := |key| / 4 + 6;
    StoreBlock(Encrypt(KeyExpansion(key, |key| / 4, 4 * nr + 4), nr, LoadBlock(b)))
  }

  /** The decryption schedule of an encryption schedule. */
  function InverseSchedule(ks: seq<bv32>, nr: nat): (dk: seq<bv32>)
    requires 0 < nr && |ks| == 4 * nr + 4
    ensures |dk| == |ks| && IsInverseSchedule(ks, dk, nr)
  {
    var dk := seq(4 * nr + 4, i requires 0 <= i < 4 * nr + 4 =>
                  var w := ks[4 * (nr - i / 4) + i % 4]; if i < 4 || i >= 4 * nr then w else InvMixWord(w));
    InverseScheduleIs(ks, dk, nr);
    dk
  }

  lemma InverseScheduleIs(ks: seq<bv32>, dk: seq<bv32>, nr: nat)
    requires 0 < nr && |ks| == |dk| == 4 * nr + 4
    requires forall i | 0 <= i < 4 * nr + 4 ::
               dk[i] == var w := ks[4 * (nr - i / 4) + i % 4]; if i < 4 || i >= 4 * nr then w else InvMixWord(w)
    ensures IsInverseSchedule(ks, dk, nr)
  {
    hide InvMixWord;
    forall r | 0 <= r <= nr
      ensures RoundKey(dk, r) == if r == 0 || r == nr then RoundKey(ks, nr - r) else InvMixColumns(RoundKey(ks, nr - r))
    {
      Quarter(r, 0);
      Quarter(r, 1);
      Quarter(r, 2);
      Quarter(r, 3);
      InverseKeyIs(ks, dk, nr, r);
    }
  }

  lemma Quarter(r: nat, j: nat)
    requires j < 4
    ensures (4 * r + j) / 4 == r && (4 * r + j) % 4 == j
  {
  }

  lemma InverseKeyIs(ks: seq<bv32>, dk: seq<bv32>, nr: nat, r: nat)
    requires 0 < nr && |ks| == |dk| == 4 * nr + 4 && r <= nr
    requires var d, e, plain := 4 * r, 4 * (nr - r), r == 0 || r == nr;
             && dk[d] == (if plain then ks[e] else InvMixWord(ks[e]))
             && dk[d + 1] == (if plain then ks[e + 1] else InvMixWord(ks[e + 1]))
             && dk[d + 2] == (if plain then ks[e + 2] else InvMixWord(ks[e + 2]))
             && dk[d + 3] == (if plain then ks[e + 3] else InvMixWord(ks[e + 3]))
    ensures RoundKey(dk, r) == if r == 0 || r == nr then RoundKey(ks, nr - r) else InvMixColumns(RoundKey(ks, nr - r))
  {
    hide InvMixWord;
  }

  function AesDecrypt(key: seq<bv8>, c: seq<bv8>): (b: seq<bv8>)
    requires (|key| == 16 || |key| == 24 || |key| == 32) && |c| == 16
    ensures |b| == 16
  {
    var nr := |key| / 4 + 6;
    StoreBlock(Decrypt(InverseSchedule(KeyExpansion(key, |key| / 4, 4 * nr + 4), nr), nr, LoadBlock(c)))
  }

  /** Decryption undoes encryption, for every key of every size and every block. */
  lemma AesRoundTrip(key: seq<bv8>, b: seq<bv8>)
    requires (|key| == 16 || |key| == 24 || |key| == 32) && |b| == 16
    ensures AesDecrypt(key, AesEncrypt(key, b)) == b
  {
    hide StoreBlock, LoadBlock, KeyWord, IsInverseSchedule, Encrypt, Decrypt;
    var nr := |key| / 4 + 6;
    var ks := KeyExpansion(key, |key| / 4, 4 * nr + 4);
    DecryptEncrypt(ks, InverseSchedule(ks, nr), nr, LoadBlock(b));
    LoadStore(Encrypt(ks, nr, LoadBlock(b)));
    StoreLoad(b);
  }

  /** The ciphers read only their round keys. */
  lemma {:induction false} EncRoundsPrefix(ks: seq<bv32>, ks': seq<bv32>, r: nat, s: Block)
    requires 4 * r + 4 <= |ks| && 4 * r + 4 <= |ks'| && forall i | 0 <= i <= r :: RoundKey(ks, i) == RoundKey(ks', i)
    ensures EncRounds(ks, r, s) == EncRounds(ks', r, s) && DecRounds(ks, r, s) == DecRounds(ks', r, s)
  {
    if r > 0 { EncRoundsPrefix(ks, ks', r - 1, s); }
  }

  lemma SamePrefixSameKeys(ks: seq<bv32>, ks': seq<bv32>, n: nat)
    requires 4 * n + 4 <= |ks| && 4 * n + 4 <= |ks'| && forall i | 0 <= i < 4 * n + 4 :: ks[i] == ks'[i]
    ensures forall r | 0 <= r <= n :: RoundKey(ks, r) == RoundKey(ks', r)
  {
  }

  /** An inverse schedule is determined by the schedule it inverts. */
  lemma InverseUnique(ek: seq<bv32>, dk: seq<bv32>, ks: seq<bv32>, ds: seq<bv32>, nr: nat)
    requires IsInverseSchedule(ek, dk, nr) && IsInverseSchedule(ks, ds, nr)
    requires forall r | 0 <= r <= nr :: RoundKey(ek, r) == RoundKey(ks, r)
    ensures forall r | 0 <= r <= nr :: RoundKey(dk, r) == RoundKey(ds, r)
  {
    hide InvMixColumns;
    forall r | 0 <= r <= nr ensures RoundKey(dk, r) == RoundKey(ds, r) {
      assert RoundKey(ek, nr - r) == RoundKey(ks, nr - r);
    }
  }

  /** Equal round keys and an inverse of one schedule: the same cipher in both directions. */
  lemma SameCipher(ek: seq<bv32>, dk: seq<bv32>, ks: seq<bv32>, nr: nat, s: Block)
    requires nr > 0 && 4 * nr + 4 <= |ek| && |ks| == 4 * nr + 4 && IsInverseSchedule(ek, dk, nr)
    requires forall i | 0 <= i < 4 * nr + 4 :: ek[i] == ks[i]
    ensures Encrypt(ek, nr, s) == Encrypt(ks, nr, s)
    ensures Decrypt(dk, nr, s) == Decrypt(InverseSchedule(ks, nr), nr, s)
  {
    hide IsInverseSchedule, RoundKey, EncRounds, DecRounds, AddKey, ShiftRows, SubBytes, InvShiftRows, InvSubBytes,
        InverseSchedule;
    SamePrefixSameKeys(ek, ks, nr);
    InverseUnique(ek, dk, ks, InverseSchedule(ks, nr), nr);
    EncRoundsPrefix(ek, ks, nr - 1, s);
    assert 4 * nr + 4 <= |dk| by { InverseLength(ek, dk, nr); }
    EncRoundsPrefix(dk, InverseSchedule(ks, nr), nr - 1, s);
  }

  lemma InverseLength(ek: seq<bv32>, dk: seq<bv32>, nr: nat)
    requires IsInverseSchedule(ek, dk, nr)
    ensures 4 * nr + 4 <= |dk| && 4 * nr + 4 <= |ek|
  {
  }

  /** A ready context computes AES in both directions. */
  lemma ReadyContext(c: Context, key: seq<bv8>, b: seq<bv8>)
    requires c.Ready(key) && |b| == 16
    ensures StoreBlock(Encrypt(c.erk[..], c.nr, LoadBlock(b))) == AesEncrypt(key, b)
    ensures StoreBlock(Decrypt(c.drk[..], c.nr, LoadBlock(b))) == AesDecrypt(key, b)
  {
    hide IsInverseSchedule, StoreBlock, LoadBlock, Encrypt, Decrypt, KeyWord, InverseSchedule;
    SameCipher(c.erk[..], c.drk[..], KeyExpansion(key, |key| / 4, 4 * c.nr + 4), c.nr, LoadBlock(b));
  }

  /** `rt_aes_encrypt` and `rt_aes_decrypt` on a context that holds `key`. */
  method EncryptWith(c: Context, input: array<bv8>, output: array<bv8>, ghost key: seq<bv8>)
    requires c.Ready(key) && input.Length == 16 && output.Length == 16
    modifies output
    ensures output[..] == AesEncrypt(key, old(input[..]))
  {
    hide IsInverseSchedule, StoreBlock, LoadBlock, Encrypt, Decrypt, AesEncrypt, AesDecrypt, Context.Expanded;
    ReadyContext(c, key, input[..16]);
    assert input[..16] == input[..];
    c.EncryptBlock(input, output);
    assert output[..16] == output[..];
  }

  method DecryptWith(c: Context, input: array<bv8>, output: array<bv8>, ghost key: seq<bv8>)
    requires c.Ready(key) && input.Length == 16 && output.Length == 16
    modifies output
    ensures output[..] == AesDecrypt(key, old(input[..]))
  {
    hide IsInverseSchedule, StoreBlock, LoadBlock, Encrypt, Decrypt, AesEncrypt, AesDecrypt, Context.Expanded;
    ReadyContext(c, key, input[..16]);
    assert input[..16] == input[..];
    c.DecryptBlock(input, output);
    assert output[..16] == output[..];
  }
}
