/** MD5: `MD5_Init`, `MD5_Hash`, `MD5_Append`, `MD5_End` and `RT_MD5`, against sections 3.1 to 3.5 of
    RFC 1321. */
module Md5 {
  import opened AesField
  import opened AesWords
  import opened Bytes
  import opened Remainders

  const MD5_BLOCK_SIZE: nat := 64

  // ----- section 3.4 of RFC 1321 -----

  function F(x: bv32, y: bv32, z: bv32): bv32 { (x & y) | (!x & z) }

  function G(x: bv32, y: bv32, z: bv32): bv32 { (x & z) | (y & !z) }

  function H(x: bv32, y: bv32, z: bv32): bv32 { x ^ y ^ z }

  function I(x: bv32, y: bv32, z: bv32): bv32 { y ^ (x | !z) }

  function Add(x: bv32, y: bv32): bv32 { x + y }

  function Rotl(x: bv32, n: nat): bv32
    requires n <= 32
  {
    (x << n) | (x >> (32 - n))
  }

  /** `a = b + ((a + f + x + ac) <<< s)`, with the value `f` of the round's function. */
  function Operation(a: bv32, b: bv32, f: bv32, x: bv32, s: nat, ac: bv32): bv32
    requires s <= 32
  {
    Add(Rotl(Add(a, Add(Add(f, x), ac)), s), b)
  }

  /** The table T: 2^32 times the absolute value of sin(i + 1). */
  function T(i: nat): bv32 {
    if i < 16 then T1(i) else if i < 32 then T2(i) else if i < 48 then T3(i) else T4(i)
  }

  function T1(i: nat): bv32 {
    if i == 0 then 0xD76A_A478 else if i == 1 then 0xE8C7_B756 else if i == 2 then 0x2420_70DB else
    if i == 3 then 0xC1BD_CEEE else if i == 4 then 0xF57C_0FAF else if i == 5 then 0x4787_C62A else
    if i == 6 then 0xA830_4613 else if i == 7 then 0xFD46_9501 else if i == 8 then 0x6980_98D8 else
    if i == 9 then 0x8B44_F7AF else if i == 10 then 0xFFFF_5BB1 else if i == 11 then 0x895C_D7BE else
    if i == 12 then 0x6B90_1122 else if i == 13 then 0xFD98_7193 else if i == 14 then 0xA679_438E else 0x49B4_0821
  }

  function T2(i: nat): bv32 {
    if i == 16 then 0xF61E_2562 else if i == 17 then 0xC040_B340 else if i == 18 then 0x265E_5A51 else
    if i == 19 then 0xE9B6_C7AA else if i == 20 then 0xD62F_105D else if i == 21 then 0x0244_1453 else
    if i == 22 then 0xD8A1_E681 else if i == 23 then 0xE7D3_FBC8 else if i == 24 then 0x21E1_CDE6 else
    if i == 25 then 0xC337_07D6 else if i == 26 then 0xF4D5_0D87 else if i == 27 then 0x455A_14ED else
    if i == 28 then 0xA9E3_E905 else if i == 29 then 0xFCEF_A3F8 else if i == 30 then 0x676F_02D9 else 0x8D2A_4C8A
  }

  function T3(i: nat): bv32 {
    if i == 32 then 0xFFFA_3942 else if i == 33 then 0x8771_F681 else if i == 34 then 0x6D9D_6122 else
    if i == 35 then 0xFDE5_380C else if i == 36 then 0xA4BE_EA44 else if i == 37 then 0x4BDE_CFA9 else
    if i == 38 then 0xF6BB_4B60 else if i == 39 then 0xBEBF_BC70 else if i == 40 then 0x289B_7EC6 else
    if i == 41 then 0xEAA1_27FA else if i == 42 then 0xD4EF_3085 else if i == 43 then 0x0488_1D05 else
    if i == 44 then 0xD9D4_D039 else if i == 45 then 0xE6DB_99E5 else if i == 46 then 0x1FA2_7CF8 else 0xC4AC_5665
  }

  function T4(i: nat): bv32 {
    if i == 48 then 0xF429_2244 else if i == 49 then 0x432A_FF97 else if i == 50 then 0xAB94_23A7 else
    if i == 51 then 0xFC93_A039 else if i == 52 then 0x655B_59C3 else if i == 53 then 0x8F0C_CC92 else
    if i == 54 then 0xFFEF_F47D else if i == 55 then 0x8584_5DD1 else if i == 56 then 0x6FA8_7E4F else
    if i == 57 then 0xFE2C_E6E0 else if i == 58 then 0xA301_4314 else if i == 59 then 0x4E08_11A1 else
    if i == 60 then 0xF753_7E82 else if i == 61 then 0xBD3A_F235 else if i == 62 then 0x2AD7_D2BB else 0xEB86_D391
  }

  /** The word that operation `i` takes. */
  function K(i: nat): (k: nat)
    ensures k < 16
  {
    if i < 16 then i else if i < 32 then (5 * i + 1) % 16 else if i < 48 then (3 * i + 5) % 16 else (7 * i) % 16
  }

  /** Its rotation. */
  function S(i: nat): (s: nat)
    ensures s < 32
  {
    var j := i % 4;
    if i < 16 then (if j == 0 then 7 else if j == 1 then 12 else if j == 2 then 17 else 22)
    else if i < 32 then (if j == 0 then 5 else if j == 1 then 9 else if j == 2 then 14 else 20)
    else if i < 48 then (if j == 0 then 4 else if j == 1 then 11 else if j == 2 then 16 else 23)
    else (if j == 0 then 6 else if j == 1 then 10 else if j == 2 then 15 else 21)
  }

  /** The function of the round operation `i` belongs to. */
  function Fun(i: nat, x: bv32, y: bv32, z: bv32): bv32 {
    if i < 16 then F(x, y, z) else if i < 32 then G(x, y, z) else if i < 48 then H(x, y, z) else I(x, y, z)
  }

  datatype Quad = Quad(a: bv32, b: bv32, c: bv32, d: bv32)

  /** Operation `i`, which turns the four registers by one place. */
  function Turn(x: seq<bv32>, i: nat, q: Quad): Quad
    requires |x| == 16
  {
    Quad(q.d, Operation(q.a, q.b, Fun(i, q.b, q.c, q.d), x[K(i)], S(i), T(i)), q.b, q.c)
  }

  /** The first `n` operations. */
  function Turns(x: seq<bv32>, n: nat, q: Quad): Quad
    requires |x| == 16
  {
    if n == 0 then q else Turn(x, n - 1, Turns(x, n - 1, q))
  }

  /** The sixteen words of a block, least significant byte first. */
  function Words(b: seq<bv8>): (x: seq<bv32>)
    requires |b| == 64
    ensures |x| == 16 && forall i | 0 <= i < 16 :: x[i] == Pack(b[4 * i + 3], b[4 * i + 2], b[4 * i + 1], b[4 * i])
  {
    seq(16, i requires 0 <= i < 16 => Pack(b[4 * i + 3], b[4 * i + 2], b[4 * i + 1], b[4 * i]))
  }

  function AddQuads(p: Quad, q: Quad): Quad {
    Quad(Add(p.a, q.a), Add(p.b, q.b), Add(p.c, q.c), Add(p.d, q.d))
  }

  /** The chaining value after one more block. */
  function HashBlock(h: Quad, b: seq<bv8>): Quad
    requires |b| == 64
  {
    AddQuads(h, Turns(Words(b), 64, h))
  }

  const INITIAL: Quad := Quad(0x6745_2301, 0xEFCD_AB89, 0x98BA_DCFE, 0x1032_5476)

  /** The chaining value after the first `n` blocks of `s`. */
  function Chained(s: seq<bv8>, n: nat): Quad
    requires 64 * n <= |s|
  {
    if n == 0 then INITIAL else HashBlock(Chained(s, n - 1), s[64 * (n - 1)..64 * n])
  }

  // ----- sections 3.1, 3.2 and 3.5 -----

  const TWO_64: nat := 0x1_0000_0000_0000_0000

  /** A 64-bit number, least significant byte first. */
  function Le64(n: nat): (b: seq<bv8>)
    ensures |b| == 8
  {
    [ToByte(n), ToByte(n / 0x100), ToByte(n / 0x1_0000), ToByte(n / 0x100_0000), ToByte(n / 0x1_0000_0000),
     ToByte(n / 0x100_0000_0000), ToByte(n / 0x1_0000_0000_0000), ToByte(n / 0x100_0000_0000_0000)]
  }

  /** The zeros between the bit 1 and the length. */
  function PadZeros(n: nat): (z: nat)
    ensures z < 64 && (n + 1 + z + 8) % 64 == 0
  {
    if n % 64 <= 55 then 55 - n % 64 else 119 - n % 64
  }

  function Padded(s: seq<bv8>): (t: seq<bv8>)
    ensures |t| == |s| + 1 + PadZeros(|s|) + 8
  {
    s + [0x80] + Zeros(PadZeros(|s|)) + Le64(8 * |s| % TWO_64)
  }

  function QuadBytes(q: Quad): (b: seq<bv8>)
    ensures |b| == 16
  {
    LeBytes(q.a) + LeBytes(q.b) + LeBytes(q.c) + LeBytes(q.d)
  }

  /** The MD5 digest of a message. */
  function Digest(s: seq<bv8>): (d: seq<bv8>)
    ensures |d| == 16
  {
    var t := Padded(s);
    QuadBytes(Chained(t, |t| / 64))
  }

  // ----- the rounds of the code -----

  /** `ROUND1` to `ROUND4`. */
  function Round1(a: bv32, b: bv32, c: bv32, d: bv32, x: bv32, s: nat, ac: bv32): bv32
    requires s <= 32
  {
    Operation(a, b, F(b, c, d), x, s, ac)
  }

  function Round2(a: bv32, b: bv32, c: bv32, d: bv32, x: bv32, s: nat, ac: bv32): bv32
    requires s <= 32
  {
    Operation(a, b, G(b, c, d), x, s, ac)
  }

  function Round3(a: bv32, b: bv32, c: bv32, d: bv32, x: bv32, s: nat, ac: bv32): bv32
    requires s <= 32
  {
    Operation(a, b, H(b, c, d), x, s, ac)
  }

  function Round4(a: bv32, b: bv32, c: bv32, d: bv32, x: bv32, s: nat, ac: bv32): bv32
    requires s <= 32
  {
    Operation(a, b, I(b, c, d), x, s, ac)
  }

  /** Four operations bring the registers back to their places. */
  lemma FourTurns(x: seq<bv32>, i: nat, q: Quad, p: Quad)
    requires |x| == 16 && p == Turns(x, i, q)
    ensures var a := Operation(p.a, p.b, Fun(i, p.b, p.c, p.d), x[K(i)], S(i), T(i));
            var d := Operation(p.d, a, Fun(i + 1, a, p.b, p.c), x[K(i + 1)], S(i + 1), T(i + 1));
            var c := Operation(p.c, d, Fun(i + 2, d, a, p.b), x[K(i + 2)], S(i + 2), T(i + 2));
            var b := Operation(p.b, c, Fun(i + 3, c, d, a), x[K(i + 3)], S(i + 3), T(i + 3));
            Turns(x, i + 4, q) == Quad(a, b, c, d)
  {
    hide Operation, Fun, K, S, T;
    var p1 := Turn(x, i, p);
    var p2 := Turn(x, i + 1, p1);
    var p3 := Turn(x, i + 2, p2);
    assert Turns(x, i + 1, q) == p1;
    assert Turns(x, i + 2, q) == p2;
    assert Turns(x, i + 3, q) == p3;
    assert Turns(x, i + 4, q) == Turn(x, i + 3, p3);
  }

  /** Operations 1 to 4. */
  method Group1(x: array<bv32>, a0: bv32, b0: bv32, c0: bv32, d0: bv32, ghost q: Quad)
      returns (a: bv32, b: bv32, c: bv32, d: bv32)
    requires x.Length == 16 && Quad(a0, b0, c0, d0) == Turns(x[..], 0, q)
    ensures Quad(a, b, c, d) == Turns(x[..], 4, q)
  {
    hide Operation, F, G, H, I, Turns;
    FourTurns(x[..], 0, q, Quad(a0, b0, c0, d0));
    a, b, c, d := a0, b0, c0, d0;
    a := Round1(a, b, c, d, x[0], 7, 0xD76A_A478);
    d := Round1(d, a, b, c, x[1], 12, 0xE8C7_B756);
    c := Round1(c, d, a, b, x[2], 17, 0x2420_70DB);
    b := Round1(b, c, d, a, x[3], 22, 0xC1BD_CEEE);
  }

  /** Operations 5 to 8. */
  method Group2(x: array<bv32>, a0: bv32, b0: bv32, c0: bv32, d0: bv32, ghost q: Quad)
      returns (a: bv32, b: bv32, c: bv32, d: bv32)
    requires x.Length == 16 && Quad(a0, b0, c0, d0) == Turns(x[..], 4, q)
    ensures Quad(a, b, c, d) == Turns(x[..], 8, q)
  {
    hide Operation, F, G, H, I, Turns;
    FourTurns(x[..], 4, q, Quad(a0, b0, c0, d0));
    a, b, c, d := a0, b0, c0, d0;
    a := Round1(a, b, c, d, x[4], 7, 0xF57C_0FAF);
    d := Round1(d, a, b, c, x[5], 12, 0x4787_C62A);
    c := Round1(c, d, a, b, x[6], 17, 0xA830_4613);
    b := Round1(b, c, d, a, x[7], 22, 0xFD46_9501);
  }

  /** Operations 9 to 12. */
  method Group3(x: array<bv32>, a0: bv32, b0: bv32, c0: bv32, d0: bv32, ghost q: Quad)
      returns (a: bv32, b: bv32, c: bv32, d: bv32)
    requires x.Length == 16 && Quad(a0, b0, c0, d0) == Turns(x[..], 8, q)
    ensures Quad(a, b, c, d) == Turns(x[..], 12, q)
  {
    hide Operation, F, G, H, I, Turns;
    FourTurns(x[..], 8, q, Quad(a0, b0, c0, d0));
    a, b, c, d := a0, b0, c0, d0;
    a := Round1(a, b, c, d, x[8], 7, 0x6980_98D8);
    d := Round1(d, a, b, c, x[9], 12, 0x8B44_F7AF);
    c := Round1(c, d, a, b, x[10], 17, 0xFFFF_5BB1);
    b := Round1(b, c, d, a, x[11], 22, 0x895C_D7BE);
  }

  /** Operations 13 to 16. */
  method Group4(x: array<bv32>, a0: bv32, b0: bv32, c0: bv32, d0: bv32, ghost q: Quad)
      returns (a: bv32, b: bv32, c: bv32, d: bv32)
    requires x.Length == 16 && Quad(a0, b0, c0, d0) == Turns(x[..], 12, q)
    ensures Quad(a, b, c, d) == Turns(x[..], 16, q)
  {
    hide Operation, F, G, H, I, Turns;
    FourTurns(x[..], 12, q, Quad(a0, b0, c0, d0));
    a, b, c, d := a0, b0, c0, d0;
    a := Round1(a, b, c, d, x[12], 7, 0x6B90_1122);
    d := Round1(d, a, b, c, x[13], 12, 0xFD98_7193);
    c := Round1(c, d, a, b, x[14], 17, 0xA679_438E);
    b := Round1(b, c, d, a, x[15], 22, 0x49B4_0821);
  }

  /** Operations 17 to 20. */
  method Group5(x: array<bv32>, a0: bv32, b0: bv32, c0: bv32, d0: bv32, ghost q: Quad)
      returns (a: bv32, b: bv32, c: bv32, d: bv32)
    requires x.Length == 16 && Quad(a0, b0, c0, d0) == Turns(x[..], 16, q)
    ensures Quad(a, b, c, d) == Turns(x[..], 20, q)
  {
    hide Operation, F, G, H, I, Turns;
    FourTurns(x[..], 16, q, Quad(a0, b0, c0, d0));
    a, b, c, d := a0, b0, c0, d0;
    a := Round2(a, b, c, d, x[1], 5, 0xF61E_2562);
    d := Round2(d, a, b, c, x[6], 9, 0xC040_B340);
    c := Round2(c, d, a, b, x[11], 14, 0x265E_5A51);
    b := Round2(b, c, d, a, x[0], 20, 0xE9B6_C7AA);
  }

  /** Operations 21 to 24. */
  method Group6(x: array<bv32>, a0: bv32, b0: bv32, c0: bv32, d0: bv32, ghost q: Quad)
      returns (a: bv32, b: bv32, c: bv32, d: bv32)
    requires x.Length == 16 && Quad(a0, b0, c0, d0) == Turns(x[..], 20, q)
    ensures Quad(a, b, c, d) == Turns(x[..], 24, q)
  {
    hide Operation, F, G, H, I, Turns;
    FourTurns(x[..], 20, q, Quad(a0, b0, c0, d0));
    a, b, c, d := a0, b0, c0, d0;
    a := Round2(a, b, c, d, x[5], 5, 0xD62F_105D);
    d := Round2(d, a, b, c, x[10], 9, 0x0244_1453);
    c := Round2(c, d, a, b, x[15], 14, 0xD8A1_E681);
    b := Round2(b, c, d, a, x[4], 20, 0xE7D3_FBC8);
  }

  /** Operations 25 to 28. */
  method Group7(x: array<bv32>, a0: bv32, b0: bv32, c0: bv32, d0: bv32, ghost q: Quad)
      returns (a: bv32, b: bv32, c: bv32, d: bv32)
    requires x.Length == 16 && Quad(a0, b0, c0, d0) == Turns(x[..], 24, q)
    ensures Quad(a, b, c, d) == Turns(x[..], 28, q)
  {
    hide Operation, F, G, H, I, Turns;
    FourTurns(x[..], 24, q, Quad(a0, b0, c0, d0));
    a, b, c, d := a0, b0, c0, d0;
    a := Round2(a, b, c, d, x[9], 5, 0x21E1_CDE6);
    d := Round2(d, a, b, c, x[14], 9, 0xC337_07D6);
    c := Round2(c, d, a, b, x[3], 14, 0xF4D5_0D87);
    b := Round2(b, c, d, a, x[8], 20, 0x455A_14ED);
  }

  /** Operations 29 to 32. */
  method Group8(x: array<bv32>, a0: bv32, b0: bv32, c0: bv32, d0: bv32, ghost q: Quad)
      returns (a: bv32, b: bv32, c: bv32, d: bv32)
    requires x.Length == 16 && Quad(a0, b0, c0, d0) == Turns(x[..], 28, q)
    ensures Quad(a, b, c, d) == Turns(x[..], 32, q)
  {
    hide Operation, F, G, H, I, Turns;
    FourTurns(x[..], 28, q, Quad(a0, b0, c0, d0));
    a, b, c, d := a0, b0, c0, d0;
    a := Round2(a, b, c, d, x[13], 5, 0xA9E3_E905);
    d := Round2(d, a, b, c, x[2], 9, 0xFCEF_A3F8);
    c := Round2(c, d, a, b, x[7], 14, 0x676F_02D9);
    b := Round2(b, c, d, a, x[12], 20, 0x8D2A_4C8A);
  }

  /** Operations 33 to 36. */
  method Group9(x: array<bv32>, a0: bv32, b0: bv32, c0: bv32, d0: bv32, ghost q: Quad)
      returns (a: bv32, b: bv32, c: bv32, d: bv32)
    requires x.Length == 16 && Quad(a0, b0, c0, d0) == Turns(x[..], 32, q)
    ensures Quad(a, b, c, d) == Turns(x[..], 36, q)
  {
    hide Operation, F, G, H, I, Turns;
    FourTurns(x[..], 32, q, Quad(a0, b0, c0, d0));
    a, b, c, d := a0, b0, c0, d0;
    a := Round3(a, b, c, d, x[5], 4, 0xFFFA_3942);
    d := Round3(d, a, b, c, x[8], 11, 0x8771_F681);
    c := Round3(c, d, a, b, x[11], 16, 0x6D9D_6122);
    b := Round3(b, c, d, a, x[14], 23, 0xFDE5_380C);
  }

  /** Operations 37 to 40. */
  method Group10(x: array<bv32>, a0: bv32, b0: bv32, c0: bv32, d0: bv32, ghost q: Quad)
      returns (a: bv32, b: bv32, c: bv32, d: bv32)
    requires x.Length == 16 && Quad(a0, b0, c0, d0) == Turns(x[..], 36, q)
    ensures Quad(a, b, c, d) == Turns(x[..], 40, q)
  {
    hide Operation, F, G, H, I, Turns;
    FourTurns(x[..], 36, q, Quad(a0, b0, c0, d0));
    a, b, c, d := a0, b0, c0, d0;
    a := Round3(a, b, c, d, x[1], 4, 0xA4BE_EA44);
    d := Round3(d, a, b, c, x[4], 11, 0x4BDE_CFA9);
    c := Round3(c, d, a, b, x[7], 16, 0xF6BB_4B60);
    b := Round3(b, c, d, a, x[10], 23, 0xBEBF_BC70);
  }

  /** Operations 41 to 44. */
  method Group11(x: array<bv32>, a0: bv32, b0: bv32, c0: bv32, d0: bv32, ghost q: Quad)
      returns (a: bv32, b: bv32, c: bv32, d: bv32)
    requires x.Length == 16 && Quad(a0, b0, c0, d0) == Turns(x[..], 40, q)
    ensures Quad(a, b, c, d) == Turns(x[..], 44, q)
  {
    hide Operation, F, G, H, I, Turns;
    FourTurns(x[..], 40, q, Quad(a0, b0, c0, d0));
    a, b, c, d := a0, b0, c0, d0;
    a := Round3(a, b, c, d, x[13], 4, 0x289B_7EC6);
    d := Round3(d, a, b, c, x[0], 11, 0xEAA1_27FA);
    c := Round3(c, d, a, b, x[3], 16, 0xD4EF_3085);
    b := Round3(b, c, d, a, x[6], 23, 0x0488_1D05);
  }

  /** Operations 45 to 48. */
  method Group12(x: array<bv32>, a0: bv32, b0: bv32, c0: bv32, d0: bv32, ghost q: Quad)
      returns (a: bv32, b: bv32, c: bv32, d: bv32)
    requires x.Length == 16 && Quad(a0, b0, c0, d0) == Turns(x[..], 44, q)
    ensures Quad(a, b, c, d) == Turns(x[..], 48, q)
  {
    hide Operation, F, G, H, I, Turns;
    FourTurns(x[..], 44, q, Quad(a0, b0, c0, d0));
    a, b, c, d := a0, b0, c0, d0;
    a := Round3(a, b, c, d, x[9], 4, 0xD9D4_D039);
    d := Round3(d, a, b, c, x[12], 11, 0xE6DB_99E5);
    c := Round3(c, d, a, b, x[15], 16, 0x1FA2_7CF8);
    b := Round3(b, c, d, a, x[2], 23, 0xC4AC_5665);
  }

  /** Operations 49 to 52. */
  method Group13(x: array<bv32>, a0: bv32, b0: bv32, c0: bv32, d0: bv32, ghost q: Quad)
      returns (a: bv32, b: bv32, c: bv32, d: bv32)
    requires x.Length == 16 && Quad(a0, b0, c0, d0) == Turns(x[..], 48, q)
    ensures Quad(a, b, c, d) == Turns(x[..], 52, q)
  {
    hide Operation, F, G, H, I, Turns;
    FourTurns(x[..], 48, q, Quad(a0, b0, c0, d0));
    a, b, c, d := a0, b0, c0, d0;
    a := Round4(a, b, c, d, x[0], 6, 0xF429_2244);
    d := Round4(d, a, b, c, x[7], 10, 0x432A_FF97);
    c := Round4(c, d, a, b, x[14], 15, 0xAB94_23A7);
    b := Round4(b, c, d, a, x[5], 21, 0xFC93_A039);
  }

  /** Operations 53 to 56. */
  method Group14(x: array<bv32>, a0: bv32, b0: bv32, c0: bv32, d0: bv32, ghost q: Quad)
      returns (a: bv32, b: bv32, c: bv32, d: bv32)
    requires x.Length == 16 && Quad(a0, b0, c0, d0) == Turns(x[..], 52, q)
    ensures Quad(a, b, c, d) == Turns(x[..], 56, q)
  {
    hide Operation, F, G, H, I, Turns;
    FourTurns(x[..], 52, q, Quad(a0, b0, c0, d0));
    a, b, c, d := a0, b0, c0, d0;
    a := Round4(a, b, c, d, x[12], 6, 0x655B_59C3);
    d := Round4(d, a, b, c, x[3], 10, 0x8F0C_CC92);
    c := Round4(c, d, a, b, x[10], 15, 0xFFEF_F47D);
    b := Round4(b, c, d, a, x[1], 21, 0x8584_5DD1);
  }

  /** Operations 57 to 60. */
  method Group15(x: array<bv32>, a0: bv32, b0: bv32, c0: bv32, d0: bv32, ghost q: Quad)
      returns (a: bv32, b: bv32, c: bv32, d: bv32)
    requires x.Length == 16 && Quad(a0, b0, c0, d0) == Turns(x[..], 56, q)
    ensures Quad(a, b, c, d) == Turns(x[..], 60, q)
  {
    hide Operation, F, G, H, I, Turns;
    FourTurns(x[..], 56, q, Quad(a0, b0, c0, d0));
    a, b, c, d := a0, b0, c0, d0;
    a := Round4(a, b, c, d, x[8], 6, 0x6FA8_7E4F);
    d := Round4(d, a, b, c, x[15], 10, 0xFE2C_E6E0);
    c := Round4(c, d, a, b, x[6], 15, 0xA301_4314);
    b := Round4(b, c, d, a, x[13], 21, 0x4E08_11A1);
  }

  /** Operations 61 to 64. */
  method Group16(x: array<bv32>, a0: bv32, b0: bv32, c0: bv32, d0: bv32, ghost q: Quad)
      returns (a: bv32, b: bv32, c: bv32, d: bv32)
    requires x.Length == 16 && Quad(a0, b0, c0, d0) == Turns(x[..], 60, q)
    ensures Quad(a, b, c, d) == Turns(x[..], 64, q)
  {
    hide Operation, F, G, H, I, Turns;
    FourTurns(x[..], 60, q, Quad(a0, b0, c0, d0));
    a, b, c, d := a0, b0, c0, d0;
    a := Round4(a, b, c, d, x[4], 6, 0xF753_7E82);
    d := Round4(d, a, b, c, x[11], 10, 0xBD3A_F235);
    c := Round4(c, d, a, b, x[2], 15, 0x2AD7_D2BB);
    b := Round4(b, c, d, a, x[9], 21, 0xEB86_D391);
  }

  // ----- the context -----

  /** The context when the message `s` has been appended: whole blocks hashed, the rest in the block
      buffer, zeros after it. */
  datatype Context = Context(hash: Quad, block: seq<bv8>, blockLen: nat, messageLen: nat)

  predicate Represents(c: Context, s: seq<bv8>) {
    Holds(c.hash, c.block, c.blockLen, s) && c.messageLen == |s| % TWO_64
  }

  /** The part of it that does not count the message. */
  predicate Holds(hash: Quad, block: seq<bv8>, blockLen: nat, s: seq<bv8>) {
    var k := |s| / 64;
    hash == Chained(s, k) && blockLen == |s| % 64 && block == s[64 * k..] + Zeros(64 - |s| % 64)
  }

  lemma {:induction false} ChainedPrefix(s: seq<bv8>, t: seq<bv8>, n: nat)
    requires 64 * n <= |s| <= |t| && s == t[..|s|]
    ensures Chained(s, n) == Chained(t, n)
  {
    hide HashBlock;
    if n > 0 {
      ChainedPrefix(s, t, n - 1);
      assert s[64 * (n - 1)..64 * n] == t[64 * (n - 1)..64 * n];
    }
  }

  lemma SixtyFours(k: nat, r: nat)
    requires r < 64
    ensures (64 * k + r) / 64 == k && (64 * k + r) % 64 == r
  {
  }

  lemma ChainedStep(s: seq<bv8>, n: nat)
    requires 64 * n + 64 <= |s|
    ensures Chained(s, n + 1) == HashBlock(Chained(s, n), s[64 * n..64 * n + 64])
  {
    hide HashBlock;
  }

  class Md5Ctx {
    const HashValue: array<bv32>
    const Block: array<bv8>
    var BlockLen: nat
    var MessageLen: nat

    constructor ()
      ensures Valid() && fresh(HashValue) && fresh(Block)
    {
      HashValue, Block := new bv32[4], new bv8[64];
      BlockLen, MessageLen := 0, 0;
    }

    ghost predicate Valid()
      reads this
    {
      HashValue.Length == 4 && Block.Length == 64 && BlockLen <= 64 && MessageLen < TWO_64
    }

    ghost function Hash(): Quad
      requires HashValue.Length == 4
      reads HashValue
    {
      Quad(HashValue[0], HashValue[1], HashValue[2], HashValue[3])
    }

    ghost function Value(): Context
      requires Valid()
      reads this, HashValue, Block
    {
      Context(Hash(), Block[..], BlockLen, MessageLen)
    }

    /** `MD5_Init`. */
    method Init()
      requires Valid()
      modifies this, HashValue, Block
      ensures Valid() && Represents(Value(), [])
    {
      HashValue[0], HashValue[1], HashValue[2], HashValue[3] := 0x6745_2301, 0xEFCD_AB89, 0x98BA_DCFE, 0x1032_5476;
      Zero(Block, 0, 64);
      BlockLen := 0;
      MessageLen := 0;
      assert Block[..] == [] + Zeros(64);
    }

    /** The message schedule. */
    method Schedule() returns (x: array<bv32>)
      requires Block.Length == 64
      ensures fresh(x) && x.Length == 16 && x[..] == Words(Block[..])
    {
      hide Pack;
      x := new bv32[16];
      for i := 0 to 16
        invariant forall j | 0 <= j < i :: x[j] == Pack(Block[4 * j + 3], Block[4 * j + 2], Block[4 * j + 1],
            Block[4 * j])
      {
        x[i] := Pack(Block[4 * i + 3], Block[4 * i + 2], Block[4 * i + 1], Block[4 * i]);
      }
    }

    /** `MD5_Hash`: the four rounds, and an empty block. */
    method HashBlockBuffer()
      requires Valid()
      modifies this`BlockLen, HashValue, Block
      ensures Valid() && Hash() == HashBlock(old(Hash()), old(Block[..])) && Block[..] == Zeros(64) && BlockLen == 0
    {
      hide Turns, Add, Words;
      var x := Schedule();
      ghost var h := Hash();
      var a, b, c, d := HashValue[0], HashValue[1], HashValue[2], HashValue[3];
      NoTurns(x[..], h);
      a, b, c, d := Rounds(x, a, b, c, d, h);
      HashValue[0], HashValue[1] := Add(HashValue[0], a), Add(HashValue[1], b);
      HashValue[2], HashValue[3] := Add(HashValue[2], c), Add(HashValue[3], d);
      Zero(Block, 0, 64);
      assert Block[..] == Zeros(64);
      BlockLen := 0;
    }

    /** `n` message bytes into the block buffer, which they do not overrun. */
    method Fill(message: array<bv8>, at: nat, n: nat)
      requires Valid() && at + n <= message.Length && BlockLen + n <= 64 && message != Block
      modifies this`BlockLen, Block
      ensures Valid() && BlockLen == old(BlockLen) + n
      ensures Block[..] == old(Block[..BlockLen]) + message[..][at..at + n] + old(Block[BlockLen + n..])
    {
      Move(Block, BlockLen, message, at, n);
      BlockLen := BlockLen + n;
    }

    /** A round of the loop of `MD5_Append` that does not fill the block. */
    method AppendSome(message: array<bv8>, at: nat, n: nat, ghost s: seq<bv8>)
      requires Valid() && at + n <= message.Length && BlockLen + n < 64 && message != Block
               && Holds(Hash(), Block[..], BlockLen, s)
      modifies this`BlockLen, Block
      ensures Valid() && Holds(Hash(), Block[..], BlockLen, s + message[..][at..at + n])
    {
      hide Holds;
      SomeAppended(Hash(), Block[..], BlockLen, s, message[..][at..at + n]);
      Fill(message, at, n);
    }

    /** A round that does, with the hash at its end. */
    method AppendFilling(message: array<bv8>, at: nat, n: nat, ghost s: seq<bv8>)
      requires Valid() && at + n <= message.Length && BlockLen + n == 64 && message != Block
               && Holds(Hash(), Block[..], BlockLen, s)
      modifies this`BlockLen, HashValue, Block
      ensures Valid() && Holds(Hash(), Block[..], BlockLen, s + message[..][at..at + n])
    {
      hide Holds, HashBlock, Zeros;
      FillingAppended(Hash(), Block[..], BlockLen, s, message[..][at..at + n]);
      Fill(message, at, n);
      HashBlockBuffer();
    }

    /** `MD5_Append`. */
    method Append(message: array<bv8>, messageLen: nat, ghost s: seq<bv8>)
      requires Valid() && messageLen <= message.Length && messageLen < 0xFFFF_FFC0 && message != Block
               && Represents(Value(), s)
      modifies this, HashValue, Block
      ensures Valid() && Represents(Value(), s + message[..messageLen])
    {
      hide Holds;
      var appendLen := 0;
      assert s + message[..0] == s;
      while appendLen != messageLen
        invariant Valid() && appendLen <= messageLen
        invariant Holds(Hash(), Block[..], BlockLen, s + message[..appendLen])
        modifies this`BlockLen, HashValue, Block
        decreases messageLen - appendLen
      {
        ghost var done := s + message[..appendLen];
        NotFull(Hash(), Block[..], BlockLen, done);
        var diffLen := messageLen - appendLen;
        if BlockLen + diffLen < 64 {
          AppendSome(message, appendLen, diffLen, done);
        } else {
          diffLen := 64 - BlockLen;
          AppendFilling(message, appendLen, diffLen, done);
        }
        assert done + message[..][appendLen..appendLen + diffLen] == s + message[..appendLen + diffLen];
        appendLen := appendLen + diffLen;
      }
      CountAppended(s, message[..messageLen]);
      MessageLen := (MessageLen + messageLen) % TWO_64;
    }

    /** The bit 1, and a first block if the length does not fit behind it. */
    method PutBitOne(ghost s: seq<bv8>)
      requires Valid() && Represents(Value(), s)
      modifies this`BlockLen, HashValue, Block
      ensures Valid()
      ensures var tail := s[64 * (|s| / 64)..];
              if |tail| <= 55 then
                && Hash() == Chained(s, |s| / 64)
                && Block[..56] == tail + [0x80] + Zeros(55 - |tail|)
              else
                && Hash() == HashBlock(Chained(s, |s| / 64), tail + [0x80] + Zeros(63 - |tail|))
                && Block[..56] == Zeros(56)
    {
      hide Chained, HashBlock;
      ghost var tail := s[64 * (|s| / 64)..];
      Block[BlockLen] := 0x80;
      assert Block[..] == tail + [0x80] + Zeros(63 - |tail|);
      if BlockLen > 55 {
        HashBlockBuffer();
      }
    }

    /** `MD5_End`. */
    method End(digest: array<bv8>, ghost s: seq<bv8>)
      requires Valid() && digest.Length >= 16 && digest != Block && Represents(Value(), s)
      modifies this, HashValue, Block, digest
      ensures digest[..16] == Digest(s) && digest[16..] == old(digest[16..])
    {
      hide Chained, HashBlock, Le64, QuadBytes, Zeros, Digest;
      PutBitOne(s);
      BitLength(|s|);
      assert MessageLen == |s| % TWO_64;
      var messageLengthBits := MessageLen * 8 % TWO_64;
      PutLength(messageLengthBits);
      HashBlockBuffer();
      Finished(s, Chained(s, |s| / 64), s[64 * (|s| / 64)..]);
      PutDigest(digest);
    }

    /** The length in the last eight bytes of the block. */
    method PutLength(n: nat)
      requires Block.Length == 64
      modifies Block
      ensures Block[..] == old(Block[..56]) + Le64(n)
    {
      hide Le64;
      var bits := LengthInMemory(n);
      Move(Block, 56, bits, 0, 8);
      assert Block[..56] == old(Block[..56]) && Block[56..] == bits[..];
    }

    method LengthInMemory(n: nat) returns (bits: array<bv8>)
      ensures fresh(bits) && bits.Length == 8 && bits[..] == Le64(n)
    {
      hide ToByte;
      bits := new bv8[8];
      bits[0], bits[1], bits[2], bits[3] := ToByte(n), ToByte(n / 0x100), ToByte(n / 0x1_0000), ToByte(n / 0x100_0000);
      bits[4], bits[5] := ToByte(n / 0x1_0000_0000), ToByte(n / 0x100_0000_0000);
      bits[6], bits[7] := ToByte(n / 0x1_0000_0000_0000), ToByte(n / 0x100_0000_0000_0000);
    }

    /** The hash value, least significant bytes first. */
    method PutDigest(digest: array<bv8>)
      requires HashValue.Length == 4 && digest.Length >= 16
      modifies digest
      ensures digest[..16] == QuadBytes(Hash()) && digest[16..] == old(digest[16..])
    {
      hide B0, B1, B2, B3;
      PutHashWord(digest, 0);
      PutHashWord(digest, 1);
      PutHashWord(digest, 2);
      PutHashWord(digest, 3);
    }

    method PutHashWord(digest: array<bv8>, i: nat)
      requires HashValue.Length == 4 && i < 4 && digest.Length >= 16
      modifies digest
      ensures var w := HashValue[i];
              digest[4 * i] == B0(w) && digest[4 * i + 1] == B1(w) && digest[4 * i + 2] == B2(w)
                && digest[4 * i + 3] == B3(w)
      ensures forall j | 0 <= j < digest.Length && !(4 * i <= j < 4 * i + 4) :: digest[j] == old(digest[j])
    {
      hide B0, B1, B2, B3;
      var w := HashValue[i];
      digest[4 * i], digest[4 * i + 1], digest[4 * i + 2], digest[4 * i + 3] := B0(w), B1(w), B2(w), B3(w);
    }
  }

  lemma NotFull(hash: Quad, block: seq<bv8>, blockLen: nat, s: seq<bv8>)
    requires Holds(hash, block, blockLen, s)
    ensures blockLen < 64 && |block| == 64
  {
    hide Chained;
  }

  lemma CountAppended(s: seq<bv8>, m: seq<bv8>)
    ensures (|s| % TWO_64 + |m|) % TWO_64 == |s + m| % TWO_64
  {
    assert |s| == |s| / TWO_64 * TWO_64 + |s| % TWO_64;
    Congruent(|s| + |m|, |s| % TWO_64 + |m|, |s| / TWO_64, TWO_64);
  }

  lemma BitLength(n: nat)
    ensures (n % TWO_64) * 8 % TWO_64 == 8 * n % TWO_64
  {
    var q := n / TWO_64;
    assert n == q * TWO_64 + n % TWO_64;
    Congruent(8 * n, (n % TWO_64) * 8, 8 * q, TWO_64);
  }

  lemma ZerosFrom(a: nat, n: nat)
    requires n <= a
    ensures Zeros(a)[n..] == Zeros(a - n)
  {
  }

  lemma SomeAppended(hash: Quad, block: seq<bv8>, blockLen: nat, s: seq<bv8>, m: seq<bv8>)
    requires Holds(hash, block, blockLen, s) && blockLen + |m| < 64
    ensures |block| == 64 && Holds(hash, block[..blockLen] + m + block[blockLen + |m|..], blockLen + |m|, s + m)
  {
    hide Chained, Zeros;
    var k, r, n := |s| / 64, |s| % 64, |m|;
    SixtyFours(k, r + n);
    assert (s + m)[..|s|] == s;
    ChainedPrefix(s, s + m, k);
    ZerosFrom(64 - r, n);
    assert (s + m)[64 * k..] == s[64 * k..] + m;
    assert block[..r] == s[64 * k..] && block[r + n..] == Zeros(64 - r)[n..];
  }

  lemma FillingAppended(hash: Quad, block: seq<bv8>, blockLen: nat, s: seq<bv8>, m: seq<bv8>)
    requires Holds(hash, block, blockLen, s) && blockLen + |m| == 64
    ensures |block| == 64
            && Holds(HashBlock(hash, block[..blockLen] + m + block[blockLen + |m|..]), Zeros(64), 0, s + m)
  {
    hide Chained, HashBlock, Zeros;
    var k, r := |s| / 64, |s| % 64;
    var t := s + m;
    SixtyFours(k + 1, 0);
    assert t[..|s|] == s;
    ChainedPrefix(s, t, k);
    ChainedStep(t, k);
    assert block[..r] == s[64 * k..] && block[64..] == [];
    assert t[64 * k..64 * k + 64] == s[64 * k..] + m == block[..r] + m + block[64..];
    assert t[64 * (k + 1)..] == [] && [] + Zeros(64) == Zeros(64);
  }

  /** One more block, when what is left of the message is known. */
  lemma ChainedTail(t: seq<bv8>, k: nat, u: seq<bv8>, v: seq<bv8>)
    requires 64 * k <= |t| && t[64 * k..] == u + v && |u| == 64
    ensures 64 * (k + 1) <= |t| && Chained(t, k + 1) == HashBlock(Chained(t, k), u) && t[64 * (k + 1)..] == v
  {
    hide Chained, HashBlock;
    var w := t[64 * k..];
    assert |w| == 64 + |v| && w[..64] == u && w[64..] == v;
    assert t[64 * k..64 * k + 64] == w[..64];
    assert t[64 * k + 64..] == w[64..];
    ChainedStep(t, k);
  }

  /** The last bytes hashed: what does not fill a block, the bit 1, the zeros and the length. */
  function LastBytes(tail: seq<bv8>, len: seq<bv8>): (u: seq<bv8>)
    requires |tail| < 64
  {
    tail + [0x80] + Zeros(if |tail| <= 55 then 55 - |tail| else 119 - |tail|) + len
  }

  lemma PaddedIs(s: seq<bv8>, k: nat, tail: seq<bv8>)
    requires 64 * k <= |s| && tail == s[64 * k..] && |tail| < 64
    ensures var zeros := if |tail| <= 55 then 55 - |tail| else 119 - |tail|;
            Padded(s) == s + ([0x80] + Zeros(zeros) + Le64(8 * |s| % TWO_64))
    ensures 64 * k <= |Padded(s)| && Padded(s)[64 * k..] == LastBytes(tail, Le64(8 * |s| % TWO_64))
  {
    hide Zeros, Le64;
    SixtyFours(k, |tail|);
    var pad := [0x80] + Zeros(PadZeros(|s|)) + Le64(8 * |s| % TWO_64);
    TailOfSum(s, pad, 64 * k);
  }

  lemma TailOfSum(s: seq<bv8>, pad: seq<bv8>, at: nat)
    requires at <= |s|
    ensures (s + pad)[at..] == s[at..] + pad
  {
  }

  lemma DigestIs(s: seq<bv8>, n: nat)
    requires |Padded(s)| == 64 * n
    ensures Digest(s) == QuadBytes(Chained(Padded(s), n))
  {
    hide Chained, QuadBytes, Padded;
    SixtyFours(n, 0);
  }

  /** The padded message: its whole blocks, then one block or two. */
  lemma FinishedAt(s: seq<bv8>, k: nat, tail: seq<bv8>, len: seq<bv8>)
    requires 64 * k <= |s| && tail == s[64 * k..] && |tail| < 64 && len == Le64(8 * |s| % TWO_64)
    ensures var h := Chained(s, k);
            Digest(s) == QuadBytes(
              if |tail| <= 55 then HashBlock(h, tail + [0x80] + Zeros(55 - |tail|) + len)
              else HashBlock(HashBlock(h, tail + [0x80] + Zeros(63 - |tail|)), Zeros(56) + len))
  {
    hide Chained, HashBlock, QuadBytes, Le64, Zeros, Padded, Digest;
    var t := Padded(s);
    PaddedIs(s, k, tail);
    assert t[..|s|] == s;
    ChainedPrefix(s, t, k);
    if |tail| <= 55 {
      var u := LastBytes(tail, len);
      assert u == u + [];
      ChainedTail(t, k, u, []);
      DigestIs(s, k + 1);
    } else {
      var u, v := tail + [0x80] + Zeros(63 - |tail|), Zeros(56) + len;
      ZerosSplit(63 - |tail|, 56);
      assert LastBytes(tail, len) == u + v;
      ChainedTail(t, k, u, v);
      assert v == v + [];
      ChainedTail(t, k + 1, v, []);
      DigestIs(s, k + 2);
    }
  }

  lemma Finished(s: seq<bv8>, h: Quad, tail: seq<bv8>)
    requires h == Chained(s, |s| / 64) && tail == s[64 * (|s| / 64)..]
    ensures var len := Le64(8 * |s| % TWO_64);
            Digest(s) == QuadBytes(
              if |tail| <= 55 then HashBlock(h, tail + [0x80] + Zeros(55 - |tail|) + len)
              else HashBlock(HashBlock(h, tail + [0x80] + Zeros(63 - |tail|)), Zeros(56) + len))
  {
    hide Chained, HashBlock, QuadBytes, Le64, Zeros, Digest;
    FinishedAt(s, |s| / 64, tail, Le64(8 * |s| % TWO_64));
  }

  lemma ZerosSplit(a: nat, b: nat)
    ensures Zeros(a + b) == Zeros(a) + Zeros(b)
  {
  }

  lemma NoTurns(x: seq<bv32>, q: Quad)
    requires |x| == 16
    ensures Turns(x, 0, q) == q
  {
  }

  /** The sixty-four operations. */
  method Rounds(x: array<bv32>, a0: bv32, b0: bv32, c0: bv32, d0: bv32, ghost q: Quad)
      returns (a: bv32, b: bv32, c: bv32, d: bv32)
    requires x.Length == 16 && Quad(a0, b0, c0, d0) == Turns(x[..], 0, q)
    ensures Quad(a, b, c, d) == Turns(x[..], 64, q)
  {
    hide Turns;
    a, b, c, d := Group1(x, a0, b0, c0, d0, q);
    a, b, c, d := Group2(x, a, b, c, d, q);
    a, b, c, d := Group3(x, a, b, c, d, q);
    a, b, c, d := Group4(x, a, b, c, d, q);
    a, b, c, d := Group5(x, a, b, c, d, q);
    a, b, c, d := Group6(x, a, b, c, d, q);
    a, b, c, d := Group7(x, a, b, c, d, q);
    a, b, c, d := Group8(x, a, b, c, d, q);
    a, b, c, d := Group9(x, a, b, c, d, q);
    a, b, c, d := Group10(x, a, b, c, d, q);
    a, b, c, d := Group11(x, a, b, c, d, q);
    a, b, c, d := Group12(x, a, b, c, d, q);
    a, b, c, d := Group13(x, a, b, c, d, q);
    a, b, c, d := Group14(x, a, b, c, d, q);
    a, b, c, d := Group15(x, a, b, c, d, q);
    a, b, c, d := Group16(x, a, b, c, d, q);
  }

  /** `RT_MD5`. */
  method RtMd5(message: array<bv8>, messageLen: nat, digest: array<bv8>)
    requires messageLen <= message.Length && messageLen < 0xFFFF_FFC0 && digest.Length >= 16 && message != digest
    modifies digest
    ensures digest[..16] == Digest(message[..messageLen]) && digest[16..] == old(digest[16..])
  {
    hide Represents, Digest;
    var ctx := new Md5Ctx();
    ctx.Init();
    ctx.Append(message, messageLen, []);
    assert [] + message[..messageLen] == message[..messageLen];
    ctx.End(digest, message[..messageLen]);
  }

  /** The pieces of a message end to end. */
  function Joined(pieces: seq<seq<bv8>>): seq<bv8> {
    if pieces == [] then [] else Joined(pieces[..|pieces| - 1]) + pieces[|pieces| - 1]
  }

  /** A message given to `MD5_Append` in pieces: the digest depends on the whole alone. */
  method InPieces(pieces: seq<array<bv8>>, digest: array<bv8>)
    requires digest.Length >= 16 && forall i | 0 <= i < |pieces| ::
             pieces[i].Length < 0xFFFF_FFC0 && pieces[i] != digest
    modifies digest
    ensures digest[..16] == Digest(Joined(Contents(pieces)))
  {
    hide Represents, Digest, Joined;
    var ctx := new Md5Ctx();
    ctx.Init();
    JoinedSteps([]);
    for i := 0 to |pieces|
      invariant ctx.Valid() && Represents(ctx.Value(), Joined(Contents(pieces[..i])))
      modifies ctx, ctx.HashValue, ctx.Block
    {
      JoinedSteps(Contents(pieces[..i + 1]));
      assert Contents(pieces[..i + 1])[..i] == Contents(pieces[..i]);
      assert pieces[i][..pieces[i].Length] == pieces[i][..];
      ctx.Append(pieces[i], pieces[i].Length, Joined(Contents(pieces[..i])));
    }
    assert pieces[..|pieces|] == pieces;
    ctx.End(digest, Joined(Contents(pieces)));
  }

  ghost function Contents(pieces: seq<array<bv8>>): (c: seq<seq<bv8>>)
    reads pieces
    ensures |c| == |pieces| && forall i | 0 <= i < |c| :: c[i] == pieces[i][..]
  {
    seq(|pieces|, i requires 0 <= i < |pieces| reads pieces => pieces[i][..])
  }

  lemma JoinedSteps(p: seq<seq<bv8>>)
    ensures Joined(p) == if p == [] then [] else Joined(p[..|p| - 1]) + p[|p| - 1]
  {
  }
}
