/** What is published about the CRC: its check value, and the constant that a message followed by its
    complemented CRC leaves (appendix C.3 of RFC 1662). */
module CrcKnown {
  import opened AesField
  import opened AesWords
  import opened Crc
  import opened Wep

  /** The ASCII digits 1 to 9. */
  function Digits(): seq<bv8> {
    [0x31, 0x32, 0x33, 0x34, 0x35, 0x36, 0x37, 0x38, 0x39]
  }

  lemma OneMore(s: seq<bv8>, b: bv8, c: bv32, d: bv32)
    requires CalcFcs(INITIAL_FCS, s) == c && TableByte(c, b) == d
    ensures CalcFcs(INITIAL_FCS, s + [b]) == d
  {
    hide TableByte;
    assert (s + [b])[..|s|] == s;
  }

  lemma Steps1()
    ensures TableByte(0xFFFF_FFFF, 0x31) == 0x7C23_1048
    ensures TableByte(0x7C23_1048, 0x32) == 0xB0AC_BB32
    ensures TableByte(0xB0AC_BB32, 0x33) == 0x77B7_9C2D
  {
  }

  lemma Steps2()
    ensures TableByte(0x77B7_9C2D, 0x34) == 0x641C_1F5C
    ensures TableByte(0x641C_1F5C, 0x35) == 0x340A_C5E3
    ensures TableByte(0x340A_C5E3, 0x36) == 0xF68D_2C9E
  {
  }

  lemma Steps3()
    ensures TableByte(0xF68D_2C9E, 0x37) == 0xAFFC_9660
    ensures TableByte(0xAFFC_9660, 0x38) == 0x651F_2550
    ensures TableByte(0x651F_2550, 0x39) == 0x340B_C6D9
  {
  }

  /** The check value of the CRC-32 is CBF43926. */
  lemma CheckValue()
    ensures Complement(CalcFcs(INITIAL_FCS, Digits())) == 0xCBF4_3926
  {
    hide CalcFcs, TableByte;
    var s: seq<bv8> := [];
    NothingYet();
    Steps1();
    Steps2();
    Steps3();
    OneMore(s, 0x31, 0xFFFF_FFFF, 0x7C23_1048);
    s := s + [0x31];
    OneMore(s, 0x32, 0x7C23_1048, 0xB0AC_BB32);
    s := s + [0x32];
    OneMore(s, 0x33, 0xB0AC_BB32, 0x77B7_9C2D);
    s := s + [0x33];
    OneMore(s, 0x34, 0x77B7_9C2D, 0x641C_1F5C);
    s := s + [0x34];
    OneMore(s, 0x35, 0x641C_1F5C, 0x340A_C5E3);
    s := s + [0x35];
    OneMore(s, 0x36, 0x340A_C5E3, 0xF68D_2C9E);
    s := s + [0x36];
    OneMore(s, 0x37, 0xF68D_2C9E, 0xAFFC_9660);
    s := s + [0x37];
    OneMore(s, 0x38, 0xAFFC_9660, 0x651F_2550);
    s := s + [0x38];
    OneMore(s, 0x39, 0x651F_2550, 0x340B_C6D9);
    s := s + [0x39];
    assert s == Digits();
  }

  lemma NothingYet()
    ensures CalcFcs(INITIAL_FCS, []) == 0xFFFF_FFFF
  {
  }

  /** A byte of the complement cancels what it meets of the CRC itself. */
  lemma Cancels(c: bv32, k: bv32, next: bv32)
    requires next == XorW(Shift8(k), FcsTable(Xor(B0(k), 0xFF)))
    ensures TableByte(XorW(c, k), Xor(B0(c), 0xFF)) == XorW(Shift8(c), next)
  {
    hide FcsTable;
    CancelsIndex(c, k);
    CancelsShift(c, k, FcsTable(Xor(B0(k), 0xFF)));
  }

  lemma CancelsIndex(c: bv32, k: bv32)
    ensures Xor(B0(XorW(c, k)), Xor(B0(c), 0xFF)) == Xor(B0(k), 0xFF)
  {
  }

  lemma CancelsShift(c: bv32, k: bv32, t: bv32)
    ensures XorW(Shift8(XorW(c, k)), t) == XorW(Shift8(c), XorW(Shift8(k), t))
  {
  }

  lemma ComplementBytes(c: bv32)
    ensures LeBytes(Complement(c)) == [Xor(B0(c), 0xFF), Xor(B0(Shift8(c)), 0xFF), Xor(B0(Shift8(Shift8(c))), 0xFF),
                                       Xor(B0(Shift8(Shift8(Shift8(c)))), 0xFF)]
    ensures Shift8(Shift8(Shift8(Shift8(c)))) == 0 && XorW(c, 0) == c
  {
  }

  /** Whatever the message, the CRC over it and over its complemented CRC, lowest byte first, is DEBB20E3. */
  lemma ResidueIs(m: seq<bv8>)
    ensures CalcFcs(INITIAL_FCS, m + LeBytes(Complement(CalcFcs(INITIAL_FCS, m)))) == 0xDEBB_20E3
  {
    hide CalcFcs, TableByte, LeBytes, Complement, Xor, B0, Shift8;
    var c := CalcFcs(INITIAL_FCS, m);
    ComplementBytes(c);
    var b := LeBytes(Complement(c));
    CalcConcat(INITIAL_FCS, m, b);
    FourBytesLeave(c, b);
  }

  /** What the receiver accepts leaves that constant. */
  lemma AcceptedLeavesResidue(p: seq<bv8>)
    requires |p| >= 4 && GoodFcs(p)
    ensures CalcFcs(INITIAL_FCS, p) == 0xDEBB_20E3
  {
    hide CalcFcs, Complement, LeBytes, LeWord;
    var m, b := p[..|p| - 4], p[|p| - 4..];
    LeRoundTrip(LeWord(b));
    LeInjective(LeBytes(LeWord(b)), b);
    ResidueIs(m);
    assert p == m + b;
  }

  lemma FourBytesLeave(c: bv32, b: seq<bv8>)
    requires |b| == 4 && b[0] == Xor(B0(c), 0xFF) && b[1] == Xor(B0(Shift8(c)), 0xFF)
    requires b[2] == Xor(B0(Shift8(Shift8(c))), 0xFF) && b[3] == Xor(B0(Shift8(Shift8(Shift8(c)))), 0xFF)
    ensures CalcFcs(c, b) == 0xDEBB_20E3
  {
    hide TableByte;
    EarlyConstants();
    LateConstants();
    hide FcsTable, Xor, B0, Shift8, XorW, CalcFcs;
    ComplementBytes(c);
    var c1 := Shift8(c);
    var c2 := Shift8(c1);
    var c3 := Shift8(c2);
    Cancels(c, 0x0000_0000, 0x2D02_EF8D);
    Cancels(c1, 0x2D02_EF8D, 0xBE26_12FF);
    Cancels(c2, 0xBE26_12FF, 0x00BE_2612);
    Cancels(c3, 0x00BE_2612, 0xDEBB_20E3);
    FourBytes(c, b);
    ZeroSum(0xDEBB_20E3);
  }

  lemma ZeroSum(k: bv32)
    ensures XorW(0, k) == k
  {
  }

  lemma FourBytes(c: bv32, b: seq<bv8>)
    requires |b| == 4
    ensures CalcFcs(c, b) == TableByte(TableByte(TableByte(TableByte(c, b[0]), b[1]), b[2]), b[3])
  {
    hide TableByte;
    assert b[..3][..2] == b[..2] && b[..2][..1] == b[..1] && b[..1][..0] == [];
    assert CalcFcs(c, b[..1]) == TableByte(c, b[0]);
    assert CalcFcs(c, b[..2]) == TableByte(CalcFcs(c, b[..1]), b[1]);
    assert CalcFcs(c, b[..3]) == TableByte(CalcFcs(c, b[..2]), b[2]);
  }

  lemma EarlyConstants()
    ensures XorW(Shift8(0x0000_0000), FcsTable(Xor(B0(0x0000_0000), 0xFF))) == 0x2D02_EF8D
    ensures XorW(Shift8(0x2D02_EF8D), FcsTable(Xor(B0(0x2D02_EF8D), 0xFF))) == 0xBE26_12FF
  {
  }

  lemma LateConstants()
    ensures XorW(Shift8(0xBE26_12FF), FcsTable(Xor(B0(0xBE26_12FF), 0xFF))) == 0x00BE_2612
    ensures XorW(Shift8(0x00BE_2612), FcsTable(Xor(B0(0x00BE_2612), 0xFF))) == 0xDEBB_20E3
  {
  }
}
