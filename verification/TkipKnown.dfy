/** The first published example of TKIP key mixing (annex H.6.2 of IEEE 802.11i-2004), and the second byte of
    the RC4 key. */
module TkipKnown {
  import opened AesField
  import opened AesWords
  import opened TkipSbox
  import opened TkipMix

  /** The byte between those of the counter is the upper one with bit 5 set and bit 7 clear. */
  lemma GuardBits(b: bv8)
    ensures Guard(b) & 0x20 == 0x20 && Guard(b) < 0x80 && Guard(b) | 0x20 | 0x80 == b | 0x20 | 0x80
  {
  }

  /** The key 00 01 ... 0F. */
  function Key(): (key: seq<bv8>)
    ensures |key| == 16
  {
    [0x00, 0x01, 0x02, 0x03, 0x04, 0x05, 0x06, 0x07, 0x08, 0x09, 0x0A, 0x0B, 0x0C, 0x0D, 0x0E, 0x0F]
  }

  function Address(): (ta: seq<bv8>)
    ensures |ta| == 6
  {
    [0x10, 0x22, 0x33, 0x44, 0x55, 0x66]
  }

  /** One mixing step, with the two bytes that go through the S-box. */
  lemma Mix(x: bv16, y: bv16, k: bv16, hi: bv8, lo: bv8, z: bv16)
    requires Xor16(y, k) == Mk16(hi, lo)
    requires z == Add16(x, Xor16(Mk16(Upper(lo), Lower(lo)), Mk16(Lower(hi), Upper(hi))))
    ensures Add16(x, Sbox16(Xor16(y, k))) == z
  {
    hide Upper, Lower, Lo8, Hi8, Mk16, Add16, Xor16;
    Halves(hi, lo);
  }

  lemma Halves(hi: bv8, lo: bv8)
    ensures Lo8(Mk16(hi, lo)) == lo && Hi8(Mk16(hi, lo)) == hi
  {
  }

  lemma KeyWords()
    ensures Tk(Key(), 0) == 0x0100 && Tk(Key(), 1) == 0x0302 && Tk(Key(), 2) == 0x0504 && Tk(Key(), 3) == 0x0706
    ensures Tk(Key(), 4) == 0x0908 && Tk(Key(), 5) == 0x0B0A && Tk(Key(), 6) == 0x0D0C && Tk(Key(), 7) == 0x0F0E
  {
  }

  lemma RoundKnown0()
    ensures Round1(Key(), Ttak(0x0000, 0x0000, 0x2210, 0x4433, 0x6655), 0)
            == Ttak(0x770E, 0x0E29, 0xD79D, 0x2469, 0x0EC3)
  {
    hide Sbox16, Tk;
    KeyWords();
    Mix(0x0000, 0x6655, 0x0100, 0x67, 0x55, 0x770E);
    Mix(0x0000, 0x770E, 0x0504, 0x72, 0x0A, 0x0E29);
    Mix(0x2210, 0x0E29, 0x0908, 0x07, 0x21, 0xD79D);
    Mix(0x4433, 0xD79D, 0x0D0C, 0xDA, 0x91, 0x2469);
    Mix(0x6655, 0x2469, 0x0100, 0x25, 0x69, 0x0EC3);
  }

  lemma RoundKnown1()
    ensures Round1(Key(), Ttak(0x770E, 0x0E29, 0xD79D, 0x2469, 0x0EC3), 1)
            == Ttak(0x094B, 0x499C, 0x2790, 0x6EDE, 0x62AD)
  {
    hide Sbox16, Tk;
    KeyWords();
    Mix(0x770E, 0x0EC3, 0x0302, 0x0D, 0xC1, 0x094B);
    Mix(0x0E29, 0x094B, 0x0706, 0x0E, 0x4D, 0x499C);
    Mix(0xD79D, 0x499C, 0x0B0A, 0x42, 0x96, 0x2790);
    Mix(0x2469, 0x2790, 0x0F0E, 0x28, 0x9E, 0x6EDE);
    Mix(0x0EC3, 0x6EDE, 0x0302, 0x6D, 0xDC, 0x62AC);
  }

  lemma RoundKnown2()
    ensures Round1(Key(), Ttak(0x094B, 0x499C, 0x2790, 0x6EDE, 0x62AD), 2)
            == Ttak(0x3094, 0xAB33, 0xB8D9, 0xD192, 0x70E0)
  {
    hide Sbox16, Tk;
    KeyWords();
    Mix(0x094B, 0x62AD, 0x0100, 0x63, 0xAD, 0x3094);
    Mix(0x499C, 0x3094, 0x0504, 0x35, 0x90, 0xAB33);
    Mix(0x2790, 0xAB33, 0x0908, 0xA2, 0x3B, 0xB8D9);
    Mix(0x6EDE, 0xB8D9, 0x0D0C, 0xB5, 0xD5, 0xD192);
    Mix(0x62AD, 0xD192, 0x0100, 0xD0, 0x92, 0x70DE);
  }

  lemma RoundKnown3()
    ensures Round1(Key(), Ttak(0x3094, 0xAB33, 0xB8D9, 0xD192, 0x70E0), 3)
            == Ttak(0xD24A, 0x02B0, 0xA8DE, 0xD5BA, 0x4A26)
  {
    hide Sbox16, Tk;
    KeyWords();
    Mix(0x3094, 0x70E0, 0x0302, 0x73, 0xE2, 0xD24A);
    Mix(0xAB33, 0xD24A, 0x0706, 0xD5, 0x4C, 0x02B0);
    Mix(0xB8D9, 0x02B0, 0x0B0A, 0x09, 0xBA, 0xA8DE);
    Mix(0xD192, 0xA8DE, 0x0F0E, 0xA7, 0xD0, 0xD5BA);
    Mix(0x70E0, 0xD5BA, 0x0302, 0xD6, 0xB8, 0x4A23);
  }

  lemma RoundKnown4()
    ensures Round1(Key(), Ttak(0xD24A, 0x02B0, 0xA8DE, 0xD5BA, 0x4A26), 4)
            == Ttak(0x0DC9, 0x346C, 0x9869, 0xBA3D, 0xB5D0)
  {
    hide Sbox16, Tk;
    KeyWords();
    Mix(0xD24A, 0x4A26, 0x0100, 0x4B, 0x26, 0x0DC9);
    Mix(0x02B0, 0x0DC9, 0x0504, 0x08, 0xCD, 0x346C);
    Mix(0xA8DE, 0x346C, 0x0908, 0x3D, 0x64, 0x9869);
    Mix(0xD5BA, 0x9869, 0x0D0C, 0x95, 0x65, 0xBA3D);
    Mix(0x4A26, 0xBA3D, 0x0100, 0xBB, 0x3D, 0xB5CC);
  }

  lemma RoundKnown5()
    ensures Round1(Key(), Ttak(0x0DC9, 0x346C, 0x9869, 0xBA3D, 0xB5D0), 5)
            == Ttak(0xB121, 0x863F, 0x6884, 0x22D0, 0x22FA)
  {
    hide Sbox16, Tk;
    KeyWords();
    Mix(0x0DC9, 0xB5D0, 0x0302, 0xB6, 0xD2, 0xB121);
    Mix(0x346C, 0xB121, 0x0706, 0xB6, 0x27, 0x863F);
    Mix(0x9869, 0x863F, 0x0B0A, 0x8D, 0x35, 0x6884);
    Mix(0xBA3D, 0x6884, 0x0F0E, 0x67, 0x8A, 0x22D0);
    Mix(0xB5D0, 0x22D0, 0x0302, 0x21, 0xD2, 0x22F5);
  }

  lemma RoundKnown6()
    ensures Round1(Key(), Ttak(0xB121, 0x863F, 0x6884, 0x22D0, 0x22FA), 6)
            == Ttak(0xE15C, 0xF5AB, 0x47E9, 0xEB97, 0xBC96)
  {
    hide Sbox16, Tk;
    KeyWords();
    Mix(0xB121, 0x22FA, 0x0100, 0x23, 0xFA, 0xE15C);
    Mix(0x863F, 0xE15C, 0x0504, 0xE4, 0x58, 0xF5AB);
    Mix(0x6884, 0xF5AB, 0x0908, 0xFC, 0xA3, 0x47E9);
    Mix(0x22D0, 0x47E9, 0x0D0C, 0x4A, 0xE5, 0xEB97);
    Mix(0x22FA, 0xEB97, 0x0100, 0xEA, 0x97, 0xBC90);
  }

  lemma RoundKnown7()
    ensures Round1(Key(), Ttak(0xE15C, 0xF5AB, 0x47E9, 0xEB97, 0xBC96), 7)
            == Ttak(0x3DD2, 0x016E, 0x76F4, 0x8697, 0xB2E8)
  {
    hide Sbox16, Tk;
    KeyWords();
    Mix(0xE15C, 0xBC96, 0x0302, 0xBF, 0x94, 0x3DD2);
    Mix(0xF5AB, 0x3DD2, 0x0706, 0x3A, 0xD4, 0x016E);
    Mix(0x47E9, 0x016E, 0x0B0A, 0x0A, 0x64, 0x76F4);
    Mix(0xEB97, 0x76F4, 0x0F0E, 0x79, 0xFA, 0x8697);
    Mix(0xBC96, 0x8697, 0x0302, 0x85, 0x95, 0xB2E1);
  }

  lemma Phase1Known()
    ensures Phase1(Key(), Address(), 0, 8) == Ttak(0x3DD2, 0x016E, 0x76F4, 0x8697, 0xB2E8)
  {
    hide Round1;
    RoundKnown0();
    RoundKnown1();
    RoundKnown2();
    RoundKnown3();
    RoundKnown4();
    RoundKnown5();
    RoundKnown6();
    RoundKnown7();
    assert Phase1(Key(), Address(), 0, 0) == Ttak(0x0000, 0x0000, 0x2210, 0x4433, 0x6655);
    assert Phase1(Key(), Address(), 0, 2) == Ttak(0x094B, 0x499C, 0x2790, 0x6EDE, 0x62AD);
    assert Phase1(Key(), Address(), 0, 4) == Ttak(0xD24A, 0x02B0, 0xA8DE, 0xD5BA, 0x4A26);
    assert Phase1(Key(), Address(), 0, 6) == Ttak(0xB121, 0x863F, 0x6884, 0x22D0, 0x22FA);
  }

  lemma Phase2AKnown()
    ensures Phase2A(Key(), Ttak(0x3DD2, 0x016E, 0x76F4, 0x8697, 0xB2E8), 0)
            == Ppk(0xD83E, 0x1EBD, 0xBDB3, 0x3D2E, 0x901A, 0x6655)
  {
    hide Sbox16, Tk;
    KeyWords();
    Mix(0x3DD2, 0xB2E8, 0x0100, 0xB3, 0xE8, 0xD83E);
    Mix(0x016E, 0xD83E, 0x0302, 0xDB, 0x3C, 0x1EBD);
    Mix(0x76F4, 0x1EBD, 0x0504, 0x1B, 0xB9, 0xBDB3);
    Mix(0x8697, 0xBDB3, 0x0706, 0xBA, 0xB5, 0x3D2E);
    Mix(0xB2E8, 0x3D2E, 0x0908, 0x34, 0x26, 0x901A);
    Mix(0xB2E8, 0x901A, 0x0B0A, 0x9B, 0x10, 0x6655);
  }

  lemma Phase2BKnown()
    ensures Phase2B(Key(), Ppk(0xD83E, 0x1EBD, 0xBDB3, 0x3D2E, 0x901A, 0x6655))
            == Ppk(0x8DEA, 0x602F, 0x6DCA, 0x7413, 0x4A23, 0x0B66)
  {
    hide Tk;
    KeyWords();
  }

  /** The RC4 key of the example: key 00 01 ... 0F, transmitter 10:22:33:44:55:66, counter 0. */
  lemma PublishedKey()
    ensures MixKey(Key(), Address(), 0, 0)
            == [0x00, 0x20, 0x00, 0x33, 0xEA, 0x8D, 0x2F, 0x60,
                0xCA, 0x6D, 0x13, 0x74, 0x23, 0x4A, 0x66, 0x0B]
  {
    hide Phase1, Phase2A, Phase2B, Tk;
    KeyWords();
    Phase1Known();
    Phase2AKnown();
    Phase2BKnown();
  }
}
