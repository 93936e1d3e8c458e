/** The published AES-128 example (appendix C.1 of FIPS 197), round by round. */
module AesKnown {
  import opened AesField
  import opened AesWords
  import opened AesTables
  import opened AesCipher
  import opened AesContext
  import opened AesBytewise

  /** The key 00 01 ... 0F. */
  function Key(): (key: seq<bv8>)
    ensures |key| == 16
  {
    [0x00, 0x01, 0x02, 0x03, 0x04, 0x05, 0x06, 0x07, 0x08, 0x09, 0x0A, 0x0B, 0x0C, 0x0D, 0x0E, 0x0F]
  }

  /** The plaintext 00 11 ... FF. */
  function Plaintext(): (b: seq<bv8>)
    ensures |b| == 16
  {
    [0x00, 0x11, 0x22, 0x33, 0x44, 0x55, 0x66, 0x77, 0x88, 0x99, 0xAA, 0xBB, 0xCC, 0xDD, 0xEE, 0xFF]
  }

  function Schedule(): (ks: seq<bv32>)
    ensures |ks| == 44
  {
    KeyExpansion(Key(), 4, 44)
  }

  /** Four bytes through the S-box. */
  lemma Substituted(w: bv32, s: bv32)
    requires Sbox(B3(w)) == B3(s) && Sbox(B2(w)) == B2(s) && Sbox(B1(w)) == B1(s) && Sbox(B0(w)) == B0(s)
    ensures SubWord(w) == s
  {
    hide Sbox, B3, B2, B1, B0, Pack;
    BytesPack(s);
  }

  predicate KeyIs(ks: seq<bv32>, r: nat, k: Block) {
    4 * r + 4 <= |ks| && RoundKey(ks, r) == k
  }

  lemma KeyStep(ks: seq<bv32>, r: nat, k: Block, next: Block)
    requires ks == Schedule() && r < 10 && KeyIs(ks, r, k) && NextKeyBlock(k, r) == next
    ensures KeyIs(ks, r + 1, next)
  {
    hide RoundKey, KeyExpansion, NextKeyBlock;
    RoundKeyStep(Key(), r);
  }

  lemma Key1Known()
    ensures NextKeyBlock(Block(0x0001_0203, 0x0405_0607, 0x0809_0A0B, 0x0C0D_0E0F), 0)
            == Block(0xD6AA_74FD, 0xD2AF_72FA, 0xDAA6_78F1, 0xD6AB_76FE)
  {
    Substituted(0x0D0E_0F0C, 0xD7AB_76FE);
    hide SubWord;
  }

  lemma Key2Known()
    ensures NextKeyBlock(Block(0xD6AA_74FD, 0xD2AF_72FA, 0xDAA6_78F1, 0xD6AB_76FE), 1)
            == Block(0xB692_CF0B, 0x643D_BDF1, 0xBE9B_C500, 0x6830_B3FE)
  {
    Substituted(0xAB76_FED6, 0x6238_BBF6);
    hide SubWord;
  }

  lemma Key3Known()
    ensures NextKeyBlock(Block(0xB692_CF0B, 0x643D_BDF1, 0xBE9B_C500, 0x6830_B3FE), 2)
            == Block(0xB6FF_744E, 0xD2C2_C9BF, 0x6C59_0CBF, 0x0469_BF41)
  {
    Substituted(0x30B3_FE68, 0x046D_BB45);
    hide SubWord;
  }

  lemma Key4Known()
    ensures NextKeyBlock(Block(0xB6FF_744E, 0xD2C2_C9BF, 0x6C59_0CBF, 0x0469_BF41), 3)
            == Block(0x47F7_F7BC, 0x9535_3E03, 0xF96C_32BC, 0xFD05_8DFD)
  {
    Substituted(0x69BF_4104, 0xF908_83F2);
    hide SubWord;
  }

  lemma Key5Known()
    ensures NextKeyBlock(Block(0x47F7_F7BC, 0x9535_3E03, 0xF96C_32BC, 0xFD05_8DFD), 4)
            == Block(0x3CAA_A3E8, 0xA99F_9DEB, 0x50F3_AF57, 0xADF6_22AA)
  {
    Substituted(0x058D_FDFD, 0x6B5D_5454);
    hide SubWord;
  }

  lemma Key6Known()
    ensures NextKeyBlock(Block(0x3CAA_A3E8, 0xA99F_9DEB, 0x50F3_AF57, 0xADF6_22AA), 5)
            == Block(0x5E39_0F7D, 0xF7A6_9296, 0xA755_3DC1, 0x0AA3_1F6B)
  {
    Substituted(0xF622_AAAD, 0x4293_AC95);
    hide SubWord;
  }

  lemma Key7Known()
    ensures NextKeyBlock(Block(0x5E39_0F7D, 0xF7A6_9296, 0xA755_3DC1, 0x0AA3_1F6B), 6)
            == Block(0x14F9_701A, 0xE35F_E28C, 0x440A_DF4D, 0x4EA9_C026)
  {
    Substituted(0xA31F_6B0A, 0x0AC0_7F67);
    hide SubWord;
  }

  lemma Key8Known()
    ensures NextKeyBlock(Block(0x14F9_701A, 0xE35F_E28C, 0x440A_DF4D, 0x4EA9_C026), 7)
            == Block(0x4743_8735, 0xA41C_65B9, 0xE016_BAF4, 0xAEBF_7AD2)
  {
    Substituted(0xA9C0_264E, 0xD3BA_F72F);
    hide SubWord;
  }

  lemma Key9Known()
    ensures NextKeyBlock(Block(0x4743_8735, 0xA41C_65B9, 0xE016_BAF4, 0xAEBF_7AD2), 8)
            == Block(0x5499_32D1, 0xF085_5768, 0x1093_ED9C, 0xBE2C_974E)
  {
    Substituted(0xBF7A_D2AE, 0x08DA_B5E4);
    hide SubWord;
  }

  lemma Key10Known()
    ensures NextKeyBlock(Block(0x5499_32D1, 0xF085_5768, 0x1093_ED9C, 0xBE2C_974E), 9)
            == Block(0x1311_1D7F, 0xE394_4A17, 0xF307_A78B, 0x4D2B_30C5)
  {
    Substituted(0x2C97_4EBE, 0x7188_2FAE);
    hide SubWord;
  }

  lemma KeysKnown(ks: seq<bv32>)
    requires ks == Schedule()
    ensures KeyIs(ks, 0, Block(0x0001_0203, 0x0405_0607, 0x0809_0A0B, 0x0C0D_0E0F))
    ensures KeyIs(ks, 1, Block(0xD6AA_74FD, 0xD2AF_72FA, 0xDAA6_78F1, 0xD6AB_76FE))
    ensures KeyIs(ks, 2, Block(0xB692_CF0B, 0x643D_BDF1, 0xBE9B_C500, 0x6830_B3FE))
    ensures KeyIs(ks, 3, Block(0xB6FF_744E, 0xD2C2_C9BF, 0x6C59_0CBF, 0x0469_BF41))
    ensures KeyIs(ks, 4, Block(0x47F7_F7BC, 0x9535_3E03, 0xF96C_32BC, 0xFD05_8DFD))
    ensures KeyIs(ks, 5, Block(0x3CAA_A3E8, 0xA99F_9DEB, 0x50F3_AF57, 0xADF6_22AA))
    ensures KeyIs(ks, 6, Block(0x5E39_0F7D, 0xF7A6_9296, 0xA755_3DC1, 0x0AA3_1F6B))
    ensures KeyIs(ks, 7, Block(0x14F9_701A, 0xE35F_E28C, 0x440A_DF4D, 0x4EA9_C026))
    ensures KeyIs(ks, 8, Block(0x4743_8735, 0xA41C_65B9, 0xE016_BAF4, 0xAEBF_7AD2))
    ensures KeyIs(ks, 9, Block(0x5499_32D1, 0xF085_5768, 0x1093_ED9C, 0xBE2C_974E))
    ensures KeyIs(ks, 10, Block(0x1311_1D7F, 0xE394_4A17, 0xF307_A78B, 0x4D2B_30C5))
  {
    hide NextKeyBlock, KeyIs, Schedule, RoundKey;
    FirstKey(ks);
    Key1Known();
    KeyStep(ks, 0, Block(0x0001_0203, 0x0405_0607, 0x0809_0A0B, 0x0C0D_0E0F),
      Block(0xD6AA_74FD, 0xD2AF_72FA, 0xDAA6_78F1, 0xD6AB_76FE));
    Key2Known();
    KeyStep(ks, 1, Block(0xD6AA_74FD, 0xD2AF_72FA, 0xDAA6_78F1, 0xD6AB_76FE),
      Block(0xB692_CF0B, 0x643D_BDF1, 0xBE9B_C500, 0x6830_B3FE));
    Key3Known();
    KeyStep(ks, 2, Block(0xB692_CF0B, 0x643D_BDF1, 0xBE9B_C500, 0x6830_B3FE),
      Block(0xB6FF_744E, 0xD2C2_C9BF, 0x6C59_0CBF, 0x0469_BF41));
    Key4Known();
    KeyStep(ks, 3, Block(0xB6FF_744E, 0xD2C2_C9BF, 0x6C59_0CBF, 0x0469_BF41),
      Block(0x47F7_F7BC, 0x9535_3E03, 0xF96C_32BC, 0xFD05_8DFD));
    Key5Known();
    KeyStep(ks, 4, Block(0x47F7_F7BC, 0x9535_3E03, 0xF96C_32BC, 0xFD05_8DFD),
      Block(0x3CAA_A3E8, 0xA99F_9DEB, 0x50F3_AF57, 0xADF6_22AA));
    Key6Known();
    KeyStep(ks, 5, Block(0x3CAA_A3E8, 0xA99F_9DEB, 0x50F3_AF57, 0xADF6_22AA),
      Block(0x5E39_0F7D, 0xF7A6_9296, 0xA755_3DC1, 0x0AA3_1F6B));
    Key7Known();
    KeyStep(ks, 6, Block(0x5E39_0F7D, 0xF7A6_9296, 0xA755_3DC1, 0x0AA3_1F6B),
      Block(0x14F9_701A, 0xE35F_E28C, 0x440A_DF4D, 0x4EA9_C026));
    Key8Known();
    KeyStep(ks, 7, Block(0x14F9_701A, 0xE35F_E28C, 0x440A_DF4D, 0x4EA9_C026),
      Block(0x4743_8735, 0xA41C_65B9, 0xE016_BAF4, 0xAEBF_7AD2));
    Key9Known();
    KeyStep(ks, 8, Block(0x4743_8735, 0xA41C_65B9, 0xE016_BAF4, 0xAEBF_7AD2),
      Block(0x5499_32D1, 0xF085_5768, 0x1093_ED9C, 0xBE2C_974E));
    Key10Known();
    KeyStep(ks, 9, Block(0x5499_32D1, 0xF085_5768, 0x1093_ED9C, 0xBE2C_974E),
      Block(0x1311_1D7F, 0xE394_4A17, 0xF307_A78B, 0x4D2B_30C5));
  }

  lemma FirstKey(ks: seq<bv32>)
    requires ks == Schedule()
    ensures KeyIs(ks, 0, Block(0x0001_0203, 0x0405_0607, 0x0809_0A0B, 0x0C0D_0E0F))
  {
    hide RoundKey, KeyExpansion;
    FirstRoundKey(Key());
    KeyBlock();
  }

  lemma Bytes1Known()
    ensures SubBytes(Block(0x0010_2030, 0x4050_6070, 0x8090_A0B0, 0xC0D0_E0F0))
            == Block(0x63CA_B704, 0x0953_D051, 0xCD60_E0E7, 0xBA70_E18C)
  {
    hide SubWord;
    Substituted(0x0010_2030, 0x63CA_B704);
    Substituted(0x4050_6070, 0x0953_D051);
    Substituted(0x8090_A0B0, 0xCD60_E0E7);
    Substituted(0xC0D0_E0F0, 0xBA70_E18C);
  }

  lemma Columns1Known()
    ensures AddKey(MixColumns(ShiftRows(Block(0x63CA_B704, 0x0953_D051, 0xCD60_E0E7, 0xBA70_E18C))),
                   Block(0xD6AA_74FD, 0xD2AF_72FA, 0xDAA6_78F1, 0xD6AB_76FE))
            == Block(0x89D8_10E8, 0x855A_CE68, 0x2D18_43D8, 0xCB12_8FE4)
  {
  }

  lemma Bytes2Known()
    ensures SubBytes(Block(0x89D8_10E8, 0x855A_CE68, 0x2D18_43D8, 0xCB12_8FE4))
            == Block(0xA761_CA9B, 0x97BE_8B45, 0xD8AD_1A61, 0x1FC9_7369)
  {
    hide SubWord;
    Substituted(0x89D8_10E8, 0xA761_CA9B);
    Substituted(0x855A_CE68, 0x97BE_8B45);
    Substituted(0x2D18_43D8, 0xD8AD_1A61);
    Substituted(0xCB12_8FE4, 0x1FC9_7369);
  }

  lemma Columns2Known()
    ensures AddKey(MixColumns(ShiftRows(Block(0xA761_CA9B, 0x97BE_8B45, 0xD8AD_1A61, 0x1FC9_7369))),
                   Block(0xB692_CF0B, 0x643D_BDF1, 0xBE9B_C500, 0x6830_B3FE))
            == Block(0x4915_598F, 0x55E5_D7A0, 0xDACA_94FA, 0x1F0A_63F7)
  {
  }

  lemma Bytes3Known()
    ensures SubBytes(Block(0x4915_598F, 0x55E5_D7A0, 0xDACA_94FA, 0x1F0A_63F7))
            == Block(0x3B59_CB73, 0xFCD9_0EE0, 0x5774_222D, 0xC067_FB68)
  {
    hide SubWord;
    Substituted(0x4915_598F, 0x3B59_CB73);
    Substituted(0x55E5_D7A0, 0xFCD9_0EE0);
    Substituted(0xDACA_94FA, 0x5774_222D);
    Substituted(0x1F0A_63F7, 0xC067_FB68);
  }

  lemma Columns3Known()
    ensures AddKey(MixColumns(ShiftRows(Block(0x3B59_CB73, 0xFCD9_0EE0, 0x5774_222D, 0xC067_FB68))),
                   Block(0xB6FF_744E, 0xD2C2_C9BF, 0x6C59_0CBF, 0x0469_BF41))
            == Block(0xFA63_6A28, 0x25B3_39C9, 0x4066_8A31, 0x5724_4D17)
  {
  }

  lemma Bytes4Known()
    ensures SubBytes(Block(0xFA63_6A28, 0x25B3_39C9, 0x4066_8A31, 0x5724_4D17))
            == Block(0x2DFB_0234, 0x3F6D_12DD, 0x0933_7EC7, 0x5B36_E3F0)
  {
    hide SubWord;
    Substituted(0xFA63_6A28, 0x2DFB_0234);
    Substituted(0x25B3_39C9, 0x3F6D_12DD);
    Substituted(0x4066_8A31, 0x0933_7EC7);
    Substituted(0x5724_4D17, 0x5B36_E3F0);
  }

  lemma Columns4Known()
    ensures AddKey(MixColumns(ShiftRows(Block(0x2DFB_0234, 0x3F6D_12DD, 0x0933_7EC7, 0x5B36_E3F0))),
                   Block(0x47F7_F7BC, 0x9535_3E03, 0xF96C_32BC, 0xFD05_8DFD))
            == Block(0x2472_4023, 0x6966_B3FA, 0x6ED2_7532, 0x8842_5B6C)
  {
  }

  lemma Bytes5Known()
    ensures SubBytes(Block(0x2472_4023, 0x6966_B3FA, 0x6ED2_7532, 0x8842_5B6C))
            == Block(0x3640_0926, 0xF933_6D2D, 0x9FB5_9D23, 0xC42C_3950)
  {
    hide SubWord;
    Substituted(0x2472_4023, 0x3640_0926);
    Substituted(0x6966_B3FA, 0xF933_6D2D);
    Substituted(0x6ED2_7532, 0x9FB5_9D23);
    Substituted(0x8842_5B6C, 0xC42C_3950);
  }

  lemma Columns5Known()
    ensures AddKey(MixColumns(ShiftRows(Block(0x3640_0926, 0xF933_6D2D, 0x9FB5_9D23, 0xC42C_3950))),
                   Block(0x3CAA_A3E8, 0xA99F_9DEB, 0x50F3_AF57, 0xADF6_22AA))
            == Block(0xC816_77BC, 0x9B7A_C93B, 0x2502_7992, 0xB026_1996)
  {
  }

  lemma Bytes6Known()
    ensures SubBytes(Block(0xC816_77BC, 0x9B7A_C93B, 0x2502_7992, 0xB026_1996))
            == Block(0xE847_F565, 0x14DA_DDE2, 0x3F77_B64F, 0xE7F7_D490)
  {
    hide SubWord;
    Substituted(0xC816_77BC, 0xE847_F565);
    Substituted(0x9B7A_C93B, 0x14DA_DDE2);
    Substituted(0x2502_7992, 0x3F77_B64F);
    Substituted(0xB026_1996, 0xE7F7_D490);
  }

  lemma Columns6Known()
    ensures AddKey(MixColumns(ShiftRows(Block(0xE847_F565, 0x14DA_DDE2, 0x3F77_B64F, 0xE7F7_D490))),
                   Block(0x5E39_0F7D, 0xF7A6_9296, 0xA755_3DC1, 0x0AA3_1F6B))
            == Block(0xC62F_E109, 0xF75E_EDC3, 0xCC79_395D, 0x84F9_CF5D)
  {
  }

  lemma Bytes7Known()
    ensures SubBytes(Block(0xC62F_E109, 0xF75E_EDC3, 0xCC79_395D, 0x84F9_CF5D))
            == Block(0xB415_F801, 0x6858_552E, 0x4BB6_124C, 0x5F99_8A4C)
  {
    hide SubWord;
    Substituted(0xC62F_E109, 0xB415_F801);
    Substituted(0xF75E_EDC3, 0x6858_552E);
    Substituted(0xCC79_395D, 0x4BB6_124C);
    Substituted(0x84F9_CF5D, 0x5F99_8A4C);
  }

  lemma Columns7Known()
    ensures AddKey(MixColumns(ShiftRows(Block(0xB415_F801, 0x6858_552E, 0x4BB6_124C, 0x5F99_8A4C))),
                   Block(0x14F9_701A, 0xE35F_E28C, 0x440A_DF4D, 0x4EA9_C026))
            == Block(0xD187_6C0F, 0x79C4_300A, 0xB455_94AD, 0xD66F_F41F)
  {
  }

  lemma Bytes8Known()
    ensures SubBytes(Block(0xD187_6C0F, 0x79C4_300A, 0xB455_94AD, 0xD66F_F41F))
            == Block(0x3E17_5076, 0xB61C_0467, 0x8DFC_2295, 0xF6A8_BFC0)
  {
    hide SubWord;
    Substituted(0xD187_6C0F, 0x3E17_5076);
    Substituted(0x79C4_300A, 0xB61C_0467);
    Substituted(0xB455_94AD, 0x8DFC_2295);
    Substituted(0xD66F_F41F, 0xF6A8_BFC0);
  }

  lemma Columns8Known()
    ensures AddKey(MixColumns(ShiftRows(Block(0x3E17_5076, 0xB61C_0467, 0x8DFC_2295, 0xF6A8_BFC0))),
                   Block(0x4743_8735, 0xA41C_65B9, 0xE016_BAF4, 0xAEBF_7AD2))
            == Block(0xFDE3_BAD2, 0x05E5_D0D7, 0x3547_964E, 0xF1FE_37F1)
  {
  }

  lemma Bytes9Known()
    ensures SubBytes(Block(0xFDE3_BAD2, 0x05E5_D0D7, 0x3547_964E, 0xF1FE_37F1))
            == Block(0x5411_F4B5, 0x6BD9_700E, 0x96A0_902F, 0xA1BB_9AA1)
  {
    hide SubWord;
    Substituted(0xFDE3_BAD2, 0x5411_F4B5);
    Substituted(0x05E5_D0D7, 0x6BD9_700E);
    Substituted(0x3547_964E, 0x96A0_902F);
    Substituted(0xF1FE_37F1, 0xA1BB_9AA1);
  }

  lemma Columns9Known()
    ensures AddKey(MixColumns(ShiftRows(Block(0x5411_F4B5, 0x6BD9_700E, 0x96A0_902F, 0xA1BB_9AA1))),
                   Block(0x5499_32D1, 0xF085_5768, 0x1093_ED9C, 0xBE2C_974E))
            == Block(0xBD6E_7C3D, 0xF2B5_779E, 0x0B61_216E, 0x8B10_B689)
  {
  }

  lemma Bytes10Known()
    ensures SubBytes(Block(0xBD6E_7C3D, 0xF2B5_779E, 0x0B61_216E, 0x8B10_B689))
            == Block(0x7A9F_1027, 0x89D5_F50B, 0x2BEF_FD9F, 0x3DCA_4EA7)
  {
    hide SubWord;
    Substituted(0xBD6E_7C3D, 0x7A9F_1027);
    Substituted(0xF2B5_779E, 0x89D5_F50B);
    Substituted(0x0B61_216E, 0x2BEF_FD9F);
    Substituted(0x8B10_B689, 0x3DCA_4EA7);
  }

  lemma LastKnown()
    ensures AddKey(ShiftRows(Block(0x7A9F_1027, 0x89D5_F50B, 0x2BEF_FD9F, 0x3DCA_4EA7)),
                   Block(0x1311_1D7F, 0xE394_4A17, 0xF307_A78B, 0x4D2B_30C5))
            == Block(0x69C4_E0D8, 0x6A7B_0430, 0xD8CD_B780, 0x70B4_C55A)
  {
  }

  lemma KeyBlock()
    ensures LoadBlock(Key()) == Block(0x0001_0203, 0x0405_0607, 0x0809_0A0B, 0x0C0D_0E0F)
    ensures LoadBlock(Plaintext()) == Block(0x0011_2233, 0x4455_6677, 0x8899_AABB, 0xCCDD_EEFF)
  {
  }

  lemma RoundsKnown(ks: seq<bv32>)
    requires ks == Schedule()
    ensures |ks| == 44
    ensures EncRounds(ks, 9, LoadBlock(Plaintext()))
            == Block(0xBD6E_7C3D, 0xF2B5_779E, 0x0B61_216E, 0x8B10_B689)
  {
    hide SubBytes, ShiftRows, MixColumns, AddKey, RoundKey, LoadBlock, Schedule;
    var s := LoadBlock(Plaintext());
    KeyBlock();
    FirstSum();
    KeysKnown(ks);
    assert EncRounds(ks, 0, s) == Block(0x0010_2030, 0x4050_6070, 0x8090_A0B0, 0xC0D0_E0F0);
    EncRoundsStep(ks, 1, s);
    Bytes1Known();
    Columns1Known();
    EncRoundsStep(ks, 2, s);
    Bytes2Known();
    Columns2Known();
    EncRoundsStep(ks, 3, s);
    Bytes3Known();
    Columns3Known();
    EncRoundsStep(ks, 4, s);
    Bytes4Known();
    Columns4Known();
    EncRoundsStep(ks, 5, s);
    Bytes5Known();
    Columns5Known();
    EncRoundsStep(ks, 6, s);
    Bytes6Known();
    Columns6Known();
    EncRoundsStep(ks, 7, s);
    Bytes7Known();
    Columns7Known();
    EncRoundsStep(ks, 8, s);
    Bytes8Known();
    Columns8Known();
    EncRoundsStep(ks, 9, s);
    Bytes9Known();
    Columns9Known();
  }

  lemma FirstSum()
    ensures AddKey(Block(0x0011_2233, 0x4455_6677, 0x8899_AABB, 0xCCDD_EEFF),
                   Block(0x0001_0203, 0x0405_0607, 0x0809_0A0B, 0x0C0D_0E0F))
            == Block(0x0010_2030, 0x4050_6070, 0x8090_A0B0, 0xC0D0_E0F0)
  {
  }

  /** The ciphertext of the example. */
  lemma PublishedCiphertext()
    ensures AesEncrypt(Key(), Plaintext())
            == [0x69, 0xC4, 0xE0, 0xD8, 0x6A, 0x7B, 0x04, 0x30,
                0xD8, 0xCD, 0xB7, 0x80, 0x70, 0xB4, 0xC5, 0x5A]
  {
    hide SubBytes, ShiftRows, MixColumns, AddKey, RoundKey, LoadBlock, EncRounds, StoreBlock, KeyExpansion;
    var ks := Schedule();
    RoundsKnown(ks);
    KeysKnown(ks);
    Bytes10Known();
    LastKnown();
    CiphertextBytes();
  }

  lemma CiphertextBytes()
    ensures StoreBlock(Block(0x69C4_E0D8, 0x6A7B_0430, 0xD8CD_B780, 0x70B4_C55A))
            == [0x69, 0xC4, 0xE0, 0xD8, 0x6A, 0x7B, 0x04, 0x30,
                0xD8, 0xCD, 0xB7, 0x80, 0x70, 0xB4, 0xC5, 0x5A]
  {
  }
}
