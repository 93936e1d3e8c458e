/** The published digest of the empty message (appendix A.5 of RFC 1321), worked out operation by operation. */
module Md5Known {
  import opened AesField
  import opened AesWords
  import opened Bytes
  import opened Md5

  /** The one block of the empty message: the bit 1, and zeros. */
  predicate OnlyPadding(x: seq<bv32>) {
    |x| == 16 && x[0] == 0x80 && forall i | 1 <= i < 16 :: x[i] == 0
  }

  /** One operation on numbers: the value `f` of the function, the sum, and the result. */
  lemma Op(i: nat, s: nat, a: bv32, b: bv32, c: bv32, d: bv32, x: bv32, f: bv32, sum: bv32, r: bv32)
    requires S(i) == s && Fun(i, b, c, d) == f && sum == Add(a, Add(Add(f, x), T(i))) && r == Add(Rotl(sum, s), b)
    ensures Operation(a, b, Fun(i, b, c, d), x, S(i), T(i)) == r
  {
    hide Fun, Rotl, T, S, Add;
  }

  lemma Group1Known(x: seq<bv32>)
    requires OnlyPadding(x) && Turns(x, 0, INITIAL) == Quad(0x6745_2301, 0xEFCD_AB89, 0x98BA_DCFE, 0x1032_5476)
    ensures Turns(x, 4, INITIAL) == Quad(0xA520_2774, 0x1B16_3203, 0xE7F0_6B23, 0xF595_92DD)
  {
    hide Turns, Operation;
    Op(0, 7, 0x6745_2301, 0xEFCD_AB89, 0x98BA_DCFE, 0x1032_5476, 0x0000_0080,
      0x98BA_DCFE, 0xD76A_A4F7, 0xA520_2774);
    Op(1, 12, 0x1032_5476, 0xA520_2774, 0xEFCD_AB89, 0x98BA_DCFE, 0x0000_0000,
      0xBD9A_FB8A, 0xB695_0756, 0xF595_92DD);
    Op(2, 17, 0x98BA_DCFE, 0xF595_92DD, 0xA520_2774, 0xEFCD_AB89, 0x0000_0000,
      0xAF48_2B54, 0x6C23_792D, 0xE7F0_6B23);
    Op(3, 22, 0xEFCD_AB89, 0xE7F0_6B23, 0xF595_92DD, 0xA520_2774, 0x0000_0000,
      0xE590_0655, 0x971B_80CC, 0x1B16_3203);
    FourTurns(x, 0, INITIAL, Quad(0x6745_2301, 0xEFCD_AB89, 0x98BA_DCFE, 0x1032_5476));
  }

  lemma Group2Known(x: seq<bv32>)
    requires OnlyPadding(x) && Turns(x, 4, INITIAL) == Quad(0xA520_2774, 0x1B16_3203, 0xE7F0_6B23, 0xF595_92DD)
    ensures Turns(x, 8, INITIAL) == Quad(0x3203_3344, 0x9BC1_3CE9, 0xF5B1_58DB, 0x2F35_D494)
  {
    hide Turns, Operation;
    Op(4, 7, 0xA520_2774, 0x1B16_3203, 0xE7F0_6B23, 0xF595_92DD, 0x0000_0000,
      0xE791_A2DF, 0x822D_DA02, 0x3203_3344);
    Op(5, 12, 0xF595_92DD, 0x3203_3344, 0x1B16_3203, 0xE7F0_6B23, 0x0000_0000,
      0xD7F2_7A23, 0x150F_D32A, 0x2F35_D494);
    Op(6, 17, 0xE7F0_6B23, 0x2F35_D494, 0x3203_3344, 0x1B16_3203, 0x0000_0000,
      0x3203_3207, 0xC223_E33D, 0xF5B1_58DB);
    Op(7, 22, 0x1B16_3203, 0xF5B1_58DB, 0x2F35_D494, 0x3203_3344, 0x0000_0000,
      0x2733_7394, 0x3F90_3A98, 0x9BC1_3CE9);
    FourTurns(x, 4, INITIAL, Quad(0xA520_2774, 0x1B16_3203, 0xE7F0_6B23, 0xF595_92DD));
  }

  lemma Group3Known(x: seq<bv32>)
    requires OnlyPadding(x) && Turns(x, 8, INITIAL) == Quad(0x3203_3344, 0x9BC1_3CE9, 0xF5B1_58DB, 0x2F35_D494)
    ensures Turns(x, 12, INITIAL) == Quad(0x3893_B991, 0x7076_8A29, 0xE1EF_0576, 0xFCE4_A312)
  {
    hide Turns, Operation;
    Op(8, 7, 0x3203_3344, 0x9BC1_3CE9, 0xF5B1_58DB, 0x2F35_D494, 0x0000_0000,
      0xB5B5_D8DD, 0x5139_A4F9, 0x3893_B991);
    Op(9, 12, 0x2F35_D494, 0x3893_B991, 0x9BC1_3CE9, 0xF5B1_58DB, 0x0000_0000,
      0xDDA1_78CB, 0x981C_450E, 0xFCE4_A312);
    Op(10, 17, 0xF5B1_58DB, 0xFCE4_A312, 0x3893_B991, 0x9BC1_3CE9, 0x0000_0000,
      0x3B81_BDF9, 0x3132_7285, 0xE1EF_0576);
    Op(11, 22, 0x9BC1_3CE9, 0xE1EF_0576, 0xFCE4_A312, 0x3893_B991, 0x0000_0000,
      0xF8F4_B993, 0x1E12_CE3A, 0x7076_8A29);
    FourTurns(x, 8, INITIAL, Quad(0x3203_3344, 0x9BC1_3CE9, 0xF5B1_58DB, 0x2F35_D494));
  }

  lemma Group4Known(x: seq<bv32>)
    requires OnlyPadding(x) && Turns(x, 12, INITIAL) == Quad(0x3893_B991, 0x7076_8A29, 0xE1EF_0576, 0xFCE4_A312)
    ensures Turns(x, 16, INITIAL) == Quad(0xF56C_7CF1, 0xD681_9C6A, 0x5AA5_3F75, 0x3749_43A7)
  {
    hide Turns, Operation;
    Op(12, 7, 0x3893_B991, 0x7076_8A29, 0xE1EF_0576, 0xFCE4_A312, 0x0000_0000,
      0xECE6_2132, 0x9109_EBE5, 0xF56C_7CF1);
    Op(13, 12, 0xFCE4_A312, 0xF56C_7CF1, 0x7076_8A29, 0xE1EF_0576, 0x0000_0000,
      0x70E7_0927, 0x6B64_1DCC, 0x3749_43A7);
    Op(14, 17, 0xE1EF_0576, 0x3749_43A7, 0xF56C_7CF1, 0x7076_8A29, 0x0000_0000,
      0x757E_C8A9, 0xFDE7_11AD, 0x5AA5_3F75);
    Op(15, 22, 0x7076_8A29, 0x5AA5_3F75, 0x3749_43A7, 0xF56C_7CF1, 0x0000_0000,
      0xB749_43A5, 0x7173_D5EF, 0xD681_9C6A);
    FourTurns(x, 12, INITIAL, Quad(0x3893_B991, 0x7076_8A29, 0xE1EF_0576, 0xFCE4_A312));
  }

  lemma Group5Known(x: seq<bv32>)
    requires OnlyPadding(x) && Turns(x, 16, INITIAL) == Quad(0xF56C_7CF1, 0xD681_9C6A, 0x5AA5_3F75, 0x3749_43A7)
    ensures Turns(x, 20, INITIAL) == Quad(0x1C7D_7513, 0xBD78_2E17, 0xC095_F13A, 0x7BD5_7A3A)
  {
    hide Turns, Operation;
    Op(16, 5, 0xF56C_7CF1, 0xD681_9C6A, 0x5AA5_3F75, 0x3749_43A7, 0x0000_0000,
      0x5EA5_3C72, 0x4A2F_DEC5, 0x1C7D_7513);
    Op(17, 9, 0x3749_43A7, 0x1C7D_7513, 0xD681_9C6A, 0x5AA5_3F75, 0x0000_0000,
      0x9C25_B51B, 0x93AF_AC02, 0x7BD5_7A3A);
    Op(18, 14, 0x5AA5_3F75, 0x7BD5_7A3A, 0x1C7D_7513, 0xD681_9C6A, 0x0000_0000,
      0x5AFD_793B, 0xDC01_1301, 0xC095_F13A);
    Op(19, 20, 0xD681_9C6A, 0xC095_F13A, 0x7BD5_7A3A, 0x1C7D_7513, 0x0000_0080,
      0x6395_7B3A, 0x23CD_DFCE, 0xBD78_2E17);
    FourTurns(x, 16, INITIAL, Quad(0xF56C_7CF1, 0xD681_9C6A, 0x5AA5_3F75, 0x3749_43A7));
  }

  lemma Group6Known(x: seq<bv32>)
    requires OnlyPadding(x) && Turns(x, 20, INITIAL) == Quad(0x1C7D_7513, 0xBD78_2E17, 0xC095_F13A, 0x7BD5_7A3A)
    ensures Turns(x, 24, INITIAL) == Quad(0x3D1E_3E6C, 0xE422_531A, 0xEB41_643E, 0x68B7_B3E3)
  {
    hide Turns, Operation;
    Op(20, 5, 0x1C7D_7513, 0xBD78_2E17, 0xC095_F13A, 0x7BD5_7A3A, 0x0000_0000,
      0xB950_AB12, 0xABFD_3082, 0x3D1E_3E6C);
    Op(21, 9, 0x7BD5_7A3A, 0x3D1E_3E6C, 0xBD78_2E17, 0xC095_F13A, 0x0000_0000,
      0x3D7C_3E2D, 0xBB95_CCBA, 0x68B7_B3E3);
    Op(22, 14, 0xC095_F13A, 0x68B7_B3E3, 0x3D1E_3E6C, 0xBD78_2E17, 0x0000_0000,
      0x2836_326B, 0xC16E_0A26, 0xEB41_643E);
    Op(23, 20, 0xBD78_2E17, 0xEB41_643E, 0x68B7_B3E3, 0x3D1E_3E6C, 0x0000_0000,
      0x69A1_A5AF, 0x0EED_CF8E, 0xE422_531A);
    FourTurns(x, 20, INITIAL, Quad(0x1C7D_7513, 0xBD78_2E17, 0xC095_F13A, 0x7BD5_7A3A));
  }

  lemma Group7Known(x: seq<bv32>)
    requires OnlyPadding(x) && Turns(x, 24, INITIAL) == Quad(0x3D1E_3E6C, 0xE422_531A, 0xEB41_643E, 0x68B7_B3E3)
    ensures Turns(x, 28, INITIAL) == Quad(0x306E_C122, 0xA057_2807, 0xA3C6_63DA, 0xD28C_77C2)
  {
    hide Turns, Operation;
    Op(24, 5, 0x3D1E_3E6C, 0xE422_531A, 0xEB41_643E, 0x68B7_B3E3, 0x0000_0000,
      0xE362_571E, 0x4262_6370, 0x306E_C122);
    Op(25, 9, 0x68B7_B3E3, 0x306E_C122, 0xE422_531A, 0xEB41_643E, 0x0000_0000,
      0x2462_5322, 0x5051_0EDB, 0xD28C_77C2);
    Op(26, 14, 0xEB41_643E, 0xD28C_77C2, 0x306E_C122, 0xE422_531A, 0x0000_0000,
      0xD04C_D322, 0xB063_44E7, 0xA3C6_63DA);
    Op(27, 20, 0xE422_531A, 0xA3C6_63DA, 0xD28C_77C2, 0x306E_C122, 0x0000_0000,
      0xE2C6_77C2, 0x0C42_DFC9, 0xA057_2807);
    FourTurns(x, 24, INITIAL, Quad(0x3D1E_3E6C, 0xE422_531A, 0xEB41_643E, 0x68B7_B3E3));
  }

  lemma Group8Known(x: seq<bv32>)
    requires OnlyPadding(x) && Turns(x, 28, INITIAL) == Quad(0x306E_C122, 0xA057_2807, 0xA3C6_63DA, 0xD28C_77C2)
    ensures Turns(x, 32, INITIAL) == Quad(0x1370_7036, 0xA220_5F1F, 0x1C31_C384, 0xAE78_13DB)
  {
    hide Turns, Operation;
    Op(28, 5, 0x306E_C122, 0xA057_2807, 0xA3C6_63DA, 0xD28C_77C2, 0x0000_0000,
      0xA146_201A, 0x7B98_CA41, 0x1370_7036);
    Op(29, 9, 0xD28C_77C2, 0x1370_7036, 0xA057_2807, 0xA3C6_63DA, 0x0000_0000,
      0x0351_6817, 0xD2CD_83D1, 0xAE78_13DB);
    Op(30, 14, 0xA3C6_63DA, 0xAE78_13DB, 0x1370_7036, 0xA057_2807, 0x0000_0000,
      0xB370_5033, 0xBEA5_B6E6, 0x1C31_C384);
    Op(31, 20, 0xA057_2807, 0x1C31_C384, 0xAE78_13DB, 0x1370_7036, 0x0000_0000,
      0xBC38_43CD, 0xE9B9_B85E, 0xA220_5F1F);
    FourTurns(x, 28, INITIAL, Quad(0x306E_C122, 0xA057_2807, 0xA3C6_63DA, 0xD28C_77C2));
  }

  lemma Group9Known(x: seq<bv32>)
    requires OnlyPadding(x) && Turns(x, 32, INITIAL) == Quad(0x1370_7036, 0xA220_5F1F, 0x1C31_C384, 0xAE78_13DB)
    ensures Turns(x, 36, INITIAL) == Quad(0xDF63_EAA1, 0x004B_6669, 0x12F3_E755, 0xC368_9F5B)
  {
    hide Turns, Operation;
    Op(32, 4, 0x1370_7036, 0xA220_5F1F, 0x1C31_C384, 0xAE78_13DB, 0x0000_0000,
      0x1069_8F40, 0x23D4_38B8, 0xDF63_EAA1);
    Op(33, 11, 0xAE78_13DB, 0xDF63_EAA1, 0xA220_5F1F, 0x1C31_C384, 0x0000_0000,
      0x6172_763A, 0x975C_8096, 0xC368_9F5B);
    Op(34, 16, 0x1C31_C384, 0xC368_9F5B, 0xDF63_EAA1, 0xA220_5F1F, 0x0000_0000,
      0xBE2B_2AE5, 0x47FA_4F8B, 0x12F3_E755);
    Op(35, 23, 0xA220_5F1F, 0x12F3_E755, 0xC368_9F5B, 0xDF63_EAA1, 0x0000_0000,
      0x0EF8_92AF, 0xAEFE_29DA, 0x004B_6669);
    FourTurns(x, 32, INITIAL, Quad(0x1370_7036, 0xA220_5F1F, 0x1C31_C384, 0xAE78_13DB));
  }

  lemma Group10Known(x: seq<bv32>)
    requires OnlyPadding(x) && Turns(x, 36, INITIAL) == Quad(0xDF63_EAA1, 0x004B_6669, 0x12F3_E755, 0xC368_9F5B)
    ensures Turns(x, 40, INITIAL) == Quad(0x5F7A_9B2E, 0xC5DC_8C15, 0x91CA_4CB7, 0xABC3_4E16)
  {
    hide Turns, Operation;
    Op(36, 4, 0xDF63_EAA1, 0x004B_6669, 0x12F3_E755, 0xC368_9F5B, 0x0000_0000,
      0xD1D0_1E67, 0x55F2_F34C, 0x5F7A_9B2E);
    Op(37, 11, 0xC368_9F5B, 0x5F7A_9B2E, 0x004B_6669, 0x12F3_E755, 0x0000_0000,
      0x4DC2_1A12, 0x5D09_8916, 0xABC3_4E16);
    Op(38, 16, 0x12F3_E755, 0xABC3_4E16, 0x5F7A_9B2E, 0x004B_6669, 0x0000_0000,
      0xF4F2_B351, 0xFEA1_E606, 0x91CA_4CB7);
    Op(39, 23, 0x004B_6669, 0x91CA_4CB7, 0xABC3_4E16, 0x5F7A_9B2E, 0x0000_0000,
      0x6573_998F, 0x247E_BC68, 0xC5DC_8C15);
    FourTurns(x, 36, INITIAL, Quad(0xDF63_EAA1, 0x004B_6669, 0x12F3_E755, 0xC368_9F5B));
  }

  lemma Group11Known(x: seq<bv32>)
    requires OnlyPadding(x) && Turns(x, 40, INITIAL) == Quad(0x5F7A_9B2E, 0xC5DC_8C15, 0x91CA_4CB7, 0xABC3_4E16)
    ensures Turns(x, 44, INITIAL) == Quad(0x4497_169D, 0x0FE3_2453, 0xFD95_F243, 0x76FD_93D4)
  {
    hide Turns, Operation;
    Op(40, 4, 0x5F7A_9B2E, 0xC5DC_8C15, 0x91CA_4CB7, 0xABC3_4E16, 0x0000_0000,
      0xFFD5_8EB4, 0x87EB_A8A8, 0x4497_169D);
    Op(41, 11, 0xABC3_4E16, 0x4497_169D, 0xC5DC_8C15, 0x91CA_4CB7, 0x0000_0080,
      0x1081_D63F, 0xA6E6_4CCF, 0x76FD_93D4);
    Op(42, 16, 0x91CA_4CB7, 0x76FD_93D4, 0x4497_169D, 0xC5DC_8C15, 0x0000_0000,
      0xF7B6_095C, 0x5E6F_8698, 0xFD95_F243);
    Op(43, 23, 0xC5DC_8C15, 0xFD95_F243, 0x76FD_93D4, 0x4497_169D, 0x0000_0000,
      0xCFFF_770A, 0x9A64_2024, 0x0FE3_2453);
    FourTurns(x, 40, INITIAL, Quad(0x5F7A_9B2E, 0xC5DC_8C15, 0x91CA_4CB7, 0xABC3_4E16));
  }

  lemma Group12Known(x: seq<bv32>)
    requires OnlyPadding(x) && Turns(x, 44, INITIAL) == Quad(0x4497_169D, 0x0FE3_2453, 0xFD95_F243, 0x76FD_93D4)
    ensures Turns(x, 48, INITIAL) == Quad(0x3F55_EDFD, 0xCA7D_2DBD, 0x68D8_4EA2, 0x22A3_1F54)
  {
    hide Turns, Operation;
    Op(44, 4, 0x4497_169D, 0x0FE3_2453, 0xFD95_F243, 0x76FD_93D4, 0x0000_0000,
      0x848B_45C4, 0xA2F7_2C9A, 0x3F55_EDFD);
    Op(45, 11, 0x76FD_93D4, 0x3F55_EDFD, 0x0FE3_2453, 0xFD95_F243, 0x0000_0000,
      0xCD23_3BED, 0x2AFC_69A6, 0x22A3_1F54);
    Op(46, 16, 0xFD95_F243, 0x22A3_1F54, 0x3F55_EDFD, 0x0FE3_2453, 0x0000_0000,
      0x1215_D6FA, 0x2F4E_4635, 0x68D8_4EA2);
    Op(47, 23, 0x0FE3_2453, 0x68D8_4EA2, 0x22A3_1F54, 0x3F55_EDFD, 0x0000_0000,
      0x752E_BC0B, 0x49BE_36C3, 0xCA7D_2DBD);
    FourTurns(x, 44, INITIAL, Quad(0x4497_169D, 0x0FE3_2453, 0xFD95_F243, 0x76FD_93D4));
  }

  lemma Group13Known(x: seq<bv32>)
    requires OnlyPadding(x) && Turns(x, 48, INITIAL) == Quad(0x3F55_EDFD, 0xCA7D_2DBD, 0x68D8_4EA2, 0x22A3_1F54)
    ensures Turns(x, 52, INITIAL) == Quad(0x93AA_2577, 0x561E_0689, 0xCD85_B8CB, 0x1688_DC85)
  {
    hide Turns, Operation;
    Op(48, 6, 0x3F55_EDFD, 0xCA7D_2DBD, 0x68D8_4EA2, 0x22A3_1F54, 0x0000_0080,
      0xB7A5_A31D, 0xEB24_B3DE, 0x93AA_2577);
    Op(49, 10, 0x22A3_1F54, 0x93AA_2577, 0xCA7D_2DBD, 0x68D8_4EA2, 0x0000_0000,
      0x5DD2_98C2, 0xC3A0_B7AD, 0x1688_DC85);
    Op(50, 15, 0x68D8_4EA2, 0x1688_DC85, 0x93AA_2577, 0xCA7D_2DBD, 0x0000_0000,
      0xA420_FBB0, 0xB88D_6DF9, 0xCD85_B8CB);
    Op(51, 21, 0xCA7D_2DBD, 0xCD85_B8CB, 0x1688_DC85, 0x93AA_2577, 0x0000_0000,
      0xFB5D_264E, 0xC26D_F444, 0x561E_0689);
    FourTurns(x, 48, INITIAL, Quad(0x3F55_EDFD, 0xCA7D_2DBD, 0x68D8_4EA2, 0x22A3_1F54));
  }

  lemma Group14Known(x: seq<bv32>)
    requires OnlyPadding(x) && Turns(x, 52, INITIAL) == Quad(0x93AA_2577, 0x561E_0689, 0xCD85_B8CB, 0x1688_DC85)
    ensures Turns(x, 56, INITIAL) == Quad(0x5625_A114, 0x1E77_FA61, 0x392A_D0D0, 0x3450_F42B)
  {
    hide Turns, Operation;
    Op(52, 6, 0x93AA_2577, 0x561E_0689, 0xCD85_B8CB, 0x1688_DC85, 0x0000_0000,
      0x32FA_9F30, 0x2C00_1E6A, 0x5625_A114);
    Op(53, 10, 0x1688_DC85, 0x5625_A114, 0x561E_0689, 0xCD85_B8CB, 0x0000_0000,
      0x2061_E1BD, 0xC5F7_8AD4, 0x3450_F42B);
    Op(54, 15, 0xCD85_B8CB, 0x3450_F42B, 0x5625_A114, 0x561E_0689, 0x0000_0000,
      0xEBD4_5C6B, 0xB94A_09B3, 0x392A_D0D0);
    Op(55, 21, 0x561E_0689, 0x392A_D0D0, 0x3450_F42B, 0x5625_A114, 0x0000_0000,
      0x8DAA_2AD0, 0x694C_8F2A, 0x1E77_FA61);
    FourTurns(x, 52, INITIAL, Quad(0x93AA_2577, 0x561E_0689, 0xCD85_B8CB, 0x1688_DC85));
  }

  lemma Group15Known(x: seq<bv32>)
    requires OnlyPadding(x) && Turns(x, 56, INITIAL) == Quad(0x5625_A114, 0x1E77_FA61, 0x392A_D0D0, 0x3450_F42B)
    ensures Turns(x, 60, INITIAL) == Quad(0x474A_9C8C, 0x3013_0182, 0x3659_4B14, 0xDFCE_00BC)
  {
    hide Turns, Operation;
    Op(56, 6, 0x5625_A114, 0x1E77_FA61, 0x392A_D0D0, 0x3450_F42B, 0x0000_0000,
      0xE6D5_2B25, 0xACA3_4A88, 0x474A_9C8C);
    Op(57, 10, 0x3450_F42B, 0x474A_9C8C, 0x1E77_FA61, 0x392A_D0D0, 0x0000_0000,
      0xD9A8_45CE, 0x0C26_20D9, 0xDFCE_00BC);
    Op(58, 15, 0x392A_D0D0, 0xDFCE_00BC, 0x474A_9C8C, 0x1E77_FA61, 0x0000_0000,
      0xB884_9932, 0x94B0_AD16, 0x3659_4B14);
    Op(59, 21, 0x1E77_FA61, 0x3659_4B14, 0xDFCE_00BC, 0x474A_9C8C, 0x0000_0000,
      0x6133_6BCB, 0xCDB3_77CD, 0x3013_0182);
    FourTurns(x, 56, INITIAL, Quad(0x5625_A114, 0x1E77_FA61, 0x392A_D0D0, 0x3450_F42B));
  }

  lemma Group16Known(x: seq<bv32>)
    requires OnlyPadding(x) && Turns(x, 60, INITIAL) == Quad(0x474A_9C8C, 0x3013_0182, 0x3659_4B14, 0xDFCE_00BC)
    ensures Turns(x, 64, INITIAL) == Quad(0x7246_FAD3, 0x14E4_5506, 0xFF4E_A3EB, 0x6E10_A476)
  {
    hide Turns, Operation;
    Op(60, 6, 0x474A_9C8C, 0x3013_0182, 0x3659_4B14, 0xDFCE_00BC, 0x0000_0000,
      0x066A_B4D7, 0x4508_CFE5, 0x7246_FAD3);
    Op(61, 10, 0xDFCE_00BC, 0x7246_FAD3, 0x3013_0182, 0x3659_4B14, 0x0000_0000,
      0xCBF5_FF79, 0x68FE_F26A, 0x6E10_A476);
    Op(62, 15, 0x3659_4B14, 0x6E10_A476, 0x7246_FAD3, 0x3013_0182, 0x0000_0000,
      0x9DBA_04AC, 0xFEEB_227B, 0xFF4E_A3EB);
    Op(63, 21, 0x3013_0182, 0xFF4E_A3EB, 0x6E10_A476, 0x7246_FAD3, 0x0000_0000,
      0x91EF_0399, 0xAD88_D8AC, 0x14E4_5506);
    FourTurns(x, 60, INITIAL, Quad(0x474A_9C8C, 0x3013_0182, 0x3659_4B14, 0xDFCE_00BC));
  }

  /** The digest of the empty message. */
  lemma EmptyDigest()
    ensures Digest([]) == [0xD4, 0x1D, 0x8C, 0xD9, 0x8F, 0x00, 0xB2, 0x04,
                           0xE9, 0x80, 0x09, 0x98, 0xEC, 0xF8, 0x42, 0x7E]
  {
    hide Turns, Words, LeBytes, Padded;
    var t := Padded([]);
    EmptyPadded();
    EmptyWords(t);
    AllTurns(Words(t));
    assert Chained(t, 0) == INITIAL && t[0..64] == t;
    assert Chained(t, 1) == HashBlock(INITIAL, t);
    DigestBytes();
  }

  lemma EmptyPadded()
    ensures Padded([]) == [0x80] + Zeros(63)
  {
    assert Le64(0) == Zeros(8);
  }

  lemma EmptyWords(t: seq<bv8>)
    requires t == [0x80] + Zeros(63)
    ensures OnlyPadding(Words(t))
  {
    assert t[0] == 0x80 && forall i | 1 <= i < 64 :: t[i] == 0;
  }

  lemma AllTurns(x: seq<bv32>)
    requires OnlyPadding(x)
    ensures Turns(x, 64, INITIAL) == Quad(0x7246_FAD3, 0x14E4_5506, 0xFF4E_A3EB, 0x6E10_A476)
  {
    hide Turn;
    NoTurns(x, INITIAL);
    Group1Known(x);
    Group2Known(x);
    Group3Known(x);
    Group4Known(x);
    Group5Known(x);
    Group6Known(x);
    Group7Known(x);
    Group8Known(x);
    Group9Known(x);
    Group10Known(x);
    Group11Known(x);
    Group12Known(x);
    Group13Known(x);
    Group14Known(x);
    Group15Known(x);
    Group16Known(x);
  }

  lemma DigestBytes()
    ensures QuadBytes(AddQuads(INITIAL, Quad(0x7246_FAD3, 0x14E4_5506, 0xFF4E_A3EB, 0x6E10_A476)))
            == [0xD4, 0x1D, 0x8C, 0xD9, 0x8F, 0x00, 0xB2, 0x04,
                0xE9, 0x80, 0x09, 0x98, 0xEC, 0xF8, 0x42, 0x7E]
  {
  }
}
