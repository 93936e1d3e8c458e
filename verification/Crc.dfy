/** `RTMP_CALC_FCS32` and its table, against the bit-at-a-time CRC-32 of appendix C.3 of RFC 1662. */
module Crc {
  import opened AesField
  import opened AesWords

  const INITIAL_FCS: bv32 := 0xFFFF_FFFF

  // ----- the reference -----

  /** One bit of the reflected division by the CRC-32 polynomial. */
  function BitStep(c: bv32): bv32 {
    if LowBit(c) then XorW(Half(c), 0xEDB8_8320) else Half(c)
  }

  predicate LowBit(c: bv32) {
    c & 1 == 1
  }

  function Half(c: bv32): bv32 {
    c >> 1
  }

  function EightBits(c: bv32): bv32 {
    BitStep(BitStep(BitStep(BitStep(BitStep(BitStep(BitStep(BitStep(c))))))))
  }

  function Widen(b: bv8): bv32 {
    b as bv32
  }

  function BitwiseByte(fcs: bv32, b: bv8): bv32 {
    EightBits(XorW(fcs, Widen(b)))
  }

  function BitwiseFcs(fcs: bv32, s: seq<bv8>): bv32 {
    if s == [] then fcs else BitwiseByte(BitwiseFcs(fcs, s[..|s| - 1]), s[|s| - 1])
  }

  // ----- the table -----

  /** `FCSTAB_32`. */
  function FcsTable(x: bv8): bv32 {
    if x < 0x10 then FcsRow0(x)
    else if x < 0x20 then FcsRow1(x)
    else if x < 0x30 then FcsRow2(x)
    else if x < 0x40 then FcsRow3(x)
    else if x < 0x50 then FcsRow4(x)
    else if x < 0x60 then FcsRow5(x)
    else if x < 0x70 then FcsRow6(x)
    else if x < 0x80 then FcsRow7(x)
    else if x < 0x90 then FcsRow8(x)
    else if x < 0xA0 then FcsRow9(x)
    else if x < 0xB0 then FcsRowA(x)
    else if x < 0xC0 then FcsRowB(x)
    else if x < 0xD0 then FcsRowC(x)
    else if x < 0xE0 then FcsRowD(x)
    else if x < 0xF0 then FcsRowE(x)
    else FcsRowF(x)
  }

  function FcsRow0(x: bv8): bv32 {
    if x == 0x00 then 0x0000_0000 else if x == 0x01 then 0x7707_3096 else if x == 0x02 then 0xEE0E_612C else
    if x == 0x03 then 0x9909_51BA else if x == 0x04 then 0x076D_C419 else if x == 0x05 then 0x706A_F48F else
    if x == 0x06 then 0xE963_A535 else if x == 0x07 then 0x9E64_95A3 else if x == 0x08 then 0x0EDB_8832 else
    if x == 0x09 then 0x79DC_B8A4 else if x == 0x0A then 0xE0D5_E91E else if x == 0x0B then 0x97D2_D988 else
    if x == 0x0C then 0x09B6_4C2B else if x == 0x0D then 0x7EB1_7CBD else if x == 0x0E then 0xE7B8_2D07 else 0x90BF_1D91
  }

  function FcsRow1(x: bv8): bv32 {
    if x == 0x10 then 0x1DB7_1064 else if x == 0x11 then 0x6AB0_20F2 else if x == 0x12 then 0xF3B9_7148 else
    if x == 0x13 then 0x84BE_41DE else if x == 0x14 then 0x1ADA_D47D else if x == 0x15 then 0x6DDD_E4EB else
    if x == 0x16 then 0xF4D4_B551 else if x == 0x17 then 0x83D3_85C7 else if x == 0x18 then 0x136C_9856 else
    if x == 0x19 then 0x646B_A8C0 else if x == 0x1A then 0xFD62_F97A else if x == 0x1B then 0x8A65_C9EC else
    if x == 0x1C then 0x1401_5C4F else if x == 0x1D then 0x6306_6CD9 else if x == 0x1E then 0xFA0F_3D63 else 0x8D08_0DF5
  }

  function FcsRow2(x: bv8): bv32 {
    if x == 0x20 then 0x3B6E_20C8 else if x == 0x21 then 0x4C69_105E else if x == 0x22 then 0xD560_41E4 else
    if x == 0x23 then 0xA267_7172 else if x == 0x24 then 0x3C03_E4D1 else if x == 0x25 then 0x4B04_D447 else
    if x == 0x26 then 0xD20D_85FD else if x == 0x27 then 0xA50A_B56B else if x == 0x28 then 0x35B5_A8FA else
    if x == 0x29 then 0x42B2_986C else if x == 0x2A then 0xDBBB_C9D6 else if x == 0x2B then 0xACBC_F940 else
    if x == 0x2C then 0x32D8_6CE3 else if x == 0x2D then 0x45DF_5C75 else if x == 0x2E then 0xDCD6_0DCF else 0xABD1_3D59
  }

  function FcsRow3(x: bv8): bv32 {
    if x == 0x30 then 0x26D9_30AC else if x == 0x31 then 0x51DE_003A else if x == 0x32 then 0xC8D7_5180 else
    if x == 0x33 then 0xBFD0_6116 else if x == 0x34 then 0x21B4_F4B5 else if x == 0x35 then 0x56B3_C423 else
    if x == 0x36 then 0xCFBA_9599 else if x == 0x37 then 0xB8BD_A50F else if x == 0x38 then 0x2802_B89E else
    if x == 0x39 then 0x5F05_8808 else if x == 0x3A then 0xC60C_D9B2 else if x == 0x3B then 0xB10B_E924 else
    if x == 0x3C then 0x2F6F_7C87 else if x == 0x3D then 0x5868_4C11 else if x == 0x3E then 0xC161_1DAB else 0xB666_2D3D
  }

  function FcsRow4(x: bv8): bv32 {
    if x == 0x40 then 0x76DC_4190 else if x == 0x41 then 0x01DB_7106 else if x == 0x42 then 0x98D2_20BC else
    if x == 0x43 then 0xEFD5_102A else if x == 0x44 then 0x71B1_8589 else if x == 0x45 then 0x06B6_B51F else
    if x == 0x46 then 0x9FBF_E4A5 else if x == 0x47 then 0xE8B8_D433 else if x == 0x48 then 0x7807_C9A2 else
    if x == 0x49 then 0x0F00_F934 else if x == 0x4A then 0x9609_A88E else if x == 0x4B then 0xE10E_9818 else
    if x == 0x4C then 0x7F6A_0DBB else if x == 0x4D then 0x086D_3D2D else if x == 0x4E then 0x9164_6C97 else 0xE663_5C01
  }

  function FcsRow5(x: bv8): bv32 {
    if x == 0x50 then 0x6B6B_51F4 else if x == 0x51 then 0x1C6C_6162 else if x == 0x52 then 0x8565_30D8 else
    if x == 0x53 then 0xF262_004E else if x == 0x54 then 0x6C06_95ED else if x == 0x55 then 0x1B01_A57B else
    if x == 0x56 then 0x8208_F4C1 else if x == 0x57 then 0xF50F_C457 else if x == 0x58 then 0x65B0_D9C6 else
    if x == 0x59 then 0x12B7_E950 else if x == 0x5A then 0x8BBE_B8EA else if x == 0x5B then 0xFCB9_887C else
    if x == 0x5C then 0x62DD_1DDF else if x == 0x5D then 0x15DA_2D49 else if x == 0x5E then 0x8CD3_7CF3 else 0xFBD4_4C65
  }

  function FcsRow6(x: bv8): bv32 {
    if x == 0x60 then 0x4DB2_6158 else if x == 0x61 then 0x3AB5_51CE else if x == 0x62 then 0xA3BC_0074 else
    if x == 0x63 then 0xD4BB_30E2 else if x == 0x64 then 0x4ADF_A541 else if x == 0x65 then 0x3DD8_95D7 else
    if x == 0x66 then 0xA4D1_C46D else if x == 0x67 then 0xD3D6_F4FB else if x == 0x68 then 0x4369_E96A else
    if x == 0x69 then 0x346E_D9FC else if x == 0x6A then 0xAD67_8846 else if x == 0x6B then 0xDA60_B8D0 else
    if x == 0x6C then 0x4404_2D73 else if x == 0x6D then 0x3303_1DE5 else if x == 0x6E then 0xAA0A_4C5F else 0xDD0D_7CC9
  }

  function FcsRow7(x: bv8): bv32 {
    if x == 0x70 then 0x5005_713C else if x == 0x71 then 0x2702_41AA else if x == 0x72 then 0xBE0B_1010 else
    if x == 0x73 then 0xC90C_2086 else if x == 0x74 then 0x5768_B525 else if x == 0x75 then 0x206F_85B3 else
    if x == 0x76 then 0xB966_D409 else if x == 0x77 then 0xCE61_E49F else if x == 0x78 then 0x5EDE_F90E else
    if x == 0x79 then 0x29D9_C998 else if x == 0x7A then 0xB0D0_9822 else if x == 0x7B then 0xC7D7_A8B4 else
    if x == 0x7C then 0x59B3_3D17 else if x == 0x7D then 0x2EB4_0D81 else if x == 0x7E then 0xB7BD_5C3B else 0xC0BA_6CAD
  }

  function FcsRow8(x: bv8): bv32 {
    if x == 0x80 then 0xEDB8_8320 else if x == 0x81 then 0x9ABF_B3B6 else if x == 0x82 then 0x03B6_E20C else
    if x == 0x83 then 0x74B1_D29A else if x == 0x84 then 0xEAD5_4739 else if x == 0x85 then 0x9DD2_77AF else
    if x == 0x86 then 0x04DB_2615 else if x == 0x87 then 0x73DC_1683 else if x == 0x88 then 0xE363_0B12 else
    if x == 0x89 then 0x9464_3B84 else if x == 0x8A then 0x0D6D_6A3E else if x == 0x8B then 0x7A6A_5AA8 else
    if x == 0x8C then 0xE40E_CF0B else if x == 0x8D then 0x9309_FF9D else if x == 0x8E then 0x0A00_AE27 else 0x7D07_9EB1
  }

  function FcsRow9(x: bv8): bv32 {
    if x == 0x90 then 0xF00F_9344 else if x == 0x91 then 0x8708_A3D2 else if x == 0x92 then 0x1E01_F268 else
    if x == 0x93 then 0x6906_C2FE else if x == 0x94 then 0xF762_575D else if x == 0x95 then 0x8065_67CB else
    if x == 0x96 then 0x196C_3671 else if x == 0x97 then 0x6E6B_06E7 else if x == 0x98 then 0xFED4_1B76 else
    if x == 0x99 then 0x89D3_2BE0 else if x == 0x9A then 0x10DA_7A5A else if x == 0x9B then 0x67DD_4ACC else
    if x == 0x9C then 0xF9B9_DF6F else if x == 0x9D then 0x8EBE_EFF9 else if x == 0x9E then 0x17B7_BE43 else 0x60B0_8ED5
  }

  function FcsRowA(x: bv8): bv32 {
    if x == 0xA0 then 0xD6D6_A3E8 else if x == 0xA1 then 0xA1D1_937E else if x == 0xA2 then 0x38D8_C2C4 else
    if x == 0xA3 then 0x4FDF_F252 else if x == 0xA4 then 0xD1BB_67F1 else if x == 0xA5 then 0xA6BC_5767 else
    if x == 0xA6 then 0x3FB5_06DD else if x == 0xA7 then 0x48B2_364B else if x == 0xA8 then 0xD80D_2BDA else
    if x == 0xA9 then 0xAF0A_1B4C else if x == 0xAA then 0x3603_4AF6 else if x == 0xAB then 0x4104_7A60 else
    if x == 0xAC then 0xDF60_EFC3 else if x == 0xAD then 0xA867_DF55 else if x == 0xAE then 0x316E_8EEF else 0x4669_BE79
  }

  function FcsRowB(x: bv8): bv32 {
    if x == 0xB0 then 0xCB61_B38C else if x == 0xB1 then 0xBC66_831A else if x == 0xB2 then 0x256F_D2A0 else
    if x == 0xB3 then 0x5268_E236 else if x == 0xB4 then 0xCC0C_7795 else if x == 0xB5 then 0xBB0B_4703 else
    if x == 0xB6 then 0x2202_16B9 else if x == 0xB7 then 0x5505_262F else if x == 0xB8 then 0xC5BA_3BBE else
    if x == 0xB9 then 0xB2BD_0B28 else if x == 0xBA then 0x2BB4_5A92 else if x == 0xBB then 0x5CB3_6A04 else
    if x == 0xBC then 0xC2D7_FFA7 else if x == 0xBD then 0xB5D0_CF31 else if x == 0xBE then 0x2CD9_9E8B else 0x5BDE_AE1D
  }

  function FcsRowC(x: bv8): bv32 {
    if x == 0xC0 then 0x9B64_C2B0 else if x == 0xC1 then 0xEC63_F226 else if x == 0xC2 then 0x756A_A39C else
    if x == 0xC3 then 0x026D_930A else if x == 0xC4 then 0x9C09_06A9 else if x == 0xC5 then 0xEB0E_363F else
    if x == 0xC6 then 0x7207_6785 else if x == 0xC7 then 0x0500_5713 else if x == 0xC8 then 0x95BF_4A82 else
    if x == 0xC9 then 0xE2B8_7A14 else if x == 0xCA then 0x7BB1_2BAE else if x == 0xCB then 0x0CB6_1B38 else
    if x == 0xCC then 0x92D2_8E9B else if x == 0xCD then 0xE5D5_BE0D else if x == 0xCE then 0x7CDC_EFB7 else 0x0BDB_DF21
  }

  function FcsRowD(x: bv8): bv32 {
    if x == 0xD0 then 0x86D3_D2D4 else if x == 0xD1 then 0xF1D4_E242 else if x == 0xD2 then 0x68DD_B3F8 else
    if x == 0xD3 then 0x1FDA_836E else if x == 0xD4 then 0x81BE_16CD else if x == 0xD5 then 0xF6B9_265B else
    if x == 0xD6 then 0x6FB0_77E1 else if x == 0xD7 then 0x18B7_4777 else if x == 0xD8 then 0x8808_5AE6 else
    if x == 0xD9 then 0xFF0F_6A70 else if x == 0xDA then 0x6606_3BCA else if x == 0xDB then 0x1101_0B5C else
    if x == 0xDC then 0x8F65_9EFF else if x == 0xDD then 0xF862_AE69 else if x == 0xDE then 0x616B_FFD3 else 0x166C_CF45
  }

  function FcsRowE(x: bv8): bv32 {
    if x == 0xE0 then 0xA00A_E278 else if x == 0xE1 then 0xD70D_D2EE else if x == 0xE2 then 0x4E04_8354 else
    if x == 0xE3 then 0x3903_B3C2 else if x == 0xE4 then 0xA767_2661 else if x == 0xE5 then 0xD060_16F7 else
    if x == 0xE6 then 0x4969_474D else if x == 0xE7 then 0x3E6E_77DB else if x == 0xE8 then 0xAED1_6A4A else
    if x == 0xE9 then 0xD9D6_5ADC else if x == 0xEA then 0x40DF_0B66 else if x == 0xEB then 0x37D8_3BF0 else
    if x == 0xEC then 0xA9BC_AE53 else if x == 0xED then 0xDEBB_9EC5 else if x == 0xEE then 0x47B2_CF7F else 0x30B5_FFE9
  }

  function FcsRowF(x: bv8): bv32 {
    if x == 0xF0 then 0xBDBD_F21C else if x == 0xF1 then 0xCABA_C28A else if x == 0xF2 then 0x53B3_9330 else
    if x == 0xF3 then 0x24B4_A3A6 else if x == 0xF4 then 0xBAD0_3605 else if x == 0xF5 then 0xCDD7_0693 else
    if x == 0xF6 then 0x54DE_5729 else if x == 0xF7 then 0x23D9_67BF else if x == 0xF8 then 0xB366_7A2E else
    if x == 0xF9 then 0xC461_4AB8 else if x == 0xFA then 0x5D68_1B02 else if x == 0xFB then 0x2A6F_2B94 else
    if x == 0xFC then 0xB40B_BE37 else if x == 0xFD then 0xC30C_8EA1 else if x == 0xFE then 0x5A05_DF1B else 0x2D02_EF8D
  }

  lemma FcsRow0Is(x: bv8)
    requires x < 0x10
    ensures FcsRow0(x) == EightBits(Widen(x))
  {
  }

  lemma FcsRow1Is(x: bv8)
    requires 0x10 <= x < 0x20
    ensures FcsRow1(x) == EightBits(Widen(x))
  {
  }

  lemma FcsRow2Is(x: bv8)
    requires 0x20 <= x < 0x30
    ensures FcsRow2(x) == EightBits(Widen(x))
  {
  }

  lemma FcsRow3Is(x: bv8)
    requires 0x30 <= x < 0x40
    ensures FcsRow3(x) == EightBits(Widen(x))
  {
  }

  lemma FcsRow4Is(x: bv8)
    requires 0x40 <= x < 0x50
    ensures FcsRow4(x) == EightBits(Widen(x))
  {
  }

  lemma FcsRow5Is(x: bv8)
    requires 0x50 <= x < 0x60
    ensures FcsRow5(x) == EightBits(Widen(x))
  {
  }

  lemma FcsRow6Is(x: bv8)
    requires 0x60 <= x < 0x70
    ensures FcsRow6(x) == EightBits(Widen(x))
  {
  }

  lemma FcsRow7Is(x: bv8)
    requires 0x70 <= x < 0x80
    ensures FcsRow7(x) == EightBits(Widen(x))
  {
  }

  lemma FcsRow8Is(x: bv8)
    requires 0x80 <= x < 0x90
    ensures FcsRow8(x) == EightBits(Widen(x))
  {
  }

  lemma FcsRow9Is(x: bv8)
    requires 0x90 <= x < 0xA0
    ensures FcsRow9(x) == EightBits(Widen(x))
  {
  }

  lemma FcsRowAIs(x: bv8)
    requires 0xA0 <= x < 0xB0
    ensures FcsRowA(x) == EightBits(Widen(x))
  {
  }

  lemma FcsRowBIs(x: bv8)
    requires 0xB0 <= x < 0xC0
    ensures FcsRowB(x) == EightBits(Widen(x))
  {
  }

  lemma FcsRowCIs(x: bv8)
    requires 0xC0 <= x < 0xD0
    ensures FcsRowC(x) == EightBits(Widen(x))
  {
  }

  lemma FcsRowDIs(x: bv8)
    requires 0xD0 <= x < 0xE0
    ensures FcsRowD(x) == EightBits(Widen(x))
  {
  }

  lemma FcsRowEIs(x: bv8)
    requires 0xE0 <= x < 0xF0
    ensures FcsRowE(x) == EightBits(Widen(x))
  {
  }

  lemma FcsRowFIs(x: bv8)
    requires 0xF0 <= x
    ensures FcsRowF(x) == EightBits(Widen(x))
  {
  }

  /** Every entry is the remainder of its index. */
  lemma TableIs(x: bv8)
    ensures FcsTable(x) == EightBits(Widen(x))
  {
    hide EightBits, Widen, FcsRow0, FcsRow1, FcsRow2, FcsRow3, FcsRow4, FcsRow5, FcsRow6, FcsRow7, FcsRow8, FcsRow9,
        FcsRowA, FcsRowB, FcsRowC, FcsRowD, FcsRowE, FcsRowF;
    if x < 0x10 {
      FcsRow0Is(x);
    } else if x < 0x20 {
      FcsRow1Is(x);
    } else if x < 0x30 {
      FcsRow2Is(x);
    } else if x < 0x40 {
      FcsRow3Is(x);
    } else if x < 0x50 {
      FcsRow4Is(x);
    } else if x < 0x60 {
      FcsRow5Is(x);
    } else if x < 0x70 {
      FcsRow6Is(x);
    } else if x < 0x80 {
      FcsRow7Is(x);
    } else if x < 0x90 {
      FcsRow8Is(x);
    } else if x < 0xA0 {
      FcsRow9Is(x);
    } else if x < 0xB0 {
      FcsRowAIs(x);
    } else if x < 0xC0 {
      FcsRowBIs(x);
    } else if x < 0xD0 {
      FcsRowCIs(x);
    } else if x < 0xE0 {
      FcsRowDIs(x);
    } else if x < 0xF0 {
      FcsRowEIs(x);
    } else {
      FcsRowFIs(x);
    }
  }

  // ----- the division is linear and loses nothing -----

  lemma HalfXor(u: bv32, v: bv32)
    ensures Half(XorW(u, v)) == XorW(Half(u), Half(v))
  {
  }

  lemma LowBitXor(u: bv32, v: bv32)
    ensures LowBit(XorW(u, v)) <==> LowBit(u) != LowBit(v)
  {
  }

  lemma XorThrough(a: bv32, b: bv32, p: bv32)
    ensures XorW(XorW(a, p), XorW(b, p)) == XorW(a, b)
    ensures XorW(XorW(a, p), b) == XorW(XorW(a, b), p) == XorW(a, XorW(b, p))
  {
    hide XorW;
    XorWAssoc(a, p, XorW(b, p));
    XorWCancel(p, XorW(b, p));
    XorWCancel(b, p);
    XorWAssoc(a, p, b);
    XorWAssoc(a, b, p);
  }

  lemma BitStepXor(u: bv32, v: bv32)
    ensures BitStep(XorW(u, v)) == XorW(BitStep(u), BitStep(v))
  {
    hide XorW, Half, LowBit;
    HalfXor(u, v);
    LowBitXor(u, v);
    XorThrough(Half(u), Half(v), 0xEDB8_8320);
  }

  lemma BitStepInjective(u: bv32, v: bv32)
    requires BitStep(u) == BitStep(v)
    ensures u == v
  {
  }

  function FourBits(c: bv32): bv32 {
    BitStep(BitStep(BitStep(BitStep(c))))
  }

  lemma FourBitsXor(u: bv32, v: bv32)
    ensures FourBits(XorW(u, v)) == XorW(FourBits(u), FourBits(v))
  {
    hide BitStep, XorW;
    BitStepXor(u, v);
    BitStepXor(BitStep(u), BitStep(v));
    BitStepXor(BitStep(BitStep(u)), BitStep(BitStep(v)));
    BitStepXor(BitStep(BitStep(BitStep(u))), BitStep(BitStep(BitStep(v))));
  }

  lemma EightBitsXor(u: bv32, v: bv32)
    ensures EightBits(XorW(u, v)) == XorW(EightBits(u), EightBits(v))
  {
    hide BitStep, XorW;
    assert EightBits(XorW(u, v)) == FourBits(FourBits(XorW(u, v)));
    assert EightBits(u) == FourBits(FourBits(u)) && EightBits(v) == FourBits(FourBits(v));
    FourBitsXor(u, v);
    FourBitsXor(FourBits(u), FourBits(v));
  }

  lemma FourBitsInjective(u: bv32, v: bv32)
    requires FourBits(u) == FourBits(v)
    ensures u == v
  {
    hide BitStep;
    BitStepInjective(BitStep(BitStep(BitStep(u))), BitStep(BitStep(BitStep(v))));
    BitStepInjective(BitStep(BitStep(u)), BitStep(BitStep(v)));
    BitStepInjective(BitStep(u), BitStep(v));
    BitStepInjective(u, v);
  }

  lemma EightBitsInjective(u: bv32, v: bv32)
    requires EightBits(u) == EightBits(v)
    ensures u == v
  {
    hide BitStep;
    assert EightBits(u) == FourBits(FourBits(u)) && EightBits(v) == FourBits(FourBits(v));
    FourBitsInjective(FourBits(u), FourBits(v));
    FourBitsInjective(u, v);
  }

  function HighPart(c: bv32): bv32 {
    c & 0xFFFF_FF00
  }

  function Shift8(c: bv32): bv32 {
    c >> 8
  }

  lemma HighPartLow(c: bv32)
    ensures var w := HighPart(c);
            && !LowBit(w) && !LowBit(w >> 1) && !LowBit(w >> 2) && !LowBit(w >> 3)
            && !LowBit(w >> 4) && !LowBit(w >> 5) && !LowBit(w >> 6) && !LowBit(w >> 7)
  {
  }

  lemma HalfShifts(w: bv32)
    ensures Half(w) == w >> 1 && Half(w >> 1) == w >> 2 && Half(w >> 2) == w >> 3 && Half(w >> 3) == w >> 4
    ensures Half(w >> 4) == w >> 5 && Half(w >> 5) == w >> 6 && Half(w >> 6) == w >> 7 && Half(w >> 7) == Shift8(w)
  {
  }

  lemma HighPartOnly(c: bv32)
    ensures Shift8(HighPart(c)) == Shift8(c)
  {
  }

  /** Eight zero bits only shift. */
  lemma HighPartShifts(c: bv32)
    ensures EightBits(HighPart(c)) == Shift8(c)
  {
    hide LowBit, Half, HighPart, XorW, Shift8;
    HighPartLow(c);
    HalfShifts(HighPart(c));
    HighPartOnly(c);
  }

  lemma LowAndHigh(c: bv32)
    ensures c == XorW(HighPart(c), Widen(B0(c)))
  {
  }

  lemma WidenXor(a: bv8, b: bv8)
    ensures Widen(Xor(a, b)) == XorW(Widen(a), Widen(b))
  {
  }

  lemma SplitWord(c: bv32, b: bv8)
    ensures XorW(c, Widen(b)) == XorW(HighPart(c), Widen(Xor(B0(c), b)))
  {
    hide XorW, Xor, Widen, HighPart, B0;
    LowAndHigh(c);
    WidenXor(B0(c), b);
    XorWAssoc(HighPart(c), Widen(B0(c)), Widen(b));
  }

  // ----- the routine -----

  /** `(Fcs >> 8) ^ FCSTAB_32[(Fcs ^ c) & 0xff]`. */
  function TableByte(fcs: bv32, b: bv8): bv32 {
    XorW(Shift8(fcs), FcsTable(Xor(B0(fcs), b)))
  }

  lemma TableByteIs(fcs: bv32, b: bv8)
    ensures TableByte(fcs, b) == BitwiseByte(fcs, b)
  {
    hide XorW, Xor, B0, Shift8, HighPart, Widen, FcsTable, EightBits;
    SplitWord(fcs, b);
    EightBitsXor(HighPart(fcs), Widen(Xor(B0(fcs), b)));
    HighPartShifts(fcs);
    TableIs(Xor(B0(fcs), b));
  }

  function CalcFcs(fcs: bv32, s: seq<bv8>): bv32 {
    if s == [] then fcs else TableByte(CalcFcs(fcs, s[..|s| - 1]), s[|s| - 1])
  }

  /** The table-driven CRC is the bit-at-a-time CRC, on every message. */
  lemma {:induction false} CalcIsBitwise(fcs: bv32, s: seq<bv8>)
    ensures CalcFcs(fcs, s) == BitwiseFcs(fcs, s)
  {
    hide TableByte, BitwiseByte;
    if s != [] {
      CalcIsBitwise(fcs, s[..|s| - 1]);
      TableByteIs(CalcFcs(fcs, s[..|s| - 1]), s[|s| - 1]);
    }
  }

  /** A message in two pieces: go on from the first with the second. */
  lemma {:induction false} CalcConcat(fcs: bv32, s: seq<bv8>, t: seq<bv8>)
    ensures CalcFcs(fcs, s + t) == CalcFcs(CalcFcs(fcs, s), t)
  {
    hide TableByte;
    if t == [] {
      assert s + t == s;
    } else {
      assert (s + t)[..|s + t| - 1] == s + t[..|t| - 1];
      CalcConcat(fcs, s, t[..|t| - 1]);
    }
  }

  lemma XorWInjective(u: bv32, v: bv32, w: bv32)
    requires XorW(u, w) == XorW(v, w)
    ensures u == v
  {
  }

  lemma WidenXorInjective(c: bv32, a: bv8, b: bv8)
    requires XorW(c, Widen(a)) == XorW(c, Widen(b))
    ensures a == b
  {
  }

  /** Different states stay different over the same byte, and different bytes separate one state. */
  lemma ByteSeparates(u: bv32, v: bv32, a: bv8, b: bv8)
    requires (u == v && a != b) || (u != v && a == b)
    ensures TableByte(u, a) != TableByte(v, b)
  {
    hide XorW, Widen, TableByte, EightBits;
    TableByteIs(u, a);
    TableByteIs(v, b);
    if TableByte(u, a) == TableByte(v, b) {
      EightBitsInjective(XorW(u, Widen(a)), XorW(v, Widen(b)));
      if a == b { XorWInjective(u, v, Widen(a)); } else { WidenXorInjective(u, a, b); }
    }
  }

  /** The messages differ at `k` and nowhere else. */
  predicate DifferAt(s: seq<bv8>, t: seq<bv8>, k: nat) {
    |s| == |t| && k < |s| && s[k] != t[k] && forall i | 0 <= i < |s| && i != k :: s[i] == t[i]
  }

  /** A single changed byte always changes the CRC. */
  lemma {:induction false} OneByteDetected(fcs: bv32, s: seq<bv8>, t: seq<bv8>, k: nat)
    requires DifferAt(s, t, k)
    ensures CalcFcs(fcs, s) != CalcFcs(fcs, t)
  {
    hide TableByte;
    var n := |s| - 1;
    if k == n {
      assert s[..n] == t[..n];
    } else {
      OneByteDetected(fcs, s[..n], t[..n], k);
    }
    ByteSeparates(CalcFcs(fcs, s[..n]), CalcFcs(fcs, t[..n]), s[n], t[n]);
  }

  /** `RTMP_CALC_FCS32`. */
  method CalcFcs32(fcs: bv32, cp: array<bv8>, at: nat, len: nat) returns (result: bv32)
    requires at + len <= cp.Length
    ensures result == CalcFcs(fcs, cp[..][at..at + len])
  {
    hide TableByte, XorW, FcsTable, Xor, B0, Shift8;
    result := fcs;
    ghost var s := cp[..][at..at + len];
    for i := 0 to len
      invariant result == CalcFcs(fcs, s[..i])
    {
      assert s[..i + 1][..i] == s[..i];
      result := FcsStep(result, cp[at + i]);
    }
    assert s[..len] == s;
  }

  method FcsStep(fcs: bv32, c: bv8) returns (next: bv32)
    ensures next == TableByte(fcs, c)
  {
    hide XorW, FcsTable, Xor, B0, Shift8;
    next := XorW(Shift8(fcs), FcsTable(Xor(B0(fcs), c)));
  }
}
