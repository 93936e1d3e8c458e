/** `Tkip_Sbox_Lower` and `Tkip_Sbox_Upper`, and their relation to the S-box of AES. */
module TkipSbox {
  import opened AesField
  import opened AesTables

  /** `Tkip_Sbox_Lower`. */
  function Lower(x: bv8): bv8 {
    if x < 0x10 then LowerRow0(x)
    else if x < 0x20 then LowerRow1(x)
    else if x < 0x30 then LowerRow2(x)
    else if x < 0x40 then LowerRow3(x)
    else if x < 0x50 then LowerRow4(x)
    else if x < 0x60 then LowerRow5(x)
    else if x < 0x70 then LowerRow6(x)
    else if x < 0x80 then LowerRow7(x)
    else if x < 0x90 then LowerRow8(x)
    else if x < 0xA0 then LowerRow9(x)
    else if x < 0xB0 then LowerRowA(x)
    else if x < 0xC0 then LowerRowB(x)
    else if x < 0xD0 then LowerRowC(x)
    else if x < 0xE0 then LowerRowD(x)
    else if x < 0xF0 then LowerRowE(x)
    else LowerRowF(x)
  }

  function LowerRow0(x: bv8): bv8 {
    if x == 0x00 then 0xA5 else if x == 0x01 then 0x84 else if x == 0x02 then 0x99 else if x == 0x03 then 0x8D else
    if x == 0x04 then 0x0D else if x == 0x05 then 0xBD else if x == 0x06 then 0xB1 else if x == 0x07 then 0x54 else
    if x == 0x08 then 0x50 else if x == 0x09 then 0x03 else if x == 0x0A then 0xA9 else if x == 0x0B then 0x7D else
    if x == 0x0C then 0x19 else if x == 0x0D then 0x62 else if x == 0x0E then 0xE6 else 0x9A
  }

  function LowerRow1(x: bv8): bv8 {
    if x == 0x10 then 0x45 else if x == 0x11 then 0x9D else if x == 0x12 then 0x40 else if x == 0x13 then 0x87 else
    if x == 0x14 then 0x15 else if x == 0x15 then 0xEB else if x == 0x16 then 0xC9 else if x == 0x17 then 0x0B else
    if x == 0x18 then 0xEC else if x == 0x19 then 0x67 else if x == 0x1A then 0xFD else if x == 0x1B then 0xEA else
    if x == 0x1C then 0xBF else if x == 0x1D then 0xF7 else if x == 0x1E then 0x96 else 0x5B
  }

  function LowerRow2(x: bv8): bv8 {
    if x == 0x20 then 0xC2 else if x == 0x21 then 0x1C else if x == 0x22 then 0xAE else if x == 0x23 then 0x6A else
    if x == 0x24 then 0x5A else if x == 0x25 then 0x41 else if x == 0x26 then 0x02 else if x == 0x27 then 0x4F else
    if x == 0x28 then 0x5C else if x == 0x29 then 0xF4 else if x == 0x2A then 0x34 else if x == 0x2B then 0x08 else
    if x == 0x2C then 0x93 else if x == 0x2D then 0x73 else if x == 0x2E then 0x53 else 0x3F
  }

  function LowerRow3(x: bv8): bv8 {
    if x == 0x30 then 0x0C else if x == 0x31 then 0x52 else if x == 0x32 then 0x65 else if x == 0x33 then 0x5E else
    if x == 0x34 then 0x28 else if x == 0x35 then 0xA1 else if x == 0x36 then 0x0F else if x == 0x37 then 0xB5 else
    if x == 0x38 then 0x09 else if x == 0x39 then 0x36 else if x == 0x3A then 0x9B else if x == 0x3B then 0x3D else
    if x == 0x3C then 0x26 else if x == 0x3D then 0x69 else if x == 0x3E then 0xCD else 0x9F
  }

  function LowerRow4(x: bv8): bv8 {
    if x == 0x40 then 0x1B else if x == 0x41 then 0x9E else if x == 0x42 then 0x74 else if x == 0x43 then 0x2E else
    if x == 0x44 then 0x2D else if x == 0x45 then 0xB2 else if x == 0x46 then 0xEE else if x == 0x47 then 0xFB else
    if x == 0x48 then 0xF6 else if x == 0x49 then 0x4D else if x == 0x4A then 0x61 else if x == 0x4B then 0xCE else
    if x == 0x4C then 0x7B else if x == 0x4D then 0x3E else if x == 0x4E then 0x71 else 0x97
  }

  function LowerRow5(x: bv8): bv8 {
    if x == 0x50 then 0xF5 else if x == 0x51 then 0x68 else if x == 0x52 then 0x00 else if x == 0x53 then 0x2C else
    if x == 0x54 then 0x60 else if x == 0x55 then 0x1F else if x == 0x56 then 0xC8 else if x == 0x57 then 0xED else
    if x == 0x58 then 0xBE else if x == 0x59 then 0x46 else if x == 0x5A then 0xD9 else if x == 0x5B then 0x4B else
    if x == 0x5C then 0xDE else if x == 0x5D then 0xD4 else if x == 0x5E then 0xE8 else 0x4A
  }

  function LowerRow6(x: bv8): bv8 {
    if x == 0x60 then 0x6B else if x == 0x61 then 0x2A else if x == 0x62 then 0xE5 else if x == 0x63 then 0x16 else
    if x == 0x64 then 0xC5 else if x == 0x65 then 0xD7 else if x == 0x66 then 0x55 else if x == 0x67 then 0x94 else
    if x == 0x68 then 0xCF else if x == 0x69 then 0x10 else if x == 0x6A then 0x06 else if x == 0x6B then 0x81 else
    if x == 0x6C then 0xF0 else if x == 0x6D then 0x44 else if x == 0x6E then 0xBA else 0xE3
  }

  function LowerRow7(x: bv8): bv8 {
    if x == 0x70 then 0xF3 else if x == 0x71 then 0xFE else if x == 0x72 then 0xC0 else if x == 0x73 then 0x8A else
    if x == 0x74 then 0xAD else if x == 0x75 then 0xBC else if x == 0x76 then 0x48 else if x == 0x77 then 0x04 else
    if x == 0x78 then 0xDF else if x == 0x79 then 0xC1 else if x == 0x7A then 0x75 else if x == 0x7B then 0x63 else
    if x == 0x7C then 0x30 else if x == 0x7D then 0x1A else if x == 0x7E then 0x0E else 0x6D
  }

  function LowerRow8(x: bv8): bv8 {
    if x == 0x80 then 0x4C else if x == 0x81 then 0x14 else if x == 0x82 then 0x35 else if x == 0x83 then 0x2F else
    if x == 0x84 then 0xE1 else if x == 0x85 then 0xA2 else if x == 0x86 then 0xCC else if x == 0x87 then 0x39 else
    if x == 0x88 then 0x57 else if x == 0x89 then 0xF2 else if x == 0x8A then 0x82 else if x == 0x8B then 0x47 else
    if x == 0x8C then 0xAC else if x == 0x8D then 0xE7 else if x == 0x8E then 0x2B else 0x95
  }

  function LowerRow9(x: bv8): bv8 {
    if x == 0x90 then 0xA0 else if x == 0x91 then 0x98 else if x == 0x92 then 0xD1 else if x == 0x93 then 0x7F else
    if x == 0x94 then 0x66 else if x == 0x95 then 0x7E else if x == 0x96 then 0xAB else if x == 0x97 then 0x83 else
    if x == 0x98 then 0xCA else if x == 0x99 then 0x29 else if x == 0x9A then 0xD3 else if x == 0x9B then 0x3C else
    if x == 0x9C then 0x79 else if x == 0x9D then 0xE2 else if x == 0x9E then 0x1D else 0x76
  }

  function LowerRowA(x: bv8): bv8 {
    if x == 0xA0 then 0x3B else if x == 0xA1 then 0x56 else if x == 0xA2 then 0x4E else if x == 0xA3 then 0x1E else
    if x == 0xA4 then 0xDB else if x == 0xA5 then 0x0A else if x == 0xA6 then 0x6C else if x == 0xA7 then 0xE4 else
    if x == 0xA8 then 0x5D else if x == 0xA9 then 0x6E else if x == 0xAA then 0xEF else if x == 0xAB then 0xA6 else
    if x == 0xAC then 0xA8 else if x == 0xAD then 0xA4 else if x == 0xAE then 0x37 else 0x8B
  }

  function LowerRowB(x: bv8): bv8 {
    if x == 0xB0 then 0x32 else if x == 0xB1 then 0x43 else if x == 0xB2 then 0x59 else if x == 0xB3 then 0xB7 else
    if x == 0xB4 then 0x8C else if x == 0xB5 then 0x64 else if x == 0xB6 then 0xD2 else if x == 0xB7 then 0xE0 else
    if x == 0xB8 then 0xB4 else if x == 0xB9 then 0xFA else if x == 0xBA then 0x07 else if x == 0xBB then 0x25 else
    if x == 0xBC then 0xAF else if x == 0xBD then 0x8E else if x == 0xBE then 0xE9 else 0x18
  }

  function LowerRowC(x: bv8): bv8 {
    if x == 0xC0 then 0xD5 else if x == 0xC1 then 0x88 else if x == 0xC2 then 0x6F else if x == 0xC3 then 0x72 else
    if x == 0xC4 then 0x24 else if x == 0xC5 then 0xF1 else if x == 0xC6 then 0xC7 else if x == 0xC7 then 0x51 else
    if x == 0xC8 then 0x23 else if x == 0xC9 then 0x7C else if x == 0xCA then 0x9C else if x == 0xCB then 0x21 else
    if x == 0xCC then 0xDD else if x == 0xCD then 0xDC else if x == 0xCE then 0x86 else 0x85
  }

  function LowerRowD(x: bv8): bv8 {
    if x == 0xD0 then 0x90 else if x == 0xD1 then 0x42 else if x == 0xD2 then 0xC4 else if x == 0xD3 then 0xAA else
    if x == 0xD4 then 0xD8 else if x == 0xD5 then 0x05 else if x == 0xD6 then 0x01 else if x == 0xD7 then 0x12 else
    if x == 0xD8 then 0xA3 else if x == 0xD9 then 0x5F else if x == 0xDA then 0xF9 else if x == 0xDB then 0xD0 else
    if x == 0xDC then 0x91 else if x == 0xDD then 0x58 else if x == 0xDE then 0x27 else 0xB9
  }

  function LowerRowE(x: bv8): bv8 {
    if x == 0xE0 then 0x38 else if x == 0xE1 then 0x13 else if x == 0xE2 then 0xB3 else if x == 0xE3 then 0x33 else
    if x == 0xE4 then 0xBB else if x == 0xE5 then 0x70 else if x == 0xE6 then 0x89 else if x == 0xE7 then 0xA7 else
    if x == 0xE8 then 0xB6 else if x == 0xE9 then 0x22 else if x == 0xEA then 0x92 else if x == 0xEB then 0x20 else
    if x == 0xEC then 0x49 else if x == 0xED then 0xFF else if x == 0xEE then 0x78 else 0x7A
  }

  function LowerRowF(x: bv8): bv8 {
    if x == 0xF0 then 0x8F else if x == 0xF1 then 0xF8 else if x == 0xF2 then 0x80 else if x == 0xF3 then 0x17 else
    if x == 0xF4 then 0xDA else if x == 0xF5 then 0x31 else if x == 0xF6 then 0xC6 else if x == 0xF7 then 0xB8 else
    if x == 0xF8 then 0xC3 else if x == 0xF9 then 0xB0 else if x == 0xFA then 0x77 else if x == 0xFB then 0x11 else
    if x == 0xFC then 0xCB else if x == 0xFD then 0xFC else if x == 0xFE then 0xD6 else 0x3A
  }

  /** `Tkip_Sbox_Upper`. */
  function Upper(x: bv8): bv8 {
    if x < 0x10 then UpperRow0(x)
    else if x < 0x20 then UpperRow1(x)
    else if x < 0x30 then UpperRow2(x)
    else if x < 0x40 then UpperRow3(x)
    else if x < 0x50 then UpperRow4(x)
    else if x < 0x60 then UpperRow5(x)
    else if x < 0x70 then UpperRow6(x)
    else if x < 0x80 then UpperRow7(x)
    else if x < 0x90 then UpperRow8(x)
    else if x < 0xA0 then UpperRow9(x)
    else if x < 0xB0 then UpperRowA(x)
    else if x < 0xC0 then UpperRowB(x)
    else if x < 0xD0 then UpperRowC(x)
    else if x < 0xE0 then UpperRowD(x)
    else if x < 0xF0 then UpperRowE(x)
    else UpperRowF(x)
  }

  function UpperRow0(x: bv8): bv8 {
    if x == 0x00 then 0xC6 else if x == 0x01 then 0xF8 else if x == 0x02 then 0xEE else if x == 0x03 then 0xF6 else
    if x == 0x04 then 0xFF else if x == 0x05 then 0xD6 else if x == 0x06 then 0xDE else if x == 0x07 then 0x91 else
    if x == 0x08 then 0x60 else if x == 0x09 then 0x02 else if x == 0x0A then 0xCE else if x == 0x0B then 0x56 else
    if x == 0x0C then 0xE7 else if x == 0x0D then 0xB5 else if x == 0x0E then 0x4D else 0xEC
  }

  function UpperRow1(x: bv8): bv8 {
    if x == 0x10 then 0x8F else if x == 0x11 then 0x1F else if x == 0x12 then 0x89 else if x == 0x13 then 0xFA else
    if x == 0x14 then 0xEF else if x == 0x15 then 0xB2 else if x == 0x16 then 0x8E else if x == 0x17 then 0xFB else
    if x == 0x18 then 0x41 else if x == 0x19 then 0xB3 else if x == 0x1A then 0x5F else if x == 0x1B then 0x45 else
    if x == 0x1C then 0x23 else if x == 0x1D then 0x53 else if x == 0x1E then 0xE4 else 0x9B
  }

  function UpperRow2(x: bv8): bv8 {
    if x == 0x20 then 0x75 else if x == 0x21 then 0xE1 else if x == 0x22 then 0x3D else if x == 0x23 then 0x4C else
    if x == 0x24 then 0x6C else if x == 0x25 then 0x7E else if x == 0x26 then 0xF5 else if x == 0x27 then 0x83 else
    if x == 0x28 then 0x68 else if x == 0x29 then 0x51 else if x == 0x2A then 0xD1 else if x == 0x2B then 0xF9 else
    if x == 0x2C then 0xE2 else if x == 0x2D then 0xAB else if x == 0x2E then 0x62 else 0x2A
  }

  function UpperRow3(x: bv8): bv8 {
    if x == 0x30 then 0x08 else if x == 0x31 then 0x95 else if x == 0x32 then 0x46 else if x == 0x33 then 0x9D else
    if x == 0x34 then 0x30 else if x == 0x35 then 0x37 else if x == 0x36 then 0x0A else if x == 0x37 then 0x2F else
    if x == 0x38 then 0x0E else if x == 0x39 then 0x24 else if x == 0x3A then 0x1B else if x == 0x3B then 0xDF else
    if x == 0x3C then 0xCD else if x == 0x3D then 0x4E else if x == 0x3E then 0x7F else 0xEA
  }

  function UpperRow4(x: bv8): bv8 {
    if x == 0x40 then 0x12 else if x == 0x41 then 0x1D else if x == 0x42 then 0x58 else if x == 0x43 then 0x34 else
    if x == 0x44 then 0x36 else if x == 0x45 then 0xDC else if x == 0x46 then 0xB4 else if x == 0x47 then 0x5B else
    if x == 0x48 then 0xA4 else if x == 0x49 then 0x76 else if x == 0x4A then 0xB7 else if x == 0x4B then 0x7D else
    if x == 0x4C then 0x52 else if x == 0x4D then 0xDD else if x == 0x4E then 0x5E else 0x13
  }

  function UpperRow5(x: bv8): bv8 {
    if x == 0x50 then 0xA6 else if x == 0x51 then 0xB9 else if x == 0x52 then 0x00 else if x == 0x53 then 0xC1 else
    if x == 0x54 then 0x40 else if x == 0x55 then 0xE3 else if x == 0x56 then 0x79 else if x == 0x57 then 0xB6 else
    if x == 0x58 then 0xD4 else if x == 0x59 then 0x8D else if x == 0x5A then 0x67 else if x == 0x5B then 0x72 else
    if x == 0x5C then 0x94 else if x == 0x5D then 0x98 else if x == 0x5E then 0xB0 else 0x85
  }

  function UpperRow6(x: bv8): bv8 {
    if x == 0x60 then 0xBB else if x == 0x61 then 0xC5 else if x == 0x62 then 0x4F else if x == 0x63 then 0xED else
    if x == 0x64 then 0x86 else if x == 0x65 then 0x9A else if x == 0x66 then 0x66 else if x == 0x67 then 0x11 else
    if x == 0x68 then 0x8A else if x == 0x69 then 0xE9 else if x == 0x6A then 0x04 else if x == 0x6B then 0xFE else
    if x == 0x6C then 0xA0 else if x == 0x6D then 0x78 else if x == 0x6E then 0x25 else 0x4B
  }

  function UpperRow7(x: bv8): bv8 {
    if x == 0x70 then 0xA2 else if x == 0x71 then 0x5D else if x == 0x72 then 0x80 else if x == 0x73 then 0x05 else
    if x == 0x74 then 0x3F else if x == 0x75 then 0x21 else if x == 0x76 then 0x70 else if x == 0x77 then 0xF1 else
    if x == 0x78 then 0x63 else if x == 0x79 then 0x77 else if x == 0x7A then 0xAF else if x == 0x7B then 0x42 else
    if x == 0x7C then 0x20 else if x == 0x7D then 0xE5 else if x == 0x7E then 0xFD else 0xBF
  }

  function UpperRow8(x: bv8): bv8 {
    if x == 0x80 then 0x81 else if x == 0x81 then 0x18 else if x == 0x82 then 0x26 else if x == 0x83 then 0xC3 else
    if x == 0x84 then 0xBE else if x == 0x85 then 0x35 else if x == 0x86 then 0x88 else if x == 0x87 then 0x2E else
    if x == 0x88 then 0x93 else if x == 0x89 then 0x55 else if x == 0x8A then 0xFC else if x == 0x8B then 0x7A else
    if x == 0x8C then 0xC8 else if x == 0x8D then 0xBA else if x == 0x8E then 0x32 else 0xE6
  }

  function UpperRow9(x: bv8): bv8 {
    if x == 0x90 then 0xC0 else if x == 0x91 then 0x19 else if x == 0x92 then 0x9E else if x == 0x93 then 0xA3 else
    if x == 0x94 then 0x44 else if x == 0x95 then 0x54 else if x == 0x96 then 0x3B else if x == 0x97 then 0x0B else
    if x == 0x98 then 0x8C else if x == 0x99 then 0xC7 else if x == 0x9A then 0x6B else if x == 0x9B then 0x28 else
    if x == 0x9C then 0xA7 else if x == 0x9D then 0xBC else if x == 0x9E then 0x16 else 0xAD
  }

  function UpperRowA(x: bv8): bv8 {
    if x == 0xA0 then 0xDB else if x == 0xA1 then 0x64 else if x == 0xA2 then 0x74 else if x == 0xA3 then 0x14 else
    if x == 0xA4 then 0x92 else if x == 0xA5 then 0x0C else if x == 0xA6 then 0x48 else if x == 0xA7 then 0xB8 else
    if x == 0xA8 then 0x9F else if x == 0xA9 then 0xBD else if x == 0xAA then 0x43 else if x == 0xAB then 0xC4 else
    if x == 0xAC then 0x39 else if x == 0xAD then 0x31 else if x == 0xAE then 0xD3 else 0xF2
  }

  function UpperRowB(x: bv8): bv8 {
    if x == 0xB0 then 0xD5 else if x == 0xB1 then 0x8B else if x == 0xB2 then 0x6E else if x == 0xB3 then 0xDA else
    if x == 0xB4 then 0x01 else if x == 0xB5 then 0xB1 else if x == 0xB6 then 0x9C else if x == 0xB7 then 0x49 else
    if x == 0xB8 then 0xD8 else if x == 0xB9 then 0xAC else if x == 0xBA then 0xF3 else if x == 0xBB then 0xCF else
    if x == 0xBC then 0xCA else if x == 0xBD then 0xF4 else if x == 0xBE then 0x47 else 0x10
  }

  function UpperRowC(x: bv8): bv8 {
    if x == 0xC0 then 0x6F else if x == 0xC1 then 0xF0 else if x == 0xC2 then 0x4A else if x == 0xC3 then 0x5C else
    if x == 0xC4 then 0x38 else if x == 0xC5 then 0x57 else if x == 0xC6 then 0x73 else if x == 0xC7 then 0x97 else
    if x == 0xC8 then 0xCB else if x == 0xC9 then 0xA1 else if x == 0xCA then 0xE8 else if x == 0xCB then 0x3E else
    if x == 0xCC then 0x96 else if x == 0xCD then 0x61 else if x == 0xCE then 0x0D else 0x0F
  }

  function UpperRowD(x: bv8): bv8 {
    if x == 0xD0 then 0xE0 else if x == 0xD1 then 0x7C else if x == 0xD2 then 0x71 else if x == 0xD3 then 0xCC else
    if x == 0xD4 then 0x90 else if x == 0xD5 then 0x06 else if x == 0xD6 then 0xF7 else if x == 0xD7 then 0x1C else
    if x == 0xD8 then 0xC2 else if x == 0xD9 then 0x6A else if x == 0xDA then 0xAE else if x == 0xDB then 0x69 else
    if x == 0xDC then 0x17 else if x == 0xDD then 0x99 else if x == 0xDE then 0x3A else 0x27
  }

  function UpperRowE(x: bv8): bv8 {
    if x == 0xE0 then 0xD9 else if x == 0xE1 then 0xEB else if x == 0xE2 then 0x2B else if x == 0xE3 then 0x22 else
    if x == 0xE4 then 0xD2 else if x == 0xE5 then 0xA9 else if x == 0xE6 then 0x07 else if x == 0xE7 then 0x33 else
    if x == 0xE8 then 0x2D else if x == 0xE9 then 0x3C else if x == 0xEA then 0x15 else if x == 0xEB then 0xC9 else
    if x == 0xEC then 0x87 else if x == 0xED then 0xAA else if x == 0xEE then 0x50 else 0xA5
  }

  function UpperRowF(x: bv8): bv8 {
    if x == 0xF0 then 0x03 else if x == 0xF1 then 0x59 else if x == 0xF2 then 0x09 else if x == 0xF3 then 0x1A else
    if x == 0xF4 then 0x65 else if x == 0xF5 then 0xD7 else if x == 0xF6 then 0x84 else if x == 0xF7 then 0xD0 else
    if x == 0xF8 then 0x82 else if x == 0xF9 then 0x29 else if x == 0xFA then 0x5A else if x == 0xFB then 0x1E else
    if x == 0xFC then 0x7B else if x == 0xFD then 0xA8 else if x == 0xFE then 0x6D else 0x2C
  }

  lemma Row0(x: bv8)
    requires x < 0x10
    ensures UpperRow0(x) == XTime(SboxRow0(x)) && LowerRow0(x) == Xor(XTime(SboxRow0(x)), SboxRow0(x))
  {
  }

  lemma Row1(x: bv8)
    requires 0x10 <= x < 0x20
    ensures UpperRow1(x) == XTime(SboxRow1(x)) && LowerRow1(x) == Xor(XTime(SboxRow1(x)), SboxRow1(x))
  {
  }

  lemma Row2(x: bv8)
    requires 0x20 <= x < 0x30
    ensures UpperRow2(x) == XTime(SboxRow2(x)) && LowerRow2(x) == Xor(XTime(SboxRow2(x)), SboxRow2(x))
  {
  }

  lemma Row3(x: bv8)
    requires 0x30 <= x < 0x40
    ensures UpperRow3(x) == XTime(SboxRow3(x)) && LowerRow3(x) == Xor(XTime(SboxRow3(x)), SboxRow3(x))
  {
  }

  lemma Row4(x: bv8)
    requires 0x40 <= x < 0x50
    ensures UpperRow4(x) == XTime(SboxRow4(x)) && LowerRow4(x) == Xor(XTime(SboxRow4(x)), SboxRow4(x))
  {
  }

  lemma Row5(x: bv8)
    requires 0x50 <= x < 0x60
    ensures UpperRow5(x) == XTime(SboxRow5(x)) && LowerRow5(x) == Xor(XTime(SboxRow5(x)), SboxRow5(x))
  {
  }

  lemma Row6(x: bv8)
    requires 0x60 <= x < 0x70
    ensures UpperRow6(x) == XTime(SboxRow6(x)) && LowerRow6(x) == Xor(XTime(SboxRow6(x)), SboxRow6(x))
  {
  }

  lemma Row7(x: bv8)
    requires 0x70 <= x < 0x80
    ensures UpperRow7(x) == XTime(SboxRow7(x)) && LowerRow7(x) == Xor(XTime(SboxRow7(x)), SboxRow7(x))
  {
  }

  lemma Row8(x: bv8)
    requires 0x80 <= x < 0x90
    ensures UpperRow8(x) == XTime(SboxRow8(x)) && LowerRow8(x) == Xor(XTime(SboxRow8(x)), SboxRow8(x))
  {
  }

  lemma Row9(x: bv8)
    requires 0x90 <= x < 0xA0
    ensures UpperRow9(x) == XTime(SboxRow9(x)) && LowerRow9(x) == Xor(XTime(SboxRow9(x)), SboxRow9(x))
  {
  }

  lemma RowA(x: bv8)
    requires 0xA0 <= x < 0xB0
    ensures UpperRowA(x) == XTime(SboxRowA(x)) && LowerRowA(x) == Xor(XTime(SboxRowA(x)), SboxRowA(x))
  {
  }

  lemma RowB(x: bv8)
    requires 0xB0 <= x < 0xC0
    ensures UpperRowB(x) == XTime(SboxRowB(x)) && LowerRowB(x) == Xor(XTime(SboxRowB(x)), SboxRowB(x))
  {
  }

  lemma RowC(x: bv8)
    requires 0xC0 <= x < 0xD0
    ensures UpperRowC(x) == XTime(SboxRowC(x)) && LowerRowC(x) == Xor(XTime(SboxRowC(x)), SboxRowC(x))
  {
  }

  lemma RowD(x: bv8)
    requires 0xD0 <= x < 0xE0
    ensures UpperRowD(x) == XTime(SboxRowD(x)) && LowerRowD(x) == Xor(XTime(SboxRowD(x)), SboxRowD(x))
  {
  }

  lemma RowE(x: bv8)
    requires 0xE0 <= x < 0xF0
    ensures UpperRowE(x) == XTime(SboxRowE(x)) && LowerRowE(x) == Xor(XTime(SboxRowE(x)), SboxRowE(x))
  {
  }

  lemma RowF(x: bv8)
    requires 0xF0 <= x
    ensures UpperRowF(x) == XTime(SboxRowF(x)) && LowerRowF(x) == Xor(XTime(SboxRowF(x)), SboxRowF(x))
  {
  }

  /** The two bytes of an entry are twice and three times the AES S-box entry. */
  lemma TkipIsAes(x: bv8)
    ensures Upper(x) == XTime(Sbox(x)) && Lower(x) == Xor(XTime(Sbox(x)), Sbox(x))
  {
    hide XTime, Xor, LowerRow0, LowerRow1, LowerRow2, LowerRow3, LowerRow4, LowerRow5, LowerRow6, LowerRow7, LowerRow8,
        LowerRow9, LowerRowA, LowerRowB, LowerRowC, LowerRowD, LowerRowE, LowerRowF;
    hide UpperRow0, UpperRow1, UpperRow2, UpperRow3, UpperRow4, UpperRow5, UpperRow6, UpperRow7, UpperRow8, UpperRow9,
        UpperRowA, UpperRowB, UpperRowC, UpperRowD, UpperRowE, UpperRowF;
    hide SboxRow0, SboxRow1, SboxRow2, SboxRow3, SboxRow4, SboxRow5, SboxRow6, SboxRow7, SboxRow8, SboxRow9, SboxRowA,
        SboxRowB, SboxRowC, SboxRowD, SboxRowE, SboxRowF;
    if x < 0x10 {
      Row0(x);
    } else if x < 0x20 {
      Row1(x);
    } else if x < 0x30 {
      Row2(x);
    } else if x < 0x40 {
      Row3(x);
    } else if x < 0x50 {
      Row4(x);
    } else if x < 0x60 {
      Row5(x);
    } else if x < 0x70 {
      Row6(x);
    } else if x < 0x80 {
      Row7(x);
    } else if x < 0x90 {
      Row8(x);
    } else if x < 0xA0 {
      Row9(x);
    } else if x < 0xB0 {
      RowA(x);
    } else if x < 0xC0 {
      RowB(x);
    } else if x < 0xD0 {
      RowC(x);
    } else if x < 0xE0 {
      RowD(x);
    } else if x < 0xF0 {
      RowE(x);
    } else {
      RowF(x);
    }
  }
}
