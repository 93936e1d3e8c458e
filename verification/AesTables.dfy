/** The 256-entry tables of common/cmm_aes.c, row by row, and the relations the ciphers rely on:
    the reverse S-box inverts the S-box, and the round tables hold the mixed columns of their outputs. */
module AesTables {
  import opened AesField
  import opened AesWords

  /** `SboxTable` and `FSb`, which hold the same bytes. */
  function Sbox(x: bv8): bv8 {
    if x < 0x10 then SboxRow0(x)
    else if x < 0x20 then SboxRow1(x)
    else if x < 0x30 then SboxRow2(x)
    else if x < 0x40 then SboxRow3(x)
    else if x < 0x50 then SboxRow4(x)
    else if x < 0x60 then SboxRow5(x)
    else if x < 0x70 then SboxRow6(x)
    else if x < 0x80 then SboxRow7(x)
    else if x < 0x90 then SboxRow8(x)
    else if x < 0xA0 then SboxRow9(x)
    else if x < 0xB0 then SboxRowA(x)
    else if x < 0xC0 then SboxRowB(x)
    else if x < 0xD0 then SboxRowC(x)
    else if x < 0xE0 then SboxRowD(x)
    else if x < 0xF0 then SboxRowE(x)
    else SboxRowF(x)
  }

  function SboxRow0(x: bv8): bv8 {
    if x == 0x00 then 0x63 else if x == 0x01 then 0x7C else if x == 0x02 then 0x77 else if x == 0x03 then 0x7B else
    if x == 0x04 then 0xF2 else if x == 0x05 then 0x6B else if x == 0x06 then 0x6F else if x == 0x07 then 0xC5 else
    if x == 0x08 then 0x30 else if x == 0x09 then 0x01 else if x == 0x0A then 0x67 else if x == 0x0B then 0x2B else
    if x == 0x0C then 0xFE else if x == 0x0D then 0xD7 else if x == 0x0E then 0xAB else 0x76
  }

  function SboxRow1(x: bv8): bv8 {
    if x == 0x10 then 0xCA else if x == 0x11 then 0x82 else if x == 0x12 then 0xC9 else if x == 0x13 then 0x7D else
    if x == 0x14 then 0xFA else if x == 0x15 then 0x59 else if x == 0x16 then 0x47 else if x == 0x17 then 0xF0 else
    if x == 0x18 then 0xAD else if x == 0x19 then 0xD4 else if x == 0x1A then 0xA2 else if x == 0x1B then 0xAF else
    if x == 0x1C then 0x9C else if x == 0x1D then 0xA4 else if x == 0x1E then 0x72 else 0xC0
  }

  function SboxRow2(x: bv8): bv8 {
    if x == 0x20 then 0xB7 else if x == 0x21 then 0xFD else if x == 0x22 then 0x93 else if x == 0x23 then 0x26 else
    if x == 0x24 then 0x36 else if x == 0x25 then 0x3F else if x == 0x26 then 0xF7 else if x == 0x27 then 0xCC else
    if x == 0x28 then 0x34 else if x == 0x29 then 0xA5 else if x == 0x2A then 0xE5 else if x == 0x2B then 0xF1 else
    if x == 0x2C then 0x71 else if x == 0x2D then 0xD8 else if x == 0x2E then 0x31 else 0x15
  }

  function SboxRow3(x: bv8): bv8 {
    if x == 0x30 then 0x04 else if x == 0x31 then 0xC7 else if x == 0x32 then 0x23 else if x == 0x33 then 0xC3 else
    if x == 0x34 then 0x18 else if x == 0x35 then 0x96 else if x == 0x36 then 0x05 else if x == 0x37 then 0x9A else
    if x == 0x38 then 0x07 else if x == 0x39 then 0x12 else if x == 0x3A then 0x80 else if x == 0x3B then 0xE2 else
    if x == 0x3C then 0xEB else if x == 0x3D then 0x27 else if x == 0x3E then 0xB2 else 0x75
  }

  function SboxRow4(x: bv8): bv8 {
    if x == 0x40 then 0x09 else if x == 0x41 then 0x83 else if x == 0x42 then 0x2C else if x == 0x43 then 0x1A else
    if x == 0x44 then 0x1B else if x == 0x45 then 0x6E else if x == 0x46 then 0x5A else if x == 0x47 then 0xA0 else
    if x == 0x48 then 0x52 else if x == 0x49 then 0x3B else if x == 0x4A then 0xD6 else if x == 0x4B then 0xB3 else
    if x == 0x4C then 0x29 else if x == 0x4D then 0xE3 else if x == 0x4E then 0x2F else 0x84
  }

  function SboxRow5(x: bv8): bv8 {
    if x == 0x50 then 0x53 else if x == 0x51 then 0xD1 else if x == 0x52 then 0x00 else if x == 0x53 then 0xED else
    if x == 0x54 then 0x20 else if x == 0x55 then 0xFC else if x == 0x56 then 0xB1 else if x == 0x57 then 0x5B else
    if x == 0x58 then 0x6A else if x == 0x59 then 0xCB else if x == 0x5A then 0xBE else if x == 0x5B then 0x39 else
    if x == 0x5C then 0x4A else if x == 0x5D then 0x4C else if x == 0x5E then 0x58 else 0xCF
  }

  function SboxRow6(x: bv8): bv8 {
    if x == 0x60 then 0xD0 else if x == 0x61 then 0xEF else if x == 0x62 then 0xAA else if x == 0x63 then 0xFB else
    if x == 0x64 then 0x43 else if x == 0x65 then 0x4D else if x == 0x66 then 0x33 else if x == 0x67 then 0x85 else
    if x == 0x68 then 0x45 else if x == 0x69 then 0xF9 else if x == 0x6A then 0x02 else if x == 0x6B then 0x7F else
    if x == 0x6C then 0x50 else if x == 0x6D then 0x3C else if x == 0x6E then 0x9F else 0xA8
  }

  function SboxRow7(x: bv8): bv8 {
    if x == 0x70 then 0x51 else if x == 0x71 then 0xA3 else if x == 0x72 then 0x40 else if x == 0x73 then 0x8F else
    if x == 0x74 then 0x92 else if x == 0x75 then 0x9D else if x == 0x76 then 0x38 else if x == 0x77 then 0xF5 else
    if x == 0x78 then 0xBC else if x == 0x79 then 0xB6 else if x == 0x7A then 0xDA else if x == 0x7B then 0x21 else
    if x == 0x7C then 0x10 else if x == 0x7D then 0xFF else if x == 0x7E then 0xF3 else 0xD2
  }

  function SboxRow8(x: bv8): bv8 {
    if x == 0x80 then 0xCD else if x == 0x81 then 0x0C else if x == 0x82 then 0x13 else if x == 0x83 then 0xEC else
    if x == 0x84 then 0x5F else if x == 0x85 then 0x97 else if x == 0x86 then 0x44 else if x == 0x87 then 0x17 else
    if x == 0x88 then 0xC4 else if x == 0x89 then 0xA7 else if x == 0x8A then 0x7E else if x == 0x8B then 0x3D else
    if x == 0x8C then 0x64 else if x == 0x8D then 0x5D else if x == 0x8E then 0x19 else 0x73
  }

  function SboxRow9(x: bv8): bv8 {
    if x == 0x90 then 0x60 else if x == 0x91 then 0x81 else if x == 0x92 then 0x4F else if x == 0x93 then 0xDC else
    if x == 0x94 then 0x22 else if x == 0x95 then 0x2A else if x == 0x96 then 0x90 else if x == 0x97 then 0x88 else
    if x == 0x98 then 0x46 else if x == 0x99 then 0xEE else if x == 0x9A then 0xB8 else if x == 0x9B then 0x14 else
    if x == 0x9C then 0xDE else if x == 0x9D then 0x5E else if x == 0x9E then 0x0B else 0xDB
  }

  function SboxRowA(x: bv8): bv8 {
    if x == 0xA0 then 0xE0 else if x == 0xA1 then 0x32 else if x == 0xA2 then 0x3A else if x == 0xA3 then 0x0A else
    if x == 0xA4 then 0x49 else if x == 0xA5 then 0x06 else if x == 0xA6 then 0x24 else if x == 0xA7 then 0x5C else
    if x == 0xA8 then 0xC2 else if x == 0xA9 then 0xD3 else if x == 0xAA then 0xAC else if x == 0xAB then 0x62 else
    if x == 0xAC then 0x91 else if x == 0xAD then 0x95 else if x == 0xAE then 0xE4 else 0x79
  }

  function SboxRowB(x: bv8): bv8 {
    if x == 0xB0 then 0xE7 else if x == 0xB1 then 0xC8 else if x == 0xB2 then 0x37 else if x == 0xB3 then 0x6D else
    if x == 0xB4 then 0x8D else if x == 0xB5 then 0xD5 else if x == 0xB6 then 0x4E else if x == 0xB7 then 0xA9 else
    if x == 0xB8 then 0x6C else if x == 0xB9 then 0x56 else if x == 0xBA then 0xF4 else if x == 0xBB then 0xEA else
    if x == 0xBC then 0x65 else if x == 0xBD then 0x7A else if x == 0xBE then 0xAE else 0x08
  }

  function SboxRowC(x: bv8): bv8 {
    if x == 0xC0 then 0xBA else if x == 0xC1 then 0x78 else if x == 0xC2 then 0x25 else if x == 0xC3 then 0x2E else
    if x == 0xC4 then 0x1C else if x == 0xC5 then 0xA6 else if x == 0xC6 then 0xB4 else if x == 0xC7 then 0xC6 else
    if x == 0xC8 then 0xE8 else if x == 0xC9 then 0xDD else if x == 0xCA then 0x74 else if x == 0xCB then 0x1F else
    if x == 0xCC then 0x4B else if x == 0xCD then 0xBD else if x == 0xCE then 0x8B else 0x8A
  }

  function SboxRowD(x: bv8): bv8 {
    if x == 0xD0 then 0x70 else if x == 0xD1 then 0x3E else if x == 0xD2 then 0xB5 else if x == 0xD3 then 0x66 else
    if x == 0xD4 then 0x48 else if x == 0xD5 then 0x03 else if x == 0xD6 then 0xF6 else if x == 0xD7 then 0x0E else
    if x == 0xD8 then 0x61 else if x == 0xD9 then 0x35 else if x == 0xDA then 0x57 else if x == 0xDB then 0xB9 else
    if x == 0xDC then 0x86 else if x == 0xDD then 0xC1 else if x == 0xDE then 0x1D else 0x9E
  }

  function SboxRowE(x: bv8): bv8 {
    if x == 0xE0 then 0xE1 else if x == 0xE1 then 0xF8 else if x == 0xE2 then 0x98 else if x == 0xE3 then 0x11 else
    if x == 0xE4 then 0x69 else if x == 0xE5 then 0xD9 else if x == 0xE6 then 0x8E else if x == 0xE7 then 0x94 else
    if x == 0xE8 then 0x9B else if x == 0xE9 then 0x1E else if x == 0xEA then 0x87 else if x == 0xEB then 0xE9 else
    if x == 0xEC then 0xCE else if x == 0xED then 0x55 else if x == 0xEE then 0x28 else 0xDF
  }

  function SboxRowF(x: bv8): bv8 {
    if x == 0xF0 then 0x8C else if x == 0xF1 then 0xA1 else if x == 0xF2 then 0x89 else if x == 0xF3 then 0x0D else
    if x == 0xF4 then 0xBF else if x == 0xF5 then 0xE6 else if x == 0xF6 then 0x42 else if x == 0xF7 then 0x68 else
    if x == 0xF8 then 0x41 else if x == 0xF9 then 0x99 else if x == 0xFA then 0x2D else if x == 0xFB then 0x0F else
    if x == 0xFC then 0xB0 else if x == 0xFD then 0x54 else if x == 0xFE then 0xBB else 0x16
  }

  /** `RSb`. */
  function InvSbox(x: bv8): bv8 {
    if x < 0x10 then InvSboxRow0(x)
    else if x < 0x20 then InvSboxRow1(x)
    else if x < 0x30 then InvSboxRow2(x)
    else if x < 0x40 then InvSboxRow3(x)
    else if x < 0x50 then InvSboxRow4(x)
    else if x < 0x60 then InvSboxRow5(x)
    else if x < 0x70 then InvSboxRow6(x)
    else if x < 0x80 then InvSboxRow7(x)
    else if x < 0x90 then InvSboxRow8(x)
    else if x < 0xA0 then InvSboxRow9(x)
    else if x < 0xB0 then InvSboxRowA(x)
    else if x < 0xC0 then InvSboxRowB(x)
    else if x < 0xD0 then InvSboxRowC(x)
    else if x < 0xE0 then InvSboxRowD(x)
    else if x < 0xF0 then InvSboxRowE(x)
    else InvSboxRowF(x)
  }

  function InvSboxRow0(x: bv8): bv8 {
    if x == 0x00 then 0x52 else if x == 0x01 then 0x09 else if x == 0x02 then 0x6A else if x == 0x03 then 0xD5 else
    if x == 0x04 then 0x30 else if x == 0x05 then 0x36 else if x == 0x06 then 0xA5 else if x == 0x07 then 0x38 else
    if x == 0x08 then 0xBF else if x == 0x09 then 0x40 else if x == 0x0A then 0xA3 else if x == 0x0B then 0x9E else
    if x == 0x0C then 0x81 else if x == 0x0D then 0xF3 else if x == 0x0E then 0xD7 else 0xFB
  }

  function InvSboxRow1(x: bv8): bv8 {
    if x == 0x10 then 0x7C else if x == 0x11 then 0xE3 else if x == 0x12 then 0x39 else if x == 0x13 then 0x82 else
    if x == 0x14 then 0x9B else if x == 0x15 then 0x2F else if x == 0x16 then 0xFF else if x == 0x17 then 0x87 else
    if x == 0x18 then 0x34 else if x == 0x19 then 0x8E else if x == 0x1A then 0x43 else if x == 0x1B then 0x44 else
    if x == 0x1C then 0xC4 else if x == 0x1D then 0xDE else if x == 0x1E then 0xE9 else 0xCB
  }

  function InvSboxRow2(x: bv8): bv8 {
    if x == 0x20 then 0x54 else if x == 0x21 then 0x7B else if x == 0x22 then 0x94 else if x == 0x23 then 0x32 else
    if x == 0x24 then 0xA6 else if x == 0x25 then 0xC2 else if x == 0x26 then 0x23 else if x == 0x27 then 0x3D else
    if x == 0x28 then 0xEE else if x == 0x29 then 0x4C else if x == 0x2A then 0x95 else if x == 0x2B then 0x0B else
    if x == 0x2C then 0x42 else if x == 0x2D then 0xFA else if x == 0x2E then 0xC3 else 0x4E
  }

  function InvSboxRow3(x: bv8): bv8 {
    if x == 0x30 then 0x08 else if x == 0x31 then 0x2E else if x == 0x32 then 0xA1 else if x == 0x33 then 0x66 else
    if x == 0x34 then 0x28 else if x == 0x35 then 0xD9 else if x == 0x36 then 0x24 else if x == 0x37 then 0xB2 else
    if x == 0x38 then 0x76 else if x == 0x39 then 0x5B else if x == 0x3A then 0xA2 else if x == 0x3B then 0x49 else
    if x == 0x3C then 0x6D else if x == 0x3D then 0x8B else if x == 0x3E then 0xD1 else 0x25
  }

  function InvSboxRow4(x: bv8): bv8 {
    if x == 0x40 then 0x72 else if x == 0x41 then 0xF8 else if x == 0x42 then 0xF6 else if x == 0x43 then 0x64 else
    if x == 0x44 then 0x86 else if x == 0x45 then 0x68 else if x == 0x46 then 0x98 else if x == 0x47 then 0x16 else
    if x == 0x48 then 0xD4 else if x == 0x49 then 0xA4 else if x == 0x4A then 0x5C else if x == 0x4B then 0xCC else
    if x == 0x4C then 0x5D else if x == 0x4D then 0x65 else if x == 0x4E then 0xB6 else 0x92
  }

  function InvSboxRow5(x: bv8): bv8 {
    if x == 0x50 then 0x6C else if x == 0x51 then 0x70 else if x == 0x52 then 0x48 else if x == 0x53 then 0x50 else
    if x == 0x54 then 0xFD else if x == 0x55 then 0xED else if x == 0x56 then 0xB9 else if x == 0x57 then 0xDA else
    if x == 0x58 then 0x5E else if x == 0x59 then 0x15 else if x == 0x5A then 0x46 else if x == 0x5B then 0x57 else
    if x == 0x5C then 0xA7 else if x == 0x5D then 0x8D else if x == 0x5E then 0x9D else 0x84
  }

  function InvSboxRow6(x: bv8): bv8 {
    if x == 0x60 then 0x90 else if x == 0x61 then 0xD8 else if x == 0x62 then 0xAB else if x == 0x63 then 0x00 else
    if x == 0x64 then 0x8C else if x == 0x65 then 0xBC else if x == 0x66 then 0xD3 else if x == 0x67 then 0x0A else
    if x == 0x68 then 0xF7 else if x == 0x69 then 0xE4 else if x == 0x6A then 0x58 else if x == 0x6B then 0x05 else
    if x == 0x6C then 0xB8 else if x == 0x6D then 0xB3 else if x == 0x6E then 0x45 else 0x06
  }

  function InvSboxRow7(x: bv8): bv8 {
    if x == 0x70 then 0xD0 else if x == 0x71 then 0x2C else if x == 0x72 then 0x1E else if x == 0x73 then 0x8F else
    if x == 0x74 then 0xCA else if x == 0x75 then 0x3F else if x == 0x76 then 0x0F else if x == 0x77 then 0x02 else
    if x == 0x78 then 0xC1 else if x == 0x79 then 0xAF else if x == 0x7A then 0xBD else if x == 0x7B then 0x03 else
    if x == 0x7C then 0x01 else if x == 0x7D then 0x13 else if x == 0x7E then 0x8A else 0x6B
  }

  function InvSboxRow8(x: bv8): bv8 {
    if x == 0x80 then 0x3A else if x == 0x81 then 0x91 else if x == 0x82 then 0x11 else if x == 0x83 then 0x41 else
    if x == 0x84 then 0x4F else if x == 0x85 then 0x67 else if x == 0x86 then 0xDC else if x == 0x87 then 0xEA else
    if x == 0x88 then 0x97 else if x == 0x89 then 0xF2 else if x == 0x8A then 0xCF else if x == 0x8B then 0xCE else
    if x == 0x8C then 0xF0 else if x == 0x8D then 0xB4 else if x == 0x8E then 0xE6 else 0x73
  }

  function InvSboxRow9(x: bv8): bv8 {
    if x == 0x90 then 0x96 else if x == 0x91 then 0xAC else if x == 0x92 then 0x74 else if x == 0x93 then 0x22 else
    if x == 0x94 then 0xE7 else if x == 0x95 then 0xAD else if x == 0x96 then 0x35 else if x == 0x97 then 0x85 else
    if x == 0x98 then 0xE2 else if x == 0x99 then 0xF9 else if x == 0x9A then 0x37 else if x == 0x9B then 0xE8 else
    if x == 0x9C then 0x1C else if x == 0x9D then 0x75 else if x == 0x9E then 0xDF else 0x6E
  }

  function InvSboxRowA(x: bv8): bv8 {
    if x == 0xA0 then 0x47 else if x == 0xA1 then 0xF1 else if x == 0xA2 then 0x1A else if x == 0xA3 then 0x71 else
    if x == 0xA4 then 0x1D else if x == 0xA5 then 0x29 else if x == 0xA6 then 0xC5 else if x == 0xA7 then 0x89 else
    if x == 0xA8 then 0x6F else if x == 0xA9 then 0xB7 else if x == 0xAA then 0x62 else if x == 0xAB then 0x0E else
    if x == 0xAC then 0xAA else if x == 0xAD then 0x18 else if x == 0xAE then 0xBE else 0x1B
  }

  function InvSboxRowB(x: bv8): bv8 {
    if x == 0xB0 then 0xFC else if x == 0xB1 then 0x56 else if x == 0xB2 then 0x3E else if x == 0xB3 then 0x4B else
    if x == 0xB4 then 0xC6 else if x == 0xB5 then 0xD2 else if x == 0xB6 then 0x79 else if x == 0xB7 then 0x20 else
    if x == 0xB8 then 0x9A else if x == 0xB9 then 0xDB else if x == 0xBA then 0xC0 else if x == 0xBB then 0xFE else
    if x == 0xBC then 0x78 else if x == 0xBD then 0xCD else if x == 0xBE then 0x5A else 0xF4
  }

  function InvSboxRowC(x: bv8): bv8 {
    if x == 0xC0 then 0x1F else if x == 0xC1 then 0xDD else if x == 0xC2 then 0xA8 else if x == 0xC3 then 0x33 else
    if x == 0xC4 then 0x88 else if x == 0xC5 then 0x07 else if x == 0xC6 then 0xC7 else if x == 0xC7 then 0x31 else
    if x == 0xC8 then 0xB1 else if x == 0xC9 then 0x12 else if x == 0xCA then 0x10 else if x == 0xCB then 0x59 else
    if x == 0xCC then 0x27 else if x == 0xCD then 0x80 else if x == 0xCE then 0xEC else 0x5F
  }

  function InvSboxRowD(x: bv8): bv8 {
    if x == 0xD0 then 0x60 else if x == 0xD1 then 0x51 else if x == 0xD2 then 0x7F else if x == 0xD3 then 0xA9 else
    if x == 0xD4 then 0x19 else if x == 0xD5 then 0xB5 else if x == 0xD6 then 0x4A else if x == 0xD7 then 0x0D else
    if x == 0xD8 then 0x2D else if x == 0xD9 then 0xE5 else if x == 0xDA then 0x7A else if x == 0xDB then 0x9F else
    if x == 0xDC then 0x93 else if x == 0xDD then 0xC9 else if x == 0xDE then 0x9C else 0xEF
  }

  function InvSboxRowE(x: bv8): bv8 {
    if x == 0xE0 then 0xA0 else if x == 0xE1 then 0xE0 else if x == 0xE2 then 0x3B else if x == 0xE3 then 0x4D else
    if x == 0xE4 then 0xAE else if x == 0xE5 then 0x2A else if x == 0xE6 then 0xF5 else if x == 0xE7 then 0xB0 else
    if x == 0xE8 then 0xC8 else if x == 0xE9 then 0xEB else if x == 0xEA then 0xBB else if x == 0xEB then 0x3C else
    if x == 0xEC then 0x83 else if x == 0xED then 0x53 else if x == 0xEE then 0x99 else 0x61
  }

  function InvSboxRowF(x: bv8): bv8 {
    if x == 0xF0 then 0x17 else if x == 0xF1 then 0x2B else if x == 0xF2 then 0x04 else if x == 0xF3 then 0x7E else
    if x == 0xF4 then 0xBA else if x == 0xF5 then 0x77 else if x == 0xF6 then 0xD6 else if x == 0xF7 then 0x26 else
    if x == 0xF8 then 0xE1 else if x == 0xF9 then 0x69 else if x == 0xFA then 0x14 else if x == 0xFB then 0x63 else
    if x == 0xFC then 0x55 else if x == 0xFD then 0x21 else if x == 0xFE then 0x0C else 0x7D
  }

  /** `FT0`, the entries as they are listed. */
  function FT0(x: bv8): bv32 {
    if x < 0x10 then FT0Row0(x)
    else if x < 0x20 then FT0Row1(x)
    else if x < 0x30 then FT0Row2(x)
    else if x < 0x40 then FT0Row3(x)
    else if x < 0x50 then FT0Row4(x)
    else if x < 0x60 then FT0Row5(x)
    else if x < 0x70 then FT0Row6(x)
    else if x < 0x80 then FT0Row7(x)
    else if x < 0x90 then FT0Row8(x)
    else if x < 0xA0 then FT0Row9(x)
    else if x < 0xB0 then FT0RowA(x)
    else if x < 0xC0 then FT0RowB(x)
    else if x < 0xD0 then FT0RowC(x)
    else if x < 0xE0 then FT0RowD(x)
    else if x < 0xF0 then FT0RowE(x)
    else FT0RowF(x)
  }

  function FT0Row0(x: bv8): bv32 {
    if x == 0x00 then 0xC66363A5 else if x == 0x01 then 0xF87C7C84 else if x == 0x02 then 0xEE777799 else
    if x == 0x03 then 0xF67B7B8D else if x == 0x04 then 0xFFF2F20D else if x == 0x05 then 0xD66B6BBD else
    if x == 0x06 then 0xDE6F6FB1 else if x == 0x07 then 0x91C5C554 else if x == 0x08 then 0x60303050 else
    if x == 0x09 then 0x02010103 else if x == 0x0A then 0xCE6767A9 else if x == 0x0B then 0x562B2B7D else
    if x == 0x0C then 0xE7FEFE19 else if x == 0x0D then 0xB5D7D762 else if x == 0x0E then 0x4DABABE6 else 0xEC76769A
  }

  function FT0Row1(x: bv8): bv32 {
    if x == 0x10 then 0x8FCACA45 else if x == 0x11 then 0x1F82829D else if x == 0x12 then 0x89C9C940 else
    if x == 0x13 then 0xFA7D7D87 else if x == 0x14 then 0xEFFAFA15 else if x == 0x15 then 0xB25959EB else
    if x == 0x16 then 0x8E4747C9 else if x == 0x17 then 0xFBF0F00B else if x == 0x18 then 0x41ADADEC else
    if x == 0x19 then 0xB3D4D467 else if x == 0x1A then 0x5FA2A2FD else if x == 0x1B then 0x45AFAFEA else
    if x == 0x1C then 0x239C9CBF else if x == 0x1D then 0x53A4A4F7 else if x == 0x1E then 0xE4727296 else 0x9BC0C05B
  }

  function FT0Row2(x: bv8): bv32 {
    if x == 0x20 then 0x75B7B7C2 else if x == 0x21 then 0xE1FDFD1C else if x == 0x22 then 0x3D9393AE else
    if x == 0x23 then 0x4C26266A else if x == 0x24 then 0x6C36365A else if x == 0x25 then 0x7E3F3F41 else
    if x == 0x26 then 0xF5F7F702 else if x == 0x27 then 0x83CCCC4F else if x == 0x28 then 0x6834345C else
    if x == 0x29 then 0x51A5A5F4 else if x == 0x2A then 0xD1E5E534 else if x == 0x2B then 0xF9F1F108 else
    if x == 0x2C then 0xE2717193 else if x == 0x2D then 0xABD8D873 else if x == 0x2E then 0x62313153 else 0x2A15153F
  }

  function FT0Row3(x: bv8): bv32 {
    if x == 0x30 then 0x0804040C else if x == 0x31 then 0x95C7C752 else if x == 0x32 then 0x46232365 else
    if x == 0x33 then 0x9DC3C35E else if x == 0x34 then 0x30181828 else if x == 0x35 then 0x379696A1 else
    if x == 0x36 then 0x0A05050F else if x == 0x37 then 0x2F9A9AB5 else if x == 0x38 then 0x0E070709 else
    if x == 0x39 then 0x24121236 else if x == 0x3A then 0x1B80809B else if x == 0x3B then 0xDFE2E23D else
    if x == 0x3C then 0xCDEBEB26 else if x == 0x3D then 0x4E272769 else if x == 0x3E then 0x7FB2B2CD else 0xEA75759F
  }

  function FT0Row4(x: bv8): bv32 {
    if x == 0x40 then 0x1209091B else if x == 0x41 then 0x1D83839E else if x == 0x42 then 0x582C2C74 else
    if x == 0x43 then 0x341A1A2E else if x == 0x44 then 0x361B1B2D else if x == 0x45 then 0xDC6E6EB2 else
    if x == 0x46 then 0xB45A5AEE else if x == 0x47 then 0x5BA0A0FB else if x == 0x48 then 0xA45252F6 else
    if x == 0x49 then 0x763B3B4D else if x == 0x4A then 0xB7D6D661 else if x == 0x4B then 0x7DB3B3CE else
    if x == 0x4C then 0x5229297B else if x == 0x4D then 0xDDE3E33E else if x == 0x4E then 0x5E2F2F71 else 0x13848497
  }

  function FT0Row5(x: bv8): bv32 {
    if x == 0x50 then 0xA65353F5 else if x == 0x51 then 0xB9D1D168 else if x == 0x52 then 0x00000000 else
    if x == 0x53 then 0xC1EDED2C else if x == 0x54 then 0x40202060 else if x == 0x55 then 0xE3FCFC1F else
    if x == 0x56 then 0x79B1B1C8 else if x == 0x57 then 0xB65B5BED else if x == 0x58 then 0xD46A6ABE else
    if x == 0x59 then 0x8DCBCB46 else if x == 0x5A then 0x67BEBED9 else if x == 0x5B then 0x7239394B else
    if x == 0x5C then 0x944A4ADE else if x == 0x5D then 0x984C4CD4 else if x == 0x5E then 0xB05858E8 else 0x85CFCF4A
  }

  function FT0Row6(x: bv8): bv32 {
    if x == 0x60 then 0xBBD0D06B else if x == 0x61 then 0xC5EFEF2A else if x == 0x62 then 0x4FAAAAE5 else
    if x == 0x63 then 0xEDFBFB16 else if x == 0x64 then 0x864343C5 else if x == 0x65 then 0x9A4D4DD7 else
    if x == 0x66 then 0x66333355 else if x == 0x67 then 0x11858594 else if x == 0x68 then 0x8A4545CF else
    if x == 0x69 then 0xE9F9F910 else if x == 0x6A then 0x04020206 else if x == 0x6B then 0xFE7F7F81 else
    if x == 0x6C then 0xA05050F0 else if x == 0x6D then 0x783C3C44 else if x == 0x6E then 0x259F9FBA else 0x4BA8A8E3
  }

  function FT0Row7(x: bv8): bv32 {
    if x == 0x70 then 0xA25151F3 else if x == 0x71 then 0x5DA3A3FE else if x == 0x72 then 0x804040C0 else
    if x == 0x73 then 0x058F8F8A else if x == 0x74 then 0x3F9292AD else if x == 0x75 then 0x219D9DBC else
    if x == 0x76 then 0x70383848 else if x == 0x77 then 0xF1F5F504 else if x == 0x78 then 0x63BCBCDF else
    if x == 0x79 then 0x77B6B6C1 else if x == 0x7A then 0xAFDADA75 else if x == 0x7B then 0x42212163 else
    if x == 0x7C then 0x20101030 else if x == 0x7D then 0xE5FFFF1A else if x == 0x7E then 0xFDF3F30E else 0xBFD2D26D
  }

  function FT0Row8(x: bv8): bv32 {
    if x == 0x80 then 0x81CDCD4C else if x == 0x81 then 0x180C0C14 else if x == 0x82 then 0x26131335 else
    if x == 0x83 then 0xC3ECEC2F else if x == 0x84 then 0xBE5F5FE1 else if x == 0x85 then 0x359797A2 else
    if x == 0x86 then 0x884444CC else if x == 0x87 then 0x2E171739 else if x == 0x88 then 0x93C4C457 else
    if x == 0x89 then 0x55A7A7F2 else if x == 0x8A then 0xFC7E7E82 else if x == 0x8B then 0x7A3D3D47 else
    if x == 0x8C then 0xC86464AC else if x == 0x8D then 0xBA5D5DE7 else if x == 0x8E then 0x3219192B else 0xE6737395
  }

  function FT0Row9(x: bv8): bv32 {
    if x == 0x90 then 0xC06060A0 else if x == 0x91 then 0x19818198 else if x == 0x92 then 0x9E4F4FD1 else
    if x == 0x93 then 0xA3DCDC7F else if x == 0x94 then 0x44222266 else if x == 0x95 then 0x542A2A7E else
    if x == 0x96 then 0x3B9090AB else if x == 0x97 then 0x0B888883 else if x == 0x98 then 0x8C4646CA else
    if x == 0x99 then 0xC7EEEE29 else if x == 0x9A then 0x6BB8B8D3 else if x == 0x9B then 0x2814143C else
    if x == 0x9C then 0xA7DEDE79 else if x == 0x9D then 0xBC5E5EE2 else if x == 0x9E then 0x160B0B1D else 0xADDBDB76
  }

  function FT0RowA(x: bv8): bv32 {
    if x == 0xA0 then 0xDBE0E03B else if x == 0xA1 then 0x64323256 else if x == 0xA2 then 0x743A3A4E else
    if x == 0xA3 then 0x140A0A1E else if x == 0xA4 then 0x924949DB else if x == 0xA5 then 0x0C06060A else
    if x == 0xA6 then 0x4824246C else if x == 0xA7 then 0xB85C5CE4 else if x == 0xA8 then 0x9FC2C25D else
    if x == 0xA9 then 0xBDD3D36E else if x == 0xAA then 0x43ACACEF else if x == 0xAB then 0xC46262A6 else
    if x == 0xAC then 0x399191A8 else if x == 0xAD then 0x319595A4 else if x == 0xAE then 0xD3E4E437 else 0xF279798B
  }

  function FT0RowB(x: bv8): bv32 {
    if x == 0xB0 then 0xD5E7E732 else if x == 0xB1 then 0x8BC8C843 else if x == 0xB2 then 0x6E373759 else
    if x == 0xB3 then 0xDA6D6DB7 else if x == 0xB4 then 0x018D8D8C else if x == 0xB5 then 0xB1D5D564 else
    if x == 0xB6 then 0x9C4E4ED2 else if x == 0xB7 then 0x49A9A9E0 else if x == 0xB8 then 0xD86C6CB4 else
    if x == 0xB9 then 0xAC5656FA else if x == 0xBA then 0xF3F4F407 else if x == 0xBB then 0xCFEAEA25 else
    if x == 0xBC then 0xCA6565AF else if x == 0xBD then 0xF47A7A8E else if x == 0xBE then 0x47AEAEE9 else 0x10080818
  }

  function FT0RowC(x: bv8): bv32 {
    if x == 0xC0 then 0x6FBABAD5 else if x == 0xC1 then 0xF0787888 else if x == 0xC2 then 0x4A25256F else
    if x == 0xC3 then 0x5C2E2E72 else if x == 0xC4 then 0x381C1C24 else if x == 0xC5 then 0x57A6A6F1 else
    if x == 0xC6 then 0x73B4B4C7 else if x == 0xC7 then 0x97C6C651 else if x == 0xC8 then 0xCBE8E823 else
    if x == 0xC9 then 0xA1DDDD7C else if x == 0xCA then 0xE874749C else if x == 0xCB then 0x3E1F1F21 else
    if x == 0xCC then 0x964B4BDD else if x == 0xCD then 0x61BDBDDC else if x == 0xCE then 0x0D8B8B86 else 0x0F8A8A85
  }

  function FT0RowD(x: bv8): bv32 {
    if x == 0xD0 then 0xE0707090 else if x == 0xD1 then 0x7C3E3E42 else if x == 0xD2 then 0x71B5B5C4 else
    if x == 0xD3 then 0xCC6666AA else if x == 0xD4 then 0x904848D8 else if x == 0xD5 then 0x06030305 else
    if x == 0xD6 then 0xF7F6F601 else if x == 0xD7 then 0x1C0E0E12 else if x == 0xD8 then 0xC26161A3 else
    if x == 0xD9 then 0x6A35355F else if x == 0xDA then 0xAE5757F9 else if x == 0xDB then 0x69B9B9D0 else
    if x == 0xDC then 0x17868691 else if x == 0xDD then 0x99C1C158 else if x == 0xDE then 0x3A1D1D27 else 0x279E9EB9
  }

  function FT0RowE(x: bv8): bv32 {
    if x == 0xE0 then 0xD9E1E138 else if x == 0xE1 then 0xEBF8F813 else if x == 0xE2 then 0x2B9898B3 else
    if x == 0xE3 then 0x22111133 else if x == 0xE4 then 0xD26969BB else if x == 0xE5 then 0xA9D9D970 else
    if x == 0xE6 then 0x078E8E89 else if x == 0xE7 then 0x339494A7 else if x == 0xE8 then 0x2D9B9BB6 else
    if x == 0xE9 then 0x3C1E1E22 else if x == 0xEA then 0x15878792 else if x == 0xEB then 0xC9E9E920 else
    if x == 0xEC then 0x87CECE49 else if x == 0xED then 0xAA5555FF else if x == 0xEE then 0x50282878 else 0xA5DFDF7A
  }

  function FT0RowF(x: bv8): bv32 {
    if x == 0xF0 then 0x038C8C8F else if x == 0xF1 then 0x59A1A1F8 else if x == 0xF2 then 0x09898980 else
    if x == 0xF3 then 0x1A0D0D17 else if x == 0xF4 then 0x65BFBFDA else if x == 0xF5 then 0xD7E6E631 else
    if x == 0xF6 then 0x844242C6 else if x == 0xF7 then 0xD06868B8 else if x == 0xF8 then 0x824141C3 else
    if x == 0xF9 then 0x299999B0 else if x == 0xFA then 0x5A2D2D77 else if x == 0xFB then 0x1E0F0F11 else
    if x == 0xFC then 0x7BB0B0CB else if x == 0xFD then 0xA85454FC else if x == 0xFE then 0x6DBBBBD6 else 0x2C16163A
  }

  /** `RT0`. */
  function RT0(x: bv8): bv32 {
    if x < 0x10 then RT0Row0(x)
    else if x < 0x20 then RT0Row1(x)
    else if x < 0x30 then RT0Row2(x)
    else if x < 0x40 then RT0Row3(x)
    else if x < 0x50 then RT0Row4(x)
    else if x < 0x60 then RT0Row5(x)
    else if x < 0x70 then RT0Row6(x)
    else if x < 0x80 then RT0Row7(x)
    else if x < 0x90 then RT0Row8(x)
    else if x < 0xA0 then RT0Row9(x)
    else if x < 0xB0 then RT0RowA(x)
    else if x < 0xC0 then RT0RowB(x)
    else if x < 0xD0 then RT0RowC(x)
    else if x < 0xE0 then RT0RowD(x)
    else if x < 0xF0 then RT0RowE(x)
    else RT0RowF(x)
  }

  function RT0Row0(x: bv8): bv32 {
    if x == 0x00 then 0x51F4A750 else if x == 0x01 then 0x7E416553 else if x == 0x02 then 0x1A17A4C3 else
    if x == 0x03 then 0x3A275E96 else if x == 0x04 then 0x3BAB6BCB else if x == 0x05 then 0x1F9D45F1 else
    if x == 0x06 then 0xACFA58AB else if x == 0x07 then 0x4BE30393 else if x == 0x08 then 0x2030FA55 else
    if x == 0x09 then 0xAD766DF6 else if x == 0x0A then 0x88CC7691 else if x == 0x0B then 0xF5024C25 else
    if x == 0x0C then 0x4FE5D7FC else if x == 0x0D then 0xC52ACBD7 else if x == 0x0E then 0x26354480 else 0xB562A38F
  }

  function RT0Row1(x: bv8): bv32 {
    if x == 0x10 then 0xDEB15A49 else if x == 0x11 then 0x25BA1B67 else if x == 0x12 then 0x45EA0E98 else
    if x == 0x13 then 0x5DFEC0E1 else if x == 0x14 then 0xC32F7502 else if x == 0x15 then 0x814CF012 else
    if x == 0x16 then 0x8D4697A3 else if x == 0x17 then 0x6BD3F9C6 else if x == 0x18 then 0x038F5FE7 else
    if x == 0x19 then 0x15929C95 else if x == 0x1A then 0xBF6D7AEB else if x == 0x1B then 0x955259DA else
    if x == 0x1C then 0xD4BE832D else if x == 0x1D then 0x587421D3 else if x == 0x1E then 0x49E06929 else 0x8EC9C844
  }

  function RT0Row2(x: bv8): bv32 {
    if x == 0x20 then 0x75C2896A else if x == 0x21 then 0xF48E7978 else if x == 0x22 then 0x99583E6B else
    if x == 0x23 then 0x27B971DD else if x == 0x24 then 0xBEE14FB6 else if x == 0x25 then 0xF088AD17 else
    if x == 0x26 then 0xC920AC66 else if x == 0x27 then 0x7DCE3AB4 else if x == 0x28 then 0x63DF4A18 else
    if x == 0x29 then 0xE51A3182 else if x == 0x2A then 0x97513360 else if x == 0x2B then 0x62537F45 else
    if x == 0x2C then 0xB16477E0 else if x == 0x2D then 0xBB6BAE84 else if x == 0x2E then 0xFE81A01C else 0xF9082B94
  }

  function RT0Row3(x: bv8): bv32 {
    if x == 0x30 then 0x70486858 else if x == 0x31 then 0x8F45FD19 else if x == 0x32 then 0x94DE6C87 else
    if x == 0x33 then 0x527BF8B7 else if x == 0x34 then 0xAB73D323 else if x == 0x35 then 0x724B02E2 else
    if x == 0x36 then 0xE31F8F57 else if x == 0x37 then 0x6655AB2A else if x == 0x38 then 0xB2EB2807 else
    if x == 0x39 then 0x2FB5C203 else if x == 0x3A then 0x86C57B9A else if x == 0x3B then 0xD33708A5 else
    if x == 0x3C then 0x302887F2 else if x == 0x3D then 0x23BFA5B2 else if x == 0x3E then 0x02036ABA else 0xED16825C
  }

  function RT0Row4(x: bv8): bv32 {
    if x == 0x40 then 0x8ACF1C2B else if x == 0x41 then 0xA779B492 else if x == 0x42 then 0xF307F2F0 else
    if x == 0x43 then 0x4E69E2A1 else if x == 0x44 then 0x65DAF4CD else if x == 0x45 then 0x0605BED5 else
    if x == 0x46 then 0xD134621F else if x == 0x47 then 0xC4A6FE8A else if x == 0x48 then 0x342E539D else
    if x == 0x49 then 0xA2F355A0 else if x == 0x4A then 0x058AE132 else if x == 0x4B then 0xA4F6EB75 else
    if x == 0x4C then 0x0B83EC39 else if x == 0x4D then 0x4060EFAA else if x == 0x4E then 0x5E719F06 else 0xBD6E1051
  }

  function RT0Row5(x: bv8): bv32 {
    if x == 0x50 then 0x3E218AF9 else if x == 0x51 then 0x96DD063D else if x == 0x52 then 0xDD3E05AE else
    if x == 0x53 then 0x4DE6BD46 else if x == 0x54 then 0x91548DB5 else if x == 0x55 then 0x71C45D05 else
    if x == 0x56 then 0x0406D46F else if x == 0x57 then 0x605015FF else if x == 0x58 then 0x1998FB24 else
    if x == 0x59 then 0xD6BDE997 else if x == 0x5A then 0x894043CC else if x == 0x5B then 0x67D99E77 else
    if x == 0x5C then 0xB0E842BD else if x == 0x5D then 0x07898B88 else if x == 0x5E then 0xE7195B38 else 0x79C8EEDB
  }

  function RT0Row6(x: bv8): bv32 {
    if x == 0x60 then 0xA17C0A47 else if x == 0x61 then 0x7C420FE9 else if x == 0x62 then 0xF8841EC9 else
    if x == 0x63 then 0x00000000 else if x == 0x64 then 0x09808683 else if x == 0x65 then 0x322BED48 else
    if x == 0x66 then 0x1E1170AC else if x == 0x67 then 0x6C5A724E else if x == 0x68 then 0xFD0EFFFB else
    if x == 0x69 then 0x0F853856 else if x == 0x6A then 0x3DAED51E else if x == 0x6B then 0x362D3927 else
    if x == 0x6C then 0x0A0FD964 else if x == 0x6D then 0x685CA621 else if x == 0x6E then 0x9B5B54D1 else 0x24362E3A
  }

  function RT0Row7(x: bv8): bv32 {
    if x == 0x70 then 0x0C0A67B1 else if x == 0x71 then 0x9357E70F else if x == 0x72 then 0xB4EE96D2 else
    if x == 0x73 then 0x1B9B919E else if x == 0x74 then 0x80C0C54F else if x == 0x75 then 0x61DC20A2 else
    if x == 0x76 then 0x5A774B69 else if x == 0x77 then 0x1C121A16 else if x == 0x78 then 0xE293BA0A else
    if x == 0x79 then 0xC0A02AE5 else if x == 0x7A then 0x3C22E043 else if x == 0x7B then 0x121B171D else
    if x == 0x7C then 0x0E090D0B else if x == 0x7D then 0xF28BC7AD else if x == 0x7E then 0x2DB6A8B9 else 0x141EA9C8
  }

  function RT0Row8(x: bv8): bv32 {
    if x == 0x80 then 0x57F11985 else if x == 0x81 then 0xAF75074C else if x == 0x82 then 0xEE99DDBB else
    if x == 0x83 then 0xA37F60FD else if x == 0x84 then 0xF701269F else if x == 0x85 then 0x5C72F5BC else
    if x == 0x86 then 0x44663BC5 else if x == 0x87 then 0x5BFB7E34 else if x == 0x88 then 0x8B432976 else
    if x == 0x89 then 0xCB23C6DC else if x == 0x8A then 0xB6EDFC68 else if x == 0x8B then 0xB8E4F163 else
    if x == 0x8C then 0xD731DCCA else if x == 0x8D then 0x42638510 else if x == 0x8E then 0x13972240 else 0x84C61120
  }

  function RT0Row9(x: bv8): bv32 {
    if x == 0x90 then 0x854A247D else if x == 0x91 then 0xD2BB3DF8 else if x == 0x92 then 0xAEF93211 else
    if x == 0x93 then 0xC729A16D else if x == 0x94 then 0x1D9E2F4B else if x == 0x95 then 0xDCB230F3 else
    if x == 0x96 then 0x0D8652EC else if x == 0x97 then 0x77C1E3D0 else if x == 0x98 then 0x2BB3166C else
    if x == 0x99 then 0xA970B999 else if x == 0x9A then 0x119448FA else if x == 0x9B then 0x47E96422 else
    if x == 0x9C then 0xA8FC8CC4 else if x == 0x9D then 0xA0F03F1A else if x == 0x9E then 0x567D2CD8 else 0x223390EF
  }

  function RT0RowA(x: bv8): bv32 {
    if x == 0xA0 then 0x87494EC7 else if x == 0xA1 then 0xD938D1C1 else if x == 0xA2 then 0x8CCAA2FE else
    if x == 0xA3 then 0x98D40B36 else if x == 0xA4 then 0xA6F581CF else if x == 0xA5 then 0xA57ADE28 else
    if x == 0xA6 then 0xDAB78E26 else if x == 0xA7 then 0x3FADBFA4 else if x == 0xA8 then 0x2C3A9DE4 else
    if x == 0xA9 then 0x5078920D else if x == 0xAA then 0x6A5FCC9B else if x == 0xAB then 0x547E4662 else
    if x == 0xAC then 0xF68D13C2 else if x == 0xAD then 0x90D8B8E8 else if x == 0xAE then 0x2E39F75E else 0x82C3AFF5
  }

  function RT0RowB(x: bv8): bv32 {
    if x == 0xB0 then 0x9F5D80BE else if x == 0xB1 then 0x69D0937C else if x == 0xB2 then 0x6FD52DA9 else
    if x == 0xB3 then 0xCF2512B3 else if x == 0xB4 then 0xC8AC993B else if x == 0xB5 then 0x10187DA7 else
    if x == 0xB6 then 0xE89C636E else if x == 0xB7 then 0xDB3BBB7B else if x == 0xB8 then 0xCD267809 else
    if x == 0xB9 then 0x6E5918F4 else if x == 0xBA then 0xEC9AB701 else if x == 0xBB then 0x834F9AA8 else
    if x == 0xBC then 0xE6956E65 else if x == 0xBD then 0xAAFFE67E else if x == 0xBE then 0x21BCCF08 else 0xEF15E8E6
  }

  function RT0RowC(x: bv8): bv32 {
    if x == 0xC0 then 0xBAE79BD9 else if x == 0xC1 then 0x4A6F36CE else if x == 0xC2 then 0xEA9F09D4 else
    if x == 0xC3 then 0x29B07CD6 else if x == 0xC4 then 0x31A4B2AF else if x == 0xC5 then 0x2A3F2331 else
    if x == 0xC6 then 0xC6A59430 else if x == 0xC7 then 0x35A266C0 else if x == 0xC8 then 0x744EBC37 else
    if x == 0xC9 then 0xFC82CAA6 else if x == 0xCA then 0xE090D0B0 else if x == 0xCB then 0x33A7D815 else
    if x == 0xCC then 0xF104984A else if x == 0xCD then 0x41ECDAF7 else if x == 0xCE then 0x7FCD500E else 0x1791F62F
  }

  function RT0RowD(x: bv8): bv32 {
    if x == 0xD0 then 0x764DD68D else if x == 0xD1 then 0x43EFB04D else if x == 0xD2 then 0xCCAA4D54 else
    if x == 0xD3 then 0xE49604DF else if x == 0xD4 then 0x9ED1B5E3 else if x == 0xD5 then 0x4C6A881B else
    if x == 0xD6 then 0xC12C1FB8 else if x == 0xD7 then 0x4665517F else if x == 0xD8 then 0x9D5EEA04 else
    if x == 0xD9 then 0x018C355D else if x == 0xDA then 0xFA877473 else if x == 0xDB then 0xFB0B412E else
    if x == 0xDC then 0xB3671D5A else if x == 0xDD then 0x92DBD252 else if x == 0xDE then 0xE9105633 else 0x6DD64713
  }

  function RT0RowE(x: bv8): bv32 {
    if x == 0xE0 then 0x9AD7618C else if x == 0xE1 then 0x37A10C7A else if x == 0xE2 then 0x59F8148E else
    if x == 0xE3 then 0xEB133C89 else if x == 0xE4 then 0xCEA927EE else if x == 0xE5 then 0xB761C935 else
    if x == 0xE6 then 0xE11CE5ED else if x == 0xE7 then 0x7A47B13C else if x == 0xE8 then 0x9CD2DF59 else
    if x == 0xE9 then 0x55F2733F else if x == 0xEA then 0x1814CE79 else if x == 0xEB then 0x73C737BF else
    if x == 0xEC then 0x53F7CDEA else if x == 0xED then 0x5FFDAA5B else if x == 0xEE then 0xDF3D6F14 else 0x7844DB86
  }

  function RT0RowF(x: bv8): bv32 {
    if x == 0xF0 then 0xCAAFF381 else if x == 0xF1 then 0xB968C43E else if x == 0xF2 then 0x3824342C else
    if x == 0xF3 then 0xC2A3405F else if x == 0xF4 then 0x161DC372 else if x == 0xF5 then 0xBCE2250C else
    if x == 0xF6 then 0x283C498B else if x == 0xF7 then 0xFF0D9541 else if x == 0xF8 then 0x39A80171 else
    if x == 0xF9 then 0x080CB3DE else if x == 0xFA then 0xD8B4E49C else if x == 0xFB then 0x6456C190 else
    if x == 0xFC then 0x7BCB8461 else if x == 0xFD then 0xD532B670 else if x == 0xFE then 0x486C5C74 else 0xD0B85742
  }

  /** The other tables paste the same four bytes together in rotated order. */
  function FT1(x: bv8): bv32 { Ror8(FT0(x)) }
  function FT2(x: bv8): bv32 { Ror8(Ror8(FT0(x))) }
  function FT3(x: bv8): bv32 { Ror8(Ror8(Ror8(FT0(x)))) }
  function RT1(x: bv8): bv32 { Ror8(RT0(x)) }
  function RT2(x: bv8): bv32 { Ror8(Ror8(RT0(x))) }
  function RT3(x: bv8): bv32 { Ror8(Ror8(Ror8(RT0(x)))) }

  /** The key tables `rt_aes_set_key` fills on its first call. */
  function KT0(x: bv8): bv32 { RT0(Sbox(x)) }
  function KT1(x: bv8): bv32 { RT1(Sbox(x)) }
  function KT2(x: bv8): bv32 { RT2(Sbox(x)) }
  function KT3(x: bv8): bv32 { RT3(Sbox(x)) }

  lemma SboxRow0Inverts(x: bv8)
    requires x < 0x10
    ensures InvSbox(SboxRow0(x)) == x
  {
  }

  lemma Forward0(x: bv8)
    requires x < 0x10
    ensures FT0Row0(x) == ForwardEntry(SboxRow0(x))
  {
  }

  lemma Reverse0(x: bv8)
    requires x < 0x10
    ensures RT0Row0(x) == ReverseEntry(InvSboxRow0(x))
  {
  }

  lemma Tables0(x: bv8)
    requires x < 0x10
    ensures FT0Row0(x) == ForwardEntry(SboxRow0(x))
    ensures RT0Row0(x) == ReverseEntry(InvSboxRow0(x))
  {
    hide FT0Row0, RT0Row0, SboxRow0, InvSboxRow0, ForwardEntry, ReverseEntry;
    Forward0(x);
    Reverse0(x);
  }

  lemma SboxRow1Inverts(x: bv8)
    requires 0x10 <= x < 0x20
    ensures InvSbox(SboxRow1(x)) == x
  {
  }

  lemma Tables1(x: bv8)
    requires 0x10 <= x < 0x20
    ensures FT0Row1(x) == ForwardEntry(SboxRow1(x))
    ensures RT0Row1(x) == ReverseEntry(InvSboxRow1(x))
  {
  }

  lemma SboxRow2Inverts(x: bv8)
    requires 0x20 <= x < 0x30
    ensures InvSbox(SboxRow2(x)) == x
  {
  }

  lemma Tables2(x: bv8)
    requires 0x20 <= x < 0x30
    ensures FT0Row2(x) == ForwardEntry(SboxRow2(x))
    ensures RT0Row2(x) == ReverseEntry(InvSboxRow2(x))
  {
  }

  lemma SboxRow3Inverts(x: bv8)
    requires 0x30 <= x < 0x40
    ensures InvSbox(SboxRow3(x)) == x
  {
  }

  lemma Tables3(x: bv8)
    requires 0x30 <= x < 0x40
    ensures FT0Row3(x) == ForwardEntry(SboxRow3(x))
    ensures RT0Row3(x) == ReverseEntry(InvSboxRow3(x))
  {
  }

  lemma SboxRow4Inverts(x: bv8)
    requires 0x40 <= x < 0x50
    ensures InvSbox(SboxRow4(x)) == x
  {
  }

  lemma Tables4(x: bv8)
    requires 0x40 <= x < 0x50
    ensures FT0Row4(x) == ForwardEntry(SboxRow4(x))
    ensures RT0Row4(x) == ReverseEntry(InvSboxRow4(x))
  {
  }

  lemma SboxRow5Inverts(x: bv8)
    requires 0x50 <= x < 0x60
    ensures InvSbox(SboxRow5(x)) == x
  {
  }

  lemma Tables5(x: bv8)
    requires 0x50 <= x < 0x60
    ensures FT0Row5(x) == ForwardEntry(SboxRow5(x))
    ensures RT0Row5(x) == ReverseEntry(InvSboxRow5(x))
  {
  }

  lemma SboxRow6Inverts(x: bv8)
    requires 0x60 <= x < 0x70
    ensures InvSbox(SboxRow6(x)) == x
  {
  }

  lemma Tables6(x: bv8)
    requires 0x60 <= x < 0x70
    ensures FT0Row6(x) == ForwardEntry(SboxRow6(x))
    ensures RT0Row6(x) == ReverseEntry(InvSboxRow6(x))
  {
  }

  lemma SboxRow7Inverts(x: bv8)
    requires 0x70 <= x < 0x80
    ensures InvSbox(SboxRow7(x)) == x
  {
  }

  lemma Tables7(x: bv8)
    requires 0x70 <= x < 0x80
    ensures FT0Row7(x) == ForwardEntry(SboxRow7(x))
    ensures RT0Row7(x) == ReverseEntry(InvSboxRow7(x))
  {
  }

  lemma SboxRow8Inverts(x: bv8)
    requires 0x80 <= x < 0x90
    ensures InvSbox(SboxRow8(x)) == x
  {
  }

  lemma Tables8(x: bv8)
    requires 0x80 <= x < 0x90
    ensures FT0Row8(x) == ForwardEntry(SboxRow8(x))
    ensures RT0Row8(x) == ReverseEntry(InvSboxRow8(x))
  {
  }

  lemma SboxRow9Inverts(x: bv8)
    requires 0x90 <= x < 0xA0
    ensures InvSbox(SboxRow9(x)) == x
  {
  }

  lemma Tables9(x: bv8)
    requires 0x90 <= x < 0xA0
    ensures FT0Row9(x) == ForwardEntry(SboxRow9(x))
    ensures RT0Row9(x) == ReverseEntry(InvSboxRow9(x))
  {
  }

  lemma SboxRowAInverts(x: bv8)
    requires 0xA0 <= x < 0xB0
    ensures InvSbox(SboxRowA(x)) == x
  {
  }

  lemma TablesA(x: bv8)
    requires 0xA0 <= x < 0xB0
    ensures FT0RowA(x) == ForwardEntry(SboxRowA(x))
    ensures RT0RowA(x) == ReverseEntry(InvSboxRowA(x))
  {
  }

  lemma SboxRowBInverts(x: bv8)
    requires 0xB0 <= x < 0xC0
    ensures InvSbox(SboxRowB(x)) == x
  {
  }

  lemma TablesB(x: bv8)
    requires 0xB0 <= x < 0xC0
    ensures FT0RowB(x) == ForwardEntry(SboxRowB(x))
    ensures RT0RowB(x) == ReverseEntry(InvSboxRowB(x))
  {
  }

  lemma SboxRowCInverts(x: bv8)
    requires 0xC0 <= x < 0xD0
    ensures InvSbox(SboxRowC(x)) == x
  {
  }

  lemma TablesC(x: bv8)
    requires 0xC0 <= x < 0xD0
    ensures FT0RowC(x) == ForwardEntry(SboxRowC(x))
    ensures RT0RowC(x) == ReverseEntry(InvSboxRowC(x))
  {
  }

  lemma SboxRowDInverts(x: bv8)
    requires 0xD0 <= x < 0xE0
    ensures InvSbox(SboxRowD(x)) == x
  {
  }

  lemma TablesD(x: bv8)
    requires 0xD0 <= x < 0xE0
    ensures FT0RowD(x) == ForwardEntry(SboxRowD(x))
    ensures RT0RowD(x) == ReverseEntry(InvSboxRowD(x))
  {
  }

  lemma SboxRowEInverts(x: bv8)
    requires 0xE0 <= x < 0xF0
    ensures InvSbox(SboxRowE(x)) == x
  {
  }

  lemma TablesE(x: bv8)
    requires 0xE0 <= x < 0xF0
    ensures FT0RowE(x) == ForwardEntry(SboxRowE(x))
    ensures RT0RowE(x) == ReverseEntry(InvSboxRowE(x))
  {
  }

  lemma SboxRowFInverts(x: bv8)
    requires 0xF0 <= x
    ensures InvSbox(SboxRowF(x)) == x
  {
  }

  lemma TablesF(x: bv8)
    requires 0xF0 <= x
    ensures FT0RowF(x) == ForwardEntry(SboxRowF(x))
    ensures RT0RowF(x) == ReverseEntry(InvSboxRowF(x))
  {
  }

  function ForwardEntry(s: bv8): bv32 {
    Pack(XTime(s), s, s, Mul3(s))
  }

  function ReverseEntry(s: bv8): bv32 {
    Pack(MulE(s), Mul9(s), MulD(s), MulB(s))
  }

  /** All 256 entries of the S-box are undone by the reverse S-box. */
  lemma SboxInverts(x: bv8)
    ensures InvSbox(Sbox(x)) == x
  {
    hide InvSbox, SboxRow0, SboxRow1, SboxRow2, SboxRow3, SboxRow4, SboxRow5, SboxRow6, SboxRow7, SboxRow8, SboxRow9,
        SboxRowA, SboxRowB, SboxRowC, SboxRowD, SboxRowE, SboxRowF;
    if x < 0x10 { SboxRow0Inverts(x); } else if x < 0x20 { SboxRow1Inverts(x); }
    else if x < 0x30 { SboxRow2Inverts(x); } else if x < 0x40 { SboxRow3Inverts(x); }
    else if x < 0x50 { SboxRow4Inverts(x); } else if x < 0x60 { SboxRow5Inverts(x); }
    else if x < 0x70 { SboxRow6Inverts(x); } else if x < 0x80 { SboxRow7Inverts(x); }
    else if x < 0x90 { SboxRow8Inverts(x); } else if x < 0xA0 { SboxRow9Inverts(x); }
    else if x < 0xB0 { SboxRowAInverts(x); } else if x < 0xC0 { SboxRowBInverts(x); }
    else if x < 0xD0 { SboxRowCInverts(x); } else if x < 0xE0 { SboxRowDInverts(x); }
    else if x < 0xF0 { SboxRowEInverts(x); } else { SboxRowFInverts(x); }
  }

  /** All 256 entries of the round tables. */
  lemma TableEntries(x: bv8)
    ensures FT0(x) == ForwardEntry(Sbox(x)) && RT0(x) == ReverseEntry(InvSbox(x))
  {
    hide ForwardEntry, ReverseEntry;
    hide SboxRow0, SboxRow1, SboxRow2, SboxRow3, SboxRow4, SboxRow5, SboxRow6, SboxRow7, SboxRow8, SboxRow9, SboxRowA,
        SboxRowB, SboxRowC, SboxRowD, SboxRowE, SboxRowF;
    hide InvSboxRow0, InvSboxRow1, InvSboxRow2, InvSboxRow3, InvSboxRow4, InvSboxRow5, InvSboxRow6, InvSboxRow7,
        InvSboxRow8, InvSboxRow9, InvSboxRowA, InvSboxRowB, InvSboxRowC, InvSboxRowD, InvSboxRowE, InvSboxRowF;
    hide FT0Row0, FT0Row1, FT0Row2, FT0Row3, FT0Row4, FT0Row5, FT0Row6, FT0Row7, FT0Row8, FT0Row9, FT0RowA, FT0RowB,
        FT0RowC, FT0RowD, FT0RowE, FT0RowF;
    hide RT0Row0, RT0Row1, RT0Row2, RT0Row3, RT0Row4, RT0Row5, RT0Row6, RT0Row7, RT0Row8, RT0Row9, RT0RowA, RT0RowB,
        RT0RowC, RT0RowD, RT0RowE, RT0RowF;
    if x < 0x10 { Tables0(x); } else if x < 0x20 { Tables1(x); }
    else if x < 0x30 { Tables2(x); } else if x < 0x40 { Tables3(x); }
    else if x < 0x50 { Tables4(x); } else if x < 0x60 { Tables5(x); }
    else if x < 0x70 { Tables6(x); } else if x < 0x80 { Tables7(x); }
    else if x < 0x90 { Tables8(x); } else if x < 0xA0 { Tables9(x); }
    else if x < 0xB0 { TablesA(x); } else if x < 0xC0 { TablesB(x); }
    else if x < 0xD0 { TablesC(x); } else if x < 0xE0 { TablesD(x); }
    else if x < 0xF0 { TablesE(x); } else { TablesF(x); }
  }
}
