/** `RTMPSoftDecryptAES` and its header builders: CCMP decryption in place, proved against the CCM
    of RFC 3610 (M = 8, L = 2). */
module Ccm {
  import opened AesField
  import opened AesContext
  import opened AesBytewise
  import opened Bytes
  import opened CipherKeys

  // ----- sections 2.2 to 2.4 of RFC 3610 -----

  function U16(k: nat): (b: seq<bv8>)
    ensures |b| == 2
  {
    [ToByte(k / 0x100), ToByte(k)]
  }

  /** B_0: the flags say that there is AAD, M = 8 and L = 2. */
  function FirstBlock(nonce: seq<bv8>, length: nat): (b: seq<bv8>)
    requires |nonce| == 13
    ensures |b| == 16
  {
    [0x59] + nonce + U16(length)
  }

  function PadLength(n: nat): (p: nat)
    ensures p < 16 && (n + p) % 16 == 0
  {
    if n % 16 == 0 then 0 else 16 - n % 16
  }

  function Padded(s: seq<bv8>): (t: seq<bv8>)
    ensures |t| == |s| + PadLength(|s|)
  {
    s + Zeros(PadLength(|s|))
  }

  /** The blocks B_0, B_1, ... end to end. */
  function MacInput(nonce: seq<bv8>, aad: seq<bv8>, m: seq<bv8>): (s: seq<bv8>)
    requires |nonce| == 13
  {
    FirstBlock(nonce, |m|) + Padded(U16(|aad|) + aad) + Padded(m)
  }

  /** The CBC-MAC over the first `n` blocks of `s`. */
  function CbcMac(key: seq<bv8>, s: seq<bv8>, n: nat): (x: seq<bv8>)
    requires |key| == 16 && 16 * n <= |s|
    ensures |x| == 16
  {
    if n == 0 then Zeros(16)
    else AesEncrypt(key, XorSeq(CbcMac(key, s, n - 1), s[16 * (n - 1)..16 * n]))
  }

  /** A_i. */
  function CounterBlock(nonce: seq<bv8>, i: nat): (b: seq<bv8>)
    requires |nonce| == 13
    ensures |b| == 16
  {
    [0x01] + nonce + U16(i)
  }

  /** S_i. */
  function KeyStream(key: seq<bv8>, nonce: seq<bv8>, i: nat): (b: seq<bv8>)
    requires |key| == 16 && |nonce| == 13
    ensures |b| == 16
  {
    AesEncrypt(key, CounterBlock(nonce, i))
  }

  /** S_1 to S_k end to end. */
  function Streams(key: seq<bv8>, nonce: seq<bv8>, k: nat): (b: seq<bv8>)
    requires |key| == 16 && |nonce| == 13
    ensures |b| == 16 * k
  {
    if k == 0 then [] else Streams(key, nonce, k - 1) + KeyStream(key, nonce, k)
  }

  /** The blocks that `n` bytes need. */
  function BlocksFor(n: nat): (k: nat)
    ensures n <= 16 * k < n + 16
  {
    (n + 15) / 16
  }

  /** Encryption and decryption. */
  function Crypt(key: seq<bv8>, nonce: seq<bv8>, m: seq<bv8>): (c: seq<bv8>)
    requires |key| == 16 && |nonce| == 13
    ensures |c| == |m|
  {
    XorSeq(m, Streams(key, nonce, BlocksFor(|m|))[..|m|])
  }

  /** The first eight bytes of the CBC-MAC. */
  function Mac(key: seq<bv8>, nonce: seq<bv8>, aad: seq<bv8>, m: seq<bv8>): (t: seq<bv8>)
    requires |key| == 16 && |nonce| == 13
    ensures |t| == 8
  {
    var s := MacInput(nonce, aad, m);
    CbcMac(key, s, |s| / 16)[..8]
  }

  // ----- frames -----

  /** The Protected Frame bit, which the routine forces on. */
  function Protect(fc1: bv8): bv8 { fc1 | 0x40 }

  function MuteFc0(fc0: bv8): bv8 { fc0 & 0xCF }

  function MuteFc1(fc1: bv8): bv8 { fc1 & 0xC7 }

  function MuteSc(sc: bv8): bv8 { sc & 0x0F }

  predicate A4Exists(fc1: bv8) {
    ((fc1 & 0x2) >> 1) & (fc1 & 0x1) == 1
  }

  predicate QosExists(fc0: bv8) {
    var subtype := (fc0 >> 4) & 0x0F;
    subtype == 0x08 || subtype == 0x09 || subtype == 0x0A || subtype == 0x0B
  }

  function HeaderLength(fc1: bv8): (n: nat)
    ensures n == 24 || n == 30
  {
    if A4Exists(fc1) then 30 else 24
  }

  function KeyIdOf(b: bv8): (k: nat)
    ensures k < 4
  {
    (b >> 6) as nat
  }

  /** A whole protected frame: MAC header, CCMP header, encrypted payload, encrypted MIC. */
  datatype Frame = Frame(header: seq<bv8>, ccmp: seq<bv8>, payload: seq<bv8>, mic: seq<bv8>) {
    predicate WellFormed() {
      (|header| == 24 || |header| == 30) && |header| == HeaderLength(header[1]) && |ccmp| == 8 && |mic| == 8
    }

    function Bytes(): seq<bv8> {
      header + ccmp + payload + mic
    }
  }

  function Parse(f: seq<bv8>): (r: Frame)
    requires |f| >= 2 && |f| >= HeaderLength(f[1]) + 16
    ensures r.WellFormed() && r.Bytes() == f && |r.payload| == |f| - HeaderLength(f[1]) - 16
  {
    var h, n := HeaderLength(f[1]), |f|;
    Frame(f[..h], f[h..h + 8], f[h + 8..n - 8], f[n - 8..])
  }

  /** `PN[0]` to `PN[5]`. */
  function PacketNumber(ccmp: seq<bv8>): (pn: seq<bv8>)
    requires |ccmp| == 8
    ensures |pn| == 6
  {
    [ccmp[0], ccmp[1], ccmp[4], ccmp[5], ccmp[6], ccmp[7]]
  }

  /** Priority 0, the transmitter address, and the packet number from its highest byte. */
  function Nonce(a2: seq<bv8>, pn: seq<bv8>): (n: seq<bv8>)
    requires |a2| == 6 && |pn| == 6
    ensures |n| == 13
  {
    [0] + a2 + [pn[5], pn[4], pn[3], pn[2], pn[1], pn[0]]
  }

  function FrameNonce(f: Frame): (n: seq<bv8>)
    requires f.WellFormed()
    ensures |n| == 13
  {
    Nonce(f.header[10..16], PacketNumber(f.ccmp))
  }

  /** Frame control without the bits that may change, the addresses, the fragment number, address 4. */
  function Aad(header: seq<bv8>): (a: seq<bv8>)
    requires |header| == 24 || |header| == 30
    ensures |a| == |header| - 2
  {
    [MuteFc0(header[0]), MuteFc1(Protect(header[1]))] + header[4..22] + [MuteSc(header[22]), 0] + header[24..]
  }

  /** The encapsulation of `m`: encrypt it, and append its encrypted MIC. */
  function Encapsulate(key: seq<bv8>, header: seq<bv8>, ccmp: seq<bv8>, m: seq<bv8>): (f: Frame)
    requires |key| == 16 && Frame(header, ccmp, [], Zeros(8)).WellFormed()
    ensures f.WellFormed() && |f.payload| == |m|
  {
    var nonce := Nonce(header[10..16], PacketNumber(ccmp));
    Frame(header, ccmp, Crypt(key, nonce, m), XorSeq(KeyStream(key, nonce, 0)[..8], Mac(key, nonce, Aad(header), m)))
  }

  /** What a frame decrypts to. */
  function PlainOf(key: seq<bv8>, f: Frame): (m: seq<bv8>)
    requires |key| == 16 && f.WellFormed()
    ensures |m| == |f.payload|
  {
    Crypt(key, FrameNonce(f), f.payload)
  }

  /** The decrypted MIC is the MIC of the decrypted payload. */
  predicate Authentic(key: seq<bv8>, f: Frame)
    requires |key| == 16 && f.WellFormed()
  {
    XorSeq(KeyStream(key, FrameNonce(f), 0)[..8], f.mic) == Mac(key, FrameNonce(f), Aad(f.header), PlainOf(key, f))
  }

  // ----- encapsulated frames are accepted, and only they -----

  lemma CryptTwice(key: seq<bv8>, nonce: seq<bv8>, m: seq<bv8>)
    requires |key| == 16 && |nonce| == 13
    ensures Crypt(key, nonce, Crypt(key, nonce, m)) == m
  {
    hide XorSeq, Streams, BlocksFor;
    var mask := Streams(key, nonce, BlocksFor(|m|))[..|m|];
    XorSeqTwice(mask, m);
    XorSeqCommutes(m, mask);
    XorSeqCommutes(XorSeq(m, mask), mask);
  }

  /** The encapsulation of a plaintext decrypts to it and passes the MIC check. */
  lemma OpensEncapsulated(key: seq<bv8>, header: seq<bv8>, ccmp: seq<bv8>, m: seq<bv8>)
    requires |key| == 16 && Frame(header, ccmp, [], Zeros(8)).WellFormed()
    ensures var f := Encapsulate(key, header, ccmp, m);
            Authentic(key, f) && PlainOf(key, f) == m && Parse(f.Bytes()) == f
  {
    hide Crypt, Mac, KeyStream, XorSeq, Nonce, PacketNumber, Aad, HeaderLength, Zeros;
    var f := Encapsulate(key, header, ccmp, m);
    var nonce := FrameNonce(f);
    CryptTwice(key, nonce, m);
    XorSeqTwice(KeyStream(key, nonce, 0)[..8], Mac(key, nonce, Aad(header), m));
    ParseBytes(f);
  }

  lemma ParseBytes(f: Frame)
    requires f.WellFormed()
    ensures |f.Bytes()| >= 2 && |f.Bytes()| >= HeaderLength(f.Bytes()[1]) + 16 && Parse(f.Bytes()) == f
  {
    hide HeaderLength;
    assert f.Bytes()[1] == f.header[1];
  }

  /** A frame passes exactly when it is the encapsulation of what it decrypts to. */
  lemma AuthenticIffEncapsulated(key: seq<bv8>, f: Frame)
    requires |key| == 16 && f.WellFormed()
    ensures Authentic(key, f) <==> f == Encapsulate(key, f.header, f.ccmp, PlainOf(key, f))
  {
    hide Crypt, Mac, KeyStream, XorSeq, Nonce, PacketNumber, Aad, HeaderLength, Zeros;
    var nonce := FrameNonce(f);
    var s := KeyStream(key, nonce, 0)[..8];
    CryptTwice(key, nonce, f.payload);
    XorSeqTwice(s, f.mic);
    XorSeqTwice(s, Mac(key, nonce, Aad(f.header), PlainOf(key, f)));
  }

  // ----- block by block -----

  lemma {:induction false} StreamsSlice(key: seq<bv8>, nonce: seq<bv8>, k: nat, i: nat)
    requires |key| == 16 && |nonce| == 13 && i < k
    ensures Streams(key, nonce, k)[16 * i..16 * i + 16] == KeyStream(key, nonce, i + 1)
  {
    hide KeyStream;
    if i == k - 1 {
    } else {
      StreamsSlice(key, nonce, k - 1, i);
    }
  }

  lemma XorSeqSlice(a: seq<bv8>, b: seq<bv8>, lo: nat, hi: nat)
    requires |a| == |b| && lo <= hi <= |a|
    ensures XorSeq(a, b)[lo..hi] == XorSeq(a[lo..hi], b[lo..hi])
  {
    hide Xor;
  }

  /** `n` bytes from the start of block `i`. */
  lemma CryptSlice(key: seq<bv8>, nonce: seq<bv8>, m: seq<bv8>, i: nat, n: nat)
    requires |key| == 16 && |nonce| == 13 && n <= 16 && 16 * i + n <= |m| && n > 0
    ensures Crypt(key, nonce, m)[16 * i..16 * i + n] == XorSeq(m[16 * i..16 * i + n], KeyStream(key, nonce, i + 1)[..n])
  {
    hide KeyStream, XorSeq, Streams, BlocksFor;
    var k := BlocksFor(|m|);
    var s := Streams(key, nonce, k);
    var lo, hi := 16 * i, 16 * i + n;
    StreamsSlice(key, nonce, k, i);
    XorSeqSlice(m, s[..|m|], lo, hi);
    TakeSlice(s, |m|, lo, hi);
    SliceTake(s, lo, n);
  }

  lemma SliceTake(s: seq<bv8>, lo: nat, n: nat)
    requires n <= 16 && lo + 16 <= |s|
    ensures s[lo..lo + 16][..n] == s[lo..lo + n]
  {
  }

  lemma MacBlocks(nonce: seq<bv8>, aad: seq<bv8>, m: seq<bv8>)
    requires |nonce| == 13 && (|aad| == 22 || |aad| == 28)
    ensures var s := MacInput(nonce, aad, m);
            && |s| == 48 + |m| + PadLength(|m|)
            && s[0..16] == FirstBlock(nonce, |m|) && s[16..48] == Padded(U16(|aad|) + aad) && s[48..] == Padded(m)
  {
    hide FirstBlock, U16, Zeros;
  }

  /** A frame of which `done` bytes of plaintext have been put where the CCMP header begins. */
  function Shifted(f: seq<bv8>, h: nat, plain: seq<bv8>, done: nat): (s: seq<bv8>)
    requires h + |plain| <= |f| && done <= |plain|
    ensures |s| == |f|
  {
    f[..h] + plain[..done] + f[h + done..]
  }

  lemma ShiftStep(f: seq<bv8>, h: nat, plain: seq<bv8>, done: nat, n: nat)
    requires h + |plain| <= |f| && done + n <= |plain|
    ensures Splice(Shifted(f, h, plain, done), h + done, plain[done..done + n]) == Shifted(f, h, plain, done + n)
  {
  }

  /** What lies eight bytes ahead of the shift has not been overwritten. */
  lemma AheadUntouched(f: seq<bv8>, h: nat, plain: seq<bv8>, done: nat, n: nat)
    requires h + |plain| + 8 <= |f| && done + n <= |plain| + 8 && done <= |plain| && h + 8 + done + n <= |f|
    ensures Shifted(f, h, plain, done)[h + 8 + done..h + 8 + done + n] == f[h + 8 + done..h + 8 + done + n]
  {
  }

  // ----- the routine -----

  /** A flag byte, a nonce and a 16-bit number, byte by byte. */
  lemma NonceBlock(b: seq<bv8>, flag: bv8, a2: seq<bv8>, pn: seq<bv8>, k: nat)
    requires |b| == 16 && |a2| == 6 && |pn| == 6 && b[0] == flag && b[1] == 0 && b[2..8] == a2
    requires b[8] == pn[5] && b[9] == pn[4] && b[10] == pn[3] && b[11] == pn[2] && b[12] == pn[1] && b[13] == pn[0]
    requires b[14] == ToByte(k / 0x100) && b[15] == ToByte(k)
    ensures b == [flag] + Nonce(a2, pn) + U16(k)
  {
    hide ToByte;
    assert b == [b[0], b[1]] + b[2..8] + [b[8], b[9], b[10], b[11], b[12], b[13]] + [b[14], b[15]];
  }

  /** `construct_ctr_preload`. */
  method ConstructCtrPreload(ctrPreload: array<bv8>, mpdu: array<bv8>, pn: array<bv8>, c: nat)
    requires ctrPreload.Length == 16 && mpdu.Length >= 24 && pn.Length == 6 && ctrPreload != mpdu && ctrPreload != pn
    modifies ctrPreload
    ensures ctrPreload[..] == CounterBlock(Nonce(mpdu[10..16], pn[..]), c)
  {
    hide ToByte, Nonce, U16;
    Zero(ctrPreload, 0, 16);
    ctrPreload[0] := 0x01;
    Move(ctrPreload, 2, mpdu, 10, 6);
    PutPacketNumber(ctrPreload, pn);
    ctrPreload[14] := ToByte(c / 0x100);
    ctrPreload[15] := ToByte(c);
    NonceBlock(ctrPreload[..], 0x01, mpdu[10..16], pn[..], c);
  }

  /** Bytes 8 to 13: the packet number, highest byte first. */
  method PutPacketNumber(block: array<bv8>, pn: array<bv8>)
    requires block.Length == 16 && pn.Length == 6 && block != pn
    modifies block
    ensures block[8] == pn[5] && block[9] == pn[4] && block[10] == pn[3] && block[11] == pn[2] && block[12] == pn[1]
            && block[13] == pn[0]
    ensures forall j | 0 <= j < 16 && !(8 <= j < 14) :: block[j] == old(block[j])
  {
    for i := 8 to 14
      invariant i > 8 ==> block[8] == pn[5]
      invariant i > 9 ==> block[9] == pn[4]
      invariant i > 10 ==> block[10] == pn[3]
      invariant i > 11 ==> block[11] == pn[2]
      invariant i > 12 ==> block[12] == pn[1]
      invariant i > 13 ==> block[13] == pn[0]
      invariant forall j | 0 <= j < 16 && !(8 <= j < 14) :: block[j] == old(block[j])
    {
      block[i] := pn[13 - i];
    }
  }

  /** `construct_mic_iv`. */
  method ConstructMicIv(micIv: array<bv8>, mpdu: array<bv8>, payloadLength: nat, pn: array<bv8>)
    requires micIv.Length == 16 && mpdu.Length >= 24 && pn.Length == 6 && micIv != mpdu && micIv != pn
    modifies micIv
    ensures micIv[..] == FirstBlock(Nonce(mpdu[10..16], pn[..]), payloadLength)
  {
    hide ToByte, Nonce, U16;
    micIv[0] := 0x59;
    micIv[1] := 0x00;
    Move(micIv, 2, mpdu, 10, 6);
    PutPacketNumber(micIv, pn);
    micIv[14] := ToByte(payloadLength / 0x100);
    micIv[15] := ToByte(payloadLength);
    NonceBlock(micIv[..], 0x59, mpdu[10..16], pn[..], payloadLength);
  }

  /** The MAC header as `construct_mic_header1` and `construct_mic_header2` read it, the Protected Frame
      bit already forced on. */
  predicate HeaderAt(mpdu: seq<bv8>, header: seq<bv8>) {
    && (|header| == 24 || |header| == 30) && |mpdu| >= |header|
    && mpdu[..|header|] == header[1 := Protect(header[1])]
  }

  /** The first block of encoded AAD, byte by byte. */
  lemma FirstAadBlock(header: seq<bv8>, b: seq<bv8>)
    requires (|header| == 24 || |header| == 30) && |b| == 16
    requires b[0] == ToByte((|header| - 2) / 0x100) && b[1] == ToByte(|header| - 2)
    requires b[2] == MuteFc0(header[0]) && b[3] == MuteFc1(Protect(header[1])) && b[4..] == header[4..16]
    ensures b == Padded(U16(|Aad(header)|) + Aad(header))[..16]
  {
    hide ToByte, MuteFc0, MuteFc1, MuteSc, Protect, Zeros;
    var a, u := Aad(header), U16(|header| - 2);
    assert a[..14] == [MuteFc0(header[0]), MuteFc1(Protect(header[1]))] + header[4..16];
    assert Padded(u + a)[..16] == u + a[..14];
    assert b == [b[0], b[1]] + ([b[2], b[3]] + b[4..]);
  }

  /** `construct_mic_header1`. */
  method ConstructMicHeader1(micHeader1: array<bv8>, headerLength: nat, mpdu: array<bv8>, ghost header: seq<bv8>)
    requires micHeader1.Length == 16 && micHeader1 != mpdu && HeaderAt(mpdu[..], header) && headerLength == |header|
    modifies micHeader1
    ensures micHeader1[..] == Padded(U16(|Aad(header)|) + Aad(header))[..16]
  {
    hide ToByte, MuteFc0, MuteFc1, MuteSc, Protect, Padded, Aad, U16;
    micHeader1[0] := ToByte((headerLength - 2) / 256);
    micHeader1[1] := ToByte((headerLength - 2) % 256);
    ByteOfRemainder(headerLength - 2);
    micHeader1[2] := MuteFc0(mpdu[0]);
    micHeader1[3] := MuteFc1(mpdu[1]);
    Move(micHeader1, 4, mpdu, 4, 12);
    assert mpdu[..|header|][4..16] == header[4..16];
    FirstAadBlock(header, micHeader1[..]);
  }

  lemma ByteOfRemainder(k: nat)
    ensures ToByte(k % 256) == ToByte(k)
  {
  }

  /** The second block of encoded AAD, byte by byte. */
  lemma SecondAadBlock(header: seq<bv8>, b: seq<bv8>)
    requires (|header| == 24 || |header| == 30) && |b| == 16
    requires b[..6] == header[16..22] && b[6] == MuteSc(header[22]) && b[7] == 0
    requires b[8..] == if |header| == 30 then header[24..] + Zeros(2) else Zeros(8)
    ensures b == Padded(U16(|Aad(header)|) + Aad(header))[16..32]
  {
    hide U16, MuteFc0, MuteFc1, MuteSc, Protect, Zeros;
    var a, u := Aad(header), U16(|Aad(header)|);
    assert a[14..] == header[16..22] + [MuteSc(header[22]), 0] + header[24..];
    assert (u + a)[16..] == a[14..];
    assert PadLength(|u + a|) == if |header| == 30 then 2 else 8;
    assert Padded(u + a)[16..] == a[14..] + Zeros(PadLength(|u + a|));
    assert b == b[..6] + [b[6], b[7]] + b[8..];
    assert Padded(u + a)[16..32] == Padded(u + a)[16..];
  }

  /** `construct_mic_header2`. */
  method ConstructMicHeader2(micHeader2: array<bv8>, mpdu: array<bv8>, a4Exists: bool, ghost header: seq<bv8>)
    requires micHeader2.Length == 16 && micHeader2 != mpdu && HeaderAt(mpdu[..], header) && a4Exists == (|header| == 30)
    modifies micHeader2
    ensures micHeader2[..] == Padded(U16(|Aad(header)|) + Aad(header))[16..32]
  {
    hide ToByte, MuteFc0, MuteFc1, MuteSc, Protect, Aad, Padded;
    Zero(micHeader2, 0, 16);
    Move(micHeader2, 0, mpdu, 16, 6);
    micHeader2[6] := MuteSc(mpdu[22]);
    micHeader2[7] := 0x00;
    if a4Exists {
      Move(micHeader2, 8, mpdu, 24, 6);
    }
    assert mpdu[..|header|][16..] == header[16..];
    SecondAadBlock(header, micHeader2[..]);
  }

  /** `bitwise_xor` of a buffer and sixteen bytes of another. */
  method BitwiseXor(a: array<bv8>, b: array<bv8>, at: nat, out: array<bv8>)
    requires a.Length == 16 && at + 16 <= b.Length && out.Length == 16 && out != a && out != b
    modifies out
    ensures out[..] == XorSeq(a[..], b[..][at..at + 16])
  {
    hide Xor;
    for i := 0 to 16
      invariant forall j | 0 <= j < i :: out[j] == Xor(a[j], b[at + j])
    {
      out[i] := Xor(a[i], b[at + i]);
    }
  }

  /** A counter block and its encryption. */
  method CounterStream(pData: array<bv8>, pn: array<bv8>, c: nat, key: array<bv8>) returns (aesOut: array<bv8>)
    requires pData.Length >= 24 && pn.Length == 6 && key.Length == 16
    ensures fresh(aesOut) && aesOut.Length == 16
    ensures aesOut[..] == KeyStream(key[..], Nonce(pData[10..16], pn[..]), c)
  {
    hide AesEncrypt, CounterBlock, Nonce;
    var ctrPreload := new bv8[16];
    aesOut := new bv8[16];
    ConstructCtrPreload(ctrPreload, pData, pn, c);
    Aes128(key, ctrPreload, aesOut);
  }

  /** One full block, decrypted and moved eight bytes down. */
  method DecryptBlock(pData: array<bv8>, at: nat, pn: array<bv8>, c: nat, key: array<bv8>)
    requires pn.Length == 6 && key.Length == 16 && 32 <= at && at + 16 <= pData.Length && pData != pn && pData != key
    modifies pData
    ensures pData[..] == Splice(old(pData[..]), at - 8,
                                XorSeq(old(pData[..][at..at + 16]),
                                  KeyStream(key[..], Nonce(old(pData[10..16]), pn[..]), c)))
  {
    hide KeyStream, Nonce, XorSeq;
    var aesOut := CounterStream(pData, pn, c, key);
    var chainBuffer := new bv8[16];
    BitwiseXor(aesOut, pData, at, chainBuffer);
    XorSeqCommutes(aesOut[..], pData[..][at..at + 16]);
    Move(pData, at - 8, chainBuffer, 0, 16);
  }

  /** `n` bytes padded with zeros. */
  method Pad(pData: array<bv8>, at: nat, n: nat) returns (padded: array<bv8>)
    requires n <= 16 && at + n <= pData.Length
    ensures fresh(padded) && padded.Length == 16 && padded[..] == pData[..][at..at + n] + Zeros(16 - n)
  {
    padded := new bv8[16];
    Zero(padded, 0, 16);
    Move(padded, 0, pData, at, n);
  }

  /** The short last block, or the MIC, decrypted. */
  method DecryptShort(pData: array<bv8>, at: nat, n: nat, pn: array<bv8>, c: nat, key: array<bv8>)
      returns (chainBuffer: array<bv8>)
    requires pn.Length == 6 && key.Length == 16 && 24 <= at && at + n <= pData.Length && n <= 16
    ensures fresh(chainBuffer) && chainBuffer.Length == 16
    ensures chainBuffer[..n] == XorSeq(KeyStream(key[..], Nonce(pData[10..16], pn[..]), c)[..n], pData[..][at..at + n])
  {
    hide KeyStream, Nonce, XorSeq;
    var padded := Pad(pData, at, n);
    var aesOut := CounterStream(pData, pn, c, key);
    chainBuffer := new bv8[16];
    BitwiseXor(aesOut, padded, 0, chainBuffer);
    XorSeqSlice(aesOut[..], padded[..][0..16], 0, n);
    assert padded[..][0..16][0..n] == pData[..][at..at + n];
    assert aesOut[..][0..n] == aesOut[..][..n];
  }

  /** Block `i` of the first loop. `f` is the frame as it came, `c` its encrypted payload. */
  method PayloadBlock(pData: array<bv8>, h: nat, pn: array<bv8>, i: nat, key: array<bv8>,
                      ghost f: seq<bv8>, ghost nonce: seq<bv8>, ghost c: seq<bv8>)
    requires pn.Length == 6 && key.Length == 16 && pData != pn && pData != key
    requires 24 <= h && |f| == pData.Length && h + 8 + |c| <= |f| && c == f[h + 8..h + 8 + |c|] && 16 * i + 16 <= |c|
    requires nonce == Nonce(f[10..16], pn[..])
    requires pData[..] == Shifted(f, h, Crypt(key[..], nonce, c), 16 * i)
    modifies pData
    ensures pData[..] == Shifted(f, h, Crypt(key[..], nonce, c), 16 * i + 16)
  {
    hide KeyStream, Nonce, XorSeq, Shifted, Crypt, Splice;
    BlockStep(f, h, key[..], nonce, c, 16 * i, 16, i);
    HeaderKept(f, h, Crypt(key[..], nonce, c), 16 * i);
    assert pData[10..16] == pData[..][10..16];
    DecryptBlock(pData, h + 8 + 16 * i, pn, i + 1, key);
  }

  /** The short block after it. */
  method LastPayloadBlock(pData: array<bv8>, h: nat, pn: array<bv8>, i: nat, n: nat, key: array<bv8>,
                          ghost f: seq<bv8>, ghost nonce: seq<bv8>, ghost c: seq<bv8>)
    requires pn.Length == 6 && key.Length == 16 && pData != pn && pData != key
    requires 24 <= h && |f| == pData.Length && h + 8 + |c| <= |f| && c == f[h + 8..h + 8 + |c|] && 16 * i + n == |c|
             && 0 < n < 16
    requires nonce == Nonce(f[10..16], pn[..])
    requires pData[..] == Shifted(f, h, Crypt(key[..], nonce, c), 16 * i)
    modifies pData
    ensures pData[..] == Shifted(f, h, Crypt(key[..], nonce, c), |c|)
  {
    hide KeyStream, Nonce, XorSeq, Shifted, Crypt, Splice;
    BlockStep(f, h, key[..], nonce, c, 16 * i, n, i);
    HeaderKept(f, h, Crypt(key[..], nonce, c), 16 * i);
    assert pData[10..16] == pData[..][10..16];
    var chainBuffer := DecryptShort(pData, h + 8 + 16 * i, n, pn, i + 1, key);
    XorSeqCommutes(KeyStream(key[..], nonce, i + 1)[..n], c[16 * i..16 * i + n]);
    PutBytes(pData, h + 16 * i, chainBuffer, n);
  }

  method PutBytes(dst: array<bv8>, at: nat, src: array<bv8>, n: nat)
    requires at + n <= dst.Length && n <= src.Length && dst != src
    modifies dst
    ensures dst[..] == Splice(old(dst[..]), at, src[..n])
  {
    Move(dst, at, src, 0, n);
  }

  /** The payload decrypted to where the CCMP header began. */
  method DecryptPayload(pData: array<bv8>, h: nat, len: nat, pn: array<bv8>, key: array<bv8>)
    requires 24 <= h && h + 8 + len <= pData.Length && pn.Length == 6 && key.Length == 16 && pData != pn && pData != key
    modifies pData
    ensures pData[..] == Shifted(old(pData[..]), h,
                                 Crypt(key[..], Nonce(old(pData[..][10..16]), pn[..]),
                                   old(pData[..][h + 8..h + 8 + len])), len)
  {
    hide KeyStream, Nonce, XorSeq, Shifted, Crypt;
    ghost var f, nonce := pData[..], Nonce(pData[..][10..16], pn[..]);
    ghost var c := f[h + 8..h + 8 + len];
    var numBlocks, remainder := len / 16, len % 16;
    NothingShifted(f, h, Crypt(key[..], nonce, c));
    for i := 0 to numBlocks
      invariant pData[..] == Shifted(f, h, Crypt(key[..], nonce, c), 16 * i)
    {
      PayloadBlock(pData, h, pn, i, key, f, nonce, c);
    }
    if remainder > 0 {
      LastPayloadBlock(pData, h, pn, numBlocks, remainder, key, f, nonce, c);
    }
  }

  lemma NothingShifted(f: seq<bv8>, h: nat, plain: seq<bv8>)
    requires h + |plain| <= |f|
    ensures Shifted(f, h, plain, 0) == f
  {
  }

  lemma HeaderKept(f: seq<bv8>, h: nat, plain: seq<bv8>, done: nat)
    requires 24 <= h && h + |plain| <= |f| && done <= |plain|
    ensures Shifted(f, h, plain, done)[10..16] == f[10..16] && Shifted(f, h, plain, done)[..h] == f[..h]
  {
  }

  /** The block read next is still ciphertext, and putting its decryption in place continues the shift. */
  lemma BlockStep(f: seq<bv8>, h: nat, key: seq<bv8>, nonce: seq<bv8>, c: seq<bv8>, done: nat, n: nat, i: nat)
    requires 24 <= h && |key| == 16 && |nonce| == 13 && h + 8 + |c| <= |f| && c == f[h + 8..h + 8 + |c|]
    requires done == 16 * i && done + n <= |c| && 0 < n <= 16
    ensures var plain := Crypt(key, nonce, c); var now := Shifted(f, h, plain, done);
            && now[h + 8 + done..h + 8 + done + n] == c[done..done + n]
            && Splice(now, h + done, XorSeq(c[done..done + n], KeyStream(key, nonce, i + 1)[..n]))
               == Shifted(f, h, plain, done + n)
  {
    hide KeyStream, XorSeq, Shifted, Crypt, Splice;
    var plain := Crypt(key, nonce, c);
    AheadUntouched(f, h, plain, done, n);
    SliceInSlice(f, h + 8, h + 8 + |c|, h + 8 + done, n);
    CryptSlice(key, nonce, c, i, n);
    ShiftStep(f, h, plain, done, n);
  }

  lemma CbcStep(key: seq<bv8>, s: seq<bv8>, n: nat, block: seq<bv8>)
    requires |key| == 16 && 16 * n + 16 <= |s| && block == s[16 * n..16 * n + 16]
    ensures CbcMac(key, s, n + 1) == AesEncrypt(key, XorSeq(CbcMac(key, s, n), block))
  {
    hide AesEncrypt;
  }

  /** One more block into the CBC-MAC. */
  method Absorb(aesOut: array<bv8>, block: array<bv8>, at: nat, key: array<bv8>, ghost s: seq<bv8>, ghost n: nat)
    requires aesOut.Length == 16 && key.Length == 16 && at + 16 <= block.Length && aesOut != key && aesOut != block
    requires 16 * n + 16 <= |s| && aesOut[..] == CbcMac(key[..], s, n)
             && block[..][at..at + 16] == s[16 * n..16 * n + 16]
    modifies aesOut
    ensures aesOut[..] == CbcMac(key[..], s, n + 1)
  {
    hide AesEncrypt, CbcMac, XorSeq;
    CbcStep(key[..], s, n, block[..][at..at + 16]);
    var chainBuffer := new bv8[16];
    BitwiseXor(aesOut, block, at, chainBuffer);
    Aes128(key, chainBuffer, aesOut);
  }

  lemma XorWithZeros(b: seq<bv8>)
    requires |b| == 16
    ensures XorSeq(Zeros(16), b) == b
  {
    hide Xor;
    forall i | 0 <= i < 16 ensures XorSeq(Zeros(16), b)[i] == b[i] {
      XorLaws(b[i], 0, 0);
    }
  }

  /** The MIC IV encrypted is the CBC-MAC of the first block. */
  lemma FirstCbc(key: seq<bv8>, s: seq<bv8>, iv: seq<bv8>)
    requires |key| == 16 && |s| >= 16 && iv == s[0..16]
    ensures CbcMac(key, s, 1) == AesEncrypt(key, iv)
  {
    hide AesEncrypt, XorSeq, Zeros;
    assert CbcMac(key, s, 0) == Zeros(16);
    XorWithZeros(iv);
    CbcStep(key, s, 0, iv);
  }

  /** The blocks of the payload, the last one padded. */
  lemma PayloadBlocks(nonce: seq<bv8>, aad: seq<bv8>, m: seq<bv8>)
    requires |nonce| == 13 && (|aad| == 22 || |aad| == 28)
    ensures var s := MacInput(nonce, aad, m); var n := |m| / 16; var r := |m| % 16;
            && |s| / 16 == 3 + n + (if r == 0 then 0 else 1)
            && |s| == 48 + 16 * n + (if r == 0 then 0 else 16)
            && (r > 0 ==> s[48 + 16 * n..48 + 16 * n + 16] == m[16 * n..] + Zeros(16 - r))
  {
    hide MacInput, Zeros;
    var s, n, r := MacInput(nonce, aad, m), |m| / 16, |m| % 16;
    MacBlocks(nonce, aad, m);
    if r > 0 {
      assert PadLength(|m|) == 16 - r;
      assert s[48 + 16 * n..48 + 16 * n + 16] == s[48..][16 * n..];
      assert Padded(m)[16 * n..] == m[16 * n..] + Zeros(16 - r);
    }
  }

  lemma PayloadBlockOf(nonce: seq<bv8>, aad: seq<bv8>, m: seq<bv8>, i: nat)
    requires |nonce| == 13 && (|aad| == 22 || |aad| == 28) && 16 * i + 16 <= |m|
    ensures var s := MacInput(nonce, aad, m);
            64 + 16 * i <= |s| && s[48 + 16 * i..64 + 16 * i] == m[16 * i..16 * i + 16]
  {
    hide MacInput, Zeros;
    var s := MacInput(nonce, aad, m);
    MacBlocks(nonce, aad, m);
    SliceInSlice(s, 48, |s|, 48 + 16 * i, 16);
    assert s[48..|s|] == s[48..];
    assert Padded(m)[16 * i..16 * i + 16] == m[16 * i..16 * i + 16];
  }

  lemma Halves(s: seq<bv8>, p: seq<bv8>)
    requires |s| >= 48 && s[16..48] == p
    ensures p[..16] == s[16..32] && p[16..32] == s[32..48]
  {
    SliceInSlice(s, 16, 48, 16, 16);
    SliceInSlice(s, 16, 48, 32, 16);
  }

  /** The three blocks before the payload. */
  method HeaderMac(pData: array<bv8>, h: nat, len: nat, pn: array<bv8>, key: array<bv8>, ghost header: seq<bv8>,
      ghost s: seq<bv8>)
    returns (aesOut: array<bv8>)
    requires pn.Length == 6 && key.Length == 16 && HeaderAt(pData[..], header) && h == |header|
    requires |s| >= 48 && s[0..16] == FirstBlock(Nonce(header[10..16], pn[..]), len)
    requires s[16..48] == Padded(U16(|Aad(header)|) + Aad(header))
    ensures fresh(aesOut) && aesOut.Length == 16 && aesOut[..] == CbcMac(key[..], s, 3)
  {
    hide AesEncrypt, CbcMac, FirstBlock, Padded, Nonce, Aad, U16;
    var micIv, micHeader1, micHeader2 := new bv8[16], new bv8[16], new bv8[16];
    aesOut := new bv8[16];
    assert pData[10..16] == pData[..][..h][10..16] == header[10..16];
    ConstructMicIv(micIv, pData, len, pn);
    ConstructMicHeader1(micHeader1, h, pData, header);
    ConstructMicHeader2(micHeader2, pData, h == 30, header);
    FirstCbc(key[..], s, micIv[..]);
    Aes128(key, micIv, aesOut);
    Halves(s, Padded(U16(|Aad(header)|) + Aad(header)));
    assert micHeader1[..] == micHeader1[..][0..16] && micHeader2[..] == micHeader2[..][0..16];
    Absorb(aesOut, micHeader1, 0, key, s, 1);
    Absorb(aesOut, micHeader2, 0, key, s, 2);
  }

  /** Payload block `i`. */
  method AbsorbPayload(aesOut: array<bv8>, pData: array<bv8>, h: nat, i: nat, key: array<bv8>,
                       ghost nonce: seq<bv8>, ghost aad: seq<bv8>, ghost m: seq<bv8>)
    requires aesOut.Length == 16 && key.Length == 16 && aesOut != key && aesOut != pData
    requires |nonce| == 13 && (|aad| == 22 || |aad| == 28) && h + |m| <= pData.Length && m == pData[..][h..h + |m|]
    requires 16 * i + 16 <= |m| && 64 + 16 * i <= |MacInput(nonce, aad, m)|
    requires aesOut[..] == CbcMac(key[..], MacInput(nonce, aad, m), 3 + i)
    modifies aesOut
    ensures aesOut[..] == CbcMac(key[..], MacInput(nonce, aad, m), 4 + i)
  {
    hide CbcMac, MacInput;
    PayloadBlockOf(nonce, aad, m, i);
    SliceInSlice(pData[..], h, h + |m|, h + 16 * i, 16);
    Absorb(aesOut, pData, h + 16 * i, key, MacInput(nonce, aad, m), 3 + i);
  }

  /** The padded last block. */
  method AbsorbLast(aesOut: array<bv8>, pData: array<bv8>, h: nat, n: nat, r: nat, key: array<bv8>,
                    ghost nonce: seq<bv8>, ghost aad: seq<bv8>, ghost m: seq<bv8>)
    requires aesOut.Length == 16 && key.Length == 16 && aesOut != key && aesOut != pData
    requires |nonce| == 13 && (|aad| == 22 || |aad| == 28) && h + |m| <= pData.Length && m == pData[..][h..h + |m|]
    requires |m| == 16 * n + r && 0 < r < 16 && 64 + 16 * n <= |MacInput(nonce, aad, m)|
    requires aesOut[..] == CbcMac(key[..], MacInput(nonce, aad, m), 3 + n)
    modifies aesOut
    ensures aesOut[..] == CbcMac(key[..], MacInput(nonce, aad, m), 4 + n)
  {
    hide CbcMac, MacInput, Zeros;
    PayloadBlocks(nonce, aad, m);
    SliceInSlice(pData[..], h, h + |m|, h + 16 * n, r);
    var padded := Pad(pData, h + 16 * n, r);
    assert padded[..] == padded[..][0..16];
    Absorb(aesOut, padded, 0, key, MacInput(nonce, aad, m), 3 + n);
  }

  /** The MIC of the decrypted frame. */
  method ComputeMic(pData: array<bv8>, h: nat, len: nat, pn: array<bv8>, key: array<bv8>, ghost header: seq<bv8>)
    returns (aesOut: array<bv8>)
    requires pn.Length == 6 && key.Length == 16 && HeaderAt(pData[..], header) && h == |header|
             && h + len <= pData.Length
    ensures fresh(aesOut) && aesOut.Length == 16
    ensures aesOut[..8] == Mac(key[..], Nonce(header[10..16], pn[..]), Aad(header), pData[..][h..h + len])
  {
    hide CbcMac, FirstBlock, Padded, Nonce, Aad, U16, MacInput, Zeros;
    ghost var nonce, aad, m := Nonce(header[10..16], pn[..]), Aad(header), pData[..][h..h + len];
    MacBlocks(nonce, aad, m);
    PayloadBlocks(nonce, aad, m);
    var numBlocks, remainder := len / 16, len % 16;
    aesOut := HeaderMac(pData, h, len, pn, key, header, MacInput(nonce, aad, m));
    for i := 0 to numBlocks
      modifies aesOut
      invariant aesOut[..] == CbcMac(key[..], MacInput(nonce, aad, m), 3 + i)
    {
      AbsorbPayload(aesOut, pData, h, i, key, nonce, aad, m);
    }
    if remainder > 0 {
      AbsorbLast(aesOut, pData, h, numBlocks, remainder, key, nonce, aad, m);
    }
    assert aesOut[..8] == aesOut[..][..8];
  }

  /** The keys are of sixteen bytes and no key is the frame buffer. */
  ghost predicate UsableKeys(keys: seq<CipherKey>, pData: array<bv8>) {
    |keys| == 4 && forall k | 0 <= k < 4 :: keys[k].key.Length == 16 && keys[k].key != pData
  }

  /** The frame after the routine: the Protected Frame bit set, the plaintext where the CCMP header
      began, and everything from the end of the plaintext on as it came. */
  function Opened(f: Frame, key: seq<bv8>, whole: seq<bv8>): (s: seq<bv8>)
    requires f.WellFormed() && |key| == 16 && |f.header| + |f.payload| <= |whole|
    ensures |s| == |whole|
  {
    f.header[1 := Protect(f.header[1])] + PlainOf(key, f) + whole[|f.header| + |f.payload|..]
  }

  /** `PN[0]` to `PN[5]`, from the CCMP header. */
  method ReadPacketNumber(pData: array<bv8>, h: nat) returns (pn: array<bv8>)
    requires h + 8 <= pData.Length
    ensures fresh(pn) && pn.Length == 6 && pn[..] == PacketNumber(pData[..][h..h + 8])
  {
    pn := new bv8[6];
    pn[0], pn[1], pn[2] := pData[h], pData[h + 1], pData[h + 4];
    pn[3], pn[4], pn[5] := pData[h + 5], pData[h + 6], pData[h + 7];
  }

  lemma FrameParts(whole: seq<bv8>, n: nat, f: Frame)
    requires 2 <= n <= |whole| && n >= HeaderLength(whole[1]) + 16 && f == Parse(whole[..n])
    ensures var h, len := |f.header|, |f.payload|;
            && h == HeaderLength(whole[1]) && len == n - h - 16
            && f.header == whole[..h] && f.ccmp == whole[h..h + 8]
            && f.payload == whole[h + 8..h + 8 + len] && f.mic == whole[h + 8 + len..h + 16 + len]
  {
    hide HeaderLength;
    var h := HeaderLength(whole[1]);
    assert whole[..n][1] == whole[1];
    assert whole[..n] == whole[0..n] && whole[..h] == whole[0..h];
    SliceInSlice(whole, 0, n, 0, h);
    SliceInSlice(whole, 0, n, h, 8);
    SliceInSlice(whole, 0, n, h + 8, n - h - 16);
    SliceInSlice(whole, 0, n, n - 8, 8);
  }

  /** What the shift leaves of the header, the plaintext and the MIC. */
  lemma ShiftedParts(whole: seq<bv8>, h: nat, plain: seq<bv8>)
    requires 24 <= h && h + |plain| + 16 <= |whole|
    ensures var s, len := Shifted(whole, h, plain, |plain|), |plain|;
            && s[..h] == whole[..h] && s[h..h + len] == plain && s[h + len..] == whole[h + len..]
            && s[h + 8 + len..h + 16 + len] == whole[h + 8 + len..h + 16 + len] && s[10..16] == whole[10..16]
  {
  }

  /** `RTMPSoftDecryptAES` on a frame without a QoS field. */
  method SoftDecryptAes(pData: array<bv8>, dataByteCnt: nat, keys: seq<CipherKey>) returns (ok: bool)
    requires UsableKeys(keys, pData)
    requires 2 <= dataByteCnt <= pData.Length && dataByteCnt >= HeaderLength(pData[1]) + 16 && !QosExists(pData[0])
    modifies pData
    ensures var f := Parse(old(pData[..][..dataByteCnt])); var key := keys[KeyIdOf(f.ccmp[3])];
            if key.keyLen == 0 then !ok && pData[..] == old(pData[..])
            else ok == Authentic(key.key[..], f) && pData[..] == Opened(f, key.key[..], old(pData[..]))
  {
    hide HeaderLength, KeyIdOf, Protect, Nonce, PacketNumber, Aad, Crypt, Mac, KeyStream, XorSeq, Shifted, Opened,
        Authentic;
    ghost var whole := pData[..];
    ghost var f := Parse(whole[..dataByteCnt]);
    FrameParts(whole, dataByteCnt, f);
    var h := HeaderLength(pData[1]);
    var keyId := KeyIdOf(pData[h + 3]);
    assert f.ccmp[3] == pData[h + 3];
    if keys[keyId].keyLen == 0 {
      return false;
    }
    var key := keys[keyId].key;
    var pn := ReadPacketNumber(pData, h);
    var len := dataByteCnt - h - 8 - 8;
    assert whole[10..16] == f.header[10..16];
    DecryptPayload(pData, h, len, pn, key);
    ok := CheckMic(pData, h, len, pn, key, f, whole);
  }

  /** From the decrypted payload on: decrypt the MIC, set the bit, and compare with the MIC computed. */
  method CheckMic(pData: array<bv8>, h: nat, len: nat, pn: array<bv8>, key: array<bv8>, ghost f: Frame,
      ghost whole: seq<bv8>)
    returns (ok: bool)
    requires pn.Length == 6 && key.Length == 16 && pData != pn && pData != key
    requires f.WellFormed() && h == |f.header| && len == |f.payload| && h + len + 16 <= |whole| == pData.Length
    requires f.header == whole[..h] && f.mic == whole[h + 8 + len..h + 16 + len] && pn[..] == PacketNumber(f.ccmp)
    requires pData[..] == Shifted(whole, h, PlainOf(key[..], f), len)
    modifies pData
    ensures ok == Authentic(key[..], f) && pData[..] == Opened(f, key[..], whole)
  {
    hide HeaderLength, Protect, Nonce, PacketNumber, Aad, Crypt, Mac, KeyStream, XorSeq, Shifted, PlainOf, Opened;
    ShiftedParts(whole, h, PlainOf(key[..], f));
    assert pData[10..16] == whole[10..16] == f.header[10..16];
    var trailMic := DecryptShort(pData, h + 8 + len, 8, pn, 0, key);
    OpenedIs(f, key[..], whole, pData[..]);
    ForceProtected(pData, f.header);
    var mic := ComputeMic(pData, h, len, pn, key, f.header);
    ok := SameBytes(mic, trailMic, 8);
  }

  lemma OpenedIs(f: Frame, key: seq<bv8>, whole: seq<bv8>, s: seq<bv8>)
    requires f.WellFormed() && |key| == 16 && |s| == |whole|
    requires var h, len := |f.header|, |f.payload|;
             h + len <= |whole| && s[h..h + len] == PlainOf(key, f) && s[h + len..] == whole[h + len..]
    ensures f.header[1 := Protect(f.header[1])] + s[|f.header|..] == Opened(f, key, whole)
    ensures Opened(f, key, whole)[|f.header|..|f.header| + |f.payload|] == PlainOf(key, f)
  {
    hide HeaderLength, Protect, PlainOf;
    var h, len := |f.header|, |f.payload|;
    assert s[h..] == s[h..h + len] + s[h + len..];
  }

  /** `*(pData + 1) |= 0x40`. */
  method ForceProtected(pData: array<bv8>, ghost header: seq<bv8>)
    requires (|header| == 24 || |header| == 30) && pData.Length >= |header| && pData[..][..|header|] == header
    modifies pData
    ensures pData[..] == old(pData[..])[1 := Protect(header[1])] && HeaderAt(pData[..], header)
    ensures pData[..] == header[1 := Protect(header[1])] + old(pData[..])[|header|..]
  {
    hide Protect;
    pData[1] := Protect(pData[1]);
  }

  /** `NdisEqualMemory`. */
  method SameBytes(a: array<bv8>, b: array<bv8>, n: nat) returns (same: bool)
    requires n <= a.Length && n <= b.Length
    ensures same <==> a[..n] == b[..n]
  {
    for i := 0 to n
      invariant forall j | 0 <= j < i :: a[j] == b[j]
    {
      if a[i] != b[i] {
        assert a[..n][i] != b[..n][i];
        return false;
      }
    }
    return true;
  }
}
