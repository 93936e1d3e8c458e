/** What the CCMP check covers, bit by bit: which header bits the additional data leaves out, and so that a
    frame and its retransmissions are authentic together; and what the nonce and the first blocks say. */
module CcmHeaders {
  import opened AesField
  import opened AesContext
  import opened Bytes
  import opened Ccm

  /** Two headers that differ at most in subtype bits 4 and 5, Retry (0x08), Power Management (0x10), More
      Data (0x20), Protected Frame (0x40, which is forced on), the duration and the sequence number. */
  predicate SameProtected(h: seq<bv8>, g: seq<bv8>)
    requires (|h| == 24 || |h| == 30) && (|g| == 24 || |g| == 30)
  {
    && |h| == |g|
    && h[0] | 0x10 | 0x20 == g[0] | 0x10 | 0x20
    && h[1] | 0x08 | 0x10 | 0x20 | 0x40 == g[1] | 0x08 | 0x10 | 0x20 | 0x40
    && h[4..22] == g[4..22]
    && h[22] << 4 == g[22] << 4
    && h[24..] == g[24..]
  }

  lemma MutedBits(a: bv8, b: bv8)
    ensures MuteFc0(a) == MuteFc0(b) <==> a | 0x10 | 0x20 == b | 0x10 | 0x20
    ensures MuteFc1(Protect(a)) == MuteFc1(Protect(b))
            <==> a | 0x08 | 0x10 | 0x20 | 0x40 == b | 0x08 | 0x10 | 0x20 | 0x40
    ensures MuteSc(a) == MuteSc(b) <==> a << 4 == b << 4
  {
  }

  /** The additional data is the same exactly for headers that differ at most in those bits. */
  lemma AadIff(h: seq<bv8>, g: seq<bv8>)
    requires (|h| == 24 || |h| == 30) && (|g| == 24 || |g| == 30)
    ensures Aad(h) == Aad(g) <==> SameProtected(h, g)
  {
    hide MuteFc0, MuteFc1, MuteSc, Protect;
    MutedBits(h[0], g[0]);
    MutedBits(h[1], g[1]);
    MutedBits(h[22], g[22]);
    AadParts(h);
    AadParts(g);
  }

  lemma AadParts(h: seq<bv8>)
    requires |h| == 24 || |h| == 30
    ensures var a := Aad(h);
            && a[0] == MuteFc0(h[0]) && a[1] == MuteFc1(Protect(h[1])) && a[2..20] == h[4..22]
            && a[20] == MuteSc(h[22]) && a[21] == 0 && a[22..] == h[24..]
            && a == [a[0], a[1]] + a[2..20] + [a[20], a[21]] + a[22..]
  {
    hide MuteFc0, MuteFc1, MuteSc, Protect;
  }

  /** A retransmission, sent again as it was with other bits of that kind, decrypts to the same payload and
      passes the check exactly if the frame does. */
  lemma RetransmissionAlike(key: seq<bv8>, f: Frame, g: Frame)
    requires |key| == 16 && f.WellFormed() && g.WellFormed()
    requires f.ccmp == g.ccmp && f.payload == g.payload && f.mic == g.mic && SameProtected(f.header, g.header)
    ensures PlainOf(key, f) == PlainOf(key, g) && (Authentic(key, f) <==> Authentic(key, g))
  {
    hide Crypt, Mac, KeyStream, XorSeq, Nonce, PacketNumber, Aad, HeaderLength;
    AadIff(f.header, g.header);
    SliceInSlice(f.header, 4, 22, 10, 6);
    SliceInSlice(g.header, 4, 22, 10, 6);
  }

  /** A number from its bytes, the lowest first. */
  function LittleEndian(b: seq<bv8>): nat {
    if b == [] then 0 else b[0] as nat + 0x100 * LittleEndian(b[1..])
  }

  /** And the highest first. */
  function BigEndian(b: seq<bv8>): nat {
    if b == [] then 0 else 0x100 * BigEndian(b[..|b| - 1]) + b[|b| - 1] as nat
  }

  lemma {:induction false} EndianReversed(b: seq<bv8>, c: seq<bv8>)
    requires |b| == |c| && forall i | 0 <= i < |b| :: c[i] == b[|b| - 1 - i]
    ensures BigEndian(c) == LittleEndian(b)
  {
    if b != [] {
      EndianReversed(b[1..], c[..|c| - 1]);
    }
  }

  /** The nonce: priority 0, the transmitter address, and the packet number that the CCMP header carries in
      bytes 0, 1 and 4 to 7, lowest first. */
  lemma NonceIs(f: Frame)
    requires f.WellFormed()
    ensures var n := FrameNonce(f);
            && n[0] == 0 && n[1..7] == f.header[10..16]
            && BigEndian(n[7..]) == LittleEndian(f.ccmp[..2] + f.ccmp[4..])
  {
    hide HeaderLength, LittleEndian, BigEndian;
    EndianReversed(f.ccmp[..2] + f.ccmp[4..], FrameNonce(f)[7..]);
  }

  /** The first block carries 64 for additional data, 8 * (M - 2) / 2 for a MIC of M = 8 bytes and L - 1 for
      lengths of L = 2 bytes; the counter blocks carry L - 1; and both end in the number, highest byte first. */
  lemma BlocksSay(nonce: seq<bv8>, k: nat)
    requires |nonce| == 13 && k < 0x1_0000
    ensures var b, a := FirstBlock(nonce, k), CounterBlock(nonce, k);
            && b[0] as nat == 64 + 8 * ((8 - 2) / 2) + (2 - 1) && a[0] as nat == 2 - 1
            && b[1..14] == nonce == a[1..14] && BigEndian(b[14..]) == k == BigEndian(a[14..])
  {
    hide BigEndian;
    var b := U16(k);
    assert FirstBlock(nonce, k)[14..] == b == CounterBlock(nonce, k)[14..];
    TwoBytes(k);
  }

  /** Counter mode: byte `j` is masked with byte `j % 16` of the encrypted block number j / 16 + 1. */
  lemma CryptAt(key: seq<bv8>, nonce: seq<bv8>, m: seq<bv8>, j: nat)
    requires |key| == 16 && |nonce| == 13 && j < |m|
    ensures Crypt(key, nonce, m)[j] == Xor(m[j], AesEncrypt(key, CounterBlock(nonce, j / 16 + 1))[j % 16])
  {
    hide AesEncrypt, CounterBlock, Crypt, Xor;
    var i, n := j / 16, j % 16;
    CryptSlice(key, nonce, m, i, n + 1);
    assert Crypt(key, nonce, m)[16 * i..16 * i + n + 1][n] == Crypt(key, nonce, m)[j];
    assert m[16 * i..16 * i + n + 1][n] == m[j];
  }

  /** The tag: the first eight bytes of the CBC-MAC, masked with the encrypted block number 0. */
  lemma TagAt(key: seq<bv8>, header: seq<bv8>, ccmp: seq<bv8>, m: seq<bv8>, j: nat)
    requires |key| == 16 && Frame(header, ccmp, [], Zeros(8)).WellFormed() && j < 8
    ensures var f := Encapsulate(key, header, ccmp, m); var nonce := FrameNonce(f);
            && f.mic[j] == Xor(AesEncrypt(key, CounterBlock(nonce, 0))[j], Mac(key, nonce, Aad(header), m)[j])
            && f.payload == Crypt(key, nonce, m)
  {
    hide AesEncrypt, CounterBlock, Crypt, Mac, Aad, Xor, Nonce, PacketNumber, HeaderLength;
  }

  lemma BigEndianTwo(x: bv8, y: bv8)
    ensures BigEndian([x, y]) == 0x100 * x as nat + y as nat
  {
    assert [x, y][..1] == [x] && [x][..0] == [];
    assert BigEndian([x]) == 0x100 * BigEndian([]) + x as nat;
  }

  lemma TwoBytes(k: nat)
    requires k < 0x1_0000
    ensures BigEndian(U16(k)) == k
  {
    hide BigEndian;
    var hi, lo := k / 0x100, k % 0x100;
    ByteIs(hi);
    ByteIs(lo);
    assert U16(k) == [hi as bv8, lo as bv8];
    BigEndianTwo(hi as bv8, lo as bv8);
  }
}
