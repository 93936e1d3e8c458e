/** WEP: `RTMPInitWepEngine`, `RTMPEncryptData`, `RTMPSetICV` on the sending side and
    `RTMPSoftDecryptWEP` on the receiving side. */
module Wep {
  import opened AesField
  import opened AesWords
  import opened Bytes
  import opened CipherKeys
  import opened Crc
  import opened Rc4

  const LENGTH_802_11: nat := 24

  /** `^ 0xffffffff`. */
  function Complement(w: bv32): bv32 {
    XorW(w, 0xFFFF_FFFF)
  }

  function KeyIdByte(keyId: bv8): bv8 {
    keyId << 6
  }

  function KeyIndex(b: bv8): (k: nat)
    ensures k < 4
  {
    ((b & 0xC0) >> 6) as nat
  }

  lemma KeyIdReadBack(keyId: bv8)
    requires keyId < 4
    ensures KeyIndex(KeyIdByte(keyId)) == keyId as nat
  {
  }

  // ----- sending -----

  /** The running CRC and the cipher of a frame under construction. */
  datatype Engine = Engine(fcs: bv32, rc4: Context)

  predicate Sound(e: Engine) {
    |e.rc4.state| == 0x100
  }

  function Start(iv: seq<bv8>, key: seq<bv8>): (e: Engine)
    requires |iv| == 3
    ensures Sound(e)
  {
    Engine(INITIAL_FCS, Keyed(iv + key))
  }

  function Absorb(e: Engine, m: seq<bv8>): (t: Engine)
    requires Sound(e)
    ensures Sound(t)
  {
    Engine(CalcFcs(e.fcs, m), After(e.rc4, |m|))
  }

  /** The ICV is the complemented CRC, encrypted. */
  function Icv(e: Engine): (b: seq<bv8>)
    requires Sound(e)
    ensures |b| == 4
  {
    Crypt(e.rc4, LeBytes(Complement(e.fcs)))
  }

  /** The encrypted body and the encrypted ICV of a payload fed in as `chunks`. */
  function Sealed(e: Engine, chunks: seq<seq<bv8>>): (b: seq<bv8>)
    requires Sound(e)
    decreases |chunks|
  {
    if chunks == [] then Icv(e) else Crypt(e.rc4, chunks[0]) + Sealed(Absorb(e, chunks[0]), chunks[1..])
  }

  function Joined(chunks: seq<seq<bv8>>): seq<bv8> {
    if chunks == [] then [] else chunks[0] + Joined(chunks[1..])
  }

  /** A frame: MAC header, IV, key number, and the sealed payload. */
  function Frame(header: seq<bv8>, iv: seq<bv8>, keyId: bv8, key: seq<bv8>, chunks: seq<seq<bv8>>): (f: seq<bv8>)
    requires |header| == LENGTH_802_11 && |iv| == 3
  {
    header + iv + [KeyIdByte(keyId)] + Sealed(Start(iv, key), chunks)
  }

  // ----- receiving -----

  /** Everything after the IV and the key number, decrypted. */
  function PlainOf(f: seq<bv8>, key: seq<bv8>): (p: seq<bv8>)
    requires |f| >= LENGTH_802_11 + 8
    ensures |p| == |f| - LENGTH_802_11 - 4
  {
    Crypt(Keyed(f[LENGTH_802_11..LENGTH_802_11 + 3] + key), f[LENGTH_802_11 + 4..])
  }

  /** The last four bytes are the complemented CRC of the rest. */
  predicate GoodFcs(p: seq<bv8>)
    requires |p| >= 4
  {
    Complement(CalcFcs(INITIAL_FCS, p[..|p| - 4])) == LeWord(p[|p| - 4..])
  }

  function KeyOf(f: seq<bv8>): (k: nat)
    requires |f| >= LENGTH_802_11 + 8
    ensures k < 4
  {
    KeyIndex(f[LENGTH_802_11 + 3])
  }

  lemma ReceivedParts(whole: seq<bv8>, n: nat, key: seq<bv8>)
    requires LENGTH_802_11 + 8 <= n <= |whole|
    ensures var f := whole[..n]; var at := LENGTH_802_11;
            && KeyOf(f) == KeyIndex(whole[at + 3])
            && PlainOf(f, key) == Crypt(Keyed(whole[at..at + 3] + key), whole[at + 4..at + 4 + (n - at - 4)])
  {
    hide KeyIndex, Keyed, Crypt;
    var f := whole[..n];
    assert f[LENGTH_802_11..LENGTH_802_11 + 3] == whole[LENGTH_802_11..LENGTH_802_11 + 3];
    assert f[LENGTH_802_11 + 4..] == whole[LENGTH_802_11 + 4..n];
  }

  // ----- the two sides agree -----

  /** However the payload is cut, it is sealed as if it had come in one piece with its ICV. */
  lemma {:induction false} SealedIs(e: Engine, chunks: seq<seq<bv8>>)
    requires Sound(e)
    ensures var m := Joined(chunks); Sealed(e, chunks) == Crypt(e.rc4, m + LeBytes(Complement(CalcFcs(e.fcs, m))))
    decreases |chunks|
  {
    hide Crypt, CalcFcs, After, Complement, LeBytes;
    if chunks == [] {
      EmptyFcs(e.fcs);
      assert [] + LeBytes(Complement(e.fcs)) == LeBytes(Complement(e.fcs));
    } else {
      var c, rest := chunks[0], Joined(chunks[1..]);
      SealedIs(Absorb(e, c), chunks[1..]);
      CalcConcat(e.fcs, c, rest);
      var icv := LeBytes(Complement(CalcFcs(e.fcs, c + rest)));
      CryptConcat(e.rc4, c, rest + icv);
      assert (c + rest) + icv == c + (rest + icv);
    }
  }

  lemma EmptyFcs(fcs: bv32)
    ensures CalcFcs(fcs, []) == fcs
  {
  }

  /** Every frame sent is accepted, and its payload restored, whatever the key, the IV, the payload and
      the way it was cut into calls. */
  lemma WepRoundTrip(header: seq<bv8>, iv: seq<bv8>, keyId: bv8, key: seq<bv8>, chunks: seq<seq<bv8>>)
    requires |header| == LENGTH_802_11 && |iv| == 3 && keyId < 4
    ensures var f := Frame(header, iv, keyId, key, chunks);
            && |f| == LENGTH_802_11 + 8 + |Joined(chunks)| && KeyOf(f) == keyId as nat
            && PlainOf(f, key)[..|Joined(chunks)|] == Joined(chunks) && GoodFcs(PlainOf(f, key))
  {
    hide Crypt, CalcFcs, Complement, LeBytes, Keyed, Sealed, LeWord, KeyIndex, KeyIdByte;
    var f, m := Frame(header, iv, keyId, key, chunks), Joined(chunks);
    var icv := LeBytes(Complement(CalcFcs(INITIAL_FCS, m)));
    SealedIs(Start(iv, key), chunks);
    KeyIdReadBack(keyId);
    var sealed := Sealed(Start(iv, key), chunks);
    assert f[LENGTH_802_11..LENGTH_802_11 + 3] == iv && f[LENGTH_802_11 + 3] == KeyIdByte(keyId)
        && f[LENGTH_802_11 + 4..] == sealed;
    CryptTwice(Keyed(iv + key), m + icv);
    assert PlainOf(f, key) == m + icv;
    assert (m + icv)[..|m|] == m && (m + icv)[|m|..] == icv;
    LeRoundTrip(Complement(CalcFcs(INITIAL_FCS, m)));
  }

  /** A frame that passes no longer passes when one byte of its encrypted payload or ICV is changed. */
  lemma OneByteRejected(f: seq<bv8>, g: seq<bv8>, key: seq<bv8>, k: nat)
    requires |f| >= LENGTH_802_11 + 8 && k >= LENGTH_802_11 + 4 && DifferAt(f, g, k) && GoodFcs(PlainOf(f, key))
    ensures !GoodFcs(PlainOf(g, key))
  {
    hide CalcFcs, Complement, Keyed, LeWord, Stream, Xor;
    var at := LENGTH_802_11 + 4;
    assert f[LENGTH_802_11..LENGTH_802_11 + 3] == g[LENGTH_802_11..LENGTH_802_11 + 3];
    var c := Keyed(f[LENGTH_802_11..LENGTH_802_11 + 3] + key);
    MaskKeepsDifference(c, f[at..], g[at..], k - at);
    OneByteFails(PlainOf(f, key), PlainOf(g, key), k - at);
  }

  lemma XorDifferent(a: bv8, b: bv8, c: bv8)
    requires a != b
    ensures Xor(a, c) != Xor(b, c)
  {
  }

  lemma MaskKeepsDifference(c: Context, f: seq<bv8>, g: seq<bv8>, k: nat)
    requires |c.state| == 0x100 && DifferAt(f, g, k)
    ensures DifferAt(Crypt(c, f), Crypt(c, g), k)
  {
    hide Stream, Xor;
    XorDifferent(f[k], g[k], Stream(c, |f|)[k]);
  }

  lemma ComplementInjective(u: bv32, v: bv32)
    requires Complement(u) == Complement(v)
    ensures u == v
  {
  }

  lemma OneByteFails(p: seq<bv8>, q: seq<bv8>, k: nat)
    requires |p| >= 4 && DifferAt(p, q, k) && GoodFcs(p)
    ensures !GoodFcs(q)
  {
    hide CalcFcs, Complement, LeWord;
    var n := |p| - 4;
    if k < n {
      assert p[n..] == q[n..];
      OneByteDetected(INITIAL_FCS, p[..n], q[..n], k);
      if GoodFcs(q) {
        ComplementInjective(CalcFcs(INITIAL_FCS, p[..n]), CalcFcs(INITIAL_FCS, q[..n]));
      }
    } else {
      assert p[..n] == q[..n];
      assert p[n..][k - n] != q[n..][k - n];
      if GoodFcs(q) {
        LeInjective(p[n..], q[n..]);
      }
    }
  }

  // ----- the code -----

  class Adapter {
    var FCSCRC32: bv32
    const WEPCONTEXT: ArcFour

    constructor ()
      ensures Valid() && fresh(WEPCONTEXT) && fresh(WEPCONTEXT.STATE)
    {
      FCSCRC32 := 0;
      WEPCONTEXT := new ArcFour();
    }

    ghost predicate Valid() {
      WEPCONTEXT.STATE.Length == 0x100
    }

    /** The CRC and the cipher. */
    ghost function Value(): (e: Engine)
      requires Valid()
      reads this, WEPCONTEXT, WEPCONTEXT.STATE
      ensures Sound(e)
    {
      Engine(FCSCRC32, WEPCONTEXT.Value())
    }

    /** `WEPKEY`: the IV and the key in one local buffer of sixteen bytes. */
    method BuildKey(iv: array<bv8>, at: nat, pKey: array<bv8>, keyLen: nat) returns (wepKey: array<bv8>)
      requires at + 3 <= iv.Length && keyLen <= 13 && keyLen <= pKey.Length
      ensures fresh(wepKey) && wepKey.Length == 16 && wepKey[..keyLen + 3] == iv[..][at..at + 3] + pKey[..keyLen]
    {
      wepKey := new bv8[16];
      Move(wepKey, 3, pKey, 0, keyLen);
      Move(wepKey, 0, iv, at, 3);
    }

    /** `RTMPInitWepEngine`; `iv` holds the three random bytes. */
    method InitWepEngine(pKey: array<bv8>, keyId: bv8, keyLen: nat, iv: array<bv8>, pDest: array<bv8>, d: nat)
      requires Valid() && iv.Length == 3 && keyLen <= 13 && keyLen <= pKey.Length && d + 4 <= pDest.Length
               && pDest != iv && pDest != pKey
      requires WEPCONTEXT.Apart(pDest) && WEPCONTEXT.Apart(iv) && WEPCONTEXT.Apart(pKey)
      modifies this, WEPCONTEXT, WEPCONTEXT.STATE, pDest
      ensures Value() == Start(iv[..], pKey[..keyLen])
      ensures pDest[..] == Splice(old(pDest[..]), d, iv[..] + [KeyIdByte(keyId)])
    {
      hide KeyIdByte, Keyed, Permutation;
      FCSCRC32 := INITIAL_FCS;
      var wepKey := BuildKey(iv, 0, pKey, keyLen);
      assert iv[..][0..3] == iv[..];
      WEPCONTEXT.Init(wepKey, keyLen + 3);
      Move(pDest, d, wepKey, 0, 3);
      assert wepKey[..keyLen + 3][..3] == iv[..];
      pDest[d + 3] := KeyIdByte(keyId);
    }

    /** `RTMPEncryptData`. */
    method EncryptData(pSrc: array<bv8>, s: nat, pDest: array<bv8>, d: nat, len: nat)
      requires Valid() && s + len <= pSrc.Length && d + len <= pDest.Length && (pDest == pSrc ==> d <= s)
      requires WEPCONTEXT.Apart(pDest) && WEPCONTEXT.Apart(pSrc)
      modifies this, WEPCONTEXT, WEPCONTEXT.STATE, pDest
      ensures var m := old(pSrc[..][s..s + len]);
              Value() == Absorb(old(Value()), m) && pDest[..] == Splice(old(pDest[..]), d, Crypt(old(Value()).rc4, m))
    {
      hide CalcFcs, Crypt, After, Splice;
      FCSCRC32 := CalcFcs32(FCSCRC32, pSrc, s, len);
      WEPCONTEXT.Encrypt(pDest, d, pSrc, s, len);
    }

    /** `RTMPSetICV`. */
    method SetIcv(pDest: array<bv8>, d: nat)
      requires Valid() && d + 4 <= pDest.Length && WEPCONTEXT.Apart(pDest)
      modifies this, WEPCONTEXT, WEPCONTEXT.STATE, pDest
      ensures pDest[..] == Splice(old(pDest[..]), d, Icv(old(Value())))
      ensures FCSCRC32 == Complement(old(FCSCRC32))
    {
      hide Crypt, After, Complement, LeBytes, Splice;
      FCSCRC32 := Complement(FCSCRC32);
      var word := WordInMemory(FCSCRC32);
      assert word[..][0..4] == word[..];
      WEPCONTEXT.Encrypt(pDest, d, word, 0, 4);
    }

    method WordInMemory(w: bv32) returns (b: array<bv8>)
      ensures fresh(b) && b.Length == 4 && b[..] == LeBytes(w)
    {
      hide B0, B1, B2, B3;
      b := new bv8[4];
      b[0], b[1], b[2], b[3] := B0(w), B1(w), B2(w), B3(w);
    }

    /** Keys of at most 13 bytes, outside the frame and the cipher. */
    ghost predicate UsableKeys(keys: seq<CipherKey>, pData: array<bv8>) {
      && |keys| == 4
      && forall k | 0 <= k < 4 ::
           keys[k].keyLen <= 13 && keys[k].keyLen <= keys[k].key.Length && keys[k].key != pData
             && WEPCONTEXT.Apart(keys[k].key)
    }

    /** `RTMPSoftDecryptWEP`: the payload is decrypted four bytes down, over the IV and the key number. */
    method SoftDecryptWep(pData: array<bv8>, dataByteCnt: nat, keys: seq<CipherKey>) returns (ok: bool)
      requires Valid() && LENGTH_802_11 + 8 <= dataByteCnt <= pData.Length && WEPCONTEXT.Apart(pData)
      requires UsableKeys(keys, pData)
      modifies this, WEPCONTEXT, WEPCONTEXT.STATE, pData
      ensures var f := old(pData[..][..dataByteCnt]); var key := keys[KeyOf(f)];
              if key.keyLen == 0 then !ok && pData[..] == old(pData[..])
              else var p := PlainOf(f, key.key[..key.keyLen]);
                   ok == GoodFcs(p) && pData[..] == Splice(old(pData[..]), LENGTH_802_11, p)
    {
      hide KeyIndex, Keyed, Permutation, Crypt, CalcFcs, Complement, LeWord, Splice, PlainOf, KeyOf, GoodFcs;
      ghost var whole, f := pData[..], pData[..][..dataByteCnt];
      var payload, payloadLen := LENGTH_802_11, dataByteCnt - LENGTH_802_11;
      ReceivedParts(whole, dataByteCnt, []);
      var keyIdx := KeyIndex(pData[payload + 3]);
      if keys[keyIdx].keyLen == 0 {
        return false;
      }
      ghost var key := keys[keyIdx].key[..keys[keyIdx].keyLen];
      ReceivedParts(whole, dataByteCnt, key);
      var wepKey := BuildKey(pData, payload, keys[keyIdx].key, keys[keyIdx].keyLen);
      WEPCONTEXT.Init(wepKey, keys[keyIdx].keyLen + 3);
      ghost var p := PlainOf(f, key);
      SpliceBack(whole, payload, p);
      WEPCONTEXT.Encrypt(pData, payload, pData, payload + 4, payloadLen - 4);
      ok := CheckFcs(pData, payload, payloadLen, p);
    }

    /** The CRC of the plaintext against the four bytes after it. */
    method CheckFcs(pData: array<bv8>, payload: nat, payloadLen: nat, ghost p: seq<bv8>) returns (ok: bool)
      requires payloadLen >= 8 && payload + payloadLen <= pData.Length && |p| == payloadLen - 4
      requires pData[..][payload..payload + payloadLen - 4] == p
      ensures ok == GoodFcs(p)
    {
      hide CalcFcs, Complement, LeWord;
      var at := payload + payloadLen - 8;
      var trailFcs := LeWord([pData[at], pData[at + 1], pData[at + 2], pData[at + 3]]);
      assert [pData[at], pData[at + 1], pData[at + 2], pData[at + 3]] == p[payloadLen - 8..];
      SliceInSlice(pData[..], payload, payload + payloadLen - 4, payload, payloadLen - 8);
      assert p[0..payloadLen - 8] == p[..payloadLen - 8];
      var crc32 := CalcFcs32(INITIAL_FCS, pData, payload, payloadLen - 8);
      crc32 := Complement(crc32);
      ok := crc32 == trailFcs;
    }
  }
}
