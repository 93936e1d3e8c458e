/** GTK delivery: `ConstructEapolKeyData` and `RTMPInsertRSNIE` on the sending side, the decryption in
    `PeerWpaMessageSanity`, `RTMPCheckRSNIE` and `RTMPParseEapolKeyData` on the receiving side. */
module GroupKey {
  import opened AesField
  import opened Bytes
  import opened EapolKeyData
  import KeyWrap
  import Rc4
  import Wep
  import Crc

  const DESC_TYPE_AES: nat := 2
  const MAX_LEN_OF_RSNIE: nat := 255

  /** The parts of an EAPOL-Key message that key data touches. */
  class KeyMessage {
    const KeyIv: array<bv8>
    const KeyData: array<bv8>
    var KeyDataLen: nat
    var BodyLen: nat

    constructor ()
      ensures Valid() && fresh(KeyIv) && fresh(KeyData)
    {
      KeyIv, KeyData := new bv8[16], new bv8[MAX_LEN_OF_RSNIE];
      KeyDataLen, BodyLen := 0, 0;
    }

    ghost predicate Valid() {
      KeyIv.Length == 16 && KeyData.Length == MAX_LEN_OF_RSNIE && KeyIv != KeyData
    }
  }

  // ----- sending -----

  /** `RTMPInsertRSNIE` at `at`, with no PMKID list; returns the bytes written. */
  method InsertRsnIe(frameBuf: array<bv8>, at: nat, rsnie: seq<bv8>) returns (n: nat)
    requires 5 <= |rsnie| < 0x100 && at + |rsnie| + 2 <= frameBuf.Length
    modifies frameBuf
    ensures n == |rsnie| + 2 && frameBuf[..] == Splice(old(frameBuf[..]), at, RsnElement(rsnie))
  {
    hide ToByte;
    var ieNum := IE_WPA;
    if rsnie[2..5] == RSN_OUI {
      ieNum := IE_RSN;
    }
    frameBuf[at] := ieNum;
    frameBuf[at + 1] := ToByte(|rsnie|);
    forall i | 0 <= i < |rsnie| {
      frameBuf[at + 2 + i] := rsnie[i];
    }
    n := |rsnie| + 2;
  }

  /** The header of the encapsulation. */
  method PutKde(keyData: array<bv8>, at: nat, aesGroup: bool, keyIdx: bv8)
    requires at + 8 <= keyData.Length
    modifies keyData
    ensures keyData[..] == Splice(old(keyData[..]), at, Kde(aesGroup, keyIdx))
  {
    hide LowTwoBits;
    keyData[at] := 0xDD;
    if aesGroup {
      keyData[at + 1] := 0x16;
    } else {
      keyData[at + 1] := 0x26;
    }
    keyData[at + 2], keyData[at + 3], keyData[at + 4], keyData[at + 5] := 0x00, 0x0F, 0xAC, 0x01;
    keyData[at + 6] := LowTwoBits(keyIdx);
    keyData[at + 7] := 0x00;
  }

  method PutBytes(dst: array<bv8>, at: nat, b: seq<bv8>)
    requires at + |b| <= dst.Length
    modifies dst
    ensures dst[..] == Splice(old(dst[..]), at, b)
  {
    forall i | 0 <= i < |b| {
      dst[at + i] := b[i];
    }
  }

  /** Writing where the written part ends extends it. */
  lemma Appended(s: seq<bv8>, done: seq<bv8>, b: seq<bv8>)
    requires |done| + |b| <= |s| && s[..|done|] == done
    ensures Splice(s, |done|, b)[..|done| + |b|] == done + b
    ensures Splice(s, |done|, b)[|done| + |b|..] == s[|done| + |b|..]
  {
  }

  /** Element, encapsulation and GTK into the key data buffer. */
  method PutPlain(keyData: array<bv8>, c: Content) returns (dataOffset: nat)
    requires keyData.Length == 512 && WellFormed(c)
    modifies keyData
    ensures dataOffset == |Plain(c)| && keyData[..dataOffset] == Plain(c)
    ensures keyData[dataOffset..] == old(keyData[..])[dataOffset..]
  {
    hide RsnElement, Kde, Splice;
    dataOffset := 0;
    ghost var s := keyData[..];
    if c.rsnie != [] && (c.msgType == PAIR_MSG_2 || c.msgType == PAIR_MSG_3) {
      Appended(s, [], RsnElement(c.rsnie));
      dataOffset := InsertRsnIe(keyData, 0, c.rsnie);
    }
    assert keyData[..dataOffset] == Element(c) && keyData[dataOffset..] == s[dataOffset..];
    if IsKde(c) {
      Appended(keyData[..], Element(c), Kde(c.aesGroup, c.keyIdx));
      PutKde(keyData, dataOffset, c.aesGroup, c.keyIdx);
      dataOffset := dataOffset + 8;
    }
    assert keyData[..dataOffset] == Element(c) + Encapsulation(c) && keyData[dataOffset..] == s[dataOffset..];
    if CarriesGtk(c.msgType, c.wpa2) {
      Appended(keyData[..], Element(c) + Encapsulation(c), Gtk(c));
      PutBytes(keyData, dataOffset, c.gtk[..GtkLength(c.aesGroup)]);
      dataOffset := dataOffset + GtkLength(c.aesGroup);
    }
  }

  predicate IsKde(c: Content) {
    CarriesKde(c.msgType, c.wpa2)
  }

  /** 0xDD and zeros up to a multiple of eight. */
  method PadKeyData(keyData: array<bv8>, dataOffset: nat) returns (n: nat)
    requires dataOffset + 8 <= keyData.Length
    modifies keyData
    ensures n == |Padded(old(keyData[..dataOffset]))| && keyData[..n] == Padded(old(keyData[..dataOffset]))
  {
    n := dataOffset;
    var remainder := dataOffset % 8;
    if remainder != 0 {
      var padLen := 8 - remainder;
      keyData[dataOffset] := 0xDD;
      for i := 1 to padLen
        invariant keyData[..dataOffset] == old(keyData[..dataOffset]) && keyData[dataOffset] == 0xDD
        invariant forall j | dataOffset + 1 <= j < dataOffset + i :: keyData[j] == 0
      {
        keyData[dataOffset + i] := 0;
      }
      n := dataOffset + padLen;
    }
  }

  /** The key data encrypted: AES key wrap, or RC4 under the IV and the KEK. */
  method SealKeyData(pAd: Wep.Adapter, keyData: array<bv8>, dataOffset: nat, aesWrap: bool, iv: array<bv8>,
      kek: seq<bv8>, rc4Gtk: array<bv8>)
    returns (n: nat)
    requires pAd.Valid() && keyData.Length == 512 && rc4Gtk.Length == 512 && keyData != rc4Gtk && iv.Length == 16
             && |kek| == 16
    requires 0 < dataOffset <= 255 && iv != keyData && iv != rc4Gtk
    requires pAd.WEPCONTEXT.Apart(keyData) && pAd.WEPCONTEXT.Apart(rc4Gtk) && pAd.WEPCONTEXT.Apart(iv)
    modifies pAd, pAd.WEPCONTEXT, pAd.WEPCONTEXT.STATE, keyData, rc4Gtk
    ensures var s := Sealed(old(keyData[..dataOffset]), aesWrap, iv[..], kek); n == |s| && rc4Gtk[..n] == s
  {
    hide KeyWrap.Wrap, Rc4.Keyed, Rc4.After, Rc4.Crypt, Rc4.Permutation, Padding, PadLength, Crc.CalcFcs;
    ghost var p := keyData[..dataOffset];
    if aesWrap {
      n := PadKeyData(keyData, dataOffset);
      KeyWrap.AesGtkKeyWrap(kek, keyData, n, rc4Gtk);
      n := n + 8;
    } else {
      n := dataOffset;
      pAd.FCSCRC32 := Crc.INITIAL_FCS;
      var ekey := EncryptionKey(iv, kek);
      pAd.WEPCONTEXT.Init(ekey, 32);
      assert ekey[..32] == ekey[..];
      pAd.FCSCRC32 := Crc.CalcFcs32(pAd.FCSCRC32, keyData, 0, dataOffset);
      assert keyData[..][0..dataOffset] == p;
      Appended(rc4Gtk[..], [], Rc4.Crypt(MaskStart(iv[..], kek), p));
      pAd.WEPCONTEXT.WpaEncrypt(rc4Gtk, 0, keyData, 0, dataOffset);
    }
  }

  /** `ekey`: the IV, then the KEK. */
  method EncryptionKey(iv: array<bv8>, kek: seq<bv8>) returns (ekey: array<bv8>)
    requires iv.Length == 16 && |kek| == 16
    ensures fresh(ekey) && ekey.Length == 32 && ekey[..] == iv[..] + kek
  {
    ekey := new bv8[32];
    Move(ekey, 0, iv, 0, 16);
    PutBytes(ekey, 16, kek);
  }

  /** `ConstructEapolKeyData`. */
  method ConstructEapolKeyData(pAd: Wep.Adapter, ptk: seq<bv8>, keyDescVer: nat, c: Content, pMsg: KeyMessage)
    requires pAd.Valid() && pMsg.Valid() && |ptk| >= 32 && WellFormed(c)
    requires |KeyData(c, keyDescVer == DESC_TYPE_AES, pMsg.KeyIv[..], ptk[16..32])| <= MAX_LEN_OF_RSNIE
    requires pAd.WEPCONTEXT.Apart(pMsg.KeyIv) && pAd.WEPCONTEXT.Apart(pMsg.KeyData)
    modifies pAd, pAd.WEPCONTEXT, pAd.WEPCONTEXT.STATE, pMsg, pMsg.KeyData
    ensures c.msgType in {PAIR_MSG_1, PAIR_MSG_4, GROUP_MSG_2} ==>
              pMsg.KeyData[..] == old(pMsg.KeyData[..]) && pMsg.KeyDataLen == old(pMsg.KeyDataLen)
                && pMsg.BodyLen == old(pMsg.BodyLen)
    ensures c.msgType !in {PAIR_MSG_1, PAIR_MSG_4, GROUP_MSG_2} ==>
              var s := KeyData(c, keyDescVer == DESC_TYPE_AES, pMsg.KeyIv[..], ptk[16..32]);
              && pMsg.KeyDataLen == |s| && pMsg.KeyData[..|s|] == s
              && pMsg.BodyLen == (old(pMsg.BodyLen) + |s|) % 0x1_0000
  {
    hide Sealed, Plain, KeyData;
    if c.msgType == PAIR_MSG_1 || c.msgType == PAIR_MSG_4 || c.msgType == GROUP_MSG_2 {
      return;
    }
    var rc4Gtk, keyData := new bv8[512], new bv8[512];
    Zero(keyData, 0, 512);
    pMsg.KeyDataLen := 0;
    var dataOffset := PutPlain(keyData, c);
    KeyDataSizes(c, keyDescVer == DESC_TYPE_AES, pMsg.KeyIv[..], ptk[16..32]);
    if CarriesGtk(c.msgType, c.wpa2) {
      dataOffset := SealKeyData(pAd, keyData, dataOffset, keyDescVer == DESC_TYPE_AES, pMsg.KeyIv, ptk[16..32], rc4Gtk);
      Move(pMsg.KeyData, 0, rc4Gtk, 0, dataOffset);
      assert pMsg.KeyData[..dataOffset] == rc4Gtk[..dataOffset];
    } else {
      Move(pMsg.KeyData, 0, keyData, 0, dataOffset);
      assert pMsg.KeyData[..dataOffset] == keyData[..dataOffset];
    }
    pMsg.KeyDataLen := dataOffset;
    pMsg.BodyLen := (pMsg.BodyLen + dataOffset) % 0x1_0000;
  }

  lemma KeyDataSizes(c: Content, aesWrap: bool, iv: seq<bv8>, kek: seq<bv8>)
    requires WellFormed(c) && |iv| == 16 && |kek| == 16 && |KeyData(c, aesWrap, iv, kek)| <= MAX_LEN_OF_RSNIE
    ensures if CarriesGtk(c.msgType, c.wpa2) then
              Plain(c) != [] && KeyData(c, aesWrap, iv, kek) == Sealed(Plain(c), aesWrap, iv, kek)
              && |Plain(c)| <= 255
            else KeyData(c, aesWrap, iv, kek) == Plain(c)
  {
    hide Sealed, Element, Encapsulation, RsnElement, Kde;
  }

  // ----- receiving -----

  /** `RTMPCheckRSNIE`. */
  method CheckRsnIeLoop(pData: array<bv8>, dataLen: nat, peer: Peer) returns (result: bool, offset: nat)
    requires dataLen <= pData.Length && ElementsFit(pData[..dataLen]) && |peer.rsnIe| >= 2
    ensures (result, offset) == CheckRsnIe(pData[..dataLen], peer)
  {
    hide WpaElementAt, RsnElementAt, Matches, ElementLength;
    result, offset := false, 0;
    ghost var whole := CheckRsnIe(pData[..dataLen], peer);
    var len := dataLen;
    assert pData[0..dataLen] == pData[..dataLen];
    while len > RSNIE2_SIZE
      invariant 0 <= offset && 0 <= len && offset + len == dataLen
      invariant ElementsFit(pData[offset..dataLen])
      invariant var rest := CheckRsnIe(pData[offset..dataLen], peer); whole == (result || rest.0, offset + rest.1)
    {
      ghost var d := pData[offset..dataLen];
      var seen, n, matched := LookAt(pData, offset, dataLen, peer);
      if !seen {
        break;
      }
      assert d[n..] == pData[offset + n..dataLen];
      if matched {
        result := true;
      }
      offset := offset + n;
      len := len - n;
    }
  }

  /** The element at `offset`: whether it is one of the two kinds, its length, and whether it matches. */
  method LookAt(pData: array<bv8>, offset: nat, dataLen: nat, peer: Peer) returns (seen: bool, n: nat, matched: bool)
    requires offset + RSNIE2_SIZE < dataLen <= pData.Length && |peer.rsnIe| >= 2 && ElementsFit(pData[offset..dataLen])
    ensures var d := pData[offset..dataLen];
            && seen == (WpaElementAt(d) || RsnElementAt(d)) && n == ElementLength(d)
            && (seen ==> n <= |d| && matched == Matches(d, peer))
  {
    hide ElementsFit, WpaElementAt, RsnElementAt;
    ghost var d := pData[offset..dataLen];
    FitsHere(d);
    n := pData[offset + 1] as nat + 2;
    matched := false;
    var wpa := IsWpaElement(pData, offset, dataLen);
    var rsn := IsRsnElement(pData, offset, dataLen);
    seen := wpa || rsn;
    if wpa {
      if IsWpa(peer.auth) && |peer.rsnIe| == n {
        matched := Equal(pData, offset, dataLen, 0, peer.rsnIe);
        assert d[0..n] == d[..n];
      }
    } else if rsn {
      if IsWpa2(peer.auth) && pData[offset] == peer.rsnIe[0] && n >= |peer.rsnIe| {
        matched := Equal(pData, offset, dataLen, 2, peer.rsnIe[2..]);
      }
    }
  }

  method IsWpaElement(pData: array<bv8>, offset: nat, dataLen: nat) returns (b: bool)
    requires offset + RSNIE2_SIZE < dataLen <= pData.Length
    ensures b == WpaElementAt(pData[offset..dataLen])
  {
    var oui := Equal(pData, offset, dataLen, 2, WPA_OUI);
    b := pData[offset] == IE_WPA && oui;
  }

  method IsRsnElement(pData: array<bv8>, offset: nat, dataLen: nat) returns (b: bool)
    requires offset + RSNIE2_SIZE < dataLen <= pData.Length
    ensures b == RsnElementAt(pData[offset..dataLen])
  {
    var oui := Equal(pData, offset, dataLen, 4, RSN_OUI);
    b := pData[offset] == IE_RSN && oui;
  }

  lemma FitsHere(d: seq<bv8>)
    requires |d| > RSNIE2_SIZE && ElementsFit(d)
    ensures WpaElementAt(d) || RsnElementAt(d) ==> ElementLength(d) <= |d|
  {
  }

  /** `NdisEqualMemory` of `b` and what lies `at` bytes into the element. */
  method Equal(pData: array<bv8>, offset: nat, dataLen: nat, at: nat, b: seq<bv8>) returns (same: bool)
    requires offset + at + |b| <= dataLen <= pData.Length
    ensures same == (pData[offset..dataLen][at..at + |b|] == b)
  {
    ghost var part := pData[offset..dataLen][at..at + |b|];
    for i := 0 to |b|
      invariant forall j | 0 <= j < i :: part[j] == b[j]
    {
      assert part[i] == pData[offset + at + i];
      if pData[offset + at + i] != b[i] {
        return false;
      }
    }
    return true;
  }

  /** `CIPHER_KEY` of the shared key table, as far as the GTK fills it. */
  datatype SharedKey = SharedKey(keyLen: nat, key: seq<bv8>, rxMic: seq<bv8>, txMic: seq<bv8>)

  /** What the shared key table gets from a GTK of 32 bytes. */
  function SharedKeyOf(gtk: seq<bv8>): SharedKey
    requires |gtk| == 32
  {
    SharedKey(16, gtk[..16], gtk[16..24], gtk[24..32])
  }

  /** `KEYDATA`, with what the routine may read after it. */
  const KEYDATA_SIZE: nat := 0x128

  /** The station side of the handshake. */
  class Station {
    const Auth: AuthMode
    var RsnIe: seq<bv8>
    var PTK: seq<bv8>
    var GTK: seq<bv8>
    var DefaultKeyId: bv8
    var SharedKeys: map<nat, SharedKey>

    constructor (auth: AuthMode, rsnIe: seq<bv8>, ptk: seq<bv8>)
    {
      Auth, RsnIe, PTK := auth, rsnIe, ptk;
      GTK, DefaultKeyId, SharedKeys := [], 0, map[];
    }

    /** The station's state after parsing ended in `o`. */
    twostate predicate Took(o: Outcome)
      requires o.Installed? ==> |o.gtk| == 32
      reads this
    {
      if o.Installed? then
        GTK == o.gtk && DefaultKeyId == o.keyId
          && SharedKeys == old(SharedKeys)[o.keyId as nat := SharedKeyOf(o.gtk)]
      else GTK == old(GTK) && DefaultKeyId == old(DefaultKeyId) && SharedKeys == old(SharedKeys)
    }

    /** The last part of `RTMPParseEapolKeyData`: check the key number, then set the key material. */
    method InstallGtk(keyData: array<bv8>, at: nat, keyId: bv8) returns (ok: bool, ghost o: Outcome)
      requires at + 32 <= keyData.Length
      modifies this`GTK, this`DefaultKeyId, this`SharedKeys
      ensures o == TakeGtk(keyData[..], at, keyId) && ok == o.Installed? && Took(o)
      ensures o.Installed? ==>
                var k := o.keyId as nat;
                && k in SharedKeys && SharedKeys[k].keyLen == 16 && SharedKeys[k].key == o.gtk[..16]
                && SharedKeys[k].rxMic == o.gtk[16..24] && SharedKeys[k].txMic == o.gtk[24..32]
    {
      o := TakeGtk(keyData[..], at, keyId);
      if keyId < 1 || keyId > 3 {
        return false, o;
      }
      GTK := keyData[at..at + 32];
      assert GTK == keyData[..][at..at + 32];
      DefaultKeyId := keyId;
      SharedKeys := SharedKeys[keyId as nat := SharedKey(16, GTK[..16], GTK[16..24], GTK[24..32])];
      ok := true;
    }

    /** `RTMPParseEapolKeyData`. */
    method ParseEapolKeyData(keyData: array<bv8>, keyDataLen: nat, groupKeyIndex: bv8, msgType: nat, wpa2: bool)
      returns (ok: bool, ghost o: Outcome)
      requires keyData.Length == KEYDATA_SIZE && keyDataLen <= 255 && |RsnIe| >= 2
      requires msgType == PAIR_MSG_2 || msgType == PAIR_MSG_3 ==> ElementsFit(keyData[..][..keyDataLen])
      modifies this`GTK, this`DefaultKeyId, this`SharedKeys
      ensures o == Parse(keyData[..], keyDataLen, groupKeyIndex, msgType, wpa2, Peer(Auth, RsnIe))
      ensures ok == !o.Rejected? && Took(o)
      ensures o.Installed? ==>
                var k := o.keyId as nat;
                && k in SharedKeys && SharedKeys[k].keyLen == 16 && SharedKeys[k].key == o.gtk[..16]
                && SharedKeys[k].rxMic == o.gtk[16..24] && SharedKeys[k].txMic == o.gtk[24..32]
    {
      hide CheckRsnIe, ElementsFit;
      var pMyKeyData, keyDataLength := 0, keyDataLen;
      assert keyData[..][..keyDataLen] == keyData[..keyDataLen];
      if msgType == PAIR_MSG_2 || msgType == PAIR_MSG_3 {
        var found, skipOffset := CheckRsnIeLoop(keyData, keyDataLen, Peer(Auth, RsnIe));
        if !found {
          return false, Rejected;
        }
        if wpa2 && msgType == PAIR_MSG_3 {
          pMyKeyData := pMyKeyData + skipOffset;
          keyDataLength := keyDataLength - skipOffset;
        } else {
          return true, NoGtk;
        }
      }
      var defaultIdx: bv8 := 0;
      if wpa2 && (msgType == PAIR_MSG_3 || msgType == GROUP_MSG_1) {
        if keyDataLength < 8 {
          return false, Rejected;
        }
        defaultIdx := LowTwoBits(keyData[pMyKeyData + 6]);
        var len := keyData[pMyKeyData + 1];
        if keyDataLength < len as nat + 2 || KdeGtkLength(len) < LEN_AES_KEY {
          return false, Rejected;
        }
        pMyKeyData := pMyKeyData + 8;
        keyDataLength := keyDataLength - 8;
      } else if !wpa2 && msgType == GROUP_MSG_1 {
        defaultIdx := groupKeyIndex;
      }
      ok, o := InstallGtk(keyData, pMyKeyData, defaultIdx);
    }

    /** The decryption of key data in `PeerWpaMessageSanity`. */
    method OpenKeyData(pAd: Wep.Adapter, pMsg: KeyMessage, aesWrap: bool, keyData: array<bv8>)
      requires pAd.Valid() && pMsg.Valid() && |PTK| >= 32 && pMsg.KeyDataLen <= MAX_LEN_OF_RSNIE
               && (aesWrap ==> pMsg.KeyDataLen >= 8)
      requires keyData.Length == KEYDATA_SIZE && keyData != pMsg.KeyData && keyData != pMsg.KeyIv
      requires pAd.WEPCONTEXT.Apart(keyData) && pAd.WEPCONTEXT.Apart(pMsg.KeyData) && pAd.WEPCONTEXT.Apart(pMsg.KeyIv)
      modifies pAd.WEPCONTEXT, pAd.WEPCONTEXT.STATE, keyData
      ensures Opens(keyData[..], pMsg.KeyData[..pMsg.KeyDataLen], aesWrap, pMsg.KeyIv[..], PTK[16..32])
    {
      hide KeyWrap.Unwrap, Rc4.Keyed, Rc4.After, Rc4.Crypt, Rc4.Permutation;
      ghost var len, data := pMsg.KeyDataLen, pMsg.KeyData[..pMsg.KeyDataLen];
      if aesWrap {
        var _ := KeyWrap.AesGtkKeyUnwrap(PTK[16..32], keyData, pMsg.KeyDataLen, pMsg.KeyData);
        WrappedParts(keyData[..], pMsg.KeyData[..], len);
      } else {
        var key := EncryptionKey(pMsg.KeyIv, PTK[16..32]);
        pAd.WEPCONTEXT.Init(key, 32);
        assert key[..32] == key[..];
        assert pMsg.KeyData[..][0..len] == data;
        Appended(keyData[..], [], Rc4.Crypt(MaskStart(pMsg.KeyIv[..], PTK[16..32]), data));
        pAd.WEPCONTEXT.WpaEncrypt(keyData, 0, pMsg.KeyData, 0, pMsg.KeyDataLen);
      }
    }

    /** The part of `PeerWpaMessageSanity` after the replay and MIC checks. */
    method TakeKeyData(pAd: Wep.Adapter, pMsg: KeyMessage, msgType: nat, keyDescVer: nat, keyIndex: bv8)
      returns (ok: bool, ghost o: Outcome, ghost d: seq<bv8>)
      requires pAd.Valid() && pMsg.Valid() && |PTK| >= 32 && |RsnIe| >= 2
      requires pAd.WEPCONTEXT.Apart(pMsg.KeyData) && pAd.WEPCONTEXT.Apart(pMsg.KeyIv)
      requires pMsg.KeyDataLen <= MAX_LEN_OF_RSNIE
      requires Walkable(pMsg.KeyData[..pMsg.KeyDataLen], msgType, IsWpa2(Auth), keyDescVer == DESC_TYPE_AES,
               pMsg.KeyIv[..], PTK[16..32])
      modifies this`GTK, this`DefaultKeyId, this`SharedKeys, pAd.WEPCONTEXT, pAd.WEPCONTEXT.STATE
      ensures (o.Installed? ==> |o.gtk| == 32) && ok == !o.Rejected? && Took(o)
      ensures o.Installed? ==>
                var k := o.keyId as nat;
                && k in SharedKeys && SharedKeys[k].keyLen == 16 && SharedKeys[k].key == o.gtk[..16]
                && SharedKeys[k].rxMic == o.gtk[16..24] && SharedKeys[k].txMic == o.gtk[24..32]
      ensures var data, wpa2 := pMsg.KeyData[..pMsg.KeyDataLen], IsWpa2(Auth);
              if data == [] then o == NoGtk
              else if CarriesGtk(msgType, wpa2) then
                && |d| == KEYDATA_SIZE && Opens(d, data, keyDescVer == DESC_TYPE_AES, pMsg.KeyIv[..], PTK[16..32])
                && (msgType == PAIR_MSG_3 ==> ElementsFit(d[..|data|]))
                && o == Parse(d, |data|, if wpa2 then 0 else keyIndex, msgType, wpa2, Peer(Auth, RsnIe))
              else if msgType == PAIR_MSG_2 || msgType == PAIR_MSG_3 then
                && |d| == KEYDATA_SIZE && d[..|data|] == data && ElementsFit(d[..|data|])
                && o == Parse(d, |data|, 0, msgType, wpa2, Peer(Auth, RsnIe))
              else o == NoGtk
    {
      hide CheckRsnIe, ElementsFit, Opens, Parse;
      d := [];
      if pMsg.KeyDataLen == 0 {
        return true, NoGtk, d;
      }
      var keyData := new bv8[KEYDATA_SIZE];
      Zero(keyData, 0, KEYDATA_SIZE);
      var wpa2, groupKeyIndex := IsWpa2(Auth), 0 as bv8;
      if CarriesGtk(msgType, wpa2) {
        OpenKeyData(pAd, pMsg, keyDescVer == DESC_TYPE_AES, keyData);
        if !wpa2 && msgType == GROUP_MSG_1 {
          groupKeyIndex := keyIndex;
        }
      } else if msgType == PAIR_MSG_2 || (msgType == PAIR_MSG_3 && !wpa2) {
        Move(keyData, 0, pMsg.KeyData, 0, pMsg.KeyDataLen);
        assert keyData[..][..pMsg.KeyDataLen] == pMsg.KeyData[..pMsg.KeyDataLen];
      } else {
        return true, NoGtk, d;
      }
      d := keyData[..];
      ok, o := ParseEapolKeyData(keyData, pMsg.KeyDataLen, groupKeyIndex, msgType, wpa2);
    }
  }

  /** The elements in the key data, once it is decrypted, lie within it, and wrapped data is not shorter
      than the register A. */
  ghost predicate Walkable(data: seq<bv8>, msgType: nat, wpa2: bool, aesWrap: bool, iv: seq<bv8>, kek: seq<bv8>)
    requires |iv| == 16 && |kek| == 16 && |data| <= MAX_LEN_OF_RSNIE
  {
    && (CarriesGtk(msgType, wpa2) && aesWrap && data != [] ==> |data| >= 8)
    && (CarriesGtk(msgType, wpa2) && msgType == PAIR_MSG_3 && data != [] ==>
          forall d: seq<bv8> | |d| == KEYDATA_SIZE && Opens(d, data, aesWrap, iv, kek) :: ElementsFit(d[..|data|]))
    && (!CarriesGtk(msgType, wpa2) && (msgType == PAIR_MSG_2 || msgType == PAIR_MSG_3) ==> ElementsFit(data))
  }

  lemma WrappedParts(d: seq<bv8>, k: seq<bv8>, len: nat)
    requires 8 <= len <= |d| && len <= |k|
    ensures var n := len / 8 - 1;
            && k[..len][..8 * n + 8] == k[..8 * n + 8] && k[..len][8 * n + 8..] == k[8 * n + 8..len]
  {
  }

  /** Sender and receiver together: what `ConstructEapolKeyData` leaves in the message is what
      `TakeKeyData` needs, and it installs the sender's GTK under the sender's key number. */
  lemma HandshakeDelivers(c: Content, aesWrap: bool, iv: seq<bv8>, kek: seq<bv8>, peer: Peer)
    requires GtkMessage(c) && |iv| == 16 && |kek| == 16 && |peer.rsnIe| >= 2
    requires |KeyData(c, aesWrap, iv, kek)| <= MAX_LEN_OF_RSNIE && (c.msgType == PAIR_MSG_3 ==> Expects(peer, c))
    ensures var data := KeyData(c, aesWrap, iv, kek);
            && data != [] && Walkable(data, c.msgType, c.wpa2, aesWrap, iv, kek)
            && forall d | |d| == KEYDATA_SIZE && Opens(d, data, aesWrap, iv, kek) ::
                 Delivered(c, Parse(d, |data|, if c.wpa2 then 0 else c.keyIdx, c.msgType, c.wpa2, peer))
  {
    hide Sealed, Opens, Plain, Parse, Delivered, Expects, ElementsFit, Padded;
    var data := KeyData(c, aesWrap, iv, kek);
    KeyDataSizes(c, aesWrap, iv, kek);
    forall d: seq<bv8> | |d| == KEYDATA_SIZE && Opens(d, data, aesWrap, iv, kek)
      ensures c.msgType == PAIR_MSG_3 ==> ElementsFit(d[..|data|])
      ensures Delivered(c, Parse(d, |data|, if c.wpa2 then 0 else c.keyIdx, c.msgType, c.wpa2, peer))
    {
      GtkDelivery(c, aesWrap, iv, kek, d, if c.wpa2 then 0 else c.keyIdx, peer);
    }
  }
}
