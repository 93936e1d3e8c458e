/** The Key Data field of an EAPOL-Key message as values: what the sender puts in it, how it is
    encrypted, and what the receiver reads out of it. */
module EapolKeyData {
  import opened AesField
  import opened Bytes
  import KeyWrap
  import Rc4

  const PAIR_MSG_1: nat := 1
  const PAIR_MSG_2: nat := 2
  const PAIR_MSG_3: nat := 3
  const PAIR_MSG_4: nat := 4
  const GROUP_MSG_1: nat := 5
  const GROUP_MSG_2: nat := 6

  const LEN_AES_KEY: nat := 16
  const TKIP_GTK_LENGTH: nat := 32

  /** `sizeof(RSNIE2)`. */
  const RSNIE2_SIZE: nat := 12

  const IE_RSN: bv8 := 0x30
  const IE_WPA: bv8 := 0xDD
  const RSN_OUI: seq<bv8> := [0x00, 0x0F, 0xAC]
  const WPA_OUI: seq<bv8> := [0x00, 0x50, 0xF2, 0x01]

  datatype AuthMode = OtherAuth | Wpa | WpaPsk | Wpa2 | Wpa2Psk

  predicate IsWpa(m: AuthMode) { m == Wpa || m == WpaPsk }

  predicate IsWpa2(m: AuthMode) { m == Wpa2 || m == Wpa2Psk }

  // ----- the sender -----

  /** What the message is to carry. */
  datatype Content = Content(msgType: nat, wpa2: bool, aesGroup: bool, keyIdx: bv8, gtk: seq<bv8>, rsnie: seq<bv8>)

  predicate WellFormed(c: Content) {
    |c.gtk| == TKIP_GTK_LENGTH && (c.rsnie == [] || 5 <= |c.rsnie| < 0x100)
  }

  /** `GTK_Included`. */
  predicate CarriesGtk(msgType: nat, wpa2: bool) {
    (msgType == PAIR_MSG_3 && wpa2) || msgType == GROUP_MSG_1
  }

  /** The message carries a key data encapsulation. */
  predicate CarriesKde(msgType: nat, wpa2: bool) {
    wpa2 && (msgType == PAIR_MSG_3 || msgType == GROUP_MSG_1)
  }

  function GtkLength(aesGroup: bool): nat {
    if aesGroup then LEN_AES_KEY else TKIP_GTK_LENGTH
  }

  /** `RTMPInsertRSNIE` without a PMKID list. */
  function RsnElement(rsnie: seq<bv8>): (e: seq<bv8>)
    requires 5 <= |rsnie| < 0x100
    ensures |e| == |rsnie| + 2
  {
    [if rsnie[2..5] == RSN_OUI then IE_RSN else IE_WPA, ToByte(|rsnie|)] + rsnie
  }

  function LowTwoBits(b: bv8): bv8 {
    b & 0x03
  }

  /** The header of the GTK key data encapsulation. */
  function Kde(aesGroup: bool, keyIdx: bv8): (k: seq<bv8>)
    ensures |k| == 8
  {
    [0xDD, if aesGroup then 0x16 else 0x26, 0x00, 0x0F, 0xAC, 0x01, LowTwoBits(keyIdx), 0x00]
  }

  function Element(c: Content): (e: seq<bv8>)
    requires WellFormed(c)
    ensures |e| <= 0x101
  {
    if c.rsnie != [] && (c.msgType == PAIR_MSG_2 || c.msgType == PAIR_MSG_3) then RsnElement(c.rsnie) else []
  }

  function Encapsulation(c: Content): (k: seq<bv8>)
    ensures |k| <= 8
  {
    if CarriesKde(c.msgType, c.wpa2) then Kde(c.aesGroup, c.keyIdx) else []
  }

  function Gtk(c: Content): (g: seq<bv8>)
    requires WellFormed(c)
    ensures |g| <= 0x20
  {
    if CarriesGtk(c.msgType, c.wpa2) then c.gtk[..GtkLength(c.aesGroup)] else []
  }

  /** The key data before encryption. */
  function Plain(c: Content): (p: seq<bv8>)
    requires WellFormed(c)
  {
    Element(c) + Encapsulation(c) + Gtk(c)
  }

  function PadLength(n: nat): (p: nat)
    ensures p < 8 && (n + p) % 8 == 0
  {
    if n % 8 == 0 then 0 else 8 - n % 8
  }

  function Padding(n: nat): (p: seq<bv8>)
    ensures |p| == PadLength(n)
  {
    if PadLength(n) == 0 then [] else [0xDD] + seq(PadLength(n) - 1, _ => 0)
  }

  function Padded(p: seq<bv8>): (q: seq<bv8>)
    ensures |q| == |p| + PadLength(|p|) && |q| == 8 * (|q| / 8) && p <= q
  {
    p + Padding(|p|)
  }

  /** The RC4 state from which key data is masked: the key is the IV and the KEK, and the first 256
      bytes are dropped. */
  function MaskStart(iv: seq<bv8>, kek: seq<bv8>): (c: Rc4.Context)
    requires |iv| == 16 && |kek| == 16
    ensures |c.state| == 0x100
  {
    Rc4.After(Rc4.Keyed(iv + kek), 0x100)
  }

  /** The encrypted key data: AES key wrap of the padded data, or RC4. */
  function Sealed(p: seq<bv8>, aesWrap: bool, iv: seq<bv8>, kek: seq<bv8>): (s: seq<bv8>)
    requires |iv| == 16 && |kek| == 16 && p != []
    ensures |s| == if aesWrap then |Padded(p)| + 8 else |p|
  {
    if aesWrap then KeyWrap.Wrap(kek, |Padded(p)| / 8, Padded(p)) else Rc4.Crypt(MaskStart(iv, kek), p)
  }

  /** The key data field of the message. */
  function KeyData(c: Content, aesWrap: bool, iv: seq<bv8>, kek: seq<bv8>): (s: seq<bv8>)
    requires WellFormed(c) && |iv| == 16 && |kek| == 16
  {
    if CarriesGtk(c.msgType, c.wpa2) then Sealed(Plain(c), aesWrap, iv, kek) else Plain(c)
  }

  // ----- the receiver -----

  /** What the peer's entry says about the network. */
  datatype Peer = Peer(auth: AuthMode, rsnIe: seq<bv8>)

  predicate WpaElementAt(d: seq<bv8>)
    requires |d| > RSNIE2_SIZE
  {
    d[0] == IE_WPA && d[2..6] == WPA_OUI
  }

  predicate RsnElementAt(d: seq<bv8>)
    requires |d| > RSNIE2_SIZE
  {
    d[0] == IE_RSN && d[4..7] == RSN_OUI
  }

  function ElementLength(d: seq<bv8>): (n: nat)
    requires |d| >= 2
    ensures n >= 2
  {
    d[1] as nat + 2
  }

  /** The elements the walk passes lie within the key data. */
  predicate ElementsFit(d: seq<bv8>) {
    |d| > RSNIE2_SIZE && (WpaElementAt(d) || RsnElementAt(d)) ==>
      ElementLength(d) <= |d| && ElementsFit(d[ElementLength(d)..])
  }

  /** The element at the front is the one the peer advertised. */
  predicate Matches(d: seq<bv8>, peer: Peer)
    requires |d| > RSNIE2_SIZE && ElementLength(d) <= |d| && |peer.rsnIe| >= 2
  {
    if WpaElementAt(d) then
      IsWpa(peer.auth) && |peer.rsnIe| == ElementLength(d) && d[..ElementLength(d)] == peer.rsnIe
    else
      && RsnElementAt(d) && IsWpa2(peer.auth) && d[0] == peer.rsnIe[0]
      && ElementLength(d) >= |peer.rsnIe| && d[2..|peer.rsnIe|] == peer.rsnIe[2..]
  }

  /** `RTMPCheckRSNIE`: some element matched, and where the walk stopped. */
  function CheckRsnIe(d: seq<bv8>, peer: Peer): (r: (bool, nat))
    requires ElementsFit(d) && |peer.rsnIe| >= 2
    ensures r.1 <= |d|
  {
    if |d| > RSNIE2_SIZE && (WpaElementAt(d) || RsnElementAt(d)) then
      var rest := CheckRsnIe(d[ElementLength(d)..], peer);
      (Matches(d, peer) || rest.0, ElementLength(d) + rest.1)
    else (false, 0)
  }

  /** What parsing the key data ends in. */
  datatype Outcome = Rejected | NoGtk | Installed(keyId: bv8, gtk: seq<bv8>)

  /** The GTK as the routine takes it: 32 bytes from `at` on, whatever its length. */
  function TakeGtk(d: seq<bv8>, at: nat, keyId: bv8): (o: Outcome)
    requires at + 32 <= |d|
    ensures o.Installed? ==> |o.gtk| == 32
  {
    if keyId < 1 || keyId > 3 then Rejected else Installed(keyId, d[at..at + 32])
  }

  /** `GTKLEN`, a `UCHAR`, from the length byte of the encapsulation. */
  function KdeGtkLength(len: bv8): nat {
    (len as int - 6) % 0x100
  }

  /** `RTMPParseEapolKeyData` from the encapsulation on, with `n` bytes of key data left at `at`. */
  function ParseGtk(d: seq<bv8>, at: nat, n: nat, groupKeyIndex: bv8, msgType: nat, wpa2: bool): (o: Outcome)
    requires at + 40 <= |d|
    ensures o.Installed? ==> |o.gtk| == 32
  {
    if CarriesKde(msgType, wpa2) then
      if n < 8 || n < d[at + 1] as nat + 2 || KdeGtkLength(d[at + 1]) < LEN_AES_KEY then Rejected
      else TakeGtk(d, at + 8, LowTwoBits(d[at + 6]))
    else if !wpa2 && msgType == GROUP_MSG_1 then TakeGtk(d, at, groupKeyIndex)
    else Rejected
  }

  /** `RTMPParseEapolKeyData`, on the buffer `d` of which the first `n` bytes are key data. */
  function Parse(d: seq<bv8>, n: nat, groupKeyIndex: bv8, msgType: nat, wpa2: bool, peer: Peer): (o: Outcome)
    requires n + 40 <= |d| && |peer.rsnIe| >= 2
    requires msgType == PAIR_MSG_2 || msgType == PAIR_MSG_3 ==> ElementsFit(d[..n])
    ensures o.Installed? ==> |o.gtk| == 32
  {
    if msgType == PAIR_MSG_2 || msgType == PAIR_MSG_3 then
      var check := CheckRsnIe(d[..n], peer);
      if !check.0 then Rejected
      else if wpa2 && msgType == PAIR_MSG_3 then ParseGtk(d, check.1, n - check.1, groupKeyIndex, msgType, wpa2)
      else NoGtk
    else ParseGtk(d, 0, n, groupKeyIndex, msgType, wpa2)
  }

  // ----- delivery -----

  /** The messages that carry a GTK. */
  predicate GtkMessage(c: Content) {
    && WellFormed(c) && CarriesGtk(c.msgType, c.wpa2)
    && 1 <= c.keyIdx <= 3
    && (c.msgType == PAIR_MSG_3 ==> c.rsnie != [] && c.rsnie[2..5] == RSN_OUI)
  }

  /** The receiver expects this network: its copy of the element is the one sent, or begins it. */
  predicate Expects(peer: Peer, c: Content)
  {
    && |peer.rsnIe| >= 2 && peer.rsnIe[0] == IE_RSN
    && peer.rsnIe[2..] <= c.rsnie && IsWpa2(peer.auth)
  }

  /** The buffer holds the plaintext of the message, perhaps with more after it. */
  predicate Holds(d: seq<bv8>, n: nat, c: Content)
    requires WellFormed(c)
  {
    |Plain(c)| <= n && n + 40 <= |d| && n < 0x100 && d[..|Plain(c)|] == Plain(c)
  }

  function Delivered(c: Content, o: Outcome): bool
    requires WellFormed(c)
  {
    o.Installed? && o.keyId == c.keyIdx && |o.gtk| == 32
      && o.gtk[..GtkLength(c.aesGroup)] == c.gtk[..GtkLength(c.aesGroup)]
  }

  lemma KeyIdKept(k: bv8)
    requires k <= 3
    ensures LowTwoBits(k) == k
  {
  }

  /** A GTK encapsulation is not taken for an element. */
  lemma KdeStopsWalk(d: seq<bv8>, c: Content, peer: Peer)
    requires |d| >= 8 && d[..8] == Kde(c.aesGroup, c.keyIdx) && |peer.rsnIe| >= 2
    ensures ElementsFit(d) && CheckRsnIe(d, peer) == (false, 0)
  {
    hide LowTwoBits;
    if |d| > RSNIE2_SIZE {
      assert d[0] == d[..8][0] && d[3] == d[..8][3] == d[2..6][1];
    }
  }

  /** The sender's element at the front of the buffer is seen as such. */
  lemma ElementSeen(d: seq<bv8>, rsnie: seq<bv8>)
    requires 5 <= |rsnie| < 0x100 && rsnie[2..5] == RSN_OUI && |d| > RSNIE2_SIZE && |d| >= |rsnie| + 2
    requires d[..|rsnie| + 2] == RsnElement(rsnie)
    ensures RsnElementAt(d) && !WpaElementAt(d) && ElementLength(d) == |rsnie| + 2
    ensures d[0] == IE_RSN && d[2..|rsnie| + 2] == rsnie
  {
    var e, m := RsnElement(rsnie), |rsnie| + 2;
    assert e[0] == IE_RSN && e[1] as nat == |rsnie| && e[2..] == rsnie;
    assert d[0] == d[..m][0] && d[1] == d[..m][1];
    TakeSlice(d, m, 4, 7);
    SliceInSlice(e, 2, m, 4, 3);
    assert e[2..m] == rsnie;
    TakeSlice(d, m, 2, m);
  }

  /** The walk passes the sender's element and stops at the encapsulation; it has found the network exactly
      if the receiver expects it. */
  lemma WalkPassesElement(d: seq<bv8>, c: Content, peer: Peer)
    requires WellFormed(c) && c.rsnie != [] && c.rsnie[2..5] == RSN_OUI && |peer.rsnIe| >= 2
    requires |d| < 0x100 && |d| > RSNIE2_SIZE && |d| >= |c.rsnie| + 10 && d[..|c.rsnie| + 2] == RsnElement(c.rsnie)
    requires d[|c.rsnie| + 2..][..8] == Kde(c.aesGroup, c.keyIdx)
    ensures ElementsFit(d) && CheckRsnIe(d, peer) == (Expects(peer, c), |c.rsnie| + 2)
  {
    hide Kde, LowTwoBits, RsnElement, WpaElementAt, RsnElementAt, ElementLength;
    var m, k := |c.rsnie| + 2, |peer.rsnIe|;
    ElementSeen(d, c.rsnie);
    KdeStopsWalk(d[m..], c, peer);
    if k <= m {
      SliceInSlice(d, 2, m, 2, k - 2);
      assert d[2..k] == c.rsnie[..k - 2];
    }
    assert Matches(d, peer) <==> Expects(peer, c);
  }

  lemma ThreeParts(d: seq<bv8>, a: seq<bv8>, b: seq<bv8>, c: seq<bv8>)
    requires |d| >= |a| + |b| + |c| && d[..|a + b + c|] == a + b + c
    ensures d[..|a|] == a && d[|a|..|a| + |b|] == b && d[|a| + |b|..|a| + |b| + |c|] == c
  {
    var p, m, k := a + b + c, |a| + |b|, |a| + |b| + |c|;
    TakeSlice(d, k, 0, |a|);
    TakeSlice(d, k, |a|, m);
    TakeSlice(d, k, m, k);
    assert p[0..|a|] == a && p[|a|..m] == b && p[m..k] == c;
    assert d[0..|a|] == d[..|a|];
  }

  /** The parser finds the key the sender put in, for WPA2 message 3 and for group message 1. */
  lemma ParseDelivers(d: seq<bv8>, n: nat, c: Content, groupKeyIndex: bv8, peer: Peer)
    requires GtkMessage(c) && Holds(d, n, c) && |peer.rsnIe| >= 2
    requires c.msgType == PAIR_MSG_3 ==> Expects(peer, c)
    requires !c.wpa2 ==> groupKeyIndex == c.keyIdx
    ensures c.msgType == PAIR_MSG_3 ==> ElementsFit(d[..n])
    ensures Delivered(c, Parse(d, n, groupKeyIndex, c.msgType, c.wpa2, peer))
  {
    hide RsnElement, ElementsFit, CheckRsnIe, LowTwoBits;
    var at := |Element(c)|;
    var p := Plain(c);
    KeyIdKept(c.keyIdx);
    if c.msgType == PAIR_MSG_3 {
      var front := d[..n];
      assert front[..|p|] == d[..|p|];
      ThreeParts(front, Element(c), Encapsulation(c), Gtk(c));
      assert front[at..][..8] == front[at..at + 8];
      WalkPassesElement(front, c, peer);
    }
    GtkTaken(d, n, c, groupKeyIndex);
  }

  /** A message 3 from another network than the one expected is rejected. */
  lemma MismatchRejected(d: seq<bv8>, n: nat, c: Content, groupKeyIndex: bv8, peer: Peer)
    requires WellFormed(c) && c.msgType == PAIR_MSG_3 && c.wpa2 && c.rsnie != [] && c.rsnie[2..5] == RSN_OUI
    requires Holds(d, n, c) && |peer.rsnIe| >= 2 && !Expects(peer, c)
    ensures ElementsFit(d[..n]) && Parse(d, n, groupKeyIndex, c.msgType, c.wpa2, peer) == Rejected
  {
    hide RsnElement, ElementsFit, CheckRsnIe, LowTwoBits, Expects, Kde;
    var p, at := Plain(c), |Element(c)|;
    var front := d[..n];
    assert front[..|p|] == d[..|p|];
    ThreeParts(front, Element(c), Encapsulation(c), Gtk(c));
    assert front[at..][..8] == front[at..at + 8];
    WalkPassesElement(front, c, peer);
  }

  /** A key number outside 1 to 3, of which the encapsulation carries two bits, is rejected. */
  lemma IndexRejected(d: seq<bv8>, n: nat, c: Content, groupKeyIndex: bv8, peer: Peer)
    requires WellFormed(c) && c.msgType == GROUP_MSG_1 && Holds(d, n, c) && |peer.rsnIe| >= 2
    requires if c.wpa2 then c.keyIdx % 4 == 0 else groupKeyIndex == 0 || groupKeyIndex > 3
    ensures Parse(d, n, groupKeyIndex, c.msgType, c.wpa2, peer) == Rejected
  {
    hide LowTwoBits, Gtk;
    if c.wpa2 {
      LowTwoBitsAre(c.keyIdx);
      LowTwoBitsAre(0);
      ThreeParts(d, Element(c), Encapsulation(c), Gtk(c));
      assert Element(c) == [] && d[6] == d[0..8][6] == LowTwoBits(c.keyIdx) == 0;
    }
  }

  /** When a group message installs a key, and which: under WPA2 an encapsulation that lies within the key
      data, whose length byte is not one of 6 to 21 and whose key number is not 0; under WPA a key number from
      1 to 3. Either way it is the 32 bytes that follow. */
  lemma GroupInstallsIff(d: seq<bv8>, n: nat, groupKeyIndex: bv8, wpa2: bool, peer: Peer)
    requires n + 40 <= |d| && |peer.rsnIe| >= 2
    ensures var o := Parse(d, n, groupKeyIndex, GROUP_MSG_1, wpa2, peer);
            if wpa2 then
              && (o.Installed? <==> n >= 8 && d[1] as nat + 2 <= n && !(6 <= d[1] < 22) && d[6] % 4 != 0)
              && (o.Installed? ==> o.keyId == d[6] % 4 && o.gtk == d[8..40])
            else
              && (o.Installed? <==> 1 <= groupKeyIndex <= 3)
              && (o.Installed? ==> o.keyId == groupKeyIndex && o.gtk == d[..32])
  {
    hide LowTwoBits, KdeGtkLength;
    LowTwoBitsAre(d[6]);
    LengthAccepted(d[1]);
  }

  /** The length test takes the length byte less 6 modulo 256. */
  lemma LengthAccepted(len: bv8)
    ensures KdeGtkLength(len) >= LEN_AES_KEY <==> !(6 <= len < 22)
  {
    if len < 6 {
    } else if len < 22 {
    }
  }

  /** An encapsulation too short for any key is to be rejected, but one whose length byte is 0 is not: the
      subtraction wraps, and what follows it is installed. */
  lemma ShortEncapsulationInstalled(d: seq<bv8>, peer: Peer)
    requires |d| == 48 && d[1] == 0 && d[6] == 1 && |peer.rsnIe| >= 2
    ensures Parse(d, 8, 0, GROUP_MSG_1, true, peer) == Installed(1, d[8..40])
  {
    GroupInstallsIff(d, 8, 0, true, peer);
  }

  lemma LowTwoBitsAre(b: bv8)
    ensures LowTwoBits(b) == b % 4
  {
  }

  lemma GtkTaken(d: seq<bv8>, n: nat, c: Content, groupKeyIndex: bv8)
    requires GtkMessage(c) && Holds(d, n, c)
    requires !c.wpa2 ==> groupKeyIndex == c.keyIdx
    ensures var at := |Element(c)|;
            at + 40 <= |d| && at <= n && Delivered(c, ParseGtk(d, at, n - at, groupKeyIndex, c.msgType, c.wpa2))
  {
    hide RsnElement, LowTwoBits, Element;
    var at, k, g := |Element(c)|, Encapsulation(c), Gtk(c);
    KeyIdKept(c.keyIdx);
    ThreeParts(d, Element(c), k, g);
    var start := at + |k|;
    if |k| == 8 {
      assert d[at + 1] == d[at..start][1] && d[at + 6] == d[at..start][6];
    }
    SliceInSlice(d, start, start + 32, start, |g|);
    assert d[start..start + 32][0..|g|] == d[start..start + 32][..|g|];
  }

  /** The key data as the receiver's buffer holds it after decryption. */
  predicate Opens(d: seq<bv8>, data: seq<bv8>, aesWrap: bool, iv: seq<bv8>, kek: seq<bv8>)
    requires |iv| == 16 && |kek| == 16 && |d| >= |data| && (aesWrap ==> |data| >= 8)
  {
    if aesWrap then
      var n := |data| / 8 - 1;
      d[..8 * n] == KeyWrap.Unwrap(kek, n, data[..8 * n + 8]).r && d[8 * n..|data| - 8] == data[8 * n + 8..]
    else d[..|data|] == Rc4.Crypt(MaskStart(iv, kek), data)
  }

  lemma OpensSealed(d: seq<bv8>, p: seq<bv8>, aesWrap: bool, iv: seq<bv8>, kek: seq<bv8>)
    requires |iv| == 16 && |kek| == 16 && p != [] && |d| >= |Sealed(p, aesWrap, iv, kek)|
    requires Opens(d, Sealed(p, aesWrap, iv, kek), aesWrap, iv, kek)
    ensures |d| >= |p| && d[..|p|] == p
  {
    hide KeyWrap.Wrap, KeyWrap.Unwrap, Rc4.Crypt, MaskStart, Padding, PadLength;
    var s := Sealed(p, aesWrap, iv, kek);
    if aesWrap {
      var q := Padded(p);
      var n := |q| / 8;
      assert |s| == 8 * n + 8 && |s| / 8 - 1 == n && s[..8 * n + 8] == s;
      KeyWrap.UnwrapWrap(kek, n, q);
      assert d[..8 * n] == q;
      assert d[..|p|] == d[..8 * n][..|p|] == q[..|p|] == p;
    } else {
      Rc4.CryptTwice(MaskStart(iv, kek), p);
    }
  }

  /** End to end: whatever the PTK, the GTK, the key number, the element, the IV and the cipher, the
      station that has the same KEK installs the same key under the same number. */
  lemma GtkDelivery(c: Content, aesWrap: bool, iv: seq<bv8>, kek: seq<bv8>, d: seq<bv8>, groupKeyIndex: bv8, peer: Peer)
    requires GtkMessage(c) && |iv| == 16 && |kek| == 16 && |peer.rsnIe| >= 2
    requires var data := KeyData(c, aesWrap, iv, kek);
             |data| < 0x100 && |data| + 40 <= |d| && (aesWrap ==> |data| >= 8) && Opens(d, data, aesWrap, iv, kek)
    requires c.msgType == PAIR_MSG_3 ==> Expects(peer, c)
    requires !c.wpa2 ==> groupKeyIndex == c.keyIdx
    ensures var n := |KeyData(c, aesWrap, iv, kek)|;
            && (c.msgType == PAIR_MSG_3 ==> ElementsFit(d[..n]))
            && Delivered(c, Parse(d, n, groupKeyIndex, c.msgType, c.wpa2, peer))
  {
    hide Sealed, Opens, Plain, Parse, Delivered, Expects, ElementsFit, Padded;
    assert Plain(c) != [] by { PlainNonEmpty(c); }
    OpensSealed(d, Plain(c), aesWrap, iv, kek);
    ParseDelivers(d, |KeyData(c, aesWrap, iv, kek)|, c, groupKeyIndex, peer);
  }

  lemma PlainNonEmpty(c: Content)
    requires GtkMessage(c)
    ensures Plain(c) != []
  {
    hide Element, Encapsulation;
  }
}
