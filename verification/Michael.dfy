/** The Michael MIC as the driver computes it, byte by byte through a one-word buffer, against the
    word-wise definition of section 8.3.2.3 of IEEE 802.11i-2004. */
module Michael {
  import opened AesField
  import opened AesWords
  import opened Bytes

  // ----- the block function -----

  function Add(x: bv32, y: bv32): bv32 { x + y }

  /** `ROL32` by 17, 3 and 30; the last is `ROR32` by 2. */
  function Rol17(x: bv32): bv32 { (x << 17) | ((x >> 15) & 0x1_FFFF) }

  function Rol3(x: bv32): bv32 { (x << 3) | ((x >> 29) & 0x7) }

  function Ror2(x: bv32): bv32 { (x << 30) | ((x >> 2) & 0x3FFF_FFFF) }

  /** The bytes of each half word swapped. */
  function Xswap(x: bv32): bv32 { ((x & 0xFF00_FF00) >> 8) | ((x & 0x00FF_00FF) << 8) }

  /** The two words of state. */
  datatype Pair = Pair(l: bv32, r: bv32)

  /** One round: mix a function of L into R, then add R to L. */
  function Half(p: Pair, f: bv32): Pair {
    var r := XorW(p.r, f);
    Pair(Add(p.l, r), r)
  }

  function Rounds1(p: Pair): Pair { Half(p, Rol17(p.l)) }

  function Rounds2(p: Pair): Pair { Half(p, Xswap(p.l)) }

  function Rounds3(p: Pair): Pair { Half(p, Rol3(p.l)) }

  function Rounds4(p: Pair): Pair { Half(p, Ror2(p.l)) }

  /** The Michael block function. */
  function Block(p: Pair): Pair {
    Rounds4(Rounds3(Rounds2(Rounds1(p))))
  }

  /** One message word. */
  function Mix(p: Pair, m: bv32): Pair {
    Block(Pair(XorW(p.l, m), p.r))
  }

  // ----- word by word -----

  function KeyPair(key: seq<bv8>): Pair
    requires |key| == 8
  {
    Pair(LeWord(key[..4]), LeWord(key[4..]))
  }

  /** The state after the first `n` words of `s`. */
  function Absorbed(key: seq<bv8>, s: seq<bv8>, n: nat): Pair
    requires |key| == 8 && 4 * n <= |s|
  {
    if n == 0 then KeyPair(key) else Mix(Absorbed(key, s, n - 1), LeWord(s[4 * (n - 1)..4 * n]))
  }

  /** The padding: 0x5a, then four to seven zeros up to a whole word. */
  function PadZeros(n: nat): (z: nat)
    ensures 4 <= z < 8 && (n + 1 + z) % 4 == 0
  {
    7 - n % 4
  }

  function Padded(s: seq<bv8>): (t: seq<bv8>)
    ensures |t| == 4 * (|t| / 4)
  {
    s + [0x5A] + Zeros(PadZeros(|s|))
  }

  /** The MIC of a message. */
  function Mic(key: seq<bv8>, s: seq<bv8>): (m: seq<bv8>)
    requires |key| == 8
    ensures |m| == 8
  {
    var t := Padded(s);
    var p := Absorbed(key, t, |t| / 4);
    LeBytes(p.l) + LeBytes(p.r)
  }

  // ----- a change within one word is always noticed -----

  lemma AddInjective(x: bv32, y: bv32, r: bv32)
    requires Add(x, r) == Add(y, r)
    ensures x == y
  {
  }

  lemma XorInjective(x: bv32, y: bv32, f: bv32)
    requires XorW(x, f) == XorW(y, f)
    ensures x == y
  {
  }

  /** A round can be undone when the mixed-in value depends on L alone. */
  lemma HalfInjective(p: Pair, q: Pair, f: bv32, g: bv32)
    requires Half(p, f) == Half(q, g) && (p.l == q.l ==> f == g)
    ensures p == q
  {
    hide Add, XorW;
    AddInjective(p.l, q.l, Half(p, f).r);
    XorInjective(p.r, q.r, f);
  }

  lemma BlockInjective(p: Pair, q: Pair)
    requires Block(p) == Block(q)
    ensures p == q
  {
    hide Half, Rol17, Xswap, Rol3, Ror2;
    var p1, q1 := Rounds1(p), Rounds1(q);
    var p2, q2 := Rounds2(p1), Rounds2(q1);
    var p3, q3 := Rounds3(p2), Rounds3(q2);
    HalfInjective(p3, q3, Ror2(p3.l), Ror2(q3.l));
    HalfInjective(p2, q2, Rol3(p2.l), Rol3(q2.l));
    HalfInjective(p1, q1, Xswap(p1.l), Xswap(q1.l));
    HalfInjective(p, q, Rol17(p.l), Rol17(q.l));
  }

  lemma XorLeft(x: bv32, m: bv32, n: bv32)
    requires XorW(x, m) == XorW(x, n)
    ensures m == n
  {
  }

  lemma MixSeparates(p: Pair, q: Pair, m: bv32, n: bv32)
    requires (p == q && m != n) || (p != q && m == n)
    ensures Mix(p, m) != Mix(q, n)
  {
    hide Block, XorW;
    if Mix(p, m) == Mix(q, n) {
      BlockInjective(Pair(XorW(p.l, m), p.r), Pair(XorW(q.l, n), q.r));
      if p == q { XorLeft(p.l, m, n); } else { XorInjective(p.l, q.l, m); }
    }
  }

  /** The messages differ in word `k` and nowhere else. */
  predicate DifferInWord(s: seq<bv8>, t: seq<bv8>, k: nat) {
    && |s| == |t| && 4 * k + 4 <= |s| && s[4 * k..4 * k + 4] != t[4 * k..4 * k + 4]
    && forall i | 0 <= i < |s| && !(4 * k <= i < 4 * k + 4) :: s[i] == t[i]
  }

  lemma {:induction false} OneWordSeparates(key: seq<bv8>, s: seq<bv8>, t: seq<bv8>, k: nat, n: nat)
    requires |key| == 8 && DifferInWord(s, t, k) && 4 * n <= |s|
    ensures Absorbed(key, s, n) == Absorbed(key, t, n) <==> n <= k
  {
    hide LeWord, Mix, KeyPair;
    if n > 0 {
      OneWordSeparates(key, s, t, k, n - 1);
      var a, b := s[4 * (n - 1)..4 * n], t[4 * (n - 1)..4 * n];
      assert a == s[4 * (n - 1)..4 * (n - 1) + 4] && b == t[4 * (n - 1)..4 * (n - 1) + 4];
      if n - 1 == k {
        if LeWord(a) == LeWord(b) { LeInjective(a, b); }
        MixSeparates(Absorbed(key, s, n - 1), Absorbed(key, t, n - 1), LeWord(a), LeWord(b));
      } else if n - 1 > k {
        assert a == b;
        MixSeparates(Absorbed(key, s, n - 1), Absorbed(key, t, n - 1), LeWord(a), LeWord(b));
      } else {
        assert a == b;
      }
    }
  }

  /** Two messages of one length that differ only within one word have different MICs. */
  lemma OneWordDetected(key: seq<bv8>, s: seq<bv8>, t: seq<bv8>, k: nat)
    requires |key| == 8 && |s| == |t| && DifferInWord(Padded(s), Padded(t), k)
    ensures Mic(key, s) != Mic(key, t)
  {
    hide Padded, LeBytes, Absorbed;
    var n := |Padded(s)| / 4;
    OneWordSeparates(key, Padded(s), Padded(t), k, n);
    var p, q := Absorbed(key, Padded(s), n), Absorbed(key, Padded(t), n);
    if Mic(key, s) == Mic(key, t) {
      assert Mic(key, s)[..4] == LeBytes(p.l) && Mic(key, s)[4..] == LeBytes(p.r);
      assert Mic(key, t)[..4] == LeBytes(q.l) && Mic(key, t)[4..] == LeBytes(q.r);
      LeBytesInjective(p.l, q.l);
      LeBytesInjective(p.r, q.r);
    }
  }

  // ----- byte by byte -----

  /** `TKIP_KEY_INFO`: the state, the accumulator `M`, and the bytes in it. */
  datatype Buffer = Buffer(p: Pair, m: bv32, n: nat)

  /** `uChar << (8 * n)`. */
  function Shifted(b: bv8, n: nat): bv32 {
    if n == 0 then b as bv32
    else if n == 1 then (b as bv32) << 8
    else if n == 2 then (b as bv32) << 16
    else (b as bv32) << 24
  }

  function Or(x: bv32, y: bv32): bv32 { x | y }

  /** `RTMPTkipAppendByte`. */
  function AppendByte(s: Buffer, b: bv8): (t: Buffer)
    requires s.n < 4
    ensures t.n < 4
  {
    var m := Or(s.m, Shifted(b, s.n));
    if s.n + 1 >= 4 then Buffer(Mix(s.p, m), 0, 0) else Buffer(s.p, m, s.n + 1)
  }

  /** `RTMPTkipAppend`. */
  function Append(s: Buffer, b: seq<bv8>): (t: Buffer)
    requires s.n < 4
    ensures t.n < 4
  {
    if b == [] then s else AppendByte(Append(s, b[..|b| - 1]), b[|b| - 1])
  }

  /** Appending in two calls is appending in one. */
  lemma {:induction false} AppendConcat(s: Buffer, a: seq<bv8>, b: seq<bv8>)
    requires s.n < 4
    ensures Append(s, a + b) == Append(Append(s, a), b)
  {
    hide AppendByte;
    if b == [] {
      assert a + b == a;
    } else {
      assert (a + b)[..|a + b| - 1] == a + b[..|b| - 1];
      AppendConcat(s, a, b[..|b| - 1]);
    }
  }

  /** What is in the accumulator when `b` has been put in. */
  function Partial(b: seq<bv8>): bv32
    requires |b| < 4
  {
    if b == [] then 0 else Or(Partial(b[..|b| - 1]), Shifted(b[|b| - 1], |b| - 1))
  }

  lemma FourBytes(a: bv8, b: bv8, c: bv8, d: bv8)
    ensures Or(Or(Or(Or(0, Shifted(a, 0)), Shifted(b, 1)), Shifted(c, 2)), Shifted(d, 3)) == Pack(d, c, b, a)
  {
  }

  lemma PartialFull(b: seq<bv8>)
    requires |b| == 4
    ensures Or(Partial(b[..3]), Shifted(b[3], 3)) == LeWord(b)
  {
    hide Or, Shifted, Pack;
    var b3, b2, b1 := b[..3], b[..2], b[..1];
    assert b3[..2] == b2 && b2[..1] == b1 && b1[..0] == [];
    assert Partial(b1) == Or(Partial([]), Shifted(b[0], 0));
    assert Partial(b2) == Or(Partial(b1), Shifted(b[1], 1));
    assert Partial(b3) == Or(Partial(b2), Shifted(b[2], 2));
    FourBytes(b[0], b[1], b[2], b[3]);
  }

  function Fresh(key: seq<bv8>): Buffer
    requires |key| == 8
  {
    Buffer(KeyPair(key), 0, 0)
  }

  /** The buffered state that a message stands for: whole words absorbed, the rest in the accumulator. */
  function Buffered(key: seq<bv8>, s: seq<bv8>): Buffer
    requires |key| == 8
  {
    Buffer(Absorbed(key, s, |s| / 4), Partial(s[4 * (|s| / 4)..]), |s| % 4)
  }

  lemma Quarter(k: nat, r: nat)
    requires r < 4
    ensures (4 * k + r) / 4 == k && (4 * k + r) % 4 == r
  {
  }

  lemma BufferedAt(key: seq<bv8>, s: seq<bv8>, k: nat, r: nat)
    requires |key| == 8 && |s| == 4 * k + r && r < 4
    ensures Buffered(key, s) == Buffer(Absorbed(key, s, k), Partial(s[4 * k..]), r)
  {
    hide Absorbed, Partial;
    Quarter(k, r);
  }

  lemma TailStep(s: seq<bv8>, at: nat, r: nat)
    requires |s| == at + r + 1
    ensures s[at..][..r] == s[..at + r][at..] && s[at..][r] == s[at + r]
  {
  }

  /** The byte after `4 * k + 3` others completes a word. */
  lemma CompletesWord(key: seq<bv8>, s: seq<bv8>, k: nat)
    requires |key| == 8 && |s| == 4 * k + 4
    ensures AppendByte(Buffered(key, s[..4 * k + 3]), s[4 * k + 3]) == Buffered(key, s)
  {
    hide Or, Shifted, LeWord, Mix, KeyPair, Buffered, Absorbed, Partial;
    var t, rest := s[..4 * k + 3], s[4 * k..];
    BufferedAt(key, t, k, 3);
    BufferedAt(key, s, k + 1, 0);
    AbsorbedPrefix(key, t, s, k);
    TailStep(s, 4 * k, 3);
    PartialFull(rest);
    AbsorbedStep(key, s, k, rest);
    assert s[4 * (k + 1)..] == [];
    PartialEmpty();
  }

  lemma AbsorbedStep(key: seq<bv8>, s: seq<bv8>, k: nat, w: seq<bv8>)
    requires |key| == 8 && |s| == 4 * k + 4 && w == s[4 * k..]
    ensures Absorbed(key, s, k + 1) == Mix(Absorbed(key, s, k), LeWord(w))
  {
    hide LeWord, Mix, KeyPair;
    assert w == s[4 * k..4 * (k + 1)];
  }

  lemma PartialEmpty()
    ensures Partial([]) == 0
  {
  }

  lemma PartialStep(b: seq<bv8>)
    requires 0 < |b| < 4
    ensures Partial(b) == Or(Partial(b[..|b| - 1]), Shifted(b[|b| - 1], |b| - 1))
  {
    hide Or, Shifted;
  }

  /** Any other byte goes into the accumulator. */
  lemma Accumulates(key: seq<bv8>, s: seq<bv8>, k: nat, r: nat)
    requires |key| == 8 && |s| == 4 * k + r + 1 && r < 3
    ensures AppendByte(Buffered(key, s[..4 * k + r]), s[4 * k + r]) == Buffered(key, s)
  {
    hide Or, Shifted, LeWord, Mix, KeyPair, Buffered, Absorbed, Partial;
    var t, rest := s[..4 * k + r], s[4 * k..];
    BufferedAt(key, t, k, r);
    BufferedAt(key, s, k, r + 1);
    AbsorbedPrefix(key, t, s, k);
    TailStep(s, 4 * k, r);
    PartialStep(rest);
  }

  lemma NothingAbsorbed(key: seq<bv8>, s: seq<bv8>)
    requires |key| == 8
    ensures Absorbed(key, s, 0) == KeyPair(key) && Partial([]) == 0
  {
    hide KeyPair;
  }

  /** After any message the buffered state is the one the message stands for. */
  lemma {:induction false} BufferedIs(key: seq<bv8>, s: seq<bv8>)
    requires |key| == 8
    ensures Append(Fresh(key), s) == Buffered(key, s)
  {
    hide AppendByte, KeyPair, Absorbed, Partial, Buffered;
    if s == [] {
      BufferedAt(key, s, 0, 0);
      NothingAbsorbed(key, s);
    } else {
      var n := |s| - 1;
      BufferedIs(key, s[..n]);
      if n % 4 == 3 { CompletesWord(key, s, n / 4); } else { Accumulates(key, s, n / 4, n % 4); }
    }
  }

  lemma {:induction false} AbsorbedPrefix(key: seq<bv8>, s: seq<bv8>, t: seq<bv8>, n: nat)
    requires |key| == 8 && 4 * n <= |s| <= |t| && s == t[..|s|]
    ensures Absorbed(key, s, n) == Absorbed(key, t, n)
  {
    hide LeWord, Mix, KeyPair;
    if n > 0 {
      AbsorbedPrefix(key, s, t, n - 1);
      assert s[4 * (n - 1)..4 * n] == t[4 * (n - 1)..4 * n];
    }
  }

  /** `RTMPTkipGetMIC`'s appends: 0x5a, four zeros, and zeros until the accumulator is empty. */
  function Finish(s: Buffer): Buffer
    requires s.n < 4
  {
    Append(s, [0x5A] + Zeros(PadZeros(s.n)))
  }

  /** The byte-wise computation gives the word-wise MIC, for every message. */
  lemma FinishIsMic(key: seq<bv8>, s: seq<bv8>)
    requires |key| == 8
    ensures var p := Finish(Append(Fresh(key), s)).p; LeBytes(p.l) + LeBytes(p.r) == Mic(key, s)
    ensures Finish(Append(Fresh(key), s)).n == 0
  {
    hide Append, LeBytes, KeyPair, Absorbed, Partial, Zeros;
    BufferedIs(key, s);
    assert PadZeros(|s| % 4) == PadZeros(|s|);
    AppendConcat(Fresh(key), s, [0x5A] + Zeros(PadZeros(|s|)));
    assert s + ([0x5A] + Zeros(PadZeros(|s|))) == Padded(s);
    BufferedIs(key, Padded(s));
  }

  // ----- packets -----

  function Priority(up: bv8): (b: seq<bv8>)
    ensures |b| == 4
  {
    [up, 0, 0, 0]
  }

  /** What the MIC of a packet covers. */
  function Covered(da: seq<bv8>, sa: seq<bv8>, up: bv8, data: seq<bv8>): seq<bv8> {
    da + sa + Priority(up) + data
  }

  /** `0x8100` where the type field is. */
  predicate IsVlan(src: seq<bv8>)
    requires |src| >= 14
  {
    src[12] == 0x81 && src[13] == 0x00
  }

  function VlanOffset(src: seq<bv8>): (n: nat)
    requires |src| >= 14
    ensures n <= 4
  {
    if IsVlan(src) then 4 else 0
  }

  /** The data of an outgoing packet: LLC header and type if there is an encapsulation, then the payload. */
  function PacketData(src: seq<bv8>, encap: seq<bv8>): (d: seq<bv8>)
    requires |src| >= 14 + (if |src| >= 14 then VlanOffset(src) else 0)
  {
    var v := VlanOffset(src);
    (if encap == [] then [] else encap + src[12 + v..14 + v]) + src[14 + v..]
  }

  /** `TKIP_KEY_INFO`. */
  class TkipKeyInfo {
    var L: bv32
    var R: bv32
    var M: bv32
    var nBytesInM: nat
    const MIC: array<bv8>

    constructor ()
      ensures MIC.Length == 8 && fresh(MIC)
    {
      L, R, M, nBytesInM := 0, 0, 0, 0;
      MIC := new bv8[8];
    }

    ghost function Value(): Buffer
      reads this
    {
      Buffer(Pair(L, R), M, nBytesInM)
    }

    /** `RTMPTkipSetMICKey`. */
    method SetMicKey(pMicKey: array<bv8>)
      requires pMicKey.Length == 8
      modifies this
      ensures Value() == Fresh(pMicKey[..])
    {
      hide Pack;
      var k0 := Pack(pMicKey[3], pMicKey[2], pMicKey[1], pMicKey[0]);
      var k1 := Pack(pMicKey[7], pMicKey[6], pMicKey[5], pMicKey[4]);
      assert pMicKey[..][..4] == pMicKey[0..4] && pMicKey[..][4..] == pMicKey[4..8];
      L, R, nBytesInM, M := k0, k1, 0, 0;
    }

    /** `RTMPTkipAppendByte`. */
    method AppendOne(uChar: bv8)
      requires nBytesInM < 4
      modifies this
      ensures Value() == AppendByte(old(Value()), uChar)
    {
      hide Or, Shifted, XorW, Add, Rol17, Xswap, Rol3, Ror2;
      M := Or(M, Shifted(uChar, nBytesInM));
      nBytesInM := nBytesInM + 1;
      if nBytesInM >= 4 {
        L := XorW(L, M);
        R := XorW(R, Rol17(L));
        L := Add(L, R);
        R := XorW(R, Xswap(L));
        L := Add(L, R);
        R := XorW(R, Rol3(L));
        L := Add(L, R);
        R := XorW(R, Ror2(L));
        L := Add(L, R);
        M := 0;
        nBytesInM := 0;
      }
    }

    /** `RTMPTkipAppend`. */
    method AppendAll(pSrc: array<bv8>, at: nat, nBytes: nat)
      requires nBytesInM < 4 && at + nBytes <= pSrc.Length
      modifies this
      ensures Value() == Append(old(Value()), pSrc[..][at..at + nBytes])
    {
      hide AppendByte;
      ghost var s := pSrc[..][at..at + nBytes];
      ghost var v := Value();
      for i := 0 to nBytes
        invariant nBytesInM < 4 && Value() == Append(v, s[..i])
      {
        assert s[..i + 1][..i] == s[..i] && s[i] == pSrc[at + i];
        AppendOne(pSrc[at + i]);
      }
      assert s[..nBytes] == s;
    }

    /** The minimum padding, and then zeros until the accumulator is empty. */
    method AppendPadding()
      requires nBytesInM < 4
      modifies this
      ensures Value() == Finish(old(Value()))
    {
      hide AppendByte, Append;
      ghost var v := Value();
      AppendOne(0x5A);
      AppendOne(0);
      AppendOne(0);
      AppendOne(0);
      AppendOne(0);
      FiveBytes(v);
      ghost var z := 4;
      while nBytesInM != 0
        invariant 4 <= z <= PadZeros(v.n) && Value() == Append(v, [0x5A] + Zeros(z))
        invariant nBytesInM == (v.n + 1 + z) % 4
        decreases PadZeros(v.n) - z
      {
        OneMoreZero(v, z);
        CountAppended(v, [0x5A] + Zeros(z + 1));
        AppendOne(0);
        z := z + 1;
      }
    }

    /** `RTMPTkipGetMIC`. */
    method GetMic()
      requires nBytesInM < 4 && MIC.Length == 8
      modifies this, MIC
      ensures Value() == Finish(old(Value()))
      ensures MIC[..] == LeBytes(Value().p.l) + LeBytes(Value().p.r)
    {
      hide Finish, B0, B1, B2, B3;
      AppendPadding();
      PutWord(0, L);
      PutWord(4, R);
    }

    /** `RTMPTkipPutUInt32`. */
    method PutWord(at: nat, w: bv32)
      requires at + 4 <= MIC.Length
      modifies MIC
      ensures MIC[at] == B0(w) && MIC[at + 1] == B1(w) && MIC[at + 2] == B2(w) && MIC[at + 3] == B3(w)
      ensures forall i | 0 <= i < MIC.Length && !(at <= i < at + 4) :: MIC[i] == old(MIC[i])
    {
      hide B0, B1, B2, B3;
      MIC[at], MIC[at + 1], MIC[at + 2], MIC[at + 3] := B0(w), B1(w), B2(w), B3(w);
    }
  }

  lemma OneMoreZero(v: Buffer, z: nat)
    requires v.n < 4
    ensures Append(v, [0x5A] + Zeros(z + 1)) == AppendByte(Append(v, [0x5A] + Zeros(z)), 0)
  {
    hide AppendByte;
    var s := [0x5A] + Zeros(z + 1);
    assert s[..|s| - 1] == [0x5A] + Zeros(z);
  }

  lemma FiveBytes(v: Buffer)
    requires v.n < 4
    ensures Append(v, [0x5A] + Zeros(4))
            == AppendByte(AppendByte(AppendByte(AppendByte(AppendByte(v, 0x5A), 0), 0), 0), 0)
    ensures Append(v, [0x5A] + Zeros(4)).n == (v.n + 5) % 4
  {
    hide AppendByte;
    OneMoreZero(v, 3);
    OneMoreZero(v, 2);
    OneMoreZero(v, 1);
    OneMoreZero(v, 0);
    assert [0x5A] + Zeros(0) == [0x5A];
    assert [0x5A as bv8][..0] == [];
    assert Append(v, [0x5A]) == AppendByte(Append(v, []), 0x5A);
    CountAppended(v, [0x5A] + Zeros(4));
  }

  lemma {:induction false} CountAppended(v: Buffer, s: seq<bv8>)
    requires v.n < 4
    ensures Append(v, s).n == (v.n + |s|) % 4
  {
    hide Or, Shifted, Mix;
    if s != [] { CountAppended(v, s[..|s| - 1]); }
  }

  // ----- a packet sent and received -----

  /** More bytes after those already appended. */
  method AppendAfter(info: TkipKeyInfo, pSrc: array<bv8>, at: nat, n: nat, ghost key: seq<bv8>, ghost done: seq<bv8>)
    requires |key| == 8 && info.nBytesInM < 4 && at + n <= pSrc.Length && info.Value() == Append(Fresh(key), done)
    modifies info
    ensures info.nBytesInM < 4 && info.Value() == Append(Fresh(key), done + pSrc[..][at..at + n])
  {
    hide Append, AppendByte, KeyPair;
    AppendConcat(Fresh(key), done, pSrc[..][at..at + n]);
    info.AppendAll(pSrc, at, n);
  }

  /** The sixteen bytes before the data: `RTMPInitMICEngine`, and the start of the comparison. */
  method InitMicEngine(info: TkipKeyInfo, pDa: array<bv8>, da: nat, pSa: array<bv8>, sa: nat, up: bv8,
      pMicKey: array<bv8>)
    requires info.MIC.Length == 8 && pMicKey.Length == 8 && da + 6 <= pDa.Length && sa + 6 <= pSa.Length
    modifies info
    ensures info.nBytesInM < 4
    ensures info.Value() == Append(Fresh(pMicKey[..]), pDa[..][da..da + 6] + pSa[..][sa..sa + 6] + Priority(up))
  {
    hide Append, AppendByte, KeyPair;
    ghost var key := pMicKey[..];
    var priority := new bv8[4];
    priority[0], priority[1], priority[2], priority[3] := up, 0, 0, 0;
    assert priority[..][0..4] == Priority(up);
    info.SetMicKey(pMicKey);
    FreshEmpty(key);
    AppendAfter(info, pDa, da, 6, key, []);
    assert [] + pDa[..][da..da + 6] == pDa[..][da..da + 6];
    AppendAfter(info, pSa, sa, 6, key, pDa[..][da..da + 6]);
    AppendAfter(info, priority, 0, 4, key, pDa[..][da..da + 6] + pSa[..][sa..sa + 6]);
  }

  lemma FreshEmpty(key: seq<bv8>)
    requires |key| == 8
    ensures Fresh(key).n == 0 && Append(Fresh(key), []) == Fresh(key)
  {
  }

  /** The LLC header and the type field, if the packet gets them. */
  method AppendEncap(tx: TkipKeyInfo, pSrc: array<bv8>, v: nat, pEncap: array<bv8>, hasEncap: bool,
      ghost key: seq<bv8>, ghost done: seq<bv8>)
    requires |key| == 8 && tx.nBytesInM < 4 && pEncap.Length == 6 && 14 + v <= pSrc.Length
             && tx.Value() == Append(Fresh(key), done)
    modifies tx
    ensures tx.nBytesInM < 4
    ensures tx.Value() == Append(Fresh(key), done + (if hasEncap then pEncap[..] + pSrc[..][12 + v..14 + v] else []))
  {
    hide Append, AppendByte, KeyPair;
    if hasEncap {
      AppendAfter(tx, pEncap, 0, 6, key, done);
      assert pEncap[..][0..6] == pEncap[..];
      AppendAfter(tx, pSrc, 12 + v, 2, key, done + pEncap[..]);
      assert done + pEncap[..] + pSrc[..][12 + v..14 + v] == done + (pEncap[..] + pSrc[..][12 + v..14 + v]);
    } else {
      assert done + [] == done;
    }
  }

  /** The payload, if there is any. */
  method AppendPayload(tx: TkipKeyInfo, pSrc: array<bv8>, v: nat, ghost key: seq<bv8>, ghost done: seq<bv8>)
    requires |key| == 8 && tx.nBytesInM < 4 && 14 + v <= pSrc.Length && tx.Value() == Append(Fresh(key), done)
    modifies tx
    ensures tx.nBytesInM < 4 && tx.Value() == Append(Fresh(key), done + pSrc[..][14 + v..])
  {
    hide Append, AppendByte, KeyPair;
    var srcBufLen := pSrc.Length - (14 + v);
    assert pSrc[..][14 + v..] == pSrc[..][14 + v..14 + v + srcBufLen];
    if srcBufLen > 0 {
      AppendAfter(tx, pSrc, 14 + v, srcBufLen, key, done);
    } else {
      assert done + pSrc[..][14 + v..] == done;
    }
  }

  /** Everything that the MIC of a packet covers. */
  method AppendPacket(tx: TkipKeyInfo, pSrc: array<bv8>, v: nat, pEncap: array<bv8>, hasEncap: bool, up: bv8,
      txMic: array<bv8>)
    requires tx.MIC.Length == 8 && txMic.Length == 8 && pEncap.Length == 6 && pSrc.Length >= 14 + v
             && v == VlanOffset(pSrc[..])
    modifies tx
    ensures tx.nBytesInM < 4
    ensures tx.Value() == Append(Fresh(txMic[..]), Covered(pSrc[..][..6], pSrc[..][6..12], up,
                                                           PacketData(pSrc[..], if hasEncap then pEncap[..] else [])))
  {
    hide Append, AppendByte, KeyPair, VlanOffset, Covered, PacketData;
    ghost var src, key := pSrc[..], txMic[..];
    InitMicEngine(tx, pSrc, 0, pSrc, 6, up, txMic);
    ghost var head := src[0..6] + src[6..12] + Priority(up);
    AppendEncap(tx, pSrc, v, pEncap, hasEncap, key, head);
    AppendPayload(tx, pSrc, v, key, head + (if hasEncap then pEncap[..] + src[12 + v..14 + v] else []));
    CoveredIs(src, if hasEncap then pEncap[..] else [], up, v);
  }

  /** `RTMPCalculateMICValue`: the MIC of an outgoing packet, over its LLC header if it gets one. */
  method CalculateMicValue(tx: TkipKeyInfo, pSrc: array<bv8>, pEncap: array<bv8>, hasEncap: bool, up: bv8,
      txMic: array<bv8>)
    requires tx.MIC.Length == 8 && txMic.Length == 8 && pEncap.Length == 6
    requires tx.MIC != pSrc && tx.MIC != pEncap && tx.MIC != txMic
    requires pSrc.Length >= 14 && pSrc.Length >= 14 + VlanOffset(pSrc[..])
    modifies tx, tx.MIC
    ensures tx.MIC[..] == Mic(txMic[..],
            Covered(pSrc[..][..6], pSrc[..][6..12], up, PacketData(pSrc[..], if hasEncap then pEncap[..] else [])))
  {
    hide Append, AppendByte, KeyPair, Mic, VlanOffset, Covered, PacketData, Finish;
    var v := 0;
    if pSrc[12] == 0x81 && pSrc[13] == 0x00 {
      v := 4;
    }
    VlanOffsetIs(pSrc[..]);
    AppendPacket(tx, pSrc, v, pEncap, hasEncap, up, txMic);
    FinishIsMic(txMic[..], Covered(pSrc[..][..6], pSrc[..][6..12], up,
      PacketData(pSrc[..], if hasEncap then pEncap[..] else [])));
    tx.GetMic();
  }

  lemma VlanOffsetIs(src: seq<bv8>)
    requires |src| >= 14
    ensures VlanOffset(src) == if src[12] == 0x81 && src[13] == 0x00 then 4 else 0
  {
  }

  lemma CoveredIs(src: seq<bv8>, encap: seq<bv8>, up: bv8, v: nat)
    requires |src| >= 14 && v == VlanOffset(src) && |src| >= 14 + v
    ensures src[0..6] + src[6..12] + Priority(up)
            + (if encap != [] then encap + src[12 + v..14 + v] else []) + src[14 + v..]
            == Covered(src[..6], src[6..12], up, PacketData(src, encap))
  {
    hide VlanOffset, Priority;
    assert src[0..6] == src[..6];
  }

  /** `RTMPTkipCompareMICValue`: the MIC behind the `len` bytes of data against the one computed. */
  method CompareMicValue(rx: TkipKeyInfo, pSrc: array<bv8>, pDa: array<bv8>, pSa: array<bv8>, pMicKey: array<bv8>,
      up: bv8, len: nat)
    returns (ok: bool)
    requires rx.MIC.Length == 8 && pMicKey.Length == 8 && pDa.Length == 6 && pSa.Length == 6 && len + 8 <= pSrc.Length
    requires rx.MIC != pSrc && rx.MIC != pDa && rx.MIC != pSa && rx.MIC != pMicKey
    modifies rx, rx.MIC
    ensures ok <==> Accepts(pMicKey[..], pDa[..], pSa[..], up, pSrc[..len + 8])
  {
    hide Append, AppendByte, KeyPair, Mic, Finish;
    ghost var key, data := pMicKey[..], pSrc[..][0..len];
    InitMicEngine(rx, pDa, 0, pSa, 0, up, pMicKey);
    assert pDa[..][0..6] == pDa[..] && pSa[..][0..6] == pSa[..];
    AppendAfter(rx, pSrc, 0, len, key, pDa[..] + pSa[..] + Priority(up));
    FinishIsMic(key, pDa[..] + pSa[..] + Priority(up) + data);
    var oldMic := new bv8[8];
    Move(oldMic, 0, pSrc, len, 8);
    rx.GetMic();
    assert pSrc[..len + 8][..len] == data && pSrc[..len + 8][len..] == oldMic[..];
    ok := SameMic(rx.MIC, oldMic);
  }

  method SameMic(a: array<bv8>, b: array<bv8>) returns (same: bool)
    requires a.Length == 8 && b.Length == 8
    ensures same <==> a[..] == b[..]
  {
    for i := 0 to 8
      invariant forall j | 0 <= j < i :: a[j] == b[j]
    {
      if a[i] != b[i] {
        assert a[..][i] != b[..][i];
        return false;
      }
    }
    return true;
  }

  /** The last eight bytes are the MIC of those before, under these addresses and this priority. */
  predicate Accepts(key: seq<bv8>, da: seq<bv8>, sa: seq<bv8>, up: bv8, f: seq<bv8>)
    requires |key| == 8 && |f| >= 8
  {
    f[|f| - 8..] == Mic(key, Covered(da, sa, up, f[..|f| - 8]))
  }

  /** What the sender computes over a packet that is not of a VLAN, the receiver accepts behind the LLC
      header, the type and the payload. */
  lemma SentIsAccepted(key: seq<bv8>, src: seq<bv8>, encap: seq<bv8>, up: bv8)
    requires |key| == 8 && |src| >= 14 && !IsVlan(src)
    ensures var data := if encap == [] then src[14..] else encap + src[12..14] + src[14..];
            Accepts(key, src[..6], src[6..12], up,
              data + Mic(key, Covered(src[..6], src[6..12], up, PacketData(src, encap))))
  {
    hide Mic;
    var data := if encap == [] then src[14..] else encap + src[12..14] + src[14..];
    assert PacketData(src, encap) == data;
    var mic := Mic(key, Covered(src[..6], src[6..12], up, data));
    assert (data + mic)[..|data|] == data && (data + mic)[|data|..] == mic;
  }

  /** And it no longer accepts the packet once bytes of one word of what the MIC covers are changed. */
  lemma ChangedIsRejected(key: seq<bv8>, da: seq<bv8>, sa: seq<bv8>, up: bv8, f: seq<bv8>, g: seq<bv8>, k: nat)
    requires |key| == 8 && |f| == |g| >= 8 && Accepts(key, da, sa, up, f) && f[|f| - 8..] == g[|g| - 8..]
    requires DifferInWord(Padded(Covered(da, sa, up, f[..|f| - 8])), Padded(Covered(da, sa, up, g[..|g| - 8])), k)
    ensures !Accepts(key, da, sa, up, g)
  {
    hide Mic, Padded;
    OneWordDetected(key, Covered(da, sa, up, f[..|f| - 8]), Covered(da, sa, up, g[..|g| - 8]), k);
  }
}
