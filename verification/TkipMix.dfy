/** `RTMPTkipMixKey`: the two phases of TKIP key mixing on 32-bit words, of which phase 2 is not reduced
    to 16 bits on the way, against the 16-bit arithmetic of section 8.3.2.5 of IEEE 802.11i-2004. */
module TkipMix {
  import opened AesField
  import opened AesWords
  import opened TkipSbox

  // ----- 16-bit arithmetic -----

  function Mk16(hi: bv8, lo: bv8): bv16 {
    ((hi as bv16) << 8) | (lo as bv16)
  }

  function Lo8(x: bv16): bv8 {
    (x & 0xFF) as bv8
  }

  function Hi8(x: bv16): bv8 {
    (x >> 8) as bv8
  }

  function Add16(x: bv16, y: bv16): bv16 { x + y }

  function Xor16(x: bv16, y: bv16): bv16 { x ^ y }

  function Half16(x: bv16): bv16 { x >> 1 }

  function Top16(x: bv16): bv16 { x << 15 }

  function Or16(x: bv16, y: bv16): bv16 { x | y }

  function RotR1(x: bv16): bv16 {
    Or16(Half16(x), Top16(x))
  }

  /** The S-box on 16 bits: one table, used straight for the low byte and byte-swapped for the high. */
  function Sbox16(x: bv16): bv16 {
    Xor16(Mk16(Upper(Lo8(x)), Lower(Lo8(x))), Mk16(Lower(Hi8(x)), Upper(Hi8(x))))
  }

  /** Key word `i`: bytes `2 * i` and `2 * i + 1`. */
  function Tk(key: seq<bv8>, i: nat): bv16
    requires |key| == 16 && i < 8
  {
    Mk16(key[2 * i + 1], key[2 * i])
  }

  function Small(i: nat): bv16 {
    (i % 8) as bv16
  }

  /** The phase 1 output. */
  datatype Ttak = Ttak(t0: bv16, t1: bv16, t2: bv16, t3: bv16, t4: bv16)

  /** Phase 1 after `n` of its 8 rounds. */
  function Phase1(key: seq<bv8>, ta: seq<bv8>, iv32: bv32, n: nat): Ttak
    requires |key| == 16 && |ta| == 6
  {
    if n == 0 then Ttak(Low16(iv32), Low16(HighHalf(iv32)), Mk16(ta[1], ta[0]), Mk16(ta[3], ta[2]), Mk16(ta[5], ta[4]))
    else Round1(key, Phase1(key, ta, iv32, n - 1), n - 1)
  }

  function Round1(key: seq<bv8>, p: Ttak, i: nat): Ttak
    requires |key| == 16
  {
    var j := i % 2;
    var t0 := Add16(p.t0, Sbox16(Xor16(p.t4, Tk(key, j))));
    var t1 := Add16(p.t1, Sbox16(Xor16(t0, Tk(key, 2 + j))));
    var t2 := Add16(p.t2, Sbox16(Xor16(t1, Tk(key, 4 + j))));
    var t3 := Add16(p.t3, Sbox16(Xor16(t2, Tk(key, 6 + j))));
    var t4 := Add16(p.t4, Sbox16(Xor16(t3, Tk(key, j))));
    Ttak(t0, t1, t2, t3, Add16(t4, Small(i)))
  }

  datatype Ppk = Ppk(p0: bv16, p1: bv16, p2: bv16, p3: bv16, p4: bv16, p5: bv16)

  /** Phase 2 after its S-box half. */
  function Phase2A(key: seq<bv8>, t: Ttak, iv16: bv16): Ppk
    requires |key| == 16
  {
    var q5 := Add16(t.t4, iv16);
    var p0 := Add16(t.t0, Sbox16(Xor16(q5, Tk(key, 0))));
    var p1 := Add16(t.t1, Sbox16(Xor16(p0, Tk(key, 1))));
    var p2 := Add16(t.t2, Sbox16(Xor16(p1, Tk(key, 2))));
    var p3 := Add16(t.t3, Sbox16(Xor16(p2, Tk(key, 3))));
    var p4 := Add16(t.t4, Sbox16(Xor16(p3, Tk(key, 4))));
    var p5 := Add16(q5, Sbox16(Xor16(p4, Tk(key, 5))));
    Ppk(p0, p1, p2, p3, p4, p5)
  }

  /** Phase 2 after its rotation half. */
  function Phase2B(key: seq<bv8>, q: Ppk): Ppk
    requires |key| == 16
  {
    var p0 := Add16(q.p0, RotR1(Xor16(q.p5, Tk(key, 6))));
    var p1 := Add16(q.p1, RotR1(Xor16(p0, Tk(key, 7))));
    var p2 := Add16(q.p2, RotR1(p1));
    var p3 := Add16(q.p3, RotR1(p2));
    var p4 := Add16(q.p4, RotR1(p3));
    var p5 := Add16(q.p5, RotR1(p4));
    Ppk(p0, p1, p2, p3, p4, p5)
  }

  /** The second byte of the seed, which keeps the RC4 key out of a weak class. */
  function Guard(b: bv8): bv8 {
    (b | 0x20) & 0x7F
  }

  /** The RC4 key. */
  function WepSeed(key: seq<bv8>, p: Ppk, iv16: bv16): (s: seq<bv8>)
    requires |key| == 16
    ensures |s| == 16
  {
    [Hi8(iv16), Guard(Hi8(iv16)), Lo8(iv16), Lo8(Half16(Xor16(p.p5, Tk(key, 0)))),
     Lo8(p.p0), Hi8(p.p0), Lo8(p.p1), Hi8(p.p1), Lo8(p.p2), Hi8(p.p2),
     Lo8(p.p3), Hi8(p.p3), Lo8(p.p4), Hi8(p.p4), Lo8(p.p5), Hi8(p.p5)]
  }

  function MixKey(key: seq<bv8>, ta: seq<bv8>, iv32: bv32, iv16: bv16): (s: seq<bv8>)
    requires |key| == 16 && |ta| == 6
    ensures |s| == 16
  {
    WepSeed(key, Phase2B(key, Phase2A(key, Phase1(key, ta, iv32, 8), iv16)), iv16)
  }

  // ----- 32-bit words -----

  /** `% 65536` on an unsigned word. */
  function Mod16(x: bv32): bv32 { x & 0xFFFF }

  function Low16(x: bv32): bv16 { (x & 0xFFFF) as bv16 }

  function HighHalf(x: bv32): bv32 { x >> 16 }

  function Wide(x: bv16): bv32 { x as bv32 }

  function Add32(x: bv32, y: bv32): bv32 { x + y }

  /** `(256*hi) + lo`. */
  function Word(hi: bv8, lo: bv8): bv32 {
    ((hi as bv32) << 8) + (lo as bv32)
  }

  /** `tkip_sbox`. */
  function TkipSboxOf(index: bv32): bv32 {
    XorW(Word(Upper(B0(index)), Lower(B0(index))), Word(Lower(B1(index)), Upper(B1(index))))
  }

  predicate Odd(a: bv32) { a & 0x01 == 0x01 }

  /** `rotr1`. */
  function Rotr1(a: bv32): bv32 {
    Mod16(if Odd(a) then (a >> 1) | 0x8000 else (a >> 1) & 0x7FFF)
  }

  // ----- the low sixteen bits go their own way -----

  lemma Low16Add(x: bv32, y: bv32)
    ensures Low16(Add32(x, y)) == Add16(Low16(x), Low16(y))
  {
  }

  lemma Low16Xor(x: bv32, y: bv32)
    ensures Low16(XorW(x, y)) == Xor16(Low16(x), Low16(y))
  {
  }

  lemma Low16Mod(x: bv32)
    ensures Low16(Mod16(x)) == Low16(x) && Mod16(x) == Wide(Low16(x))
  {
  }

  lemma Low16Wide(x: bv16)
    ensures Low16(Wide(x)) == x
  {
  }

  lemma WideXor(x: bv16, y: bv16)
    ensures XorW(Wide(x), Wide(y)) == Wide(Xor16(x, y))
  {
  }

  lemma WordIsWide(hi: bv8, lo: bv8)
    ensures Word(hi, lo) == Wide(Mk16(hi, lo))
  {
  }

  lemma LowBytes(x: bv32)
    ensures B0(x) == Lo8(Low16(x)) && B1(x) == Hi8(Low16(x))
  {
  }

  lemma TkipSboxIs(x: bv32)
    ensures TkipSboxOf(x) == Wide(Sbox16(Low16(x)))
  {
    hide Upper, Lower, Wide, Mk16, Word, XorW, Xor16, B0, B1, Lo8, Hi8, Low16;
    LowBytes(x);
    var lo, hi := B0(x), B1(x);
    WordIsWide(Upper(lo), Lower(lo));
    WordIsWide(Lower(hi), Upper(hi));
    WideXor(Mk16(Upper(lo), Lower(lo)), Mk16(Lower(hi), Upper(hi)));
  }

  function Half32(x: bv32): bv32 { x >> 1 }

  function Top32(x: bv32): bv32 { (x & 1) << 15 }

  function Or32(x: bv32, y: bv32): bv32 { x | y }

  function Rotate32(x: bv32): bv32 {
    Or32(Half32(x), Top32(x))
  }

  lemma RotrOdd(a: bv32)
    requires Odd(a)
    ensures Mod16((a >> 1) | 0x8000) == Rotate32(Mod16(a))
  {
    assert Mod16(a) & 1 == 1;
  }

  lemma RotrEven(a: bv32)
    requires !Odd(a)
    ensures Mod16((a >> 1) & 0x7FFF) == Rotate32(Mod16(a))
  {
    assert Mod16(a) & 1 == 0;
  }

  lemma HalfWide(x: bv16)
    ensures Half32(Wide(x)) == Wide(Half16(x))
  {
  }

  lemma TopWide(x: bv16)
    ensures Top32(Wide(x)) == Wide(Top16(x))
  {
  }

  lemma OrWide(x: bv16, y: bv16)
    ensures Or32(Wide(x), Wide(y)) == Wide(Or16(x, y))
  {
  }

  lemma RotateWide(x: bv16)
    ensures Rotate32(Wide(x)) == Wide(RotR1(x))
  {
    hide Half32, Half16, Top32, Top16, Or32, Or16, Wide;
    HalfWide(x);
    TopWide(x);
    OrWide(Half16(x), Top16(x));
  }

  lemma Rotr1Is(x: bv32)
    ensures Rotr1(x) == Wide(RotR1(Low16(x)))
  {
    hide Rotate32, Mod16, Low16, Wide, RotR1, Odd;
    if Odd(x) { RotrOdd(x); } else { RotrEven(x); }
    Low16Mod(x);
    RotateWide(Low16(x));
  }

  lemma WideBound(x: bv16)
    ensures Wide(x) <= 0xFFFF
  {
  }

  /** Adding a 16-bit value to one within a bound. */
  lemma AddBound(x: bv32, y: bv32, m: bv32)
    requires x <= m && y <= 0xFFFF && m <= 0x1_FFFE
    ensures Add32(x, y) <= m + 0xFFFF
  {
  }

  /** One assignment of phase 1: `(x + tkip_sbox((y ^ k) % 65536)) % 65536`. */
  function Step1(x: bv32, y: bv32, k: bv32): bv32 {
    Mod16(Add32(x, TkipSboxOf(Mod16(XorW(y, k)))))
  }

  lemma Step1Is(x: bv32, y: bv32, hi: bv8, lo: bv8)
    ensures Step1(x, y, Word(hi, lo)) == Wide(Add16(Low16(x), Sbox16(Xor16(Low16(y), Mk16(hi, lo)))))
  {
    hide Mod16, Low16, Wide, Add32, Add16, XorW, Xor16, Word, Mk16, Sbox16, TkipSboxOf;
    var k := Word(hi, lo);
    var s := TkipSboxOf(Mod16(XorW(y, k)));
    Low16Mod(XorW(y, k));
    Low16Xor(y, k);
    WordIsWide(hi, lo);
    Low16Wide(Mk16(hi, lo));
    TkipSboxIs(Mod16(XorW(y, k)));
    Low16Wide(Sbox16(Xor16(Low16(y), Mk16(hi, lo))));
    Low16Mod(Add32(x, s));
    Low16Add(x, s);
  }

  /** One assignment of the first half of phase 2: `x + tkip_sbox((y ^ k) % 65536)`. */
  function Step2(x: bv32, y: bv32, k: bv32): bv32 {
    Add32(x, TkipSboxOf(Mod16(XorW(y, k))))
  }

  lemma Step2Is(x: bv32, y: bv32, hi: bv8, lo: bv8)
    ensures Low16(Step2(x, y, Word(hi, lo))) == Add16(Low16(x), Sbox16(Xor16(Low16(y), Mk16(hi, lo))))
    ensures x <= 0xFFFF ==> Step2(x, y, Word(hi, lo)) <= 0x1_FFFE
  {
    hide Mod16, Low16, Wide, Add32, Add16, XorW, Xor16, Word, Mk16, Sbox16, TkipSboxOf;
    var k := Word(hi, lo);
    var s := TkipSboxOf(Mod16(XorW(y, k)));
    Low16Mod(XorW(y, k));
    Low16Xor(y, k);
    WordIsWide(hi, lo);
    Low16Wide(Mk16(hi, lo));
    TkipSboxIs(Mod16(XorW(y, k)));
    Low16Wide(Sbox16(Xor16(Low16(y), Mk16(hi, lo))));
    Low16Add(x, s);
    WideBound(Sbox16(Xor16(Low16(y), Mk16(hi, lo))));
    if x <= 0xFFFF { AddBound(x, s, 0xFFFF); }
  }

  /** One assignment of the second half: `x + rotr1(y)`. */
  function Step3(x: bv32, y: bv32): bv32 {
    Add32(x, Rotr1(y))
  }

  lemma Step3Is(x: bv32, y: bv32)
    ensures Low16(Step3(x, y)) == Add16(Low16(x), RotR1(Low16(y)))
    ensures x <= 0x1_FFFE ==> Step3(x, y) <= 0x2_FFFD
  {
    hide Low16, Wide, Add32, Add16, Rotr1, RotR1;
    Rotr1Is(y);
    Low16Wide(RotR1(Low16(y)));
    Low16Add(x, Rotr1(y));
    WideBound(RotR1(Low16(y)));
    if x <= 0x1_FFFE { AddBound(x, Rotr1(y), 0x1_FFFE); }
  }

  lemma Low16XorWord(y: bv32, hi: bv8, lo: bv8)
    ensures Low16(XorW(y, Word(hi, lo))) == Xor16(Low16(y), Mk16(hi, lo))
  {
    hide Low16, Wide, XorW, Xor16, Word, Mk16;
    Low16Xor(y, Word(hi, lo));
    WordIsWide(hi, lo);
    Low16Wide(Mk16(hi, lo));
  }

  // ----- the routine -----

  /** The five words of phase 1 as the array holds them. */
  predicate Holds(p1k: seq<bv32>, t: Ttak) {
    && |p1k| == 5 && p1k[0] == Wide(t.t0) && p1k[1] == Wide(t.t1) && p1k[2] == Wide(t.t2)
    && p1k[3] == Wide(t.t3) && p1k[4] == Wide(t.t4)
  }

  lemma Reduced(x: bv16)
    ensures Low16(Wide(x)) == x && Wide(x) <= 0xFFFF
  {
    hide Low16, Wide;
    Low16Wide(x);
    WideBound(x);
  }

  /** One assignment of a round of phase 1, to word `d` from word `f`. */
  method MixWord(p1k: array<bv32>, d: nat, f: nat, hi: bv8, lo: bv8, ghost x: bv16, ghost y: bv16)
      returns (ghost z: bv16)
    requires p1k.Length == 5 && d < 5 && f < 5 && p1k[d] == Wide(x) && p1k[f] == Wide(y)
    modifies p1k
    ensures z == Add16(x, Sbox16(Xor16(y, Mk16(hi, lo)))) && p1k[..] == old(p1k[..])[d := Wide(z)]
  {
    hide Step1, Wide, Low16, Add16, Sbox16, Xor16, Mk16, Word;
    StepWide(x, y, hi, lo);
    p1k[d] := Step1(p1k[d], p1k[f], Word(hi, lo));
    z := Add16(x, Sbox16(Xor16(y, Mk16(hi, lo))));
  }

  /** The first five assignments of a round of phase 1. */
  method MixRound(key: array<bv8>, p1k: array<bv32>, j: nat, ghost t: Ttak) returns (ghost u: Ttak)
    requires key.Length == 16 && p1k.Length == 5 && (j == 0 || j == 1) && Holds(p1k[..], t)
    modifies p1k
    ensures Holds(p1k[..], u)
    ensures u.t0 == Add16(t.t0, Sbox16(Xor16(t.t4, Tk(key[..], j))))
    ensures u.t1 == Add16(t.t1, Sbox16(Xor16(u.t0, Tk(key[..], 2 + j))))
    ensures u.t2 == Add16(t.t2, Sbox16(Xor16(u.t1, Tk(key[..], 4 + j))))
    ensures u.t3 == Add16(t.t3, Sbox16(Xor16(u.t2, Tk(key[..], 6 + j))))
    ensures u.t4 == Add16(t.t4, Sbox16(Xor16(u.t3, Tk(key[..], j))))
  {
    hide Wide, Low16, Add16, Sbox16, Xor16, Mk16;
    var j2 := 2 * j;
    ghost var t0 := MixWord(p1k, 0, 4, key[1 + j2], key[j2], t.t0, t.t4);
    ghost var t1 := MixWord(p1k, 1, 0, key[5 + j2], key[4 + j2], t.t1, t0);
    ghost var t2 := MixWord(p1k, 2, 1, key[9 + j2], key[8 + j2], t.t2, t1);
    ghost var t3 := MixWord(p1k, 3, 2, key[13 + j2], key[12 + j2], t.t3, t2);
    ghost var t4 := MixWord(p1k, 4, 3, key[1 + j2], key[j2], t.t4, t3);
    u := Ttak(t0, t1, t2, t3, t4);
  }

  lemma StepWide(x: bv16, y: bv16, hi: bv8, lo: bv8)
    ensures Step1(Wide(x), Wide(y), Word(hi, lo)) == Wide(Add16(x, Sbox16(Xor16(y, Mk16(hi, lo)))))
  {
    hide Step1, Wide, Low16, Add16, Sbox16, Xor16, Mk16, Word;
    Step1Is(Wide(x), Wide(y), hi, lo);
    Reduced(x);
    Reduced(y);
  }

  /** `i`, as a word. */
  function CounterWord(i: nat): bv32 {
    (i % 8) as bv32
  }

  lemma CounterIs(i: nat)
    ensures Low16(CounterWord(i)) == Small(i)
  {
  }

  lemma AddCounter(x: bv16, i: nat)
    ensures Mod16(Add32(Wide(x), CounterWord(i))) == Wide(Add16(x, Small(i)))
  {
    hide Mod16, Add32, Wide, Low16, Add16, CounterWord, Small;
    Reduced(x);
    CounterIs(i);
    Low16Add(Wide(x), CounterWord(i));
    Low16Mod(Add32(Wide(x), CounterWord(i)));
  }

  /** Phase 1. */
  method MixPhase1(key: array<bv8>, ta: array<bv8>, pnh: bv32, p1k: array<bv32>)
    requires key.Length == 16 && ta.Length == 6 && p1k.Length == 5
    modifies p1k
    ensures Holds(p1k[..], Phase1(key[..], ta[..], pnh, 8))
  {
    hide Step1, Wide, Low16, Add16, Sbox16, Xor16, Mk16, Word, Mod16, HighHalf, Add32, CounterWord, Small;
    var tsc0, tsc1 := Mod16(HighHalf(pnh)), Mod16(pnh);
    Low16Mod(HighHalf(pnh));
    Low16Mod(pnh);
    p1k[0] := tsc1;
    p1k[1] := tsc0;
    WordIsWide(ta[1], ta[0]);
    WordIsWide(ta[3], ta[2]);
    WordIsWide(ta[5], ta[4]);
    p1k[2] := Word(ta[1], ta[0]);
    p1k[3] := Word(ta[3], ta[2]);
    p1k[4] := Word(ta[5], ta[4]);
    for i := 0 to 8
      invariant Holds(p1k[..], Phase1(key[..], ta[..], pnh, i))
    {
      WholeRound(key, p1k, i, Phase1(key[..], ta[..], pnh, i));
    }
  }

  /** A round of phase 1 with its counter. */
  method WholeRound(key: array<bv8>, p1k: array<bv32>, i: nat, ghost t: Ttak)
    requires key.Length == 16 && p1k.Length == 5 && Holds(p1k[..], t)
    modifies p1k
    ensures Holds(p1k[..], Round1(key[..], t, i))
  {
    hide Wide, Low16, Add16, Sbox16, Xor16, Mk16, Mod16, Add32, CounterWord, Small;
    ghost var u := MixRound(key, p1k, i % 2, t);
    AddCounter(u.t4, i);
    p1k[4] := Mod16(Add32(p1k[4], CounterWord(i)));
  }

  /** The six words of phase 2, on their way. */
  datatype Words = Words(w0: bv32, w1: bv32, w2: bv32, w3: bv32, w4: bv32, w5: bv32)

  /** Their low halves. */
  function Lows(w: Words): Ppk {
    Ppk(Low16(w.w0), Low16(w.w1), Low16(w.w2), Low16(w.w3), Low16(w.w4), Low16(w.w5))
  }

  predicate AllAtMost(w: Words, m: bv32) {
    w.w0 <= m && w.w1 <= m && w.w2 <= m && w.w3 <= m && w.w4 <= m && w.w5 <= m
  }

  /** The S-box half of phase 2: no sum exceeds 2 * 65535. */
  method MixPhase2A(key: array<bv8>, p1k: array<bv32>, pnl: bv32, ghost t: Ttak) returns (w: Words)
    requires key.Length == 16 && p1k.Length == 5 && Holds(p1k[..], t)
    ensures Lows(w) == Phase2A(key[..], t, Low16(pnl)) && AllAtMost(w, 0x1_FFFE)
  {
    hide Step2, Wide, Low16, Add16, Sbox16, Xor16, Mk16, Word, Mod16, Add32;
    Reduced(t.t0);
    Reduced(t.t1);
    Reduced(t.t2);
    Reduced(t.t3);
    Reduced(t.t4);
    var tsc2 := Mod16(pnl);
    Low16Mod(pnl);
    var ppk5 := Mod16(Add32(p1k[4], tsc2));
    Low16Mod(Add32(p1k[4], tsc2));
    Low16Add(p1k[4], tsc2);
    Reduced(Low16(Add32(p1k[4], tsc2)));
    Step2Is(p1k[0], ppk5, key[1], key[0]);
    var ppk0 := Step2(p1k[0], ppk5, Word(key[1], key[0]));
    Step2Is(p1k[1], ppk0, key[3], key[2]);
    var ppk1 := Step2(p1k[1], ppk0, Word(key[3], key[2]));
    Step2Is(p1k[2], ppk1, key[5], key[4]);
    var ppk2 := Step2(p1k[2], ppk1, Word(key[5], key[4]));
    Step2Is(p1k[3], ppk2, key[7], key[6]);
    var ppk3 := Step2(p1k[3], ppk2, Word(key[7], key[6]));
    Step2Is(p1k[4], ppk3, key[9], key[8]);
    var ppk4 := Step2(p1k[4], ppk3, Word(key[9], key[8]));
    Step2Is(ppk5, ppk4, key[11], key[10]);
    ppk5 := Step2(ppk5, ppk4, Word(key[11], key[10]));
    w := Words(ppk0, ppk1, ppk2, ppk3, ppk4, ppk5);
  }

  /** The rotation half: no sum exceeds 3 * 65535. */
  method MixPhase2B(key: array<bv8>, v: Words, ghost q: Ppk) returns (w: Words)
    requires key.Length == 16 && Lows(v) == q && AllAtMost(v, 0x1_FFFE)
    ensures Lows(w) == Phase2B(key[..], q) && AllAtMost(w, 0x2_FFFD)
  {
    hide Step3, Low16, Add16, RotR1, Xor16, XorW, Mk16, Word;
    Low16XorWord(v.w5, key[13], key[12]);
    Step3Is(v.w0, XorW(v.w5, Word(key[13], key[12])));
    var ppk0 := Step3(v.w0, XorW(v.w5, Word(key[13], key[12])));
    Low16XorWord(ppk0, key[15], key[14]);
    Step3Is(v.w1, XorW(ppk0, Word(key[15], key[14])));
    var ppk1 := Step3(v.w1, XorW(ppk0, Word(key[15], key[14])));
    Step3Is(v.w2, ppk1);
    var ppk2 := Step3(v.w2, ppk1);
    Step3Is(v.w3, ppk2);
    var ppk3 := Step3(v.w3, ppk2);
    Step3Is(v.w4, ppk3);
    var ppk4 := Step3(v.w4, ppk3);
    Step3Is(v.w5, ppk4);
    var ppk5 := Step3(v.w5, ppk4);
    w := Words(ppk0, ppk1, ppk2, ppk3, ppk4, ppk5);
  }

  /** `(x >> 1) % 256`. */
  function SecondBits(x: bv32): bv8 {
    ((x >> 1) & 0xFF) as bv8
  }

  lemma SecondBitsIs(x: bv32)
    ensures SecondBits(x) == Lo8(Half16(Low16(x)))
  {
  }

  /** A word of phase 2 as two bytes of the RC4 key. */
  method PutWord(rc4key: array<bv8>, at: nat, w: bv32)
    requires rc4key.Length == 16 && at + 2 <= 16
    modifies rc4key
    ensures rc4key[at] == Lo8(Low16(w)) && rc4key[at + 1] == Hi8(Low16(w))
    ensures forall i | 0 <= i < 16 && i != at && i != at + 1 :: rc4key[i] == old(rc4key[i])
  {
    hide Low16, Lo8, Hi8, B0, B1;
    LowBytes(w);
    rc4key[at] := B0(w);
    rc4key[at + 1] := B1(w);
  }

  /** The first four bytes of the RC4 key. */
  method PutHead(rc4key: array<bv8>, key: array<bv8>, pnl: bv32, ppk5: bv32)
    requires rc4key.Length == 16 && key.Length == 16 && rc4key != key
    modifies rc4key
    ensures rc4key[0] == Hi8(Low16(pnl)) && rc4key[1] == Guard(Hi8(Low16(pnl))) && rc4key[2] == Lo8(Low16(pnl))
    ensures rc4key[3] == Lo8(Half16(Xor16(Low16(ppk5), Tk(key[..], 0))))
  {
    hide Low16, Mod16, Guard, Xor16, XorW, Mk16, Word, Half16, Lo8, Hi8, B0, B1, SecondBits;
    var tsc2 := Mod16(pnl);
    Low16Mod(pnl);
    LowBytes(tsc2);
    var x := XorW(ppk5, Word(key[1], key[0]));
    Low16XorWord(ppk5, key[1], key[0]);
    SecondBitsIs(x);
    rc4key[0], rc4key[1], rc4key[2], rc4key[3] := B1(tsc2), Guard(B1(tsc2)), B0(tsc2), SecondBits(x);
  }

  lemma SeedIs(s: seq<bv8>, key: seq<bv8>, p: Ppk, iv16: bv16)
    requires |s| == 16 && |key| == 16
    requires s[0] == Hi8(iv16) && s[1] == Guard(Hi8(iv16)) && s[2] == Lo8(iv16)
             && s[3] == Lo8(Half16(Xor16(p.p5, Tk(key, 0))))
    requires s[4] == Lo8(p.p0) && s[5] == Hi8(p.p0) && s[6] == Lo8(p.p1) && s[7] == Hi8(p.p1) && s[8] == Lo8(p.p2)
             && s[9] == Hi8(p.p2)
    requires s[10] == Lo8(p.p3) && s[11] == Hi8(p.p3) && s[12] == Lo8(p.p4) && s[13] == Hi8(p.p4) && s[14] == Lo8(p.p5)
             && s[15] == Hi8(p.p5)
    ensures s == WepSeed(key, p, iv16)
  {
    hide Guard, Xor16, Mk16, Half16, Lo8, Hi8, Tk;
    assert s == [s[0], s[1], s[2], s[3], s[4], s[5], s[6], s[7], s[8], s[9], s[10], s[11], s[12], s[13], s[14], s[15]];
  }

  /** Step 3 of phase 2: the RC4 key from the words. */
  method PutSeed(rc4key: array<bv8>, key: array<bv8>, pnl: bv32, w: Words)
    requires rc4key.Length == 16 && key.Length == 16 && rc4key != key
    modifies rc4key
    ensures rc4key[..] == WepSeed(key[..], Lows(w), Low16(pnl))
  {
    hide Low16, Guard, Xor16, Mk16, Half16, Lo8, Hi8, WepSeed;
    PutHead(rc4key, key, pnl, w.w5);
    PutWord(rc4key, 4, w.w0);
    PutWord(rc4key, 6, w.w1);
    PutWord(rc4key, 8, w.w2);
    PutWord(rc4key, 10, w.w3);
    PutWord(rc4key, 12, w.w4);
    PutWord(rc4key, 14, w.w5);
    SeedIs(rc4key[..], key[..], Lows(w), Low16(pnl));
  }

  /** `RTMPTkipMixKey`; `pnl` and `pnh` are the packet number, and `p1k` gets the phase 1 output. */
  method TkipMixKey(key: array<bv8>, ta: array<bv8>, pnl: bv32, pnh: bv32, rc4key: array<bv8>, p1k: array<bv32>)
    requires key.Length == 16 && ta.Length == 6 && rc4key.Length == 16 && p1k.Length == 5 && rc4key != key
             && rc4key != ta
    modifies rc4key, p1k
    ensures rc4key[..] == MixKey(key[..], ta[..], pnh, Low16(pnl))
    ensures Holds(p1k[..], Phase1(key[..], ta[..], pnh, 8))
  {
    hide Phase1, Phase2A, Phase2B, Holds, Low16, WepSeed, Lows;
    ghost var t := Phase1(key[..], ta[..], pnh, 8);
    MixPhase1(key, ta, pnh, p1k);
    var v := MixPhase2A(key, p1k, pnl, t);
    var w := MixPhase2B(key, v, Phase2A(key[..], t, Low16(pnl)));
    PutSeed(rc4key, key, pnl, w);
  }
}
