/** The beacon update timer: `RTUSBBssBeaconStart` and `BeaconUpdateExec`, which reduce the 64-bit TSF
    modulo the beacon period in 32-bit steps. */
module Beacon {
  import opened Remainders

  const TWO_32: nat := 0x1_0000_0000

  /** The TSF timer from its two halves. */
  function Tsf(high: nat, low: nat): nat {
    high * TWO_32 + low
  }

  /** `BeaconPeriod << 10`, in microseconds. */
  function Period(beaconPeriod: nat): nat {
    beaconPeriod * 0x400
  }

  /** `(0xffffffff % p) + 1`. */
  function BeaconRemain(p: nat): (r: nat)
    requires p > 0
    ensures 1 <= r <= p
  {
    (TWO_32 - 1) % p + 1
  }

  /** The sum the routine means to reduce. */
  function Wide(p: nat, high: nat, low: nat): nat
    requires p > 0
  {
    BeaconRemain(p) * high + low % p
  }

  /** What it does reduce: every step is cut to 32 bits. */
  function Remain(p: nat, high: nat, low: nat): (r: nat)
    requires p > 0
    ensures r < p
  {
    ((BeaconRemain(p) * high) % TWO_32 + low % p) % TWO_32 % p
  }

  /** The constant computed at start-up stands for 2^32 modulo the period. */
  lemma RemainStands(p: nat)
    requires p > 0
    ensures BeaconRemain(p) == TWO_32 - ((TWO_32 - 1) / p) * p
  {
    assert TWO_32 - 1 == ((TWO_32 - 1) / p) * p + (TWO_32 - 1) % p;
  }

  /** Before it is cut, the sum is the TSF modulo the period. */
  lemma WideIsTsf(p: nat, high: nat, low: nat)
    requires p > 0
    ensures Wide(p, high, low) % p == Tsf(high, low) % p
  {
    RemainStands(p);
    var q := (TWO_32 - 1) / p;
    var r := BeaconRemain(p);
    assert high * TWO_32 == high * (q * p + r) == (high * q) * p + r * high by { Distribute(high, q, p, r); }
    assert low == (low / p) * p + low % p;
    assert Tsf(high, low) == Wide(p, high, low) + (high * q) * p + (low / p) * p;
    Collect(high * q, low / p, p);
    Congruent(Tsf(high, low), Wide(p, high, low), high * q + low / p, p);
  }

  lemma Distribute(h: nat, q: nat, p: nat, r: nat)
    ensures h * (q * p + r) == (h * q) * p + r * h
  {
    assert h * (q * p) == (h * q) * p;
  }

  lemma Collect(a: nat, b: nat, p: nat)
    ensures a * p + b * p == (a + b) * p
  {
  }

  /** The two cuts are one cut of the whole sum. */
  lemma CutOnce(p: nat, high: nat, low: nat)
    requires p > 0
    ensures Remain(p, high, low) == Wide(p, high, low) % TWO_32 % p
  {
    var x := BeaconRemain(p) * high;
    assert x == (x / TWO_32) * TWO_32 + x % TWO_32;
    Congruent(x + low % p, x % TWO_32 + low % p, x / TWO_32, TWO_32);
  }

  /** How often the sum overflows 32 bits. */
  function Carries(p: nat, high: nat, low: nat): nat
    requires p > 0
  {
    Wide(p, high, low) / TWO_32
  }

  /** What is left of `n` when every factor 2 is taken out. */
  function OddPart(n: nat): (m: nat)
    requires n > 0
    ensures 0 < m <= n && m % 2 == 1
  {
    if n % 2 == 1 then n else OddPart(n / 2)
  }

  function Pow2(j: nat): (x: nat)
    ensures x > 0
  {
    if j == 0 then 1 else 2 * Pow2(j - 1)
  }

  lemma TwoTo32()
    ensures Pow2(32) == TWO_32
  {
    assert Pow2(8) == 0x100;
    assert Pow2(16) == 0x1_0000;
    assert Pow2(24) == 0x100_0000;
  }

  /** The sixteen bits of the period and the ten of the shift leave the odd part alone. */
  lemma OddPartOfPeriod(beaconPeriod: nat)
    requires beaconPeriod > 0
    ensures OddPart(Period(beaconPeriod)) == OddPart(beaconPeriod)
  {
    ShiftKeepsOddPart(beaconPeriod, 10);
    assert Pow2(10) == 0x400;
  }

  lemma {:induction false} ShiftKeepsOddPart(n: nat, j: nat)
    requires n > 0
    ensures n * Pow2(j) > 0 && OddPart(n * Pow2(j)) == OddPart(n)
  {
    hide OddPart;
    if j > 0 {
      ShiftKeepsOddPart(n, j - 1);
      DoublePower(n, j);
      DoubleOddPart(n * Pow2(j - 1));
    }
  }

  lemma DoublePower(c: nat, j: nat)
    requires j > 0
    ensures c * Pow2(j) == 2 * (c * Pow2(j - 1))
  {
  }

  lemma DoubleOddPart(x: nat)
    requires x > 0
    ensures OddPart(2 * x) == OddPart(x)
  {
  }

  /** A factor 2 makes no multiple of an odd number. */
  lemma HalveMultiple(x: nat, m: nat)
    requires m % 2 == 1
    ensures (2 * x) % m == 0 <==> x % m == 0
  {
    if x % m == 0 {
      Exact(x, m);
      UniqueRemainder(2 * x, m, 2 * (x / m), 0);
    }
    if (2 * x) % m == 0 {
      Exact(2 * x, m);
      HalveQuotient(x, m, (2 * x) / m);
    }
  }

  lemma HalveQuotient(x: nat, m: nat, q: nat)
    requires m % 2 == 1 && 2 * x == q * m
    ensures x % m == 0
  {
    if q % 2 == 1 { OddProduct(q, m); }
    var h := q / 2;
    assert q == 2 * h;
    assert 2 * x == 2 * (h * m);
    UniqueRemainder(x, m, h, 0);
  }

  lemma Exact(x: nat, m: nat)
    requires m > 0 && x % m == 0
    ensures x == (x / m) * m
  {
  }

  lemma OddProduct(q: nat, m: nat)
    requires m % 2 == 1 && q % 2 == 1
    ensures (q * m) % 2 == 1
  {
    var a, b := q / 2, m / 2;
    assert q * m == (2 * a + 1) * (2 * b + 1) == 2 * (2 * a * b + a + b) + 1;
  }

  /** A common factor 2 can be taken out. */
  lemma HalveBoth(x: nat, n: nat)
    requires n > 0
    ensures (2 * x) % (2 * n) == 0 <==> x % n == 0
  {
    if x % n == 0 {
      Exact(x, n);
      UniqueRemainder(2 * x, 2 * n, x / n, 0);
    }
    if (2 * x) % (2 * n) == 0 {
      Exact(2 * x, 2 * n);
      assert x == ((2 * x) / (2 * n)) * n;
      UniqueRemainder(x, n, (2 * x) / (2 * n), 0);
    }
  }

  /** A multiple of a power of two that exceeds `p` is a multiple of `p` exactly if the other factor is
      a multiple of the odd part of `p`. */
  lemma {:induction false} OnlyOddPartCounts(c: nat, j: nat, p: nat)
    requires 0 < p < Pow2(j)
    ensures (c * Pow2(j)) % p == 0 <==> c % OddPart(p) == 0
  {
    DoublePower(c, j);
    if p % 2 == 0 {
      HalveBoth(c * Pow2(j - 1), p / 2);
      OnlyOddPartCounts(c, j - 1, p / 2);
    } else {
      OddDivides(c, j, p);
    }
  }

  lemma {:induction false} OddDivides(c: nat, j: nat, p: nat)
    requires p % 2 == 1
    ensures (c * Pow2(j)) % p == 0 <==> c % p == 0
  {
    if j > 0 {
      DoublePower(c, j);
      HalveMultiple(c * Pow2(j - 1), p);
      OddDivides(c, j - 1, p);
    }
  }

  /** The remainder is right exactly when the number of carries is a multiple of the odd part of the
      period. */
  lemma RemainRightIff(p: nat, high: nat, low: nat)
    requires 0 < p < TWO_32
    ensures Remain(p, high, low) == Tsf(high, low) % p <==> Carries(p, high, low) % OddPart(p) == 0
  {
    hide Remain, Tsf, Wide, Pow2, OddPart;
    var s, c := Wide(p, high, low), Carries(p, high, low);
    WideIsTsf(p, high, low);
    CutOnce(p, high, low);
    OnlyMultiples(c * TWO_32, s % TWO_32, p);
    TwoTo32();
    OnlyOddPartCounts(c, 32, p);
  }

  /** Some lower half makes the sum overflow. */
  predicate CanOverflow(p: nat, high: nat)
    requires p > 0
  {
    BeaconRemain(p) * high + p - 1 >= TWO_32
  }

  /** There is no carry when the sum fits in 32 bits. */
  lemma NoCarry(p: nat, high: nat, low: nat)
    requires p > 0 && !CanOverflow(p, high)
    ensures Carries(p, high, low) == 0
  {
    hide BeaconRemain;
  }

  /** The remainder is right whenever the sum fits in 32 bits. */
  lemma RemainRight(p: nat, high: nat, low: nat)
    requires 0 < p < TWO_32 && !CanOverflow(p, high)
    ensures Remain(p, high, low) == Tsf(high, low) % p
  {
    hide Remain, Tsf, Carries, BeaconRemain, OddPart, CanOverflow;
    NoCarry(p, high, low);
    RemainRightIff(p, high, low);
  }

  /** A period that is a power of two is always reduced correctly. */
  lemma PowerOfTwoRight(p: nat, high: nat, low: nat)
    requires 0 < p < TWO_32 && OddPart(p) == 1
    ensures Remain(p, high, low) == Tsf(high, low) % p
  {
    hide Remain, Tsf, Carries, BeaconRemain, OddPart;
    RemainRightIff(p, high, low);
  }

  /** Any other period fails first at the first upper half at which the sum can overflow: below it every
      timer value is reduced correctly, and there exactly those are not that make the sum overflow. */
  lemma FirstFailure(p: nat, first: nat, high: nat, low: nat)
    requires 0 < p < TWO_32 / 2 && OddPart(p) > 1 && high <= first
    requires first > 0 && CanOverflow(p, first) && !CanOverflow(p, first - 1)
    ensures Remain(p, high, low) == Tsf(high, low) % p <==> !(high == first && Wide(p, high, low) >= TWO_32)
    ensures Wide(p, first, p - 1) >= TWO_32
  {
    hide Remain, Tsf, OddPart, Carries, Wide, CanOverflow;
    RemainRightIff(p, high, low);
    NotMultiple(OddPart(p));
    if high < first {
      Grows(p, high, first - 1);
      NoCarry(p, high, low);
    } else {
      AtMostOneCarry(p, first, low);
    }
    LargestSum(p, first);
  }

  /** The largest sum at an upper half is the one just before a multiple of the period. */
  lemma LargestSum(p: nat, high: nat)
    requires p > 0 && CanOverflow(p, high)
    ensures Wide(p, high, p - 1) >= TWO_32
  {
    hide BeaconRemain;
    UniqueRemainder(p - 1, p, 0, p - 1);
  }

  lemma NotMultiple(m: nat)
    requires m > 1
    ensures 1 % m == 1 && 0 % m == 0
  {
  }

  lemma AtMostOneCarry(p: nat, first: nat, low: nat)
    requires 0 < p < TWO_32 / 2 && first > 0 && !CanOverflow(p, first - 1)
    ensures Carries(p, first, low) == if Wide(p, first, low) >= TWO_32 then 1 else 0
  {
    hide BeaconRemain;
    var r, l := BeaconRemain(p), low % p;
    assert r * first == r * (first - 1) + r;
  }

  lemma Grows(p: nat, a: nat, b: nat)
    requires p > 0 && a <= b && !CanOverflow(p, b)
    ensures !CanOverflow(p, a)
  {
    hide BeaconRemain;
    assert BeaconRemain(p) * a <= BeaconRemain(p) * b;
  }

  predicate RightAt(p: nat, high: nat, low: nat)
    requires p > 0
  {
    Remain(p, high, low) == Tsf(high, low) % p
  }

  /** Every timer value is reduced correctly exactly for the periods that are powers of two. */
  lemma RightAlwaysIff(p: nat)
    requires 0 < p < TWO_32 / 2
    ensures (forall high: nat, low: nat | high < TWO_32 && low < TWO_32 :: RightAt(p, high, low)) <==> OddPart(p) == 1
  {
    hide Remain, Tsf, OddPart, CanOverflow;
    if OddPart(p) == 1 {
      forall high: nat, low: nat | high < TWO_32 && low < TWO_32 ensures RightAt(p, high, low) {
        PowerOfTwoRight(p, high, low);
      }
    } else {
      NoOddPart(p);
      EndOverflows(p);
      var first := FirstOverflow(p, TWO_32 - 1);
      FirstFailure(p, first, first, p - 1);
      assert !RightAt(p, first, p - 1);
    }
  }

  lemma NoOddPart(p: nat)
    requires p > 0 && OddPart(p) != 1
    ensures p > 1
  {
  }

  lemma EndOverflows(p: nat)
    requires 1 < p < TWO_32
    ensures CanOverflow(p, TWO_32 - 1)
  {
    hide BeaconRemain;
    NotSmall(BeaconRemain(p), TWO_32 - 1);
  }

  /** The first upper half at which the sum can overflow. */
  lemma {:induction false} FirstOverflow(p: nat, h: nat) returns (first: nat)
    requires 0 < p < TWO_32 && CanOverflow(p, h)
    ensures 0 < first <= h && CanOverflow(p, first) && !CanOverflow(p, first - 1)
    decreases h
  {
    assert h > 0;
    if CanOverflow(p, h - 1) { first := FirstOverflow(p, h - 1); } else { first := h; }
  }

  /** For a period of 100 time units the reduction is right below an upper half of 2^20 - 24, and there
      exactly while the lower half is less than 98304 into the period. */
  lemma HundredUnits(high: nat, low: nat)
    requires high <= 0xFFFE8
    ensures Remain(Period(100), high, low) == Tsf(high, low) % Period(100)
            <==> !(high == 0xFFFE8 && low % Period(100) >= 98304)
  {
    hide Remain, Tsf, OddPart;
    assert BeaconRemain(102400) == 4096;
    assert OddPart(102400) == 25 by { OddPartOfPeriod(100); assert OddPart(100) == 25 by { OddPart100(); } }
    FirstFailure(102400, 0xFFFE8, high, low);
  }

  lemma OddPart100()
    ensures OddPart(100) == 25
  {
    assert OddPart(50) == OddPart(25);
  }

  /** The timer value at which a period of 100 time units first goes wrong. */
  lemma RemainWrong()
    ensures Remain(Period(100), 0xFFFE8, 98304) == 0 && Tsf(0xFFFE8, 98304) % Period(100) == 0x1000
  {
    assert BeaconRemain(102400) == 4096;
    assert Tsf(0xFFFE8, 98304) == 43979458479 * 102400 + 4096;
  }

  /** The wait until the next beacon lands on a multiple of the period under the same condition. */
  lemma DeltaLands(p: nat, high: nat, low: nat)
    requires 0 < p < TWO_32
    ensures var delta := p - Remain(p, high, low);
            1 <= delta <= p && ((Tsf(high, low) + delta) % p == 0 <==> Carries(p, high, low) % OddPart(p) == 0)
  {
    hide Remain, Tsf, Carries, OddPart;
    RemainRightIff(p, high, low);
    NextMultiple(Tsf(high, low), Remain(p, high, low), p);
  }

  lemma PeriodFits(beaconPeriod: nat)
    requires 0 < beaconPeriod < 0x1_0000
    ensures 0 < Period(beaconPeriod) < 0x400_0000
  {
  }

  /** The fields of `CommonCfg` that the timer uses. */
  class BeaconTimer {
    const BeaconPeriod: nat
    var Factor: nat
    var Remainder: nat
    var TimerValue: nat
    var IsUpdateBeacon: bool

    constructor (beaconPeriod: nat)
      requires 0 < beaconPeriod < 0x1_0000
      ensures Started()
    {
      BeaconPeriod := beaconPeriod;
      IsUpdateBeacon := false;
      Factor := (TWO_32 - 1) / (beaconPeriod * 0x400);
      Remainder := (TWO_32 - 1) % (beaconPeriod * 0x400) + 1;
      TimerValue := 10;
    }

    ghost predicate Started()
      reads this
    {
      0 < BeaconPeriod < 0x1_0000 && Remainder == BeaconRemain(Period(BeaconPeriod))
    }

    /** `BeaconUpdateExec`, with the two TSF registers as read. The time left to the next multiple of the
        period, from which the timer is set, is right exactly if the number of carries is a multiple of
        the odd part of `BeaconPeriod`; without a carry it is. */
    method UpdateExec(high: nat, low: nat) returns (delta: nat)
      requires Started() && high < TWO_32 && low < TWO_32
      modifies this`TimerValue, this`IsUpdateBeacon
      ensures Started() && 1 <= delta <= Period(BeaconPeriod)
      ensures (Tsf(high, low) + delta) % Period(BeaconPeriod) == 0
              <==> ((Remainder * high + low % Period(BeaconPeriod)) / TWO_32) % OddPart(BeaconPeriod) == 0
      ensures Remainder * high + Period(BeaconPeriod) - 1 < TWO_32 ==>
                (Tsf(high, low) + delta) % Period(BeaconPeriod) == 0
      ensures IsUpdateBeacon <==> delta / 0x400 <= 150
      ensures TimerValue == if IsUpdateBeacon then delta / 0x400 + 10 else 100
    {
      hide OddPart, Tsf, BeaconRemain;
      var period2Us := BeaconPeriod * 0x400;
      var remainHigh := (Remainder * high) % TWO_32;
      var remainLow := low % period2Us;
      var remain := (remainHigh + remainLow) % TWO_32 % period2Us;
      delta := period2Us - remain;
      Lands(high, low);
      var delta2Ms := delta / 0x400;
      if delta2Ms > 150 {
        TimerValue := 100;
        IsUpdateBeacon := false;
      } else {
        TimerValue := delta2Ms + 10;
        IsUpdateBeacon := true;
      }
    }

    lemma Lands(high: nat, low: nat)
      requires Started()
      ensures var p := Period(BeaconPeriod);
              var remain := ((Remainder * high) % TWO_32 + low % p) % TWO_32 % p;
              var carries := (Remainder * high + low % p) / TWO_32;
              && 1 <= p - remain <= p
              && ((Tsf(high, low) + (p - remain)) % p == 0 <==> carries % OddPart(BeaconPeriod) == 0)
              && (Remainder * high + p - 1 < TWO_32 ==> (Tsf(high, low) + (p - remain)) % p == 0)
    {
      hide Tsf, BeaconRemain, Period, OddPart;
      PeriodFits(BeaconPeriod);
      OddPartOfPeriod(BeaconPeriod);
      DeltaLands(Period(BeaconPeriod), high, low);
      if Remainder * high + Period(BeaconPeriod) - 1 < TWO_32 {
        NoCarry(Period(BeaconPeriod), high, low);
        ZeroIsMultiple(OddPart(BeaconPeriod));
      }
    }
  }

  lemma ZeroIsMultiple(m: nat)
    requires m > 0
    ensures 0 % m == 0
  {
  }
}
