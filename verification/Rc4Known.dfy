/** What is known of the ARCFOUR stream from outside: the bias of its second byte, a stream and a key
    schedule worked out by hand, and that a key counts as often as it is repeated. */
module Rc4Known {
  import opened Bytes
  import opened Rc4
  import opened Remainders

  /** From a fresh state with 0 in entry 2 and not 2 in entry 1, the second byte is 0 (Mantin and Shamir). */
  lemma SecondByteIsZero(c: Context)
    requires |c.state| == 0x100 && c.x == 0 && c.y == 0 && c.state[2] == 0 && c.state[1] != 2
    ensures Stream(c, 2)[1] == 0
  {
    hide Swap, Stream, Output, After;
    var a, d := c.state[1], Next(c);
    StreamsOfTwo(c);
    assert d.x == 1 && d.y == a;
    SwapEntries(c.state, 1, a);
    var e := Next(d);
    assert d.state[2] == 0 && d.state[a] == a && e.x == 2 && e.y == a;
    SwapEntries(d.state, 2, a);
    assert e.state[2] == a && e.state[a] == 0;
    OutputIs(d, e, a);
  }

  lemma StreamsOfTwo(c: Context)
    requires |c.state| == 0x100
    ensures Stream(c, 2)[1] == Output(Next(c))
  {
    hide Next, Output;
    assert After(c, 0) == c && After(c, 1) == Next(c);
  }

  lemma SwapEntries(s: seq<Octet>, i: Octet, j: Octet)
    requires |s| == 0x100
    ensures var t := Swap(s, i, j);
            t[i] == s[j] && t[j] == s[i] && forall k | 0 <= k < 0x100 && k != i && k != j :: t[k] == s[k]
  {
  }

  lemma OutputIs(d: Context, e: Context, k: Octet)
    requires |d.state| == 0x100 && e == Next(d) && k == Low8(e.state[e.x] as int + e.state[e.y])
    ensures Output(d) == ToByte(e.state[k])
  {
  }

  // ----- the identity state -----

  /** The stream of the state in which nothing has been exchanged begins 2, 5, 7, 13, 13. */
  lemma IdentityStream()
    ensures Stream(Context(0, 0, Identity()), 5) == [2, 5, 7, 13, 13]
  {
    hide Swap, Output, Next, Identity;
    var c0 := Context(0, 0, Identity());
    var c1 := StepFrom(c0, 1, 1, 2, 2);
    var c2 := StepFrom(c1, 2, 3, 5, 5);
    var c3 := StepFrom(c2, 3, 5, 7, 7);
    var c4 := StepFrom(c3, 4, 9, 13, 13);
    var c5 := StepFrom(c4, 5, 11, 13, 13);
    assert Stream(c0, 1) == [2];
    assert After(c0, 1) == c1 && After(c0, 2) == c2 && After(c0, 3) == c3 && After(c0, 4) == c4;
  }

  /** One step from `c`, which exchanges entries `x` and `y` and gives out entry `k`. */
  lemma StepFrom(c: Context, x: Octet, y: Octet, k: Octet, v: Octet) returns (d: Context)
    requires |c.state| == 0x100 && x == Low8(c.x + 1) && y == Low8(c.state[x] + c.y)
    requires k == Low8(c.state[x] as int + c.state[y])
    requires v == if k == x then c.state[y] else if k == y then c.state[x] else c.state[k]
    ensures d == Next(c) && d.x == x && d.y == y && Output(c) == ToByte(v)
    ensures d.state[x] == c.state[y] && d.state[y] == c.state[x]
    ensures forall i | 0 <= i < 0x100 && i != x && i != y :: d.state[i] == c.state[i]
  {
    d := Next(c);
    SwapEntries(c.state, x, y);
  }

  // ----- the key schedule -----

  /** Where a value stands in a permutation. */
  ghost function Place(s: seq<Octet>, v: Octet): (k: Octet)
    requires Permutation(s)
    ensures s[k] == v
  {
    assert v in s;
    var k: Octet :| s[k] == v;
    k
  }

  /** `p` with the values 255 down to `n` taken to their own places. */
  ghost function Home(p: seq<Octet>, n: nat): (s: seq<Octet>)
    requires Permutation(p) && n <= 0x100
    ensures Permutation(s) && |s| == 0x100 && forall i | n <= i < 0x100 :: s[i] == i
    decreases 0x100 - n
  {
    if n == 0x100 then p else
      var s := Home(p, n + 1);
      SwapKeeps(s, n, Place(s, n));
      Swap(s, n, Place(s, n))
  }

  lemma AllHome(p: seq<Octet>, n: nat)
    requires Permutation(p) && n == 0
    ensures Home(p, n) == Identity()
  {
    hide Permutation, Home;
  }

  /** The entry that step `n` of the schedule is to exchange. */
  ghost function Partner(p: seq<Octet>, n: nat): Octet
    requires Permutation(p) && n < 0x100
  {
    Place(Home(p, n + 1), n)
  }

  ghost function KeyByte(p: seq<Octet>, n: nat): Octet
    requires Permutation(p) && n < 0x100
  {
    (Partner(p, n) - (if n == 0 then 0 else Partner(p, n - 1)) - n) % 0x100
  }

  lemma {:induction false} ScheduleOf(p: seq<Octet>, key: seq<bv8>, n: nat)
    requires Permutation(p) && |key| == 0x100 && n <= 0x100
    requires forall i | 0 <= i < 0x100 :: OctetOf(key[i]) == KeyByte(p, i)
    ensures Schedule(key, n) == (Home(p, n), if n == 0 then 0 else Partner(p, n - 1))
  {
    hide Permutation, Swap, OctetOf, Home, Place, Partner, Schedule, Low8;
    if n == 0 {
      AllHome(p, n);
      ScheduleStart(key);
    } else {
      var k := n - 1;
      ScheduleOf(p, key, k);
      ScheduleStep(key, k);
      BackAgain(p, k);
      PartnerReached(if k == 0 then 0 else Partner(p, k - 1), Partner(p, k), k);
      assert k % |key| == k;
    }
  }

  lemma PartnerReached(last: Octet, next: Octet, n: Octet)
    ensures Low8(last + (next - last - n) % 0x100 + n) == next
  {
  }

  /** Exchanging the same entries again. */
  lemma BackAgain(p: seq<Octet>, n: nat)
    requires Permutation(p) && n < 0x100
    ensures Swap(Home(p, n), n, Partner(p, n)) == Home(p, n + 1) && Home(p, n)[n] == n
  {
    hide Permutation, Place;
    var s, k := Home(p, n + 1), Partner(p, n);
    assert Home(p, n) == Swap(s, n, k);
    assert s[k] == n;
    assert Swap(Swap(s, n, k), n, k) == s;
  }

  /** Every state can come from a key: for each permutation there is a key of 256 bytes whose schedule
      ends in it. */
  lemma EveryStateHasKey(p: seq<Octet>) returns (key: seq<bv8>)
    requires Permutation(p)
    ensures |key| == 0x100 && Keyed(key) == Context(0, 0, p)
  {
    hide Permutation, Schedule, KeyByte, Home;
    forall i | 0 <= i < 0x100 ensures OctetOf(ToByte(KeyByte(p, i))) == KeyByte(p, i) { ByteIs(KeyByte(p, i)); }
    key := seq(0x100, i requires 0 <= i < 0x100 => ToByte(KeyByte(p, i)));
    ScheduleOf(p, key, 0x100);
    assert Home(p, 0x100) == p by { NobodyHome(p); }
  }

  lemma NobodyHome(p: seq<Octet>)
    requires Permutation(p)
    ensures Home(p, 0x100) == p
  {
  }

  /** The key 0, 0, 255, 254, ..., 2 exchanges nothing, and its stream begins 2, 5, 7, 13, 13. */
  lemma IdentityKey(key: seq<bv8>)
    requires |key| == 0x100 && forall i | 0 <= i < 0x100 :: OctetOf(key[i]) == if i == 0 then 0 else (1 - i) % 0x100
    ensures Stream(Keyed(key), 5) == [2, 5, 7, 13, 13]
  {
    hide Schedule, Stream;
    IdentitySchedule(key, 0x100);
    IdentityStream();
  }

  lemma {:induction false} IdentitySchedule(key: seq<bv8>, n: nat)
    requires |key| == 0x100 && n <= 0x100
    requires forall i | 0 <= i < 0x100 :: OctetOf(key[i]) == if i == 0 then 0 else (1 - i) % 0x100
    ensures Schedule(key, n) == (Identity(), if n == 0 then 0 else n - 1)
  {
    hide OctetOf, Schedule, Identity;
    if n == 0 {
      ScheduleStart(key);
    } else {
      var k := n - 1;
      IdentitySchedule(key, k);
      ScheduleStep(key, k);
      assert k % |key| == k;
      assert Low8((if k == 0 then 0 else k - 1) + OctetOf(key[k]) + k) == k;
      assert Swap(Identity(), k, k) == Identity();
    }
  }

  /** A key and the key written twice have the same schedule. */
  lemma {:induction false} KeyTwice(key: seq<bv8>, n: nat)
    requires |key| > 0 && n <= 0x100
    ensures Schedule(key + key, n) == Schedule(key, n)
  {
    hide Swap, OctetOf, Low8;
    if n == 0 {
      ScheduleStart(key);
      ScheduleStart(key + key);
    } else {
      KeyTwice(key, n - 1);
      ScheduleStep(key, n - 1);
      ScheduleStep(key + key, n - 1);
      TwiceAt(key, n - 1);
    }
  }

  lemma TwiceAt(key: seq<bv8>, i: nat)
    requires |key| > 0
    ensures (key + key)[i % |key + key|] == key[i % |key|]
  {
    var k := |key|;
    var m := i % (2 * k);
    assert |key + key| == 2 * k && i == 2 * k * (i / (2 * k)) + m;
    if m < k {
      UniqueRemainder(i, k, 2 * (i / (2 * k)), m);
    } else {
      UniqueRemainder(i, k, 2 * (i / (2 * k)) + 1, m - k);
    }
  }
}
