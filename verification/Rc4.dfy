/** The ARCFOUR stream cipher: key set-up, one byte, and the encryption loops. */
module Rc4 {
  import opened AesField
  import opened Bytes
  import opened Remainders

  type Octet = x: int | 0 <= x < 0x100

  /** `& 0xff`, and a cast to `UCHAR`. */
  function Low8(n: nat): Octet {
    n % 0x100
  }

  function OctetOf(b: bv8): Octet {
    b as int
  }

  /** `ARCFOURCONTEXT` as a value: `X`, `Y` and `STATE`. */
  datatype Context = Context(x: Octet, y: Octet, state: seq<Octet>)

  /** Every value from 0 to 255 is in the state, and each once. */
  predicate Permutation(s: seq<Octet>) {
    && |s| == 0x100
    && (forall i, j | 0 <= i < j < 0x100 :: s[i] != s[j])
    && (forall v: Octet :: v in s)
  }

  function Swap(s: seq<Octet>, i: Octet, j: Octet): (t: seq<Octet>)
    requires |s| == 0x100
    ensures |t| == 0x100
  {
    s[i := s[j]][j := s[i]]
  }

  lemma SwapKeeps(s: seq<Octet>, i: Octet, j: Octet)
    requires Permutation(s)
    ensures Permutation(Swap(s, i, j))
  {
    var t := Swap(s, i, j);
    forall v: Octet ensures v in t {
      assert v in s;
      var k :| 0 <= k < 0x100 && s[k] == v;
      assert t[if k == i then j else if k == j then i else k] == v;
    }
  }

  function Identity(): (s: seq<Octet>)
    ensures |s| == 0x100 && forall i | 0 <= i < 0x100 :: s[i] == i
  {
    seq(0x100, i requires 0 <= i < 0x100 => i)
  }

  lemma IdentityIsPermutation()
    ensures Permutation(Identity())
  {
    forall v: Octet ensures v in Identity() { assert Identity()[v] == v; }
  }

  // ----- key set-up -----

  /** The state and the index into it after `n` steps of the key schedule. */
  function Schedule(key: seq<bv8>, n: nat): (r: (seq<Octet>, Octet))
    requires |key| > 0 && n <= 0x100
    ensures |r.0| == 0x100
  {
    if n == 0 then (Identity(), 0)
    else
      var p := Schedule(key, n - 1);
      var j := Low8(p.1 + OctetOf(key[(n - 1) % |key|]) + p.0[n - 1]);
      (Swap(p.0, n - 1, j), j)
  }

  function Keyed(key: seq<bv8>): (c: Context)
    requires |key| > 0
    ensures |c.state| == 0x100
  {
    Context(0, 0, Schedule(key, 0x100).0)
  }

  lemma {:induction false} ScheduleKeeps(key: seq<bv8>, n: nat)
    requires |key| > 0 && n <= 0x100
    ensures Permutation(Schedule(key, n).0)
  {
    hide Swap, Permutation;
    if n == 0 {
      IdentityIsPermutation();
    } else {
      ScheduleKeeps(key, n - 1);
      var p := Schedule(key, n - 1);
      SwapKeeps(p.0, n - 1, Low8(p.1 + OctetOf(key[(n - 1) % |key|]) + p.0[n - 1]));
    }
  }

  lemma ScheduleStart(key: seq<bv8>)
    requires |key| > 0
    ensures Schedule(key, 0) == (Identity(), 0)
  {
  }

  lemma ScheduleStep(key: seq<bv8>, n: nat)
    requires |key| > 0 && n < 0x100
    ensures var p := Schedule(key, n); var j := Low8(p.1 + OctetOf(key[n % |key|]) + p.0[n]);
            Schedule(key, n + 1) == (Swap(p.0, n, j), j)
  {
    hide Swap, Low8, OctetOf;
  }

  // ----- the stream -----

  function Next(c: Context): (d: Context)
    requires |c.state| == 0x100
    ensures |d.state| == 0x100
  {
    var x := Low8(c.x + 1);
    var y := Low8(c.state[x] + c.y);
    Context(x, y, Swap(c.state, x, y))
  }

  /** The byte given out by the step to `Next(c)`. */
  function Output(c: Context): bv8
    requires |c.state| == 0x100
  {
    var d := Next(c);
    ToByte(d.state[Low8(d.state[d.x] as int + d.state[d.y])])
  }

  function After(c: Context, n: nat): (d: Context)
    requires |c.state| == 0x100
    ensures |d.state| == 0x100
  {
    if n == 0 then c else Next(After(c, n - 1))
  }

  function Stream(c: Context, n: nat): (s: seq<bv8>)
    requires |c.state| == 0x100
    ensures |s| == n
  {
    if n == 0 then [] else Stream(c, n - 1) + [Output(After(c, n - 1))]
  }

  function Crypt(c: Context, m: seq<bv8>): (e: seq<bv8>)
    requires |c.state| == 0x100
    ensures |e| == |m|
  {
    XorSeq(m, Stream(c, |m|))
  }

  /** The state stays a permutation for ever. */
  lemma {:induction false} AfterKeeps(c: Context, n: nat)
    requires Permutation(c.state)
    ensures Permutation(After(c, n).state)
  {
    hide Permutation, Swap;
    assert |c.state| == 0x100 by { PermutationSize(c.state); }
    if n > 0 {
      AfterKeeps(c, n - 1);
      var d := After(c, n - 1);
      SwapKeeps(d.state, Low8(d.x + 1), Low8(d.state[Low8(d.x + 1)] + d.y));
    }
  }

  lemma PermutationSize(s: seq<Octet>)
    requires Permutation(s)
    ensures |s| == 0x100
  {
  }

  lemma {:induction false} AfterSum(c: Context, m: nat, n: nat)
    requires |c.state| == 0x100
    ensures After(c, m + n) == After(After(c, m), n)
  {
    hide Next;
    if n > 0 { AfterSum(c, m, n - 1); }
  }

  lemma {:induction false} StreamSum(c: Context, m: nat, n: nat)
    requires |c.state| == 0x100
    ensures Stream(c, m + n) == Stream(c, m) + Stream(After(c, m), n)
  {
    hide Next, Output;
    if n > 0 {
      StreamSum(c, m, n - 1);
      AfterSum(c, m, n - 1);
    }
  }

  /** Encrypting in two calls is encrypting in one. */
  lemma CryptConcat(c: Context, m: seq<bv8>, n: seq<bv8>)
    requires |c.state| == 0x100
    ensures Crypt(c, m + n) == Crypt(c, m) + Crypt(After(c, |m|), n)
    ensures After(c, |m + n|) == After(After(c, |m|), |n|)
  {
    hide XorSeq, Stream, After, Next, Output;
    assert |m + n| == |m| + |n|;
    StreamSum(c, |m|, |n|);
    AfterSum(c, |m|, |n|);
    XorSeqConcat(m, n, Stream(c, |m|), Stream(After(c, |m|), |n|));
  }

  /** Decryption is encryption again. */
  lemma CryptTwice(c: Context, m: seq<bv8>)
    requires |c.state| == 0x100
    ensures Crypt(c, Crypt(c, m)) == m
  {
    hide Stream, XorSeq;
    XorSeqTwice(Stream(c, |m|), m);
    XorSeqCommutes(m, Stream(c, |m|));
    XorSeqCommutes(XorSeq(m, Stream(c, |m|)), Stream(c, |m|));
  }

  // ----- the code -----

  class ArcFour {
    var X: Octet
    var Y: Octet
    const STATE: array<Octet>

    constructor ()
      ensures fresh(STATE) && STATE.Length == 0x100
    {
      X, Y := 0, 0;
      STATE := new Octet[0x100];
    }

    /** The buffer is not the cipher's own state array. */
    ghost predicate Apart(b: array<bv8>) {
      (b as object) != (STATE as object)
    }

    ghost function Value(): (c: Context)
      requires STATE.Length == 0x100
      reads this, STATE
      ensures |c.state| == 0x100
    {
      Context(X, Y, STATE[..])
    }

    /** `ARCFOUR_INIT`. */
    method Init(pKey: array<bv8>, keyLen: nat)
      requires STATE.Length == 0x100 && 0 < keyLen <= pKey.Length && Apart(pKey)
      modifies this, STATE
      ensures Value() == Keyed(pKey[..keyLen]) && Permutation(STATE[..])
    {
      hide Permutation, Swap, Schedule, Low8, OctetOf;
      X, Y := 0, 0;
      for counter := 0 to 0x100
        invariant forall i | 0 <= i < counter :: STATE[i] == i
        modifies STATE
      {
        STATE[counter] := counter;
      }
      assert STATE[..] == Identity();
      var keyIndex, stateIndex := 0, 0;
      ScheduleStart(pKey[..keyLen]);
      for counter := 0 to 0x100
        invariant keyIndex < keyLen && keyIndex == counter % keyLen
        invariant 0 <= stateIndex < 0x100 && (STATE[..], stateIndex) == Schedule(pKey[..keyLen], counter)
        modifies STATE
      {
        ScheduleStep(pKey[..keyLen], counter);
        stateIndex := Mix(stateIndex, pKey[keyIndex], counter);
        NextIndex(counter, keyLen);
        keyIndex := keyIndex + 1;
        if keyIndex >= keyLen {
          keyIndex := 0;
        }
      }
      ScheduleKeeps(pKey[..keyLen], 0x100);
    }

    /** The body of the key schedule. */
    method Mix(j: Octet, k: bv8, counter: Octet) returns (stateIndex: Octet)
      requires STATE.Length == 0x100
      modifies STATE
      ensures stateIndex == Low8(j + OctetOf(k) + old(STATE[counter]))
      ensures STATE[..] == Swap(old(STATE[..]), counter, stateIndex)
    {
      var t := STATE[counter];
      stateIndex := Low8(j + OctetOf(k) + t);
      var u := STATE[stateIndex];
      STATE[stateIndex] := t;
      STATE[counter] := u;
    }

    /** `ARCFOUR_BYTE`. */
    method Byte() returns (b: bv8)
      requires STATE.Length == 0x100
      modifies this, STATE
      ensures b == Output(old(Value())) && Value() == Next(old(Value()))
    {
      var x := Low8(X + 1);
      var sx := STATE[x];
      var y := Low8(sx + Y);
      var sy := STATE[y];
      X := x;
      Y := y;
      STATE[y] := sx;
      STATE[x] := sy;
      assert STATE[..] == Swap(old(STATE[..]), x, y);
      b := ToByte(STATE[Low8(sx + sy)]);
    }

    /** `ARCFOUR_ENCRYPT` and `ARCFOUR_DECRYPT`, which have the same body. The destination may be the
        source, or lie before it in the same buffer. */
    method Encrypt(pDest: array<bv8>, d: nat, pSrc: array<bv8>, s: nat, len: nat)
      requires STATE.Length == 0x100 && Apart(pDest) && Apart(pSrc)
      requires d + len <= pDest.Length && s + len <= pSrc.Length && (pDest == pSrc ==> d <= s)
      modifies this, STATE, pDest
      ensures Value() == After(old(Value()), len)
      ensures pDest[..] == Splice(old(pDest[..]), d, Crypt(old(Value()), old(pSrc[..][s..s + len])))
    {
      hide Xor, Output, Next, Stream, After, Splice;
      ghost var c, m, dest := Value(), pSrc[..][s..s + len], pDest[..];
      NoStream(c);
      for i := 0 to len
        invariant Value() == After(c, i)
        invariant forall j | 0 <= j < i :: pDest[d + j] == Xor(m[j], Stream(c, len)[j])
        invariant forall j | i <= j < len :: pSrc[s + j] == m[j]
        invariant forall j | 0 <= j < pDest.Length && !(d <= j < d + i) :: pDest[j] == dest[j]
      {
        StreamAt(c, len, i);
        var b := Byte();
        pDest[d + i] := Xor(pSrc[s + i], b);
      }
    }

    /** `WPAARCFOUR_ENCRYPT`: the first 256 bytes of the stream are thrown away. */
    method WpaEncrypt(pDest: array<bv8>, d: nat, pSrc: array<bv8>, s: nat, len: nat)
      requires STATE.Length == 0x100 && Apart(pDest) && Apart(pSrc)
      requires d + len <= pDest.Length && s + len <= pSrc.Length && (pDest == pSrc ==> d <= s)
      modifies this, STATE, pDest
      ensures Value() == After(old(Value()), 0x100 + len)
      ensures pDest[..] == Splice(old(pDest[..]), d, Crypt(After(old(Value()), 0x100), old(pSrc[..][s..s + len])))
    {
      hide Output, Next, Stream, After, Splice;
      ghost var c := Value();
      NoStream(c);
      for i := 0 to 0x100
        invariant Value() == After(c, i)
        modifies this, STATE
      {
        AfterStep(c, i);
        var _ := Byte();
      }
      AfterSum(c, 0x100, len);
      Encrypt(pDest, d, pSrc, s, len);
    }
  }

  lemma NoStream(c: Context)
    requires |c.state| == 0x100
    ensures After(c, 0) == c
  {
  }

  lemma AfterStep(c: Context, n: nat)
    requires |c.state| == 0x100
    ensures After(c, n + 1) == Next(After(c, n))
  {
  }

  lemma {:induction false} StreamAt(c: Context, n: nat, i: nat)
    requires |c.state| == 0x100 && i < n
    ensures Stream(c, n)[i] == Output(After(c, i)) && After(c, i + 1) == Next(After(c, i))
  {
    hide Output, Next;
    if i < n - 1 { StreamAt(c, n - 1, i); }
  }

  lemma NextIndex(counter: nat, keyLen: nat)
    requires keyLen > 0
    ensures (counter + 1) % keyLen == if counter % keyLen + 1 >= keyLen then 0 else counter % keyLen + 1
  {
    var q, r := counter / keyLen, counter % keyLen;
    assert counter == q * keyLen + r;
    if r + 1 >= keyLen {
      assert counter + 1 == (q + 1) * keyLen;
      UniqueRemainder(counter + 1, keyLen, q + 1, 0);
    } else {
      UniqueRemainder(counter + 1, keyLen, q, r + 1);
    }
  }
}
