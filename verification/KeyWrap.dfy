/** `AES_GTK_KEY_WRAP` and `AES_GTK_KEY_UNWRAP`, the key wrap of RFC 3394. */
module KeyWrap {
  import opened AesField
  import opened AesContext
  import opened AesOnto
  import opened Bytes
  import opened Remainders

  /** The register A and the blocks R[1..n], end to end. */
  datatype State = State(a: seq<bv8>, r: seq<bv8>)

  predicate Sized(s: State, n: nat) {
    |s.a| == 8 && |s.r| == 8 * n
  }

  const INITIAL_A: seq<bv8> := [0xA6, 0xA6, 0xA6, 0xA6, 0xA6, 0xA6, 0xA6, 0xA6]

  /** `A[7] ^= xor`, with `xor` a `UCHAR`. */
  function MaskLast(a: seq<bv8>, k: nat): (m: seq<bv8>)
    requires |a| == 8
    ensures |m| == 8
  {
    a[7 := Xor(a[7], ToByte(k))]
  }

  /** Where step `k` (1 to 6n) finds its block: the inner loop runs over the n blocks. */
  function BlockOf(n: nat, k: nat): (i: nat)
    requires n > 0 && k > 0
    ensures i < n && 8 * i + 8 <= 8 * n
  {
    (k - 1) % n
  }

  /** Step `k` of the wrap: encrypt A and one block, mask A with the step number. */
  function WrapStep(key: seq<bv8>, n: nat, k: nat, s: State): (t: State)
    requires |key| == 16 && n > 0 && k > 0 && Sized(s, n)
    ensures Sized(t, n)
  {
    var i := BlockOf(n, k);
    var b := AesEncrypt(key, s.a + s.r[8 * i..8 * i + 8]);
    State(MaskLast(b[..8], k), Splice(s.r, 8 * i, b[8..]))
  }

  function UnwrapStep(key: seq<bv8>, n: nat, k: nat, s: State): (t: State)
    requires |key| == 16 && n > 0 && k > 0 && Sized(s, n)
    ensures Sized(t, n)
  {
    var i := BlockOf(n, k);
    var b := AesDecrypt(key, MaskLast(s.a, k) + s.r[8 * i..8 * i + 8]);
    State(b[..8], Splice(s.r, 8 * i, b[8..]))
  }

  function WrapSteps(key: seq<bv8>, n: nat, k: nat, s: State): (t: State)
    requires |key| == 16 && (n > 0 || k == 0) && Sized(s, n)
    ensures Sized(t, n)
  {
    if k == 0 then s else WrapStep(key, n, k, WrapSteps(key, n, k - 1, s))
  }

  /** Steps `k` down to 1 undone. */
  function UnwrapSteps(key: seq<bv8>, n: nat, k: nat, s: State): (t: State)
    requires |key| == 16 && (n > 0 || k == 0) && Sized(s, n)
    ensures Sized(t, n)
  {
    if k == 0 then s else UnwrapSteps(key, n, k - 1, UnwrapStep(key, n, k, s))
  }

  /** The final A and the final R when the wrap of `n` blocks starts from `s`. */
  function WrapFrom(key: seq<bv8>, n: nat, s: State): (c: seq<bv8>)
    requires |key| == 16 && Sized(s, n)
    ensures |c| == 8 * n + 8
  {
    var t := WrapSteps(key, n, 6 * n, s);
    t.a + t.r
  }

  /** The wrap of `n` blocks. */
  function Wrap(key: seq<bv8>, n: nat, p: seq<bv8>): (c: seq<bv8>)
    requires |key| == 16 && |p| == 8 * n
    ensures |c| == 8 * n + 8
  {
    WrapFrom(key, n, State(INITIAL_A, p))
  }

  /** What the unwrap of `n` blocks leaves in A and in R. */
  function Unwrap(key: seq<bv8>, n: nat, c: seq<bv8>): (s: State)
    requires |key| == 16 && |c| == 8 * n + 8
    ensures Sized(s, n)
  {
    UnwrapSteps(key, n, 6 * n, State(c[..8], c[8..]))
  }

  // ----- one undoes the other -----

  lemma MaskTwice(a: seq<bv8>, k: nat)
    requires |a| == 8
    ensures MaskLast(MaskLast(a, k), k) == a
  {
    hide Xor, ToByte;
    XorLaws(a[7], ToByte(k), 0);
  }

  lemma StepUndone(key: seq<bv8>, n: nat, k: nat, s: State)
    requires |key| == 16 && n > 0 && k > 0 && Sized(s, n)
    ensures UnwrapStep(key, n, k, WrapStep(key, n, k, s)) == s
  {
    hide MaskLast, BlockOf, AesEncrypt, AesDecrypt;
    var i := BlockOf(n, k);
    var x := s.a + s.r[8 * i..8 * i + 8];
    var b := AesEncrypt(key, x);
    var t := WrapStep(key, n, k, s);
    MaskTwice(b[..8], k);
    assert t.r[8 * i..8 * i + 8] == b[8..];
    assert b[..8] + b[8..] == b;
    AesRoundTrip(key, x);
    assert x[..8] == s.a && x[8..] == s.r[8 * i..8 * i + 8];
    assert Splice(Splice(s.r, 8 * i, b[8..]), 8 * i, x[8..]) == s.r;
  }

  lemma {:induction false} StepsUndone(key: seq<bv8>, n: nat, k: nat, s: State)
    requires |key| == 16 && (n > 0 || k == 0) && Sized(s, n)
    ensures UnwrapSteps(key, n, k, WrapSteps(key, n, k, s)) == s
  {
    hide WrapStep, UnwrapStep;
    if k > 0 {
      StepUndone(key, n, k, WrapSteps(key, n, k - 1, s));
      StepsUndone(key, n, k - 1, s);
    }
  }

  lemma UnwrapWrapFrom(key: seq<bv8>, n: nat, s: State)
    requires |key| == 16 && Sized(s, n)
    ensures Unwrap(key, n, WrapFrom(key, n, s)) == s
  {
    hide WrapSteps, UnwrapSteps;
    var t := WrapSteps(key, n, 6 * n, s);
    assert (t.a + t.r)[..8] == t.a && (t.a + t.r)[8..] == t.r;
    StepsUndone(key, n, 6 * n, s);
  }

  /** Unwrapping what was wrapped restores the plaintext and the initial value of A, whatever the
      number of blocks: both sides cut the step number to 8 bits alike. */
  lemma UnwrapWrap(key: seq<bv8>, n: nat, p: seq<bv8>)
    requires |key| == 16 && |p| == 8 * n
    ensures Unwrap(key, n, Wrap(key, n, p)) == State(INITIAL_A, p)
  {
    hide WrapFrom, Unwrap;
    UnwrapWrapFrom(key, n, State(INITIAL_A, p));
  }

  /** The other way round: a step of the wrap undoes a step of the unwrap. */
  lemma StepRedone(key: seq<bv8>, n: nat, k: nat, s: State)
    requires |key| == 16 && n > 0 && k > 0 && Sized(s, n)
    ensures WrapStep(key, n, k, UnwrapStep(key, n, k, s)) == s
  {
    hide MaskLast, BlockOf, AesEncrypt, AesDecrypt;
    var i := BlockOf(n, k);
    var block := s.r[8 * i..8 * i + 8];
    var x := MaskLast(s.a, k) + block;
    var b := AesDecrypt(key, x);
    var t := UnwrapStep(key, n, k, s);
    assert t.r[8 * i..8 * i + 8] == b[8..];
    assert b[..8] + b[8..] == b;
    EncryptDecrypt(key, x);
    assert x[..8] == MaskLast(s.a, k) && x[8..] == block;
    MaskTwice(s.a, k);
    assert Splice(Splice(s.r, 8 * i, b[8..]), 8 * i, block) == s.r;
  }

  lemma {:induction false} StepsRedone(key: seq<bv8>, n: nat, k: nat, s: State)
    requires |key| == 16 && (n > 0 || k == 0) && Sized(s, n)
    ensures WrapSteps(key, n, k, UnwrapSteps(key, n, k, s)) == s
    decreases k
  {
    hide WrapStep, UnwrapStep;
    if k > 0 {
      StepsRedone(key, n, k - 1, UnwrapStep(key, n, k, s));
      StepRedone(key, n, k, s);
    }
  }

  /** So any ciphertext is a wrap, from the register its unwrap leaves in A. */
  lemma WrapUnwrap(key: seq<bv8>, n: nat, c: seq<bv8>)
    requires |key| == 16 && |c| == 8 * n + 8
    ensures WrapFrom(key, n, Unwrap(key, n, c)) == c
  {
    hide WrapSteps, UnwrapSteps;
    StepsRedone(key, n, 6 * n, State(c[..8], c[8..]));
  }

  /** A ciphertext is the wrap of a plaintext exactly if its unwrap leaves the initial value in A, and
      then it is the wrap of what the unwrap leaves in R. */
  lemma AuthenticIffWrapped(key: seq<bv8>, n: nat, c: seq<bv8>)
    requires |key| == 16 && |c| == 8 * n + 8
    ensures var s := Unwrap(key, n, c); s.a == INITIAL_A <==> c == Wrap(key, n, s.r)
    ensures Unwrap(key, n, c).a == INITIAL_A <==> exists p: seq<bv8> :: |p| == 8 * n && c == Wrap(key, n, p)
  {
    hide WrapFrom, Unwrap;
    var s := Unwrap(key, n, c);
    WrapUnwrap(key, n, c);
    UnwrapWrap(key, n, s.r);
    if p: seq<bv8> :| |p| == 8 * n && c == Wrap(key, n, p) {
      UnwrapWrap(key, n, p);
    }
  }

  // ----- RFC 3394, sections 2.2.1 and 2.2.2 -----

  /** The step number as the 64-bit big-endian value the RFC adds in. */
  function Counter64(t: nat): (m: seq<bv8>)
    ensures |m| == 8
  {
    [ToByte(t / 0x100_0000_0000_0000), ToByte(t / 0x1_0000_0000_0000), ToByte(t / 0x100_0000_0000),
      ToByte(t / 0x1_0000_0000),
     ToByte(t / 0x100_0000), ToByte(t / 0x1_0000), ToByte(t / 0x100), ToByte(t)]
  }

  function Mask64(a: seq<bv8>, t: nat): (m: seq<bv8>)
    requires |a| == 8
    ensures |m| == 8
  {
    XorSeq(a, Counter64(t))
  }

  function RfcStep(key: seq<bv8>, n: nat, k: nat, s: State): (t: State)
    requires |key| == 16 && n > 0 && k > 0 && Sized(s, n)
    ensures Sized(t, n)
  {
    var i := BlockOf(n, k);
    var b := AesEncrypt(key, s.a + s.r[8 * i..8 * i + 8]);
    State(Mask64(b[..8], k), Splice(s.r, 8 * i, b[8..]))
  }

  function RfcSteps(key: seq<bv8>, n: nat, k: nat, s: State): (t: State)
    requires |key| == 16 && n > 0 && Sized(s, n)
    ensures Sized(t, n)
  {
    if k == 0 then s else RfcStep(key, n, k, RfcSteps(key, n, k - 1, s))
  }

  lemma SmallCounter(t: nat)
    requires t < 0x100
    ensures Counter64(t) == [0, 0, 0, 0, 0, 0, 0, ToByte(t)]
  {
    assert ToByte(0) == 0;
  }

  lemma SmallMask(a: seq<bv8>, t: nat)
    requires |a| == 8 && t < 0x100
    ensures Mask64(a, t) == MaskLast(a, t)
  {
    hide Xor, ToByte;
    SmallCounter(t);
    XorLaws(a[0], 0, 0);
    XorLaws(a[1], 0, 0);
    XorLaws(a[2], 0, 0);
    XorLaws(a[3], 0, 0);
    XorLaws(a[4], 0, 0);
    XorLaws(a[5], 0, 0);
    XorLaws(a[6], 0, 0);
  }

  /** A step number of two bytes is masked differently, whatever A is. */
  lemma LargeMask(a: seq<bv8>, t: nat)
    requires |a| == 8 && 0x100 <= t < 0x1_0000
    ensures Mask64(a, t) != MaskLast(a, t)
  {
    hide Xor;
    ByteNonZero(t / 0x100);
    NonZeroChanges(a[6], ToByte(t / 0x100));
    assert Mask64(a, t)[6] != MaskLast(a, t)[6];
  }

  lemma ByteNonZero(k: nat)
    requires 0 < k < 0x100
    ensures ToByte(k) != 0
  {
    assert ToByte(k) as int == k;
  }

  lemma NonZeroChanges(a: bv8, b: bv8)
    requires b != 0
    ensures Xor(a, b) != a
  {
  }

  /** Every step of the wrap masks as the RFC does exactly up to 42 blocks. */
  lemma MasksAgree(n: nat)
    requires 0 < n <= 63
    ensures n <= 42 <==> forall k, a: seq<bv8> | 0 < k <= 6 * n && |a| == 8 :: Mask64(a, k) == MaskLast(a, k)
  {
    if n <= 42 {
      forall k, a: seq<bv8> | 0 < k <= 6 * n && |a| == 8 ensures Mask64(a, k) == MaskLast(a, k) {
        SmallMask(a, k);
      }
    } else {
      LargeMask(INITIAL_A, 6 * n);
    }
  }

  lemma {:induction false} SmallStepsAreRfc(key: seq<bv8>, n: nat, k: nat, s: State)
    requires |key| == 16 && 0 < n && k < 0x100 && Sized(s, n)
    ensures WrapSteps(key, n, k, s) == RfcSteps(key, n, k, s)
  {
    hide AesEncrypt, Mask64, MaskLast;
    if k > 0 {
      SmallStepsAreRfc(key, n, k - 1, s);
      var t := WrapSteps(key, n, k - 1, s);
      var i := BlockOf(n, k);
      SmallMask(AesEncrypt(key, t.a + t.r[8 * i..8 * i + 8])[..8], k);
    }
  }

  /** The first step whose number does not fit in a byte leads to another state, whatever the key and
      the plaintext. */
  lemma StepsPart(key: seq<bv8>, n: nat, k: nat, s: State)
    requires |key| == 16 && n > 0 && k == 0x100 && Sized(s, n)
    ensures WrapSteps(key, n, k, s) != RfcSteps(key, n, k, s)
  {
    hide AesEncrypt, MaskLast, Mask64, BlockOf;
    SmallStepsAreRfc(key, n, k - 1, s);
    var t, i := WrapSteps(key, n, k - 1, s), BlockOf(n, k);
    LargeMask(AesEncrypt(key, t.a + t.r[8 * i..8 * i + 8])[..8], k);
  }

  /** The wrap goes through the states of the RFC exactly up to 42 blocks. */
  lemma StatesAgree(key: seq<bv8>, n: nat, s: State)
    requires |key| == 16 && 0 < n <= 63 && Sized(s, n)
    ensures n <= 42 <==> forall k | 0 <= k <= 6 * n :: WrapSteps(key, n, k, s) == RfcSteps(key, n, k, s)
  {
    hide WrapSteps, RfcSteps;
    if n <= 42 {
      forall k | 0 <= k <= 6 * n ensures WrapSteps(key, n, k, s) == RfcSteps(key, n, k, s) {
        SmallStepsAreRfc(key, n, k, s);
      }
    } else {
      StepsPart(key, n, 0x100, s);
    }
  }

  function RfcWrap(key: seq<bv8>, n: nat, p: seq<bv8>): (c: seq<bv8>)
    requires |key| == 16 && n > 0 && |p| == 8 * n
  {
    var s := RfcSteps(key, n, 6 * n, State(INITIAL_A, p));
    s.a + s.r
  }

  /** For at most 42 blocks the wrap is the one of the RFC. */
  lemma WrapIsRfc(key: seq<bv8>, n: nat, p: seq<bv8>)
    requires |key| == 16 && 0 < n <= 42 && |p| == 8 * n
    ensures Wrap(key, n, p) == RfcWrap(key, n, p)
  {
    hide WrapSteps, RfcSteps;
    SmallStepsAreRfc(key, n, 6 * n, State(INITIAL_A, p));
  }

  function RfcUnstep(key: seq<bv8>, n: nat, k: nat, s: State): (t: State)
    requires |key| == 16 && n > 0 && k > 0 && Sized(s, n)
    ensures Sized(t, n)
  {
    var i := BlockOf(n, k);
    var b := AesDecrypt(key, Mask64(s.a, k) + s.r[8 * i..8 * i + 8]);
    State(b[..8], Splice(s.r, 8 * i, b[8..]))
  }

  function RfcUnsteps(key: seq<bv8>, n: nat, k: nat, s: State): (t: State)
    requires |key| == 16 && n > 0 && Sized(s, n)
    ensures Sized(t, n)
  {
    if k == 0 then s else RfcUnsteps(key, n, k - 1, RfcUnstep(key, n, k, s))
  }

  datatype Unwrapped = Plain(p: seq<bv8>) | IntegrityError

  /** The unwrap of the RFC: step 3 returns an error unless A is the initial value. */
  function RfcUnwrap(key: seq<bv8>, n: nat, c: seq<bv8>): (u: Unwrapped)
    requires |key| == 16 && n > 0 && |c| == 8 * n + 8
    ensures u.Plain? ==> |u.p| == 8 * n
  {
    var s := RfcUnsteps(key, n, 6 * n, State(c[..8], c[8..]));
    if s.a == INITIAL_A then Plain(s.r) else IntegrityError
  }

  lemma {:induction false} SmallUnstepsAreRfc(key: seq<bv8>, n: nat, k: nat, s: State)
    requires |key| == 16 && 0 < n && k < 0x100 && Sized(s, n)
    ensures UnwrapSteps(key, n, k, s) == RfcUnsteps(key, n, k, s)
    decreases k
  {
    hide AesDecrypt, Mask64, MaskLast, BlockOf;
    if k > 0 {
      SmallMask(s.a, k);
      assert UnwrapStep(key, n, k, s) == RfcUnstep(key, n, k, s);
      SmallUnstepsAreRfc(key, n, k - 1, UnwrapStep(key, n, k, s));
    }
  }

  /** For at most 42 blocks the unwrap is the one of the RFC but for its step 3, and the RFC returns a
      plaintext exactly for the ciphertexts that are wraps. */
  lemma UnwrapIsRfc(key: seq<bv8>, n: nat, c: seq<bv8>)
    requires |key| == 16 && 0 < n <= 42 && |c| == 8 * n + 8
    ensures var s := Unwrap(key, n, c);
            RfcUnwrap(key, n, c) == if s.a == INITIAL_A then Plain(s.r) else IntegrityError
    ensures var s := Unwrap(key, n, c); RfcUnwrap(key, n, c).Plain? <==> c == RfcWrap(key, n, s.r)
  {
    hide UnwrapSteps, RfcUnsteps, Wrap, RfcWrap;
    SmallUnstepsAreRfc(key, n, 6 * n, State(c[..8], c[8..]));
    AuthenticIffWrapped(key, n, c);
    WrapIsRfc(key, n, Unwrap(key, n, c).r);
  }

  /** Step 3 is not made: for every plaintext and every wrong value of A there is a ciphertext that the
      RFC rejects and that unwraps to that plaintext. */
  lemma RejectedYetUnwrapped(key: seq<bv8>, n: nat, a: seq<bv8>, p: seq<bv8>)
    requires |key| == 16 && 0 < n <= 42 && |a| == 8 && a != INITIAL_A && |p| == 8 * n
    ensures var c := WrapFrom(key, n, State(a, p));
            RfcUnwrap(key, n, c) == IntegrityError && Unwrap(key, n, c) == State(a, p)
  {
    hide WrapFrom, Unwrap, RfcUnwrap;
    UnwrapWrapFrom(key, n, State(a, p));
    UnwrapIsRfc(key, n, WrapFrom(key, n, State(a, p)));
  }

  /** The state after the first `m` steps of the unwrap, which are steps 6n down to 6n - m + 1. */
  function UnwrapPart(key: seq<bv8>, n: nat, m: nat, s: State): (t: State)
    requires |key| == 16 && n > 0 && m <= 6 * n && Sized(s, n)
    ensures Sized(t, n)
  {
    if m == 0 then s else UnwrapStep(key, n, 6 * n - m + 1, UnwrapPart(key, n, m - 1, s))
  }

  function RfcUnwrapPart(key: seq<bv8>, n: nat, m: nat, s: State): (t: State)
    requires |key| == 16 && n > 0 && m <= 6 * n && Sized(s, n)
    ensures Sized(t, n)
  {
    if m == 0 then s else RfcUnstep(key, n, 6 * n - m + 1, RfcUnwrapPart(key, n, m - 1, s))
  }

  /** The parts are parts of the whole. */
  lemma {:induction false} PartsJoin(key: seq<bv8>, n: nat, m: nat, s: State)
    requires |key| == 16 && n > 0 && m <= 6 * n && Sized(s, n)
    ensures UnwrapSteps(key, n, 6 * n - m, UnwrapPart(key, n, m, s)) == UnwrapSteps(key, n, 6 * n, s)
    ensures RfcUnsteps(key, n, 6 * n - m, RfcUnwrapPart(key, n, m, s)) == RfcUnsteps(key, n, 6 * n, s)
  {
    hide UnwrapStep, RfcUnstep;
    if m > 0 {
      PartsJoin(key, n, m - 1, s);
    }
  }

  /** A step whose number does not fit in a byte deciphers another block than the RFC's and so leads to
      another state, whatever the key and the ciphertext. */
  lemma UnstepsPart(key: seq<bv8>, n: nat, k: nat, s: State)
    requires |key| == 16 && n > 0 && 0x100 <= k < 0x1_0000 && Sized(s, n)
    ensures UnwrapStep(key, n, k, s) != RfcUnstep(key, n, k, s)
  {
    hide AesDecrypt, MaskLast, Mask64, BlockOf;
    var i := BlockOf(n, k);
    var block := s.r[8 * i..8 * i + 8];
    var x, y := MaskLast(s.a, k) + block, Mask64(s.a, k) + block;
    LargeMask(s.a, k);
    assert x[..8] == MaskLast(s.a, k) && y[..8] == Mask64(s.a, k);
    var b, d := AesDecrypt(key, x), AesDecrypt(key, y);
    if UnwrapStep(key, n, k, s) == RfcUnstep(key, n, k, s) {
      var u, v := Splice(s.r, 8 * i, b[8..]), Splice(s.r, 8 * i, d[8..]);
      assert u[8 * i..8 * i + 8] == b[8..] && v[8 * i..8 * i + 8] == d[8..];
      assert b == b[..8] + b[8..] && d == d[..8] + d[8..];
      DecryptInjective(key, x, y);
    }
  }

  /** The unwrap goes through the states of the RFC exactly up to 42 blocks: from 43 on it leaves them at
      its first step. */
  lemma UnwrapStatesAgree(key: seq<bv8>, n: nat, s: State)
    requires |key| == 16 && 0 < n <= 63 && Sized(s, n)
    ensures n <= 42 <==> forall m | 0 <= m <= 6 * n :: UnwrapPart(key, n, m, s) == RfcUnwrapPart(key, n, m, s)
  {
    hide UnwrapStep, RfcUnstep;
    if n <= 42 {
      forall m | 0 <= m <= 6 * n ensures UnwrapPart(key, n, m, s) == RfcUnwrapPart(key, n, m, s) {
        SmallPartsAreRfc(key, n, m, s);
      }
    } else {
      UnstepsPart(key, n, 6 * n, s);
      assert UnwrapPart(key, n, 1, s) != RfcUnwrapPart(key, n, 1, s);
    }
  }

  lemma {:induction false} SmallPartsAreRfc(key: seq<bv8>, n: nat, m: nat, s: State)
    requires |key| == 16 && 0 < n <= 42 && m <= 6 * n && Sized(s, n)
    ensures UnwrapPart(key, n, m, s) == RfcUnwrapPart(key, n, m, s)
  {
    hide AesDecrypt, Mask64, MaskLast, BlockOf;
    if m > 0 {
      SmallPartsAreRfc(key, n, m - 1, s);
      SmallMask(UnwrapPart(key, n, m - 1, s).a, 6 * n - m + 1);
    }
  }

  // ----- the code -----

  lemma BlockOfLoops(n: nat, j: nat, i: nat)
    requires 1 <= i <= n
    ensures BlockOf(n, n * j + i) == i - 1
  {
    ModOfSum(n, j, i - 1);
  }

  lemma ModOfSum(n: nat, j: nat, i: nat)
    requires i < n
    ensures (n * j + i) % n == i
  {
    if j > 0 {
      assert n * j + i == (n * (j - 1) + i) + n;
      ModOfSum(n, j - 1, i);
      AddModulus(n * (j - 1) + i, n);
    }
  }

  lemma AddModulus(x: nat, n: nat)
    requires n > 0
    ensures (x + n) % n == x % n
  {
    var q := x / n;
    assert x == q * n + x % n;
    assert x + n == (q + 1) * n + x % n;
    UniqueRemainder(x + n, n, q + 1, x % n);
  }

  /** The four buffers of either routine are distinct and of their sizes. */
  ghost predicate Buffers(a: array<bv8>, bin: array<bv8>, bout: array<bv8>, r: array<bv8>) {
    && a.Length == 8 && bin.Length == 16 && bout.Length == 16 && r.Length == 512
    && bin != a && bin != r && bin != bout && bout != a && bout != r && a != r
  }

  /** A, and the `n` blocks of R from byte `lo` on. */
  ghost function Held(a: array<bv8>, r: array<bv8>, lo: nat, n: nat): (s: State)
    requires a.Length == 8 && r.Length == 512 && lo + 8 * n <= 512
    reads a, r
    ensures Sized(s, n)
  {
    State(a[..], r[..][lo..lo + 8 * n])
  }

  /** `BIN`: A, or A masked, and the block at `at`. */
  method FillBin(a: array<bv8>, r: array<bv8>, at: nat, bin: array<bv8>, xor: bv8)
    requires a.Length == 8 && bin.Length == 16 && at + 8 <= r.Length && bin != a && bin != r
    modifies bin
    ensures bin[..] == a[..][7 := Xor(a[7], xor)] + r[..][at..at + 8]
  {
    hide Xor;
    Move(bin, 0, a, 0, 8);
    bin[7] := Xor(a[7], xor);
    Move(bin, 8, r, at, 8);
  }

  /** A from the first half of `BOUT`, masked, and the block at `at` from the second half. */
  method SplitBout(a: array<bv8>, r: array<bv8>, at: nat, bout: array<bv8>, xor: bv8)
    requires a.Length == 8 && bout.Length == 16 && at + 8 <= r.Length && bout != a && bout != r && a != r
    modifies a, r
    ensures a[..] == bout[..8][7 := Xor(bout[7], xor)]
    ensures r[..] == Splice(old(r[..]), at, bout[8..])
  {
    hide Xor;
    Move(a, 0, bout, 0, 8);
    a[7] := Xor(bout[7], xor);
    Move(r, at, bout, 8, 8);
  }

  lemma NoMask(a: seq<bv8>)
    requires |a| == 8
    ensures a[7 := Xor(a[7], 0)] == a
  {
    hide Xor;
    XorLaws(a[7], 0, 0);
  }

  /** The body of the two nested loops, at block `i` and step `xor`. */
  method OneWrapStep(c: Context, a: array<bv8>, r: array<bv8>, bin: array<bv8>, bout: array<bv8>, i: nat, xor: nat,
      ghost n: nat, ghost key: seq<bv8>)
    requires c.Ready(key) && |key| == 16 && Buffers(a, bin, bout, r)
    requires 1 <= i <= n <= 63 && xor > 0 && BlockOf(n, xor) == i - 1
    modifies a, r, bin, bout
    ensures Held(a, r, 8, n) == WrapStep(key, n, xor, old(Held(a, r, 8, n)))
  {
    hide AesEncrypt, Xor, ToByte, BlockOf, Context.Ready, Splice;
    NoMask(a[..]);
    SliceInSlice(r[..], 8, 8 + 8 * n, 8 * i, 8);
    FillBin(a, r, 8 * i, bin, 0);
    EncryptWith(c, bin, bout, key);
    SpliceInSlice(r[..], 8, 8 + 8 * n, 8 * i, bout[8..]);
    SplitBout(a, r, 8 * i, bout, ToByte(xor));
  }

  /** The body of the unwrap loops: mask, decrypt, and put the halves back. */
  method OneUnwrapStep(c: Context, a: array<bv8>, r: array<bv8>, bin: array<bv8>, bout: array<bv8>, i: nat, xor: nat,
      ghost n: nat, ghost key: seq<bv8>)
    requires c.Ready(key) && |key| == 16 && Buffers(a, bin, bout, r)
    requires 1 <= i <= n <= 63 && xor > 0 && BlockOf(n, xor) == i - 1
    modifies a, r, bin, bout
    ensures Held(a, r, 0, n) == UnwrapStep(key, n, xor, old(Held(a, r, 0, n)))
    ensures r[8 * n..] == old(r[8 * n..])
  {
    hide AesDecrypt, Xor, ToByte, BlockOf, Context.Ready, Splice;
    SliceInSlice(r[..], 0, 8 * n, (i - 1) * 8, 8);
    FillBin(a, r, (i - 1) * 8, bin, ToByte(xor));
    DecryptWith(c, bin, bout, key);
    NoMask(bout[..8]);
    SpliceInSlice(r[..], 0, 8 * n, (i - 1) * 8, bout[8..]);
    SplitBout(a, r, (i - 1) * 8, bout, 0);
  }

  /** Steps in the first `rounds` rounds. */
  function StepsOf(n: nat, rounds: nat): nat {
    n * rounds
  }

  lemma NoSteps(key: seq<bv8>, n: nat, s: State)
    requires |key| == 16 && Sized(s, n)
    ensures WrapSteps(key, n, StepsOf(n, 0), s) == s
    ensures UnwrapSteps(key, n, StepsOf(n, 0), s) == s
  {
  }

  /** The inner loop of the wrap. */
  method WrapRound(c: Context, a: array<bv8>, r: array<bv8>, bin: array<bv8>, bout: array<bv8>, j: nat, numBlocks: nat,
                   ghost s0: State, ghost key: seq<bv8>)
    requires c.Ready(key) && |key| == 16 && Buffers(a, bin, bout, r)
    requires numBlocks <= 63 && Sized(s0, numBlocks)
    requires Held(a, r, 8, numBlocks) == WrapSteps(key, numBlocks, StepsOf(numBlocks, j), s0)
    modifies a, r, bin, bout
    ensures Held(a, r, 8, numBlocks) == WrapSteps(key, numBlocks, StepsOf(numBlocks, j + 1), s0)
  {
    hide WrapStep, AesEncrypt, Context.Ready, BlockOf, Held;
    ghost var base := numBlocks * j;
    for i := 1 to numBlocks + 1
      invariant Held(a, r, 8, numBlocks) == WrapSteps(key, numBlocks, base + (i - 1), s0)
    {
      BlockOfLoops(numBlocks, j, i);
      OneWrapStep(c, a, r, bin, bout, i, numBlocks * j + i, numBlocks, key);
    }
    assert base + numBlocks == numBlocks * (j + 1);
  }

  /** The inner loop of the unwrap; `last` is what the steps still to come make of the state. */
  method UnwrapRound(c: Context, a: array<bv8>, r: array<bv8>, bin: array<bv8>, bout: array<bv8>, j: nat,
      numBlocks: nat,
                     ghost last: State, ghost key: seq<bv8>)
    requires c.Ready(key) && |key| == 16 && Buffers(a, bin, bout, r)
    requires 1 <= numBlocks <= 64
    requires UnwrapSteps(key, numBlocks - 1, StepsOf(numBlocks - 1, j + 1), Held(a, r, 0, numBlocks - 1)) == last
    modifies a, r, bin, bout
    ensures UnwrapSteps(key, numBlocks - 1, StepsOf(numBlocks - 1, j), Held(a, r, 0, numBlocks - 1)) == last
    ensures r[8 * (numBlocks - 1)..] == old(r[8 * (numBlocks - 1)..])
  {
    hide UnwrapStep, AesDecrypt, Context.Ready, BlockOf, Held;
    ghost var n := numBlocks - 1;
    ghost var base := n * j;
    assert base + n == n * (j + 1);
    var i := numBlocks - 1;
    while i > 0
      invariant 0 <= i <= n
      invariant UnwrapSteps(key, n, base + i, Held(a, r, 0, n)) == last
      invariant r[8 * n..] == old(r[8 * n..])
    {
      BlockOfLoops(n, j, i);
      OneUnwrapStep(c, a, r, bin, bout, i, (numBlocks - 1) * j + i, n, key);
      i := i - 1;
    }
  }

  method FillA(a: array<bv8>)
    requires a.Length == 8
    modifies a
    ensures a[..] == INITIAL_A
  {
    for i := 0 to 8
      invariant forall x | 0 <= x < i :: a[x] == 0xA6
    {
      a[i] := 0xA6;
    }
  }

  method KeyedContext(key: seq<bv8>) returns (c: Context)
    requires |key| == 16
    ensures fresh(c) && fresh(c.erk) && fresh(c.drk) && c.Ready(key)
  {
    hide Context.Ready;
    c := new Context();
    var _ := c.SetKey(key, 128);
  }

  /** A and R before the first step of the wrap. */
  method LoadPlain(a: array<bv8>, r: array<bv8>, plaintext: array<bv8>, n: nat)
    requires a.Length == 8 && r.Length == 512 && n <= 63 && plaintext.Length >= 8 * n && a != r && plaintext != a
             && plaintext != r
    modifies a, r
    ensures Held(a, r, 8, n) == State(INITIAL_A, plaintext[..8 * n])
  {
    FillA(a);
    Move(r, 8, plaintext, 0, 8 * n);
  }

  /** A, then blocks 1 to n of R. */
  method StoreWrapped(ciphertext: array<bv8>, a: array<bv8>, r: array<bv8>, n: nat)
    requires a.Length == 8 && r.Length == 512 && n <= 63 && ciphertext.Length >= 8 * n + 8 && ciphertext != a
             && ciphertext != r
    modifies ciphertext
    ensures var s := Held(a, r, 8, n); ciphertext[..8 * n + 8] == s.a + s.r
    ensures ciphertext[8 * n + 8..] == old(ciphertext[8 * n + 8..])
  {
    Move(ciphertext, 0, a, 0, 8);
    Move(ciphertext, 8, r, 8, 8 * n);
  }

  /** `AES_GTK_KEY_WRAP`, of any length that the local R holds: only whole blocks are wrapped. R is used
      from its block 1 on. */
  method AesGtkKeyWrap(key: seq<bv8>, plaintext: array<bv8>, pLen: nat, ciphertext: array<bv8>)
    requires |key| == 16 && pLen < 512
    requires plaintext.Length >= 8 * (pLen / 8) && ciphertext.Length >= 8 * (pLen / 8) + 8 && plaintext != ciphertext
    modifies ciphertext
    ensures var n := pLen / 8;
            && ciphertext[..8 * n + 8] == Wrap(key, n, plaintext[..8 * n])
            && ciphertext[8 * n + 8..] == old(ciphertext[..])[8 * n + 8..]
  {
    hide WrapStep, WrapSteps, AesEncrypt, AesDecrypt, Context.Ready, Held;
    var a, bin, bout, r := new bv8[8], new bv8[16], new bv8[16], new bv8[512];
    var numBlocks := pLen / 8;
    var aesctx := KeyedContext(key);
    LoadPlain(a, r, plaintext, numBlocks);
    ghost var s0 := State(INITIAL_A, plaintext[..8 * numBlocks]);
    NoSteps(key, numBlocks, s0);
    for j := 0 to 6
      modifies a, r, bin, bout
      invariant Held(a, r, 8, numBlocks) == WrapSteps(key, numBlocks, StepsOf(numBlocks, j), s0)
    {
      WrapRound(aesctx, a, r, bin, bout, j, numBlocks, s0, key);
    }
    StoreWrapped(ciphertext, a, r, numBlocks);
  }

  /** A and R before the first step of the unwrap. */
  method LoadCipher(a: array<bv8>, r: array<bv8>, ciphertext: array<bv8>, cLen: nat, ghost n: nat)
    requires a.Length == 8 && r.Length == 512 && 8 * n + 8 <= cLen <= 512 && ciphertext.Length >= cLen
    requires a != r && ciphertext != a && ciphertext != r
    modifies a, r
    ensures var c := ciphertext[..8 * n + 8]; Held(a, r, 0, n) == State(c[..8], c[8..])
    ensures r[8 * n..][..cLen - 8 - 8 * n] == ciphertext[8 * n + 8..cLen]
  {
    Move(a, 0, ciphertext, 0, 8);
    Move(r, 0, ciphertext, 8, cLen - 8);
  }

  /** All of R that was ever used, and eight bytes more. */
  method StorePlain(plaintext: array<bv8>, a: array<bv8>, r: array<bv8>, cLen: nat, ghost n: nat)
    requires a.Length == 8 && r.Length == 512 && 8 * n + 8 <= cLen <= 512 && plaintext.Length >= cLen && plaintext != a
             && plaintext != r
    modifies plaintext
    ensures plaintext[..8 * n] == Held(a, r, 0, n).r && plaintext[8 * n..cLen - 8] == r[8 * n..][..cLen - 8 - 8 * n]
    ensures plaintext[cLen..] == old(plaintext[cLen..])
  {
    Move(plaintext, 0, r, 0, cLen);
  }

  /** `AES_GTK_KEY_UNWRAP`, of any length from 8 on: only whole blocks are deciphered, the rest is
      copied. The last eight bytes it copies out are whatever R held there. `finalA` is what the routine
      leaves in its local A and does not check. */
  method AesGtkKeyUnwrap(key: seq<bv8>, plaintext: array<bv8>, cLen: nat, ciphertext: array<bv8>)
      returns (finalA: seq<bv8>)
    requires |key| == 16 && 8 <= cLen <= 512
    requires ciphertext.Length >= cLen && plaintext.Length >= cLen && plaintext != ciphertext
    modifies plaintext
    ensures var n := cLen / 8 - 1;
            && State(finalA, plaintext[..8 * n]) == Unwrap(key, n, ciphertext[..8 * n + 8])
            && plaintext[8 * n..cLen - 8] == ciphertext[8 * n + 8..cLen]
    ensures plaintext[cLen..] == old(plaintext[cLen..])
  {
    hide UnwrapStep, UnwrapSteps, AesDecrypt, AesEncrypt, Context.Ready, Held;
    var a, bin, bout, r := new bv8[8], new bv8[16], new bv8[16], new bv8[512];
    var numBlocks := cLen / 8;
    ghost var n := numBlocks - 1;
    LoadCipher(a, r, ciphertext, cLen, n);
    var aesctx := KeyedContext(key);
    ghost var last := Unwrap(key, n, ciphertext[..8 * n + 8]);
    ghost var rest := r[8 * n..];
    var j := 5;
    while j >= 0
      invariant -1 <= j <= 5
      modifies a, r, bin, bout
      invariant UnwrapSteps(key, n, StepsOf(n, j + 1), Held(a, r, 0, n)) == last
      invariant r[8 * n..] == rest
    {
      UnwrapRound(aesctx, a, r, bin, bout, j, numBlocks, last, key);
      j := j - 1;
    }
    NoSteps(key, n, Held(a, r, 0, n));
    finalA := FinalRegister(a, r, n);
    StorePlain(plaintext, a, r, cLen, n);
  }

  method FinalRegister(a: array<bv8>, r: array<bv8>, ghost n: nat) returns (finalA: seq<bv8>)
    requires a.Length == 8 && r.Length == 512 && 8 * n <= 512
    ensures finalA == Held(a, r, 0, n).a
  {
    finalA := a[..];
  }
}
