/** Byte buffers: moving, clearing and comparing them, and integers cut to bytes. */
module Bytes {
  import opened AesField

  /** Elementwise exclusive or. */
  function XorSeq(a: seq<bv8>, b: seq<bv8>): (c: seq<bv8>)
    requires |a| == |b|
    ensures |c| == |a| && forall i | 0 <= i < |a| :: c[i] == Xor(a[i], b[i])
  {
    seq(|a|, i requires 0 <= i < |a| => Xor(a[i], b[i]))
  }

  /** `NdisMoveMemory`: the regions may overlap. */
  method Move(dst: array<bv8>, d: nat, src: array<bv8>, s: nat, n: nat)
    requires d + n <= dst.Length && s + n <= src.Length
    modifies dst
    ensures forall i | d <= i < d + n :: dst[i] == old(src[s + (i - d)])
    ensures forall i | 0 <= i < dst.Length && !(d <= i < d + n) :: dst[i] == old(dst[i])
  {
    forall i | d <= i < d + n {
      dst[i] := src[s + (i - d)];
    }
  }

  /** `NdisZeroMemory`. */
  method Zero(dst: array<bv8>, d: nat, n: nat)
    requires d + n <= dst.Length
    modifies dst
    ensures forall i | d <= i < d + n :: dst[i] == 0
    ensures forall i | 0 <= i < dst.Length && !(d <= i < d + n) :: dst[i] == old(dst[i])
  {
    forall i | d <= i < d + n {
      dst[i] := 0;
    }
  }

  function Zeros(n: nat): (z: seq<bv8>)
    ensures |z| == n && forall i | 0 <= i < n :: z[i] == 0
  {
    seq(n, _ => 0)
  }

  /** A cast to `UCHAR`. */
  function ToByte(k: int): bv8 {
    (k % 0x100) as bv8
  }

  lemma ByteIs(r: nat)
    requires r < 0x100
    ensures (r as bv8) as nat == r
  {
    if r < 0x10 {
    } else if r < 0x20 {
    } else if r < 0x40 {
    } else if r < 0x80 {
    }
  }

  /** A slice with `n` bytes replaced. */
  function Splice(s: seq<bv8>, at: nat, b: seq<bv8>): (t: seq<bv8>)
    requires at + |b| <= |s|
    ensures |t| == |s|
    ensures forall i | 0 <= i < |s| :: t[i] == if at <= i < at + |b| then b[i - at] else s[i]
  {
    s[..at] + b + s[at + |b|..]
  }

  lemma SliceInSlice(s: seq<bv8>, lo: nat, hi: nat, at: nat, n: nat)
    requires lo <= at && at + n <= hi <= |s|
    ensures s[lo..hi][at - lo..at - lo + n] == s[at..at + n]
  {
    var t, x := s[lo..hi], at - lo;
    var u, v := t[x..x + n], s[at..at + n];
    forall k | 0 <= k < n ensures u[k] == v[k] {
      var i := x + k;
      assert u[k] == t[i] == s[lo + i] && lo + i == at + k;
    }
  }

  lemma TakeSlice(s: seq<bv8>, n: nat, lo: nat, hi: nat)
    requires lo <= hi <= n <= |s|
    ensures s[..n][lo..hi] == s[lo..hi]
  {
  }

  lemma SpliceInSlice(s: seq<bv8>, lo: nat, hi: nat, at: nat, b: seq<bv8>)
    requires lo <= at && at + |b| <= hi <= |s|
    ensures Splice(s, at, b)[lo..hi] == Splice(s[lo..hi], at - lo, b)
  {
  }

  lemma SpliceBack(s: seq<bv8>, at: nat, b: seq<bv8>)
    requires at + |b| <= |s|
    ensures Splice(s, at, b)[at..at + |b|] == b
  {
  }

  lemma XorSeqTwice(a: seq<bv8>, b: seq<bv8>)
    requires |a| == |b|
    ensures XorSeq(a, XorSeq(a, b)) == b
  {
    hide Xor;
    var t := XorSeq(a, XorSeq(a, b));
    forall i | 0 <= i < |a| ensures t[i] == b[i] {
      XorLaws(a[i], b[i], 0);
      XorLaws(b[i], a[i], 0);
      XorLaws(a[i], Xor(a[i], b[i]), 0);
    }
  }

  lemma XorSeqCommutes(a: seq<bv8>, b: seq<bv8>)
    requires |a| == |b|
    ensures XorSeq(a, b) == XorSeq(b, a)
  {
    hide Xor;
    forall i | 0 <= i < |a| ensures XorSeq(a, b)[i] == XorSeq(b, a)[i] {
      XorLaws(a[i], b[i], 0);
    }
  }

  lemma XorSeqConcat(a: seq<bv8>, b: seq<bv8>, c: seq<bv8>, d: seq<bv8>)
    requires |a| == |c| && |b| == |d|
    ensures XorSeq(a + b, c + d) == XorSeq(a, c) + XorSeq(b, d)
  {
    hide Xor;
  }
}
