/** Encryption of a block takes every value: an injective function of a finite set to itself is onto.
    So encryption undoes decryption as well. */
module AesOnto {
  import opened AesContext

  function Octet(i: nat): bv8
    requires i < 0x100
  {
    i as bv8
  }

  ghost function Octets(): set<bv8> {
    set i: nat | i < 0x100 :: Octet(i)
  }

  lemma OctetsAreAll(b: bv8)
    ensures b in Octets()
  {
    assert Octet(b as nat) == b;
  }

  /** All strings of `n` bytes. */
  ghost function Strings(n: nat): (all: set<seq<bv8>>)
    ensures forall s :: s in all ==> |s| == n
  {
    if n == 0 then {[]} else set b, s | b in Octets() && s in Strings(n - 1) :: [b] + s
  }

  lemma {:induction false} StringsAreAll(n: nat, s: seq<bv8>)
    requires |s| == n
    ensures s in Strings(n)
  {
    if n > 0 {
      StringsAreAll(n - 1, s[1..]);
      OctetsAreAll(s[0]);
      assert s == [s[0]] + s[1..];
    }
  }

  ghost function Image<T(!new)>(f: T -> T, s: set<T>): set<T> {
    set x | x in s :: f(x)
  }

  ghost predicate Injective<T(!new)>(f: T -> T, s: set<T>) {
    forall x, y | x in s && y in s && f(x) == f(y) :: x == y
  }

  lemma {:induction false} ImageSize<T(!new)>(f: T -> T, s: set<T>)
    requires Injective(f, s)
    ensures |Image(f, s)| == |s|
    decreases |s|
  {
    if s != {} {
      var x :| x in s;
      var t := s - {x};
      ImageSize(f, t);
      assert Image(f, s) == Image(f, t) + {f(x)};
      assert f(x) !in Image(f, t);
    }
  }

  lemma {:induction false} SameSizeSubset<T(!new)>(s: set<T>, t: set<T>)
    requires s <= t && |s| == |t|
    ensures s == t
    decreases |s|
  {
    if s == {} {
      assert t == {};
    } else {
      var x :| x in s;
      SameSizeSubset(s - {x}, t - {x});
      assert s == (s - {x}) + {x} && t == (t - {x}) + {x};
    }
  }

  /** An injective function of a finite set to itself takes every value. */
  lemma Onto<T(!new)>(f: T -> T, s: set<T>, y: T) returns (x: T)
    requires Injective(f, s) && y in s && forall z | z in s :: f(z) in s
    ensures x in s && f(x) == y
  {
    ImageSize(f, s);
    SameSizeSubset(Image(f, s), s);
    assert y in Image(f, s);
    x :| x in s && f(x) == y;
  }

  /** Encryption undoes decryption, for every key of every size and every block. */
  lemma EncryptDecrypt(key: seq<bv8>, c: seq<bv8>)
    requires (|key| == 16 || |key| == 24 || |key| == 32) && |c| == 16
    ensures AesEncrypt(key, AesDecrypt(key, c)) == c
  {
    hide AesEncrypt, AesDecrypt, Strings;
    var f := (b: seq<bv8>) => if |b| == 16 then AesEncrypt(key, b) else b;
    var all := Strings(16);
    forall b, d | b in all && d in all && f(b) == f(d) ensures b == d {
      AesRoundTrip(key, b);
      AesRoundTrip(key, d);
    }
    forall b | b in all ensures f(b) in all {
      StringsAreAll(16, f(b));
    }
    StringsAreAll(16, c);
    var b := Onto(f, all, c);
    AesRoundTrip(key, b);
  }

  /** So different blocks decrypt differently. */
  lemma DecryptInjective(key: seq<bv8>, c: seq<bv8>, d: seq<bv8>)
    requires (|key| == 16 || |key| == 24 || |key| == 32) && |c| == |d| == 16 && AesDecrypt(key, c) == AesDecrypt(key, d)
    ensures c == d
  {
    hide AesEncrypt, AesDecrypt;
    EncryptDecrypt(key, c);
    EncryptDecrypt(key, d);
  }
}
