/** Facts about remainders that the solver does not find on its own. */
module Remainders {

  lemma NotSmall(d: nat, n: nat)
    requires d >= 1
    ensures d * n >= n
  {
  }

  lemma UniqueRemainder(x: int, n: nat, q: int, r: nat)
    requires n > 0 && x == q * n + r && r < n
    ensures x % n == r
  {
    var d := q - x / n;
    assert d * n == x % n - r;
    if d >= 1 { NotSmall(d, n); } else if d <= -1 { NotSmall(-d, n); }
  }

  /** Adding a multiple changes no remainder. */
  lemma Congruent(x: int, y: int, q: int, n: nat)
    requires n > 0 && x == y + q * n
    ensures x % n == y % n
  {
    assert y == (y / n) * n + y % n;
    assert x == (y / n + q) * n + y % n;
    UniqueRemainder(x, n, y / n + q, y % n);
  }

  /** Equal remainders differ by a multiple. */
  lemma DifferByMultiple(x: int, y: int, n: nat)
    requires n > 0 && x % n == y % n
    ensures (x - y) % n == 0
  {
    assert x - y == (x / n - y / n) * n + 0;
    UniqueRemainder(x - y, n, x / n - y / n, 0);
  }

  /** Only a multiple can be added without changing a remainder. */
  lemma OnlyMultiples(c: nat, r: nat, n: nat)
    requires n > 0
    ensures (c + r) % n == r % n <==> c % n == 0
  {
    if (c + r) % n == r % n {
      DifferByMultiple(c + r, r, n);
    }
    if c % n == 0 {
      assert c == (c / n) * n;
      Congruent(c + r, r, c / n, n);
    }
  }

  /** What is missing to the next multiple. */
  lemma NextMultiple(t: nat, r: nat, n: nat)
    requires n > 0 && r < n
    ensures (t + (n - r)) % n == 0 <==> r == t % n
  {
    Congruent(t + (n - r), t - r, 1, n);
    if r == t % n {
      assert t - r == (t / n) * n;
      UniqueRemainder(t - r, n, t / n, 0);
    }
    if (t - r) % n == 0 {
      assert t - r == ((t - r) / n) * n;
      UniqueRemainder(t, n, (t - r) / n, r);
    }
  }
}
