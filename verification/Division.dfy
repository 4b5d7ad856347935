/** Facts about quotients and remainders by a variable divisor. */
module Division {

  lemma SmallQuotient(a: nat, d: nat)
    requires a < d
    ensures a / d == 0
  {}

  lemma CeilStep(n: nat, d: nat)
    requires d > 0
    ensures (n + d) / d == (n + d - 1) / d + if n % d == 0 then 1 else 0
    ensures n % d == 0 ==> (n + d - 1) / d * d == n
  {
    var q, r := n / d, n % d;
    assert n == q * d + r;
    QuotientUnique(n + d, d, q + 1, r);
    if r == 0 {
      QuotientUnique(n + d - 1, d, q, d - 1);
    } else {
      QuotientUnique(n + d - 1, d, q + 1, r - 1);
    }
  }

  lemma QuotientUnique(n: nat, d: nat, q: nat, r: nat)
    requires r < d && n == q * d + r
    ensures n / d == q && n % d == r
  {
    var e := n / d - q;
    assert e * d == r - n % d;
  }

  lemma ModAdd(a: nat, b: nat, d: nat)
    requires d > 0 && a % d == 0
    ensures (a + b) % d == b % d
  {
    var p, q, r := a / d, b / d, b % d;
    assert a == p * d && b == q * d + r;
    assert a + b == (p + q) * d + r;
    QuotientUnique(a + b, d, p + q, r);
  }

  lemma ExactQuotient(a: nat, b: nat)
    requires a > 0 && b > 0 && a % b == 0
    ensures a / b > 0 && a / b * b == a
  {}

  /** The multiples of d below n number ceil(n / d). */
  lemma OutputExists(k: nat, n: nat, d: nat)
    requires d > 0 && k * d < n
    ensures k < (n + d - 1) / d
  {
    var q, r := (n + d - 1) / d, (n + d - 1) % d;
    assert n + d - 1 == d * q + r;
    if q <= k {
      OrderedProducts(q, k, d);
    }
  }

  lemma OrderedProducts(a: nat, b: nat, d: nat)
    requires a <= b
    ensures a * d <= d * b
  {}

  lemma ModOnce(a: nat, n: nat)
    requires a < 2 * n
    ensures a % n == if a < n then a else a - n
  {
    if a >= n {
      assert (a - n) % n == a - n;
    }
  }

  lemma QuotientStep(n: nat, m: nat)
    requires m > 0
    ensures (n + 1) / m == n / m + if (n + 1) % m == 0 then 1 else 0
    ensures (n + 1) % m == 0 ==> (n / m + 1) * m == n + 1
  {
    RemainderStep(n, m);
  }

  /** Counting up, the remainder goes up until it starts again. */
  lemma RemainderStep(n: nat, m: nat)
    requires m > 0
    ensures (n + 1) % m == if n % m + 1 == m then 0 else n % m + 1
    ensures (n + 1) / m == n / m + if n % m + 1 == m then 1 else 0
    ensures n % m + 1 == m ==> (n / m + 1) * m == n + 1
  {
    var q, r := n / m, n % m;
    assert n == q * m + r;
    if r + 1 == m {
      assert n + 1 == (q + 1) * m;
      QuotientUnique(n + 1, m, q + 1, 0);
    } else {
      QuotientUnique(n + 1, m, q, r + 1);
    }
  }
}
