/** Division and remainder, in the few forms the proofs need. */
module Arithmetic {
  /** A product moves with its integer factor in steps of at least the other one. */
  lemma ProductSteps(d: int, k: int)
    requires d >= 0
    ensures k >= 1 ==> d * k >= d
    ensures k >= 2 ==> d * k >= 2 * d
    ensures k <= 0 ==> d * k <= 0
    ensures k <= -1 ==> d * k <= -d
  {
    if k >= 1 {
      assert d * k == d * (k - 1) + d;
    }
    if k >= 2 {
      assert d * k == d * (k - 2) + 2 * d;
    }
    if k <= -1 {
      assert d * k == d * (k + 1) - d;
    }
  }

  lemma Quotient(n: nat, d: nat, q: nat, r: nat)
    requires r < d && n == d * q + r
    ensures n / d == q && n % d == r
  {
    ProductSteps(d, n / d - q);
    assert d * (n / d - q) == r - n % d;
  }

  lemma NextQuotient(n: nat, d: nat)
    requires d >= 1
    ensures (n + 1) % d == (if n % d + 1 == d then 0 else n % d + 1)
    ensures (n + 1) / d == n / d + (if n % d + 1 == d then 1 else 0)
  {
    var q, r := n / d, n % d;
    assert n + 1 == d * q + (r + 1);
    if r + 1 == d {
      assert n + 1 == d * (q + 1);
      Quotient(n + 1, d, q + 1, 0);
    } else {
      Quotient(n + 1, d, q, r + 1);
    }
  }

  /** Equal remainders: the distance is a multiple of the divisor. */
  lemma SameRemainder(a: nat, b: nat, d: nat)
    requires d >= 1 && a % d == b % d && a < b
    ensures a + d <= b
    ensures b < a + 2 * d ==> b == a + d
  {
    var k := b / d - a / d;
    assert d * k == b - a;
    ProductSteps(d, k);
  }

  lemma AddDivisor(a: nat, d: nat)
    requires d >= 1
    ensures (a + d) % d == a % d && (a + d) / d == a / d + 1
  {
    assert a + d == d * (a / d + 1) + a % d;
    Quotient(a + d, d, a / d + 1, a % d);
  }

  /** The last number of a block of `d`. */
  lemma EndOfBlock(n: nat, d: nat)
    requires d >= 1 && (n + 1) % d == 0
    ensures n / d * d + d == n + 1 && (n + 1) / d == n / d + 1
  {
    NextQuotient(n, d);
    assert n == d * (n / d) + n % d;
  }

  lemma QuotientBelow(a: nat, b: nat, d: nat)
    requires d >= 1 && a < b
    ensures a / d < b / d + (if b % d == 0 then 0 else 1)
  {
    var k := a / d - b / d;
    assert d * k == (a - a % d) - (b - b % d);
    ProductSteps(d, k);
  }
}
