/** Divisors and primes, as far as cycle lengths and the hash constants need them. */
module Numbers {
  lemma Division(v: nat, d: nat)
    requires d > 0
    ensures v == d * (v / d) + v % d && v % d < d
  {
  }

  lemma UniqueQuotient(v: nat, d: nat, q: nat, r: nat)
    requires d > 0 && v == d * q + r && r < d
    ensures v / d == q && v % d == r
  {
    var q', r' := v / d, v % d;
    assert v == d * q' + r' && 0 <= r' < d;
    if q' < q {
      MultipleAtLeast(d, q' + 1, q);
    } else if q < q' {
      MultipleAtLeast(d, q + 1, q');
    }
  }

  lemma MultipleAtLeast(d: nat, m: nat, n: nat)
    requires m <= n
    ensures d * m <= d * n
  {
  }

  function Gcd(a: nat, b: nat): nat
    decreases b
  {
    if b == 0 then a else Gcd(b, a % b)
  }

  lemma {:induction false} GcdDivides(a: nat, b: nat)
    requires 0 < a || 0 < b
    ensures 0 < Gcd(a, b) && a % Gcd(a, b) == 0 && b % Gcd(a, b) == 0
    decreases b
  {
    if b != 0 {
      GcdDivides(b, a % b);
      Division(a, b);
      DividesSum(Gcd(a, b), b, a / b, a % b);
    }
  }

  lemma DividesSum(d: nat, b: nat, q: nat, r: nat)
    requires 0 < d && b % d == 0 && r % d == 0
    ensures (b * q + r) % d == 0
  {
    Multiple(d, (b / d) * q + r / d);
    Division(b, d);
    Division(r, d);
    assert b * q + r == d * ((b / d) * q + r / d);
  }

  lemma Multiple(d: nat, k: nat)
    requires 0 < d
    ensures d * k % d == 0
  {
    UniqueQuotient(d * k, d, k, 0);
  }

  ghost predicate IsPrime(p: nat) {
    1 < p && forall d :: 1 < d < p ==> p % d != 0
  }

  lemma CoprimeToPrime(n: nat, p: nat)
    requires IsPrime(p) && n % p != 0
    ensures Gcd(n, p) == 1
  {
    GcdDivides(n, p);
    DivisorAtMost(Gcd(n, p), p);
  }

  lemma DivisorAtMost(d: nat, n: nat)
    requires 0 < n
    ensures n < d ==> n % d != 0
  {
  }

  predicate NoneOfFive(p: nat, low: nat)
    requires 0 < low
  {
    && p % low != 0 && p % (low + 1) != 0 && p % (low + 2) != 0
    && p % (low + 3) != 0 && p % (low + 4) != 0
  }

  // None of the `5 * n` numbers from `low` on divides `p`.
  predicate NoDivisor(p: nat, low: nat, n: nat)
    requires 0 < low
    decreases n
  {
    n == 0 || (NoneOfFive(p, low) && NoDivisor(p, low + 5, n - 1))
  }

  lemma {:induction false} NoDivisorMeans(p: nat, low: nat, n: nat, d: nat)
    requires 0 < low <= d < low + 5 * n && NoDivisor(p, low, n)
    ensures p % d != 0
    decreases n
  {
    if low + 5 <= d {
      NoDivisorMeans(p, low + 5, n - 1, d);
    }
  }

  ghost predicate NoFactorBelow(p: nat, high: nat) {
    forall d :: 1 < d < high ==> p % d != 0
  }

  lemma FactorsTried(p: nat, low: nat, n: nat)
    requires 2 <= low && NoFactorBelow(p, low) && NoDivisor(p, low, n)
    ensures NoFactorBelow(p, low + 5 * n)
  {
    forall d | low <= d < low + 5 * n
      ensures p % d != 0
    {
      NoDivisorMeans(p, low, n, d);
    }
  }

  // Trial division up to the square root.
  lemma PrimeByTrial(p: nat, high: nat)
    requires 1 < p < high * high && NoFactorBelow(p, high)
    ensures IsPrime(p)
  {
    forall d | 1 < d < p
      ensures p % d != 0
    {
      if p % d == 0 {
        SmallFactor(p, d, p / d, high);
      }
    }
  }

  lemma SmallFactor(p: nat, d: nat, q: nat, high: nat)
    requires 1 < d < p < high * high && p == d * q
    ensures d < high || 1 < q < high
    ensures 0 < q && p % q == 0
  {
    Multiple(q, d);
    ProductAtLeast(d, q, high);
  }

  lemma ProductAtLeast(d: nat, q: nat, n: nat)
    ensures n <= d && n <= q ==> n * n <= d * q
  {
  }

  // A number that two coprime numbers divide is divided by their product.
  lemma CoprimeProduct(n: nat, a: nat, b: nat, x: nat, y: nat)
    requires 0 < a && 0 < b && n % a == 0 && n % b == 0
    requires x * a == y * b + 1
    ensures 0 < a * b && n % (a * b) == 0
  {
    Division(n, a);
    Division(n, b);
    MultipleAtLeast(a, 1, b);
    Regroup(n, a, b, x, y, n / a, n / b);
    MultipleOfProduct(n, a * b, (n / b) * x - (n / a) * y);
  }

  lemma Regroup(n: nat, a: nat, b: nat, x: nat, y: nat, u: nat, v: nat)
    requires n == a * u && n == b * v && x * a == y * b + 1
    ensures n == (a * b) * (v * x - u * y)
  {
    calc {
      (a * b) * (v * x - u * y);
      (b * v) * (x * a) - (a * u) * (y * b);
      n * (x * a) - n * (y * b);
      n * (x * a - y * b);
      n;
    }
  }

  lemma MultipleOfProduct(n: nat, d: nat, k: int)
    requires 0 < d && n == d * k
    ensures n % d == 0
  {
    ProductSign(d, k);
    Multiple(d, k);
  }

  lemma ProductSign(d: nat, k: int)
    ensures 0 < d && k < 0 ==> d * k < 0
  {
  }

  lemma DividesItself(n: nat, d: nat)
    requires 0 < n <= d && n % d == 0
    ensures d == n
  {
  }

  lemma DivisorOfDivisor(n: nat, d: nat, e: nat)
    requires 0 < d && 0 < e && d % e == 0
    ensures n % d == 0 ==> n % e == 0
  {
    if n % d == 0 {
      Division(n, d);
      DividesSum(e, d, n / d, 0);
    }
  }

  lemma Undivided(k: nat, d: nat)
    requires 0 < k < d
    ensures k % d != 0
  {
  }
}
