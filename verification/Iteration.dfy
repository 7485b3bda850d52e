/** Iterating a function: sums and multiples of the number of rounds, and returning to the start. */
module Iteration {
  import opened Numbers

  function Iterate<T>(f: T -> T, n: nat, s: T): T {
    if n == 0 then s else f(Iterate(f, n - 1, s))
  }

  lemma {:induction false} IterateAdd<T>(f: T -> T, m: nat, n: nat, s: T)
    ensures Iterate(f, m + n, s) == Iterate(f, m, Iterate(f, n, s))
  {
    if m != 0 {
      IterateAdd(f, m - 1, n, s);
    }
  }

  lemma {:induction false} IterateCommutes<T(!new)>(f: T -> T, g: T -> T, n: nat, s: T)
    requires forall x :: g(f(x)) == f(g(x))
    ensures g(Iterate(f, n, s)) == Iterate(f, n, g(s))
  {
    if n != 0 {
      IterateCommutes(f, g, n - 1, s);
    }
  }

  lemma {:induction false} IterateFixed<T>(f: T -> T, n: nat, times: nat, s: T)
    requires Iterate(f, n, s) == s
    ensures Iterate(f, n * times, s) == s
  {
    if times != 0 {
      IterateFixed(f, n, times - 1, s);
      IterateAdd(f, n, n * (times - 1), s);
      assert n + n * (times - 1) == n * times;
    }
  }

  // Who returns after `m` and after `n` rounds returns after the difference.
  lemma ReturnsAfterDifference<T>(f: T -> T, m: nat, n: nat, s: T)
    requires m <= n && Iterate(f, m, s) == s && Iterate(f, n, s) == s
    ensures Iterate(f, n - m, s) == s
  {
    IterateAdd(f, n - m, m, s);
  }

  // And so, by Euclid's algorithm, after their greatest common divisor.
  lemma {:induction false} ReturnsAfterGcd<T>(f: T -> T, k: nat, a: nat, b: nat, s: T)
    requires Iterate(f, k * a, s) == s && Iterate(f, k * b, s) == s
    ensures Iterate(f, k * Gcd(a, b), s) == s
    decreases b
  {
    if b != 0 {
      var q, r := a / b, a % b;
      IterateFixed(f, k * b, q, s);
      assert k * a == k * b * q + k * r;
      ReturnsAfterDifference(f, k * b * q, k * a, s);
      ReturnsAfterGcd(f, k, b, r, s);
    }
  }

  // If `p` is a prime that does not divide `n`, who returns after `n` and after `k * p` rounds
  // returns after `k`.
  lemma ReturnsWithoutPrime<T>(f: T -> T, k: nat, p: nat, n: nat, s: T)
    requires IsPrime(p) && n % p != 0
    requires Iterate(f, n, s) == s && Iterate(f, k * p, s) == s
    ensures Iterate(f, k, s) == s
  {
    IterateFixed(f, n, k, s);
    CoprimeToPrime(n, p);
    assert n * k == k * n;
    ReturnsAfterGcd(f, k, n, p, s);
  }
}
