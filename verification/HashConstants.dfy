/**
 The constants of SHA-256 are what sections 4.2.2 and 5.3.3 of FIPS 180-4 call for: the first 32
 bits of the fractional parts of the cube roots of the first 64 primes, and of the square roots of
 the first eight. The numbers are checked as naturals, then compared with the words.
 */
module HashConstants {
  import opened Bytes
  import opened Numbers
  import opened SecureHash

  const TWO_TO_THE_32 := 0x1_0000_0000
  const TWO_TO_THE_96 := 0x1_0000_0000_0000_0000_0000_0000

  const ROUNDS_0: seq<nat> := [
    0x428A2F98, 0x71374491, 0xB5C0FBCF, 0xE9B5DBA5, 0x3956C25B, 0x59F111F1, 0x923F82A4, 0xAB1C5ED5,
    0xD807AA98, 0x12835B01, 0x243185BE, 0x550C7DC3, 0x72BE5D74, 0x80DEB1FE, 0x9BDC06A7, 0xC19BF174]
  const ROUNDS_16: seq<nat> := [
    0xE49B69C1, 0xEFBE4786, 0x0FC19DC6, 0x240CA1CC, 0x2DE92C6F, 0x4A7484AA, 0x5CB0A9DC, 0x76F988DA,
    0x983E5152, 0xA831C66D, 0xB00327C8, 0xBF597FC7, 0xC6E00BF3, 0xD5A79147, 0x06CA6351, 0x14292967]
  const ROUNDS_32: seq<nat> := [
    0x27B70A85, 0x2E1B2138, 0x4D2C6DFC, 0x53380D13, 0x650A7354, 0x766A0ABB, 0x81C2C92E, 0x92722C85,
    0xA2BFE8A1, 0xA81A664B, 0xC24B8B70, 0xC76C51A3, 0xD192E819, 0xD6990624, 0xF40E3585, 0x106AA070]
  const ROUNDS_48: seq<nat> := [
    0x19A4C116, 0x1E376C08, 0x2748774C, 0x34B0BCB5, 0x391C0CB3, 0x4ED8AA4A, 0x5B9CCA4F, 0x682E6FF3,
    0x748F82EE, 0x78A5636F, 0x84C87814, 0x8CC70208, 0x90BEFFFA, 0xA4506CEB, 0xBEF9A3F7, 0xC67178F2]

  const PRIMES_0: seq<nat> := [2, 3, 5, 7, 11, 13, 17, 19, 23, 29, 31, 37, 41, 43, 47, 53]
  const PRIMES_16: seq<nat> := [59, 61, 67, 71, 73, 79, 83, 89, 97, 101, 103, 107, 109, 113, 127, 131]
  const PRIMES_32: seq<nat> := [137, 139, 149, 151, 157, 163, 167, 173, 179, 181, 191, 193, 197, 199, 211, 223]
  const PRIMES_48: seq<nat> := [227, 229, 233, 239, 241, 251, 257, 263, 269, 271, 277, 281, 283, 293, 307, 311]
  const PRIMES := PRIMES_0 + PRIMES_16 + PRIMES_32 + PRIMES_48

  // --- The first 64 primes ------------------------------------------------------------------

  // `q` is the least prime greater than `p`.
  ghost predicate NextPrime(p: nat, q: nat) {
    p < q && IsPrime(q) && forall n :: p < n < q ==> !IsPrime(n)
  }

  // A number below 19 * 19 that passes is prime.
  predicate Tried(q: nat) {
    q % 2 != 0 && q % 3 != 0 && q % 5 != 0 && q % 7 != 0 && q % 11 != 0 && q % 13 != 0 && q % 17 != 0
  }

  lemma TriedIsPrime(q: nat)
    requires 18 < q < 361 && Tried(q)
    ensures IsPrime(q)
  {
    forall d | 1 < d < 19
      ensures q % d != 0
    {
      if d % 2 == 0 {
        DivisorOfDivisor(q, d, 2);
      } else if d % 3 == 0 {
        DivisorOfDivisor(q, d, 3);
      }
    }
    PrimeByTrial(q, 19);
  }

  lemma FailedIsComposite(n: nat)
    requires 18 < n && !Tried(n)
    ensures !IsPrime(n)
  {
  }

  // The `n` odd numbers after `p` all fail.
  predicate AllFail(p: nat, n: nat)
    decreases n
  {
    n == 0 || (!Tried(p + 2) && AllFail(p + 2, n - 1))
  }

  lemma {:induction false} AllFailMeans(p: nat, n: nat, k: nat)
    requires 0 < k <= n && AllFail(p, n)
    ensures !Tried(p + 2 * k)
    decreases n
  {
    if 1 < k {
      AllFailMeans(p + 2, n - 1, k - 1);
    }
  }

  lemma Next(p: nat, q: nat, gap: nat)
    requires 18 < p && q == p + 2 * gap + 2 < 361 && p % 2 == 1 && Tried(q) && AllFail(p, gap)
    ensures NextPrime(p, q)
  {
    TriedIsPrime(q);
    forall n | p < n < q
      ensures !IsPrime(n)
    {
      var k := (n - p) / 2;
      if n == p + 2 * k {
        AllFailMeans(p, gap, k);
      } else {
        assert n == p + 2 * k + 1 && p == 2 * (p / 2) + 1;
        Multiple(2, p / 2 + k + 1);
      }
      FailedIsComposite(n);
    }
  }

  lemma SmallPrimes()
    ensures NextPrime(2, 3) && NextPrime(3, 5) && NextPrime(5, 7) && NextPrime(7, 11)
    ensures NextPrime(11, 13) && NextPrime(13, 17) && NextPrime(17, 19) && NextPrime(19, 23) && IsPrime(2)
  {
    TriedIsPrime(23);
    assert 4 % 2 == 6 % 2 == 8 % 2 == 10 % 2 == 12 % 2 == 14 % 2 == 16 % 2 == 18 % 2 == 20 % 2 == 22 % 2 == 0;
    assert 9 % 3 == 15 % 3 == 21 % 3 == 0;
  }

  lemma NextPrimes8(t: nat)
    requires t < 8
    ensures NextPrime(PRIMES[t + 8], PRIMES[t + 9])
  {
    match t {
      case 0 => Next(23, 29, 2);
      case 1 => Next(29, 31, 0);
      case 2 => Next(31, 37, 2);
      case 3 => Next(37, 41, 1);
      case 4 => Next(41, 43, 0);
      case 5 => Next(43, 47, 1);
      case 6 => Next(47, 53, 2);
      case _ => Next(53, 59, 2);
    }
  }

  lemma NextPrimes16(t: nat)
    requires t < 16
    ensures NextPrime(PRIMES[t + 16], PRIMES[t + 17])
  {
    match t {
      case 0 => Next(59, 61, 0);
      case 1 => Next(61, 67, 2);
      case 2 => Next(67, 71, 1);
      case 3 => Next(71, 73, 0);
      case 4 => Next(73, 79, 2);
      case 5 => Next(79, 83, 1);
      case 6 => Next(83, 89, 2);
      case 7 => Next(89, 97, 3);
      case 8 => Next(97, 101, 1);
      case 9 => Next(101, 103, 0);
      case 10 => Next(103, 107, 1);
      case 11 => Next(107, 109, 0);
      case 12 => Next(109, 113, 1);
      case 13 => Next(113, 127, 6);
      case 14 => Next(127, 131, 1);
      case _ => Next(131, 137, 2);
    }
  }

  lemma NextPrimes32(t: nat)
    requires t < 16
    ensures NextPrime(PRIMES[t + 32], PRIMES[t + 33])
  {
    match t {
      case 0 => Next(137, 139, 0);
      case 1 => Next(139, 149, 4);
      case 2 => Next(149, 151, 0);
      case 3 => Next(151, 157, 2);
      case 4 => Next(157, 163, 2);
      case 5 => Next(163, 167, 1);
      case 6 => Next(167, 173, 2);
      case 7 => Next(173, 179, 2);
      case 8 => Next(179, 181, 0);
      case 9 => Next(181, 191, 4);
      case 10 => Next(191, 193, 0);
      case 11 => Next(193, 197, 1);
      case 12 => Next(197, 199, 0);
      case 13 => Next(199, 211, 5);
      case 14 => Next(211, 223, 5);
      case _ => Next(223, 227, 1);
    }
  }

  lemma NextPrimes48(t: nat)
    requires t < 15
    ensures NextPrime(PRIMES[t + 48], PRIMES[t + 49])
  {
    match t {
      case 0 => Next(227, 229, 0);
      case 1 => Next(229, 233, 1);
      case 2 => Next(233, 239, 2);
      case 3 => Next(239, 241, 0);
      case 4 => Next(241, 251, 4);
      case 5 => Next(251, 257, 2);
      case 6 => Next(257, 263, 2);
      case 7 => Next(263, 269, 2);
      case 8 => Next(269, 271, 0);
      case 9 => Next(271, 277, 2);
      case 10 => Next(277, 281, 1);
      case 11 => Next(281, 283, 0);
      case 12 => Next(283, 293, 4);
      case 13 => Next(293, 307, 6);
      case _ => Next(307, 311, 1);
    }
  }

  // The list starts with the first prime, and each entry is the next prime after the one before it.
  lemma FirstPrimes(t: nat)
    requires t + 1 < ROUNDS
    ensures |PRIMES| == ROUNDS && PRIMES[0] == 2 && IsPrime(2)
    ensures NextPrime(PRIMES[t], PRIMES[t + 1])
  {
    SmallPrimes();
    if t < 16 {
      if 8 <= t {
        NextPrimes8(t - 8);
      }
    } else if t < 32 {
      NextPrimes16(t - 16);
    } else if t < 48 {
      NextPrimes32(t - 32);
    } else {
      NextPrimes48(t - 48);
    }
  }

  // --- Roots --------------------------------------------------------------------------------

  function Square(x: nat): nat { x * x }
  function Cube(x: nat): nat { x * x * x }

  // `bits` are the first 32 fractional bits of the cube root of `p`, whose whole part is `whole`.
  predicate CubeRoot(bits: nat, p: nat, whole: nat) {
    var root := TWO_TO_THE_32 * whole + bits;
    bits < TWO_TO_THE_32 && Cube(root) <= p * TWO_TO_THE_96 < Cube(root + 1)
  }

  ghost predicate HoldsCubeRoot(bits: nat, p: nat) {
    exists whole: nat :: CubeRoot(bits, p, whole)
  }

  predicate SquareRoot(bits: nat, p: nat, whole: nat) {
    var root := TWO_TO_THE_32 * whole + bits;
    bits < TWO_TO_THE_32 && Square(root) <= p * TWO_TO_THE_64 < Square(root + 1)
  }

  ghost predicate HoldsSquareRoot(bits: nat, p: nat) {
    exists whole: nat :: SquareRoot(bits, p, whole)
  }

  lemma CubeRoots0(t: nat)
    requires t < 16
    ensures HoldsCubeRoot(ROUNDS_0[t], PRIMES_0[t])
  {
    match t {
      case 0 => assert CubeRoot(ROUNDS_0[0], PRIMES_0[0], 1);
      case 1 => assert CubeRoot(ROUNDS_0[1], PRIMES_0[1], 1);
      case 2 => assert CubeRoot(ROUNDS_0[2], PRIMES_0[2], 1);
      case 3 => assert CubeRoot(ROUNDS_0[3], PRIMES_0[3], 1);
      case 4 => assert CubeRoot(ROUNDS_0[4], PRIMES_0[4], 2);
      case 5 => assert CubeRoot(ROUNDS_0[5], PRIMES_0[5], 2);
      case 6 => assert CubeRoot(ROUNDS_0[6], PRIMES_0[6], 2);
      case 7 => assert CubeRoot(ROUNDS_0[7], PRIMES_0[7], 2);
      case 8 => assert CubeRoot(ROUNDS_0[8], PRIMES_0[8], 2);
      case 9 => assert CubeRoot(ROUNDS_0[9], PRIMES_0[9], 3);
      case 10 => assert CubeRoot(ROUNDS_0[10], PRIMES_0[10], 3);
      case 11 => assert CubeRoot(ROUNDS_0[11], PRIMES_0[11], 3);
      case 12 => assert CubeRoot(ROUNDS_0[12], PRIMES_0[12], 3);
      case 13 => assert CubeRoot(ROUNDS_0[13], PRIMES_0[13], 3);
      case 14 => assert CubeRoot(ROUNDS_0[14], PRIMES_0[14], 3);
      case _ => assert CubeRoot(ROUNDS_0[15], PRIMES_0[15], 3);
    }
  }

  lemma CubeRoots16(t: nat)
    requires t < 16
    ensures HoldsCubeRoot(ROUNDS_16[t], PRIMES_16[t])
  {
    match t {
      case 0 => assert CubeRoot(ROUNDS_16[0], PRIMES_16[0], 3);
      case 1 => assert CubeRoot(ROUNDS_16[1], PRIMES_16[1], 3);
      case 2 => assert CubeRoot(ROUNDS_16[2], PRIMES_16[2], 4);
      case 3 => assert CubeRoot(ROUNDS_16[3], PRIMES_16[3], 4);
      case 4 => assert CubeRoot(ROUNDS_16[4], PRIMES_16[4], 4);
      case 5 => assert CubeRoot(ROUNDS_16[5], PRIMES_16[5], 4);
      case 6 => assert CubeRoot(ROUNDS_16[6], PRIMES_16[6], 4);
      case 7 => assert CubeRoot(ROUNDS_16[7], PRIMES_16[7], 4);
      case 8 => assert CubeRoot(ROUNDS_16[8], PRIMES_16[8], 4);
      case 9 => assert CubeRoot(ROUNDS_16[9], PRIMES_16[9], 4);
      case 10 => assert CubeRoot(ROUNDS_16[10], PRIMES_16[10], 4);
      case 11 => assert CubeRoot(ROUNDS_16[11], PRIMES_16[11], 4);
      case 12 => assert CubeRoot(ROUNDS_16[12], PRIMES_16[12], 4);
      case 13 => assert CubeRoot(ROUNDS_16[13], PRIMES_16[13], 4);
      case 14 => assert CubeRoot(ROUNDS_16[14], PRIMES_16[14], 5);
      case _ => assert CubeRoot(ROUNDS_16[15], PRIMES_16[15], 5);
    }
  }

  lemma CubeRoots32(t: nat)
    requires t < 16
    ensures HoldsCubeRoot(ROUNDS_32[t], PRIMES_32[t])
  {
    match t {
      case 0 => assert CubeRoot(ROUNDS_32[0], PRIMES_32[0], 5);
      case 1 => assert CubeRoot(ROUNDS_32[1], PRIMES_32[1], 5);
      case 2 => assert CubeRoot(ROUNDS_32[2], PRIMES_32[2], 5);
      case 3 => assert CubeRoot(ROUNDS_32[3], PRIMES_32[3], 5);
      case 4 => assert CubeRoot(ROUNDS_32[4], PRIMES_32[4], 5);
      case 5 => assert CubeRoot(ROUNDS_32[5], PRIMES_32[5], 5);
      case 6 => assert CubeRoot(ROUNDS_32[6], PRIMES_32[6], 5);
      case 7 => assert CubeRoot(ROUNDS_32[7], PRIMES_32[7], 5);
      case 8 => assert CubeRoot(ROUNDS_32[8], PRIMES_32[8], 5);
      case 9 => assert CubeRoot(ROUNDS_32[9], PRIMES_32[9], 5);
      case 10 => assert CubeRoot(ROUNDS_32[10], PRIMES_32[10], 5);
      case 11 => assert CubeRoot(ROUNDS_32[11], PRIMES_32[11], 5);
      case 12 => assert CubeRoot(ROUNDS_32[12], PRIMES_32[12], 5);
      case 13 => assert CubeRoot(ROUNDS_32[13], PRIMES_32[13], 5);
      case 14 => assert CubeRoot(ROUNDS_32[14], PRIMES_32[14], 5);
      case _ => assert CubeRoot(ROUNDS_32[15], PRIMES_32[15], 6);
    }
  }

  lemma CubeRoots48(t: nat)
    requires t < 16
    ensures HoldsCubeRoot(ROUNDS_48[t], PRIMES_48[t])
  {
    match t {
      case 0 => assert CubeRoot(ROUNDS_48[0], PRIMES_48[0], 6);
      case 1 => assert CubeRoot(ROUNDS_48[1], PRIMES_48[1], 6);
      case 2 => assert CubeRoot(ROUNDS_48[2], PRIMES_48[2], 6);
      case 3 => assert CubeRoot(ROUNDS_48[3], PRIMES_48[3], 6);
      case 4 => assert CubeRoot(ROUNDS_48[4], PRIMES_48[4], 6);
      case 5 => assert CubeRoot(ROUNDS_48[5], PRIMES_48[5], 6);
      case 6 => assert CubeRoot(ROUNDS_48[6], PRIMES_48[6], 6);
      case 7 => assert CubeRoot(ROUNDS_48[7], PRIMES_48[7], 6);
      case 8 => assert CubeRoot(ROUNDS_48[8], PRIMES_48[8], 6);
      case 9 => assert CubeRoot(ROUNDS_48[9], PRIMES_48[9], 6);
      case 10 => assert CubeRoot(ROUNDS_48[10], PRIMES_48[10], 6);
      case 11 => assert CubeRoot(ROUNDS_48[11], PRIMES_48[11], 6);
      case 12 => assert CubeRoot(ROUNDS_48[12], PRIMES_48[12], 6);
      case 13 => assert CubeRoot(ROUNDS_48[13], PRIMES_48[13], 6);
      case 14 => assert CubeRoot(ROUNDS_48[14], PRIMES_48[14], 6);
      case _ => assert CubeRoot(ROUNDS_48[15], PRIMES_48[15], 6);
    }
  }

  lemma Words0(t: nat)
    requires t < 16
    ensures WORDS_0[t] as nat == ROUNDS_0[t]
  {
  }

  lemma Words16(t: nat)
    requires t < 16
    ensures WORDS_16[t] as nat == ROUNDS_16[t]
  {
  }

  lemma Words32(t: nat)
    requires t < 16
    ensures WORDS_32[t] as nat == ROUNDS_32[t]
  {
  }

  lemma Words48(t: nat)
    requires t < 16
    ensures WORDS_48[t] as nat == ROUNDS_48[t]
  {
  }

  lemma RowConstants0(t: nat)
    requires t < 16
    ensures HoldsCubeRoot(ROUND_CONSTANTS[t] as nat, PRIMES[t])
  {
    assert ROUND_CONSTANTS[t] == WORDS_0[t] && PRIMES[t] == PRIMES_0[t];
    Words0(t);
    CubeRoots0(t);
  }

  lemma RowConstants16(t: nat)
    requires t < 16
    ensures HoldsCubeRoot(ROUND_CONSTANTS[t + 16] as nat, PRIMES[t + 16])
  {
    assert ROUND_CONSTANTS[t + 16] == WORDS_16[t] && PRIMES[t + 16] == PRIMES_16[t];
    Words16(t);
    CubeRoots16(t);
  }

  lemma RowConstants32(t: nat)
    requires t < 16
    ensures HoldsCubeRoot(ROUND_CONSTANTS[t + 32] as nat, PRIMES[t + 32])
  {
    assert ROUND_CONSTANTS[t + 32] == WORDS_32[t] && PRIMES[t + 32] == PRIMES_32[t];
    Words32(t);
    CubeRoots32(t);
  }

  lemma RowConstants48(t: nat)
    requires t < 16
    ensures HoldsCubeRoot(ROUND_CONSTANTS[t + 48] as nat, PRIMES[t + 48])
  {
    assert ROUND_CONSTANTS[t + 48] == WORDS_48[t] && PRIMES[t + 48] == PRIMES_48[t];
    Words48(t);
    CubeRoots48(t);
  }

  lemma RoundConstants(t: nat)
    requires t < ROUNDS
    ensures HoldsCubeRoot(ROUND_CONSTANTS[t] as nat, PRIMES[t])
  {
    if t < 16 {
      RowConstants0(t);
    } else if t < 32 {
      RowConstants16(t - 16);
    } else if t < 48 {
      RowConstants32(t - 32);
    } else {
      RowConstants48(t - 48);
    }
  }

  lemma InitialHash(i: nat)
    requires i < 8
    ensures HoldsSquareRoot(INITIAL_HASH.Words()[i] as nat, PRIMES[i])
  {
    assert SquareRoot(0x6A09E667, PRIMES_0[0], 1);
    assert SquareRoot(0xBB67AE85, PRIMES_0[1], 1);
    assert SquareRoot(0x3C6EF372, PRIMES_0[2], 2);
    assert SquareRoot(0xA54FF53A, PRIMES_0[3], 2);
    assert SquareRoot(0x510E527F, PRIMES_0[4], 3);
    assert SquareRoot(0x9B05688C, PRIMES_0[5], 3);
    assert SquareRoot(0x1F83D9AB, PRIMES_0[6], 4);
    assert SquareRoot(0x5BE0CD19, PRIMES_0[7], 4);
  }
}
