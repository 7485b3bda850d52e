/**
 The nonces a provider draws from its register, eight steps each. Two of them agree exactly when the
 cycle length of the seed divides the number of draws between them.
 */
module Nonces {
  import opened Bytes
  import opened Numbers
  import opened Lfsr
  import opened Cycles

  const WORDS_PER_NONCE := 8

  // The words after the first `n` of the eight steps that make a nonce.
  function Words(s: bv32, n: nat): (b: Bytes)
    ensures |b| == 4 * n
  {
    if n == 0 then [] else Words(s, n - 1) + LittleEndian(Steps(n, s))
  }

  function NonceFrom(s: bv32): (nonce: Nonce) {
    Words(s, WORDS_PER_NONCE)
  }

  // The nonce of draw `i` by a provider whose register starts at `seed`.
  function Draw(seed: bv32, i: nat): Nonce {
    NonceFrom(Steps(WORDS_PER_NONCE * i, seed))
  }

  lemma {:induction false} WordAt(s: bv32, n: nat, k: nat)
    requires k < n
    ensures Words(s, n)[4 * k..4 * k + 4] == LittleEndian(Steps(k + 1, s))
  {
    if k < n - 1 {
      WordAt(s, n - 1, k);
      assert Words(s, n)[4 * k..4 * k + 4] == Words(s, n - 1)[4 * k..4 * k + 4];
    }
  }

  // Each word of a nonce is one step of the register, low byte first.
  lemma NonceWordAt(seed: bv32, i: nat, k: nat)
    requires k < 8
    ensures var w := Steps(8 * i + k + 1, seed);
            Draw(seed, i)[4 * k..4 * k + 4]
            == [(w & 0xFF) as byte, ((w >> 8) & 0xFF) as byte, ((w >> 16) & 0xFF) as byte, (w >> 24) as byte]
  {
    WordAt(Steps(8 * i, seed), 8, k);
    StepsAdd(k + 1, 8 * i, seed);
  }

  lemma NonceTellsRegister(x: bv32, y: bv32)
    requires NonceFrom(x) == NonceFrom(y)
    ensures x == y
  {
    WordAt(x, 8, 0);
    WordAt(y, 8, 0);
    LittleEndianInjective(Steps(1, x), Steps(1, y));
    StepsInjective(1, x, y);
  }

  lemma HalfDivides(d: nat, n: nat)
    requires d % 2 == 1 && 2 * n % d == 0
    ensures n % d == 0
  {
    Division(2 * n, d);
    var q := 2 * n / d;
    OddTimes(d, q);
    assert 2 * n == d * (2 * (q / 2)) == 2 * (d * (q / 2));
    Multiple(d, q / 2);
  }

  lemma OddTimes(d: nat, q: nat)
    requires d % 2 == 1 && d * q % 2 == 0
    ensures q == 2 * (q / 2)
  {
    assert d * q == 2 * ((d / 2) * q) + q;
  }

  lemma LengthIsOdd(s: bv32)
    ensures CycleLength(s) % 2 == 1
  {
  }

  // A draw moves the register by eight steps, which no cycle length shares a factor with.
  lemma EightDivides(seed: bv32, n: nat)
    ensures 0 < CycleLength(seed)
    ensures 8 * n % CycleLength(seed) == 0 <==> n % CycleLength(seed) == 0
  {
    LengthIsOdd(seed);
    var d := CycleLength(seed);
    if 8 * n % d == 0 {
      HalfDivides(d, 4 * n);
      HalfDivides(d, 2 * n);
      HalfDivides(d, n);
    }
    if n % d == 0 {
      DividesSum(d, n, 8, 0);
    }
  }

  // Fewer than 31 draws never return the register to where it was.
  lemma NoShortDrawCycle(d: nat, s: bv32)
    requires 0 < d < SHORTEST_CYCLE && s != 0
    ensures Steps(8 * d, s) != s
  {
    ReturnsIff(8 * d, s);
    EightDivides(s, d);
    LengthAtLeast31(s);
    Undivided(d, CycleLength(s));
  }

  // Two nonces are equal exactly when the cycle length of the seed divides their distance.
  lemma NoncesRepeatIff(seed: bv32, i: nat, j: nat)
    requires i <= j
    ensures 0 < CycleLength(seed)
    ensures Draw(seed, i) == Draw(seed, j) <==> (j - i) % CycleLength(seed) == 0
  {
    var m := 8 * (j - i);
    StepsAdd(8 * i, m, seed);
    ReturnsIff(m, seed);
    EightDivides(seed, j - i);
    if Draw(seed, i) == Draw(seed, j) {
      NonceTellsRegister(Steps(8 * i, seed), Steps(8 * j, seed));
      StepsInjective(8 * i, seed, Steps(m, seed));
    }
  }

  // Any 31 nonces in a row are pairwise distinct, for every non-zero seed.
  lemma NoncesDiffer(seed: bv32, i: nat, j: nat)
    requires seed != 0 && i < j < i + SHORTEST_CYCLE
    ensures Draw(seed, i) != Draw(seed, j)
  {
    NoncesRepeatIff(seed, i, j);
    LengthAtLeast31(seed);
    Undivided(j - i, CycleLength(seed));
  }

  // The bound is sharp for the seeds of the shortest cycle and for no others.
  lemma NoncesMayRepeat(seed: bv32, i: nat)
    requires seed != 0
    ensures Draw(seed, i) == Draw(seed, i + SHORTEST_CYCLE) <==> seed in SHORT_CYCLE
  {
    NoncesRepeatIff(seed, i, i + SHORTEST_CYCLE);
    ReturnsIff(SHORTEST_CYCLE, seed);
    ShortCycleWords(seed);
  }

  // With the default seed the first 134,085,633 nonces are pairwise distinct, and the next is the first.
  lemma DefaultSeedNonces(i: nat, j: nat)
    requires i < j <= i + FULL_CYCLE
    ensures Draw(DEFAULT_SEED, i) == Draw(DEFAULT_SEED, j) <==> j == i + FULL_CYCLE
  {
    DefaultSeedIsFull();
    NoncesRepeatIff(DEFAULT_SEED, i, j);
  }

  // No word of a nonce is zero.
  lemma NonceWordsNonZero(seed: bv32, i: nat, k: nat)
    requires seed != 0 && k < WORDS_PER_NONCE
    ensures Draw(seed, i)[4 * k..4 * k + 4] != Zeros(4)
  {
    var s := Steps(8 * i, seed);
    StepsNonZero(8 * i, seed);
    StepsNonZero(k + 1, s);
    WordAt(s, 8, k);
    LittleEndianZero();
    if LittleEndian(Steps(k + 1, s)) == LittleEndian(0) {
      LittleEndianInjective(Steps(k + 1, s), 0);
    }
  }
}
