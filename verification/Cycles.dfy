/**
 How long the cycles of the register are. Its feedback polynomial has a factor of degree 5, one of
 degree 10 and one of degree 17; a word returns after 31, 33 and 131071 steps as far as it has a part
 in them. So every cycle length divides 31 * 33 * 131071, and each seed tells its own.
 */
module Cycles {
  import opened Numbers
  import opened Iteration
  import opened RegisterWords
  import opened Lfsr

  const PRIME := 131_071
  const FULL_CYCLE := 134_085_633

  // `s` is back after `n` steps.
  predicate Returns(n: nat, s: bv32) {
    Steps(n, s) == s
  }

  // --- Powers of the step, by squaring ------------------------------------------------------

  lemma Doubled(n: nat, c: bv32, d: bv32)
    requires Power(n) == c && Apply(c, c) == d
    ensures Power(2 * n) == d
  {
    PowerAdd(n, n);
  }

  lemma PowersTo1024()
    ensures Power(32) == 0xB400_0000 && Power(1024) == 0x0322_4B40
  {
    assert Power(1) == Next(Power(0)) == 0x4000_0000;
    Doubled(1, 0x4000_0000, 0x2000_0000);
    Doubled(2, 0x2000_0000, 0x0800_0000);
    Doubled(4, 0x0800_0000, 0x0080_0000);
    Doubled(8, 0x0080_0000, 0x0000_8000);
    Doubled(16, 0x0000_8000, 0xB400_0000);
    Doubled(32, 0xB400_0000, 0x8A20_0000);
    Doubled(64, 0x8A20_0000, 0x8088_0800);
    Doubled(128, 0x8088_0800, 0x80B4_8080);
    Doubled(256, 0x80B4_8080, 0x3400_3E20);
    Doubled(512, 0x3400_3E20, 0x0322_4B40);
  }

  lemma PowersToPrime()
    ensures Power(PRIME + 1) == 0xABE7_87BC
  {
    PowersTo1024();
    Doubled(1024, 0x0322_4B40, 0x2DB7_B508);
    Doubled(2048, 0x2DB7_B508, 0xB51D_5A9E);
    Doubled(4096, 0xB51D_5A9E, 0xFF4D_F4E0);
    Doubled(8192, 0xFF4D_F4E0, 0x3A17_B2E2);
    Doubled(16384, 0x3A17_B2E2, 0xED13_D061);
    Doubled(32768, 0xED13_D061, 0xCBF2_2448);
    Doubled(65536, 0xCBF2_2448, 0xABE7_87BC);
  }

  // One step back from a power that is known.
  lemma OneLess(n: nat, c: bv32, d: bv32)
    requires Power(n + 1) == c && Previous(c) == d
    ensures Power(n) == d
  {
    StepInverts(Power(n));
  }

  lemma PowerPrime()
    ensures Power(PRIME) == 0x3FCF_0F79
  {
    PowersToPrime();
    OneLess(PRIME, 0xABE7_87BC, 0x3FCF_0F79);
  }

  lemma PowersOfPrime()
    ensures Power(PRIME) == 0x3FCF_0F79
    ensures Power(2 * PRIME) == 0xF2BA_148C && Power(4 * PRIME) == 0xA8F5_3E11
    ensures Power(8 * PRIME) == 0x7902_E8F0 && Power(16 * PRIME) == 0xB876_9098
    ensures Power(32 * PRIME) == 0x3C50_9C4C
  {
    PowerPrime();
    Doubled(131071, 0x3FCF_0F79, 0xF2BA_148C);
    Doubled(262142, 0xF2BA_148C, 0xA8F5_3E11);
    Doubled(524284, 0xA8F5_3E11, 0x7902_E8F0);
    Doubled(1048568, 0x7902_E8F0, 0xB876_9098);
    Doubled(2097136, 0xB876_9098, 0x3C50_9C4C);
  }

  lemma PowersOfPrimeOn()
    ensures Power(64 * PRIME) == 0xBCE9_0F99 && Power(256 * PRIME) == 0x9E9A_586D
    ensures Power(1024 * PRIME) == 0x3FCF_0F79
  {
    PowersOfPrime();
    Doubled(4194272, 0x3C50_9C4C, 0xBCE9_0F99);
    Doubled(8388544, 0xBCE9_0F99, 0x72B0_8EE4);
    Doubled(16777088, 0x72B0_8EE4, 0x9E9A_586D);
    Doubled(33554176, 0x9E9A_586D, 0x554C_A453);
    Doubled(67108352, 0x554C_A453, 0x3FCF_0F79);
  }

  // --- Every word returns -------------------------------------------------------------------

  // After 31 * 33 * 131071 steps every register is back where it was.
  lemma EveryWordReturns(s: bv32)
    ensures Returns(FULL_CYCLE, s)
  {
    PowersOfPrime();
    PowersOfPrimeOn();
    StepsAdd(PRIME, FULL_CYCLE, TOP);
    StepsInjective(PRIME, Power(FULL_CYCLE), TOP);
    StepsIsApply(FULL_CYCLE, s);
    ApplyCommutes(TOP, s, TOP);
    ApplyTop(s);
  }

  // --- The three parts of a word ------------------------------------------------------------

  lemma Sum(m: nat, c: bv32, n: nat, d: bv32, e: bv32)
    requires Power(m) == c && Power(n) == d && Apply(c, d) == e
    ensures Power(m + n) == e
  {
    PowerAdd(m, n);
  }

  // What the three tests compute.
  lemma TestPowers()
    ensures Power(1023) == 0x0644_9680
    ensures Power(31 * PRIME) == 0x0FD5_1422 && Power(33 * PRIME) == 0x2CDB_9741
  {
    PowersTo1024();
    OneLess(1023, 0x0322_4B40, 0x0644_9680);
    PowersOfPrime();
    Sum(16 * PRIME, 0xB876_9098, 8 * PRIME, 0x7902_E8F0, 0xEA4A_A4E9);
    Sum(24 * PRIME, 0xEA4A_A4E9, 4 * PRIME, 0xA8F5_3E11, 0xA86E_2D59);
    Sum(28 * PRIME, 0xA86E_2D59, 2 * PRIME, 0xF2BA_148C, 0x6E62_761A);
    Sum(30 * PRIME, 0x6E62_761A, PRIME, 0x3FCF_0F79, 0x0FD5_1422);
    Sum(31 * PRIME, 0x0FD5_1422, 2 * PRIME, 0xF2BA_148C, 0x2CDB_9741);
  }

  lemma PowersForThird()
    ensures Power(93 * PRIME) == 0xF65B_DF31 && Power(341 * PRIME) == 0x0D3F_F604
  {
    PowersOfPrime();
    PowersOfPrimeOn();
    TestPowers();
    Sum(31 * PRIME, 0x0FD5_1422, 31 * PRIME, 0x0FD5_1422, 0x5857_A969);
    Sum(62 * PRIME, 0x5857_A969, 31 * PRIME, 0x0FD5_1422, 0xF65B_DF31);
    Sum(256 * PRIME, 0x9E9A_586D, 64 * PRIME, 0xBCE9_0F99, 0xADD2_8D02);
    Sum(320 * PRIME, 0xADD2_8D02, 16 * PRIME, 0xB876_9098, 0x1336_18A5);
    Sum(336 * PRIME, 0x1336_18A5, 4 * PRIME, 0xA8F5_3E11, 0x9B04_6E26);
    Sum(340 * PRIME, 0x9B04_6E26, PRIME, 0x3FCF_0F79, 0x0D3F_F604);
  }

  // If the change of `n` steps is a combination of the change of `m` steps, who returns after `m`
  // steps returns after `n`.
  lemma ReturnsToo(m: nat, n: nat, v: bv32, s: bv32)
    requires Apply(v, Xor(Power(m), TOP)) == Xor(Power(n), TOP)
    requires Returns(m, s)
    ensures Returns(n, s)
  {
    ChangeIs(m, s);
    ChangeIs(n, s);
    ApplyProduct(v, Xor(Power(m), TOP), s);
    WordsEqualIffXorZero(Steps(m, s), s);
    ApplyZero(v);
    WordsEqualIffXorZero(Steps(n, s), s);
  }

  lemma ChangeIs(n: nat, s: bv32)
    ensures Apply(Xor(Power(n), TOP), s) == Xor(Steps(n, s), s)
  {
    ApplyCommutes(Xor(Power(n), TOP), s, TOP);
    ApplyAdds(s, Power(n), TOP);
    ApplySteps(s, n, TOP);
    ApplyTop(s);
  }

  lemma ApplyZero(v: bv32)
    ensures Apply(v, 0) == 0
  {
    ApplyAdds(v, 0, 0);
    XorSelf(0);
    XorSelf(Apply(v, 0));
  }

  // A word has no part of period 3 or 11: the factor of degree 10 is irreducible.
  lemma ThirtyThreeAtOnce(s: bv32)
    ensures Returns(341 * PRIME, s) ==> Returns(31 * PRIME, s)
    ensures Returns(93 * PRIME, s) ==> Returns(31 * PRIME, s)
  {
    TestPowers();
    PowersForThird();
    if Returns(341 * PRIME, s) {
      ReturnsToo(341 * PRIME, 31 * PRIME, 0xA540_0000, s);
    }
    if Returns(93 * PRIME, s) {
      ReturnsToo(93 * PRIME, 31 * PRIME, 0x6E00_0000, s);
    }
  }

  // --- The cycle length of a seed -----------------------------------------------------------

  function Factor(lacking: bool, p: nat): nat {
    if lacking then 1 else p
  }

  function Product(a: nat, b: nat, c: nat): nat {
    a * b * c
  }

  // Each factor counts unless the word is back without it.
  function CycleLength(s: bv32): nat {
    Product(Factor(Returns(33 * PRIME, s), 31), Factor(Returns(31 * PRIME, s), 33), Factor(Returns(1023, s), PRIME))
  }

  // The three tests are a fixed number of word operations each.
  lemma TestsByApply(s: bv32)
    ensures Returns(33 * PRIME, s) <==> Apply(0x2CDB_9741, s) == s
    ensures Returns(31 * PRIME, s) <==> Apply(0x0FD5_1422, s) == s
    ensures Returns(1023, s) <==> Apply(0x0644_9680, s) == s
  {
    TestPowers();
    StepsIsApply(33 * PRIME, s);
    StepsIsApply(31 * PRIME, s);
    StepsIsApply(1023, s);
  }

  lemma FactorPrimes()
    ensures IsPrime(3) && IsPrime(11) && IsPrime(31)
  {
    PrimeByTrial(3, 2);
    PrimeByTrial(11, 4);
    PrimeByTrial(31, 6);
  }

  lemma TriedTo102()
    ensures NoFactorBelow(PRIME, 102)
  {
    FactorsTried(131_071, 2, 10);
    FactorsTried(131_071, 52, 10);
  }

  lemma TriedTo202()
    ensures NoFactorBelow(PRIME, 202)
  {
    TriedTo102();
    FactorsTried(131_071, 102, 10);
    FactorsTried(131_071, 152, 10);
  }

  lemma TriedTo302()
    ensures NoFactorBelow(PRIME, 302)
  {
    TriedTo202();
    FactorsTried(131_071, 202, 10);
    FactorsTried(131_071, 252, 10);
  }

  lemma PrimeIsPrime()
    ensures IsPrime(PRIME)
  {
    TriedTo302();
    FactorsTried(131_071, 302, 10);
    FactorsTried(131_071, 352, 3);
    PrimeByTrial(PRIME, 367);
  }

  lemma PartOf31(n: nat, s: bv32)
    requires Returns(n, s) && !Returns(33 * PRIME, s)
    ensures n % 31 == 0
  {
    FactorPrimes();
    EveryWordReturns(s);
    if n % 31 != 0 {
      ReturnsWithoutPrime(Next, 33 * PRIME, 31, n, s);
    }
  }

  lemma PartOf33(n: nat, s: bv32)
    requires Returns(n, s) && !Returns(31 * PRIME, s)
    ensures n % 33 == 0
  {
    FactorPrimes();
    EveryWordReturns(s);
    ThirtyThreeAtOnce(s);
    if n % 3 != 0 {
      ReturnsWithoutPrime(Next, 341 * PRIME, 3, n, s);
    }
    if n % 11 != 0 {
      ReturnsWithoutPrime(Next, 93 * PRIME, 11, n, s);
    }
    CoprimeProduct(n, 3, 11, 4, 1);
  }

  lemma PartOfPrime(n: nat, s: bv32)
    requires Returns(n, s) && !Returns(1023, s)
    ensures n % PRIME == 0
  {
    PrimeIsPrime();
    EveryWordReturns(s);
    if n % PRIME != 0 {
      ReturnsWithoutPrime(Next, 1023, PRIME, n, s);
    }
  }

  lemma PartsMultiply(n: nat, a: nat, b: nat, c: nat)
    requires (a == 1 || a == 31) && (b == 1 || b == 33) && (c == 1 || c == PRIME)
    requires n % a == 0 && n % b == 0 && n % c == 0
    ensures 0 < a * b * c && n % (a * b * c) == 0
  {
    if a == 31 && b == 33 {
      CoprimeProduct(n, 31, 33, 16, 15);
    }
    if c == PRIME {
      match a * b {
        case 31 => CoprimeProduct(n, 31, PRIME, 42_281, 10);
        case 33 => CoprimeProduct(n, 33, PRIME, 79_437, 20);
        case 1023 => CoprimeProduct(n, 1023, PRIME, 112_493, 878);
        case _ =>
      }
    }
  }

  // The parts of `s`, as numbers of steps.
  ghost predicate Parts(s: bv32, a: nat, b: nat, c: nat) {
    && a == Factor(Returns(33 * PRIME, s), 31)
    && b == Factor(Returns(31 * PRIME, s), 33)
    && c == Factor(Returns(1023, s), PRIME)
  }

  lemma WithoutPrime(s: bv32, a: nat, b: nat, c: nat)
    requires Parts(s, a, b, c)
    ensures Returns(PRIME * (a * b), s)
  {
    EveryWordReturns(s);
    if b == 1 {
      assert Gcd(33, 31) == 1 && Gcd(1023, 31) == 31;
      ReturnsAfterGcd(Next, PRIME, a * 33, 31, s);
    }
  }

  lemma PartsReturn(s: bv32, a: nat, b: nat, c: nat)
    requires Parts(s, a, b, c)
    ensures Returns(Product(a, b, c), s)
  {
    WithoutPrime(s, a, b, c);
    var d := a * b;
    if c == 1 {
      match d {
        case 1 => ReturnsAfterGcd(Next, 1, 131_071, 1023, s);
        case 31 => ReturnsAfterGcd(Next, 31, 131_071, 33, s);
        case 33 => ReturnsAfterGcd(Next, 33, 131_071, 31, s);
        case _ => ReturnsAfterGcd(Next, 1023, 131_071, 1, s);
      }
    }
  }

  lemma PartsDivide(n: nat, s: bv32, a: nat, b: nat, c: nat)
    requires Parts(s, a, b, c) && Returns(n, s)
    ensures 0 < Product(a, b, c) && n % Product(a, b, c) == 0
  {
    if a == 31 {
      PartOf31(n, s);
    }
    if b == 33 {
      PartOf33(n, s);
    }
    if c == PRIME {
      PartOfPrime(n, s);
    }
    PartsMultiply(n, a, b, c);
  }

  lemma MultiplesReturn(n: nat, k: nat, s: bv32)
    requires 0 < k && Returns(k, s) && n % k == 0
    ensures Returns(n, s)
  {
    Division(n, k);
    IterateFixed(Next, k, n / k, s);
  }

  // A register is back after `n` steps exactly when its cycle length divides `n`.
  lemma ReturnsIff(n: nat, s: bv32)
    ensures 0 < CycleLength(s)
    ensures Returns(n, s) <==> n % CycleLength(s) == 0
  {
    var a, b := Factor(Returns(33 * PRIME, s), 31), Factor(Returns(31 * PRIME, s), 33);
    var c := Factor(Returns(1023, s), PRIME);
    PartsReturn(s, a, b, c);
    PartsDivide(CycleLength(s), s, a, b, c);
    if Returns(n, s) {
      PartsDivide(n, s, a, b, c);
    } else if n % CycleLength(s) == 0 {
      MultiplesReturn(n, CycleLength(s), s);
    }
  }

  // --- Which lengths there are --------------------------------------------------------------

  const SHORTEST_CYCLE := 31

  lemma LengthAtLeast31(s: bv32)
    requires s != 0
    ensures SHORTEST_CYCLE <= CycleLength(s)
  {
    ReturnsIff(1, s);
    OnlyZeroStays(s);
  }

  lemma OnlyZeroStays(s: bv32)
    ensures Next(s) == s ==> s == 0
  {
  }

  // No seed makes the register run through all 2^32 - 1 non-zero words.
  lemma NoSeedIsMaximal(s: bv32)
    ensures CycleLength(s) <= FULL_CYCLE < 0xFFFF_FFFF
    ensures Returns(CycleLength(s), s)
  {
    ReturnsIff(CycleLength(s), s);
  }

  lemma SameCycle(n: nat, k: nat, s: bv32)
    ensures Returns(k, Steps(n, s)) <==> Returns(k, s)
  {
    StepsAdd(k, n, s);
    StepsAdd(n, k, s);
    if Returns(k, Steps(n, s)) {
      StepsInjective(n, Steps(k, s), s);
    }
  }

  const SHORT_SEED: bv32 := 0x12D0_C9F7

  // The 31 words of the shortest cycle, by their five lowest bits.
  const SHORT_0: seq<bv32> := [
    0xA1F7_15A1, 0x8A19_3EE2, 0x2BEE_2B43, 0xDDC5_6864, 0x7C32_7DC5, 0x57DC_5686, 0xF62B_4327]
  const SHORT_8: seq<bv32> := [
    0x727D_C568, 0xD38A_D0C9, 0xF864_FB8A, 0x5993_EE2B, 0xAFB8_AD0C, 0x0E4F_B8AD, 0x25A1_93EE, 0x8456_864F]
  const SHORT_16: seq<bv32> := [
    0xE4FB_8AD0, 0x450C_9F71, 0x6EE2_B432, 0xCF15_A193, 0x393E_E2B4, 0x98C9_F715, 0xB327_DC56, 0x12D0_C9F7]
  const SHORT_24: seq<bv32> := [
    0x9686_4FB8, 0x3771_5A19, 0x1C9F_715A, 0xBD68_64FB, 0x4B43_27DC, 0xEAB4_327D, 0xC15A_193E, 0x60AD_0C9F]
  const SHORT_CYCLE := SHORT_0 + SHORT_8 + SHORT_16 + SHORT_24

  // The word of the cycle with these lowest bits.
  function ShortWord(low: bv32): bv32 {
    Xor(Xor(Xor(Pick(low << 31, 0xA1F7_15A1), Pick(low << 30, 0x8A19_3EE2)),
            Xor(Pick(low << 29, 0xDDC5_6864), Pick(low << 28, 0x727D_C568))), Pick(low << 27, 0xE4FB_8AD0))
  }

  lemma BackIfShortWord(s: bv32)
    requires s == ShortWord(s & 31)
    ensures Apply(1, s) == s
  {
  }

  lemma ShortWordIfBack(s: bv32)
    requires Apply(1, s) == s
    ensures s == ShortWord(s & 31)
  {
  }

  // The words that return after 31 steps are zero and the 31 of the list.
  lemma ShortCycleWords(s: bv32)
    ensures Returns(SHORTEST_CYCLE, s) <==> s == 0 || s in SHORT_CYCLE
  {
    PowersTo1024();
    OneLess(31, 0xB400_0000, 1);
    StepsIsApply(31, s);
    if Apply(1, s) == s {
      ShortWordIfBack(s);
    }
    if s == ShortWord(s & 31) {
      BackIfShortWord(s);
    }
    ShortRows(s);
  }

  lemma ShortRows(s: bv32)
    ensures s == 0 || s in SHORT_CYCLE <==> s == ShortWord(s & 31)
  {
    Row0(s);
    Row8(s);
    Row16(s);
    Row24(s);
    ZeroIsShort(s);
  }

  lemma ZeroIsShort(s: bv32)
    ensures ShortWord(0 & 31) == 0
    ensures s & 24 == 0 || s & 24 == 8 || s & 24 == 16 || s & 24 == 24
  {
  }

  lemma Row0(s: bv32)
    ensures s in SHORT_0 <==> s == ShortWord(s & 31) && s & 24 == 0 && s != 0
  {
    var low := s & 31;
    if s == ShortWord(low) && s & 24 == 0 && s != 0 {
      LowBits0(s);
      assert low == 1 ==> s == SHORT_0[0];
      assert low == 2 ==> s == SHORT_0[1];
      assert low == 3 ==> s == SHORT_0[2];
      assert low == 4 ==> s == SHORT_0[3];
      assert low == 5 ==> s == SHORT_0[4];
      assert low == 6 ==> s == SHORT_0[5];
      assert low == 7 ==> s == SHORT_0[6];
    }
  }

  lemma LowBits0(s: bv32)
    requires s & 24 == 0
    ensures var low := s & 31;
            || low == 0 || low == 1 || low == 2 || low == 3
            || low == 4 || low == 5 || low == 6 || low == 7
  {
  }

  lemma Row8(s: bv32)
    ensures s in SHORT_8 <==> s == ShortWord(s & 31) && s & 24 == 8 && s != 0
  {
    var low := s & 31;
    if s == ShortWord(low) && s & 24 == 8 && s != 0 {
      LowBits8(s);
      assert low == 8 ==> s == SHORT_8[0];
      assert low == 9 ==> s == SHORT_8[1];
      assert low == 10 ==> s == SHORT_8[2];
      assert low == 11 ==> s == SHORT_8[3];
      assert low == 12 ==> s == SHORT_8[4];
      assert low == 13 ==> s == SHORT_8[5];
      assert low == 14 ==> s == SHORT_8[6];
      assert low == 15 ==> s == SHORT_8[7];
    }
  }

  lemma LowBits8(s: bv32)
    requires s & 24 == 8
    ensures var low := s & 31;
            || low == 8 || low == 9 || low == 10 || low == 11
            || low == 12 || low == 13 || low == 14 || low == 15
  {
  }

  lemma Row16(s: bv32)
    ensures s in SHORT_16 <==> s == ShortWord(s & 31) && s & 24 == 16 && s != 0
  {
    var low := s & 31;
    if s == ShortWord(low) && s & 24 == 16 && s != 0 {
      LowBits16(s);
      assert low == 16 ==> s == SHORT_16[0];
      assert low == 17 ==> s == SHORT_16[1];
      assert low == 18 ==> s == SHORT_16[2];
      assert low == 19 ==> s == SHORT_16[3];
      assert low == 20 ==> s == SHORT_16[4];
      assert low == 21 ==> s == SHORT_16[5];
      assert low == 22 ==> s == SHORT_16[6];
      assert low == 23 ==> s == SHORT_16[7];
    }
  }

  lemma LowBits16(s: bv32)
    requires s & 24 == 16
    ensures var low := s & 31;
            || low == 16 || low == 17 || low == 18 || low == 19
            || low == 20 || low == 21 || low == 22 || low == 23
  {
  }

  lemma Row24(s: bv32)
    ensures s in SHORT_24 <==> s == ShortWord(s & 31) && s & 24 == 24 && s != 0
  {
    var low := s & 31;
    if s == ShortWord(low) && s & 24 == 24 && s != 0 {
      LowBits24(s);
      assert low == 24 ==> s == SHORT_24[0];
      assert low == 25 ==> s == SHORT_24[1];
      assert low == 26 ==> s == SHORT_24[2];
      assert low == 27 ==> s == SHORT_24[3];
      assert low == 28 ==> s == SHORT_24[4];
      assert low == 29 ==> s == SHORT_24[5];
      assert low == 30 ==> s == SHORT_24[6];
      assert low == 31 ==> s == SHORT_24[7];
    }
  }

  lemma LowBits24(s: bv32)
    requires s & 24 == 24
    ensures var low := s & 31;
            || low == 24 || low == 25 || low == 26 || low == 27
            || low == 28 || low == 29 || low == 30 || low == 31
  {
  }

  // --- Seeds --------------------------------------------------------------------------------

  // No non-zero register returns after fewer than 31 steps.
  lemma NoShortCycle(k: nat, s: bv32)
    requires 0 < k < SHORTEST_CYCLE && Steps(k, s) == s
    ensures s == 0
  {
    ReturnsIff(k, s);
    if s != 0 {
      LengthAtLeast31(s);
    }
  }

  lemma ShortSeedReturns()
    ensures SHORT_SEED != 0 && CycleLength(SHORT_SEED) == SHORTEST_CYCLE
  {
    assert SHORT_SEED == SHORT_16[7];
    ShortCycleWords(SHORT_SEED);
    ReturnsIff(31, SHORT_SEED);
    LengthAtLeast31(SHORT_SEED);
    DividesItself(31, CycleLength(SHORT_SEED));
  }

  // The seed used when none is given, and the word 1, lie on cycles of the full length.
  const DEFAULT_SEED: bv32 := 0xDEAD_BEEF

  lemma DefaultSeedIsFull()
    ensures CycleLength(DEFAULT_SEED) == FULL_CYCLE && CycleLength(1) == FULL_CYCLE
  {
    TestsByApply(DEFAULT_SEED);
    TestsByApply(1);
  }

  // Whatever the seed, some non-zero word never appears in the register.
  lemma MissesAWord(s: bv32) returns (w: bv32)
    requires s != 0
    ensures w != 0 && forall n: nat :: Steps(n, s) != w
  {
    ShortSeedReturns();
    DefaultSeedIsFull();
    w := if Returns(SHORTEST_CYCLE, s) then 1 else SHORT_SEED;
    ReturnsIff(SHORTEST_CYCLE, w);
    forall n: nat
      ensures Steps(n, s) != w
    {
      SameCycle(n, SHORTEST_CYCLE, s);
    }
  }
}
