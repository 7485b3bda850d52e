/** One step of the shift register on a 32-bit word, several steps at once, and their fixed words. */
module RegisterWords {
  const FEEDBACK: bv32 := 0xB400_0000

  // One step, with the feedback mask spelled out as the bits it spreads the lowest bit to.
  function Next(s: bv32): bv32 {
    var b := s & 1;
    (s >> 1) ^ ((b << 31) | (b << 29) | (b << 28) | (b << 26))
  }

  // The shift-and-mask form of the source is this step.
  lemma NextIsMasked(s: bv32)
    ensures Next(s) == if s & 1 != 0 then (s >> 1) ^ FEEDBACK else s >> 1
  {
    var b := s & 1;
    if b != 0 {
      OddLowBit(s);
      assert (b << 31) | (b << 29) | (b << 28) | (b << 26) == FEEDBACK;
    } else {
      assert (b << 31) | (b << 29) | (b << 28) | (b << 26) == 0;
    }
  }

  lemma OddLowBit(s: bv32)
    requires s & 1 != 0
    ensures s & 1 == 1
  {
  }

  function Xor(x: bv32, y: bv32): bv32 {
    x ^ y
  }

  lemma NextLinear(a: bv32, b: bv32)
    ensures Next(Xor(a, b)) == Xor(Next(a), Next(b))
  {
  }

  lemma WordsEqualIffXorZero(x: bv32, y: bv32)
    ensures Xor(x, y) == 0 <==> x == y
  {
    if Xor(x, y) == 0 {
      EqualIfXorZero(x, y);
    }
  }

  lemma EqualIfXorZero(x: bv32, y: bv32)
    requires x ^ y == 0
    ensures x == y
  {
  }

  function Previous(s: bv32): bv32 {
    var b := s >> 31;
    ((s ^ ((b << 31) | (b << 29) | (b << 28) | (b << 26))) << 1) | b
  }

  lemma StepInverts(s: bv32)
    ensures Previous(Next(s)) == s && Next(Previous(s)) == s
  {
  }

  lemma NextNonZero(s: bv32)
    requires s != 0
    ensures Next(s) != 0
  {
  }

  // --- Combinations of steps ----------------------------------------------------------------

  // The word whose first 31 steps only shift its single bit down.
  const TOP: bv32 := 0x8000_0000

  // `x` if the highest bit of `c` is set, else zero.
  function Pick(c: bv32, x: bv32): bv32 {
    (0 - (c >> 31)) & x
  }

  function FoldTwo(c: bv32, x: bv32, r: bv32): bv32 {
    Xor(Next(Xor(Next(r), Pick(c << 1, x))), Pick(c, x))
  }

  function FoldFour(c: bv32, x: bv32, r: bv32): bv32 {
    FoldTwo(c, x, FoldTwo(c << 2, x, r))
  }

  function FoldEight(c: bv32, x: bv32, r: bv32): bv32 {
    FoldFour(c, x, FoldFour(c << 4, x, r))
  }

  // The sum of the words that `i` steps make of `x`, over the bits `i` set in `c` from the highest
  // down: the polynomial with the coefficients `c`, in the step, applied to `x`.
  function Apply(c: bv32, x: bv32): bv32 {
    FoldEight(c, x, FoldEight(c << 8, x, FoldEight(c << 16, x, FoldEight(c << 24, x, 0))))
  }

  // Every word is the combination it spells out, of the steps of `TOP`.
  lemma ApplyTop(c: bv32)
    ensures Apply(c, TOP) == c
  {
  }

  lemma PickIs(c: bv32, x: bv32)
    ensures c >> 31 == 0 ==> Pick(c, x) == 0
    ensures c >> 31 == 1 ==> Pick(c, x) == x
    ensures c >> 31 == 0 || c >> 31 == 1
  {
  }

  lemma XorSelf(x: bv32)
    ensures Xor(x, x) == 0
  {
  }

  lemma XorZero()
    ensures forall x :: Xor(x, 0) == x == Xor(0, x)
  {
  }

  lemma XorPairs(a: bv32, b: bv32, c: bv32, d: bv32)
    ensures Xor(Xor(a, b), Xor(c, d)) == Xor(Xor(a, c), Xor(b, d))
    ensures Xor(a, b) == Xor(b, a)
  {
  }
}
