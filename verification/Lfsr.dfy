/**
 The shift register behind the software nonces. Its step is a linear map, and the 32 steps of one
 word are a basis: so every power of the step is known from what it does to that word, and any two
 combinations of steps can be multiplied by a fixed number of word operations.
 */
module Lfsr {
  import opened Iteration
  import opened RegisterWords

  function Steps(n: nat, s: bv32): bv32 {
    Iterate(Next, n, s)
  }

  lemma StepsAdd(m: nat, n: nat, s: bv32)
    ensures Steps(m + n, s) == Steps(m, Steps(n, s))
  {
    IterateAdd(Next, m, n, s);
  }

  // The register never reaches zero.
  lemma {:induction false} StepsNonZero(n: nat, s: bv32)
    requires s != 0
    ensures Steps(n, s) != 0
  {
    if n != 0 {
      StepsNonZero(n - 1, s);
      NextNonZero(Steps(n - 1, s));
    }
  }

  lemma {:induction false} StepsInjective(n: nat, x: bv32, y: bv32)
    requires Steps(n, x) == Steps(n, y)
    ensures x == y
  {
    if n != 0 {
      StepInverts(Steps(n - 1, x));
      StepInverts(Steps(n - 1, y));
      StepsInjective(n - 1, x, y);
    }
  }

  // --- Maps that respect the step -----------------------------------------------------------

  ghost predicate Linear(f: bv32 -> bv32) {
    && (forall x, y :: f(Xor(x, y)) == Xor(f(x), f(y)))
    && (forall x :: f(Next(x)) == Next(f(x)))
  }

  lemma ZeroStays(f: bv32 -> bv32)
    requires Linear(f)
    ensures f(0) == 0
  {
    XorSelf(0);
    XorSelf(f(0));
    assert f(Xor(0, 0)) == Xor(f(0), f(0));
  }

  lemma LinearPick(f: bv32 -> bv32, c: bv32, x: bv32)
    requires Linear(f)
    ensures f(Pick(c, x)) == Pick(c, f(x))
  {
    PickIs(c, x);
    PickIs(c, f(x));
    ZeroStays(f);
  }

  lemma LinearFoldTwo(f: bv32 -> bv32, c: bv32, x: bv32, r: bv32)
    requires Linear(f)
    ensures f(FoldTwo(c, x, r)) == FoldTwo(c, f(x), f(r))
  {
    LinearPick(f, c, x);
    LinearPick(f, c << 1, x);
  }

  lemma LinearFoldEight(f: bv32 -> bv32, c: bv32, x: bv32, r: bv32)
    requires Linear(f)
    ensures f(FoldEight(c, x, r)) == FoldEight(c, f(x), f(r))
  {
    LinearFoldFour(f, c << 4, x, r);
    LinearFoldFour(f, c, x, FoldFour(c << 4, x, r));
  }

  lemma LinearFoldFour(f: bv32 -> bv32, c: bv32, x: bv32, r: bv32)
    requires Linear(f)
    ensures f(FoldFour(c, x, r)) == FoldFour(c, f(x), f(r))
  {
    LinearFoldTwo(f, c << 2, x, r);
    LinearFoldTwo(f, c, x, FoldTwo(c << 2, x, r));
  }

  // A linear map passes through any combination of steps.
  lemma LinearApply(f: bv32 -> bv32, c: bv32, x: bv32)
    requires Linear(f)
    ensures f(Apply(c, x)) == Apply(c, f(x))
  {
    var r3 := FoldEight(c << 24, x, 0);
    var r2 := FoldEight(c << 16, x, r3);
    var r1 := FoldEight(c << 8, x, r2);
    LinearFoldEight(f, c << 24, x, 0);
    LinearFoldEight(f, c << 16, x, r3);
    LinearFoldEight(f, c << 8, x, r2);
    LinearFoldEight(f, c, x, r1);
    ZeroStays(f);
  }

  lemma NextIsLinear()
    ensures Linear(Next)
  {
    forall x, y
      ensures Next(Xor(x, y)) == Xor(Next(x), Next(y))
    {
      NextLinear(x, y);
    }
  }

  lemma PickAdds(c: bv32, x: bv32, y: bv32)
    ensures Pick(c, Xor(x, y)) == Xor(Pick(c, x), Pick(c, y))
  {
    PickIs(c, x);
    PickIs(c, y);
    PickIs(c, Xor(x, y));
    XorZero();
  }

  lemma FoldTwoAdds(c: bv32, x: bv32, y: bv32, r: bv32, q: bv32)
    ensures FoldTwo(c, Xor(x, y), Xor(r, q)) == Xor(FoldTwo(c, x, r), FoldTwo(c, y, q))
  {
    var d := c << 1;
    PickAdds(c, x, y);
    PickAdds(d, x, y);
    NextLinear(r, q);
    XorPairs(Next(r), Next(q), Pick(d, x), Pick(d, y));
    NextLinear(Xor(Next(r), Pick(d, x)), Xor(Next(q), Pick(d, y)));
    XorPairs(Next(Xor(Next(r), Pick(d, x))), Next(Xor(Next(q), Pick(d, y))), Pick(c, x), Pick(c, y));
  }

  lemma FoldFourAdds(c: bv32, x: bv32, y: bv32, r: bv32, q: bv32)
    ensures FoldFour(c, Xor(x, y), Xor(r, q)) == Xor(FoldFour(c, x, r), FoldFour(c, y, q))
  {
    FoldTwoAdds(c << 2, x, y, r, q);
    FoldTwoAdds(c, x, y, FoldTwo(c << 2, x, r), FoldTwo(c << 2, y, q));
  }

  lemma FoldEightAdds(c: bv32, x: bv32, y: bv32, r: bv32, q: bv32)
    ensures FoldEight(c, Xor(x, y), Xor(r, q)) == Xor(FoldEight(c, x, r), FoldEight(c, y, q))
  {
    FoldFourAdds(c << 4, x, y, r, q);
    FoldFourAdds(c, x, y, FoldFour(c << 4, x, r), FoldFour(c << 4, y, q));
  }

  lemma ApplyAdds(c: bv32, x: bv32, y: bv32)
    ensures Apply(c, Xor(x, y)) == Xor(Apply(c, x), Apply(c, y))
  {
    var p3, q3 := FoldEight(c << 24, x, 0), FoldEight(c << 24, y, 0);
    var p2, q2 := FoldEight(c << 16, x, p3), FoldEight(c << 16, y, q3);
    var p1, q1 := FoldEight(c << 8, x, p2), FoldEight(c << 8, y, q2);
    XorZero();
    FoldEightAdds(c << 24, x, y, 0, 0);
    FoldEightAdds(c << 16, x, y, p3, q3);
    FoldEightAdds(c << 8, x, y, p2, q2);
    FoldEightAdds(c, x, y, p1, q1);
  }

  lemma ApplyNext(c: bv32, x: bv32)
    ensures Apply(c, Next(x)) == Next(Apply(c, x))
  {
    NextIsLinear();
    LinearApply(Next, c, x);
  }

  lemma AllAdd(c: bv32)
    ensures forall x, y :: Apply(c, Xor(x, y)) == Xor(Apply(c, x), Apply(c, y))
  {
    forall x, y
      ensures Apply(c, Xor(x, y)) == Xor(Apply(c, x), Apply(c, y))
    {
      ApplyAdds(c, x, y);
    }
  }

  lemma AllNext(c: bv32)
    ensures forall x :: Apply(c, Next(x)) == Next(Apply(c, x))
  {
    forall x
      ensures Apply(c, Next(x)) == Next(Apply(c, x))
    {
      ApplyNext(c, x);
    }
  }

  lemma ApplyIsLinear(c: bv32)
    ensures Linear(x => Apply(c, x))
  {
    AllAdd(c);
    AllNext(c);
  }

  // --- The powers of the step ---------------------------------------------------------------

  // What `n` steps do to `TOP`: the coefficients of the `n`th power of the step.
  function Power(n: nat): bv32 {
    Steps(n, TOP)
  }

  lemma ApplySteps(c: bv32, n: nat, x: bv32)
    ensures Apply(c, Steps(n, x)) == Steps(n, Apply(c, x))
  {
    AllNext(c);
    IterateCommutes(Next, y => Apply(c, y), n, x);
  }

  lemma ApplyCommutes(a: bv32, b: bv32, x: bv32)
    ensures Apply(a, Apply(b, x)) == Apply(b, Apply(a, x))
    ensures Apply(a, b) == Apply(b, a)
  {
    ApplyIsLinear(a);
    LinearApply(y => Apply(a, y), b, x);
    LinearApply(y => Apply(a, y), b, TOP);
    ApplyTop(a);
    ApplyTop(b);
  }

  // Applying a product of combinations is applying one after the other.
  lemma ApplyProduct(a: bv32, b: bv32, x: bv32)
    ensures Apply(Apply(a, b), x) == Apply(a, Apply(b, x))
  {
    ApplyCommutes(Apply(a, b), x, TOP);
    ApplyCommutes(x, a, b);
    ApplyCommutes(x, b, TOP);
  }

  // Any number of steps is one combination of fewer than 32 steps.
  lemma StepsIsApply(n: nat, s: bv32)
    ensures Steps(n, s) == Apply(Power(n), s)
  {
    ApplyTop(s);
    ApplySteps(s, n, TOP);
    ApplyCommutes(s, Power(n), TOP);
  }

  lemma PowerAdd(m: nat, n: nat)
    ensures Power(m + n) == Apply(Power(m), Power(n))
  {
    StepsAdd(m, n, TOP);
    StepsIsApply(m, Power(n));
  }
}
