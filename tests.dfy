/** The unit tests of the library, stated as lemmas about the model at the
    same inputs, with N = 1. The host functions stay abstract, so where a
    test compares against a decimal value of sin(1), cos(1), ... the lemma
    states what that value is in terms of the host functions; where the
    expected value is exact (6, 3, 0.5, 0.8) the lemma states it exactly. */
module SourceTests {
  import opened FloatOps
  import opened DualNumbers
  import Rules
  import SlotLaws

  /** `x * x + 2.0` at x = 3 is 11 with derivative 6. */
  lemma SimplePolynomial()
    ensures AddConst(Mul(New(3.0, 1), New(3.0, 1)), 2.0) == Dual([11.0], [6.0])
  {
    var x := New(3.0, 1);
    assert x.At(0) == Rules.Slot(3.0, 1.0);
    SlotwiseEqual(AddConst(Mul(x, x), 2.0), Dual([11.0], [6.0]));
  }

  /** `1.0 + x * 3.0` at x = 2 is 7 with derivative 3. */
  lemma AddMulConstsAtTwo()
    ensures ConstAdd(1.0, MulConst(New(2.0, 1), 3.0)) == Dual([7.0], [3.0])
  {
    var x := New(2.0, 1);
    assert x.At(0) == Rules.Slot(2.0, 1.0);
    SlotwiseEqual(ConstAdd(1.0, MulConst(x, 3.0)), Dual([7.0], [3.0]));
  }

  /** sin at 1 has the derivative cos(1), and cos at 1 the derivative
      -sin(1). */
  lemma SinCosAtOne(fl: Float)
    ensures Sin(fl, New(1.0, 1)) == Dual([fl.sin(1.0)], [fl.cos(1.0)])
    ensures Cos(fl, New(1.0, 1)) == Dual([fl.cos(1.0)], [-fl.sin(1.0)])
  {
    var x := New(1.0, 1);
    assert x.At(0) == Rules.Slot(1.0, 1.0);
    SlotwiseEqual(Sin(fl, x), Dual([fl.sin(1.0)], [fl.cos(1.0)]));
    SlotwiseEqual(Cos(fl, x), Dual([fl.cos(1.0)], [-fl.sin(1.0)]));
  }

  /** tan at 1 has the derivative 1 / cos(1)^2. */
  lemma TanAtOne(fl: Float)
    requires fl.cos(1.0) != 0.0
    ensures Tan(fl, New(1.0, 1)).x == [fl.tan(1.0)]
    ensures Tan(fl, New(1.0, 1)).dx[0] * (fl.cos(1.0) * fl.cos(1.0)) == 1.0
  {
    var x := New(1.0, 1);
    assert x.At(0) == Rules.Slot(1.0, 1.0);
    SlotLaws.TanDerivative(fl, x.At(0));
    assert Tan(fl, x).At(0) == Rules.Tan(fl, x.At(0));
  }

  /** asin at 0.5 has the derivative 1 / sqrt(0.75), and acos the negated
      derivative. */
  lemma AsinAcosAtHalf(fl: Float)
    requires fl.sqrt(0.75) != 0.0
    ensures InsideUnitInterval(fl, New(0.5, 1))
    ensures Asin(fl, New(0.5, 1)).x == [fl.asin(0.5)]
    ensures Asin(fl, New(0.5, 1)).dx[0] * fl.sqrt(0.75) == 1.0
    ensures Acos(fl, New(0.5, 1)).x == [fl.acos(0.5)]
    ensures Acos(fl, New(0.5, 1)).dx == [-Asin(fl, New(0.5, 1)).dx[0]]
  {
    var x := New(0.5, 1);
    assert x.At(0) == Rules.Slot(0.5, 1.0);
    PowISquare(0.5);
    assert Rules.UnitRoot(fl, 0.5) == fl.sqrt(0.75);
    PowIInverse(fl.sqrt(0.75));
    assert Asin(fl, x).At(0) == Rules.Asin(fl, x.At(0));
    assert Acos(fl, x).At(0) == Rules.Acos(fl, x.At(0));
  }

  /** atan at 0.5 has the derivative 1 / (1 + 0.25) = 0.8. */
  lemma AtanAtHalf(fl: Float)
    ensures Atan(fl, New(0.5, 1)) == Dual([fl.atan(0.5)], [0.8])
  {
    var x := New(0.5, 1);
    assert x.At(0) == Rules.Slot(0.5, 1.0);
    SlotLaws.AtanDerivative(fl, x.At(0));
    SlotwiseEqual(Atan(fl, x), Dual([fl.atan(0.5)], [0.8]));
  }

  /** sqrt at 1 is 1 with derivative 0.5, for a host `powf` under which
      every power of 1 is 1. */
  lemma SqrtAtOne(fl: Float)
    requires forall y :: fl.powf(1.0, y) == 1.0
    ensures Sqrt(fl, New(1.0, 1)) == Dual([1.0], [0.5])
  {
    var x := New(1.0, 1);
    assert fl.powf(1.0, 0.5) == 1.0 && fl.powf(1.0, -0.5) == 1.0;
    SlotwiseEqual(Sqrt(fl, x), Dual([1.0], [0.5]));
  }

  /** ln at 2 has the derivative 0.5. */
  lemma LnAtTwo(fl: Float)
    ensures NonZero(New(2.0, 1))
    ensures Ln(fl, New(2.0, 1)) == Dual([fl.ln(2.0)], [0.5])
  {
    var x := New(2.0, 1);
    assert x.At(0) == Rules.Slot(2.0, 1.0);
    PowIInverse(2.0);
    SlotwiseEqual(Ln(fl, x), Dual([fl.ln(2.0)], [0.5]));
  }

  /** log base 10 at 2 has the derivative 1 / (2 ln 10). */
  lemma LogTenAtTwo(fl: Float)
    requires fl.ln(10.0) != 0.0
    ensures Log(fl, New(2.0, 1), 10.0).x == [fl.log(2.0, 10.0)]
    ensures Log(fl, New(2.0, 1), 10.0).dx[0] * (2.0 * fl.ln(10.0)) == 1.0
  {
    var x := New(2.0, 1);
    assert x.At(0) == Rules.Slot(2.0, 1.0);
    PowIInverse(fl.ln(10.0) * 2.0);
    assert Log(fl, x, 10.0).At(0) == Rules.Log(fl, x.At(0), 10.0);
  }

  /** sin(x) * cos(x) at 1 has the derivative cos(1)^2 - sin(1)^2. */
  lemma SinCosProductAtOne(fl: Float)
    ensures Mul(Sin(fl, New(1.0, 1)), Cos(fl, New(1.0, 1))) == ProductOfSinCos(fl.sin(1.0), fl.cos(1.0))
    ensures ProductOfSinCos(fl.sin(1.0), fl.cos(1.0)).dx
         == [fl.cos(1.0) * fl.cos(1.0) - fl.sin(1.0) * fl.sin(1.0)]
  {
    var s, c := fl.sin(1.0), fl.cos(1.0);
    SinCosAtOne(fl);
    var p := Mul(Sin(fl, New(1.0, 1)), Cos(fl, New(1.0, 1)));
    assert p.At(0) == Rules.Mul(Rules.Slot(s, c), Rules.Slot(c, -s));
    SlotwiseEqual(p, ProductOfSinCos(s, c));
    ProductOfSinCosDerivative(s, c);
  }

  /** The derivative slot of `ProductOfSinCos`. */
  lemma ProductOfSinCosDerivative(s: real, c: real)
    ensures ProductOfSinCos(s, c).dx == [c * c - s * s]
  {
  }

  /** The dual number (s c, c^2 - s^2). */
  function ProductOfSinCos(s: real, c: real): (r: Dual)
    ensures r.Valid() && r.Width() == 1
    ensures r.At(0) == Rules.Mul(Rules.Slot(s, c), Rules.Slot(c, -s))
  {
    Dual([s * c], [c * c - s * s])
  }

  /** exp at 1, run through the in-place loop of the library: the value is
      e, but the derivative left in the slot is e^e, not the e that the
      test expects, whenever the host exponential is one-to-one and e is
      not its fixed point. */
  method ExpAtOne(fl: Float) returns (y: Dual)
    requires SlotLaws.Injective(fl.exp) && fl.exp(1.0) != 1.0
    ensures y.x == [fl.exp(1.0)]
    ensures y.dx == [fl.exp(fl.exp(1.0))]
    ensures y.dx != y.x
  {
    y := Exp(fl, New(1.0, 1));
    var x := New(1.0, 1);
    assert x.At(0) == Rules.Slot(1.0, 1.0);
    assert y.At(0) == Rules.ExpAsWritten(fl, x.At(0));
    assert fl.exp(fl.exp(1.0)) != fl.exp(1.0);
  }

  /** exp at 1 by the chain rule: value and derivative are both e. */
  lemma ExpChainAtOne(fl: Float)
    ensures ExpChain(fl, New(1.0, 1)) == Dual([fl.exp(1.0)], [fl.exp(1.0)])
  {
    var x := New(1.0, 1);
    assert x.At(0) == Rules.Slot(1.0, 1.0);
    SlotwiseEqual(ExpChain(fl, x), Dual([fl.exp(1.0)], [fl.exp(1.0)]));
  }
}
