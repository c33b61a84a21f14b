/** Laws of the operators of `Dual<F, N>`: the algebra the operator
    overloads obey, what the constant overloads mean, and the two places
    where the source departs from the rules of differentiation. Each law is
    proved slot by slot from the one-slot laws of `SlotLaws`. */
module DualLaws {
  import opened FloatOps
  import opened DualNumbers
  import Rules
  import SlotLaws

  /** Negation is an involution. */
  lemma NegInvolutive(d: Dual)
    requires d.Valid()
    ensures Neg(Neg(d)) == d
  {
    SlotwiseEqual(Neg(Neg(d)), d);
  }

  /** `a - b` is `a + (-b)`. */
  lemma SubIsAddNeg(a: Dual, b: Dual)
    requires SameWidth(a, b)
    ensures Sub(a, b) == Add(a, Neg(b))
  {
    SlotwiseEqual(Sub(a, b), Add(a, Neg(b)));
  }

  /** `+` is commutative and associative. */
  lemma AddCommutesAndAssociates(a: Dual, b: Dual, c: Dual)
    requires SameWidth(a, b) && SameWidth(b, c)
    ensures Add(a, b) == Add(b, a)
    ensures Add(Add(a, b), c) == Add(a, Add(b, c))
  {
    SlotwiseEqual(Add(a, b), Add(b, a));
    SlotwiseEqual(Add(Add(a, b), c), Add(a, Add(b, c)));
  }

  /** `*` is commutative. */
  lemma MulCommutes(a: Dual, b: Dual)
    requires SameWidth(a, b)
    ensures Mul(a, b) == Mul(b, a)
  {
    SlotwiseEqual(Mul(a, b), Mul(b, a));
  }

  /** `*` is associative. */
  lemma MulAssociates(a: Dual, b: Dual, c: Dual)
    requires SameWidth(a, b) && SameWidth(b, c)
    ensures Mul(Mul(a, b), c) == Mul(a, Mul(b, c))
  {
    var l, r := Mul(Mul(a, b), c), Mul(a, Mul(b, c));
    forall i | 0 <= i < a.Width() ensures l.At(i) == r.At(i) {
      SlotLaws.MulAssociates(a.At(i), b.At(i), c.At(i));
    }
    SlotwiseEqual(l, r);
  }

  /** `*` distributes over `+`. */
  lemma MulDistributesOverAdd(a: Dual, b: Dual, c: Dual)
    requires SameWidth(a, b) && SameWidth(b, c)
    ensures Mul(a, Add(b, c)) == Add(Mul(a, b), Mul(a, c))
  {
    var l, r := Mul(a, Add(b, c)), Add(Mul(a, b), Mul(a, c));
    forall i | 0 <= i < a.Width() ensures l.At(i) == r.At(i) {
      SlotLaws.MulDistributesOverAdd(a.At(i), b.At(i), c.At(i));
    }
    SlotwiseEqual(l, r);
  }

  /** Adding a plain number on either side is adding the constant dual
      number with that value: the derivative is left alone. */
  lemma AddConstIsSumWithConstant(d: Dual, c: real)
    requires d.Valid()
    ensures AddConst(d, c) == Add(d, Constant(c, d.Width()))
    ensures ConstAdd(c, d) == AddConst(d, c)
  {
    SlotwiseEqual(AddConst(d, c), Add(d, Constant(c, d.Width())));
    SlotwiseEqual(ConstAdd(c, d), AddConst(d, c));
  }

  /** Multiplying by a plain number on either side is multiplying by the
      constant dual number with that value: both slots are scaled. */
  lemma MulConstIsProductWithConstant(d: Dual, c: real)
    requires d.Valid()
    ensures MulConst(d, c) == Mul(d, Constant(c, d.Width()))
    ensures ConstMul(c, d) == MulConst(d, c)
  {
    SlotwiseEqual(MulConst(d, c), Mul(d, Constant(c, d.Width())));
    SlotwiseEqual(ConstMul(c, d), MulConst(d, c));
  }

  /** The quotient rule undoes the product: (a / b) * b == a. */
  lemma QuotientInvertsProduct(a: Dual, b: Dual)
    requires SameWidth(a, b) && NonZero(b)
    ensures Mul(Quotient(a, b), b) == a
  {
    var l := Mul(Quotient(a, b), b);
    forall i | 0 <= i < a.Width() ensures l.At(i) == a.At(i) {
      SlotLaws.QuotientInvertsProduct(a.At(i), b.At(i));
    }
    SlotwiseEqual(l, a);
  }

  /** The division of the source has the values of the quotient, and its
      derivatives agree with the quotient rule exactly when every cross term
      a.x[i] b.dx[i] is zero. */
  lemma DivAgreesWithQuotientIff(a: Dual, b: Dual)
    requires SameWidth(a, b) && NonZero(b)
    ensures Div(a, b).x == Quotient(a, b).x
    ensures Div(a, b) == Quotient(a, b) <==> forall i :: 0 <= i < a.Width() ==> a.x[i] * b.dx[i] == 0.0
  {
    var p, q := Div(a, b), Quotient(a, b);
    forall i | 0 <= i < a.Width() ensures p.x[i] == q.x[i] {
      SlotLaws.DivAgreesWithQuotientIff(a.At(i), b.At(i));
      assert p.At(i).x == q.At(i).x;
    }
    if forall i :: 0 <= i < a.Width() ==> a.x[i] * b.dx[i] == 0.0 {
      forall i | 0 <= i < a.Width() ensures p.At(i) == q.At(i) {
        SlotLaws.DivAgreesWithQuotientIff(a.At(i), b.At(i));
        assert a.At(i).x * b.At(i).dx == 0.0;
      }
      SlotwiseEqual(p, q);
    } else {
      var i :| 0 <= i < a.Width() && a.x[i] * b.dx[i] != 0.0;
      SlotLaws.DivAgreesWithQuotientIff(a.At(i), b.At(i));
      assert a.At(i).x * b.At(i).dx != 0.0;
      assert p.At(i) != q.At(i);
    }
  }

  /** x / x at x = 1 as the source computes it: the value is 1 but the
      derivative is 2 where the quotient rule gives 0. */
  lemma DivSelfAsWritten()
    ensures Div(New(1.0, 1), New(1.0, 1)) == Dual([1.0], [2.0])
    ensures Quotient(New(1.0, 1), New(1.0, 1)) == Constant(1.0, 1)
  {
    var d := New(1.0, 1);
    assert d.At(0) == Rules.Slot(1.0, 1.0);
    SlotwiseEqual(Div(d, d), Dual([1.0], [2.0]));
    SlotwiseEqual(Quotient(d, d), Constant(1.0, 1));
  }

  /** By the chain rule the derivative of e^x is e^x times the seed: in
      every slot of exp(new(t)) the derivative equals the value. */
  lemma ExpChainOfVariable(fl: Float, t: real, n: nat)
    ensures ExpChain(fl, New(t, n)).x == ExpChain(fl, New(t, n)).dx
    ensures forall i :: 0 <= i < n ==> ExpChain(fl, New(t, n)).x[i] == fl.exp(t)
  {
    var d, e := New(t, n), ExpChain(fl, New(t, n));
    forall i | 0 <= i < n ensures e.x[i] == fl.exp(t) && e.dx[i] == fl.exp(t) {
      assert e.At(i) == Rules.ExpChain(fl, d.At(i));
    }
  }

  /** The `exp` loop as written: for an exponential that is one-to-one and
      has no fixed point at e^t (the real exponential is both), the
      derivative left in the slots of exp(new(t)) is e^(e^t), not the value
      e^t. */
  lemma ExpAsWrittenOfVariable(fl: Float, t: real, n: nat)
    requires SlotLaws.Injective(fl.exp) && fl.exp(t) != t && 0 < n
    ensures ExpAsWritten(fl, New(t, n)).x == ExpChain(fl, New(t, n)).x
    ensures forall i :: 0 <= i < n ==> ExpAsWritten(fl, New(t, n)).dx[i] == fl.exp(fl.exp(t))
    ensures ExpAsWritten(fl, New(t, n)) != ExpChain(fl, New(t, n))
  {
    var d, w, e := New(t, n), ExpAsWritten(fl, New(t, n)), ExpChain(fl, New(t, n));
    forall i | 0 <= i < n ensures w.x[i] == e.x[i] && w.dx[i] == fl.exp(fl.exp(t)) {
      assert d.At(i) == Rules.Slot(t, 1.0);
      assert w.At(i) == Rules.ExpAsWritten(fl, d.At(i));
      assert e.At(i) == Rules.ExpChain(fl, d.At(i));
    }
    assert w.x == e.x;
    SlotLaws.ExpAsWrittenAgreesIff(fl, d.At(0));
    assert w.At(0) == Rules.ExpAsWritten(fl, d.At(0));
    assert e.At(0) == Rules.ExpChain(fl, d.At(0));
  }

  /** A constant base whose powers are the exponential and whose natural
      logarithm is 1 (Euler's number) makes `c.pow(d)` the chain-rule
      exponential. */
  lemma ConstPowOfEIsExp(fl: Float, c: real, d: Dual)
    requires d.Valid()
    requires fl.ln(c) == 1.0 && forall y :: fl.powf(c, y) == fl.exp(y)
    ensures ConstPow(fl, c, d) == ExpChain(fl, d)
  {
    SlotwiseEqual(ConstPow(fl, c, d), ExpChain(fl, d));
  }
}
