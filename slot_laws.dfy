/** Laws of the single-slot rules: how the rules relate to each other, and
    where the division and the `exp` loop of the source depart from the
    quotient rule and the chain rule. */
module SlotLaws {
  import opened FloatOps
  import opened Rules

  /** The product rule is associative. */
  lemma MulAssociates(a: Slot, b: Slot, c: Slot)
    ensures Mul(Mul(a, b), c) == Mul(a, Mul(b, c))
  {
    var u, v, w, u', v', w' := a.x, b.x, c.x, a.dx, b.dx, c.dx;
    calc {
      Mul(Mul(a, b), c).dx;
      (u * v) * w' + w * (u * v' + v * u');
      u * (v * w' + w * v') + (v * w) * u';
      Mul(a, Mul(b, c)).dx;
    }
  }

  /** The product rule distributes over the sum rule. */
  lemma MulDistributesOverAdd(a: Slot, b: Slot, c: Slot)
    ensures Mul(a, Add(b, c)) == Add(Mul(a, b), Mul(a, c))
  {
    var u, v, w, u', v', w' := a.x, b.x, c.x, a.dx, b.dx, c.dx;
    var l, r := Mul(a, Add(b, c)), Add(Mul(a, b), Mul(a, c));
    assert l == Slot(u * (v + w), u * (v' + w') + (v + w) * u');
    assert r == Slot(u * v + u * w, (u * v' + v * u') + (u * w' + w * u'));
    Distributes(u, v, w, u', v', w');
  }

  lemma Distributes(u: real, v: real, w: real, u': real, v': real, w': real)
    ensures u * (v + w) == u * v + u * w
    ensures u * (v' + w') + (v + w) * u' == (u * v' + v * u') + (u * w' + w * u')
  {
  }

  /** The quotient rule undoes the product rule: (a / b) * b == a. */
  lemma QuotientInvertsProduct(a: Slot, b: Slot)
    requires b.x != 0.0
    ensures Mul(Quotient(a, b), b) == a
  {
    var q := Quotient(a, b);
    var u, v, u', v' := a.x, b.x, a.dx, b.dx;
    assert q.x * v == u;
    assert q.dx * (v * v) == v * u' - u * v';
    assert (q.dx * v) * v == (u' - q.x * v') * v;
    assert q.x * v' + v * q.dx == u';
  }

  /** The division as written agrees with the quotient rule exactly when the
      cross term a.x * b.dx is zero; the two values always agree. */
  lemma DivAgreesWithQuotientIff(a: Slot, b: Slot)
    requires b.x != 0.0
    ensures Div(a, b).x == Quotient(a, b).x
    ensures Div(a, b).dx == Quotient(a, b).dx <==> a.x * b.dx == 0.0
  {
    NonZeroProduct(b.x, b.x);
    var p, q := Div(a, b).dx, Quotient(a, b).dx;
    assert p * (b.x * b.x) == a.x * b.dx + b.x * a.dx;
    assert q * (b.x * b.x) == b.x * a.dx - a.x * b.dx;
    CrossTerms(a.x, b.x, a.dx, b.dx, p, q);
  }

  lemma CrossTerms(u: real, v: real, u': real, v': real, p: real, q: real)
    requires v != 0.0
    requires p * (v * v) == u * v' + v * u'
    requires q * (v * v) == v * u' - u * v'
    ensures p == q ==> u * v' == 0.0
    ensures u * v' == 0.0 ==> p == q
  {
    if u * v' == 0.0 {
      assert p * (v * v) == v * u';
      assert q * (v * v) == v * u';
      CancelSquare(p, q, v);
    }
  }

  /** A non-zero square factor cancels. */
  lemma CancelSquare(p: real, q: real, v: real)
    requires v != 0.0
    ensures p * (v * v) == q * (v * v) <==> p == q
  {
    NonZeroProduct(v, v);
    if p * (v * v) == q * (v * v) {
      assert (p - q) * (v * v) == 0.0;
    }
  }

  /** The derivative of log_base(x) is that of ln(x) divided by ln(base). */
  lemma LogIsScaledLn(fl: Float, s: Slot, base: real)
    requires s.x != 0.0 && fl.ln(base) != 0.0
    ensures fl.ln(base) * s.x != 0.0
    ensures Log(fl, s, base).dx * fl.ln(base) == Ln(fl, s).dx
  {
    var v, b := s.x, fl.ln(base);
    PowIInverse(b * v);
    PowIInverse(v);
    var p, q := PowI(b * v, -1), PowI(v, -1);
    assert p * (b * v) == 1.0 && q * v == 1.0;
    assert (p * b) * v == q * v;
    assert p * b == q;
  }

  /** The derivative of sin is the value of cos times x', and that of cos is
      minus the value of sin times x'. */
  lemma SinCosDerivatives(fl: Float, s: Slot)
    ensures Sin(fl, s).dx == Cos(fl, s).x * s.dx
    ensures Cos(fl, s).dx == -Sin(fl, s).x * s.dx
  {
  }

  /** The derivative of tan times the square of cos is x'. */
  lemma TanDerivative(fl: Float, s: Slot)
    requires fl.cos(s.x) != 0.0
    ensures Tan(fl, s).dx * (Cos(fl, s).x * Cos(fl, s).x) == s.dx
  {
    var c := fl.cos(s.x);
    PowIInverseSquare(c);
    assert c * c != 0.0;
    assert PowI(c, -2) * (c * c) == 1.0;
  }

  /** The derivative of atan times 1 + x^2 is x'. */
  lemma AtanDerivative(fl: Float, s: Slot)
    ensures Atan(fl, s).dx * (1.0 + s.x * s.x) == s.dx
  {
    PowISquare(s.x);
    PowIInverse(1.0 + s.x * s.x);
  }

  /** `acos` has the negated derivative of `asin` and the same domain. */
  lemma AcosMirrorsAsin(fl: Float, s: Slot)
    requires UnitRoot(fl, s.x) != 0.0
    ensures Acos(fl, s).dx == -Asin(fl, s).dx
  {
  }

  /** By the chain rule the exponential is its own derivative: the new
      derivative is the new value times x'. */
  lemma ExpChainIsOwnDerivative(fl: Float, s: Slot)
    ensures ExpChain(fl, s).dx == ExpChain(fl, s).x * s.dx
  {
  }

  /** The exponential, like any exponential, is one-to-one. */
  ghost predicate Injective(f: real -> real) {
    forall a, b :: f(a) == f(b) ==> a == b
  }

  /** For a one-to-one exponential, one iteration of the `exp` loop agrees
      with the chain rule only when x' is 0 or x is a fixed point of the
      exponential (the real exponential has none). */
  lemma ExpAsWrittenAgreesIff(fl: Float, s: Slot)
    requires Injective(fl.exp)
    ensures ExpAsWritten(fl, s).x == ExpChain(fl, s).x
    ensures ExpAsWritten(fl, s).dx == ExpChain(fl, s).dx <==> s.dx == 0.0 || fl.exp(s.x) == s.x
  {
    var e := fl.exp(s.x);
    if fl.exp(e) * s.dx == e * s.dx && s.dx != 0.0 {
      assert fl.exp(e) == e;
      assert fl.exp(e) == fl.exp(s.x);
    }
  }
}
