/** Forward-mode differentiation, stated against textbook calculus.

    An `Expr` is a formula in one variable built from the operations that
    `Dual<F, N>` overloads. `Eval` gives its value at a point and `Deriv`
    its symbolic derivative by the textbook rules, so `Eval(Deriv(e), t)` is
    the reference derivative. `DualEval` runs the formula on dual numbers
    with the operators of `DualNumbers`, the way a caller of the library
    does, and the theorems below prove that, started from `Dual::new(t)`,
    every slot then carries the value of the formula at t and its
    derivative at t.

    Two operators are run in their corrected form, `Quotient` for `/` and
    `ExpChain` for `exp`: the operators as written compute something else
    (see `DualLaws.DivAgreesWithQuotientIff` and
    `DualLaws.ExpAsWrittenOfVariable`). */
module ForwardMode {
  import opened FloatOps
  import Rules
  import SlotLaws
  import D = DualNumbers

  /** The one-operand operations: `AddC(k)` is `d + k`, `CAdd(k)` is
      `k + d`, `MulC(k)` is `d * k`, `CMul(k)` is `k * d`, `PowC(k)` is
      `d.pow(k)`, `CPow(k)` is `k.pow(d)`, `Log(k)` is `d.log(k)`. `Root` is
      the host square root, which only occurs in derivatives. */
  datatype Unary =
    | Neg | AddC(k: real) | CAdd(k: real) | MulC(k: real) | CMul(k: real)
    | PowC(k: real) | CPow(k: real) | Exp | Ln | Log(k: real)
    | Sin | Cos | Tan | Asin | Acos | Atan | Root

  /** The two-operand operations `+`, `-`, `*` and `/`. */
  datatype Binary = Add | Sub | Mul | Div

  /** A formula in the variable `Var`. */
  datatype Expr =
    | Var
    | Const(c: real)
    | Un(op: Unary, a: Expr)
    | Bin(bop: Binary, a: Expr, b: Expr)

  /** A one-operand operation applied to a value. */
  function Apply1(fl: Float, op: Unary, x: real): real {
    match op
    case Neg => -x
    case AddC(k) => x + k
    case CAdd(k) => k + x
    case MulC(k) => x * k
    case CMul(k) => k * x
    case PowC(k) => fl.powf(x, k)
    case CPow(k) => fl.powf(k, x)
    case Exp => fl.exp(x)
    case Ln => fl.ln(x)
    case Log(k) => fl.log(x, k)
    case Sin => fl.sin(x)
    case Cos => fl.cos(x)
    case Tan => fl.tan(x)
    case Asin => fl.asin(x)
    case Acos => fl.acos(x)
    case Atan => fl.atan(x)
    case Root => fl.sqrt(x)
  }

  /** A two-operand operation applied to two values. A zero divisor gives
      0 here; every theorem below excludes it (`Defined`), so that value is
      never used. */
  function Apply2(op: Binary, x: real, y: real): real {
    match op
    case Add => x + y
    case Sub => x - y
    case Mul => x * y
    case Div => if y == 0.0 then 0.0 else x / y
  }

  /** The value of the formula at t. */
  function Eval(fl: Float, e: Expr, t: real): real
    decreases e
  {
    match e
    case Var => t
    case Const(c) => c
    case Un(op, a) => Apply1(fl, op, Eval(fl, a, t))
    case Bin(op, a, b) => Apply2(op, Eval(fl, a, t), Eval(fl, b, t))
  }

  /** The formula has a value at t: no divisor evaluates to zero. */
  predicate Defined(fl: Float, e: Expr, t: real)
    decreases e
  {
    match e
    case Var => true
    case Const(_) => true
    case Un(_, a) => Defined(fl, a, t)
    case Bin(op, a, b) =>
      Defined(fl, a, t) && Defined(fl, b, t) && (op == Div ==> Eval(fl, b, t) != 0.0)
  }

  /** The textbook derivative of `op(a)`, given the derivative `da` of a:
      the chain rule with d/dx x^k = k x^(k-1), d/dx k^x = ln(k) k^x,
      d/dx e^x = e^x, d/dx ln x = 1/x, d/dx log_k x = 1/(ln(k) x),
      d/dx sin x = cos x, d/dx cos x = -sin x, d/dx tan x = 1/cos^2 x,
      d/dx asin x = 1/sqrt(1 - x^2), d/dx acos x = -1/sqrt(1 - x^2),
      d/dx atan x = 1/(1 + x^2), d/dx sqrt x = 1/(2 sqrt x). */
  function DerivUnary(op: Unary, a: Expr, da: Expr): Expr {
    match op
    case Neg => Un(Neg, da)
    case AddC(_) => da
    case CAdd(_) => da
    case MulC(k) => Un(MulC(k), da)
    case CMul(k) => Un(CMul(k), da)
    case PowC(k) => Bin(Mul, Un(CMul(k), Un(PowC(k - 1.0), a)), da)
    case CPow(k) => Bin(Mul, Bin(Mul, Un(Ln, Const(k)), Un(CPow(k), a)), da)
    case Exp => Bin(Mul, Un(Exp, a), da)
    case Ln => Bin(Div, da, a)
    case Log(k) => Bin(Div, da, Bin(Mul, Un(Ln, Const(k)), a))
    case Sin => Bin(Mul, Un(Cos, a), da)
    case Cos => Bin(Mul, Un(Neg, Un(Sin, a)), da)
    case Tan => Bin(Div, da, Bin(Mul, Un(Cos, a), Un(Cos, a)))
    case Asin => Bin(Div, da, Un(Root, Bin(Sub, Const(1.0), Bin(Mul, a, a))))
    case Acos => Un(Neg, Bin(Div, da, Un(Root, Bin(Sub, Const(1.0), Bin(Mul, a, a)))))
    case Atan => Bin(Div, da, Bin(Add, Const(1.0), Bin(Mul, a, a)))
    case Root => Bin(Div, da, Un(CMul(2.0), Un(Root, a)))
  }

  /** The textbook derivative of `a op b`, given the derivatives of a and b:
      the sum, difference, product and quotient rules. */
  function DerivBinary(op: Binary, a: Expr, b: Expr, da: Expr, db: Expr): Expr {
    match op
    case Add => Bin(Add, da, db)
    case Sub => Bin(Sub, da, db)
    case Mul => Bin(Add, Bin(Mul, a, db), Bin(Mul, b, da))
    case Div => Bin(Div, Bin(Sub, Bin(Mul, b, da), Bin(Mul, a, db)), Bin(Mul, b, b))
  }

  /** The symbolic derivative of a formula. */
  function Deriv(e: Expr): Expr
    decreases e
  {
    match e
    case Var => Const(1.0)
    case Const(_) => Const(0.0)
    case Un(op, a) => DerivUnary(op, a, Deriv(a))
    case Bin(op, a, b) => DerivBinary(op, a, b, Deriv(a), Deriv(b))
  }

  /** The formula uses only operations of the library, so it can be run on
      dual numbers: no bare constant and no host square root. */
  predicate Traceable(e: Expr)
    decreases e
  {
    match e
    case Var => true
    case Const(_) => false
    case Un(op, a) => op != Root && Traceable(a)
    case Bin(_, a, b) => Traceable(a) && Traceable(b)
  }

  /** At x, the derivative rule of `op` does not divide by zero: `ln`,
      `log`, `tan`, `asin` and `acos` divide by x, ln(k) x, cos(x)^2 and
      sqrt(1 - x^2). */
  predicate UnaryDifferentiable(fl: Float, op: Unary, x: real) {
    match op
    case Ln => x != 0.0
    case Log(k) => fl.ln(k) * x != 0.0
    case Tan => fl.cos(x) != 0.0
    case Asin => Rules.UnitRoot(fl, x) != 0.0
    case Acos => Rules.UnitRoot(fl, x) != 0.0
    case _ => true
  }

  /** At t, no operation of the formula divides by zero. */
  predicate Differentiable(fl: Float, e: Expr, t: real)
    ensures Differentiable(fl, e, t) ==> Defined(fl, e, t)
    decreases e
  {
    match e
    case Var => true
    case Const(_) => true
    case Un(op, a) => Differentiable(fl, a, t) && UnaryDifferentiable(fl, op, Eval(fl, a, t))
    case Bin(op, a, b) =>
      Differentiable(fl, a, t) && Differentiable(fl, b, t) && (op == Div ==> Eval(fl, b, t) != 0.0)
  }

  // ---------------------------------------------------------------------
  // One slot

  /** The rule of the library for a one-operand operation on one slot, with
      `exp` in its corrected (chain-rule) form `Rules.ExpChain`; the value it
      carries is the operation applied to the value. */
  function UnarySlot(fl: Float, op: Unary, s: Rules.Slot): (r: Rules.Slot)
    requires op != Root && UnaryDifferentiable(fl, op, s.x)
    ensures r.x == Apply1(fl, op, s.x)
  {
    match op
    case Neg => Rules.Neg(s)
    case AddC(k) => Rules.AddConst(s, k)
    case CAdd(k) => Rules.ConstAdd(k, s)
    case MulC(k) => Rules.MulConst(s, k)
    case CMul(k) => Rules.ConstMul(k, s)
    case PowC(k) => Rules.PowConst(fl, s, k)
    case CPow(k) => Rules.ConstPow(fl, k, s)
    case Exp => Rules.ExpChain(fl, s)
    case Ln => Rules.Ln(fl, s)
    case Log(k) => Rules.Log(fl, s, k)
    case Sin => Rules.Sin(fl, s)
    case Cos => Rules.Cos(fl, s)
    case Tan => Rules.Tan(fl, s)
    case Asin => Rules.Asin(fl, s)
    case Acos => Rules.Acos(fl, s)
    case Atan => Rules.Atan(fl, s)
  }

  /** The rule of the library for a two-operand operation on one slot, with
      the quotient rule for `/`; the value is the operation applied to the
      values. */
  function BinarySlot(op: Binary, a: Rules.Slot, b: Rules.Slot): (r: Rules.Slot)
    requires op == Div ==> b.x != 0.0
    ensures r.x == Apply2(op, a.x, b.x)
  {
    match op
    case Add => Rules.Add(a, b)
    case Sub => Rules.Sub(a, b)
    case Mul => Rules.Mul(a, b)
    case Div => Rules.Quotient(a, b)
  }

  /** The formula run on one slot; the value it carries is the value of
      the formula. */
  function SlotEval(fl: Float, e: Expr, s: Rules.Slot): (r: Rules.Slot)
    requires Traceable(e) && Differentiable(fl, e, s.x)
    ensures r.x == Eval(fl, e, s.x)
    decreases e
  {
    match e
    case Var => s
    case Un(op, a) => UnarySlot(fl, op, SlotEval(fl, a, s))
    case Bin(op, a, b) => BinarySlot(op, SlotEval(fl, a, s), SlotEval(fl, b, s))
  }

  /** Slot s carries the value of a at t and the value of da at t. */
  predicate Carries(fl: Float, a: Expr, da: Expr, t: real, s: Rules.Slot) {
    Defined(fl, a, t) && Defined(fl, da, t) && s == Rules.Slot(Eval(fl, a, t), Eval(fl, da, t))
  }

  /** The rule of every one-operand operation, with `exp` in its corrected
      (chain-rule) form, is the chain rule: given a slot carrying the value
      of a and of its derivative da, the rule yields the textbook derivative
      of op(a). */
  lemma UnaryChainRule(fl: Float, op: Unary, a: Expr, da: Expr, t: real, s: Rules.Slot)
    requires op != Root && Carries(fl, a, da, t, s) && UnaryDifferentiable(fl, op, s.x)
    ensures Defined(fl, DerivUnary(op, a, da), t)
    ensures UnarySlot(fl, op, s).dx == Eval(fl, DerivUnary(op, a, da), t)
  {
    match op
    case Neg => LinearRule(fl, op, a, da, t, s);
    case AddC(_) => LinearRule(fl, op, a, da, t, s);
    case CAdd(_) => LinearRule(fl, op, a, da, t, s);
    case MulC(_) => LinearRule(fl, op, a, da, t, s);
    case CMul(_) => LinearRule(fl, op, a, da, t, s);
    case PowC(k) => PowCRule(fl, op, k, a, da, t, s);
    case CPow(k) => CPowRule(fl, op, k, a, da, t, s);
    case Exp => ExpRule(fl, op, a, da, t, s);
    case Ln => LnRule(fl, op, a, da, t, s);
    case Log(k) => LogRule(fl, op, k, a, da, t, s);
    case Sin => SinRule(fl, op, a, da, t, s);
    case Cos => CosRule(fl, op, a, da, t, s);
    case Tan => TanRule(fl, op, a, da, t, s);
    case Asin => ArcSineRule(fl, op, a, da, t, s);
    case Acos => ArcSineRule(fl, op, a, da, t, s);
    case Atan => AtanRule(fl, op, a, da, t, s);
  }

  /** `-d`, `d + k`, `k + d`, `d * k` and `k * d` act on the derivative as
      on a value, or leave it alone. */
  lemma LinearRule(fl: Float, op: Unary, a: Expr, da: Expr, t: real, s: Rules.Slot)
    requires op.Neg? || op.AddC? || op.CAdd? || op.MulC? || op.CMul?
    requires Carries(fl, a, da, t, s)
    ensures Defined(fl, DerivUnary(op, a, da), t)
    ensures UnarySlot(fl, op, s).dx == Eval(fl, DerivUnary(op, a, da), t)
  {
    EvalUn(fl, op, da, t);
  }

  /** d/dx x^k = k x^(k-1). */
  lemma PowCRule(fl: Float, op: Unary, k: real, a: Expr, da: Expr, t: real, s: Rules.Slot)
    requires op == PowC(k) && Carries(fl, a, da, t, s)
    ensures Defined(fl, DerivUnary(op, a, da), t)
    ensures UnarySlot(fl, op, s).dx == Eval(fl, DerivUnary(op, a, da), t)
  {
    var x, dx := Eval(fl, a, t), Eval(fl, da, t);
    PowCStep(fl, k, x, dx);
    EvalUn(fl, PowC(k - 1.0), a, t);
    assert Eval(fl, Un(PowC(k - 1.0), a), t) == Apply1(fl, PowC(k - 1.0), x);
    EvalUn(fl, CMul(k), Un(PowC(k - 1.0), a), t);
    assert Eval(fl, Un(CMul(k), Un(PowC(k - 1.0), a)), t)
        == Apply1(fl, CMul(k), Apply1(fl, PowC(k - 1.0), x));
    EvalBin(fl, Mul, Un(CMul(k), Un(PowC(k - 1.0), a)), da, t);
  }

  lemma PowCStep(fl: Float, k: real, x: real, dx: real)
    ensures Rules.PowConst(fl, Rules.Slot(x, dx), k).dx
         == Apply2(Mul, Apply1(fl, CMul(k), Apply1(fl, PowC(k - 1.0), x)), dx)
  {
  }

  /** d/dx k^x = ln(k) k^x. */
  lemma CPowRule(fl: Float, op: Unary, k: real, a: Expr, da: Expr, t: real, s: Rules.Slot)
    requires op == CPow(k) && Carries(fl, a, da, t, s)
    ensures Defined(fl, DerivUnary(op, a, da), t)
    ensures UnarySlot(fl, op, s).dx == Eval(fl, DerivUnary(op, a, da), t)
  {
    var x, dx := Eval(fl, a, t), Eval(fl, da, t);
    CPowStep(fl, k, x, dx);
    EvalUn(fl, Ln, Const(k), t);
    assert Eval(fl, Un(Ln, Const(k)), t) == Apply1(fl, Ln, k);
    EvalUn(fl, CPow(k), a, t);
    assert Eval(fl, Un(CPow(k), a), t) == Apply1(fl, CPow(k), x);
    EvalBin(fl, Mul, Un(Ln, Const(k)), Un(CPow(k), a), t);
    assert Eval(fl, Bin(Mul, Un(Ln, Const(k)), Un(CPow(k), a)), t)
        == Apply2(Mul, Apply1(fl, Ln, k), Apply1(fl, CPow(k), x));
    EvalBin(fl, Mul, Bin(Mul, Un(Ln, Const(k)), Un(CPow(k), a)), da, t);
  }

  lemma CPowStep(fl: Float, k: real, x: real, dx: real)
    ensures Rules.ConstPow(fl, k, Rules.Slot(x, dx)).dx
         == Apply2(Mul, Apply2(Mul, Apply1(fl, Ln, k), Apply1(fl, CPow(k), x)), dx)
  {
  }

  /** d/dx e^x = e^x. */
  lemma ExpRule(fl: Float, op: Unary, a: Expr, da: Expr, t: real, s: Rules.Slot)
    requires op == Exp && Carries(fl, a, da, t, s)
    ensures Defined(fl, DerivUnary(op, a, da), t)
    ensures UnarySlot(fl, op, s).dx == Eval(fl, DerivUnary(op, a, da), t)
  {
    EvalUn(fl, Exp, a, t);
    EvalBin(fl, Mul, Un(Exp, a), da, t);
  }

  /** d/dx sin x = cos x. */
  lemma SinRule(fl: Float, op: Unary, a: Expr, da: Expr, t: real, s: Rules.Slot)
    requires op == Sin && Carries(fl, a, da, t, s)
    ensures Defined(fl, DerivUnary(op, a, da), t)
    ensures UnarySlot(fl, op, s).dx == Eval(fl, DerivUnary(op, a, da), t)
  {
    EvalUn(fl, Cos, a, t);
    EvalBin(fl, Mul, Un(Cos, a), da, t);
  }

  /** d/dx cos x = -sin x. */
  lemma CosRule(fl: Float, op: Unary, a: Expr, da: Expr, t: real, s: Rules.Slot)
    requires op == Cos && Carries(fl, a, da, t, s)
    ensures Defined(fl, DerivUnary(op, a, da), t)
    ensures UnarySlot(fl, op, s).dx == Eval(fl, DerivUnary(op, a, da), t)
  {
    EvalUn(fl, Sin, a, t);
    EvalUn(fl, Neg, Un(Sin, a), t);
    EvalBin(fl, Mul, Un(Neg, Un(Sin, a)), da, t);
  }

  /** d/dx ln x = 1/x. */
  lemma LnRule(fl: Float, op: Unary, a: Expr, da: Expr, t: real, s: Rules.Slot)
    requires op == Ln && Carries(fl, a, da, t, s) && s.x != 0.0
    ensures Defined(fl, DerivUnary(op, a, da), t)
    ensures UnarySlot(fl, op, s).dx == Eval(fl, DerivUnary(op, a, da), t)
  {
    LnStep(fl, Eval(fl, a, t), Eval(fl, da, t));
    EvalBin(fl, Div, da, a, t);
  }

  lemma LnStep(fl: Float, x: real, dx: real)
    requires x != 0.0
    ensures Rules.Ln(fl, Rules.Slot(x, dx)).dx == Apply2(Div, dx, x)
  {
    PowIInverse(x);
  }

  /** d/dx log_k x = 1/(ln(k) x). */
  lemma LogRule(fl: Float, op: Unary, k: real, a: Expr, da: Expr, t: real, s: Rules.Slot)
    requires op == Log(k) && Carries(fl, a, da, t, s) && fl.ln(k) * s.x != 0.0
    ensures Defined(fl, DerivUnary(op, a, da), t)
    ensures UnarySlot(fl, op, s).dx == Eval(fl, DerivUnary(op, a, da), t)
  {
    LogStep(fl, k, Eval(fl, a, t), Eval(fl, da, t));
    EvalUn(fl, Ln, Const(k), t);
    EvalBin(fl, Mul, Un(Ln, Const(k)), a, t);
    EvalBin(fl, Div, da, Bin(Mul, Un(Ln, Const(k)), a), t);
  }

  lemma LogStep(fl: Float, k: real, x: real, dx: real)
    requires fl.ln(k) * x != 0.0
    ensures Apply2(Mul, Apply1(fl, Ln, k), x) != 0.0
    ensures Rules.Log(fl, Rules.Slot(x, dx), k).dx == Apply2(Div, dx, Apply2(Mul, Apply1(fl, Ln, k), x))
  {
    PowIInverse(fl.ln(k) * x);
  }

  /** d/dx tan x = 1/cos^2 x. */
  lemma TanRule(fl: Float, op: Unary, a: Expr, da: Expr, t: real, s: Rules.Slot)
    requires op == Tan && Carries(fl, a, da, t, s) && fl.cos(s.x) != 0.0
    ensures Defined(fl, DerivUnary(op, a, da), t)
    ensures UnarySlot(fl, op, s).dx == Eval(fl, DerivUnary(op, a, da), t)
  {
    TanStep(fl, Eval(fl, a, t), Eval(fl, da, t));
    EvalUn(fl, Cos, a, t);
    EvalBin(fl, Mul, Un(Cos, a), Un(Cos, a), t);
    EvalBin(fl, Div, da, Bin(Mul, Un(Cos, a), Un(Cos, a)), t);
  }

  lemma TanStep(fl: Float, x: real, dx: real)
    requires fl.cos(x) != 0.0
    ensures Apply2(Mul, Apply1(fl, Cos, x), Apply1(fl, Cos, x)) != 0.0
    ensures Rules.Tan(fl, Rules.Slot(x, dx)).dx
         == Apply2(Div, dx, Apply2(Mul, Apply1(fl, Cos, x), Apply1(fl, Cos, x)))
  {
    var c := fl.cos(x);
    MulNonZero(c, c);
    PowIInverseSquare(c);
  }

  /** d/dx asin x = 1/sqrt(1 - x^2) and d/dx acos x = -1/sqrt(1 - x^2). */
  lemma ArcSineRule(fl: Float, op: Unary, a: Expr, da: Expr, t: real, s: Rules.Slot)
    requires (op == Asin || op == Acos) && Carries(fl, a, da, t, s) && Rules.UnitRoot(fl, s.x) != 0.0
    ensures Defined(fl, DerivUnary(op, a, da), t)
    ensures UnarySlot(fl, op, s).dx == Eval(fl, DerivUnary(op, a, da), t)
  {
    var q := Un(Root, Bin(Sub, Const(1.0), Bin(Mul, a, a)));
    ArcSineStep(fl, Eval(fl, a, t), Eval(fl, da, t));
    EvalBin(fl, Mul, a, a, t);
    EvalBin(fl, Sub, Const(1.0), Bin(Mul, a, a), t);
    EvalUn(fl, Root, Bin(Sub, Const(1.0), Bin(Mul, a, a)), t);
    EvalBin(fl, Div, da, q, t);
    EvalUn(fl, Neg, Bin(Div, da, q), t);
  }

  lemma ArcSineStep(fl: Float, x: real, dx: real)
    requires Rules.UnitRoot(fl, x) != 0.0
    ensures Apply1(fl, Root, Apply2(Sub, 1.0, Apply2(Mul, x, x))) == Rules.UnitRoot(fl, x)
    ensures Rules.Asin(fl, Rules.Slot(x, dx)).dx
         == Apply2(Div, dx, Apply1(fl, Root, Apply2(Sub, 1.0, Apply2(Mul, x, x))))
    ensures Rules.Acos(fl, Rules.Slot(x, dx)).dx
         == Apply1(fl, Neg, Apply2(Div, dx, Apply1(fl, Root, Apply2(Sub, 1.0, Apply2(Mul, x, x)))))
  {
    PowISquare(x);
    PowIInverse(Rules.UnitRoot(fl, x));
  }

  /** d/dx atan x = 1/(1 + x^2). */
  lemma AtanRule(fl: Float, op: Unary, a: Expr, da: Expr, t: real, s: Rules.Slot)
    requires op == Atan && Carries(fl, a, da, t, s)
    ensures Defined(fl, DerivUnary(op, a, da), t)
    ensures UnarySlot(fl, op, s).dx == Eval(fl, DerivUnary(op, a, da), t)
  {
    AtanStep(fl, Eval(fl, a, t), Eval(fl, da, t));
    EvalBin(fl, Mul, a, a, t);
    EvalBin(fl, Add, Const(1.0), Bin(Mul, a, a), t);
    EvalBin(fl, Div, da, Bin(Add, Const(1.0), Bin(Mul, a, a)), t);
  }

  lemma AtanStep(fl: Float, x: real, dx: real)
    ensures Apply2(Add, 1.0, Apply2(Mul, x, x)) != 0.0
    ensures Rules.Atan(fl, Rules.Slot(x, dx)).dx == Apply2(Div, dx, Apply2(Add, 1.0, Apply2(Mul, x, x)))
  {
    PowISquare(x);
    PowIInverse(1.0 + x * x);
  }

  /** The rules of the library for `+`, `-`, `*` and (corrected) `/` are
      the sum, difference, product and quotient rules. */
  lemma BinaryChainRule(fl: Float, op: Binary, a: Expr, b: Expr, da: Expr, db: Expr, t: real,
                        sa: Rules.Slot, sb: Rules.Slot)
    requires Carries(fl, a, da, t, sa) && Carries(fl, b, db, t, sb) && (op == Div ==> sb.x != 0.0)
    ensures Defined(fl, DerivBinary(op, a, b, da, db), t)
    ensures BinarySlot(op, sa, sb).dx == Eval(fl, DerivBinary(op, a, b, da, db), t)
  {
    match op
    case Add => EvalBin(fl, Add, da, db, t);
    case Sub => EvalBin(fl, Sub, da, db, t);
    case Mul => ProductRule(fl, op, a, b, da, db, t, sa, sb);
    case Div => QuotientRule(fl, op, a, b, da, db, t, sa, sb);
  }

  /** (a b)' = a b' + b a'. */
  lemma ProductRule(fl: Float, op: Binary, a: Expr, b: Expr, da: Expr, db: Expr, t: real,
                    sa: Rules.Slot, sb: Rules.Slot)
    requires op == Mul && Carries(fl, a, da, t, sa) && Carries(fl, b, db, t, sb)
    ensures Defined(fl, DerivBinary(op, a, b, da, db), t)
    ensures BinarySlot(op, sa, sb).dx == Eval(fl, DerivBinary(op, a, b, da, db), t)
  {
    var u, v, du, dv := Eval(fl, a, t), Eval(fl, b, t), Eval(fl, da, t), Eval(fl, db, t);
    ProductStep(u, v, du, dv);
    assert BinarySlot(op, sa, sb).dx == Apply2(Add, Apply2(Mul, u, dv), Apply2(Mul, v, du));
    EvalBin(fl, Mul, a, db, t);
    EvalBin(fl, Mul, b, da, t);
    EvalBin(fl, Add, Bin(Mul, a, db), Bin(Mul, b, da), t);
    assert Eval(fl, DerivBinary(op, a, b, da, db), t)
        == Apply2(Add, Eval(fl, Bin(Mul, a, db), t), Eval(fl, Bin(Mul, b, da), t));
  }

  lemma ProductStep(u: real, v: real, du: real, dv: real)
    ensures Rules.Mul(Rules.Slot(u, du), Rules.Slot(v, dv)).dx
         == Apply2(Add, Apply2(Mul, u, dv), Apply2(Mul, v, du))
  {
  }

  /** (a / b)' = (b a' - a b') / b^2. */
  lemma QuotientRule(fl: Float, op: Binary, a: Expr, b: Expr, da: Expr, db: Expr, t: real,
                     sa: Rules.Slot, sb: Rules.Slot)
    requires op == Div && Carries(fl, a, da, t, sa) && Carries(fl, b, db, t, sb) && sb.x != 0.0
    ensures Defined(fl, DerivBinary(op, a, b, da, db), t)
    ensures BinarySlot(op, sa, sb).dx == Eval(fl, DerivBinary(op, a, b, da, db), t)
  {
    QuotientStep(Eval(fl, a, t), Eval(fl, b, t), Eval(fl, da, t), Eval(fl, db, t));
    EvalBin(fl, Mul, b, da, t);
    EvalBin(fl, Mul, a, db, t);
    EvalBin(fl, Sub, Bin(Mul, b, da), Bin(Mul, a, db), t);
    EvalBin(fl, Mul, b, b, t);
    EvalBin(fl, Div, Bin(Sub, Bin(Mul, b, da), Bin(Mul, a, db)), Bin(Mul, b, b), t);
  }

  lemma QuotientStep(u: real, v: real, du: real, dv: real)
    requires v != 0.0
    ensures Apply2(Mul, v, v) != 0.0
    ensures Rules.Quotient(Rules.Slot(u, du), Rules.Slot(v, dv)).dx
         == Apply2(Div, Apply2(Sub, Apply2(Mul, v, du), Apply2(Mul, u, dv)), Apply2(Mul, v, v))
  {
    MulNonZero(v, v);
  }

  /** A product of non-zero values is not zero. */
  lemma MulNonZero(v: real, w: real)
    requires v != 0.0 && w != 0.0
    ensures Apply2(Mul, v, w) != 0.0
  {
    NonZeroProduct(v, w);
  }

  /** One step of evaluation of a one-operand formula. */
  lemma EvalUn(fl: Float, op: Unary, a: Expr, t: real)
    requires Defined(fl, a, t)
    ensures Defined(fl, Un(op, a), t) && Eval(fl, Un(op, a), t) == Apply1(fl, op, Eval(fl, a, t))
  {
  }

  /** One step of evaluation of a two-operand formula. */
  lemma EvalBin(fl: Float, op: Binary, a: Expr, b: Expr, t: real)
    requires Defined(fl, a, t) && Defined(fl, b, t) && (op == Div ==> Eval(fl, b, t) != 0.0)
    ensures Defined(fl, Bin(op, a, b), t)
    ensures Eval(fl, Bin(op, a, b), t) == Apply2(op, Eval(fl, a, t), Eval(fl, b, t))
  {
  }

  /** Forward mode is correct on one slot: run on the slot (t, 1) that
      `new` seeds, a formula yields its value at t and its textbook
      derivative at t. */
  lemma {:induction false} ForwardModeCorrect(fl: Float, e: Expr, t: real)
    requires Traceable(e) && Differentiable(fl, e, t)
    ensures Carries(fl, e, Deriv(e), t, SlotEval(fl, e, Rules.Slot(t, 1.0)))
    decreases e
  {
    var s := Rules.Slot(t, 1.0);
    match e
    case Var =>
    case Un(op, a) =>
      ForwardModeCorrect(fl, a, t);
      var sa := SlotEval(fl, a, s);
      UnaryChainRule(fl, op, a, Deriv(a), t, sa);
      assert SlotEval(fl, e, s) == UnarySlot(fl, op, sa);
    case Bin(op, a, b) =>
      ForwardModeCorrect(fl, a, t);
      ForwardModeCorrect(fl, b, t);
      var sa, sb := SlotEval(fl, a, s), SlotEval(fl, b, s);
      BinaryChainRule(fl, op, a, b, Deriv(a), Deriv(b), t, sa, sb);
      assert SlotEval(fl, e, s) == BinarySlot(op, sa, sb);
  }

  // ---------------------------------------------------------------------
  // Dual numbers

  /** A one-operand operation run on a dual number with the operators of
      the library (the chain-rule `exp`). */
  function UnaryDual(fl: Float, op: Unary, d: D.Dual): (r: D.Dual)
    requires op != Root && d.Valid()
    requires forall i :: 0 <= i < |d.x| ==> UnaryDifferentiable(fl, op, d.x[i])
    ensures r.Valid() && r.Width() == d.Width()
    ensures forall i :: 0 <= i < d.Width() ==> r.At(i) == UnarySlot(fl, op, d.At(i))
  {
    match op
    case Neg => D.Neg(d)
    case AddC(k) => D.AddConst(d, k)
    case CAdd(k) => D.ConstAdd(k, d)
    case MulC(k) => D.MulConst(d, k)
    case CMul(k) => D.ConstMul(k, d)
    case PowC(k) => D.PowConst(fl, d, k)
    case CPow(k) => D.ConstPow(fl, k, d)
    case Exp => D.ExpChain(fl, d)
    case Ln => UnaryDomain(fl, op, d); D.Ln(fl, d)
    case Log(k) => LogDomain(fl, k, d); D.Log(fl, d, k)
    case Sin => D.Sin(fl, d)
    case Cos => D.Cos(fl, d)
    case Tan => UnaryDomain(fl, op, d); D.Tan(fl, d)
    case Asin => UnaryDomain(fl, op, d); D.Asin(fl, d)
    case Acos => UnaryDomain(fl, op, d); D.Acos(fl, d)
    case Atan => D.Atan(fl, d)
  }

  /** The domain conditions of the operators of the library, slot by slot. */
  lemma UnaryDomain(fl: Float, op: Unary, d: D.Dual)
    requires d.Valid() && forall i :: 0 <= i < |d.x| ==> UnaryDifferentiable(fl, op, d.x[i])
    ensures op == Ln ==> D.NonZero(d)
    ensures op == Tan ==> forall i :: 0 <= i < |d.x| ==> fl.cos(d.x[i]) != 0.0
    ensures op == Asin || op == Acos ==> D.InsideUnitInterval(fl, d)
  {
    forall i | 0 <= i < |d.x|
      ensures op == Ln ==> d.x[i] != 0.0
      ensures op == Tan ==> fl.cos(d.x[i]) != 0.0
      ensures op == Asin || op == Acos ==> Rules.UnitRoot(fl, d.x[i]) != 0.0
    {
      assert 0 <= i < d.Width();
      assert UnaryDifferentiable(fl, op, d.x[i]);
    }
  }

  lemma LogDomain(fl: Float, k: real, d: D.Dual)
    requires forall i :: 0 <= i < |d.x| ==> UnaryDifferentiable(fl, Log(k), d.x[i])
    ensures forall i :: 0 <= i < |d.x| ==> fl.ln(k) * d.x[i] != 0.0
  {
    forall i | 0 <= i < |d.x| ensures fl.ln(k) * d.x[i] != 0.0 {
      assert UnaryDifferentiable(fl, Log(k), d.x[i]);
    }
  }

  /** A two-operand operation run on dual numbers with the operators of
      the library (the quotient rule for `/`). */
  function BinaryDual(op: Binary, a: D.Dual, b: D.Dual): (r: D.Dual)
    requires D.SameWidth(a, b) && (op == Div ==> D.NonZero(b))
    ensures r.Valid() && r.Width() == a.Width()
    ensures forall i :: 0 <= i < a.Width() ==> r.At(i) == BinarySlot(op, a.At(i), b.At(i))
  {
    match op
    case Add => D.Add(a, b)
    case Sub => D.Sub(a, b)
    case Mul => D.Mul(a, b)
    case Div => D.Quotient(a, b)
  }

  /** The formula run on a dual number, the way a caller of the library
      writes it: every slot is the formula run on that slot alone. */
  function DualEval(fl: Float, e: Expr, d: D.Dual): (r: D.Dual)
    requires d.Valid() && Traceable(e)
    requires forall i :: 0 <= i < d.Width() ==> Differentiable(fl, e, d.x[i])
    ensures r.Valid() && r.Width() == d.Width()
    ensures forall i :: 0 <= i < d.Width() ==> r.At(i) == SlotEval(fl, e, d.At(i))
    decreases e
  {
    match e
    case Var => d
    case Un(op, a) =>
      assert forall i :: 0 <= i < d.Width() ==> Differentiable(fl, e, d.x[i]) ==>
        Differentiable(fl, a, d.x[i]) && UnaryDifferentiable(fl, op, Eval(fl, a, d.x[i]));
      var da := DualEval(fl, a, d);
      assert forall i :: 0 <= i < d.Width() ==> da.x[i] == da.At(i).x == Eval(fl, a, d.At(i).x);
      UnaryDual(fl, op, da)
    case Bin(op, a, b) =>
      assert forall i :: 0 <= i < d.Width() ==> Differentiable(fl, e, d.x[i]) ==>
        Differentiable(fl, a, d.x[i]) && Differentiable(fl, b, d.x[i]) &&
        (op == Div ==> Eval(fl, b, d.x[i]) != 0.0);
      var da, db := DualEval(fl, a, d), DualEval(fl, b, d);
      assert forall i :: 0 <= i < d.Width() ==> db.x[i] == db.At(i).x == Eval(fl, b, d.At(i).x);
      BinaryDual(op, da, db)
  }

  /** Forward mode is correct: a formula run on `Dual::new(t)` carries in
      every slot the value of the formula at t and its textbook derivative
      at t. */
  lemma ForwardModeOnNew(fl: Float, e: Expr, t: real, n: nat)
    requires Traceable(e) && Differentiable(fl, e, t)
    ensures Defined(fl, e, t) && Defined(fl, Deriv(e), t)
    ensures forall i :: 0 <= i < n ==>
      DualEval(fl, e, D.New(t, n)).x[i] == Eval(fl, e, t) &&
      DualEval(fl, e, D.New(t, n)).dx[i] == Eval(fl, Deriv(e), t)
  {
    var d := D.New(t, n);
    var r := DualEval(fl, e, d);
    ForwardModeCorrect(fl, e, t);
    forall i | 0 <= i < n
      ensures r.x[i] == Eval(fl, e, t) && r.dx[i] == Eval(fl, Deriv(e), t)
    {
      assert d.At(i) == Rules.Slot(t, 1.0);
      assert r.At(i) == SlotEval(fl, e, Rules.Slot(t, 1.0));
    }
  }
}
