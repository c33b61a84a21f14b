/** The differentiation rules of src/lib.rs for one slot.

    Every operator of `Dual<F, N>` computes slot i of its result from slot i
    of its operands alone. A `Slot` is one such pair (value, derivative),
    and each function below is the rule an operator applies to it: the
    expression the source writes in the `x:` and `dx:` fields of the struct
    it builds. Two functions are not the source's expressions but their
    corrections: `Quotient` (the quotient rule, for `Div`) and `ExpChain`
    (the chain rule, for the `exp` loop modelled by `ExpAsWritten`).
    `DualNumbers` lifts these rules to all N slots. */
module Rules {
  import opened FloatOps

  /** One slot of a dual number: the value and its derivative. */
  datatype Slot = Slot(x: real, dx: real)

  /** `-d`: the additive inverse of d. */
  function Neg(s: Slot): (r: Slot)
    ensures Add(s, r) == Slot(0.0, 0.0)
  {
    Slot(-s.x, -s.dx)
  }

  /** `a + b`: the sum rule. Subtracting b undoes it, and adding a constant
      (a slot with derivative 0) is `AddConst`. */
  function Add(a: Slot, b: Slot): (r: Slot)
    ensures Sub(r, b) == a
    ensures b.dx == 0.0 ==> r == AddConst(a, b.x)
  {
    Slot(a.x + b.x, a.dx + b.dx)
  }

  /** `a - b`: the difference rule; adding b back gives a. */
  function Sub(a: Slot, b: Slot): (r: Slot)
    ensures Slot(r.x + b.x, r.dx + b.dx) == a
  {
    Slot(a.x - b.x, a.dx - b.dx)
  }

  /** `a * b`: the product rule. A constant right factor (a slot with
      derivative 0) scales value and derivative alike, as `MulConst` does. */
  function Mul(a: Slot, b: Slot): (r: Slot)
    ensures b.dx == 0.0 ==> r == MulConst(a, b.x)
  {
    Slot(a.x * b.x, a.x * b.dx + b.x * a.dx)
  }

  /** `a / b` as the source computes it: the derivative adds the two cross
      terms where the quotient rule subtracts them. */
  function Div(a: Slot, b: Slot): (r: Slot)
    requires b.x != 0.0
    ensures r.x * b.x == a.x
    ensures b.dx == 0.0 ==> r.dx * b.x == a.dx
  {
    Slot(a.x / b.x, (a.x * b.dx + b.x * a.dx) / (b.x * b.x))
  }

  /** Division by the quotient rule, (a' b - a b') / b^2. */
  function Quotient(a: Slot, b: Slot): (r: Slot)
    requires b.x != 0.0
    ensures r.x * b.x == a.x
    ensures b.dx == 0.0 ==> r.dx * b.x == a.dx
    ensures a.dx == 0.0 && a.x == 1.0 ==> r.dx * (b.x * b.x) == -b.dx
  {
    Slot(a.x / b.x, (b.x * a.dx - a.x * b.dx) / (b.x * b.x))
  }

  /** `d + c` for a constant c: the value moves by c, the derivative stays. */
  function AddConst(s: Slot, c: real): (r: Slot)
    ensures r.x - s.x == c && r.dx == s.dx
  {
    Slot(s.x + c, s.dx)
  }

  /** `c + d` for a constant c (the source writes `rhs.x + self`). */
  function ConstAdd(c: real, s: Slot): (r: Slot)
    ensures r == AddConst(s, c)
  {
    Slot(s.x + c, s.dx)
  }

  /** `d * c` for a constant c: the same as `c * d`. */
  function MulConst(s: Slot, c: real): (r: Slot)
    ensures r == ConstMul(c, s)
  {
    Slot(s.x * c, s.dx * c)
  }

  /** `c * d` for a constant c: the factor 1 changes nothing and the factor
      0 gives the zero constant. */
  function ConstMul(c: real, s: Slot): (r: Slot)
    ensures c == 1.0 ==> r == s
    ensures c == 0.0 ==> r == Slot(0.0, 0.0)
  {
    Slot(c * s.x, c * s.dx)
  }

  /** `d.pow(n)`: the power rule n x^(n-1) x'. */
  function PowConst(fl: Float, s: Slot, n: real): (r: Slot)
    ensures n == 0.0 ==> r.dx == 0.0
    ensures fl.powf(s.x, n - 1.0) * s.x == fl.powf(s.x, n) ==> r.dx * s.x == n * r.x * s.dx
  {
    Slot(fl.powf(s.x, n), n * fl.powf(s.x, n - 1.0) * s.dx)
  }

  /** `c.pow(d)` for a constant base: ln(c) c^x x'. */
  function ConstPow(fl: Float, c: real, s: Slot): (r: Slot)
    ensures r.dx == fl.ln(c) * r.x * s.dx
  {
    Slot(fl.powf(c, s.x), fl.ln(c) * fl.powf(c, s.x) * s.dx)
  }

  /** `d.exp()` by the chain rule: e^x x'. */
  function ExpChain(fl: Float, s: Slot): (r: Slot)
    ensures r.dx == r.x * s.dx
  {
    Slot(fl.exp(s.x), fl.exp(s.x) * s.dx)
  }

  /** One iteration of the source's `exp` loop: x is overwritten with e^x
      first, and the derivative is then computed from the overwritten x. */
  function ExpAsWritten(fl: Float, s: Slot): (r: Slot)
    ensures r.x == ExpChain(fl, s).x
    ensures r.dx == fl.exp(r.x) * s.dx
  {
    var x := fl.exp(s.x);
    Slot(x, fl.exp(x) * s.dx)
  }

  /** `d.ln()`: x^-1 x'. */
  function Ln(fl: Float, s: Slot): (r: Slot)
    requires s.x != 0.0
    ensures r.dx * s.x == s.dx
  {
    PowIInverse(s.x);
    Slot(fl.ln(s.x), PowI(s.x, -1) * s.dx)
  }

  /** `d.log(base)`: (ln(base) x)^-1 x'. */
  function Log(fl: Float, s: Slot, base: real): (r: Slot)
    requires fl.ln(base) * s.x != 0.0
    ensures r.dx * (fl.ln(base) * s.x) == s.dx
  {
    PowIInverse(fl.ln(base) * s.x);
    Slot(fl.log(s.x, base), PowI(fl.ln(base) * s.x, -1) * s.dx)
  }

  /** `d.sin()`: cos(x) x'. */
  function Sin(fl: Float, s: Slot): (r: Slot)
    ensures r.dx == Cos(fl, s).x * s.dx
  {
    Slot(fl.sin(s.x), fl.cos(s.x) * s.dx)
  }

  /** `d.cos()`: -sin(x) x'. */
  function Cos(fl: Float, s: Slot): (r: Slot)
    ensures r.dx == -(fl.sin(s.x) * s.dx)
  {
    Slot(fl.cos(s.x), -fl.sin(s.x) * s.dx)
  }

  /** `d.tan()`: cos(x)^-2 x'. */
  function Tan(fl: Float, s: Slot): (r: Slot)
    requires fl.cos(s.x) != 0.0
    ensures r.dx * (fl.cos(s.x) * fl.cos(s.x)) == s.dx
  {
    PowIInverseSquare(fl.cos(s.x));
    Slot(fl.tan(s.x), PowI(fl.cos(s.x), -2) * s.dx)
  }

  /** The value `asin` and `acos` take the reciprocal of: sqrt(1 - x^2). */
  function UnitRoot(fl: Float, x: real): real {
    fl.sqrt(1.0 - PowI(x, 2))
  }

  /** `d.asin()`: sqrt(1 - x^2)^-1 x'. */
  function Asin(fl: Float, s: Slot): (r: Slot)
    requires UnitRoot(fl, s.x) != 0.0
    ensures r.dx * UnitRoot(fl, s.x) == s.dx
  {
    PowIInverse(UnitRoot(fl, s.x));
    Slot(fl.asin(s.x), PowI(UnitRoot(fl, s.x), -1) * s.dx)
  }

  /** `d.acos()`: -sqrt(1 - x^2)^-1 x'. */
  function Acos(fl: Float, s: Slot): (r: Slot)
    requires UnitRoot(fl, s.x) != 0.0
    ensures r.dx == -Asin(fl, s).dx
  {
    Slot(fl.acos(s.x), -PowI(UnitRoot(fl, s.x), -1) * s.dx)
  }

  /** `d.atan()`: (1 + x^2)^-1 x'; 1 + x^2 is never zero. */
  function Atan(fl: Float, s: Slot): (r: Slot)
    ensures r.dx * (1.0 + s.x * s.x) == s.dx
  {
    PowISquare(s.x);
    PowIInverse(1.0 + s.x * s.x);
    Slot(fl.atan(s.x), PowI(1.0 + PowI(s.x, 2), -1) * s.dx)
  }
}
