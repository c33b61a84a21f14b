/** The dual-number type `Dual<F, N>` of src/lib.rs and its operators.

    A dual number holds N value slots `x` and N derivative slots `dx`.
    Every operator works slot by slot: slot i of the result is the rule of
    `Rules` applied to slot i of the operands, so the N slots never mix and
    N = 1 is the scalar case. The operators are pure and build a new dual
    number, except `exp`, which loops over the slots of its (copied)
    receiver and overwrites them in place: the methods `ExpSlots` and `Exp`. */
module DualNumbers {
  import opened FloatOps
  import Rules

  /** `Dual<F, N>`: the value `x: [F; N]` and the derivative `dx: [F; N]`. */
  datatype Dual = Dual(x: seq<real>, dx: seq<real>) {

    /** Both arrays have the same length N. */
    predicate Valid() {
      |x| == |dx|
    }

    /** The width N. */
    function Width(): nat {
      |x|
    }

    /** Slot i: the i-th value with the i-th derivative. */
    function At(i: int): Rules.Slot
      requires Valid() && 0 <= i < Width()
    {
      Rules.Slot(x[i], dx[i])
    }

    /** `value()`: the value of every slot, in slot order. */
    function Value(): (r: seq<real>)
      ensures |r| == Width()
      ensures Valid() ==> forall i :: 0 <= i < |r| ==> r[i] == At(i).x
    {
      x
    }

    /** `derivative()`: the derivative of every slot, in slot order; with
        `value()` it gives back the whole dual number. */
    function Derivative(): (r: seq<real>)
      ensures Valid() ==> |r| == Width()
      ensures Valid() ==> forall i :: 0 <= i < |r| ==> r[i] == At(i).dx
      ensures Dual(Value(), r) == this
    {
      dx
    }
  }

  /** Two operands of a binary operator have the same N. */
  predicate SameWidth(a: Dual, b: Dual) {
    a.Valid() && b.Valid() && a.Width() == b.Width()
  }

  /** The dual number whose slots are the given ones, in order. */
  function FromSlots(s: seq<Rules.Slot>): (r: Dual)
    ensures r.Valid() && r.Width() == |s|
    ensures forall i :: 0 <= i < |s| ==> r.At(i) == s[i]
  {
    Dual(seq(|s|, i requires 0 <= i < |s| => s[i].x),
         seq(|s|, i requires 0 <= i < |s| => s[i].dx))
  }

  /** Dual numbers with the same slots are equal. */
  lemma SlotwiseEqual(a: Dual, b: Dual)
    requires SameWidth(a, b)
    requires forall i :: 0 <= i < a.Width() ==> a.At(i) == b.At(i)
    ensures a == b
  {
    assert forall i :: 0 <= i < a.Width() ==> a.x[i] == a.At(i).x && b.x[i] == b.At(i).x;
    assert forall i :: 0 <= i < a.Width() ==> a.dx[i] == a.At(i).dx && b.dx[i] == b.At(i).dx;
    assert a.x == b.x;
    assert a.dx == b.dx;
  }

  /** `Dual::new(val)`: val in every value slot and the seed 1 in every
      derivative slot, which makes the number the independent variable. */
  function New(v: real, n: nat): (r: Dual)
    ensures r.Valid() && r.Width() == n
    ensures forall i :: 0 <= i < n ==> r.x[i] == v && r.dx[i] == 1.0
  {
    Dual(seq(n, _ => v), seq(n, _ => 1.0))
  }

  /** A fixed value c in n slots with derivative 0: what the constant
      overloads treat their plain operand as. The source has no constructor
      for it (`new` seeds the derivative with 1); it serves to state what
      those overloads mean. */
  function Constant(c: real, n: nat): (r: Dual)
    ensures r.Valid() && r.Width() == n
    ensures forall i :: 0 <= i < n ==> r.At(i) == Rules.Slot(c, 0.0)
  {
    Dual(seq(n, _ => c), seq(n, _ => 0.0))
  }

  // ---------------------------------------------------------------------
  // Algebraic operators

  /** `-d` */
  function Neg(d: Dual): (r: Dual)
    requires d.Valid()
    ensures r.Valid() && r.Width() == d.Width()
    ensures forall i :: 0 <= i < d.Width() ==> r.At(i) == Rules.Neg(d.At(i))
  {
    FromSlots(seq(d.Width(), i requires 0 <= i < d.Width() => Rules.Neg(d.At(i))))
  }

  /** `a + b` */
  function Add(a: Dual, b: Dual): (r: Dual)
    requires SameWidth(a, b)
    ensures r.Valid() && r.Width() == a.Width()
    ensures forall i :: 0 <= i < a.Width() ==> r.At(i) == Rules.Add(a.At(i), b.At(i))
  {
    FromSlots(seq(a.Width(), i requires 0 <= i < a.Width() => Rules.Add(a.At(i), b.At(i))))
  }

  /** `a - b` */
  function Sub(a: Dual, b: Dual): (r: Dual)
    requires SameWidth(a, b)
    ensures r.Valid() && r.Width() == a.Width()
    ensures forall i :: 0 <= i < a.Width() ==> r.At(i) == Rules.Sub(a.At(i), b.At(i))
  {
    FromSlots(seq(a.Width(), i requires 0 <= i < a.Width() => Rules.Sub(a.At(i), b.At(i))))
  }

  /** `a * b` */
  function Mul(a: Dual, b: Dual): (r: Dual)
    requires SameWidth(a, b)
    ensures r.Valid() && r.Width() == a.Width()
    ensures forall i :: 0 <= i < a.Width() ==> r.At(i) == Rules.Mul(a.At(i), b.At(i))
  {
    FromSlots(seq(a.Width(), i requires 0 <= i < a.Width() => Rules.Mul(a.At(i), b.At(i))))
  }

  /** Every value slot of d is non-zero. */
  predicate NonZero(d: Dual) {
    forall i :: 0 <= i < |d.x| ==> d.x[i] != 0.0
  }

  /** `a / b`, with the derivative the source computes. */
  function Div(a: Dual, b: Dual): (r: Dual)
    requires SameWidth(a, b) && NonZero(b)
    ensures r.Valid() && r.Width() == a.Width()
    ensures forall i :: 0 <= i < a.Width() ==> r.At(i) == Rules.Div(a.At(i), b.At(i))
  {
    FromSlots(seq(a.Width(), i requires 0 <= i < a.Width() => Rules.Div(a.At(i), b.At(i))))
  }

  /** `a / b` with the quotient rule. */
  function Quotient(a: Dual, b: Dual): (r: Dual)
    requires SameWidth(a, b) && NonZero(b)
    ensures r.Valid() && r.Width() == a.Width()
    ensures forall i :: 0 <= i < a.Width() ==> r.At(i) == Rules.Quotient(a.At(i), b.At(i))
  {
    FromSlots(seq(a.Width(), i requires 0 <= i < a.Width() => Rules.Quotient(a.At(i), b.At(i))))
  }

  // ---------------------------------------------------------------------
  // Constant overloads. The source has the right-hand form `Dual op F`
  // and, for the left-hand form `c op Dual`, one impl per element type
  // (`f32`, `f64` and, for `+`, the one-tuple `(F,)`); over `real` those
  // left-hand impls coincide, so each is one function here.

  /** `d + c` */
  function AddConst(d: Dual, c: real): (r: Dual)
    requires d.Valid()
    ensures r.Valid() && r.Width() == d.Width()
    ensures forall i :: 0 <= i < d.Width() ==> r.At(i) == Rules.AddConst(d.At(i), c)
  {
    FromSlots(seq(d.Width(), i requires 0 <= i < d.Width() => Rules.AddConst(d.At(i), c)))
  }

  /** `c + d` for c an `f32`, an `f64` or a one-tuple `(c,)`. */
  function ConstAdd(c: real, d: Dual): (r: Dual)
    requires d.Valid()
    ensures r.Valid() && r.Width() == d.Width()
    ensures forall i :: 0 <= i < d.Width() ==> r.At(i) == Rules.ConstAdd(c, d.At(i))
  {
    FromSlots(seq(d.Width(), i requires 0 <= i < d.Width() => Rules.ConstAdd(c, d.At(i))))
  }

  /** `d * c` */
  function MulConst(d: Dual, c: real): (r: Dual)
    requires d.Valid()
    ensures r.Valid() && r.Width() == d.Width()
    ensures forall i :: 0 <= i < d.Width() ==> r.At(i) == Rules.MulConst(d.At(i), c)
  {
    FromSlots(seq(d.Width(), i requires 0 <= i < d.Width() => Rules.MulConst(d.At(i), c)))
  }

  /** `c * d` for c an `f32` or an `f64`. */
  function ConstMul(c: real, d: Dual): (r: Dual)
    requires d.Valid()
    ensures r.Valid() && r.Width() == d.Width()
    ensures forall i :: 0 <= i < d.Width() ==> r.At(i) == Rules.ConstMul(c, d.At(i))
  {
    FromSlots(seq(d.Width(), i requires 0 <= i < d.Width() => Rules.ConstMul(c, d.At(i))))
  }

  // ---------------------------------------------------------------------
  // Powers and the exponential family

  /** `d.pow(n)` for a constant exponent n. */
  function PowConst(fl: Float, d: Dual, n: real): (r: Dual)
    requires d.Valid()
    ensures r.Valid() && r.Width() == d.Width()
    ensures forall i :: 0 <= i < d.Width() ==> r.At(i) == Rules.PowConst(fl, d.At(i), n)
  {
    FromSlots(seq(d.Width(), i requires 0 <= i < d.Width() => Rules.PowConst(fl, d.At(i), n)))
  }

  /** `c.pow(d)` for a constant base c (an `f32`, an `f64` or a one-tuple). */
  function ConstPow(fl: Float, c: real, d: Dual): (r: Dual)
    requires d.Valid()
    ensures r.Valid() && r.Width() == d.Width()
    ensures forall i :: 0 <= i < d.Width() ==> r.At(i) == Rules.ConstPow(fl, c, d.At(i))
  {
    FromSlots(seq(d.Width(), i requires 0 <= i < d.Width() => Rules.ConstPow(fl, c, d.At(i))))
  }

  /** `d.sqrt()`, which the source defines as `d.pow(0.5)`: the power rule
      with exponent 1/2. */
  function Sqrt(fl: Float, d: Dual): (r: Dual)
    requires d.Valid()
    ensures r.Valid() && r.Width() == d.Width()
    ensures forall i :: 0 <= i < d.Width() ==>
      r.At(i) == Rules.Slot(fl.powf(d.x[i], 0.5), 0.5 * fl.powf(d.x[i], -0.5) * d.dx[i])
  {
    PowConst(fl, d, 0.5)
  }

  /** The exponential by the chain rule in every slot: what the `exp` loop
      is meant to compute. */
  function ExpChain(fl: Float, d: Dual): (r: Dual)
    requires d.Valid()
    ensures r.Valid() && r.Width() == d.Width()
    ensures forall i :: 0 <= i < d.Width() ==> r.At(i) == Rules.ExpChain(fl, d.At(i))
  {
    FromSlots(seq(d.Width(), i requires 0 <= i < d.Width() => Rules.ExpChain(fl, d.At(i))))
  }

  /** What the `exp` loop leaves in the slots. */
  function ExpAsWritten(fl: Float, d: Dual): (r: Dual)
    requires d.Valid()
    ensures r.Valid() && r.Width() == d.Width()
    ensures forall i :: 0 <= i < d.Width() ==> r.At(i) == Rules.ExpAsWritten(fl, d.At(i))
  {
    FromSlots(seq(d.Width(), i requires 0 <= i < d.Width() => Rules.ExpAsWritten(fl, d.At(i))))
  }

  /** The loop of `exp` on the two arrays of its receiver, in place: slot i
      first gets e^x[i] in x[i], then dx[i] is scaled by the exponential of
      the new x[i]. */
  method ExpSlots(fl: Float, x: array<real>, dx: array<real>)
    requires x.Length == dx.Length && x != dx
    modifies x, dx
    ensures Dual(x[..], dx[..]) == ExpAsWritten(fl, Dual(old(x[..]), old(dx[..])))
  {
    ghost var x0, dx0 := x[..], dx[..];
    for i := 0 to x.Length
      invariant forall k :: 0 <= k < i ==>
        Rules.Slot(x[k], dx[k]) == Rules.ExpAsWritten(fl, Rules.Slot(x0[k], dx0[k]))
      invariant forall k :: i <= k < x.Length ==> x[k] == x0[k] && dx[k] == dx0[k]
    {
      x[i] := fl.exp(x[i]);
      dx[i] := fl.exp(x[i]) * dx[i];
    }
    ghost var d, e := Dual(x[..], dx[..]), ExpAsWritten(fl, Dual(x0, dx0));
    forall k | 0 <= k < x.Length ensures d.At(k) == e.At(k) {
      assert d.At(k) == Rules.Slot(x[k], dx[k]);
    }
    SlotwiseEqual(d, e);
  }

  /** `d.exp()`: the receiver is taken by value, so the loop runs on a copy
      of its arrays and the copy is returned. */
  method Exp(fl: Float, d: Dual) returns (r: Dual)
    requires d.Valid()
    ensures r == ExpAsWritten(fl, d)
  {
    var x := new real[|d.x|](i requires 0 <= i < |d.x| => d.x[i]);
    var dx := new real[|d.dx|](i requires 0 <= i < |d.dx| => d.dx[i]);
    assert x[..] == d.x && dx[..] == d.dx;
    ExpSlots(fl, x, dx);
    r := Dual(x[..], dx[..]);
  }

  /** `d.ln()`; the derivative divides by x. */
  function Ln(fl: Float, d: Dual): (r: Dual)
    requires d.Valid() && NonZero(d)
    ensures r.Valid() && r.Width() == d.Width()
    ensures forall i :: 0 <= i < d.Width() ==> r.At(i) == Rules.Ln(fl, d.At(i))
  {
    FromSlots(seq(d.Width(), i requires 0 <= i < d.Width() => Rules.Ln(fl, d.At(i))))
  }

  /** `d.log(base)`; the derivative divides by ln(base) x. */
  function Log(fl: Float, d: Dual, base: real): (r: Dual)
    requires d.Valid()
    requires forall i :: 0 <= i < |d.x| ==> fl.ln(base) * d.x[i] != 0.0
    ensures r.Valid() && r.Width() == d.Width()
    ensures forall i :: 0 <= i < d.Width() ==> r.At(i) == Rules.Log(fl, d.At(i), base)
  {
    FromSlots(seq(d.Width(), i requires 0 <= i < d.Width() => Rules.Log(fl, d.At(i), base)))
  }

  // ---------------------------------------------------------------------
  // Trigonometric and inverse trigonometric functions

  /** `d.sin()` */
  function Sin(fl: Float, d: Dual): (r: Dual)
    requires d.Valid()
    ensures r.Valid() && r.Width() == d.Width()
    ensures forall i :: 0 <= i < d.Width() ==> r.At(i) == Rules.Sin(fl, d.At(i))
  {
    FromSlots(seq(d.Width(), i requires 0 <= i < d.Width() => Rules.Sin(fl, d.At(i))))
  }

  /** `d.cos()` */
  function Cos(fl: Float, d: Dual): (r: Dual)
    requires d.Valid()
    ensures r.Valid() && r.Width() == d.Width()
    ensures forall i :: 0 <= i < d.Width() ==> r.At(i) == Rules.Cos(fl, d.At(i))
  {
    FromSlots(seq(d.Width(), i requires 0 <= i < d.Width() => Rules.Cos(fl, d.At(i))))
  }

  /** `d.tan()`; the derivative divides by cos(x)^2. */
  function Tan(fl: Float, d: Dual): (r: Dual)
    requires d.Valid()
    requires forall i :: 0 <= i < |d.x| ==> fl.cos(d.x[i]) != 0.0
    ensures r.Valid() && r.Width() == d.Width()
    ensures forall i :: 0 <= i < d.Width() ==> r.At(i) == Rules.Tan(fl, d.At(i))
  {
    FromSlots(seq(d.Width(), i requires 0 <= i < d.Width() => Rules.Tan(fl, d.At(i))))
  }

  /** sqrt(1 - x^2), which `asin` and `acos` divide by, is non-zero in
      every slot. */
  predicate InsideUnitInterval(fl: Float, d: Dual) {
    forall i :: 0 <= i < |d.x| ==> Rules.UnitRoot(fl, d.x[i]) != 0.0
  }

  /** `d.asin()` */
  function Asin(fl: Float, d: Dual): (r: Dual)
    requires d.Valid() && InsideUnitInterval(fl, d)
    ensures r.Valid() && r.Width() == d.Width()
    ensures forall i :: 0 <= i < d.Width() ==> r.At(i) == Rules.Asin(fl, d.At(i))
  {
    FromSlots(seq(d.Width(), i requires 0 <= i < d.Width() => Rules.Asin(fl, d.At(i))))
  }

  /** `d.acos()` */
  function Acos(fl: Float, d: Dual): (r: Dual)
    requires d.Valid() && InsideUnitInterval(fl, d)
    ensures r.Valid() && r.Width() == d.Width()
    ensures forall i :: 0 <= i < d.Width() ==> r.At(i) == Rules.Acos(fl, d.At(i))
  {
    FromSlots(seq(d.Width(), i requires 0 <= i < d.Width() => Rules.Acos(fl, d.At(i))))
  }

  /** `d.atan()` */
  function Atan(fl: Float, d: Dual): (r: Dual)
    requires d.Valid()
    ensures r.Valid() && r.Width() == d.Width()
    ensures forall i :: 0 <= i < d.Width() ==> r.At(i) == Rules.Atan(fl, d.At(i))
  {
    FromSlots(seq(d.Width(), i requires 0 <= i < d.Width() => Rules.Atan(fl, d.At(i))))
  }
}
