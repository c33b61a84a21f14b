/** The element type `F: Float` of the library, abstracted to `real`.

    The arithmetic operators of `F` are Dafny's exact operators on `real`.
    The transcendental methods that `num_traits::Float` supplies (`sin`,
    `cos`, `exp`, `powf`, ...) are not specified numerically: they are the
    fields of a `Float` value that every operation of the model takes as a
    parameter, so every property proved here holds for any choice of them.
    Only `powi`, integer powers, is pure algebra and is defined here. */
module FloatOps {

  /** The host library's elementary functions on the element type.
      `log(x, base)` is `x.log(base)` and `powf(x, y)` is `x.powf(y)`. */
  datatype Float = Float(
    sqrt: real -> real,
    exp: real -> real,
    ln: real -> real,
    log: (real, real) -> real,
    powf: (real, real) -> real,
    sin: real -> real,
    cos: real -> real,
    tan: real -> real,
    asin: real -> real,
    acos: real -> real,
    atan: real -> real)

  /** `x.powi(n)`: x raised to an integer power. A negative power divides
      by x, so it needs x to be non-zero (the float type would give an
      infinity instead). */
  function PowI(x: real, n: int): (r: real)
    requires 0 <= n || x != 0.0
    ensures x != 0.0 ==> r != 0.0
    decreases if n < 0 then -n else n
  {
    if n == 0 then 1.0
    else if 0 < n then x * PowI(x, n - 1)
    else PowI(x, n + 1) / x
  }

  /** A positive power is the product of as many factors. */
  lemma {:induction false} PowIAdd(x: real, m: nat, n: nat)
    ensures PowI(x, m + n) == PowI(x, m) * PowI(x, n)
    decreases m
  {
    if m > 0 {
      PowIAdd(x, m - 1, n);
      assert PowI(x, m + n) == x * PowI(x, m - 1 + n);
    }
  }

  /** A negative power is the reciprocal of the positive one. */
  lemma {:induction false} PowIReciprocal(x: real, n: int)
    requires x != 0.0 && 0 <= n
    ensures PowI(x, -n) == 1.0 / PowI(x, n)
    decreases n
  {
    if n > 0 {
      PowIReciprocal(x, n - 1);
      var p := PowI(x, n - 1);
      assert p != 0.0;
      assert PowI(x, -n) == PowI(x, -n + 1) / x;
      assert PowI(x, n) == x * p;
      QuotientOfQuotient(p, x);
    }
  }

  lemma QuotientOfQuotient(p: real, x: real)
    requires p != 0.0 && x != 0.0
    ensures (1.0 / p) / x == 1.0 / (x * p)
  {
  }

  /** `x.powi(2)` is the square, hence never negative. */
  lemma PowISquare(x: real)
    ensures PowI(x, 2) == x * x && PowI(x, 2) >= 0.0
  {
    PowIAdd(x, 1, 1);
  }

  /** `x.powi(-1)` is the reciprocal. */
  lemma PowIInverse(x: real)
    requires x != 0.0
    ensures PowI(x, -1) == 1.0 / x
  {
    PowIReciprocal(x, 1);
  }

  /** `x.powi(-2)` is the reciprocal of the square. */
  lemma PowIInverseSquare(x: real)
    requires x != 0.0
    ensures PowI(x, -2) == 1.0 / (x * x)
  {
    PowIReciprocal(x, 2);
    PowISquare(x);
  }

  /** A product of non-zero numbers is non-zero. */
  lemma NonZeroProduct(v: real, u: real)
    requires v != 0.0 && u != 0.0
    ensures v * u != 0.0
  {
    if v > 0.0 && u > 0.0 {
      assert v * u > 0.0;
    } else if v < 0.0 && u < 0.0 {
      assert v * u > 0.0;
    } else if v > 0.0 {
      assert v * u < 0.0;
    } else {
      assert v * u < 0.0;
    }
  }
}
