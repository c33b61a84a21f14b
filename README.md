# ezdiff dual numbers in Dafny

A model of `src/lib.rs` of ezdiff, a forward-mode automatic-differentiation
library. A `Dual<F, N>` holds N values `x` and N derivatives `dx`. Every
operator builds a new dual number slot by slot, and every operator except
`/` and `exp` does so by a rule of calculus (those two depart from it, see
Findings):
- the sum, difference and product rules;
- the rules for constants on either side;
- the power rules;
- the chain rule for `ln`, `log` and the trigonometric and inverse
  trigonometric functions.

Seeding with `Dual::new(t)` puts t in every value slot and 1 in every
derivative slot. A formula run on the seed, with `/` and `exp` in their
corrected forms, then carries its value and its derivative at t.

The model has seven modules:

- `FloatOps` (float.dfy): the element type `F`, taken to be `real`.
  - The host functions of `num_traits::Float` (`sin`, `exp`, `powf`, ...)
    are the fields of a `Float` value that every operation takes as a
    parameter. Every theorem therefore holds for any choice of them.
  - `powi` is exact: the recursive `PowI`.
- `Rules` (rules.dfy): each operator's rule for one slot `Slot(x, dx)`,
  written as the expressions the source stores in `x:` and `dx:`, except
  `Quotient` and `ExpChain`, which are the corrected `/` and `exp` (see
  Findings) beside the as-written `Div` and `ExpAsWritten`. Each
  rule's contract relates it to a partner: its inverse, the rule it
  reduces to for a constant operand, or the derivative it must have.
- `DualNumbers` (dual.dfy): `Dual` as two sequences of equal length N.
  - Every operator lifts its rule to all N slots.
  - `exp` is the source's in-place loop: a method over two arrays, proved
    against a function of the old contents.
  - `value` and `derivative` return the two sequences, slot by slot.
- `SlotLaws` (slot_laws.dfy) and `DualLaws` (dual_laws.dfy): the laws the
  operators obey, and where `/` and `exp` depart from calculus.
- `ForwardMode` (forward_mode.dfy): the reference the rules are checked
  against.
  - `Expr` is a formula in one variable. `Eval` evaluates it and `Deriv`
    gives its textbook symbolic derivative.
  - The theorem `ForwardModeOnNew` states that running a formula on
    `Dual::new(t)` with the library's operators gives `(Eval(e, t),
    Eval(Deriv(e), t))` in every slot.
  - The theorem covers every operator. `/` and `exp` are run in their
    corrected forms, as described under Findings.
- `SourceTests` (tests.dfy): the unit tests of `src/lib.rs`, as lemmas at
  the same inputs with N = 1.

Differences from the text of the source:
- The source's division by zero yields an IEEE infinity. The model instead
  requires a non-zero divisor in every slot, and likewise for the
  reciprocals taken by `ln`, `log`, `tan`, `asin` and `acos`.
- The source applies scalar operations to whole arrays, and `value` and
  `derivative` return `F` although the fields are arrays, so the source
  as written does not compile for any N. The model reads every operation
  slot by slot: slot i of the result is the rule applied to slot i of the
  operands. That reading is the interpretation chosen here, and `value`
  and `derivative` return all N slots.

## Model

| member | source | states |
|---|---|---|
| FloatOps.PowI | src/lib.rs:41 | `x.powi(n)`: a non-zero base gives a non-zero power, so `powi(-1)` and `powi(-2)` of a non-zero value are defined |
| FloatOps.PowIAdd | src/lib.rs:81 | x^(m+n) = x^m x^n for natural m, n |
| FloatOps.PowIReciprocal | src/lib.rs:41 | x^(-n) = 1 / x^n for non-zero x |
| FloatOps.PowISquare | src/lib.rs:97 | `x.powi(2)` is x*x and never negative, so 1 + x^2 is never zero |
| FloatOps.PowIInverse | src/lib.rs:41 | `x.powi(-1)` is 1/x |
| FloatOps.PowIInverseSquare | src/lib.rs:73 | `x.powi(-2)` is 1/(x*x) |
| Rules.Neg | src/lib.rs:115-116 | adding a slot to its negation gives the zero slot (0, 0) |
| Rules.Add | src/lib.rs:127-128 | subtracting b undoes the sum rule, and with a constant b (derivative 0) the sum is `AddConst` by b's value |
| Rules.Sub | src/lib.rs:187-188 | adding b back to the difference gives a, in value and in derivative |
| Rules.Mul | src/lib.rs:199-200 | with a constant right factor (derivative 0) the product rule is `MulConst` by that factor's value |
| Rules.Div | src/lib.rs:247-248 | the division as written has the value a.x / b.x (its product with b.x is a.x), and with a constant divisor its derivative times b.x is a.dx |
| Rules.Quotient | src/lib.rs:247-248 | the corrected `/` (the quotient rule, not the source's expression) has the same value, its derivative times b.x is a.dx for a constant divisor, and 1 / b has the derivative -b.dx / b.x^2 |
| Rules.AddConst | src/lib.rs:139-140 | d + c moves the value by c and keeps the derivative |
| Rules.ConstAdd | src/lib.rs:149-178 | c + d (the f32, f64 and `(F,)` forms) is d + c |
| Rules.MulConst | src/lib.rs:211-212 | d * c is c * d |
| Rules.ConstMul | src/lib.rs:221-236 | c * d (the f32 and f64 forms) keeps d for c = 1 and is the zero slot for c = 0 |
| Rules.PowConst | src/lib.rs:259-260 | the exponent 0 gives derivative 0, and wherever x^(n-1) x = x^n the derivative obeys x (x^n)' = n x^n x' |
| Rules.ConstPow | src/lib.rs:269-296 | the derivative of c^x (the `(F,)`, f32 and f64 forms) is ln(c) times the new value times x' |
| Rules.ExpChain | src/lib.rs:29-35 | the corrected `exp` (the chain rule, not the source's loop): the derivative of e^x is the new value times x' |
| Rules.ExpAsWritten | src/lib.rs:31-32 | one loop iteration has the chain rule's value, and its derivative is exp of that new value times x' |
| Rules.Ln | src/lib.rs:40-41 | the derivative of ln times x is x', for non-zero x |
| Rules.Log | src/lib.rs:48-49 | the derivative of log(base) times ln(base) x is x', where that product is non-zero |
| Rules.Sin | src/lib.rs:56-57 | the derivative of sin is the value of `Cos` times x' |
| Rules.Cos | src/lib.rs:64-65 | the derivative of cos is minus sin(x) times x' (`Sin` already refers to `Cos`, so the pairing with `Sin`'s value is stated in `SlotLaws.SinCosDerivatives`) |
| Rules.Tan | src/lib.rs:72-73 | the derivative of tan times cos(x)^2 is x', where cos x is non-zero |
| Rules.Asin | src/lib.rs:80-81 | the derivative of asin times sqrt(1 - x^2) is x', where that root is non-zero |
| Rules.Acos | src/lib.rs:88-89 | the derivative of acos is minus that of asin |
| Rules.Atan | src/lib.rs:96-97 | the derivative of atan times 1 + x^2 is x' |
| DualNumbers.Dual.Value | src/lib.rs:101-103 | `value()` has one entry per slot, the value of slot i at position i |
| DualNumbers.Dual.Derivative | src/lib.rs:105-107 | `derivative()` has one entry per slot, the derivative of slot i at position i, and with `value()` it gives back the dual number |
| DualNumbers.New | src/lib.rs:16-21 | `new(v)` has width N, every value slot v and every derivative slot 1 |
| DualNumbers.Constant | src/lib.rs:137-142 | the constant c as a dual number: value c and derivative 0 in every slot |
| DualNumbers.FromSlots | src/lib.rs:9-12 | a dual number built from N slots has width N and carries slot i at position i |
| DualNumbers.SlotwiseEqual | src/lib.rs:9-12 | two dual numbers of equal width that agree in every slot are equal |
| DualNumbers.Neg | src/lib.rs:113-118 | slot i of -d is the negation rule applied to slot i of d |
| DualNumbers.Add | src/lib.rs:125-130 | slot i of a + b is the sum rule on the slots i of a and b |
| DualNumbers.Sub | src/lib.rs:185-190 | slot i of a - b is the difference rule on the slots i |
| DualNumbers.Mul | src/lib.rs:197-202 | slot i of a * b is the product rule on the slots i |
| DualNumbers.Div | src/lib.rs:245-250 | slot i of a / b is the source's division rule, defined when every value slot of b is non-zero |
| DualNumbers.Quotient | src/lib.rs:245-250 | slot i is the quotient rule; this is the corrected `/` (see Findings) |
| DualNumbers.AddConst | src/lib.rs:137-142 | slot i of d + c shifts the value by c and keeps the derivative |
| DualNumbers.ConstAdd | src/lib.rs:146-178 | slot i of c + d (the f32, f64 and `(F,)` forms) shifts the value by c and keeps the derivative |
| DualNumbers.MulConst | src/lib.rs:209-214 | slot i of d * c scales value and derivative by c |
| DualNumbers.ConstMul | src/lib.rs:218-239 | slot i of c * d (the f32 and f64 forms) scales value and derivative by c |
| DualNumbers.PowConst | src/lib.rs:257-262 | slot i of `d.pow(n)` is the power rule n x^(n-1) x' |
| DualNumbers.ConstPow | src/lib.rs:266-299 | slot i of `c.pow(d)` (the `(F,)`, f32 and f64 forms) is ln(c) c^x x' |
| DualNumbers.Sqrt | src/lib.rs:24-26 | `sqrt` is `pow(0.5)`: slot i is (x^0.5, 0.5 x^-0.5 x') |
| DualNumbers.ExpChain | src/lib.rs:29-35 | slot i is (e^x, e^x x'): the chain rule the `exp` loop is meant to compute |
| DualNumbers.ExpAsWritten | src/lib.rs:29-35 | slot i is what one iteration of the `exp` loop leaves: (e^x, e^(e^x) x') |
| DualNumbers.ExpSlots | src/lib.rs:30-33 | the loop over both arrays, in place: the new contents are `ExpAsWritten` of the old contents |
| DualNumbers.Exp | src/lib.rs:29-35 | `exp` on a copy of the receiver returns `ExpAsWritten` of it |
| DualNumbers.Ln | src/lib.rs:38-43 | slot i of `ln` is (ln x, x^-1 x'), defined for non-zero values |
| DualNumbers.Log | src/lib.rs:46-51 | slot i of `log(base)` is (log x, (ln(base) x)^-1 x'), defined when ln(base) x is non-zero |
| DualNumbers.Sin | src/lib.rs:54-59 | slot i is (sin x, cos(x) x') |
| DualNumbers.Cos | src/lib.rs:62-67 | slot i is (cos x, -sin(x) x') |
| DualNumbers.Tan | src/lib.rs:70-75 | slot i is (tan x, cos(x)^-2 x'), defined where cos x is non-zero |
| DualNumbers.Asin | src/lib.rs:78-83 | slot i is (asin x, sqrt(1 - x^2)^-1 x'), defined where that root is non-zero |
| DualNumbers.Acos | src/lib.rs:86-91 | slot i is (acos x, -sqrt(1 - x^2)^-1 x') |
| DualNumbers.Atan | src/lib.rs:94-99 | slot i is (atan x, (1 + x^2)^-1 x'), defined everywhere |
| SlotLaws.MulAssociates | src/lib.rs:197-202 | the product rule on one slot is associative |
| SlotLaws.MulDistributesOverAdd | src/lib.rs:197-202 | the product rule distributes over the sum rule |
| SlotLaws.QuotientInvertsProduct | src/lib.rs:245-250 | (a / b) * b = a for the quotient rule |
| SlotLaws.DivAgreesWithQuotientIff | src/lib.rs:245-250 | the source's division has the quotient's value, and its derivative equals the quotient rule's if and only if a.x b.dx = 0 |
| SlotLaws.LogIsScaledLn | src/lib.rs:38-51 | the derivative of `log(base)` times ln(base) is the derivative of `ln` |
| SlotLaws.SinCosDerivatives | src/lib.rs:54-67 | the derivative of sin is the value of cos times x', and that of cos is minus the value of sin times x' |
| SlotLaws.TanDerivative | src/lib.rs:70-75 | the derivative of tan times cos(x)^2 is x' |
| SlotLaws.AtanDerivative | src/lib.rs:94-99 | the derivative of atan times 1 + x^2 is x' |
| SlotLaws.AcosMirrorsAsin | src/lib.rs:78-91 | acos has the negated derivative of asin |
| SlotLaws.ExpChainIsOwnDerivative | src/lib.rs:29-35 | by the chain rule the derivative of exp is the new value times x' |
| SlotLaws.ExpAsWrittenAgreesIff | src/lib.rs:30-33 | for a one-to-one exponential, one loop iteration agrees with the chain rule if and only if x' = 0 or x is a fixed point of exp |
| DualLaws.NegInvolutive | src/lib.rs:113-118 | -(-d) = d |
| DualLaws.SubIsAddNeg | src/lib.rs:185-190 | a - b = a + (-b) |
| DualLaws.AddCommutesAndAssociates | src/lib.rs:125-130 | + is commutative and associative |
| DualLaws.MulCommutes | src/lib.rs:197-202 | * is commutative |
| DualLaws.MulAssociates | src/lib.rs:197-202 | * is associative |
| DualLaws.MulDistributesOverAdd | src/lib.rs:197-202 | * distributes over + |
| DualLaws.AddConstIsSumWithConstant | src/lib.rs:137-178 | d + c is d plus the constant dual number c, and c + d = d + c |
| DualLaws.MulConstIsProductWithConstant | src/lib.rs:209-239 | d * c is d times the constant dual number c, and c * d = d * c |
| DualLaws.QuotientInvertsProduct | src/lib.rs:245-250 | (a / b) * b = a for the corrected division |
| DualLaws.DivAgreesWithQuotientIff | src/lib.rs:245-250 | `/` has the quotient's values, and equals the quotient rule if and only if every cross term a.x[i] b.dx[i] is zero |
| DualLaws.DivSelfAsWritten | src/lib.rs:245-250 | x / x at x = 1 as written has derivative 2, where the quotient rule gives the constant 1 |
| DualLaws.ExpChainOfVariable | src/lib.rs:29-35 | by the chain rule, exp of `new(t)` has derivative equal to its value e^t in every slot |
| DualLaws.ExpAsWrittenOfVariable | src/lib.rs:29-35 | the loop as written leaves e^(e^t) in the derivative slots of exp of `new(t)`, and so differs from the chain rule |
| DualLaws.ConstPowOfEIsExp | src/lib.rs:266-299 | `c.pow(d)` with c = e is the chain-rule exponential |
| ForwardMode.Differentiable | src/lib.rs:38-99 | a formula whose rules divide by nothing zero at t has a value at t |
| ForwardMode.UnarySlot | src/lib.rs:24-99 | the rule of a one-operand operator, with `exp` in its corrected (chain-rule) form, carries the operation applied to the value |
| ForwardMode.BinarySlot | src/lib.rs:125-250 | the rule of `+`, `-`, `*`, `/` carries the operation applied to the values |
| ForwardMode.SlotEval | src/lib.rs:24-299 | a formula run on one slot carries the value of the formula |
| ForwardMode.UnaryChainRule | src/lib.rs:24-299 | every one-operand rule of the library, with `exp` in its corrected (chain-rule) form, is the chain rule: fed (a, a'), it yields the textbook derivative of op(a) |
| ForwardMode.LinearRule | src/lib.rs:113-239 | negation and the constant `+` and `*` act on the derivative by the textbook rule |
| ForwardMode.PowCRule | src/lib.rs:257-262 | `pow(k)` gives k x^(k-1) a' |
| ForwardMode.CPowRule | src/lib.rs:266-299 | `k.pow(d)` gives ln(k) k^x a' |
| ForwardMode.ExpRule | src/lib.rs:29-35 | the chain-rule `exp` gives e^x a' |
| ForwardMode.SinRule | src/lib.rs:54-59 | `sin` gives cos(x) a' |
| ForwardMode.CosRule | src/lib.rs:62-67 | `cos` gives -sin(x) a' |
| ForwardMode.LnRule | src/lib.rs:38-43 | `ln` gives a' / x |
| ForwardMode.LogRule | src/lib.rs:46-51 | `log(k)` gives a' / (ln(k) x) |
| ForwardMode.TanRule | src/lib.rs:70-75 | `tan` gives a' / cos(x)^2 |
| ForwardMode.ArcSineRule | src/lib.rs:78-91 | `asin` gives a' / sqrt(1 - x^2) and `acos` its negation |
| ForwardMode.AtanRule | src/lib.rs:94-99 | `atan` gives a' / (1 + x^2) |
| ForwardMode.BinaryChainRule | src/lib.rs:125-250 | the rules of `+`, `-`, `*` and the corrected `/` are the sum, difference, product and quotient rules |
| ForwardMode.ProductRule | src/lib.rs:197-202 | `*` gives a b' + b a' |
| ForwardMode.QuotientRule | src/lib.rs:245-250 | the corrected `/` gives (b a' - a b') / b^2 |
| ForwardMode.ForwardModeCorrect | src/lib.rs:16-21 | run on the slot (t, 1) that `new` seeds, every formula, with the corrected `/` and `exp`, yields its value and its textbook derivative at t |
| ForwardMode.UnaryDual | src/lib.rs:24-299 | a one-operand operator on a dual number applies its rule in every slot |
| ForwardMode.BinaryDual | src/lib.rs:125-250 | a two-operand operator applies its rule in every slot |
| ForwardMode.DualEval | src/lib.rs:9-299 | a formula run on a dual number is the formula run on each slot alone |
| ForwardMode.ForwardModeOnNew | src/lib.rs:16-21 | a formula run on `new(t)`, with the corrected `/` and `exp`, carries its value at t and its textbook derivative at t in every slot |
| SourceTests.SimplePolynomial | src/lib.rs:327-331 | `x * x + 2.0` at 3 is exactly (11, 6) |
| SourceTests.AddMulConstsAtTwo | src/lib.rs:415-419 | `1.0 + x * 3.0` at 2 is exactly (7, 3) |
| SourceTests.SinCosAtOne | src/lib.rs:335-347 | sin at 1 is (sin 1, cos 1) and cos at 1 is (cos 1, -sin 1) |
| SourceTests.TanAtOne | src/lib.rs:351-355 | tan at 1 has derivative 1/cos(1)^2 |
| SourceTests.AsinAcosAtHalf | src/lib.rs:359-371 | asin at 0.5 has derivative 1/sqrt(0.75), and acos the negation |
| SourceTests.AtanAtHalf | src/lib.rs:375-379 | atan at 0.5 has derivative exactly 0.8 |
| SourceTests.SqrtAtOne | src/lib.rs:383-387 | sqrt at 1 is exactly (1, 0.5) when every power of 1 is 1 |
| SourceTests.LnAtTwo | src/lib.rs:399-403 | ln at 2 has derivative exactly 0.5 |
| SourceTests.LogTenAtTwo | src/lib.rs:407-411 | log base 10 at 2 has derivative 1/(2 ln 10) |
| SourceTests.SinCosProductAtOne | src/lib.rs:423-427 | sin(x) cos(x) at 1 has derivative cos(1)^2 - sin(1)^2 |
| SourceTests.ExpAtOne | src/lib.rs:391-395 | `exp` as written at 1 leaves e^e in the derivative, not the expected e |
| SourceTests.ExpChainAtOne | src/lib.rs:391-395 | the chain-rule `exp` at 1 is (e, e), as the test expects |

## Left out

- IEEE 754 arithmetic (rounding, NaN, infinities, f32 versus f64) is not
  modelled. `F` is `real`, and a division by zero, which the source turns
  into an infinity, is excluded by a precondition.
- The numeric values of the host functions (`sin`, ..., `powf`) are left
  abstract. The decimal constants the tests compare against therefore
  cannot be stated.
- `F::from(0.5).unwrap()` in `sqrt` is taken to be 0.5.
- The generic element type and the `num_traits` traits are collapsed into
  `real` and `Float`. The left-hand overloads (f32 and f64 for `+`, `*` and
  `pow`, and `(F,)` only for `+` and `pow`) are one function each, because
  their bodies coincide.
- The `dual!` macro and the `From` impls (src/lib.rs:301-320) are not
  modelled; the tests call `New` directly. src/main.rs, a printing demo,
  is not part of this model.
- `value` and `derivative` are declared to return a single `F`; the model
  returns all N slots (see the differences listed above).
- `exp` mutates a receiver that is taken by value. The model runs the loop
  on fresh copies of the two arrays, so no aliasing with the caller is
  modelled.
- ForwardMode.ForwardModeCorrect: states the theorem for the seed
  derivative 1 that `new` uses, not for an arbitrary seed.
- SourceTests.SinCosAtOne: states the derivative as cos(1) and -sin(1)
  rather than as the tests' decimals, because the host functions are
  abstract.
- SourceTests.TanAtOne: states dx cos(1)^2 = 1 rather than the decimal
  3.425518820814759, for the same reason.
- SourceTests.AsinAcosAtHalf: states dx sqrt(0.75) = 1 rather than the
  decimal 1.1547005383792517, and assumes that root is non-zero.
- SourceTests.LnAtTwo: the value is ln 2 as the host computes it, not the
  decimal 0.6931471805599453.
- SourceTests.LogTenAtTwo: states dx (2 ln 10) = 1 rather than the decimal
  0.21714724095162588.
- SourceTests.SqrtAtOne: requires a host `powf` under which every power of
  1 is 1.
- SourceTests.SinCosProductAtOne: states the derivative as cos(1)^2 -
  sin(1)^2 rather than the decimal -0.4161468.

## Findings

| source | as written | input that shows it | evidently intended | confidence | as-written member | corrected member |
|---|---|---|---|---|---|---|
| src/lib.rs:245-250 | the derivative of `a / b` is (a.x b.dx + b.x a.dx) / b.x^2, adding the cross terms | x / x with x = `new(1.0)`, N = 1: derivative 2 where d/dx (x/x) = 0 | the quotient rule (b.x a.dx - a.x b.dx) / b.x^2 | high (not executed) | DualLaws.DivSelfAsWritten | DualNumbers.Quotient |
| src/lib.rs:29-35 | the loop overwrites x[i] with e^x[i] and then sets dx[i] to e^(x[i]) dx[i] from the overwritten x[i], giving e^(e^x) x' | `new(1.0).exp()`: derivative e^e where the test at src/lib.rs:391-395 expects e | the chain rule e^x x', using the old x[i] | high (not executed) | DualLaws.ExpAsWrittenOfVariable | DualNumbers.ExpChain |

The properties proved about the corrected members:
- `DualLaws.QuotientInvertsProduct` proves that (a / b) * b = a for
  `Quotient`.
- `SlotLaws.ExpChainIsOwnDerivative` and `DualLaws.ExpChainOfVariable`
  prove that `ExpChain` is its own derivative.
- `ForwardMode.ForwardModeOnNew` proves that both corrected operators agree
  with textbook differentiation.
