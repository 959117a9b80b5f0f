/**
 * The binary64 values the sampler computes with. A finite value is kept as an
 * exact real (rounding, overflow and subnormals are not modelled); the two
 * infinities and NaN are kept because the samplers branch on them
 * (`is_finite`, `is_nan`, comparisons that are false on NaN, `f64::min`).
 */
module Floats {

  datatype Float = Finite(r: real) | NegInf | PosInf | NaN

  const Zero: Float := Finite(0.0)

  predicate IsFinite(x: Float) { x.Finite? }

  predicate IsNan(x: Float) { x.NaN? }

  function Neg(x: Float): Float {
    match x
    case Finite(r) => Finite(-r)
    case NegInf => PosInf
    case PosInf => NegInf
    case NaN => NaN
  }

  /** IEEE addition: NaN is contagious and opposite infinities give NaN. */
  function Add(a: Float, b: Float): Float {
    if a.NaN? || b.NaN? then NaN
    else if a.PosInf? then (if b.NegInf? then NaN else PosInf)
    else if a.NegInf? then (if b.PosInf? then NaN else NegInf)
    else if b.Finite? then Finite(a.r + b.r)
    else b
  }

  function Sub(a: Float, b: Float): Float { Add(a, Neg(b)) }

  /** The product of a float and a finite real. */
  function Scale(c: real, x: Float): Float {
    match x
    case Finite(r) => Finite(c * r)
    case NaN => NaN
    case _ =>
      if c == 0.0 then NaN
      else if c > 0.0 then x
      else Neg(x)
  }

  /** Division by a positive finite real. */
  function DivPos(x: Float, d: real): Float
    requires d > 0.0
  {
    match x
    case Finite(r) => Finite(r / d)
    case _ => x
  }

  /** IEEE `<`: false whenever an operand is NaN. */
  predicate Less(a: Float, b: Float) {
    match (a, b)
    case (NaN, _) => false
    case (_, NaN) => false
    case (Finite(x), Finite(y)) => x < y
    case (NegInf, _) => !b.NegInf?
    case (_, PosInf) => !a.PosInf?
    case _ => false
  }

  /** `f64::min(x, 0.0)`: the non-NaN operand is returned when the other is NaN. */
  function MinZero(x: Float): Float {
    if x.NaN? then Zero
    else if Less(x, Zero) then x
    else Zero
  }

  /** The samplers' rule that a NaN score counts as impossible. */
  function NanToNegInf(x: Float): Float {
    if x.NaN? then NegInf else x
  }

  /**
   * A logarithm of a standard uniform draw u in [0, 1): minus infinity for
   * u == 0, and a negative finite number otherwise.
   */
  predicate IsLogUniform(lnU: Float) {
    lnU.NegInf? || (lnU.Finite? && lnU.r < 0.0)
  }

  /**
   * The transcendental functions the adaptors call, which have no exact
   * definition over the reals here: `exp`, and `k.powf(0.9)` for the gain of
   * the Robbins-Monro adaptor. `Valid` states the only facts the model uses.
   */
  datatype Numerics = Numerics(exp: real -> real, pow09: nat -> real)
  {
    ghost predicate Valid() {
      (forall x: real :: exp(x) > 0.0) &&
      (forall k: nat :: k >= 1 ==> pow09(k) >= 1.0)
    }
  }

  /** `f64::exp` extended to the non-finite values. */
  function Exp(num: Numerics, x: Float): Float {
    match x
    case Finite(r) => Finite(num.exp(r))
    case NegInf => Zero
    case PosInf => PosInf
    case NaN => NaN
  }
}
