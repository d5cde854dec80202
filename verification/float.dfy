/**
 * The floating-point library the DSP code calls. Floats are modelled as reals; the transcendental
 * functions, the f64 -> f32 rounding and IEEE division (whose result for a zero divisor is an
 * infinity or NaN) are kept as uninterpreted function values. Facts about them that a property
 * needs are stated as predicates that the property's lemma requires.
 */
module Float {
  datatype Math = Math(
    sin: real -> real,
    cos: real -> real,
    tan: real -> real,
    exp2: real -> real,
    log2: real -> real,
    log10: real -> real,
    sqrt: real -> real,
    powf: (real, real) -> real,
    fdiv: (real, real) -> real,
    toF32: real -> real)

  /** `std::f32::consts::TAU` */
  const Tau: real := 6.2831855

  /** `std::f64::consts::PI` */
  const Pi64: real := 3.141592653589793

  /** `std::f64::consts::TAU` */
  const Tau64: real := 6.283185307179586

  /** `std::f32::consts::SQRT_2` */
  const Sqrt2: real := 1.4142135

  /** IEEE division agrees with real division whenever the divisor is not zero. */
  ghost predicate Division(m: Math)
  {
    forall a: real, b: real :: b != 0.0 ==> m.fdiv(a, b) == a / b
  }

  ghost predicate SqrtNonNegative(m: Math)
  {
    forall x: real :: 0.0 <= x ==> 0.0 <= m.sqrt(x)
  }

  /** `sqrt` is the exact non-negative square root. */
  ghost predicate SqrtExact(m: Math)
  {
    forall x: real :: 0.0 <= x ==> 0.0 <= m.sqrt(x) && m.sqrt(x) * m.sqrt(x) == x
  }

  /** `sin` is positive and strictly increasing on `(0, pi/2]`. */
  ghost predicate SinRising(m: Math)
  {
    forall x: real, y: real :: 0.0 < x < y <= Pi64 / 2.0 ==> 0.0 < m.sin(x) < m.sin(y)
  }

  ghost predicate Exp2Positive(m: Math)
  {
    forall x: real :: 0.0 < m.exp2(x)
  }

  ghost predicate Exp2Increasing(m: Math)
  {
    forall x: real, y: real :: x < y ==> m.exp2(x) < m.exp2(y)
  }

  ghost predicate Log2PositiveAboveOne(m: Math)
  {
    forall x: real :: 1.0 < x ==> 0.0 < m.log2(x)
  }

  /** `cos` lies in `[-1, 1]`. */
  ghost predicate CosBounded(m: Math)
  {
    forall x: real :: -1.0 <= m.cos(x) <= 1.0
  }

  /** `x.powf(c)` is non-negative for a non-negative base, positive for a positive one, zero at zero. */
  ghost predicate PowfSign(m: Math)
  {
    forall x: real, c: real :: 0.0 < c && 0.0 <= x ==> 0.0 <= m.powf(x, c) && (0.0 < x <==> 0.0 < m.powf(x, c))
  }

  /** `log10` inverts raising ten to a power on the positive reals. */
  ghost predicate Log10Inverse(m: Math)
  {
    forall x: real :: 0.0 < x ==> m.powf(10.0, m.log10(x)) == x
  }
}
