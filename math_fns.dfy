/** The transcendental functions of `Math` that the modelled code calls, passed in as
    values because their numerics are not part of this model. Each predicate is one
    property of the real functions that a proof relies on; a member requires only the
    ones it uses. */
module MathFns {

  datatype MathLib = MathLib(sin: real -> real, cos: real -> real, sinh: real -> real,
                             cosh: real -> real, sqrt: real -> real, pi: real)

  /** |sin x| <= 1 and |cos x| <= 1. */
  ghost predicate SinCosBounded(m: MathLib)
  {
    forall x :: -1.0 <= m.sin(x) <= 1.0 && -1.0 <= m.cos(x) <= 1.0
  }

  /** sin^2 x + cos^2 x = 1. */
  ghost predicate Pythagorean(m: MathLib)
  {
    forall x :: m.sin(x) * m.sin(x) + m.cos(x) * m.cos(x) == 1.0
  }

  /** cosh x >= 1 and cosh^2 x - sinh^2 x = 1. */
  ghost predicate HyperbolicIdentity(m: MathLib)
  {
    forall x :: m.cosh(x) >= 1.0 && m.cosh(x) * m.cosh(x) - m.sinh(x) * m.sinh(x) == 1.0
  }

  /** sqrt x is the non-negative square root of a non-negative x. */
  ghost predicate SqrtIsRoot(m: MathLib)
  {
    forall x :: x >= 0.0 ==> m.sqrt(x) >= 0.0 && m.sqrt(x) * m.sqrt(x) == x
  }

  /** `Math.PI` is positive. */
  predicate PiPositive(m: MathLib)
  {
    m.pi > 0.0
  }
}
