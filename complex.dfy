/**
 * Complex numbers over the reals, and the few pieces of floating-point
 * behaviour of Rust that the model has to reproduce: `f64::round`,
 * `f64::signum`, `i8::signum` and the saturating cast `as i32`.
 */
module Complex {

  /** A complex number `re + im i`. */
  datatype C = C(re: real, im: real)

  function Real(x: real): C { C(x, 0.0) }

  function Add(a: C, b: C): C { C(a.re + b.re, a.im + b.im) }

  function Sub(a: C, b: C): C { C(a.re - b.re, a.im - b.im) }

  function Conj(a: C): C { C(a.re, -a.im) }

  /** Multiplication by a real number. */
  function Scale(t: real, a: C): C { C(t * a.re, t * a.im) }

  function NormSqr(a: C): real { a.re * a.re + a.im * a.im }

  /** The two-dimensional cross product of `v` and `w` seen as plane vectors. */
  function Cross(v: C, w: C): real { v.re * w.im - v.im * w.re }

  function Abs(x: real): real { if x < 0.0 then -x else x }

  /** `f64::round`: the nearest integer, halves rounded away from zero. */
  function Round(x: real): (n: int)
    ensures Abs(x - n as real) <= 0.5
    ensures Abs(x - n as real) == 0.5 ==> Abs(n as real) > Abs(x)
  {
    if x >= 0.0 then (x + 0.5).Floor else -((-x + 0.5).Floor)
  }

  /** `f64::signum` on non-NaN values: `+0.0` has sign 1 (negative zero is not modelled). */
  function Signum(x: real): (s: int)
    ensures s == 1 || s == -1
    ensures s == 1 <==> x >= 0.0
  {
    if x >= 0.0 then 1 else -1
  }

  /** `i8::signum` and `i32::signum`. */
  function IntSignum(n: int): (s: int)
    ensures s == 0 <==> n == 0
    ensures s == 1 <==> n > 0
    ensures s == -1 <==> n < 0
  {
    if n > 0 then 1 else if n < 0 then -1 else 0
  }

  const I32_MAX: int := 0x7fff_ffff
  const I32_MIN: int := -0x8000_0000

  /** The saturating cast `as i32` of an integral float. */
  function SaturateI32(n: int): (r: int)
    ensures I32_MIN <= r <= I32_MAX
    ensures I32_MIN <= n <= I32_MAX ==> r == n
    ensures n > I32_MAX ==> r == I32_MAX
    ensures n < I32_MIN ==> r == I32_MIN
  {
    if n > I32_MAX then I32_MAX else if n < I32_MIN then I32_MIN else n
  }

  lemma ConjInvolution(a: C)
    ensures Conj(Conj(a)) == a
  {
  }
}
