/**
 * The description of a presentation: the eased transitions between two
 * values of a slide parameter, the linear interpolation of the parameter
 * types, and the relativistic component names.
 */
module PresentationDescription {
  import opened Wrappers
  import opened Complex

  /** The smoothstep easing s^2 (3 - 2s). */
  function Ease(s: real): (e: real)
    ensures s == 0.0 ==> e == 0.0
    ensures s == 1.0 ==> e == 1.0
  {
    s * s * (3.0 - 2.0 * s)
  }

  /** Ease maps [0, 1] into [0, 1]. */
  lemma EaseBounded(s: real)
    requires 0.0 <= s <= 1.0
    ensures 0.0 <= Ease(s) <= 1.0
  {
    MulNonNegative(s * s, 3.0 - 2.0 * s);
    assert 1.0 - Ease(s) == (1.0 - s) * (1.0 - s) * (1.0 + 2.0 * s);
    MulNonNegative((1.0 - s) * (1.0 - s), 1.0 + 2.0 * s);
  }

  lemma MulNonNegative(x: real, y: real)
    requires x >= 0.0 && y >= 0.0
    ensures x * y >= 0.0
  {
  }

  /** Ease is point-symmetric about (1/2, 1/2). */
  lemma EaseSymmetric(s: real)
    ensures Ease(1.0 - s) == 1.0 - Ease(s)
  {
  }

  /** Ease is non-decreasing on [0, 1]. */
  lemma EaseMonotone(s: real, t: real)
    requires 0.0 <= s <= t <= 1.0
    ensures Ease(s) <= Ease(t)
  {
    // Ease(t) - Ease(s) == (t - s) * (3(t + s) - 2(t^2 + ts + s^2))
    assert Ease(t) - Ease(s) == (t - s) * (3.0 * (t + s) - 2.0 * (t * t + t * s + s * s));
    MulNonNegative(t, 1.0 - t);
    MulNonNegative(s, 1.0 - t);
    MulNonNegative(s, 1.0 - s);
    assert 3.0 * (t + s) - 2.0 * (t * t + t * s + s * s) >= 0.0;
    MulNonNegative(t - s, 3.0 * (t + s) - 2.0 * (t * t + t * s + s * s));
  }

  /**
   * The scalar interpolation (1 - s) a + s b of the f32 and f64 impls; the
   * f32 impl's rounding of s to single precision is not modelled.
   */
  function LerpReal(a: real, b: real, s: real): (r: real)
    ensures s == 0.0 ==> r == a
    ensures s == 1.0 ==> r == b
    ensures 0.0 <= s <= 1.0 && a <= b ==> a <= r <= b
    ensures 0.0 <= s <= 1.0 && b <= a ==> b <= r <= a
  {
    if 0.0 <= s <= 1.0 then
      MulNonNegative(s, if a <= b then b - a else a - b);
      MulNonNegative(1.0 - s, if a <= b then b - a else a - b);
      (1.0 - s) * a + s * b
    else (1.0 - s) * a + s * b
  }

  /** The interpolation of two complex numbers. */
  function LerpC(a: C, b: C, s: real): (r: C)
    ensures s == 0.0 ==> r == a
    ensures s == 1.0 ==> r == b
  {
    Add(Scale(1.0 - s, a), Scale(s, b))
  }

  /** The real and imaginary parts of a complex interpolation are the scalar interpolations of the parts. */
  lemma LerpCParts(a: C, b: C, s: real)
    ensures LerpC(a, b, s) == C(LerpReal(a.re, b.re, s), LerpReal(a.im, b.im, s))
  {
  }

  /** A `[f32; 2]` value. */
  datatype Pair = Pair(x: real, y: real)

  /** A `[[f32; 2]; 2]` value: two corners. */
  datatype Rect = Rect(min: Pair, max: Pair)

  /** `[f32; 2]::lerp`: each coordinate is interpolated on its own. */
  function LerpPair(a: Pair, b: Pair, s: real): (r: Pair)
    ensures r.x == LerpReal(a.x, b.x, s) && r.y == LerpReal(a.y, b.y, s)
  {
    Pair(LerpReal(a.x, b.x, s), LerpReal(a.y, b.y, s))
  }

  /** `[[f32; 2]; 2]::lerp`: each corner is interpolated on its own. */
  function LerpRect(a: Rect, b: Rect, s: real): (r: Rect)
    ensures r.min == LerpPair(a.min, b.min, s) && r.max == LerpPair(a.max, b.max, s)
  {
    Rect(LerpPair(a.min, b.min, s), LerpPair(a.max, b.max, s))
  }

  /** The array interpolations meet their end points, like the scalar one. */
  lemma LerpRectEnds(a: Rect, b: Rect)
    ensures LerpRect(a, b, 0.0) == a && LerpRect(a, b, 1.0) == b
  {
  }

  /** `f64::rem_euclid(x, 2.0)`: the remainder of x in [0, 2). */
  function RemTwo(x: real): (r: real)
    ensures 0.0 <= r < 2.0
    ensures x == 2.0 * Periods(x) as real + r
  {
    x - 2.0 * Periods(x) as real
  }

  /** The number of whole periods of length 2 in x, rounded down. */
  function Periods(x: real): int {
    (x / 2.0).Floor
  }

  /** The remainder of x in [0, 2) is the only r in [0, 2) that differs from x by an even integer. */
  lemma RemTwoUnique(x: real, n: int, r: real)
    requires 0.0 <= r < 2.0 && x == 2.0 * n as real + r
    ensures RemTwo(x) == r
  {
    assert x / 2.0 == n as real + r / 2.0;
    assert n as real <= x / 2.0 < n as real + 1.0;
    assert Periods(x) == n;
  }

  /** The time parameter of a transition folded into [0, 1] as a triangle wave of period 2. */
  function Fold(x: real): (s: real)
    ensures 0.0 <= s <= 1.0
  {
    var r := RemTwo(x);
    if r > 1.0 then 2.0 - r else r
  }

  /** Fold is the identity on [0, 1]. */
  lemma FoldIdentity(x: real)
    requires 0.0 <= x <= 1.0
    ensures Fold(x) == x
  {
    RemTwoUnique(x, 0, x);
  }

  /** Fold has period 2. */
  lemma FoldPeriodic(x: real)
    ensures Fold(x + 2.0) == Fold(x)
  {
    RemTwoUnique(x + 2.0, Periods(x) + 1, RemTwo(x));
  }

  /** Fold is even: the wave runs back down the way it came up. */
  lemma FoldEven(x: real)
    ensures Fold(-x) == Fold(x)
  {
    var r := RemTwo(x);
    var n := Periods(x);
    if r == 0.0 {
      RemTwoUnique(-x, -n, 0.0);
    } else {
      RemTwoUnique(-x, -n - 1, 2.0 - r);
    }
  }

  /** A parameter of a frame: a constant, or a transition from start to end and back with the given duration. */
  datatype Value<T> = Const(v: T) | Transition(start: T, end: T, duration: real)

  /**
   * `Value::get` at time t, with the type's interpolation passed in. A zero
   * duration divides by zero, which makes the source's value NaN; it is None
   * here.
   */
  function Get<T>(value: Value<T>, t: real, lerp: (T, T, real) -> T): (r: Option<T>)
    ensures value.Const? ==> r == Some(value.v)
    ensures value.Transition? ==> (r.None? <==> value.duration == 0.0)
  {
    match value
    case Const(v) => Some(v)
    case Transition(start, end, duration) =>
      if duration == 0.0 then None
      else Some(lerp(start, end, Ease(Fold(t / duration))))
  }

  /** A transition starts at its start value, reaches its end value after one duration, and is back after two. */
  lemma TransitionEnds<T>(a: T, b: T, d: real, lerp: (T, T, real) -> T)
    requires d != 0.0
    ensures Get(Transition(a, b, d), 0.0, lerp) == Some(lerp(a, b, 0.0))
    ensures Get(Transition(a, b, d), d, lerp) == Some(lerp(a, b, 1.0))
    ensures Get(Transition(a, b, d), 2.0 * d, lerp) == Some(lerp(a, b, 0.0))
  {
    FoldIdentity(0.0);
    FoldIdentity(1.0);
    assert d / d == 1.0;
    assert (2.0 * d) / d == 0.0 + 2.0;
    FoldPeriodic(0.0);
  }

  lemma DivUnique(x: real, d: real, q: real)
    requires d != 0.0 && x == q * d
    ensures x / d == q
  {
  }

  /** A transition repeats with period twice its duration. */
  lemma TransitionPeriodic<T>(a: T, b: T, d: real, t: real, lerp: (T, T, real) -> T)
    ensures Get(Transition(a, b, d), t + 2.0 * d, lerp) == Get(Transition(a, b, d), t, lerp)
  {
    if d != 0.0 {
      assert (t / d) * d == t;
      assert (t / d + 2.0) * d == t + 2.0 * d;
      DivUnique(t + 2.0 * d, d, t / d + 2.0);
      FoldPeriodic(t / d);
    }
  }

  /** A scalar transition stays between its two end values. */
  lemma TransitionBetween(a: real, b: real, d: real, t: real)
    requires d != 0.0
    ensures var r := Get(Transition(a, b, d), t, LerpReal).value;
      (a <= b ==> a <= r <= b) && (b <= a ==> b <= r <= a)
  {
    EaseBounded(Fold(t / d));
  }

  /** The component of a relativistic plot. */
  datatype RelativisticComponent = RelP | RelTheta

  /** `RelativisticComponent::from_str`. */
  function ParseComponent(s: string): (r: Result<RelativisticComponent, string>)
    ensures r.Ok? <==> s == "P" || s == "Theta"
    ensures r.Err? ==> r.error == "Could not parse component"
  {
    if s == "P" then Ok(RelP)
    else if s == "Theta" then Ok(RelTheta)
    else Err("Could not parse component")
  }

  /** `Display` for `RelativisticComponent`. */
  function PrintComponent(c: RelativisticComponent): (s: string)
    ensures |s| >= 1
  {
    match c
    case RelP => "P"
    case RelTheta => "Theta"
  }

  /** Printing then parsing gives the component back, and every accepted text is the printed form of what it parses to. */
  lemma ComponentRoundTrip(c: RelativisticComponent, s: string)
    ensures ParseComponent(PrintComponent(c)) == Ok(c)
    ensures ParseComponent(s).Ok? ==> PrintComponent(ParseComponent(s).value) == s
  {
  }
}
