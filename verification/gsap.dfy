/** Stand-ins for the three GSAP utilities the mapper calls: the `power2.out` ease,
    `gsap.utils.clamp` and `gsap.utils.interpolate` (numeric form). */
module Gsap {
  import opened JsMath

  /** `gsap.parseEase('power2.out')`. In GSAP 3 the eases Power0..Power4 are Linear, Quad,
      Cubic, Quart and Quint, so `power2` is the cubic curve and its ease-out form is
      1 - (1 - t)^3: it starts fast and decelerates into 1. */
  function PowerTwoOut(t: real): (r: real)
    ensures 0.0 <= t <= 1.0 ==> 0.0 <= r <= 1.0
  {
    1.0 - Cube(1.0 - t)
  }

  /** The cube, as the third power. */
  function Cube(u: real): (c: real)
    ensures 0.0 <= u <= 1.0 ==> 0.0 <= c <= u
  {
    CubeIsProduct(u);
    CubeBounds(u, Power(u, 3));
    Power(u, 3)
  }

  /** `u` raised to the `n`-th power. Only the cube is used; writing it as a recursive power
      keeps the product u·u·u out of the solver's view until `CubeIsProduct` unfolds it,
      which keeps the nonlinear arithmetic in the ease's proofs small. */
  function Power(u: real, n: nat): real
  {
    if n == 0 then 1.0 else u * Power(u, n - 1)
  }

  lemma CubeIsProduct(u: real)
    ensures Power(u, 3) == u * u * u
  {
    assert Power(u, 1) == u;
    assert Power(u, 2) == u * u;
  }

  /** Where a product u·u·u lies, given where u lies. */
  lemma CubeBounds(u: real, c: real)
    requires c == u * u * u
    ensures 0.0 <= u <= 1.0 ==> 0.0 <= c <= u
    ensures u <= 0.0 ==> c <= 0.0
    ensures 0.0 < u ==> 0.0 < c
  {
    SquareNonNeg(u);
    if u <= 0.0 {
      MulMonotone(u, 0.0, u * u);
    } else {
      MulStrictMonotone(0.0, u, u);
      MulStrictMonotone(0.0, u, u * u);
      if u <= 1.0 {
        MulMonotone(u, 1.0, u);
        MulMonotone(u * u, 1.0, u);
      }
    }
  }

  /** Cubing is monotone over all reals. */
  lemma CubeMonotone(u: real, v: real)
    requires u <= v
    ensures Cube(u) <= Cube(v)
  {
    if 0.0 <= u {
      NonNegCubeMonotone(u, v);
    } else if v <= 0.0 {
      NonNegCubeMonotone(-v, -u);
      CubeOdd(u);
      CubeOdd(v);
    } else {
      CubeIsProduct(u);
      CubeIsProduct(v);
      CubeBounds(u, Cube(u));
      CubeBounds(v, Cube(v));
    }
  }

  lemma CubeOdd(u: real)
    ensures Cube(-u) == -Cube(u)
  {
    CubeIsProduct(u);
    CubeIsProduct(-u);
    assert (-u) * (-u) == u * u;
  }

  lemma SquareNonNeg(x: real)
    ensures x * x >= 0.0
  {
    if x < 0.0 {
      MulMonotone(0.0, -x, -x);
      assert (-x) * (-x) == x * x;
    } else {
      MulMonotone(0.0, x, x);
    }
  }

  lemma NonNegCubeMonotone(a: real, b: real)
    requires 0.0 <= a <= b
    ensures Cube(a) <= Cube(b)
  {
    CubeIsProduct(a);
    CubeIsProduct(b);
    CubeOrder(a, b, Cube(a), Cube(b));
  }

  /** Between non-negative numbers, the products u·u·u keep order. */
  lemma CubeOrder(a: real, b: real, ca: real, cb: real)
    requires 0.0 <= a <= b && ca == a * a * a && cb == b * b * b
    ensures ca <= cb
  {
    MulMonotone(a, b, a);
    MulMonotone(a, b, b);
    SquareNonNeg(b);
    MulMonotone(a * a, b * b, a);
    MulMonotone(a, b, b * b);
  }

  /** The ease never runs backwards: a later input is never eased to an earlier output. */
  lemma {:induction false} EaseMonotone(a: real, b: real)
    requires a <= b
    ensures PowerTwoOut(a) <= PowerTwoOut(b)
  {
    CubeMonotone(1.0 - b, 1.0 - a);
  }

  /** The curve is fixed at both ends of [0, 1]. */
  lemma EaseEndpoints()
    ensures PowerTwoOut(0.0) == 0.0 && PowerTwoOut(1.0) == 1.0
  {
    CubeIsProduct(0.0);
    CubeIsProduct(1.0);
  }

  /** Ease-out lies on or above the linear ramp on [0, 1]: it decelerates. */
  lemma EaseOutLeadsLinear(t: real)
    requires 0.0 <= t <= 1.0
    ensures t <= PowerTwoOut(t)
  {
  }

  /** On [0, 1] the eased value reaches 1 only at t = 1. */
  lemma EaseReachesOneOnlyAtOne(t: real)
    requires 0.0 <= t <= 1.0
    ensures PowerTwoOut(t) == 1.0 <==> t == 1.0
  {
    var u := 1.0 - t;
    CubeIsProduct(u);
    CubeBounds(u, Cube(u));
  }

  /** `gsap.utils.clamp(lo, hi, v)`: below `lo` gives `lo`, above `hi` gives `hi`, otherwise `v`. */
  function Clamp(lo: real, hi: real, v: real): (r: real)
    ensures lo <= hi ==> lo <= r <= hi
    ensures lo <= v <= hi ==> r == v
  {
    if v < lo then lo else if v > hi then hi else v
  }

  /** Clamping into a non-empty range keeps order. */
  lemma ClampMonotone(lo: real, hi: real, a: real, b: real)
    requires lo <= hi && a <= b
    ensures Clamp(lo, hi, a) <= Clamp(lo, hi, b)
  {
  }

  /** `gsap.utils.interpolate(a, b, t)` on numbers: the point a fraction `t` of the way from `a` to `b`. */
  function Interpolate(a: real, b: real, t: real): (r: real)
    ensures t == 0.0 ==> r == a
    ensures t == 1.0 ==> r == b
    ensures 0.0 <= t <= 1.0 ==> (a <= r <= b || b <= r <= a)
  {
    var d := b - a;
    FractionOf(d, t);
    a + d * t
  }

  /** A fraction in [0, 1] of a span lies between 0 and the span. */
  lemma FractionOf(d: real, t: real)
    ensures 0.0 <= t <= 1.0 ==> (0.0 <= d * t <= d || d <= d * t <= 0.0)
  {
    if 0.0 <= t <= 1.0 {
      if d >= 0.0 {
        MulMonotone(0.0, t, d);
        MulMonotone(t, 1.0, d);
      } else {
        MulMonotone(0.0, t, -d);
        MulMonotone(t, 1.0, -d);
        assert (-d) * t == -(d * t);
      }
    }
  }

  /** Short of t = 1 a sweep between two distinct points has not arrived. */
  lemma InterpolateArrivesOnlyAtOne(a: real, b: real, t: real)
    requires a != b
    ensures Interpolate(a, b, t) == b <==> t == 1.0
  {
    if Interpolate(a, b, t) == b {
      assert (b - a) * t == (b - a) * 1.0;
    }
  }
}
