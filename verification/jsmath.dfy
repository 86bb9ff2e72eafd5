/** Stand-ins for the parts of the browser's `Math` object that the scroll mapper uses:
    `Math.max`, `Math.min`, `Math.abs`, `Math.PI`, `Math.sin` and `Math.random`. */
module JsMath {

  /** `Math.PI`, to the precision of a double. */
  const Pi: real := 3.141592653589793

  function Max(a: real, b: real): (r: real)
    ensures r >= a && r >= b
    ensures r == a || r == b
  {
    if a >= b then a else b
  }

  function Min(a: real, b: real): (r: real)
    ensures r <= a && r <= b
    ensures r == a || r == b
  {
    if a <= b then a else b
  }

  function Abs(x: real): (r: real)
    ensures r >= 0.0
    ensures r == x || r == -x
  {
    if x < 0.0 then -x else x
  }

  /** `Math.sin`: the angle is reduced to one period [0, 2π); the half period [0, π] uses
      Bhaskara I's rational approximation and the other half its odd reflection. What the
      rest of the model relies on is only the range, which holds for every input. */
  function Sin(x: real): (s: real)
    ensures -1.0 <= s <= 1.0
  {
    var u := x - 2.0 * Pi * ((x / (2.0 * Pi)).Floor as real);
    if u < Pi then HalfSine(u) else -HalfSine(u - Pi)
  }

  /** Bhaskara's approximation 16y(π - y) / (5π² - 4y(π - y)) of the sine on [0, π]; an argument
      outside [0, π] is first clamped into it. */
  function HalfSine(y: real): (s: real)
    ensures 0.0 <= s <= 1.0
  {
    var v := if y < 0.0 then 0.0 else if y > Pi then Pi else y;
    var p := v * (Pi - v);
    BhaskaraRange(v);
    16.0 * p / (5.0 * Pi * Pi - 4.0 * p)
  }

  /** On [0, π] the product y(π - y) is at most π²/4, so Bhaskara's quotient lies in [0, 1]. */
  lemma BhaskaraRange(v: real)
    requires 0.0 <= v <= Pi
    ensures var p := v * (Pi - v);
            && 0.0 <= p <= Pi * Pi / 4.0
            && 5.0 * Pi * Pi - 4.0 * p > 0.0
            && 0.0 <= 16.0 * p / (5.0 * Pi * Pi - 4.0 * p) <= 1.0
  {
    var w := Pi - v;
    var p := v * w;
    MulMonotone(0.0, v, w);
    var h := v - Pi / 2.0;
    assert Pi * Pi / 4.0 - p == h * h;
    var d := 5.0 * Pi * Pi - 4.0 * p;
    QuotientAtMostOne(16.0 * p, d);
  }

  /** The reciprocal of a positive number is positive. */
  lemma ReciprocalPositive(d: real, k: real)
    requires d > 0.0 && k == 1.0 / d
    ensures k > 0.0 && k * d == 1.0
  {
    assert k * d == 1.0;
    if k <= 0.0 {
      MulMonotone(k, 0.0, d);
    }
  }

  /** Scaling two ordered values by the same non-negative factor keeps them ordered. */
  lemma ScaledOrder(x1: real, x2: real, k: real, y1: real, y2: real)
    requires x1 <= x2 && k >= 0.0 && y1 == x1 * k && y2 == x2 * k
    ensures y1 <= y2
  {
    MulMonotone(x1, x2, k);
  }

  /** Scaling two strictly ordered values by the same positive factor keeps them strictly ordered. */
  lemma ScaledStrictOrder(x1: real, x2: real, k: real, y1: real, y2: real)
    requires x1 < x2 && k > 0.0 && y1 == x1 * k && y2 == x2 * k
    ensures y1 < y2
  {
    MulStrictMonotone(x1, x2, k);
  }

  /** Dividing by a positive number keeps order, strict or not. */
  lemma DivMonotone(a: real, b: real, d: real)
    requires a <= b && d > 0.0
    ensures a / d <= b / d
    ensures a < b ==> a / d < b / d
  {
    var qa, qb := a / d, b / d;
    assert qa * d == a && qb * d == b;
    if qb < qa {
      MulStrictMonotone(qb, qa, d);
    }
  }

  /** A non-negative numerator no larger than a positive denominator gives a quotient in [0, 1]. */
  lemma QuotientAtMostOne(a: real, d: real)
    requires 0.0 <= a <= d && d > 0.0
    ensures 0.0 <= a / d <= 1.0
  {
    var q := a / d;
    assert q * d == a;
    if q > 1.0 {
      MulStrictMonotone(1.0, q, d);
    }
    if q < 0.0 {
      MulStrictMonotone(q, 0.0, d);
    }
  }

  /** One result of `Math.random()`: a number in [0, 1). */
  predicate IsDraw(r: real) {
    0.0 <= r < 1.0
  }

  /** A run of consecutive `Math.random()` results. */
  predicate Draws(rs: seq<real>) {
    forall k :: 0 <= k < |rs| ==> IsDraw(rs[k])
  }

  /** Multiplying by a non-negative factor keeps order. */
  lemma MulMonotone(x: real, y: real, k: real)
    requires x <= y && k >= 0.0
    ensures x * k <= y * k && k * x <= k * y
  {
  }

  /** Multiplying by a positive factor keeps strict order. */
  lemma MulStrictMonotone(x: real, y: real, k: real)
    requires x < y && k > 0.0
    ensures x * k < y * k && k * x < k * y
  {
  }

  /** Scaling a value that lies in [-1, 1] by a non-negative amplitude keeps it within that amplitude. */
  lemma ScaledWaveBounded(s: real, amp: real)
    requires -1.0 <= s <= 1.0 && amp >= 0.0
    ensures Abs(s * amp) <= amp
  {
    if s >= 0.0 {
      assert s * amp <= 1.0 * amp;
    } else {
      assert -(s * amp) == (-s) * amp <= 1.0 * amp;
    }
  }
}
