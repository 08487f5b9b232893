/**
 * Scalar helpers: three.js's `clamp` and `lerp` (re-exported by math.ts) and the two
 * cubic easing curves. `Math.pow(x, 3)` is written as `x * x * x`.
 */
module MathUtils {

  function Min(a: real, b: real): (r: real)
    ensures r <= a && r <= b && (r == a || r == b)
  {
    if a <= b then a else b
  }

  function Max(a: real, b: real): (r: real)
    ensures r >= a && r >= b && (r == a || r == b)
  {
    if a >= b then a else b
  }

  /** three.js `clamp(value, min, max)`, defined there as `max(min, min(max, value))`. */
  function Clamp(v: real, lo: real, hi: real): (r: real)
    ensures lo <= hi ==> lo <= r <= hi
    ensures lo <= v <= hi ==> r == v
    ensures lo <= hi && v <= lo ==> r == lo
    ensures lo <= hi && hi <= v ==> r == hi
  {
    Max(lo, Min(hi, v))
  }

  /** Clamping preserves the order of its argument. */
  lemma ClampMonotone(a: real, b: real, lo: real, hi: real)
    requires a <= b
    ensures Clamp(a, lo, hi) <= Clamp(b, lo, hi)
  {
  }

  /** three.js `lerp(x, y, t)`, defined there as `(1 - t) * x + t * y`. */
  function Lerp(x: real, y: real, t: real): (r: real)
    ensures t == 0.0 ==> r == x
    ensures t == 1.0 ==> r == y
  {
    (1.0 - t) * x + t * y
  }

  /** For a parameter in [0,1] the interpolant lies between its two ends. */
  lemma LerpBetween(x: real, y: real, t: real)
    requires 0.0 <= t <= 1.0
    ensures Min(x, y) <= Lerp(x, y, t) <= Max(x, y)
  {
    var d := y - x;
    assert Lerp(x, y, t) == x + t * d;
    if d >= 0.0 {
      assert 0.0 <= t * d;
      assert (1.0 - t) * d >= 0.0;
    } else {
      assert t * d <= 0.0;
      assert (1.0 - t) * d <= 0.0;
    }
  }

  /** `1 - (1 - t)^3`: it stays below 1 before `t = 1` and above 1 after it. */
  function EaseOutCubic(t: real): (r: real)
    ensures t <= 1.0 ==> r <= 1.0
    ensures t >= 1.0 ==> r >= 1.0
  {
    var u := 1.0 - t;
    assert u >= 0.0 ==> u * u * u >= 0.0 by {
      if u >= 0.0 { assert u * u >= 0.0; }
    }
    assert u <= 0.0 ==> u * u * u <= 0.0 by {
      if u <= 0.0 { assert u * u >= 0.0; }
    }
    1.0 - u * u * u
  }

  /** `t^3`: it keeps the sign of `t`. */
  function EaseInCubic(t: real): (r: real)
    ensures t >= 0.0 ==> r >= 0.0
    ensures t <= 0.0 ==> r <= 0.0
  {
    assert t >= 0.0 ==> t * t * t >= 0.0 by {
      if t >= 0.0 { assert t * t >= 0.0; }
    }
    assert t <= 0.0 ==> t * t * t <= 0.0 by {
      if t <= 0.0 { assert t * t >= 0.0; }
    }
    t * t * t
  }

  lemma EaseOutCubicEnds()
    ensures EaseOutCubic(0.0) == 0.0 && EaseOutCubic(1.0) == 1.0
  {
  }

  lemma EaseInCubicEnds()
    ensures EaseInCubic(0.0) == 0.0 && EaseInCubic(1.0) == 1.0
  {
  }

  /** The two easings are mirror images: easing out is easing in, reflected in both axes. */
  lemma EaseSymmetry(t: real)
    ensures EaseOutCubic(t) == 1.0 - EaseInCubic(1.0 - t)
  {
  }

  /** Ease-in is non-decreasing everywhere (a cube is monotone). */
  lemma EaseInCubicMonotone(a: real, b: real)
    requires a <= b
    ensures EaseInCubic(a) <= EaseInCubic(b)
  {
    var q := a * a + a * b + b * b;
    assert q == (a + b / 2.0) * (a + b / 2.0) + 3.0 * b * b / 4.0;
    var h := a + b / 2.0;
    assert h * h >= 0.0 && b * b >= 0.0;
    assert q >= 0.0;
    assert b * b * b - a * a * a == (b - a) * q;
    assert (b - a) * q >= 0.0;
  }

  /** Ease-out is non-decreasing everywhere. */
  lemma EaseOutCubicMonotone(a: real, b: real)
    requires a <= b
    ensures EaseOutCubic(a) <= EaseOutCubic(b)
  {
    EaseInCubicMonotone(1.0 - b, 1.0 - a);
    EaseSymmetry(a);
    EaseSymmetry(b);
  }

  /** Ease-in maps [0,1] into [0,1]. */
  lemma EaseInCubicRange(t: real)
    requires 0.0 <= t <= 1.0
    ensures 0.0 <= EaseInCubic(t) <= 1.0
  {
    EaseInCubicMonotone(0.0, t);
    EaseInCubicMonotone(t, 1.0);
  }

  /** Ease-out maps [0,1] into [0,1]. */
  lemma EaseOutCubicRange(t: real)
    requires 0.0 <= t <= 1.0
    ensures 0.0 <= EaseOutCubic(t) <= 1.0
  {
    EaseOutCubicMonotone(0.0, t);
    EaseOutCubicMonotone(t, 1.0);
  }
}
