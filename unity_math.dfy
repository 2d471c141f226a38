/** The handful of Unity `Mathf` and `Vector2` operations the indicator scripts use,
    stated over real numbers with the clamping behaviour Unity gives them. */
module UnityMath {

  /** `Mathf.Max(a, b)`: `a` when it is greater, otherwise `b`. */
  function Max(a: real, b: real): (r: real)
    ensures r >= a && r >= b
    ensures r == a || r == b
  {
    if a > b then a else b
  }

  /** `Mathf.Clamp(value, min, max)`: below `min` gives `min`, otherwise above `max` gives `max`. */
  function Clamp(v: real, lo: real, hi: real): (r: real)
    ensures lo <= hi ==> lo <= r <= hi
    ensures lo <= v <= hi ==> r == v
    ensures r == v || r == lo || r == hi
  {
    if v < lo then lo else if v > hi then hi else v
  }

  /** Distance between two reals; used to state that clamping picks the nearest point. */
  function Dist(a: real, b: real): (r: real)
    ensures r >= 0.0
    ensures r == 0.0 <==> a == b
  {
    if a >= b then a - b else b - a
  }

  /** Clamping to a non-empty interval returns the point of the interval nearest to `v`. */
  lemma ClampIsNearest(v: real, lo: real, hi: real, x: real)
    requires lo <= hi && lo <= x <= hi
    ensures lo <= Clamp(v, lo, hi) <= hi
    ensures Dist(Clamp(v, lo, hi), v) <= Dist(x, v)
  {
  }

  /** Clamping is monotone in the clamped value. */
  lemma ClampMonotone(u: real, v: real, lo: real, hi: real)
    requires u <= v && lo <= hi
    ensures Clamp(u, lo, hi) <= Clamp(v, lo, hi)
  {
  }

  /** `Mathf.Clamp01(value)`. */
  function Clamp01(v: real): (r: real)
    ensures 0.0 <= r <= 1.0
    ensures 0.0 <= v <= 1.0 ==> r == v
    ensures v <= 0.0 ==> r == 0.0
    ensures v >= 1.0 ==> r == 1.0
  {
    if v < 0.0 then 0.0 else if v > 1.0 then 1.0 else v
  }

  /** `Mathf.InverseLerp(a, b, value)`: the clamped fraction of the way from `a` to `b`,
      and 0 when the two ends coincide. */
  function InverseLerp(a: real, b: real, v: real): (r: real)
    ensures 0.0 <= r <= 1.0
    ensures a == b ==> r == 0.0
  {
    if a != b then Clamp01((v - a) / (b - a)) else 0.0
  }

  /** On a rising interval the fraction is 0 at and below `a` and 1 at and above `b`. */
  lemma InverseLerpEnds(a: real, b: real, v: real)
    requires a < b
    ensures v <= a ==> InverseLerp(a, b, v) == 0.0
    ensures v >= b ==> InverseLerp(a, b, v) == 1.0
    ensures a <= v <= b ==> InverseLerp(a, b, v) == (v - a) / (b - a)
  {
    QuotientBounds(v - a, b - a);
  }

  /** On a rising interval `InverseLerp` is non-decreasing in the value. */
  lemma InverseLerpMonotone(a: real, b: real, u: real, v: real)
    requires a < b && u <= v
    ensures InverseLerp(a, b, u) <= InverseLerp(a, b, v)
  {
    assert (v - a) / (b - a) - (u - a) / (b - a) == (v - u) / (b - a);
    QuotientBounds(v - u, b - a);
  }

  /** `Mathf.Lerp(a, b, t)`: `t` is clamped to [0, 1] first, so the result never leaves
      the segment between `a` and `b`. */
  function Lerp(a: real, b: real, t: real): (r: real)
    ensures a <= b ==> a <= r <= b
    ensures t <= 0.0 ==> r == a
    ensures t >= 1.0 ==> r == b
  {
    a + Scale(b - a, Clamp01(t))
  }

  /** `k * c` for a fraction `c`: a non-negative span scaled by it stays within the span. */
  function Scale(k: real, c: real): (r: real)
    requires 0.0 <= c <= 1.0
    ensures k >= 0.0 ==> 0.0 <= r <= k
  {
    if k >= 0.0 then ScaleWithinUnit(k, c); k * c else k * c
  }

  lemma ScaleWithinUnit(k: real, c: real)
    requires 0.0 <= c <= 1.0 && k >= 0.0
    ensures 0.0 <= k * c <= k
  {
    MulNonneg(k, c);
    MulNonneg(k, 1.0 - c);
    assert k * (1.0 - c) == k - k * c;
  }

  lemma MulNonneg(x: real, y: real)
    requires x >= 0.0 && y >= 0.0
    ensures x * y >= 0.0
  {
  }

  /** Where a quotient by a positive divisor lies, read off the numerator. */
  lemma QuotientBounds(n: real, d: real)
    requires d > 0.0
    ensures n >= 0.0 ==> n / d >= 0.0
    ensures n <= 0.0 ==> n / d <= 0.0
    ensures n <= d ==> n / d <= 1.0
    ensures n >= d ==> n / d >= 1.0
  {
    var q := n / d;
    assert q * d == n;
    if q < 0.0 {
      MulNonneg(-q, d);
    }
    if q > 0.0 {
      MulNonneg(q, d);
    }
    if q > 1.0 {
      MulNonneg(q - 1.0, d);
    }
    if q < 1.0 {
      MulNonneg(1.0 - q, d);
    }
  }

  /** With `a <= b`, `Lerp` is non-decreasing in `t`. */
  lemma LerpMonotone(a: real, b: real, s: real, t: real)
    requires a <= b && s <= t
    ensures Lerp(a, b, s) <= Lerp(a, b, t)
  {
    var cs, ct := Clamp01(s), Clamp01(t);
    assert cs <= ct;
    assert Scale(b - a, ct) - Scale(b - a, cs) == (b - a) * (ct - cs);
    MulNonneg(b - a, ct - cs);
  }

  /** Unity's `Vector2`. */
  datatype Vec2 = Vec2(x: real, y: real)

  /** `Vector2.right`. */
  const Right: Vec2 := Vec2(1.0, 0.0)

  /** `v.sqrMagnitude`. */
  function SqrMagnitude(v: Vec2): (r: real)
    ensures r >= 0.0
  {
    v.x * v.x + v.y * v.y
  }

  /** `Vector2.Dot(a, b)`. */
  function Dot(a: Vec2, b: Vec2): (r: real)
    ensures a == b ==> r == SqrMagnitude(a)
  {
    a.x * b.x + a.y * b.y
  }
}
