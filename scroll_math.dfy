/** Real-number helpers shared by every scroll hook: the `Math.min`, `Math.max`,
    `Math.abs` and clamp-to-[0,1] idioms of the hooks and components, and
    powers for stating how fast smoothing converges. */
module ScrollMath {

  /** An optional value: an absent option, or a missing DOM element. */
  datatype Option<T> = None | Some(value: T)

  /** What a sampler reads of a tracked element: `getBoundingClientRect().top`
      and its height (`offsetHeight`, or `rect.height`), in pixels. */
  datatype Element = Element(top: real, height: real)

  function Min(a: real, b: real): (r: real)
    ensures r <= a && r <= b
    ensures r == a || r == b
  {
    if a <= b then a else b
  }

  function Max(a: real, b: real): (r: real)
    ensures r >= a && r >= b
    ensures r == a || r == b
  {
    if a >= b then a else b
  }

  function IntMin(a: int, b: int): (r: int)
    ensures r <= a && r <= b
    ensures r == a || r == b
  {
    if a <= b then a else b
  }

  function IntMax(a: int, b: int): (r: int)
    ensures r >= a && r >= b
    ensures r == a || r == b
  {
    if a >= b then a else b
  }

  function Abs(x: real): (r: real)
    ensures r >= 0.0
  {
    if x < 0.0 then -x else x
  }

  predicate InUnit(x: real) {
    0.0 <= x <= 1.0
  }

  /** `Math.max(0, Math.min(1, p))`: the clamp every sampler applies last. */
  function Clamp01(p: real): (r: real)
    ensures InUnit(r)
    ensures InUnit(p) ==> r == p
    ensures p <= 0.0 ==> r == 0.0
    ensures p >= 1.0 ==> r == 1.0
  {
    Max(0.0, Min(1.0, p))
  }

  /** Clamping keeps the order of its arguments. */
  lemma Clamp01Monotone(p: real, q: real)
    requires p <= q
    ensures Clamp01(p) <= Clamp01(q)
  {
  }

  /** `x` lies on the closed segment between `a` and `b`, in either order. */
  predicate Between(a: real, b: real, x: real) {
    (a <= x <= b) || (b <= x <= a)
  }

  function Pow(x: real, n: nat): (r: real)
    ensures 0.0 <= x ==> 0.0 <= r
  {
    if n == 0 then 1.0 else x * Pow(x, n - 1)
  }

  /** A product of two non-negative reals is non-negative. */
  lemma MulNonneg(a: real, b: real)
    requires 0.0 <= a && 0.0 <= b
    ensures 0.0 <= a * b
  {
  }

  /** Scaling a non-negative number by a factor in [0,1] cannot enlarge it. */
  lemma ScaleDown(x: real, p: real)
    requires 0.0 <= x <= 1.0 && 0.0 <= p
    ensures x * p <= p
  {
    MulNonneg(1.0 - x, p);
  }

  /** Scaling by a non-negative number scales the absolute value alike. */
  lemma AbsScale(a: real, x: real)
    requires 0.0 <= a
    ensures Abs(a * x) == a * Abs(x)
  {
    if x < 0.0 {
      MulNonneg(a, -x);
      assert a * x == -(a * -x);
    } else {
      MulNonneg(a, x);
    }
  }

  /** Multiplying both sides of an inequality by a non-negative number. */
  lemma MulLeft(a: real, x: real, y: real)
    requires 0.0 <= a && x <= y
    ensures a * x <= a * y
  {
    MulNonneg(a, y - x);
  }

  /** Dividing by a positive number keeps order. */
  lemma DivMonotone(a: real, b: real, d: real)
    requires 0.0 < d && a <= b
    ensures a / d <= b / d
  {
  }

  /** Dividing by a negative number reverses order. */
  lemma NegativeDivAntitone(a: real, b: real, d: real)
    requires d < 0.0 && a <= b
    ensures b / d <= a / d
  {
    DivMonotone(a, b, -d);
    assert a / d == -(a / -d);
    assert b / d == -(b / -d);
  }

  /** A quotient by a positive denominator lies in [0,1] exactly when the
      numerator lies in [0, denominator], and it undoes the division. */
  lemma QuotientBounds(a: real, d: real)
    requires 0.0 < d
    ensures (a / d) * d == a
    ensures a <= 0.0 ==> a / d <= 0.0
    ensures a >= d ==> a / d >= 1.0
    ensures 0.0 <= a <= d ==> InUnit(a / d)
  {
    assert d / d == 1.0;
    assert 0.0 / d == 0.0;
    if a >= d {
      DivMonotone(d, a, d);
    }
    if 0.0 <= a <= d {
      DivMonotone(0.0, a, d);
      DivMonotone(a, d, d);
    }
  }

  /** One more factor in [0,1] cannot enlarge a power. */
  lemma PowStepDown(x: real, n: nat)
    requires 0.0 <= x <= 1.0
    ensures Pow(x, n + 1) <= Pow(x, n)
  {
    var p := Pow(x, n);
    assert Pow(x, n + 1) == x * p;
    ScaleDown(x, p);
  }

  /** A power of a number in [0,1] shrinks as the exponent grows. */
  lemma {:induction false} PowAntitone(x: real, m: nat, n: nat)
    requires 0.0 <= x <= 1.0
    requires m <= n
    ensures Pow(x, n) <= Pow(x, m)
    ensures Pow(x, n) <= 1.0
    decreases n
  {
    if n == 0 {
      assert Pow(x, 0) == 1.0;
    } else {
      PowStepDown(x, n - 1);
      PowAntitone(x, if m == n then n - 1 else m, n - 1);
    }
  }

  /** A product with a positive factor below one is strictly smaller. */
  lemma StrictScale(x: real, p: real)
    requires 0.0 <= x < 1.0 && 0.0 < p
    ensures x * p < p
  {
    MulPos(1.0 - x, p);
  }

  /** A product of two positive reals is positive. */
  lemma MulPos(a: real, b: real)
    requires 0.0 < a && 0.0 < b
    ensures 0.0 < a * b
  {
  }

  /** `Math.floor` keeps order. */
  lemma FloorMonotone(x: real, y: real)
    requires x <= y
    ensures x.Floor <= y.Floor
  {
  }

  /** `r * (1/n) == x` gives `r == x * n`. */
  lemma UndoDivision(r: real, x: real, n: real)
    requires n > 0.0 && r * (1.0 / n) == x
    ensures r == x * n
  {
    assert x * n == r * ((1.0 / n) * n);
  }
}
