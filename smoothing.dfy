/** The per-frame smoother shared by `useScrollStory` and `useSmoothReveal`:
    each animation frame moves the displayed value a fixed fraction of the way
    toward the latest target, and snaps onto the target once it is closer than
    a small threshold. */
module Smoothing {
  import opened ScrollMath

  /** `lerp(start, end, factor)`: the point a fraction `factor` of the way from
      `start` to `end`. */
  function Lerp(start: real, end: real, factor: real): (r: real)
    ensures factor == 0.0 ==> r == start
    ensures factor == 1.0 ==> r == end
  {
    start + (end - start) * factor
  }

  /** For a factor in [0,1] the interpolated point never leaves the segment. */
  lemma LerpBetween(start: real, end: real, factor: real)
    requires 0.0 <= factor <= 1.0
    ensures Between(start, end, Lerp(start, end, factor))
  {
    var w := end - start;
    PartialStep(start, w, factor);
    assert Lerp(start, end, factor) == start + w * factor;
    assert start + w == end;
  }

  /** Going a fraction `f` in [0,1] of a signed step `w` stays within the step. */
  lemma PartialStep(s: real, w: real, f: real)
    requires 0.0 <= f <= 1.0
    ensures 0.0 <= w ==> s <= s + w * f <= s + w
    ensures w < 0.0 ==> s + w <= s + w * f <= s
  {
    if 0.0 <= w {
      ScaleDown(f, w);
      MulNonneg(f, w);
    } else {
      ScaleDown(f, -w);
      MulNonneg(f, -w);
      assert w * f == -(f * -w);
    }
  }

  /** Away from the target, one interpolation scales the error by `1 - factor`. */
  lemma LerpError(start: real, end: real, factor: real)
    ensures end - Lerp(start, end, factor) == (1.0 - factor) * (end - start)
  {
  }

  /** One animation frame: snap onto `target` when closer than `epsilon`,
      otherwise interpolate by `factor`. */
  function SmoothStep(prev: real, target: real, factor: real, epsilon: real): (r: real)
    ensures Abs(target - prev) < epsilon ==> r == target
    ensures Abs(target - prev) >= epsilon ==> r == Lerp(prev, target, factor)
    ensures prev == target ==> r == target
  {
    if Abs(target - prev) < epsilon then target else Lerp(prev, target, factor)
  }

  /** A frame never overshoots: the new value lies between the old value and
      the target, so the distance to the target never grows. */
  lemma StepBetween(prev: real, target: real, factor: real, epsilon: real)
    requires 0.0 <= factor <= 1.0
    ensures Between(prev, target, SmoothStep(prev, target, factor, epsilon))
    ensures Abs(target - SmoothStep(prev, target, factor, epsilon)) <= Abs(target - prev)
  {
    if Abs(target - prev) >= epsilon {
      LerpBetween(prev, target, factor);
    }
  }

  /** A frame keeps a value in [0,1] when the target lies in [0,1]. */
  lemma StepInUnit(prev: real, target: real, factor: real, epsilon: real)
    requires 0.0 <= factor <= 1.0
    requires InUnit(prev) && InUnit(target)
    ensures InUnit(SmoothStep(prev, target, factor, epsilon))
  {
    StepBetween(prev, target, factor, epsilon);
  }

  /** One frame as a function of the displayed value, for a fixed target. */
  function Frame(target: real, factor: real, epsilon: real): real -> real {
    x => SmoothStep(x, target, factor, epsilon)
  }

  /** The value after `n` applications of `step`, starting from `start`. */
  function Iterate(step: real -> real, start: real, n: nat): real {
    if n == 0 then start else step(Iterate(step, start, n - 1))
  }

  /** The displayed value after `n` frames with an unchanged target. */
  function Ticks(start: real, target: real, factor: real, epsilon: real, n: nat): real {
    Iterate(Frame(target, factor, epsilon), start, n)
  }

  /** `n + 1` frames are one more frame after `n`. */
  lemma TicksNext(start: real, target: real, factor: real, epsilon: real, n: nat)
    ensures Ticks(start, target, factor, epsilon, n + 1) == SmoothStep(Ticks(start, target, factor, epsilon, n), target, factor, epsilon)
  {
  }

  /** Per frame the distance to the target shrinks at least by `1 - factor`. */
  lemma StepDistance(prev: real, target: real, factor: real, epsilon: real)
    requires 0.0 <= factor <= 1.0
    ensures Abs(target - SmoothStep(prev, target, factor, epsilon)) <= (1.0 - factor) * Abs(target - prev)
  {
    if Abs(target - prev) < epsilon {
      MulNonneg(1.0 - factor, Abs(target - prev));
    } else {
      AbsScale(1.0 - factor, target - prev);
    }
  }

  /** No frame overshoots, whatever the displayed value. */
  lemma FrameBetween(target: real, factor: real, epsilon: real)
    requires 0.0 <= factor <= 1.0
    ensures forall x :: Between(x, target, Frame(target, factor, epsilon)(x))
  {
    forall x ensures Between(x, target, Frame(target, factor, epsilon)(x)) {
      StepBetween(x, target, factor, epsilon);
    }
  }

  /** Iterating a step that never overshoots `target` approaches it monotonically. */
  lemma {:induction false} IterateMonotone(step: real -> real, target: real, start: real, m: nat, n: nat)
    requires forall x :: Between(x, target, step(x))
    requires m <= n
    ensures Between(Iterate(step, start, m), target, Iterate(step, start, n))
  {
    if m < n {
      IterateMonotone(step, target, start, m, n - 1);
      var prev := Iterate(step, start, n - 1);
      assert Between(prev, target, step(prev));
    }
  }

  /** A step that fixes `target` keeps every later value on it. */
  lemma {:induction false} IterateStays(step: real -> real, target: real, start: real, m: nat, n: nat)
    requires step(target) == target
    requires m <= n
    requires Iterate(step, start, m) == target
    ensures Iterate(step, start, n) == target
  {
    if m < n {
      IterateStays(step, target, start, m, n - 1);
    }
  }

  /** Convergence is monotone: between any two frames `m <= n` the later value
      lies between the earlier one and the target, so it never overshoots. */
  lemma TicksMonotone(start: real, target: real, factor: real, epsilon: real, m: nat, n: nat)
    requires 0.0 <= factor <= 1.0
    requires m <= n
    ensures Between(Ticks(start, target, factor, epsilon, m), target, Ticks(start, target, factor, epsilon, n))
  {
    FrameBetween(target, factor, epsilon);
    IterateMonotone(Frame(target, factor, epsilon), target, start, m, n);
  }

  /** Once a frame lands exactly on the target, every later frame stays there. */
  lemma TicksStayAtTarget(start: real, target: real, factor: real, epsilon: real, m: nat, n: nat)
    requires m <= n
    requires Ticks(start, target, factor, epsilon, m) == target
    ensures Ticks(start, target, factor, epsilon, n) == target
  {
    assert Frame(target, factor, epsilon)(target) == target;
    IterateStays(Frame(target, factor, epsilon), target, start, m, n);
  }

  /** Away from a snap, a frame with a positive factor moves at least
      `factor * epsilon` closer to the target; otherwise it lands on it. */
  lemma StepApproach(prev: real, target: real, factor: real, epsilon: real)
    requires 0.0 < factor <= 1.0 && 0.0 < epsilon
    ensures SmoothStep(prev, target, factor, epsilon) == target ||
      Abs(target - SmoothStep(prev, target, factor, epsilon)) + factor * epsilon <= Abs(target - prev)
  {
    var d := Abs(target - prev);
    if d >= epsilon {
      LerpError(prev, target, factor);
      AbsScale(1.0 - factor, target - prev);
      MulLeft(factor, epsilon, d);
      assert (1.0 - factor) * d == d - factor * d;
    }
  }

  /** `k` steps of length `c` laid end to end, that is `k * c`. */
  function Stride(k: nat, c: real): real {
    if k == 0 then 0.0 else Stride(k - 1, c) + c
  }

  lemma {:induction false} StrideIsProduct(k: nat, c: real)
    ensures Stride(k, c) == k as real * c
  {
    if k > 0 {
      StrideIsProduct(k - 1, c);
      assert (k - 1) as real * c + c == k as real * c;
    }
  }

  /** A step that fixes `target` and otherwise lands on it or moves at least
      `c` closer to it, iterated `k` times from `start`, lands on the target
      or comes `Stride(k, c)` closer. */
  lemma {:induction false} IterateApproach(step: real -> real, target: real, c: real, start: real, k: nat)
    requires step(target) == target
    requires forall x {:trigger step(x)} :: step(x) == target || Abs(target - step(x)) + c <= Abs(target - x)
    ensures Iterate(step, start, k) == target || Abs(target - Iterate(step, start, k)) + Stride(k, c) <= Abs(target - start)
    decreases k
  {
    if k > 0 {
      IterateApproach(step, target, c, start, k - 1);
      var prev := Iterate(step, start, k - 1);
      assert step(prev) == target || Abs(target - step(prev)) + c <= Abs(target - prev);
    }
  }

  /** Every frame, whatever the displayed value, lands on the target or
      moves at least `factor * epsilon` closer to it. */
  lemma FrameApproach(target: real, factor: real, epsilon: real)
    requires 0.0 < factor <= 1.0 && 0.0 < epsilon
    ensures forall x {:trigger Frame(target, factor, epsilon)(x)} ::
      (Frame(target, factor, epsilon)(x) == target ||
       Abs(target - Frame(target, factor, epsilon)(x)) + factor * epsilon <= Abs(target - x))
  {
    forall x ensures Frame(target, factor, epsilon)(x) == target ||
      Abs(target - Frame(target, factor, epsilon)(x)) + factor * epsilon <= Abs(target - x)
    {
      StepApproach(x, target, factor, epsilon);
    }
  }

  /** After `k` frames the value either sits on the target or has come at
      least `k * factor * epsilon` closer to it. */
  lemma TicksApproach(start: real, target: real, factor: real, epsilon: real, k: nat)
    requires 0.0 < factor <= 1.0 && 0.0 < epsilon
    ensures Ticks(start, target, factor, epsilon, k) == target ||
      Abs(target - Ticks(start, target, factor, epsilon, k)) + Stride(k, factor * epsilon) <= Abs(target - start)
  {
    FrameApproach(target, factor, epsilon);
    assert Frame(target, factor, epsilon)(target) == target;
    IterateApproach(Frame(target, factor, epsilon), target, factor * epsilon, start, k);
  }

  /** Motion terminates: for a factor in (0,1] and a positive threshold, every
      frame `k` with `k * factor * epsilon` at least the initial distance sits
      exactly on the target. */
  lemma TicksSettle(start: real, target: real, factor: real, epsilon: real, k: nat)
    requires 0.0 < factor <= 1.0 && 0.0 < epsilon
    requires k as real * factor * epsilon >= Abs(target - start)
    ensures Ticks(start, target, factor, epsilon, k) == target
  {
    var stride := Stride(k, factor * epsilon);
    assert stride >= Abs(target - start) by {
      StrideIsProduct(k, factor * epsilon);
      assert k as real * (factor * epsilon) == k as real * factor * epsilon;
    }
    TicksApproach(start, target, factor, epsilon, k);
  }
}
