/** `Hero`: four stacked phases of a pinned section. The eased progress is
    spread over a "global index" from 0 to 3.5, and each phase's opacity,
    scale, blur and 3D offsets follow from its distance to that index. */
module Hero {
  import opened ScrollMath
  import opened Smoothing
  import ScrollStory

  const PhaseIds: seq<string> := ["intro", "create", "ignite", "legacy"]

  /** The section's `useScrollStory` options: smoothing 0.05, sticky. */
  const HeroOptions: ScrollStory.StoryOptions := ScrollStory.StoryOptions(Some(0.05), Some(ScrollStory.Sticky))

  /** The section eases with factor 0.05 in sticky mode, and from any value in
      [0,1] lands exactly on a new sample within 200000 frames. */
  lemma HeroEasing(start: real, target: real, n: nat)
    requires InUnit(start) && InUnit(target) && n >= 200000
    ensures ScrollStory.EffectiveSmoothing(HeroOptions) == 0.05
    ensures ScrollStory.EffectiveMode(HeroOptions) == ScrollStory.Sticky
    ensures Ticks(start, target, ScrollStory.EffectiveSmoothing(HeroOptions), ScrollStory.SnapThreshold, n) == target
  {
    assert n as real * 0.05 * ScrollStory.SnapThreshold >= 1.0;
    TicksSettle(start, target, 0.05, ScrollStory.SnapThreshold, n);
  }

  /** `globalIndex = smoothProgress * (phaseCount - 0.5)`. */
  function GlobalIndex(smoothProgress: real): real {
    smoothProgress * (|PhaseIds| as real - 0.5)
  }

  /** For an eased progress in [0,1] the global index runs from 0 to 3.5,
      rising with the progress. */
  lemma GlobalIndexRange(p: real, q: real)
    requires InUnit(p) && InUnit(q) && p <= q
    ensures 0.0 <= GlobalIndex(p) <= GlobalIndex(q) <= |PhaseIds| as real - 0.5
    ensures GlobalIndex(0.0) == 0.0 && GlobalIndex(1.0) == 3.5
  {
  }

  /** `dist = globalIndex - index`: negative for phases still to come,
      positive for phases scrolled past. */
  function Distance(smoothProgress: real, index: int): real {
    GlobalIndex(smoothProgress) - index as real
  }

  /** `Math.max(0, 1 - Math.abs(dist) * 1.5)`; the background layers compute
      the same value from the already absolute distance. */
  function Opacity(dist: real): real {
    Max(0.0, 1.0 - Abs(dist) * 1.5)
  }

  /** The opacity of phase `index`, for its background layer and its content. */
  function LayerOpacity(smoothProgress: real, index: int): real {
    Opacity(Distance(smoothProgress, index))
  }

  /** Opacity lies in [0,1]; it is 1 exactly at distance 0 and 0 exactly
      from distance 2/3 on, and it is symmetric in the distance. */
  lemma OpacityFacts(dist: real)
    ensures InUnit(Opacity(dist))
    ensures Opacity(dist) == 1.0 <==> dist == 0.0
    ensures Opacity(dist) == 0.0 <==> Abs(dist) >= 2.0 / 3.0
    ensures Opacity(-dist) == Opacity(dist)
  {
  }

  /** Opacity never rises as a phase moves further from the global index. */
  lemma OpacityAntitone(d1: real, d2: real)
    requires Abs(d1) <= Abs(d2)
    ensures Opacity(d2) <= Opacity(d1)
  {
  }

  /** `isActive = Math.abs(dist) < 0.6`. */
  predicate IsActive(dist: real) {
    Abs(dist) < 0.6
  }

  /** An active phase is always visible, with opacity above 0.1. */
  lemma ActiveIsVisible(dist: real)
    requires IsActive(dist)
    ensures Opacity(dist) > 0.1
  {
  }

  /** For an eased progress in [0,1] some phase is active, and two active
      phases are at most one apart. */
  lemma SomePhaseActive(smoothProgress: real)
    requires InUnit(smoothProgress)
    ensures exists index :: 0 <= index < |PhaseIds| && IsActive(Distance(smoothProgress, index))
    ensures forall i, j :: IsActive(Distance(smoothProgress, i)) && IsActive(Distance(smoothProgress, j)) ==> -1 <= i - j <= 1
  {
    var g := GlobalIndex(smoothProgress);
    var k := IntMin((g + 0.5).Floor, |PhaseIds| - 1);
    assert 0 <= k < |PhaseIds|;
    assert IsActive(Distance(smoothProgress, k));
  }

  /** Overlap happens: at progress 1/7 the first two phases are both active. */
  lemma TwoActiveExample()
    ensures IsActive(Distance(1.0 / 7.0, 0)) && IsActive(Distance(1.0 / 7.0, 1))
  {
  }

  /** The applied scale `Math.max(0.5, 1 - Math.abs(dist) * 0.5)`. */
  function AppliedScale(dist: real): real {
    Max(0.5, 1.0 - Abs(dist) * 0.5)
  }

  /** The scale lies in [0.5, 1]: full size exactly at distance 0, half size
      exactly from distance 1 on. */
  lemma AppliedScaleFacts(dist: real)
    ensures 0.5 <= AppliedScale(dist) <= 1.0
    ensures AppliedScale(dist) == 1.0 <==> dist == 0.0
    ensures AppliedScale(dist) == 0.5 <==> Abs(dist) >= 1.0
  {
  }

  /** `blur = Math.max(0, Math.abs(dist) * 8)`. */
  function Blur(dist: real): real {
    Max(0.0, Abs(dist) * 8.0)
  }

  /** The blur is never negative, is 0 exactly for the phase at the global
      index, and the outer `Math.max` never changes the value. */
  lemma BlurFacts(dist: real)
    ensures Blur(dist) >= 0.0
    ensures Blur(dist) == 0.0 <==> dist == 0.0
    ensures Blur(dist) == Abs(dist) * 8.0
  {
  }

  /** `translateY = dist * -100` and `rotateX = dist * -45`. */
  function TranslateY(dist: real): real { dist * -100.0 }
  function RotateX(dist: real): real { dist * -45.0 }

  /** Phases scrolled past move up and tilt back, phases to come sit below
      and tilt forward, and the phase at the global index is untransformed. */
  lemma TransformDirections(dist: real)
    ensures dist > 0.0 ==> TranslateY(dist) < 0.0 && RotateX(dist) < 0.0
    ensures dist < 0.0 ==> TranslateY(dist) > 0.0 && RotateX(dist) > 0.0
    ensures dist == 0.0 ==> TranslateY(dist) == 0.0 && RotateX(dist) == 0.0
  {
  }

  /** At the top of the section only the first phase shows, at full opacity. */
  lemma AtStart(index: int)
    requires 0 <= index < |PhaseIds|
    ensures LayerOpacity(0.0, index) == (if index == 0 then 1.0 else 0.0)
  {
  }

  /** At the end of the scroll the last phase is half a phase past centre,
      at opacity 0.25, and every other phase is invisible. */
  lemma AtEnd(index: int)
    requires 0 <= index < |PhaseIds|
    ensures Distance(1.0, |PhaseIds| - 1) == 0.5
    ensures LayerOpacity(1.0, |PhaseIds| - 1) == 0.25
    ensures index < |PhaseIds| - 1 ==> LayerOpacity(1.0, index) == 0.0
  {
  }

  /** Phase `index` is fully opaque exactly at progress `index / 3.5`; the
      last phase reaches full opacity at 6/7, before the end of the scroll. */
  lemma FullOpacityExactly(smoothProgress: real, index: int)
    ensures LayerOpacity(smoothProgress, index) == 1.0 <==> smoothProgress == index as real / 3.5
    ensures LayerOpacity(6.0 / 7.0, |PhaseIds| - 1) == 1.0
  {
    OpacityFacts(Distance(smoothProgress, index));
    OpacityFacts(Distance(6.0 / 7.0, |PhaseIds| - 1));
  }
}
