/** `GameShowcase`: a pinned section of four phases; the eased scroll
    progress selects the active phase and drives how far its text has
    faded in. */
module GameShowcase {
  import opened ScrollMath
  import opened Smoothing
  import ScrollStory
  import ScrollProgress

  /** The fields of a phase the modelled arithmetic touches. */
  datatype PhaseCard = PhaseCard(id: int, title: string)

  const Phases: seq<PhaseCard> := [
    PhaseCard(1, "VFX"), PhaseCard(2, "MUSIC"), PhaseCard(3, "MOTION"), PhaseCard(4, "CREATE")
  ]

  /** The section's `useScrollStory` options: smoothing 0.12, default mode. */
  const ShowcaseOptions: ScrollStory.StoryOptions := ScrollStory.StoryOptions(Some(0.12), None)

  /** The section eases with factor 0.12 in sticky mode, and from any value in
      [0,1] lands exactly on a new sample within 83334 frames. */
  lemma ShowcaseEasing(start: real, target: real, n: nat)
    requires InUnit(start) && InUnit(target) && n >= 83334
    ensures ScrollStory.EffectiveSmoothing(ShowcaseOptions) == 0.12
    ensures ScrollStory.EffectiveMode(ShowcaseOptions) == ScrollStory.Sticky
    ensures Ticks(start, target, ScrollStory.EffectiveSmoothing(ShowcaseOptions), ScrollStory.SnapThreshold, n) == target
  {
    assert n as real * 0.12 * ScrollStory.SnapThreshold >= 1.0;
    TicksSettle(start, target, 0.12, ScrollStory.SnapThreshold, n);
  }

  /** `activePhase`: the `useScrollPhase` formula applied to the eased progress. */
  function ActivePhase(smoothProgress: real): int {
    IntMin((smoothProgress * |Phases| as real).Floor, |Phases| - 1)
  }

  /** The inline `activePhase` is `useScrollPhase` with the four phases. */
  lemma ActivePhaseIsScrollPhase(smoothProgress: real)
    ensures ActivePhase(smoothProgress) == ScrollProgress.Phase(smoothProgress, |Phases|)
  {
  }

  /** For an eased progress in [0,1] the active phase is a valid index, and
      the last phase is active at the end. */
  lemma ActivePhaseBounds(smoothProgress: real)
    requires InUnit(smoothProgress)
    ensures 0 <= ActivePhase(smoothProgress) < |Phases|
    ensures smoothProgress == 1.0 ==> ActivePhase(smoothProgress) == |Phases| - 1
  {
    ScrollProgress.PhaseBounds(smoothProgress, |Phases|);
  }

  /** `phaseProgress`: the clamped position inside the active phase. */
  function ShowcasePhaseProgress(smoothProgress: real): (r: real)
    ensures InUnit(r)
  {
    var phaseSize := 1.0 / |Phases| as real;
    var phaseStart := IntMax(0, ActivePhase(smoothProgress)) as real * phaseSize;
    Clamp01((smoothProgress - phaseStart) / phaseSize)
  }

  /** For an eased progress in [0,1] the inline computation agrees with
      `usePhaseProgress` for the active phase. */
  lemma ShowcaseMatchesPhaseProgress(smoothProgress: real)
    requires InUnit(smoothProgress)
    ensures ShowcasePhaseProgress(smoothProgress) == ScrollProgress.PhaseProgress(smoothProgress, ActivePhase(smoothProgress), |Phases|)
  {
    ActivePhaseBounds(smoothProgress);
    ScrollProgress.PhaseProgressIsClamp(smoothProgress, ActivePhase(smoothProgress), |Phases|);
  }

  /** Halfway through, the third phase has just begun. */
  lemma HalfwayExample()
    ensures ActivePhase(0.5) == 2
    ensures ShowcasePhaseProgress(0.5) == 0.0
  {
    assert (0.5 * 4.0).Floor == 2;
  }

  /** `Math.max(0, activePhase)`, the index of the displayed phase. */
  function CurrentIndex(smoothProgress: real): int {
    IntMax(0, ActivePhase(smoothProgress))
  }

  /** `phases[Math.max(0, activePhase)] || phases[0]`. */
  function CurrentPhase(smoothProgress: real): PhaseCard {
    var i := CurrentIndex(smoothProgress);
    if 0 <= i < |Phases| then Phases[i] else Phases[0]
  }

  /** For every eased progress, even outside [0,1], the displayed phase index
      is valid, so the `|| phases[0]` fallback is never taken. */
  lemma CurrentIndexValid(smoothProgress: real)
    ensures 0 <= CurrentIndex(smoothProgress) < |Phases|
    ensures CurrentPhase(smoothProgress) == Phases[CurrentIndex(smoothProgress)]
  {
  }

  /** `nextPhaseIndex`. */
  function NextPhaseIndex(smoothProgress: real): int {
    IntMin(ActivePhase(smoothProgress) + 1, |Phases| - 1)
  }

  /** For a non-negative eased progress the next index is valid; it is the
      active phase itself exactly on the last phase, and the following phase
      otherwise. */
  lemma NextPhaseIndexFacts(smoothProgress: real)
    requires 0.0 <= smoothProgress
    ensures 0 <= NextPhaseIndex(smoothProgress) < |Phases|
    ensures NextPhaseIndex(smoothProgress) == ActivePhase(smoothProgress) <==> ActivePhase(smoothProgress) == |Phases| - 1
    ensures ActivePhase(smoothProgress) < |Phases| - 1 ==> NextPhaseIndex(smoothProgress) == ActivePhase(smoothProgress) + 1
  {
    MulNonneg(smoothProgress, |Phases| as real);
  }

  /** `activePhase === index`, shared by the visual cards and the indicators. */
  predicate IsActiveCard(smoothProgress: real, index: int) {
    ActivePhase(smoothProgress) == index
  }

  function CardOpacity(smoothProgress: real, index: int): real {
    if IsActiveCard(smoothProgress, index) then 1.0 else 0.0
  }

  function CardScale(smoothProgress: real, index: int): real {
    if IsActiveCard(smoothProgress, index) then 1.0 + ShowcasePhaseProgress(smoothProgress) * 0.03 else 0.95
  }

  /** For an eased progress in [0,1] exactly one card is active: it is fully
      opaque and scaled between 1 and 1.03, every other card is transparent
      at scale 0.95. */
  lemma ExactlyOneActiveCard(smoothProgress: real)
    requires InUnit(smoothProgress)
    ensures exists index :: 0 <= index < |Phases| && IsActiveCard(smoothProgress, index)
    ensures forall i, j :: 0 <= i < |Phases| && 0 <= j < |Phases| && IsActiveCard(smoothProgress, i) && IsActiveCard(smoothProgress, j) ==> i == j
    ensures forall index :: IsActiveCard(smoothProgress, index) ==>
      CardOpacity(smoothProgress, index) == 1.0 && 1.0 <= CardScale(smoothProgress, index) <= 1.03
    ensures forall index :: !IsActiveCard(smoothProgress, index) ==>
      CardOpacity(smoothProgress, index) == 0.0 && CardScale(smoothProgress, index) == 0.95
  {
    ActivePhaseBounds(smoothProgress);
    assert IsActiveCard(smoothProgress, ActivePhase(smoothProgress));
    var pp := ShowcasePhaseProgress(smoothProgress);
    ScaleDown(pp, 0.03);
    MulNonneg(pp, 0.03);
  }

  /** Phase number, subtitle and title fade in from 0.3, 0.2 and 0.1. */
  function NumberOpacity(phaseProgress: real): real { 0.3 + phaseProgress * 0.7 }
  function SubtitleOpacity(phaseProgress: real): real { 0.2 + phaseProgress * 0.8 }
  function TitleOpacity(phaseProgress: real): real { 0.1 + phaseProgress * 0.9 }

  /** Each text element starts at its base opacity, ends fully opaque, stays
      in between and never fades while the phase advances. */
  lemma TextOpacities(p: real, q: real)
    requires InUnit(p) && InUnit(q) && p <= q
    ensures NumberOpacity(0.0) == 0.3 && NumberOpacity(1.0) == 1.0
    ensures SubtitleOpacity(0.0) == 0.2 && SubtitleOpacity(1.0) == 1.0
    ensures TitleOpacity(0.0) == 0.1 && TitleOpacity(1.0) == 1.0
    ensures 0.3 <= NumberOpacity(p) <= NumberOpacity(q) <= 1.0
    ensures 0.2 <= SubtitleOpacity(p) <= SubtitleOpacity(q) <= 1.0
    ensures 0.1 <= TitleOpacity(p) <= TitleOpacity(q) <= 1.0
  {
  }

  /** The faint outline text behind the phase: `0.03 + phaseProgress * 0.04`. */
  function OutlineOpacity(phaseProgress: real): real { 0.03 + phaseProgress * 0.04 }

  /** The outline text stays between 0.03 and 0.07, reaching both ends, and
      never fades while the phase advances. */
  lemma OutlineOpacityFacts(p: real, q: real)
    requires InUnit(p) && InUnit(q) && p <= q
    ensures OutlineOpacity(0.0) == 0.03 && OutlineOpacity(1.0) == 0.07
    ensures 0.03 <= OutlineOpacity(p) <= OutlineOpacity(q) <= 0.07
  {
  }

  /** The description: `Math.max(0, (phaseProgress - 0.2) * 1.25)`. */
  function DescriptionOpacity(phaseProgress: real): real {
    Max(0.0, (phaseProgress - 0.2) * 1.25)
  }

  /** The description stays hidden for the first fifth of a phase, is fully
      opaque at its end and stays in [0,1] in between. */
  lemma DescriptionOpacityFacts(phaseProgress: real)
    ensures phaseProgress <= 0.2 ==> DescriptionOpacity(phaseProgress) == 0.0
    ensures phaseProgress == 1.0 ==> DescriptionOpacity(phaseProgress) == 1.0
    ensures InUnit(phaseProgress) ==> InUnit(DescriptionOpacity(phaseProgress))
  {
  }

  /** The call-to-action button: `Math.max(0, (phaseProgress - 0.4) * 1.7)`. */
  function CtaOpacity(phaseProgress: real): real {
    Max(0.0, (phaseProgress - 0.4) * 1.7)
  }

  /** The button never has a negative opacity and is hidden until 40% of a
      phase, but the value is not capped: it reaches 1.02 at the end of a phase. */
  lemma CtaOpacityFacts(phaseProgress: real)
    ensures CtaOpacity(phaseProgress) >= 0.0
    ensures phaseProgress <= 0.4 ==> CtaOpacity(phaseProgress) == 0.0
    ensures CtaOpacity(1.0) == 1.02
    ensures CtaOpacity(1.0) > 1.0
  {
  }

  /** The scroll hint's opacity and vertical offset, from the raw (not eased) progress. */
  datatype Hint = Hint(opacity: real, translateY: real)

  function ScrollHint(progress: real): Hint {
    if progress < 0.05 then Hint(1.0, 0.0) else Hint(0.0, 20.0)
  }

  /** The hint is shown in place exactly while the raw progress is below 0.05,
      and is otherwise hidden and shifted down 20px. */
  lemma ScrollHintShown(progress: real)
    ensures ScrollHint(progress).opacity == 1.0 <==> progress < 0.05
    ensures ScrollHint(progress).translateY == 0.0 <==> progress < 0.05
    ensures progress >= 0.05 ==> ScrollHint(progress) == Hint(0.0, 20.0)
  {
  }
}
