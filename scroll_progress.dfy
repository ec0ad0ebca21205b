/** `useScrollProgress.ts`: progress through a tall container measured from a
    configurable start line, and the phase arithmetic that splits a progress
    value into `n` equal phases. */
module ScrollProgress {
  import opened ScrollMath

  /** The clamped progress `handleScroll` computes: the distance scrolled past
      the start line (`offset` percent down from the top of the viewport) over
      the container's overflow `containerHeight - windowHeight`. */
  function ContainerProgress(top: real, containerHeight: real, windowHeight: real, offset: real): (r: real)
    requires containerHeight - windowHeight != 0.0
    ensures InUnit(r)
  {
    Clamp01((windowHeight * (1.0 - offset / 100.0) - top) / (containerHeight - windowHeight))
  }

  /** Where tracking starts: the container's top at the start line gives 0. */
  function ScrollStart(windowHeight: real, offset: real): real {
    windowHeight * (1.0 - offset / 100.0)
  }

  /** For a container taller than the viewport: 0 until its top passes the
      start line, 1 once it has moved a further `containerHeight - windowHeight`,
      and proportional in between. */
  lemma ContainerAnchors(top: real, containerHeight: real, windowHeight: real, offset: real)
    requires containerHeight - windowHeight > 0.0
    ensures top >= ScrollStart(windowHeight, offset) ==> ContainerProgress(top, containerHeight, windowHeight, offset) == 0.0
    ensures top <= ScrollStart(windowHeight, offset) - (containerHeight - windowHeight) ==>
      ContainerProgress(top, containerHeight, windowHeight, offset) == 1.0
    ensures ScrollStart(windowHeight, offset) - (containerHeight - windowHeight) <= top <= ScrollStart(windowHeight, offset) ==>
      ContainerProgress(top, containerHeight, windowHeight, offset) * (containerHeight - windowHeight) == ScrollStart(windowHeight, offset) - top
  {
    QuotientBounds(ScrollStart(windowHeight, offset) - top, containerHeight - windowHeight);
  }

  /** With the default offset 0: progress is 0 when the container's top is at
      the bottom of the viewport and 1 when it is at `2 * windowHeight - containerHeight`. */
  lemma ContainerDefaultAnchors(containerHeight: real, windowHeight: real)
    requires containerHeight - windowHeight > 0.0
    ensures ContainerProgress(windowHeight, containerHeight, windowHeight, 0.0) == 0.0
    ensures ContainerProgress(2.0 * windowHeight - containerHeight, containerHeight, windowHeight, 0.0) == 1.0
  {
    ContainerAnchors(windowHeight, containerHeight, windowHeight, 0.0);
    ContainerAnchors(2.0 * windowHeight - containerHeight, containerHeight, windowHeight, 0.0);
  }

  /** Scrolling down (a smaller `top`) never lowers the progress of a container
      taller than the viewport. */
  lemma ContainerMonotone(top1: real, top2: real, containerHeight: real, windowHeight: real, offset: real)
    requires containerHeight - windowHeight > 0.0 && top1 <= top2
    ensures ContainerProgress(top2, containerHeight, windowHeight, offset) <= ContainerProgress(top1, containerHeight, windowHeight, offset)
  {
    var s := ScrollStart(windowHeight, offset);
    var d := containerHeight - windowHeight;
    DivMonotone(s - top2, s - top1, d);
    Clamp01Monotone((s - top2) / d, (s - top1) / d);
  }

  /** No guard covers a container shorter than the viewport: the overflow is
      negative and the progress then runs backwards, never falling as `top` grows. */
  lemma ShortContainerReversed(top1: real, top2: real, containerHeight: real, windowHeight: real, offset: real)
    requires containerHeight - windowHeight < 0.0 && top1 <= top2
    ensures ContainerProgress(top1, containerHeight, windowHeight, offset) <= ContainerProgress(top2, containerHeight, windowHeight, offset)
  {
    var s := ScrollStart(windowHeight, offset);
    NegativeDivAntitone(s - top2, s - top1, containerHeight - windowHeight);
    Clamp01Monotone((s - top1) / (containerHeight - windowHeight), (s - top2) / (containerHeight - windowHeight));
  }

  /** The hook's options; an absent offset defaults to 0. */
  datatype ProgressOptions = ProgressOptions(offset: Option<real>)

  /** One mounted `useScrollProgress`: the `progress` state. */
  class ContainerProgressTracker {
    const offset: real
    var progress: real

    ghost predicate Valid()
      reads this
    {
      InUnit(progress)
    }

    constructor(options: ProgressOptions)
      ensures offset == (if options.offset.Some? then options.offset.value else 0.0)
      ensures progress == 0.0
      ensures Valid()
    {
      offset := if options.offset.Some? then options.offset.value else 0.0;
      progress := 0.0;
    }

    /** `handleScroll`: with no container nothing changes; otherwise the
        progress receives the clamped ratio. */
    method HandleScroll(container: Option<Element>, windowHeight: real)
      requires Valid()
      requires container.Some? ==> container.value.height - windowHeight != 0.0
      modifies this
      ensures Valid()
      ensures container.None? ==> progress == old(progress)
      ensures container.Some? ==>
        progress == ContainerProgress(container.value.top, container.value.height, windowHeight, offset)
    {
      if container.None? {
        return;
      }
      var top := container.value.top;
      var containerHeight := container.value.height;
      var scrollStart := windowHeight * (1.0 - offset / 100.0);
      var totalScrollDistance := containerHeight - windowHeight;
      var currentScroll := scrollStart - top;
      var newProgress := currentScroll / totalScrollDistance;
      newProgress := Clamp01(newProgress);
      progress := newProgress;
    }
  }

  /** `useScrollPhase`: the index of the phase a progress value falls in. */
  function Phase(progress: real, phaseCount: int): int {
    IntMin((progress * phaseCount as real).Floor, phaseCount - 1)
  }

  /** For a progress in [0,1] and at least one phase the index is valid. */
  lemma PhaseBounds(progress: real, phaseCount: int)
    requires InUnit(progress) && phaseCount >= 1
    ensures 0 <= Phase(progress, phaseCount) <= phaseCount - 1
  {
    MulNonneg(progress, phaseCount as real);
  }

  /** Phase `i` covers the progress values from `i/n` up to, not including,
      `(i+1)/n`; the last phase also takes progress 1. */
  lemma PhaseBucket(progress: real, phaseCount: int)
    requires InUnit(progress) && phaseCount >= 1
    ensures Phase(progress, phaseCount) as real <= progress * phaseCount as real
    ensures progress * phaseCount as real < (Phase(progress, phaseCount) + 1) as real || progress == 1.0
  {
    ScaleDown(progress, phaseCount as real);
    if progress * phaseCount as real >= phaseCount as real {
      assert progress == 1.0 by {
        if progress < 1.0 {
          MulLeft(phaseCount as real, progress, 1.0);
          StrictScale(progress, phaseCount as real);
        }
      }
    }
  }

  /** The last phase is active at the end of the scroll. */
  lemma PhaseAtEnd(phaseCount: int)
    requires phaseCount >= 1
    ensures Phase(1.0, phaseCount) == phaseCount - 1
  {
  }

  /** Worked values for four phases: 0.999 is still the last phase, 0.5 is the third. */
  lemma PhaseExamples()
    ensures Phase(0.999, 4) == 3
    ensures Phase(0.5, 4) == 2
    ensures Phase(0.0, 4) == 0
  {
  }

  /** More progress never selects an earlier phase. */
  lemma PhaseMonotone(p: real, q: real, phaseCount: int)
    requires p <= q && phaseCount >= 0
    ensures Phase(p, phaseCount) <= Phase(q, phaseCount)
  {
    MulLeft(phaseCount as real, p, q);
    FloorMonotone(p * phaseCount as real, q * phaseCount as real);
  }

  /** `phaseSize = 1 / phaseCount`. */
  function PhaseSize(phaseCount: int): real
    requires phaseCount != 0
  {
    1.0 / phaseCount as real
  }

  /** `phaseStart = phaseIndex * phaseSize`; phase `i + 1` starts where phase `i` ends. */
  function PhaseStart(phaseIndex: int, phaseCount: int): real
    requires phaseCount != 0
  {
    phaseIndex as real * PhaseSize(phaseCount)
  }

  /** `usePhaseProgress`: how far through phase `phaseIndex` of `phaseCount`
      equal phases the progress is. */
  function PhaseProgress(progress: real, phaseIndex: int, phaseCount: int): real
    requires phaseCount != 0
  {
    Ramp(progress, PhaseStart(phaseIndex, phaseCount), PhaseStart(phaseIndex + 1, phaseCount), PhaseSize(phaseCount))
  }

  /** The early returns of `usePhaseProgress` over a window `[start, end)`
      of width `size`. */
  function Ramp(progress: real, start: real, end: real, size: real): real
    requires size != 0.0
  {
    if progress < start then 0.0
    else if progress >= end then 1.0
    else (progress - start) / size
  }

  /** Phase starts are the fractions `i / n`, and consecutive starts lie one
      phase width apart. */
  lemma PhaseStartFacts(phaseIndex: int, phaseCount: int)
    requires phaseCount > 0
    ensures PhaseStart(phaseIndex, phaseCount) == phaseIndex as real / phaseCount as real
    ensures PhaseStart(phaseIndex + 1, phaseCount) == PhaseStart(phaseIndex, phaseCount) + PhaseSize(phaseCount)
    ensures PhaseSize(phaseCount) > 0.0
  {
  }

  /** Over a window of positive width: 0 before it, 1 from its end on, the
      covered fraction inside it, and always the clamp of that fraction. */
  lemma RampFacts(p: real, start: real, size: real)
    requires size > 0.0
    ensures p < start ==> Ramp(p, start, start + size, size) == 0.0
    ensures p >= start + size ==> Ramp(p, start, start + size, size) == 1.0
    ensures start <= p < start + size ==> Ramp(p, start, start + size, size) * size == p - start
    ensures Ramp(p, start, start + size, size) == Clamp01((p - start) / size)
  {
    QuotientBounds(p - start, size);
  }

  /** A ramp never falls as the progress rises. */
  lemma RampMonotone(p: real, q: real, start: real, size: real)
    requires size > 0.0 && p <= q
    ensures Ramp(p, start, start + size, size) <= Ramp(q, start, start + size, size)
  {
    RampFacts(p, start, size);
    RampFacts(q, start, size);
    DivMonotone(p - start, q - start, size);
    Clamp01Monotone((p - start) / size, (q - start) / size);
  }

  /** Before the phase starts its progress is 0, from its end on it is 1,
      and in between it is the fraction `(p - i/n) * n` of the phase covered. */
  lemma PhaseProgressCases(progress: real, phaseIndex: int, phaseCount: int)
    requires phaseCount > 0
    ensures progress < phaseIndex as real / phaseCount as real ==> PhaseProgress(progress, phaseIndex, phaseCount) == 0.0
    ensures progress >= (phaseIndex + 1) as real / phaseCount as real ==> PhaseProgress(progress, phaseIndex, phaseCount) == 1.0
    ensures phaseIndex as real / phaseCount as real <= progress < (phaseIndex + 1) as real / phaseCount as real ==>
      PhaseProgress(progress, phaseIndex, phaseCount) == (progress - phaseIndex as real / phaseCount as real) * phaseCount as real
  {
    var start := PhaseStart(phaseIndex, phaseCount);
    var size := PhaseSize(phaseCount);
    PhaseStartFacts(phaseIndex, phaseCount);
    PhaseStartFacts(phaseIndex + 1, phaseCount);
    RampFacts(progress, start, size);
    var r := PhaseProgress(progress, phaseIndex, phaseCount);
    if start <= progress < start + size {
      UndoDivision(r, progress - start, phaseCount as real);
    }
  }

  /** For a positive phase count the phase progress lies in [0,1] and is the
      clamp of the fraction of the phase covered. */
  lemma PhaseProgressIsClamp(progress: real, phaseIndex: int, phaseCount: int)
    requires phaseCount > 0
    ensures PhaseProgress(progress, phaseIndex, phaseCount) ==
      Clamp01((progress - PhaseStart(phaseIndex, phaseCount)) / PhaseSize(phaseCount))
    ensures InUnit(PhaseProgress(progress, phaseIndex, phaseCount))
  {
    PhaseStartFacts(phaseIndex, phaseCount);
    RampFacts(progress, PhaseStart(phaseIndex, phaseCount), PhaseSize(phaseCount));
  }

  /** Phase progress never falls as the overall progress rises. */
  lemma PhaseProgressMonotone(p: real, q: real, phaseIndex: int, phaseCount: int)
    requires phaseCount > 0 && p <= q
    ensures PhaseProgress(p, phaseIndex, phaseCount) <= PhaseProgress(q, phaseIndex, phaseCount)
  {
    PhaseStartFacts(phaseIndex, phaseCount);
    RampMonotone(p, q, PhaseStart(phaseIndex, phaseCount), PhaseSize(phaseCount));
  }
}
