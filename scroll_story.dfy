/** `useScrollStory`: samples how far a section has been scrolled through
    (pinned "sticky" sections or plain "viewport" reveals), and eases a
    displayed value toward that sample once per animation frame. */
module ScrollStory {
  import opened ScrollMath
  import opened Smoothing

  /** `'sticky'`: progress runs 0 to 1 while a pinned section scrolls past;
      `'viewport'`: progress runs 0 to 1 while the section's top crosses the screen. */
  datatype Mode = Sticky | Viewport

  /** The hook's options; an absent field takes its default. */
  datatype StoryOptions = StoryOptions(smoothing: Option<real>, mode: Option<Mode>)

  const DefaultSmoothing: real := 0.1
  /** Distances to the target below this snap onto it. */
  const SnapThreshold: real := 0.0001

  function EffectiveSmoothing(options: StoryOptions): (s: real)
    ensures options.smoothing.None? ==> s == DefaultSmoothing
    ensures options.smoothing.Some? ==> s == options.smoothing.value
  {
    if options.smoothing.Some? then options.smoothing.value else DefaultSmoothing
  }

  function EffectiveMode(options: StoryOptions): (m: Mode)
    ensures options.mode.None? ==> m == Sticky
    ensures options.mode.Some? ==> m == options.mode.value
  {
    if options.mode.Some? then options.mode.value else Sticky
  }

  /** The clamped sample `handleScroll` computes from the element's `top`, its
      height and the viewport height. */
  function StoryProgress(mode: Mode, top: real, containerHeight: real, windowHeight: real): (r: real)
    requires mode == Viewport ==> windowHeight != 0.0
    ensures InUnit(r)
  {
    Clamp01(
      match mode
      case Sticky =>
        var scrollDistance := containerHeight - windowHeight;
        if scrollDistance <= 0.0 then (if top <= 0.0 then 1.0 else 0.0) else -top / scrollDistance
      case Viewport =>
        (windowHeight - top) / windowHeight)
  }

  /** A pinned section no taller than the viewport finishes instantly: the
      sample is 1 once its top reaches the top of the screen and 0 before. */
  lemma StickyShortIsBinary(top: real, containerHeight: real, windowHeight: real)
    requires containerHeight - windowHeight <= 0.0
    ensures StoryProgress(Sticky, top, containerHeight, windowHeight) == 1.0 <==> top <= 0.0
    ensures StoryProgress(Sticky, top, containerHeight, windowHeight) == 0.0 <==> top > 0.0
  {
  }

  /** A taller pinned section: 0 until its top reaches the top of the screen,
      1 once it has scrolled `containerHeight - windowHeight` past it, and
      proportional in between. */
  lemma StickyTallAnchors(top: real, containerHeight: real, windowHeight: real)
    requires containerHeight - windowHeight > 0.0
    ensures top >= 0.0 ==> StoryProgress(Sticky, top, containerHeight, windowHeight) == 0.0
    ensures top <= -(containerHeight - windowHeight) ==> StoryProgress(Sticky, top, containerHeight, windowHeight) == 1.0
    ensures -(containerHeight - windowHeight) <= top <= 0.0 ==>
      StoryProgress(Sticky, top, containerHeight, windowHeight) * (containerHeight - windowHeight) == -top
  {
    var d := containerHeight - windowHeight;
    QuotientBounds(-top, d);
  }

  /** Scrolling down (a smaller `top`) never lowers the sticky sample. */
  lemma StickyMonotone(top1: real, top2: real, containerHeight: real, windowHeight: real)
    requires top1 <= top2
    ensures StoryProgress(Sticky, top2, containerHeight, windowHeight) <= StoryProgress(Sticky, top1, containerHeight, windowHeight)
  {
    var d := containerHeight - windowHeight;
    if d > 0.0 {
      DivMonotone(-top2, -top1, d);
      Clamp01Monotone(-top2 / d, -top1 / d);
    }
  }

  /** Viewport mode: 0 while the top is at or below the bottom of the screen,
      1 once it reaches the top of the screen, proportional in between. */
  lemma ViewportAnchors(top: real, windowHeight: real)
    requires windowHeight > 0.0
    ensures top >= windowHeight ==> StoryProgress(Viewport, top, 0.0, windowHeight) == 0.0
    ensures top <= 0.0 ==> StoryProgress(Viewport, top, 0.0, windowHeight) == 1.0
    ensures 0.0 <= top <= windowHeight ==>
      StoryProgress(Viewport, top, 0.0, windowHeight) * windowHeight == windowHeight - top
  {
    QuotientBounds(windowHeight - top, windowHeight);
  }

  /** The viewport sample ignores the element's height. */
  lemma ViewportIgnoresHeight(top: real, height1: real, height2: real, windowHeight: real)
    requires windowHeight != 0.0
    ensures StoryProgress(Viewport, top, height1, windowHeight) == StoryProgress(Viewport, top, height2, windowHeight)
  {
  }

  /** Scrolling down never lowers the viewport sample. */
  lemma ViewportMonotone(top1: real, top2: real, containerHeight: real, windowHeight: real)
    requires windowHeight > 0.0 && top1 <= top2
    ensures StoryProgress(Viewport, top2, containerHeight, windowHeight) <= StoryProgress(Viewport, top1, containerHeight, windowHeight)
  {
    DivMonotone(windowHeight - top2, windowHeight - top1, windowHeight);
    Clamp01Monotone((windowHeight - top2) / windowHeight, (windowHeight - top1) / windowHeight);
  }

  /** Easing from rest toward a sample of 1 with the default smoothing: after
      `n` frames the displayed value is `1 - 0.9^n`, for as long as the
      previous frame was not yet within the snap threshold. */
  lemma {:induction false} RampFromRest(n: nat)
    requires n == 0 || Pow(0.9, n - 1) >= SnapThreshold
    ensures Ticks(0.0, 1.0, DefaultSmoothing, SnapThreshold, n) == 1.0 - Pow(0.9, n)
  {
    if n > 0 {
      if n > 1 {
        PowAntitone(0.9, n - 2, n - 1);
      }
      RampFromRest(n - 1);
      var p := Pow(0.9, n - 1);
      TicksNext(0.0, 1.0, DefaultSmoothing, SnapThreshold, n - 1);
      assert Abs(1.0 - (1.0 - p)) == p;
      assert Pow(0.9, n) == 0.9 * p;
    }
  }

  /** With the default smoothing, any sample is displayed exactly after at
      most 100000 frames from any displayed value in [0,1]. */
  lemma DefaultSettles(start: real, target: real, n: nat)
    requires InUnit(start) && InUnit(target)
    requires n >= 100000
    ensures Ticks(start, target, DefaultSmoothing, SnapThreshold, n) == target
  {
    assert n as real * DefaultSmoothing * SnapThreshold >= 1.0;
    TicksSettle(start, target, DefaultSmoothing, SnapThreshold, n);
  }

  /** One mounted `useScrollStory`: the sample in `target` (the target ref)
      and `progress` (state), and the eased `smooth` (`smoothProgress`). */
  class Session {
    const mode: Mode
    const smoothing: real
    var target: real
    var progress: real
    var smooth: real

    /** Both sample fields hold the same clamped value; the eased value stays
        in [0,1] whenever the smoothing factor does. */
    ghost predicate Valid()
      reads this
    {
      InUnit(target) && progress == target &&
      (0.0 <= smoothing <= 1.0 ==> InUnit(smooth))
    }

    constructor(options: StoryOptions)
      ensures mode == EffectiveMode(options) && smoothing == EffectiveSmoothing(options)
      ensures target == 0.0 && progress == 0.0 && smooth == 0.0
      ensures Valid()
    {
      mode := EffectiveMode(options);
      smoothing := EffectiveSmoothing(options);
      target := 0.0;
      progress := 0.0;
      smooth := 0.0;
    }

    /** `handleScroll`: with no element nothing changes; otherwise both sample
        fields receive the clamped progress. */
    method Sample(container: Option<Element>, windowHeight: real)
      requires Valid()
      requires container.Some? && mode == Viewport ==> windowHeight != 0.0
      modifies this
      ensures Valid()
      ensures container.None? ==> target == old(target) && progress == old(progress)
      ensures container.Some? ==>
        target == StoryProgress(mode, container.value.top, container.value.height, windowHeight) &&
        progress == target
      ensures smooth == old(smooth)
    {
      if container.None? {
        return;
      }
      var top := container.value.top;
      var containerHeight := container.value.height;
      var p := 0.0;
      if mode == Sticky {
        var scrollDistance := containerHeight - windowHeight;
        if scrollDistance <= 0.0 {
          p := if top <= 0.0 then 1.0 else 0.0;
        } else {
          var currentScroll := -top;
          p := currentScroll / scrollDistance;
        }
      } else {
        p := (windowHeight - top) / windowHeight;
      }
      p := Clamp01(p);
      target := p;
      progress := p;
    }

    /** One animation frame of `animate`. */
    method Tick()
      requires Valid()
      modifies this
      ensures Valid()
      ensures smooth == SmoothStep(old(smooth), target, smoothing, SnapThreshold)
      ensures target == old(target) && progress == old(progress)
    {
      if 0.0 <= smoothing <= 1.0 {
        StepInUnit(smooth, target, smoothing, SnapThreshold);
      }
      var diff := target - smooth;
      if Abs(diff) < SnapThreshold {
        smooth := target;
      } else {
        smooth := Lerp(smooth, target, smoothing);
      }
    }

    /** The self-rescheduling frame loop, run for `frames` frames with no
        scroll event in between. */
    method Run(frames: nat)
      requires Valid()
      modifies this
      ensures Valid()
      ensures smooth == Ticks(old(smooth), target, smoothing, SnapThreshold, frames)
      ensures target == old(target) && progress == old(progress)
    {
      var i := 0;
      while i < frames
        invariant 0 <= i <= frames
        invariant Valid()
        invariant target == old(target) && progress == old(progress)
        invariant smooth == Ticks(old(smooth), target, smoothing, SnapThreshold, i)
      {
        TicksNext(old(smooth), target, smoothing, SnapThreshold, i);
        Tick();
        i := i + 1;
      }
    }
  }
}
