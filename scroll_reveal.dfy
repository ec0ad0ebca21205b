/** `useScrollReveal.ts`: visibility flags driven by intersection entries
    (`useScrollReveal`, `useScrollRevealChildren`), a smoothed 0-to-1 reveal
    (`useSmoothReveal`) and an enter-to-leave scroll progress for parallax. */
module ScrollReveal {
  import opened ScrollMath
  import opened Smoothing

  /** The observer callback's view of one `useScrollReveal`: the `isVisible`
      state and whether the element is still observed. */
  datatype RevealState = RevealState(isVisible: bool, observing: bool)

  /** Just after mounting: not visible, observed exactly when the ref holds an element. */
  function Mounted(elementPresent: bool): (s: RevealState)
    ensures !s.isVisible && s.observing == elementPresent
  {
    RevealState(false, elementPresent)
  }

  /** The effect of one intersection entry. Entries reach the callback only
      while the element is observed; with `triggerOnce` an intersecting entry
      latches the flag and stops observing, a non-intersecting one does
      nothing; without it the flag follows the entry. */
  function EntryStep(triggerOnce: bool, s: RevealState, isIntersecting: bool): RevealState {
    if !s.observing then s
    else if triggerOnce then (if isIntersecting then RevealState(true, false) else s)
    else RevealState(isIntersecting, true)
  }

  /** The state after a sequence of entries, the last one being the latest. */
  function AfterEntries(triggerOnce: bool, s: RevealState, entries: seq<bool>): RevealState
    decreases |entries|
  {
    if |entries| == 0 then s
    else EntryStep(triggerOnce, AfterEntries(triggerOnce, s, entries[..|entries| - 1]), entries[|entries| - 1])
  }

  /** With `triggerOnce`, a visible element stays visible whatever entries follow. */
  lemma {:induction false} LatchStaysVisible(s: RevealState, entries: seq<bool>)
    requires s.isVisible
    ensures AfterEntries(true, s, entries).isVisible
    decreases |entries|
  {
    if |entries| > 0 {
      LatchStaysVisible(s, entries[..|entries| - 1]);
    }
  }

  /** Once unobserved, no later entry changes anything. */
  lemma {:induction false} UnobservedIgnoresEntries(triggerOnce: bool, s: RevealState, entries: seq<bool>)
    requires !s.observing
    ensures AfterEntries(triggerOnce, s, entries) == s
    decreases |entries|
  {
    if |entries| > 0 {
      UnobservedIgnoresEntries(triggerOnce, s, entries[..|entries| - 1]);
    }
  }

  /** With `triggerOnce`, from mounting on an element the flag is set exactly
      when the element has stopped being observed. */
  lemma {:induction false} LatchUnobservesWhenVisible(entries: seq<bool>)
    ensures AfterEntries(true, Mounted(true), entries).isVisible == !AfterEntries(true, Mounted(true), entries).observing
    decreases |entries|
  {
    if |entries| > 0 {
      LatchUnobservesWhenVisible(entries[..|entries| - 1]);
    }
  }

  /** With `triggerOnce`, from mounting on an element the flag is set exactly
      when some entry was intersecting; non-intersecting entries never set it. */
  lemma {:induction false} LatchIffSomeIntersecting(entries: seq<bool>)
    ensures AfterEntries(true, Mounted(true), entries).isVisible <==> exists i :: 0 <= i < |entries| && entries[i]
    decreases |entries|
  {
    if |entries| > 0 {
      var prefix := entries[..|entries| - 1];
      LatchIffSomeIntersecting(prefix);
      LatchUnobservesWhenVisible(prefix);
      if exists i :: 0 <= i < |prefix| && prefix[i] {
        var i :| 0 <= i < |prefix| && prefix[i];
        assert entries[i];
      }
      if exists i :: 0 <= i < |entries| && entries[i] {
        var i :| 0 <= i < |entries| && entries[i];
        if i < |prefix| {
          assert prefix[i];
        }
      }
    }
  }

  /** Without `triggerOnce`, while the element is observed the flag equals the
      latest entry. */
  lemma {:induction false} FollowsLatest(s: RevealState, entries: seq<bool>)
    requires s.observing && |entries| > 0
    ensures AfterEntries(false, s, entries).isVisible == entries[|entries| - 1]
    ensures AfterEntries(false, s, entries).observing
    decreases |entries|
  {
    if |entries| > 1 {
      FollowsLatest(s, entries[..|entries| - 1]);
    }
  }

  /** Without an element nothing is observed and nothing ever becomes visible. */
  lemma NoElementNeverVisible(triggerOnce: bool, entries: seq<bool>)
    ensures !AfterEntries(triggerOnce, Mounted(false), entries).isVisible
  {
    UnobservedIgnoresEntries(triggerOnce, Mounted(false), entries);
  }

  /** `useScrollReveal`'s options; an absent `triggerOnce` defaults to false. */
  datatype RevealOptions = RevealOptions(triggerOnce: Option<bool>)

  /** One mounted `useScrollReveal`. */
  class Reveal {
    const triggerOnce: bool
    var isVisible: bool
    var observing: bool

    constructor(options: RevealOptions, elementPresent: bool)
      ensures triggerOnce == (options.triggerOnce.Some? && options.triggerOnce.value)
      ensures RevealState(isVisible, observing) == Mounted(elementPresent)
    {
      triggerOnce := options.triggerOnce.Some? && options.triggerOnce.value;
      isVisible := false;
      observing := elementPresent;
    }

    /** The observer callback for one entry (no call once unobserved). */
    method HandleEntry(isIntersecting: bool)
      modifies this
      ensures RevealState(isVisible, observing) == EntryStep(triggerOnce, old(RevealState(isVisible, observing)), isIntersecting)
    {
      if !observing {
        return;
      }
      if triggerOnce {
        if isIntersecting {
          isVisible := true;
          observing := false;
        }
      } else {
        isVisible := isIntersecting;
      }
    }
  }

  /** One mounted `useScrollRevealChildren`: the flag always follows the entry. */
  class RevealChildren {
    const observing: bool
    var isVisible: bool

    constructor(elementPresent: bool)
      ensures RevealState(isVisible, observing) == Mounted(elementPresent)
    {
      observing := elementPresent;
      isVisible := false;
    }

    /** The observer callback for one entry: the same step as `useScrollReveal`
        without `triggerOnce`. */
    method HandleEntry(isIntersecting: bool)
      modifies this
      ensures RevealState(isVisible, observing) == EntryStep(false, old(RevealState(isVisible, observing)), isIntersecting)
    {
      if observing {
        isVisible := isIntersecting;
      }
    }
  }

  /** `useSmoothReveal`'s fixed easing factor and snap threshold. */
  const RevealFactor: real := 0.12
  const RevealSnap: real := 0.001

  /** The target `useSmoothReveal` eases toward: 1 while visible, 0 otherwise. */
  function RevealTarget(visible: bool): (r: real)
    ensures visible ==> r == 1.0
    ensures !visible ==> r == 0.0
    ensures InUnit(r)
  {
    if visible then 1.0 else 0.0
  }

  /** From any displayed value in [0,1], the reveal reaches its target exactly
      after at most 8334 frames. */
  lemma SmoothRevealSettles(start: real, visible: bool, n: nat)
    requires InUnit(start) && n >= 8334
    ensures Ticks(start, RevealTarget(visible), RevealFactor, RevealSnap, n) == RevealTarget(visible)
  {
    assert n as real * RevealFactor * RevealSnap >= 1.0;
    TicksSettle(start, RevealTarget(visible), RevealFactor, RevealSnap, n);
  }

  /** One mounted `useSmoothReveal`: the flag, the target ref and the eased progress. */
  class SmoothReveal {
    const observing: bool
    var isVisible: bool
    var target: real
    var progress: real

    /** The target mirrors the flag; the progress stays in [0,1]. */
    ghost predicate Valid()
      reads this
    {
      target == RevealTarget(isVisible) && InUnit(progress)
    }

    constructor(elementPresent: bool)
      ensures observing == elementPresent
      ensures !isVisible && target == 0.0 && progress == 0.0
      ensures Valid()
    {
      observing := elementPresent;
      isVisible := false;
      target := 0.0;
      progress := 0.0;
    }

    /** The observer callback: flag and target follow the entry, the same
        step as `useScrollReveal` without `triggerOnce`. */
    method HandleEntry(isIntersecting: bool)
      requires Valid()
      modifies this
      ensures Valid()
      ensures RevealState(isVisible, observing) == EntryStep(false, old(RevealState(isVisible, observing)), isIntersecting)
      ensures target == RevealTarget(isVisible)
      ensures progress == old(progress)
    {
      if !observing {
        return;
      }
      var visible := isIntersecting;
      isVisible := visible;
      target := if visible then 1.0 else 0.0;
    }

    /** One animation frame. */
    method Tick()
      requires Valid()
      modifies this
      ensures Valid()
      ensures progress == SmoothStep(old(progress), target, RevealFactor, RevealSnap)
      ensures isVisible == old(isVisible) && target == old(target)
    {
      StepInUnit(progress, target, RevealFactor, RevealSnap);
      var diff := target - progress;
      if Abs(diff) < RevealSnap {
        progress := target;
      } else {
        progress := Lerp(progress, target, RevealFactor);
      }
    }

    /** The self-rescheduling frame loop, run for `frames` frames with no
        entry in between. */
    method Run(frames: nat)
      requires Valid()
      modifies this
      ensures Valid()
      ensures progress == Ticks(old(progress), target, RevealFactor, RevealSnap, frames)
      ensures isVisible == old(isVisible) && target == old(target)
    {
      var i := 0;
      while i < frames
        invariant 0 <= i <= frames
        invariant Valid()
        invariant isVisible == old(isVisible) && target == old(target)
        invariant progress == Ticks(old(progress), target, RevealFactor, RevealSnap, i)
      {
        TicksNext(old(progress), target, RevealFactor, RevealSnap, i);
        Tick();
        i := i + 1;
      }
    }
  }

  /** The parallax progress: 0 while the element's top (shifted up by
      `offset`) is at the bottom of the viewport, 1 once its bottom has left
      the top. */
  function RevealProgress(top: real, height: real, windowHeight: real, offset: real): (r: real)
    requires windowHeight + height != 0.0
    ensures InUnit(r)
  {
    var start := windowHeight;
    var end := -height;
    var current := top - offset;
    Clamp01(1.0 - (current - end) / (start - end))
  }

  /** For a positive travel `windowHeight + height`: 0 from entering at the
      bottom, 1 from leaving at the top, proportional in between. */
  lemma RevealAnchors(top: real, height: real, windowHeight: real, offset: real)
    requires windowHeight + height > 0.0
    ensures top - offset >= windowHeight ==> RevealProgress(top, height, windowHeight, offset) == 0.0
    ensures top - offset <= -height ==> RevealProgress(top, height, windowHeight, offset) == 1.0
    ensures -height <= top - offset <= windowHeight ==>
      RevealProgress(top, height, windowHeight, offset) * (windowHeight + height) == windowHeight - (top - offset)
  {
    var d := windowHeight + height;
    var q := (top - offset + height) / d;
    QuotientBounds(top - offset + height, d);
    assert (1.0 - q) * d == d - q * d;
  }

  /** Scrolling down (a smaller `top`) or a larger `offset` never lowers the progress. */
  lemma RevealMonotone(top1: real, top2: real, offset1: real, offset2: real, height: real, windowHeight: real)
    requires windowHeight + height > 0.0
    requires top1 <= top2 && offset2 <= offset1
    ensures RevealProgress(top2, height, windowHeight, offset2) <= RevealProgress(top1, height, windowHeight, offset1)
  {
    var d := windowHeight + height;
    DivMonotone(top1 - offset1 + height, top2 - offset2 + height, d);
    Clamp01Monotone(1.0 - (top2 - offset2 + height) / d, 1.0 - (top1 - offset1 + height) / d);
  }

  /** `useScrollProgress`'s options in this file; the offset defaults to 0. */
  datatype RevealProgressOptions = RevealProgressOptions(offset: Option<real>)

  /** One mounted parallax `useScrollProgress`. */
  class RevealProgressTracker {
    const offset: real
    var progress: real

    ghost predicate Valid()
      reads this
    {
      InUnit(progress)
    }

    constructor(options: RevealProgressOptions)
      ensures offset == (if options.offset.Some? then options.offset.value else 0.0)
      ensures progress == 0.0
      ensures Valid()
    {
      offset := if options.offset.Some? then options.offset.value else 0.0;
      progress := 0.0;
    }

    /** `handleScroll`: with no container nothing changes; otherwise the
        progress receives the clamped value. */
    method HandleScroll(container: Option<Element>, windowHeight: real)
      requires Valid()
      requires container.Some? ==> windowHeight + container.value.height != 0.0
      modifies this
      ensures Valid()
      ensures container.None? ==> progress == old(progress)
      ensures container.Some? ==>
        progress == RevealProgress(container.value.top, container.value.height, windowHeight, offset)
    {
      if container.None? {
        return;
      }
      var start := windowHeight;
      var end := -container.value.height;
      var current := container.value.top - offset;
      var newProgress := 1.0 - (current - end) / (start - end);
      newProgress := Clamp01(newProgress);
      progress := newProgress;
    }
  }
}
