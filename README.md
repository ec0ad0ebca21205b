# Scroll-tracking core of botak

The botak studio site animates its pinned sections from the scroll position. It does so in three layers:

- **Samplers.** These turn an element's geometry into a progress value clamped to [0,1]. They are `handleScroll` in `useScrollStory` (sticky and viewport modes) and the two hooks named `useScrollProgress`. The model calls the `useScrollProgress.ts` one `ContainerProgress` and the `useScrollReveal.ts` one `RevealProgress`.
- **Smoothers.** Once per animation frame these move a displayed value a fixed fraction (`lerp`) toward the latest sample, and snap onto it below a threshold. They are `animate` in `useScrollStory` (configurable factor, threshold 0.0001) and `animate` in `useSmoothReveal` (factor 0.12, threshold 0.001). The intersection-driven visibility flags of `useScrollReveal` and `useScrollRevealChildren` sit beside them.
- **Phase arithmetic.** This splits a progress value into phases:
  - `useScrollPhase` and `usePhaseProgress`;
  - their inline copies in `GameShowcase`;
  - the card and text values that `GameShowcase` derives from them;
  - `Hero`'s distance-to-opacity, scale, blur and transform mapping.

All quantities are Dafny `real`, and `Math.floor` is `.Floor`.

The state the hooks keep in React state and refs is a class per hook instance:

- `ScrollStory.Session`: `target`, `progress`, `smooth`.
- `ScrollProgress.ContainerProgressTracker`.
- `ScrollReveal.Reveal`.
- `ScrollReveal.RevealChildren`.
- `ScrollReveal.SmoothReveal`.
- `ScrollReveal.RevealProgressTracker`.

Each scroll handler, observer callback and animation frame is a method. Each method is proved equal to a pure specification function. Scroll handlers match `StoryProgress`, `ContainerProgress` or `RevealProgress`. Observer callbacks match `EntryStep`. Animation frames match `SmoothStep`. The lemmas then state what the site relies on about those functions. A frame loop (`Run`) is proved to equal `Ticks`, the `n`-fold iterate of one frame. The smoothing lemmas show that the eased value never overshoots, moves monotonically toward the target, and lands on it exactly after a bounded number of frames.

The source leaves several divisions unguarded:

- `handleScroll` in `useScrollStory` divides by `windowHeight`.
- `useScrollProgress` divides by `containerHeight - windowHeight`.
- The parallax `useScrollProgress` divides by `windowHeight + height`.
- `usePhaseProgress` divides by `phaseCount`.

The model's functions require only that these denominators are non-zero. Lemmas that need a sign add it. `ScrollProgress.ShortContainerReversed` shows what happens when a container is shorter than the viewport: the overflow is negative and the progress runs backwards.

Two facts about `Hero` are proved:

- The last phase reaches full opacity at progress 6/7. At the end of the scroll it is back at 0.25 (`Hero.FullOpacityExactly`, `Hero.AtEnd`).
- Near a phase boundary two phases are active at once (`Hero.TwoActiveExample`).

## Model

| member | source | states |
|---|---|---|
| ScrollMath.Clamp01 | src/hooks/useScrollStory.ts:64 | the clamp lands in [0,1], leaves values in [0,1] alone, gives 0 at or below 0 and 1 at or above 1 |
| Smoothing.Lerp | src/hooks/useScrollStory.ts:6-8 | factor 0 gives the start and factor 1 the end |
| Smoothing.LerpBetween | src/hooks/useScrollReveal.ts:6-8 | for a factor in [0,1] the interpolated point lies between start and end |
| Smoothing.LerpError | src/hooks/useScrollStory.ts:6-8 | the remaining distance to the end is exactly `(1 - factor)` times the old one |
| Smoothing.SmoothStep | src/hooks/useScrollStory.ts:73-76 | closer than epsilon: the result is the target; otherwise it is the lerp; the target is a fixed point |
| Smoothing.Frame | src/hooks/useScrollStory.ts:73-77 | one animation frame as a map from the displayed value to the next, for a fixed target, factor and threshold |
| Smoothing.Iterate | src/hooks/useScrollStory.ts:72-79 | `step` applied `n` times to `start`; zero applications leave `start` |
| Smoothing.Ticks | src/hooks/useScrollStory.ts:72-79 | the displayed value after `n` frames with an unchanged target: `Frame` iterated `n` times |
| Smoothing.StepBetween | src/hooks/useScrollStory.ts:73-76 | for a factor in [0,1] a frame never overshoots: the new value lies between the old value and the target, so the distance never grows |
| Smoothing.StepInUnit | src/hooks/useScrollStory.ts:73-76 | a frame keeps a value in [0,1] when the target is in [0,1] |
| Smoothing.StepDistance | src/hooks/useScrollStory.ts:73-76 | per frame the distance to the target is at most `(1 - factor)` times the old distance |
| Smoothing.StepApproach | src/hooks/useScrollStory.ts:73-76 | for factor in (0,1] and positive epsilon a frame lands on the target or comes at least `factor * epsilon` closer |
| Smoothing.TicksMonotone | src/hooks/useScrollStory.ts:72-79 | with an unchanged target, frame `n` lies between frame `m <= n` and the target |
| Smoothing.TicksStayAtTarget | src/hooks/useScrollStory.ts:72-79 | once a frame lands on the target every later frame stays on it |
| Smoothing.TicksApproach | src/hooks/useScrollStory.ts:72-79 | after `k` frames the value sits on the target or is at least `k * factor * epsilon` closer |
| Smoothing.TicksSettle | src/hooks/useScrollStory.ts:72-79 | every frame `k` with `k * factor * epsilon` at least the initial distance sits exactly on the target |
| ScrollStory.EffectiveSmoothing | src/hooks/useScrollStory.ts:23 | an absent smoothing option means 0.1, a given one is used as is |
| ScrollStory.EffectiveMode | src/hooks/useScrollStory.ts:24 | an absent mode means sticky, a given one is used as is |
| ScrollStory.StoryProgress | src/hooks/useScrollStory.ts:34-64 | the sample lies in [0,1] in both modes |
| ScrollStory.StickyShortIsBinary | src/hooks/useScrollStory.ts:38-41 | with no overflow the sticky sample is 1 iff `top <= 0` and 0 iff `top > 0` |
| ScrollStory.StickyTallAnchors | src/hooks/useScrollStory.ts:42-45 | with overflow `d > 0`: `top >= 0` gives 0, `top <= -d` gives 1, in between the sample times `d` is `-top` |
| ScrollStory.StickyMonotone | src/hooks/useScrollStory.ts:36-45 | the sticky sample never rises with `top` |
| ScrollStory.ViewportAnchors | src/hooks/useScrollStory.ts:54-64 | for `H > 0`: `top >= H` gives 0, `top <= 0` gives 1, in between the sample times `H` is `H - top` |
| ScrollStory.ViewportIgnoresHeight | src/hooks/useScrollStory.ts:54-60 | the viewport sample does not depend on the element's height |
| ScrollStory.ViewportMonotone | src/hooks/useScrollStory.ts:54-64 | the viewport sample never rises with `top` |
| ScrollStory.RampFromRest | src/hooks/useScrollStory.ts:73-76 | from 0 toward 1 with smoothing 0.1 the value after `n` frames is `1 - 0.9^n` while no snap has happened |
| ScrollStory.DefaultSettles | src/hooks/useScrollStory.ts:72-79 | with the default smoothing any sample in [0,1] is displayed exactly from frame 100000 on |
| ScrollStory.Session.constructor | src/hooks/useScrollStory.ts:17-24 | mode and smoothing take their defaults; target, progress and smooth start at 0 |
| ScrollStory.Session.Sample | src/hooks/useScrollStory.ts:26-68 | with no element nothing changes; otherwise target and progress both receive `StoryProgress` of the element; smooth is untouched |
| ScrollStory.Session.Tick | src/hooks/useScrollStory.ts:73-76 | smooth becomes `SmoothStep` of its old value toward target, keeping it in [0,1] for a smoothing in [0,1]; the sample is untouched |
| ScrollStory.Session.Run | src/hooks/useScrollStory.ts:72-81 | `frames` frames leave smooth at `Ticks(old smooth, target, smoothing, 0.0001, frames)` |
| ScrollProgress.ContainerProgress | src/hooks/useScrollProgress.ts:26-33 | the progress lies in [0,1] |
| ScrollProgress.ScrollStart | src/hooks/useScrollProgress.ts:26 | the start line `H * (1 - offset / 100)`, the container top at which the progress is 0 (`ContainerAnchors`) |
| ScrollProgress.ContainerAnchors | src/hooks/useScrollProgress.ts:26-33 | for overflow `d > 0`: 0 from the start line down, 1 from `d` above it, proportional in between |
| ScrollProgress.ContainerDefaultAnchors | src/hooks/useScrollProgress.ts:26-33 | with offset 0 the progress is 0 at `top = H` and 1 at `top = 2H - containerHeight` |
| ScrollProgress.ContainerMonotone | src/hooks/useScrollProgress.ts:30-33 | for overflow `d > 0` the progress never rises with `top` |
| ScrollProgress.ShortContainerReversed | src/hooks/useScrollProgress.ts:29-33 | for a negative overflow the progress never falls as `top` grows |
| ScrollProgress.ContainerProgressTracker.constructor | src/hooks/useScrollProgress.ts:14-15 | the offset defaults to 0 and the progress starts at 0 |
| ScrollProgress.ContainerProgressTracker.HandleScroll | src/hooks/useScrollProgress.ts:17-36 | with no container nothing changes; otherwise the progress becomes `ContainerProgress` of the container |
| ScrollProgress.Phase | src/hooks/useScrollProgress.ts:53-55 | `min(floor(p * n), n - 1)`, the index of the phase a progress falls in |
| ScrollProgress.PhaseBounds | src/hooks/useScrollProgress.ts:54 | for progress in [0,1] and at least one phase the index lies in `[0, n-1]` |
| ScrollProgress.PhaseBucket | src/hooks/useScrollProgress.ts:54 | phase `i` holds the progress values with `i <= p*n < i+1`, and the last one also holds progress 1 |
| ScrollProgress.PhaseAtEnd | src/hooks/useScrollProgress.ts:54 | progress 1 selects the last phase |
| ScrollProgress.PhaseExamples | src/hooks/useScrollProgress.ts:54 | with four phases 0.999 gives 3, 0.5 gives 2 and 0 gives 0 |
| ScrollProgress.PhaseMonotone | src/hooks/useScrollProgress.ts:54 | more progress never selects an earlier phase |
| ScrollProgress.PhaseSize | src/hooks/useScrollProgress.ts:59 | the width `1 / n` of one phase |
| ScrollProgress.PhaseStart | src/hooks/useScrollProgress.ts:60-61 | phase `i` starts at `i * (1 / n)`; phase `i + 1` starts where phase `i` ends (`PhaseStartFacts`) |
| ScrollProgress.PhaseProgress | src/hooks/useScrollProgress.ts:58-67 | the three early returns of `usePhaseProgress` over the window of phase `i` |
| ScrollProgress.Ramp | src/hooks/useScrollProgress.ts:63-66 | 0 before the window, 1 from its end, `(p - start) / size` inside |
| ScrollProgress.PhaseStartFacts | src/hooks/useScrollProgress.ts:59-61 | the start of phase `i` is `i/n`, the next phase starts one phase size later, and the size is positive |
| ScrollProgress.RampFacts | src/hooks/useScrollProgress.ts:63-66 | over a window of positive size: 0 before it, 1 from its end, the covered fraction inside, always the clamp of that fraction |
| ScrollProgress.RampMonotone | src/hooks/useScrollProgress.ts:63-66 | the window's value never falls as the progress rises |
| ScrollProgress.PhaseProgressCases | src/hooks/useScrollProgress.ts:58-67 | 0 when `p < i/n`, 1 when `p >= (i+1)/n`, otherwise `(p - i/n) * n` |
| ScrollProgress.PhaseProgressIsClamp | src/hooks/useScrollProgress.ts:58-67 | the phase progress is the clamp of `(p - start) / size` and lies in [0,1] |
| ScrollProgress.PhaseProgressMonotone | src/hooks/useScrollProgress.ts:58-67 | the phase progress never falls as the progress rises |
| ScrollReveal.Mounted | src/hooks/useScrollReveal.ts:21-25 | after mounting the flag is off and the element is observed exactly when present |
| ScrollReveal.EntryStep | src/hooks/useScrollReveal.ts:28-37 | one observer callback: no effect once unobserved; with `triggerOnce` an intersecting entry sets the flag and unobserves, a non-intersecting one does nothing; otherwise the flag takes the entry |
| ScrollReveal.AfterEntries | src/hooks/useScrollReveal.ts:28-37 | the state after a sequence of callbacks, the last one being the latest |
| ScrollReveal.LatchStaysVisible | src/hooks/useScrollReveal.ts:29-33 | with `triggerOnce` a visible element stays visible whatever entries follow |
| ScrollReveal.UnobservedIgnoresEntries | src/hooks/useScrollReveal.ts:29-33 | once unobserved, no entry changes the state |
| ScrollReveal.LatchUnobservesWhenVisible | src/hooks/useScrollReveal.ts:29-33 | with `triggerOnce` the flag is on exactly when the element is no longer observed |
| ScrollReveal.LatchIffSomeIntersecting | src/hooks/useScrollReveal.ts:29-33 | with `triggerOnce` the flag is on iff the entry of some callback so far was intersecting |
| ScrollReveal.FollowsLatest | src/hooks/useScrollReveal.ts:35 | without `triggerOnce` the flag equals the entry of the latest callback and observation continues |
| ScrollReveal.NoElementNeverVisible | src/hooks/useScrollReveal.ts:24-25 | with no element the flag is never set |
| ScrollReveal.Reveal.constructor | src/hooks/useScrollReveal.ts:19-25 | `triggerOnce` defaults to false; the state is `Mounted` |
| ScrollReveal.Reveal.HandleEntry | src/hooks/useScrollReveal.ts:28-37 | the new flag and observation state are `EntryStep` of the old |
| ScrollReveal.RevealChildren.constructor | src/hooks/useScrollReveal.ts:151-155 | the state is `Mounted` |
| ScrollReveal.RevealChildren.HandleEntry | src/hooks/useScrollReveal.ts:157-160 | the flag follows the entry: `EntryStep` without `triggerOnce` |
| ScrollReveal.RevealTarget | src/hooks/useScrollReveal.ts:93 | target 1 while visible and 0 otherwise |
| ScrollReveal.SmoothRevealSettles | src/hooks/useScrollReveal.ts:67-74 | from any value in [0,1] the reveal sits exactly on its target from frame 8334 on |
| ScrollReveal.SmoothReveal.constructor | src/hooks/useScrollReveal.ts:58-63 | not visible, target 0, progress 0 |
| ScrollReveal.SmoothReveal.HandleEntry | src/hooks/useScrollReveal.ts:90-94 | the flag and observation state are `EntryStep` without `triggerOnce`, the target is `RevealTarget` of the new flag, the progress is untouched |
| ScrollReveal.SmoothReveal.Tick | src/hooks/useScrollReveal.ts:68-72 | progress becomes `SmoothStep` with factor 0.12 and threshold 0.001 and stays in [0,1] |
| ScrollReveal.SmoothReveal.Run | src/hooks/useScrollReveal.ts:66-76 | `frames` frames leave the progress at `Ticks(old progress, target, 0.12, 0.001, frames)` |
| ScrollReveal.RevealProgress | src/hooks/useScrollReveal.ts:120-126 | the parallax progress lies in [0,1] |
| ScrollReveal.RevealAnchors | src/hooks/useScrollReveal.ts:121-126 | for `H + height > 0`: 0 from `top - offset >= H`, 1 from `top - offset <= -height`, proportional in between |
| ScrollReveal.RevealMonotone | src/hooks/useScrollReveal.ts:123-126 | the progress never rises with `top` and never falls with `offset` |
| ScrollReveal.RevealProgressTracker.constructor | src/hooks/useScrollReveal.ts:110-111 | the offset defaults to 0 and the progress starts at 0 |
| ScrollReveal.RevealProgressTracker.HandleScroll | src/hooks/useScrollReveal.ts:113-129 | with no container nothing changes; otherwise the progress becomes `RevealProgress` of the container |
| GameShowcase.ShowcaseEasing | src/components/GameShowcase.tsx:62 | the section eases with 0.12 in sticky mode and lands on any sample in [0,1] from frame 83334 on |
| GameShowcase.ActivePhase | src/components/GameShowcase.tsx:65-66 | `min(floor(smoothProgress * 4), 3)`, the active phase |
| GameShowcase.ActivePhaseIsScrollPhase | src/components/GameShowcase.tsx:65-66 | the inline active phase is `useScrollPhase` with four phases |
| GameShowcase.ActivePhaseBounds | src/components/GameShowcase.tsx:65-66 | for progress in [0,1] the active phase is a valid index, and the last one at progress 1 |
| GameShowcase.ShowcasePhaseProgress | src/components/GameShowcase.tsx:67-69 | the phase progress lies in [0,1] |
| GameShowcase.ShowcaseMatchesPhaseProgress | src/components/GameShowcase.tsx:66-69 | for progress in [0,1] the inline phase progress equals `usePhaseProgress` of the active phase |
| GameShowcase.HalfwayExample | src/components/GameShowcase.tsx:66-69 | at progress 0.5 the active phase is 2 and its progress is 0 |
| GameShowcase.CurrentIndex | src/components/GameShowcase.tsx:71 | `max(0, activePhase)`, the index of the displayed phase |
| GameShowcase.CurrentPhase | src/components/GameShowcase.tsx:71 | the phase at that index, or the first phase when the index is out of range |
| GameShowcase.CurrentIndexValid | src/components/GameShowcase.tsx:71 | for every progress `max(0, activePhase)` indexes `phases`, so the fallback is never used |
| GameShowcase.NextPhaseIndex | src/components/GameShowcase.tsx:74 | `min(activePhase + 1, 3)` |
| GameShowcase.NextPhaseIndexFacts | src/components/GameShowcase.tsx:74 | the next index is valid, equals the active phase iff it is the last one, and is the following phase otherwise |
| GameShowcase.IsActiveCard | src/components/GameShowcase.tsx:192 | card `index` is active when it is the active phase; the indicators use the same test |
| GameShowcase.CardOpacity | src/components/GameShowcase.tsx:193 | 1 for the active card, 0 otherwise |
| GameShowcase.CardScale | src/components/GameShowcase.tsx:194 | `1 + phaseProgress * 0.03` for the active card, 0.95 otherwise |
| GameShowcase.ExactlyOneActiveCard | src/components/GameShowcase.tsx:191-194 | exactly one card is active, with opacity 1 and scale in [1, 1.03]; every other card has opacity 0 and scale 0.95 |
| GameShowcase.NumberOpacity | src/components/GameShowcase.tsx:122 | `0.3 + phaseProgress * 0.7` |
| GameShowcase.SubtitleOpacity | src/components/GameShowcase.tsx:133 | `0.2 + phaseProgress * 0.8` |
| GameShowcase.TitleOpacity | src/components/GameShowcase.tsx:144 | `0.1 + phaseProgress * 0.9` |
| GameShowcase.TextOpacities | src/components/GameShowcase.tsx:122-144 | number, subtitle and title start at 0.3, 0.2 and 0.1, reach 1, stay in between and never fade as the phase advances |
| GameShowcase.OutlineOpacity | src/components/GameShowcase.tsx:97 | `0.03 + phaseProgress * 0.04`, the outline text behind the phase |
| GameShowcase.OutlineOpacityFacts | src/components/GameShowcase.tsx:97 | the outline text starts at 0.03, reaches 0.07, stays in between and never fades as the phase advances |
| GameShowcase.DescriptionOpacity | src/components/GameShowcase.tsx:157 | `max(0, (phaseProgress - 0.2) * 1.25)` |
| GameShowcase.DescriptionOpacityFacts | src/components/GameShowcase.tsx:157 | hidden up to 0.2, fully opaque at 1, in [0,1] for a phase progress in [0,1] |
| GameShowcase.CtaOpacity | src/components/GameShowcase.tsx:168 | `max(0, (phaseProgress - 0.4) * 1.7)` |
| GameShowcase.CtaOpacityFacts | src/components/GameShowcase.tsx:168 | never negative, hidden up to 0.4, and 1.02 (above 1) at the end of a phase |
| GameShowcase.ScrollHint | src/components/GameShowcase.tsx:274-275 | opacity 1 and offset 0 below raw progress 0.05, otherwise opacity 0 and offset 20px |
| GameShowcase.ScrollHintShown | src/components/GameShowcase.tsx:274-275 | the hint has opacity 1 iff, and offset 0 iff, the raw progress is below 0.05; otherwise it is hidden 20px down |
| Hero.HeroEasing | src/components/Hero.tsx:50 | the section eases with 0.05 in sticky mode and lands on any sample in [0,1] from frame 200000 on |
| Hero.GlobalIndex | src/components/Hero.tsx:104 | `smoothProgress * (4 - 0.5)`, where the phases are centred |
| Hero.Distance | src/components/Hero.tsx:105 | `globalIndex - index`: negative for phases to come, positive for phases scrolled past |
| Hero.GlobalIndexRange | src/components/Hero.tsx:104 | for progress in [0,1] the global index rises from 0 to 3.5 |
| Hero.Opacity | src/components/Hero.tsx:109 | `max(0, 1 - abs(dist) * 1.5)` |
| Hero.LayerOpacity | src/components/Hero.tsx:73-75 | the opacity of phase `index` at a progress, shared by its background layer and its content |
| Hero.OpacityFacts | src/components/Hero.tsx:109 | opacity lies in [0,1], is 1 iff the distance is 0, is 0 iff the distance is at least 2/3, and is symmetric |
| Hero.OpacityAntitone | src/components/Hero.tsx:74-75 | opacity never rises with the absolute distance |
| Hero.IsActive | src/components/Hero.tsx:108 | `abs(dist) < 0.6` |
| Hero.ActiveIsVisible | src/components/Hero.tsx:108-109 | an active phase has opacity above 0.1 |
| Hero.SomePhaseActive | src/components/Hero.tsx:104-108 | for progress in [0,1] some phase is active, and active phases are at most one apart |
| Hero.TwoActiveExample | src/components/Hero.tsx:104-108 | at progress 1/7 the first two phases are both active |
| Hero.AppliedScale | src/components/Hero.tsx:129 | `max(0.5, 1 - abs(dist) * 0.5)` |
| Hero.AppliedScaleFacts | src/components/Hero.tsx:129 | the applied scale lies in [0.5, 1], is 1 iff the distance is 0 and 0.5 iff it is at least 1 |
| Hero.Blur | src/components/Hero.tsx:116 | `max(0, abs(dist) * 8)` |
| Hero.BlurFacts | src/components/Hero.tsx:116 | the blur is non-negative, 0 iff the distance is 0, and the outer `Math.max` never changes it |
| Hero.TranslateY | src/components/Hero.tsx:114 | `dist * -100` |
| Hero.RotateX | src/components/Hero.tsx:115 | `dist * -45` |
| Hero.TransformDirections | src/components/Hero.tsx:114-115 | phases scrolled past move up and tilt back, phases to come move down and tilt forward, the current one is untransformed |
| Hero.AtStart | src/components/Hero.tsx:73-75 | at progress 0 phase 0 has opacity 1 and every other phase 0 |
| Hero.AtEnd | src/components/Hero.tsx:104-109 | at progress 1 the last phase is at distance 0.5 with opacity 0.25, every other phase at 0 |
| Hero.FullOpacityExactly | src/components/Hero.tsx:104-109 | phase `i` is fully opaque exactly at progress `i / 3.5`; the last phase is at 6/7 |

## Left out

- Browser APIs are not modelled: `getBoundingClientRect`, `offsetHeight`, `innerHeight`, event listeners, `requestAnimationFrame` and `IntersectionObserver` are outside the model. Geometry arrives as an `Element` argument (absent when the ref is empty), and intersection flags arrive as `HandleEntry` arguments.
- Listener and frame lifecycle is not modelled: the registration, the initial `handleScroll()` call, and teardown through `removeEventListener`, `cancelAnimationFrame` and `disconnect` are plumbing. `Run` models the self-rescheduling frame loop for a given number of frames with no event in between.
- Each observer callback reads only the first entry of the batch it receives (`([entry]) =>` at `useScrollReveal.ts` lines 28, 90 and 158). `HandleEntry`'s argument is that first entry, and the entry sequences of `AfterEntries` hold one entry per callback. Later entries in the same batch are ignored, as in the source: a batch `[true, false]` leaves the flag set.
- `useScrollReveal`'s `threshold` and `rootMargin` options only configure the foreign `IntersectionObserver`. The model does not decide whether an entry intersects; it receives that as input.
- IEEE floating point is not modelled: reals replace floats, and NaN or Infinity from a zero denominator is excluded by `!= 0` preconditions. The HUD's `Math.round(smoothProgress * 100)` is display rounding, so it is left out.
- Unused options are not modelled: `offset` in `useScrollStory` (line 12), `duration` and `scrollEnd` in `useScrollProgress.ts` (lines 7, 14, 27), and `duration` in `useSmoothReveal` (line 52) feed no computation.
- `Hero`'s content `scale = 1 + dist * 0.4` (line 113) is computed but never applied. The model states the applied scale of line 129 instead.
- `GameShowcase`'s `nextPhase` (line 75) is looked up but never used. Only its index (line 74) is modelled.
- Styling-only values are not modelled:
  - the text `translateY` offsets and the outline text transform (but not its opacity) in `GameShowcase`;
  - the progress-bar width and the indicator `scale(1.3)`;
  - colours and hex-alpha strings;
  - `Hero`'s `translate3d` depth and its grid transform;
  - the mouse parallax (`Hero.tsx` lines 54-63);
  - the video modal state;
  - all JSX markup.
- `Navbar.tsx`, `prisma/seed.ts`, `layout.tsx` and `page.tsx` are not part of this model. They hold UI toggles, database I/O and static composition.
- Smoothing.TicksApproach proves only a linear per-frame bound: at least `factor * epsilon` closer each frame. It does not state the geometric `(1 - factor)^n` decay over many frames. The one-frame factor is `StepDistance`. The exact geometric ramp is stated only from rest with the default smoothing (`RampFromRest`).
