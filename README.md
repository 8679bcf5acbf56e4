# Portfolio page script: code monitor, testimonials slider, panel keys

This project models the stateful parts of the portfolio page's script (`script.js`) in Dafny and proves their properties.

- **The code monitor** (module `CodeMonitor`, `code_monitor.dfy`). A block of 80 code lines scrolls upward without end, followed by a clone of itself.
  - Its state is a class, `Animator`. The fields are the target speed, the applied speed, the scroll position, the last frame timestamp and the fixed content height. `hasClone` records whether the clone element exists (script.js:67); it decides whether a frame writes the clone's offset (script.js:78). Two more fields hold the offsets last written to the viewport and to the clone.
  - `Tick(now)` is one animation frame. The applied speed eases toward the target by the factor `min(1, dt * 8)`. The position advances, then wraps back once by the content height. The viewport and the clone both get the offset `-pos`.
  - `SetFast`, `SetSlow` and `PointerMoved` set the target speed. `Handle` dispatches each wired event (mouse enter/leave, focus/blur, touch start/end, pointer move) to them.
  - The per-frame arithmetic (`FrameSeconds`, `Smooth`, `Travel`, `Wrap`) and the pointer-move arithmetic (`PointerFraction`, `PointerSpeed`) are pure functions with lemmas about them. `PopulateCodeLines` builds the line texts in a loop.
- **The testimonials slider** (module `Testimonials`, `testimonials.dfy`). This is a modular index over the items, in class `Carousel`. The right button and the seven-second timer step forward. The left button steps back.
- **Panel keys** (module `KeyNav`, `key_nav.dfy`). A key press of a single digit `1` to `6` jumps to the panel with index digit − 1, if that panel exists.

Floating-point numbers are modelled as `real`. Timestamps are milliseconds, distances are pixels and speeds are pixels per second. The browser's frame clock is a parameter: `Tick` receives the frame timestamp, and the constructor receives the start-up timestamp.

`Tick` puts no condition on its timestamp. The first frame timestamp a browser delivers may be earlier than the start-up timestamp taken with `performance.now()`. So the properties that need a forward frame say so (`old(last) <= now`, `0 <= dt`).

## Model

| member | source | states |
|---|---|---|
| `CodeMonitor.PopulateCodeLines` | script.js:38-50 | the 80 line texts are exactly `CodeLines(samples)`: line i shows sample i modulo the number of samples |
| `CodeMonitor.CodeLinesPeriodic` | script.js:40-43 | the line texts repeat with the period of the sample list |
| `CodeMonitor.CodeLinesShowEverySample` | script.js:40-43 | with at most 80 samples, line j shows sample j for every j below the number of samples |
| `CodeMonitor.PageShowsEverySample` | script.js:18-43 | the page's own list has 16 samples, so the first 16 of its 80 lines show them in order |
| `CodeMonitor.PointerFraction` | script.js:96-98 | the clamped pointer position gives a fraction in [0, 1]: 0 above the box, 1 below it, and otherwise (clientY − top) / height |
| `CodeMonitor.RawSpeed` | script.js:100 | the unclamped speed `variable`: never above 220, equal to 220 exactly at fraction 0.7, and at least 18 exactly for fractions in [−0.3, 1.7] |
| `CodeMonitor.PointerSpeed` | script.js:100-101 | the target speed a pointer move sets always lies in [18, 220], and it equals 220 if and only if the fraction is 0.7 |
| `CodeMonitor.PointerSpeedUnclampedInMonitor` | script.js:98-101 | for fractions in [0, 1] the clamp has no effect: the speed is the linear fall-off and is strictly above 18 |
| `CodeMonitor.PointerSpeedFallsOff` | script.js:99-101 | a pointer nearer the 0.7 fraction never asks for a lower speed |
| `CodeMonitor.FrameSeconds` | script.js:71 | the frame's `dt` in seconds: 1000 times it is the millisecond difference, and it is non-negative exactly when the new timestamp is not earlier than the last |
| `CodeMonitor.Travel` | script.js:75 | the distance `speedCurrent * dt` scrolled in a frame: non-negative for a non-negative speed and frame, zero when either is zero |
| `CodeMonitor.Smooth` | script.js:74 | the lerp of the applied speed toward the target by `min(1, dt * 8)`: it equals the target once dt * 8 ≥ 1 and leaves the speed unchanged when dt is 0 or the speeds agree; its other properties are `SmoothNoOvershoot`, `SmoothReachesTarget`, `SmoothStrictlyCloser` and `SmoothStaysInBand` |
| `CodeMonitor.SmoothNoOvershoot` | script.js:73-74 | a frame with dt ≥ 0 leaves the applied speed between its old value and the target |
| `CodeMonitor.SmoothReachesTarget` | script.js:74 | when the speeds differ, a frame with dt ≥ 0 lands exactly on the target if and only if dt * 8 ≥ 1 |
| `CodeMonitor.SmoothStrictlyCloser` | script.js:73-74 | a frame with 0 < dt * 8 < 1 brings the applied speed strictly closer to a different target without reaching it |
| `CodeMonitor.SmoothStaysInBand` | script.js:61-64 | any band that holds both the applied speed and the target, [18, 220] included, still holds the applied speed after a frame with dt ≥ 0 |
| `CodeMonitor.Wrap` | script.js:76 | one wrap puts the position in [0, height) if and only if it lay in [0, 2 · height); wrapping never increases the position and leaves it unchanged exactly when it is below the height |
| `CodeMonitor.WrapIdempotent` | script.js:76 | a second wrap is a no-op if and only if the position was below twice the height |
| `CodeMonitor.AdvanceStaysInBounds` | script.js:75-76 | from a position in [0, height), an advance in [0, height] followed by the single subtraction gives a position in [0, height) |
| `CodeMonitor.TargetSpeedFor` | script.js:86-106 | enter, focus and touch start ask for 220; leave, blur and touch end ask for 18; every event asks for a speed in [18, 220] |
| `CodeMonitor.Animator.constructor` | script.js:61-68 | the animator starts with both speeds 18, position 0 and the start-up timestamp; the position is in bounds and the speeds are in range |
| `CodeMonitor.Animator.Tick` | script.js:70-80 | the new timestamp, applied speed and position are `now`, `Smooth(...)` and `Wrap(...)`; viewport and clone receive the same offset `-pos`; the target is untouched; a forward frame keeps the applied speed in [18, 220]; a bounded advance keeps the position in [0, height) |
| `CodeMonitor.Animator.SetFast` | script.js:86 | the target becomes 220 and nothing else changes |
| `CodeMonitor.Animator.SetSlow` | script.js:87 | the target becomes 18 and nothing else changes |
| `CodeMonitor.Animator.PointerMoved` | script.js:95-102 | the target becomes `PointerSpeed(PointerFraction(...))`, which is in [18, 220]; nothing else changes |
| `CodeMonitor.Animator.Handle` | script.js:89-106 | each wired event sets the target to `TargetSpeedFor(event)` and nothing else changes |
| `Testimonials.StepRight` | script.js:148 | the right step gives an index below the count: the next index, or 0 after the last |
| `Testimonials.StepLeft` | script.js:149 | the left step gives an index below the count: the previous index, or the last one before 0 |
| `Testimonials.LeftUndoesRight` | script.js:148-149 | a left click undoes a right click |
| `Testimonials.RightUndoesLeft` | script.js:148-149 | a right click undoes a left click |
| `Testimonials.RightTimesWithinLap` | script.js:148-150 | k ≤ count right steps move the index k places forward, wrapping once |
| `Testimonials.RightTimesAdd` | script.js:148-150 | k right steps followed by m right steps equal k + m right steps |
| `Testimonials.FullCycleReturns` | script.js:148-150 | count right steps return to the starting index, and no smaller positive number of steps does |
| `Testimonials.RightTimesPeriodic` | script.js:148-150 | right stepping is periodic with the number of items |
| `Testimonials.Carousel.constructor` | script.js:142-144 | the slider starts at index 0 over a positive number of items |
| `Testimonials.Carousel.Show` | script.js:145-147 | the window's offset becomes −100 % times the index |
| `Testimonials.Carousel.ClickRight` | script.js:148 | the index becomes `StepRight` of the old index, and the window shows it |
| `Testimonials.Carousel.ClickLeft` | script.js:149 | the index becomes `StepLeft` of the old index, and the window shows it |
| `Testimonials.Carousel.AutoAdvance` | script.js:150 | the timer's step produces exactly the index a right click would |
| `KeyNav.KeyFor` | script.js:252-253 | the key for panel index idx is the single digit idx + 1, in `1`..`6` |
| `KeyNav.PanelForKey` | script.js:251-255 | a key selects panel idx only if it is the key of idx and that panel exists; no panel is selected exactly when no existing panel among the first six has that key |
| `KeyNav.KeyRoundTrip` | script.js:252-254 | the key of every existing panel among the first six selects that panel |
| `KeyNav.KeysDistinct` | script.js:252-253 | distinct panels have distinct keys |

## Left out

- Syntax highlighting of the code lines (regular-expression replacements), element creation and the clone's construction and placement (script.js:41-56) are DOM work. The model keeps only which text each line gets.
- `CodeMonitor.PopulateCodeLines` requires a non-empty sample list. The source's list is a constant with 16 entries. With an empty list the source would fail on `undefined`.
- `requestAnimationFrame` scheduling and `performance.now()` (script.js:66, 79, 81). One frame is `Tick(now)` with the timestamp as a parameter. The endless loop itself is not modelled.
- The `translateY`/`translateX` style writes are modelled as numeric offset fields (`viewportOffset`, `cloneOffset`, `offsetPercent`), not as CSS strings.
- IEEE floating point: rounding, NaN and infinities are not modelled.
  - A monitor box of height 0 would make the pointer fraction NaN. `PointerMoved` requires a positive box height.
  - An empty testimonial list would make the index NaN. `Carousel` requires a positive count.
- `CodeMonitor.Animator.constructor` requires a positive content height.
  - With height 0 the wrap test fires whenever the position is non-negative but subtracts nothing, so the position grows without bound (script.js:76).
  - The model takes positive height as the object invariant.
- The scroll-position bound holds only under a precondition. `Tick`'s contract promises the bound for an advance in [0, height] from an in-bounds position. In general one wrap keeps the position in [0, height) exactly when the advanced position lies in [0, 2 · height) (`Wrap`'s contract). A frame that carries it to 2 · height or beyond, or below 0, leaves it outside, and the source relies on frames being short.
- The script has no stop operation: the frame loop (script.js:79, 81) runs for the page's lifetime. It is not modelled.
- The IntersectionObserver active-link highlighting (script.js:121-134) is not modelled. It depends on intersection ratios the browser computes.
- Nav-link and hero-button clicks and `scrollIntoView` (script.js:112-139, 254) are navigation effects. The model keeps only which panel index a digit key selects.
- The `setInterval` scheduling (script.js:150) is not modelled. Its index step is modelled as `AutoAdvance`.
- The CV text generator and download (script.js:153-197) are left out. The text is a constant, and the download goes through Blob, object URLs and an anchor click.
- The contact form, clipboard copy, mailto link and toast timers (script.js:200-231) are left out. They are I/O, foreign calls and timers.
- The year fill, the background parallax (script.js:234-247), the accessibility attributes and the console message are left out. They are presentation only.
