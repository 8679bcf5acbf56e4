/** The code monitor: a block of sample code lines that scrolls upward without
    end, followed by a clone of itself, at a speed that eases toward a target
    set by pointer, focus and touch events.  Distances are pixels, speeds are
    pixels per second and timestamps are milliseconds, all modelled as reals. */
module CodeMonitor {

  /** Target speed while the monitor is not being looked at. */
  const SpeedSlow: real := 18.0
  /** Target speed while the pointer, focus or a touch is on the monitor. */
  const SpeedFast: real := 220.0
  /** Rate, per second, of the first-order smoothing of the applied speed. */
  const SmoothingRate: real := 8.0
  /** The vertical fraction of the monitor at which a pointer move requests the highest speed. */
  const PeakFraction: real := 0.7
  /** Number of code lines put into the viewport. */
  const LineCount: nat := 80

  /** The sample code lines that the viewport cycles through. */
  const SampleLines: seq<string> := [
    "import { createScene } from '3d-engine';",
    "const app = new App({renderer:'webgl'});",
    "function render() { requestAnimationFrame(render); app.render(); }",
    "await fetch('/api/data').then(res => res.json());",
    "const state = { user: 'bharath', role: 'dev' };",
    "router.post('/login', handleLogin);",
    "console.log('Render loop running');",
    "const geometry = new THREE.BoxGeometry(1,1,1);",
    "useEffect(()=>{ init(); },[]);",
    "// TODO: optimize critical path",
    "const res = await db.query('SELECT * FROM projects');",
    "if (!isProd) enableHotReload();",
    "render();",
    "const skills = ['JS','Node','3D','UX'];",
    "export default function App(){ return <div/> }",
    "let speed = 0.1;"
  ]

  function Min(a: real, b: real): real { if a <= b then a else b }
  function Max(a: real, b: real): real { if a >= b then a else b }
  function Abs(x: real): real { if x < 0.0 then -x else x }

  // ---------------------------------------------------------------------------
  // Populating the viewport

  /** The texts of the code lines, in order: line i shows sample i modulo the number of samples. */
  ghost function CodeLines(samples: seq<string>): (lines: seq<string>)
    requires 0 < |samples|
  {
    seq(LineCount, i requires 0 <= i < LineCount => samples[i % |samples|])
  }

  /** Builds the text of every code line, one line per step of the loop. */
  method PopulateCodeLines(samples: seq<string>) returns (lines: seq<string>)
    requires 0 < |samples|
    ensures lines == CodeLines(samples)
  {
    lines := [];
    var i := 0;
    while i < LineCount
      invariant 0 <= i <= LineCount
      invariant lines == CodeLines(samples)[..i]
    {
      lines := lines + [samples[i % |samples|]];
      i := i + 1;
    }
  }

  /** The code lines repeat with the period of the sample list. */
  lemma CodeLinesPeriodic(samples: seq<string>, i: nat)
    requires 0 < |samples| && i + |samples| < LineCount
    ensures CodeLines(samples)[i + |samples|] == CodeLines(samples)[i]
  {
    ModShift(i, |samples|);
  }

  /** Adding the modulus does not change the remainder. */
  lemma ModShift(i: nat, n: nat)
    requires 0 < n
    ensures (i + n) % n == i % n
  {
    var q, r := i / n, i % n;
    var q2, r2 := (i + n) / n, (i + n) % n;
    assert n * (q2 - q - 1) == r - r2;
    MulBound(n, q2 - q - 1);
  }

  /** A non-zero multiple of a positive n is at least n away from zero. */
  lemma MulBound(n: int, d: int)
    requires 0 < n
    ensures 1 <= d ==> n <= n * d
    ensures d <= -1 ==> n * d <= -n
  {
    if 1 <= d {
      assert n * d == n + n * (d - 1);
    } else if d <= -1 {
      assert n * d == -n + n * (d + 1);
    }
  }

  /** With at most LineCount samples, line j shows sample j for every j < |samples|. */
  lemma CodeLinesShowEverySample(samples: seq<string>, j: nat)
    requires 0 < |samples| <= LineCount && j < |samples|
    ensures CodeLines(samples)[j] == samples[j]
  {
  }

  /** The page's own sample list fits in the viewport, so each of its lines is shown, in order. */
  lemma PageShowsEverySample()
    ensures |SampleLines| == 16 <= LineCount
    ensures forall j :: 0 <= j < |SampleLines| ==> CodeLines(SampleLines)[j] == SampleLines[j]
  {
    forall j | 0 <= j < |SampleLines|
      ensures CodeLines(SampleLines)[j] == SampleLines[j]
    {
      CodeLinesShowEverySample(SampleLines, j);
    }
  }

  // ---------------------------------------------------------------------------
  // Speed requested by the pointer position

  /** Vertical pointer position clamped into the monitor's bounding box, as a
      fraction of the box's height: 0 at the top edge, 1 at the bottom edge. */
  function PointerFraction(clientY: real, top: real, rectHeight: real): (t: real)
    requires 0.0 < rectHeight
    ensures 0.0 <= t <= 1.0
    ensures clientY <= top ==> t == 0.0
    ensures top + rectHeight <= clientY ==> t == 1.0
    ensures top <= clientY <= top + rectHeight ==> t * rectHeight == clientY - top
  {
    var y := Max(0.0, Min(rectHeight, clientY - top));
    UnitFraction(y, rectHeight);
    y / rectHeight
  }

  /** A length between zero and a positive whole, divided by the whole, lies in [0, 1]. */
  lemma UnitFraction(y: real, whole: real)
    requires 0.0 < whole && 0.0 <= y <= whole
    ensures 0.0 <= y / whole <= 1.0
    ensures y / whole * whole == y
    ensures y == 0.0 ==> y / whole == 0.0
    ensures y == whole ==> y / whole == 1.0
  {
  }

  /** Speed before clamping: SpeedFast at the peak fraction, falling off linearly with distance from it. */
  function RawSpeed(t: real): (s: real)
    ensures s <= SpeedFast
    ensures s == SpeedFast <==> t == PeakFraction
    ensures -0.3 <= t <= 1.7 <==> SpeedSlow <= s
  {
    SpeedSlow + (SpeedFast - SpeedSlow) * (1.0 - Abs(t - PeakFraction))
  }

  /** Target speed for a pointer at vertical fraction t, clamped to the speed range. */
  function PointerSpeed(t: real): (s: real)
    ensures SpeedSlow <= s <= SpeedFast
    ensures s == SpeedFast <==> t == PeakFraction
  {
    Max(SpeedSlow, Min(SpeedFast, RawSpeed(t)))
  }

  /** Inside the monitor the clamp never bites: the speed is the linear fall-off itself. */
  lemma PointerSpeedUnclampedInMonitor(t: real)
    requires 0.0 <= t <= 1.0
    ensures PointerSpeed(t) == RawSpeed(t)
    ensures SpeedSlow < PointerSpeed(t)
  {
  }

  /** The nearer the pointer is to the peak fraction, the higher the requested speed. */
  lemma PointerSpeedFallsOff(t1: real, t2: real)
    requires Abs(t1 - PeakFraction) <= Abs(t2 - PeakFraction)
    ensures PointerSpeed(t2) <= PointerSpeed(t1)
  {
  }

  // ---------------------------------------------------------------------------
  // One frame of the animation, as functions of the frame's inputs

  /** Seconds elapsed between two timestamps given in milliseconds. */
  function FrameSeconds(now: real, last: real): (dt: real)
    ensures dt * 1000.0 == now - last
    ensures 0.0 <= dt <==> last <= now
  {
    (now - last) / 1000.0
  }

  /** Distance scrolled in dt seconds at the given speed. */
  function Travel(speed: real, dt: real): (d: real)
    ensures 0.0 <= speed && 0.0 <= dt ==> 0.0 <= d
    ensures speed == 0.0 || dt == 0.0 ==> d == 0.0
  {
    speed * dt
  }

  /** The applied speed after one frame of dt seconds: it moves toward the target by
      the fraction min(1, dt * SmoothingRate) of the remaining gap. */
  function Smooth(current: real, target: real, dt: real): (r: real)
    ensures 1.0 <= dt * SmoothingRate ==> r == target
    ensures dt == 0.0 || current == target ==> r == current
  {
    current + (target - current) * Min(1.0, dt * SmoothingRate)
  }

  /** A gap scaled by a factor in [0, 1] stays between zero and the gap. */
  lemma ScaledGap(gap: real, k: real)
    requires 0.0 <= k <= 1.0
    ensures Min(0.0, gap) <= gap * k <= Max(0.0, gap)
  {
  }

  /** A forward frame never overshoots: the new speed lies between the old speed and the target. */
  lemma SmoothNoOvershoot(current: real, target: real, dt: real)
    requires 0.0 <= dt
    ensures Min(current, target) <= Smooth(current, target, dt) <= Max(current, target)
  {
    ScaledGap(target - current, Min(1.0, dt * SmoothingRate));
  }

  /** When the speeds differ, a forward frame lands exactly on the target if and only if it
      lasts at least 1 / SmoothingRate seconds. */
  lemma SmoothReachesTarget(current: real, target: real, dt: real)
    requires 0.0 <= dt && current != target
    ensures Smooth(current, target, dt) == target <==> 1.0 <= dt * SmoothingRate
  {
  }

  /** A frame shorter than 1 / SmoothingRate seconds brings the speed strictly closer to a
      different target without reaching it, so the speed converges and never jumps. */
  lemma SmoothStrictlyCloser(current: real, target: real, dt: real)
    requires 0.0 < dt && dt * SmoothingRate < 1.0 && current != target
    ensures Abs(target - Smooth(current, target, dt)) < Abs(target - current)
    ensures Smooth(current, target, dt) != target
  {
    var gap := target - current;
    var left := 1.0 - dt * SmoothingRate;
    assert target - Smooth(current, target, dt) == gap * left;
    ShrunkGap(gap, left);
  }

  /** A non-zero gap scaled by a factor strictly between 0 and 1 is non-zero and strictly smaller. */
  lemma ShrunkGap(gap: real, m: real)
    requires gap != 0.0 && 0.0 < m < 1.0
    ensures gap * m != 0.0 && Abs(gap * m) < Abs(gap)
  {
    if gap > 0.0 {
      assert gap * m < gap * 1.0;
    } else {
      assert gap * 1.0 < gap * m;
    }
  }

  /** Any band holding both the speed and the target still holds the speed after a forward frame;
      in particular the speed range [SpeedSlow, SpeedFast]. */
  lemma SmoothStaysInBand(current: real, target: real, dt: real, lo: real, hi: real)
    requires 0.0 <= dt && lo <= current <= hi && lo <= target <= hi
    ensures lo <= Smooth(current, target, dt) <= hi
  {
    SmoothNoOvershoot(current, target, dt);
  }

  /** The scroll position after the single wrap step of a frame.  One wrap brings the
      position into [0, height) exactly when it lay in [0, 2 * height). */
  function Wrap(p: real, height: real): (r: real)
    ensures 0.0 < height ==> (0.0 <= r < height <==> 0.0 <= p < 2.0 * height)
    ensures 0.0 < height ==> r <= p && (r == p <==> p < height)
  {
    if p >= height then p - height else p
  }

  /** Wrapping twice changes nothing the second time exactly when one subtraction sufficed,
      that is, when the position stayed below twice the height. */
  lemma WrapIdempotent(p: real, height: real)
    requires 0.0 < height
    ensures Wrap(Wrap(p, height), height) == Wrap(p, height) <==> p < 2.0 * height
  {
  }

  /** With the position in [0, height) and a frame advance in [0, height], the single
      subtraction restores the bound. */
  lemma AdvanceStaysInBounds(pos: real, advance: real, height: real)
    requires 0.0 <= pos < height && 0.0 <= advance <= height
    ensures 0.0 <= Wrap(pos + advance, height) < height
  {
  }

  // ---------------------------------------------------------------------------
  // The animator state

  /** The input events wired to the monitor. */
  datatype MonitorEvent =
    | MouseEnter
    | MouseLeave
    | Focus
    | Blur
    | TouchStart
    | TouchEnd
    | PointerMove(clientY: real, top: real, rectHeight: real)

  /** An event the host can deliver: a pointer move comes with a box of positive height. */
  predicate Deliverable(ev: MonitorEvent)
  {
    ev.PointerMove? ==> 0.0 < ev.rectHeight
  }

  /** The target speed an event asks for. */
  function TargetSpeedFor(ev: MonitorEvent): (s: real)
    requires Deliverable(ev)
    ensures SpeedSlow <= s <= SpeedFast
    ensures (ev.MouseEnter? || ev.Focus? || ev.TouchStart?) ==> s == SpeedFast
    ensures (ev.MouseLeave? || ev.Blur? || ev.TouchEnd?) ==> s == SpeedSlow
  {
    match ev
    case MouseEnter => SpeedFast
    case Focus => SpeedFast
    case TouchStart => SpeedFast
    case MouseLeave => SpeedSlow
    case Blur => SpeedSlow
    case TouchEnd => SpeedSlow
    case PointerMove(clientY, top, rectHeight) => PointerSpeed(PointerFraction(clientY, top, rectHeight))
  }

  /** The animation state of the monitor.  The offsets are the vertical translations last
      written to the viewport and to its clone (the clone may be absent). */
  class Animator {
    var speedTarget: real
    var speedCurrent: real
    var pos: real
    var last: real
    const height: real
    const hasClone: bool
    var viewportOffset: real
    var cloneOffset: real

    /** The object invariant: positive content height, target speed in range. */
    ghost predicate Valid()
      reads this
    {
      0.0 < height && SpeedSlow <= speedTarget <= SpeedFast
    }

    ghost predicate SpeedInRange()
      reads this
    {
      SpeedSlow <= speedCurrent <= SpeedFast
    }

    ghost predicate PositionInBounds()
      reads this
    {
      0.0 <= pos < height
    }

    /** Starts slow at position 0, with the timestamp taken at start-up. */
    constructor (height: real, now: real, hasClone: bool)
      requires 0.0 < height
      ensures Valid() && SpeedInRange() && PositionInBounds()
      ensures this.height == height && this.hasClone == hasClone
      ensures speedTarget == SpeedSlow && speedCurrent == SpeedSlow
      ensures pos == 0.0 && last == now
      ensures viewportOffset == 0.0 && cloneOffset == 0.0
    {
      this.height := height;
      this.hasClone := hasClone;
      speedTarget := SpeedSlow;
      speedCurrent := SpeedSlow;
      pos := 0.0;
      last := now;
      viewportOffset := 0.0;
      cloneOffset := 0.0;
    }

    /** One animation frame at timestamp now. */
    method Tick(now: real)
      requires Valid()
      modifies this`last, this`speedCurrent, this`pos, this`viewportOffset, this`cloneOffset
      ensures Valid() && speedTarget == old(speedTarget)
      ensures last == now
      ensures speedCurrent == Smooth(old(speedCurrent), speedTarget, FrameSeconds(now, old(last)))
      ensures pos == Wrap(old(pos) + Travel(speedCurrent, FrameSeconds(now, old(last))), height)
      ensures viewportOffset == -pos
      ensures cloneOffset == if hasClone then viewportOffset else old(cloneOffset)
      ensures old(PositionInBounds()) && 0.0 <= Travel(speedCurrent, FrameSeconds(now, old(last))) <= height ==>
                PositionInBounds()
      ensures old(last) <= now && old(SpeedInRange()) ==> SpeedInRange()
    {
      var dt := FrameSeconds(now, last);
      last := now;
      var speed := Smooth(speedCurrent, speedTarget, dt);
      if 0.0 <= dt && SpeedInRange() {
        SmoothStaysInBand(speedCurrent, speedTarget, dt, SpeedSlow, SpeedFast);
      }
      speedCurrent := speed;
      var advance := Travel(speed, dt);
      pos := Wrap(pos + advance, height);
      viewportOffset := -pos;
      if hasClone {
        cloneOffset := -pos;
      }
    }

    /** Pointer entered, focus gained or touch started. */
    method SetFast()
      requires Valid()
      modifies this`speedTarget
      ensures Valid() && speedTarget == SpeedFast
    {
      speedTarget := SpeedFast;
    }

    /** Pointer left, focus lost or touch ended. */
    method SetSlow()
      requires Valid()
      modifies this`speedTarget
      ensures Valid() && speedTarget == SpeedSlow
    {
      speedTarget := SpeedSlow;
    }

    /** The pointer moved to clientY over a monitor whose box starts at top and is rectHeight tall. */
    method PointerMoved(clientY: real, top: real, rectHeight: real)
      requires Valid() && 0.0 < rectHeight
      modifies this`speedTarget
      ensures Valid()
      ensures speedTarget == PointerSpeed(PointerFraction(clientY, top, rectHeight))
    {
      var y := Max(0.0, Min(rectHeight, clientY - top));
      var t := y / rectHeight;
      var variable := SpeedSlow + (SpeedFast - SpeedSlow) * (1.0 - Abs(t - PeakFraction));
      speedTarget := Max(SpeedSlow, Min(SpeedFast, variable));
    }

    /** Dispatches an event to the handler it is wired to. */
    method Handle(ev: MonitorEvent)
      requires Valid() && Deliverable(ev)
      modifies this`speedTarget
      ensures Valid() && speedTarget == TargetSpeedFor(ev)
    {
      match ev
      case MouseEnter => SetFast();
      case Focus => SetFast();
      case TouchStart => SetFast();
      case MouseLeave => SetSlow();
      case Blur => SetSlow();
      case TouchEnd => SetSlow();
      case PointerMove(clientY, top, rectHeight) => PointerMoved(clientY, top, rectHeight);
    }
  }
}
