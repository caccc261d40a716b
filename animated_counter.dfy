/**
 * The animated counter's engine (packages/registry/registry/ui/animated-counter.tsx):
 * the per-frame step `animate`, the effect that starts a run and cleans it
 * up, the one-shot "start on view" gate and the prop defaults.
 *
 * Numbers are reals, so interpolation is exact. The browser's
 * `requestAnimationFrame` and `IntersectionObserver`, and React's effect
 * re-runs, become explicit events on a `Counter` object: `Tick(now)` is a
 * frame delivered by the browser, `ObserveIntersection` the observer's
 * callback, `Rerender` a render with new props and `Unmount` the cleanup.
 */
module AnimatedCounter {
  import opened Wrappers
  import opened Easings

  const DefaultDuration: real := 2000.0
  const DefaultCurve: Curve := EaseOut
  const DefaultStartOnView: bool := true

  /** The props that drive the animation (the display props are not modelled). */
  datatype Props = Props(value: real, duration: real, easing: Curve, startOnView: bool)

  /** The component's parameter destructuring: an omitted prop takes its
      default (2000 ms, `easeOut`, start on view) and a given one is kept.
      Omitting the duration, or giving a positive one, yields props the
      counter accepts; `DefaultsRun` shows what the defaults do. */
  function WithDefaults(value: real, duration: Option<real>, easing: Option<Curve>, startOnView: Option<bool>): (p: Props)
    ensures p.value == value
    ensures duration.None? || duration.value > 0.0 ==> p.duration > 0.0
  {
    Props(
      value,
      match duration case Some(d) => d case None => DefaultDuration,
      match easing case Some(e) => e case None => DefaultCurve,
      match startOnView case Some(b) => b case None => DefaultStartOnView)
  }

  /** `Math.min(elapsed / duration, 1)`: never above 1, exactly 1 once the
      duration has passed, the plain ratio before that. */
  function Progress(elapsed: real, duration: real): (p: real)
    requires duration > 0.0
    ensures p <= 1.0
    ensures p == 1.0 <==> elapsed >= duration
    ensures p < 1.0 ==> p * duration == elapsed
    ensures elapsed >= 0.0 ==> p >= 0.0
  {
    var ratio := elapsed / duration;
    if ratio < 1.0 then ratio else 1.0
  }

  /** Progress never goes back while elapsed time does not. */
  lemma ProgressMonotone(e1: real, e2: real, duration: real)
    requires duration > 0.0 && e1 <= e2
    ensures Progress(e1, duration) <= Progress(e2, duration)
  {
    assert e1 / duration <= e2 / duration by {
      assert e2 / duration - e1 / duration == (e2 - e1) / duration;
    }
  }

  /** `startValue + (value - startValue) * easedProgress`: the start value at
      eased progress 0, the target at 1. */
  function Interpolate(from: real, to: real, eased: real): (v: real)
    ensures eased == 0.0 ==> v == from
    ensures eased == 1.0 ==> v == to
  {
    from + (to - from) * eased
  }

  predicate Between(x: real, a: real, b: real) {
    (a <= x <= b) || (b <= x <= a)
  }

  /** The value a frame displays at a given progress: the run's start value
      at progress 0 and exactly the target at progress 1, whatever the curve. */
  function FrameValue(from: real, to: real, curve: Curve, wave: Wave, progress: real): (v: real)
    ensures progress == 0.0 ==> v == from
    ensures progress == 1.0 ==> v == to
  {
    Interpolate(from, to, Ease(curve, wave, progress))
  }

  lemma InterpolateBetween(from: real, to: real, eased: real)
    requires 0.0 <= eased <= 1.0
    ensures Between(Interpolate(from, to, eased), from, to)
  {
    var d := to - from;
    assert d * eased - d == d * (eased - 1.0);
    if from <= to {
      MulNonNegative(d, eased);
      MulNonNegative(d, 1.0 - eased);
    } else {
      MulNonNegative(-d, eased);
      MulNonNegative(-d, 1.0 - eased);
    }
  }

  lemma MulNonNegative(a: real, b: real)
    requires 0.0 <= a && 0.0 <= b
    ensures 0.0 <= a * b
  {
  }

  /** With `linear`, `easeOut` or `easeInOut`, every displayed value lies
      between the run's start value and its target; `spring` may overshoot. */
  lemma FrameValueBetween(from: real, to: real, curve: Curve, wave: Wave, progress: real)
    requires Bounded(curve) && 0.0 <= progress <= 1.0
    ensures Between(FrameValue(from, to, curve, wave, progress), from, to)
  {
    EaseInUnit(curve, wave, progress);
    InterpolateBetween(from, to, Ease(curve, wave, progress));
  }

  /** `!startTime`: the latch fires on null and, being a falsy test, on 0 too. */
  predicate Unlatched(startTime: Option<real>) {
    startTime.None? || startTime.value == 0.0
  }

  /** The start time a frame works with: `if (!startTime) startTime = now`. */
  function Latch(startTime: Option<real>, now: real): (st: real)
    // A frame has elapsed time 0 exactly when it latches or arrives at the latched time.
    ensures now - st == 0.0 <==> Unlatched(startTime) || startTime == Some(now)
    // A start time of 0 comes only from a frame at time 0: a latched 0 does not last.
    ensures st == 0.0 ==> now == 0.0
  {
    if Unlatched(startTime) then now else startTime.value
  }

  /** What the next frame of a run computes, given what the run's previous
      frames left behind (the counter's invariant): a latching frame has
      progress 0; progress does not go back while frame times do not; and a
      non-overshooting curve shows a value between start and target. */
  lemma NextFrame(startTime: Option<real>, lastFrameTime: Option<real>, progress: real, now: real,
                  duration: real, from: real, to: real, curve: Curve, wave: Wave)
    requires duration > 0.0
    requires startTime.None? ==> progress == 0.0
    requires startTime.Some? ==>
               lastFrameTime.Some? && progress == Progress(lastFrameTime.value - startTime.value, duration)
    requires startTime == Some(0.0) ==> lastFrameTime == Some(0.0)
    ensures Unlatched(startTime) ==> Progress(now - Latch(startTime, now), duration) == 0.0
    ensures lastFrameTime.None? || lastFrameTime.value <= now ==>
              progress <= Progress(now - Latch(startTime, now), duration)
    ensures Bounded(curve) && Latch(startTime, now) <= now ==>
              Between(FrameValue(from, to, curve, wave, Progress(now - Latch(startTime, now), duration)), from, to)
  {
    var st := Latch(startTime, now);
    var p := Progress(now - st, duration);
    if Unlatched(startTime) {
      assert p * duration == 0.0;
    } else if lastFrameTime.value <= now {
      ProgressMonotone(lastFrameTime.value - st, now - st, duration);
    }
    if Bounded(curve) && st <= now {
      FrameValueBetween(from, to, curve, wave, p);
    }
  }

  /** One mounted counter. */
  class Counter {
    // Props
    var value: real
    var duration: real
    var easing: Curve
    const startOnView: bool
    const wave: Wave

    // React state
    var displayValue: real
    var hasStarted: bool

    // The IntersectionObserver is connected
    var observing: bool
    // The effects have not been cleaned up by an unmount
    var mounted: bool

    // The variables of the current run of the animation effect
    var startValue: real
    var startTime: Option<real>
    // An `animate` callback is registered with requestAnimationFrame and not cancelled
    var framePending: bool

    // The progress of the current run's latest frame, and the latest frame time
    ghost var progress: real
    ghost var lastFrameTime: Option<real>

    ghost predicate Valid()
      reads this
    {
      && duration > 0.0
      && (!hasStarted ==> startOnView)
      && (mounted ==> observing == !hasStarted)
      && (!mounted ==> !observing && !framePending)
      && (framePending ==> hasStarted)
      && (!hasStarted ==> displayValue == 0.0 && startTime.None?)
      && (startTime.None? ==> progress == 0.0)
      && (startTime.Some? ==>
            lastFrameTime.Some? && progress == Progress(lastFrameTime.value - startTime.value, duration))
      && (startTime == Some(0.0) ==> lastFrameTime == Some(0.0))
    }

    /** Mounting: `displayValue` starts at 0 and `hasStarted` at
        `!startOnView`. With `startOnView` the observer is connected and no
        frame is requested; without it the first run starts at once, from 0. */
    constructor (props: Props, wave: Wave)
      requires props.duration > 0.0
      ensures Valid()
      ensures value == props.value && duration == props.duration && easing == props.easing
      ensures startOnView == props.startOnView && this.wave == wave
      ensures mounted && displayValue == 0.0
      ensures hasStarted == !props.startOnView && observing == props.startOnView
      ensures framePending == hasStarted && startValue == 0.0 && startTime.None?
    {
      value := props.value;
      duration := props.duration;
      easing := props.easing;
      startOnView := props.startOnView;
      this.wave := wave;
      displayValue := 0.0;
      hasStarted := !props.startOnView;
      observing := props.startOnView;
      mounted := true;
      startValue := 0.0;
      startTime := None;
      framePending := !props.startOnView;
      progress := 0.0;
      lastFrameTime := None;
    }

    /** The animation effect re-running: its cleanup cancels the pending frame;
        then, once the counter has started, a new run begins from the value on
        display, with no start time, and requests its first frame. */
    method RestartRun()
      requires Valid() && mounted
      modifies this
      ensures Valid()
      ensures hasStarted ==> framePending && startValue == old(displayValue) && startTime.None? && progress == 0.0
      ensures !hasStarted ==> !framePending && startValue == old(startValue) && startTime == old(startTime)
      ensures value == old(value) && duration == old(duration) && easing == old(easing)
      ensures displayValue == old(displayValue) && hasStarted == old(hasStarted)
      ensures observing == old(observing) && mounted == old(mounted) && lastFrameTime == old(lastFrameTime)
    {
      framePending := false;
      if hasStarted {
        startValue := displayValue;
        startTime := None;
        progress := 0.0;
        framePending := true;
      }
    }

    /** `animate(now)`, run when the browser delivers a frame. A frame that was
        never requested, or was cancelled, runs nothing. Otherwise the first
        frame of a run latches the start time; progress is clamped to 1; the
        eased value between `startValue` and `value` is displayed; and the next
        frame is requested exactly when progress is still below 1. */
    method Tick(now: real)
      requires Valid()
      modifies this
      ensures Valid()
      ensures !old(framePending) ==> unchanged(this)
      ensures old(framePending) ==>
                && startTime == Some(if Unlatched(old(startTime)) then now else old(startTime).value)
                && progress == Progress(now - startTime.value, duration)
                && displayValue == FrameValue(startValue, value, easing, wave, progress)
                && framePending == (progress < 1.0)
                && lastFrameTime == Some(now)
      // The latching frame has elapsed time 0 and shows the run's start value.
      ensures old(framePending) && Unlatched(old(startTime)) ==>
                progress == 0.0 && displayValue == startValue && framePending
      // The frame that requests no successor reached progress 1 and shows the target.
      ensures old(framePending) && !framePending ==> progress == 1.0 && displayValue == value
      // Progress does not go back while frame times do not.
      ensures old(framePending) && (old(lastFrameTime).None? || old(lastFrameTime).value <= now) ==>
                old(progress) <= progress
      // The non-overshooting curves keep the display between start and target.
      ensures old(framePending) && Bounded(easing) && startTime.value <= now ==>
                Between(displayValue, startValue, value)
      ensures value == old(value) && duration == old(duration) && easing == old(easing)
      ensures startValue == old(startValue) && hasStarted == old(hasStarted)
      ensures observing == old(observing) && mounted == old(mounted)
    {
      if !framePending {
        return;
      }
      NextFrame(startTime, lastFrameTime, progress, now, duration, startValue, value, easing, wave);
      startTime := Some(Latch(startTime, now));
      var p := Progress(now - startTime.value, duration);
      displayValue := FrameValue(startValue, value, easing, wave, p);
      framePending := p < 1.0;
      progress := p;
      lastFrameTime := Some(now);
    }

    /** The IntersectionObserver callback. The first report of the element
        intersecting the viewport sets `hasStarted`, disconnects the observer
        and so starts the first run, from the value on display (0). Any other
        report, and any report once disconnected, changes nothing. */
    method ObserveIntersection(isIntersecting: bool)
      requires Valid()
      modifies this
      ensures Valid()
      ensures !(old(observing) && isIntersecting) ==> unchanged(this)
      ensures old(observing) && isIntersecting ==>
                && hasStarted && !observing && framePending
                && startValue == old(displayValue) == 0.0 && startTime.None? && progress == 0.0
      ensures value == old(value) && duration == old(duration) && easing == old(easing)
      ensures displayValue == old(displayValue) && mounted == old(mounted) && lastFrameTime == old(lastFrameTime)
    {
      if observing && isIntersecting {
        hasStarted := true;
        observing := false;
        RestartRun();
      }
    }

    /** A render with new props. When the target, the duration or the curve
        changed and the counter has started, the animation effect re-runs: the
        pending frame is cancelled and a new run starts from the value on
        display, not from 0. Otherwise no run is touched. */
    method Rerender(newValue: real, newDuration: real, newEasing: Curve)
      requires Valid() && newDuration > 0.0
      modifies this
      ensures Valid()
      ensures !old(mounted) ==> unchanged(this)
      ensures old(mounted) ==> value == newValue && duration == newDuration && easing == newEasing
      ensures old(mounted) && old(hasStarted) && (newValue != old(value) || newDuration != old(duration) || newEasing != old(easing)) ==>
                framePending && startValue == old(displayValue) && startTime.None? && progress == 0.0
      ensures !(old(hasStarted) && (newValue != old(value) || newDuration != old(duration) || newEasing != old(easing))) ==>
                && framePending == old(framePending) && startValue == old(startValue) && startTime == old(startTime)
                && progress == old(progress)
      ensures displayValue == old(displayValue) && hasStarted == old(hasStarted) && lastFrameTime == old(lastFrameTime)
      ensures observing == old(observing) && mounted == old(mounted)
    {
      if !mounted {
        return;
      }
      var changed := newValue != value || newDuration != duration || newEasing != easing;
      if changed && hasStarted {
        RestartRun();
      }
      value, duration, easing := newValue, newDuration, newEasing;
    }

    /** Unmounting runs both cleanups: the pending frame is cancelled and the
        observer disconnected, so no frame and no observer report acts on the
        counter afterwards. Doing it twice is the same as doing it once. */
    method Unmount()
      requires Valid()
      modifies this
      ensures Valid()
      ensures !mounted && !framePending && !observing
      ensures value == old(value) && duration == old(duration) && easing == old(easing)
      ensures displayValue == old(displayValue) && hasStarted == old(hasStarted)
      ensures startValue == old(startValue) && startTime == old(startTime)
    {
      framePending := false;
      observing := false;
      mounted := false;
    }
  }

  // ---------------------------------------------------------------------------
  // Runs, event by event

  /** A run whose first frame arrives at time 0 latches a start time of 0,
      which the falsy test treats as unset: the next frame latches again, so
      it too shows the start value, and the run ends one frame later than a run
      that latched on its first frame. */
  method LatchAtZeroRun(target: real, wave: Wave) returns (shown: seq<real>)
    ensures shown == [0.0, 0.0, target / 2.0]
  {
    var c := new Counter(Props(target, 100.0, Linear, false), wave);
    c.Tick(0.0);
    var first := c.displayValue;
    c.Tick(16.0);
    var second := c.displayValue;
    assert c.startTime == Some(16.0);
    c.Tick(66.0);
    assert Progress(50.0, 100.0) == 0.5;
    assert c.progress == 0.5;
    shown := [first, second, c.displayValue];
  }

  /** A new target set half-way starts the next run from the value on display
      (50), not from 0; the new run ends exactly on the new target. */
  method RetargetRun(wave: Wave) returns (shown: seq<real>)
    ensures shown == [0.0, 50.0, 50.0, 125.0, 200.0]
  {
    var c := new Counter(Props(100.0, 100.0, Linear, false), wave);
    c.Tick(1.0);
    var a := c.displayValue;
    c.Tick(51.0);
    assert Progress(50.0, 100.0) == 0.5;
    assert c.progress == 0.5;
    var b := c.displayValue;
    c.Rerender(200.0, 100.0, Linear);
    assert c.startValue == 50.0 && c.framePending;
    c.Tick(60.0);
    var d := c.displayValue;
    assert c.startTime == Some(60.0);
    c.Tick(110.0);
    assert c.progress == 0.5 && c.framePending;
    var e := c.displayValue;
    c.Tick(160.0);
    assert c.progress == 1.0;
    shown := [a, b, d, e, c.displayValue];
  }

  /** With start-on-view, frames and non-intersecting reports before the
      element is seen do nothing; the first intersection starts the run, and
      the run settles on the target whatever the curve. */
  method StartOnViewRun(target: real, curve: Curve, wave: Wave) returns (shown: seq<real>, settled: bool)
    ensures shown == [0.0, 0.0, target]
    ensures settled
  {
    var c := new Counter(Props(target, 100.0, curve, true), wave);
    c.Tick(5.0);
    c.ObserveIntersection(false);
    var before := c.displayValue;
    c.ObserveIntersection(true);
    c.Tick(10.0);
    var first := c.displayValue;
    c.Tick(200.0);
    shown := [before, first, c.displayValue];
    settled := c.hasStarted && !c.framePending && !c.observing;
  }

  /** A counter with every optional prop omitted: it waits for the element to
      be seen (start on view), then runs with `easeOut` over 2000 ms. Half-way
      it shows 1 - 0.5^3 = 0.875 of the target, and the frame 2000 ms after
      the first shows exactly the target and requests no other. */
  method DefaultsRun(target: real, wave: Wave) returns (shown: seq<real>, settled: bool)
    ensures shown == [0.0, 0.0, 0.875 * target, target]
    ensures settled
  {
    var c := new Counter(WithDefaults(target, None, None, None), wave);
    assert c.duration == 2000.0 && c.easing == EaseOut && c.startOnView;
    c.Tick(8.0);
    var before := c.displayValue;
    var waiting := !c.hasStarted && !c.framePending && c.observing;
    c.ObserveIntersection(true);
    c.Tick(100.0);
    var first := c.displayValue;
    c.Tick(1100.0);
    assert Progress(1000.0, 2000.0) == 0.5;
    assert c.progress == 0.5;
    assert Ease(EaseOut, wave, 0.5) == 0.875;
    var mid := c.displayValue;
    c.Tick(2100.0);
    shown := [before, first, mid, c.displayValue];
    settled := waiting && c.hasStarted && !c.framePending;
  }

  /** Unmounting mid-run cancels the pending frame: a frame delivered later
      changes nothing, and neither does a second unmount. */
  method UnmountRun(target: real, wave: Wave) returns (shown: seq<real>, pending: bool)
    ensures shown == [target / 2.0, target / 2.0]
    ensures !pending
  {
    var c := new Counter(Props(target, 100.0, Linear, false), wave);
    c.Tick(10.0);
    assert c.startTime == Some(10.0);
    c.Tick(60.0);
    assert Progress(50.0, 100.0) == 0.5;
    assert c.progress == 0.5;
    var mid := c.displayValue;
    c.Unmount();
    c.Tick(110.0);
    c.Unmount();
    shown := [mid, c.displayValue];
    pending := c.framePending;
  }
}
