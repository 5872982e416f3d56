/** The First / Previous / Next / Last buttons of transformToy.js and the
    eased animation that moves the slider to the button's target. Animation
    frames become calls of `Frame` with the frame's timestamp. */
module Stepping {
  import opened Wrappers
  import opened JsMath
  import opened Runner

  /** Length of one step animation, in milliseconds. */
  const AnimationDuration: real := 300.0

  /** A slider value counts as sitting on a step when it is within 0.001 of
      the nearest whole number. */
  predicate OnInteger(v: real)
  {
    Abs(v - Round(v) as real) < 0.001
  }

  /** The Previous button's target. */
  function PreviousTarget(v: real): real
  {
    if OnInteger(v) then Max(0.0, v - 1.0) else Max(0.0, v.Floor as real)
  }

  /** The Next button's target, for a list of `n` commands. */
  function NextTarget(v: real, n: nat): real
  {
    if OnInteger(v) then Min(n as real, v + 1.0) else Min(n as real, Ceil(v) as real)
  }

  /** From a value on the slider every target is on the slider too. */
  lemma TargetsOnSlider(v: real, n: nat)
    requires 0.0 <= v <= n as real
    ensures 0.0 <= PreviousTarget(v) <= n as real
    ensures 0.0 <= NextTarget(v, n) <= n as real
  {
  }

  /** Off a step the value lies strictly between two whole numbers. */
  lemma OffStepBetween(v: real)
    ensures !OnInteger(v) ==> v.Floor as real < v < Ceil(v) as real
  {
    if v == v.Floor as real {
      assert Round(v) == v.Floor;
    }
  }

  /** Previous never moves forward and Next never moves back; each moves
      strictly unless the value is already at that end of the slider. */
  lemma TargetsMove(v: real, n: nat)
    ensures PreviousTarget(v) <= Max(0.0, v)
    ensures 0.0 < v ==> PreviousTarget(v) < v
    ensures NextTarget(v, n) <= n as real
    ensures v < n as real ==> v < NextTarget(v, n)
  {
    OffStepBetween(v);
  }

  /** Off a step, Previous and Next go to the whole numbers around the value. */
  lemma TargetsSnap(v: real, n: nat)
    requires !OnInteger(v) && 0.0 <= v <= n as real
    ensures PreviousTarget(v) == v.Floor as real
    ensures NextTarget(v, n) == Ceil(v) as real
  {
    assert 0 <= v.Floor;
    assert -(n as real) <= -v;
    assert -(n as int) <= (-v).Floor;
  }

  /** `Math.min(elapsed / ANIMATION_DURATION, 1)`. */
  function Progress(elapsed: real): real
  {
    Min(elapsed / AnimationDuration, 1.0)
  }

  function Cube(x: real): real
  {
    x * x * x
  }

  /** The cubic ease-in-out curve. */
  function Ease(p: real): real
  {
    if p < 0.5 then 4.0 * Cube(p) else 1.0 - Cube(-2.0 * p + 2.0) / 2.0
  }

  /** The value a frame sets: `startValue` moved towards the target by the
      eased fraction. */
  function FrameValue(start: real, target: real, e: real): real
  {
    start + (target - start) * e
  }

  lemma CubeMonotone(x: real, y: real)
    requires 0.0 <= x <= y
    ensures 0.0 <= Cube(x) <= Cube(y)
  {
    ScaleBelow(x, y, x);
    ScaleBelow(x, y, y);
    assert x * x <= y * y;
    ScaleBelow(x * x, y * y, x);
    ScaleBelow(x, y, y * y);
    assert y * y * x == x * (y * y);
    assert y * (y * y) == y * y * y;
    ScaleBelow(0.0, x, x);
    ScaleBelow(0.0, x * x, x);
  }

  lemma ScaleBelow(x: real, y: real, b: real)
    requires x <= y && 0.0 <= b
    ensures x * b <= y * b
  {
  }

  /** The curve runs from 0 to 1, passes 1/2 halfway, stays in [0, 1] and
      never goes back. */
  lemma EaseEnds()
    ensures Ease(0.0) == 0.0 && Ease(0.5) == 0.5 && Ease(1.0) == 1.0
  {
    assert Cube(1.0) == 1.0;
  }

  lemma EaseBounds(p: real)
    requires 0.0 <= p <= 1.0
    ensures 0.0 <= Ease(p) <= 1.0
  {
    if p < 0.5 {
      CubeMonotone(p, 0.5);
    } else {
      CubeMonotone(-2.0 * p + 2.0, 1.0);
    }
  }

  lemma EaseMonotone(p: real, q: real)
    requires 0.0 <= p <= q <= 1.0
    ensures Ease(p) <= Ease(q)
  {
    if q < 0.5 {
      CubeMonotone(p, q);
    } else if 0.5 <= p {
      CubeMonotone(-2.0 * q + 2.0, -2.0 * p + 2.0);
    } else {
      CubeMonotone(p, 0.5);
      CubeMonotone(-2.0 * q + 2.0, 1.0);
    }
  }

  /** Once time runs forward the progress lies in [0, 1] and reaches 1
      exactly when the duration has passed. */
  lemma ProgressBounds(elapsed: real)
    requires 0.0 <= elapsed
    ensures 0.0 <= Progress(elapsed) <= 1.0
    ensures Progress(elapsed) == 1.0 <==> elapsed >= AnimationDuration
    ensures Progress(0.0) == 0.0
  {
  }

  /** Each frame's value lies between the start value and the target; the
      first frame is at the start and a frame at or after the duration is
      exactly at the target. */
  lemma FrameBetween(start: real, target: real, elapsed: real)
    requires 0.0 <= elapsed
    ensures var v := FrameValue(start, target, Ease(Progress(elapsed)));
            Min(start, target) <= v <= Max(start, target)
    ensures elapsed >= AnimationDuration ==> FrameValue(start, target, Ease(Progress(elapsed))) == target
    ensures FrameValue(start, target, Ease(Progress(0.0))) == start
  {
    ProgressBounds(elapsed);
    EaseBounds(Progress(elapsed));
    EaseEnds();
    var e := Ease(Progress(elapsed));
    var d := target - start;
    assert FrameValue(start, target, e) == start + d * e;
    if start < target {
      MultiplyBelow(e, 1.0, d);
      MultiplyBelow(0.0, e, d);
      assert 0.0 <= d * e <= d;
    } else if target < start {
      MultiplyBelow(e, 1.0, -d);
      MultiplyBelow(0.0, e, -d);
      assert d <= d * e <= 0.0;
    }
  }

  /** Which button started the running animation. */
  datatype Button = First | Previous | Next | Last

  /** The closure state of `run`: the frame request in flight, the target it
      is heading to, the button that started it, and the start value and
      start time of the animation. */
  class StepAnimation {
    const slider: RunCanvas
    const count: nat           // the length of the command list
    var active: bool           // a frame is requested
    var target: real
    var lastClick: Option<Button>
    var startValue: real
    var startTime: Option<real>
    var renders: seq<real>     // the values the frames render the list at

    /** `run`: the slider goes from 0 to the list's length in steps of 0.02,
        does not loop, and is set to 0. */
    constructor (slider: RunCanvas, count: nat)
      modifies slider
      ensures this.slider == slider && this.count == count
      ensures !active && target == 0.0 && lastClick == None && renders == []
      ensures slider.Config() == Settings(0.0, count as real, 0.02, true)
      ensures slider.State() == Show(old(slider.State()), 0.0)
    {
      this.slider := slider;
      this.count := count;
      active, target, lastClick := false, 0.0, None;
      startValue, startTime, renders := 0.0, None, [];
      new;
      slider.noloop := true;
      slider.SetupSlider(0.0, count as real, 0.02);
      slider.SetValue(0.0);
    }

    /** The effect of a click heading for `t`: clicking the button that
        started the running animation only moves its target; any other click
        starts a new animation from the slider's current value. */
    twostate predicate Clicked(t: real, button: Button)
      reads this, slider
    {
      target == t && renders == old(renders)
      && if old(active) && old(lastClick) == Some(button) then
           active && lastClick == old(lastClick)
           && startValue == old(startValue) && startTime == old(startTime)
         else
           active && lastClick == Some(button)
           && startValue == slider.value && startTime == None
    }

    /** `animateToValue`. */
    method Click(t: real, button: Button)
      modifies this
      ensures Clicked(t, button)
    {
      if active && lastClick == Some(button) {
        target := t;
        return;
      }
      target := t;
      lastClick := Some(button);
      startValue := slider.value;
      startTime := None;
      active := true;
    }

    method FirstClick()
      modifies this
      ensures Clicked(0.0, First)
    {
      Click(0.0, First);
    }

    method PreviousClick()
      modifies this
      ensures Clicked(PreviousTarget(slider.value), Previous)
    {
      Click(PreviousTarget(slider.value), Previous);
    }

    method NextClick()
      modifies this
      ensures Clicked(NextTarget(slider.value, count), Next)
    {
      Click(NextTarget(slider.value, count), Next);
    }

    method LastClick()
      modifies this
      ensures Clicked(count as real, Last)
    {
      Click(count as real, Last);
    }

    /** One animation frame at timestamp `time`: the first frame fixes the
        start time; the slider is set to the eased value and the list is
        rendered there; the animation ends once the duration has passed. */
    method Frame(time: real)
      requires active
      modifies this, slider
      ensures var t0 := if old(startTime).Some? then old(startTime).value else time;
              var p := Progress(time - t0);
              var v := FrameValue(old(startValue), old(target), Ease(p));
              startTime == Some(t0)
              && slider.State() == Show(old(slider.State()), v)
              && renders == old(renders) + [v]
              && active == (p < 1.0)
              && lastClick == (if p < 1.0 then old(lastClick) else None)
      ensures slider.Config() == old(slider.Config())
      ensures target == old(target) && startValue == old(startValue)
    {
      if startTime.None? {
        startTime := Some(time);
      }
      var elapsed := time - startTime.value;
      var progress := Progress(elapsed);
      var eased := Ease(progress);
      var v := FrameValue(startValue, target, eased);
      slider.SetValue(v);
      renders := renders + [v];
      if progress < 1.0 {
        active := true;
      } else {
        active := false;
        lastClick := None;
      }
    }
  }
}
