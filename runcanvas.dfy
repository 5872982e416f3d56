/** The progress controller of Libs/runCanvas.js: a range slider with a
    read-only text box beside it, a play toggle, and a draw callback that is
    called with every value the slider is set to. The DOM elements become
    plain fields; the draw callback becomes the list of values it was called
    with. */
module Runner {
  import opened Wrappers
  import opened JsMath

  /** The slider's `min`, `max` and `step` attributes and the `noloop` flag. */
  datatype Settings = Settings(min: real, max: real, step: real, noloop: bool)

  /** What changes while the controller runs: the slider's value, the text
      box's value (empty until the first `setValue`), the play checkbox, and
      the values handed to the draw callback so far. */
  datatype Slider = Slider(value: real, shown: Option<real>, running: bool, draws: seq<real>)

  /** `setValue(v)`. */
  function Show(s: Slider, v: real): Slider
  {
    s.(value := v, shown := Some(v), draws := s.draws + [v])
  }

  /** The value `advance` moves to: one step on, held at the maximum without
      looping, wrapped around the maximum with JavaScript's `%` otherwise. */
  function Advanced(value: real, c: Settings): real
    requires !c.noloop ==> c.max != 0.0
  {
    if c.noloop then Min(c.max, value + c.step) else Rem(value + c.step, c.max)
  }

  /** One call of `advance`. */
  function Tick(s: Slider, c: Settings): Slider
    requires !c.noloop ==> c.max != 0.0
  {
    var running := s.running && !(c.noloop && s.value + c.step >= c.max);
    Show(s.(running := running), Advanced(s.value, c))
  }

  /** `n` calls of `advance` in a row, as the animation frames make them. */
  function Ticks(s: Slider, c: Settings, n: nat): Slider
    requires !c.noloop ==> c.max != 0.0
  {
    if n == 0 then s else Tick(Ticks(s, c, n - 1), c)
  }

  /** The play checkbox's `onchange`: the click has flipped the checkbox; a
      slider without looping that stands at its maximum starts again from 0;
      then `advance` runs. */
  function Toggle(s: Slider, c: Settings): Slider
    requires !c.noloop ==> c.max != 0.0
  {
    var flipped := s.(running := !s.running);
    var rewound := if c.noloop && s.value >= c.max then Show(flipped, 0.0) else flipped;
    Tick(rewound, c)
  }

  class RunCanvas {
    var value: real
    var shown: Option<real>
    var running: bool
    var draws: seq<real>
    var min: real
    var max: real
    var step: real
    var noloop: bool

    function State(): Slider
      reads this
    {
      Slider(value, shown, running, draws)
    }

    function Config(): Settings
      reads this
    {
      Settings(min, max, step, noloop)
    }

    /** The slider starts with the defaults 0, 1 and 0.01 and at the browser's
        default value of a range input, the middle of its range. */
    constructor (noLoop: bool)
      ensures Config() == Settings(0.0, 1.0, 0.01, noLoop)
      ensures State() == Slider(0.5, None, false, [])
    {
      value, shown, running, draws := 0.5, None, false, [];
      min, max, step, noloop := 0.0, 1.0, 0.01, noLoop;
    }

    method SetupSlider(min: real, max: real, step: real)
      modifies this
      ensures Config() == Settings(min, max, step, old(noloop))
      ensures State() == old(State())
    {
      this.min, this.max, this.step := min, max, step;
    }

    /** The slider and the text box hold the same value, and the draw
        callback is called with exactly that value. */
    method SetValue(v: real)
      modifies this
      ensures State() == Show(old(State()), v)
      ensures Config() == old(Config())
    {
      value := v;
      shown := Some(v);
      draws := draws + [v];
    }

    /** `advance`: the result says whether another animation frame is
        requested, which happens exactly when the run is still going. */
    method Advance() returns (scheduled: bool)
      requires !noloop ==> max != 0.0
      modifies this
      ensures Config() == old(Config())
      ensures State() == Tick(old(State()), Config())
      ensures scheduled == running
    {
      var next := value + step;
      if noloop {
        if next >= max {
          running := false;
        }
        next := Min(max, next);
      } else {
        next := Rem(next, max);
      }
      SetValue(next);
      scheduled := running;
    }

    /** The play checkbox was clicked. */
    method TogglePlay() returns (scheduled: bool)
      requires !noloop ==> max != 0.0
      modifies this
      ensures Config() == old(Config())
      ensures State() == Toggle(old(State()), Config())
      ensures scheduled == running
    {
      running := !running;
      if noloop && value >= max {
        SetValue(0.0);
      }
      scheduled := Advance();
    }

    /** The slider was dragged to `v`: the value is set, the run is left as it is. */
    method Slide(v: real)
      modifies this
      ensures State() == Show(old(State()), v)
      ensures Config() == old(Config())
    {
      SetValue(v);
    }

    /** The chain of animation frames after a tick that asked for another:
        `advance` runs frame after frame until it stops asking, or until
        `limit` frames have passed. */
    method Frames(limit: nat) returns (frames: nat)
      requires !noloop ==> max != 0.0
      modifies this
      ensures frames <= limit
      ensures Config() == old(Config())
      ensures State() == Ticks(old(State()), Config(), frames)
      ensures frames < limit ==> !running
      ensures forall j :: 0 <= j < frames ==> Ticks(old(State()), Config(), j).running
    {
      ghost var start := State();
      frames := 0;
      var scheduled := running;
      while frames < limit && scheduled
        invariant frames <= limit
        invariant Config() == old(Config())
        invariant State() == Ticks(start, Config(), frames)
        invariant scheduled == running
        invariant forall j :: 0 <= j < frames ==> Ticks(start, Config(), j).running
        decreases limit - frames
      {
        scheduled := Advance();
        frames := frames + 1;
      }
    }
  }

  /** Without looping the value never passes the maximum; it reaches it
      exactly when a full step would, and otherwise moves one full step. */
  lemma NoLoopHeld(value: real, c: Settings)
    requires c.noloop
    ensures Advanced(value, c) <= c.max
    ensures Advanced(value, c) == c.max <==> value + c.step >= c.max
    ensures value + c.step < c.max ==> Advanced(value, c) == value + c.step
  {
  }

  /** With looping, a non-negative value wraps into [0, max), and moves one
      full step while that stays below the maximum. */
  lemma LoopWraps(value: real, c: Settings)
    requires !c.noloop && 0.0 < c.max && 0.0 <= value + c.step
    ensures 0.0 <= Advanced(value, c) < c.max
    ensures value + c.step < c.max ==> Advanced(value, c) == value + c.step
  {
    RemBounds(value + c.step, c.max);
  }

  /** A tick leaves the slider and the text box agreeing, draws the new
      value, and stops the run only when a slider without looping reaches
      its maximum. */
  lemma TickEffect(s: Slider, c: Settings)
    requires !c.noloop ==> c.max != 0.0
    ensures var t := Tick(s, c);
            t.shown == Some(t.value) && t.draws == s.draws + [t.value]
            && (t.running <==> s.running && (!c.noloop || s.value + c.step < c.max))
  {
  }

  /** While a run without looping goes on, each tick has moved the value one
      full step, and the value is still below the maximum. */
  lemma {:induction false} RunningBelowMax(s: Slider, c: Settings, n: nat)
    requires c.noloop && 1 <= n
    requires Ticks(s, c, n).running
    ensures Ticks(s, c, n).value == s.value + n as real * c.step < c.max
  {
    var prev := Ticks(s, c, n - 1);
    assert prev.running && prev.value + c.step < c.max;
    if n > 1 {
      RunningBelowMax(s, c, n - 1);
    }
    assert (n - 1) as real * c.step + c.step == n as real * c.step;
  }

  /** A run without looping is over once enough steps add up to the maximum. */
  lemma NoLoopRunEnds(s: Slider, c: Settings, n: nat)
    requires c.noloop && 1 <= n && s.value + n as real * c.step >= c.max
    ensures !Ticks(s, c, n).running
  {
    if Ticks(s, c, n).running {
      RunningBelowMax(s, c, n);
    }
  }

  /** The tick that ends a run without looping leaves the value exactly at
      the maximum. */
  lemma NoLoopEndsAtMax(s: Slider, c: Settings, n: nat)
    requires c.noloop && 1 <= n
    requires Ticks(s, c, n - 1).running && !Ticks(s, c, n).running
    ensures Ticks(s, c, n).value == c.max
  {
  }

  /** A looping run never stops by itself, and from a non-negative value with
      a non-negative step every tick stays in [0, max). */
  lemma {:induction false} LoopStaysInRange(s: Slider, c: Settings, n: nat)
    requires !c.noloop && 0.0 < c.max && 0.0 <= c.step && 0.0 <= s.value
    ensures Ticks(s, c, n).running == s.running
    ensures 0.0 <= Ticks(s, c, n).value
    ensures 1 <= n ==> Ticks(s, c, n).value < c.max
  {
    if n > 0 {
      LoopStaysInRange(s, c, n - 1);
      LoopWraps(Ticks(s, c, n - 1).value, c);
    }
  }

  /** Pressing play on a slider without looping that stands at its maximum
      draws 0 first and then advances from 0. */
  lemma PlayAtEnd(s: Slider, c: Settings)
    requires c.noloop && !s.running && s.value >= c.max
    ensures Toggle(s, c).draws == s.draws + [0.0, Advanced(0.0, c)]
    ensures Toggle(s, c).running <==> c.step < c.max
  {
  }

  /** Every toggle advances once, pausing included: pausing stops the run
      and still moves the value a step. */
  lemma ToggleAdvances(s: Slider, c: Settings)
    requires !c.noloop ==> c.max != 0.0
    ensures var t := Toggle(s, c);
            t.shown == Some(t.value) && |s.draws| < |t.draws| && t.draws[|t.draws| - 1] == t.value
    ensures s.running ==> !Toggle(s, c).running
    ensures !(c.noloop && s.value >= c.max) ==> Toggle(s, c).value == Advanced(s.value, c)
  {
  }
}
