/** The rotary encoder: a two-level edge detector over three pins (the clock and
    data outputs of the knob and its push switch).  The pins are pulled up, so
    `true` is the idle, high level and a pressed switch reads low.  The callbacks
    `on_rotate` / `on_press` become the returned `Events`. */
module Encoder {
  import opened Wrappers

  /** The levels read from the clock, data and switch pins in one poll. */
  datatype Samples = Samples(clk: bool, dt: bool, sw: bool)

  /** The levels remembered from the previous poll. */
  datatype Levels = Levels(lastClk: bool, lastSw: bool)

  /** What one poll reports: a rotation by +1 or -1, and whether the switch was pressed. */
  datatype Events = Events(rotation: Option<int>, pressed: bool)

  const NoEvents := Events(None, false)

  /** `check`: a rotation fires on a falling clock edge, clockwise (+1) exactly when
      the data level differs from the clock level; a press fires on a falling
      switch edge.  Afterwards the remembered levels are the ones just read. */
  function CheckStep(e: Levels, s: Samples): (r: (Levels, Events))
    ensures r.0 == Levels(s.clk, s.sw)
    ensures r.1.rotation.Some? <==> e.lastClk && !s.clk
    ensures r.1.rotation.Some? ==> r.1.rotation.value in {-1, 1}
    ensures r.1.rotation.Some? ==> (r.1.rotation.value == 1 <==> s.dt != s.clk)
    ensures r.1.pressed <==> e.lastSw && !s.sw
  {
    var rotation := if e.lastClk && !s.clk then Some(if s.dt != s.clk then 1 else -1) else None;
    (Levels(s.clk, s.sw), Events(rotation, e.lastSw && !s.sw))
  }

  /** Polling again with the same levels reports nothing: there is no auto-repeat
      while the knob rests on a detent or the switch is held. */
  lemma NoRepeatOnSteadyLevels(e: Levels, s: Samples)
    ensures CheckStep(CheckStep(e, s).0, s).1 == NoEvents
  {
  }

  /** A sequence of polls: the remembered levels at the end, and each poll's events. */
  function Checks(e: Levels, ss: seq<Samples>): (r: (Levels, seq<Events>))
    ensures |r.1| == |ss|
    ensures ss == [] ==> r.0 == e
    ensures ss != [] ==> r.0 == Levels(ss[|ss| - 1].clk, ss[|ss| - 1].sw)
    decreases |ss|
  {
    if ss == [] then (e, [])
    else
      var first := CheckStep(e, ss[0]);
      var rest := Checks(first.0, ss[1..]);
      (rest.0, [first.1] + rest.1)
  }

  /** How many of the events are presses. */
  function Presses(evs: seq<Events>): nat
    decreases |evs|
  {
    if evs == [] then 0 else (if evs[0].pressed then 1 else 0) + Presses(evs[1..])
  }

  /** How many of the events are rotations. */
  function Rotations(evs: seq<Events>): nat
    decreases |evs|
  {
    if evs == [] then 0 else (if evs[0].rotation.Some? then 1 else 0) + Rotations(evs[1..])
  }

  /** However long the switch is held down, it reports one press, and only if it
      was up before the hold began. */
  lemma {:induction false} HeldSwitchPressesOnce(e: Levels, ss: seq<Samples>)
    requires forall i :: 0 <= i < |ss| ==> !ss[i].sw
    ensures Presses(Checks(e, ss).1) == if e.lastSw && ss != [] then 1 else 0
    decreases |ss|
  {
    if ss != [] {
      var first := CheckStep(e, ss[0]);
      assert forall i :: 0 <= i < |ss[1..]| ==> ss[1..][i] == ss[i + 1];
      HeldSwitchPressesOnce(first.0, ss[1..]);
      assert !first.0.lastSw;
      assert ([first.1] + Checks(first.0, ss[1..]).1)[1..] == Checks(first.0, ss[1..]).1;
    }
  }

  /** However long the clock line stays low, it reports one rotation, and only if
      it was high before. */
  lemma {:induction false} LowClockRotatesOnce(e: Levels, ss: seq<Samples>)
    requires forall i :: 0 <= i < |ss| ==> !ss[i].clk
    ensures Rotations(Checks(e, ss).1) == if e.lastClk && ss != [] then 1 else 0
    decreases |ss|
  {
    if ss != [] {
      var first := CheckStep(e, ss[0]);
      assert forall i :: 0 <= i < |ss[1..]| ==> ss[1..][i] == ss[i + 1];
      LowClockRotatesOnce(first.0, ss[1..]);
      assert !first.0.lastClk;
      assert ([first.1] + Checks(first.0, ss[1..]).1)[1..] == Checks(first.0, ss[1..]).1;
    }
  }

  /** The encoder object.  The pins themselves are outside the model; each poll
      hands their levels to `Check`. */
  class RotaryEncoder {
    var lastClk: bool
    var lastSw: bool

    function Model(): Levels
      reads this
    {
      Levels(lastClk, lastSw)
    }

    /** The remembered levels start as the first readings of the pins, so the
        first `Check` fires only for a level that has fallen since. */
    constructor (clk: bool, sw: bool)
      ensures Model() == Levels(clk, sw)
      ensures forall s: Samples :: CheckStep(Model(), s).1.pressed ==> sw && !s.sw
      ensures forall s: Samples :: CheckStep(Model(), s).1.rotation.Some? ==> clk && !s.clk
    {
      lastClk := clk;
      lastSw := sw;
    }

    method Check(s: Samples) returns (events: Events)
      modifies this
      ensures var r := CheckStep(old(Model()), s);
        Model() == r.0 && events == r.1
      ensures lastClk == s.clk && lastSw == s.sw
    {
      var rotation := None;
      var currentClk := s.clk;
      if lastClk && !currentClk {
        var direction := if s.dt != currentClk then 1 else -1;
        rotation := Some(direction);
      }
      lastClk := currentClk;

      var currentSw := s.sw;
      var pressed := lastSw && !currentSw;
      lastSw := currentSw;
      events := Events(rotation, pressed);
    }
  }
}
