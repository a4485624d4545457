/** The light-group state: power, colour temperature, mode, scene selection and
    the bookkeeping that batches temperature changes before they are announced.

    Each operation is given twice: as a pure step function over the value `Light`
    (which carries the properties and is what the lemmas talk about), and as a
    method of the class `LightState`, which updates its fields in place and is
    proved to move its state exactly as the step function says.  The callbacks
    `on_state_change` / `on_scene_change` become the returned `Event`s, and the
    millisecond clock becomes the explicit argument `now`. */
module Lights {
  import opened Config

  datatype Mode = Temperature | Scenes

  /** A notification handed to whoever listens for changes. */
  datatype Event =
    | StateChanged(on: bool, colorTemp: int)
    | SceneChanged(scene: string)

  /** The fixed parameters given to the constructor. */
  datatype Settings = Settings(minTemp: int, maxTemp: int, step: int, batchDelayMs: int)
  {
    /** The bounds are ordered, so that clamping into them is possible. */
    predicate Valid() { minTemp <= maxTemp }
  }

  /** The mutable part of a light-state object at one instant. */
  datatype Light = Light(
    on: bool,
    colorTemp: int,
    mode: Mode,
    sceneIndex: int,
    pending: bool,
    lastChangeTime: int,
    lastNotified: (bool, int))
  {
    /** The invariant every operation keeps: the scene index selects a scene, and
        the power flag last announced is the current one. */
    predicate Valid() {
      0 <= sceneIndex < |AvailableScenes| && lastNotified.0 == on
    }

    /** The colour temperature lies within the configured bounds. */
    predicate InRange(s: Settings) {
      s.minTemp <= colorTemp <= s.maxTemp
    }

    /** The power flag and temperature, as a notification carries them. */
    function Current(): (bool, int) { (on, colorTemp) }
  }

  /** The outcome of one operation: the new state, what it announced, what it returned. */
  datatype Step<T> = Step(next: Light, events: seq<Event>, result: T)

  /** What `adjust` returns: the new temperature, or the newly selected scene. */
  datatype Adjusted = NewTemp(colorTemp: int) | NewScene(scene: string)

  function Max(a: int, b: int): int { if a < b then b else a }
  function Min(a: int, b: int): int { if a < b then a else b }

  /** Saturating clamp into the configured bounds; it never wraps. */
  function Clamp(s: Settings, t: int): (r: int)
    requires s.Valid()
    ensures s.minTemp <= r <= s.maxTemp
    ensures s.minTemp <= t <= s.maxTemp ==> r == t
    ensures t < s.minTemp ==> r == s.minTemp
    ensures t > s.maxTemp ==> r == s.maxTemp
  {
    Max(s.minTemp, Min(s.maxTemp, t))
  }

  /** The state right after construction.  The default temperature is stored as
      given, so it is within bounds exactly when the caller chose it so. */
  function Initial(s: Settings, defaultTemp: int): (l: Light)
    ensures l.Valid()
    ensures l.on && l.mode == Temperature && !l.pending
    ensures l.sceneIndex == 0 && l.lastChangeTime == 0
    ensures l.colorTemp == defaultTemp && l.lastNotified == l.Current()
    ensures l.InRange(s) <==> s.minTemp <= defaultTemp <= s.maxTemp
  {
    Light(true, defaultTemp, Temperature, 0, false, 0, (true, defaultTemp))
  }

  /** Records a change at `now` and marks it pending; when forced, announces the
      current state at once, unless it is the one last announced. */
  function NotifyChangeStep(l: Light, now: int, force: bool): (r: (Light, seq<Event>))
    ensures r.0 == l.(lastChangeTime := now, pending := r.0.pending, lastNotified := r.0.lastNotified)
    ensures r.1 != [] <==> force && l.Current() != l.lastNotified
    ensures r.1 != [] ==> r.1 == [StateChanged(l.on, l.colorTemp)] && !r.0.pending && r.0.lastNotified == l.Current()
    ensures r.1 == [] ==> r.0.pending && r.0.lastNotified == l.lastNotified
  {
    var marked := l.(lastChangeTime := now, pending := true);
    if force && marked.Current() != marked.lastNotified then
      (marked.(lastNotified := marked.Current(), pending := false), [StateChanged(l.on, l.colorTemp)])
    else
      (marked, [])
  }

  /** `toggle`: flips the power and, because the invariant says the old flag was
      the one last announced, always announces the new state immediately. */
  function ToggleStep(l: Light, now: int): (r: Step<bool>)
    requires l.Valid()
    ensures r.next.Valid()
    ensures r.next.on == !l.on && r.result == r.next.on
    ensures r.events == [StateChanged(!l.on, l.colorTemp)]
    ensures !r.next.pending && r.next.lastNotified == r.next.Current()
    ensures r.next.lastChangeTime == now
    ensures r.next.colorTemp == l.colorTemp && r.next.mode == l.mode && r.next.sceneIndex == l.sceneIndex
  {
    var n := NotifyChangeStep(l.(on := !l.on), now, true);
    Step(n.0, n.1, n.0.on)
  }

  /** `toggle_mode`: switches between the two modes and announces what the new
      mode shows; the batching bookkeeping is left alone. */
  function ToggleModeStep(l: Light): (r: Step<Mode>)
    requires l.Valid()
    ensures r.next.Valid()
    ensures r.next.mode != l.mode && r.result == r.next.mode
    ensures r.next == l.(mode := r.next.mode)
    ensures r.next.mode == Scenes ==> r.events == [SceneChanged(AvailableScenes[l.sceneIndex])]
    ensures r.next.mode == Temperature ==> r.events == [StateChanged(l.on, l.colorTemp)]
  {
    if l.mode == Temperature then
      Step(l.(mode := Scenes), [SceneChanged(AvailableScenes[l.sceneIndex])], Scenes)
    else
      Step(l.(mode := Temperature), [StateChanged(l.on, l.colorTemp)], Temperature)
  }

  /** `adjust_temp`: moves the temperature by `direction` steps, saturating at the
      bounds, and only marks the change pending; nothing is announced. */
  function AdjustTempStep(s: Settings, l: Light, direction: int, now: int): (r: Step<int>)
    requires s.Valid() && l.Valid()
    ensures r.next.Valid() && r.next.InRange(s)
    ensures r.result == r.next.colorTemp
    ensures var t := l.colorTemp + direction * s.step;
      && (s.minTemp <= t <= s.maxTemp ==> r.next.colorTemp == t)
      && (t < s.minTemp ==> r.next.colorTemp == s.minTemp)
      && (t > s.maxTemp ==> r.next.colorTemp == s.maxTemp)
    ensures r.events == []
    ensures r.next.pending && r.next.lastChangeTime == now
    ensures r.next.lastNotified == l.lastNotified
    ensures r.next.on == l.on && r.next.mode == l.mode && r.next.sceneIndex == l.sceneIndex
  {
    var t := Clamp(s, l.colorTemp + direction * s.step);
    var n := NotifyChangeStep(l.(colorTemp := t), now, false);
    Step(n.0, n.1, t)
  }

  /** `adjust_scene`: moves the scene index by `direction`, wrapping around the
      scene list in both directions, and announces the selected scene at once. */
  function AdjustSceneStep(l: Light, direction: int): (r: Step<string>)
    requires l.Valid()
    ensures r.next.Valid()
    ensures 0 <= r.next.sceneIndex < |AvailableScenes|
    ensures (r.next.sceneIndex - (l.sceneIndex + direction)) % |AvailableScenes| == 0
    ensures direction == 1 ==>
      r.next.sceneIndex == if l.sceneIndex == |AvailableScenes| - 1 then 0 else l.sceneIndex + 1
    ensures direction == -1 ==>
      r.next.sceneIndex == if l.sceneIndex == 0 then |AvailableScenes| - 1 else l.sceneIndex - 1
    ensures r.result == AvailableScenes[r.next.sceneIndex] && r.events == [SceneChanged(r.result)]
    ensures r.next == l.(sceneIndex := r.next.sceneIndex)
  {
    var i := (l.sceneIndex + direction) % |AvailableScenes|;
    Step(l.(sceneIndex := i), [SceneChanged(AvailableScenes[i])], AvailableScenes[i])
  }

  /** `adjust`: a temperature adjustment in Temperature mode, a scene change in
      Scenes mode; the mode itself never changes. */
  function AdjustStep(s: Settings, l: Light, direction: int, now: int): (r: Step<Adjusted>)
    requires s.Valid() && l.Valid()
    ensures r.next.Valid() && r.next.mode == l.mode
    ensures l.mode == Temperature ==>
      && r.events == [] && r.next.sceneIndex == l.sceneIndex
      && r.next.InRange(s) && r.result == NewTemp(r.next.colorTemp)
    ensures l.mode == Scenes ==>
      && r.next.Current() == l.Current() && r.next.pending == l.pending
      && r.result == NewScene(AvailableScenes[r.next.sceneIndex])
      && r.events == [SceneChanged(AvailableScenes[r.next.sceneIndex])]
    ensures l.mode == Temperature ==>
      var a := AdjustTempStep(s, l, direction, now);
      r == Step(a.next, a.events, NewTemp(a.result))
    ensures l.mode == Scenes ==>
      var a := AdjustSceneStep(l, direction);
      r == Step(a.next, a.events, NewScene(a.result))
  {
    if l.mode == Temperature then
      var a := AdjustTempStep(s, l, direction, now);
      Step(a.next, a.events, NewTemp(a.result))
    else
      var a := AdjustSceneStep(l, direction);
      Step(a.next, a.events, NewScene(a.result))
  }

  /** `update_from_external`: applies a state received from outside.  It compares
      the incoming temperature as received (before clamping) with the current one;
      when anything differs it stores the clamped temperature, takes the new state
      as already announced and drops any pending batch.  It never announces. */
  function UpdateFromExternalStep(s: Settings, l: Light, on: bool, colorTemp: int): (r: Step<bool>)
    requires s.Valid() && l.Valid()
    ensures r.next.Valid() && r.events == []
    ensures r.result <==> (on != l.on || colorTemp != l.colorTemp)
    ensures !r.result ==> r.next == l
    ensures r.result ==>
      && r.next.on == on
      && (colorTemp != l.colorTemp ==> r.next.colorTemp == Clamp(s, colorTemp))
      && (colorTemp == l.colorTemp ==> r.next.colorTemp == l.colorTemp)
      && r.next.lastNotified == r.next.Current() && !r.next.pending
    ensures l.InRange(s) ==> r.next.InRange(s)
    ensures r.next.mode == l.mode && r.next.sceneIndex == l.sceneIndex
    ensures r.next.lastChangeTime == l.lastChangeTime
  {
    var t := if l.colorTemp != colorTemp then Clamp(s, colorTemp) else l.colorTemp;
    var changed := l.on != on || l.colorTemp != colorTemp;
    if changed then
      Step(l.(on := on, colorTemp := t, lastNotified := (on, t), pending := false), [], true)
    else
      Step(l, [], false)
  }

  /** `check_pending_updates`: once a pending change is at least the batch delay
      old, announces it (only if it differs from what was last announced) and
      clears the pending flag; before that, and when nothing is pending, it does
      nothing.  Elapsed time is the plain difference of the two clock readings. */
  function CheckPendingStep(s: Settings, l: Light, now: int): (r: Step<bool>)
    requires l.Valid()
    ensures r.next.Valid()
    ensures r.result <==> l.pending && now - l.lastChangeTime >= s.batchDelayMs
    ensures !r.result ==> r.next == l && r.events == []
    ensures r.result ==> !r.next.pending && r.next.lastNotified == r.next.Current()
    ensures r.events != [] <==> r.result && l.Current() != l.lastNotified
    ensures r.events != [] ==> r.events == [StateChanged(l.on, l.colorTemp)]
    ensures r.next == l.(pending := r.next.pending, lastNotified := r.next.lastNotified)
  {
    if !l.pending then
      Step(l, [], false)
    else if now - l.lastChangeTime >= s.batchDelayMs then
      if l.Current() != l.lastNotified then
        Step(l.(lastNotified := l.Current(), pending := false), [StateChanged(l.on, l.colorTemp)], true)
      else
        Step(l.(pending := false), [], true)
    else
      Step(l, [], false)
  }

  /** Applying `toggle_mode` twice restores the state; the two calls announce
      first what the other mode shows, then what the original mode shows. */
  lemma ToggleModeTwice(l: Light)
    requires l.Valid()
    ensures var first := ToggleModeStep(l);
      var second := ToggleModeStep(first.next);
      && second.next == l && second.result == l.mode
      && (l.mode == Temperature ==>
            first.events == [SceneChanged(AvailableScenes[l.sceneIndex])]
            && second.events == [StateChanged(l.on, l.colorTemp)])
      && (l.mode == Scenes ==>
            first.events == [StateChanged(l.on, l.colorTemp)]
            && second.events == [SceneChanged(AvailableScenes[l.sceneIndex])])
  {
  }

  /** A successful flush leaves nothing pending: the next check is a no-op,
      whenever it happens. */
  lemma FlushIdempotent(s: Settings, l: Light, now: int, later: int)
    requires l.Valid()
    requires CheckPendingStep(s, l, now).result
    ensures var second := CheckPendingStep(s, CheckPendingStep(s, l, now).next, later);
      second == Step(CheckPendingStep(s, l, now).next, [], false)
  {
  }

  /** An operation of the object, as the orchestrator would call it. */
  datatype Op =
    | Toggle
    | ToggleMode
    | Adjust(direction: int)
    | AdjustTemp(direction: int)
    | AdjustScene(direction: int)
    | UpdateFromExternal(on: bool, colorTemp: int)
    | CheckPendingUpdates

  /** An operation together with the clock reading at the moment it is called. */
  datatype Call = Call(op: Op, now: int)

  /** One call: its new state and its announcements (at most one). */
  function Apply(s: Settings, l: Light, c: Call): (r: (Light, seq<Event>))
    requires s.Valid() && l.Valid()
    ensures r.0.Valid()
    ensures l.InRange(s) ==> r.0.InRange(s)
    ensures |r.1| <= 1
  {
    match c.op
    case Toggle => var a := ToggleStep(l, c.now); (a.next, a.events)
    case ToggleMode => var a := ToggleModeStep(l); (a.next, a.events)
    case Adjust(d) => var a := AdjustStep(s, l, d, c.now); (a.next, a.events)
    case AdjustTemp(d) => var a := AdjustTempStep(s, l, d, c.now); (a.next, a.events)
    case AdjustScene(d) => var a := AdjustSceneStep(l, d); (a.next, a.events)
    case UpdateFromExternal(on, t) => var a := UpdateFromExternalStep(s, l, on, t); (a.next, a.events)
    case CheckPendingUpdates => var a := CheckPendingStep(s, l, c.now); (a.next, a.events)
  }

  /** Any sequence of calls keeps the invariant (in particular, the announced
      power flag is always the current one), keeps the temperature within bounds
      once it is, and announces at most once per call. */
  function Run(s: Settings, l: Light, calls: seq<Call>): (r: (Light, seq<Event>))
    requires s.Valid() && l.Valid()
    ensures r.0.Valid()
    ensures l.InRange(s) ==> r.0.InRange(s)
    ensures |r.1| <= |calls|
    decreases |calls|
  {
    if calls == [] then (l, [])
    else
      var first := Apply(s, l, calls[0]);
      var rest := Run(s, first.0, calls[1..]);
      (rest.0, first.1 + rest.1)
  }

  /** The call rotates the knob in temperature mode: an `adjust_temp`, or an
      `adjust` made while the mode is Temperature. */
  predicate IsTempAdjust(l: Light, c: Call) {
    c.op.AdjustTemp? || (c.op.Adjust? && l.mode == Temperature)
  }

  /** A run of temperature adjustments announces nothing and leaves the last
      announcement alone; it leaves a pending change stamped with the time of its
      last call. */
  lemma {:induction false} AdjustRunIsSilent(s: Settings, l: Light, calls: seq<Call>)
    requires s.Valid() && l.Valid()
    requires forall i :: 0 <= i < |calls| ==> IsTempAdjust(l, calls[i])
    ensures var r := Run(s, l, calls);
      && r.1 == []
      && r.0.on == l.on && r.0.lastNotified == l.lastNotified
      && r.0.mode == l.mode && r.0.sceneIndex == l.sceneIndex
      && (calls == [] ==> r.0 == l)
      && (calls != [] ==> r.0.pending && r.0.lastChangeTime == calls[|calls| - 1].now && r.0.InRange(s))
    decreases |calls|
  {
    if calls != [] {
      var first := Apply(s, l, calls[0]);
      assert first.0.mode == l.mode;
      forall i | 0 <= i < |calls[1..]|
        ensures IsTempAdjust(first.0, calls[1..][i])
      {
        assert calls[1..][i] == calls[i + 1];
      }
      AdjustRunIsSilent(s, first.0, calls[1..]);
    }
  }

  /** Batching: after a run of temperature adjustments and one flush at least the
      batch delay after the last of them, at most one notification has been sent
      in all, it carries the final (clamped) temperature, it is sent exactly when
      that state differs from the last one announced, and a further flush sends
      nothing. */
  lemma BatchedFlush(s: Settings, l: Light, calls: seq<Call>, now: int, later: int)
    requires s.Valid() && l.Valid()
    requires calls != [] && forall i :: 0 <= i < |calls| ==> IsTempAdjust(l, calls[i])
    requires now - calls[|calls| - 1].now >= s.batchDelayMs
    ensures var r := Run(s, l, calls);
      var f := CheckPendingStep(s, r.0, now);
      && f.result
      && |r.1 + f.events| <= 1
      && r.0.InRange(s)
      && (f.events != [] <==> (l.on, r.0.colorTemp) != l.lastNotified)
      && (f.events != [] ==> r.1 + f.events == [StateChanged(l.on, r.0.colorTemp)])
      && CheckPendingStep(s, f.next, later).events == []
  {
    AdjustRunIsSilent(s, l, calls);
  }

  /** Clamping twice in one direction is clamping once by the sum. */
  lemma ClampShift(s: Settings, t: int, delta: int, j: nat)
    requires s.Valid() && s.minTemp <= t <= s.maxTemp
    ensures Clamp(s, Clamp(s, t + delta) + j * delta) == Clamp(s, t + (j + 1) * delta)
  {
  }

  /** Turning the knob steadily one way `k` times from a temperature within bounds
      lands where a single move of `k` steps, clamped, would: the clamp saturates
      and a move away from a bound is never lost. */
  lemma {:induction false} SteadyRotation(s: Settings, l: Light, calls: seq<Call>, direction: int)
    requires s.Valid() && l.Valid() && l.InRange(s)
    requires forall i :: 0 <= i < |calls| ==> calls[i].op == AdjustTemp(direction)
    ensures Run(s, l, calls).0.colorTemp == Clamp(s, l.colorTemp + |calls| * (direction * s.step))
    decreases |calls|
  {
    if calls != [] {
      var first := Apply(s, l, calls[0]);
      assert first.0.colorTemp == Clamp(s, l.colorTemp + direction * s.step);
      assert forall i :: 0 <= i < |calls[1..]| ==> calls[1..][i] == calls[i + 1];
      SteadyRotation(s, first.0, calls[1..], direction);
      ClampShift(s, l.colorTemp, direction * s.step, |calls| - 1);
    }
  }

  /** The settings of the configuration file. */
  function ConfiguredSettings(): (s: Settings)
    ensures s.Valid()
  {
    Settings(MinColorTemp, MaxColorTemp, ColorTempStep, BatchDelayMs)
  }

  /** With bounds 200..454, step 5 and default 370, forty turns down end at the
      lower bound 200 and not at 170. */
  lemma FortyTurnsDownClamp(calls: seq<Call>)
    requires |calls| == 40
    requires forall i :: 0 <= i < |calls| ==> calls[i].op == AdjustTemp(-1)
    ensures Run(ConfiguredSettings(), Initial(ConfiguredSettings(), DefaultColorTemp), calls).0.colorTemp == 200
  {
    SteadyRotation(ConfiguredSettings(), Initial(ConfiguredSettings(), DefaultColorTemp), calls, -1);
  }

  /** Ten quick turns up from the default, flushed once after the batch delay,
      produce exactly one notification, carrying 420. */
  lemma TenQuickTurnsOneNotification(s: Settings, l: Light, calls: seq<Call>, now: int)
    requires s == ConfiguredSettings() && l == Initial(s, DefaultColorTemp)
    requires |calls| == 10
    requires forall i :: 0 <= i < |calls| ==> calls[i].op == AdjustTemp(1)
    requires now - calls[9].now >= s.batchDelayMs
    ensures var r := Run(s, l, calls);
      r.1 + CheckPendingStep(s, r.0, now).events == [StateChanged(true, 420)]
  {
    SteadyRotation(s, l, calls, 1);
    assert Run(s, l, calls).0.colorTemp == 420;
    BatchedFlush(s, l, calls, now, now);
  }

  /** Because the received temperature is compared before clamping, an external
      update that clamps to the current temperature still reports a change. */
  lemma ClampedEchoReportsChange(s: Settings, l: Light, colorTemp: int)
    requires s.Valid() && l.Valid()
    requires l.colorTemp == s.maxTemp && colorTemp > s.maxTemp
    ensures var r := UpdateFromExternalStep(s, l, l.on, colorTemp);
      r.result && r.next.Current() == l.Current()
  {
  }

  /** The light-state object.  Its fields are those the source updates in place;
      the settings never change after construction. */
  class LightState {
    const settings: Settings
    var on: bool
    var colorTemp: int
    var currentMode: Mode
    var currentSceneIndex: int
    var pendingUpdate: bool
    var lastChangeTime: int
    var lastNotifiedState: (bool, int)

    /** The object's state as a value. */
    function Model(): Light
      reads this
    {
      Light(on, colorTemp, currentMode, currentSceneIndex, pendingUpdate, lastChangeTime, lastNotifiedState)
    }

    ghost predicate Valid()
      reads this
    {
      settings.Valid() && Model().Valid()
    }

    constructor (minTemp: int := 200, maxTemp: int := 454, defaultTemp: int := 370,
                 step: int := 10, batchDelayMs: int := 300)
      requires minTemp <= maxTemp
      ensures Valid()
      ensures settings == Settings(minTemp, maxTemp, step, batchDelayMs)
      ensures Model() == Initial(settings, defaultTemp)
    {
      settings := Settings(minTemp, maxTemp, step, batchDelayMs);
      on := true;
      colorTemp := defaultTemp;
      currentMode := Temperature;
      currentSceneIndex := 0;
      lastChangeTime := 0;
      pendingUpdate := false;
      lastNotifiedState := (true, defaultTemp);
    }

    method Toggle(now: int) returns (isOn: bool, events: seq<Event>)
      requires Valid()
      modifies this
      ensures Valid()
      ensures var r := ToggleStep(old(Model()), now);
        Model() == r.next && events == r.events && isOn == r.result
    {
      on := !on;
      events := NotifyChange(now, true);
      isOn := on;
    }

    method ToggleMode() returns (mode: Mode, events: seq<Event>)
      requires Valid()
      modifies this
      ensures Valid()
      ensures var r := ToggleModeStep(old(Model()));
        Model() == r.next && events == r.events && mode == r.result
    {
      if currentMode == Temperature {
        currentMode := Scenes;
        events := [SceneChanged(AvailableScenes[currentSceneIndex])];
      } else {
        currentMode := Temperature;
        events := [StateChanged(on, colorTemp)];
      }
      mode := currentMode;
    }

    method Adjust(direction: int, now: int) returns (result: Adjusted, events: seq<Event>)
      requires Valid()
      modifies this
      ensures Valid()
      ensures var r := AdjustStep(settings, old(Model()), direction, now);
        Model() == r.next && events == r.events && result == r.result
    {
      if currentMode == Temperature {
        var t;
        t, events := AdjustTemp(direction, now);
        result := NewTemp(t);
      } else {
        var name;
        name, events := AdjustScene(direction);
        result := NewScene(name);
      }
    }

    method AdjustTemp(direction: int, now: int) returns (t: int, events: seq<Event>)
      requires Valid()
      modifies this
      ensures Valid()
      ensures var r := AdjustTempStep(settings, old(Model()), direction, now);
        Model() == r.next && events == r.events && t == r.result
    {
      colorTemp := colorTemp + direction * settings.step;
      colorTemp := Max(settings.minTemp, Min(settings.maxTemp, colorTemp));
      events := NotifyChange(now, false);
      t := colorTemp;
    }

    method AdjustScene(direction: int) returns (scene: string, events: seq<Event>)
      requires Valid()
      modifies this
      ensures Valid()
      ensures var r := AdjustSceneStep(old(Model()), direction);
        Model() == r.next && events == r.events && scene == r.result
    {
      var numScenes := |AvailableScenes|;
      currentSceneIndex := (currentSceneIndex + direction) % numScenes;
      events := [SceneChanged(AvailableScenes[currentSceneIndex])];
      scene := AvailableScenes[currentSceneIndex];
    }

    method UpdateFromExternal(onState: bool, temp: int) returns (changed: bool)
      requires Valid()
      modifies this
      ensures Valid()
      ensures var r := UpdateFromExternalStep(settings, old(Model()), onState, temp);
        Model() == r.next && changed == r.result
    {
      changed := false;
      if on != onState {
        on := onState;
        changed := true;
      }
      if colorTemp != temp {
        colorTemp := Max(settings.minTemp, Min(settings.maxTemp, temp));
        changed := true;
      }
      if changed {
        lastNotifiedState := (on, colorTemp);
        pendingUpdate := false;
      }
    }

    method CheckPendingUpdates(now: int) returns (flushed: bool, events: seq<Event>)
      requires Valid()
      modifies this
      ensures Valid()
      ensures var r := CheckPendingStep(settings, old(Model()), now);
        Model() == r.next && events == r.events && flushed == r.result
    {
      events := [];
      if !pendingUpdate {
        return false, events;
      }
      var elapsed := now - lastChangeTime;
      if elapsed >= settings.batchDelayMs {
        var currentState := (on, colorTemp);
        if currentState != lastNotifiedState {
          events := [StateChanged(on, colorTemp)];
          lastNotifiedState := currentState;
        }
        pendingUpdate := false;
        return true, events;
      }
      return false, events;
    }

    /** `_notify_change`: the shared tail of `toggle` and `adjust_temp`. */
    method NotifyChange(now: int, force: bool) returns (events: seq<Event>)
      modifies this
      ensures var r := NotifyChangeStep(old(Model()), now, force);
        Model() == r.0 && events == r.1
    {
      lastChangeTime := now;
      pendingUpdate := true;
      events := [];
      if force {
        var currentState := (on, colorTemp);
        if currentState != lastNotifiedState {
          events := [StateChanged(on, colorTemp)];
          lastNotifiedState := currentState;
          pendingUpdate := false;
        }
      }
    }
  }
}
