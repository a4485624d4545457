# Light-group controller: a verified model of its core

The controller drives a group of lights from a rotary encoder (a knob with a
push switch) and keeps them in sync with a home-automation message bus. This
project models the three parts that hold state and make decisions:

- **The light state** (`Lights`, light_state.py). It tracks the power flag, the
  colour temperature (clamped to the configured bounds), the mode (Temperature
  or Scenes) and the scene index (which wraps around the scene list). It also
  batches temperature changes. Turning the knob in Temperature mode only marks a
  change as pending. The pending change goes out once it is at least the batch
  delay old, and only if it differs from what was last announced. Power toggles,
  mode toggles and scene changes are announced at once.
- **The rotary encoder** (`Encoder`, encoder.py). A falling clock edge reports a
  rotation. Its direction is +1 when the data line differs from the clock line
  and -1 otherwise. A falling switch edge reports a press.
- **Bus synchronisation** (`Mqtt`, mqtt.py). Publishing the state sets a one-shot
  flag. The next inbound message is then taken to be the bus echoing that
  publish, and is dropped. Later messages are decoded into `(on, color_temp)`, or
  ignored when they are malformed.

`Config` holds the constants of config.py that the core uses. `Wrappers` holds
the `Option` type.

How the model is built:

- Each source class is a Dafny class whose methods update its fields in place.
- Each method is proved to move the object's state (`Model()`) exactly as a pure
  step function over a state datatype does: `ToggleStep`, `CheckPendingStep`,
  `ReceiveStep` and so on.
- The properties are stated on those step functions and on lemmas about them.
  Some lemmas cover whole runs of calls (`Run`, `Checks`).
- Callbacks (`on_state_change`, `on_scene_change`, `on_rotate`, `on_press`,
  `on_update`) become returned events or returned values.
- The millisecond clock becomes an explicit `now` argument. Elapsed time is the
  plain difference of two readings.
- Pin levels become arguments.
- The MQTT transport becomes two things: a flag saying whether a client is
  installed, and the list of publications handed to it. JSON text becomes the
  value the parser yields from it (`Json`), or `Unparseable`.

## Notes on the source

- `update_from_external` compares the incoming temperature with the current one
  *before* clamping it (light_state.py:88-89), and the model does the same.
  `Lights.ClampedEchoReportsChange` shows the consequence: if the current
  temperature is at the upper bound and a larger value arrives with the same
  power flag, the call reports a change although `(on, color_temp)` stays the
  same. It still resets the batching bookkeeping.
- `toggle` hands its change to `_notify_change` with `force=True`. If the state
  were equal to the last one announced, that would leave the change pending.
  This cannot happen: every operation keeps the invariant `Light.Valid()`, which
  says that the power flag last announced is the current one. So `toggle` always
  announces, and always ends with nothing pending (see `Lights.ToggleStep`).
- `DOUBLE_PRESS_TIMEOUT_MS` (config.py:12) is never read. The source has no
  double-press detection, no reconnect policy and no scene publishing, so none
  is modelled.
- `publish_state` sets `ignore_next` before it touches the client
  (mqtt.py:66-67), and nothing catches an error there. The flag therefore stays
  set when there is no client (`NoClient`) and when the transport refuses the
  payload (`PublishFailed`). In both cases nothing is sent, and the next real
  inbound message is swallowed (`Mqtt.FailedPublishSwallowsNext`).
- A failing `check_msg` also escapes from `check` (mqtt.py:58). The model
  reports it as a failure and leaves the state untouched.
- A failed `connect` leaves `client` as it was, so an earlier client stays
  installed (mqtt.py:48, 51-54).

## Model

| member | source | states |
|---|---|---|
| `Lights.Clamp` | light-group-controller/light_state.py:67-68 | the result lies in `[min_temp, max_temp]`; it equals the input inside the bounds and saturates at the nearer bound outside them (no wrap-around) |
| `Lights.Initial` | light-group-controller/light_state.py:21-37 | a new object is on, in Temperature mode, at scene 0, with nothing pending and change time 0, and its current state is the one last announced; its temperature is the default as given, so it is within bounds iff the default is |
| `Lights.NotifyChangeStep` | light-group-controller/light_state.py:119-134 | stamps the change time and marks the change pending; announces exactly when forced and the state differs from the last announcement, and then records that announcement and clears the pending mark |
| `Lights.ToggleStep` | light-group-controller/light_state.py:39-44 | flips power and returns the new flag; always announces `(on, color_temp)` immediately; ends with nothing pending and the new state recorded as announced; keeps the invariant |
| `Lights.ToggleModeStep` | light-group-controller/light_state.py:46-56 | switches to the other mode and returns it; on entering Scenes announces the current scene name, on entering Temperature announces `(on, color_temp)`; nothing else changes, in particular neither the pending flag nor the last announcement |
| `Lights.AdjustTempStep` | light-group-controller/light_state.py:65-71 | the new temperature is the old one moved by `direction * step`, saturated at the bounds; nothing is announced; the change is pending since `now`; the last announcement, power, mode and scene are unchanged |
| `Lights.AdjustSceneStep` | light-group-controller/light_state.py:73-79 | the new index lies in `[0, n)` and is congruent to `index + direction` modulo the scene count; +1 from the last scene gives 0 and -1 from scene 0 gives the last; announces and returns exactly the scene at the new index; nothing else changes |
| `Lights.AdjustStep` | light-group-controller/light_state.py:58-63 | hands the call to `AdjustTempStep` in Temperature mode and to `AdjustSceneStep` in Scenes mode, with their state, events and result; so it never changes the mode, in Temperature mode it announces nothing and keeps the scene, and in Scenes mode it keeps power, temperature and the pending flag and announces the selected scene |
| `Lights.UpdateFromExternalStep` | light-group-controller/light_state.py:81-97 | returns true iff the power flag or the raw incoming temperature differs from the current one; if not, the state is unchanged; if so, power is the incoming flag, the temperature is stored clamped, the new state counts as announced and nothing is pending; never announces; keeps the temperature within bounds |
| `Lights.CheckPendingStep` | light-group-controller/light_state.py:99-117 | returns true iff a change is pending and at least `batch_delay_ms` has elapsed; if it returns false nothing changes; if true nothing is pending afterwards and the current state counts as announced; announces at most once, exactly when the current state differs from the last announcement |
| `Lights.ToggleModeTwice` | light-group-controller/light_state.py:46-56 | toggling the mode twice restores the original state and mode; the first call announces what the other mode shows, the second what the original mode shows |
| `Lights.FlushIdempotent` | light-group-controller/light_state.py:99-117 | after a flush that returned true, a further check at any time announces nothing and changes nothing |
| `Lights.Apply` | light-group-controller/light_state.py:39-117 | every operation keeps the invariant (scene index in range, the announced power flag is the current one) and the temperature bounds, and announces at most once |
| `Lights.Run` | light-group-controller/light_state.py:39-134 | any sequence of operations keeps the invariant and the temperature bounds and announces at most once per call |
| `Lights.AdjustRunIsSilent` | light-group-controller/light_state.py:65-71 | any run of temperature adjustments (including `adjust` in Temperature mode) announces nothing, leaves power, mode, scene and the last announcement unchanged, and leaves a pending change stamped with the time of the last call |
| `Lights.BatchedFlush` | light-group-controller/light_state.py:99-117 | a run of temperature adjustments followed by one flush after the batch delay sends at most one notification in all; it carries the final clamped temperature, is sent iff that state differs from the last announcement, and a further flush sends nothing |
| `Lights.SteadyRotation` | light-group-controller/light_state.py:65-68 | `k` adjustments in one direction from a temperature within bounds reach the clamp of one move of `k` steps |
| `Lights.ConfiguredSettings` | light-group-controller/config.py:15-21 | the configured bounds 200..454 are ordered |
| `Lights.FortyTurnsDownClamp` | light-group-controller/light_state.py:65-68 | with bounds 200..454, step 5 and default 370, forty turns down end at 200, not 170 |
| `Lights.TenQuickTurnsOneNotification` | light-group-controller/light_state.py:65-117 | ten quick turns up from 370, then one flush after the batch delay, send exactly one notification, `(on, 420)` |
| `Lights.ClampedEchoReportsChange` | light-group-controller/light_state.py:88-90 | an external update that clamps to the current temperature still reports a change |
| `Lights.LightState.constructor` | light-group-controller/light_state.py:9-37 | the fields start as `Initial` says, with the source's default arguments |
| `Lights.LightState.Toggle` | light-group-controller/light_state.py:39-44 | updates the fields and returns the flag and events exactly as `ToggleStep`, keeping the invariant |
| `Lights.LightState.ToggleMode` | light-group-controller/light_state.py:46-56 | the fields, result and events are those of `ToggleModeStep` |
| `Lights.LightState.Adjust` | light-group-controller/light_state.py:58-63 | the fields, result and events are those of `AdjustStep` |
| `Lights.LightState.AdjustTemp` | light-group-controller/light_state.py:65-71 | the fields, result and events are those of `AdjustTempStep` |
| `Lights.LightState.AdjustScene` | light-group-controller/light_state.py:73-79 | the fields, result and events are those of `AdjustSceneStep` |
| `Lights.LightState.UpdateFromExternal` | light-group-controller/light_state.py:81-97 | the fields and result are those of `UpdateFromExternalStep` |
| `Lights.LightState.CheckPendingUpdates` | light-group-controller/light_state.py:99-117 | the fields, result and events are those of `CheckPendingStep` |
| `Lights.LightState.NotifyChange` | light-group-controller/light_state.py:119-134 | the fields and events are those of `NotifyChangeStep` |
| `Encoder.CheckStep` | light-group-controller/encoder.py:16-31 | a rotation is reported iff the clock was high and is now low; its direction is +1 iff data differs from clock and -1 otherwise; a press is reported iff the switch was high and is now low; the remembered levels become the samples |
| `Encoder.NoRepeatOnSteadyLevels` | light-group-controller/encoder.py:16-31 | polling again with the same levels reports nothing |
| `Encoder.Checks` | light-group-controller/encoder.py:16-31 | a run of polls reports once per poll and ends remembering the last samples |
| `Encoder.HeldSwitchPressesOnce` | light-group-controller/encoder.py:27-31 | however long the switch is held, exactly one press is reported if it was up before, none otherwise |
| `Encoder.LowClockRotatesOnce` | light-group-controller/encoder.py:19-24 | however long the clock stays low, exactly one rotation is reported if it was high before, none otherwise |
| `Encoder.RotaryEncoder.constructor` | light-group-controller/encoder.py:4-11 | the remembered levels are the first pin readings, so a first check fires only for a level that has fallen since |
| `Encoder.RotaryEncoder.Check` | light-group-controller/encoder.py:16-31 | the events are those of `CheckStep` and the remembered levels are the samples just taken |
| `Mqtt.ParseShowRoundTrip` | light-group-controller/mqtt.py:30 | integer conversion reads back the decimal text of every integer |
| `Mqtt.ToInt` | light-group-controller/mqtt.py:30 | integers convert to themselves and booleans to 0 or 1; null, arrays and objects are refused |
| `Mqtt.Encode` | light-group-controller/mqtt.py:62-65 | the payload has exactly the keys `state` and `color_temp`; `state` is `"ON"` iff the light is on, else `"OFF"`; `color_temp` is passed through unchanged |
| `Mqtt.Decode` | light-group-controller/mqtt.py:26-33 | unparseable text and non-objects give no update; the light is on iff `state` is the string `"ON"`, so a missing `state` means off; a missing `color_temp` means 370; the update exists iff the temperature converts to an integer, and then it is that integer |
| `Mqtt.EncodeDecodeRoundTrip` | light-group-controller/mqtt.py:28-31 | decoding the payload `publish_state` builds gives back `(state, color_temp)` |
| `Mqtt.TextTemperatureDecodes` | light-group-controller/mqtt.py:30 | a temperature sent as decimal text decodes to the same number |
| `Mqtt.Initial` | light-group-controller/mqtt.py:11-18 | a new synchroniser has no client, a clear echo flag, and nothing published |
| `Mqtt.ConnectStep` | light-group-controller/mqtt.py:35-54 | a client is installed iff one already was or both the handshake and the subscription succeed; nothing else changes |
| `Mqtt.PublishStep` | light-group-controller/mqtt.py:60-68 | the echo flag is set in every case; the payload is published to the set topic exactly when there is a client and the transport accepts it; otherwise the call fails (`NoClient` or `PublishFailed`) and nothing is published |
| `Mqtt.ReceiveStep` | light-group-controller/mqtt.py:20-33 | with the echo flag set the message is dropped and the flag cleared; with it clear the result is the decoded payload, and a malformed payload gives none; the flag is clear afterwards in every case |
| `Mqtt.CheckStep` | light-group-controller/mqtt.py:56-58 | without a client, or without a waiting message, nothing happens; with a client, a waiting message goes through the callback, and a transport failure is reported and leaves the state untouched |
| `Mqtt.EchoSuppressed` | light-group-controller/mqtt.py:22-24 | after a publish, with or without a client and whether or not it was delivered, the echo of that payload is dropped and the next message is decoded normally |
| `Mqtt.FailedPublishSwallowsNext` | light-group-controller/mqtt.py:66-67 | a publish the transport refuses sends nothing, but it still sets the flag, so the next inbound message is swallowed |
| `Mqtt.TwoPublishesSwallowOne` | light-group-controller/mqtt.py:66 | two publishes before any inbound message swallow only one message: the flag is a flag, not a counter |
| `Mqtt.MqttLightSync.constructor` | light-group-controller/mqtt.py:11-18 | the fields start as `Initial` says |
| `Mqtt.MqttLightSync.Connect` | light-group-controller/mqtt.py:35-54 | the fields are those of `ConnectStep` |
| `Mqtt.MqttLightSync.Callback` | light-group-controller/mqtt.py:20-33 | the flag and the update are those of `ReceiveStep` |
| `Mqtt.MqttLightSync.Check` | light-group-controller/mqtt.py:56-58 | the fields, the update and the failure report are those of `CheckStep` |
| `Mqtt.MqttLightSync.PublishState` | light-group-controller/mqtt.py:60-68 | the fields and the outcome are those of `PublishStep` |

## Left out

- main.py (the older single-file controller with its endless poll loop), wifi.py (network bring-up and reset) and led_controller.py (a wrapper over a pin) are not part of this model. They are I/O and orchestration.
- Registering listeners is not modelled. Events are always returned. The source calls a callback only when one is registered, but its bookkeeping (`last_notified_state`, `pending_update`, `last_clk`, `last_sw`) is the same either way, so the model's state matches in both cases.
- Wrap-around of the millisecond tick counter is not modelled. `ticks_diff` is taken to be plain subtraction of the two readings.
- JSON text itself is not modelled: serialising a payload and parsing a message are represented by the parsed value. Numbers with a fraction or an exponent are not represented either (Python's `int` would truncate them), because the model has no floating point.
- Mqtt.ToInt: text is converted only when it is an optional sign followed by ASCII digits. Python's `int` also accepts surrounding white space, underscores between digits and non-ASCII digits; the model rejects those strings.
- An exception raised by the `on_update` callback itself, which `_callback` would also swallow, is outside the model: the callback is the caller's code.
- The MQTT client's identity, the broker address, credentials, keep-alive, status LED and log output are not part of this model. The state topic given to the constructor is only used for subscribing, so the model does not store it; the subscription is represented by `ConnectStep`'s `subscribed` input. Inbound topics are passed to the callback and ignored there, as in the source.
- A raised exception becomes a returned outcome: `NoClient` or `PublishFailed` from `PublishState`, and the failure flag from `Check`. What the caller does with the exception is outside the model.
- Lights.LightState.constructor requires `min_temp <= max_temp`. The source does not check this, but every configuration it ships satisfies it, and without it no temperature could lie within the bounds. The sign of `step` is not constrained: nothing proved here depends on it.
