/** Constants of the controller's configuration file that the core depends on. */
module Config {
  /** The ordered, non-empty list of scene names the Scenes mode cycles through. */
  const AvailableScenes: seq<string> :=
    ["scene.bright_day", "scene.warm_evening", "scene.warmest_night", "scene.tv_time"]

  /** The starting temperature, and the one an inbound message without a
      temperature stands for. */
  const DefaultColorTemp: int := 370
  const MinColorTemp: int := 200
  const MaxColorTemp: int := 454
  const ColorTempStep: int := 5
  const BatchDelayMs: int := 100
}
