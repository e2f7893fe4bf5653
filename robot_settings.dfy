/** The robot configuration panel: the configuration record, the partial
    updates the panel hands to the page (merged there with
    `{ ...prev, ...updates }`), the collapsible sections, the presets and the
    sensor checkboxes. */
module RobotSettings {
  import opened Wrappers
  import Seqs

  /** The configuration record. `jointCount` is a JavaScript number like the
      others, so it is a real here too. */
  datatype RobotConfig = RobotConfig(
    robotType: string,
    wheelDiameter: real,
    wheelBase: real,
    maxSpeed: real,
    mass: real,
    armLength: real,
    jointCount: real,
    maxAltitude: real,
    batteryCapacity: real,
    sensors: seq<string>)

  /** The configuration the workspace page starts with. */
  const InitialConfig: RobotConfig :=
    RobotConfig("wheeled", 0.1, 0.3, 1.5, 2.5, 0.8, 6.0, 10.0, 5000.0, ["Distance", "Gyroscope", "Camera"])

  /** A `Partial<RobotConfig>`: the keys present are the ones to overwrite. */
  datatype Patch = Patch(
    robotType: Option<string>,
    wheelDiameter: Option<real>,
    wheelBase: Option<real>,
    maxSpeed: Option<real>,
    mass: Option<real>,
    armLength: Option<real>,
    jointCount: Option<real>,
    maxAltitude: Option<real>,
    batteryCapacity: Option<real>,
    sensors: Option<seq<string>>)

  /** No key at all; also what spreading `undefined` contributes. */
  const NoChange: Patch := Patch(None, None, None, None, None, None, None, None, None, None)

  /** `{ ...prev, ...updates }` */
  function Merge(c: RobotConfig, p: Patch): RobotConfig {
    RobotConfig(
      p.robotType.GetOr(c.robotType),
      p.wheelDiameter.GetOr(c.wheelDiameter),
      p.wheelBase.GetOr(c.wheelBase),
      p.maxSpeed.GetOr(c.maxSpeed),
      p.mass.GetOr(c.mass),
      p.armLength.GetOr(c.armLength),
      p.jointCount.GetOr(c.jointCount),
      p.maxAltitude.GetOr(c.maxAltitude),
      p.batteryCapacity.GetOr(c.batteryCapacity),
      p.sensors.GetOr(c.sensors))
  }

  /** Merging an empty patch changes nothing; merging twice the same patch
      is merging it once. */
  lemma MergeLaws(c: RobotConfig, p: Patch)
    ensures Merge(c, NoChange) == c
    ensures Merge(Merge(c, p), p) == Merge(c, p)
  {
  }

  // ---------------------------------------------------------------------
  // Sections

  datatype Section = Physical | Dynamics | Sensors

  datatype Expanded = Expanded(physical: bool, dynamics: bool, sensors: bool)

  /** Physical properties open, the other two sections closed. */
  const InitiallyExpanded: Expanded := Expanded(true, false, false)

  function IsExpanded(e: Expanded, s: Section): bool {
    match s
    case Physical => e.physical
    case Dynamics => e.dynamics
    case Sensors => e.sensors
  }

  /** `toggleSection(s)`: flips the flag of `s` and only that one. */
  function Toggle(e: Expanded, s: Section): (r: Expanded)
    ensures IsExpanded(r, s) == !IsExpanded(e, s)
    ensures forall o :: o != s ==> IsExpanded(r, o) == IsExpanded(e, o)
  {
    match s
    case Physical => e.(physical := !e.physical)
    case Dynamics => e.(dynamics := !e.dynamics)
    case Sensors => e.(sensors := !e.sensors)
  }

  /** Toggling a section twice restores the panel. */
  lemma ToggleTwice(e: Expanded, s: Section)
    ensures Toggle(Toggle(e, s), s) == e
  {
  }

  // ---------------------------------------------------------------------
  // Robot type and presets

  /** A robot-type button: `onUpdateConfig({ robotType: type })`. */
  function SelectType(c: RobotConfig, t: string): RobotConfig {
    Merge(c, NoChange.(robotType := Some(t)))
  }

  /** Selecting a robot type changes the type and nothing else. */
  lemma SelectTypeOnlyType(c: RobotConfig, t: string)
    ensures SelectType(c, t) == c.(robotType := t)
  {
  }

  /** `robotPresets[type]`; a type without a preset gives `undefined`,
      which the merge ignores. */
  function Preset(robotType: string): Patch {
    if robotType == "wheeled" then
      NoChange.(wheelDiameter := Some(0.1), wheelBase := Some(0.3), maxSpeed := Some(1.5), mass := Some(2.5))
    else if robotType == "arm" then
      NoChange.(armLength := Some(0.8), jointCount := Some(6.0), maxSpeed := Some(1.0), mass := Some(5.0))
    else if robotType == "drone" then
      NoChange.(maxAltitude := Some(10.0), batteryCapacity := Some(5000.0), maxSpeed := Some(15.0), mass := Some(1.2))
    else if robotType == "humanoid" then
      NoChange.(wheelDiameter := Some(0.08), wheelBase := Some(0.4), maxSpeed := Some(0.8), mass := Some(10.0))
    else NoChange
  }

  /** "Load Preset": merge the preset of the current robot type. */
  function ApplyPreset(c: RobotConfig): RobotConfig {
    Merge(c, Preset(c.robotType))
  }

  /** Loading a preset overwrites exactly that type's four preset keys and
      keeps the robot type, the sensors and every other field; a type
      without a preset is left unchanged. */
  lemma PresetKeys(c: RobotConfig)
    ensures var r := ApplyPreset(c);
      && r.robotType == c.robotType && r.sensors == c.sensors
      && (c.robotType == "wheeled" ==> r == c.(wheelDiameter := 0.1, wheelBase := 0.3, maxSpeed := 1.5, mass := 2.5))
      && (c.robotType == "arm" ==> r == c.(armLength := 0.8, jointCount := 6.0, maxSpeed := 1.0, mass := 5.0))
      && (c.robotType == "drone" ==> r == c.(maxAltitude := 10.0, batteryCapacity := 5000.0, maxSpeed := 15.0, mass := 1.2))
      && (c.robotType == "humanoid" ==> r == c.(wheelDiameter := 0.08, wheelBase := 0.4, maxSpeed := 0.8, mass := 10.0))
      && (c.robotType !in ["wheeled", "arm", "drone", "humanoid"] ==> r == c)
  {
  }

  /** Loading the preset twice is loading it once. */
  lemma PresetIdempotent(c: RobotConfig)
    ensures ApplyPreset(ApplyPreset(c)) == ApplyPreset(c)
  {
    PresetKeys(c);
    MergeLaws(c, Preset(c.robotType));
  }

  // ---------------------------------------------------------------------
  // Sensors

  /** The checkboxes the panel lists, in order. */
  const SensorOptions: seq<string> := ["Distance", "Gyroscope", "Accelerometer", "Camera", "GPS", "Touch"]

  /** `checked={config.sensors.includes(sensor)}` */
  predicate IsChecked(c: RobotConfig, sensor: string) {
    sensor in c.sensors
  }

  /** On the first render the panel lists six checkboxes, and exactly
      Distance, Gyroscope and Camera are ticked; every sensor of the initial
      configuration has a checkbox. */
  lemma InitialSensorChecks()
    ensures |SensorOptions| == 6
    ensures forall i :: 0 <= i < |SensorOptions| ==>
      (IsChecked(InitialConfig, SensorOptions[i]) <==> i == 0 || i == 1 || i == 3)
    ensures forall s :: s in InitialConfig.sensors ==> s in SensorOptions
  {
  }

  /** The test `s !== sensor`. */
  function Other(sensor: string): string -> bool {
    (s: string) => s != sensor
  }

  /** A checkbox change: append the sensor when checked, otherwise drop every
      occurrence of it. */
  function ToggleSensor(c: RobotConfig, sensor: string, checked: bool): RobotConfig {
    var sensors := if checked then c.sensors + [sensor] else Seqs.Filter(c.sensors, Other(sensor));
    Merge(c, NoChange.(sensors := Some(sensors)))
  }

  /** Checking appends the sensor at the end; unchecking removes all its
      occurrences, keeps every other sensor as often as it was listed and in
      its order; nothing but the sensor list changes. */
  lemma ToggleSensorEffect(c: RobotConfig, sensor: string, checked: bool, front: seq<string>, back: seq<string>, x: string)
    ensures var r := ToggleSensor(c, sensor, checked);
      && r == c.(sensors := r.sensors)
      && (checked ==> r.sensors == c.sensors + [sensor] && IsChecked(r, sensor))
      && (!checked ==> !IsChecked(r, sensor))
      && (!checked && x != sensor ==> multiset(r.sensors)[x] == multiset(c.sensors)[x])
      && (!checked && c.sensors == front + back ==>
            r.sensors == ToggleSensor(c.(sensors := front), sensor, false).sensors +
                         ToggleSensor(c.(sensors := back), sensor, false).sensors)
  {
    Seqs.FilterCount(c.sensors, Other(sensor), x);
    Seqs.FilterAppend(front, back, Other(sensor));
  }

  /** Checking a sensor and unchecking it again leaves the list without it,
      as if it had only been unchecked. */
  lemma CheckThenUncheck(c: RobotConfig, sensor: string)
    ensures ToggleSensor(ToggleSensor(c, sensor, true), sensor, false) == ToggleSensor(c, sensor, false)
  {
    Seqs.FilterAppend(c.sensors, [sensor], Other(sensor));
    Seqs.FilterSingleton(sensor, Other(sensor));
  }
}
