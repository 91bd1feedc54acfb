/** The hand-written configuration checks: audio volumes within 0 to 1 and
    the engine, mass and wheel constraints of a vehicle. Each check is a
    guard in a fixed order; the first that fails names the error. */
module ConfigValidation {
  import opened AudioConfigs

  /** The error a failed check returns: which field, and for a wheel which
      index. The messages' formatted values are not modelled. */
  datatype ConfigError =
    | VolumeOutOfRange(field: string)
    | MaxRpmNotPositive
    | MaxPowerNotPositive
    | IdleRpmOutOfRange
    | MassNotPositive
    | WheelRadiusNotPositive(index: nat)
    | WheelGripNegative(index: nat)

  datatype Validation = Ok | Err(error: ConfigError)

  predicate UnitRange(v: real)
  {
    0.0 <= v <= 1.0
  }

  predicate VolumesInRange(c: AudioConfig)
  {
    && UnitRange(c.masterVolume) && UnitRange(c.engineVolume) && UnitRange(c.musicVolume)
    && UnitRange(c.sfxVolume) && UnitRange(c.environmentVolume) && UnitRange(c.uiVolume)
  }

  /** `validate_audio_config`: Ok exactly when all six volumes lie in
      [0, 1]; otherwise the first volume out of range, in declaration order,
      is named. */
  function ValidateAudio(c: AudioConfig): (r: Validation)
    ensures r.Ok? <==> VolumesInRange(c)
    ensures r == Err(VolumeOutOfRange("master_volume")) <==> !UnitRange(c.masterVolume)
    ensures r == Err(VolumeOutOfRange("engine_volume")) <==> UnitRange(c.masterVolume) && !UnitRange(c.engineVolume)
    ensures r.Err? ==> r.error.VolumeOutOfRange?
  {
    if !UnitRange(c.masterVolume) then Err(VolumeOutOfRange("master_volume"))
    else if !UnitRange(c.engineVolume) then Err(VolumeOutOfRange("engine_volume"))
    else if !UnitRange(c.musicVolume) then Err(VolumeOutOfRange("music_volume"))
    else if !UnitRange(c.sfxVolume) then Err(VolumeOutOfRange("sfx_volume"))
    else if !UnitRange(c.environmentVolume) then Err(VolumeOutOfRange("environment_volume"))
    else if !UnitRange(c.uiVolume) then Err(VolumeOutOfRange("ui_volume"))
    else Ok
  }

  /** The audio tests: the default configuration passes, as do all volumes
      at exactly 0.0 or exactly 1.0; master 1.5 or engine -0.1 fails. */
  lemma AudioValidationExamples()
    ensures ValidateAudio(DefaultAudio()).Ok?
    ensures var d := DefaultAudio();
      ValidateAudio(d.(masterVolume := 0.0, engineVolume := 0.0, musicVolume := 0.0,
                       sfxVolume := 0.0, environmentVolume := 0.0, uiVolume := 0.0)).Ok?
    ensures var d := DefaultAudio();
      ValidateAudio(d.(masterVolume := 1.0, engineVolume := 1.0, musicVolume := 1.0,
                       sfxVolume := 1.0, environmentVolume := 1.0, uiVolume := 1.0)).Ok?
    ensures ValidateAudio(DefaultAudio().(masterVolume := 1.5)) == Err(VolumeOutOfRange("master_volume"))
    ensures ValidateAudio(DefaultAudio().(engineVolume := -0.1)) == Err(VolumeOutOfRange("engine_volume"))
  {
  }

  /** Every merged volume comes from one side of the merge, so merging two
      configurations that pass validation gives one that passes too. */
  lemma MergeKeepsValidity(a: AudioConfig, b: AudioConfig)
    requires ValidateAudio(a).Ok? && ValidateAudio(b).Ok?
    ensures ValidateAudio(Merge(a, b)).Ok?
  {
  }

  /** The part of `EngineConfig` that is validated. */
  datatype EngineConfig = EngineConfig(maxPower: real, idleRpm: real, maxRpm: real)

  /** The part of `WheelConfig` that is validated. */
  datatype WheelConfig = WheelConfig(radius: real, grip: real)

  /** The part of `VehicleConfig` that is validated; the source's fixed array
      of four wheels is a sequence. */
  datatype VehicleConfig = VehicleConfig(mass: real, engine: EngineConfig, wheels: seq<WheelConfig>)

  /** `VehicleConfig::default` on the validated fields: 1500 kg, 300 max
      power, idle 800 and max 7000 rpm, four wheels of radius 0.33 and grip 1. */
  function DefaultVehicle(): (v: VehicleConfig)
    ensures |v.wheels| == 4
  {
    var w := WheelConfig(0.33, 1.0);
    VehicleConfig(1500.0, EngineConfig(300.0, 800.0, 7000.0), [w, w, w, w])
  }

  predicate WheelOk(w: WheelConfig)
  {
    w.radius > 0.0 && w.grip >= 0.0
  }

  /** The wheel loop from index `i` on: the first bad wheel's error, radius
      checked before grip. */
  function ValidateWheels(wheels: seq<WheelConfig>, i: nat): (r: Validation)
    requires i <= |wheels|
    ensures r.Ok? <==> forall j :: i <= j < |wheels| ==> WheelOk(wheels[j])
    ensures r.Err? ==> (r.error.WheelRadiusNotPositive? || r.error.WheelGripNegative?)
    ensures r.Err? && r.error.WheelRadiusNotPositive? ==>
      var k := r.error.index; i <= k < |wheels| && wheels[k].radius <= 0.0 && forall j :: i <= j < k ==> WheelOk(wheels[j])
    ensures r.Err? && r.error.WheelGripNegative? ==>
      var k := r.error.index;
      && i <= k < |wheels| && wheels[k].radius > 0.0 && wheels[k].grip < 0.0
      && forall j :: i <= j < k ==> WheelOk(wheels[j])
    decreases |wheels| - i
  {
    if i == |wheels| then Ok
    else if wheels[i].radius <= 0.0 then Err(WheelRadiusNotPositive(i))
    else if wheels[i].grip < 0.0 then Err(WheelGripNegative(i))
    else ValidateWheels(wheels, i + 1)
  }

  predicate EngineOk(e: EngineConfig)
  {
    e.maxRpm > 0.0 && e.maxPower > 0.0 && 0.0 <= e.idleRpm < e.maxRpm
  }

  /** `validate_vehicle_config`: Ok exactly when max rpm and max power are
      positive, idle rpm lies in [0, max rpm), the mass is positive and
      every wheel has a positive radius and a non-negative grip; the engine
      checks come first, then the mass, then the wheels in order. */
  function ValidateVehicle(c: VehicleConfig): (r: Validation)
    ensures r.Ok? <==> EngineOk(c.engine) && c.mass > 0.0 && forall j :: 0 <= j < |c.wheels| ==> WheelOk(c.wheels[j])
    ensures c.engine.maxRpm <= 0.0 ==> r == Err(MaxRpmNotPositive)
    ensures r == Err(MassNotPositive) <==> EngineOk(c.engine) && c.mass <= 0.0
    ensures r.Err? && (r.error.WheelRadiusNotPositive? || r.error.WheelGripNegative?) ==>
      EngineOk(c.engine) && c.mass > 0.0 && r.error.index < |c.wheels| && !WheelOk(c.wheels[r.error.index])
  {
    if c.engine.maxRpm <= 0.0 then Err(MaxRpmNotPositive)
    else if c.engine.maxPower <= 0.0 then Err(MaxPowerNotPositive)
    else if c.engine.idleRpm < 0.0 || c.engine.idleRpm >= c.engine.maxRpm then Err(IdleRpmOutOfRange)
    else if c.mass <= 0.0 then Err(MassNotPositive)
    else ValidateWheels(c.wheels, 0)
  }

  /** The vehicle tests: the default passes; max rpm -100, mass 0, idle rpm
      above max, a wheel of radius -1 or grip -0.5 each fail. */
  lemma VehicleValidationExamples()
    ensures ValidateVehicle(DefaultVehicle()).Ok?
    ensures var d := DefaultVehicle();
      ValidateVehicle(d.(engine := d.engine.(maxRpm := -100.0))) == Err(MaxRpmNotPositive)
    ensures ValidateVehicle(DefaultVehicle().(mass := 0.0)) == Err(MassNotPositive)
    ensures var d := DefaultVehicle();
      ValidateVehicle(d.(engine := d.engine.(idleRpm := 7100.0))) == Err(IdleRpmOutOfRange)
    ensures var d := DefaultVehicle();
      ValidateVehicle(d.(wheels := d.wheels[0 := WheelConfig(-1.0, 1.0)])) == Err(WheelRadiusNotPositive(0))
    ensures var d := DefaultVehicle();
      ValidateVehicle(d.(wheels := d.wheels[0 := WheelConfig(0.3, -0.5)])) == Err(WheelGripNegative(0))
  {
    var d := DefaultVehicle();
    assert ValidateWheels(d.wheels, 4).Ok?;
  }
}
