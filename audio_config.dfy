/** The audio configuration and its field-level merge: a value in the
    overriding configuration wins only when it differs from the default,
    since a default value is taken to mean "not specified". Floats are
    reals and compared exactly, as `!=` on `f32` does. */
module AudioConfigs {

  /** One field of a merge: the override's value if it is not the default,
      else the base's. */
  function Pick<T(==)>(mine: T, theirs: T, default: T): (r: T)
    ensures theirs != default ==> r == theirs
    ensures theirs == default ==> r == mine
  {
    if theirs != default then theirs else mine
  }

  /** Picking is associative, keeps a value against the default, and is
      the identity when the override is the default or both agree. */
  lemma PickLaws<T>(a: T, b: T, c: T, d: T)
    ensures Pick(Pick(a, b, d), c, d) == Pick(a, Pick(b, c, d), d)
    ensures Pick(a, d, d) == a && Pick(d, a, d) == a && Pick(a, a, d) == a
  {
  }

  /** `EngineAudioConfig` */
  datatype EngineAudio = EngineAudio(baseVolume: real, rpmScaling: real, minVolume: real, maxVolume: real, smoothingFactor: real)

  /** `VehicleAudioConfig` */
  datatype VehicleAudio = VehicleAudio(
    engineSoundEnabled: bool, defaultEngineVolume: real,
    tireScreechEnabled: bool, defaultTireScreechVolume: real, tireScreechScaling: real)

  /** `AudioConfig` */
  datatype AudioConfig = AudioConfig(
    masterVolume: real, engineVolume: real, musicVolume: real,
    sfxVolume: real, environmentVolume: real, uiVolume: real,
    engine: EngineAudio, vehicle: VehicleAudio)

  /** `EngineAudioConfig::default` */
  function DefaultEngineAudio(): (e: EngineAudio)
    ensures e.minVolume <= e.baseVolume <= e.maxVolume
  {
    EngineAudio(0.5, 0.8, 0.2, 1.0, 0.15)
  }

  /** `VehicleAudioConfig::default` */
  function DefaultVehicleAudio(): (v: VehicleAudio)
    ensures v.engineSoundEnabled && v.tireScreechEnabled
  {
    VehicleAudio(true, 0.5, true, 0.3, 0.5)
  }

  /** `AudioConfig::default`: every volume within 0 to 1, master at full. */
  function DefaultAudio(): (c: AudioConfig)
    ensures c.masterVolume == 1.0
    ensures 0.0 <= c.engineVolume <= 1.0 && 0.0 <= c.musicVolume <= 1.0 && 0.0 <= c.sfxVolume <= 1.0
    ensures 0.0 <= c.environmentVolume <= 1.0 && 0.0 <= c.uiVolume <= 1.0
    ensures c.engine == DefaultEngineAudio() && c.vehicle == DefaultVehicleAudio()
  {
    AudioConfig(1.0, 0.8, 0.7, 0.9, 0.6, 0.8, DefaultEngineAudio(), DefaultVehicleAudio())
  }

  /** `EngineAudioConfig::merge` */
  function MergeEngine(mine: EngineAudio, theirs: EngineAudio): EngineAudio
  {
    var d := DefaultEngineAudio();
    EngineAudio(
      Pick(mine.baseVolume, theirs.baseVolume, d.baseVolume),
      Pick(mine.rpmScaling, theirs.rpmScaling, d.rpmScaling),
      Pick(mine.minVolume, theirs.minVolume, d.minVolume),
      Pick(mine.maxVolume, theirs.maxVolume, d.maxVolume),
      Pick(mine.smoothingFactor, theirs.smoothingFactor, d.smoothingFactor))
  }

  /** `VehicleAudioConfig::merge` */
  function MergeVehicle(mine: VehicleAudio, theirs: VehicleAudio): VehicleAudio
  {
    var d := DefaultVehicleAudio();
    VehicleAudio(
      Pick(mine.engineSoundEnabled, theirs.engineSoundEnabled, d.engineSoundEnabled),
      Pick(mine.defaultEngineVolume, theirs.defaultEngineVolume, d.defaultEngineVolume),
      Pick(mine.tireScreechEnabled, theirs.tireScreechEnabled, d.tireScreechEnabled),
      Pick(mine.defaultTireScreechVolume, theirs.defaultTireScreechVolume, d.defaultTireScreechVolume),
      Pick(mine.tireScreechScaling, theirs.tireScreechScaling, d.tireScreechScaling))
  }

  /** `AudioConfig::merge`: the six volumes field by field, the nested
      configurations by their own merges. */
  function Merge(mine: AudioConfig, theirs: AudioConfig): AudioConfig
  {
    var d := DefaultAudio();
    AudioConfig(
      Pick(mine.masterVolume, theirs.masterVolume, d.masterVolume),
      Pick(mine.engineVolume, theirs.engineVolume, d.engineVolume),
      Pick(mine.musicVolume, theirs.musicVolume, d.musicVolume),
      Pick(mine.sfxVolume, theirs.sfxVolume, d.sfxVolume),
      Pick(mine.environmentVolume, theirs.environmentVolume, d.environmentVolume),
      Pick(mine.uiVolume, theirs.uiVolume, d.uiVolume),
      MergeEngine(mine.engine, theirs.engine),
      MergeVehicle(mine.vehicle, theirs.vehicle))
  }

  /** Each merged volume is the override's when it differs from the
      default and the base's otherwise, and so is each nested field. */
  lemma MergeFieldwise(mine: AudioConfig, theirs: AudioConfig)
    ensures var r := Merge(mine, theirs);
      && (theirs.masterVolume != 1.0 ==> r.masterVolume == theirs.masterVolume)
      && (theirs.masterVolume == 1.0 ==> r.masterVolume == mine.masterVolume)
      && (theirs.musicVolume != 0.7 ==> r.musicVolume == theirs.musicVolume)
      && (theirs.musicVolume == 0.7 ==> r.musicVolume == mine.musicVolume)
      && (theirs.engine.baseVolume != 0.5 ==> r.engine.baseVolume == theirs.engine.baseVolume)
      && (theirs.engine.baseVolume == 0.5 ==> r.engine.baseVolume == mine.engine.baseVolume)
      && (!theirs.vehicle.engineSoundEnabled ==> !r.vehicle.engineSoundEnabled)
      && (theirs.vehicle.engineSoundEnabled ==> r.vehicle.engineSoundEnabled == mine.vehicle.engineSoundEnabled)
  {
  }

  /** Merging with a default override returns the base unchanged; merging a
      default base returns the override; merging a configuration with itself
      returns it. */
  lemma MergeIdentities(c: AudioConfig)
    ensures Merge(c, DefaultAudio()) == c
    ensures Merge(DefaultAudio(), c) == c
    ensures Merge(c, c) == c
  {
  }

  /** Merging is associative: layering a, then b, then c is the same as
      layering a under the merge of b and c. */
  lemma MergeAssociative(a: AudioConfig, b: AudioConfig, c: AudioConfig)
    ensures Merge(Merge(a, b), c) == Merge(a, Merge(b, c))
  {
  }

  /** The merge test: a base with master 0.5 and engine 0.6 under an
      override with master 0.8 and music 0.4 gives master 0.8, music 0.4 and
      engine 0.6. */
  lemma MergeExample()
    ensures var d := DefaultAudio();
      var merged := Merge(d.(masterVolume := 0.5, engineVolume := 0.6), d.(masterVolume := 0.8, musicVolume := 0.4));
      merged.masterVolume == 0.8 && merged.musicVolume == 0.4 && merged.engineVolume == 0.6
  {
  }
}
