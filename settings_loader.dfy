/**
 * The settings loader: a settings file names a sound file and may give its
 * semantic duration; a negative or missing duration means none.
 */
module SettingsLoader {
  import opened Base
  import K = Kira
  import opened SoundFile

  /** `f64::MIN`, the most negative finite double. */
  const F64Min: real := -179769313486231570814527423731704356798070567525844996598917476803157260780028538760589558632766878171540458953514382464234321326889464182768467546703537516986049910576551282076245490090389328944075868508455133942304583236903222948165808559332123348274797826204144723168738177180919299881250404026184124858368.0

  /** `SoundSettingsSpec` after deserialisation. */
  datatype SoundSettingsSpec = SoundSettingsSpec(file: string, semanticDuration: real)

  /** `default_settings_value`: the value serde fills in for a missing semantic duration. */
  function DefaultSettingsValue(): (r: real)
    ensures r < 0.0
  {
    F64Min
  }

  /** Deserialisation of the two fields: the duration, when absent, takes the default value. */
  function FromFields(file: string, semanticDuration: Option<real>): (r: SoundSettingsSpec)
    ensures r.file == file
    ensures semanticDuration.Some? ==> r.semanticDuration == semanticDuration.value
    ensures semanticDuration.None? ==> r.semanticDuration < 0.0
  {
    SoundSettingsSpec(file, semanticDuration.GetOr(DefaultSettingsValue()))
  }

  /** `positive_or_none`: the value when it is at least zero. */
  function PositiveOrNone(value: real): (r: Option<real>)
    ensures r.Some? <==> value >= 0.0
    ensures r.Some? ==> r.value == value
  {
    if value >= 0.0 then Some(value) else None
  }

  /** `load_sound`: Kira's default settings with the semantic duration set, then the reader by extension. */
  function LoadSound(features: Features, defaults: SoundSettings, bytes: seq<byte>, spec: SoundSettingsSpec)
    : (r: Result<ReadRequest, K.SoundFromFileError>)
    ensures r.Failure? ==> r.error == K.UnsupportedAudioFileFormat
    ensures r.Success? <==> SelectReader(features, Extension(spec.file)).Some?
    ensures r.Success? ==> r.value.bytes == bytes && r.value.reader == SelectReader(features, Extension(spec.file)).value
    ensures r.Success? ==> r.value.settings == defaults.(semanticDuration := PositiveOrNone(spec.semanticDuration))
  {
    Dispatch(features, spec.file, bytes, defaults.(semanticDuration := PositiveOrNone(spec.semanticDuration)))
  }

  /** A settings file without a semantic duration yields a sound without one. */
  lemma MissingDurationIsNone(features: Features, defaults: SoundSettings, bytes: seq<byte>, file: string)
    requires LoadSound(features, defaults, bytes, FromFields(file, None)).Success?
    ensures LoadSound(features, defaults, bytes, FromFields(file, None)).value.settings.semanticDuration == None
  {
  }

  /** A duration of zero is kept. */
  lemma ZeroDurationKept()
    ensures PositiveOrNone(0.0) == Some(0.0)
  {
  }

  /** Every field other than the semantic duration is Kira's default. */
  lemma OtherSettingsDefault(features: Features, defaults: SoundSettings, bytes: seq<byte>, spec: SoundSettingsSpec)
    requires LoadSound(features, defaults, bytes, spec).Success?
    ensures var s := LoadSound(features, defaults, bytes, spec).value.settings;
      s.cooldown == defaults.cooldown && s.defaultLoopStart == defaults.defaultLoopStart && s.others == defaults.others
  {
  }

  /** `extensions`. */
  function Extensions(features: Features): (r: seq<string>)
    ensures r == LoaderExtensions(features)
  {
    LoaderExtensions(features)
  }
}
