/** The spec loader: a settings file names a sound file and may give three of Kira's sound settings. */
module SpecLoader {
  import opened Base
  import K = Kira
  import opened SoundFile

  /** `SoundSettingsSpec` after deserialisation. */
  datatype SoundSettingsSpec = SoundSettingsSpec(
    file: string,
    cooldown: Option<real>,
    semanticDuration: Option<real>,
    defaultLoopStart: Option<real>)

  /** `load_sound`: Kira's default settings with the three fields copied over, then the reader by extension. */
  function LoadSound(features: Features, defaults: SoundSettings, bytes: seq<byte>, spec: SoundSettingsSpec)
    : (r: Result<ReadRequest, K.SoundFromFileError>)
    ensures r.Failure? ==> r.error == K.UnsupportedAudioFileFormat
    ensures r.Success? <==> SelectReader(features, Extension(spec.file)).Some?
    ensures r.Success? ==> r.value.bytes == bytes && r.value.reader == SelectReader(features, Extension(spec.file)).value
    ensures r.Success? ==>
      r.value.settings == SoundSettings(spec.cooldown, spec.semanticDuration, spec.defaultLoopStart, defaults.others)
  {
    var settings := defaults.(cooldown := spec.cooldown, semanticDuration := spec.semanticDuration,
                              defaultLoopStart := spec.defaultLoopStart);
    Dispatch(features, spec.file, bytes, settings)
  }

  /** `extensions`. */
  function Extensions(features: Features): (r: seq<string>)
    ensures r == LoaderExtensions(features)
  {
    LoaderExtensions(features)
  }
}
