/**
 * What the two settings-file loaders share: the cargo features that decide
 * which formats are compiled in, the extension of the sound file named in a
 * settings file, and the choice of Kira reader by that extension.
 */
module SoundFile {
  import opened Base
  import K = Kira

  /** The format features the crate was built with. */
  datatype Features = Features(mp3: bool, ogg: bool, flac: bool, wav: bool)

  /** The `Sound::from_*_reader` constructor a loader hands the bytes to. */
  datatype Reader = Mp3Reader | OggReader | FlacReader | WavReader

  newtype byte = x: int | 0 <= x < 256

  /** `SoundSettings`: the three fields a loader may set, and all the others as one value. */
  datatype SoundSettings = SoundSettings(
    cooldown: Option<real>,
    semanticDuration: Option<real>,
    defaultLoopStart: Option<real>,
    others: OtherSoundSettings)

  /** The fields of `SoundSettings` that neither loader sets. */
  datatype OtherSoundSettings = OtherSoundSettings(id: nat)

  /** A call `Sound::from_*_reader(Cursor::new(bytes), settings)`. */
  datatype ReadRequest = ReadRequest(reader: Reader, bytes: seq<byte>, settings: SoundSettings)

  /** The position of the last `c` in `s`. */
  function LastIndex(s: string, c: char): (r: Option<nat>)
    ensures r.Some? ==> r.value < |s| && s[r.value] == c && forall j :: r.value < j < |s| ==> s[j] != c
    ensures r.None? ==> forall j :: 0 <= j < |s| ==> s[j] != c
    decreases |s|
  {
    if s == [] then None
    else if s[|s| - 1] == c then Some(|s| - 1)
    else LastIndex(s[..|s| - 1], c)
  }

  /** `Path::file_name`: the text after the last `/`; none when it is empty, `.` or `..`. */
  function FileName(path: string): (r: Option<string>)
    ensures r.Some? ==> '/' !in r.value && r.value != "" && r.value != "." && r.value != ".."
  {
    var name := match LastIndex(path, '/') case None => path case Some(i) => path[i + 1..];
    assert forall j :: 0 <= j < |name| ==> name[j] != '/';
    if name == "" || name == "." || name == ".." then None else Some(name)
  }

  /**
   * `Path::extension`: the text after the last `.` of the file name, unless
   * that dot is the name's first character or the name has no dot.
   */
  function Extension(path: string): (r: Option<string>)
    ensures r.Some? ==> '.' !in r.value && '/' !in r.value
  {
    match FileName(path)
    case None => None
    case Some(name) =>
      match LastIndex(name, '.')
      case None => None
      case Some(i) =>
        if i == 0 then None
        else Some(name[i + 1..])
  }

  /** The last `c` is found wherever it is. */
  lemma {:induction false} LastIndexAt(s: string, c: char, i: nat)
    requires i < |s| && s[i] == c && forall j :: i < j < |s| ==> s[j] != c
    ensures LastIndex(s, c) == Some(i)
    decreases |s|
  {
    if i < |s| - 1 {
      var t := s[..|s| - 1];
      assert t[i] == c && forall j :: i < j < |t| ==> t[j] == s[j];
      LastIndexAt(t, c, i);
    }
  }

  /** The file name of a path whose last `/` ends `dir`, or of a path without `/`. */
  lemma FileNameAfter(dir: string, name: string)
    requires '/' !in name && name != "" && name != "." && name != ".."
    requires dir == "" || dir[|dir| - 1] == '/'
    ensures FileName(dir + name) == Some(name)
  {
    var path := dir + name;
    if dir == "" {
      assert path == name;
    } else {
      assert forall j :: |dir| - 1 < j < |path| ==> path[j] == name[j - |dir|];
      LastIndexAt(path, '/', |dir| - 1);
      assert path[|dir|..] == name;
    }
  }

  /**
   * In a file name whose last dot is at `i > 0`, the extension is the text
   * after that dot, whatever directory the name is in.
   */
  lemma ExtensionAt(dir: string, name: string, i: nat)
    requires '/' !in name && name != ".."
    requires 0 < i < |name| && name[i] == '.' && forall j :: i < j < |name| ==> name[j] != '.'
    requires dir == "" || dir[|dir| - 1] == '/'
    ensures Extension(dir + name) == Some(name[i + 1..])
  {
    FileNameAfter(dir, name);
    LastIndexAt(name, '.', i);
  }

  /** A file name without a dot after its first character has no extension. */
  lemma NoExtensionWithoutDot(name: string)
    requires '/' !in name && forall j :: 0 < j < |name| ==> name[j] != '.'
    ensures Extension(name) == None
  {
    assert LastIndex(name, '/') == None;
  }

  /** The `match` on the extension: each format's reader when its feature is on, nothing otherwise. */
  function SelectReader(features: Features, extension: Option<string>): (r: Option<Reader>)
    ensures r == Some(Mp3Reader) <==> extension == Some("mp3") && features.mp3
    ensures r == Some(OggReader) <==> extension == Some("ogg") && features.ogg
    ensures r == Some(FlacReader) <==> extension == Some("flac") && features.flac
    ensures r == Some(WavReader) <==> extension == Some("wav") && features.wav
  {
    match extension
    case None => None
    case Some(e) =>
      if e == "mp3" && features.mp3 then Some(Mp3Reader)
      else if e == "ogg" && features.ogg then Some(OggReader)
      else if e == "flac" && features.flac then Some(FlacReader)
      else if e == "wav" && features.wav then Some(WavReader)
      else None
  }

  /**
   * The tail shared by both `load_sound`s: hand the bytes and settings to the
   * reader the extension selects, or fail with an unsupported format.
   */
  function Dispatch(features: Features, file: string, bytes: seq<byte>, settings: SoundSettings)
    : (r: Result<ReadRequest, K.SoundFromFileError>)
    ensures r.Success? <==> SelectReader(features, Extension(file)).Some?
    ensures r.Success? ==> r.value == ReadRequest(SelectReader(features, Extension(file)).value, bytes, settings)
    ensures r.Failure? ==> r.error == K.UnsupportedAudioFileFormat
  {
    match SelectReader(features, Extension(file))
    case Some(reader) => Success(ReadRequest(reader, bytes, settings))
    case None => Failure(K.UnsupportedAudioFileFormat)
  }

  /** `extensions` of both loaders: the settings-file extensions of the enabled formats. */
  function LoaderExtensions(features: Features): (r: seq<string>)
  {
    (if features.mp3 then ["mp3.ron"] else []) +
    (if features.wav then ["wav.ron"] else []) +
    (if features.flac then ["flac.ron"] else []) +
    (if features.ogg then ["ogg.ron", "oga.ron", "spx.ron"] else [])
  }

  /** Each settings-file extension is registered exactly when its format's feature is on. */
  lemma LoaderExtensionsGated(features: Features)
    ensures "mp3.ron" in LoaderExtensions(features) <==> features.mp3
    ensures "wav.ron" in LoaderExtensions(features) <==> features.wav
    ensures "flac.ron" in LoaderExtensions(features) <==> features.flac
    ensures "ogg.ron" in LoaderExtensions(features) <==> features.ogg
    ensures "oga.ron" in LoaderExtensions(features) <==> features.ogg
    ensures "spx.ron" in LoaderExtensions(features) <==> features.ogg
  {
  }

  /**
   * `oga.ron` and `spx.ron` are registered with the ogg feature, but the
   * `oga` and `spx` sound files they name select no reader.
   */
  lemma OgaAndSpxRejected(features: Features, file: string, bytes: seq<byte>, settings: SoundSettings)
    requires Extension(file) == Some("oga") || Extension(file) == Some("spx")
    ensures features.ogg ==> "oga.ron" in LoaderExtensions(features) && "spx.ron" in LoaderExtensions(features)
    ensures Dispatch(features, file, bytes, settings) == Failure(K.UnsupportedAudioFileFormat)
  {
    LoaderExtensionsGated(features);
  }
}
