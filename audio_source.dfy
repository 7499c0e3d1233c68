/**
 * The MP3 asset loader: pull frames from the decoder, turn mono and stereo
 * sample blocks into stereo frames, and insist on one sample rate.
 */
module Mp3 {
  import opened Base
  import opened Kira

  /** A source of audio data. */
  datatype AudioSource = AudioSource(sound: SoundData)

  /** `minimp3::Frame`: interleaved 16-bit samples, the sample rate and the channel count. */
  datatype Mp3Frame = Mp3Frame(data: seq<int>, sampleRate: int, channels: nat)

  /** `minimp3::Error`. */
  datatype DecoderError = Eof | Io | InsufficientData | SkippedData

  /** One answer of `Decoder::next_frame`. */
  datatype DecoderResult = FrameOk(frame: Mp3Frame) | DecoderFailure(error: DecoderError)

  /** The loader's error: one raised by the loader itself, or a decoder error passed on. */
  datatype LoadError = FromFile(fileError: SoundFromFileError) | Decoder(decoderError: DecoderError)

  const U32Limit: int := 0x1_0000_0000

  /** `sample_rate as u32` for the decoder's `i32` sample rate. */
  function AsU32(x: int): (r: nat)
    ensures r < U32Limit
    ensures 0 <= x < U32Limit ==> r == x
  {
    x % U32Limit
  }

  /** The frames a mono block yields: each sample on both sides. */
  function MonoFrames(data: seq<int>): (r: seq<SamplePair>)
  {
    seq(|data|, i requires 0 <= i < |data| => SamplePair(data[i], data[i]))
  }

  /** The frames a stereo block yields: one per (left, right) pair; an odd last sample is dropped. */
  function StereoFrames(data: seq<int>): (r: seq<SamplePair>)
  {
    seq(|data| / 2, i requires 0 <= i < |data| / 2 => SamplePair(data[2 * i], data[2 * i + 1]))
  }

  /** The frames one accepted decoder frame contributes. */
  function Converted(f: Mp3Frame): seq<SamplePair>
  {
    if f.channels == 1 then MonoFrames(f.data) else StereoFrames(f.data)
  }

  /** The end of the loop: the first sample rate, or an unsupported format when no frame came. */
  function Finish(rate: Option<int>, frames: seq<SamplePair>): Result<AudioSource, LoadError>
  {
    match rate
    case None => Failure(FromFile(UnsupportedAudioFileFormat))
    case Some(r) => Success(AudioSource(SoundData(AsU32(r), frames)))
  }

  /**
   * The decode loop on the decoder's remaining answers, given the sample rate
   * seen so far and the frames collected so far. Past the last answer the
   * decoder reports end of file.
   */
  function DecodeFrom(rest: seq<DecoderResult>, rate: Option<int>, acc: seq<SamplePair>): Result<AudioSource, LoadError>
    decreases |rest|
  {
    if rest == [] then Finish(rate, acc)
    else match rest[0]
      case DecoderFailure(Eof) => Finish(rate, acc)
      case DecoderFailure(e) => Failure(Decoder(e))
      case FrameOk(f) =>
        if rate.Some? && rate.value != f.sampleRate then Failure(FromFile(UnsupportedAudioFileFormat))
        else if f.channels != 1 && f.channels != 2 then Failure(FromFile(UnsupportedChannelConfiguration))
        else
          var rate' := if rate.None? then Some(f.sampleRate) else rate;
          DecodeFrom(rest[1..], rate', acc + Converted(f))
  }

  /** What `Mp3Loader::load` produces from the decoder's answers. */
  function LoadSpec(decoder: seq<DecoderResult>): Result<AudioSource, LoadError>
  {
    DecodeFrom(decoder, None, [])
  }

  /** All frames of a run of accepted decoder frames, in order. */
  function Joined(dec: seq<DecoderResult>): seq<SamplePair>
    requires forall i :: 0 <= i < |dec| ==> dec[i].FrameOk?
  {
    if dec == [] then [] else Converted(dec[0].frame) + Joined(dec[1..])
  }

  /** The first `k` answers are frames with sample rate `r0` and one or two channels. */
  ghost predicate GoodPrefix(dec: seq<DecoderResult>, k: nat, r0: int)
  {
    k <= |dec| &&
    forall i :: 0 <= i < k ==>
      dec[i].FrameOk? && dec[i].frame.sampleRate == r0 && (dec[i].frame.channels == 1 || dec[i].frame.channels == 2)
  }

  /** One accepted frame is consumed, its frames appended. */
  lemma DecodeStep(dec: seq<DecoderResult>, r0: int, acc: seq<SamplePair>)
    requires GoodPrefix(dec, 1, r0)
    ensures DecodeFrom(dec, Some(r0), acc) == DecodeFrom(dec[1..], Some(r0), acc + Converted(dec[0].frame))
  {
  }

  /** A good prefix is consumed entirely, fixing the rate and appending its frames in order. */
  lemma {:induction false} DecodeGoodPrefix(dec: seq<DecoderResult>, k: nat, r0: int, acc: seq<SamplePair>)
    requires GoodPrefix(dec, k, r0)
    ensures DecodeFrom(dec, Some(r0), acc) == DecodeFrom(dec[k..], Some(r0), acc + Joined(dec[..k]))
  {
    if k > 0 {
      var first := Converted(dec[0].frame);
      var tail := dec[1..];
      DecodeStep(dec, r0, acc);
      assert GoodPrefix(tail, k - 1, r0);
      DecodeGoodPrefix(tail, k - 1, r0, acc + first);
      assert tail[k - 1..] == dec[k..];
      assert dec[..k][0] == dec[0] && dec[..k][1..] == tail[..k - 1];
      assert Joined(dec[..k]) == first + Joined(tail[..k - 1]);
      AppendAssoc(acc, first, Joined(tail[..k - 1]));
    } else {
      assert dec[..0] == [];
      assert acc + [] == acc;
    }
  }

  /** The first frame fixes the rate; the decode then goes on from the second answer. */
  lemma FirstFrame(dec: seq<DecoderResult>)
    requires |dec| > 0 && dec[0].FrameOk? && (dec[0].frame.channels == 1 || dec[0].frame.channels == 2)
    ensures LoadSpec(dec) == DecodeFrom(dec[1..], Some(dec[0].frame.sampleRate), Converted(dec[0].frame))
  {
    assert [] + Converted(dec[0].frame) == Converted(dec[0].frame);
  }

  /**
   * A good run of `k > 0` frames followed by end of file (or by no further
   * answer) loads, with the first frame's sample rate and all frames in order.
   */
  lemma LoadSucceeds(dec: seq<DecoderResult>, k: nat, r0: int)
    requires GoodPrefix(dec, k, r0) && k > 0
    requires k == |dec| || dec[k] == DecoderFailure(Eof)
    ensures LoadSpec(dec) == Success(AudioSource(SoundData(AsU32(dec[0].frame.sampleRate), Joined(dec[..k]))))
  {
    FirstFrame(dec);
    DecodeGoodPrefix(dec[1..], k - 1, r0, Converted(dec[0].frame));
    assert dec[..k][0] == dec[0] && dec[..k][1..] == dec[1..][..k - 1];
    assert dec[1..][k - 1..] == dec[k..];
  }

  /** After a good run, a frame with another sample rate is rejected as an unsupported format. */
  lemma RateMismatchFails(dec: seq<DecoderResult>, k: nat, r0: int)
    requires GoodPrefix(dec, k, r0) && 0 < k < |dec|
    requires dec[k].FrameOk? && dec[k].frame.sampleRate != r0
    ensures LoadSpec(dec) == Failure(FromFile(UnsupportedAudioFileFormat))
  {
    FirstFrame(dec);
    DecodeGoodPrefix(dec[1..], k - 1, r0, Converted(dec[0].frame));
    assert dec[1..][k - 1..][0] == dec[k];
  }

  /** After a good run, a frame with the same rate but neither one nor two channels is rejected. */
  lemma ChannelCountFails(dec: seq<DecoderResult>, k: nat, r0: int)
    requires GoodPrefix(dec, k, r0) && k < |dec|
    requires dec[k].FrameOk? && (k == 0 || dec[k].frame.sampleRate == r0)
    requires dec[k].frame.channels != 1 && dec[k].frame.channels != 2
    ensures LoadSpec(dec) == Failure(FromFile(UnsupportedChannelConfiguration))
  {
    if k > 0 {
      FirstFrame(dec);
      DecodeGoodPrefix(dec[1..], k - 1, r0, Converted(dec[0].frame));
      assert dec[1..][k - 1..][0] == dec[k];
    }
  }

  /** After a good run, a decoder error other than end of file is returned as it is. */
  lemma DecoderErrorFails(dec: seq<DecoderResult>, k: nat, r0: int)
    requires GoodPrefix(dec, k, r0) && k < |dec|
    requires dec[k].DecoderFailure? && dec[k].error != Eof
    ensures LoadSpec(dec) == Failure(Decoder(dec[k].error))
  {
    if k > 0 {
      FirstFrame(dec);
      DecodeGoodPrefix(dec[1..], k - 1, r0, Converted(dec[0].frame));
      assert dec[1..][k - 1..][0] == dec[k];
    }
  }

  /** End of file before any frame is an unsupported format. */
  lemma NoFramesFails(dec: seq<DecoderResult>)
    requires dec == [] || dec[0] == DecoderFailure(Eof)
    ensures LoadSpec(dec) == Failure(FromFile(UnsupportedAudioFileFormat))
  {
  }

  /** Once a rate is fixed, any successful load carries that rate. */
  lemma {:induction false} DecodeKeepsRate(rest: seq<DecoderResult>, r: int, acc: seq<SamplePair>)
    requires DecodeFrom(rest, Some(r), acc).Success?
    ensures DecodeFrom(rest, Some(r), acc).value.sound.sampleRate == AsU32(r)
    decreases |rest|
  {
    if rest != [] && rest[0].FrameOk? {
      var f := rest[0].frame;
      DecodeKeepsRate(rest[1..], r, acc + Converted(f));
    }
  }

  /** A successful load starts with a frame and has that frame's sample rate. */
  lemma SuccessHasFirstRate(dec: seq<DecoderResult>)
    requires LoadSpec(dec).Success?
    ensures |dec| > 0 && dec[0].FrameOk?
    ensures LoadSpec(dec).value.sound.sampleRate == AsU32(dec[0].frame.sampleRate)
  {
    assert dec != [] && dec[0].FrameOk?;
    var f := dec[0].frame;
    assert f.channels == 1 || f.channels == 2;
    FirstFrame(dec);
    DecodeKeepsRate(dec[1..], f.sampleRate, Converted(f));
  }

  /** `Mp3Loader::load`: the decode loop. */
  method Load(decoder: seq<DecoderResult>) returns (r: Result<AudioSource, LoadError>)
    ensures r == LoadSpec(decoder)
  {
    var sampleRate: Option<int> := None;
    var stereoSamples: seq<SamplePair> := [];
    var i := 0;
    while true
      invariant 0 <= i <= |decoder|
      invariant DecodeFrom(decoder[i..], sampleRate, stereoSamples) == LoadSpec(decoder)
      decreases |decoder| - i
    {
      var next := if i < |decoder| then decoder[i] else DecoderFailure(Eof);
      match next {
        case FrameOk(frame) =>
          assert decoder[i..][0] == FrameOk(frame) && decoder[i..][1..] == decoder[i + 1..];
          if sampleRate.Some? {
            if sampleRate.value != frame.sampleRate {
              return Failure(FromFile(UnsupportedAudioFileFormat));
            }
          } else {
            sampleRate := Some(frame.sampleRate);
          }
          ghost var before := stereoSamples;
          if frame.channels == 1 {
            for j := 0 to |frame.data|
              invariant stereoSamples == before + MonoFrames(frame.data[..j])
            {
              assert MonoFrames(frame.data[..j + 1]) == MonoFrames(frame.data[..j]) + [SamplePair(frame.data[j], frame.data[j])];
              stereoSamples := stereoSamples + [SamplePair(frame.data[j], frame.data[j])];
            }
            assert frame.data[..|frame.data|] == frame.data;
          } else if frame.channels == 2 {
            var j := 0;
            while j + 1 < |frame.data|
              invariant 0 <= j <= |frame.data| && j % 2 == 0
              invariant stereoSamples == before + StereoFrames(frame.data[..j])
              decreases |frame.data| - j
            {
              assert StereoFrames(frame.data[..j + 2]) ==
                StereoFrames(frame.data[..j]) + [SamplePair(frame.data[j], frame.data[j + 1])];
              stereoSamples := stereoSamples + [SamplePair(frame.data[j], frame.data[j + 1])];
              j := j + 2;
            }
            assert StereoFrames(frame.data[..j]) == StereoFrames(frame.data);
          } else {
            return Failure(FromFile(UnsupportedChannelConfiguration));
          }
          i := i + 1;
        case DecoderFailure(e) =>
          if e == Eof {
            break;
          } else {
            return Failure(Decoder(e));
          }
      }
    }
    match sampleRate {
      case None => return Failure(FromFile(UnsupportedAudioFileFormat));
      case Some(rate) => return Success(AudioSource(SoundData(AsU32(rate), stereoSamples)));
    }
  }

  /** `Mp3Loader::extensions`. */
  function Extensions(): (r: seq<string>)
    ensures r == ["mp3"]
  {
    ["mp3"]
  }
}
