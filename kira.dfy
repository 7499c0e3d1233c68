/**
 * The parts of the Kira audio library that the crate talks to, as abstract
 * values. Kira itself is not modelled: its answers are the functions of a
 * `Kira` value, which stands for "what Kira answers at this moment".
 */
module Kira {
  import opened Base

  /** Identity of one `StaticSoundHandle`. */
  type KiraId = nat

  /** `kira::sound::static_sound::PlaybackState`. */
  datatype KiraState = KPlaying | KPaused | KStopped | KPausing | KStopping

  /** `kira::CommandError`: the command queue is full, or anything else. */
  datatype CommandError = CommandQueueFull | OtherCommandError

  /** The result of sending one command to a sound handle. */
  datatype SendResult = Sent | Refused(error: CommandError)

  /** A transition as handed to Kira; easing and timing are not modelled. */
  datatype Tween = Tween(durationSeconds: real)

  /** The commands a `StaticSoundHandle` accepts. `None` stands for Kira's default tween. */
  datatype KiraOp =
    | StopOp(tween: Option<Tween>)
    | PauseOp(tween: Option<Tween>)
    | ResumeOp(tween: Option<Tween>)
    | SetVolumeOp(volume: real, tween: Option<Tween>)
    | SetPanningOp(panning: real, tween: Option<Tween>)
    | SetPlaybackRateOp(rate: real, tween: Option<Tween>)
    | SeekToOp(position: real)
    | SeekByOp(amount: real)

  /** One command sent to one sound handle. */
  datatype KiraCall = KiraCall(target: KiraId, op: KiraOp)

  /** One stereo frame of integer samples, as handed to `Frame::from_i32`. */
  datatype SamplePair = SamplePair(left: int, right: int)

  /** Decoded sound data: `Sound::from_frames(sample_rate, frames, ..)`. */
  datatype SoundData = SoundData(sampleRate: nat, frames: seq<SamplePair>)

  /** `kira::sound::error::SoundFromFileError`, the two variants the crate raises. */
  datatype SoundFromFileError = UnsupportedAudioFileFormat | UnsupportedChannelConfiguration

  /** Channel-level settings copied onto a sound before it is played. */
  datatype AppliedSettings = AppliedSettings(volume: real, playbackRate: real, panning: real)

  /** Per-play overrides (`PartialSoundSettings`); only the playback rate is read by the crate. */
  datatype PartialSoundSettings =
    PartialSoundSettings(volume: Option<real>, playbackRate: Option<real>, panning: Option<real>)

  /** The sound handed to `AudioManager::play`. */
  datatype SoundRequest =
    SoundRequest(sound: SoundData, channel: Option<AppliedSettings>, partial: PartialSoundSettings)

  /** The outcome of `AudioManager::play`. */
  datatype PlayResult = Played(handle: KiraId) | PlayFailed

  /** What Kira answers: the state and position of each handle, the outcome of each command and of each play. */
  datatype Kira = Kira(
    state: KiraId -> KiraState,
    position: KiraId -> real,
    send: KiraCall -> SendResult,
    play: SoundRequest -> PlayResult)
}
