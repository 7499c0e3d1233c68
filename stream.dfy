/**
 * Audio streams: a user-supplied stream produces one frame per call, and
 * `StreamedAudio` collects play and stop commands for streams, tagged with
 * the channel they are meant for.
 */
module Stream {
  import opened Base

  /** The key of a channel (`ChannelId` in channel.rs; `AudioChannel` where stream.rs refers to it). */
  datatype AudioChannelKey = AudioChannelKey(key: string)

  /** `Default` of the channel key. */
  const DefaultChannel: AudioChannelKey := AudioChannelKey("default_channel")

  /** A stereo frame of the crate. */
  datatype Frame = Frame(left: real, right: real)

  /** `kira::Frame`. */
  datatype KiraFrame = KiraFrame(left: real, right: real)

  /** `Into<kira::Frame> for Frame`: both samples carried over. */
  function IntoKira(f: Frame): (r: KiraFrame)
    ensures r.left == f.left && r.right == f.right
  {
    KiraFrame(f.left, f.right)
  }

  /** The conversion loses nothing: distinct frames stay distinct. */
  lemma IntoKiraInjective(f: Frame, g: Frame)
    requires IntoKira(f) == IntoKira(g)
    ensures f == g
  {
  }

  /**
   * `InternalAudioStream<T>`: wraps the user's stream. The stream's `next` is
   * the function `step`, from the stream's state and the time step to the
   * next state and the frame it yields.
   */
  class InternalAudioStream<S> {
    var input: S
    const step: (S, real) -> (S, Frame)

    /** `new`. */
    constructor (incoming: S, step: (S, real) -> (S, Frame))
      ensures input == incoming && this.step == step
    {
      input := incoming;
      this.step := step;
    }

    /** `next`: advance the user's stream once and hand its frame to Kira unchanged. */
    method Next(dt: real) returns (frame: KiraFrame)
      modifies this
      ensures input == step(old(input), dt).0
      ensures frame.left == step(old(input), dt).1.left && frame.right == step(old(input), dt).1.right
    {
      var (next, f) := step(input, dt);
      input := next;
      frame := IntoKira(f);
    }
  }

  /** `StreamCommands<T>`. */
  datatype StreamCommand<T> = PlayStream(stream: T) | StopStream

  /** `StreamedAudio<T>`: the command deque, front first. */
  class StreamedAudio<T> {
    var commands: seq<(StreamCommand<T>, AudioChannelKey)>

    /** `Default`: no commands. */
    constructor ()
      ensures commands == []
    {
      commands := [];
    }

    /** `stream`: play the stream in the default channel. */
    method Stream(stream: T)
      modifies this
      ensures commands == [(PlayStream(stream), DefaultChannel)] + old(commands)
    {
      commands := [(PlayStream(stream), DefaultChannel)] + commands;
    }

    /** `stop`: stop the streams of the default channel. */
    method Stop()
      modifies this
      ensures commands == [(StopStream, DefaultChannel)] + old(commands)
    {
      commands := [(StopStream, DefaultChannel)] + commands;
    }

    /** `stream_in_channel`. */
    method StreamInChannel(stream: T, channel: AudioChannelKey)
      modifies this
      ensures commands == [(PlayStream(stream), channel)] + old(commands)
    {
      commands := [(PlayStream(stream), channel)] + commands;
    }

    /** `stop_channel`. */
    method StopChannel(channel: AudioChannelKey)
      modifies this
      ensures commands == [(StopStream, channel)] + old(commands)
    {
      commands := [(StopStream, channel)] + commands;
    }
  }

  /**
   * Pushing to the front keeps the deque in reverse issue order: a consumer
   * taking from the back meets the earlier commands first and the new one last.
   */
  lemma FrontPushIssueOrder<T>(deque: seq<(StreamCommand<T>, AudioChannelKey)>, c: (StreamCommand<T>, AudioChannelKey))
    ensures Reverse([c] + deque) == Reverse(deque) + [c]
    ensures ([c] + deque)[1..] == deque
  {
    ReverseAppend([c], deque);
    assert Reverse([c]) == [c];
  }
}
