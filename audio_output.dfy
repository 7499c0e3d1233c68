/**
 * The audio output: the instances playing on each channel, the settings of
 * each channel, and the systems that run the channels' queued commands
 * against Kira once per frame.
 *
 * Every call handed to a Kira sound handle is appended to the ghost log
 * `sent`; Kira's answers come from a `Kira` value that is fixed for the
 * duration of one call of a system.
 */
module Output {
  import opened Base
  import opened Kira
  import opened Audio
  import opened Mp3
  import TypedChannel
  import DynamicChannel

  /** Which channel a command or an instance belongs to. */
  datatype Channel = Typed(typeId: nat) | Dynamic(key: string)

  /** A playing sound: its Kira handle and the crate's handle for it. */
  datatype InstanceState = InstanceState(kira: KiraId, handle: InstanceHandle)

  /** The settings a channel remembers for sounds played on it later. */
  datatype ChannelState = ChannelState(paused: bool, volume: real, playbackRate: real, panning: real)

  /** `ChannelState::default`: unpaused, full volume, normal rate, centred panning. */
  const DefaultChannelState := ChannelState(false, 1.0, 1.0, 0.5)

  /** The recorded settings of `ch`, or the defaults when none are recorded. */
  function ChannelOf(channels: map<Channel, ChannelState>, ch: Channel): (r: ChannelState)
    ensures ch in channels ==> r == channels[ch]
    ensures ch !in channels ==> !r.paused && r.volume == 1.0 && r.playbackRate == 1.0 && r.panning == 0.5
  {
    if ch in channels then channels[ch] else DefaultChannelState
  }

  /** The instances recorded for `ch`; none when the channel has no entry. */
  function InstancesOf(instances: map<Channel, seq<InstanceState>>, ch: Channel): seq<InstanceState>
  {
    if ch in instances then instances[ch] else []
  }

  /** The fields of `AudioOutput` other than the manager, and the log of calls sent to Kira. */
  datatype OutputState = OutputState(
    instances: map<Channel, seq<InstanceState>>,
    channels: map<Channel, ChannelState>,
    sent: seq<KiraCall>)

  // ---------------------------------------------------------------------
  // Broadcasting a command to the instances of a channel

  /** The loop sends to this instance: to every one, or to those in the state `only`. */
  predicate Targeted(inst: InstanceState, only: Option<KiraState>, kira: Kira) {
    only.None? || kira.state(inst.kira) == only.value
  }

  /** The calls a loop over `insts` makes: `op` to each targeted instance, in order. */
  function Broadcast(insts: seq<InstanceState>, op: KiraOp, only: Option<KiraState>, kira: Kira): seq<KiraCall>
    decreases |insts|
  {
    if insts == [] then []
    else
      var n := |insts| - 1;
      Broadcast(insts[..n], op, only, kira) +
        (if Targeted(insts[n], only, kira) then [KiraCall(insts[n].kira, op)] else [])
  }

  /** Broadcasting over two runs of instances is broadcasting over each in turn. */
  lemma {:induction false} BroadcastAppend(a: seq<InstanceState>, b: seq<InstanceState>, op: KiraOp, only: Option<KiraState>, kira: Kira)
    ensures Broadcast(a + b, op, only, kira) == Broadcast(a, op, only, kira) + Broadcast(b, op, only, kira)
    decreases |b|
  {
    if b != [] {
      var n := |b| - 1;
      assert (a + b)[..|a + b| - 1] == a + b[..n];
      assert (a + b)[|a + b| - 1] == b[n];
      BroadcastAppend(a, b[..n], op, only, kira);
    } else {
      assert a + b == a;
    }
  }

  /** Without a filter every instance is sent the command, once and in order. */
  lemma {:induction false} BroadcastToAll(insts: seq<InstanceState>, op: KiraOp, kira: Kira)
    ensures Broadcast(insts, op, None, kira) == seq(|insts|, i requires 0 <= i < |insts| => KiraCall(insts[i].kira, op))
    decreases |insts|
  {
    if insts != [] {
      BroadcastToAll(insts[..|insts| - 1], op, kira);
    }
  }

  /** The calls of a broadcast go exactly to the targeted instances, and all carry `op`. */
  lemma {:induction false} BroadcastTargets(insts: seq<InstanceState>, op: KiraOp, only: Option<KiraState>, kira: Kira)
    ensures forall c :: c in Broadcast(insts, op, only, kira) ==> c.op == op
    ensures forall c :: c in Broadcast(insts, op, only, kira) <==>
      c.op == op && exists i :: 0 <= i < |insts| && insts[i].kira == c.target && Targeted(insts[i], only, kira)
    decreases |insts|
  {
    if insts != [] {
      var n := |insts| - 1;
      BroadcastTargets(insts[..n], op, only, kira);
      forall c
        ensures c in Broadcast(insts, op, only, kira) <==>
          c.op == op && exists i :: 0 <= i < |insts| && insts[i].kira == c.target && Targeted(insts[i], only, kira)
      {
        if c.op == op && c.target == insts[n].kira && Targeted(insts[n], only, kira) {
          assert c == KiraCall(insts[n].kira, op);
        }
        if c.op == op && (exists i :: 0 <= i < n && insts[i].kira == c.target && Targeted(insts[i], only, kira)) {
          var i :| 0 <= i < n && insts[i].kira == c.target && Targeted(insts[i], only, kira);
          assert insts[..n][i] == insts[i];
        }
        if exists i :: 0 <= i < |insts| && insts[i].kira == c.target && Targeted(insts[i], only, kira) {
          var i :| 0 <= i < |insts| && insts[i].kira == c.target && Targeted(insts[i], only, kira);
          if i < n {
            assert insts[..n][i] == insts[i];
          }
        }
      }
    }
  }

  // ---------------------------------------------------------------------
  // The effect of each command on the output

  /** Stopping this instance finds Kira's command queue full. */
  predicate QueueFull(inst: InstanceState, tween: Option<Tween>, kira: Kira) {
    kira.send(KiraCall(inst.kira, StopOp(tween))) == Refused(CommandQueueFull)
  }

  /** The stop calls for a run of instances, in order. */
  function StopCalls(insts: seq<InstanceState>, tween: Option<Tween>): seq<KiraCall>
  {
    seq(|insts|, i requires 0 <= i < |insts| => KiraCall(insts[i].kira, StopOp(tween)))
  }

  /** The position of the first instance whose stop finds the queue full, or `|insts|` when there is none. */
  function FirstFull(insts: seq<InstanceState>, tween: Option<Tween>, kira: Kira): (r: nat)
    ensures r <= |insts|
    ensures r < |insts| ==> QueueFull(insts[r], tween, kira)
    ensures forall j :: 0 <= j < r ==> !QueueFull(insts[j], tween, kira)
    ensures r < |insts| <==> exists j :: 0 <= j < |insts| && QueueFull(insts[j], tween, kira)
    decreases |insts|
  {
    if insts == [] then 0
    else if QueueFull(insts[0], tween, kira) then 0
    else
      var k := FirstFull(insts[1..], tween, kira);
      assert forall j :: 1 <= j < |insts| ==> insts[j] == insts[1..][j - 1];
      1 + k
  }

  /**
   * `stop`: every instance of the channel is sent a stop, in order, until one
   * finds the queue full; then the command is to be retried.
   */
  function StopSpec(s: OutputState, ch: Channel, tween: Option<Tween>, kira: Kira): (OutputState, AudioCommandResult)
  {
    var insts := InstancesOf(s.instances, ch);
    var k := FirstFull(insts, tween, kira);
    if k < |insts| then (s.(sent := s.sent + StopCalls(insts[..k + 1], tween)), Retry)
    else (s.(sent := s.sent + StopCalls(insts, tween)), Ok)
  }

  /** `pause`: playing instances are paused and the channel is marked paused. */
  function PauseSpec(s: OutputState, ch: Channel, tween: Option<Tween>, kira: Kira): OutputState
  {
    s.(channels := s.channels[ch := ChannelOf(s.channels, ch).(paused := true)],
       sent := s.sent + Broadcast(InstancesOf(s.instances, ch), PauseOp(tween), Some(KPlaying), kira))
  }

  /** `resume`: paused instances are resumed and the channel is no longer paused. */
  function ResumeSpec(s: OutputState, ch: Channel, tween: Option<Tween>, kira: Kira): OutputState
  {
    s.(channels := s.channels[ch := ChannelOf(s.channels, ch).(paused := false)],
       sent := s.sent + Broadcast(InstancesOf(s.instances, ch), ResumeOp(tween), Some(KPaused), kira))
  }

  /** `set_volume`: every instance gets the volume, and the channel remembers it. */
  function SetVolumeSpec(s: OutputState, ch: Channel, volume: real, tween: Option<Tween>, kira: Kira): OutputState
  {
    s.(channels := s.channels[ch := ChannelOf(s.channels, ch).(volume := volume)],
       sent := s.sent + Broadcast(InstancesOf(s.instances, ch), SetVolumeOp(volume, tween), None, kira))
  }

  /** `set_panning`: every instance gets the panning, and the channel remembers it. */
  function SetPanningSpec(s: OutputState, ch: Channel, panning: real, tween: Option<Tween>, kira: Kira): OutputState
  {
    s.(channels := s.channels[ch := ChannelOf(s.channels, ch).(panning := panning)],
       sent := s.sent + Broadcast(InstancesOf(s.instances, ch), SetPanningOp(panning, tween), None, kira))
  }

  /** `set_playback_rate`: every instance gets the rate, and the channel remembers it. */
  function SetPlaybackRateSpec(s: OutputState, ch: Channel, rate: real, tween: Option<Tween>, kira: Kira): OutputState
  {
    s.(channels := s.channels[ch := ChannelOf(s.channels, ch).(playbackRate := rate)],
       sent := s.sent + Broadcast(InstancesOf(s.instances, ch), SetPlaybackRateOp(rate, tween), None, kira))
  }

  /**
   * The sound `play` hands to Kira: the source's data with the channel's
   * recorded settings, if any (at rate zero while the channel is paused),
   * and the play's own overrides.
   */
  function Request(channels: map<Channel, ChannelState>, ch: Channel, partial: PartialSoundSettings, source: AudioSource): SoundRequest
  {
    var applied :=
      if ch in channels then
        var cs := channels[ch];
        Some(AppliedSettings(cs.volume, if cs.paused then 0.0 else cs.playbackRate, cs.panning))
      else None;
    SoundRequest(source.sound, applied, partial)
  }

  /**
   * The playback rate a requested sound starts at: the play's own rate, else
   * the channel's, else (`None`) the rate stored with the sound. The channel's
   * settings are applied first and the play's overrides after them.
   */
  function StartRate(req: SoundRequest): Option<real>
  {
    if req.partial.playbackRate.Some? then req.partial.playbackRate
    else if req.channel.Some? then Some(req.channel.value.playbackRate)
    else None
  }

  /** On a paused channel, a new sound is paused and then given back its playback rate. */
  function PausedChannelCalls(channels: map<Channel, ChannelState>, ch: Channel, partial: PartialSoundSettings, k: KiraId): seq<KiraCall>
  {
    if ch in channels && channels[ch].paused then
      [KiraCall(k, PauseOp(None)),
       KiraCall(k, SetPlaybackRateOp(partial.playbackRate.GetOr(channels[ch].playbackRate), None))]
    else []
  }

  /** `play`: a sound Kira refuses changes nothing; a played one joins the channel's instances. */
  function PlaySpec(s: OutputState, ch: Channel, partial: PartialSoundSettings, source: AudioSource, handle: InstanceHandle, kira: Kira): OutputState
  {
    match kira.play(Request(s.channels, ch, partial, source))
    case PlayFailed => s
    case Played(k) =>
      s.(instances := s.instances[ch := InstancesOf(s.instances, ch) + [InstanceState(k, handle)]],
         sent := s.sent + PausedChannelCalls(s.channels, ch, partial, k))
  }

  /** `run_audio_command`: a play waits for its source to load; a stop may be retried; the rest always succeed. */
  function RunSpec(s: OutputState, cmd: AudioCommand, sources: map<SourceId, AudioSource>, ch: Channel, kira: Kira)
    : (OutputState, AudioCommandResult)
  {
    match cmd
    case Play(args) =>
      if args.source in sources then (PlaySpec(s, ch, args.settings, sources[args.source], args.instanceHandle, kira), Ok)
      else (s, Retry)
    case Stop(tween) => StopSpec(s, ch, tween, kira)
    case Pause(tween) => (PauseSpec(s, ch, tween, kira), Ok)
    case Resume(tween) => (ResumeSpec(s, ch, tween, kira), Ok)
    case SetVolume(volume, tween) => (SetVolumeSpec(s, ch, volume, tween, kira), Ok)
    case SetPanning(panning, tween) => (SetPanningSpec(s, ch, panning, tween, kira), Ok)
    case SetPlaybackRate(rate, tween) => (SetPlaybackRateSpec(s, ch, rate, tween, kira), Ok)
  }

  /** Running commands one after the other, first to last: the final state and each command's result. */
  function RunBatch(s: OutputState, cmds: seq<AudioCommand>, sources: map<SourceId, AudioSource>, ch: Channel, kira: Kira)
    : (r: (OutputState, seq<AudioCommandResult>))
    ensures |r.1| == |cmds|
    decreases |cmds|, 1
  {
    if cmds == [] then (s, []) else RunNonEmpty(s, cmds, sources, ch, kira)
  }

  /** A batch with at least one command: the first command, then the rest from the state it leaves. */
  function RunNonEmpty(s: OutputState, cmds: seq<AudioCommand>, sources: map<SourceId, AudioSource>, ch: Channel, kira: Kira)
    : (r: (OutputState, seq<AudioCommandResult>))
    requires cmds != []
    ensures |r.1| == |cmds|
    decreases |cmds|, 0
  {
    var step := RunSpec(s, cmds[0], sources, ch, kira);
    var rest := RunBatch(step.0, cmds[1..], sources, ch, kira);
    (rest.0, [step.1] + rest.1)
  }

  /** The first command of a batch runs first, the others from the state it leaves. */
  lemma RunBatchCons(s: OutputState, cmds: seq<AudioCommand>, sources: map<SourceId, AudioSource>, ch: Channel, kira: Kira)
    requires cmds != []
    ensures var step := RunSpec(s, cmds[0], sources, ch, kira);
      var rest := RunBatch(step.0, cmds[1..], sources, ch, kira);
      RunBatch(s, cmds, sources, ch, kira) == (rest.0, [step.1] + rest.1)
  {
  }

  /** The commands whose result was `Retry`, in their original order. */
  function Retried(cmds: seq<AudioCommand>, results: seq<AudioCommandResult>): seq<AudioCommand>
    requires |results| == |cmds|
    decreases |cmds|
  {
    if cmds == [] then []
    else
      var n := |cmds| - 1;
      Retried(cmds[..n], results[..n]) + (if results[n] == Retry then [cmds[n]] else [])
  }

  /** The list `play_channel` collects: the retried commands, forgotten at every `Stop`. */
  function RetriedSinceStop(cmds: seq<AudioCommand>, results: seq<AudioCommandResult>): seq<AudioCommand>
    requires |results| == |cmds|
    decreases |cmds|
  {
    if cmds == [] then []
    else
      var n := |cmds| - 1;
      var kept := if cmds[n].Stop? then [] else RetriedSinceStop(cmds[..n], results[..n]);
      kept + (if results[n] == Retry then [cmds[n]] else [])
  }

  /** One more command with its result at the end. */
  lemma RetriedStep(cmds: seq<AudioCommand>, results: seq<AudioCommandResult>, c: AudioCommand, r: AudioCommandResult)
    requires |results| == |cmds|
    ensures Retried(cmds + [c], results + [r]) == Retried(cmds, results) + (if r == Retry then [c] else [])
  {
    assert (cmds + [c])[..|cmds|] == cmds;
    assert (results + [r])[..|cmds|] == results;
  }

  /** One more command with its result at the end, for the list `play_channel` keeps. */
  lemma RetriedSinceStopStep(cmds: seq<AudioCommand>, results: seq<AudioCommandResult>, c: AudioCommand, r: AudioCommandResult)
    requires |results| == |cmds|
    ensures RetriedSinceStop(cmds + [c], results + [r]) ==
      (if c.Stop? then [] else RetriedSinceStop(cmds, results)) + (if r == Retry then [c] else [])
  {
    assert (cmds + [c])[..|cmds|] == cmds;
    assert (results + [r])[..|cmds|] == results;
  }

  /** The deque after requeueing at the front: one more command with its result. */
  lemma RequeueStep(cmds: seq<AudioCommand>, results: seq<AudioCommandResult>, c: AudioCommand, r: AudioCommandResult)
    requires |results| == |cmds|
    ensures Reverse(Retried(cmds + [c], results + [r])) == (if r == Retry then [c] else []) + Reverse(Retried(cmds, results))
  {
    RetriedStep(cmds, results, c, r);
    ReverseAppend(Retried(cmds, results), if r == Retry then [c] else []);
    assert Reverse([c]) == [c];
  }

  // ---------------------------------------------------------------------
  // Properties of the command specifications

  /** A command is retried exactly when its source is not loaded yet, or when it is a stop that found Kira's queue full. */
  lemma RetryConditions(s: OutputState, cmd: AudioCommand, sources: map<SourceId, AudioSource>, ch: Channel, kira: Kira)
    ensures RunSpec(s, cmd, sources, ch, kira).1 == Retry <==>
      (cmd.Play? && cmd.args.source !in sources) ||
      (cmd.Stop? && exists j :: 0 <= j < |InstancesOf(s.instances, ch)| && QueueFull(InstancesOf(s.instances, ch)[j], cmd.tween, kira))
    ensures RunSpec(s, cmd, sources, ch, kira).1 == Retry && cmd.Play? ==> RunSpec(s, cmd, sources, ch, kira).0 == s
  {
  }

  /** A stop never touches instances or settings; it sends stops to a prefix of the channel's instances. */
  lemma StopSendsPrefix(s: OutputState, ch: Channel, tween: Option<Tween>, kira: Kira)
    ensures var (t, res) := StopSpec(s, ch, tween, kira);
      t.instances == s.instances && t.channels == s.channels &&
      exists k :: 0 <= k <= |InstancesOf(s.instances, ch)| &&
        t.sent == s.sent + StopCalls(InstancesOf(s.instances, ch)[..k], tween) &&
        (res == Ok <==> k == |InstancesOf(s.instances, ch)| && forall j :: 0 <= j < k ==> !QueueFull(InstancesOf(s.instances, ch)[j], tween, kira))
  {
    var insts := InstancesOf(s.instances, ch);
    var k := FirstFull(insts, tween, kira);
    if k < |insts| {
      assert StopSpec(s, ch, tween, kira).0.sent == s.sent + StopCalls(insts[..k + 1], tween);
    } else {
      assert insts[..k] == insts;
    }
  }

  /** Pausing and then resuming a channel leaves its settings as they were (the defaults now recorded). */
  lemma PauseResumeSettings(s: OutputState, ch: Channel, t1: Option<Tween>, t2: Option<Tween>, kira: Kira)
    ensures ResumeSpec(PauseSpec(s, ch, t1, kira), ch, t2, kira).channels ==
      s.channels[ch := ChannelOf(s.channels, ch).(paused := false)]
    ensures ch in s.channels && !s.channels[ch].paused ==>
      ResumeSpec(PauseSpec(s, ch, t1, kira), ch, t2, kira).channels == s.channels
  {
  }

  /** A setting command changes one field of one channel's settings and no instance. */
  lemma SettingsTouchOneChannel(s: OutputState, ch: Channel, other: Channel, v: real, tween: Option<Tween>, kira: Kira)
    requires other != ch
    ensures ChannelOf(SetVolumeSpec(s, ch, v, tween, kira).channels, ch) == ChannelOf(s.channels, ch).(volume := v)
    ensures ChannelOf(SetPanningSpec(s, ch, v, tween, kira).channels, ch) == ChannelOf(s.channels, ch).(panning := v)
    ensures ChannelOf(SetPlaybackRateSpec(s, ch, v, tween, kira).channels, ch) == ChannelOf(s.channels, ch).(playbackRate := v)
    ensures ChannelOf(SetVolumeSpec(s, ch, v, tween, kira).channels, other) == ChannelOf(s.channels, other)
    ensures ChannelOf(SetPanningSpec(s, ch, v, tween, kira).channels, other) == ChannelOf(s.channels, other)
    ensures ChannelOf(SetPlaybackRateSpec(s, ch, v, tween, kira).channels, other) == ChannelOf(s.channels, other)
    ensures ChannelOf(PauseSpec(s, ch, tween, kira).channels, other) == ChannelOf(s.channels, other)
    ensures ChannelOf(ResumeSpec(s, ch, tween, kira).channels, other) == ChannelOf(s.channels, other)
    ensures SetVolumeSpec(s, ch, v, tween, kira).instances == s.instances
    ensures SetPanningSpec(s, ch, v, tween, kira).instances == s.instances
    ensures SetPlaybackRateSpec(s, ch, v, tween, kira).instances == s.instances
    ensures PauseSpec(s, ch, tween, kira).instances == s.instances
    ensures ResumeSpec(s, ch, tween, kira).instances == s.instances
  {
  }

  /**
   * A play adds at most one instance, at the end of its channel's list, and
   * changes no setting and no other channel's instances.
   */
  lemma PlayAddsOneInstance(s: OutputState, ch: Channel, other: Channel, partial: PartialSoundSettings, source: AudioSource, handle: InstanceHandle, kira: Kira)
    requires other != ch
    ensures var t := PlaySpec(s, ch, partial, source, handle, kira);
      t.channels == s.channels &&
      InstancesOf(t.instances, other) == InstancesOf(s.instances, other) &&
      match kira.play(Request(s.channels, ch, partial, source))
      case PlayFailed => t == s
      case Played(k) => InstancesOf(t.instances, ch) == InstancesOf(s.instances, ch) + [InstanceState(k, handle)]
  {
  }

  /**
   * On a paused channel the channel part of the request has rate zero, and a
   * played sound is then paused and given its rate back. Only a play without
   * its own rate starts silent: a play's own rate is applied after the
   * channel's and is the rate the sound starts at.
   */
  lemma PlayOnPausedChannel(s: OutputState, ch: Channel, partial: PartialSoundSettings, source: AudioSource, handle: InstanceHandle, kira: Kira, k: KiraId)
    requires ch in s.channels && s.channels[ch].paused
    requires kira.play(Request(s.channels, ch, partial, source)) == Played(k)
    ensures Request(s.channels, ch, partial, source).channel.value.playbackRate == 0.0
    ensures partial.playbackRate.None? ==> StartRate(Request(s.channels, ch, partial, source)) == Some(0.0)
    ensures partial.playbackRate.Some? ==> StartRate(Request(s.channels, ch, partial, source)) == partial.playbackRate
    ensures PlaySpec(s, ch, partial, source, handle, kira).sent ==
      s.sent + [KiraCall(k, PauseOp(None)), KiraCall(k, SetPlaybackRateOp(partial.playbackRate.GetOr(s.channels[ch].playbackRate), None))]
  {
  }

  /** Retrying distributes over concatenation, so the retried commands keep their relative order. */
  lemma {:induction false} RetriedAppend(a: seq<AudioCommand>, ra: seq<AudioCommandResult>, b: seq<AudioCommand>, rb: seq<AudioCommandResult>)
    requires |ra| == |a| && |rb| == |b|
    ensures Retried(a + b, ra + rb) == Retried(a, ra) + Retried(b, rb)
    decreases |b|
  {
    if b == [] {
      assert a + b == a && ra + rb == ra;
    } else {
      var n := |b| - 1;
      assert (a + b)[..|a| + n] == a + b[..n];
      assert (ra + rb)[..|a| + n] == ra + rb[..n];
      assert (a + b)[|a| + n] == b[n] && (ra + rb)[|a| + n] == rb[n];
      RetriedAppend(a, ra, b[..n], rb[..n]);
    }
  }

  /** A command is among the retried ones exactly when some occurrence of it returned `Retry`. */
  lemma {:induction false} RetriedMembers(cmds: seq<AudioCommand>, results: seq<AudioCommandResult>)
    requires |results| == |cmds|
    ensures forall c :: c in Retried(cmds, results) <==> exists i :: 0 <= i < |cmds| && cmds[i] == c && results[i] == Retry
    decreases |cmds|
  {
    if cmds != [] {
      var n := |cmds| - 1;
      RetriedMembers(cmds[..n], results[..n]);
      forall c
        ensures c in Retried(cmds, results) <==> exists i :: 0 <= i < |cmds| && cmds[i] == c && results[i] == Retry
      {
        if exists i :: 0 <= i < |cmds| && cmds[i] == c && results[i] == Retry {
          var i :| 0 <= i < |cmds| && cmds[i] == c && results[i] == Retry;
          if i < n {
            assert cmds[..n][i] == c && results[..n][i] == Retry;
          }
        }
        if c in Retried(cmds[..n], results[..n]) {
          var i :| 0 <= i < n && cmds[..n][i] == c && results[..n][i] == Retry;
          assert cmds[i] == c && results[i] == Retry;
        }
      }
    }
  }

  /** Without a stop among the commands, `play_channel` keeps every retried command. */
  lemma {:induction false} NoStopKeepsAllRetries(cmds: seq<AudioCommand>, results: seq<AudioCommandResult>)
    requires |results| == |cmds|
    requires forall i :: 0 <= i < |cmds| ==> !cmds[i].Stop?
    ensures RetriedSinceStop(cmds, results) == Retried(cmds, results)
    decreases |cmds|
  {
    if cmds != [] {
      NoStopKeepsAllRetries(cmds[..|cmds| - 1], results[..|cmds| - 1]);
    }
  }

  /**
   * A stop forgets the retries before it: with the last stop at `j`,
   * `play_channel` keeps exactly the retried commands from `j` on, the stop
   * itself included when it was retried.
   */
  lemma {:induction false} StopForgetsEarlierRetries(cmds: seq<AudioCommand>, results: seq<AudioCommandResult>, j: nat)
    requires |results| == |cmds|
    requires j < |cmds| && cmds[j].Stop?
    requires forall i :: j < i < |cmds| ==> !cmds[i].Stop?
    ensures RetriedSinceStop(cmds, results) == Retried(cmds[j..], results[j..])
    decreases |cmds|
  {
    var n := |cmds| - 1;
    if n == j {
      assert cmds[j..] == [cmds[j]] && results[j..] == [results[j]];
      assert [cmds[j]][..0] == [];
    } else {
      StopForgetsEarlierRetries(cmds[..n], results[..n], j);
      assert cmds[..n][j..] == cmds[j..][..n - j];
      assert results[..n][j..] == results[j..][..n - j];
    }
  }

  /** A command that leaves the state as it is: the rest of the batch runs from the same state. */
  lemma UnchangedStep(s: OutputState, c: AudioCommand, rest: seq<AudioCommand>, sources: map<SourceId, AudioSource>,
                      ch: Channel, kira: Kira, res: AudioCommandResult)
    requires RunSpec(s, c, sources, ch, kira) == (s, res)
    ensures RunBatch(s, [c] + rest, sources, ch, kira) ==
      (RunBatch(s, rest, sources, ch, kira).0, [res] + RunBatch(s, rest, sources, ch, kira).1)
  {
    assert ([c] + rest)[0] == c && ([c] + rest)[1..] == rest;
    RunBatchCons(s, [c] + rest, sources, ch, kira);
  }

  /** Two plays without loaded sources: both are retried and nothing changes. */
  lemma TwoUnloadedPlays(s: OutputState, one: PlayAudioSettings, two: PlayAudioSettings, ch: Channel, kira: Kira)
    ensures RunBatch(s, [Play(one), Play(two)], map[], ch, kira) == (s, [Retry, Retry])
  {
    UnchangedStep(s, Play(two), [], map[], ch, kira, Retry);
    assert [Play(two)] + [] == [Play(two)] && [Retry] + [] == [Retry];
    UnchangedStep(s, Play(one), [Play(two)], map[], ch, kira, Retry);
    assert [Play(one)] + [Play(two)] == [Play(one), Play(two)] && [Retry] + [Retry] == [Retry, Retry];
  }

  /** Two plays whose sources are not loaded are both retried and come back in the order they were queued. */
  lemma KeepsOrderOfCommandsToRetry(s: OutputState, one: PlayAudioSettings, two: PlayAudioSettings, ch: Channel, kira: Kira)
    ensures var queue := [Play(two), Play(one)];
      var batch := RunBatch(s, Reverse(queue), map[], ch, kira);
      batch.0 == s && Reverse(RetriedSinceStop(Reverse(queue), batch.1)) == queue
  {
    var queue := [Play(two), Play(one)];
    ReverseIndex(queue);
    assert Reverse(queue) == [Play(one), Play(two)];
    TwoUnloadedPlays(s, one, two, ch, kira);
    RetriedSinceStopStep([], [], Play(one), Retry);
    assert [] + [Play(one)] == [Play(one)] && [] + [Retry] == [Retry];
    RetriedSinceStopStep([Play(one)], [Retry], Play(two), Retry);
    assert [Play(one)] + [Play(two)] == [Play(one), Play(two)];
    assert [Retry] + [Retry] == [Retry, Retry];
    ReverseIndex([Play(one), Play(two)]);
    assert Reverse([Play(one), Play(two)]) == queue;
  }

  /** An unloaded play, a stop on a channel without instances, another unloaded play. */
  lemma PlayStopPlayUnloaded(s: OutputState, one: PlayAudioSettings, two: PlayAudioSettings, ch: Channel, kira: Kira)
    requires InstancesOf(s.instances, ch) == []
    ensures RunBatch(s, [Play(one), Stop(None), Play(two)], map[], ch, kira) == (s, [Retry, Ok, Retry])
  {
    assert StopCalls([], None) == [];
    assert s.(sent := s.sent + []) == s;
    assert RunSpec(s, Stop(None), map[], ch, kira) == (s, Ok);
    UnchangedStep(s, Play(two), [], map[], ch, kira, Retry);
    assert [Play(two)] + [] == [Play(two)] && [Retry] + [] == [Retry];
    UnchangedStep(s, Stop(None), [Play(two)], map[], ch, kira, Ok);
    assert [Stop(None)] + [Play(two)] == [Stop(None), Play(two)] && [Ok] + [Retry] == [Ok, Retry];
    UnchangedStep(s, Play(one), [Stop(None), Play(two)], map[], ch, kira, Retry);
    assert [Play(one)] + [Stop(None), Play(two)] == [Play(one), Stop(None), Play(two)];
    assert [Retry] + [Ok, Retry] == [Retry, Ok, Retry];
  }

  /** A stop between two unloaded plays removes the earlier play; only the later one stays queued. */
  lemma StopCommandRemovesPreviousPlayCommands(s: OutputState, one: PlayAudioSettings, two: PlayAudioSettings, ch: Channel, kira: Kira)
    requires InstancesOf(s.instances, ch) == []
    ensures var queue := [Play(two), Stop(None), Play(one)];
      var batch := RunBatch(s, Reverse(queue), map[], ch, kira);
      batch.0 == s && Reverse(RetriedSinceStop(Reverse(queue), batch.1)) == [Play(two)]
  {
    var queue := [Play(two), Stop(None), Play(one)];
    var order := [Play(one), Stop(None), Play(two)];
    ReverseIndex(queue);
    assert Reverse(queue) == order;
    PlayStopPlayUnloaded(s, one, two, ch, kira);
    assert order == [Play(one), Stop(None)] + [Play(two)];
    assert [Retry, Ok, Retry] == [Retry, Ok] + [Retry];
    RetriedSinceStopStep([Play(one), Stop(None)], [Retry, Ok], Play(two), Retry);
    assert [Play(one), Stop(None)] == [Play(one)] + [Stop(None)] && [Retry, Ok] == [Retry] + [Ok];
    RetriedSinceStopStep([Play(one)], [Retry], Stop(None), Ok);
  }

  /** The instances `cleanup_stopped_instances` keeps: those Kira does not report stopped, in order. */
  function Live(insts: seq<InstanceState>, kira: Kira): seq<InstanceState>
    decreases |insts|
  {
    if insts == [] then []
    else
      var n := |insts| - 1;
      Live(insts[..n], kira) + (if kira.state(insts[n].kira) != KStopped then [insts[n]] else [])
  }

  /** Cleanup keeps exactly the instances that are not stopped. */
  lemma {:induction false} LiveMembers(insts: seq<InstanceState>, kira: Kira)
    ensures forall x :: x in Live(insts, kira) <==> x in insts && kira.state(x.kira) != KStopped
    decreases |insts|
  {
    if insts != [] {
      var n := |insts| - 1;
      LiveMembers(insts[..n], kira);
      assert insts == insts[..n] + [insts[n]];
    }
  }

  /** Cleanup preserves order: it distributes over concatenation. */
  lemma {:induction false} LiveAppend(a: seq<InstanceState>, b: seq<InstanceState>, kira: Kira)
    ensures Live(a + b, kira) == Live(a, kira) + Live(b, kira)
    decreases |b|
  {
    if b == [] {
      assert a + b == a;
    } else {
      var n := |b| - 1;
      assert (a + b)[..|a| + n] == a + b[..n];
      assert (a + b)[|a| + n] == b[n];
      LiveAppend(a, b[..n], kira);
    }
  }

  /** Cleaning up twice is cleaning up once. */
  lemma {:induction false} LiveIdempotent(insts: seq<InstanceState>, kira: Kira)
    ensures Live(Live(insts, kira), kira) == Live(insts, kira)
    decreases |insts|
  {
    if insts != [] {
      var n := |insts| - 1;
      LiveIdempotent(insts[..n], kira);
      var tail := if kira.state(insts[n].kira) != KStopped then [insts[n]] else [];
      LiveAppend(Live(insts[..n], kira), tail, kira);
      if tail != [] {
        assert tail[..0] == [];
      }
    }
  }

  /** The state `update_instance_states` records for one instance. */
  function View(inst: InstanceState, kira: Kira): PlaybackState
  {
    FromKira(kira.state(inst.kira), kira.position(inst.kira))
  }

  /** The state map rebuilt from a channel's instances; a later instance with the same handle wins. */
  function StatesOf(insts: seq<InstanceState>, kira: Kira): map<InstanceHandle, PlaybackState>
    decreases |insts|
  {
    if insts == [] then map[]
    else
      var n := |insts| - 1;
      StatesOf(insts[..n], kira)[insts[n].handle := View(insts[n], kira)]
  }

  /** The rebuilt map has an entry for exactly the handles of the instances. */
  lemma {:induction false} StatesOfKeys(insts: seq<InstanceState>, kira: Kira)
    ensures forall h :: h in StatesOf(insts, kira) <==> exists i :: 0 <= i < |insts| && insts[i].handle == h
    decreases |insts|
  {
    if insts != [] {
      var n := |insts| - 1;
      StatesOfKeys(insts[..n], kira);
      forall h
        ensures h in StatesOf(insts, kira) <==> exists i :: 0 <= i < |insts| && insts[i].handle == h
      {
        if h in StatesOf(insts[..n], kira) {
          var i :| 0 <= i < n && insts[..n][i].handle == h;
          assert insts[i].handle == h;
        }
        if exists i :: 0 <= i < |insts| && insts[i].handle == h {
          var i :| 0 <= i < |insts| && insts[i].handle == h;
          if i < n {
            assert insts[..n][i].handle == h;
          }
        }
      }
    }
  }

  /** The entry of a handle is the state of the last instance with that handle. */
  lemma {:induction false} StatesOfLastWins(insts: seq<InstanceState>, i: nat, kira: Kira)
    requires i < |insts|
    requires forall j :: i < j < |insts| ==> insts[j].handle != insts[i].handle
    ensures insts[i].handle in StatesOf(insts, kira) && StatesOf(insts, kira)[insts[i].handle] == View(insts[i], kira)
    decreases |insts|
  {
    var n := |insts| - 1;
    if i < n {
      var prefix := insts[..n];
      assert prefix[i] == insts[i];
      assert forall j :: i < j < n ==> prefix[j] == insts[j];
      StatesOfLastWins(prefix, i, kira);
    }
  }

  /** `play_dynamic_channels`: each visited channel's commands run in turn, the state flowing from one channel to the next. */
  function RunChannels(s: OutputState, order: seq<string>, queues: map<string, seq<AudioCommand>>, sources: map<SourceId, AudioSource>, kira: Kira)
    : (r: (OutputState, map<string, seq<AudioCommandResult>>))
    requires forall i :: 0 <= i < |order| ==> order[i] in queues
    ensures forall j :: 0 <= j < |order| ==> order[j] in r.1
    ensures forall k :: k in r.1 ==> k in order && |r.1[k]| == |queues[k]|
    decreases |order|
  {
    if order == [] then (s, map[])
    else
      var n := |order| - 1;
      var prev := RunChannels(s, order[..n], queues, sources, kira);
      var batch := RunBatch(prev.0, Reverse(queues[order[n]]), sources, Dynamic(order[n]), kira);
      assert forall k :: k in order <==> k in order[..n] || k == order[n];
      (batch.0, prev.1[order[n] := batch.1])
  }

  /** No key occurs twice: every key that joins the sequence is new to it. */
  predicate Distinct(order: seq<string>)
    decreases |order|
  {
    order == [] || (Distinct(order[..|order| - 1]) && order[|order| - 1] !in order[..|order| - 1])
  }

  /** In a `Distinct` sequence no key occurs before its own position. */
  lemma {:induction false} DistinctAt(order: seq<string>, i: nat)
    requires Distinct(order) && i < |order|
    ensures order[i] !in order[..i]
  {
    var n := |order| - 1;
    if i < n {
      DistinctAt(order[..n], i);
      assert order[..n][..i] == order[..i] && order[..n][i] == order[i];
    }
  }

  /** `Distinct` means that no two positions hold the same key. */
  lemma DistinctMeans(order: seq<string>)
    requires Distinct(order)
    ensures forall i, j :: 0 <= i < j < |order| ==> order[i] != order[j]
  {
    forall i, j | 0 <= i < j < |order|
      ensures order[i] != order[j]
    {
      DistinctAt(order, j);
      assert order[i] == order[..j][i];
    }
  }

  /** The keys of the registry, each exactly once: the order a hash map visits them in. */
  predicate IsVisitOrder(order: seq<string>, keys: set<string>) {
    (forall k :: k in keys ==> k in order) &&
    (forall i :: 0 <= i < |order| ==> order[i] in keys) &&
    Distinct(order)
  }

  /** The deques after `play_dynamic_channels` has visited the channels in `results`, the others untouched. */
  function Requeued(queues: map<string, seq<AudioCommand>>, results: map<string, seq<AudioCommandResult>>)
    : (r: map<string, seq<AudioCommand>>)
    requires forall k :: k in results ==> k in queues && |results[k]| == |queues[k]|
    ensures r.Keys == queues.Keys
    ensures forall k :: k in queues && k !in results ==> r[k] == queues[k]
    ensures forall k :: k in results ==> r[k] == Reverse(Retried(Reverse(queues[k]), results[k]))
  {
    map k | k in queues :: if k in results then Reverse(Retried(Reverse(queues[k]), results[k])) else queues[k]
  }

  /** Visiting one more channel replaces its deque and nothing else. */
  lemma RequeuedVisit(queues: map<string, seq<AudioCommand>>, results: map<string, seq<AudioCommandResult>>,
                      key: string, r: seq<AudioCommandResult>)
    requires forall k :: k in results ==> k in queues && |results[k]| == |queues[k]|
    requires key in queues && |r| == |queues[key]|
    ensures Requeued(queues, results[key := r]) ==
      Requeued(queues, results)[key := Reverse(Retried(Reverse(queues[key]), r))]
  {
  }

  /** Visiting one more channel runs its batch from the state the earlier channels left. */
  lemma RunChannelsStep(s: OutputState, order: seq<string>, i: nat, queues: map<string, seq<AudioCommand>>,
                        sources: map<SourceId, AudioSource>, kira: Kira)
    requires i < |order|
    requires forall j :: 0 <= j < |order| ==> order[j] in queues
    requires order[i] !in order[..i]
    ensures var prev := RunChannels(s, order[..i], queues, sources, kira);
      var batch := RunBatch(prev.0, Reverse(queues[order[i]]), sources, Dynamic(order[i]), kira);
      order[i] !in prev.1 &&
      RunChannels(s, order[..i + 1], queues, sources, kira) == (batch.0, prev.1[order[i] := batch.1])
  {
    assert order[..i + 1][..i] == order[..i] && order[..i + 1][i] == order[i];
  }

  /** A command added with `que` is served after every command already queued. */
  lemma QueServedLast(queue: seq<AudioCommand>, c: AudioCommand)
    ensures Reverse([c] + queue) == Reverse(queue) + [c]
  {
    ReverseAppend([c], queue);
  }

  /**
   * The back of a deque made of a requeued front and the untouched commands
   * `Reverse(todo)` is the next command to serve, `todo[0]`.
   */
  lemma TakeNext(front: seq<AudioCommand>, todo: seq<AudioCommand>)
    requires todo != []
    ensures todo == [todo[0]] + todo[1..]
    ensures var deque := front + Reverse(todo);
      deque[|deque| - 1] == todo[0] && deque[..|deque| - 1] == front + Reverse(todo[1..])
  {
    assert Reverse(todo) == Reverse(todo[1..]) + [todo[0]];
    AppendAssoc(front, Reverse(todo[1..]), [todo[0]]);
  }

  /** A command to retry goes back to the front of the deque, extending its requeued part. */
  method RequeueIfRetry(deque: seq<AudioCommand>, c: AudioCommand, r: AudioCommandResult,
                        ghost requeued: seq<AudioCommand>, ghost rest: seq<AudioCommand>)
    returns (d: seq<AudioCommand>)
    requires deque == requeued + rest
    ensures d == ((if r == Retry then [c] else []) + requeued) + rest
  {
    d := deque;
    if r == Retry {
      d := [c] + d;
      AppendAssoc([c], requeued, rest);
    } else {
      assert [] + requeued == requeued;
    }
  }

  // ---------------------------------------------------------------------
  // The output itself

  class AudioOutput {
    /** Whether Kira's audio manager could be set up. */
    const hasManager: bool
    var instances: map<Channel, seq<InstanceState>>
    var channels: map<Channel, ChannelState>
    /** Every call sent to a Kira sound handle, in order. */
    ghost var sent: seq<KiraCall>

    ghost function Model(): OutputState
      reads this
    {
      OutputState(instances, channels, sent)
    }

    /** `from_world`: no instances and no channel settings yet. */
    constructor(hasManager: bool)
      ensures this.hasManager == hasManager
      ensures Model() == OutputState(map[], map[], [])
    {
      this.hasManager := hasManager;
      instances := map[];
      channels := map[];
      sent := [];
    }

    /** The loop shared by `pause`, `resume` and the setters: `op` to each targeted instance. */
    method SendAll(insts: seq<InstanceState>, op: KiraOp, only: Option<KiraState>, kira: Kira)
      modifies this
      ensures Model() == old(Model()).(sent := old(sent) + Broadcast(insts, op, only, kira))
    {
      for i := 0 to |insts|
        invariant Model() == old(Model()).(sent := old(sent) + Broadcast(insts[..i], op, only, kira))
      {
        assert insts[..i + 1][..i] == insts[..i];
        if Targeted(insts[i], only, kira) {
          sent := sent + [KiraCall(insts[i].kira, op)];
        }
      }
      assert insts[..|insts|] == insts;
    }

    method Stop(ch: Channel, tween: Option<Tween>, kira: Kira) returns (r: AudioCommandResult)
      modifies this
      ensures (Model(), r) == StopSpec(old(Model()), ch, tween, kira)
    {
      if ch in instances {
        var insts := instances[ch];
        ghost var k := FirstFull(insts, tween, kira);
        for i := 0 to |insts|
          invariant i <= k
          invariant Model() == old(Model()).(sent := old(sent) + StopCalls(insts[..i], tween))
        {
          var call := KiraCall(insts[i].kira, StopOp(tween));
          assert StopCalls(insts[..i + 1], tween) == StopCalls(insts[..i], tween) + [call];
          sent := sent + [call];
          if kira.send(call) == Refused(CommandQueueFull) {
            assert i == k;
            assert sent == old(sent) + StopCalls(insts[..k + 1], tween);
            assert StopSpec(old(Model()), ch, tween, kira) == (old(Model()).(sent := old(sent) + StopCalls(insts[..k + 1], tween)), Retry);
            return Retry;
          }
        }
        assert insts[..|insts|] == insts;
        assert k == |insts|;
        assert StopSpec(old(Model()), ch, tween, kira) == (old(Model()).(sent := old(sent) + StopCalls(insts, tween)), Ok);
      } else {
        assert InstancesOf(instances, ch) == [];
        assert StopCalls([], tween) == [] && sent + [] == sent;
        assert StopSpec(old(Model()), ch, tween, kira) == (old(Model()).(sent := old(sent) + []), Ok);
      }
      return Ok;
    }

    method Pause(ch: Channel, tween: Option<Tween>, kira: Kira)
      modifies this
      ensures Model() == PauseSpec(old(Model()), ch, tween, kira)
    {
      SendAll(InstancesOf(instances, ch), PauseOp(tween), Some(KPlaying), kira);
      if ch in channels {
        channels := channels[ch := channels[ch].(paused := true)];
      } else {
        channels := channels[ch := DefaultChannelState.(paused := true)];
      }
    }

    method Resume(ch: Channel, tween: Option<Tween>, kira: Kira)
      modifies this
      ensures Model() == ResumeSpec(old(Model()), ch, tween, kira)
    {
      SendAll(InstancesOf(instances, ch), ResumeOp(tween), Some(KPaused), kira);
      if ch in channels {
        channels := channels[ch := channels[ch].(paused := false)];
      } else {
        channels := channels[ch := DefaultChannelState];
      }
    }

    method SetVolume(ch: Channel, volume: real, tween: Option<Tween>, kira: Kira)
      modifies this
      ensures Model() == SetVolumeSpec(old(Model()), ch, volume, tween, kira)
    {
      SendAll(InstancesOf(instances, ch), SetVolumeOp(volume, tween), None, kira);
      if ch in channels {
        channels := channels[ch := channels[ch].(volume := volume)];
      } else {
        channels := channels[ch := DefaultChannelState.(volume := volume)];
      }
    }

    method SetPanning(ch: Channel, panning: real, tween: Option<Tween>, kira: Kira)
      modifies this
      ensures Model() == SetPanningSpec(old(Model()), ch, panning, tween, kira)
    {
      SendAll(InstancesOf(instances, ch), SetPanningOp(panning, tween), None, kira);
      if ch in channels {
        channels := channels[ch := channels[ch].(panning := panning)];
      } else {
        channels := channels[ch := DefaultChannelState.(panning := panning)];
      }
    }

    method SetPlaybackRate(ch: Channel, rate: real, tween: Option<Tween>, kira: Kira)
      modifies this
      ensures Model() == SetPlaybackRateSpec(old(Model()), ch, rate, tween, kira)
    {
      SendAll(InstancesOf(instances, ch), SetPlaybackRateOp(rate, tween), None, kira);
      if ch in channels {
        channels := channels[ch := channels[ch].(playbackRate := rate)];
      } else {
        channels := channels[ch := DefaultChannelState.(playbackRate := rate)];
      }
    }

    /** `play` unwraps the manager: it is only called once the manager is known to exist. */
    method Play(ch: Channel, partial: PartialSoundSettings, source: AudioSource, handle: InstanceHandle, kira: Kira)
      returns (r: AudioCommandResult)
      requires hasManager
      modifies this
      ensures r == Ok
      ensures Model() == PlaySpec(old(Model()), ch, partial, source, handle, kira)
    {
      var played := kira.play(Request(channels, ch, partial, source));
      if played.PlayFailed? {
        return Ok;
      }
      var k := played.handle;
      if ch in channels && channels[ch].paused {
        var rate := partial.playbackRate.GetOr(channels[ch].playbackRate);
        sent := sent + [KiraCall(k, PauseOp(None)), KiraCall(k, SetPlaybackRateOp(rate, None))];
      } else {
        assert sent == sent + [];
      }
      var state := InstanceState(k, handle);
      if ch in instances {
        instances := instances[ch := instances[ch] + [state]];
      } else {
        assert [state] == [] + [state];
        instances := instances[ch := [state]];
      }
      return Ok;
    }

    method RunAudioCommand(cmd: AudioCommand, sources: map<SourceId, AudioSource>, ch: Channel, kira: Kira)
      returns (r: AudioCommandResult)
      requires cmd.Play? && cmd.args.source in sources ==> hasManager
      modifies this
      ensures (Model(), r) == RunSpec(old(Model()), cmd, sources, ch, kira)
    {
      match cmd {
        case Play(args) =>
          if args.source in sources {
            r := Play(ch, args.settings, sources[args.source], args.instanceHandle, kira);
          } else {
            r := Retry;
          }
        case Stop(tween) =>
          r := Stop(ch, tween, kira);
        case Pause(tween) =>
          Pause(ch, tween, kira);
          r := Ok;
        case Resume(tween) =>
          Resume(ch, tween, kira);
          r := Ok;
        case SetVolume(volume, tween) =>
          SetVolume(ch, volume, tween, kira);
          r := Ok;
        case SetPanning(panning, tween) =>
          SetPanning(ch, panning, tween, kira);
          r := Ok;
        case SetPlaybackRate(rate, tween) =>
          SetPlaybackRate(ch, rate, tween, kira);
          r := Ok;
      }
    }

    /**
     * One queued command served. `whole` is the outcome of the entire batch,
     * known to be the results so far followed by what `[command] + later`
     * yields from the current state; afterwards it is the results so far,
     * this command's result, and what `later` yields from the new state.
     */
    method Serve(command: AudioCommand, ghost later: seq<AudioCommand>, ghost done: seq<AudioCommandResult>,
                 ghost whole: (OutputState, seq<AudioCommandResult>),
                 sources: map<SourceId, AudioSource>, ch: Channel, kira: Kira)
      returns (result: AudioCommandResult)
      requires hasManager
      requires var rest := RunBatch(Model(), [command] + later, sources, ch, kira);
        whole == (rest.0, done + rest.1)
      modifies this
      ensures var rest := RunBatch(Model(), later, sources, ch, kira);
        whole == (rest.0, (done + [result]) + rest.1)
    {
      assert ([command] + later)[0] == command && ([command] + later)[1..] == later;
      RunBatchCons(Model(), [command] + later, sources, ch, kira);
      result := RunAudioCommand(command, sources, ch, kira);
      AppendAssoc(done, [result], RunBatch(Model(), later, sources, ch, kira).1);
    }

    /**
     * The serving loop of `play_channel` on the locked deque: every command
     * is taken from the back and run; a stop forgets the commands to retry
     * collected so far; a command to retry is collected.
     */
    method ServeTyped(commands: seq<AudioCommand>, ch: Channel, sources: map<SourceId, AudioSource>, kira: Kira)
      returns (deque: seq<AudioCommand>, toRetry: seq<AudioCommand>, ghost results: seq<AudioCommandResult>)
      requires hasManager
      modifies this
      ensures deque == []
      ensures var batch := RunBatch(old(Model()), Reverse(commands), sources, ch, kira);
        Model() == batch.0 && results == batch.1
      ensures toRetry == RetriedSinceStop(Reverse(commands), results)
    {
      deque := commands;
      var len := |deque|;
      ghost var todo := Reverse(commands);
      ghost var done: seq<AudioCommand> := [];
      ghost var whole := RunBatch(Model(), todo, sources, ch, kira);
      toRetry := [];
      results := [];
      ReverseReverse(commands);
      assert [] + whole.1 == whole.1 && deque == [] + Reverse(todo);
      var i := 0;
      while i < len
        invariant i == |done| == |results| && |todo| == len - i
        invariant done + todo == Reverse(commands)
        invariant deque == Reverse(todo)
        invariant var rest := RunBatch(Model(), todo, sources, ch, kira);
          whole == (rest.0, results + rest.1)
        invariant toRetry == RetriedSinceStop(done, results)
      {
        TakeNext([], todo);
        var command := deque[|deque| - 1];
        deque := deque[..|deque| - 1];
        var result := Serve(command, todo[1..], results, whole, sources, ch, kira);
        RetriedSinceStopStep(done, results, command, result);
        if command.Stop? {
          toRetry := [];
        }
        if result == Retry {
          toRetry := toRetry + [command];
        }
        AppendAssoc(done, [command], todo[1..]);
        done := done + [command];
        todo := todo[1..];
        results := results + [result];
        i := i + 1;
      }
      assert done == Reverse(commands);
      assert results + [] == results;
    }

    /**
     * `play_channel`: the commands are served oldest first (from the back of
     * the deque); the ones to retry since the last stop go back to the front
     * so that they are served first, in their order, next frame.
     */
    method PlayChannel(sources: map<SourceId, AudioSource>, channel: TypedChannel.AudioChannel, kira: Kira)
      returns (ghost results: seq<AudioCommandResult>)
      modifies this, channel
      ensures channel.states == old(channel.states)
      ensures !hasManager ==> Model() == old(Model()) && channel.commands == old(channel.commands)
      ensures hasManager ==>
        var batch := RunBatch(old(Model()), Reverse(old(channel.commands)), sources, Typed(channel.typeId), kira);
        Model() == batch.0 && results == batch.1 &&
        channel.commands == Reverse(RetriedSinceStop(Reverse(old(channel.commands)), results))
    {
      results := [];
      if !hasManager {
        return;
      }
      var deque, toRetry;
      deque, toRetry, results := ServeTyped(channel.commands, Typed(channel.typeId), sources, kira);
      deque := PushFrontAll(deque, toRetry);
      assert deque == Reverse(toRetry) + [];
      channel.commands := deque;
    }

    /** The loop of `play_dynamic_channels` for one channel's deque: every retried command goes back to the front. */
    method ServeDynamic(commands: seq<AudioCommand>, ch: Channel, sources: map<SourceId, AudioSource>, kira: Kira)
      returns (deque: seq<AudioCommand>, ghost results: seq<AudioCommandResult>)
      requires hasManager
      modifies this
      ensures var batch := RunBatch(old(Model()), Reverse(commands), sources, ch, kira);
        Model() == batch.0 && results == batch.1
      ensures deque == Reverse(Retried(Reverse(commands), results))
    {
      deque := commands;
      var len := |deque|;
      ghost var todo := Reverse(commands);
      ghost var done: seq<AudioCommand> := [];
      ghost var requeued: seq<AudioCommand> := [];
      ghost var whole := RunBatch(Model(), todo, sources, ch, kira);
      results := [];
      ReverseReverse(commands);
      assert [] + whole.1 == whole.1 && deque == [] + Reverse(todo);
      var i := 0;
      while i < len
        invariant i == |done| == |results| && |todo| == len - i
        invariant done + todo == Reverse(commands)
        invariant requeued == Reverse(Retried(done, results))
        invariant deque == requeued + Reverse(todo)
        invariant var rest := RunBatch(Model(), todo, sources, ch, kira);
          whole == (rest.0, results + rest.1)
      {
        TakeNext(requeued, todo);
        var command := deque[|deque| - 1];
        deque := deque[..|deque| - 1];
        var result := Serve(command, todo[1..], results, whole, sources, ch, kira);
        RequeueStep(done, results, command, result);
        deque := RequeueIfRetry(deque, command, result, requeued, Reverse(todo[1..]));
        AppendAssoc(done, [command], todo[1..]);
        requeued := Reverse(Retried(done + [command], results + [result]));
        done := done + [command];
        todo := todo[1..];
        results := results + [result];
        i := i + 1;
      }
      assert done == Reverse(commands);
      assert results + [] == results;
    }

    /** One pass of `play_dynamic_channels` over the channel registered under `key`. */
    method VisitChannel(registry: DynamicChannel.DynamicAudioChannels, key: string, sources: map<SourceId, AudioSource>, kira: Kira)
      returns (ghost results: seq<AudioCommandResult>)
      requires hasManager && registry.Valid() && key in registry.channels
      modifies this, registry.channels[key]
      ensures registry.channels == old(registry.channels)
      ensures registry.States() == old(registry.States())
      ensures var batch := RunBatch(old(Model()), Reverse(old(registry.Queues())[key]), sources, Dynamic(key), kira);
        Model() == batch.0 && results == batch.1
      ensures registry.Queues() == old(registry.Queues())[key := Reverse(Retried(Reverse(old(registry.Queues())[key]), results))]
    {
      var deque;
      deque, results := ServeDynamic(registry.channels[key].commands, Dynamic(key), sources, kira);
      registry.SetCommands(key, deque);
    }

    /**
     * `play_dynamic_channels`: visit every registered channel once, in the
     * order the registry's hash map yields its keys, running the channel's
     * commands and requeueing the retried ones.
     */
    method PlayDynamicChannels(sources: map<SourceId, AudioSource>, registry: DynamicChannel.DynamicAudioChannels,
                               order: seq<string>, kira: Kira)
      returns (ghost results: map<string, seq<AudioCommandResult>>)
      requires registry.Valid()
      requires IsVisitOrder(order, registry.channels.Keys)
      modifies this, registry.channels.Values
      ensures registry.channels == old(registry.channels)
      ensures registry.States() == old(registry.States())
      ensures !hasManager ==> Model() == old(Model()) && registry.Queues() == old(registry.Queues())
      ensures hasManager ==>
        var run := RunChannels(old(Model()), order, old(registry.Queues()), sources, kira);
        Model() == run.0 && results == run.1 &&
        forall k :: k in registry.channels ==>
          registry.Queues()[k] == Reverse(Retried(Reverse(old(registry.Queues())[k]), results[k]))
    {
      results := map[];
      if !hasManager {
        return;
      }
      ghost var queues := registry.Queues();
      ghost var states := registry.States();
      ghost var chans := registry.channels;
      ghost var start := Model();
      for i := 0 to |order|
        invariant registry.channels == chans && registry.Valid()
        invariant registry.States() == states
        invariant RunChannels(start, order[..i], queues, sources, kira) == (Model(), results)
        invariant registry.Queues() == Requeued(queues, results)
      {
        var key := order[i];
        DistinctAt(order, i);
        RunChannelsStep(start, order, i, queues, sources, kira);
        ghost var r := VisitChannel(registry, key, sources, kira);
        RequeuedVisit(queues, results, key, r);
        results := results[key := r];
      }
      assert order[..|order|] == order;
    }

    /** `cleanup_stopped_instances`: every channel drops the instances Kira reports stopped. */
    method CleanupStoppedInstances(kira: Kira)
      modifies this
      ensures channels == old(channels) && sent == old(sent)
      ensures instances.Keys == old(instances).Keys
      ensures forall c :: c in instances ==> instances[c] == Live(old(instances)[c], kira)
    {
      var rest := instances.Keys;
      while rest != {}
        invariant rest <= instances.Keys
        invariant channels == old(channels) && sent == old(sent)
        invariant instances.Keys == old(instances).Keys
        invariant forall c :: c in instances ==>
          instances[c] == if c in rest then old(instances)[c] else Live(old(instances)[c], kira)
        decreases rest
      {
        var c :| c in rest;
        var kept := Retain(instances[c], kira);
        instances := instances[c := kept];
        rest := rest - {c};
      }
    }
  }

  /** `drain(..).for_each(push_front)`: each command in turn goes to the front of the deque. */
  method PushFrontAll(deque: seq<AudioCommand>, cmds: seq<AudioCommand>) returns (r: seq<AudioCommand>)
    ensures r == Reverse(cmds) + deque
  {
    r := deque;
    for j := 0 to |cmds|
      invariant r == Reverse(cmds[..j]) + deque
    {
      assert cmds[..j + 1] == cmds[..j] + [cmds[j]];
      ReverseAppend(cmds[..j], [cmds[j]]);
      assert Reverse([cmds[j]]) == [cmds[j]];
      r := [cmds[j]] + r;
    }
    assert cmds[..|cmds|] == cmds;
  }

  /** `Vec::retain` with the predicate "not stopped". */
  method Retain(insts: seq<InstanceState>, kira: Kira) returns (kept: seq<InstanceState>)
    ensures kept == Live(insts, kira)
  {
    kept := [];
    for i := 0 to |insts|
      invariant kept == Live(insts[..i], kira)
    {
      assert insts[..i + 1][..i] == insts[..i];
      if kira.state(insts[i].kira) != KStopped {
        kept := kept + [insts[i]];
      }
    }
    assert insts[..|insts|] == insts;
  }

  /** `update_instance_states`: rebuild a typed channel's state map from the output's instances of that channel. */
  method UpdateInstanceStates(output: AudioOutput, channel: TypedChannel.AudioChannel, kira: Kira)
    modifies channel
    ensures channel.commands == old(channel.commands)
    ensures Typed(channel.typeId) in output.instances ==>
      channel.states == StatesOf(output.instances[Typed(channel.typeId)], kira)
    ensures Typed(channel.typeId) !in output.instances ==> channel.states == old(channel.states)
  {
    var ch := Typed(channel.typeId);
    if ch in output.instances {
      var insts := output.instances[ch];
      channel.states := map[];
      for i := 0 to |insts|
        invariant channel.states == StatesOf(insts[..i], kira)
        invariant channel.commands == old(channel.commands)
      {
        assert insts[..i + 1][..i] == insts[..i];
        channel.states := channel.states[insts[i].handle := View(insts[i], kira)];
      }
      assert insts[..|insts|] == insts;
    }
  }
}
