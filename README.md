# bevy_kira_audio, modelled in Dafny

This project models the bookkeeping that the bevy_kira_audio crate does around the Kira audio library:

- **Channels.** Typed and dynamic channels hold a deque of queued audio commands and a map of instance states.
- **Audio output.** Once per frame it drains those deques against Kira. It keeps the instances playing on each channel and the settings each channel remembers, and it re-queues the commands that have to be retried.
- **Playback states and instance handles.** The crate reports playback states and hands out instance handles from a counter.
- **Instance control.** Direct control of one instance, with its error convention.
- **Spacial audio.** Distance attenuation and panning, plus the cleanup of emitter handles.
- **Streams.** The command queue of streamed audio.
- **Loaders.** The MP3 decode loop, and the two settings-file loaders.

Kira is not modelled. A value of the datatype `Kira.Kira` stands for what Kira answers during one system run:

- the state and position of every sound handle;
- the outcome of every command sent to a handle;
- the outcome of every `AudioManager::play`.

Every command the crate sends to a sound handle is appended to a ghost log (`sent`), so contracts can say which commands were sent, to whom and in what order. A `VecDeque` is a sequence with its front at index 0. `push_front` is `[c] + q`, and serving with `pop_back` visits `Reverse(q)`.

## Modules

- base.dfy (`Base`): `Option`, `Result`, sequence reversal
- kira.dfy (`Kira`): the Kira types the crate uses, as values
- audio.dfy (`Audio`): `PlaybackState`, `InstanceHandle` and its counter, `AudioCommand`
- instance.dfy (`Instance`): error mapping, the control methods, `Assets::state`
- typed_channel.dfy (`TypedChannel`): `AudioChannel<T>`
- dynamic_channel.dfy (`DynamicChannel`): `DynamicAudioChannel`, `DynamicAudioChannels`
- audio_output.dfy (`Output`): `AudioOutput` and its systems
- spacial.dfy (`Spacial`): `SpacialAudio::update`, `run_spacial_audio`, emitter cleanup
- stream.dfy (`Stream`): `StreamedAudio`, `Frame`, `InternalAudioStream`
- audio_source.dfy (`Mp3`): `Mp3Loader::load` and `extensions`
- sound_file.dfy (`SoundFile`): extension parsing and reader dispatch shared by both settings-file loaders
- settings_loader.dfy (`SettingsLoader`): `positive_or_none`, `default_settings_value`, `load_sound`, `extensions`
- spec_loader.dfy (`SpecLoader`): `load_sound`, `extensions`

## Model

| member | source | states |
|---|---|---|
| Audio.Position | src/audio.rs:90-98 | `None` exactly for `Queued` and `Stopped`; otherwise `Some` of the state's own position |
| Audio.FromKira | src/audio.rs:101-117 | each Kira state maps to the variant of the same name, and Kira `Stopped` to `Stopped`; never to `Queued` |
| Audio.FromKiraPosition | src/audio.rs:101-117 | a converted state has Kira's position unless Kira reports the sound stopped, and then none |
| Audio.IssuedIdsIncrease | src/audio.rs:48-55 | before the counter wraps, the n-th handle has id n, so ids strictly increase and are pairwise distinct |
| Audio.InstanceHandleCounter.constructor | src/audio.rs:48 | the counter starts at zero and nothing has been issued |
| Audio.InstanceHandleCounter.New | src/audio.rs:51-54 | returns the counter value and increments it modulo 2^64; the issued ids stay 0, 1, 2, … |
| Instance.FromCommandError | src/instance.rs:26-32 | `CommandQueueFull` maps to `CommandQueueFull`; every other error maps to `AudioThreadError` |
| Instance.Control | src/instance.rs:37-120 | a control method yields `None` iff Kira accepted the command; otherwise `Some` of the mapped error |
| Instance.InstanceState | src/instance.rs:61-63 | Kira's report on the handle: never `Queued`, `Stopped` iff Kira reports it stopped, with Kira's position otherwise |
| Instance.AssetsState | src/instance.rs:135-139 | the instance's state when the handle is present; `Stopped` when it is absent; never `Queued` |
| Instance.AssetsStateStoppedMeans | src/instance.rs:125-139 | `Stopped` is reported iff the handle is absent or Kira reports the instance stopped |
| TypedChannel.FindPlay | src/channel/typed.rs:155-167 | the position of the first queued play of the handle, front first, or none when no play of it is queued |
| TypedChannel.LookupState | src/channel/typed.rs:151-170 | the map entry if there is one; otherwise `Queued` iff a play of the handle is queued, else `Stopped` |
| TypedChannel.AnySounding | src/channel/typed.rs:176-185 | true iff some state is `Playing`, `Pausing` or `Stopping` |
| TypedChannel.QueuedAfterQue | src/channel/typed.rs:37-41 | a handle without a map entry reports `Queued` right after its play is queued |
| TypedChannel.AudioChannel.constructor | src/channel/typed.rs:27-35 | no commands and no states |
| TypedChannel.AudioChannel.Que | src/channel/typed.rs:37-41 | the command goes to the front; the old commands follow unchanged; states unchanged |
| TypedChannel.AudioChannel.State | src/channel/typed.rs:151-170 | the three-way lookup, reading only the channel's fields |
| TypedChannel.AudioChannel.IsPlayingSound | src/channel/typed.rs:176-185 | true iff some state is sounding |
| DynamicChannel.DynamicAudioChannel.constructor | src/channel/dynamic.rs:16-21 | no commands and no states |
| DynamicChannel.DynamicAudioChannel.Que | src/channel/dynamic.rs:23-27 | push to the front; states unchanged |
| DynamicChannel.DynamicAudioChannel.State | src/channel/dynamic.rs:134-153 | the same three-way lookup as a typed channel |
| DynamicChannel.DynamicAudioChannel.IsPlayingSound | src/channel/dynamic.rs:159-168 | true iff some state is sounding |
| DynamicChannel.DynamicAudioChannels.constructor | src/channel/dynamic.rs:175-178 | no channels are registered |
| DynamicChannel.DynamicAudioChannels.CreateChannel | src/channel/dynamic.rs:184-193 | the key maps to a fresh, empty channel, even if it existed before; every other key is unchanged |
| DynamicChannel.DynamicAudioChannels.RemoveChannel | src/channel/dynamic.rs:199-204 | the key is gone and every other key is unchanged; a missing key changes nothing |
| DynamicChannel.DynamicAudioChannels.IsChannel | src/channel/dynamic.rs:207-209 | true iff the key is registered |
| DynamicChannel.DynamicAudioChannels.GetChannel | src/channel/dynamic.rs:224-226 | `Some` iff `is_channel`, and then the registered channel |
| DynamicChannel.DynamicAudioChannels.Channel | src/channel/dynamic.rs:217-221 | callable only for a registered key; agrees with `get_channel` |
| DynamicChannel.DynamicAudioChannels.SetCommands | src/audio_output.rs:268-279 | writing one channel's deque through its lock changes that deque only |
| Output.ChannelOf | src/audio_output.rs:343-352 | the recorded settings of a channel, otherwise the defaults: unpaused, volume 1, rate 1, centred panning |
| Output.FirstFull | src/audio_output.rs:58-68 | the first instance whose stop finds the queue full, or the length when there is none |
| Output.BroadcastTargets | src/audio_output.rs:74-173 | a broadcast sends `op` to exactly the targeted instances: all of them, or those in the one required state |
| Output.BroadcastToAll | src/audio_output.rs:115-173 | without a state filter, every instance gets the command once, in list order |
| Output.BroadcastAppend | src/audio_output.rs:74-173 | broadcasting over two runs of instances is broadcasting over each in turn |
| Output.RetryConditions | src/audio_output.rs:289-324 | a command returns `Retry` iff it is a play of an unloaded source or a stop that found the queue full; an unloaded play changes nothing |
| Output.StopSendsPrefix | src/audio_output.rs:55-72 | a stop changes no instance or setting; it stops a prefix of the instances, and returns `Ok` iff none found the queue full |
| Output.PauseResumeSettings | src/audio_output.rs:74-113 | pause then resume leaves the channel's settings with `paused` false, creating default settings when none existed |
| Output.SettingsTouchOneChannel | src/audio_output.rs:74-173 | each setter changes only its own field of its own channel (defaults otherwise); none of the five setting commands touches another channel or any instance list |
| Output.PlayAddsOneInstance | src/audio_output.rs:175-227 | a failed play changes nothing; a successful one appends exactly one instance to its channel and changes nothing else |
| Output.PlayOnPausedChannel | src/audio_output.rs:183-214 | on a paused channel the channel part of the request has rate zero, so a play without its own rate starts silent, while a play with one starts at that rate; a played sound is then paused and given its rate back |
| Output.RetriedAppend | src/audio_output.rs:249-256 | the retried commands of two runs are those of each run in turn, so relative order is kept |
| Output.RetriedMembers | src/audio_output.rs:249-250 | a command is retried iff one of its occurrences returned `Retry` |
| Output.NoStopKeepsAllRetries | src/audio_output.rs:243-253 | without a stop, `play_channel` keeps every retried command |
| Output.StopForgetsEarlierRetries | src/audio_output.rs:246-251 | with the last stop at position j, only the retries from j on survive |
| Output.KeepsOrderOfCommandsToRetry | src/audio_output.rs:414-452 | two unloaded plays are both retried and come back in their queued order |
| Output.StopCommandRemovesPreviousPlayCommands | src/audio_output.rs:455-488 | play, stop, play with no source loaded: only the later play stays queued |
| Output.LiveMembers | src/audio_output.rs:327-333 | cleanup keeps exactly the instances Kira does not report stopped |
| Output.LiveAppend | src/audio_output.rs:327-333 | cleanup distributes over concatenation, so order is kept |
| Output.LiveIdempotent | src/audio_output.rs:327-333 | cleaning up twice is cleaning up once |
| Output.StatesOfKeys | src/audio_output.rs:390-400 | the rebuilt state map has an entry for exactly the handles of the channel's instances |
| Output.StatesOfLastWins | src/audio_output.rs:394-399 | a handle's entry is the converted state of its last instance |
| Output.RunChannels | src/audio_output.rs:267-280 | every visited key gets a result list as long as its deque |
| Output.QueServedLast | src/channel/typed.rs:37-41 | a command queued with `que` is served after every command queued before it |
| Output.DistinctMeans | src/audio_output.rs:267 | a visit order has no key twice |
| Output.AudioOutput.constructor | src/audio_output.rs:38-51 | no instances and no channel settings |
| Output.AudioOutput.Stop | src/audio_output.rs:55-72 | state and result are those of the stop specification |
| Output.AudioOutput.Pause | src/audio_output.rs:74-94 | playing instances are paused; the channel is marked paused, with defaults when new |
| Output.AudioOutput.Resume | src/audio_output.rs:96-113 | paused instances are resumed; the channel is unpaused, defaults when new |
| Output.AudioOutput.SetVolume | src/audio_output.rs:115-133 | every instance gets the volume; only the volume of the channel's settings changes |
| Output.AudioOutput.SetPanning | src/audio_output.rs:135-153 | every instance gets the panning; only the panning changes |
| Output.AudioOutput.SetPlaybackRate | src/audio_output.rs:155-173 | every instance gets the rate; only the rate changes |
| Output.AudioOutput.Play | src/audio_output.rs:175-227 | returns `Ok` and has the effect of the play specification |
| Output.AudioOutput.SendAll | src/audio_output.rs:58-170 | the command goes to each targeted instance in list order, and nothing else changes |
| Output.AudioOutput.RunAudioCommand | src/audio_output.rs:283-325 | state and result are those of the command specification |
| Output.AudioOutput.Serve | src/audio_output.rs:244-245 | running one popped command and then the rest of the batch is running the whole batch |
| Output.RunBatchCons | src/audio_output.rs:243-253 | a batch is its first command followed by the batch of the rest |
| Output.AudioOutput.ServeTyped | src/audio_output.rs:237-253 | the deque is emptied; the commands run oldest first; the list to retry is that of the batch since the last stop |
| Output.AudioOutput.PlayChannel | src/audio_output.rs:229-257 | without a manager nothing changes; otherwise the batch runs oldest first and the deque holds the retried commands since the last stop, in their order |
| Output.AudioOutput.ServeDynamic | src/audio_output.rs:268-279 | the commands run oldest first; every retried command is back in the deque, in its order |
| Output.AudioOutput.VisitChannel | src/audio_output.rs:267-279 | one channel's batch runs; only that channel's deque changes, to its retried commands |
| Output.AudioOutput.PlayDynamicChannels | src/audio_output.rs:259-281 | without a manager nothing changes; otherwise each channel's batch runs in visit order, and each deque holds exactly its retried commands |
| Output.AudioOutput.CleanupStoppedInstances | src/audio_output.rs:327-333 | every channel's list is replaced by its non-stopped instances; nothing else changes |
| Output.PushFrontAll | src/audio_output.rs:254-256 | pushing each command to the front gives the reversed list before the deque |
| Output.Retain | src/audio_output.rs:329-331 | the kept instances are exactly the non-stopped ones, in order |
| Output.UpdateInstanceStates | src/audio_output.rs:386-401 | with instances for the channel, its state map is rebuilt from them; otherwise unchanged; commands unchanged |
| Spacial.Clamp01 | src/spacial.rs:44-46 | the value clamped to [0, 1] |
| Spacial.Volume | src/spacial.rs:44-46 | the volume lies in [0, 1] |
| Spacial.VolumeAtZero | src/spacial.rs:44-46 | volume 1 at distance 0 |
| Spacial.VolumeBeyondMax | src/spacial.rs:44-46 | volume 0 at and beyond the maximal distance |
| Spacial.VolumeInRange | src/spacial.rs:44-46 | within range, the volume is the square of the remaining fraction of the distance |
| Spacial.VolumeNonIncreasing | src/spacial.rs:44-46 | moving away never makes an emitter louder |
| Spacial.Panning | src/spacial.rs:48-49 | for a cosine in [-1, 1] the panning lies in [0, 1]; it is centred iff the cosine is 0 |
| Spacial.PanningExtremes | src/spacial.rs:48-49 | straight right pans fully right; straight left pans fully left |
| Spacial.PanningMonotone | src/spacial.rs:48-49 | panning moves with the cosine |
| Spacial.EmitterCallsTargets | src/spacial.rs:51-56 | every command for an emitter sets its volume or panning on the instance of one of its handles that has an asset |
| Spacial.EmitterCallsCover | src/spacial.rs:51-56 | every handle with an asset gets both the volume and the panning command |
| Spacial.Levels | src/spacial.rs:44-49 | an emitter's volume lies in [0, 1]; its panning lies in [0, 1] for a cosine in [-1, 1] and is centred iff the cosine is 0 |
| Spacial.Update | src/spacial.rs:36-58 | the commands sent are those of the update specification, emitter by emitter |
| Spacial.SetLevels | src/spacial.rs:51-56 | one emitter's commands: volume, then panning, to each handle with an asset |
| Spacial.RunSpacialAudio | src/spacial.rs:61-70 | nothing is sent unless there is exactly one receiver |
| Spacial.UnstoppedMembers | src/spacial.rs:79-85 | cleanup keeps exactly the handles without an asset and those whose instance is not stopped |
| Spacial.UnstoppedAppend | src/spacial.rs:79-85 | cleanup distributes over concatenation, so order is kept |
| Spacial.AudioEmitter.constructor | src/spacial.rs:10-16 | an emitter starts without instances |
| Spacial.AudioEmitter.RetainUnstopped | src/spacial.rs:77-85 | the emitter's handles become exactly the kept ones |
| Spacial.CleanupStoppedSpacialInstances | src/spacial.rs:72-86 | every emitter's handles are cleaned up |
| Stream.IntoKira | src/stream.rs:12-19 | both samples are carried over unchanged |
| Stream.IntoKiraInjective | src/stream.rs:12-19 | the conversion loses nothing |
| Stream.InternalAudioStream.constructor | src/stream.rs:34-38 | the stream wraps the user's stream unchanged |
| Stream.InternalAudioStream.Next | src/stream.rs:45-47 | the user's stream advances once, and its frame reaches Kira with left and right unchanged |
| Stream.StreamedAudio.constructor | src/stream.rs:89-98 | the queue starts empty |
| Stream.StreamedAudio.Stream | src/stream.rs:114-118 | a play in the default channel goes in front of the unchanged old commands |
| Stream.StreamedAudio.Stop | src/stream.rs:130-134 | a stop in the default channel goes in front |
| Stream.StreamedAudio.StreamInChannel | src/stream.rs:146-150 | a play in the given channel goes in front |
| Stream.StreamedAudio.StopChannel | src/stream.rs:162-166 | a stop in the given channel goes in front |
| Stream.FrontPushIssueOrder | src/stream.rs:114-166 | after a push, a consumer taking from the back meets the earlier commands first and the new one last |
| Mp3.Extensions | src/audio_source.rs:90-92 | the MP3 loader registers the one extension `mp3` |
| Mp3.AsU32 | src/audio_source.rs:80 | the sample rate cast to `u32`, unchanged when it is in range |
| Mp3.Load | src/audio_source.rs:26-86 | the loop's result is the decode specification's |
| Mp3.DecodeGoodPrefix | src/audio_source.rs:31-67 | a run of frames with one rate and one or two channels is consumed, and their frames are appended in order |
| Mp3.LoadSucceeds | src/audio_source.rs:26-86 | frames then end of file load with the first frame's rate and all frames in order |
| Mp3.RateMismatchFails | src/audio_source.rs:31-40 | a later frame with another rate fails with `UnsupportedAudioFileFormat` |
| Mp3.ChannelCountFails | src/audio_source.rs:61-65 | a frame with neither one nor two channels fails with `UnsupportedChannelConfiguration` |
| Mp3.DecoderErrorFails | src/audio_source.rs:68-71 | a decoder error other than end of file is returned unchanged |
| Mp3.NoFramesFails | src/audio_source.rs:74-77 | end of file before any frame fails with `UnsupportedAudioFileFormat` |
| Mp3.DecodeKeepsRate | src/audio_source.rs:31-86 | once the rate is fixed, every success carries it |
| Mp3.SuccessHasFirstRate | src/audio_source.rs:31-86 | a success starts with a frame and has that frame's rate |
| SoundFile.LastIndex | src/source/settings_loader.rs:68 | the last occurrence of a character, or none |
| SoundFile.FileName | src/source/settings_loader.rs:68 | the file name has no `/` and is neither empty, `.` nor `..` |
| SoundFile.Extension | src/source/settings_loader.rs:68 | an extension contains neither `.` nor `/` |
| SoundFile.LastIndexAt | src/source/settings_loader.rs:68 | the last occurrence is found wherever it is |
| SoundFile.FileNameAfter | src/source/settings_loader.rs:68 | the file name is the part after the last `/` |
| SoundFile.ExtensionAt | src/source/settings_loader.rs:68 | the extension is the text after the file name's last dot, when that dot is not its first character |
| SoundFile.NoExtensionWithoutDot | src/source/settings_loader.rs:68 | a file name without a dot after its first character has no extension |
| SoundFile.SelectReader | src/source/settings_loader.rs:69-79 | each of `mp3`, `ogg`, `flac`, `wav` selects its reader iff its feature is on |
| SoundFile.Dispatch | src/source/settings_loader.rs:68-82 | success iff a reader is selected, with the bytes and settings handed over unchanged; otherwise `UnsupportedAudioFileFormat` |
| SoundFile.LoaderExtensionsGated | src/source/settings_loader.rs:104-119 | each settings-file extension is registered iff its feature is on |
| SoundFile.OgaAndSpxRejected | src/source/settings_loader.rs:68-119 | `oga.ron` and `spx.ron` are registered under the ogg feature, yet `oga` and `spx` sound files fail |
| SettingsLoader.DefaultSettingsValue | src/source/settings_loader.rs:19-22 | the default is negative |
| SettingsLoader.FromFields | src/source/settings_loader.rs:44-45 | a given duration is kept; a missing one takes the negative default |
| SettingsLoader.PositiveOrNone | src/source/settings_loader.rs:48-55 | `Some(v)` iff v ≥ 0, else `None` |
| SettingsLoader.LoadSound | src/source/settings_loader.rs:57-83 | success iff the extension selects a reader; the settings are Kira's defaults with the semantic duration through `positive_or_none` |
| SettingsLoader.MissingDurationIsNone | src/source/settings_loader.rs:19-63 | a settings file without a duration yields a sound without one |
| SettingsLoader.ZeroDurationKept | src/source/settings_loader.rs:48-55 | a duration of zero is kept |
| SettingsLoader.OtherSettingsDefault | src/source/settings_loader.rs:62-66 | every field except the semantic duration is Kira's default |
| SettingsLoader.Extensions | src/source/settings_loader.rs:104-119 | the feature-gated settings-file extensions |
| SpecLoader.LoadSound | src/source/spec_loader.rs:56-84 | success iff the extension selects a reader; `cooldown`, `semantic_duration` and `default_loop_start` are copied and the rest is Kira's default |
| SpecLoader.Extensions | src/source/spec_loader.rs:105-120 | the same feature-gated extensions |
| Base.ReverseReverse | src/audio_output.rs:243-256 | serving from the back reverses the deque, and reversing twice gives it back |

## Left out

- Kira: `AudioManager`, `StaticSoundHandle`, tweens, easing and spatial tracks are a foreign library. Their answers are the functions of a `Kira` value, fixed for one system run. So a command does not change what Kira reports later in the same run. Because `play` is a function of the request, two identical plays on one channel in one run get the same Kira handle and the same outcome, where Kira would hand out a new handle each time and could refuse only the second.
- Output.PlayOnPausedChannel: `PartialSoundSettings::apply` is not part of this model. `StartRate` assumes it overrides the channel's settings with every field the play sets, since it runs after `ChannelState::apply`. So a play with its own rate on a paused channel starts at that rate and can be heard before the pause arrives.
- Output.AudioOutput.PlayDynamicChannels: `HashMap` iteration order is unspecified. The visit order is a parameter, any order of the registered keys, each exactly once.
- Output.AudioOutput.CleanupStoppedInstances: the channels are visited in an arbitrary order, which does not affect the result.
- `RwLock`, `AtomicU64` and `NonSend` access: concurrency plumbing. Deques and the counter are sequential state.
- Floating point: `f32` and `f64` are `real`. NaN, infinities, rounding and the `f32` to `f64` casts in spacial.rs are not modelled.
- Spacial.Volume: a zero `max_distance` yields infinities or NaN in floating point. The model requires it to be non-zero.
- Spacial.Update: vector geometry (`translation`, `length`, `right`, `angle_between`, `cos`) is not modelled. The distance and the cosine of the right-ear angle come from a `Geometry` value.
- Spacial.Update and Spacial.SetLevels: the `Option` results of `set_volume` and `set_panning` are ignored by the source and are not modelled.
- SoundFile.FileName: the trailing `/` and `.` normalisation of `Path::components` is not modelled. A path ending in `/` or `/.` has no file name here.
- SoundFile.Extension: `OsStr::to_str` failing on non-UTF-8 names is not modelled, because strings are Unicode.
- The readers `Sound::from_*_reader`: foreign decoders. A successful `load_sound` is the request handed to the reader, meaning reader, bytes and settings.
- RON deserialisation, `LoadContext`, the async loader bodies and `read_asset_bytes`: I/O. `FromFields` models only the serde default of the semantic duration.
- `Frame::from_i32` float scaling: samples stay integer pairs.
- The `PlayAudioCommand` and `TweenCommand` builders behind a channel's `play`, `stop`, `pause` and `set_*`: their definitions are not part of this model. Channels are driven through `que`. For the same reason, the `stop` that `remove_channel` issues to the channel before removing it is not modelled.
- `ChannelState::apply` and `PartialSoundSettings::apply`: the settings are recorded in the request sent to Kira, and are not applied to sound data.
- src/audio.rs:12-20 declares an `AudioCommand` without tween payloads. src/audio_output.rs:303-323 matches tween-carrying variants. The model follows the output and channel files, with the tween as an optional payload.
- `InstanceHandle::new`: the pure distinctness lemma `IssuedIdsIncrease` holds only before the 64-bit counter wraps. The counter's own wrap-around is modelled.
- Logging (`warn!`, `error!`), plugin and system registration (`AudioApp::add_audio_channel`, lib.rs, systems.rs), backend settings, and the system wrappers that only forward resources to `AudioOutput`.
- The panic in `DynamicAudioChannels::channel` is a precondition.
- The `expect` in `create_channel` cannot fail after the insert and has no counterpart.
- Stream: the user's `AudioStream::next` is a function of the stream's state and the time step.
