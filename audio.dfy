/** Common audio types: playback states, instance handles and queued commands. */
module Audio {
  import opened Base
  import opened Kira

  /** Playback status of a sound instance as the crate reports it. */
  datatype PlaybackState =
    | Paused(position: real)
    | Pausing(position: real)
    | Playing(position: real)
    | Queued
    | Stopped
    | Stopping(position: real)

  /** `PlaybackState::position`: the position in seconds, for the states that have one. */
  function Position(s: PlaybackState): (r: Option<real>)
    ensures r.None? <==> (s.Queued? || s.Stopped?)
    ensures r.Some? ==> r.value == s.position
  {
    match s
    case Queued => None
    case Stopped => None
    case Playing(p) => Some(p)
    case Paused(p) => Some(p)
    case Pausing(p) => Some(p)
    case Stopping(p) => Some(p)
  }

  /** `From<&InstanceState> for PlaybackState`: Kira's state, tagged with the handle's position. */
  function FromKira(k: KiraState, position: real): (r: PlaybackState)
    ensures r.Playing? <==> k == KPlaying
    ensures r.Paused? <==> k == KPaused
    ensures r.Pausing? <==> k == KPausing
    ensures r.Stopping? <==> k == KStopping
    ensures r.Stopped? <==> k == KStopped
    ensures !r.Queued?
  {
    match k
    case KPlaying => Playing(position)
    case KPaused => Paused(position)
    case KStopped => Stopped
    case KPausing => Pausing(position)
    case KStopping => Stopping(position)
  }

  /** A state converted from Kira carries Kira's position exactly when Kira has not stopped the sound. */
  lemma FromKiraPosition(k: KiraState, position: real)
    ensures Position(FromKira(k, position)) == if k == KStopped then None else Some(position)
  {
  }

  /** Allows the user to refer to one playing sound. */
  datatype InstanceHandle = InstanceHandle(id: nat)

  /** One past the largest `u64`. */
  const U64Limit: nat := 0x1_0000_0000_0000_0000

  /** The ids that the first `n` calls of `InstanceHandle::new` return, counting from 0 and wrapping at 2^64. */
  function IssuedIds(n: nat): (r: seq<nat>)
    ensures |r| == n
  {
    seq(n, i => i % U64Limit)
  }

  /** Before the counter wraps, the ids are 0, 1, 2, ..., hence strictly increasing and pairwise distinct. */
  lemma IssuedIdsIncrease(n: nat)
    requires n <= U64Limit
    ensures forall i :: 0 <= i < n ==> IssuedIds(n)[i] == i
    ensures forall i, j :: 0 <= i < j < n ==> IssuedIds(n)[i] < IssuedIds(n)[j]
  {
    forall i | 0 <= i < n
      ensures IssuedIds(n)[i] == i
    {
      assert i % U64Limit == i;
    }
  }

  /** The shared counter `NEXT_INSTANCE_HANDLE_ID`, as sequential state. */
  class InstanceHandleCounter {
    var next: nat
    /** The ids handed out so far, oldest first. */
    ghost var issued: seq<nat>

    ghost predicate Valid()
      reads this
    {
      next == |issued| % U64Limit && issued == IssuedIds(|issued|)
    }

    constructor ()
      ensures Valid() && issued == []
    {
      next := 0;
      issued := [];
    }

    /** `InstanceHandle::new`: hand out the counter value, then increment it modulo 2^64. */
    method New() returns (h: InstanceHandle)
      requires Valid()
      modifies this
      ensures Valid()
      ensures h.id == old(next)
      ensures next == (old(next) + 1) % U64Limit
      ensures issued == old(issued) + [h.id]
    {
      h := InstanceHandle(next);
      next := (next + 1) % U64Limit;
      issued := issued + [h.id];
      assert issued == IssuedIds(|issued|);
    }
  }

  /** Result of running one queued command: done, or try again next frame. */
  datatype AudioCommandResult = Ok | Retry

  /** Identity of a `Handle<AudioSource>`. */
  type SourceId = nat

  /** The payload of a queued play command. */
  datatype PlayAudioSettings =
    PlayAudioSettings(source: SourceId, settings: PartialSoundSettings, instanceHandle: InstanceHandle)

  /** A command queued on a channel. */
  datatype AudioCommand =
    | Play(args: PlayAudioSettings)
    | Stop(tween: Option<Tween>)
    | Pause(tween: Option<Tween>)
    | Resume(tween: Option<Tween>)
    | SetVolume(volume: real, tween: Option<Tween>)
    | SetPanning(panning: real, tween: Option<Tween>)
    | SetPlaybackRate(rate: real, tween: Option<Tween>)
}
