/**
 * A typed audio channel: a command deque filled by the user and a map of
 * instance states filled once per frame from the audio output.
 * The lookups defined here are shared with dynamic channels, whose code is the same.
 */
module TypedChannel {
  import opened Base
  import opened Audio

  /** The command is a queued play of the instance behind `h`. */
  predicate IsPlayOf(c: AudioCommand, h: InstanceHandle) {
    c.Play? && c.args.instanceHandle == h
  }

  /** `Iterator::find` over the deque, front first: the first queued play of `h`. */
  function FindPlay(commands: seq<AudioCommand>, h: InstanceHandle): (r: Option<nat>)
    ensures r.Some? ==> r.value < |commands| && IsPlayOf(commands[r.value], h)
    ensures r.Some? ==> forall j :: 0 <= j < r.value ==> !IsPlayOf(commands[j], h)
    ensures r.None? ==> forall j :: 0 <= j < |commands| ==> !IsPlayOf(commands[j], h)
  {
    if commands == [] then None
    else if IsPlayOf(commands[0], h) then Some(0)
    else match FindPlay(commands[1..], h)
      case None => None
      case Some(k) => Some(k + 1)
  }

  /**
   * `state(handle)`: the entry of the state map; without one, `Queued` when a
   * play of the handle waits in the deque, else `Stopped`.
   */
  function LookupState(states: map<InstanceHandle, PlaybackState>, commands: seq<AudioCommand>, h: InstanceHandle)
    : (r: PlaybackState)
    ensures h in states ==> r == states[h]
    ensures h !in states ==> (r == Queued <==> exists i :: 0 <= i < |commands| && IsPlayOf(commands[i], h))
    ensures h !in states ==> (r == Stopped <==> forall i :: 0 <= i < |commands| ==> !IsPlayOf(commands[i], h))
  {
    if h in states then states[h]
    else if FindPlay(commands, h).Some? then Queued
    else Stopped
  }

  /** The states that `is_playing_sound` counts as sounding. */
  predicate Sounding(s: PlaybackState) {
    s.Playing? || s.Pausing? || s.Stopping?
  }

  /** The fold of `is_playing_sound` over the state map, visiting the entries in no particular order. */
  method AnySounding(states: map<InstanceHandle, PlaybackState>) returns (playing: bool)
    ensures playing <==> exists h :: h in states && Sounding(states[h])
  {
    playing := false;
    var rest := states.Keys;
    while rest != {}
      invariant rest <= states.Keys
      invariant playing <==> exists h :: h in states && h !in rest && Sounding(states[h])
      decreases rest
    {
      var h :| h in rest;
      playing := if Sounding(states[h]) then true else playing;
      rest := rest - {h};
    }
  }

  /** A play that was just queued for an unknown handle reports `Queued`. */
  lemma QueuedAfterQue(states: map<InstanceHandle, PlaybackState>, commands: seq<AudioCommand>, args: PlayAudioSettings)
    requires args.instanceHandle !in states
    ensures LookupState(states, [Play(args)] + commands, args.instanceHandle) == Queued
  {
    assert IsPlayOf(([Play(args)] + commands)[0], args.instanceHandle);
  }

  /** `AudioChannel<T>`: the marker type `T` is represented by its type id. */
  class AudioChannel {
    const typeId: nat
    /** The command deque, front first. */
    var commands: seq<AudioCommand>
    var states: map<InstanceHandle, PlaybackState>

    /** `Default`: no commands and no states. */
    constructor (typeId: nat)
      ensures this.typeId == typeId && commands == [] && states == map[]
    {
      this.typeId := typeId;
      commands := [];
      states := map[];
    }

    /** `que`: push the command to the front of the deque. */
    method Que(command: AudioCommand)
      modifies this
      ensures commands == [command] + old(commands)
      ensures states == old(states)
    {
      commands := [command] + commands;
    }

    /** `state(handle)`, reading neither more nor less than the two fields. */
    function State(h: InstanceHandle): (r: PlaybackState)
      reads this
      ensures h in states ==> r == states[h]
      ensures h !in states ==> (r == Queued <==> exists i :: 0 <= i < |commands| && IsPlayOf(commands[i], h))
      ensures h !in states ==> (r == Stopped <==> forall i :: 0 <= i < |commands| ==> !IsPlayOf(commands[i], h))
    {
      LookupState(states, commands, h)
    }

    /** `is_playing_sound`: some instance is playing, pausing or stopping. */
    method IsPlayingSound() returns (r: bool)
      ensures r <==> exists h :: h in states && Sounding(states[h])
    {
      r := AnySounding(states);
    }
  }
}
