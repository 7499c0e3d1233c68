/** Dynamic audio channels: channels created and removed at run time, keyed by strings. */
module DynamicChannel {
  import opened Base
  import opened Audio
  import opened TypedChannel

  /** `DynamicAudioChannel`: the same deque and state map as a typed channel. */
  class DynamicAudioChannel {
    /** The key the registry files this channel under; the source's channel does not store it. */
    ghost const owner: string
    /** The command deque, front first. */
    var commands: seq<AudioCommand>
    var states: map<InstanceHandle, PlaybackState>

    /** `Default`: no commands and no states. */
    constructor (ghost owner: string)
      ensures this.owner == owner && commands == [] && states == map[]
    {
      this.owner := owner;
      commands := [];
      states := map[];
    }

    /** `que`: push the command to the front of the deque. */
    method Que(command: AudioCommand)
      modifies this
      ensures commands == [command] + old(commands)
      ensures states == old(states)
    {
      commands := [command] + commands;
    }

    /** `state(handle)`: map entry, else `Queued` for a queued play of the handle, else `Stopped`. */
    function State(h: InstanceHandle): (r: PlaybackState)
      reads this
      ensures h in states ==> r == states[h]
      ensures h !in states ==> (r == Queued <==> exists i :: 0 <= i < |commands| && IsPlayOf(commands[i], h))
      ensures h !in states ==> (r == Stopped <==> forall i :: 0 <= i < |commands| ==> !IsPlayOf(commands[i], h))
    {
      LookupState(states, commands, h)
    }

    /** `is_playing_sound`: some instance is playing, pausing or stopping. */
    method IsPlayingSound() returns (r: bool)
      ensures r <==> exists h :: h in states && Sounding(states[h])
    {
      r := AnySounding(states);
    }
  }

  /** `DynamicAudioChannels`: the registry of dynamic channels. */
  class DynamicAudioChannels {
    var channels: map<string, DynamicAudioChannel>

    /** Every key owns its own channel object: the object filed under a key names that key. */
    ghost predicate Valid()
      reads this
    {
      forall k :: k in channels ==> channels[k].owner == k
    }

    /** The command deque of every registered channel. */
    ghost function Queues(): map<string, seq<AudioCommand>>
      reads this, channels.Values
    {
      map k | k in channels :: channels[k].commands
    }

    /** The state map of every registered channel. */
    ghost function States(): map<string, map<InstanceHandle, PlaybackState>>
      reads this, channels.Values
    {
      map k | k in channels :: channels[k].states
    }

    /** Write through the command lock of one registered channel: only its deque changes. */
    method SetCommands(key: string, commands: seq<AudioCommand>)
      requires Valid() && key in channels
      modifies channels[key]
      ensures channels == old(channels)
      ensures Queues() == old(Queues())[key := commands]
      ensures States() == old(States())
    {
      channels[key].commands := commands;
    }

    /** `Default`: no channels. */
    constructor ()
      ensures Valid() && channels == map[]
    {
      channels := map[];
    }

    /** `is_channel`. */
    function IsChannel(key: string): (r: bool)
      reads this
      ensures r <==> key in channels
    {
      key in channels
    }

    /** `get_channel`: the channel behind the key, if there is one. */
    function GetChannel(key: string): (r: Option<DynamicAudioChannel>)
      reads this
      ensures r.Some? <==> IsChannel(key)
      ensures r.Some? ==> r.value == channels[key]
    {
      if key in channels then Some(channels[key]) else None
    }

    /** `channel`: the channel behind the key, which must exist (the source panics otherwise). */
    function Channel(key: string): (r: DynamicAudioChannel)
      reads this
      requires IsChannel(key)
      ensures GetChannel(key) == Some(r)
    {
      channels[key]
    }

    /** `remove_channel`: drop the key; a missing key changes nothing. */
    method RemoveChannel(key: string)
      requires Valid()
      modifies this
      ensures Valid()
      ensures channels == old(channels) - {key}
      ensures !IsChannel(key)
      ensures key !in old(channels) ==> channels == old(channels)
    {
      channels := channels - {key};
    }

    /** `create_channel`: replace whatever was behind the key with a fresh, empty channel. */
    method CreateChannel(key: string) returns (c: DynamicAudioChannel)
      requires Valid()
      modifies this
      ensures Valid()
      ensures fresh(c) && c.commands == [] && c.states == map[]
      ensures channels == old(channels)[key := c]
      ensures IsChannel(key) && Channel(key) == c
    {
      if IsChannel(key) {
        RemoveChannel(key);
      }
      c := new DynamicAudioChannel(key);
      channels := channels[key := c];
    }
  }
}
