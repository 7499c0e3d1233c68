/** Direct control of one audio instance and the error convention of its methods. */
module Instance {
  import opened Base
  import K = Kira
  import opened Audio

  /** Errors that can occur when directly controlling audio. */
  datatype AudioCommandError = CommandQueueFull | AudioThreadError

  /** `From<CommandError> for AudioCommandError`. */
  function FromCommandError(e: K.CommandError): (r: AudioCommandError)
    ensures r == CommandQueueFull <==> e == K.CommandQueueFull
    ensures r == AudioThreadError <==> e != K.CommandQueueFull
  {
    match e
    case CommandQueueFull => CommandQueueFull
    case _ => AudioThreadError
  }

  /** The asset for direct audio control: it holds one Kira sound handle. */
  datatype AudioInstance = AudioInstance(handle: K.KiraId)

  /**
   * Every control method of `AudioInstance` (pause, resume, stop, set_volume,
   * set_playback_rate, set_panning, seek_to, seek_by) sends one command to its
   * handle and reports `None` on success, else the mapped error.
   */
  function Control(instance: AudioInstance, op: K.KiraOp, kira: K.Kira): (r: Option<AudioCommandError>)
    ensures r.None? <==> kira.send(K.KiraCall(instance.handle, op)).Sent?
    ensures r.Some? ==> r.value == FromCommandError(kira.send(K.KiraCall(instance.handle, op)).error)
  {
    match kira.send(K.KiraCall(instance.handle, op))
    case Sent => None
    case Refused(e) => Some(FromCommandError(e))
  }

  /** `AudioInstance::state`: Kira's report on the handle, never `Queued`. */
  function InstanceState(instance: AudioInstance, kira: K.Kira): (r: PlaybackState)
    ensures !r.Queued?
    ensures r.Stopped? <==> kira.state(instance.handle) == K.KStopped
    ensures Position(r) == if kira.state(instance.handle) == K.KStopped then None else Some(kira.position(instance.handle))
  {
    FromKiraPosition(kira.state(instance.handle), kira.position(instance.handle));
    FromKira(kira.state(instance.handle), kira.position(instance.handle))
  }

  /** `AudioInstanceAssetsExt::state`: the instance's state, or `Stopped` when the asset is gone. */
  function AssetsState(assets: map<InstanceHandle, AudioInstance>, h: InstanceHandle, kira: K.Kira): (r: PlaybackState)
    ensures h in assets ==> r == InstanceState(assets[h], kira)
    ensures h !in assets ==> r == Stopped
    ensures !r.Queued?
  {
    if h in assets then InstanceState(assets[h], kira) else Stopped
  }

  /** A `Stopped` answer does not tell a stopped instance from one that is absent. */
  lemma AssetsStateStoppedMeans(assets: map<InstanceHandle, AudioInstance>, h: InstanceHandle, kira: K.Kira)
    ensures AssetsState(assets, h, kira) == Stopped <==>
      (h !in assets || kira.state(assets[h].handle) == K.KStopped)
  {
  }
}
