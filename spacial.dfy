/**
 * Spacial audio: the volume and panning of an emitter's instances follow its
 * distance from the one receiver and the direction towards it.
 * Vector geometry is not modelled: the distance from the receiver to an
 * emitter and the cosine of the angle between the receiver's right direction
 * and the sound path come from a `Geometry` value.
 */
module Spacial {
  import opened Base
  import opened Kira
  import opened Audio
  import opened Instance

  /** The `SpacialAudio` resource. */
  datatype SpacialAudio = SpacialAudio(maxDistance: real)

  /** A `GlobalTransform`, as an opaque identity. */
  type Transform = nat

  /** The results of the vector geometry on two transforms (receiver first, emitter second). */
  datatype Geometry = Geometry(
    distance: (Transform, Transform) -> real,
    rightCosine: (Transform, Transform) -> real)

  /** `x.clamp(0., 1.)`. */
  function Clamp01(x: real): (r: real)
    ensures 0.0 <= r <= 1.0
    ensures 0.0 <= x <= 1.0 ==> r == x
    ensures x < 0.0 ==> r == 0.0
    ensures x > 1.0 ==> r == 1.0
  {
    if x < 0.0 then 0.0 else if x > 1.0 then 1.0 else x
  }

  /** The volume at `distance`: `(1 - distance / maxDistance)` clamped to the unit interval, squared. */
  function Volume(distance: real, maxDistance: real): (r: real)
    requires maxDistance != 0.0
    ensures 0.0 <= r <= 1.0
  {
    var c := Clamp01(1.0 - distance / maxDistance);
    assert 0.0 <= c * c <= c by {
      assert c * c <= c * 1.0;
    }
    c * c
  }

  /** Full volume at the emitter's own position. */
  lemma VolumeAtZero(maxDistance: real)
    requires maxDistance != 0.0
    ensures Volume(0.0, maxDistance) == 1.0
  {
  }

  /** Silence at and beyond the maximal distance. */
  lemma VolumeBeyondMax(distance: real, maxDistance: real)
    requires 0.0 < maxDistance <= distance
    ensures Volume(distance, maxDistance) == 0.0
  {
    assert distance / maxDistance >= 1.0 by {
      assert distance / maxDistance * maxDistance == distance;
    }
  }

  /** Within range the volume falls off with the square of the remaining fraction. */
  lemma VolumeInRange(distance: real, maxDistance: real)
    requires 0.0 <= distance <= maxDistance && maxDistance > 0.0
    ensures Volume(distance, maxDistance) == (1.0 - distance / maxDistance) * (1.0 - distance / maxDistance)
  {
    assert 0.0 <= distance / maxDistance <= 1.0 by {
      assert distance / maxDistance * maxDistance == distance;
    }
  }

  /** Moving away from the receiver never makes an emitter louder. */
  lemma VolumeNonIncreasing(d1: real, d2: real, maxDistance: real)
    requires maxDistance > 0.0 && d1 <= d2
    ensures Volume(d2, maxDistance) <= Volume(d1, maxDistance)
  {
    var x1 := 1.0 - d1 / maxDistance;
    var x2 := 1.0 - d2 / maxDistance;
    assert x2 <= x1 by {
      assert d1 / maxDistance <= d2 / maxDistance by {
        assert (d2 - d1) / maxDistance >= 0.0;
        assert (d2 - d1) / maxDistance == d2 / maxDistance - d1 / maxDistance;
      }
    }
    var c1 := Clamp01(x1);
    var c2 := Clamp01(x2);
    assert 0.0 <= c2 <= c1;
    assert c2 * c2 <= c1 * c2 <= c1 * c1;
  }

  /** The panning for the cosine of the right-ear angle: `(cos + 1) / 2`. */
  function Panning(cosine: real): (r: real)
    ensures -1.0 <= cosine <= 1.0 ==> 0.0 <= r <= 1.0
    ensures r == 0.5 <==> cosine == 0.0
  {
    (cosine + 1.0) / 2.0
  }

  /** A sound straight to the right pans fully right, one straight to the left fully left. */
  lemma PanningExtremes()
    ensures Panning(1.0) == 1.0 && Panning(-1.0) == 0.0
  {
  }

  /** Panning moves the same way as the cosine. */
  lemma PanningMonotone(c1: real, c2: real)
    requires c1 <= c2
    ensures Panning(c1) <= Panning(c2)
  {
  }

  /** `AudioEmitter`: the instance handles an emitter controls. */
  class AudioEmitter {
    var instances: seq<InstanceHandle>

    /** `Default`: no instances. */
    constructor ()
      ensures instances == []
    {
      instances := [];
    }

    /** `retain`: drop the handles whose instance Kira reports stopped; handles without an asset stay. */
    method RetainUnstopped(assets: map<InstanceHandle, AudioInstance>, kira: Kira)
      modifies this
      ensures instances == Unstopped(old(instances), assets, kira)
    {
      var kept := [];
      for i := 0 to |instances|
        invariant kept == Unstopped(instances[..i], assets, kira)
      {
        assert instances[..i + 1][..i] == instances[..i];
        if Keeps(instances[i], assets, kira) {
          kept := kept + [instances[i]];
        }
      }
      assert instances[..|instances|] == instances;
      instances := kept;
    }
  }

  /** The retain predicate: keep a handle unless its instance exists and is stopped. */
  predicate Keeps(h: InstanceHandle, assets: map<InstanceHandle, AudioInstance>, kira: Kira)
  {
    h in assets ==> kira.state(assets[h].handle) != KStopped
  }

  /** The handles that cleanup keeps, in their order. */
  function Unstopped(hs: seq<InstanceHandle>, assets: map<InstanceHandle, AudioInstance>, kira: Kira)
    : seq<InstanceHandle>
    decreases |hs|
  {
    if hs == [] then []
    else
      var n := |hs| - 1;
      Unstopped(hs[..n], assets, kira) + (if Keeps(hs[n], assets, kira) then [hs[n]] else [])
  }

  /** Cleanup keeps exactly the handles without an asset and those whose instance is not stopped. */
  lemma {:induction false} UnstoppedMembers(hs: seq<InstanceHandle>, assets: map<InstanceHandle, AudioInstance>, kira: Kira)
    ensures forall h :: h in Unstopped(hs, assets, kira) <==>
      h in hs && (h !in assets || kira.state(assets[h].handle) != KStopped)
    decreases |hs|
  {
    if hs != [] {
      var n := |hs| - 1;
      UnstoppedMembers(hs[..n], assets, kira);
      assert hs == hs[..n] + [hs[n]];
    }
  }

  /** Cleanup preserves order: it distributes over concatenation. */
  lemma {:induction false} UnstoppedAppend(a: seq<InstanceHandle>, b: seq<InstanceHandle>,
                                           assets: map<InstanceHandle, AudioInstance>, kira: Kira)
    ensures Unstopped(a + b, assets, kira) == Unstopped(a, assets, kira) + Unstopped(b, assets, kira)
    decreases |b|
  {
    if b == [] {
      assert a + b == a;
    } else {
      var n := |b| - 1;
      assert (a + b)[..|a| + n] == a + b[..n];
      assert (a + b)[|a| + n] == b[n];
      UnstoppedAppend(a, b[..n], assets, kira);
    }
  }

  /**
   * `cleanup_stopped_spacial_instances`: every emitter's handles are cleaned up.
   * Each `AudioEmitter` component is its own object.
   */
  method CleanupStoppedSpacialInstances(emitters: seq<AudioEmitter>, assets: map<InstanceHandle, AudioInstance>, kira: Kira)
    requires forall i, j :: 0 <= i < j < |emitters| ==> emitters[i] != emitters[j]
    modifies set i | 0 <= i < |emitters| :: emitters[i]
    ensures forall i :: 0 <= i < |emitters| ==>
      emitters[i].instances == Unstopped(old(emitters[i].instances), assets, kira)
  {
    for k := 0 to |emitters|
      invariant forall i :: 0 <= i < k ==>
        emitters[i].instances == Unstopped(old(emitters[i].instances), assets, kira)
      invariant forall i :: k <= i < |emitters| ==> emitters[i].instances == old(emitters[i].instances)
    {
      emitters[k].RetainUnstopped(assets, kira);
    }
  }

  /** The commands that `update` sends for one emitter's handles: volume, then panning, for each live instance. */
  function EmitterCalls(hs: seq<InstanceHandle>, assets: map<InstanceHandle, AudioInstance>, volume: real, panning: real)
    : seq<KiraCall>
    decreases |hs|
  {
    if hs == [] then []
    else
      var n := |hs| - 1;
      EmitterCalls(hs[..n], assets, volume, panning) +
        (if hs[n] in assets
         then [KiraCall(assets[hs[n]].handle, SetVolumeOp(volume, None)),
               KiraCall(assets[hs[n]].handle, SetPanningOp(panning, None))]
         else [])
  }

  /**
   * Every command for one emitter sets the emitter's volume or panning on the
   * instance of one of its handles; handles without an asset get none.
   */
  lemma {:induction false} EmitterCallsTargets(hs: seq<InstanceHandle>, assets: map<InstanceHandle, AudioInstance>, volume: real, panning: real)
    ensures forall c :: c in EmitterCalls(hs, assets, volume, panning) ==>
      exists h :: h in hs && h in assets && c.target == assets[h].handle &&
        (c.op == SetVolumeOp(volume, None) || c.op == SetPanningOp(panning, None))
    decreases |hs|
  {
    if hs != [] {
      var n := |hs| - 1;
      EmitterCallsTargets(hs[..n], assets, volume, panning);
      assert forall h :: h in hs[..n] ==> h in hs;
      assert hs[n] in hs;
    }
  }

  /** Every handle with an asset gets both commands, with the emitter's volume and panning. */
  lemma {:induction false} EmitterCallsCover(hs: seq<InstanceHandle>, assets: map<InstanceHandle, AudioInstance>, volume: real, panning: real)
    ensures forall h :: h in hs && h in assets ==>
      KiraCall(assets[h].handle, SetVolumeOp(volume, None)) in EmitterCalls(hs, assets, volume, panning) &&
      KiraCall(assets[h].handle, SetPanningOp(panning, None)) in EmitterCalls(hs, assets, volume, panning)
    decreases |hs|
  {
    if hs != [] {
      var n := |hs| - 1;
      EmitterCallsCover(hs[..n], assets, volume, panning);
      assert hs == hs[..n] + [hs[n]];
    }
  }

  /** The volume and panning `update` computes for one emitter. */
  function Levels(config: SpacialAudio, geometry: Geometry, receiver: Transform, emitter: Transform): (r: (real, real))
    requires config.maxDistance != 0.0
    ensures 0.0 <= r.0 <= 1.0
    ensures -1.0 <= geometry.rightCosine(receiver, emitter) <= 1.0 ==> 0.0 <= r.1 <= 1.0
    ensures r.1 == 0.5 <==> geometry.rightCosine(receiver, emitter) == 0.0
  {
    (Volume(geometry.distance(receiver, emitter), config.maxDistance),
     Panning(geometry.rightCosine(receiver, emitter)))
  }

  /** All commands of one `update`, emitter by emitter in query order. */
  function UpdateCalls(config: SpacialAudio, geometry: Geometry, receiver: Transform,
                       emitters: seq<(Transform, seq<InstanceHandle>)>, assets: map<InstanceHandle, AudioInstance>)
    : seq<KiraCall>
    requires config.maxDistance != 0.0
    decreases |emitters|
  {
    if emitters == [] then []
    else
      var n := |emitters| - 1;
      var levels := Levels(config, geometry, receiver, emitters[n].0);
      UpdateCalls(config, geometry, receiver, emitters[..n], assets) +
        EmitterCalls(emitters[n].1, assets, levels.0, levels.1)
  }

  /** The value view of the query: each emitter's transform with its current handles. */
  function Snapshot(emitters: seq<(Transform, AudioEmitter)>): (r: seq<(Transform, seq<InstanceHandle>)>)
    reads set i | 0 <= i < |emitters| :: emitters[i].1
    ensures |r| == |emitters|
    ensures forall i :: 0 <= i < |emitters| ==> r[i] == (emitters[i].0, emitters[i].1.instances)
  {
    seq(|emitters|, i requires 0 <= i < |emitters| reads set j | 0 <= j < |emitters| :: emitters[j].1 => (emitters[i].0, emitters[i].1.instances))
  }

  /**
   * `SpacialAudio::update`: for each emitter, compute volume and panning and
   * send both to each of its live instances. The `Option` results of the
   * instance methods are dropped, so the result is the list of commands sent.
   */
  method Update(config: SpacialAudio, geometry: Geometry, receiver: Transform,
                emitters: seq<(Transform, AudioEmitter)>, assets: map<InstanceHandle, AudioInstance>)
    returns (calls: seq<KiraCall>)
    requires config.maxDistance != 0.0
    ensures calls == UpdateCalls(config, geometry, receiver, Snapshot(emitters), assets)
  {
    ghost var view := Snapshot(emitters);
    calls := [];
    for e := 0 to |emitters|
      invariant calls == UpdateCalls(config, geometry, receiver, view[..e], assets)
    {
      var (transform, emitter) := emitters[e];
      var distance := geometry.distance(receiver, transform);
      var volume := Volume(distance, config.maxDistance);
      var panning := Panning(geometry.rightCosine(receiver, transform));
      var hs := emitter.instances;
      assert view[..e + 1][..e] == view[..e] && view[..e + 1][e] == (transform, hs);
      var sent := SetLevels(hs, assets, volume, panning);
      calls := calls + sent;
    }
    assert view[..|emitters|] == view;
  }

  /** The inner loop of `update`: volume, then panning, to each handle that has an asset. */
  method SetLevels(hs: seq<InstanceHandle>, assets: map<InstanceHandle, AudioInstance>, volume: real, panning: real)
    returns (calls: seq<KiraCall>)
    ensures calls == EmitterCalls(hs, assets, volume, panning)
  {
    calls := [];
    for j := 0 to |hs|
      invariant calls == EmitterCalls(hs[..j], assets, volume, panning)
    {
      assert hs[..j + 1][..j] == hs[..j];
      if hs[j] in assets {
        var handle := assets[hs[j]].handle;
        calls := calls + [KiraCall(handle, SetVolumeOp(volume, None))];
        calls := calls + [KiraCall(handle, SetPanningOp(panning, None))];
      }
    }
    assert hs[..|hs|] == hs;
  }

  /** `run_spacial_audio`: update only when the query yields exactly one receiver. */
  method RunSpacialAudio(config: SpacialAudio, geometry: Geometry, receivers: seq<Transform>,
                         emitters: seq<(Transform, AudioEmitter)>, assets: map<InstanceHandle, AudioInstance>)
    returns (calls: seq<KiraCall>)
    requires config.maxDistance != 0.0
    ensures |receivers| != 1 ==> calls == []
    ensures |receivers| == 1 ==> calls == UpdateCalls(config, geometry, receivers[0], Snapshot(emitters), assets)
  {
    if |receivers| == 1 {
      calls := Update(config, geometry, receivers[0], emitters, assets);
    } else {
      calls := [];
    }
  }
}
