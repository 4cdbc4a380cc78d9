/**
  UpdateMapping of the two block provisioners, which brings the LUN tables of all hosts in
  line with the cluster's nodes.
*/
module LunTables {
  import opened StorageArray
  import opened Commons
  import opened BlockProvisioner

  /** The volumes UpdateMapping looks at. */
  predicate Concerns(pv: PersistentVolume, source: Source) {
    pv.source == source && VolumeId(pv).Some?
  }

  /** Some volume of the list has this id and this LUN. */
  ghost predicate Listed(pvs: seq<PersistentVolume>, source: Source, id: Id, lun: int) {
    exists pv :: pv in pvs && Concerns(pv, source) && VolumeId(pv) == Some(id) && Lun(pv) == lun
  }

  /**
    What any run of UpdateMapping may do to the LUN tables, whatever calls fail: new entries
    carry the volume's own LUN, and only listed volumes are touched.
  */
  ghost predicate Synchronising(before: State, after: State, pvs: seq<PersistentVolume>, source: Source) {
    && after == before.(luns := after.luns)
    && (forall k :: k in after.luns ==>
          (k in before.luns && before.luns[k] == after.luns[k]) || Listed(pvs, source, k.1, after.luns[k]))
    && (forall k :: k in before.luns ==>
          (k in after.luns && after.luns[k] == before.luns[k]) || exists lun :: Listed(pvs, source, k.1, lun))
  }

  // ---------------------------------------------------------------- the effect when no call fails

  function MapOn(s: State, host: Id, id: Id, lun: int): State {
    if CanMap(s, host, id, lun) then Mapped(s, host, id, lun) else s
  }

  function MapOnHosts(s: State, names: seq<string>, id: Id, lun: int): State {
    if names == [] then s
    else
      var s1, n := MapOnHosts(s, names[..|names| - 1], id, lun), names[|names| - 1];
      if n in s.hosts then MapOn(s1, s.hosts[n], id, lun) else s1
  }

  function MapVolumes(s: State, pvs: seq<PersistentVolume>, source: Source, names: seq<string>): (r: State)
    ensures r.hosts == s.hosts
  {
    if pvs == [] then s
    else
      var s1, pv := MapVolumes(s, pvs[..|pvs| - 1], source, names), pvs[|pvs| - 1];
      if Concerns(pv, source) then MapVolume(s1, pv, names) else s1
  }

  function MapVolume(s: State, pv: PersistentVolume, names: seq<string>): (r: State)
    requires VolumeId(pv).Some?
    ensures r.hosts == s.hosts
  {
    MapOnHostsFrame(s, names, VolumeId(pv).value, Lun(pv));
    MapOnHosts(s, names, VolumeId(pv).value, Lun(pv))
  }

  lemma {:induction false} MapOnHostsFrame(s: State, names: seq<string>, id: Id, lun: int)
    ensures MapOnHosts(s, names, id, lun) == s.(luns := MapOnHosts(s, names, id, lun).luns)
    decreases |names|
  {
    if names != [] {
      MapOnHostsFrame(s, names[..|names| - 1], id, lun);
    }
  }

  function UnmapVolumes(s: State, pvs: seq<PersistentVolume>, source: Source, host: Id): State {
    if pvs == [] then s
    else
      var s1, pv := UnmapVolumes(s, pvs[..|pvs| - 1], source, host), pvs[|pvs| - 1];
      if Concerns(pv, source) then Unmapped(s1, host, VolumeId(pv).value) else s1
  }

  function UnmapNodes(s: State, pvs: seq<PersistentVolume>, source: Source, gone: seq<string>): State {
    if gone == [] then s
    else
      var s1, n := UnmapNodes(s, pvs, source, gone[..|gone| - 1]), gone[|gone| - 1];
      if n in s.hosts then UnmapVolumes(s1, pvs, source, s.hosts[n]) else s1
  }

  function Synchronised(s: State, pvs: seq<PersistentVolume>, source: Source, nodes: seq<string>, gone: seq<string>): State {
    UnmapNodes(MapVolumes(s, pvs, source, Registered(s.hosts, nodes)), pvs, source, gone)
  }

  // ---------------------------------------------------------------- the methods

  /** All errors are logged only; a mapping that exists is not even an error. */
  method MapVolumeOnHosts(arr: Array, pvs: seq<PersistentVolume>, pv: PersistentVolume, names: seq<string>)
    requires Wf(arr.s) && VolumeId(pv).Some? && pv in pvs && forall n :: n in names ==> n in arr.s.hosts
    modifies arr
    ensures Wf(arr.s) && arr.faults >= old(arr.faults)
    ensures Synchronising(old(arr.s), arr.s, pvs, pv.source)
    ensures arr.faults == old(arr.faults) ==> arr.s == MapVolume(old(arr.s), pv, names)
  {
    var id, lun := VolumeId(pv).value, Lun(pv);
    assert names[..0] == [];
    assert Listed(pvs, pv.source, id, lun);
    for k := 0 to |names|
      invariant Wf(arr.s) && arr.faults >= old(arr.faults) && arr.s.hosts == old(arr.s.hosts)
      invariant Synchronising(old(arr.s), arr.s, pvs, pv.source)
      invariant arr.faults == old(arr.faults) ==> arr.s == MapOnHosts(old(arr.s), names[..k], id, lun)
    {
      var host, _ := GetHostId(arr, names[k]);
      ghost var before := arr.s;
      var _ := arr.MapLun(host, id, Some(lun));
      MoreSynchronised(old(arr.s), before, arr.s, pvs, pv.source, host, id, lun);
      assert names[..k + 1][..k] == names[..k];
    }
    assert names[..|names|] == names;
  }

  lemma MoreSynchronised(s0: State, s1: State, s2: State, pvs: seq<PersistentVolume>, source: Source, host: Id, id: Id, lun: int)
    requires Synchronising(s0, s1, pvs, source) && Listed(pvs, source, id, lun)
    requires s2 == s1 || s2 == Unmapped(s1, host, id) || (s2 == Mapped(s1, host, id, lun) && (host, id) !in s1.luns)
    ensures Synchronising(s0, s2, pvs, source)
  {
  }

  lemma SynchronisingTwice(s0: State, s1: State, s2: State, pvs: seq<PersistentVolume>, source: Source)
    requires Synchronising(s0, s1, pvs, source) && Synchronising(s1, s2, pvs, source)
    ensures Synchronising(s0, s2, pvs, source)
  {
  }

  method UnmapVolumesFrom(arr: Array, source: Source, pvs: seq<PersistentVolume>, node: string)
    requires Wf(arr.s)
    modifies arr
    ensures Wf(arr.s) && arr.faults >= old(arr.faults)
    ensures Synchronising(old(arr.s), arr.s, pvs, source)
    ensures arr.faults == old(arr.faults) ==>
              arr.s == if node in arr.s.hosts then UnmapVolumes(old(arr.s), pvs, source, arr.s.hosts[node]) else old(arr.s)
  {
    var host, known := GetHostId(arr, node);
    ghost var asked := arr.faults;
    for k := 0 to |pvs|
      invariant Wf(arr.s) && arr.faults >= asked && arr.s.hosts == old(arr.s.hosts)
      invariant Synchronising(old(arr.s), arr.s, pvs, source)
      invariant arr.faults == old(arr.faults) ==>
                  arr.s == if known then UnmapVolumes(old(arr.s), pvs[..k], source, host) else old(arr.s)
    {
      assert pvs[..k + 1][..k] == pvs[..k];
      if Concerns(pvs[k], source) {
        ghost var before := arr.s;
        var id := VolumeId(pvs[k]).value;
        assert Listed(pvs, source, id, Lun(pvs[k]));
        var removed := UnMap(arr, host, id);
        if !known {
          assert (host, id) !in before.luns;
          assert before.luns - {(host, id)} == before.luns;
        }
        MoreSynchronised(old(arr.s), before, arr.s, pvs, source, host, id, Lun(pvs[k]));
      }
    }
    assert pvs[..|pvs|] == pvs;
  }

  method MapVolumesOn(arr: Array, source: Source, pvs: seq<PersistentVolume>, list: seq<string>)
    requires Wf(arr.s) && forall n :: n in list ==> n in arr.s.hosts
    modifies arr
    ensures Wf(arr.s) && arr.faults >= old(arr.faults)
    ensures Synchronising(old(arr.s), arr.s, pvs, source)
    ensures arr.faults == old(arr.faults) ==> arr.s == MapVolumes(old(arr.s), pvs, source, list)
  {
    for k := 0 to |pvs|
      invariant Wf(arr.s) && arr.faults >= old(arr.faults) && arr.s.hosts == old(arr.s.hosts)
      invariant Synchronising(old(arr.s), arr.s, pvs, source)
      invariant arr.faults == old(arr.faults) ==> arr.s == MapVolumes(old(arr.s), pvs[..k], source, list)
    {
      assert pvs[..k + 1][..k] == pvs[..k];
      if Concerns(pvs[k], source) {
        ghost var before := arr.s;
        MapVolumeOnHosts(arr, pvs, pvs[k], list);
        SynchronisingTwice(old(arr.s), before, arr.s, pvs, source);
      }
    }
    assert pvs[..|pvs|] == pvs;
  }

  method UnmapVolumesFromAll(arr: Array, source: Source, pvs: seq<PersistentVolume>, nodes: seq<string>)
    requires Wf(arr.s)
    modifies arr
    ensures Wf(arr.s) && arr.faults >= old(arr.faults)
    ensures Synchronising(old(arr.s), arr.s, pvs, source)
    ensures arr.faults == old(arr.faults) ==> arr.s == UnmapNodes(old(arr.s), pvs, source, nodes)
  {
    for k := 0 to |nodes|
      invariant Wf(arr.s) && arr.faults >= old(arr.faults) && arr.s.hosts == old(arr.s.hosts)
      invariant Synchronising(old(arr.s), arr.s, pvs, source)
      invariant arr.faults == old(arr.faults) ==> arr.s == UnmapNodes(old(arr.s), pvs, source, nodes[..k])
    {
      assert nodes[..k + 1][..k] == nodes[..k];
      ghost var before := arr.s;
      UnmapVolumesFrom(arr, source, pvs, nodes[k]);
      SynchronisingTwice(old(arr.s), before, arr.s, pvs, source);
      UnmapNodesHosts(old(arr.s), pvs, source, nodes[..k]);
    }
    assert nodes[..|nodes|] == nodes;
  }

  lemma {:induction false} UnmapVolumesHosts(s: State, pvs: seq<PersistentVolume>, source: Source, host: Id)
    ensures UnmapVolumes(s, pvs, source, host).hosts == s.hosts
    decreases |pvs|
  {
    if pvs != [] {
      UnmapVolumesHosts(s, pvs[..|pvs| - 1], source, host);
    }
  }

  lemma {:induction false} UnmapNodesHosts(s: State, pvs: seq<PersistentVolume>, source: Source, gone: seq<string>)
    ensures UnmapNodes(s, pvs, source, gone).hosts == s.hosts
    decreases |gone|
  {
    if gone != [] {
      var init, n := gone[..|gone| - 1], gone[|gone| - 1];
      UnmapNodesHosts(s, pvs, source, init);
      if n in s.hosts {
        UnmapVolumesHosts(UnmapNodes(s, pvs, source, init), pvs, source, s.hosts[n]);
      }
    }
  }

  /**
    Maps every volume of this kind to every registered node and, when a node left, unmaps
    them from it. Only the host list can make it fail, before anything is done.
  */
  method UpdateMapping(arr: Array, source: Source, pvs: seq<PersistentVolume>, nodes: seq<string>,
                       nodeDeleted: bool, changed: seq<string>) returns (ok: bool)
    requires Wf(arr.s)
    modifies arr
    ensures Wf(arr.s) && arr.faults >= old(arr.faults)
    ensures Synchronising(old(arr.s), arr.s, pvs, source)
    ensures !ok ==> arr.s == old(arr.s)
    ensures arr.faults == old(arr.faults) ==>
              ok && arr.s == Synchronised(old(arr.s), pvs, source, nodes, if nodeDeleted then changed else [])
  {
    var list, listed := GetHostList(arr, nodes);
    if !listed {
      return false;
    }
    MapVolumesOn(arr, source, pvs, list);
    ghost var mapped := arr.s;
    if nodeDeleted {
      UnmapVolumesFromAll(arr, source, pvs, changed);
      SynchronisingTwice(old(arr.s), mapped, arr.s, pvs, source);
    }
    ok := true;
  }
}
