/**
  The LUN tables when every call succeeds: each event re-establishes that exactly the
  registered nodes map exactly the block volumes, each at its own LUN.
*/
module LunRuns {
  import opened StorageArray
  import opened Commons
  import opened BlockProvisioner
  import opened LunTables

  type LunMap = map<(Id, Id), int>

  /** Volume ids and LUNs of the listed volumes of one kind. */
  function TableOf(pvs: seq<PersistentVolume>, source: Source): map<Id, int> {
    if pvs == [] then map[]
    else
      var t, pv := TableOf(pvs[..|pvs| - 1], source), pvs[|pvs| - 1];
      if Concerns(pv, source) then t[VolumeId(pv).value := Lun(pv)] else t
  }

  /** The LUN of a volume on a host, if it is mapped there. */
  function At(luns: LunMap, h: Id, v: Id): Option<int> {
    if (h, v) in luns then Some(luns[(h, v)]) else None
  }

  ghost predicate Injective(table: map<Id, int>) {
    forall v, w :: v in table && w in table && table[v] == table[w] ==> v == w
  }

  /** The table can be mapped on `hs`: its volumes are mapped at their LUNs only, and nobody else has these LUNs there. */
  ghost predicate Fits(s: State, table: map<Id, int>, hs: set<Id>) {
    && Injective(table)
    && (forall v :: v in table ==> v in s.volumes && 0 <= table[v] <= MAX_LUN)
    && (forall h: Id, v: Id :: (h, v) in s.luns && v in table ==> s.luns[(h, v)] == table[v])
    && (forall h: Id, v: Id, w :: (h, v) in s.luns && h in hs && v !in table && w in table ==> s.luns[(h, v)] != table[w])
  }

  // ---------------------------------------------------------------- what UpdateMapping amounts to

  /** Only the LUN tables differ, and `id` is mapped at `lun` on the hosts of `hs` in addition. */
  ghost predicate MappedToo(before: State, after: State, hs: set<Id>, id: Id, lun: int) {
    && after == before.(luns := after.luns)
    && forall h, v :: At(after.luns, h, v) == if h in hs && v == id then Some(lun) else At(before.luns, h, v)
  }

  /** The same for all volumes of a table. */
  ghost predicate TableMappedToo(before: State, after: State, hs: set<Id>, table: map<Id, int>) {
    && after == before.(luns := after.luns)
    && forall h, v :: At(after.luns, h, v) == if h in hs && v in table then Some(table[v]) else At(before.luns, h, v)
  }

  ghost predicate TableUnmapped(before: State, after: State, hs: set<Id>, table: map<Id, int>) {
    && after == before.(luns := after.luns)
    && forall h, v :: At(after.luns, h, v) == if h in hs && v in table then None else At(before.luns, h, v)
  }

  lemma {:induction false} MapOnHostsEffect(s: State, names: seq<string>, id: Id, lun: int)
    requires id in s.volumes && 0 <= lun <= MAX_LUN
    requires forall h :: h in HostIds(s.hosts, names) ==>
               if (h, id) in s.luns then s.luns[(h, id)] == lun else !LunTaken(s, h, lun)
    ensures MappedToo(s, MapOnHosts(s, names, id, lun), HostIds(s.hosts, names), id, lun)
    decreases |names|
  {
    if names != [] {
      var init, n := names[..|names| - 1], names[|names| - 1];
      assert names == init + [n];
      assert forall m :: m in names <==> m in init || m == n;
      assert HostIds(s.hosts, init) <= HostIds(s.hosts, names);
      MapOnHostsEffect(s, init, id, lun);
      var hs := HostIds(s.hosts, init);
      if n in s.hosts {
        assert HostIds(s.hosts, names) == hs + {s.hosts[n]};
        OneMoreHost(s, MapOnHosts(s, init, id, lun), hs, s.hosts[n], id, lun);
      } else {
        assert HostIds(s.hosts, names) == hs;
      }
    }
  }

  lemma OneMoreHost(s: State, s1: State, hs: set<Id>, host: Id, id: Id, lun: int)
    requires MappedToo(s, s1, hs, id, lun)
    requires id in s.volumes && 0 <= lun <= MAX_LUN && host in s.hosts.Values
    requires if (host, id) in s.luns then s.luns[(host, id)] == lun else !LunTaken(s, host, lun)
    ensures MappedToo(s, MapOn(s1, host, id, lun), hs + {host}, id, lun)
  {
    assert At(s1.luns, host, id) == if host in hs then Some(lun) else At(s.luns, host, id);
    if (host, id) !in s1.luns {
      forall v | v in s1.volumes && (host, v) in s1.luns ensures s1.luns[(host, v)] != lun {
        assert v != id && At(s1.luns, host, v) == At(s.luns, host, v);
      }
      assert CanMap(s1, host, id, lun);
    }
    var s2 := MapOn(s1, host, id, lun);
    forall h, v ensures At(s2.luns, h, v) == if h in hs + {host} && v == id then Some(lun) else At(s.luns, h, v) {
      assert At(s1.luns, h, v) == if h in hs && v == id then Some(lun) else At(s.luns, h, v);
    }
  }

  predicate IsBlock(pv: PersistentVolume) {
    pv.source != Nfs && VolumeId(pv).Some?
  }

  ghost predicate DistinctVolumes(pvs: seq<PersistentVolume>) {
    forall i, j :: 0 <= i < j < |pvs| && IsBlock(pvs[i]) && IsBlock(pvs[j]) ==> VolumeId(pvs[i]) != VolumeId(pvs[j])
  }

  lemma {:induction false} TableMembers(pvs: seq<PersistentVolume>, source: Source)
    requires DistinctVolumes(pvs) && source != Nfs
    ensures forall pv :: pv in pvs && Concerns(pv, source) ==>
              VolumeId(pv).value in TableOf(pvs, source) && TableOf(pvs, source)[VolumeId(pv).value] == Lun(pv)
    ensures forall v :: v in TableOf(pvs, source) ==>
              exists pv :: pv in pvs && Concerns(pv, source) && VolumeId(pv) == Some(v)
    decreases |pvs|
  {
    if pvs != [] {
      var init, last := pvs[..|pvs| - 1], pvs[|pvs| - 1];
      assert pvs == init + [last];
      assert forall pv :: pv in pvs <==> pv in init || pv == last;
      TableMembers(init, source);
    }
  }

  lemma LastIsNew(pvs: seq<PersistentVolume>, source: Source)
    requires DistinctVolumes(pvs) && source != Nfs && pvs != [] && Concerns(pvs[|pvs| - 1], source)
    ensures VolumeId(pvs[|pvs| - 1]).value !in TableOf(pvs[..|pvs| - 1], source)
  {
    TableMembers(pvs[..|pvs| - 1], source);
  }

  lemma {:induction false} MapVolumesEffect(s: State, pvs: seq<PersistentVolume>, source: Source, names: seq<string>)
    requires DistinctVolumes(pvs) && source != Nfs && Fits(s, TableOf(pvs, source), HostIds(s.hosts, names))
    ensures TableMappedToo(s, MapVolumes(s, pvs, source, names), HostIds(s.hosts, names), TableOf(pvs, source))
    decreases |pvs|
  {
    var hs := HostIds(s.hosts, names);
    if pvs != [] {
      var init, last := pvs[..|pvs| - 1], pvs[|pvs| - 1];
      var t0 := TableOf(init, source);
      if Concerns(last, source) {
        LastIsNew(pvs, source);
        FitsPart(s, t0, VolumeId(last).value, Lun(last), hs);
        MapVolumesEffect(s, init, source, names);
        OneMoreVolume(s, MapVolumes(s, init, source, names), t0, VolumeId(last).value, Lun(last), names);
      } else {
        MapVolumesEffect(s, init, source, names);
      }
    }
  }

  lemma FitsPart(s: State, t0: map<Id, int>, v: Id, lun: int, hs: set<Id>)
    requires v !in t0 && Fits(s, t0[v := lun], hs)
    ensures Fits(s, t0, hs)
  {
    var t := t0[v := lun];
    forall w | w in t0 ensures t0[w] != lun && w in t && t[w] == t0[w] {
      assert t[v] == lun && t[w] == t0[w] && w != v;
    }
    forall h: Id, w: Id, u | (h, w) in s.luns && h in hs && w !in t0 && u in t0
      ensures s.luns[(h, w)] != t0[u]
    {
      assert u in t && t[u] == t0[u];
      assert w in t ==> w == v && s.luns[(h, w)] == lun;
    }
  }

  lemma OneMoreVolume(s: State, s1: State, t0: map<Id, int>, v: Id, lun: int, names: seq<string>)
    requires v !in t0 && Fits(s, t0[v := lun], HostIds(s.hosts, names))
    requires TableMappedToo(s, s1, HostIds(s.hosts, names), t0)
    ensures TableMappedToo(s, MapOnHosts(s1, names, v, lun), HostIds(s.hosts, names), t0[v := lun])
  {
    var t, hs := t0[v := lun], HostIds(s.hosts, names);
    assert v in t && t[v] == lun;
    forall h | h in hs ensures if (h, v) in s1.luns then s1.luns[(h, v)] == lun else !LunTaken(s1, h, lun) {
      assert At(s1.luns, h, v) == At(s.luns, h, v);
      forall w | (h, w) in s1.luns && w != v ensures s1.luns[(h, w)] != lun {
        assert At(s1.luns, h, w) == if w in t0 then Some(t0[w]) else At(s.luns, h, w);
        if w in t0 {
          assert w in t && t[w] == t0[w];
        } else {
          assert w !in t && (h, w) in s.luns && s.luns[(h, w)] == s1.luns[(h, w)];
        }
      }
    }
    MapOnHostsEffect(s1, names, v, lun);
    var s2 := MapOnHosts(s1, names, v, lun);
    forall h, w ensures At(s2.luns, h, w) == if h in hs && w in t then Some(t[w]) else At(s.luns, h, w) {
      assert At(s2.luns, h, w) == if h in hs && w == v then Some(lun) else At(s1.luns, h, w);
      assert At(s1.luns, h, w) == if h in hs && w in t0 then Some(t0[w]) else At(s.luns, h, w);
    }
  }

  lemma {:induction false} UnmapVolumesEffect(s: State, pvs: seq<PersistentVolume>, source: Source, host: Id)
    ensures TableUnmapped(s, UnmapVolumes(s, pvs, source, host), {host}, TableOf(pvs, source))
    decreases |pvs|
  {
    if pvs != [] {
      UnmapVolumesEffect(s, pvs[..|pvs| - 1], source, host);
    }
  }

  lemma {:induction false} UnmapNodesEffect(s: State, pvs: seq<PersistentVolume>, source: Source, gone: seq<string>)
    ensures TableUnmapped(s, UnmapNodes(s, pvs, source, gone), HostIds(s.hosts, gone), TableOf(pvs, source))
    decreases |gone|
  {
    if gone != [] {
      var init, n := gone[..|gone| - 1], gone[|gone| - 1];
      assert gone == init + [n];
      assert forall m :: m in gone <==> m in init || m == n;
      UnmapNodesEffect(s, pvs, source, init);
      var s1 := UnmapNodes(s, pvs, source, init);
      if n in s.hosts {
        assert HostIds(s.hosts, gone) == HostIds(s.hosts, init) + {s.hosts[n]};
        UnmapVolumesEffect(s1, pvs, source, s.hosts[n]);
        UnmappedTwice(s, s1, UnmapNodes(s, pvs, source, gone), HostIds(s.hosts, init), s.hosts[n], TableOf(pvs, source));
      } else {
        assert HostIds(s.hosts, gone) == HostIds(s.hosts, init);
      }
    }
  }

  lemma UnmappedTwice(s: State, s1: State, s2: State, hs: set<Id>, host: Id, table: map<Id, int>)
    requires TableUnmapped(s, s1, hs, table) && TableUnmapped(s1, s2, {host}, table)
    ensures TableUnmapped(s, s2, hs + {host}, table)
  {
    forall h, v ensures At(s2.luns, h, v) == if h in hs + {host} && v in table then None else At(s.luns, h, v) {
      assert At(s2.luns, h, v) == if h in {host} && v in table then None else At(s1.luns, h, v);
      assert At(s1.luns, h, v) == if h in hs && v in table then None else At(s.luns, h, v);
    }
  }

  /** The LUN of a volume on a host after one provisioner has handled an event. */
  function Target(luns: LunMap, h: Id, v: Id, table: map<Id, int>, hs: set<Id>, gone: set<Id>): Option<int> {
    if v in table && h in gone then None
    else if v in table && h in hs then Some(table[v])
    else At(luns, h, v)
  }

  ghost predicate Handled(before: State, after: State, table: map<Id, int>, hs: set<Id>, gone: set<Id>) {
    && after == before.(luns := after.luns)
    && forall h, v :: At(after.luns, h, v) == Target(before.luns, h, v, table, hs, gone)
  }

  /** What UpdateMapping does to the LUN tables when no call fails. */
  lemma SynchronisedEffect(s: State, pvs: seq<PersistentVolume>, source: Source, nodes: seq<string>, gone: seq<string>)
    requires DistinctVolumes(pvs) && source != Nfs && Fits(s, TableOf(pvs, source), HostIds(s.hosts, nodes))
    ensures Handled(s, Synchronised(s, pvs, source, nodes, gone), TableOf(pvs, source),
                    HostIds(s.hosts, nodes), HostIds(s.hosts, gone))
  {
    var names, t := Registered(s.hosts, nodes), TableOf(pvs, source);
    SameHosts(s.hosts, nodes);
    MapVolumesEffect(s, pvs, source, names);
    var s1 := MapVolumes(s, pvs, source, names);
    UnmapNodesEffect(s1, pvs, source, gone);
    var s2 := UnmapNodes(s1, pvs, source, gone);
    forall h, v ensures At(s2.luns, h, v) == Target(s.luns, h, v, t, HostIds(s.hosts, nodes), HostIds(s.hosts, gone)) {
      assert At(s2.luns, h, v) == if h in HostIds(s.hosts, gone) && v in t then None else At(s1.luns, h, v);
      assert At(s1.luns, h, v) == if h in HostIds(s.hosts, nodes) && v in t then Some(t[v]) else At(s.luns, h, v);
    }
  }

  lemma SameTable(a: LunMap, b: LunMap)
    requires forall h, v :: At(a, h, v) == At(b, h, v)
    ensures a == b
  {
    forall k: (Id, Id) ensures k in a <==> k in b {
      assert At(a, k.0, k.1) == At(b, k.0, k.1);
    }
    forall k | k in a ensures a[k] == b[k] {
      assert At(a, k.0, k.1) == At(b, k.0, k.1);
    }
  }
}
