/**
  Node events as the controller dispatches them, to the NFS, iSCSI and Fibre Channel
  provisioners in no particular order, and runs in which every call succeeds.
*/
module ClusterEvents {
  import opened StorageArray
  import opened Commons
  import opened BlockProvisioner
  import opened LunTables
  import opened LunRuns
  import NfsProvisioner
  import ExportClients

  type Node = NfsProvisioner.Node

  function Names(nodes: seq<Node>): seq<string> {
    seq(|nodes|, i requires 0 <= i < |nodes| => nodes[i].name)
  }

  function NodeHosts(s: State, nodes: seq<Node>): set<Id> {
    HostIds(s.hosts, Names(nodes))
  }

  /** One provisioner's UpdateMapping when no call fails. */
  function Handle(s: State, pvs: seq<PersistentVolume>, source: Source, nodes: seq<Node>, added: bool, changed: seq<Node>): State {
    match source
    case Nfs => ExportClients.UpdatedExports(s, pvs, nodes, added, changed).0
    case _ => Synchronised(s, pvs, source, Names(nodes), if added then [] else Names(changed))
  }

  /** All block volumes with their LUNs. */
  function BlockTable(pvs: seq<PersistentVolume>): map<Id, int> {
    TableOf(pvs, Iscsi) + TableOf(pvs, Fc)
  }

  ghost predicate Ready(s: State, pvs: seq<PersistentVolume>, hs: set<Id>) {
    DistinctVolumes(pvs) && Fits(s, BlockTable(pvs), hs)
  }

  lemma SameIdSameVolume(pvs: seq<PersistentVolume>, p: PersistentVolume, q: PersistentVolume)
    requires DistinctVolumes(pvs) && p in pvs && q in pvs && IsBlock(p) && IsBlock(q) && VolumeId(p) == VolumeId(q)
    ensures p == q
  {
    var i :| 0 <= i < |pvs| && pvs[i] == p;
    var j :| 0 <= j < |pvs| && pvs[j] == q;
  }

  lemma KindsApart(pvs: seq<PersistentVolume>)
    requires DistinctVolumes(pvs)
    ensures TableOf(pvs, Iscsi).Keys !! TableOf(pvs, Fc).Keys
  {
    forall v | v in TableOf(pvs, Iscsi) ensures v !in TableOf(pvs, Fc) {
      if v in TableOf(pvs, Fc) {
        var p := TableMember(pvs, Iscsi, v);
        var q := TableMember(pvs, Fc, v);
        SameIdSameVolume(pvs, p, q);
      }
    }
  }

  lemma TableMember(pvs: seq<PersistentVolume>, source: Source, v: Id) returns (pv: PersistentVolume)
    requires DistinctVolumes(pvs) && source != Nfs && v in TableOf(pvs, source)
    ensures pv in pvs && Concerns(pv, source) && VolumeId(pv) == Some(v)
  {
    TableMembers(pvs, source);
    pv :| pv in pvs && Concerns(pv, source) && VolumeId(pv) == Some(v);
  }

  lemma InBlockTable(pvs: seq<PersistentVolume>, pv: PersistentVolume)
    requires DistinctVolumes(pvs) && pv in pvs && IsBlock(pv)
    ensures VolumeId(pv).value in BlockTable(pvs)
  {
    TableMembers(pvs, pv.source);
    assert Concerns(pv, pv.source);
  }

  lemma ReadyForKind(s: State, pvs: seq<PersistentVolume>, source: Source, hs: set<Id>)
    requires Ready(s, pvs, hs) && source != Nfs
    ensures Fits(s, TableOf(pvs, source), hs)
  {
    KindsApart(pvs);
    var all, t := BlockTable(pvs), TableOf(pvs, source);
    forall v | v in t ensures v in all && all[v] == t[v] {
    }
    forall h: Id, v: Id, w | (h, v) in s.luns && h in hs && v !in t && w in t ensures s.luns[(h, v)] != t[w] {
      assert w in all && all[w] == t[w] && v != w;
    }
  }

  /** A block provisioner's handling, as a statement about every entry of the LUN tables. */
  lemma BlockHandling(s: State, pvs: seq<PersistentVolume>, source: Source, nodes: seq<Node>, added: bool, changed: seq<Node>)
    requires source != Nfs && Ready(s, pvs, NodeHosts(s, nodes))
    ensures var s' := Handle(s, pvs, source, nodes, added, changed);
            && Handled(s, s', TableOf(pvs, source), NodeHosts(s, nodes), if added then {} else NodeHosts(s, changed))
            && Ready(s', pvs, NodeHosts(s, nodes))
  {
    var hs, gone := NodeHosts(s, nodes), if added then {} else NodeHosts(s, changed);
    ReadyForKind(s, pvs, source, hs);
    SynchronisedEffect(s, pvs, source, Names(nodes), if added then [] else Names(changed));
    var s' := Handle(s, pvs, source, nodes, added, changed);
    var t, all := TableOf(pvs, source), BlockTable(pvs);
    assert HostIds(s.hosts, []) == {};
    KindsApart(pvs);
    forall h: Id, v: Id | (h, v) in s'.luns
      ensures if v in all then s'.luns[(h, v)] == all[v] else (h, v) in s.luns && s.luns[(h, v)] == s'.luns[(h, v)]
    {
      assert At(s'.luns, h, v) == Target(s.luns, h, v, t, hs, gone);
    }
  }

  lemma {:induction false} ExportsOnly(s: State, luns: LunMap, pvs: seq<PersistentVolume>, nodes: seq<Node>, added: bool, changed: seq<Node>)
    ensures var (r, ok) := ExportClients.RefreshAll(s, pvs, nodes, added, changed);
            && r == s.(exports := r.exports)
            && ExportClients.RefreshAll(s.(luns := luns), pvs, nodes, added, changed) == (r.(luns := luns), ok)
    decreases |pvs|
  {
    if pvs != [] {
      ExportsOnly(s, luns, pvs[..|pvs| - 1], nodes, added, changed);
    }
  }

  lemma NfsHandling(s: State, luns: LunMap, pvs: seq<PersistentVolume>, nodes: seq<Node>, added: bool, changed: seq<Node>)
    ensures var r := Handle(s, pvs, Nfs, nodes, added, changed);
            && r == s.(exports := r.exports)
            && Handle(s.(luns := luns), pvs, Nfs, nodes, added, changed) == r.(luns := luns)
  {
    ExportsOnly(s, luns, pvs, nodes, added, changed);
  }

  lemma BlockIgnoresExports(s: State, exports: map<Id, Export>, pvs: seq<PersistentVolume>, source: Source,
                            nodes: seq<Node>, added: bool, changed: seq<Node>)
    requires source != Nfs && Ready(s, pvs, NodeHosts(s, nodes))
    ensures Handle(s.(exports := exports), pvs, source, nodes, added, changed)
            == Handle(s, pvs, source, nodes, added, changed).(exports := exports)
  {
    var s0 := s.(exports := exports);
    assert Ready(s0, pvs, NodeHosts(s0, nodes));
    BlockHandling(s, pvs, source, nodes, added, changed);
    BlockHandling(s0, pvs, source, nodes, added, changed);
    HandledUnique(s, Handle(s, pvs, source, nodes, added, changed),
                  Handle(s0, pvs, source, nodes, added, changed).(exports := s.exports),
                  TableOf(pvs, source), NodeHosts(s, nodes), if added then {} else NodeHosts(s, changed));
  }

  /** Handling two disjoint tables one after the other is handling their union. */
  lemma HandledBoth(s0: State, s1: State, s2: State, t: map<Id, int>, u: map<Id, int>, hs: set<Id>, gone: set<Id>)
    requires t.Keys !! u.Keys && Handled(s0, s1, t, hs, gone) && Handled(s1, s2, u, hs, gone)
    ensures Handled(s0, s2, t + u, hs, gone)
  {
    forall h, v ensures At(s2.luns, h, v) == Target(s0.luns, h, v, t + u, hs, gone) {
      assert At(s2.luns, h, v) == Target(s1.luns, h, v, u, hs, gone);
      assert At(s1.luns, h, v) == Target(s0.luns, h, v, t, hs, gone);
    }
  }

  lemma HandledUnique(s0: State, s1: State, s2: State, t: map<Id, int>, hs: set<Id>, gone: set<Id>)
    requires Handled(s0, s1, t, hs, gone) && Handled(s0, s2, t, hs, gone)
    ensures s1 == s2
  {
    forall h, v ensures At(s1.luns, h, v) == At(s2.luns, h, v) {
      assert At(s1.luns, h, v) == Target(s0.luns, h, v, t, hs, gone);
      assert At(s2.luns, h, v) == Target(s0.luns, h, v, t, hs, gone);
    }
    SameTable(s1.luns, s2.luns);
  }

  lemma BothBlocks(s: State, pvs: seq<PersistentVolume>, x: Source, y: Source, nodes: seq<Node>, added: bool, changed: seq<Node>)
    requires Ready(s, pvs, NodeHosts(s, nodes)) && x != y && x != Nfs && y != Nfs
    ensures var s' := Handle(Handle(s, pvs, x, nodes, added, changed), pvs, y, nodes, added, changed);
            && Handled(s, s', BlockTable(pvs), NodeHosts(s, nodes), if added then {} else NodeHosts(s, changed))
            && Ready(s', pvs, NodeHosts(s, nodes))
  {
    var hs, gone := NodeHosts(s, nodes), if added then {} else NodeHosts(s, changed);
    KindsApart(pvs);
    BlockHandling(s, pvs, x, nodes, added, changed);
    var s1 := Handle(s, pvs, x, nodes, added, changed);
    BlockHandling(s1, pvs, y, nodes, added, changed);
    var s2 := Handle(s1, pvs, y, nodes, added, changed);
    HandledBoth(s, s1, s2, TableOf(pvs, x), TableOf(pvs, y), hs, gone);
    assert TableOf(pvs, x) + TableOf(pvs, y) == BlockTable(pvs);
  }

  lemma BlocksSwap(s: State, pvs: seq<PersistentVolume>, nodes: seq<Node>, added: bool, changed: seq<Node>)
    requires Ready(s, pvs, NodeHosts(s, nodes))
    ensures Handle(Handle(s, pvs, Iscsi, nodes, added, changed), pvs, Fc, nodes, added, changed)
         == Handle(Handle(s, pvs, Fc, nodes, added, changed), pvs, Iscsi, nodes, added, changed)
  {
    BothBlocks(s, pvs, Iscsi, Fc, nodes, added, changed);
    BothBlocks(s, pvs, Fc, Iscsi, nodes, added, changed);
    HandledUnique(s, Handle(Handle(s, pvs, Iscsi, nodes, added, changed), pvs, Fc, nodes, added, changed),
                  Handle(Handle(s, pvs, Fc, nodes, added, changed), pvs, Iscsi, nodes, added, changed),
                  BlockTable(pvs), NodeHosts(s, nodes), if added then {} else NodeHosts(s, changed));
  }

  lemma Swap(s: State, pvs: seq<PersistentVolume>, x: Source, y: Source, nodes: seq<Node>, added: bool, changed: seq<Node>)
    requires Ready(s, pvs, NodeHosts(s, nodes))
    ensures Handle(Handle(s, pvs, x, nodes, added, changed), pvs, y, nodes, added, changed)
         == Handle(Handle(s, pvs, y, nodes, added, changed), pvs, x, nodes, added, changed)
    ensures Ready(Handle(s, pvs, x, nodes, added, changed), pvs, NodeHosts(s, nodes))
    ensures Handle(s, pvs, x, nodes, added, changed).hosts == s.hosts
  {
    if x != Nfs && y != Nfs && x != y {
      BlocksSwap(s, pvs, nodes, added, changed);
    } else if x == Nfs && y != Nfs {
      NfsSwap(s, pvs, y, nodes, added, changed);
    } else if x != Nfs && y == Nfs {
      NfsSwap(s, pvs, x, nodes, added, changed);
    }
    if x != Nfs {
      BlockHandling(s, pvs, x, nodes, added, changed);
    } else {
      NfsHandling(s, s.luns, pvs, nodes, added, changed);
    }
  }

  lemma NfsSwap(s: State, pvs: seq<PersistentVolume>, x: Source, nodes: seq<Node>, added: bool, changed: seq<Node>)
    requires x != Nfs && Ready(s, pvs, NodeHosts(s, nodes))
    ensures Handle(Handle(s, pvs, x, nodes, added, changed), pvs, Nfs, nodes, added, changed)
         == Handle(Handle(s, pvs, Nfs, nodes, added, changed), pvs, x, nodes, added, changed)
  {
    BlockHandling(s, pvs, x, nodes, added, changed);
    var sx := Handle(s, pvs, x, nodes, added, changed);
    NfsHandling(s, sx.luns, pvs, nodes, added, changed);
    var sn := Handle(s, pvs, Nfs, nodes, added, changed);
    BlockIgnoresExports(s, sn.exports, pvs, x, nodes, added, changed);
  }

  /**
    The controller walks its provisioners in the order of a Go map; whatever that order is,
    the array ends up the same.
  */
  lemma DispatchOrderIsIrrelevant(s: State, pvs: seq<PersistentVolume>, nodes: seq<Node>, added: bool, changed: seq<Node>,
                                  x: Source, y: Source, z: Source)
    requires Ready(s, pvs, NodeHosts(s, nodes)) && x != y && y != z && x != z
    ensures Handle(Handle(Handle(s, pvs, x, nodes, added, changed), pvs, y, nodes, added, changed), pvs, z, nodes, added, changed)
         == Dispatched(s, pvs, nodes, added, changed)
  {
    forall a, b ensures Handle(Handle(s, pvs, a, nodes, added, changed), pvs, b, nodes, added, changed)
                     == Handle(Handle(s, pvs, b, nodes, added, changed), pvs, a, nodes, added, changed)
    {
      Swap(s, pvs, a, b, nodes, added, changed);
    }
    forall a, b, c ensures
        var sa := Handle(s, pvs, a, nodes, added, changed);
        Handle(Handle(sa, pvs, b, nodes, added, changed), pvs, c, nodes, added, changed)
        == Handle(Handle(sa, pvs, c, nodes, added, changed), pvs, b, nodes, added, changed)
    {
      Swap(s, pvs, a, a, nodes, added, changed);
      Swap(Handle(s, pvs, a, nodes, added, changed), pvs, b, c, nodes, added, changed);
    }
  }

  function Dispatched(s: State, pvs: seq<PersistentVolume>, nodes: seq<Node>, added: bool, changed: seq<Node>): State {
    Handle(Handle(Handle(s, pvs, Nfs, nodes, added, changed), pvs, Iscsi, nodes, added, changed), pvs, Fc, nodes, added, changed)
  }

  // ---------------------------------------------------------------- runs without lost calls

  datatype World = World(s: State, pvs: seq<PersistentVolume>, nodes: seq<Node>)

  /** Exactly the registered nodes map exactly the block volumes, each at its own LUN and no two at the same. */
  ghost predicate Complete(w: World) {
    var all, hs := BlockTable(w.pvs), NodeHosts(w.s, w.nodes);
    && HostsWf(w.s.hosts) && Distinct(Names(w.nodes)) && DistinctVolumes(w.pvs) && Injective(all)
    && (forall v :: v in all ==> v in w.s.volumes && v in w.s.issued && 0 <= all[v] <= MAX_LUN)
    && forall h, v :: At(w.s.luns, h, v) == if v in all && h in hs then Some(all[v]) else None
  }

  datatype Step =
    | Provision(name: string, source: Source, id: Id, lun: int)
    | Delete(k: nat)
    | Join(n: Node)
    | Leave(k: nat)
    | ProvisionNfs(s: State, pv: PersistentVolume)
    | DeleteNfs(s: State, k: nat)
    | ElsewhereOnly(s: State) // anything that concerns neither volumes nor hosts

  function Without<T>(xs: seq<T>, k: nat): seq<T>
    requires k < |xs|
  {
    xs[..k] + xs[k + 1..]
  }

  /** What NFS operations, for one, leave alone. */
  predicate SameBlocks(s: State, s': State) {
    s'.volumes == s.volumes && s'.luns == s.luns && s'.hosts == s.hosts && s.issued <= s'.issued
  }

  /** Provision is what CreateVolume guarantees on success; the array has accepted the new mappings. */
  ghost predicate Enabled(w: World, step: Step) {
    match step
    case Provision(name, source, id, lun) =>
      && source != Nfs && id !in w.s.issued && 0 < id <= MAX_ID && 0 <= lun <= MAX_LUN
      && NodeHosts(w.s, w.nodes) != {}
      && LunsDistinct(Asset(w.s, id, name, NodeHosts(w.s, w.nodes), lun).luns)
    case Delete(k) => k < |w.pvs| && IsBlock(w.pvs[k])
    case Join(n) => n.name !in Names(w.nodes)
    case Leave(k) => k < |w.nodes|
    case ProvisionNfs(s, pv) => SameBlocks(w.s, s) && pv.source == Nfs
    case DeleteNfs(s, k) => SameBlocks(w.s, s) && k < |w.pvs| && w.pvs[k].source == Nfs
    case ElsewhereOnly(s) => SameBlocks(w.s, s)
  }

  ghost function Apply(w: World, step: Step): World
    requires Enabled(w, step)
  {
    match step
    case Provision(name, source, id, lun) =>
      World(Asset(w.s, id, name, NodeHosts(w.s, w.nodes), lun), w.pvs + [NewVolume(name, source, id, lun)], w.nodes)
    case Delete(k) => w.(s := VolumeDestroyed(w.s, VolumeId(w.pvs[k]).value), pvs := Without(w.pvs, k))
    case Join(n) => w.(s := Dispatched(w.s, w.pvs, w.nodes + [n], true, [n]), nodes := w.nodes + [n])
    case Leave(k) =>
      w.(s := Dispatched(w.s, w.pvs, Without(w.nodes, k), false, [w.nodes[k]]), nodes := Without(w.nodes, k))
    case ProvisionNfs(s, pv) => w.(s := s, pvs := w.pvs + [pv])
    case DeleteNfs(s, k) => w.(s := s, pvs := Without(w.pvs, k))
    case ElsewhereOnly(s) => w.(s := s)
  }

  lemma EventComplete(w: World, nodes': seq<Node>, added: bool, changed: seq<Node>)
    requires Complete(w) && Distinct(Names(nodes'))
    requires var gone := if added then {} else NodeHosts(w.s, changed);
             NodeHosts(w.s, w.nodes) <= NodeHosts(w.s, nodes') + gone && NodeHosts(w.s, nodes') !! gone
    ensures Complete(w.(s := Dispatched(w.s, w.pvs, nodes', added, changed), nodes := nodes'))
  {
    var all, hs' := BlockTable(w.pvs), NodeHosts(w.s, nodes');
    var gone := if added then {} else NodeHosts(w.s, changed);
    forall h: Id, v: Id | (h, v) in w.s.luns ensures v in all && w.s.luns[(h, v)] == all[v] {
      assert At(w.s.luns, h, v) == if v in all && h in NodeHosts(w.s, w.nodes) then Some(all[v]) else None;
    }
    assert Ready(w.s, w.pvs, hs');
    NfsHandling(w.s, w.s.luns, w.pvs, nodes', added, changed);
    var s1 := Handle(w.s, w.pvs, Nfs, nodes', added, changed);
    assert Ready(s1, w.pvs, hs');
    BothBlocks(s1, w.pvs, Iscsi, Fc, nodes', added, changed);
    var s2 := Dispatched(w.s, w.pvs, nodes', added, changed);
    forall h, v ensures At(s2.luns, h, v) == if v in all && h in hs' then Some(all[v]) else None {
      assert At(s2.luns, h, v) == Target(s1.luns, h, v, all, hs', gone);
      assert At(w.s.luns, h, v) == if v in all && h in NodeHosts(w.s, w.nodes) then Some(all[v]) else None;
    }
  }

  lemma NamesAppend(nodes: seq<Node>, n: Node)
    ensures Names(nodes + [n]) == Names(nodes) + [n.name]
  {
  }

  lemma NamesWithout(nodes: seq<Node>, k: nat)
    requires k < |nodes|
    ensures Names(Without(nodes, k)) == Without(Names(nodes), k)
  {
  }

  lemma DistinctWithout(names: seq<string>, k: nat)
    requires Distinct(names) && k < |names|
    ensures Distinct(Without(names, k)) && names[k] !in Without(names, k)
    ensures forall n :: n in names <==> n in Without(names, k) || n == names[k]
  {
    var rest := Without(names, k);
    assert forall i :: 0 <= i < |rest| ==> rest[i] == names[if i < k then i else i + 1];
    assert forall i :: 0 <= i < |names| && i != k ==> names[i] == rest[if i < k then i else i - 1];
  }

  lemma JoinComplete(w: World, n: Node)
    requires Complete(w) && Enabled(w, Join(n))
    ensures Complete(Apply(w, Join(n)))
  {
    NamesAppend(w.nodes, n);
    EventComplete(w, w.nodes + [n], true, [n]);
  }

  lemma LeaveComplete(w: World, k: nat)
    requires Complete(w) && Enabled(w, Leave(k))
    ensures Complete(Apply(w, Leave(k)))
  {
    NamesWithout(w.nodes, k);
    DistinctWithout(Names(w.nodes), k);
    assert Names([w.nodes[k]]) == [Names(w.nodes)[k]];
    EventComplete(w, Without(w.nodes, k), false, [w.nodes[k]]);
  }

  lemma TableAppend(pvs: seq<PersistentVolume>, pv: PersistentVolume, source: Source)
    ensures TableOf(pvs + [pv], source) ==
            if Concerns(pv, source) then TableOf(pvs, source)[VolumeId(pv).value := Lun(pv)] else TableOf(pvs, source)
  {
    assert (pvs + [pv])[..|pvs|] == pvs;
  }

  /** On a node every volume of the table has its LUN, so the new one differs from all of them. */
  lemma NewLunIsFresh(w: World, name: string, id: Id, lun: int, v: Id)
    requires Complete(w) && id !in w.s.issued && NodeHosts(w.s, w.nodes) != {} && v in BlockTable(w.pvs)
    requires LunsDistinct(Asset(w.s, id, name, NodeHosts(w.s, w.nodes), lun).luns)
    ensures BlockTable(w.pvs)[v] != lun && v != id
  {
    var luns := Asset(w.s, id, name, NodeHosts(w.s, w.nodes), lun).luns;
    var h :| h in NodeHosts(w.s, w.nodes);
    assert At(w.s.luns, h, v) == Some(BlockTable(w.pvs)[v]);
    assert (h, id) in luns && luns[(h, id)] == lun;
    assert (h, v) in luns && luns[(h, v)] == BlockTable(w.pvs)[v];
  }

  lemma BlockTableAppend(pvs: seq<PersistentVolume>, pv: PersistentVolume, id: Id, lun: int)
    requires pv.source != Nfs && id !in BlockTable(pvs) && VolumeId(pv) == Some(id) && Lun(pv) == lun
    ensures BlockTable(pvs + [pv]) == BlockTable(pvs)[id := lun]
  {
    TableAppend(pvs, pv, Iscsi);
    TableAppend(pvs, pv, Fc);
  }

  lemma DistinctVolumesAppend(pvs: seq<PersistentVolume>, pv: PersistentVolume, id: Id)
    requires DistinctVolumes(pvs) && id !in BlockTable(pvs) && VolumeId(pv) == Some(id)
    ensures DistinctVolumes(pvs + [pv])
  {
    forall i | 0 <= i < |pvs| && IsBlock(pvs[i]) ensures VolumeId(pvs[i]) != Some(id) {
      InBlockTable(pvs, pvs[i]);
    }
  }

  lemma ProvisionComplete(w: World, name: string, source: Source, id: Id, lun: int)
    requires Complete(w) && Enabled(w, Provision(name, source, id, lun))
    ensures Complete(Apply(w, Provision(name, source, id, lun)))
  {
    var w' := Apply(w, Provision(name, source, id, lun));
    var all, hs := BlockTable(w.pvs), NodeHosts(w.s, w.nodes);
    NewVolumeDescribes(name, source, id, lun);
    BlockTableAppend(w.pvs, NewVolume(name, source, id, lun), id, lun);
    DistinctVolumesAppend(w.pvs, NewVolume(name, source, id, lun), id);
    forall v | v in all ensures all[v] != lun && v != id {
      NewLunIsFresh(w, name, id, lun, v);
    }
    forall g, v ensures At(w'.s.luns, g, v) == if v in all[id := lun] && g in hs then Some(all[id := lun][v]) else None {
      assert At(w.s.luns, g, v) == if v in all && g in hs then Some(all[v]) else None;
    }
  }

  lemma {:induction false} NotInTable(pvs: seq<PersistentVolume>, source: Source, v: Id)
    requires forall pv :: pv in pvs && Concerns(pv, source) ==> VolumeId(pv) != Some(v)
    ensures v !in TableOf(pvs, source)
    decreases |pvs|
  {
    if pvs != [] {
      assert forall pv :: pv in pvs[..|pvs| - 1] ==> pv in pvs;
      NotInTable(pvs[..|pvs| - 1], source, v);
    }
  }

  lemma TableWithoutLast(init: seq<PersistentVolume>, last: PersistentVolume, source: Source)
    requires DistinctVolumes(init + [last]) && IsBlock(last) && source != Nfs
    ensures TableOf(init, source) == TableOf(init + [last], source) - {VolumeId(last).value}
  {
    var v := VolumeId(last).value;
    forall pv | pv in init && Concerns(pv, source) ensures VolumeId(pv) != Some(v) {
      var i :| 0 <= i < |init| && init[i] == pv;
      assert (init + [last])[i] == pv && (init + [last])[|init|] == last;
    }
    NotInTable(init, source, v);
    TableAppend(init, last, source);
  }

  /** `v` is not the last volume's. */
  lemma TableWithoutInner(init: seq<PersistentVolume>, less: seq<PersistentVolume>, last: PersistentVolume, source: Source, v: Id)
    requires TableOf(less, source) == TableOf(init, source) - {v}
    requires Concerns(last, source) ==> VolumeId(last) != Some(v)
    ensures TableOf(less + [last], source) == TableOf(init + [last], source) - {v}
  {
    TableAppend(init, last, source);
    TableAppend(less, last, source);
    if Concerns(last, source) {
      UpdateWithout(TableOf(init, source), TableOf(less, source), v, VolumeId(last).value, Lun(last));
    }
  }

  lemma UpdateWithout(all: map<Id, int>, less: map<Id, int>, v: Id, id: Id, lun: int)
    requires less == all - {v} && id != v
    ensures less[id := lun] == all[id := lun] - {v}
  {
  }

  lemma {:induction false} TableWithout(pvs: seq<PersistentVolume>, k: nat, source: Source)
    requires DistinctVolumes(pvs) && k < |pvs| && IsBlock(pvs[k]) && source != Nfs
    ensures TableOf(Without(pvs, k), source) == TableOf(pvs, source) - {VolumeId(pvs[k]).value}
    decreases |pvs|
  {
    var init, last := pvs[..|pvs| - 1], pvs[|pvs| - 1];
    assert pvs == init + [last];
    if k == |pvs| - 1 {
      assert Without(pvs, k) == init;
      TableWithoutLast(init, last, source);
    } else {
      assert init[k] == pvs[k];
      TableWithout(init, k, source);
      assert Without(pvs, k) == Without(init, k) + [last];
      TableWithoutInner(init, Without(init, k), last, source, VolumeId(pvs[k]).value);
    }
  }

  lemma DistinctVolumesWithout(pvs: seq<PersistentVolume>, k: nat)
    requires DistinctVolumes(pvs) && k < |pvs|
    ensures DistinctVolumes(Without(pvs, k))
  {
    var rest := Without(pvs, k);
    assert forall i :: 0 <= i < |rest| ==> rest[i] == pvs[if i < k then i else i + 1];
  }

  lemma WithoutVolume(s: State, id: Id, h: Id, v: Id)
    ensures At(VolumeDestroyed(s, id).luns, h, v) == if v == id then None else At(s.luns, h, v)
  {
  }

  lemma DeleteComplete(w: World, k: nat)
    requires Complete(w) && Enabled(w, Delete(k))
    ensures Complete(Apply(w, Delete(k)))
  {
    var w' := Apply(w, Delete(k));
    var id, all, hs := VolumeId(w.pvs[k]).value, BlockTable(w.pvs), NodeHosts(w.s, w.nodes);
    DistinctVolumesWithout(w.pvs, k);
    TableWithout(w.pvs, k, Iscsi);
    TableWithout(w.pvs, k, Fc);
    var left := BlockTable(w'.pvs);
    assert left == all - {id};
    forall h, v ensures At(w'.s.luns, h, v) == if v in left && h in hs then Some(left[v]) else None {
      assert At(w.s.luns, h, v) == if v in all && h in hs then Some(all[v]) else None;
      WithoutVolume(w.s, id, h, v);
    }
  }

  lemma ListedNfs(w: World, s: State, pv: PersistentVolume)
    requires Complete(w) && SameBlocks(w.s, s) && pv.source == Nfs
    ensures Complete(w.(s := s, pvs := w.pvs + [pv]))
  {
    TableAppend(w.pvs, pv, Iscsi);
    TableAppend(w.pvs, pv, Fc);
    assert BlockTable(w.pvs + [pv]) == BlockTable(w.pvs);
  }

  lemma {:induction false} TableWithoutNfs(pvs: seq<PersistentVolume>, k: nat, source: Source)
    requires k < |pvs| && pvs[k].source == Nfs && source != Nfs
    ensures TableOf(Without(pvs, k), source) == TableOf(pvs, source)
    decreases |pvs|
  {
    var init, last := pvs[..|pvs| - 1], pvs[|pvs| - 1];
    assert pvs == init + [last];
    TableAppend(init, last, source);
    if k == |pvs| - 1 {
      assert Without(pvs, k) == init;
    } else {
      TableWithoutNfs(init, k, source);
      assert Without(pvs, k) == Without(init, k) + [last];
      TableAppend(Without(init, k), last, source);
    }
  }

  lemma UnlistedNfs(w: World, s: State, k: nat)
    requires Complete(w) && SameBlocks(w.s, s) && k < |w.pvs| && w.pvs[k].source == Nfs
    ensures Complete(w.(s := s, pvs := Without(w.pvs, k)))
  {
    DistinctVolumesWithout(w.pvs, k);
    TableWithoutNfs(w.pvs, k, Iscsi);
    TableWithoutNfs(w.pvs, k, Fc);
    assert BlockTable(Without(w.pvs, k)) == BlockTable(w.pvs);
  }

  lemma StepComplete(w: World, step: Step)
    requires Complete(w) && Enabled(w, step)
    ensures Complete(Apply(w, step))
  {
    match step
    case Provision(name, source, id, lun) => ProvisionComplete(w, name, source, id, lun);
    case Delete(k) => DeleteComplete(w, k);
    case Join(n) => JoinComplete(w, n);
    case Leave(k) => LeaveComplete(w, k);
    case ProvisionNfs(s, pv) => ListedNfs(w, s, pv);
    case DeleteNfs(s, k) => UnlistedNfs(w, s, k);
    case ElsewhereOnly(s) =>
  }

  ghost predicate IsRun(w: World, steps: seq<Step>)
    decreases |steps|
  {
    steps == [] || (Enabled(w, steps[0]) && IsRun(Apply(w, steps[0]), steps[1..]))
  }

  ghost function After(w: World, steps: seq<Step>): World
    requires IsRun(w, steps)
    decreases |steps|
  {
    if steps == [] then w else After(Apply(w, steps[0]), steps[1..])
  }

  /** After every run of provisioning, deleting, joining and leaving the LUN tables are complete. */
  lemma {:induction false} RunsStayComplete(w: World, steps: seq<Step>)
    requires Complete(w) && IsRun(w, steps)
    ensures Complete(After(w, steps))
    decreases |steps|
  {
    if steps != [] {
      StepComplete(w, steps[0]);
      RunsStayComplete(Apply(w, steps[0]), steps[1..]);
    }
  }

  /** No LUN that will be asked for on a joining host can be taken there. */
  lemma JoiningHostHasRoom(w: World, steps: seq<Step>, n: Node, v: Id)
    requires Complete(w) && IsRun(w, steps)
    requires var w' := After(w, steps);
             n.name !in Names(w'.nodes) && n.name in w'.s.hosts && v in BlockTable(w'.pvs)
    ensures var w' := After(w, steps); CanMap(w'.s, w'.s.hosts[n.name], v, BlockTable(w'.pvs)[v])
  {
    RunsStayComplete(w, steps);
    var w' := After(w, steps);
    var h := w'.s.hosts[n.name];
    assert h !in NodeHosts(w'.s, w'.nodes);
    forall u ensures (h, u) !in w'.s.luns {
      assert At(w'.s.luns, h, u) == None;
    }
  }

  /**
    A LUN the array picks as free on one node is free on all of them, so mapping a new volume
    cannot fail half way for want of the LUN.
  */
  lemma FreeOnOneIsFreeOnAll(w: World, steps: seq<Step>, g: Id, h: Id, lun: int)
    requires Complete(w) && IsRun(w, steps)
    requires var w' := After(w, steps); g in NodeHosts(w'.s, w'.nodes) && h in NodeHosts(w'.s, w'.nodes)
    requires !LunTaken(After(w, steps).s, g, lun)
    ensures !LunTaken(After(w, steps).s, h, lun)
  {
    RunsStayComplete(w, steps);
    var w' := After(w, steps);
    forall v | (h, v) in w'.s.luns ensures w'.s.luns[(h, v)] != lun {
      assert At(w'.s.luns, h, v) == At(w'.s.luns, g, v);
      assert v in w'.s.volumes && (g, v) in w'.s.luns;
    }
  }

  /** So in such a run one LUN always does for all nodes. */
  lemma NodesAreEven(w: World, steps: seq<Step>)
    requires Complete(w) && IsRun(w, steps)
    ensures var w' := After(w, steps); Even(w'.s, NodeHosts(w'.s, w'.nodes))
  {
    var w' := After(w, steps);
    forall lun ensures !Uneven(w'.s, NodeHosts(w'.s, w'.nodes), lun) {
      if Uneven(w'.s, NodeHosts(w'.s, w'.nodes), lun) {
        var g :| g in NodeHosts(w'.s, w'.nodes) && !LunTaken(w'.s, g, lun);
        var h :| h in NodeHosts(w'.s, w'.nodes) && LunTaken(w'.s, h, lun);
        FreeOnOneIsFreeOnAll(w, steps, g, h, lun);
        assert false;
      }
    }
  }
}
