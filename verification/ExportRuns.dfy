/**
  Runs of provisioning, deleting, nodes joining and nodes leaving, with every node event
  handled in order and without lost calls: who may use the exports.
*/
module ExportRuns {
  import opened StorageArray
  import opened Commons
  import opened NfsProvisioner
  import opened ExportClients

  /** The internal addresses of all nodes are clients, and only addresses of nodes are. */
  ghost predicate Sandwich(permissions: seq<Permission>, nodes: seq<Node>) {
    NodeIps(nodes, true) <= Clients(permissions) <= NodeIps(nodes, false)
  }

  /** All entries carry the configured access type, which is no address. */
  ghost predicate Uniform(permissions: seq<Permission>, access: string) {
    permissions != [] && forall p :: p in permissions ==> p.access == access
  }

  lemma {:induction false} GrantUniform(addresses: seq<Address>, access: string, internalOnly: bool)
    ensures forall p :: p in Grant(addresses, access, internalOnly) ==> p.access == access
    decreases |addresses|
  {
    if addresses != [] {
      GrantUniform(addresses[..|addresses| - 1], access, internalOnly);
    }
  }

  lemma {:induction false} GrantNodesUniform(nodes: seq<Node>, access: string, internalOnly: bool)
    ensures forall p :: p in GrantNodes(nodes, access, internalOnly) ==> p.access == access
    decreases |nodes|
  {
    if nodes != [] {
      GrantNodesUniform(nodes[..|nodes| - 1], access, internalOnly);
      GrantUniform(nodes[|nodes| - 1].addresses, access, internalOnly);
    }
  }

  lemma {:induction false} MissingUniform(fetched: seq<Permission>, addresses: seq<Address>, access: string)
    ensures forall p :: p in Missing(fetched, addresses, access) ==> p.access == access
    decreases |addresses|
  {
    if addresses != [] {
      MissingUniform(fetched, addresses[..|addresses| - 1], access);
    }
  }

  lemma InternalIpsAreIps(nodes: seq<Node>)
    ensures NodeIps(nodes, true) <= NodeIps(nodes, false)
  {
  }

  lemma NonEmptyClients(permissions: seq<Permission>)
    ensures permissions == [] <==> Clients(permissions) == {}
  {
    if permissions != [] {
      assert permissions[0] in permissions && permissions[0].client in Clients(permissions);
    }
  }

  /** A new export admits exactly the internal addresses. */
  lemma NewExport(nodes: seq<Node>, access: string)
    requires NodeIps(nodes, true) != {}
    ensures var p := GrantNodes(nodes, access, true); Uniform(p, access) && Sandwich(p, nodes)
  {
    GrantNodesClients(nodes, access, true);
    GrantNodesUniform(nodes, access, true);
    InternalIpsAreIps(nodes);
    NonEmptyClients(GrantNodes(nodes, access, true));
  }

  lemma Joining(permissions: seq<Permission>, nodes: seq<Node>, n: Node, access: string)
    requires Uniform(permissions, access) && Sandwich(permissions, nodes) && access !in Ips(n.addresses, false)
    ensures var r := Refreshed(permissions, nodes + [n], true, [n]);
            r.Some? && Uniform(r.value, access) && Sandwich(r.value, nodes + [n])
  {
    assert permissions[0] in permissions;
    var m := Missing(permissions, n.addresses, access);
    assert MissingNodes(permissions, [n], access) == MissingNodes(permissions, [], access) + m == m by {
      assert [n][..0] == [];
    }
    MissingClients(permissions, n.addresses, access);
    MissingUniform(permissions, n.addresses, access);
    assert (nodes + [n])[..|nodes|] == nodes;
    NodeIpsLast(nodes + [n], true);
    NodeIpsLast(nodes + [n], false);
    assert Ips(n.addresses, true) <= Ips(n.addresses, false);
  }

  /** What handling a departure leaves: an empty node list ends UpdateMapping before anything is done. */
  function AfterLeaving(permissions: seq<Permission>, nodes: seq<Node>, gone: Node): Option<seq<Permission>> {
    if nodes == [] then Some(permissions) else Refreshed(permissions, nodes, false, [gone])
  }

  /**
    When a node leaves, the clients become exactly the addresses of the remaining nodes if
    there is any address, and are wrong otherwise: the old clients stay.
  */
  lemma Leaving(permissions: seq<Permission>, nodes: seq<Node>, gone: Node, access: string)
    requires Uniform(permissions, access)
    ensures var r := AfterLeaving(permissions, nodes, gone);
            && r.Some? && Uniform(r.value, access)
            && (Sandwich(r.value, nodes) <==> NodeIps(nodes, false) != {})
            && (NodeIps(nodes, false) == {} ==> r.value == permissions)
  {
    assert permissions[0] in permissions;
    var all := GrantNodes(nodes, permissions[0].access, false);
    GrantNodesClients(nodes, permissions[0].access, false);
    GrantNodesUniform(nodes, permissions[0].access, false);
    InternalIpsAreIps(nodes);
    NonEmptyClients(all);
    NonEmptyClients(permissions);
    if nodes == [] {
      assert NodeIps(nodes, false) == {};
    }
  }

  // ---------------------------------------------------------------- runs

  datatype World = World(s: State, pvs: seq<PersistentVolume>, nodes: seq<Node>)

  datatype Step =
    | Provision(name: string, fs: Id, exportId: Id, path: string)
    | Delete(k: nat)
    | Join(n: Node)
    | Leave(k: nat)
    | Readdress(k: nat, n: Node) // the addresses of a node change

  function Without<T>(xs: seq<T>, k: nat): seq<T>
    requires k < |xs|
  {
    xs[..k] + xs[k + 1..]
  }

  function ExportOf(pv: PersistentVolume): Id {
    NumberIn(pv, EXPORT_ID).GetOr(0)
  }

  function FilesystemOf(pv: PersistentVolume): Id {
    NumberIn(pv, VOLUME_ID).GetOr(0)
  }

  /**
    The conditions under which the clients stay right: there is an internal address when a
    volume is provisioned, and at least one address is left when a node leaves or changes.
  */
  ghost predicate Enabled(w: World, s: Step, access: string) {
    match s
    case Provision(_, fs, e, _) =>
      && NodeIps(w.nodes, true) != {} && fs != e && fs !in w.s.issued && e !in w.s.issued && 0 < fs <= MAX_ID && 0 < e <= MAX_ID
    case Delete(k) => k < |w.pvs|
    case Join(n) => access !in Ips(n.addresses, false)
    case Leave(k) => k < |w.nodes| && NodeIps(Without(w.nodes, k), false) != {}
    case Readdress(k, n) => k < |w.nodes| && NodeIps(w.nodes[k := n], false) != {}
  }

  ghost function Apply(w: World, s: Step, access: string): World
    requires Enabled(w, s, access)
  {
    match s
    case Provision(name, fs, e, path) =>
      World(Asset(w.s, fs, name, Some(e), Export(fs, path, GrantNodes(w.nodes, access, true))),
            w.pvs + [NewVolume(name, fs, e, path)], w.nodes)
    case Delete(k) =>
      w.(s := FilesystemDestroyed(w.s, FilesystemOf(w.pvs[k])), pvs := Without(w.pvs, k))
    case Join(n) =>
      w.(s := UpdatedExports(w.s, w.pvs, w.nodes + [n], true, [n]).0, nodes := w.nodes + [n])
    case Leave(k) =>
      w.(s := UpdatedExports(w.s, w.pvs, Without(w.nodes, k), false, [w.nodes[k]]).0, nodes := Without(w.nodes, k))
    case Readdress(k, n) =>
      w.(s := UpdatedExports(w.s, w.pvs, w.nodes[k := n], false, [n]).0, nodes := w.nodes[k := n])
  }

  ghost predicate Served(s: State, pv: PersistentVolume, nodes: seq<Node>, access: string) {
    && Concerns(pv) && NumberIn(pv, EXPORT_ID).Some? && ExportOf(pv) in s.exports
    && s.exports[ExportOf(pv)].filesystem == FilesystemOf(pv)
    && Uniform(s.exports[ExportOf(pv)].permissions, access)
    && Sandwich(s.exports[ExportOf(pv)].permissions, nodes)
  }

  ghost predicate DistinctAssets(pvs: seq<PersistentVolume>) {
    forall i, j :: 0 <= i < j < |pvs| ==>
      ExportOf(pvs[i]) != ExportOf(pvs[j]) && FilesystemOf(pvs[i]) != FilesystemOf(pvs[j])
  }

  ghost predicate Inv(w: World, access: string) {
    && DistinctAssets(w.pvs)
    && (forall pv :: pv in w.pvs ==> Served(w.s, pv, w.nodes, access))
    && (forall pv :: pv in w.pvs ==> ExportOf(pv) in w.s.issued && FilesystemOf(pv) in w.s.issued)
  }

  /** Handling the event turns clients right for the old nodes into clients right for the new ones. */
  ghost predicate Handles(nodes: seq<Node>, nodes': seq<Node>, added: bool, changed: seq<Node>, access: string) {
    forall p :: Uniform(p, access) && Sandwich(p, nodes) ==>
      var r := Refreshed(p, nodes', added, changed);
      r.Some? && Uniform(r.value, access) && Sandwich(r.value, nodes')
  }

  lemma OneRefreshed(s: State, pv: PersistentVolume, nodes: seq<Node>, nodes': seq<Node>,
                     added: bool, changed: seq<Node>, access: string)
    requires Served(s, pv, nodes, access) && Handles(nodes, nodes', added, changed, access)
    ensures var (s', ok) := RefreshOne(s, pv, nodes', added, changed);
            && ok && ExportOf(pv) in s'.exports && Served(s', pv, nodes', access)
            && s' == PermissionsPut(s, ExportOf(pv), s'.exports[ExportOf(pv)].permissions)
  {
    var p := s.exports[ExportOf(pv)].permissions;
    assert Uniform(p, access) && Sandwich(p, nodes);
    assert Refreshed(p, nodes', added, changed).Some?;
  }

  lemma ServedElsewhere(s: State, id: Id, p: seq<Permission>, pv: PersistentVolume, nodes: seq<Node>, access: string)
    requires id in s.exports && ExportOf(pv) != id
    ensures Served(PermissionsPut(s, id, p), pv, nodes, access) <==> Served(s, pv, nodes, access)
  {
  }

  /** An event leaves the exports of unlisted volumes alone. */
  lemma {:induction false} RefreshedElsewhere(s: State, pvs: seq<PersistentVolume>, nodes: seq<Node>, nodes': seq<Node>,
                                              added: bool, changed: seq<Node>, access: string, pv: PersistentVolume)
    requires Served(s, pv, nodes, access) && forall qv :: qv in pvs ==> ExportOf(qv) != ExportOf(pv)
    ensures Served(RefreshAll(s, pvs, nodes', added, changed).0, pv, nodes, access)
    decreases |pvs|
  {
    if pvs != [] {
      var init, last := pvs[..|pvs| - 1], pvs[|pvs| - 1];
      assert pvs == init + [last] && last in pvs;
      RefreshedElsewhere(s, init, nodes, nodes', added, changed, access, pv);
      var s1 := RefreshAll(s, init, nodes', added, changed).0;
      var s2 := RefreshOne(s1, last, nodes', added, changed).0;
      if s2 != s1 {
        ServedElsewhere(s1, ExportOf(last), s2.exports[ExportOf(last)].permissions, pv, nodes, access);
      }
    }
  }

  /** One event brings every export from the old nodes to the new ones, and no volume ends it early. */
  lemma {:induction false} AllRefreshed(s: State, pvs: seq<PersistentVolume>, nodes: seq<Node>, nodes': seq<Node>,
                                        added: bool, changed: seq<Node>, access: string)
    requires DistinctAssets(pvs) && Handles(nodes, nodes', added, changed, access)
    requires forall pv :: pv in pvs ==> Served(s, pv, nodes, access)
    ensures var (s', ok) := RefreshAll(s, pvs, nodes', added, changed);
            ok && s' == s.(exports := s'.exports) && (forall pv :: pv in pvs ==> Served(s', pv, nodes', access))
    decreases |pvs|
  {
    if pvs != [] {
      var init, last := pvs[..|pvs| - 1], pvs[|pvs| - 1];
      assert pvs == init + [last];
      AllRefreshed(s, init, nodes, nodes', added, changed, access);
      var s1 := RefreshAll(s, init, nodes', added, changed).0;
      forall pv | pv in init ensures ExportOf(pv) != ExportOf(last) {
        var i :| 0 <= i < |init| && init[i] == pv;
        assert pvs[i] == pv && pvs[|pvs| - 1] == last;
      }
      RefreshedElsewhere(s, init, nodes, nodes', added, changed, access, last);
      OneRefreshed(s1, last, nodes, nodes', added, changed, access);
      var s2 := RefreshOne(s1, last, nodes', added, changed).0;
      var p := s2.exports[ExportOf(last)].permissions;
      forall pv | pv in init ensures Served(s2, pv, nodes', access) {
        ServedElsewhere(s1, ExportOf(last), p, pv, nodes', access);
      }
    }
  }

  lemma EventInv(w: World, nodes': seq<Node>, added: bool, changed: seq<Node>, access: string)
    requires Inv(w, access) && nodes' != [] && Handles(w.nodes, nodes', added, changed, access)
    ensures var (s', ok) := UpdatedExports(w.s, w.pvs, nodes', added, changed);
            ok && Inv(w.(s := s', nodes := nodes'), access)
  {
    AllRefreshed(w.s, w.pvs, w.nodes, nodes', added, changed, access);
  }

  lemma JoinInv(w: World, n: Node, access: string)
    requires Inv(w, access) && Enabled(w, Join(n), access)
    ensures Inv(Apply(w, Join(n), access), access)
  {
    forall p | Uniform(p, access) && Sandwich(p, w.nodes)
      ensures var r := Refreshed(p, w.nodes + [n], true, [n]);
              r.Some? && Uniform(r.value, access) && Sandwich(r.value, w.nodes + [n])
    {
      Joining(p, w.nodes, n, access);
    }
    EventInv(w, w.nodes + [n], true, [n], access);
  }

  lemma RebuiltInv(w: World, nodes': seq<Node>, changed: Node, access: string)
    requires Inv(w, access) && NodeIps(nodes', false) != {}
    ensures Inv(World(UpdatedExports(w.s, w.pvs, nodes', false, [changed]).0, w.pvs, nodes'), access)
  {
    forall p | Uniform(p, access) && Sandwich(p, w.nodes)
      ensures var r := Refreshed(p, nodes', false, [changed]);
              r.Some? && Uniform(r.value, access) && Sandwich(r.value, nodes')
    {
      Leaving(p, nodes', changed, access);
    }
    EventInv(w, nodes', false, [changed], access);
  }

  lemma ProvisionInv(w: World, name: string, fs: Id, e: Id, path: string, access: string)
    requires Inv(w, access) && Enabled(w, Provision(name, fs, e, path), access)
    ensures Inv(Apply(w, Provision(name, fs, e, path), access), access)
  {
    var w' := Apply(w, Provision(name, fs, e, path), access);
    var pv := NewVolume(name, fs, e, path);
    NewVolumeDescribes(name, fs, e, path);
    NewExport(w.nodes, access);
    assert forall qv :: qv in w'.pvs <==> qv in w.pvs || qv == pv;
    forall qv | qv in w.pvs ensures Served(w'.s, qv, w.nodes, access) {
      assert Served(w.s, qv, w.nodes, access);
    }
    forall i | 0 <= i < |w.pvs| ensures ExportOf(w'.pvs[i]) != e && FilesystemOf(w'.pvs[i]) != fs {
      assert w.pvs[i] in w.pvs;
    }
  }

  lemma WithoutOne(pvs: seq<PersistentVolume>, k: nat)
    requires DistinctAssets(pvs) && k < |pvs|
    ensures DistinctAssets(Without(pvs, k))
    ensures forall pv :: pv in Without(pvs, k) ==> pv in pvs && FilesystemOf(pv) != FilesystemOf(pvs[k])
  {
    var rest := Without(pvs, k);
    assert forall i :: 0 <= i < |rest| ==> rest[i] == pvs[if i < k then i else i + 1];
  }

  lemma ServedAfterDelete(s: State, fs: Id, pv: PersistentVolume, nodes: seq<Node>, access: string)
    requires Served(s, pv, nodes, access) && FilesystemOf(pv) != fs
    ensures Served(FilesystemDestroyed(s, fs), pv, nodes, access)
  {
  }

  lemma DeleteInv(w: World, k: nat, access: string)
    requires Inv(w, access) && Enabled(w, Delete(k), access)
    ensures Inv(Apply(w, Delete(k), access), access)
  {
    var w' := Apply(w, Delete(k), access);
    WithoutOne(w.pvs, k);
    forall qv | qv in w'.pvs ensures Served(w'.s, qv, w.nodes, access) {
      ServedAfterDelete(w.s, FilesystemOf(w.pvs[k]), qv, w.nodes, access);
    }
  }

  lemma StepInv(w: World, s: Step, access: string)
    requires Inv(w, access) && Enabled(w, s, access)
    ensures Inv(Apply(w, s, access), access)
  {
    match s
    case Provision(name, fs, e, path) => ProvisionInv(w, name, fs, e, path, access);
    case Delete(k) => DeleteInv(w, k, access);
    case Join(n) => JoinInv(w, n, access);
    case Leave(k) => RebuiltInv(w, Without(w.nodes, k), w.nodes[k], access);
    case Readdress(k, n) => RebuiltInv(w, w.nodes[k := n], n, access);
  }

  ghost predicate IsRun(w: World, steps: seq<Step>, access: string)
    decreases |steps|
  {
    steps == [] || (Enabled(w, steps[0], access) && IsRun(Apply(w, steps[0], access), steps[1..], access))
  }

  ghost function After(w: World, steps: seq<Step>, access: string): World
    requires IsRun(w, steps, access)
    decreases |steps|
  {
    if steps == [] then w else After(Apply(w, steps[0], access), steps[1..], access)
  }

  lemma {:induction false} RunInv(w: World, steps: seq<Step>, access: string)
    requires Inv(w, access) && IsRun(w, steps, access)
    ensures Inv(After(w, steps, access), access)
    decreases |steps|
  {
    if steps != [] {
      StepInv(w, steps[0], access);
      RunInv(Apply(w, steps[0], access), steps[1..], access);
    }
  }

  /**
    Along every run from an empty cluster every volume's export admits all internal addresses
    of the current nodes and nothing but addresses of current nodes.
  */
  lemma ClientsFollowTheNodes(s: State, steps: seq<Step>, access: string)
    requires IsRun(World(s, [], []), steps, access)
    ensures var w := After(World(s, [], []), steps, access);
            forall pv :: pv in w.pvs ==>
              && ExportOf(pv) in w.s.exports
              && var clients := Clients(w.s.exports[ExportOf(pv)].permissions);
                 NodeIps(w.nodes, true) <= clients <= NodeIps(w.nodes, false)
  {
    RunInv(World(s, [], []), steps, access);
    var w := After(World(s, [], []), steps, access);
    forall pv | pv in w.pvs ensures Served(w.s, pv, w.nodes, access) {
    }
  }

  // ---------------------------------------------------------------- events that stop early

  /** The export can be fetched and has a first entry to copy from. */
  predicate Refreshable(s: State, pv: PersistentVolume) {
    Concerns(pv) ==>
      NumberIn(pv, EXPORT_ID).Some? && ExportOf(pv) in s.exports && s.exports[ExportOf(pv)].permissions != []
  }

  lemma RefreshKeepsRefreshable(s: State, qv: PersistentVolume, nodes: seq<Node>, added: bool, changed: seq<Node>, pv: PersistentVolume)
    ensures Refreshable(RefreshOne(s, qv, nodes, added, changed).0, pv) <==> Refreshable(s, pv)
  {
  }

  lemma {:induction false} RefreshAllKeepsRefreshable(s: State, pvs: seq<PersistentVolume>, nodes: seq<Node>, added: bool,
                                                      changed: seq<Node>, pv: PersistentVolume)
    ensures Refreshable(RefreshAll(s, pvs, nodes, added, changed).0, pv) <==> Refreshable(s, pv)
    decreases |pvs|
  {
    if pvs != [] {
      var init, last := pvs[..|pvs| - 1], pvs[|pvs| - 1];
      RefreshAllKeepsRefreshable(s, init, nodes, added, changed, pv);
      RefreshKeepsRefreshable(RefreshAll(s, init, nodes, added, changed).0, last, nodes, added, changed, pv);
    }
  }

  /** One event reaches the end of the list exactly if every listed export exists and has an entry. */
  lemma {:induction false} ReachesTheEndExactly(s: State, pvs: seq<PersistentVolume>, nodes: seq<Node>, added: bool, changed: seq<Node>)
    ensures RefreshAll(s, pvs, nodes, added, changed).1 <==> forall pv :: pv in pvs ==> Refreshable(s, pv)
    decreases |pvs|
  {
    if pvs != [] {
      var init, last := pvs[..|pvs| - 1], pvs[|pvs| - 1];
      assert pvs == init + [last];
      ReachesTheEndExactly(s, init, nodes, added, changed);
      RefreshAllKeepsRefreshable(s, init, nodes, added, changed, last);
      assert RefreshOne(RefreshAll(s, init, nodes, added, changed).0, last, nodes, added, changed).1
        <==> Refreshable(RefreshAll(s, init, nodes, added, changed).0, last);
    }
  }

  /** The volumes behind the first one that is not refreshable are not looked at. */
  lemma StopsThere(s: State, pvs: seq<PersistentVolume>, k: nat, nodes: seq<Node>, added: bool, changed: seq<Node>)
    requires k < |pvs| && !Refreshable(s, pvs[k]) && forall i :: 0 <= i < k ==> Refreshable(s, pvs[i])
    ensures RefreshAll(s, pvs, nodes, added, changed) == (RefreshAll(s, pvs[..k], nodes, added, changed).0, false)
  {
    ReachesTheEndExactly(s, pvs[..k], nodes, added, changed);
    RefreshAllKeepsRefreshable(s, pvs[..k], nodes, added, changed, pvs[k]);
    assert pvs[..k + 1][..k] == pvs[..k];
    assert pvs[k] in pvs[..k + 1];
    ReachesTheEndExactly(s, pvs[..k + 1], nodes, added, changed);
    StopsAtError(s, pvs, k + 1, nodes, added, changed);
  }

  /**
    A volume provisioned while there were no nodes names an export 0 that does not exist. From
    then on a node that joins is not admitted to any volume listed behind it.
  */
  lemma NodelessVolumeHidesJoins(s: State, name: string, fs: Id, path: string, pv: PersistentVolume, nodes: seq<Node>, n: Node, access: string)
    requires Wf(s) && 0 < fs <= MAX_ID && Served(s, pv, nodes, access)
    requires !(NodeIps([n], true) <= Clients(s.exports[ExportOf(pv)].permissions))
    ensures var pvs := [NewVolume(name, fs, 0, path), pv];
      && UpdatedExports(s, pvs, nodes + [n], true, [n]) == (s, false)
      && !Sandwich(s.exports[ExportOf(pv)].permissions, nodes + [n])
  {
    var bare := NewVolume(name, fs, 0, path);
    NewVolumeDescribes(name, fs, 0, path);
    assert 0 !in s.exports && !Refreshable(s, bare);
    StopsThere(s, [bare, pv], 0, nodes + [n], true, [n]);
    assert [bare, pv][..0] == [];
    assert RefreshAll(s, [], nodes + [n], true, [n]) == (s, true);
    assert NodeIps([n], true) <= NodeIps(nodes + [n], true);
  }

  /** Without nodes the clients of the last node stay, and a node that joins later does not drive them out. */
  lemma EmptyClusterKeepsStaleClients(s: State, pv: PersistentVolume, gone: Node, n: Node, access: string)
    requires Served(s, pv, [gone], access)
    requires !(NodeIps([gone], true) <= NodeIps([n], false))
    ensures UpdatedExports(s, [pv], [], false, [gone]) == (s, true)
    ensures var s2 := UpdatedExports(s, [pv], [n], true, [n]).0;
            ExportOf(pv) in s2.exports && !Sandwich(s2.exports[ExportOf(pv)].permissions, [n])
  {
    var p := s.exports[ExportOf(pv)].permissions;
    var m := MissingNodes(p, [n], p[0].access);
    assert RefreshAll(s, [pv], [n], true, [n]) == RefreshOne(s, pv, [n], true, [n]) by {
      assert [pv][..0] == [];
      assert RefreshAll(s, [], [n], true, [n]) == (s, true);
    }
    assert Refreshed(p, [n], true, [n]) == Some(p + m);
    assert Clients(p) <= Clients(p + m);
  }
}
