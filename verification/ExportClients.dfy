/**
  UpdateMapping of the NFS provisioner, which keeps the clients of every export in line with
  the cluster's nodes.
*/
module ExportClients {
  import opened StorageArray
  import opened Commons
  import opened Decimal
  import opened NfsProvisioner

  /** The permissions of one export afterwards; None if there is no first entry to copy from. */
  function Refreshed(fetched: seq<Permission>, nodes: seq<Node>, added: bool, changed: seq<Node>): Option<seq<Permission>> {
    if fetched == [] then None
    else if added then Some(fetched + MissingNodes(fetched, changed, fetched[0].access))
    else
      var all := GrantNodes(nodes, fetched[0].access, false);
      Some(if all == [] then fetched else all)
  }

  /** UpdateMapping looks at volumes of any provisioner of this program that name an export. */
  predicate Concerns(pv: PersistentVolume) {
    Provisioned(pv) == Some(true) && Annotation(pv, EXPORT_ID) != ""
  }

  function RefreshOne(s: State, pv: PersistentVolume, nodes: seq<Node>, added: bool, changed: seq<Node>): (State, bool) {
    if !Concerns(pv) then (s, true)
    else
      var id := NumberIn(pv, EXPORT_ID);
      if id.None? || id.value !in s.exports then (s, false)
      else match Refreshed(s.exports[id.value].permissions, nodes, added, changed)
           case None => (s, false)
           case Some(permissions) => (PermissionsPut(s, id.value, permissions), true)
  }

  /** The effect when no call fails; an error ends the loop. */
  function RefreshAll(s: State, pvs: seq<PersistentVolume>, nodes: seq<Node>, added: bool, changed: seq<Node>): (State, bool) {
    if pvs == [] then (s, true)
    else
      var (s1, ok) := RefreshAll(s, pvs[..|pvs| - 1], nodes, added, changed);
      if !ok then (s1, false) else RefreshOne(s1, pvs[|pvs| - 1], nodes, added, changed)
  }

  function UpdatedExports(s: State, pvs: seq<PersistentVolume>, nodes: seq<Node>, added: bool, changed: seq<Node>): (State, bool) {
    if pvs == [] || nodes == [] then (s, true) else RefreshAll(s, pvs, nodes, added, changed)
  }

  lemma PutTwice(s: State, id: Id, p: seq<Permission>, q: seq<Permission>)
    requires id in s.exports
    ensures PermissionsPut(PermissionsPut(s, id, p), id, q) == PermissionsPut(s, id, q)
  {
  }

  // ---------------------------------------------------------------- the methods

  /** Appends the addresses of one node that are missing, and puts the whole list after every entry. */
  method AddNode(arr: Array, id: Id, fetched: seq<Permission>, start: seq<Permission>, access: string, addresses: seq<Address>)
    returns (permissions: seq<Permission>, ok: bool)
    requires Wf(arr.s) && id in arr.s.exports && arr.s.exports[id].permissions == start
    modifies arr
    ensures Wf(arr.s) && (ok <==> arr.faults == old(arr.faults)) && arr.faults >= old(arr.faults)
    ensures arr.s == PermissionsPut(old(arr.s), id, permissions) && start <= permissions
    ensures ok ==> permissions == start + Missing(fetched, addresses, access)
  {
    permissions := start;
    assert arr.s.exports[id := arr.s.exports[id].(permissions := start)] == arr.s.exports;
    for j := 0 to |addresses|
      invariant Wf(arr.s) && arr.faults == old(arr.faults)
      invariant permissions == start + Missing(fetched, addresses[..j], access)
      invariant arr.s == PermissionsPut(old(arr.s), id, permissions)
    {
      assert addresses[..j + 1][..j] == addresses[..j];
      var ip := addresses[j].ip;
      if ip.Some? && !Mentioned(fetched, ip.value) {
        var reply := arr.PutPermissions(id, permissions + [Permission(access, ip.value)]);
        if reply.Err? {
          return permissions, false;
        }
        permissions := permissions + [Permission(access, ip.value)];
      }
    }
    assert addresses[..|addresses|] == addresses;
    ok := true;
  }

  method AddClients(arr: Array, id: Id, fetched: seq<Permission>, access: string, changed: seq<Node>)
    returns (permissions: seq<Permission>, ok: bool)
    requires Wf(arr.s) && id in arr.s.exports && arr.s.exports[id].permissions == fetched
    modifies arr
    ensures Wf(arr.s) && (ok <==> arr.faults == old(arr.faults)) && arr.faults >= old(arr.faults)
    ensures arr.s == PermissionsPut(old(arr.s), id, permissions) && fetched <= permissions
    ensures ok ==> permissions == fetched + MissingNodes(fetched, changed, access)
  {
    permissions := fetched;
    assert arr.s.exports[id := arr.s.exports[id].(permissions := fetched)] == arr.s.exports;
    for i := 0 to |changed|
      invariant Wf(arr.s) && arr.faults == old(arr.faults)
      invariant permissions == fetched + MissingNodes(fetched, changed[..i], access)
      invariant arr.s == PermissionsPut(old(arr.s), id, permissions)
    {
      assert changed[..i + 1][..i] == changed[..i];
      ghost var before := permissions;
      permissions, ok := AddNode(arr, id, fetched, permissions, access, changed[i].addresses);
      PutTwice(old(arr.s), id, before, permissions);
      if !ok {
        return;
      }
    }
    assert changed[..|changed|] == changed;
    ok := true;
  }

  method CollectClients(nodes: seq<Node>, access: string) returns (permissions: seq<Permission>)
    ensures permissions == GrantNodes(nodes, access, false)
  {
    permissions := [];
    for i := 0 to |nodes|
      invariant permissions == GrantNodes(nodes[..i], access, false)
    {
      var addresses := nodes[i].addresses;
      for j := 0 to |addresses|
        invariant permissions == GrantNodes(nodes[..i], access, false) + Grant(addresses[..j], access, false)
      {
        assert addresses[..j + 1][..j] == addresses[..j];
        if addresses[j].ip.Some? {
          permissions := permissions + [Permission(access, addresses[j].ip.value)];
        }
      }
      assert addresses[..|addresses|] == addresses;
      assert nodes[..i + 1][..i] == nodes[..i];
    }
    assert nodes[..|nodes|] == nodes;
  }

  method UpdateOne(arr: Array, pv: PersistentVolume, nodes: seq<Node>, added: bool, changed: seq<Node>) returns (ok: bool)
    requires Wf(arr.s)
    modifies arr
    ensures Wf(arr.s) && arr.faults >= old(arr.faults)
    ensures arr.s == old(arr.s).(exports := arr.s.exports)
    ensures arr.faults == old(arr.faults) ==> (arr.s, ok) == RefreshOne(old(arr.s), pv, nodes, added, changed)
    ensures ok ==> arr.faults == old(arr.faults)
  {
    if !Concerns(pv) {
      return true;
    }
    var text := ParseInt(Annotation(pv, EXPORT_ID), LIMIT64);
    if !text.Number? {
      return false;
    }
    var id := text.value;
    var reply := arr.GetExport(id);
    if reply.Err? {
      return false;
    }
    var fetched := reply.value.permissions;
    if fetched == [] {
      return false; // the missing first entry is recovered as an error
    }
    var access := fetched[0].access;
    if added {
      var _, done := AddClients(arr, id, fetched, access, changed);
      ok := done;
    } else {
      var permissions := CollectClients(nodes, access);
      if permissions == [] {
        assert arr.s.exports[id := arr.s.exports[id].(permissions := fetched)] == arr.s.exports;
        return true;
      }
      var put := arr.PutPermissions(id, permissions);
      ok := put.Ok?;
    }
  }

  method UpdateMapping(arr: Array, pvs: seq<PersistentVolume>, nodes: seq<Node>, added: bool, changed: seq<Node>) returns (ok: bool)
    requires Wf(arr.s)
    modifies arr
    ensures Wf(arr.s) && arr.faults >= old(arr.faults)
    ensures arr.s == old(arr.s).(exports := arr.s.exports)
    ensures arr.faults == old(arr.faults) ==> (arr.s, ok) == UpdatedExports(old(arr.s), pvs, nodes, added, changed)
    ensures ok ==> arr.faults == old(arr.faults)
  {
    if pvs == [] || nodes == [] {
      return true;
    }
    for k := 0 to |pvs|
      invariant Wf(arr.s) && arr.faults == old(arr.faults)
      invariant arr.s == old(arr.s).(exports := arr.s.exports)
      invariant (arr.s, true) == RefreshAll(old(arr.s), pvs[..k], nodes, added, changed)
    {
      assert pvs[..k + 1][..k] == pvs[..k];
      ok := UpdateOne(arr, pvs[k], nodes, added, changed);
      if !ok {
        if arr.faults == old(arr.faults) {
          StopsAtError(old(arr.s), pvs, k + 1, nodes, added, changed);
        }
        return false;
      }
    }
    assert pvs[..|pvs|] == pvs;
    ok := true;
  }

  lemma {:induction false} StopsAtError(s: State, pvs: seq<PersistentVolume>, k: nat, nodes: seq<Node>, added: bool, changed: seq<Node>)
    requires k <= |pvs| && !RefreshAll(s, pvs[..k], nodes, added, changed).1
    ensures RefreshAll(s, pvs, nodes, added, changed) == RefreshAll(s, pvs[..k], nodes, added, changed)
    decreases |pvs| - k
  {
    if k == |pvs| {
      assert pvs[..k] == pvs;
    } else {
      assert pvs[..k + 1][..k] == pvs[..k];
      StopsAtError(s, pvs, k + 1, nodes, added, changed);
    }
  }
}
