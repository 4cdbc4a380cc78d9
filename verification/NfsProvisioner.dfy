/** The NFS provisioner: a filesystem, an export whose clients are the nodes, and metadata. */
module NfsProvisioner {
  import opened StorageArray
  import opened Commons
  import opened Decimal
  import Balance
  import Validation

  const EXPORT_ID := "Export_Id"
  const EXPORT_BLOCK := "EXPORT_block"
  const VOLUME_ID := "Volume_Id"

  /** `ip` is the canonical form of an address that parses as one. */
  datatype Address = Address(internal: bool, ip: Option<string>)
  datatype Node = Node(name: string, addresses: seq<Address>)

  // ---------------------------------------------------------------- permissions

  function Clients(permissions: seq<Permission>): set<string> {
    set p | p in permissions :: p.client
  }

  function Ips(addresses: seq<Address>, internalOnly: bool): set<string> {
    set a | a in addresses && a.ip.Some? && (internalOnly ==> a.internal) :: a.ip.value
  }

  function NodeIps(nodes: seq<Node>, internalOnly: bool): set<string> {
    set n, a | n in nodes && a in n.addresses && a.ip.Some? && (internalOnly ==> a.internal) :: a.ip.value
  }

  function Grant(addresses: seq<Address>, access: string, internalOnly: bool): seq<Permission> {
    if addresses == [] then []
    else
      var a := addresses[|addresses| - 1];
      Grant(addresses[..|addresses| - 1], access, internalOnly)
      + if a.ip.Some? && (internalOnly ==> a.internal) then [Permission(access, a.ip.value)] else []
  }

  /** One entry for every address, in the order of the nodes. */
  function GrantNodes(nodes: seq<Node>, access: string, internalOnly: bool): seq<Permission> {
    if nodes == [] then []
    else GrantNodes(nodes[..|nodes| - 1], access, internalOnly)
         + Grant(nodes[|nodes| - 1].addresses, access, internalOnly)
  }

  /** keyExists: any value of an entry may match. */
  predicate Mentioned(permissions: seq<Permission>, ip: string) {
    exists p :: p in permissions && (p.access == ip || p.client == ip)
  }

  /** The entries appended for an added node: those of addresses the fetched list does not mention. */
  function Missing(fetched: seq<Permission>, addresses: seq<Address>, access: string): seq<Permission> {
    if addresses == [] then []
    else
      var a := addresses[|addresses| - 1];
      Missing(fetched, addresses[..|addresses| - 1], access)
      + if a.ip.Some? && !Mentioned(fetched, a.ip.value) then [Permission(access, a.ip.value)] else []
  }

  function MissingNodes(fetched: seq<Permission>, nodes: seq<Node>, access: string): seq<Permission> {
    if nodes == [] then []
    else MissingNodes(fetched, nodes[..|nodes| - 1], access) + Missing(fetched, nodes[|nodes| - 1].addresses, access)
  }

  lemma {:induction false} GrantClients(addresses: seq<Address>, access: string, internalOnly: bool)
    ensures Clients(Grant(addresses, access, internalOnly)) == Ips(addresses, internalOnly)
    ensures forall p :: p in Grant(addresses, access, internalOnly) ==> p.access == access
    decreases |addresses|
  {
    if addresses != [] {
      var init, a := addresses[..|addresses| - 1], addresses[|addresses| - 1];
      GrantClients(init, access, internalOnly);
      assert forall b :: b in addresses <==> b in init || b == a;
      var g, h := Grant(init, access, internalOnly), Grant(addresses, access, internalOnly);
      if a.ip.Some? && (internalOnly ==> a.internal) {
        assert Clients(h) == Clients(g) + {a.ip.value};
        assert Ips(addresses, internalOnly) == Ips(init, internalOnly) + {a.ip.value};
      } else {
        assert h == g;
        assert Ips(addresses, internalOnly) == Ips(init, internalOnly);
      }
    }
  }

  lemma {:induction false} GrantNodesClients(nodes: seq<Node>, access: string, internalOnly: bool)
    ensures Clients(GrantNodes(nodes, access, internalOnly)) == NodeIps(nodes, internalOnly)
    ensures forall p :: p in GrantNodes(nodes, access, internalOnly) ==> p.access == access
    decreases |nodes|
  {
    if nodes != [] {
      var init, n := nodes[..|nodes| - 1], nodes[|nodes| - 1];
      GrantNodesClients(init, access, internalOnly);
      GrantClients(n.addresses, access, internalOnly);
      NodeIpsLast(nodes, internalOnly);
      var g, h := GrantNodes(init, access, internalOnly), Grant(n.addresses, access, internalOnly);
      assert Clients(g + h) == Clients(g) + Clients(h);
    }
  }

  lemma NodeIpsLast(nodes: seq<Node>, internalOnly: bool)
    requires nodes != []
    ensures NodeIps(nodes, internalOnly) ==
            NodeIps(nodes[..|nodes| - 1], internalOnly) + Ips(nodes[|nodes| - 1].addresses, internalOnly)
  {
    var init, n := nodes[..|nodes| - 1], nodes[|nodes| - 1];
    assert forall m :: m in nodes <==> m in init || m == n;
  }

  lemma {:induction false} MissingClients(fetched: seq<Permission>, addresses: seq<Address>, access: string)
    requires forall p :: p in fetched ==> p.access !in Ips(addresses, false)
    ensures Clients(fetched + Missing(fetched, addresses, access)) == Clients(fetched) + Ips(addresses, false)
    ensures forall p :: p in Missing(fetched, addresses, access) ==> p.access == access
    decreases |addresses|
  {
    var m := Missing(fetched, addresses, access);
    if addresses != [] {
      var init, a := addresses[..|addresses| - 1], addresses[|addresses| - 1];
      assert forall b :: b in addresses <==> b in init || b == a;
      assert Ips(addresses, false) == Ips(init, false) + if a.ip.Some? then {a.ip.value} else {};
      MissingClients(fetched, init, access);
      var m' := Missing(fetched, init, access);
      if a.ip.Some? && !Mentioned(fetched, a.ip.value) {
        assert m == m' + [Permission(access, a.ip.value)];
        assert fetched + m == fetched + m' + [Permission(access, a.ip.value)];
        assert Clients(fetched + m) == Clients(fetched + m') + {a.ip.value};
      } else {
        assert m == m';
        if a.ip.Some? {
          assert a.ip.value in Clients(fetched);
        }
      }
    } else {
      assert fetched + m == fetched;
    }
  }

  // ---------------------------------------------------------------- the asset

  /** What CreateVolume leaves: no export if the cluster has no nodes. */
  function Asset(s: State, fs: Id, name: string, exported: Option<Id>, e: Export): State {
    s.(filesystems := s.filesystems[fs := name], metadata := s.metadata[fs := name],
       exports := if exported.Some? then s.exports[exported.value := e] else s.exports,
       issued := s.issued + {fs} + if exported.Some? then {exported.value} else {})
  }

  /** Without the filesystem, and with it its exports and metadata, the two arrays are the same. */
  ghost predicate SameOthers(before: State, after: State, fs: Id) {
    && before.issued <= after.issued
    && FilesystemDestroyed(after, fs) == FilesystemDestroyed(before, fs).(issued := after.issued)
  }

  /** What is left of the filesystem is a part of what was there. */
  ghost predicate Shrunk(before: State, after: State, fs: Id) {
    && FilesystemDestroyed(after, fs) == FilesystemDestroyed(before, fs)
    && (fs in after.filesystems ==> fs in before.filesystems && after.filesystems[fs] == before.filesystems[fs])
    && (fs in after.metadata ==> fs in before.metadata && after.metadata[fs] == before.metadata[fs])
    && (forall e :: e in after.exports ==> e in before.exports && after.exports[e] == before.exports[e])
  }

  /** The filesystem's exports are this one, or none is left. */
  ghost predicate OwnExport(s: State, fs: Id, exportId: Id) {
    forall e :: e in s.exports ==> (s.exports[e].filesystem == fs <==> e == exportId)
  }

  lemma NothingLeft(s: State, fs: Id)
    requires Wf(s) && fs !in s.filesystems && fs !in s.volumes
    ensures FilesystemDestroyed(s, fs) == s
  {
    assert s.filesystems - {fs} == s.filesystems && s.metadata - {fs} == s.metadata;
    var kept := FilesystemDestroyed(s, fs).exports;
    forall e | e in s.exports ensures e in kept && kept[e] == s.exports[e] {
      assert s.exports[e].filesystem in s.filesystems;
    }
    assert kept.Keys == s.exports.Keys;
  }

  lemma ShrunkSteps(s: State, fs: Id, e: Id)
    ensures Shrunk(s, Detached(s, fs), fs)
    ensures Shrunk(s, FilesystemDestroyed(s, fs), fs)
    ensures e in s.exports && s.exports[e].filesystem == fs ==> Shrunk(s, ExportDestroyed(s, e), fs)
  {
    assert s.metadata - {fs} - {fs} == s.metadata - {fs};
    assert s.filesystems - {fs} - {fs} == s.filesystems - {fs};
  }

  lemma AssetInSteps(s: State, fs: Id, name: string, exported: Option<Id>, e: Export)
    ensures var s1 := FilesystemCreated(s, fs, name);
            Asset(s, fs, name, exported, e)
            == Attached(if exported.Some? then ExportCreated(s1, exported.value, e) else s1, fs, name)
  {
  }

  lemma ProvisionThenDestroy(s: State, fs: Id, name: string, exported: Option<Id>, e: Export)
    requires Wf(s) && fs !in s.issued && (exported.Some? ==> exported.value !in s.issued) && e.filesystem == fs
    ensures Restored(s, FilesystemDestroyed(Asset(s, fs, name, exported, e), fs))
  {
    NothingLeft(s, fs);
    var s1 := FilesystemDestroyed(Asset(s, fs, name, exported, e), fs);
    assert s1.exports == s.exports;
    assert s1.filesystems == s.filesystems && s1.metadata == s.metadata;
  }

  lemma Unwound(s0: State, s1: State, s2: State, fs: Id)
    requires Wf(s0) && Wf(s2) && fs !in s0.issued && SameOthers(s0, s1, fs) && Shrunk(s1, s2, fs)
    ensures SameOthers(s0, s2, fs)
    ensures fs !in s2.filesystems <==> Restored(s0, s2)
  {
    NothingLeft(s0, fs);
    assert FilesystemDestroyed(s2, fs).volumes == s0.volumes;
    if fs !in s2.filesystems {
      NothingLeft(s2, fs);
    }
  }

  /** The export's permissions are reduced to what PutPermissions changes. */
  datatype Created = Filesystem(id: Id, exportId: Id, server: string) | Failure

  function ExportPath(directory: string, name: string): string {
    directory + "/" + name
  }

  function NewVolume(name: string, fs: Id, exportId: Id, path: string, servers: seq<string> := []): PersistentVolume {
    PersistentVolume(name, Nfs, map[
      CREATED_BY := CREATOR, EXPORT_BLOCK := path, EXPORT_ID := Format(exportId), VOLUME_ID := Format(fs)], servers)
  }

  function NumberIn(pv: PersistentVolume, key: string): Option<Id> {
    if ParseInt(Annotation(pv, key), LIMIT64).Number? then Some(ParseInt(Annotation(pv, key), LIMIT64).value) else None
  }

  predicate Describes(pv: PersistentVolume, fs: Id, exportId: Id) {
    && Provisioned(pv) == Some(true) && Annotation(pv, EXPORT_ID) != ""
    && NumberIn(pv, VOLUME_ID) == Some(fs) && NumberIn(pv, EXPORT_ID) == Some(exportId)
  }

  lemma NewVolumeDescribes(name: string, fs: Id, exportId: Id, path: string, servers: seq<string> := [])
    requires 0 < fs <= MAX_ID && 0 <= exportId <= MAX_ID
    ensures Describes(NewVolume(name, fs, exportId, path, servers), fs, exportId)
  {
    assert |CREATED_BY| > |EXPORT_BLOCK| > |EXPORT_ID| && |EXPORT_BLOCK| > |VOLUME_ID|;
    assert EXPORT_ID[0] != VOLUME_ID[0];
    RoundTrip(fs, LIMIT64);
    RoundTrip(exportId, LIMIT64);
  }

  // ---------------------------------------------------------------- addresses

  /** How many calls have taken an address of a network space, given the counters kept of them. */
  function Calls(counts: map<string, nat>, space: string): nat {
    if space in counts then counts[space] + 1 else 0
  }

  /** One more call has taken an address of the space in use. */
  ghost predicate Turned(before: map<string, nat>, after: map<string, nat>, spaces: string) {
    && Calls(after, FirstSpace(spaces)) == Calls(before, FirstSpace(spaces)) + 1
    && forall other :: other != FirstSpace(spaces) ==> Calls(after, other) == Calls(before, other)
  }

  /** The network space in use is the first of the list. */
  function FirstSpace(spaces: string): string {
    Validation.Trim(Validation.Split(spaces, ',')[0])
  }

  /** The address whose turn it is. */
  function ServerInTurn(table: map<string, seq<string>>, spaces: string, counts: map<string, nat>): Option<string> {
    var space := FirstSpace(spaces);
    if space in table && table[space] != []
    then Some(table[space][Balance.NfsEntry(Calls(counts, space), |table[space]|)])
    else None
  }

  lemma EntryInTurn(turn: nat, count: nat, k: nat)
    requires k > 0 && count == if turn == 0 then 0 else turn - 1
    ensures Balance.NfsEntry(turn, k) == count % k < k
  {
  }

  /** The address a new filesystem gets: that of the first of the spaces that exist. */
  function Server(table: map<string, seq<string>>, spaces: string, counts: map<string, nat>): Option<string> {
    match Validation.Validated(spaces, table.Keys)
    case None => None
    case Some(valid) => ServerInTurn(table, valid, counts)
  }

  /** The array takes no such filesystem: the limit, the pool or the name forbids it. */
  ghost predicate Refused(s: State, pools: set<string>, name: string, settings: map<string, string>) {
    || |s.filesystems| > ParseInt(Get(settings, "max_fs"), LIMIT64).Value()
    || Get(settings, "pool_name") !in pools || name in s.filesystems.Values
  }

  class NfsProvisioner {
    const arr: Array
    const exportDir: string
    var networkspacesIps: map<string, nat>

    constructor (arr: Array, exportDir: string)
      ensures this.arr == arr && this.exportDir == exportDir && networkspacesIps == map[]
    {
      this.arr, this.exportDir, networkspacesIps := arr, exportDir, map[];
    }

    // -------------------------------------------------------------- the steps

    /** The limit is compared the other way round than for volumes: one more is allowed. */
    method CreateDirectory(name: string, pool: string, maxFilesystems: string) returns (r: Reply<Id>)
      requires Wf(arr.s)
      modifies arr
      ensures Wf(arr.s)
      ensures r.Ok? ==> 0 < r.value <= MAX_ID && r.value !in old(arr.s).issued
                        && arr.s == FilesystemCreated(old(arr.s), r.value, name)
      ensures r.Err? ==> arr.s == old(arr.s)
      ensures arr.faults >= old(arr.faults)
      ensures arr.faults == old(arr.faults) ==>
                (r.Ok? <==> |old(arr.s).filesystems| <= ParseInt(maxFilesystems, LIMIT64).Value()
                            && pool in arr.pools && name !in old(arr.s).filesystems.Values)
    {
      var n := arr.CountFilesystems();
      if n.Err? {
        return Err(n.code);
      }
      if n.value > ParseInt(maxFilesystems, LIMIT64).Value() {
        return Err(StillReferenced);
      }
      var found := arr.FindPool(pool);
      if found.Err? {
        return Err(found.code);
      }
      r := arr.CreateFilesystem(name);
    }

    /** Only InternalIP addresses become clients; without nodes there is no export and no error. */
    method CreateExport(name: string, fs: Id, access: string, nodes: seq<Node>) returns (id: Id, ok: bool)
      requires Wf(arr.s) && fs in arr.s.filesystems
      modifies arr
      ensures Wf(arr.s)
      ensures ok && nodes == [] ==> id == 0 && arr.s == old(arr.s)
      ensures ok && nodes != [] ==>
                && 0 < id <= MAX_ID && id !in old(arr.s).issued
                && arr.s == ExportCreated(old(arr.s), id, Export(fs, ExportPath(exportDir, name), GrantNodes(nodes, access, true)))
      ensures !ok ==> arr.s == old(arr.s)
      ensures ok <==> arr.faults == old(arr.faults)
      ensures arr.faults >= old(arr.faults)
    {
      if nodes == [] {
        return 0, true;
      }
      var permissions: seq<Permission> := [];
      for i := 0 to |nodes|
        invariant permissions == GrantNodes(nodes[..i], access, true)
      {
        var addresses := nodes[i].addresses;
        for j := 0 to |addresses|
          invariant permissions == GrantNodes(nodes[..i], access, true) + Grant(addresses[..j], access, true)
        {
          assert addresses[..j + 1][..j] == addresses[..j];
          if addresses[j].ip.Some? && addresses[j].internal {
            permissions := permissions + [Permission(access, addresses[j].ip.value)];
          }
        }
        assert addresses[..|addresses|] == addresses;
        assert nodes[..i + 1][..i] == nodes[..i];
      }
      assert nodes[..|nodes|] == nodes;
      var reply := arr.CreateExport(Export(fs, ExportPath(exportDir, name), permissions));
      match reply
      case Ok(e) => return e, true;
      case Err(_) => return 0, false;
    }

    /** The next address in turn; the counter moves even if the space turns out to have none. */
    method GetServer(spaces: string) returns (ip: string, ok: bool)
      modifies this`networkspacesIps, arr`faults
      ensures ok ==> ServerInTurn(arr.spaces, spaces, old(networkspacesIps)) == Some(ip)
      ensures networkspacesIps == old(networkspacesIps) || Turned(old(networkspacesIps), networkspacesIps, spaces)
      ensures ok || (arr.faults == old(arr.faults) && FirstSpace(spaces) in arr.spaces) ==>
                Turned(old(networkspacesIps), networkspacesIps, spaces)
      ensures arr.faults >= old(arr.faults)
      ensures arr.faults == old(arr.faults) ==> (ok <==> ServerInTurn(arr.spaces, spaces, old(networkspacesIps)).Some?)
    {
      var space := FirstSpace(spaces);
      var reply := arr.FindSpace(space);
      if reply.Err? {
        return "", false;
      }
      ghost var turn := Calls(networkspacesIps, space);
      var count := 0;
      if space in networkspacesIps {
        count := networkspacesIps[space];
        networkspacesIps := networkspacesIps[space := count + 1];
      } else {
        networkspacesIps := networkspacesIps[space := 0];
      }
      if reply.value == [] {
        return "", false; // the division by zero is recovered
      }
      EntryInTurn(turn, count, |reply.value|);
      return reply.value[count % |reply.value|], true;
    }

    // -------------------------------------------------------------- the saga

    method RevertMetadata(fs: Id)
      requires Wf(arr.s)
      modifies arr
      ensures Wf(arr.s) && arr.faults >= old(arr.faults) && Shrunk(old(arr.s), arr.s, fs)
      ensures arr.s.filesystems == old(arr.s).filesystems && arr.s.exports == old(arr.s).exports
    {
      var _ := arr.DetachMetadata(fs);
      ShrunkSteps(old(arr.s), fs, 0);
    }

    method RevertExport(fs: Id, exportId: Id)
      requires Wf(arr.s) && OwnExport(arr.s, fs, exportId)
      modifies arr
      ensures Wf(arr.s) && arr.faults >= old(arr.faults) && Shrunk(old(arr.s), arr.s, fs)
      ensures arr.s.filesystems == old(arr.s).filesystems
      ensures arr.faults == old(arr.faults) ==> !IsExported(arr.s, fs)
    {
      var _ := arr.DestroyExport(exportId);
      DeleteStep(old(arr.s), arr.s, fs, exportId);
    }

    method RevertDirectory(fs: Id)
      requires Wf(arr.s)
      modifies arr
      ensures Wf(arr.s) && arr.faults >= old(arr.faults) && Shrunk(old(arr.s), arr.s, fs)
      ensures arr.faults == old(arr.faults) && !IsExported(old(arr.s), fs) ==> fs !in arr.s.filesystems
    {
      var _ := arr.DestroyFilesystem(fs);
      ShrunkSteps(old(arr.s), fs, 0);
    }

    /** The compensations in reverse order, each ignoring its error. */
    method Revert(fs: Id, exportId: Id, attached: bool, ghost s0: State)
      requires Wf(arr.s) && Wf(s0) && fs !in s0.issued && SameOthers(s0, arr.s, fs)
      requires if exportId != 0 then OwnExport(arr.s, fs, exportId) else !IsExported(arr.s, fs)
      modifies arr
      ensures Wf(arr.s) && SameOthers(s0, arr.s, fs)
      ensures arr.faults >= old(arr.faults)
      ensures Restored(s0, arr.s) <==> fs !in arr.s.filesystems
      ensures arr.faults == old(arr.faults) ==> Restored(s0, arr.s)
    {
      ghost var s1 := arr.s;
      if attached {
        RevertMetadata(fs);
        Unwound(s0, s1, arr.s, fs);
      }
      ghost var s2 := arr.s;
      if exportId != 0 {
        RevertExport(fs, exportId);
        Unwound(s0, s2, arr.s, fs);
      }
      ghost var s3 := arr.s;
      RevertDirectory(fs);
      Unwound(s0, s3, arr.s, fs);
    }

    /** Labels an exported filesystem and picks a server address, or runs the compensations. */
    method LabelAndServe(name: string, fs: Id, exportId: Id, spaces: string, ghost s0: State)
      returns (server: string, ok: bool, ghost mark: nat)
      requires Wf(arr.s) && Wf(s0) && fs !in s0.issued && SameOthers(s0, arr.s, fs) && fs in arr.s.filesystems
      requires if exportId != 0 then OwnExport(arr.s, fs, exportId) else !IsExported(arr.s, fs)
      modifies this`networkspacesIps, arr
      ensures Wf(arr.s) && old(arr.faults) <= mark <= arr.faults
      ensures ok ==> arr.s == Attached(old(arr.s), fs, name)
      ensures ok ==> ServerInTurn(arr.spaces, spaces, old(networkspacesIps)) == Some(server)
                     && Turned(old(networkspacesIps), networkspacesIps, spaces)
      ensures arr.faults == old(arr.faults) ==> (ok <==> ServerInTurn(arr.spaces, spaces, old(networkspacesIps)).Some?)
      ensures !ok ==> SameOthers(s0, arr.s, fs) && (Restored(s0, arr.s) <==> fs !in arr.s.filesystems)
      ensures !ok && arr.faults == mark ==> Restored(s0, arr.s)
    {
      ghost var s1 := arr.s;
      server, ok := "", false;
      var attached := arr.AttachMetadata(fs, name);
      mark := arr.faults;
      if attached.Err? {
        Revert(fs, exportId, false, s0);
        return;
      }
      AttachedOnly(s0, s1, fs, name);
      server, ok := GetServer(spaces);
      mark := arr.faults;
      if !ok {
        Revert(fs, exportId, true, s0);
      }
    }

    /**
      Exports the filesystem just created in `s0`, labels it and picks a server address; on an
      error the compensations registered so far run, and their errors are ignored.
    */
    method ExportAndLabel(name: string, fs: Id, access: string, nodes: seq<Node>, spaces: string, ghost s0: State)
      returns (r: Created, ghost mark: nat)
      requires Wf(s0) && Wf(arr.s) && fs !in s0.issued && 0 < fs <= MAX_ID && arr.s == FilesystemCreated(s0, fs, name)
      modifies this`networkspacesIps, arr
      ensures Wf(arr.s) && old(arr.faults) <= mark <= arr.faults
      ensures r.Filesystem? ==>
                && r.id == fs && 0 <= r.exportId <= MAX_ID && (r.exportId == 0 <==> nodes == [])
                && (nodes != [] ==> r.exportId !in s0.issued)
                && arr.s == Asset(s0, fs, name, if nodes == [] then None else Some(r.exportId),
                                  Export(fs, ExportPath(exportDir, name), GrantNodes(nodes, access, true)))
      ensures r.Filesystem? ==> ServerInTurn(arr.spaces, spaces, old(networkspacesIps)) == Some(r.server)
                                && Turned(old(networkspacesIps), networkspacesIps, spaces)
      ensures arr.faults == old(arr.faults) ==>
                (r.Filesystem? <==> ServerInTurn(arr.spaces, spaces, old(networkspacesIps)).Some?)
      ensures r.Failure? ==> SameOthers(s0, arr.s, fs) && (Restored(s0, arr.s) <==> fs !in arr.s.filesystems)
      ensures r.Failure? && arr.faults == mark ==> Restored(s0, arr.s)
    {
      NothingLeft(s0, fs);
      r := Failure;
      var exportId, exported := CreateExport(name, fs, access, nodes);
      mark := arr.faults;
      NewFilesystemOnly(s0, arr.s, fs, name, exportId);
      if !exported {
        Revert(fs, 0, false, s0);
        return;
      }
      var server, found, m := LabelAndServe(name, fs, exportId, spaces, s0);
      mark := m;
      if !found {
        return;
      }
      AssetInSteps(s0, fs, name, if nodes == [] then None else Some(exportId),
                   Export(fs, ExportPath(exportDir, name), GrantNodes(nodes, access, true)));
      r := Filesystem(fs, exportId, server);
    }

    /**
      Creates a filesystem, exports it to the nodes, labels it and picks a server address.
      Whatever step fails, if no compensating call is lost the array is as before, also on
      an array that refuses to delete what is still referenced.
    */
    method CreateVolume(name: string, config: map<string, string>, parameters: map<string, string>, nodes: seq<Node>)
      returns (r: Created, ghost mark: nat, ghost fs: Id, ghost spaces: string)
      requires Wf(arr.s)
      modifies this`networkspacesIps, arr
      ensures Wf(arr.s)
      ensures fs !in old(arr.s).issued && old(arr.faults) <= mark <= arr.faults
      ensures r.Filesystem? ==>
                && r.id == fs && 0 < fs <= MAX_ID && 0 <= r.exportId <= MAX_ID && (r.exportId == 0 <==> nodes == [])
                && (nodes != [] ==> r.exportId !in old(arr.s).issued)
                && arr.s == Asset(old(arr.s), fs, name, if nodes == [] then None else Some(r.exportId),
                                  Export(fs, ExportPath(exportDir, name),
                                         GrantNodes(nodes, Get(config + parameters, "nfs_export_permissions"), true)))
      // it is reached at the address whose turn it is
      ensures r.Filesystem? ==> ServerInTurn(arr.spaces, spaces, old(networkspacesIps)) == Some(r.server)
                                && Turned(old(networkspacesIps), networkspacesIps, spaces)
                                && Validation.Within(spaces, Get(config + parameters, "nfs_networkspace"), arr.spaces.Keys)
      // without faults it fails exactly if the array refuses or the network space in use has no address
      ensures arr.faults == old(arr.faults) ==>
                (r.Filesystem? <==>
                   && !Refused(old(arr.s), arr.pools, name, config + parameters)
                   && Server(arr.spaces, Get(config + parameters, "nfs_networkspace"), old(networkspacesIps)).Some?)
      ensures r.Filesystem? && arr.faults == old(arr.faults) ==>
                Server(arr.spaces, Get(config + parameters, "nfs_networkspace"), old(networkspacesIps)) == Some(r.server)
      ensures r.Failure? ==> SameOthers(old(arr.s), arr.s, fs)
      ensures r.Failure? && fs !in arr.s.filesystems ==> Restored(old(arr.s), arr.s)
      ensures r.Failure? && arr.faults == mark ==> Restored(old(arr.s), arr.s)
    {
      ghost var s0 := arr.s;
      r, mark, fs, spaces := Failure, arr.faults, Bound(s0.issued), "";
      NothingLeft(s0, fs);
      var settings := config + parameters;
      var list, valid := Validation.OneTimeValidation(arr, Get(settings, "pool_name"), Get(settings, "nfs_networkspace"));
      mark, spaces := arr.faults, list;
      if !valid {
        return;
      }
      var directory := CreateDirectory(name, Get(settings, "pool_name"), Get(settings, "max_fs"));
      mark := arr.faults;
      if directory.Err? {
        return;
      }
      fs := directory.value;
      r, mark := ExportAndLabel(name, directory.value, Get(settings, "nfs_export_permissions"), nodes, list, s0);
    }

    /** The address at which a filesystem provisioned now is reached, if there is one. */
    ghost function Addresses(config: map<string, string>, parameters: map<string, string>): seq<string>
      reads this`networkspacesIps
    {
      match Server(arr.spaces, Get(config + parameters, "nfs_networkspace"), networkspacesIps)
      case None => []
      case Some(address) => [address]
    }

    /** The array takes no such filesystem, or the network space in use has no address. */
    ghost predicate Refuses(name: string, config: map<string, string>, parameters: map<string, string>)
      reads this`networkspacesIps, arr`s
    {
      Refused(arr.s, arr.pools, name, config + parameters) || Addresses(config, parameters) == []
    }

    /** Provision adds nothing that can fail: it turns the result into a volume object. */
    method Provision(name: string, config: map<string, string>, parameters: map<string, string>, nodes: seq<Node>)
      returns (r: Option<PersistentVolume>, ghost mark: nat, ghost fs: Id, ghost exportId: Id, ghost spaces: string)
      requires Wf(arr.s)
      modifies this`networkspacesIps, arr
      ensures Wf(arr.s)
      ensures fs !in old(arr.s).issued && old(arr.faults) <= mark <= arr.faults
      ensures r.Some? ==>
                && 0 < fs <= MAX_ID && (exportId == 0 <==> nodes == [])
                && (nodes != [] ==> exportId !in old(arr.s).issued)
                && r.value.name == name && r.value.source == Nfs && Describes(r.value, fs, exportId)
                && arr.s == Asset(old(arr.s), fs, name, if nodes == [] then None else Some(exportId),
                                  Export(fs, ExportPath(exportDir, name),
                                         GrantNodes(nodes, Get(config + parameters, "nfs_export_permissions"), true)))
      // the volume names the address whose turn it is
      ensures r.Some? ==> |r.value.servers| == 1
                          && ServerInTurn(arr.spaces, spaces, old(networkspacesIps)) == Some(r.value.servers[0])
                          && Turned(old(networkspacesIps), networkspacesIps, spaces)
                          && Validation.Within(spaces, Get(config + parameters, "nfs_networkspace"), arr.spaces.Keys)
      // without faults it fails exactly if the array refuses or the network space in use has no address
      ensures arr.faults == old(arr.faults) ==> (r.Some? <==> !old(Refuses(name, config, parameters)))
      ensures r.Some? && arr.faults == old(arr.faults) ==> r.value.servers == old(Addresses(config, parameters))
      ensures r.None? ==> SameOthers(old(arr.s), arr.s, fs)
      ensures r.None? && fs !in arr.s.filesystems ==> Restored(old(arr.s), arr.s)
      ensures r.None? && arr.faults == mark ==> Restored(old(arr.s), arr.s)
    {
      var created;
      created, mark, fs, spaces := CreateVolume(name, config, parameters, nodes);
      exportId := 0;
      if created.Failure? {
        return None, mark, fs, exportId, spaces;
      }
      exportId := created.exportId;
      var path := ExportPath(exportDir, name);
      NewVolumeDescribes(name, created.id, created.exportId, path, [created.server]);
      r := Some(NewVolume(name, created.id, created.exportId, path, [created.server]));
    }

    // -------------------------------------------------------------- deleting

    /** An annotation that is no number makes a path the array does not know. */
    method DeleteExport(text: string) returns (ok: bool)
      requires Wf(arr.s)
      modifies arr
      ensures Wf(arr.s)
      ensures arr.faults >= old(arr.faults)
      ensures var id := ParseInt(text, LIMIT64);
              && (ok ==> id.Number? && arr.s == ExportDestroyed(old(arr.s), id.value))
              && (!ok ==> arr.s == old(arr.s))
              && (id.Number? && arr.faults == old(arr.faults) ==> ok)
    {
      var id := ParseInt(text, LIMIT64);
      if !id.Number? {
        return false;
      }
      var reply := arr.DestroyExport(id.value);
      ok := reply.Ok? || reply.code == ExportNotFound;
      if reply == Err(ExportNotFound) {
        assert arr.s.exports - {id.value} == arr.s.exports;
      }
    }

    /**
      Export, metadata, filesystem, in this order. For a volume object as Provision made it:
      whatever fails, only this volume's entries disappear, and success means nothing of it
      remains.
    */
    method Delete(pv: PersistentVolume, ghost fs: Id, ghost exportId: Id) returns (r: DeleteResult)
      requires Wf(arr.s)
      modifies arr
      ensures Wf(arr.s)
      ensures arr.faults >= old(arr.faults)
      // another provisioner's volume is left alone, and so is one that nobody claims
      ensures r.Ignored? <==> CREATED_BY in pv.annotations && pv.annotations[CREATED_BY] != CREATOR
      ensures CREATED_BY !in pv.annotations || pv.annotations[CREATED_BY] != CREATOR ==> !r.Deleted? && arr.s == old(arr.s)
      ensures arr.s == old(arr.s).(exports := arr.s.exports, metadata := arr.s.metadata, filesystems := arr.s.filesystems)
      ensures r.Failed? ==> arr.s.filesystems == old(arr.s).filesystems
      ensures Describes(pv, fs, exportId) && OwnExport(old(arr.s), fs, exportId) ==>
                && Shrunk(old(arr.s), arr.s, fs)
                && (r.Deleted? ==> fs in old(arr.s).filesystems && arr.s == FilesystemDestroyed(old(arr.s), fs))
                && (arr.faults == old(arr.faults) && fs in old(arr.s).filesystems ==> r.Deleted?)
      // once the filesystem is gone every further attempt fails
      ensures Describes(pv, fs, exportId) && fs !in old(arr.s).filesystems ==> r.Failed?
    {
      ghost var s0 := arr.s;
      var ours := Provisioned(pv);
      if ours == None {
        return Failed;
      }
      if ours == Some(false) {
        return Ignored;
      }
      var unexported := DeleteExport(Annotation(pv, EXPORT_ID));
      ghost var s1 := arr.s;
      if Describes(pv, fs, exportId) && OwnExport(s0, fs, exportId) {
        DeleteStep(s0, s1, fs, exportId);
      }
      if !unexported || VOLUME_ID !in pv.annotations {
        return Failed;
      }
      var id := ParseInt(Annotation(pv, VOLUME_ID), LIMIT64).Value();
      var detached := arr.DetachMetadata(id);
      if detached.Err? {
        return Failed;
      }
      ghost var s2 := arr.s;
      ShrunkSteps(s1, id, exportId);
      var destroyed := arr.DestroyFilesystem(id);
      ShrunkSteps(s2, id, exportId);
      r := if destroyed.Ok? then Deleted else Failed;
      if destroyed.Ok? && Describes(pv, fs, exportId) && OwnExport(s0, fs, exportId) {
        DeletedAll(s0, fs, exportId);
      }
    }
  }

  lemma DeletedAll(s0: State, fs: Id, exportId: Id)
    requires OwnExport(s0, fs, exportId)
    ensures FilesystemDestroyed(Detached(ExportDestroyed(s0, exportId), fs), fs) == FilesystemDestroyed(s0, fs)
  {
    assert s0.metadata - {fs} - {fs} == s0.metadata - {fs};
    var a, b := FilesystemDestroyed(ExportDestroyed(s0, exportId), fs).exports, FilesystemDestroyed(s0, fs).exports;
    assert a == b;
  }

  lemma DeleteStep(s0: State, s1: State, fs: Id, exportId: Id)
    requires s1 == s0 || s1 == ExportDestroyed(s0, exportId)
    requires OwnExport(s0, fs, exportId)
    ensures Shrunk(s0, s1, fs)
  {
    if exportId in s0.exports {
      ShrunkSteps(s0, fs, exportId);
    } else {
      assert s0.exports - {exportId} == s0.exports;
    }
  }

  /** A fresh filesystem with its export differs from the array before in that filesystem only. */
  lemma NewFilesystemOnly(s0: State, s1: State, fs: Id, name: string, exportId: Id)
    requires Wf(s0) && fs !in s0.issued && s0.issued <= s1.issued
    requires s1 == s0.(filesystems := s0.filesystems[fs := name], issued := s1.issued, exports := s1.exports)
    requires s1.exports == s0.exports
          || (exportId in s1.exports && s1.exports == s0.exports[exportId := s1.exports[exportId]]
              && exportId !in s0.exports && s1.exports[exportId].filesystem == fs)
    ensures SameOthers(s0, s1, fs)
    ensures s1.exports == s0.exports ==> !IsExported(s1, fs)
    ensures s1.exports != s0.exports ==> OwnExport(s1, fs, exportId)
  {
    NothingLeft(s0, fs);
    forall e | e in s0.exports ensures s0.exports[e].filesystem != fs {
      assert s0.exports[e].filesystem in s0.filesystems;
    }
    assert FilesystemDestroyed(s1, fs).filesystems == s0.filesystems;
    assert FilesystemDestroyed(s1, fs).exports == s0.exports;
  }

  lemma AttachedOnly(s0: State, s1: State, fs: Id, name: string)
    requires SameOthers(s0, s1, fs)
    ensures SameOthers(s0, Attached(s1, fs, name), fs)
  {
    assert s1.metadata[fs := name] - {fs} == s1.metadata - {fs};
  }
}
