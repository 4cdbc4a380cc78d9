/** What the three provisioners share: persistent volumes, host lookups, unmapping. */
module Commons {
  import opened StorageArray

  datatype Source = Nfs | Iscsi | Fc

  /** What the provisioners keep in a persistent volume object; `servers` are the addresses it is reached at. */
  datatype PersistentVolume = PersistentVolume(
    name: string, source: Source, annotations: map<string, string>, servers: seq<string> := [])

  const CREATED_BY := "kubernetes.io/createdby"
  const CREATOR := "infinidat-dynamic-provisioner"

  /** Go's map lookup: an absent key reads as the empty string. */
  function Get(m: map<string, string>, key: string): string {
    if key in m then m[key] else ""
  }

  function Annotation(pv: PersistentVolume, key: string): string {
    Get(pv.annotations, key)
  }

  /** Everything as before, apart from identifiers that have been used up. */
  ghost predicate Restored(before: State, after: State) {
    before.issued <= after.issued && after == before.(issued := after.issued)
  }

  datatype DeleteResult = Deleted | Ignored | Failed

  /** None if the annotation is missing, which is an error rather than "not ours". */
  function Provisioned(pv: PersistentVolume): Option<bool> {
    if CREATED_BY in pv.annotations then Some(pv.annotations[CREATED_BY] == CREATOR) else None
  }

  /** The nodes the administrator registered as hosts, in the order of the node list. */
  function Registered(hosts: map<string, Id>, nodes: seq<string>): (r: seq<string>)
    ensures forall n :: n in r <==> n in nodes && n in hosts
    ensures Distinct(nodes) ==> Distinct(r)
  {
    if nodes == [] then []
    else
      var init, last := nodes[..|nodes| - 1], nodes[|nodes| - 1];
      assert nodes == init + [last];
      assert Distinct(nodes) ==> Distinct(init) && last !in init;
      if last in hosts then Registered(hosts, init) + [last] else Registered(hosts, init)
  }

  predicate Distinct(names: seq<string>) {
    forall i, j :: 0 <= i < j < |names| ==> names[i] != names[j]
  }

  function HostIds(hosts: map<string, Id>, names: seq<string>): set<Id> {
    set n | n in names && n in hosts :: hosts[n]
  }

  lemma RegisteredPrefix(hosts: map<string, Id>, nodes: seq<string>, k: nat)
    requires k < |nodes|
    ensures Registered(hosts, nodes[..k + 1]) ==
            if nodes[k] in hosts then Registered(hosts, nodes[..k]) + [nodes[k]] else Registered(hosts, nodes[..k])
  {
    assert nodes[..k + 1][..k] == nodes[..k];
  }

  /** An error ends the loop, and the hosts found so far are returned with it. */
  method GetHostList(arr: Array, nodes: seq<string>) returns (list: seq<string>, ok: bool)
    modifies arr`faults
    ensures ok <==> arr.faults == old(arr.faults)
    ensures arr.faults >= old(arr.faults)
    ensures ok ==> list == Registered(arr.s.hosts, nodes)
    ensures exists k :: 0 <= k <= |nodes| && list == Registered(arr.s.hosts, nodes[..k])
    ensures forall n :: n in list ==> n in nodes && n in arr.s.hosts
  {
    list := [];
    for k := 0 to |nodes|
      invariant list == Registered(arr.s.hosts, nodes[..k])
      invariant arr.faults == old(arr.faults)
    {
      var reply := arr.FindHost(nodes[k]);
      if reply.Err? {
        return list, false;
      }
      RegisteredPrefix(arr.s.hosts, nodes, k);
      if reply.value.Some? {
        list := list + [nodes[k]];
      }
    }
    assert nodes[..|nodes|] == nodes;
    ok := true;
  }

  /** The callers that ignore the error go on with host id 0, which is no host. */
  method GetHostId(arr: Array, name: string) returns (id: Id, ok: bool)
    modifies arr`faults
    ensures ok ==> name in arr.s.hosts && id == arr.s.hosts[name]
    ensures !ok ==> id == 0
    ensures arr.faults == old(arr.faults) ==> (ok <==> name in arr.s.hosts)
    ensures arr.faults >= old(arr.faults)
  {
    var reply := arr.FindHost(name);
    if reply.Ok? && reply.value.Some? {
      return reply.value.value, true;
    }
    return 0, false;
  }

  /** A mapping that is not there counts as removed. */
  method UnMap(arr: Array, host: Id, volume: Id) returns (ok: bool)
    requires Wf(arr.s)
    modifies arr
    ensures Wf(arr.s)
    ensures arr.s == if ok then Unmapped(old(arr.s), host, volume) else old(arr.s)
    ensures arr.faults >= old(arr.faults)
    ensures arr.faults == old(arr.faults) && host in arr.s.hosts.Values ==> ok
    ensures ok ==> arr.faults == old(arr.faults)
  {
    var reply := arr.UnmapLun(host, volume);
    ok := reply.Ok? || reply.code == LunNotFound;
    if reply.Err? {
      assert (host, volume) !in arr.s.luns ==> arr.s.luns == arr.s.luns - {(host, volume)};
    }
  }
}
