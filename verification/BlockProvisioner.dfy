/**
  The iSCSI and Fibre Channel provisioners. They make the same calls in the same order and
  differ in how a volume is destroyed: Fibre Channel's volDestroy detaches and unmaps by
  itself, iSCSI's only deletes.
*/
module BlockProvisioner {
  import opened StorageArray
  import opened Commons
  import opened Decimal
  import Balance
  import Validation

  const VOLUME_ID := "volumeId"
  const VOLUME_NAME := "volume_name"
  const LUN := "lun"

  /** The id UpdateMapping uses: none without an annotation, and 0 for one that does not parse. */
  function VolumeId(pv: PersistentVolume): Option<Id> {
    var text := Annotation(pv, VOLUME_ID);
    if text == "" then None else Some(ParseInt(text, LIMIT64).Value())
  }

  function Lun(pv: PersistentVolume): int {
    ParseInt(Annotation(pv, LUN), LIMIT32).Value()
  }

  // ---------------------------------------------------------------- states

  /** `volume` mapped at `lun` on every host of `hs`. */
  function MapAll(luns: map<(Id, Id), int>, hs: set<Id>, volume: Id, lun: int): map<(Id, Id), int> {
    luns + map h | h in hs :: (h, volume) := lun
  }

  function UnmapAll(luns: map<(Id, Id), int>, hs: set<Id>, volume: Id): map<(Id, Id), int> {
    map k | k in luns && !(k.0 in hs && k.1 == volume) :: luns[k]
  }

  /** A complete asset: the volume, its metadata, and one LUN on every host of `hs`. */
  function Asset(s: State, id: Id, name: string, hs: set<Id>, lun: int): State {
    s.(volumes := s.volumes[id := name], issued := s.issued + {id},
       metadata := s.metadata[id := name], luns := MapAll(s.luns, hs, id, lun))
  }

  /** Only what belongs to the volume may differ: without it the two arrays are the same. */
  ghost predicate SameOthers(before: State, after: State, id: Id) {
    && before.issued <= after.issued <= before.issued + {id}
    && VolumeDestroyed(after, id) == VolumeDestroyed(before, id).(issued := after.issued)
  }

  /** What is left of the volume is a part of what was there. */
  ghost predicate Shrunk(before: State, after: State, id: Id) {
    && VolumeDestroyed(after, id) == VolumeDestroyed(before, id)
    && (id in after.volumes ==> id in before.volumes && after.volumes[id] == before.volumes[id])
    && (id in after.metadata ==> id in before.metadata && after.metadata[id] == before.metadata[id])
    && (forall h :: (h, id) in after.luns ==> (h, id) in before.luns && after.luns[(h, id)] == before.luns[(h, id)])
  }

  ghost predicate OneLun(s: State, volume: Id, lun: int) {
    forall h :: (h, volume) in s.luns ==> s.luns[(h, volume)] == lun
  }

  lemma MapAllExtended(luns: map<(Id, Id), int>, hs: set<Id>, host: Id, volume: Id, lun: int, first: int)
    requires hs == {} || first == lun
    ensures MapAll(luns, hs, volume, first)[(host, volume) := lun] == MapAll(luns, hs + {host}, volume, lun)
  {
  }

  lemma MapNone(luns: map<(Id, Id), int>, volume: Id, lun: int)
    ensures MapAll(luns, {}, volume, lun) == luns
  {
  }

  /** A host that cannot take the LUN the volume already has elsewhere gave it to another volume before. */
  lemma OnlyATakenLun(s: State, hs: set<Id>, host: Id, volume: Id, lun: int)
    requires Wf(s) && !IsMapped(s, volume) && volume in s.volumes && host in s.hosts.Values && host !in hs && 0 <= lun <= MAX_LUN
    requires !CanMap(s.(luns := MapAll(s.luns, hs, volume, lun)), host, volume, lun)
    ensures LunTaken(s, host, lun)
  {
  }

  /** A LUN a further host can take was free there before. */
  lemma StillFree(s: State, hs: set<Id>, host: Id, volume: Id, lun: int, first: int)
    requires host !in hs && !LunTaken(s.(luns := MapAll(s.luns, hs, volume, first)), host, lun)
    ensures !LunTaken(s, host, lun)
  {
  }

  lemma UnevenAt(s: State, list: seq<string>, k: nat, lun: int)
    requires 0 < k < |list| && 0 <= lun <= MAX_LUN && forall n :: n in list ==> n in s.hosts
    requires Free(s, HostIds(s.hosts, list[..k]), lun) && LunTaken(s, s.hosts[list[k]], lun)
    ensures Uneven(s, HostIds(s.hosts, list), lun)
  {
    var g, h := s.hosts[list[0]], s.hosts[list[k]];
    assert list[0] == list[..k][0];
    assert g in HostIds(s.hosts, list[..k]) && g in HostIds(s.hosts, list) && h in HostIds(s.hosts, list);
    assert !LunTaken(s, g, lun);
  }

  /** Deleting what Provision made gives back the array Provision found. */
  lemma ProvisionThenDestroy(s: State, id: Id, name: string, hs: set<Id>, lun: int)
    requires Wf(s) && id !in s.issued
    ensures Restored(s, VolumeDestroyed(Asset(s, id, name, hs, lun), id))
  {
    var s1 := VolumeDestroyed(Asset(s, id, name, hs, lun), id);
    assert s1.luns == s.luns;
    assert s1.volumes == s.volumes && s1.metadata == s.metadata;
  }

  lemma DestroyAfterUnmap(s: State, hs: set<Id>, id: Id)
    ensures VolumeDestroyed(Detached(s, id).(luns := UnmapAll(s.luns, hs, id)), id) == VolumeDestroyed(s, id)
    ensures VolumeDestroyed(s.(luns := UnmapAll(s.luns, hs, id)), id) == VolumeDestroyed(s, id)
  {
    assert s.metadata - {id} - {id} == s.metadata - {id};
  }

  /** Without the volume nothing in a consistent array refers to it. */
  lemma NothingLeft(s: State, id: Id)
    requires Wf(s) && id !in s.volumes && id !in s.filesystems
    ensures VolumeDestroyed(s, id) == s
  {
    assert s.volumes - {id} == s.volumes && s.metadata - {id} == s.metadata;
  }

  lemma ShrunkByUnmap(s: State, hs: set<Id>, id: Id)
    ensures Shrunk(s, s.(luns := UnmapAll(s.luns, hs, id)), id)
    ensures Shrunk(s, Detached(s, id).(luns := UnmapAll(s.luns, hs, id)), id)
    ensures Shrunk(s, VolumeDestroyed(s, id), id)
  {
    DestroyAfterUnmap(s, hs, id);
    assert s.volumes - {id} - {id} == s.volumes - {id} && s.metadata - {id} - {id} == s.metadata - {id};
  }

  lemma UnmapAllExtended(luns: map<(Id, Id), int>, hs: set<Id>, host: Id, volume: Id)
    ensures UnmapAll(luns, hs, volume) - {(host, volume)} == UnmapAll(luns, hs + {host}, volume)
    ensures UnmapAll(luns, {}, volume) == luns
  {
  }

  /** Every host that maps the volume is in `hs`. */
  ghost predicate MappedWithin(s: State, id: Id, hs: set<Id>) {
    forall h :: (h, id) in s.luns ==> h in hs
  }

  lemma FullyUnmapped(s: State, id: Id, hs: set<Id>)
    requires MappedWithin(s, id, hs)
    ensures !IsMapped(s.(luns := UnmapAll(s.luns, hs, id)), id)
  {
  }

  /** The volume object Provision returns. */
  function NewVolume(name: string, source: Source, id: Id, lun: int, portals: seq<string> := []): PersistentVolume {
    PersistentVolume(name, source, map[
      CREATED_BY := CREATOR, VOLUME_NAME := name, VOLUME_ID := Format(id), LUN := Format(lun)], portals)
  }

  /** The id Delete acts on: the volume is ours and its id annotation is a number. */
  function DeletableId(pv: PersistentVolume): Option<Id> {
    if Provisioned(pv) == Some(true) && Annotation(pv, VOLUME_ID) != "" && ParseInt(Annotation(pv, VOLUME_ID), LIMIT64).Number?
    then Some(ParseInt(Annotation(pv, VOLUME_ID), LIMIT64).value)
    else None
  }

  /** Delete and UpdateMapping read the id and the LUN back from the annotations. */
  predicate Describes(pv: PersistentVolume, id: Id, lun: int) {
    DeletableId(pv) == Some(id) && VolumeId(pv) == Some(id) && Lun(pv) == lun
  }

  lemma NewVolumeDescribes(name: string, source: Source, id: Id, lun: int, portals: seq<string> := [])
    requires 0 < id <= MAX_ID && 0 <= lun <= MAX_LUN
    ensures Describes(NewVolume(name, source, id, lun, portals), id, lun)
  {
    var pv := NewVolume(name, source, id, lun, portals);
    assert CREATED_BY != VOLUME_NAME && CREATED_BY != VOLUME_ID && CREATED_BY != LUN by {
      assert |CREATED_BY| != |VOLUME_NAME| && |CREATED_BY| != |VOLUME_ID| && |CREATED_BY| != |LUN|;
    }
    assert |VOLUME_ID| != |LUN|;
    RoundTrip(id, LIMIT64);
    RoundTrip(lun, LIMIT32);
  }

  datatype Created = Volume(id: Id, lun: int) | Failure

  /** The addresses of the space whose turn it is, after `used` calls that found one. */
  function AddressesInTurn(table: map<string, seq<string>>, spaces: string, used: nat): Option<seq<string>>
    requires used > 0
  {
    var list := Validation.Split(spaces, ',');
    var name := Validation.Trim(list[Balance.IscsiEntry(used - 1, |list|)]);
    if name != "" && name in table then Some(table[name]) else None
  }

  /** The addresses an iSCSI volume gets: those of the space in turn among the spaces that exist. */
  function Portals(table: map<string, seq<string>>, spaces: string, used: nat): Option<seq<string>>
    requires used > 0
  {
    match Validation.Validated(spaces, table.Keys)
    case None => None
    case Some(valid) => AddressesInTurn(table, valid, used)
  }

  datatype Settings = Settings(pool: string, maxVolumes: string)

  function SettingsOf(m: map<string, string>): Settings {
    Settings(Get(m, "pool_name"), Get(m, "max_volume"))
  }

  /** The array takes no such volume: the limit, the pool or the name forbids it, or there is no host to map it on. */
  ghost predicate Refused(s: State, pools: set<string>, name: string, settings: Settings, hs: set<Id>) {
    || |s.volumes| >= ParseInt(settings.maxVolumes, LIMIT64).Value()
    || settings.pool !in pools || name in s.volumes.Values || hs == {}
  }

  /** The LUN is free on one of the hosts and taken on another. */
  ghost predicate Uneven(s: State, hs: set<Id>, lun: int) {
    && 0 <= lun <= MAX_LUN
    && (exists g :: g in hs && !LunTaken(s, g, lun))
    && exists h :: h in hs && LunTaken(s, h, lun)
  }

  ghost predicate Free(s: State, hs: set<Id>, lun: int) {
    forall h :: h in hs ==> !LunTaken(s, h, lun)
  }

  /** Every LUN is free on all of the hosts or on none. */
  ghost predicate Even(s: State, hs: set<Id>) {
    forall lun :: !Uneven(s, hs, lun)
  }

  /** One host alone is always even. */
  lemma OneHostIsEven(s: State, hosts: map<string, Id>, nodes: seq<string>, node: string)
    requires Registered(hosts, nodes) == [node]
    ensures Even(s, HostIds(hosts, nodes))
  {
    SameHosts(hosts, nodes);
    assert HostIds(hosts, [node]) == {hosts[node]} by {
      assert node in [node];
    }
  }

  /** The kinds of block storage. */
  type Blocks = k: Source | k != Nfs witness Fc

  class BlockProvisioner {
    const arr: Array
    const source: Blocks
    var networkspacesUsed: nat

    constructor (arr: Array, source: Blocks)
      ensures this.arr == arr && this.source == source && networkspacesUsed == 1
    {
      this.arr, this.source, networkspacesUsed := arr, source, 1;
    }

    // -------------------------------------------------------------- creating and mapping

    /** An error of the count is only logged and reads as zero volumes. */
    method VolCreate(name: string, settings: Settings) returns (r: Reply<Id>)
      requires Wf(arr.s)
      modifies arr
      ensures Wf(arr.s)
      ensures r.Ok? ==> 0 < r.value <= MAX_ID && r.value !in old(arr.s).issued && arr.s == VolumeCreated(old(arr.s), r.value, name)
      ensures r.Err? ==> arr.s == old(arr.s)
      ensures arr.faults >= old(arr.faults)
      // without faults the limit and the names decide
      ensures arr.faults == old(arr.faults) ==>
                (r.Ok? <==> |old(arr.s).volumes| < ParseInt(settings.maxVolumes, LIMIT64).Value()
                            && settings.pool in arr.pools && name !in old(arr.s).volumes.Values)
    {
      var n := arr.CountVolumes();
      var limit := ParseInt(settings.maxVolumes, LIMIT64).Value();
      if (if n.Ok? then n.value else 0) >= limit {
        return Err(StillReferenced);
      }
      var pool := arr.FindPool(settings.pool);
      if pool.Err? {
        return Err(pool.code);
      }
      r := arr.CreateVolume(name);
    }

    /** A mapping that exists already is an error too: the reply without a result cannot be read. */
    method Mapping(host: Id, volume: Id, lunNo: int) returns (lun: int, ok: bool)
      requires Wf(arr.s)
      modifies arr
      ensures Wf(arr.s)
      ensures ok ==> CanMap(old(arr.s), host, volume, lun) && arr.s == Mapped(old(arr.s), host, volume, lun)
                     && (lunNo > -1 ==> lun == lunNo)
      ensures !ok ==> arr.s == old(arr.s)
      ensures arr.faults >= old(arr.faults)
      ensures !ok && arr.faults == old(arr.faults) ==>
                if lunNo > -1 then !CanMap(arr.s, host, volume, lunNo)
                else host !in arr.s.hosts.Values || volume !in arr.s.volumes || (host, volume) in arr.s.luns
    {
      var reply := arr.MapLun(host, volume, if lunNo > -1 then Some(lunNo) else None);
      match reply
      case Ok(l) => return l, true;
      case Err(_) => return 0, false;
    }

    /** Maps the volume, which is mapped at `lun` on the hosts of `hs`, on one more. */
    method MapNext(name: string, volume: Id, lunNo: int, ghost s0: State, ghost hs: set<Id>, ghost lun: int)
      returns (newLun: int, ok: bool)
      requires Wf(arr.s) && volume in s0.volumes && !IsMapped(s0, volume) && Wf(s0)
      requires name in s0.hosts && s0.hosts[name] !in hs && 0 <= lun <= MAX_LUN && lunNo == (if hs == {} then -1 else lun)
      requires arr.s == s0.(luns := MapAll(s0.luns, hs, volume, lun))
      modifies arr
      ensures Wf(arr.s) && arr.faults >= old(arr.faults)
      ensures ok ==> 0 <= newLun <= MAX_LUN && (hs != {} ==> newLun == lun) && !LunTaken(s0, s0.hosts[name], newLun)
      ensures ok ==> arr.s == s0.(luns := MapAll(s0.luns, hs + {s0.hosts[name]}, volume, newLun))
      ensures !ok ==> arr.s == old(arr.s)
      ensures !ok && arr.faults == old(arr.faults) ==> hs != {} && LunTaken(s0, s0.hosts[name], lun)
    {
      var host, known := GetHostId(arr, name);
      newLun, ok := Mapping(host, volume, lunNo);
      if ok {
        StillFree(s0, hs, host, volume, newLun, lun);
        MapAllExtended(s0.luns, hs, host, volume, newLun, lun);
      } else if arr.faults == old(arr.faults) {
        OnlyATakenLun(s0, hs, host, volume, lun);
      }
    }

    /**
      The first host's LUN is asked for on all others. `hs` are the hosts mapped, all of them
      on success.
    */
    method MapVolumeToHost(list: seq<string>, volume: Id) returns (lunNo: int, ok: bool, ghost hs: set<Id>, ghost lun: int)
      requires Wf(arr.s) && Distinct(list) && volume in arr.s.volumes && !IsMapped(arr.s, volume)
      requires forall n :: n in list ==> n in arr.s.hosts
      modifies arr
      ensures Wf(arr.s)
      ensures hs <= HostIds(arr.s.hosts, list) && (ok ==> hs == HostIds(arr.s.hosts, list))
      ensures arr.s == old(arr.s).(luns := MapAll(old(arr.s).luns, hs, volume, lun))
      ensures ok ==> lunNo == (if list == [] then -1 else lun)
      ensures 0 <= lun <= MAX_LUN
      ensures arr.faults >= old(arr.faults)
      // the array offers no other reason to fail than a LUN free on the first host and taken on a later one
      ensures !ok && arr.faults == old(arr.faults) ==> Uneven(old(arr.s), HostIds(arr.s.hosts, list), lun)
    {
      lunNo, hs, lun := -1, {}, 0;
      ghost var s0 := arr.s;
      MapNone(s0.luns, volume, lun);
      for k := 0 to |list|
        invariant Wf(arr.s) && 0 <= lun <= MAX_LUN
        invariant hs == HostIds(s0.hosts, list[..k])
        invariant arr.s == s0.(luns := MapAll(s0.luns, hs, volume, lun))
        invariant (hs == {} <==> k == 0) && lunNo == if hs == {} then -1 else lun
        invariant arr.faults >= old(arr.faults)
        invariant Free(s0, hs, lun)
      {
        NextHost(s0.hosts, list, k);
        var newLun, mapped := MapNext(list[k], volume, lunNo, s0, hs, lun);
        if !mapped {
          PrefixHosts(s0.hosts, list, k);
          if arr.faults == old(arr.faults) {
            UnevenAt(s0, list, k, lun);
          }
          return lunNo, false, hs, lun;
        }
        lun, hs := newLun, hs + {s0.hosts[list[k]]};
        var more := if source == Fc then newLun > -1 else newLun > lunNo;
        lunNo := if more then newLun else lunNo;
      }
      assert list[..|list|] == list;
      ok := true;
    }

    // -------------------------------------------------------------- unmapping and destroying

    /** Removes the mappings on the hosts of the list; `strict` stops at the first error. */
    method UnmapHosts(list: seq<string>, volume: Id, strict: bool) returns (ok: bool, ghost hs: set<Id>)
      requires Wf(arr.s) && forall n :: n in list ==> n in arr.s.hosts
      modifies arr
      ensures Wf(arr.s)
      ensures arr.s == old(arr.s).(luns := UnmapAll(old(arr.s).luns, hs, volume))
      ensures arr.faults >= old(arr.faults)
      ensures arr.faults == old(arr.faults) ==> ok && hs == HostIds(arr.s.hosts, list)
    {
      hs := {};
      ghost var s0 := arr.s;
      UnmapAllExtended(s0.luns, {}, 0, volume);
      for k := 0 to |list|
        invariant Wf(arr.s)
        invariant arr.s == s0.(luns := UnmapAll(s0.luns, hs, volume))
        invariant arr.faults >= old(arr.faults)
        invariant arr.faults == old(arr.faults) ==> hs == HostIds(s0.hosts, list[..k])
      {
        var host, known := GetHostId(arr, list[k]);
        var removed := UnMap(arr, host, volume);
        assert list[..k + 1] == list[..k] + [list[k]];
        if removed {
          UnmapAllExtended(s0.luns, hs, host, volume);
          hs := hs + {host};
        } else if strict {
          return false, hs;
        }
      }
      assert list[..|list|] == list;
      ok := true;
    }

    method DestroyOnly(volume: Id) returns (ok: bool)
      requires Wf(arr.s)
      modifies arr
      ensures Wf(arr.s)
      ensures arr.s == if ok then VolumeDestroyed(old(arr.s), volume) else old(arr.s)
      ensures ok ==> CanDestroyVolume(old(arr.s), arr.cascade, volume)
      ensures arr.faults >= old(arr.faults)
      ensures !ok && arr.faults == old(arr.faults) ==> !CanDestroyVolume(arr.s, arr.cascade, volume)
    {
      var reply := arr.DestroyVolume(volume);
      ok := reply.Ok?;
    }

    /** Detach, unmap from the registered nodes, delete: Delete of both, and volDestroy of Fibre Channel. */
    method TearDown(volume: Id, nodes: seq<string>) returns (ok: bool)
      requires Wf(arr.s)
      modifies arr
      ensures Wf(arr.s)
      ensures ok ==> volume in old(arr.s).volumes && arr.s == VolumeDestroyed(old(arr.s), volume)
      ensures !ok ==> arr.s.volumes == old(arr.s).volumes
      ensures Shrunk(old(arr.s), arr.s, volume)
      ensures arr.faults >= old(arr.faults)
      ensures (&& arr.faults == old(arr.faults) && volume in old(arr.s).volumes
               && (arr.cascade || MappedWithin(old(arr.s), volume, HostIds(old(arr.s).hosts, nodes)))) ==> ok
      ensures volume !in old(arr.s).volumes.Keys + old(arr.s).filesystems.Keys ==> !ok && arr.s == old(arr.s)
    {
      ghost var s0 := arr.s;
      ShrunkByUnmap(s0, {}, volume);
      UnmapAllExtended(s0.luns, {}, 0, volume);
      var detached := arr.DetachMetadata(volume);
      if detached.Err? {
        return false;
      }
      var list, _ := GetHostList(arr, nodes); // an error is only logged
      ghost var hs;
      ok, hs := UnmapHosts(list, volume, true);
      ShrunkByUnmap(s0, hs, volume);
      if !ok {
        return;
      }
      ok := DestroyOnly(volume);
      DestroyAfterUnmap(s0, hs, volume);
    }

    method VolDestroy(volume: Id, nodes: seq<string>) returns (ok: bool)
      requires Wf(arr.s)
      modifies arr
      ensures Wf(arr.s)
      ensures ok ==> arr.s == VolumeDestroyed(old(arr.s), volume)
      ensures !ok ==> arr.s.volumes == old(arr.s).volumes
      ensures Shrunk(old(arr.s), arr.s, volume)
      ensures arr.faults >= old(arr.faults)
      ensures arr.faults == old(arr.faults) && volume in old(arr.s).volumes ==>
                && (arr.cascade || !IsMapped(old(arr.s), volume) ==> ok)
                && (source == Fc && MappedWithin(old(arr.s), volume, HostIds(old(arr.s).hosts, nodes)) ==> ok)
                && (source != Fc && !arr.cascade && IsMapped(old(arr.s), volume) ==> !ok)
    {
      ShrunkByUnmap(arr.s, {}, volume);
      UnmapAllExtended(arr.s.luns, {}, 0, volume);
      if source == Fc {
        ok := TearDown(volume, nodes);
      } else {
        ok := DestroyOnly(volume);
      }
    }

    // -------------------------------------------------------------- the saga

    /**
      Maps and labels a volume just created in `s0`; on an error the compensations registered
      so far run in reverse order, and their errors are ignored.
    */
    method MapAndLabel(name: string, volume: Id, list: seq<string>, nodes: seq<string>, ghost s0: State)
      returns (r: Created, ghost mark: nat, ghost half: set<Id>, ghost lun: int)
      requires Wf(s0) && Wf(arr.s) && Distinct(nodes) && list == Registered(s0.hosts, nodes)
      requires volume !in s0.issued && 0 < volume <= MAX_ID && arr.s == VolumeCreated(s0, volume, name)
      modifies arr
      ensures Wf(arr.s)
      ensures old(arr.faults) <= mark <= arr.faults && 0 <= lun <= MAX_LUN
      ensures half <= HostIds(s0.hosts, nodes)
      ensures r.Volume? ==> r == Volume(volume, lun) && HostIds(s0.hosts, nodes) != {}
                            && arr.s == Asset(s0, volume, name, HostIds(s0.hosts, nodes), lun)
      ensures r.Failure? ==> SameOthers(s0, arr.s, volume) && OneLun(arr.s, volume, lun)
                             && (volume !in arr.s.volumes <==> Restored(s0, arr.s))
      ensures r.Failure? && arr.faults == mark ==> (Restored(s0, arr.s) <==> arr.cascade || source == Fc || half == {})
      ensures r.Failure? && arr.faults == old(arr.faults) ==>
                HostIds(s0.hosts, nodes) == {} || Uneven(s0, HostIds(s0.hosts, nodes), lun)
    {
      SameHosts(s0.hosts, nodes);
      var lunNo, mapped, hs, l := MapVolumeToHost(list, volume);
      SameUneven(s0, volume, name, HostIds(s0.hosts, nodes), l);
      r, mark, half, lun := Failure, arr.faults, if mapped then {} else hs, l;
      NewVolumeOnly(s0, volume, name, hs, lun);
      if !mapped || lunNo == -1 {
        Revert(list, volume, nodes, false, s0, lun);
        return;
      }
      var attached := arr.AttachMetadata(volume, name);
      mark := arr.faults;
      if attached.Err? {
        Revert(list, volume, nodes, true, s0, lun);
        return;
      }
      r := Volume(volume, lunNo);
    }

    /**
      Creates, maps and labels a volume. `mark` is the fault count when compensations start,
      `half` the hosts mapped when mapping the volume failed, `id` the volume touched.
    */
    method CreateVolume(name: string, settings: Settings, nodes: seq<string>)
      returns (r: Created, ghost mark: nat, ghost half: set<Id>, ghost id: Id, ghost lun: int)
      requires Wf(arr.s) && Distinct(nodes)
      modifies arr
      ensures Wf(arr.s)
      ensures id !in old(arr.s).issued && old(arr.faults) <= mark <= arr.faults
      // success: exactly the new asset, with one LUN on every registered node, and at least one
      ensures r.Volume? ==> r == Volume(id, lun) && 0 < id <= MAX_ID && 0 <= lun <= MAX_LUN && HostIds(arr.s.hosts, nodes) != {}
                            && arr.s == Asset(old(arr.s), id, name, HostIds(arr.s.hosts, nodes), lun)
      // failure: nothing but the new volume's own entries can be left, still at one LUN
      ensures r.Failure? ==> SameOthers(old(arr.s), arr.s, id) && OneLun(arr.s, id, lun)
      ensures r.Failure? && id !in arr.s.volumes ==> Restored(old(arr.s), arr.s)
      // without faults it fails only if the array refuses the volume, or one LUN does not do for all hosts
      ensures r.Volume? && arr.faults == old(arr.faults) ==>
                !Refused(old(arr.s), arr.pools, name, settings, HostIds(arr.s.hosts, nodes))
      ensures r.Failure? && arr.faults == old(arr.faults) ==>
                || Refused(old(arr.s), arr.pools, name, settings, HostIds(arr.s.hosts, nodes))
                || Uneven(old(arr.s), HostIds(arr.s.hosts, nodes), lun)
      // and if no compensating call was lost the array is as before, unless an iSCSI volume was
      // half mapped on an array that refuses to delete mapped volumes
      ensures r.Failure? && arr.faults == mark ==>
                (Restored(old(arr.s), arr.s) <==> arr.cascade || source == Fc || half == {})
      ensures half <= HostIds(arr.s.hosts, nodes)
      // in particular on an array that cascades, and for Fibre Channel
      ensures r.Failure? && arr.faults == mark && (arr.cascade || source == Fc) ==> Restored(old(arr.s), arr.s)
    {
      ghost var s0 := arr.s;
      r, mark, half, id, lun := Failure, arr.faults, {}, Bound(s0.issued), 0;
      var list, listed := GetHostList(arr, nodes);
      mark := arr.faults;
      if !listed {
        return;
      }
      var created := VolCreate(name, settings);
      mark := arr.faults;
      if created.Err? {
        return;
      }
      id := created.value;
      r, mark, half, lun := MapAndLabel(name, created.value, list, nodes, s0);
    }

    // -------------------------------------------------------------- provisioning and deleting

    /**
      The next network space in turn. The counter moves only on success, so the i-th
      successful call over a fixed list uses the entry Balance.IscsiEntry(i).
    */
    method NextNetworkSpace(spaces: string) returns (ips: seq<string>, ok: bool)
      requires networkspacesUsed > 0
      modifies this`networkspacesUsed, arr`faults
      ensures networkspacesUsed == old(networkspacesUsed) + if ok then 1 else 0
      ensures ok ==> AddressesInTurn(arr.spaces, spaces, old(networkspacesUsed)) == Some(ips)
      ensures arr.faults >= old(arr.faults)
      ensures arr.faults == old(arr.faults) ==> (ok <==> AddressesInTurn(arr.spaces, spaces, old(networkspacesUsed)).Some?)
    {
      var list := Validation.Split(spaces, ',');
      var name := Validation.Trim(list[networkspacesUsed % |list|]);
      if name == "" {
        return [], false;
      }
      var iqn := arr.FindSpace(name);
      if iqn == Err(Fault) {
        return [], false;
      }
      var reply := arr.FindSpace(name);
      if reply.Err? {
        return [], false;
      }
      networkspacesUsed := networkspacesUsed + 1;
      return reply.value, true;
    }

    /** The addresses at which a volume provisioned now is reached: none for Fibre Channel. */
    ghost function Addresses(config: map<string, string>, parameters: map<string, string>): seq<string>
      requires networkspacesUsed > 0
      reads this`networkspacesUsed
    {
      if source == Fc then [] else Portals(arr.spaces, Get(config + parameters, "iscsi_networkspaces"), networkspacesUsed).GetOr([])
    }

    /**
      What Provision settles before it makes a volume: for iSCSI the network space whose turn
      it is, for Fibre Channel the target ports.
    */
    method Prepare(config: map<string, string>, parameters: map<string, string>) returns (ips: seq<string>, ok: bool, ghost spaces: string)
      requires networkspacesUsed > 0
      modifies this`networkspacesUsed, arr`faults
      ensures networkspacesUsed == old(networkspacesUsed) + (if source == Iscsi && ok then 1 else 0)
      ensures arr.faults >= old(arr.faults)
      ensures source == Fc ==> ips == []
      ensures source == Iscsi && ok ==>
                && AddressesInTurn(arr.spaces, spaces, old(networkspacesUsed)) == Some(ips)
                && Validation.Within(spaces, Get(config + parameters, "iscsi_networkspaces"), arr.spaces.Keys)
      ensures source == Iscsi && ok && arr.faults == old(arr.faults) ==>
                Validation.Validated(Get(config + parameters, "iscsi_networkspaces"), arr.spaces.Keys) == Some(spaces)
      ensures ok && arr.faults == old(arr.faults) ==> ips == old(Addresses(config, parameters))
      ensures !ok && arr.faults == old(arr.faults) ==>
                source == Iscsi && (Get(config + parameters, "pool_name") !in arr.pools || old(Addresses(config, parameters)) == [])
    {
      ips, ok, spaces := [], false, "";
      if source == Fc {
        ok := arr.Send(); // the target ports
        return;
      }
      var settings := config + parameters;
      var list, valid := Validation.OneTimeValidation(arr, Get(settings, "pool_name"), Get(settings, "iscsi_networkspaces"));
      spaces := list;
      if valid {
        ips, ok := NextNetworkSpace(list);
      }
    }

    /** The array takes no such volume, or the iSCSI network space in turn has no address. */
    ghost predicate Refuses(name: string, config: map<string, string>, parameters: map<string, string>, nodes: seq<string>)
      requires networkspacesUsed > 0
      reads this`networkspacesUsed, arr`s
    {
      || Refused(arr.s, arr.pools, name, SettingsOf(config + parameters), HostIds(arr.s.hosts, nodes))
      || (source != Fc && Addresses(config, parameters) == [])
    }

    /**
      `config` is the provisioner configuration; the class parameters override it.

      An iSCSI network space without addresses is noticed only after the volume exists: the
      first address is taken of an empty list, the panic becomes an error, and `lost` says
      that the volume stays behind. `spaces` are the valid spaces, `addresses` those of the
      one whose turn it was.
    */
    method Provision(name: string, config: map<string, string>, parameters: map<string, string>, nodes: seq<string>)
      returns (r: Option<PersistentVolume>, ghost mark: nat, ghost half: set<Id>, ghost id: Id, ghost lun: int, ghost lost: bool,
               ghost spaces: string, ghost addresses: seq<string>)
      requires Wf(arr.s) && Distinct(nodes) && networkspacesUsed > 0
      modifies this`networkspacesUsed, arr
      ensures Wf(arr.s) && networkspacesUsed > 0
      ensures id !in old(arr.s).issued && old(arr.faults) <= mark <= arr.faults
      // with a volume made, it is an error exactly if the iSCSI space in turn has no address
      ensures r.Some? || lost ==> (r.None? <==> source == Iscsi && addresses == []) && (lost <==> r.None?)
      ensures r.Some? ==> networkspacesUsed == old(networkspacesUsed) + (if source == Iscsi then 1 else 0)
      ensures (r.Some? || lost) && source == Iscsi ==>
                && AddressesInTurn(arr.spaces, spaces, old(networkspacesUsed)) == Some(addresses)
                && Validation.Within(spaces, Get(config + parameters, "iscsi_networkspaces"), arr.spaces.Keys)
                && (arr.faults == old(arr.faults) ==>
                      Validation.Validated(Get(config + parameters, "iscsi_networkspaces"), arr.spaces.Keys) == Some(spaces))
      ensures r.Some? || lost ==>
                && 0 < id <= MAX_ID && 0 <= lun <= MAX_LUN && HostIds(arr.s.hosts, nodes) != {}
                && arr.s == Asset(old(arr.s), id, name, HostIds(arr.s.hosts, nodes), lun)
      ensures r.Some? ==> r.value.name == name && r.value.source == source && Describes(r.value, id, lun)
      ensures r.Some? ==> r.value.servers == addresses && (source == Fc ==> addresses == [])
      // without faults it fails only if the array refuses or there is no address, or one LUN does not do for all hosts
      ensures r.Some? && arr.faults == old(arr.faults) ==>
                !old(Refuses(name, config, parameters, nodes)) && r.value.servers == old(Addresses(config, parameters))
      ensures r.None? && arr.faults == old(arr.faults) ==>
                old(Refuses(name, config, parameters, nodes)) || Uneven(old(arr.s), HostIds(arr.s.hosts, nodes), lun)
      ensures r.None? && !lost ==> SameOthers(old(arr.s), arr.s, id) && OneLun(arr.s, id, lun)
      ensures r.None? && !lost && id !in arr.s.volumes ==> Restored(old(arr.s), arr.s)
      ensures r.None? && !lost && arr.faults == mark ==>
                (Restored(old(arr.s), arr.s) <==> arr.cascade || source == Fc || half == {})
    {
      r, mark, half, id, lun, lost := None, arr.faults, {}, Bound(arr.s.issued), 0, false;
      spaces, addresses := "", [];
      var settings := config + parameters;
      var ips, ready, list := Prepare(config, parameters);
      mark, spaces, addresses := arr.faults, list, ips;
      if !ready {
        return;
      }
      var created, m, h, i, l := CreateVolume(name, SettingsOf(settings), nodes);
      mark, half, id, lun := m, h, i, l;
      if created.Failure? {
        return;
      }
      if source == Iscsi && ips == [] {
        lost := true;
        return;
      }
      var pv := NewVolume(name, source, created.id, created.lun, ips);
      NewVolumeDescribes(name, source, created.id, created.lun, ips);
      r := Some(pv);
    }

    /**
      Deletes what is behind a volume object. Whatever fails on the way, only entries of this
      volume disappear, so a later attempt can go on from there.
    */
    method Delete(pv: PersistentVolume, nodes: seq<string>) returns (r: DeleteResult)
      requires Wf(arr.s)
      modifies arr
      ensures Wf(arr.s)
      ensures arr.faults >= old(arr.faults)
      // another provisioner's volume is left alone, and so is one that nobody claims
      ensures r.Ignored? <==> CREATED_BY in pv.annotations && pv.annotations[CREATED_BY] != CREATOR
      ensures CREATED_BY !in pv.annotations || pv.annotations[CREATED_BY] != CREATOR ==> !r.Deleted? && arr.s == old(arr.s)
      ensures !r.Deleted? ==> arr.s.volumes == old(arr.s).volumes
      ensures DeletableId(pv).None? ==> !r.Deleted? && arr.s == old(arr.s)
      ensures DeletableId(pv).Some? ==> Shrunk(old(arr.s), arr.s, DeletableId(pv).value)
      // success means nothing of the volume remains, and everything else is untouched
      ensures r.Deleted? ==> DeletableId(pv).value in old(arr.s).volumes
                             && arr.s == VolumeDestroyed(old(arr.s), DeletableId(pv).value)
      // without faults it succeeds if the mappings are confined to the current nodes
      ensures (&& arr.faults == old(arr.faults) && DeletableId(pv).Some? && DeletableId(pv).value in old(arr.s).volumes
               && (arr.cascade || MappedWithin(old(arr.s), DeletableId(pv).value, HostIds(old(arr.s).hosts, nodes))))
              ==> r.Deleted?
      // once the volume is gone every further attempt fails
      ensures (&& DeletableId(pv).Some?
               && DeletableId(pv).value !in old(arr.s).volumes.Keys + old(arr.s).filesystems.Keys)
              ==> r.Failed? && arr.s == old(arr.s)
    {
      var ours := Provisioned(pv);
      if ours == None {
        return Failed;
      }
      if ours == Some(false) {
        return Ignored;
      }
      if Annotation(pv, VOLUME_ID) == "" {
        return Failed;
      }
      var id := ParseInt(Annotation(pv, VOLUME_ID), LIMIT64);
      if !id.Number? {
        return Failed;
      }
      var ok := TearDown(id.value, nodes);
      r := if ok then Deleted else Failed;
    }

    /** The deferred unmapping; errors are ignored. */
    method RevertMapping(list: seq<string>, volume: Id)
      requires Wf(arr.s) && forall n :: n in list ==> n in arr.s.hosts
      requires MappedWithin(arr.s, volume, HostIds(arr.s.hosts, list))
      modifies arr
      ensures Wf(arr.s)
      ensures Shrunk(old(arr.s), arr.s, volume) && arr.s == old(arr.s).(luns := arr.s.luns)
      ensures arr.faults >= old(arr.faults)
      ensures arr.faults == old(arr.faults) ==> !IsMapped(arr.s, volume)
    {
      ghost var s1 := arr.s;
      var _, gone := UnmapHosts(list, volume, false);
      ShrunkByUnmap(s1, gone, volume);
      if arr.faults == old(arr.faults) {
        FullyUnmapped(s1, volume, gone);
      }
    }

    /** The compensations: unmap if the volume was mapped everywhere, then destroy it. */
    method Revert(list: seq<string>, volume: Id, nodes: seq<string>, unmap: bool, ghost s0: State, ghost lun: int)
      requires Wf(arr.s) && Wf(s0) && volume !in s0.issued && volume in arr.s.volumes
      requires list == Registered(arr.s.hosts, nodes)
      requires SameOthers(s0, arr.s, volume) && OneLun(arr.s, volume, lun)
      requires MappedWithin(arr.s, volume, HostIds(arr.s.hosts, list))
      modifies arr
      ensures Wf(arr.s)
      ensures SameOthers(s0, arr.s, volume) && OneLun(arr.s, volume, lun)
      ensures Restored(s0, arr.s) <==> volume !in arr.s.volumes
      ensures arr.faults >= old(arr.faults)
      ensures arr.faults == old(arr.faults) ==>
                (Restored(s0, arr.s) <==> arr.cascade || source == Fc || unmap || !IsMapped(old(arr.s), volume))
    {
      SameHosts(arr.s.hosts, nodes);
      ghost var s1 := arr.s;
      if unmap {
        RevertMapping(list, volume);
        Unwound(s0, s1, arr.s, volume, lun);
      }
      ghost var s2 := arr.s;
      var destroyed := VolDestroy(volume, nodes);
      Unwound(s0, s2, arr.s, volume, lun);
      assert destroyed ==> volume !in arr.s.volumes;
    }
  }

  lemma SameHosts(hosts: map<string, Id>, nodes: seq<string>)
    ensures HostIds(hosts, Registered(hosts, nodes)) == HostIds(hosts, nodes)
    ensures Registered(hosts, nodes) == [] <==> HostIds(hosts, nodes) == {}
  {
    var r := Registered(hosts, nodes);
    if r != [] {
      assert r[0] in r && hosts[r[0]] in HostIds(hosts, nodes);
    }
  }

  /** A new volume takes no LUN anywhere. */
  lemma SameLuns(s: State, id: Id, name: string)
    requires Wf(s) && id !in s.issued
    ensures forall h, lun :: LunTaken(VolumeCreated(s, id, name), h, lun) <==> LunTaken(s, h, lun)
  {
    var s1 := VolumeCreated(s, id, name);
    forall h, lun ensures LunTaken(s1, h, lun) <==> LunTaken(s, h, lun) {
      if LunTaken(s, h, lun) {
        var v :| v in s.volumes && (h, v) in s.luns && s.luns[(h, v)] == lun;
        assert v in s1.volumes;
      }
    }
  }

  lemma SameUneven(s: State, id: Id, name: string, hs: set<Id>, lun: int)
    requires Wf(s) && id !in s.issued
    ensures Uneven(VolumeCreated(s, id, name), hs, lun) ==> Uneven(s, hs, lun)
  {
    SameLuns(s, id, name);
    if Uneven(VolumeCreated(s, id, name), hs, lun) {
      var g :| g in hs && !LunTaken(VolumeCreated(s, id, name), g, lun);
      var h :| h in hs && LunTaken(VolumeCreated(s, id, name), h, lun);
      assert !LunTaken(s, g, lun) && LunTaken(s, h, lun);
    }
  }

  /** A fresh volume with some mappings differs from the array before in that volume only. */
  lemma NewVolumeOnly(s: State, id: Id, name: string, hs: set<Id>, lun: int)
    requires Wf(s) && id !in s.issued && hs <= s.hosts.Values
    ensures var s' := VolumeCreated(s, id, name).(luns := MapAll(s.luns, hs, id, lun));
            SameOthers(s, s', id) && OneLun(s', id, lun) && MappedWithin(s', id, hs) && id in s'.volumes
            && (IsMapped(s', id) <==> hs != {})
  {
    var s' := VolumeCreated(s, id, name).(luns := MapAll(s.luns, hs, id, lun));
    assert forall h :: h in hs ==> (h, id) in s'.luns;
    NothingLeft(s, id);
    assert VolumeDestroyed(s', id).luns == s.luns;
    assert VolumeDestroyed(s', id).volumes == s.volumes;
  }

  /** Shrinking a fresh volume's entries is progress towards the state before it. */
  lemma Unwound(s0: State, s1: State, s2: State, id: Id, lun: int)
    requires Wf(s0) && Wf(s2) && id !in s0.issued && SameOthers(s0, s1, id) && OneLun(s1, id, lun) && Shrunk(s1, s2, id)
    ensures SameOthers(s0, s2, id) && OneLun(s2, id, lun)
    ensures id !in s2.volumes <==> Restored(s0, s2)
  {
    NothingLeft(s0, id);
    assert VolumeDestroyed(s2, id).filesystems == s0.filesystems;
    if id !in s2.volumes {
      NothingLeft(s2, id);
    }
  }

  lemma PrefixHosts(hosts: map<string, Id>, list: seq<string>, k: nat)
    requires k <= |list|
    ensures HostIds(hosts, list[..k]) <= HostIds(hosts, list)
  {
  }

  lemma NextHost(hosts: map<string, Id>, list: seq<string>, k: nat)
    requires HostsWf(hosts) && Distinct(list) && k < |list| && list[k] in hosts
    ensures HostIds(hosts, list[..k + 1]) == HostIds(hosts, list[..k]) + {hosts[list[k]]}
    ensures hosts[list[k]] !in HostIds(hosts, list[..k])
  {
    assert list[..k + 1] == list[..k] + [list[k]];
  }
}
