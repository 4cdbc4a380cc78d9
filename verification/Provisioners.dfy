/**
  The three provisioners as the controller sees them: one Provision, one Delete and one
  UpdateMapping, whatever the kind of storage.
*/
module Provisioners {
  import opened StorageArray
  import opened Commons
  import opened ClusterEvents
  import Blocks = BlockProvisioner
  import ExportClients
  import Files = NfsProvisioner
  import LunTables

  /** What the storage asset of a volume is made of; `lun` is used by blocks, `exportId` by NFS. */
  datatype Key = Key(id: Id, lun: int, exportId: Id)

  predicate Present(s: State, source: Source, id: Id) {
    if source == Nfs then id in s.filesystems else id in s.volumes
  }

  function Destroyed(s: State, source: Source, id: Id): State {
    if source == Nfs then FilesystemDestroyed(s, id) else VolumeDestroyed(s, id)
  }

  /** The array with a new, complete asset; `e` is the export, which needs nodes. */
  function Provided(s: State, source: Source, key: Key, name: string, hs: set<Id>, e: Option<Export>): State {
    if source == Nfs then
      Files.Asset(s, key.id, name, if e.Some? then Some(key.exportId) else None, e.GetOr(Export(0, "", [])))
    else Blocks.Asset(s, key.id, name, hs, key.lun)
  }

  ghost predicate Shrunk(before: State, after: State, source: Source, id: Id) {
    if source == Nfs then Files.Shrunk(before, after, id) else Blocks.Shrunk(before, after, id)
  }

  /** The arrays differ only in what belongs to a new object. */
  ghost predicate Left(before: State, after: State, source: Source, key: Key) {
    && key.id !in before.issued
    && if source == Nfs then Files.SameOthers(before, after, key.id)
       else Blocks.SameOthers(before, after, key.id) && Blocks.OneLun(after, key.id, key.lun)
  }

  /** Delete can find the asset through the volume object. */
  ghost predicate Deletable(s: State, source: Source, pv: PersistentVolume, key: Key) {
    if source == Nfs then Files.Describes(pv, key.id, key.exportId) && Files.OwnExport(s, key.id, key.exportId)
    else Blocks.Describes(pv, key.id, key.lun)
  }

  /** Deleting a complete asset gives back the array, whatever the kind. */
  lemma ProvidedThenDestroyed(s: State, source: Source, key: Key, name: string, hs: set<Id>, e: Option<Export>)
    requires Wf(s) && key.id !in s.issued
    requires e.Some? ==> key.exportId !in s.issued && e.value.filesystem == key.id
    ensures Restored(s, Destroyed(Provided(s, source, key, name, hs, e), source, key.id))
  {
    if source == Nfs {
      Files.ProvisionThenDestroy(s, key.id, name, if e.Some? then Some(key.exportId) else None,
                                 e.GetOr(Export(key.id, "", [])));
    } else {
      Blocks.ProvisionThenDestroy(s, key.id, name, hs, key.lun);
    }
  }

  lemma ProvidedIsLeft(s: State, source: Source, key: Key, name: string, hs: set<Id>, e: Option<Export>)
    requires Wf(s) && key.id !in s.issued
    requires e.Some? ==> key.exportId !in s.issued && e.value.filesystem == key.id
    requires e.None? ==> key.exportId !in s.exports
    ensures var s' := Provided(s, source, key, name, hs, e);
      Left(s, s', source, key) && (source == Nfs ==> Files.OwnExport(s', key.id, key.exportId))
  {
    ProvidedThenDestroyed(s, source, key, name, hs, e);
    if source == Nfs {
      Files.NothingLeft(s, key.id);
      assert forall x :: x in s.exports ==> s.exports[x].filesystem != key.id;
    } else {
      Blocks.NothingLeft(s, key.id);
    }
  }

  /** Each attempt to delete brings the array nearer to the one before the volume. */
  lemma DeletionStep(s0: State, s1: State, s2: State, source: Source, pv: PersistentVolume, key: Key)
    requires Wf(s0) && Wf(s2) && Left(s0, s1, source, key) && Deletable(s1, source, pv, key)
    requires Shrunk(s1, s2, source, key.id)
    ensures Left(s0, s2, source, key) && Deletable(s2, source, pv, key)
    ensures !Present(s2, source, key.id) <==> Restored(s0, s2)
  {
    if source == Nfs {
      Files.Unwound(s0, s1, s2, key.id);
    } else {
      Blocks.Unwound(s0, s1, s2, key.id, key.lun);
    }
  }

  class Dispatcher {
    const arr: Array
    const nfs: Files.NfsProvisioner
    const iscsi: Blocks.BlockProvisioner
    const fc: Blocks.BlockProvisioner

    constructor (arr: Array, exportDir: string)
      requires Wf(arr.s)
      ensures Valid() && this.arr == arr && fresh(nfs) && fresh(iscsi) && fresh(fc)
    {
      this.arr := arr;
      nfs := new Files.NfsProvisioner(arr, exportDir);
      iscsi := new Blocks.BlockProvisioner(arr, Iscsi);
      fc := new Blocks.BlockProvisioner(arr, Fc);
    }

    ghost predicate Valid()
      reads arr, iscsi, fc
    {
      && Wf(arr.s) && nfs.arr == arr && iscsi.arr == arr && fc.arr == arr
      && iscsi.source == Iscsi && fc.source == Fc && iscsi != fc
      && iscsi.networkspacesUsed > 0 && fc.networkspacesUsed > 0
    }

    function ExportFor(name: string, fs: Id, access: string, nodes: seq<Node>): Option<Export> {
      if nodes == [] then None else Some(Export(fs, Files.ExportPath(nfs.exportDir, name), Files.GrantNodes(nodes, access, true)))
    }

    /** The addresses at which a volume provisioned now is reached: none for Fibre Channel. */
    ghost function AddressesFor(source: Source, config: map<string, string>, parameters: map<string, string>): seq<string>
      requires Valid()
      reads arr, nfs, iscsi, fc
    {
      match source
      case Nfs => nfs.Addresses(config, parameters)
      case Iscsi => iscsi.Addresses(config, parameters)
      case Fc => fc.Addresses(config, parameters)
    }

    /** The array takes no such volume, or the network space in use has no address. */
    ghost predicate Refuses(source: Source, name: string, config: map<string, string>, parameters: map<string, string>, nodes: seq<Node>)
      requires Valid()
      reads arr, nfs, iscsi, fc
    {
      match source
      case Nfs => nfs.Refuses(name, config, parameters)
      case Iscsi => iscsi.Refuses(name, config, parameters, Names(nodes))
      case Fc => fc.Refuses(name, config, parameters, Names(nodes))
    }

    /** How a call to provision has ended. */
    twostate predicate Ended(source: Source, name: string, config: map<string, string>, parameters: map<string, string>,
                             nodes: seq<Node>, new r: Option<PersistentVolume>, key: Key)
      requires old(Valid())
      reads arr
    {
      // either a complete asset and a volume object that describes it, or at most remains of a new object
      && Left(old(arr.s), arr.s, source, key)
      && (r.Some? ==>
            var e := ExportFor(name, key.id, Get(config + parameters, "nfs_export_permissions"), nodes);
            && r.value.name == name && r.value.source == source && Deletable(arr.s, source, r.value, key)
            && arr.s == Provided(old(arr.s), source, key, name, NodeHosts(arr.s, nodes), e))
      // without faults it fails only if the array refuses, no address is in turn, or one LUN does not do for all hosts
      && arr.faults >= old(arr.faults)
      && (arr.faults == old(arr.faults) && r.Some? ==>
            && !old(Refuses(source, name, config, parameters, nodes))
            && r.value.servers == old(AddressesFor(source, config, parameters)))
      && (arr.faults == old(arr.faults) && r.None? ==>
            || old(Refuses(source, name, config, parameters, nodes))
            || (source != Nfs && Blocks.Uneven(old(arr.s), NodeHosts(old(arr.s), nodes), key.lun)))
    }

    method ProvisionFiles(name: string, config: map<string, string>, parameters: map<string, string>, nodes: seq<Node>)
      returns (r: Option<PersistentVolume>, ghost key: Key)
      requires Valid()
      modifies arr, nfs
      ensures Wf(arr.s) && Ended(Nfs, name, config, parameters, nodes, r, key)
    {
      ghost var s0 := arr.s;
      ghost var mark, fs, exportId, spaces;
      r, mark, fs, exportId, spaces := nfs.Provision(name, config, parameters, nodes);
      key := Key(fs, 0, exportId);
      if r.Some? {
        ProvidedIsLeft(s0, Nfs, key, name, {}, ExportFor(name, fs, Get(config + parameters, "nfs_export_permissions"), nodes));
      }
    }

    method RunBlock(block: Blocks.BlockProvisioner, name: string, config: map<string, string>, parameters: map<string, string>,
                    nodes: seq<Node>)
      returns (r: Option<PersistentVolume>, ghost key: Key)
      requires Wf(arr.s) && block.arr == arr && block.networkspacesUsed > 0 && Distinct(Names(nodes))
      modifies arr, block
      ensures Wf(arr.s) && block.networkspacesUsed > 0 && arr.faults >= old(arr.faults)
      ensures Left(old(arr.s), arr.s, block.source, key)
      ensures r.Some? ==>
                && r.value.name == name && r.value.source == block.source && Deletable(arr.s, block.source, r.value, key)
                && arr.s == Blocks.Asset(old(arr.s), key.id, name, NodeHosts(arr.s, nodes), key.lun)
      ensures arr.faults == old(arr.faults) && r.Some? ==>
                && !old(block.Refuses(name, config, parameters, Names(nodes)))
                && r.value.servers == old(block.Addresses(config, parameters))
      ensures arr.faults == old(arr.faults) && r.None? ==>
                || old(block.Refuses(name, config, parameters, Names(nodes)))
                || Blocks.Uneven(old(arr.s), NodeHosts(old(arr.s), nodes), key.lun)
    {
      ghost var s0 := arr.s;
      ghost var mark, half, id, lun, lost, spaces, addresses;
      r, mark, half, id, lun, lost, spaces, addresses := block.Provision(name, config, parameters, Names(nodes));
      key := Key(id, lun, 0);
      if r.Some? || lost {
        ProvidedIsLeft(s0, block.source, key, name, NodeHosts(s0, nodes), None);
      }
    }

    method ProvisionBlocks(block: Blocks.BlockProvisioner, name: string, config: map<string, string>, parameters: map<string, string>,
                           nodes: seq<Node>)
      returns (r: Option<PersistentVolume>, ghost key: Key)
      requires Valid() && Distinct(Names(nodes)) && (block == iscsi || block == fc)
      modifies arr, block
      ensures Valid() && Ended(block.source, name, config, parameters, nodes, r, key)
    {
      r, key := RunBlock(block, name, config, parameters, nodes);
    }

    /** One Provision for all kinds. */
    method Provision(source: Source, name: string, config: map<string, string>, parameters: map<string, string>, nodes: seq<Node>)
      returns (r: Option<PersistentVolume>, ghost key: Key)
      requires Valid() && Distinct(Names(nodes))
      modifies arr, nfs, iscsi, fc
      ensures Valid() && Ended(source, name, config, parameters, nodes, r, key)
    {
      match source
      case Nfs => r, key := ProvisionFiles(name, config, parameters, nodes);
      case Iscsi => r, key := ProvisionBlocks(iscsi, name, config, parameters, nodes);
      case Fc => r, key := ProvisionBlocks(fc, name, config, parameters, nodes);
    }

    /** For a volume object that describes its asset: only the asset shrinks, and success means it is gone. */
    method Delete(source: Source, pv: PersistentVolume, nodes: seq<Node>, ghost key: Key) returns (r: DeleteResult)
      requires Valid()
      modifies arr
      ensures Valid() && arr.faults >= old(arr.faults)
      // another provisioner's volume is left alone, and so is one that nobody claims
      ensures r.Ignored? <==> CREATED_BY in pv.annotations && pv.annotations[CREATED_BY] != CREATOR
      ensures CREATED_BY !in pv.annotations || pv.annotations[CREATED_BY] != CREATOR ==> !r.Deleted? && arr.s == old(arr.s)
      ensures Deletable(old(arr.s), source, pv, key) ==>
                && !r.Ignored? && Shrunk(old(arr.s), arr.s, source, key.id)
                && (r.Deleted? ==> Present(old(arr.s), source, key.id) && arr.s == Destroyed(old(arr.s), source, key.id))
                && (r.Failed? ==> (Present(arr.s, source, key.id) <==> Present(old(arr.s), source, key.id)))
      ensures && Deletable(old(arr.s), source, pv, key) && arr.faults == old(arr.faults) && Present(old(arr.s), source, key.id)
              && (source == Nfs || arr.cascade || Blocks.MappedWithin(old(arr.s), key.id, NodeHosts(old(arr.s), nodes)))
              ==> r.Deleted?
    {
      if source == Nfs {
        r := nfs.Delete(pv, key.id, key.exportId);
      } else {
        var block := if source == Iscsi then iscsi else fc;
        r := block.Delete(pv, Names(nodes));
      }
    }

    /** Without faults it does what Handle says; whatever fails, volumes and their identifiers stay. */
    method UpdateMapping(source: Source, pvs: seq<PersistentVolume>, nodes: seq<Node>, added: bool, deleted: bool, changed: seq<Node>)
      returns (ok: bool)
      requires Valid()
      modifies arr
      ensures Valid() && arr.faults >= old(arr.faults)
      ensures arr.s == old(arr.s).(luns := arr.s.luns, exports := arr.s.exports)
      ensures source != Nfs ==> LunTables.Synchronising(old(arr.s), arr.s, pvs, source)
      ensures arr.faults == old(arr.faults) && added != deleted ==>
                arr.s == Handle(old(arr.s), pvs, source, nodes, added, changed)
    {
      if source == Nfs {
        ok := ExportClients.UpdateMapping(arr, pvs, nodes, added, changed);
      } else {
        ok := LunTables.UpdateMapping(arr, source, pvs, Names(nodes), deleted, Names(changed));
      }
    }
  }
}
