/**
  The controller's operations on one claim or volume, each run from start to end without
  another operation in between, and its handling of node events. How the operations of
  different claims interleave is the subject of StorageRuns.
*/
module Controller {
  import opened StorageArray
  import opened Commons
  import opened ClusterEvents
  import opened FailureCounts
  import opened Provisioners
  import Blocks = BlockProvisioner

  datatype Phase = Available | Bound | Released | Broken

  /** A volume object of the cluster. */
  datatype Stored = Stored(uid: string, pv: PersistentVolume, phase: Phase, reclaimDelete: bool, provisionedBy: Option<string>)

  /** The volume objects, kept by the API server. */
  class Cluster {
    var volumes: map<string, Stored>
    ghost var faults: nat // how many calls have failed for no reason of the server's

    constructor ()
      ensures volumes == map[]
    {
      volumes := map[];
      faults := 0;
    }

    /** A lost reply reads like an object that is not there. */
    method Get(name: string) returns (r: Option<Stored>)
      modifies this`faults
      ensures r.Some? ==> name in volumes && r.value == volumes[name]
      ensures faults >= old(faults)
      ensures faults == old(faults) ==> (r.Some? <==> name in volumes)
    {
      var up := *;
      r := if up && name in volumes then Some(volumes[name]) else None;
      faults := if up then faults else faults + 1;
    }

    /** The server gives a new object its UID. */
    method Create(name: string, v: Stored) returns (ok: bool)
      modifies this
      ensures ok ==> name !in old(volumes) && name in volumes
                     && volumes == old(volumes)[name := v.(uid := volumes[name].uid)]
      ensures !ok ==> volumes == old(volumes)
      ensures faults >= old(faults)
      ensures faults == old(faults) && name !in old(volumes) ==> ok
    {
      ok := *;
      faults := if ok then faults else faults + 1;
      ok := ok && name !in volumes;
      if ok {
        var uid: string := *;
        volumes := volumes[name := v.(uid := uid)];
      }
    }

    method Delete(name: string) returns (ok: bool)
      modifies this
      ensures ok ==> name in old(volumes) && volumes == old(volumes) - {name}
      ensures !ok ==> volumes == old(volumes)
      ensures faults >= old(faults)
      ensures faults == old(faults) && name in old(volumes) ==> ok
    {
      ok := *;
      faults := if ok then faults else faults + 1;
      ok := ok && name in volumes;
      if ok {
        volumes := volumes - {name};
      }
    }
  }

  /** What the event recorder gets to see. */
  datatype Event =
    | Provisioning(claim: string)
    | ProvisioningFailed(claim: string)
    | ProvisioningSucceeded(claim: string)
    | ProvisioningCleanupFailed(claim: string)
    | VolumeFailedDelete(volume: string)

  datatype Class = Class(provisioner: string, parameters: map<string, string>)

  /** How an attempt to provision can end. */
  datatype Outcome =
    | Skipped   // nothing was done
    | Rejected  // the provisioner failed
    | Saved     // the asset and its volume object exist
    | CleanedUp // the object could not be saved and the asset was deleted again
    | Orphaned  // nor could the asset be deleted
    | Unsaved   // no attempt to save was made

  function PvName(uid: string): string {
    "k8s-" + uid
  }

  /** Two claims never share a volume: a volume that exists under the name is the claim's own. */
  lemma PvNamesDiffer(uid: string, other: string)
    ensures PvName(uid) == PvName(other) <==> uid == other
  {
    assert PvName(uid)[4..] == uid && PvName(other)[4..] == other;
  }

  class Controller {
    const cluster: Cluster
    const provisioners: Dispatcher
    const kinds: map<string, Source> // the names the provisioners are registered under
    const retries: int               // createProvisionedPVRetryCount
    const namesDelete: bool          // before version 1.5 of the cluster failed volumes are deleted too
    const readsPolicy: bool          // from version 1.8 on the class says whether to delete
    const failedDeleteThreshold: int
    var failedDelete: map<string, nat>
    var events: seq<Event>

    constructor (cluster: Cluster, provisioners: Dispatcher, kinds: map<string, Source>, retries: int,
                 namesDelete: bool, readsPolicy: bool, failedDeleteThreshold: int)
      ensures this.cluster == cluster && this.provisioners == provisioners && this.kinds == kinds && this.retries == retries
      ensures this.namesDelete == namesDelete && this.readsPolicy == readsPolicy && this.failedDeleteThreshold == failedDeleteThreshold
      ensures failedDelete == map[] && events == []
    {
      this.cluster, this.provisioners, this.kinds, this.retries := cluster, provisioners, kinds, retries;
      this.namesDelete, this.readsPolicy, this.failedDeleteThreshold := namesDelete, readsPolicy, failedDeleteThreshold;
      failedDelete, events := map[], [];
    }

    /** Tries to save the object; without a single attempt there is no error either. */
    method Save(v: Stored) returns (ok: bool)
      modifies cluster
      ensures cluster.faults >= old(cluster.faults)
      // it gives up only for an object of that name, or when every one of its attempts was lost
      ensures !ok ==> v.pv.name in old(cluster.volumes) || cluster.faults >= old(cluster.faults) + retries
      ensures retries <= 0 ==> ok && cluster.volumes == old(cluster.volumes)
      ensures retries > 0 && ok ==> v.pv.name !in old(cluster.volumes) && Added(old(cluster.volumes), cluster.volumes, v)
      ensures !ok ==> cluster.volumes == old(cluster.volumes)
    {
      ok := true;
      var i := 0;
      while i < retries
        invariant 0 <= i && (i == 0 <==> ok) && (i > 0 ==> i <= retries)
        invariant cluster.volumes == old(cluster.volumes) && cluster.faults >= old(cluster.faults)
        invariant v.pv.name in old(cluster.volumes) || cluster.faults >= old(cluster.faults) + i
      {
        ok := cluster.Create(v.pv.name, v);
        if ok {
          break;
        }
        i := i + 1;
      }
    }

    /** Tries to delete an asset that has no object: it ends with the array as before, or with the asset still there. */
    method Cleanup(source: Source, pv: PersistentVolume, nodes: seq<Node>, ghost key: Key, ghost s0: State) returns (ok: bool)
      requires provisioners.Valid() && retries > 0 && Wf(s0)
      requires Left(s0, provisioners.arr.s, source, key) && Deletable(provisioners.arr.s, source, pv, key)
      requires Present(provisioners.arr.s, source, key.id)
      modifies provisioners.arr
      ensures provisioners.Valid()
      ensures Left(s0, provisioners.arr.s, source, key) && Deletable(provisioners.arr.s, source, pv, key)
      ensures if ok then Restored(s0, provisioners.arr.s) else Present(provisioners.arr.s, source, key.id)
      ensures provisioners.arr.faults >= old(provisioners.arr.faults)
      // it gives up only when a call of every one of its attempts was lost
      ensures !ok && (source == Nfs || Blocks.MappedWithin(old(provisioners.arr.s), key.id, NodeHosts(old(provisioners.arr.s), nodes)))
              ==> provisioners.arr.faults >= old(provisioners.arr.faults) + retries
    {
      var arr := provisioners.arr;
      ok := false;
      var i := 0;
      while i < retries
        invariant provisioners.Valid() && !ok && arr.faults >= old(arr.faults) && 0 <= i <= retries
        invariant source == Nfs || Blocks.MappedWithin(old(arr.s), key.id, NodeHosts(old(arr.s), nodes)) ==>
                    && (source == Nfs || Blocks.MappedWithin(arr.s, key.id, NodeHosts(arr.s, nodes)))
                    && arr.faults >= old(arr.faults) + i
        invariant Left(s0, arr.s, source, key) && Deletable(arr.s, source, pv, key) && Present(arr.s, source, key.id)
      {
        ghost var s1 := arr.s;
        var r := provisioners.Delete(source, pv, nodes, key);
        DeletionStep(s0, s1, arr.s, source, pv, key);
        ok := r.Deleted?;
        if ok {
          break;
        }
        i := i + 1;
      }
    }

    /** The provisioner has made the asset of `v`. */
    method SaveOrCleanUp(uid: string, kind: Source, v: Stored, nodes: seq<Node>, ghost key: Key, ghost s0: State)
      returns (ghost outcome: Outcome)
      requires provisioners.Valid() && Wf(s0)
      requires Left(s0, provisioners.arr.s, kind, key) && Deletable(provisioners.arr.s, kind, v.pv, key)
      requires Present(provisioners.arr.s, kind, key.id)
      requires kind == Nfs || Blocks.MappedWithin(provisioners.arr.s, key.id, NodeHosts(provisioners.arr.s, nodes))
      modifies this`events, cluster, provisioners.arr
      ensures provisioners.Valid()
      ensures outcome in {Saved, Unsaved, CleanedUp, Orphaned} && events == old(events) + Reports(uid, outcome)
      ensures outcome in {Saved, Unsaved} ==> provisioners.arr.s == old(provisioners.arr.s)
      ensures outcome == CleanedUp ==> Restored(s0, provisioners.arr.s)
      ensures outcome == Orphaned ==> Present(provisioners.arr.s, kind, key.id)
      ensures Left(s0, provisioners.arr.s, kind, key)
      ensures outcome == Unsaved ==> retries <= 0
      ensures outcome == Saved ==> retries > 0 && v.pv.name !in old(cluster.volumes)
      // an object that is not saved needs a lost call for every attempt, and so does an asset that is not deleted again
      ensures cluster.faults >= old(cluster.faults) && provisioners.arr.faults >= old(provisioners.arr.faults)
      ensures outcome in {CleanedUp, Orphaned} ==>
                retries > 0 && (v.pv.name in old(cluster.volumes) || cluster.faults >= old(cluster.faults) + retries)
      ensures outcome == Orphaned ==> provisioners.arr.faults >= old(provisioners.arr.faults) + retries
      ensures if outcome == Saved then Added(old(cluster.volumes), cluster.volumes, v)
              else cluster.volumes == old(cluster.volumes)
    {
      var saved := Save(v);
      if saved {
        outcome := if retries > 0 then Saved else Unsaved;
        events := events + [ProvisioningSucceeded(uid)];
        return;
      }
      events := events + [ProvisioningFailed(uid)];
      var gone := Cleanup(kind, v.pv, nodes, key, s0);
      outcome := if gone then CleanedUp else Orphaned;
      if !gone {
        events := events + [ProvisioningCleanupFailed(uid)];
      }
    }

    /** When the claim has passed the checks: provision, save, and clean up if saving fails. */
    method ProvisionAndSave(uid: string, kind: Source, class_: Class, reclaimDelete: bool, config: map<string, string>, nodes: seq<Node>)
      returns (failed: bool, ghost outcome: Outcome, ghost key: Key)
      requires provisioners.Valid() && Distinct(Names(nodes))
      modifies this`events, cluster, provisioners.arr, provisioners.nfs, provisioners.iscsi, provisioners.fc
      ensures provisioners.Valid()
      ensures outcome != Skipped && events == old(events) + [Provisioning(uid)] + Reports(uid, outcome)
      ensures Settled(outcome, old(provisioners.arr.s), provisioners.arr.s, kind, key, class_, config, uid, nodes, provisioners)
      ensures outcome == Unsaved ==> retries <= 0
      ensures failed <==> outcome == Rejected
      ensures if outcome == Saved
              then retries > 0 && SavedAs(old(cluster.volumes), cluster.volumes, uid, kind, key, provisioners.arr.s, class_, reclaimDelete)
              else cluster.volumes == old(cluster.volumes)
      ensures cluster.faults >= old(cluster.faults) && provisioners.arr.faults >= old(provisioners.arr.faults)
      ensures outcome in {CleanedUp, Orphaned} ==>
                retries > 0 && (PvName(uid) in old(cluster.volumes) || cluster.faults >= old(cluster.faults) + retries)
      ensures outcome == Orphaned ==> provisioners.arr.faults >= old(provisioners.arr.faults) + retries
      ensures provisioners.arr.faults == old(provisioners.arr.faults) && outcome == Rejected ==>
                || old(provisioners.Refuses(kind, PvName(uid), config, class_.parameters, nodes))
                || (kind != Nfs && Blocks.Uneven(old(provisioners.arr.s), NodeHosts(old(provisioners.arr.s), nodes), key.lun))
      ensures provisioners.arr.faults == old(provisioners.arr.faults) && outcome != Rejected ==>
                !old(provisioners.Refuses(kind, PvName(uid), config, class_.parameters, nodes))
      ensures provisioners.arr.faults == old(provisioners.arr.faults) && outcome == Saved ==>
                cluster.volumes[PvName(uid)].pv.servers == old(provisioners.AddressesFor(kind, config, class_.parameters))
    {
      ghost var s0 := provisioners.arr.s;
      events := events + [Provisioning(uid)];
      var name := PvName(uid);
      failed, outcome := false, Skipped;
      var made, k := provisioners.Provision(kind, name, config, class_.parameters, nodes);
      key := k;
      if made.None? {
        events := events + [ProvisioningFailed(uid)];
        failed, outcome := true, Rejected;
        return;
      }
      ProvidedMappedWithin(s0, provisioners.arr.s, kind, key, name, nodes,
                           provisioners.ExportFor(name, key.id, Get(config + class_.parameters, "nfs_export_permissions"), nodes));
      var v := Stored("", made.value, Available, reclaimDelete, Some(class_.provisioner));
      ghost var before := cluster.volumes;
      outcome := SaveOrCleanUp(uid, kind, v, nodes, key, s0);
      if outcome == Saved {
        AddedIsSavedAs(before, cluster.volumes, v, uid, kind, key, provisioners.arr.s, class_);
      }
    }

    /** Nothing can be provisioned for the claim: what is asked for cannot be found out, or nobody provides it. */
    ghost predicate Barred(claimOk: bool, class_: Option<Class>, reclaimDelete: Option<bool>) {
      !claimOk || class_.None? || class_.value.provisioner !in kinds || (readsPolicy && reclaimDelete.None?)
    }

    /**
      `claimOk` is whether a reference to the claim can be made and `class_` what its class
      says, if it is found. However it ends, the array is as before, or has one complete
      asset that is saved, or the failure has been reported; success is reported without a
      saved volume only if the retry count allows no attempt to save.
    */
    method ProvisionClaimOperation(uid: string, claimOk: bool, class_: Option<Class>, reclaimDelete: Option<bool>,
                                   config: map<string, string>, nodes: seq<Node>)
      returns (failed: bool, ghost outcome: Outcome, ghost source: Source, ghost key: Key)
      requires provisioners.Valid() && Distinct(Names(nodes))
      modifies this`events, cluster, provisioners.arr, provisioners.nfs, provisioners.iscsi, provisioners.fc
      ensures provisioners.Valid()
      // it is skipped if the claim is barred or has its volume, and only then
      ensures Barred(claimOk, class_, reclaimDelete) ==> outcome == Skipped
      ensures cluster.faults == old(cluster.faults) && PvName(uid) in old(cluster.volumes) ==> outcome == Skipped
      ensures outcome == Skipped ==> Barred(claimOk, class_, reclaimDelete) || PvName(uid) in old(cluster.volumes)
      ensures outcome == Skipped ==> provisioners.arr.s == old(provisioners.arr.s) && events == old(events)
      // otherwise the provisioner of the claim's class makes it, and the object says so
      ensures outcome != Skipped ==>
                && class_.Some? && class_.value.provisioner in kinds && source == kinds[class_.value.provisioner]
                && events == old(events) + [Provisioning(uid)] + Reports(uid, outcome)
                && Settled(outcome, old(provisioners.arr.s), provisioners.arr.s, source, key, class_.value, config, uid, nodes, provisioners)
      ensures outcome == Saved ==>
                && retries > 0 && (readsPolicy ==> reclaimDelete.Some?)
                && SavedAs(old(cluster.volumes), cluster.volumes, uid, source, key, provisioners.arr.s, class_.value,
                           if readsPolicy then reclaimDelete.value else true)
      ensures outcome != Saved ==> cluster.volumes == old(cluster.volumes)
      ensures outcome == Unsaved ==> retries <= 0
      ensures outcome == Rejected ==> failed
      ensures failed ==> outcome == Rejected || (outcome == Skipped && readsPolicy && reclaimDelete.None?)
      // if no call is lost it is saved, unless the array refuses it or one LUN does not do for all hosts
      ensures outcome in {CleanedUp, Orphaned} ==> retries > 0 && cluster.faults > old(cluster.faults)
      ensures outcome in {CleanedUp, Orphaned} && PvName(uid) !in old(cluster.volumes) ==>
                cluster.faults >= old(cluster.faults) + retries
      ensures outcome == Orphaned ==> provisioners.arr.faults >= old(provisioners.arr.faults) + retries
      ensures provisioners.arr.faults == old(provisioners.arr.faults) && outcome == Rejected ==>
                || old(provisioners.Refuses(source, PvName(uid), config, class_.value.parameters, nodes))
                || (source != Nfs && Blocks.Uneven(old(provisioners.arr.s), NodeHosts(old(provisioners.arr.s), nodes), key.lun))
      ensures provisioners.arr.faults == old(provisioners.arr.faults) && outcome !in {Skipped, Rejected} ==>
                !old(provisioners.Refuses(source, PvName(uid), config, class_.value.parameters, nodes))
      ensures provisioners.arr.faults == old(provisioners.arr.faults) && outcome == Saved ==>
                cluster.volumes[PvName(uid)].pv.servers == old(provisioners.AddressesFor(source, config, class_.value.parameters))
    {
      failed, outcome, source, key := false, Skipped, Nfs, Key(0, 0, 0);
      var existing := cluster.Get(PvName(uid));
      if existing.Some? || !claimOk || class_.None? || class_.value.provisioner !in kinds {
        return;
      }
      if readsPolicy && reclaimDelete.None? {
        failed := true;
        return;
      }
      source := kinds[class_.value.provisioner];
      assert provisioners.Refuses(source, PvName(uid), config, class_.value.parameters, nodes)
          == old(provisioners.Refuses(source, PvName(uid), config, class_.value.parameters, nodes));
      assert provisioners.AddressesFor(source, config, class_.value.parameters)
          == old(provisioners.AddressesFor(source, config, class_.value.parameters));
      failed, outcome, key := ProvisionAndSave(uid, kinds[class_.value.provisioner], class_.value,
                                               if readsPolicy then reclaimDelete.value else true, config, nodes);
    }

    // -------------------------------------------------------------- deleting

    /** The object is released for deletion, a provisioner of ours made it, and it has not been given up. */
    ghost predicate Due(v: Stored)
      reads this
    {
      && (v.phase == Released || (namesDelete && v.phase == Broken))
      && v.reclaimDelete && v.provisionedBy.Some? && v.provisionedBy.value in kinds
      && (failedDeleteThreshold > 0 && v.uid in failedDelete ==> failedDelete[v.uid] < failedDeleteThreshold)
    }

    method ShouldDelete(v: Stored) returns (should: bool)
      ensures should <==> Due(v)
      ensures Exhausted(failedDelete, failedDeleteThreshold, v.uid) ==> !should
    {
      if v.uid in failedDelete {
        if failedDelete[v.uid] >= failedDeleteThreshold && failedDeleteThreshold > 0 {
          return false;
        }
      }
      if v.phase != Released && !(namesDelete && v.phase == Broken) {
        return false;
      }
      if !v.reclaimDelete {
        return false;
      }
      return v.provisionedBy.Some? && v.provisionedBy.value in kinds;
    }

    /**
      Deletes the asset of a volume and then its object. `volume` is as it was when the
      operation was scheduled; the object fetched now decides whether to go on.
    */
    method DeleteVolumeOperation(volume: PersistentVolume, nodes: seq<Node>, ghost source: Source, ghost key: Key)
      returns (failed: bool, ghost gone: bool)
      requires provisioners.Valid()
      modifies this`events, cluster, provisioners.arr
      ensures provisioners.Valid()
      // nothing happens on the array or to the objects unless the object is released, not kept, ours, and not given up
      ensures provisioners.arr.s != old(provisioners.arr.s) || cluster.volumes != old(cluster.volumes) || gone || failed ==>
                && volume.name in old(cluster.volumes)
                && var v := old(cluster.volumes[volume.name]);
                && (v.phase == Released || (namesDelete && v.phase == Broken))
                && v.reclaimDelete && v.provisionedBy.Some? && v.provisionedBy.value in kinds
                && (failedDeleteThreshold > 0 && v.uid in failedDelete ==> failedDelete[v.uid] < failedDeleteThreshold)
      // another provisioner's volume is left alone, and so is its object
      ensures CREATED_BY !in volume.annotations || volume.annotations[CREATED_BY] != CREATOR ==>
                provisioners.arr.s == old(provisioners.arr.s) && cluster.volumes == old(cluster.volumes)
      // the object goes only after the asset
      ensures cluster.volumes != old(cluster.volumes) ==> gone && cluster.volumes == old(cluster.volumes) - {volume.name}
      ensures (&& volume.name in old(cluster.volumes) && old(cluster.volumes[volume.name]).provisionedBy.Some?
               && old(cluster.volumes[volume.name]).provisionedBy.value in kinds
               && kinds[old(cluster.volumes[volume.name]).provisionedBy.value] == source
               && Deletable(old(provisioners.arr.s), source, volume, key)) ==>
                && Shrunk(old(provisioners.arr.s), provisioners.arr.s, source, key.id)
                && (gone ==> provisioners.arr.s == Destroyed(old(provisioners.arr.s), source, key.id)
                             && Present(old(provisioners.arr.s), source, key.id))
      ensures events == old(events) + if failed then [VolumeFailedDelete(volume.name)] else []
      ensures gone ==> !failed
      // if the server answers, the object goes exactly with the asset
      ensures cluster.faults == old(cluster.faults) && volume.name in old(cluster.volumes) ==>
                cluster.volumes == if gone then old(cluster.volumes) - {volume.name} else old(cluster.volumes)
      // and under exactly those conditions both go, if no call is lost and the mappings are confined to the nodes
      ensures (&& cluster.faults == old(cluster.faults) && provisioners.arr.faults == old(provisioners.arr.faults)
               && volume.name in old(cluster.volumes)
               && var v := old(cluster.volumes[volume.name]);
               && (v.phase == Released || (namesDelete && v.phase == Broken))
               && v.reclaimDelete && v.provisionedBy.Some? && v.provisionedBy.value in kinds
               && (failedDeleteThreshold > 0 && v.uid in failedDelete ==> failedDelete[v.uid] < failedDeleteThreshold)
               && kinds[v.provisionedBy.value] == source
               && Deletable(old(provisioners.arr.s), source, volume, key) && Present(old(provisioners.arr.s), source, key.id)
               && (source == Nfs || provisioners.arr.cascade
                   || Blocks.MappedWithin(old(provisioners.arr.s), key.id, NodeHosts(old(provisioners.arr.s), nodes)))) ==>
                gone && !failed && volume.name !in cluster.volumes
    {
      failed, gone := false, false;
      ghost var s0 := provisioners.arr.s;
      assert source != Nfs ==> Blocks.Shrunk(s0, s0, key.id);
      var fetched := cluster.Get(volume.name);
      if fetched.None? {
        return;
      }
      var should := ShouldDelete(fetched.value);
      if !should {
        return;
      }
      var kind := kinds[fetched.value.provisionedBy.value];
      var r := provisioners.Delete(kind, volume, nodes, key);
      if r.Ignored? {
        return;
      }
      if r.Failed? {
        events := events + [VolumeFailedDelete(volume.name)];
        failed := true;
        return;
      }
      gone := true;
      var _ := cluster.Delete(volume.name);
    }

    /** Counting the failures of a volume's deletion, under its UID. */
    method UpdateDeleteStats(uid: string, failed: bool)
      modifies this`failedDelete
      ensures failedDelete == Counted(old(failedDelete), failedDeleteThreshold, uid, failed)
    {
      if failedDeleteThreshold <= 0 {
        return;
      }
      if failed {
        if uid in failedDelete {
          failedDelete := failedDelete[uid := failedDelete[uid] + 1];
        } else {
          failedDelete := failedDelete[uid := 1];
        }
      } else {
        failedDelete := failedDelete - {uid};
      }
    }

    /**
      On an update of a volume object: it is deleted if it is due, and how that ended is
      counted. Once its deletion has been given up, nothing happens any more.
    */
    method UpdateVolume(v: Stored, nodes: seq<Node>, ghost source: Source, ghost key: Key) returns (ghost gone: bool)
      requires provisioners.Valid()
      modifies this`events, this`failedDelete, cluster, provisioners.arr
      ensures provisioners.Valid()
      ensures !old(Due(v)) || Exhausted(old(failedDelete), failedDeleteThreshold, v.uid) ==>
                && provisioners.arr.s == old(provisioners.arr.s) && cluster.volumes == old(cluster.volumes)
                && events == old(events) && failedDelete == old(failedDelete)
      // exactly a failure that is reported is counted, and anything else forgets the count
      ensures old(Due(v)) ==>
                failedDelete == Counted(old(failedDelete), failedDeleteThreshold, v.uid, events != old(events))
      ensures events == old(events) || events == old(events) + [VolumeFailedDelete(v.pv.name)]
      // an object that is still as it was seen goes with its asset if no call is lost
      ensures (&& cluster.faults == old(cluster.faults) && provisioners.arr.faults == old(provisioners.arr.faults)
               && old(Due(v)) && v.pv.name in old(cluster.volumes) && old(cluster.volumes[v.pv.name]) == v
               && kinds[v.provisionedBy.value] == source
               && Deletable(old(provisioners.arr.s), source, v.pv, key) && Present(old(provisioners.arr.s), source, key.id)
               && (source == Nfs || provisioners.arr.cascade
                   || Blocks.MappedWithin(old(provisioners.arr.s), key.id, NodeHosts(old(provisioners.arr.s), nodes)))) ==>
                && v.pv.name !in cluster.volumes && provisioners.arr.s == Destroyed(old(provisioners.arr.s), source, key.id)
                && (failedDeleteThreshold > 0 ==> v.uid !in failedDelete)
    {
      gone := false;
      var should := ShouldDelete(v);
      if !should {
        return;
      }
      var failed, g := DeleteVolumeOperation(v.pv, nodes, source, key);
      gone := g;
      UpdateDeleteStats(v.uid, failed);
    }

    // -------------------------------------------------------------- node events

    /**
      Every provisioner with a qualified name gets the event, in whatever order the map is
      walked; its errors are logged only. If no call fails, the array ends up the same for
      every order.
    */
    method NodeChanged(pvs: seq<PersistentVolume>, nodes: seq<Node>, added: bool, changed: Node)
      requires provisioners.Valid() && Registration(kinds)
      modifies provisioners.arr
      ensures provisioners.Valid()
      ensures provisioners.arr.s == old(provisioners.arr.s).(luns := provisioners.arr.s.luns, exports := provisioners.arr.s.exports)
      ensures provisioners.arr.faults == old(provisioners.arr.faults)
              && Ready(old(provisioners.arr.s), pvs, NodeHosts(old(provisioners.arr.s), nodes)) ==>
                provisioners.arr.s == Dispatched(old(provisioners.arr.s), pvs, nodes, added, [changed])
    {
      var arr := provisioners.arr;
      var names := kinds.Keys;
      ghost var order: seq<Source> := [];
      ghost var s0 := arr.s;
      while names != {}
        invariant provisioners.Valid() && arr.faults >= old(arr.faults)
        invariant names <= kinds.Keys && Visited(kinds, names, order)
        invariant arr.s == s0.(luns := arr.s.luns, exports := arr.s.exports)
        invariant arr.faults == old(arr.faults) ==> arr.s == InOrder(s0, pvs, nodes, added, changed, order)
        decreases names
      {
        var name :| name in names;
        if '/' in name {
          var _ := provisioners.UpdateMapping(kinds[name], pvs, nodes, added, !added, [changed]);
          OneMore(s0, pvs, nodes, added, changed, order, kinds[name]);
          VisitedStep(kinds, names, order, name);
          order := order + [kinds[name]];
        }
        names := names - {name};
      }
      AllVisited(kinds, order);
      if Ready(s0, pvs, NodeHosts(s0, nodes)) {
        AnyOrder(s0, pvs, nodes, added, changed, order);
      }
    }
  }

  /** What is on the array when an attempt to provision has ended. */
  ghost predicate Settled(outcome: Outcome, before: State, after: State, source: Source, key: Key, class_: Class,
                          config: map<string, string>, uid: string, nodes: seq<Node>, provisioners: Dispatcher)
  {
    && Left(before, after, source, key)
    && match outcome
       case Skipped => after == before
       case Rejected => true
       case CleanedUp => Restored(before, after)
       case Orphaned => Present(after, source, key.id)
       case _ =>
         var access := Get(config + class_.parameters, "nfs_export_permissions");
         after == Provided(before, source, key, PvName(uid), NodeHosts(after, nodes),
                           provisioners.ExportFor(PvName(uid), key.id, access, nodes))
  }

  /** The object is in the cluster under its name, with the UID it got there. */
  ghost predicate Added(before: map<string, Stored>, after: map<string, Stored>, v: Stored) {
    v.pv.name in after && after == before[v.pv.name := v.(uid := after[v.pv.name].uid)]
  }

  /** The cluster has one more volume object, and Delete can find the asset through it. */
  ghost predicate SavedAs(before: map<string, Stored>, after: map<string, Stored>, uid: string, source: Source, key: Key, s: State,
                          class_: Class, reclaimDelete: bool)
  {
    && PvName(uid) !in before && PvName(uid) in after && after == before[PvName(uid) := after[PvName(uid)]]
    && var v := after[PvName(uid)];
    && Deletable(s, source, v.pv, key) && v.pv.name == PvName(uid) && v.pv.source == source
    && v.phase == Available && v.reclaimDelete == reclaimDelete && v.provisionedBy == Some(class_.provisioner)
  }

  lemma AddedIsSavedAs(before: map<string, Stored>, after: map<string, Stored>, v: Stored, uid: string, source: Source, key: Key,
                       s: State, class_: Class)
    requires Added(before, after, v) && v.pv.name == PvName(uid) && PvName(uid) !in before
    requires v.pv.source == source && v.phase == Available && v.provisionedBy == Some(class_.provisioner)
    requires Deletable(s, source, v.pv, key)
    ensures SavedAs(before, after, uid, source, key, s, class_, v.reclaimDelete)
  {
  }

  /** A volume just provided is mapped on the nodes only. */
  lemma ProvidedMappedWithin(s0: State, s1: State, source: Source, key: Key, name: string, nodes: seq<Node>, e: Option<Export>)
    requires Wf(s0) && key.id !in s0.issued && s1.hosts == s0.hosts
    requires s1 == Provided(s0, source, key, name, NodeHosts(s1, nodes), e)
    ensures source != Nfs ==> Blocks.MappedWithin(s1, key.id, NodeHosts(s1, nodes))
  {
  }

  function Reports(uid: string, outcome: Outcome): seq<Event> {
    match outcome
    case Skipped => []
    case Rejected => [ProvisioningFailed(uid)]
    case Saved => [ProvisioningSucceeded(uid)]
    case Unsaved => [ProvisioningSucceeded(uid)]
    case CleanedUp => [ProvisioningFailed(uid)]
    case Orphaned => [ProvisioningFailed(uid), ProvisioningCleanupFailed(uid)]
  }

  // ---------------------------------------------------------------- visiting the provisioners

  /** Each kind is registered under exactly one name with a slash; the default is registered again without. */
  ghost predicate Registration(kinds: map<string, Source>) {
    && (forall k: Source :: IsRegistered(kinds, k))
    && forall n, m :: n in kinds && m in kinds && '/' in n && '/' in m && kinds[n] == kinds[m] ==> n == m
  }

  ghost predicate IsRegistered(kinds: map<string, Source>, kind: Source) {
    exists n :: n in kinds && '/' in n && kinds[n] == kind
  }

  /** The names still to visit, and the kinds visited. */
  ghost predicate Visited(kinds: map<string, Source>, names: set<string>, order: seq<Source>) {
    && (forall i, j :: 0 <= i < j < |order| ==> order[i] != order[j])
    && forall n :: n in kinds && '/' in n ==> (n in names <==> kinds[n] !in order)
  }

  function InOrder(s: State, pvs: seq<PersistentVolume>, nodes: seq<Node>, added: bool, changed: Node, order: seq<Source>): State {
    if order == [] then s
    else Handle(InOrder(s, pvs, nodes, added, changed, order[..|order| - 1]), pvs, order[|order| - 1], nodes, added, [changed])
  }

  lemma VisitedStep(kinds: map<string, Source>, names: set<string>, order: seq<Source>, name: string)
    requires Registration(kinds) && Visited(kinds, names, order) && name in names && name in kinds && '/' in name
    ensures Visited(kinds, names - {name}, order + [kinds[name]])
  {
  }

  lemma OneMore(s: State, pvs: seq<PersistentVolume>, nodes: seq<Node>, added: bool, changed: Node, order: seq<Source>, kind: Source)
    ensures InOrder(s, pvs, nodes, added, changed, order + [kind])
         == Handle(InOrder(s, pvs, nodes, added, changed, order), pvs, kind, nodes, added, [changed])
  {
    assert (order + [kind])[..|order|] == order;
  }

  lemma NoFourthKind(a: Source, b: Source, c: Source, d: Source)
    ensures a == b || a == c || a == d || b == c || b == d || c == d
  {
  }

  lemma AllVisited(kinds: map<string, Source>, order: seq<Source>)
    requires Registration(kinds) && Visited(kinds, {}, order)
    ensures |order| == 3 && order[0] != order[1] && order[0] != order[2] && order[1] != order[2]
  {
    forall k: Source ensures k in order {
      assert IsRegistered(kinds, k);
      var n :| n in kinds && '/' in n && kinds[n] == k;
    }
    assert Nfs in order && Iscsi in order && Fc in order;
    if |order| > 3 {
      NoFourthKind(order[0], order[1], order[2], order[3]);
    }
  }

  lemma AnyOrder(s: State, pvs: seq<PersistentVolume>, nodes: seq<Node>, added: bool, changed: Node, order: seq<Source>)
    requires |order| == 3 && order[0] != order[1] && order[0] != order[2] && order[1] != order[2]
    requires Ready(s, pvs, NodeHosts(s, nodes))
    ensures InOrder(s, pvs, nodes, added, changed, order) == Dispatched(s, pvs, nodes, added, [changed])
  {
    var o2 := order[..2];
    var o1 := o2[..1];
    assert o1[..0] == [];
    assert InOrder(s, pvs, nodes, added, changed, o1) == Handle(s, pvs, order[0], nodes, added, [changed]);
    assert InOrder(s, pvs, nodes, added, changed, o2)
        == Handle(InOrder(s, pvs, nodes, added, changed, o1), pvs, order[1], nodes, added, [changed]);
    DispatchOrderIsIrrelevant(s, pvs, nodes, added, [changed], order[0], order[1], order[2]);
  }

  // ---------------------------------------------------------------- telling lease writes from other updates

  const RECORD_KEY := "control-plane.alpha.kubernetes.io/leader"

  /** `rest` stands for everything but the annotations and the resource version. */
  datatype Claim = Claim(annotations: map<string, string>, resourceVersion: string, rest: string)

  function RemoveRecord(c: Claim): Claim {
    c.(annotations := c.annotations[RECORD_KEY := ""], resourceVersion := "")
  }

  predicate IsOnlyRecordUpdate(before: Claim, after: Claim) {
    RemoveRecord(before) == RemoveRecord(after)
  }

  /** An update is filtered out exactly if nothing but the lease record and the version has changed. */
  lemma FiltersLeaseWritesOnly(before: Claim, after: Claim)
    ensures IsOnlyRecordUpdate(before, after) <==>
      && before.rest == after.rest
      && before.annotations - {RECORD_KEY} == after.annotations - {RECORD_KEY}
  {
    var a, b := RemoveRecord(before), RemoveRecord(after);
    assert a.annotations - {RECORD_KEY} == before.annotations - {RECORD_KEY};
    assert b.annotations - {RECORD_KEY} == after.annotations - {RECORD_KEY};
    assert a.annotations == (before.annotations - {RECORD_KEY})[RECORD_KEY := ""];
    assert b.annotations == (after.annotations - {RECORD_KEY})[RECORD_KEY := ""];
  }
}
