# A verified model of the InfiniBox dynamic provisioner for Kubernetes

The repository is a controller that watches persistent volume claims, races other controllers for
a lease on each claim, and has one of three provisioners (NFS, iSCSI, Fibre Channel) make the
storage on an InfiniBox array. It also keeps the array's LUN tables and export permissions in step
with the nodes of the cluster, and ships an allocator of group ids. This project models those
parts in Dafny 4.11 and proves what they promise, and where they do not, exactly when they do.

`dafny verify dfyconfig.toml` checks everything.

## How the project is laid out

**The lease on a claim.** `LeaderElection` is the elector and its lock in imperative form, with
other writers and the passing of time between any two calls. `ElectionRuns` is the same protocol as
a machine: any number of electors with clocks of their own offset, Get and Update as separate steps
that interleave freely, replies that get lost, electors that are restarted. Its theorems are about
every run. "Leading" is the phase from the success that ends `acquire` to the return of `renew`.

**Group ids.** `Allocator` is the sparse allocator with its movable range and its incremental count,
on Go's 64-bit int. `GidAllocator` builds a class's table from the listed volumes outside the lock
and registers it with a second check; `GidRuns` interleaves any number of such calls.

**Storage.** `StorageArray` is the array: every call takes effect or fails, and any call may fail.
A ghost counter of faults lets a contract say "if no call was lost after this point".
`BlockProvisioner` (iSCSI and Fibre Channel differ in how a volume is destroyed) and
`NfsProvisioner` hold the sagas with their deferred compensations and the deletions.
`LunTables`/`LunRuns` and `ExportClients`/`ExportRuns` are UpdateMapping and what it does to the LUN
tables and export permissions; `ClusterEvents` puts the three provisioners under one event and
follows runs without lost calls. `Provisioners` and `Controller` are the operations on one claim and one
volume with their retry loops. `StorageRuns` interleaves, call by call, any number of these
operations with node events and failures; `StorageInvariant` holds the invariant, `StorageSteps` what
a step leaves alone, `StorageTheorems`, `StorageConservation` and `StorageRemoval` what follows for
whole runs, and `StorageLinks` shows that the machine and the methods agree.

`Commons`, `Decimal`, `Balance` and `Validation` hold what the provisioners share: host lists,
numbers in annotations, round robin, and the filtering of configured network spaces.
`FailureCounts` is how the controller gives up on an object.

## Assumptions

- Clocks of different controllers run at one rate, and an attempt on the lock, from reading the
  clock to handling the reply, takes at most `latency`. The ticks of `wait.Poll` are punctual, at
  multiples of RetryPeriod after its start, and an elector that waits when the deadline closes the
  poll is woken at once. The retry period is positive, because a ticker without a period panics.
- The term limit is positive: contrary to its comment, 0 ends a term at once.
- Every attempt of an elector, and of a later elector with the same identity, stamps a later second
  than the last write of that identity. For renewals `RenewStampsAreFresh` shows that this follows
  if no reply is lost and the retry period is at least a second. After a leading phase the controller
  sleeps LeaseDuration + RetryPeriod before it may contend for the claim again
  (lib/controller/controller.go:813-815).
- The array issues positive identifiers in the exact integer range of section 6 of RFC 8259 and
  none twice, rejects a name or a LUN that is taken, picks a free LUN when none is asked for,
  detaches metadata of an existing object even if there is none, and keeps its own consistency.
  Arrays either drop the mappings and exports of what is deleted or refuse to delete it. Both are
  covered; the rollback of a half-mapped iSCSI volume and conservation depend on it and say so.
- Hosts carry no LUNs but those of volumes made here, where completeness of the LUN tables is
  claimed (`Complete` of `ClusterEvents`). The set of registered hosts does not change during a run.
- No two operations of one name run together. Operations of different names interleave freely.

## Where the code falls short of its promises

- Mutual exclusion takes exactly max(RenewDeadline, last tick + latency) + 2 latency < LeaseDuration,
  where the last tick is the last multiple of RetryPeriod up to RenewDeadline
  (`ExclusionExactlyIfTimely`): the reply to the last write, a poll with an attempt in progress at
  its deadline, and the one attempt `wait.Poll` still makes then. The configuration check does not
  imply that: the default durations need attempts of less than 5/3 seconds (`DefaultDurations`). All
  other results about the election hold for every accepted configuration.
- The allocator's count wraps when the range holds more than 2^63 - 1 numbers, and an empty table is
  then "full" (`WidestRangeLooksFull`); `AllocateNextPromise` gives the exact condition.
- Rolling back an iSCSI volume that is mapped on some hosts only leaves it behind on an array that
  refuses to delete mapped volumes, because the deferred unmapping is registered only after all
  hosts are mapped (`CreateVolume` of `BlockProvisioner`, an if and only if; a run that gets there is
  `HalfMappedVolumesAreLost`).
- A GID released while its class cannot be read is released in the table of the class with the empty
  name and stays taken in its own (`Release` of `GidAllocator`, an if and only if). In that table it
  may be the GID of another volume; `GidsAreUnique` counts that as a release.
- An iSCSI network space without addresses is noticed after the volume exists: an error is returned
  exactly then, and the volume stays (`Provision` of `BlockProvisioner`,
  `WithoutAddressesVolumesAreLost`).
- With a retry count of zero, success is reported, nothing is saved and the asset is lost
  (`WithoutRetriesAssetsAreLost`).
- These are all the ways to lose an asset without losing a compensating call: conservation holds
  exactly if the array cascades, every network space has an address and the retry count is positive
  (`ConservedExactly`).
- Once the asset of a volume is gone, every further Delete fails. The volume object then stays for
  ever unless its removal is already pending, and one failed removal gets there
  (`OneFailedRemoval`). After as many failed deletions in a row as the threshold says, the object
  stays for ever with its whole asset (`GivenUpWithItsAsset`). In all other cases it can still be
  removed (`StaysExactlyIfGoneOrGivenUp`).
- A volume provisioned while there are no nodes names an export 0 that does not exist, and no event
  refreshes a volume listed behind it any more (`NodelessVolumeHidesJoins`). An event reaches all
  listed exports exactly if each exists and has an entry (`ReachesTheEndExactly`).
- An empty node list leaves export permissions alone, and the clients of the last node stay.
- Every renewal sets the record's count of leader transitions back to 0 (lib/leaderelection/leaderelection.go:265-269,
  `TryAcquireOrRenew`), so the count does not say how often the lock has changed hands.
- The first address of an NFS network space can be used two times more than the others.

## Model

| member | source | states |
|---|---|---|
| LeaderElection.ProvisionPvcLock.Get | lib/leaderelection/resourcelock/provisionpvclock.go:40-58 | on success the record is the server's; whenever a claim is held, also when its record cannot be read, it is held at the server's version |
| LeaderElection.ProvisionPvcLock.Update | lib/leaderelection/resourcelock/provisionpvclock.go:65-76 | a versioned compare-and-swap: it writes only over the version fetched, at most once, and a lost reply leaves the write in place |
| LeaderElection.LeaderElector.New | lib/leaderelection/leaderelection.go:47-60 | an elector that has observed nothing, exactly if there is a lock and the lease outlasts the deadline and the deadline the jittered retry period |
| LeaderElection.LeaderElector.TryAcquireOrRenew | lib/leaderelection/leaderelection.go:227-278 | success means exactly one write since the Get, ours, with the times and the count of transitions that belong to a renewal or a takeover; somebody else's record is replaced only if it was watched for a whole lease or no lease was ever observed; conversely an attempt that is answered and not overtaken by another write fails only for such a record |
| LeaderElection.LeaderElector.PollRenew | lib/leaderelection/leaderelection.go:208-210 | with an attempt at each tick that finds it waiting, gives up only after an attempt made when the whole deadline had passed; success means the record is held now, and a held record is renewed unless a call is lost or somebody else writes |
| LeaderElection.LeaderElector.Renew | lib/leaderelection/leaderelection.go:187-222 | leadership ends because the work is over, the term has passed, or no renewal got through for a whole deadline, which takes a lost call or somebody else's write; in the first two cases the record is still held |
| LeaderElection.LeaderElector.Acquire | lib/leaderelection/leaderelection.go:153-183 | returns without "over" only when the record is held, and with it only after all its attempts, each of which asked the server; a lock that may be taken is taken at the first attempt that is answered and not overtaken |
| LeaderElection.LeaderElector.Run | lib/leaderelection/leaderelection.go:120-138 | a leading phase begins with our record on the server and lasts for the term, unless the work ends or renewing fails for a deadline |
| ElectionRuns.LeaseProtects | lib/leaderelection/leaderelection.go:252-278 | under the timing assumption, while somebody leads, or a successful write's reply is under way, no other elector's pending update carries the current version |
| ElectionRuns.StepHolds | lib/leaderelection/leaderelection.go:187-278 | under the timing assumption, every step leaves each leader holding the record |
| ElectionRuns.StepInv | lib/leaderelection/leaderelection.go:187-278 | every step of every elector, and the passing of time, keeps the protocol's invariant, whatever the durations |
| ElectionRuns.MutualExclusion | lib/leaderelection/leaderelection.go:153-222 | under the timing assumption, in every run no two electors are in the leading phase together |
| ElectionRuns.TakeoverWaitedALease | lib/leaderelection/leaderelection.go:252-278 | a new holder had seen the very record it replaces, unchanged and with no write in between, for a whole lease on its own clock |
| ElectionRuns.TermIsBounded | lib/leaderelection/leaderelection.go:128-137 | in every run a leading phase is over within the term limit, one poll up to the start of its last attempt, and that attempt, so within term limit, renew deadline and two attempts |
| ElectionRuns.TenureKeepsAcquireTime | lib/leaderelection/leaderelection.go:265-267 | as long as one elector holds the lock, whatever else happens, the acquire time stays |
| ElectionRuns.Tenure | lib/leaderelection/leaderelection.go:229-278 | from a takeover on, the acquire time is that of the first write and never exceeds the renew time |
| ElectionRuns.RenewStampsAreFresh | lib/leaderelection/leaderelection.go:228-234 | without lost replies and with a retry period of a second or more, renewals carry ever later stamps |
| ElectionRuns.TwoLeadersWithoutTheTimingAssumption | lib/leaderelection/leaderelection.go:187-222 | wherever the timing assumption fails, for all durations and any two electors there is a run, with an attempt at every tick, in which both lead |
| ElectionRuns.ExclusionExactlyIfTimely | lib/leaderelection/leaderelection.go:153-222 | with two electors or more, no run has two leaders if and only if the first reply, a poll with its last attempt held up by one in progress, and that attempt fit into the lease |
| ElectionRuns.DefaultDurations | lib/leaderelection/leaderelection.go:47-60 | the constructor accepts the default durations, which exclude two leaders if and only if attempts take less than 5/3 seconds |
| Allocator.Pigeonhole | lib/allocator/minmax.go:129-149 | a recount over a range is never negative and is zero exactly when every number of the range is used |
| Allocator.RunKeepsValid | lib/allocator/minmax.go:81-167 | any sequence of the four operations keeps the incremental count equal to the recount, wrapped to 64 bits |
| Allocator.FreeIsTheRecount | lib/allocator/minmax.go:81-167 | from a new allocator on, the count is the recount, including numbers left outside a shrunk range, if the range fits the int |
| Allocator.AllocateNextPromise | lib/allocator/minmax.go:129-149 | the least free number, or "full" exactly when there is none, holds if and only if the free numbers fit the int; the internal error is unreachable and the index never overflows |
| Allocator.FittingRangeKeepsThePromise | lib/allocator/minmax.go:129-149 | a range that fits the int keeps the promise, up to the largest int |
| Allocator.WidestRangeLooksFull | lib/allocator/minmax.go:129-149 | the widest range is reported full when nothing has been allocated |
| Allocator.MinMaxAllocator.New | lib/allocator/minmax.go:68-79 | refuses an inverted range, else an empty allocator whose count is the range's size |
| Allocator.MinMaxAllocator.CountUsed | lib/allocator/minmax.go:96-104 | the loop counts the used numbers inside the range, whatever order the map is walked in |
| Allocator.MinMaxAllocator.SetRange | lib/allocator/minmax.go:81-108 | moves the range, forgets no number, recounts; an unchanged range is left alone |
| Allocator.MinMaxAllocator.Allocate | lib/allocator/minmax.go:110-127 | marks a free number in range and counts it, and distinguishes the three ways to fail |
| Allocator.MinMaxAllocator.AllocateNext | lib/allocator/minmax.go:129-149 | the loop finds what the specification's scan finds and marks it |
| Allocator.MinMaxAllocator.Release | lib/allocator/minmax.go:152-167 | frees the number and adjusts the count only if it was used and in range |
| GidAllocator.ConvertGid | lib/gidallocator/allocator.go:267-281 | a GID that is accepted lies between 0 and the largest 32-bit int |
| GidAllocator.EveryGidIsAccepted | lib/gidallocator/allocator.go:267-281 | every number in that range is accepted as it is written in decimal |
| GidAllocator.ParseClassParameters | lib/gidallocator/allocator.go:215-253 | an absent bound is the default and a given one the number it spells; accepted exactly if both are within the absolute bounds and in order |
| GidAllocator.WrittenBounds | lib/gidallocator/allocator.go:215-253 | bounds written in decimal are taken as they are, exactly if they are in order and not below the least GID |
| GidAllocator.Recorded | lib/gidallocator/allocator.go:183-203 | a volume counts for the class its annotation names, or its field if there is no annotation, with the number its GID annotation spells |
| GidAllocator.CollectGathersAll | lib/gidallocator/allocator.go:176-213 | with the full range no recorded GID of the class is missed, duplicates do no harm, and no volume makes the collection fail |
| GidAllocator.BuiltHoldsTheRecordedGids | lib/gidallocator/allocator.go:120-171 | a first-built table holds exactly the class's recorded GIDs, also after narrowing, and counts them right |
| GidAllocator.NextOfClassRange | lib/gidallocator/allocator.go:67-87 | in any class range the next GID is the least free one, or there is none |
| GidAllocator.GidAllocator.CollectGids | lib/gidallocator/allocator.go:176-213 | fails only if the list call fails |
| GidAllocator.GidAllocator.BuildTable | lib/gidallocator/allocator.go:135-151 | the private table holds the listed volumes' GIDs in the requested range |
| GidAllocator.GidAllocator.Adapt | lib/gidallocator/allocator.go:120-134 | an existing table is only moved to the requested range; no GID is forgotten |
| GidAllocator.GidAllocator.Register | lib/gidallocator/allocator.go:152-171 | a table registered meanwhile is kept and only adapted to the range, and the one just built is dropped; otherwise that one is registered |
| GidAllocator.GidAllocator.MakeTable | lib/gidallocator/allocator.go:135-171 | a table made now holds what a listing records, the caller's own or that of whoever registers meanwhile, and becomes the class's table |
| GidAllocator.GidAllocator.GetGidTable | lib/gidallocator/allocator.go:120-171 | the registered table in the requested range; for a class used for the first time a table that holds exactly the GIDs recorded in the listing of whoever registers first; fails exactly if there is no table and the volumes cannot be listed |
| GidAllocator.GidAllocator.Take | lib/allocator/minmax.go:129-149 | from a table with a class range the least free GID, or none exactly if all are in use |
| GidAllocator.GidAllocator.AllocateNext | lib/gidallocator/allocator.go:67-87 | the least GID of the class's range that is not in use, which for a class used for the first time means not recorded in any of its volumes; succeeds exactly if the parameters are good, a table can be had and such a GID exists |
| GidAllocator.GidAllocator.Release | lib/gidallocator/allocator.go:89-112 | frees the volume's GID in its class's table, or, if the class cannot be read, in that of the class ""; in its own table it is freed if and only if the class was read or is ""; fails exactly for bad parameters or a table that is needed and cannot be had |
| GidRuns.StepInv | lib/gidallocator/allocator.go:67-171 | every step of any interleaving of calls keeps the tables valid, unshared, and holding all that is held |
| GidRuns.NeverReplaced | lib/gidallocator/allocator.go:152-171 | a class's registered table is set once and never replaced, in every run |
| GidRuns.HeldUntilReleased | lib/gidallocator/allocator.go:67-118 | what is held stays held until it is released |
| GidRuns.GidsAreUnique | lib/gidallocator/allocator.go:67-171 | a GID handed out, or recorded in a volume the table was built from, stays marked in the same table and is not handed out again before it is released |
| GidRuns.HandedOutIsHeld | lib/gidallocator/allocator.go:67-87 | a GID handed out was held by nobody and is held from then on |
| Decimal.RoundTrip | pkg/iscsi/provision.go:178-182 | an id or LUN written to an annotation in decimal is read back unchanged |
| Decimal.NumeralsOnly | pkg/iscsi/delete.go:52-56 | a text is read as a number exactly if it is a numeral whose value fits, and then as that value |
| Balance.IscsiIsBalanced | pkg/iscsi/provision.go:543-574 | over any number of calls the uses of two network spaces differ by at most one |
| Balance.NfsIsBalanced | pkg/nfs/provision.go:304-317 | the uses of two addresses differ by at most two, and only the first can be two ahead |
| Balance.NfsImbalanceOfTwo | pkg/nfs/provision.go:304-317 | the difference of two does occur |
| Validation.JoinSplit | lib/commons/common.go:215-249 | joining the pieces of a split gives back the text |
| Validation.SplitJoin | lib/commons/common.go:215-249 | splitting a joined list gives back the list if no name contains the separator |
| Validation.ResultListsTheValidNames | lib/commons/common.go:215-249 | the pieces of the result are exactly the valid names, in order |
| Validation.ValidationIsIdempotent | lib/commons/common.go:215-249 | validating a result against the same array changes nothing |
| Validation.OneTimeValidation | lib/commons/common.go:215-249 | the loop returns the filtered list, or fails if the pool or every name is unknown or a call fails |
| Validation.TrimTakesTheBlanks | pkg/iscsi/provision.go:543-544 | trimming takes blanks away at both ends, nothing else, and leaves none there |
| Commons.GetHostList | lib/commons/common.go:280-323 | without an error exactly the registered nodes in node order; with one, those of a prefix |
| Commons.UnMap | lib/commons/common.go:326-344 | removes one entry of a LUN table; an entry that is not there counts as removed |
| BlockProvisioner.NewVolumeDescribes | pkg/iscsi/provision.go:178-182 | Delete and UpdateMapping read the id and LUN that Provision wrote |
| BlockProvisioner.ProvisionThenDestroy | pkg/iscsi/delete.go:29-95 | destroying a complete asset gives back the array before it, up to used identifiers |
| BlockProvisioner.BlockProvisioner.VolCreate | pkg/iscsi/provision.go:314-374 | without faults a volume is made exactly if the limit, the pool and the name allow it |
| BlockProvisioner.BlockProvisioner.Mapping | pkg/iscsi/provision.go:404-432 | maps at the requested LUN or a free one; an existing mapping is an error here, contrary to the code's comment |
| BlockProvisioner.BlockProvisioner.MapVolumeToHost | pkg/iscsi/provision.go:377-401 | all hosts so far have one LUN, and all hosts on success; without faults only a LUN free on the first host and taken on a later one fails it |
| BlockProvisioner.BlockProvisioner.MapAndLabel | pkg/iscsi/provision.go:244-307 | a volume just created becomes a complete asset, or is rolled back; without faults the latter needs that there are no hosts or that one LUN does not do for all of them |
| BlockProvisioner.OneHostIsEven | pkg/iscsi/provision.go:386-397 | with a single registered node no LUN is free on one host and taken on another |
| BlockProvisioner.BlockProvisioner.TearDown | pkg/fc/delete.go:64-107 | detach, unmap, destroy: whatever fails only the volume's own entries shrink; success removes exactly them |
| BlockProvisioner.BlockProvisioner.VolDestroy | pkg/iscsi/delete.go:98-120 | iSCSI destroys without unmapping, so it succeeds without faults exactly if the array cascades or nothing is mapped; Fibre Channel unmaps first |
| BlockProvisioner.BlockProvisioner.CreateVolume | pkg/iscsi/provision.go:220-307 | success is one complete asset with one LUN on every registered node; without faults it fails only if the limit, the pool or the name refuses, no node is registered, or one LUN does not do for all hosts; after a failure at most the new volume's entries are left, and if no compensation is lost the array is restored, always for Fibre Channel and on arrays that cascade, else if and only if mapping did not stop half way |
| BlockProvisioner.BlockProvisioner.NextNetworkSpace | pkg/iscsi/provision.go:537-576 | the addresses of the network space in turn; the counter moves only on success, which without faults means that the space has a name and is known |
| BlockProvisioner.BlockProvisioner.Prepare | pkg/iscsi/provision.go:149-165 | before a volume is made: the addresses in turn among the valid spaces; without faults it fails exactly if the pool is unknown or there is no such space |
| BlockProvisioner.BlockProvisioner.Provision | pkg/iscsi/provision.go:136-210 | once the asset is made, a volume object that describes it and names the addresses in turn is returned, or, if and only if the iSCSI space in turn has no address, an error that leaves the asset behind; without faults it fails only for want of an address or for the reasons of CreateVolume |
| BlockProvisioner.BlockProvisioner.Delete | pkg/iscsi/delete.go:29-95 | a volume of another creator is ignored and left alone; resumable: failures only shrink the asset, success means nothing of it remains and all else is untouched, and afterwards every attempt fails |
| BlockProvisioner.BlockProvisioner.Revert | pkg/fc/provision.go:216-251 | the compensations in reverse order restore the array if and only if the volume is gone, which without faults needs cascading, Fibre Channel or the unmapping |
| NfsProvisioner.GrantNodesClients | pkg/nfs/provision.go:466-473 | the clients of a new export are exactly the nodes' internal addresses, all with the configured access |
| NfsProvisioner.MissingClients | pkg/nfs/provision.go:557-566 | adding the addresses not yet mentioned makes the clients the union, with the access of the export |
| NfsProvisioner.NewVolumeDescribes | pkg/nfs/provision.go:129-134 | Delete reads back the export and filesystem ids that Provision wrote |
| NfsProvisioner.ProvisionThenDestroy | pkg/nfs/delete.go:29-135 | destroying a complete asset gives back the array before it |
| NfsProvisioner.NfsProvisioner.CreateDirectory | pkg/nfs/provision.go:330-433 | without faults a filesystem is made exactly if limit, pool and name allow it; the limit admits one more than for volumes |
| NfsProvisioner.NfsProvisioner.CreateExport | pkg/nfs/provision.go:437-504 | one export with the internal addresses of all nodes; without nodes none and no error |
| NfsProvisioner.NfsProvisioner.GetServer | pkg/nfs/provision.go:276-327 | the address in turn for the first network space, the first one twice; without faults it fails exactly if that space has none |
| NfsProvisioner.NfsProvisioner.Revert | pkg/nfs/provision.go:209-247 | the compensations in reverse order restore the array exactly if the filesystem is gone, which without faults it is |
| NfsProvisioner.NfsProvisioner.ExportAndLabel | pkg/nfs/provision.go:215-256 | a filesystem just created becomes a complete asset, or is rolled back, which without faults happens exactly if no address is in turn |
| NfsProvisioner.NfsProvisioner.CreateVolume | pkg/nfs/provision.go:185-257 | success is one complete asset, reached at the address in turn; without faults it fails exactly if the limit, the pool or the name refuses or the network space in use has no address; whatever step fails, if no compensation is lost the array is as before, also if it refuses to delete what is referenced |
| NfsProvisioner.NfsProvisioner.Provision | pkg/nfs/provision.go:108-168 | the volume object describes the asset, names the address in turn, and Delete can find it; without faults it fails exactly when CreateVolume does |
| NfsProvisioner.NfsProvisioner.DeleteExport | pkg/nfs/delete.go:109-135 | an export that is not there counts as deleted |
| NfsProvisioner.NfsProvisioner.Delete | pkg/nfs/delete.go:29-72 | a filesystem of another creator is ignored and left alone; resumable: failures only shrink the asset, success means nothing of it remains, and afterwards every attempt fails |
| LunTables.UpdateMapping | pkg/iscsi/provision.go:59-133 | whatever fails, only listed volumes are touched and every new entry has its volume's LUN; without faults the effect is the specification's |
| LunTables.MapVolumesOn | pkg/fc/provision.go:61-96 | the nested loops map every listed volume of the kind on every host, going on after errors |
| LunTables.UnmapVolumesFrom | pkg/fc/provision.go:97-121 | a removed node loses the listed volumes; an unknown node changes nothing |
| LunRuns.SynchronisedEffect | pkg/iscsi/provision.go:59-133 | entry by entry: listed volumes are on exactly the nodes' hosts besides what was there, gone hosts have none, other entries stay |
| ExportClients.AddClients | pkg/nfs/provision.go:556-574 | appends the missing addresses of the new nodes, one call each |
| ExportClients.CollectClients | pkg/nfs/provision.go:575-582 | the rebuilt list has one entry for every address of every node |
| ExportClients.UpdateMapping | pkg/nfs/provision.go:509-595 | only exports change; without faults the effect is the specification's, which stops at the first volume in error |
| ExportRuns.Joining | pkg/nfs/provision.go:556-574 | a node that joins is admitted and nobody else |
| ExportRuns.Leaving | pkg/nfs/provision.go:575-587 | after rebuilding, the clients are right if and only if the remaining nodes have an address; otherwise they are unchanged |
| ExportRuns.AllRefreshed | pkg/nfs/provision.go:526-594 | one event brings all exports from the old nodes to the new ones, and no volume ends the loop early |
| ExportRuns.ClientsFollowTheNodes | pkg/nfs/provision.go:509-595 | in every run of provisioning, deleting and node events, each export admits all internal addresses of current nodes and nothing but addresses of current nodes |
| ExportRuns.EmptyClusterKeepsStaleClients | pkg/nfs/provision.go:520-523 | after the last node left, its clients stay, and a node that joins later does not drive them out |
| ExportRuns.ReachesTheEndExactly | pkg/nfs/provision.go:526-594 | one event handles the whole list if and only if every listed export exists and has an entry to copy from |
| ExportRuns.StopsThere | pkg/nfs/provision.go:534-541 | the first listed export that cannot be fetched or is empty ends the event, and what is behind it is left alone |
| ExportRuns.NodelessVolumeHidesJoins | pkg/nfs/provision.go:460-462 | a volume provisioned without nodes, listed before another, keeps a joining node out of that other one |
| ClusterEvents.DispatchOrderIsIrrelevant | lib/controller/controller.go:485-516 | the three provisioners handle an event with the same result in every order |
| ClusterEvents.RunsStayComplete | lib/controller/controller.go:485-516 | when calls succeed, after every run over lists of all three kinds every registered node maps every block volume at its LUN, nobody else maps any, and LUNs are injective |
| ClusterEvents.JoiningHostHasRoom | pkg/iscsi/provision.go:66-102 | no LUN asked for on a joining host can be taken there |
| ClusterEvents.FreeOnOneIsFreeOnAll | pkg/iscsi/provision.go:386-397 | a LUN free on one node is free on all, so mapping a new volume cannot stop half way for want of it |
| ClusterEvents.NodesAreEven | pkg/iscsi/provision.go:386-397 | so in such runs no LUN is free on one node and taken on another, the one obstacle of Dispatcher.Provision that is not in the request |
| Provisioners.ProvidedThenDestroyed | lib/controller/controller.go:989-999 | for every kind, destroying a complete asset gives back the array |
| Provisioners.DeletionStep | lib/controller/controller.go:989-999 | each attempt to delete leaves at most the new asset's remains, and the array is restored exactly if the object is gone |
| Provisioners.Dispatcher.Provision | lib/controller/controller.go:942-954 | for every kind: a complete asset with an object that finds it and names its addresses, or at most remains of one new object; without faults it fails only if the array refuses, no address is in turn, or one LUN does not do for all hosts |
| Provisioners.Dispatcher.Delete | lib/controller/controller.go:1186-1197 | for every kind: another creator's volume is left alone; only the asset shrinks, success means it is gone, and without faults it succeeds if mappings are confined to the nodes |
| Controller.Controller.Save | lib/controller/controller.go:967-978 | saves once within the retry count and gives up only if every attempt was lost or the name is taken; with a count of zero nothing is saved and no error results |
| Controller.Controller.Cleanup | lib/controller/controller.go:989-999 | ends with the array as before, or with the object still there and an error, for which a call of every attempt must have been lost if mappings are confined to the nodes |
| Controller.Controller.ProvisionAndSave | lib/controller/controller.go:942-1015 | the asset is complete and saved with the claim's class, policy and addresses, or the array restored, or the failure and the orphan reported; success without a saved volume only with a retry count of zero |
| Controller.Controller.ProvisionClaimOperation | lib/controller/controller.go:888-1015 | the provisioner registered for the claim's class makes the volume, and the saved object carries its kind, the class's provisioner and policy; skipped exactly for a volume that exists, an unknown claim, class, provisioner or policy; if no call is lost it is saved unless the array refuses, no address is in turn, or one LUN does not do for all hosts |
| Controller.PvNamesDiffer | lib/controller/controller.go:1217-1219 | different claims have different volume names, so a volume that exists under the name is the claim's own |
| Controller.Controller.DeleteVolumeOperation | lib/controller/controller.go:1170-1213 | the array or an object changes only for a volume that is released (before version 1.5 also failed), not to be kept, made by a registered provisioner and not given up, and under exactly these conditions asset and object go if no call is lost; another creator's volume and its object stay; a failure is reported and only shrinks the asset |
| Controller.Controller.ShouldDelete | lib/controller/controller.go:710-749 | holds exactly for a volume that is released for deletion, made by a registered provisioner and not given up |
| Controller.Controller.UpdateVolume | lib/controller/controller.go:610-627 | an update deletes the volume if it is due and counts exactly the failures reported; once given up nothing happens any more |
| Controller.Controller.UpdateDeleteStats | lib/controller/controller.go:843-862 | failures are counted per UID and forgotten on success |
| FailureCounts.GivenUpAfterAStreak | lib/controller/controller.go:710-724 | a volume is given up exactly after as many failures in a row as the threshold says, if it is positive |
| Controller.Controller.NodeChanged | lib/controller/controller.go:485-516 | the loop over the registered provisioners in any order has the one result of DispatchOrderIsIrrelevant, and touches only LUN tables and exports in any case |
| Controller.FiltersLeaseWritesOnly | lib/controller/controller.go:631-663 | an update is ignored exactly if only the lease record and the version changed |
| StorageInvariant.CreateInv | pkg/iscsi/provision.go:237-241 | creating a volume or filesystem keeps the invariant, whether the call succeeds or not |
| StorageInvariant.MapNextInv | pkg/iscsi/provision.go:386-397 | mapping one host keeps one LUN per volume, or starts the rollback |
| StorageInvariant.SaveInv | lib/controller/controller.go:967-999 | saving, retrying and turning to cleanup keep somebody answering for the asset |
| StorageInvariant.TearOkInv | pkg/fc/delete.go:64-107 | each call of a deletion or compensation keeps the invariant |
| StorageInvariant.TearFailInv | lib/controller/controller.go:989-1007 | a failing call leaves the asset to the rest of the script, a later attempt, its volume object or an event |
| StorageInvariant.NodeMapInv | pkg/iscsi/provision.go:66-102 | a node event with any volume list, current or not, maps at the volume's own LUN only |
| StorageInvariant.StepInv | lib/controller/controller.go:888-1213 | every step of every operation and node event, at any interleaving, keeps the invariant |
| StorageTheorems.OneLunAlways | pkg/iscsi/provision.go:59-133 | at any moment of any run all hosts that map a volume map it at one LUN, which is the saved object's once there is one |
| StorageTheorems.SavedVolumesAreWhole | lib/controller/controller.go:888-1015 | a volume object not released for deletion has its object, metadata and export behind it |
| StorageConservation.NothingIsLost | lib/controller/controller.go:888-1015 | on an array that cascades and has addresses, with a positive retry count and no lost compensation, everything on the array was there before, has a volume object, belongs to a running operation or was reported |
| StorageConservation.WithoutRetriesAssetsAreLost | lib/controller/controller.go:967-1012 | a run with a retry count of zero after which nobody answers for a filesystem |
| StorageConservation.HalfMappedVolumesAreLost | pkg/iscsi/provision.go:244-285 | a run in which no compensation is lost but a half-mapped volume stays on an array that refuses to delete it |
| StorageConservation.WithoutAddressesVolumesAreLost | pkg/iscsi/provision.go:198-198 | a run in which a complete volume stays because its network space has no address |
| StorageConservation.ConservedExactly | lib/controller/controller.go:888-1015 | if no compensation is lost, conservation holds over all runs if and only if the array cascades, every network space has an address and the retry count is positive |
| StorageRemoval.NeverRemoved | lib/controller/controller.go:1186-1210 | a volume object whose asset is gone and whose removal is not pending is still there after any run |
| StorageRemoval.NeverTriedAgain | lib/controller/controller.go:710-724 | a volume whose deletion has been given up is still there, untouched by the controller, after any run |
| StorageRemoval.CanBeRemoved | lib/controller/controller.go:1170-1213 | in every other case some run removes the object, on refusing arrays too, and also from the middle of a deletion |
| StorageRemoval.StaysExactlyIfGoneOrGivenUp | lib/controller/controller.go:1170-1213 | at any moment of any run a volume object stays for ever if and only if its asset is gone and its removal is not pending, or its deletion has been given up |
| StorageRemoval.OneFailedRemoval | lib/controller/controller.go:1205-1210 | a run in which one removal fails and the object stays for ever |
| StorageRemoval.GivenUpWithItsAsset | lib/controller/controller.go:710-724 | for every positive threshold, a run after which the object stays for ever although its asset is whole |
| StorageLinks.DeletingABlockVolume | pkg/fc/delete.go:64-107 | the machine's calls for deleting a block volume add up to what Delete promises |
| StorageLinks.DeletingAFilesystem | pkg/nfs/delete.go:29-72 | the same for NFS |
| StorageLinks.RollingBackABlockVolume | pkg/fc/provision.go:216-251 | the compensating calls remove the new volume and its entries, whichever were registered |
| StorageLinks.ProvisioningABlockVolume | pkg/fc/provision.go:193-270 | an undisturbed operation of the machine leaves exactly the asset that Provision promises, with one LUN on all hosts, ready to be saved |
| StorageLinks.ProvisioningAFilesystem | pkg/nfs/provision.go:185-257 | the same for NFS |

## Left out

- REST requests, JSON decoding, response checking and the client: an array operation succeeds or fails as a whole.
- Lost responses, that is calls that took effect although an error came back, on the array and when saving volume objects: a volume object that exists already is not treated as saved, so conservation is not claimed there. For the lease they are covered.
- GidAllocator.GidAllocator.GetGidTable: while a table is being built others may register one for the same class only, and nobody uses it before this call returns; free interleaving is the subject of GidRuns.
- Informers, watches, channels and goroutines: events come in any order, and an operation's calls are the steps that interleave. The backoff between operations of one name is not modelled.
- Liveness and fairness of the election, the jitter between attempts, and reporting a new leader (`maybeReportTransition`).
- In LeaderElection the channel that says the work is over is a free choice, and `acquire` gives up after a given number of rounds because somebody has done the work. The timer of the term limit fires on time.
- LeaderElection.LeaderElector.Run: does not call the callbacks; the controller's provisioning goroutine ignores the stop channel, so exclusion is claimed for the leading phase and not for that goroutine.
- The maps failedProvisionRetriedStopped and failedDeleteRetriedStopped, which only suppress repeated log lines, are taken as initialised although the constructor does not allocate them (lib/controller/controller.go:308-334).
- The configuration map is merged with the class parameters per call; the code writes the parameters into the shared map, and isolation between calls is not claimed.
- Class parameters of which two fold to the same lower-case name: the result then depends on map order.
- `shouldProvision`, `addClaim` and the counting of provisioning failures: the counting is the same as for deletions, the rest is a sequence of guards.
- Reclaim policy other than whether to delete, capacity rounding, access modes, mount options, root squash, WWPN and IQN lookup, version checks and logging.
- ExportRuns.ClientsFollowTheNodes: asks for an internal address when a volume is provisioned, for one address of any kind after each node event, and that the access string is not itself an address, because `keyExists` compares with every value of an entry.
- ClusterEvents.RunsStayComplete: speaks of runs in which no call fails; what holds when calls fail is OneLunAlways.
- A restart of the controller forgets the counted failures; runs are those of one controller.
- StorageConservation.NothingIsLost: assumes that compensating calls which the array accepts succeed; one that fails leaves the object in the set `lost`.
- A provision operation for a claim whose volume object exists but could not be fetched: it goes on in the code and is stopped by the array's duplicate name, or, if the asset is gone, by the duplicate object name when saving. The machine starts such operations only for claims without a volume object.
- Commons.GetHostList: an undecodable reply to a host lookup is an error here; the code logs it and leaves that node out.
