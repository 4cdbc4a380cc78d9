/**
  The storage array as its management interface shows it. Every call either takes effect
  or fails without effect. The array issues positive identifiers and never issues one
  twice, rejects a name or a LUN that is taken, and picks a free LUN when none is asked for.
*/
module StorageArray {

  type Id = int

  /** Identifiers travel as JSON numbers and stay in the exact integer range of section 6 of RFC 8259. */
  const MAX_ID := 0x1f_ffff_ffff_ffff
  const MAX_LUN := 0x7fff_ffff

  datatype Option<+T> = None | Some(value: T) {
    function GetOr(default: T): T {
      match this
      case Some(v) => v
      case None => default
    }
  }

  datatype Permission = Permission(access: string, client: string)
  datatype Export = Export(filesystem: Id, path: string, permissions: seq<Permission>)

  datatype State = State(
    hosts: map<string, Id>,       // hosts the administrator registered, by name
    volumes: map<Id, string>,     // names
    filesystems: map<Id, string>, // names
    exports: map<Id, Export>,
    metadata: map<Id, string>,    // the claim's volume name attached to a volume or filesystem
    luns: map<(Id, Id), int>,     // (host, volume) to LUN: the LUN tables of all hosts
    issued: set<Id>)              // every identifier given out so far

  ghost predicate HostsWf(hosts: map<string, Id>) {
    && (forall n :: n in hosts ==> hosts[n] > 0)
    && (forall n, m {:trigger hosts[n], hosts[m]} :: n in hosts && m in hosts && hosts[n] == hosts[m] ==> n == m)
  }

  ghost predicate IdsWf(issued: set<Id>, volumes: set<Id>, filesystems: set<Id>, exports: set<Id>) {
    && volumes + filesystems + exports <= issued
    && volumes !! filesystems
    && forall i :: i in issued ==> 0 < i <= MAX_ID
  }

  ghost predicate LunsRefer(luns: map<(Id, Id), int>, hosts: set<Id>, volumes: set<Id>) {
    forall k :: k in luns ==> k.0 in hosts && k.1 in volumes && 0 <= luns[k] <= MAX_LUN
  }

  /** A LUN names at most one volume on each host. */
  ghost predicate LunsDistinct(luns: map<(Id, Id), int>) {
    forall h, v, w :: (h, v) in luns && (h, w) in luns && luns[(h, v)] == luns[(h, w)] ==> v == w
  }

  /** The array's own consistency. */
  ghost predicate Wf(s: State) {
    && HostsWf(s.hosts)
    && IdsWf(s.issued, s.volumes.Keys, s.filesystems.Keys, s.exports.Keys)
    && s.metadata.Keys <= s.volumes.Keys + s.filesystems.Keys
    && (forall e :: e in s.exports ==> s.exports[e].filesystem in s.filesystems)
    && LunsRefer(s.luns, s.hosts.Values, s.volumes.Keys)
    && LunsDistinct(s.luns)
  }

  // ---------------------------------------------------------------- effects of successful calls

  function VolumeCreated(s: State, id: Id, name: string): State {
    s.(volumes := s.volumes[id := name], issued := s.issued + {id})
  }

  function FilesystemCreated(s: State, id: Id, name: string): State {
    s.(filesystems := s.filesystems[id := name], issued := s.issued + {id})
  }

  function ExportCreated(s: State, id: Id, e: Export): State {
    s.(exports := s.exports[id := e], issued := s.issued + {id})
  }

  function Attached(s: State, id: Id, name: string): State {
    s.(metadata := s.metadata[id := name])
  }

  function Detached(s: State, id: Id): State {
    s.(metadata := s.metadata - {id})
  }

  function Mapped(s: State, host: Id, volume: Id, lun: int): State {
    s.(luns := s.luns[(host, volume) := lun])
  }

  function Unmapped(s: State, host: Id, volume: Id): State {
    s.(luns := s.luns - {(host, volume)})
  }

  /** A destroyed volume takes its metadata and whatever mappings are left with it. */
  function VolumeDestroyed(s: State, id: Id): State {
    s.(volumes := s.volumes - {id}, metadata := s.metadata - {id},
       luns := map k | k in s.luns && k.1 != id :: s.luns[k])
  }

  function FilesystemDestroyed(s: State, id: Id): State {
    s.(filesystems := s.filesystems - {id}, metadata := s.metadata - {id},
       exports := map e | e in s.exports && s.exports[e].filesystem != id :: s.exports[e])
  }

  function ExportDestroyed(s: State, id: Id): State {
    s.(exports := s.exports - {id})
  }

  function PermissionsPut(s: State, id: Id, permissions: seq<Permission>): State
    requires id in s.exports
  {
    s.(exports := s.exports[id := s.exports[id].(permissions := permissions)])
  }

  // ---------------------------------------------------------------- what the array accepts

  predicate LunTaken(s: State, host: Id, lun: int) {
    exists v :: v in s.volumes && (host, v) in s.luns && s.luns[(host, v)] == lun
  }

  predicate CanMap(s: State, host: Id, volume: Id, lun: int) {
    && host in s.hosts.Values && volume in s.volumes && (host, volume) !in s.luns
    && 0 <= lun <= MAX_LUN && !LunTaken(s, host, lun)
  }

  predicate IsMapped(s: State, volume: Id) {
    exists h :: h in s.hosts.Values && (h, volume) in s.luns
  }

  predicate IsExported(s: State, filesystem: Id) {
    exists e :: e in s.exports && s.exports[e].filesystem == filesystem
  }

  /** Arrays differ: some drop the mappings of a volume that is destroyed, some refuse. */
  predicate CanDestroyVolume(s: State, cascade: bool, id: Id) {
    id in s.volumes && (cascade || !IsMapped(s, id))
  }

  predicate CanDestroyFilesystem(s: State, cascade: bool, id: Id) {
    id in s.filesystems && (cascade || !IsExported(s, id))
  }

  lemma CreateKeepsWf(s: State, id: Id, name: string)
    requires Wf(s) && 0 < id <= MAX_ID && id !in s.issued
    ensures Wf(VolumeCreated(s, id, name)) && Wf(FilesystemCreated(s, id, name))
  {
  }

  lemma MapKeepsWf(s: State, host: Id, volume: Id, lun: int)
    requires Wf(s) && CanMap(s, host, volume, lun)
    ensures Wf(Mapped(s, host, volume, lun))
  {
  }

  lemma VolumeDestroyedWf(s: State, id: Id)
    requires Wf(s)
    ensures Wf(VolumeDestroyed(s, id))
  {
  }

  lemma FilesystemDestroyedWf(s: State, id: Id)
    requires Wf(s)
    ensures Wf(FilesystemDestroyed(s, id))
  {
  }

  lemma UnmapKeepsWf(s: State, host: Id, volume: Id)
    requires Wf(s)
    ensures Wf(Unmapped(s, host, volume))
  {
  }

  /** There is always an identifier not issued yet and a LUN not taken. */
  ghost function Bound(s: set<int>): (m: int)
    ensures m >= 0 && forall x :: x in s ==> x < m
  {
    if x :| x in s then
      var m := Bound(s - {x});
      assert forall y :: y in s ==> y == x || y in s - {x};
      if x >= m then x + 1 else m
    else 0
  }

  // ---------------------------------------------------------------- the interface

  datatype Code =
    | Fault            // transport, authentication, service unavailable, undecodable reply
    | NotFound
    | NameTaken
    | AlreadyMapped    // MAPPING_ALREADY_EXISTS
    | LunInUse
    | LunNotFound      // LUN_NOT_FOUND
    | ExportNotFound   // EXPORT_NOT_FOUND
    | StillReferenced

  datatype Reply<+T> = Ok(value: T) | Err(code: Code)

  class Array {
    var s: State
    const cascade: bool
    const pools: set<string>
    const spaces: map<string, seq<string>> // network spaces and their addresses
    ghost var faults: nat // how many calls have failed for reasons outside the array's rules

    constructor (s: State, cascade: bool, pools: set<string>, spaces: map<string, seq<string>>)
      requires Wf(s)
      ensures this.s == s && this.cascade == cascade && this.pools == pools && this.spaces == spaces
    {
      this.s, this.cascade, this.pools, this.spaces := s, cascade, pools, spaces;
      faults := 0;
    }

    /** Any call may fail at any time. */
    method Send() returns (up: bool)
      modifies this`faults
      ensures up ==> faults == old(faults)
      ensures !up ==> faults == old(faults) + 1
    {
      up := *;
      faults := if up then faults else faults + 1;
    }

    method NewId() returns (id: Id)
      requires Wf(s)
      ensures id > 0 && id !in s.issued
    {
      assert Bound(s.issued) + 1 !in s.issued;
      id :| id > 0 && id !in s.issued;
    }

    method CreateVolume(name: string) returns (r: Reply<Id>)
      requires Wf(s)
      modifies this
      ensures Wf(s)
      ensures r.Ok? ==> 0 < r.value <= MAX_ID && r.value !in old(s).issued && name !in old(s).volumes.Values
                        && s == VolumeCreated(old(s), r.value, name)
      ensures r.Err? ==> s == old(s)
      ensures faults == old(faults) + if r == Err(Fault) then 1 else 0
      ensures r.Err? && r.code != Fault ==> name in s.volumes.Values
    {
      var up := Send();
      if !up {
        return Err(Fault);
      }
      if name in s.volumes.Values {
        return Err(NameTaken);
      }
      var id := NewId();
      if id > MAX_ID {
        faults := faults + 1;
        return Err(Fault);
      }
      CreateKeepsWf(s, id, name);
      s := VolumeCreated(s, id, name);
      r := Ok(id);
    }

    method CreateFilesystem(name: string) returns (r: Reply<Id>)
      requires Wf(s)
      modifies this
      ensures Wf(s)
      ensures r.Ok? ==> 0 < r.value <= MAX_ID && r.value !in old(s).issued && name !in old(s).filesystems.Values
                        && s == FilesystemCreated(old(s), r.value, name)
      ensures r.Err? ==> s == old(s)
      ensures faults == old(faults) + if r == Err(Fault) then 1 else 0
      ensures r.Err? && r.code != Fault ==> name in s.filesystems.Values
    {
      var up := Send();
      if !up {
        return Err(Fault);
      }
      if name in s.filesystems.Values {
        return Err(NameTaken);
      }
      var id := NewId();
      if id > MAX_ID {
        faults := faults + 1;
        return Err(Fault);
      }
      CreateKeepsWf(s, id, name);
      s := FilesystemCreated(s, id, name);
      r := Ok(id);
    }

    method CreateExport(e: Export) returns (r: Reply<Id>)
      requires Wf(s)
      modifies this
      ensures Wf(s)
      ensures r.Ok? ==> 0 < r.value <= MAX_ID && r.value !in old(s).issued && s == ExportCreated(old(s), r.value, e)
      ensures r.Err? ==> s == old(s)
      ensures faults == old(faults) + if r == Err(Fault) then 1 else 0
      ensures r.Ok? || r == Err(Fault) || e.filesystem !in s.filesystems
    {
      var up := Send();
      if !up {
        return Err(Fault);
      }
      if e.filesystem !in s.filesystems {
        return Err(NotFound);
      }
      var id := NewId();
      if id > MAX_ID {
        faults := faults + 1;
        return Err(Fault);
      }
      s := ExportCreated(s, id, e);
      r := Ok(id);
    }

    method AttachMetadata(id: Id, name: string) returns (r: Reply<()>)
      requires Wf(s)
      modifies this
      ensures Wf(s)
      ensures r.Ok? ==> s == Attached(old(s), id, name)
      ensures r.Err? ==> s == old(s)
      ensures faults == old(faults) + if r == Err(Fault) then 1 else 0
      ensures r.Ok? || r == Err(Fault) || id !in s.volumes.Keys + s.filesystems.Keys
    {
      var up := Send();
      if !up {
        return Err(Fault);
      }
      if id !in s.volumes.Keys + s.filesystems.Keys {
        return Err(NotFound);
      }
      s := Attached(s, id, name);
      r := Ok(());
    }

    /** Succeeds on an existing object even if it carries no metadata. */
    method DetachMetadata(id: Id) returns (r: Reply<()>)
      requires Wf(s)
      modifies this
      ensures Wf(s)
      ensures r.Ok? ==> id in s.volumes.Keys + s.filesystems.Keys && s == Detached(old(s), id)
      ensures r.Err? ==> s == old(s)
      ensures faults == old(faults) + if r == Err(Fault) then 1 else 0
      ensures r.Ok? || r == Err(Fault) || id !in s.volumes.Keys + s.filesystems.Keys
    {
      var up := Send();
      if !up {
        return Err(Fault);
      }
      if id !in s.volumes.Keys + s.filesystems.Keys {
        return Err(NotFound);
      }
      s := Detached(s, id);
      r := Ok(());
    }

    /** Replies with the LUN: the one asked for, or one that is free on the host. */
    method MapLun(host: Id, volume: Id, lun: Option<int>) returns (r: Reply<int>)
      requires Wf(s)
      modifies this
      ensures Wf(s)
      ensures r.Ok? ==> CanMap(old(s), host, volume, r.value) && s == Mapped(old(s), host, volume, r.value)
                        && (lun.Some? ==> r.value == lun.value)
      ensures r.Err? ==> s == old(s)
      ensures faults == old(faults) + if r == Err(Fault) then 1 else 0
      ensures r == Err(AlreadyMapped) ==> (host, volume) in s.luns
      ensures r.Ok? || r == Err(Fault)
              || (if lun.Some? then !CanMap(s, host, volume, lun.value)
                  else host !in s.hosts.Values || volume !in s.volumes || (host, volume) in s.luns)
    {
      var up := Send();
      if !up {
        return Err(Fault);
      }
      if host !in s.hosts.Values || volume !in s.volumes {
        return Err(NotFound);
      }
      if (host, volume) in s.luns {
        return Err(AlreadyMapped);
      }
      assert forall k :: k in s.luns ==> s.luns[k] in s.luns.Values;
      assert !LunTaken(s, host, Bound(s.luns.Values));
      var l :| l >= 0 && !LunTaken(s, host, l);
      if lun.Some? {
        if !(0 <= lun.value <= MAX_LUN) || LunTaken(s, host, lun.value) {
          return Err(LunInUse);
        }
        l := lun.value;
      } else if l > MAX_LUN {
        faults := faults + 1;
        return Err(Fault);
      }
      MapKeepsWf(s, host, volume, l);
      s := Mapped(s, host, volume, l);
      r := Ok(l);
    }

    method UnmapLun(host: Id, volume: Id) returns (r: Reply<()>)
      requires Wf(s)
      modifies this
      ensures Wf(s)
      ensures r.Ok? ==> (host, volume) in old(s).luns && s == Unmapped(old(s), host, volume)
      ensures r.Err? ==> s == old(s)
      ensures faults == old(faults) + if r == Err(Fault) then 1 else 0
      ensures r == Err(LunNotFound) ==> (host, volume) !in s.luns
      ensures r.Ok? || r == Err(Fault) || r == Err(LunNotFound) || host !in s.hosts.Values
    {
      var up := Send();
      if !up {
        return Err(Fault);
      }
      if host !in s.hosts.Values {
        return Err(NotFound);
      }
      if (host, volume) !in s.luns {
        return Err(LunNotFound);
      }
      UnmapKeepsWf(s, host, volume);
      s := Unmapped(s, host, volume);
      r := Ok(());
    }

    method DestroyVolume(id: Id) returns (r: Reply<()>)
      requires Wf(s)
      modifies this
      ensures Wf(s)
      ensures r.Ok? ==> CanDestroyVolume(old(s), cascade, id) && s == VolumeDestroyed(old(s), id)
      ensures r.Err? ==> s == old(s)
      ensures faults == old(faults) + if r == Err(Fault) then 1 else 0
      ensures r.Ok? || r == Err(Fault) || !CanDestroyVolume(s, cascade, id)
    {
      var up := Send();
      if !up {
        return Err(Fault);
      }
      if !CanDestroyVolume(s, cascade, id) {
        return Err(StillReferenced);
      }
      VolumeDestroyedWf(s, id);
      s := VolumeDestroyed(s, id);
      r := Ok(());
    }

    method DestroyFilesystem(id: Id) returns (r: Reply<()>)
      requires Wf(s)
      modifies this
      ensures Wf(s)
      ensures r.Ok? ==> CanDestroyFilesystem(old(s), cascade, id) && s == FilesystemDestroyed(old(s), id)
      ensures r.Err? ==> s == old(s)
      ensures faults == old(faults) + if r == Err(Fault) then 1 else 0
      ensures r.Ok? || r == Err(Fault) || !CanDestroyFilesystem(s, cascade, id)
    {
      var up := Send();
      if !up {
        return Err(Fault);
      }
      if !CanDestroyFilesystem(s, cascade, id) {
        return Err(StillReferenced);
      }
      FilesystemDestroyedWf(s, id);
      s := FilesystemDestroyed(s, id);
      r := Ok(());
    }

    method DestroyExport(id: Id) returns (r: Reply<()>)
      requires Wf(s)
      modifies this
      ensures Wf(s)
      ensures r.Ok? ==> id in old(s).exports && s == ExportDestroyed(old(s), id)
      ensures r.Err? ==> s == old(s)
      ensures faults == old(faults) + if r == Err(Fault) then 1 else 0
      ensures r == Err(ExportNotFound) ==> id !in s.exports
      ensures r.Ok? || r == Err(Fault) || r == Err(ExportNotFound)
    {
      var up := Send();
      if !up {
        return Err(Fault);
      }
      if id !in s.exports {
        return Err(ExportNotFound);
      }
      s := ExportDestroyed(s, id);
      r := Ok(());
    }

    method GetExport(id: Id) returns (r: Reply<Export>)
      modifies this`faults
      ensures r.Ok? ==> id in s.exports && r.value == s.exports[id]
      ensures faults == old(faults) + if r == Err(Fault) then 1 else 0
      ensures r.Ok? || r == Err(Fault) || id !in s.exports
    {
      var up := Send();
      r := if !up then Err(Fault) else if id in s.exports then Ok(s.exports[id]) else Err(ExportNotFound);
    }

    method PutPermissions(id: Id, permissions: seq<Permission>) returns (r: Reply<()>)
      requires Wf(s)
      modifies this
      ensures Wf(s)
      ensures r.Ok? ==> id in old(s).exports && s == PermissionsPut(old(s), id, permissions)
      ensures r.Err? ==> s == old(s)
      ensures faults == old(faults) + if r == Err(Fault) then 1 else 0
      ensures r.Ok? || r == Err(Fault) || id !in s.exports
    {
      var up := Send();
      if !up {
        return Err(Fault);
      }
      if id !in s.exports {
        return Err(ExportNotFound);
      }
      s := PermissionsPut(s, id, permissions);
      r := Ok(());
    }

    /** The host of that name, if the administrator registered one. */
    method FindHost(name: string) returns (r: Reply<Option<Id>>)
      modifies this`faults
      ensures r.Ok? ==> r.value == if name in s.hosts then Some(s.hosts[name]) else None
      ensures r.Err? ==> r == Err(Fault)
      ensures faults == old(faults) + if r.Err? then 1 else 0
    {
      var up := Send();
      r := if !up then Err(Fault) else Ok(if name in s.hosts then Some(s.hosts[name]) else None);
    }

    method FindPool(name: string) returns (r: Reply<()>)
      modifies this`faults
      ensures r.Ok? ==> name in pools
      ensures faults == old(faults) + if r == Err(Fault) then 1 else 0
      ensures r.Ok? || r == Err(Fault) || name !in pools
    {
      var up := Send();
      r := if !up then Err(Fault) else if name in pools then Ok(()) else Err(NotFound);
    }

    method FindSpace(name: string) returns (r: Reply<seq<string>>)
      modifies this`faults
      ensures r.Ok? ==> name in spaces && r.value == spaces[name]
      ensures faults == old(faults) + if r == Err(Fault) then 1 else 0
      ensures r.Ok? || r == Err(Fault) || name !in spaces
    {
      var up := Send();
      r := if !up then Err(Fault) else if name in spaces then Ok(spaces[name]) else Err(NotFound);
    }

    method CountVolumes() returns (r: Reply<nat>)
      modifies this`faults
      ensures r.Ok? ==> r.value == |s.volumes|
      ensures faults == old(faults) + if r.Err? then 1 else 0
    {
      var up := Send();
      r := if up then Ok(|s.volumes|) else Err(Fault);
    }

    method CountFilesystems() returns (r: Reply<nat>)
      modifies this`faults
      ensures r.Ok? ==> r.value == |s.filesystems|
      ensures faults == old(faults) + if r.Err? then 1 else 0
    {
      var up := Send();
      r := if up then Ok(|s.filesystems|) else Err(Fault);
    }
  }
}
