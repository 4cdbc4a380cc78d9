/**
  The machine of StorageRuns and the methods of the provisioners say the same: an operation
  that is not disturbed ends, call by call, where the method's contract says.
*/
module StorageLinks {
  import opened Commons
  import opened StorageArray
  import opened StorageRuns
  import opened StorageSteps
  import Blocks = BlockProvisioner
  import Files = NfsProvisioner

  /** All calls of a script, each taking effect. */
  function Run(s: State, a: Asset, script: seq<Todo>): State
    decreases |script|
  {
    if script == [] then s else Run(Effect(s, a, script[0].call), a, script[1..])
  }

  function Ids(hosts: seq<Id>): set<Id> {
    set h | h in hosts
  }

  lemma {:induction false} RunUnmaps(s: State, a: Asset, hosts: seq<Id>, strict: bool, rest: seq<Todo>)
    ensures Run(s, a, Unmaps(hosts, strict) + rest)
         == Run(s.(luns := Blocks.UnmapAll(s.luns, Ids(hosts), a.id)), a, rest)
    decreases |hosts|
  {
    if hosts == [] {
      assert Unmaps(hosts, strict) + rest == rest;
      assert Blocks.UnmapAll(s.luns, Ids(hosts), a.id) == s.luns;
    } else {
      var script := Unmaps(hosts, strict) + rest;
      assert script[1..] == Unmaps(hosts[1..], strict) + rest;
      var s1 := Unmapped(s, hosts[0], a.id);
      RunUnmaps(s1, a, hosts[1..], strict, rest);
      assert Ids(hosts) == Ids(hosts[1..]) + {hosts[0]};
      assert Blocks.UnmapAll(s1.luns, Ids(hosts[1..]), a.id) == Blocks.UnmapAll(s.luns, Ids(hosts), a.id);
    }
  }

  lemma RunOne(s: State, a: Asset, call: Call, strict: bool, rest: seq<Todo>)
    ensures Run(s, a, [Todo(call, strict)] + rest) == Run(Effect(s, a, call), a, rest)
    ensures Run(s, a, [Todo(call, strict)]) == Effect(s, a, call)
  {
    assert ([Todo(call, strict)] + rest)[1..] == rest;
  }

  /** What Delete of a block volume promises on success: only the volume and its entries are gone. */
  lemma DeletingABlockVolume(s: State, a: Asset, hosts: seq<Id>)
    requires a.source != Nfs
    ensures Run(s, a, DeleteScript(a, hosts)) == VolumeDestroyed(s, a.id)
  {
    var last := [Todo(Destroy, true)];
    assert DeleteScript(a, hosts) == [Todo(Detach, true)] + (Unmaps(hosts, true) + last);
    RunOne(s, a, Detach, true, Unmaps(hosts, true) + last);
    var s1 := Detached(s, a.id);
    RunUnmaps(s1, a, hosts, true, last);
    RunOne(s1.(luns := Blocks.UnmapAll(s1.luns, Ids(hosts), a.id)), a, Destroy, true, []);
    Blocks.DestroyAfterUnmap(s, Ids(hosts), a.id);
  }

  lemma DeletingAFilesystem(s: State, a: Asset, hosts: seq<Id>)
    requires a.source == Nfs && Files.OwnExport(s, a.id, a.exportId)
    ensures Run(s, a, DeleteScript(a, hosts)) == FilesystemDestroyed(s, a.id)
  {
    RunOne(s, a, Unexport(a.exportId), true, [Todo(Detach, true), Todo(Destroy, true)]);
    var s1 := ExportDestroyed(s, a.exportId);
    RunOne(s1, a, Detach, true, [Todo(Destroy, true)]);
    RunOne(Detached(s1, a.id), a, Destroy, true, []);
    assert DeleteScript(a, hosts) == [Todo(Unexport(a.exportId), true)] + [Todo(Detach, true), Todo(Destroy, true)];
    assert [Todo(Detach, true), Todo(Destroy, true)] == [Todo(Detach, true)] + [Todo(Destroy, true)];
    Files.DeletedAll(s, a.id, a.exportId);
  }

  /** The deferred calls of a block volume undo it, whichever were registered. */
  lemma RollingBackABlockVolume(s: State, a: Asset, hosts: seq<Id>, mapped: bool, attached: bool, current: seq<Id>)
    requires a.source != Nfs
    ensures Run(s, a, RollbackScript(a, hosts, mapped, attached, current)) == VolumeDestroyed(s, a.id)
  {
    var last := if a.source == Iscsi then [Todo(Destroy, true)] else DeleteScript(a, current);
    var s1 := s.(luns := Blocks.UnmapAll(s.luns, Ids(hosts), a.id));
    if mapped {
      RunUnmaps(s, a, hosts, false, last);
    } else {
      assert [] + last == last;
    }
    if a.source == Iscsi {
      RunOne(s, a, Destroy, true, []);
      RunOne(s1, a, Destroy, true, []);
    } else {
      DeletingABlockVolume(s, a, current);
      DeletingABlockVolume(s1, a, current);
    }
    Blocks.DestroyAfterUnmap(s, Ids(hosts), a.id);
  }

  // ---------------------------------------------------------------- undisturbed provisioning

  ghost predicate DistinctIds(hosts: seq<Id>) {
    forall i, j :: 0 <= i < j < |hosts| ==> hosts[i] != hosts[j]
  }

  ghost predicate CanMapRest(s: State, op: Op, l: int)
    requires op.Mapping?
  {
    && l >= 0 && op.k <= |op.hosts| && DistinctIds(op.hosts) && (if op.k == 0 then op.lun == -1 else op.lun == l)
    && forall i :: op.k <= i < |op.hosts| ==> CanMap(s, op.hosts[i], op.id, l)
  }

  lemma OneMapped(p: Params, w: World, n: string, op: Op, l: int) returns (run: seq<Step>, w1: World)
    requires n in w.ops && w.ops[n] == op && op.Mapping? && CanMapRest(w.s, op, l) && op.k < |op.hosts|
    ensures IsRun(p, w, run) && After(p, w, run) == w1
    ensures n in w1.ops && w1.ops[n] == op.(k := op.k + 1, lun := l) && CanMapRest(w1.s, w1.ops[n], l)
    ensures w1.s == Mapped(w.s, op.hosts[op.k], op.id, l)
  {
    var step := By(n, MapNext(true, l, []));
    Single(p, w, step);
    run, w1 := [step], Apply(p, w, step);
    forall i | op.k < i < |op.hosts| ensures CanMap(w1.s, op.hosts[i], op.id, l) {
      StillFree(w.s, op.hosts[op.k], op.hosts[i], op.id, l);
    }
  }

  ghost predicate RestMapped(s: State, w': World, n: string, op: Op, l: int)
    requires op.Mapping? && op.k <= |op.hosts|
  {
    && n in w'.ops && w'.ops[n] == Mapping(op.source, op.id, op.hosts, |op.hosts|, if op.hosts == [] then -1 else l)
    && w'.s == s.(luns := Blocks.MapAll(s.luns, Ids(op.hosts[op.k..]), op.id, l))
  }

  lemma OneMoreMapped(s: State, w': World, n: string, op: Op, l: int)
    requires op.Mapping? && op.k < |op.hosts|
    requires RestMapped(Mapped(s, op.hosts[op.k], op.id, l), w', n, op.(k := op.k + 1, lun := l), l)
    ensures RestMapped(s, w', n, op, l)
  {
    RestOfHosts(op.hosts, op.k);
    var one := s.luns[(op.hosts[op.k], op.id) := l];
    var luns := MapOneMore(s.luns, one, op.hosts[op.k], Ids(op.hosts[op.k + 1..]), Ids(op.hosts[op.k..]), op.id, l);
    assert w'.s.luns == luns;
  }

  lemma NoneLeft(w: World, n: string, op: Op, l: int)
    requires n in w.ops && w.ops[n] == op && op.Mapping? && CanMapRest(w.s, op, l) && op.k == |op.hosts|
    ensures RestMapped(w.s, w, n, op, l)
  {
    Blocks.MapNone(w.s.luns, op.id, l);
    assert Ids(op.hosts[op.k..]) == {};
  }

  /** The remaining hosts are mapped one after the other, all at the same LUN. */
  lemma {:induction false} MapsTheRest(p: Params, w: World, n: string, op: Op, l: int) returns (run: seq<Step>, w': World)
    requires n in w.ops && w.ops[n] == op && op.Mapping? && CanMapRest(w.s, op, l)
    ensures IsRun(p, w, run) && After(p, w, run) == w' && RestMapped(w.s, w', n, op, l)
    decreases |op.hosts| - op.k
  {
    if op.k == |op.hosts| {
      NoneLeft(w, n, op, l);
      run, w' := [], w;
    } else {
      var first, w1 := OneMapped(p, w, n, op, l);
      var rest;
      rest, w' := MapsTheRest(p, w1, n, w1.ops[n], l);
      OneMoreMapped(w.s, w', n, op, l);
      Joined(p, w, first, rest);
      run := first + rest;
    }
  }

  lemma RestOfHosts(hosts: seq<Id>, k: nat)
    requires k < |hosts|
    ensures Ids(hosts[k..]) == {hosts[k]} + Ids(hosts[k + 1..])
  {
    assert hosts[k..] == [hosts[k]] + hosts[k + 1..];
  }

  lemma StillFree(s: State, host: Id, other: Id, id: Id, l: int)
    requires CanMap(s, other, id, l) && host != other
    ensures CanMap(Mapped(s, host, id, l), other, id, l)
  {
  }

  lemma MapOneMore(luns: map<(Id, Id), int>, one: map<(Id, Id), int>, host: Id, rest: set<Id>, hs: set<Id>, id: Id, l: int)
    returns (all: map<(Id, Id), int>)
    requires one == luns[(host, id) := l] && hs == {host} + rest
    ensures all == Blocks.MapAll(one, rest, id, l) == Blocks.MapAll(luns, hs, id, l)
  {
    all := Blocks.MapAll(one, rest, id, l);
    assert all == Blocks.MapAll(luns, hs, id, l);
  }

  /**
    Undisturbed, the calls for a block volume leave exactly the asset that Provision promises,
    ready to be saved with the LUN all hosts have.
  */
  lemma ProvisioningABlockVolume(p: Params, w: World, n: string, source: Source, id: Id, hosts: seq<Id>, l: int)
    returns (run: seq<Step>)
    requires source != Nfs && n !in w.saved && n !in w.ops && Wf(w.s) && 0 < id <= MAX_ID && id !in w.s.issued
    requires hosts != [] && DistinctIds(hosts) && 0 <= l <= MAX_LUN
    requires forall h :: h in hosts ==> h in w.s.hosts.Values && !LunTaken(w.s, h, l)
    ensures IsRun(p, w, run)
    ensures var w' := After(p, w, run);
      && w'.s == Blocks.Asset(w.s, id, n, Ids(hosts), l)
      && n in w'.ops && w'.ops[n] == Saving(Asset(source, id, l, 0), p.retries)
  {
    var w1;
    run, w1 := BlockStart(p, w, n, source, id, hosts, l);
    var maps, w2 := MapsTheRest(p, w1, n, w1.ops[n], l);
    Joined(p, w, run, maps);
    assert hosts[0..] == hosts;
    run, w2 := Go(p, w, run + maps, w2, By(n, MapDone([])));
    run, w2 := Go(p, w, run, w2, By(n, Attach(true, [], false)));
  }

  lemma BlockStart(p: Params, w: World, n: string, source: Source, id: Id, hosts: seq<Id>, l: int)
    returns (run: seq<Step>, w1: World)
    requires source != Nfs && n !in w.saved && n !in w.ops && Wf(w.s) && 0 < id <= MAX_ID && id !in w.s.issued
    requires DistinctIds(hosts) && 0 <= l <= MAX_LUN
    requires forall h :: h in hosts ==> h in w.s.hosts.Values && !LunTaken(w.s, h, l)
    ensures IsRun(p, w, run) && After(p, w, run) == w1
    ensures n in w1.ops && w1.ops[n] == Mapping(source, id, hosts, 0, -1) && w1.s == VolumeCreated(w.s, id, n) && CanMapRest(w1.s, w1.ops[n], l)
  {
    w1 := w;
    run := [];
    run, w1 := Go(p, w, run, w1, By(n, StartProvision(source)));
    run, w1 := Go(p, w, run, w1, By(n, Create(true, id, hosts)));
    forall i | 0 <= i < |hosts| ensures CanMap(w1.s, hosts[i], id, l) {
      assert hosts[i] in hosts;
      FreshCanBeMapped(w.s, id, n, hosts[i], l);
    }
  }

  lemma FreshCanBeMapped(s: State, id: Id, name: string, host: Id, l: int)
    requires Wf(s) && id !in s.issued && host in s.hosts.Values && 0 <= l <= MAX_LUN && !LunTaken(s, host, l)
    ensures CanMap(VolumeCreated(s, id, name), host, id, l)
  {
    var s1 := VolumeCreated(s, id, name);
    forall v | v in s1.volumes && (host, v) in s1.luns ensures s1.luns[(host, v)] != l {
      assert v in s.volumes;
    }
  }

  /** The same for NFS: filesystem, export and metadata, ready to be saved. */
  lemma ProvisioningAFilesystem(p: Params, w: World, n: string, id: Id, exported: Option<Id>, x: StorageArray.Export)
    returns (run: seq<Step>)
    requires n !in w.saved && n !in w.ops && 0 < id <= MAX_ID && id !in w.s.issued && x.filesystem == id
    requires exported.Some? ==> 0 < exported.value <= MAX_ID && exported.value !in w.s.issued && exported.value != id
    ensures IsRun(p, w, run)
    ensures var w' := After(p, w, run);
      && w'.s == Files.Asset(w.s, id, n, exported, x)
      && n in w'.ops && w'.ops[n] == Saving(Asset(Nfs, id, 0, exported.GetOr(0)), p.retries)
  {
    var w1 := w;
    run := [];
    run, w1 := Go(p, w, run, w1, By(n, StartProvision(Nfs)));
    run, w1 := Go(p, w, run, w1, By(n, Create(true, id, [])));
    run, w1 := Go(p, w, run, w1, By(n, Action.Export(true, exported.GetOr(0), exported.None?, x)));
    run, w1 := Go(p, w, run, w1, By(n, Attach(true, [], false)));
    run, w1 := Go(p, w, run, w1, By(n, Serve(true)));
    Files.AssetInSteps(w.s, id, n, exported, x);
  }
}
