/**
  What holds between any two steps of any run: the array is consistent, every mapping is at
  the LUN of its volume's first mapping, every object has somebody answering for it, and what
  each claim's operation and volume object rely on is there.
*/
module StorageInvariant {
  import opened Commons
  import opened FailureCounts
  import opened StorageArray
  import opened StorageRuns

  // ---------------------------------------------------------------- the invariant

  function OpId(op: Op): Option<Id> {
    match op
    case Creating(_) => None
    case Mapping(_, id, _, _, _) => Some(id)
    case Exporting(id) => Some(id)
    case Attaching(a, _) => Some(a.id)
    case Serving(a) => Some(a.id)
    case Saving(a, _) => Some(a.id)
    case TearingDown(a, _, _) => Some(a.id)
    case Removing(a) => Some(a.id)
  }

  /** Somebody answers for the object: a volume object, an operation, an event, or a failed compensation. */
  ghost predicate Owned(w: World, id: Id) {
    || id in w.foreign || id in w.reported || id in w.lost
    || (id in w.owner
        && var n := w.owner[id];
           || (n in w.saved && w.saved[n].id == id)
           || (n in w.ops && OpId(w.ops[n]) == Some(id)))
  }

  ghost predicate Conserved(w: World) {
    forall id :: Live(w.s, id) ==> Owned(w, id)
  }

  /** Every mapping is at the LUN the volume's first mapping got. */
  ghost predicate OneLun(w: World) {
    forall h: Id, v: Id :: (h, v) in w.s.luns && v !in w.foreign ==> v in w.lunOf && w.s.luns[(h, v)] == w.lunOf[v]
  }

  predicate LunKnown(w: World, a: Asset) {
    a.source != Nfs ==> a.id in w.lunOf && w.lunOf[a.id] == a.lun
  }

  predicate Exists(s: State, a: Asset) {
    if a.source == Nfs then a.id in s.filesystems else a.id in s.volumes
  }

  /** An export recorded in an asset belongs to it or is gone. */
  predicate ExportOwn(s: State, a: Asset) {
    a.exportId in s.exports ==> a.source == Nfs && s.exports[a.exportId].filesystem == a.id
  }

  /** A filesystem has no export but this one. */
  ghost predicate OnlyExport(s: State, filesystem: Id, exportId: Id) {
    forall e :: e in s.exports && s.exports[e].filesystem == filesystem ==> e == exportId
  }

  /** The object, its metadata and its export. */
  predicate Full(s: State, a: Asset) {
    Exists(s, a) && a.id in s.metadata && (a.source == Nfs && a.exportId != 0 ==> a.exportId in s.exports)
  }

  ghost predicate ScriptInv(s: State, a: Asset, script: seq<Todo>, why: Why) {
    && (forall k :: 0 <= k < |script| && script[k].call.Unexport? ==> script[k].call.e == a.exportId)
    && (!why.Rollback? ==> if script == [] then !Live(s, a.id) else script[|script| - 1] == Todo(Destroy, true))
  }

  ghost predicate AssetInv(w: World, n: string, a: Asset) {
    && a.id in w.owner && w.owner[a.id] == n && ExportOwn(w.s, a) && (a.exportId != 0 ==> a.exportId in w.s.issued)
    && (Live(w.s, a.id) ==> Exists(w.s, a)) && OnlyExport(w.s, a.id, a.exportId)
  }

  ghost predicate OpInv(w: World, n: string, op: Op) {
    match op
    case Creating(_) => n !in w.saved
    case Mapping(source, id, hosts, k, lun) =>
      && n !in w.saved && source != Nfs && id in w.owner && w.owner[id] == n && k <= |hosts| && id in w.s.volumes
      && (if lun == -1 then id !in w.lunOf else id in w.lunOf && w.lunOf[id] == lun)
    case Exporting(id) =>
      n !in w.saved && id in w.owner && w.owner[id] == n && id in w.s.filesystems && OnlyExport(w.s, id, 0)
    case Attaching(a, _) => n !in w.saved && AssetInv(w, n, a) && LunKnown(w, a) && Exists(w.s, a) && HasExport(w.s, a)
    case Serving(a) => n !in w.saved && AssetInv(w, n, a) && LunKnown(w, a) && Full(w.s, a)
    case Saving(a, _) => n !in w.saved && AssetInv(w, n, a) && LunKnown(w, a) && Full(w.s, a)
    case TearingDown(a, script, why) =>
      && AssetInv(w, n, a) && ScriptInv(w.s, a, script, why)
      && (if why.Deletion? then n in w.saved && w.saved[n] == a && n in w.eligible else n !in w.saved)
    case Removing(a) => AssetInv(w, n, a) && n in w.saved && w.saved[n] == a && n in w.eligible && !Live(w.s, a.id)
  }

  predicate HasExport(s: State, a: Asset) {
    a.source == Nfs && a.exportId != 0 ==> a.exportId in s.exports
  }

  /** What concerns one claim. */
  ghost predicate ClaimInv(w: World, n: string) {
    && (n in w.ops ==> OpInv(w, n, w.ops[n]))
    && (n in w.saved ==>
          && AssetInv(w, n, w.saved[n]) && w.saved[n] in w.ever
          && (n !in w.eligible ==> Full(w.s, w.saved[n])))
  }

  ghost predicate History(w: World) {
    && w.lunOf.Keys <= w.owner.Keys <= w.s.issued
    && w.foreign !! w.owner.Keys && w.foreign <= w.s.issued
    && forall a :: a in w.ever ==> a.id in w.owner && LunKnown(w, a)
  }

  ghost predicate Inv(w: World) {
    && Wf(w.s) && History(w) && OneLun(w) && Conserved(w)
    && forall n :: ClaimInv(w, n)
  }

  // ---------------------------------------------------------------- what one step leaves alone

  ghost predicate SameFor(s: State, s': State, id: Id) {
    && (id in s'.volumes <==> id in s.volumes) && (id in s'.filesystems <==> id in s.filesystems)
    && (id in s'.metadata <==> id in s.metadata)
    && (forall e :: e in s.exports && s.exports[e].filesystem == id ==> e in s'.exports)
  }

  /** Only the object `id` is created, changed or destroyed. */
  ghost predicate Touches(s: State, s': State, id: Id) {
    && s.issued <= s'.issued
    && (forall i :: i != id ==> SameFor(s, s', i))
    && (forall e :: e in s'.exports ==>
          if e in s.exports then s'.exports[e].filesystem == s.exports[e].filesystem
          else e !in s.issued && s'.exports[e].filesystem == id)
  }

  lemma CreateTouches(s: State, id: Id, name: string)
    requires Wf(s) && id !in s.issued
    ensures Touches(s, VolumeCreated(s, id, name), id) && Touches(s, FilesystemCreated(s, id, name), id)
  {
  }

  lemma MapTouches(s: State, host: Id, id: Id, lun: int)
    requires Wf(s)
    ensures Touches(s, Mapped(s, host, id, lun), id)
  {
  }

  lemma DestroyTouches(s: State, id: Id)
    requires Wf(s)
    ensures Wf(VolumeDestroyed(s, id)) && Touches(s, VolumeDestroyed(s, id), id)
    ensures Wf(FilesystemDestroyed(s, id)) && Touches(s, FilesystemDestroyed(s, id), id)
  {
    VolumeDestroyedWf(s, id);
    FilesystemDestroyedWf(s, id);
  }

  lemma UnexportTouches(s: State, a: Asset)
    requires Wf(s) && ExportOwn(s, a)
    ensures Wf(ExportDestroyed(s, a.exportId)) && Touches(s, ExportDestroyed(s, a.exportId), a.id)
  {
  }

  lemma EffectTouches(s: State, a: Asset, call: Call)
    requires Wf(s) && ExportOwn(s, a) && (call.Unexport? ==> call.e == a.exportId)
    ensures Wf(Effect(s, a, call)) && Touches(s, Effect(s, a, call), a.id)
  {
    match call
    case Detach =>
    case Unmap(h) => UnmapKeepsWf(s, h, a.id);
    case Unexport(e) => UnexportTouches(s, a);
    case Destroy => DestroyTouches(s, a.id);
  }

  lemma EffectShrinks(s: State, a: Asset, call: Call)
    ensures forall k :: k in Effect(s, a, call).luns ==> k in s.luns && Effect(s, a, call).luns[k] == s.luns[k]
    ensures Live(Effect(s, a, call), a.id) ==> Live(s, a.id)
  {
  }

  ghost predicate Grows(w: World, w': World) {
    && w.ever <= w'.ever && w.foreign == w'.foreign && w.reported <= w'.reported && w.lost <= w'.lost
    && (forall i :: i in w.owner ==> i in w'.owner && w'.owner[i] == w.owner[i])
    && (forall i :: i in w.lunOf ==> i in w'.lunOf && w'.lunOf[i] == w.lunOf[i])
  }

  /** Everything of other claims is as before; `id` is the object of the claim that moves. */
  ghost predicate Local(w: World, w': World, n: string, id: Id) {
    && Grows(w, w') && Touches(w.s, w'.s, id)
    && (id in w.owner ==> w.owner[id] == n)
    && (forall i :: i != id && i !in w.lunOf ==> i !in w'.lunOf)
    && (forall m :: m != n ==> (m in w'.ops <==> m in w.ops) && (m in w'.saved <==> m in w.saved)
                               && (m in w'.eligible <==> m in w.eligible))
    && (forall m :: m != n && m in w.ops ==> w'.ops[m] == w.ops[m])
    && (forall m :: m != n && m in w.saved ==> w'.saved[m] == w.saved[m])
  }

  lemma AssetKept(w: World, w': World, n: string, a: Asset, id: Id)
    requires Grows(w, w') && Touches(w.s, w'.s, id) && AssetInv(w, n, a) && Wf(w'.s) && a.id != id
    ensures AssetInv(w', n, a)
    ensures Exists(w.s, a) ==> Exists(w'.s, a)
    ensures Full(w.s, a) ==> Full(w'.s, a)
    ensures HasExport(w.s, a) ==> HasExport(w'.s, a)
    ensures Live(w.s, a.id) <==> Live(w'.s, a.id)
  {
    assert SameFor(w.s, w'.s, a.id);
    assert 0 !in w'.s.exports;
  }

  lemma OpKept(w: World, w': World, m: string, op: Op, n: string, id: Id)
    requires Local(w, w', n, id) && m != n && Wf(w'.s) && OpInv(w, m, op)
    ensures OpInv(w', m, op)
  {
    match op
    case Creating(_) =>
    case Mapping(_, i, _, _, _) => assert SameFor(w.s, w'.s, i);
    case Exporting(i) => assert SameFor(w.s, w'.s, i);
    case Attaching(a, _) => AssetKept(w, w', m, a, id);
    case Serving(a) => AssetKept(w, w', m, a, id);
    case Saving(a, _) => AssetKept(w, w', m, a, id);
    case TearingDown(a, _, _) => AssetKept(w, w', m, a, id);
    case Removing(a) => AssetKept(w, w', m, a, id);
  }

  lemma OthersKept(w: World, w': World, n: string, id: Id, m: string)
    requires Local(w, w', n, id) && m != n && Wf(w'.s) && ClaimInv(w, m)
    ensures ClaimInv(w', m)
  {
    if m in w.ops {
      OpKept(w, w', m, w.ops[m], n, id);
    }
    if m in w.saved {
      AssetKept(w, w', m, w.saved[m], id);
    }
  }

  /** The claim that moves still answers for its object, or somebody else does now. */
  lemma StillConserved(w: World, w': World, n: string, id: Id)
    requires Local(w, w', n, id) && Conserved(w)
    requires n in w.ops ==> OpId(w.ops[n]) in {None, Some(id)}
    requires n in w.saved ==> w.saved[n].id == id
    requires Live(w'.s, id) ==> Owned(w', id)
    ensures Conserved(w')
  {
    forall i | Live(w'.s, i) ensures Owned(w', i) {
      if i != id {
        assert SameFor(w.s, w'.s, i);
        assert Live(w.s, i) && Owned(w, i);
      }
    }
  }

  /** Assembles the invariant after a step of claim `n` on object `id`. */
  lemma Assemble(w: World, w': World, n: string, id: Id)
    requires Inv(w) && Local(w, w', n, id) && Wf(w'.s) && History(w') && OneLun(w') && ClaimInv(w', n)
    requires n in w.ops ==> OpId(w.ops[n]) in {None, Some(id)}
    requires n in w.saved ==> w.saved[n].id == id
    requires Live(w'.s, id) ==> Owned(w', id)
    ensures Inv(w')
  {
    StillConserved(w, w', n, id);
    forall m ensures ClaimInv(w', m) {
      if m != n {
        OthersKept(w, w', n, id, m);
      }
    }
  }

  // ---------------------------------------------------------------- steps that change no object

  /** Operations are the only thing an invariant of one claim asks of `ops`. */
  lemma SameClaims(w: World, w': World, n: string)
    requires Inv(w) && w' == w.(ops := w'.ops, reported := w'.reported, lost := w'.lost)
    requires forall m :: m != n ==> (m in w'.ops <==> m in w.ops) && (m in w.ops ==> w'.ops[m] == w.ops[m])
    requires n in w'.ops ==> OpInv(w, n, w'.ops[n])
    ensures forall m :: ClaimInv(w', m)
  {
    forall m ensures ClaimInv(w', m) {
      assert ClaimInv(w, m);
      if m in w'.ops {
        assert OpInv(w, m, w'.ops[m]);
      }
    }
  }

  /** The operation of a claim goes on with the same object. */
  lemma MoveInv(w: World, n: string, op: Op)
    requires Inv(w) && n in w.ops && OpId(w.ops[n]) == OpId(op) && OpInv(w, n, op)
    ensures Inv(With(w, n, op))
  {
    var w' := With(w, n, op);
    SameClaims(w, w', n);
    forall i | Live(w'.s, i) ensures Owned(w', i) {
      assert Owned(w, i);
    }
  }

  /** The operation of a claim ends, and somebody else answers for the object if it is still there. */
  lemma LeaveInv(w: World, n: string, id: Id, reported: set<Id>, lost: set<Id>)
    requires Inv(w) && n in w.ops && OpId(w.ops[n]) == Some(id) && w.reported <= reported && w.lost <= lost
    requires Live(w.s, id) ==> id in reported || id in lost || (n in w.saved && w.saved[n].id == id)
    ensures Inv(End(w, n).(reported := reported, lost := lost))
  {
    var w' := End(w, n).(reported := reported, lost := lost);
    SameClaims(w, w', n);
    assert ClaimInv(w, n);
    forall i | Live(w'.s, i) ensures Owned(w', i) {
      assert Owned(w, i);
    }
  }

  lemma RollbackScriptInv(s: State, a: Asset, hosts: seq<Id>, mapped: bool, attached: bool, current: seq<Id>)
    ensures ScriptInv(s, a, RollbackScript(a, hosts, mapped, attached, current), Rollback)
  {
    DeleteScriptInv(s, a, current, Deletion);
  }

  lemma RollBackInv(w: World, n: string, a: Asset, hosts: seq<Id>, mapped: bool, attached: bool, current: seq<Id>)
    requires Inv(w) && n in w.ops && OpId(w.ops[n]) == Some(a.id) && n !in w.saved && AssetInv(w, n, a)
    ensures Inv(RollBack(w, n, a, hosts, mapped, attached, current))
  {
    RollbackScriptInv(w.s, a, hosts, mapped, attached, current);
    MoveInv(w, n, TearingDown(a, RollbackScript(a, hosts, mapped, attached, current), Rollback));
  }

  lemma DeleteScriptInv(s: State, a: Asset, hosts: seq<Id>, why: Why)
    ensures ScriptInv(s, a, DeleteScript(a, hosts), why)
  {
  }

  lemma StartInv(w: World, n: string, op: Op)
    requires Inv(w) && n !in w.ops && OpInv(w, n, op)
    ensures Inv(With(w, n, op))
  {
    var w' := With(w, n, op);
    SameClaims(w, w', n);
    forall i | Live(w'.s, i) ensures Owned(w', i) {
      assert Owned(w, i);
    }
  }

  // ---------------------------------------------------------------- provisioning steps

  lemma StartProvisionInv(p: Params, w: World, n: string, source: Source)
    requires Inv(w) && Enabled(p, w, By(n, StartProvision(source)))
    ensures Inv(Apply(p, w, By(n, StartProvision(source))))
  {
    StartInv(w, n, Creating(source));
  }

  /** A new identifier is the claim's own from the start. */
  lemma NewId(w: World, s': State, n: string, id: Id, op: Op)
    requires Inv(w) && n in w.ops && id !in w.s.issued && s'.issued == w.s.issued + {id} && Touches(w.s, s', id)
    requires s'.luns == w.s.luns
    ensures var w' := With(w, n, op).(s := s', owner := w.owner[id := n]);
      Local(w, w', n, id) && History(w') && OneLun(w')
    ensures id !in w.owner && id !in w.lunOf
  {
  }

  lemma VolumeMade(w: World, n: string, source: Source, id: Id, hosts: seq<Id>)
    requires Inv(w) && n in w.ops && w.ops[n] == Creating(source) && source != Nfs && 0 < id <= MAX_ID && id !in w.s.issued
    ensures Inv(With(w, n, Mapping(source, id, hosts, 0, -1)).(s := VolumeCreated(w.s, id, n), owner := w.owner[id := n]))
  {
    var w' := With(w, n, Mapping(source, id, hosts, 0, -1)).(s := VolumeCreated(w.s, id, n), owner := w.owner[id := n]);
    CreateKeepsWf(w.s, id, n);
    CreateTouches(w.s, id, n);
    NewId(w, w'.s, n, id, w'.ops[n]);
    assert ClaimInv(w', n) by {
      assert ClaimInv(w, n);
    }
    Assemble(w, w', n, id);
  }

  lemma FilesystemMade(w: World, n: string, id: Id)
    requires Inv(w) && n in w.ops && w.ops[n] == Creating(Nfs) && 0 < id <= MAX_ID && id !in w.s.issued
    ensures Inv(With(w, n, Exporting(id)).(s := FilesystemCreated(w.s, id, n), owner := w.owner[id := n]))
  {
    var w' := With(w, n, Exporting(id)).(s := FilesystemCreated(w.s, id, n), owner := w.owner[id := n]);
    CreateKeepsWf(w.s, id, n);
    CreateTouches(w.s, id, n);
    NewId(w, w'.s, n, id, w'.ops[n]);
    assert ClaimInv(w', n) by {
      assert ClaimInv(w, n);
    }
    Assemble(w, w', n, id);
  }

  lemma CreateInv(p: Params, w: World, n: string, ok: bool, id: Id, hosts: seq<Id>)
    requires Inv(w) && Enabled(p, w, By(n, Create(ok, id, hosts)))
    ensures Inv(Apply(p, w, By(n, Create(ok, id, hosts))))
  {
    var op := w.ops[n];
    if !ok {
      NothingMade(w, n);
    } else if op.source == Nfs {
      FilesystemMade(w, n, id);
    } else {
      VolumeMade(w, n, op.source, id, hosts);
    }
  }

  lemma NothingMade(w: World, n: string)
    requires Inv(w) && n in w.ops && w.ops[n].Creating?
    ensures Inv(End(w, n))
  {
    var w' := End(w, n);
    SameClaims(w, w', n);
    assert ClaimInv(w, n);
    forall i | Live(w'.s, i) ensures Owned(w', i) {
      assert Owned(w, i);
    }
  }

  lemma MappedOne(w: World, n: string, l: int)
    requires Inv(w) && n in w.ops && w.ops[n].Mapping? && w.ops[n].k < |w.ops[n].hosts|
    requires w.ops[n].lun in {-1, l} && CanMap(w.s, w.ops[n].hosts[w.ops[n].k], w.ops[n].id, l)
    ensures var op := w.ops[n];
      Inv(With(w, n, op.(k := op.k + 1, lun := l)).(
        s := Mapped(w.s, op.hosts[op.k], op.id, l),
        lunOf := if op.lun == -1 then w.lunOf[op.id := l] else w.lunOf))
  {
    var op := w.ops[n];
    var w' := With(w, n, op.(k := op.k + 1, lun := l)).(
      s := Mapped(w.s, op.hosts[op.k], op.id, l),
      lunOf := if op.lun == -1 then w.lunOf[op.id := l] else w.lunOf);
    assert ClaimInv(w, n);
    MapKeepsWf(w.s, op.hosts[op.k], op.id, l);
    MapTouches(w.s, op.hosts[op.k], op.id, l);
    assert Local(w, w', n, op.id);
    assert History(w') && OneLun(w');
    Assemble(w, w', n, op.id);
  }

  lemma MapNextInv(p: Params, w: World, n: string, ok: bool, free: int, current: seq<Id>)
    requires Inv(w) && Enabled(p, w, By(n, MapNext(ok, free, current)))
    ensures Inv(Apply(p, w, By(n, MapNext(ok, free, current))))
  {
    var op := w.ops[n];
    if ok {
      MappedOne(w, n, Wanted(op, free));
    } else {
      assert ClaimInv(w, n) && 0 !in w.s.exports;
      RollBackInv(w, n, Asset(op.source, op.id, op.lun, 0), op.hosts, false, false, current);
    }
  }

  lemma MapDoneInv(p: Params, w: World, n: string, current: seq<Id>)
    requires Inv(w) && Enabled(p, w, By(n, MapDone(current)))
    ensures Inv(Apply(p, w, By(n, MapDone(current))))
  {
    assert ClaimInv(w, n) && 0 !in w.s.exports;
    var op := w.ops[n];
    var a := Asset(op.source, op.id, op.lun, 0);
    if op.lun == -1 {
      RollBackInv(w, n, a, op.hosts, false, false, current);
    } else {
      MoveInv(w, n, Attaching(a, op.hosts));
    }
  }

  lemma ExportInv(p: Params, w: World, n: string, ok: bool, e: Id, noNodes: bool, x: StorageArray.Export)
    requires Inv(w) && Enabled(p, w, By(n, Action.Export(ok, e, noNodes, x)))
    ensures Inv(Apply(p, w, By(n, Action.Export(ok, e, noNodes, x))))
  {
    var w' := Apply(p, w, By(n, Action.Export(ok, e, noNodes, x)));
    assert ClaimInv(w, n) && 0 !in w.s.exports;
    var op := w.ops[n];
    if !ok {
      RollBackInv(w, n, Asset(Nfs, op.id, 0, 0), [], false, false, []);
    } else if noNodes {
      MoveInv(w, n, Attaching(Asset(Nfs, op.id, 0, 0), []));
    } else {
      assert Wf(w'.s) && History(w') && OneLun(w');
      Assemble(w, w', n, op.id);
    }
  }

  lemma AttachedInv(w: World, n: string)
    requires Inv(w) && n in w.ops && w.ops[n].Attaching?
    ensures Inv(With(w, n, Serving(w.ops[n].a)).(s := Attached(w.s, w.ops[n].a.id, n)))
  {
    var a := w.ops[n].a;
    var w' := With(w, n, Serving(a)).(s := Attached(w.s, a.id, n));
    assert ClaimInv(w, n);
    assert Wf(w'.s) && History(w') && OneLun(w');
    Assemble(w, w', n, a.id);
  }

  /** Attaching the metadata is a step to Serving, and for blocks one more from there. */
  lemma AttachInTwo(p: Params, w: World, n: string, noAddress: bool)
    requires n in w.ops && w.ops[n].Attaching?
    ensures var a := w.ops[n].a; var w1 := With(w, n, Serving(a)).(s := Attached(w.s, a.id, n));
      AttachStep(p, w, n, w.ops[n], true, [], noAddress)
      == if a.source == Nfs then w1
         else if a.source == Iscsi && noAddress then End(w1, n).(reported := w1.reported, lost := w1.lost + {a.id})
         else With(w1, n, Saving(a, p.retries))
  {
  }

  lemma AttachedGoesOn(p: Params, w: World, n: string, noAddress: bool)
    requires Inv(w) && n in w.ops && w.ops[n].Attaching?
    ensures Inv(AttachStep(p, w, n, w.ops[n], true, [], noAddress))
  {
    var a := w.ops[n].a;
    AttachedInv(w, n);
    ServingGoesOn(With(w, n, Serving(a)).(s := Attached(w.s, a.id, n)), n, a, p.retries);
    AttachInTwo(p, w, n, noAddress);
  }

  lemma ServingGoesOn(w: World, n: string, a: Asset, tries: nat)
    requires Inv(w) && n in w.ops && w.ops[n] == Serving(a)
    ensures Inv(With(w, n, Saving(a, tries)))
    ensures Inv(End(w, n).(reported := w.reported, lost := w.lost + {a.id}))
  {
    assert ClaimInv(w, n);
    LeaveInv(w, n, a.id, w.reported, w.lost + {a.id});
    MoveInv(w, n, Saving(a, tries));
  }

  lemma AttachInv(p: Params, w: World, n: string, ok: bool, current: seq<Id>, noAddress: bool)
    requires Inv(w) && Enabled(p, w, By(n, Attach(ok, current, noAddress)))
    ensures Inv(Apply(p, w, By(n, Attach(ok, current, noAddress))))
  {
    if ok {
      AttachedGoesOn(p, w, n, noAddress);
    } else {
      assert ClaimInv(w, n);
      RollBackInv(w, n, w.ops[n].a, w.ops[n].hosts, true, false, current);
    }
  }

  lemma ServeInv(p: Params, w: World, n: string, ok: bool)
    requires Inv(w) && Enabled(p, w, By(n, Serve(ok)))
    ensures Inv(Apply(p, w, By(n, Serve(ok))))
  {
    assert ClaimInv(w, n);
    var a := w.ops[n].a;
    if ok {
      MoveInv(w, n, Saving(a, p.retries));
    } else {
      RollBackInv(w, n, a, [], false, true, []);
    }
  }

  lemma SavedInv(w: World, n: string)
    requires Inv(w) && n in w.ops && w.ops[n].Saving?
    ensures Inv(End(w, n).(saved := w.saved[n := w.ops[n].a], ever := w.ever + {w.ops[n].a}))
  {
    var a := w.ops[n].a;
    var w' := End(w, n).(saved := w.saved[n := a], ever := w.ever + {a});
    assert ClaimInv(w, n);
    assert History(w');
    forall m ensures ClaimInv(w', m) {
      assert ClaimInv(w, m);
    }
    forall i | Live(w'.s, i) ensures Owned(w', i) {
      assert Owned(w, i);
    }
  }

  lemma SaveInv(p: Params, w: World, n: string, ok: bool, current: seq<Id>)
    requires Inv(w) && Enabled(p, w, By(n, Save(ok, current)))
    ensures Inv(Apply(p, w, By(n, Save(ok, current))))
  {
    assert ClaimInv(w, n);
    var op := w.ops[n];
    if op.tries == 0 {
      LeaveInv(w, n, op.a.id, w.reported, w.lost + {op.a.id});
    } else if ok {
      SavedInv(w, n);
    } else if op.tries > 1 {
      MoveInv(w, n, op.(tries := op.tries - 1));
    } else {
      DeleteScriptInv(w.s, op.a, current, Cleanup(p.retries));
      MoveInv(w, n, TearingDown(op.a, DeleteScript(op.a, current), Cleanup(p.retries)));
    }
  }

  // ---------------------------------------------------------------- compensating and deleting steps

  lemma StartDeleteInv(p: Params, w: World, n: string, current: seq<Id>)
    requires Inv(w) && Enabled(p, w, By(n, StartDelete(current)))
    ensures Inv(Apply(p, w, By(n, StartDelete(current))))
  {
    assert ClaimInv(w, n);
    DeleteScriptInv(w.s, w.saved[n], current, Deletion);
    StartInv(w, n, TearingDown(w.saved[n], DeleteScript(w.saved[n], current), Deletion));
  }

  lemma ScriptRest(s: State, p: Params, a: Asset, script: seq<Todo>, why: Why)
    requires Wf(s) && ScriptInv(s, a, script, why) && script != [] && Accepted(p, s, a, script[0].call)
    ensures ScriptInv(Effect(s, a, script[0].call), a, script[1..], why)
  {
    if script[1..] != [] {
      assert script[1..][|script| - 2] == script[|script| - 1];
    }
  }

  lemma TearOkInv(p: Params, w: World, n: string)
    requires Inv(w) && Enabled(p, w, By(n, TearCall(true, [])))
    ensures Inv(Torn(p, w, n, w.ops[n], true, []))
  {
    var w' := Torn(p, w, n, w.ops[n], true, []);
    assert ClaimInv(w, n);
    var op := w.ops[n];
    var call := op.script[0].call;
    EffectTouches(w.s, op.a, call);
    EffectShrinks(w.s, op.a, call);
    ScriptRest(w.s, p, op.a, op.script, op.why);
    TornClaim(p, w, n, op, w');
    assert History(w') && OneLun(w');
    Assemble(w, w', n, op.a.id);
  }

  lemma TearFailInv(p: Params, w: World, n: string, current: seq<Id>)
    requires Inv(w) && Enabled(p, w, By(n, TearCall(false, current)))
    ensures Inv(Torn(p, w, n, w.ops[n], false, current))
  {
    assert ClaimInv(w, n);
    var op := w.ops[n];
    if !op.script[0].strict {
      assert op.script != [] && op.script[|op.script| - 1] == Todo(Destroy, true) ==> |op.script| > 1;
      SkipRest(w.s, op.a, op.script, op.why);
      MoveInv(w, n, op.(script := op.script[1..]));
    } else {
      match op.why
      case Rollback => LeaveInv(w, n, op.a.id, w.reported, w.lost + {op.a.id});
      case Deletion =>
        LeaveInv(w, n, op.a.id, w.reported, w.lost);
        CountsDoNotMatter(End(w, n).(reported := w.reported, lost := w.lost), Counted(w.failures, p.threshold, n, true));
      case Cleanup(t) =>
        if t > 1 {
          DeleteScriptInv(w.s, op.a, current, Cleanup(t - 1));
          MoveInv(w, n, TearingDown(op.a, DeleteScript(op.a, current), Cleanup(t - 1)));
        } else {
          LeaveInv(w, n, op.a.id, w.reported + {op.a.id}, w.lost);
        }
    }
  }

  lemma SkipRest(s: State, a: Asset, script: seq<Todo>, why: Why)
    requires ScriptInv(s, a, script, why) && script != [] && !script[0].strict
    ensures ScriptInv(s, a, script[1..], why)
  {
    if !why.Rollback? {
      assert script[1..][|script| - 2] == script[|script| - 1];
    }
  }

  lemma TornClaim(p: Params, w: World, n: string, op: Op, w': World)
    requires Inv(w) && n in w.ops && w.ops[n] == op && op.TearingDown? && op.script != [] && w' == Torn(p, w, n, op, true, [])
    requires Wf(w'.s) && ScriptInv(w'.s, op.a, op.script[1..], op.why)
    ensures ClaimInv(w', n)
  {
    assert ClaimInv(w, n);
    OwnAssetKept(w, w', n, op.a, op.script[0].call);
  }

  lemma OwnAssetKept(w: World, w': World, n: string, a: Asset, call: Call)
    requires AssetInv(w, n, a) && w'.owner == w.owner && w'.s == Effect(w.s, a, call) && Wf(w.s) && Wf(w'.s)
    ensures AssetInv(w', n, a)
  {
    assert 0 !in w'.s.exports;
    EffectKeepsKind(w.s, a, call);
  }

  lemma EffectKeepsKind(s: State, a: Asset, call: Call)
    requires Wf(s) && (Live(s, a.id) ==> Exists(s, a)) && OnlyExport(s, a.id, a.exportId) && ExportOwn(s, a)
    ensures var s' := Effect(s, a, call);
      (Live(s', a.id) ==> Exists(s', a)) && OnlyExport(s', a.id, a.exportId) && ExportOwn(s', a)
  {
  }

  lemma TearDoneInv(p: Params, w: World, n: string)
    requires Inv(w) && Enabled(p, w, By(n, TearDone))
    ensures Inv(Apply(p, w, By(n, TearDone)))
  {
    assert ClaimInv(w, n);
    var op := w.ops[n];
    match op.why
    case Rollback => LeaveInv(w, n, op.a.id, w.reported, if Live(w.s, op.a.id) then w.lost + {op.a.id} else w.lost);
    case Cleanup(_) => LeaveInv(w, n, op.a.id, w.reported, w.lost);
    case Deletion => MoveInv(w, n, Removing(op.a));
  }

  lemma RemoveInv(p: Params, w: World, n: string, ok: bool)
    requires Inv(w) && Enabled(p, w, By(n, Remove(ok)))
    ensures Inv(Apply(p, w, By(n, Remove(ok))))
  {
    assert ClaimInv(w, n);
    if ok {
      var w' := Apply(p, w, By(n, Remove(ok)));
      forall m ensures ClaimInv(w', m) {
        assert ClaimInv(w, m);
      }
      forall i | Live(w'.s, i) ensures Owned(w', i) {
        assert Owned(w, i);
      }
    } else {
      LeaveInv(w, n, w.ops[n].a.id, w.reported, w.lost);
      CountsDoNotMatter(End(w, n).(reported := w.reported, lost := w.lost), Counted(w.failures, p.threshold, n, false));
    }
  }

  lemma CountsDoNotMatter(w: World, failures: map<string, nat>)
    requires Inv(w)
    ensures Inv(w.(failures := failures))
  {
    var w' := w.(failures := failures);
    forall m ensures ClaimInv(w', m) {
      assert ClaimInv(w, m);
    }
    forall i | Live(w'.s, i) ensures Owned(w', i) {
      assert Owned(w, i);
    }
  }

  lemma SkipDeleteInv(p: Params, w: World, n: string)
    requires Inv(w) && Enabled(p, w, By(n, SkipDelete))
    ensures Inv(Apply(p, w, By(n, SkipDelete)))
  {
    CountsDoNotMatter(w, Counted(w.failures, p.threshold, n, false));
  }

  lemma ReleaseInv(p: Params, w: World, n: string)
    requires Inv(w) && Enabled(p, w, By(n, Release))
    ensures Inv(Apply(p, w, By(n, Release)))
  {
    var w' := Apply(p, w, By(n, Release));
    forall m ensures ClaimInv(w', m) {
      assert ClaimInv(w, m);
    }
    forall i | Live(w'.s, i) ensures Owned(w', i) {
      assert Owned(w, i);
    }
  }

  // ---------------------------------------------------------------- node events

  /** Only LUN tables and permissions differ. */
  ghost predicate SameObjectsAndExports(s: State, s': State) {
    && s'.volumes == s.volumes && s'.filesystems == s.filesystems && s'.metadata == s.metadata
    && s'.issued == s.issued && s'.exports.Keys == s.exports.Keys
    && forall e :: e in s'.exports ==> s'.exports[e].filesystem == s.exports[e].filesystem
  }

  lemma AssetInPlace(w: World, s': State, n: string, a: Asset)
    requires SameObjectsAndExports(w.s, s') && AssetInv(w, n, a)
    ensures AssetInv(w.(s := s'), n, a)
  {
  }

  lemma ClaimInPlace(w: World, s': State, n: string)
    requires SameObjectsAndExports(w.s, s') && ClaimInv(w, n)
    ensures ClaimInv(w.(s := s'), n)
  {
    var w' := w.(s := s');
    if n in w.saved {
      AssetInPlace(w, s', n, w.saved[n]);
    }
    if n in w.ops {
      match w.ops[n]
      case Attaching(a, _) => AssetInPlace(w, s', n, a);
      case Serving(a) => AssetInPlace(w, s', n, a);
      case Saving(a, _) => AssetInPlace(w, s', n, a);
      case TearingDown(a, _, _) => AssetInPlace(w, s', n, a);
      case Removing(a) => AssetInPlace(w, s', n, a);
      case Creating(_) =>
      case Mapping(_, _, _, _, _) =>
      case Exporting(_) =>
    }
  }

  lemma NodeStepInv(w: World, s': State)
    requires Inv(w) && Wf(s') && OneLun(w.(s := s')) && SameObjectsAndExports(w.s, s')
    ensures Inv(w.(s := s'))
  {
    var w' := w.(s := s');
    forall m ensures ClaimInv(w', m) {
      ClaimInPlace(w, s', m);
    }
    forall i | Live(s', i) ensures Owned(w', i) {
      assert Owned(w, i);
    }
  }

  lemma NodeMapInv(p: Params, w: World, a: Asset, h: Id)
    requires Inv(w) && Enabled(p, w, NodeMap(a, h))
    ensures Inv(Apply(p, w, NodeMap(a, h)))
  {
    MapKeepsWf(w.s, h, a.id, a.lun);
    NodeStepInv(w, Mapped(w.s, h, a.id, a.lun));
  }

  lemma NodeUnmapInv(p: Params, w: World, a: Asset, h: Id)
    requires Inv(w) && Enabled(p, w, NodeUnmap(a, h))
    ensures Inv(Apply(p, w, NodeUnmap(a, h)))
  {
    UnmapKeepsWf(w.s, h, a.id);
    NodeStepInv(w, Unmapped(w.s, h, a.id));
  }

  lemma NodeExportInv(p: Params, w: World, e: Id, permissions: seq<Permission>)
    requires Inv(w) && Enabled(p, w, NodeExport(e, permissions))
    ensures Inv(Apply(p, w, NodeExport(e, permissions)))
  {
    NodeStepInv(w, PermissionsPut(w.s, e, permissions));
  }

  lemma StepInv(p: Params, w: World, step: Step)
    requires Inv(w) && Enabled(p, w, step)
    ensures Inv(Apply(p, w, step))
  {
    match step
    case NodeMap(a, h) => NodeMapInv(p, w, a, h);
    case NodeUnmap(a, h) => NodeUnmapInv(p, w, a, h);
    case NodeExport(e, permissions) => NodeExportInv(p, w, e, permissions);
    case By(n, action) => ActionInv(p, w, n, action);
  }

  lemma ForwardInv(p: Params, w: World, n: string, action: Action)
    requires Inv(w) && Enabled(p, w, By(n, action)) && IsForward(action)
    ensures Inv(Apply(p, w, By(n, action)))
  {
    match action
    case Create(ok, id, hosts) => CreateInv(p, w, n, ok, id, hosts);
    case MapNext(ok, free, current) => MapNextInv(p, w, n, ok, free, current);
    case MapDone(current) => MapDoneInv(p, w, n, current);
    case Export(ok, e, noNodes, x) => ExportInv(p, w, n, ok, e, noNodes, x);
    case Attach(ok, current, noAddress) => AttachInv(p, w, n, ok, current, noAddress);
    case Serve(ok) => ServeInv(p, w, n, ok);
    case Save(ok, current) => SaveInv(p, w, n, ok, current);
  }

  lemma ActionInv(p: Params, w: World, n: string, action: Action)
    requires Inv(w) && Enabled(p, w, By(n, action))
    ensures Inv(Apply(p, w, By(n, action)))
  {
    if IsForward(action) {
      ForwardInv(p, w, n, action);
    } else {
      match action
      case StartProvision(source) => StartProvisionInv(p, w, n, source);
      case StartDelete(current) => StartDeleteInv(p, w, n, current);
      case SkipDelete => SkipDeleteInv(p, w, n);
      case TearCall(ok, current) => TearCallInv(p, w, n, ok, current);
      case TearDone => TearDoneInv(p, w, n);
      case Remove(ok) => RemoveInv(p, w, n, ok);
      case Release => ReleaseInv(p, w, n);
    }
  }

  lemma TearCallInv(p: Params, w: World, n: string, ok: bool, current: seq<Id>)
    requires Inv(w) && Enabled(p, w, By(n, TearCall(ok, current)))
    ensures Inv(Apply(p, w, By(n, TearCall(ok, current))))
  {
    if ok {
      TearOkInv(p, w, n);
    } else {
      TearFailInv(p, w, n, current);
    }
  }

  lemma {:induction false} RunInv(p: Params, w: World, steps: seq<Step>)
    requires Inv(w) && IsRun(p, w, steps)
    ensures Inv(After(p, w, steps))
    decreases |steps|
  {
    if steps != [] {
      StepInv(p, w, steps[0]);
      RunInv(p, Apply(p, w, steps[0]), steps[1..]);
    }
  }
}
