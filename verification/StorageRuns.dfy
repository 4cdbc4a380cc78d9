/**
  Interleavings, call by call, of any number of provision and delete operations of one
  controller with node events, on an array where any call may fail.

  An operation is where it stands between two calls. Node events may map any volume that was
  ever saved at its own LUN on any host, unmap it, or change the clients of any export, at
  any time: that covers every event, every snapshot of the volume list and every order.
*/
module StorageRuns {
  import opened StorageArray
  import opened Commons
  import opened FailureCounts

  /** What a volume object records: for block volumes the LUN, for NFS the export (0 for none). */
  datatype Asset = Asset(source: Source, id: Id, lun: int, exportId: Id)

  datatype Call = Detach | Unmap(host: Id) | Unexport(e: Id) | Destroy
  datatype Todo = Todo(call: Call, strict: bool) // an error of a strict call ends the script

  datatype Why = Rollback | Cleanup(tries: nat) | Deletion

  datatype Op =
    | Creating(source: Source)
    | Mapping(source: Source, id: Id, hosts: seq<Id>, k: nat, lun: int) // lun is -1 before the first mapping
    | Exporting(id: Id)
    | Attaching(a: Asset, hosts: seq<Id>)
    | Serving(a: Asset)
    | Saving(a: Asset, tries: nat)
    | TearingDown(a: Asset, script: seq<Todo>, why: Why)
    | Removing(a: Asset)

  /**
    `saved` are the volume objects of the cluster, `ever` all that ever were, `eligible` the
    names of those released for deletion, `reported` the identifiers named in
    cleanup-failed events and `lost` those nobody answers for: left behind by a failed
    compensation, by a network space without address, or by a retry count of zero.
    `owner` and `lunOf` are history: for which claim an identifier was created, and the LUN
    its first mapping got. `foreign` was on the array from the start.
  */
  datatype World = World(
    s: State, saved: map<string, Asset>, ops: map<string, Op>, ever: set<Asset>, eligible: set<string>,
    reported: set<Id>, lost: set<Id>, owner: map<Id, string>, lunOf: map<Id, int>, foreign: set<Id>,
    failures: map<string, nat>)

  /**
    The array drops what refers to a deleted object instead of refusing, the controller's
    retry count, whether every network space of the array has an address, and after how many
    failures in a row a deletion is not tried again.
  */
  datatype Params = Params(cascade: bool, retries: nat, addresses: bool, threshold: int)

  // ---------------------------------------------------------------- scripts

  function Unmaps(hosts: seq<Id>, strict: bool): seq<Todo> {
    seq(|hosts|, i requires 0 <= i < |hosts| => Todo(Unmap(hosts[i]), strict))
  }

  /** Delete of all kinds, and volDestroy of Fibre Channel. */
  function DeleteScript(a: Asset, hosts: seq<Id>): seq<Todo> {
    match a.source
    case Nfs => [Todo(Unexport(a.exportId), true), Todo(Detach, true), Todo(Destroy, true)]
    case _ => [Todo(Detach, true)] + Unmaps(hosts, true) + [Todo(Destroy, true)]
  }

  /** The deferred calls in reverse order; `hosts` were mapped, `current` is asked for anew. */
  function RollbackScript(a: Asset, hosts: seq<Id>, mapped: bool, attached: bool, current: seq<Id>): seq<Todo> {
    match a.source
    case Nfs =>
      (if attached then [Todo(Detach, false)] else [])
      + (if a.exportId != 0 then [Todo(Unexport(a.exportId), false)] else [])
      + [Todo(Destroy, false)]
    case Iscsi => (if mapped then Unmaps(hosts, false) else []) + [Todo(Destroy, true)]
    case Fc => (if mapped then Unmaps(hosts, false) else []) + DeleteScript(a, current)
  }

  // ---------------------------------------------------------------- steps

  datatype Action =
    | StartProvision(source: Source)
    | Create(ok: bool, newId: Id, hosts: seq<Id>)
    | MapNext(ok: bool, free: int, current: seq<Id>)
    | MapDone(current: seq<Id>)
    | Export(ok: bool, newId: Id, noNodes: bool, export_: StorageArray.Export)
    | Attach(ok: bool, current: seq<Id>, noAddress: bool)
    | Serve(ok: bool)
    | Save(ok: bool, current: seq<Id>)
    | StartDelete(current: seq<Id>)
    | SkipDelete
    | TearCall(ok: bool, current: seq<Id>)
    | TearDone
    | Remove(ok: bool)
    | Release

  datatype Step =
    | By(claim: string, action: Action)
    | NodeMap(a: Asset, host: Id)
    | NodeUnmap(a: Asset, host: Id)
    | NodeExport(e: Id, permissions: seq<Permission>)

  /** The steps of a provision operation on its way forward. */
  predicate IsForward(action: Action) {
    || action.Create? || action.MapNext? || action.MapDone? || action.Export? || action.Attach? || action.Serve? || action.Save?
  }

  predicate Live(s: State, id: Id) {
    id in s.volumes || id in s.filesystems
  }

  predicate Accepted(p: Params, s: State, a: Asset, call: Call) {
    match call
    case Detach => Live(s, a.id)
    case Unmap(h) => h in s.hosts.Values
    case Unexport(_) => true
    case Destroy => if a.source == Nfs then CanDestroyFilesystem(s, p.cascade, a.id) else CanDestroyVolume(s, p.cascade, a.id)
  }

  function Effect(s: State, a: Asset, call: Call): State {
    match call
    case Detach => Detached(s, a.id)
    case Unmap(h) => Unmapped(s, h, a.id)
    case Unexport(e) => ExportDestroyed(s, e)
    case Destroy => if a.source == Nfs then FilesystemDestroyed(s, a.id) else VolumeDestroyed(s, a.id)
  }

  /** Host lists are looked up on the array, which answers with its registered hosts only. */
  predicate Known(s: State, hosts: seq<Id>) {
    forall h :: h in hosts ==> h in s.hosts.Values
  }

  /** shouldDelete, and no operation of the name runs. */
  predicate MayDelete(p: Params, w: World, n: string) {
    n in w.saved && n in w.eligible && n !in w.ops && !Exhausted(w.failures, p.threshold, n)
  }

  ghost predicate Enabled(p: Params, w: World, step: Step) {
    match step
    case NodeMap(a, h) => a in w.ever && a.source != Nfs && CanMap(w.s, h, a.id, a.lun)
    case NodeUnmap(a, h) => a in w.ever
    case NodeExport(e, _) => e in w.s.exports
    case By(n, action) =>
      match action
      case StartProvision(_) => n !in w.saved && n !in w.ops
      case Create(ok, id, hosts) =>
        && n in w.ops && w.ops[n].Creating? && Known(w.s, hosts) && (ok ==> 0 < id <= MAX_ID && id !in w.s.issued)
      case MapNext(ok, free, current) =>
        && Known(w.s, current) && n in w.ops && w.ops[n].Mapping? && w.ops[n].k < |w.ops[n].hosts|
        && (ok ==> free >= 0 && CanMap(w.s, w.ops[n].hosts[w.ops[n].k], w.ops[n].id, Wanted(w.ops[n], free)))
      case MapDone(current) => Known(w.s, current) && n in w.ops && w.ops[n].Mapping? && w.ops[n].k == |w.ops[n].hosts|
      case Export(ok, e, noNodes, x) =>
        && n in w.ops && w.ops[n].Exporting?
        && (ok && !noNodes ==> 0 < e <= MAX_ID && e !in w.s.issued && x.filesystem == w.ops[n].id)
      case Attach(ok, current, noAddress) =>
        Known(w.s, current) && n in w.ops && w.ops[n].Attaching? && (noAddress ==> !p.addresses)
      case Serve(_) => n in w.ops && w.ops[n].Serving?
      case Save(_, current) => Known(w.s, current) && n in w.ops && w.ops[n].Saving?
      case StartDelete(current) => Known(w.s, current) && MayDelete(p, w, n)
      case SkipDelete => MayDelete(p, w, n)
      case TearCall(ok, current) =>
        && Known(w.s, current) && n in w.ops && w.ops[n].TearingDown? && w.ops[n].script != []
        && (ok ==> Accepted(p, w.s, w.ops[n].a, w.ops[n].script[0].call))
      case TearDone => n in w.ops && w.ops[n].TearingDown? && w.ops[n].script == []
      case Remove(_) => n in w.ops && w.ops[n].Removing?
      case Release => n in w.saved
  }

  /** The first host's LUN is chosen by the array, later hosts are asked for the same. */
  function Wanted(op: Op, free: int): int
    requires op.Mapping?
  {
    if op.lun == -1 then free else op.lun
  }

  function With(w: World, n: string, op: Op): World {
    w.(ops := w.ops[n := op])
  }

  function End(w: World, n: string): World {
    w.(ops := w.ops - {n})
  }

  function RollBack(w: World, n: string, a: Asset, hosts: seq<Id>, mapped: bool, attached: bool, current: seq<Id>): World {
    With(w, n, TearingDown(a, RollbackScript(a, hosts, mapped, attached, current), Rollback))
  }

  function CreateStep(w: World, n: string, op: Op, ok: bool, id: Id, hosts: seq<Id>): World
    requires op.Creating?
  {
    if !ok then End(w, n)
    else if op.source == Nfs then
      With(w, n, Exporting(id)).(s := FilesystemCreated(w.s, id, n), owner := w.owner[id := n])
    else
      With(w, n, Mapping(op.source, id, hosts, 0, -1)).(s := VolumeCreated(w.s, id, n), owner := w.owner[id := n])
  }

  function MapStep(w: World, n: string, op: Op, ok: bool, free: int, current: seq<Id>): World
    requires op.Mapping? && op.k < |op.hosts|
  {
    if !ok then RollBack(w, n, Asset(op.source, op.id, op.lun, 0), op.hosts, false, false, current)
    else
      var l := Wanted(op, free);
      With(w, n, op.(k := op.k + 1, lun := l)).(
        s := Mapped(w.s, op.hosts[op.k], op.id, l),
        lunOf := if op.lun == -1 then w.lunOf[op.id := l] else w.lunOf)
  }

  function MapEnd(w: World, n: string, op: Op, current: seq<Id>): World
    requires op.Mapping?
  {
    var a := Asset(op.source, op.id, op.lun, 0);
    if op.lun == -1 then RollBack(w, n, a, op.hosts, false, false, current)
    else With(w, n, Attaching(a, op.hosts))
  }

  function ExportStep(w: World, n: string, op: Op, ok: bool, e: Id, noNodes: bool, x: StorageArray.Export): World
    requires op.Exporting?
  {
    if !ok then RollBack(w, n, Asset(Nfs, op.id, 0, 0), [], false, false, [])
    else if noNodes then With(w, n, Attaching(Asset(Nfs, op.id, 0, 0), []))
    else With(w, n, Attaching(Asset(Nfs, op.id, 0, e), [])).(s := ExportCreated(w.s, e, x))
  }

  function AttachStep(p: Params, w: World, n: string, op: Op, ok: bool, current: seq<Id>, noAddress: bool): World
    requires op.Attaching?
  {
    if !ok then RollBack(w, n, op.a, op.hosts, true, false, current)
    else
      var w1 := w.(s := Attached(w.s, op.a.id, n));
      if op.a.source == Nfs then With(w1, n, Serving(op.a))
      else if op.a.source == Iscsi && noAddress then End(w1, n).(lost := w.lost + {op.a.id}) // the recovered panic
      else With(w1, n, Saving(op.a, p.retries))
  }

  function ServeStep(p: Params, w: World, n: string, op: Op, ok: bool): World
    requires op.Serving?
  {
    if ok then With(w, n, Saving(op.a, p.retries)) else RollBack(w, n, op.a, [], false, true, [])
  }

  function SaveStep(p: Params, w: World, n: string, op: Op, ok: bool, current: seq<Id>): World
    requires op.Saving?
  {
    if op.tries == 0 then End(w, n).(lost := w.lost + {op.a.id}) // no attempt is made and success is reported
    else if ok then End(w, n).(saved := w.saved[n := op.a], ever := w.ever + {op.a})
    else if op.tries > 1 then With(w, n, op.(tries := op.tries - 1))
    else With(w, n, TearingDown(op.a, DeleteScript(op.a, current), Cleanup(p.retries)))
  }

  /** An error of a call that ends its script. */
  function CallFailed(p: Params, w: World, n: string, op: Op, current: seq<Id>): World
    requires op.TearingDown?
  {
    match op.why
    case Rollback => End(w, n).(lost := w.lost + {op.a.id})
    case Deletion => End(w, n).(failures := Counted(w.failures, p.threshold, n, true))
    case Cleanup(t) =>
      if t > 1 then With(w, n, TearingDown(op.a, DeleteScript(op.a, current), Cleanup(t - 1)))
      else End(w, n).(reported := w.reported + {op.a.id})
  }

  /** One call of a script of compensating or deleting calls. */
  function Torn(p: Params, w: World, n: string, op: Op, ok: bool, current: seq<Id>): World
    requires op.TearingDown? && op.script != []
  {
    var todo, rest := op.script[0], op.(script := op.script[1..]);
    if ok then With(w, n, rest).(s := Effect(w.s, op.a, todo.call))
    else if !todo.strict then With(w, n, rest)
    else CallFailed(p, w, n, op, current)
  }

  function Done(w: World, n: string, op: Op): World
    requires op.TearingDown?
  {
    match op.why
    case Rollback => End(w, n).(lost := if Live(w.s, op.a.id) then w.lost + {op.a.id} else w.lost)
    case Cleanup(_) => End(w, n)
    case Deletion => With(w, n, Removing(op.a))
  }

  /** Whether or not the object could be removed, the operation counts as a success. */
  function Removed(p: Params, w: World, n: string, ok: bool): World {
    var w1 := End(w, n).(failures := Counted(w.failures, p.threshold, n, false));
    if ok then w1.(saved := w1.saved - {n}, eligible := w1.eligible - {n}) else w1
  }

  ghost function Apply(p: Params, w: World, step: Step): World
    requires Enabled(p, w, step)
  {
    match step
    case NodeMap(a, h) => w.(s := Mapped(w.s, h, a.id, a.lun))
    case NodeUnmap(a, h) => w.(s := Unmapped(w.s, h, a.id))
    case NodeExport(e, permissions) => w.(s := PermissionsPut(w.s, e, permissions))
    case By(n, action) =>
      match action
      case StartProvision(source) => With(w, n, Creating(source))
      case StartDelete(current) => With(w, n, TearingDown(w.saved[n], DeleteScript(w.saved[n], current), Deletion))
      case TearCall(ok, current) => Torn(p, w, n, w.ops[n], ok, current)
      case TearDone => Done(w, n, w.ops[n])
      case Remove(ok) => Removed(p, w, n, ok)
      case SkipDelete => w.(failures := Counted(w.failures, p.threshold, n, false)) // not fetched, or no longer released
      case Release => w.(eligible := w.eligible + {n})
      case Create(ok, id, hosts) => CreateStep(w, n, w.ops[n], ok, id, hosts)
      case MapNext(ok, free, current) => MapStep(w, n, w.ops[n], ok, free, current)
      case MapDone(current) => MapEnd(w, n, w.ops[n], current)
      case Export(ok, e, noNodes, x) => ExportStep(w, n, w.ops[n], ok, e, noNodes, x)
      case Attach(ok, current, noAddress) => AttachStep(p, w, n, w.ops[n], ok, current, noAddress)
      case Serve(ok) => ServeStep(p, w, n, w.ops[n], ok)
      case Save(ok, current) => SaveStep(p, w, n, w.ops[n], ok, current)
  }

  // ---------------------------------------------------------------- runs

  /** Nothing has been provisioned; what is on the array belongs to others. */
  ghost predicate Init(w: World) {
    && Wf(w.s) && w == World(w.s, map[], map[], {}, {}, {}, {}, map[], map[], w.s.issued, map[])
  }

  ghost predicate IsRun(p: Params, w: World, steps: seq<Step>)
    decreases |steps|
  {
    steps == [] || (Enabled(p, w, steps[0]) && IsRun(p, Apply(p, w, steps[0]), steps[1..]))
  }

  ghost function After(p: Params, w: World, steps: seq<Step>): World
    requires IsRun(p, w, steps)
    decreases |steps|
  {
    if steps == [] then w else After(p, Apply(p, w, steps[0]), steps[1..])
  }
}
