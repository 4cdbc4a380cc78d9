/** What any step leaves alone, whatever the operation it belongs to. */
module StorageSteps {
  import opened Commons
  import opened FailureCounts
  import opened StorageArray
  import opened StorageInvariant
  import opened StorageRuns

  /** Of the operations, at most that of `n` is another. */
  ghost predicate OnlyOp(w: World, w': World, n: string) {
    || w'.ops == w.ops || w'.ops == w.ops - {n}
    || (n in w'.ops && w'.ops == w.ops[n := w'.ops[n]])
  }

  /** The same for the volume objects. */
  ghost predicate OnlySaved(w: World, w': World, n: string) {
    || w'.saved == w.saved || w'.saved == w.saved - {n}
    || (n in w'.saved && w'.saved == w.saved[n := w'.saved[n]])
  }

  /** And for the counted failures. */
  ghost predicate OnlyCount(w: World, w': World, n: string) {
    || w'.failures == w.failures || w'.failures == w.failures - {n}
    || (n in w'.failures && w'.failures == w.failures[n := w'.failures[n]])
  }

  /** Nothing but `x` comes to life again or is destroyed, no export comes back, and hosts stay. */
  ghost predicate OthersLive(s: State, s': State, x: Id) {
    && s'.hosts == s.hosts
    && (forall id :: id in s.issued && id != x ==>
          (id in s'.volumes <==> id in s.volumes) && (id in s'.filesystems <==> id in s.filesystems))
    && (forall e :: e in s.issued && e in s'.exports ==> e in s.exports)
  }

  ghost predicate OnlyClaim(w: World, w': World, n: string) {
    OnlyOp(w, w', n) && OnlySaved(w, w', n) && OnlyCount(w, w', n)
  }

  /** A step of claim `n` that can destroy the object `x`. */
  ghost predicate Modest(w: World, w': World, n: string, x: Id) {
    OnlyClaim(w, w', n) && OthersLive(w.s, w'.s, x)
  }

  lemma CreateModest(w: World, n: string, op: Op, ok: bool, id: Id, hosts: seq<Id>)
    requires op.Creating? && (ok ==> id !in w.s.issued)
    ensures Modest(w, CreateStep(w, n, op, ok, id, hosts), n, 0)
  {
  }

  lemma MapModest(w: World, n: string, op: Op, ok: bool, free: int, current: seq<Id>)
    requires op.Mapping? && op.k < |op.hosts|
    ensures Modest(w, MapStep(w, n, op, ok, free, current), n, 0)
  {
  }

  lemma MapEndModest(w: World, n: string, op: Op, current: seq<Id>)
    requires op.Mapping?
    ensures Modest(w, MapEnd(w, n, op, current), n, 0)
  {
  }

  lemma ExportModest(w: World, n: string, op: Op, ok: bool, e: Id, noNodes: bool, x: StorageArray.Export)
    requires op.Exporting? && (ok && !noNodes ==> e !in w.s.issued)
    ensures Modest(w, ExportStep(w, n, op, ok, e, noNodes, x), n, 0)
  {
  }

  lemma AttachModest(p: Params, w: World, n: string, op: Op, ok: bool, current: seq<Id>, noAddress: bool)
    requires op.Attaching?
    ensures Modest(w, AttachStep(p, w, n, op, ok, current, noAddress), n, 0)
  {
    AttachOnlyClaim(p, w, n, op, ok, current, noAddress);
    AttachedLeavesOthers(w.s, op.a.id, n);
  }

  lemma AttachOnlyClaim(p: Params, w: World, n: string, op: Op, ok: bool, current: seq<Id>, noAddress: bool)
    requires op.Attaching?
    ensures var w' := AttachStep(p, w, n, op, ok, current, noAddress);
      OnlyClaim(w, w', n) && w'.s == if ok then Attached(w.s, op.a.id, n) else w.s
  {
  }

  lemma AttachedLeavesOthers(s: State, id: Id, name: string)
    ensures OthersLive(s, Attached(s, id, name), 0) && OthersLive(s, s, 0)
  {
  }

  lemma ServeModest(p: Params, w: World, n: string, op: Op, ok: bool)
    requires op.Serving?
    ensures Modest(w, ServeStep(p, w, n, op, ok), n, 0)
  {
  }

  lemma SaveModest(p: Params, w: World, n: string, op: Op, ok: bool, current: seq<Id>)
    requires op.Saving?
    ensures Modest(w, SaveStep(p, w, n, op, ok, current), n, 0)
  {
    SaveOnlyClaim(p, w, n, op, ok, current);
    SameLivesOn(w.s);
  }

  lemma SaveOnlyClaim(p: Params, w: World, n: string, op: Op, ok: bool, current: seq<Id>)
    requires op.Saving?
    ensures var w' := SaveStep(p, w, n, op, ok, current); OnlyClaim(w, w', n) && w'.s == w.s
  {
  }

  lemma EffectLeavesOthers(s: State, a: Asset, call: Call)
    ensures OthersLive(s, Effect(s, a, call), a.id)
  {
  }

  lemma TornModest(p: Params, w: World, n: string, op: Op, ok: bool, current: seq<Id>)
    requires op.TearingDown? && op.script != []
    ensures Modest(w, Torn(p, w, n, op, ok, current), n, op.a.id)
  {
    if ok {
      EffectLeavesOthers(w.s, op.a, op.script[0].call);
    } else {
      TornOnlyClaim(p, w, n, op, current);
    }
  }

  lemma TornOnlyClaim(p: Params, w: World, n: string, op: Op, current: seq<Id>)
    requires op.TearingDown? && op.script != []
    ensures var w' := Torn(p, w, n, op, false, current); OnlyClaim(w, w', n) && w'.s == w.s
  {
    if op.script[0].strict {
      FailedOnlyClaim(p, w, n, op, current);
    }
  }

  lemma FailedOnlyClaim(p: Params, w: World, n: string, op: Op, current: seq<Id>)
    requires op.TearingDown?
    ensures var w' := CallFailed(p, w, n, op, current); OnlyClaim(w, w', n) && w'.s == w.s
  {
    if op.why.Deletion? {
      CountedOnly(p, w, n, true);
    }
  }

  lemma CountedOnly(p: Params, w: World, n: string, failed: bool)
    ensures var w' := End(w, n).(failures := Counted(w.failures, p.threshold, n, failed)); OnlyClaim(w, w', n) && w'.s == w.s
  {
  }

  lemma DoneModest(w: World, n: string, op: Op)
    requires op.TearingDown?
    ensures Modest(w, Done(w, n, op), n, 0)
  {
    DoneOnlyClaim(w, n, op);
    SameLivesOn(w.s);
  }

  lemma DoneOnlyClaim(w: World, n: string, op: Op)
    requires op.TearingDown?
    ensures OnlyClaim(w, Done(w, n, op), n) && Done(w, n, op).s == w.s
  {
  }

  lemma SameLivesOn(s: State)
    ensures OthersLive(s, s, 0)
  {
  }

  lemma RemovedModest(p: Params, w: World, n: string, ok: bool)
    ensures Modest(w, Removed(p, w, n, ok), n, 0)
  {
  }

  /** The object a step of claim `n` can destroy. */
  function Victim(w: World, n: string, action: Action): Id {
    if action.TearCall? && n in w.ops && w.ops[n].TearingDown? then w.ops[n].a.id else 0
  }

  lemma ForwardModest(p: Params, w: World, n: string, action: Action)
    requires Enabled(p, w, By(n, action)) && IsForward(action)
    ensures Modest(w, Apply(p, w, By(n, action)), n, 0)
  {
    var op := w.ops[n];
    match action
    case Create(ok, id, hosts) => CreateModest(w, n, op, ok, id, hosts);
    case MapNext(ok, free, current) => MapModest(w, n, op, ok, free, current);
    case MapDone(current) => MapEndModest(w, n, op, current);
    case Export(ok, e, noNodes, x) => ExportModest(w, n, op, ok, e, noNodes, x);
    case Attach(ok, current, noAddress) => AttachModest(p, w, n, op, ok, current, noAddress);
    case Serve(ok) => ServeModest(p, w, n, op, ok);
    case Save(ok, current) => SaveModest(p, w, n, op, ok, current);
  }

  lemma ActionModest(p: Params, w: World, n: string, action: Action)
    requires Enabled(p, w, By(n, action))
    ensures Modest(w, Apply(p, w, By(n, action)), n, Victim(w, n, action))
  {
    if IsForward(action) {
      ForwardModest(p, w, n, action);
    } else if action.TearCall? {
      TornModest(p, w, n, w.ops[n], action.ok, action.current);
    } else if action.TearDone? {
      DoneModest(w, n, w.ops[n]);
    } else if action.Remove? {
      RemovedModest(p, w, n, action.ok);
    }
  }

  /** Another claim's object is none a step of `n` can destroy. */
  lemma NotTheVictim(p: Params, w: World, n: string, action: Action, m: string, id: Id)
    requires Inv(w) && Enabled(p, w, By(n, action)) && m != n && id in w.owner && w.owner[id] == m
    ensures id != Victim(w, n, action) && id in w.s.issued
  {
    assert ClaimInv(w, n);
  }

  // ---------------------------------------------------------------- building runs

  lemma {:induction false} Joined(p: Params, w: World, first: seq<Step>, second: seq<Step>)
    requires IsRun(p, w, first) && IsRun(p, After(p, w, first), second)
    ensures IsRun(p, w, first + second) && After(p, w, first + second) == After(p, After(p, w, first), second)
    decreases |first|
  {
    if first == [] {
      assert first + second == second;
    } else {
      Joined(p, Apply(p, w, first[0]), first[1..], second);
      assert (first + second)[1..] == first[1..] + second;
    }
  }

  lemma Single(p: Params, w: World, s: Step)
    requires Enabled(p, w, s)
    ensures IsRun(p, w, [s]) && After(p, w, [s]) == Apply(p, w, s)
  {
    assert [s][1..] == [];
  }

  lemma Go(p: Params, w0: World, run: seq<Step>, w: World, s: Step) returns (run': seq<Step>, w': World)
    requires IsRun(p, w0, run) && After(p, w0, run) == w && Enabled(p, w, s)
    ensures IsRun(p, w0, run') && w' == Apply(p, w, s) && After(p, w0, run') == w'
  {
    Single(p, w, s);
    Joined(p, w0, run, [s]);
    run', w' := run + [s], Apply(p, w, s);
  }
}
