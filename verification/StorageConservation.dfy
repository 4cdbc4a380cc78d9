/**
  Conservation over whole runs: if no compensating call is lost on the way, everything on the
  array is accounted for, exactly if the array cascades, every network space has an address,
  and at least one attempt to save is made.
*/
module StorageConservation {
  import opened Commons
  import opened StorageArray
  import opened StorageInvariant
  import opened StorageRuns
  import opened StorageSteps

  predicate RollingBack(w: World, n: string) {
    n in w.ops && w.ops[n].TearingDown? && w.ops[n].why.Rollback? && w.ops[n].script != []
  }

  /** No compensating call fails that the array accepts; whether it accepts is the array's own rule. */
  ghost predicate Compensated(p: Params, w: World, step: Step) {
    step.By? && step.action.TearCall? && RollingBack(w, step.claim) ==>
      var op := w.ops[step.claim];
      (Accepted(p, w.s, op.a, op.script[0].call) ==> step.action.ok)
  }

  ghost predicate AllCompensated(p: Params, w: World, steps: seq<Step>)
    requires IsRun(p, w, steps)
    decreases |steps|
  {
    steps != [] ==> Compensated(p, w, steps[0]) && AllCompensated(p, Apply(p, w, steps[0]), steps[1..])
  }

  /**
    Every object on the array was there before, or is that of a volume object, or of an
    operation under way, or was named in a cleanup-failed event.
  */
  ghost predicate AccountedFor(w: World) {
    forall id :: Live(w.s, id) ==>
      || id in w.foreign || id in w.reported
      || (id in w.owner && var n := w.owner[id];
          (n in w.saved && w.saved[n].id == id) || (n in w.ops && OpId(w.ops[n]) == Some(id)))
  }

  // ---------------------------------------------------------------- rollbacks that are not refused

  ghost predicate EndsInDestroy(script: seq<Todo>) {
    && script != [] && script[|script| - 1].call == Destroy
    && forall k :: 0 <= k < |script| - 1 ==> script[k].call != Destroy
  }

  /** The hosts named in calls whose failure ends the script are registered. */
  ghost predicate UnmapsKnown(s: State, script: seq<Todo>) {
    forall k :: 0 <= k < |script| && script[k].strict && script[k].call.Unmap? ==> script[k].call.host in s.hosts.Values
  }

  /** A rollback under way still has its object and will destroy it, or has done so. */
  ghost predicate WillDestroy(w: World, op: Op) {
    && (op.TearingDown? && op.why.Rollback? ==>
          if op.script == [] then !Live(w.s, op.a.id)
          else Exists(w.s, op.a) && EndsInDestroy(op.script) && UnmapsKnown(w.s, op.script))
    && (op.Saving? ==> op.tries > 0)
  }

  ghost predicate Clean(w: World) {
    w.lost == {} && forall n :: n in w.ops ==> WillDestroy(w, w.ops[n])
  }

  lemma DeleteEndsInDestroy(s: State, a: Asset, current: seq<Id>)
    requires Known(s, current)
    ensures EndsInDestroy(DeleteScript(a, current)) && UnmapsKnown(s, DeleteScript(a, current))
  {
    var script := DeleteScript(a, current);
    if a.source != Nfs {
      forall k | 0 <= k < |script| && script[k].call.Unmap? ensures script[k].call.host in s.hosts.Values {
        assert script[k] == Todo(Unmap(current[k - 1]), true);
        assert current[k - 1] in current;
      }
    }
  }

  lemma RollbackEndsInDestroy(s: State, a: Asset, hosts: seq<Id>, mapped: bool, attached: bool, current: seq<Id>)
    requires Known(s, current)
    ensures var script := RollbackScript(a, hosts, mapped, attached, current); EndsInDestroy(script) && UnmapsKnown(s, script)
  {
    DeleteEndsInDestroy(s, a, current);
  }

  lemma CleanOther(w: World, w': World, x: Id, m: string)
    requires Inv(w) && Clean(w) && OthersLive(w.s, w'.s, x) && m in w.ops
    requires OpId(w.ops[m]) != Some(x)
    ensures WillDestroy(w', w.ops[m])
  {
    assert ClaimInv(w, m) && WillDestroy(w, w.ops[m]);
  }

  /** An accepted call takes the script one step on; the last one destroys the object. */
  lemma TornDestroys(p: Params, w: World, n: string)
    requires Inv(w) && Clean(w) && Enabled(p, w, By(n, TearCall(true, []))) && w.ops[n].why.Rollback?
    ensures CleanFor(Torn(p, w, n, w.ops[n], true, []), n)
  {
    var op := w.ops[n];
    assert ClaimInv(w, n) && WillDestroy(w, op);
    var rest := op.script[1..];
    if rest != [] {
      RestEndsInDestroy(w.s, op.script);
      CallKeepsObject(w.s, op.a, op.script[0].call);
    } else {
      DestroyedIsGone(p, w.s, op.a);
    }
  }

  lemma RestEndsInDestroy(s: State, script: seq<Todo>)
    requires EndsInDestroy(script) && UnmapsKnown(s, script) && script[1..] != []
    ensures EndsInDestroy(script[1..]) && UnmapsKnown(s, script[1..]) && script[0].call != Destroy
  {
    assert script[1..][|script| - 2] == script[|script| - 1];
  }

  lemma CallKeepsObject(s: State, a: Asset, call: Call)
    requires Exists(s, a) && call != Destroy
    ensures Exists(Effect(s, a, call), a) && Effect(s, a, call).hosts == s.hosts
  {
  }

  lemma DestroyedIsGone(p: Params, s: State, a: Asset)
    requires Wf(s) && Accepted(p, s, a, Destroy)
    ensures !Live(Effect(s, a, Destroy), a.id)
  {
  }

  /** On an array that cascades, no call that matters is refused. */
  lemma CascadeNeverRefuses(p: Params, w: World, op: Op)
    requires p.cascade && WillDestroy(w, op) && op.TearingDown? && op.why.Rollback? && op.script != []
    requires op.script[0].strict || op.script[0].call == Destroy
    ensures Accepted(p, w.s, op.a, op.script[0].call)
  {
  }

  // ---------------------------------------------------------------- every step stays clean

  ghost predicate CleanFor(w: World, n: string) {
    w.lost == {} && (n in w.ops ==> WillDestroy(w, w.ops[n]))
  }

  lemma CleanRollBack(w: World, n: string, a: Asset, hosts: seq<Id>, mapped: bool, attached: bool, current: seq<Id>)
    requires w.lost == {} && Exists(w.s, a) && Known(w.s, current)
    ensures CleanFor(RollBack(w, n, a, hosts, mapped, attached, current), n)
  {
    RollbackEndsInDestroy(w.s, a, hosts, mapped, attached, current);
  }

  lemma CleanMapping(p: Params, w: World, n: string, action: Action)
    requires CleanFor(w, n) && ClaimInv(w, n) && Enabled(p, w, By(n, action)) && (action.MapNext? || action.MapDone?)
    ensures CleanFor(Apply(p, w, By(n, action)), n)
  {
    var op := w.ops[n];
    CleanRollBack(w, n, Asset(op.source, op.id, op.lun, 0), op.hosts, false, false, action.current);
  }

  lemma CleanAttach(p: Params, w: World, n: string, ok: bool, current: seq<Id>)
    requires CleanFor(w, n) && ClaimInv(w, n) && p.retries > 0 && Enabled(p, w, By(n, Attach(ok, current, false)))
    ensures CleanFor(Apply(p, w, By(n, Attach(ok, current, false))), n)
  {
    CleanRollBack(w, n, w.ops[n].a, w.ops[n].hosts, true, false, current);
  }

  lemma CleanExport(p: Params, w: World, n: string, action: Action)
    requires CleanFor(w, n) && ClaimInv(w, n) && p.retries > 0 && Enabled(p, w, By(n, action))
    requires action.Export? || action.Serve?
    ensures CleanFor(Apply(p, w, By(n, action)), n)
  {
    if action.Export? {
      CleanRollBack(w, n, Asset(Nfs, w.ops[n].id, 0, 0), [], false, false, []);
    } else {
      CleanRollBack(w, n, w.ops[n].a, [], false, true, []);
    }
  }

  lemma CleanEnds(p: Params, w: World, n: string, action: Action)
    requires CleanFor(w, n) && Enabled(p, w, By(n, action)) && (action.Create? || action.Save?)
    ensures CleanFor(Apply(p, w, By(n, action)), n)
  {
  }

  lemma CleanForward(p: Params, w: World, n: string, action: Action)
    requires CleanFor(w, n) && ClaimInv(w, n) && p.retries > 0 && p.addresses && Enabled(p, w, By(n, action))
    requires IsForward(action)
    ensures CleanFor(Apply(p, w, By(n, action)), n)
  {
    if action.MapNext? || action.MapDone? {
      CleanMapping(p, w, n, action);
    } else if action.Attach? {
      CleanAttach(p, w, n, action.ok, action.current);
    } else if action.Export? || action.Serve? {
      CleanExport(p, w, n, action);
    } else {
      CleanEnds(p, w, n, action);
    }
  }

  lemma CleanTorn(p: Params, w: World, n: string, ok: bool, current: seq<Id>)
    requires Inv(w) && Clean(w) && p.cascade && Enabled(p, w, By(n, TearCall(ok, current)))
    requires Compensated(p, w, By(n, TearCall(ok, current)))
    ensures CleanFor(Torn(p, w, n, w.ops[n], ok, current), n)
  {
    if !w.ops[n].why.Rollback? {
      CleanDeleting(p, w, n, w.ops[n], ok, current);
    } else if ok {
      TornDestroys(p, w, n);
    } else {
      CleanSkipped(p, w, n, current);
    }
  }

  /** Nothing is lost by a cleanup or a deletion. */
  lemma CleanDeleting(p: Params, w: World, n: string, op: Op, ok: bool, current: seq<Id>)
    requires w.lost == {} && op.TearingDown? && op.script != [] && !op.why.Rollback?
    ensures CleanFor(Torn(p, w, n, op, ok, current), n)
  {
  }

  /** A refused call is one whose error is ignored. */
  lemma CleanSkipped(p: Params, w: World, n: string, current: seq<Id>)
    requires Inv(w) && Clean(w) && p.cascade && Enabled(p, w, By(n, TearCall(false, current))) && w.ops[n].why.Rollback?
    requires Compensated(p, w, By(n, TearCall(false, current)))
    ensures CleanFor(Torn(p, w, n, w.ops[n], false, current), n)
  {
    var op := w.ops[n];
    assert WillDestroy(w, op);
    if op.script[0].strict || op.script[0].call == Destroy {
      CascadeNeverRefuses(p, w, op);
      assert false;
    } else {
      RestEndsInDestroy(w.s, op.script);
    }
  }

  lemma CleanMover(p: Params, w: World, n: string, action: Action)
    requires Inv(w) && Clean(w) && p.retries > 0 && p.cascade && p.addresses
    requires Enabled(p, w, By(n, action)) && Compensated(p, w, By(n, action))
    ensures CleanFor(Apply(p, w, By(n, action)), n)
  {
    assert ClaimInv(w, n) && CleanFor(w, n);
    if IsForward(action) {
      CleanForward(p, w, n, action);
    } else if action.TearCall? {
      CleanTorn(p, w, n, action.ok, action.current);
    }
  }

  lemma CleanAction(p: Params, w: World, n: string, action: Action, w': World)
    requires Inv(w) && Clean(w) && p.retries > 0 && p.cascade && p.addresses
    requires Enabled(p, w, By(n, action)) && Compensated(p, w, By(n, action)) && w' == Apply(p, w, By(n, action))
    ensures Clean(w')
  {
    CleanMover(p, w, n, action);
    ActionModest(p, w, n, action);
    forall m | m in w.ops && m != n ensures OpId(w.ops[m]) != Some(Victim(w, n, action)) {
      OtherVictim(p, w, n, action, m);
    }
    OthersStayClean(w, w', Victim(w, n, action), n);
  }

  lemma OtherVictim(p: Params, w: World, n: string, action: Action, m: string)
    requires Inv(w) && Enabled(p, w, By(n, action)) && m in w.ops && m != n
    ensures OpId(w.ops[m]) != Some(Victim(w, n, action))
  {
    assert ClaimInv(w, m);
    if OpId(w.ops[m]).Some? {
      NotTheVictim(p, w, n, action, m, OpId(w.ops[m]).value);
    }
  }

  lemma OthersStayClean(w: World, w': World, x: Id, n: string)
    requires Inv(w) && Clean(w) && OnlyOp(w, w', n) && OthersLive(w.s, w'.s, x) && CleanFor(w', n)
    requires forall m :: m in w.ops && m != n ==> OpId(w.ops[m]) != Some(x)
    ensures Clean(w')
  {
    forall m | m in w'.ops && m != n ensures WillDestroy(w', w'.ops[m]) {
      CleanOther(w, w', x, m);
    }
  }

  lemma CleanStep(p: Params, w: World, step: Step)
    requires Inv(w) && Clean(w) && p.retries > 0 && p.cascade && p.addresses
    requires Enabled(p, w, step) && Compensated(p, w, step)
    ensures Clean(Apply(p, w, step))
  {
    var w' := Apply(p, w, step);
    if step.By? {
      CleanAction(p, w, step.claim, step.action, w');
    } else {
      forall m | m in w.ops ensures WillDestroy(w', w.ops[m]) {
        assert WillDestroy(w, w.ops[m]);
      }
    }
  }

  lemma {:induction false} CleanRun(p: Params, w: World, steps: seq<Step>)
    requires Inv(w) && Clean(w) && p.retries > 0 && p.cascade && p.addresses
    requires IsRun(p, w, steps) && AllCompensated(p, w, steps)
    ensures Inv(After(p, w, steps)) && Clean(After(p, w, steps))
    decreases |steps|
  {
    if steps != [] {
      StepInv(p, w, steps[0]);
      CleanStep(p, w, steps[0]);
      CleanRun(p, Apply(p, w, steps[0]), steps[1..]);
    }
  }

  lemma NothingIsLost(p: Params, w0: World, steps: seq<Step>)
    requires p.retries > 0 && p.cascade && p.addresses
    requires Init(w0) && IsRun(p, w0, steps) && AllCompensated(p, w0, steps)
    ensures AccountedFor(After(p, w0, steps))
  {
    CleanRun(p, w0, steps);
    var w := After(p, w0, steps);
    forall id | Live(w.s, id)
      ensures id in w.foreign || id in w.reported
        || (id in w.owner && var n := w.owner[id];
            (n in w.saved && w.saved[n].id == id) || (n in w.ops && OpId(w.ops[n]) == Some(id)))
    {
      assert Owned(w, id);
    }
  }

  // ---------------------------------------------------------------- runs in which something is lost

  lemma {:induction false} Extend(p: Params, w: World, steps: seq<Step>, s: Step)
    requires IsRun(p, w, steps) && AllCompensated(p, w, steps)
    requires Enabled(p, After(p, w, steps), s) && Compensated(p, After(p, w, steps), s)
    ensures IsRun(p, w, steps + [s]) && AllCompensated(p, w, steps + [s])
    ensures After(p, w, steps + [s]) == Apply(p, After(p, w, steps), s)
    decreases |steps|
  {
    if steps == [] {
      assert [s][1..] == [];
    } else {
      Extend(p, Apply(p, w, steps[0]), steps[1..], s);
      assert (steps + [s])[1..] == steps[1..] + [s];
    }
  }

  lemma Next(p: Params, w0: World, run: seq<Step>, w: World, s: Step) returns (run': seq<Step>, w': World)
    requires IsRun(p, w0, run) && AllCompensated(p, w0, run) && After(p, w0, run) == w
    requires Enabled(p, w, s) && Compensated(p, w, s)
    ensures IsRun(p, w0, run') && AllCompensated(p, w0, run') && w' == Apply(p, w, s) && After(p, w0, run') == w'
  {
    Extend(p, w0, run, s);
    run', w' := run + [s], Apply(p, w, s);
  }

  const CLAIM := "k8s-claim"

  /** An empty array with two registered hosts, 1 and 2. */
  const EMPTY := World(State(map["a" := 1, "b" := 2], map[], map[], map[], map[], map[], {}),
                       map[], map[], {}, {}, {}, {}, map[], map[], {}, map[])

  lemma TwoHosts()
    ensures EMPTY.s.hosts.Values == {1, 2}
  {
    assert EMPTY.s.hosts["a"] == 1 && EMPTY.s.hosts["b"] == 2;
  }

  /** With a retry count of zero a filesystem is provisioned, never saved, and success reported. */
  lemma WithoutRetriesAssetsAreLost(p: Params) returns (run: seq<Step>)
    requires p.retries == 0
    ensures Init(EMPTY) && IsRun(p, EMPTY, run) && AllCompensated(p, EMPTY, run)
    ensures !AccountedFor(After(p, EMPTY, run))
  {
    var w;
    run, w := LoneFilesystem(p);
    run, w := Next(p, EMPTY, run, w, By(CLAIM, Attach(true, [], false)));
    run, w := Next(p, EMPTY, run, w, By(CLAIM, Serve(true)));
    run, w := Next(p, EMPTY, run, w, By(CLAIM, Save(false, [])));
    assert Live(w.s, 1) && w.owner[1] == CLAIM && CLAIM !in w.saved && CLAIM !in w.ops;
  }

  /** A filesystem of a cluster without nodes, so without an export. */
  lemma LoneFilesystem(p: Params) returns (run: seq<Step>, w: World)
    ensures Init(EMPTY) && IsRun(p, EMPTY, run) && AllCompensated(p, EMPTY, run) && After(p, EMPTY, run) == w
    ensures w == EMPTY.(s := FilesystemCreated(EMPTY.s, 1, CLAIM), owner := map[1 := CLAIM],
                        ops := map[CLAIM := Attaching(Asset(Nfs, 1, 0, 0), [])])
  {
    w := EMPTY;
    run := [];
    run, w := Next(p, EMPTY, run, w, By(CLAIM, StartProvision(Nfs)));
    run, w := Next(p, EMPTY, run, w, By(CLAIM, Create(true, 1, [])));
    run, w := Next(p, EMPTY, run, w, By(CLAIM, Action.Export(true, 0, true, StorageArray.Export(1, "", []))));
  }

  /** An iSCSI volume that is to be mapped on both hosts. */
  function VolumeFor(hosts: seq<Id>, k: nat): World {
    EMPTY.(s := VolumeCreated(EMPTY.s, 1, CLAIM), owner := map[1 := CLAIM], ops := map[CLAIM := Mapping(Iscsi, 1, hosts, k, -1)])
  }

  lemma LoneVolume(p: Params, hosts: seq<Id>) returns (run: seq<Step>, w: World)
    requires Known(EMPTY.s, hosts)
    ensures Init(EMPTY) && IsRun(p, EMPTY, run) && AllCompensated(p, EMPTY, run) && After(p, EMPTY, run) == w == VolumeFor(hosts, 0)
  {
    w := EMPTY;
    run := [];
    run, w := Next(p, EMPTY, run, w, By(CLAIM, StartProvision(Iscsi)));
    run, w := Next(p, EMPTY, run, w, By(CLAIM, Create(true, 1, hosts)));
  }

  lemma FirstHostMapped(p: Params, hosts: seq<Id>) returns (run: seq<Step>, w: World)
    requires hosts != [] && hosts[0] == 1 && Known(EMPTY.s, hosts)
    ensures Init(EMPTY) && IsRun(p, EMPTY, run) && AllCompensated(p, EMPTY, run) && After(p, EMPTY, run) == w
    ensures w.s == Mapped(VolumeCreated(EMPTY.s, 1, CLAIM), 1, 1, 0) && w.owner == map[1 := CLAIM]
    ensures w.ops == map[CLAIM := Mapping(Iscsi, 1, hosts, 1, 0)]
    ensures w.saved == map[] && w.reported == {} && w.foreign == {}
  {
    var w1;
    run, w1 := LoneVolume(p, hosts);
    TwoHosts();
    assert CanMap(w1.s, 1, 1, 0);
    run, w := Next(p, EMPTY, run, w1, By(CLAIM, MapNext(true, 0, [])));
  }

  /** If the second host cannot be mapped, an array that does not cascade refuses to destroy the volume. */
  lemma HalfMappedVolumesAreLost(p: Params) returns (run: seq<Step>)
    requires !p.cascade
    ensures Init(EMPTY) && IsRun(p, EMPTY, run) && AllCompensated(p, EMPTY, run)
    ensures !AccountedFor(After(p, EMPTY, run))
  {
    var w;
    TwoHosts();
    run, w := FirstHostMapped(p, [1, 2]);
    run, w := Next(p, EMPTY, run, w, By(CLAIM, MapNext(false, 0, [])));
    assert w.ops[CLAIM].script == [Todo(Destroy, true)];
    assert 1 in w.s.hosts.Values && (1, 1) in w.s.luns;
    run, w := Next(p, EMPTY, run, w, By(CLAIM, TearCall(false, [])));
    assert Live(w.s, 1) && w.owner[1] == CLAIM && CLAIM !in w.saved && CLAIM !in w.ops;
  }

  /** A network space without addresses is noticed when the volume is complete, and the volume stays. */
  lemma WithoutAddressesVolumesAreLost(p: Params) returns (run: seq<Step>)
    requires !p.addresses
    ensures Init(EMPTY) && IsRun(p, EMPTY, run) && AllCompensated(p, EMPTY, run)
    ensures !AccountedFor(After(p, EMPTY, run))
  {
    var w;
    TwoHosts();
    run, w := FirstHostMapped(p, [1]);
    run, w := Next(p, EMPTY, run, w, By(CLAIM, MapDone([])));
    run, w := Next(p, EMPTY, run, w, By(CLAIM, Attach(true, [], true)));
    assert Live(w.s, 1) && w.owner[1] == CLAIM && CLAIM !in w.saved && CLAIM !in w.ops;
  }

  ghost predicate Conserves(p: Params) {
    forall w0: World, steps: seq<Step> ::
      Init(w0) && IsRun(p, w0, steps) && AllCompensated(p, w0, steps) ==> AccountedFor(After(p, w0, steps))
  }

  /** What conservation over whole runs takes, and no less. */
  lemma ConservedExactly(p: Params)
    ensures Conserves(p) <==> p.retries > 0 && p.cascade && p.addresses
  {
    if p.retries == 0 {
      var run := WithoutRetriesAssetsAreLost(p);
    } else if !p.cascade {
      var run := HalfMappedVolumesAreLost(p);
    } else if !p.addresses {
      var run := WithoutAddressesVolumesAreLost(p);
    } else {
      forall w0: World, steps: seq<Step> | Init(w0) && IsRun(p, w0, steps) && AllCompensated(p, w0, steps)
        ensures AccountedFor(After(p, w0, steps))
      {
        NothingIsLost(p, w0, steps);
      }
    }
  }
}
