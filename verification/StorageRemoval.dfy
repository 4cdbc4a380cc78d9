/** When the object of a volume can still be removed, and when it stays for ever. */
module StorageRemoval {
  import opened Commons
  import opened FailureCounts
  import opened StorageArray
  import opened StorageConservation
  import opened StorageInvariant
  import opened StorageRuns
  import opened StorageSteps

  // ---------------------------------------------------------------- deletions under way

  predicate UnmapsRegistered(s: State, script: seq<Todo>) {
    forall k :: 0 <= k < |script| && script[k].call.Unmap? ==> script[k].call.host in s.hosts.Values
  }

  /**
    Only the last call destroys, hosts are registered, an export that is there has still to be
    deleted, and once the object is gone the script is at its end or has to detach first.
  */
  ghost predicate Underway(s: State, a: Asset, script: seq<Todo>) {
    && EndsInDestroy(script) && UnmapsRegistered(s, script)
    && (a.exportId in s.exports ==> Todo(Unexport(a.exportId), true) in script)
    && (!Live(s, a.id) ==> Todo(Detach, true) in script)
  }

  ghost predicate DeletionInv(w: World, n: string) {
    n in w.ops && w.ops[n].TearingDown? && w.ops[n].why.Deletion? && w.ops[n].script != [] ==>
      Underway(w.s, w.ops[n].a, w.ops[n].script)
  }

  ghost predicate AllDeletions(w: World) {
    forall n :: DeletionInv(w, n)
  }

  lemma DeleteIsUnderway(s: State, a: Asset, hosts: seq<Id>)
    requires Known(s, hosts) && ExportOwn(s, a)
    ensures Underway(s, a, DeleteScript(a, hosts)) && Todo(Detach, true) in DeleteScript(a, hosts)
  {
    var script := DeleteScript(a, hosts);
    DeleteEndsInDestroy(s, a, hosts);
    if a.source == Nfs {
      assert script[0] == Todo(Unexport(a.exportId), true) && script[1] == Todo(Detach, true);
    } else {
      assert script[0] == Todo(Detach, true);
      forall k | 0 <= k < |script| && script[k].call.Unmap? ensures script[k].call.host in s.hosts.Values {
        assert script[k] == Todo(Unmap(hosts[k - 1]), true) && hosts[k - 1] in hosts;
      }
    }
  }

  /** A call that takes effect leaves the rest under way. */
  lemma CallUnderway(p: Params, s: State, a: Asset, script: seq<Todo>)
    requires Wf(s) && Underway(s, a, script) && Accepted(p, s, a, script[0].call) && script[1..] != []
    requires Live(s, a.id) ==> Exists(s, a)
    ensures var s' := Effect(s, a, script[0].call);
      Underway(s', a, script[1..]) && (Live(s, a.id) ==> Live(s', a.id))
  {
    RestUnderway(s, a, script);
    if Live(s, a.id) {
      CallKeepsObject(s, a, script[0].call);
    }
  }

  lemma RestUnderway(s: State, a: Asset, script: seq<Todo>)
    requires EndsInDestroy(script) && UnmapsRegistered(s, script) && script[1..] != []
    ensures EndsInDestroy(script[1..]) && UnmapsRegistered(s, script[1..]) && script[0].call != Destroy
    ensures forall t :: t in script <==> t == script[0] || t in script[1..]
  {
    assert script[1..][|script| - 2] == script[|script| - 1];
  }

  lemma TornDeletion(p: Params, w: World, n: string, ok: bool, current: seq<Id>)
    requires Inv(w) && DeletionInv(w, n) && Enabled(p, w, By(n, TearCall(ok, current)))
    ensures DeletionInv(Torn(p, w, n, w.ops[n], ok, current), n)
  {
    var op := w.ops[n];
    assert ClaimInv(w, n);
    if op.why.Deletion? && op.script[1..] != [] {
      if ok {
        CallUnderway(p, w.s, op.a, op.script);
      } else if !op.script[0].strict {
        SkippedUnderway(w.s, op.a, op.script);
      }
    }
  }

  lemma SkippedUnderway(s: State, a: Asset, script: seq<Todo>)
    requires Underway(s, a, script) && !script[0].strict && script[1..] != []
    ensures Underway(s, a, script[1..])
  {
    RestUnderway(s, a, script);
  }

  lemma ForwardDeletion(p: Params, w: World, n: string, action: Action)
    requires Enabled(p, w, By(n, action)) && IsForward(action)
    ensures DeletionInv(Apply(p, w, By(n, action)), n)
  {
  }

  lemma MoverDeletion(p: Params, w: World, n: string, action: Action)
    requires Inv(w) && DeletionInv(w, n) && Enabled(p, w, By(n, action))
    ensures DeletionInv(Apply(p, w, By(n, action)), n)
  {
    if IsForward(action) {
      ForwardDeletion(p, w, n, action);
    } else if action.TearCall? {
      TornDeletion(p, w, n, action.ok, action.current);
    } else if action.StartDelete? {
      assert ClaimInv(w, n);
      DeleteIsUnderway(w.s, w.saved[n], action.current);
    }
  }

  lemma OtherDeletion(w: World, w': World, n: string, x: Id, m: string)
    requires Inv(w) && DeletionInv(w, m) && OnlyOp(w, w', n) && OthersLive(w.s, w'.s, x) && m != n
    requires 0 !in w'.s.exports && (m in w.ops ==> OpId(w.ops[m]) != Some(x))
    ensures DeletionInv(w', m)
  {
    assert ClaimInv(w, m);
  }

  lemma DeletionsStep(p: Params, w: World, step: Step)
    requires Inv(w) && AllDeletions(w) && Enabled(p, w, step)
    ensures AllDeletions(Apply(p, w, step))
  {
    var w' := Apply(p, w, step);
    StepInv(p, w, step);
    assert 0 !in w'.s.exports;
    forall m ensures DeletionInv(w', m) {
      assert DeletionInv(w, m);
      if step.By? {
        if m == step.claim {
          MoverDeletion(p, w, m, step.action);
        } else {
          ActionModest(p, w, step.claim, step.action);
          if m in w.ops {
            OtherVictim(p, w, step.claim, step.action, m);
          }
          OtherDeletion(w, w', step.claim, Victim(w, step.claim, step.action), m);
        }
      }
    }
  }

  lemma {:induction false} DeletionsRun(p: Params, w: World, steps: seq<Step>)
    requires Inv(w) && AllDeletions(w) && IsRun(p, w, steps)
    ensures Inv(After(p, w, steps)) && AllDeletions(After(p, w, steps))
    decreases |steps|
  {
    if steps != [] {
      StepInv(p, w, steps[0]);
      DeletionsStep(p, w, steps[0]);
      DeletionsRun(p, Apply(p, w, steps[0]), steps[1..]);
    }
  }

  // ---------------------------------------------------------------- objects that stay

  /** The asset is gone, and whatever runs for the claim still has to detach it. */
  ghost predicate Stuck(w: World, n: string) {
    && n in w.saved && !Live(w.s, w.saved[n].id)
    && (n in w.ops ==> w.ops[n].TearingDown? && w.ops[n].a == w.saved[n] && Todo(Detach, true) in w.ops[n].script)
  }

  lemma TornStaysStuck(p: Params, w: World, n: string, ok: bool, current: seq<Id>)
    requires Inv(w) && Stuck(w, n) && Enabled(p, w, By(n, TearCall(ok, current)))
    ensures var w' := Torn(p, w, n, w.ops[n], ok, current); Stuck(w', n) && w'.saved == w.saved
  {
    assert ClaimInv(w, n);
    var op := w.ops[n];
    assert forall t :: t in op.script <==> t == op.script[0] || t in op.script[1..];
  }

  lemma MoverStaysStuck(p: Params, w: World, n: string, action: Action)
    requires Inv(w) && Stuck(w, n) && Enabled(p, w, By(n, action))
    ensures var w' := Apply(p, w, By(n, action)); Stuck(w', n) && w'.saved == w.saved
  {
    assert ClaimInv(w, n);
    if action.TearCall? {
      TornStaysStuck(p, w, n, action.ok, action.current);
    } else if action.StartDelete? {
      DeleteIsUnderway(w.s, w.saved[n], action.current);
    }
  }

  lemma StuckStep(p: Params, w: World, step: Step, n: string)
    requires Inv(w) && Stuck(w, n) && Enabled(p, w, step)
    ensures var w' := Apply(p, w, step); Stuck(w', n) && w'.saved[n] == w.saved[n]
  {
    if step.By? {
      if step.claim == n {
        MoverStaysStuck(p, w, n, step.action);
      } else {
        assert ClaimInv(w, n);
        ActionModest(p, w, step.claim, step.action);
        NotTheVictim(p, w, step.claim, step.action, n, w.saved[n].id);
      }
    }
  }

  /** The asset is gone and the object is not about to be removed: it never will be. */
  lemma {:induction false} NeverRemoved(p: Params, w: World, steps: seq<Step>, n: string)
    requires Inv(w) && Stuck(w, n) && IsRun(p, w, steps)
    ensures var w' := After(p, w, steps); Stuck(w', n) && w'.saved[n] == w.saved[n]
    decreases |steps|
  {
    if steps != [] {
      StepInv(p, w, steps[0]);
      StuckStep(p, w, steps[0], n);
      NeverRemoved(p, Apply(p, w, steps[0]), steps[1..], n);
    }
  }

  // ---------------------------------------------------------------- objects nobody tries to delete

  /** So many deletions have failed in a row that no further one is begun. */
  predicate GivenUp(p: Params, w: World, n: string) {
    n in w.saved && n !in w.ops && Exhausted(w.failures, p.threshold, n)
  }

  lemma GivenUpStep(p: Params, w: World, step: Step, n: string)
    requires Inv(w) && GivenUp(p, w, n) && Enabled(p, w, step)
    ensures var w' := Apply(p, w, step); GivenUp(p, w', n) && w'.saved[n] == w.saved[n]
  {
    if step.By? && step.claim != n {
      ActionModest(p, w, step.claim, step.action);
    }
  }

  /** Whatever happens later, a volume that was given up stays as it is. */
  lemma {:induction false} NeverTriedAgain(p: Params, w: World, steps: seq<Step>, n: string)
    requires Inv(w) && GivenUp(p, w, n) && IsRun(p, w, steps)
    ensures var w' := After(p, w, steps); GivenUp(p, w', n) && w'.saved[n] == w.saved[n]
    decreases |steps|
  {
    if steps != [] {
      StepInv(p, w, steps[0]);
      GivenUpStep(p, w, steps[0], n);
      NeverTriedAgain(p, Apply(p, w, steps[0]), steps[1..], n);
    }
  }

  // ---------------------------------------------------------------- objects that can be removed

  /** The calls of a script are accepted one after the other. */
  ghost predicate Accepts(p: Params, s: State, a: Asset, script: seq<Todo>)
    decreases |script|
  {
    script != [] ==> Accepted(p, s, a, script[0].call) && Accepts(p, Effect(s, a, script[0].call), a, script[1..])
  }

  /** Once no host maps the volume, no call of a deletion is refused, on any array. */
  lemma {:induction false} AcceptsUnmapped(p: Params, s: State, a: Asset, script: seq<Todo>)
    requires Wf(s) && Exists(s, a) && Underway(s, a, script) && OnlyExport(s, a.id, a.exportId) && ExportOwn(s, a)
    requires forall h :: (h, a.id) !in s.luns
    requires forall k :: 0 <= k < |script| && script[k].call.Unexport? ==> script[k].call.e == a.exportId
    ensures Accepts(p, s, a, script)
    decreases |script|
  {
    var call := script[0].call;
    if script[1..] == [] {
      assert script == [script[0]] && call == Destroy;
      assert a.exportId !in s.exports;
      assert Accepts(p, Effect(s, a, call), a, script[1..]);
    } else {
      RestUnderway(s, a, script);
      CallUnderway(p, s, a, script);
      CallKeepsObject(s, a, call);
      EffectKeepsKind(s, a, call);
      EffectTouches(s, a, call);
      EffectShrinks(s, a, call);
      AcceptsUnmapped(p, Effect(s, a, call), a, script[1..]);
    }
  }

  lemma ListOf(ids: set<Id>) returns (list: seq<Id>)
    ensures forall h :: h in list <==> h in ids
  {
    if h :| h in ids {
      var rest := ListOf(ids - {h});
      list := [h] + rest;
    } else {
      list := [];
    }
  }

  /** The nodes of a volume's hosts leave one after the other. */
  lemma {:induction false} Unmapped1(p: Params, w: World, a: Asset, hosts: seq<Id>) returns (run: seq<Step>, w': World)
    requires a in w.ever
    ensures IsRun(p, w, run) && After(p, w, run) == w'
    ensures w' == w.(s := w.s.(luns := w'.s.luns))
    ensures forall h :: (h, a.id) in w'.s.luns ==> (h, a.id) in w.s.luns && h !in hosts
    decreases |hosts|
  {
    if hosts == [] {
      run, w' := [], w;
    } else {
      var step := NodeUnmap(a, hosts[0]);
      var w1 := Apply(p, w, step);
      Single(p, w, step);
      var rest;
      rest, w' := Unmapped1(p, w1, a, hosts[1..]);
      Joined(p, w, [step], rest);
      run := [step] + rest;
    }
  }

  lemma AllUnmapped(p: Params, w: World, a: Asset) returns (run: seq<Step>, w': World)
    requires a in w.ever
    ensures IsRun(p, w, run) && After(p, w, run) == w'
    ensures w' == w.(s := w.s.(luns := w'.s.luns)) && forall h :: (h, a.id) !in w'.s.luns
  {
    var all := set k | k in w.s.luns && k.1 == a.id :: k.0;
    var hosts := ListOf(all);
    run, w' := Unmapped1(p, w, a, hosts);
    forall h ensures (h, a.id) !in w'.s.luns {
      assert (h, a.id) in w.s.luns ==> (h, a.id).0 in all;
    }
  }

  /** All that matters of a claim whose deletion goes on. */
  ghost predicate Deleting(w: World, n: string, a: Asset, script: seq<Todo>) {
    n in w.saved && w.saved[n] == a && n in w.ops && w.ops[n] == TearingDown(a, script, Deletion)
  }

  lemma {:induction false} RunsScript(p: Params, w: World, n: string, a: Asset, script: seq<Todo>)
    returns (run: seq<Step>, w': World)
    requires Deleting(w, n, a, script) && Accepts(p, w.s, a, script)
    ensures IsRun(p, w, run) && After(p, w, run) == w' && Deleting(w', n, a, [])
    decreases |script|
  {
    if script == [] {
      run, w' := [], w;
    } else {
      var step := By(n, TearCall(true, []));
      var w1 := Apply(p, w, step);
      Single(p, w, step);
      var rest;
      rest, w' := RunsScript(p, w1, n, a, script[1..]);
      Joined(p, w, [step], rest);
      run := [step] + rest;
    }
  }

  lemma Finishes(p: Params, w: World, n: string, a: Asset) returns (run: seq<Step>)
    requires Deleting(w, n, a, []) || (n in w.ops && w.ops[n] == Removing(a))
    ensures IsRun(p, w, run) && n !in After(p, w, run).saved
  {
    var w1;
    run, w1 := [], w;
    if w.ops[n].TearingDown? {
      run, w1 := Go(p, w, run, w1, By(n, TearDone));
    }
    run, w1 := Go(p, w, run, w1, By(n, Remove(true)));
  }

  /** A deletion under way on an asset that is there can be finished. */
  lemma Completes(p: Params, w: World, n: string) returns (run: seq<Step>)
    requires Inv(w) && DeletionInv(w, n) && n in w.saved && Live(w.s, w.saved[n].id)
    requires n in w.ops && w.ops[n].TearingDown? && w.ops[n].script != []
    ensures IsRun(p, w, run) && n !in After(p, w, run).saved
  {
    assert ClaimInv(w, n);
    var a, script := w.saved[n], w.ops[n].script;
    var w1, w2, calls, last;
    run, w1 := AllUnmapped(p, w, a);
    RunInv(p, w, run);
    AcceptsUnmapped(p, w1.s, a, script);
    calls, w2 := RunsScript(p, w1, n, a, script);
    last := Finishes(p, w2, n, a);
    Joined(p, w1, calls, last);
    Joined(p, w, run, calls + last);
    run := run + (calls + last);
  }

  /** And so can one that is begun, as long as it is not given up. */
  lemma DeletesAgain(p: Params, w: World, n: string) returns (run: seq<Step>)
    requires Inv(w) && n in w.saved && n !in w.ops && Live(w.s, w.saved[n].id) && !Exhausted(w.failures, p.threshold, n)
    ensures IsRun(p, w, run) && n !in After(p, w, run).saved
  {
    assert ClaimInv(w, n);
    var w1, rest;
    run, w1 := Go(p, w, [], w, By(n, Release));
    run, w1 := Go(p, w, run, w1, By(n, StartDelete([])));
    RunInv(p, w, run);
    DeleteIsUnderway(w.s, w.saved[n], []);
    rest := Completes(p, w1, n);
    Joined(p, w, run, rest);
    run := run + rest;
  }

  /** The asset is deleted, and all that is left to do is to remove the object. */
  predicate RemovalPending(w: World, n: string) {
    n in w.ops && (w.ops[n].Removing? || (w.ops[n].TearingDown? && w.ops[n].script == []))
  }

  lemma CanBeRemoved(p: Params, w: World, n: string) returns (run: seq<Step>)
    requires Inv(w) && DeletionInv(w, n) && n in w.saved && !GivenUp(p, w, n)
    requires Live(w.s, w.saved[n].id) || RemovalPending(w, n)
    ensures IsRun(p, w, run) && n !in After(p, w, run).saved
  {
    assert ClaimInv(w, n);
    if RemovalPending(w, n) {
      run := Finishes(p, w, n, w.saved[n]);
    } else if n in w.ops {
      run := Completes(p, w, n);
    } else {
      run := DeletesAgain(p, w, n);
    }
  }

  ghost predicate StaysForEver(p: Params, w: World, n: string) {
    forall steps: seq<Step> :: IsRun(p, w, steps) ==> n in After(p, w, steps).saved
  }

  /**
    At any moment of any run, the object of a volume stays for ever exactly if its asset is
    gone and its removal is not pending, or its deletion has been given up.
  */
  lemma StaysExactlyIfGoneOrGivenUp(p: Params, w0: World, before: seq<Step>, n: string)
    requires Init(w0) && IsRun(p, w0, before) && n in After(p, w0, before).saved
    ensures var w := After(p, w0, before);
      StaysForEver(p, w, n) <==> (!Live(w.s, w.saved[n].id) && !RemovalPending(w, n)) || GivenUp(p, w, n)
  {
    DeletionsRun(p, w0, before);
    var w := After(p, w0, before);
    assert ClaimInv(w, n) && DeletionInv(w, n);
    if GivenUp(p, w, n) {
      forall steps: seq<Step> | IsRun(p, w, steps) ensures n in After(p, w, steps).saved {
        NeverTriedAgain(p, w, steps, n);
      }
    } else if !Live(w.s, w.saved[n].id) && !RemovalPending(w, n) {
      assert Stuck(w, n);
      forall steps: seq<Step> | IsRun(p, w, steps) ensures n in After(p, w, steps).saved {
        NeverRemoved(p, w, steps, n);
      }
    } else {
      var run := CanBeRemoved(p, w, n);
      assert IsRun(p, w, run);
    }
  }

  // ---------------------------------------------------------------- how to get there

  const FILESYSTEM := Asset(Nfs, 1, 0, 0)

  /** A saved filesystem that has been released. */
  ghost predicate Released(w: World) {
    && w.saved == map[CLAIM := FILESYSTEM] && w.ops == map[] && CLAIM in w.eligible && Full(w.s, FILESYSTEM)
  }

  lemma SavedFilesystem(p: Params) returns (run: seq<Step>, w: World)
    requires p.retries > 0
    ensures Init(EMPTY) && IsRun(p, EMPTY, run) && After(p, EMPTY, run) == w
    ensures w.saved == map[CLAIM := FILESYSTEM] && w.ops == map[] && Full(w.s, FILESYSTEM) && w.failures == map[]
  {
    run, w := LoneFilesystem(p);
    run, w := Go(p, EMPTY, run, w, By(CLAIM, Attach(true, [], false)));
    run, w := Go(p, EMPTY, run, w, By(CLAIM, Serve(true)));
    run, w := Go(p, EMPTY, run, w, By(CLAIM, Save(true, [])));
  }

  lemma ReleasedFilesystem(p: Params) returns (run: seq<Step>, w: World)
    requires p.retries > 0
    ensures Init(EMPTY) && IsRun(p, EMPTY, run) && After(p, EMPTY, run) == w && Released(w) && w.failures == map[]
  {
    run, w := SavedFilesystem(p);
    run, w := Go(p, EMPTY, run, w, By(CLAIM, Release));
  }

  lemma RemovalFails(p: Params, w: World, n: string, a: Asset) returns (run: seq<Step>, w': World)
    requires Inv(w) && Deleting(w, n, a, [])
    ensures IsRun(p, w, run) && After(p, w, run) == w'
    ensures n in w'.saved && w'.saved[n] == a && n !in w'.ops && !Live(w'.s, a.id)
  {
    assert ClaimInv(w, n);
    run, w' := Go(p, w, [], w, By(n, TearDone));
    run, w' := Go(p, w, run, w', By(n, Remove(false)));
  }

  lemma DeletionBegun(p: Params) returns (run: seq<Step>, w: World)
    requires p.retries > 0
    ensures Init(EMPTY) && IsRun(p, EMPTY, run) && After(p, EMPTY, run) == w
    ensures Deleting(w, CLAIM, FILESYSTEM, DeleteScript(FILESYSTEM, [])) && Exists(w.s, FILESYSTEM)
    ensures forall h :: (h, 1) !in w.s.luns
  {
    run, w := ReleasedFilesystem(p);
    run, w := Go(p, EMPTY, run, w, By(CLAIM, StartDelete([])));
    RunInv(p, EMPTY, run);
  }

  /** One failed removal is enough for an object to stay for ever. */
  lemma OneFailedRemoval(p: Params) returns (run: seq<Step>)
    requires p.retries > 0
    ensures Init(EMPTY) && IsRun(p, EMPTY, run)
    ensures CLAIM in After(p, EMPTY, run).saved && StaysForEver(p, After(p, EMPTY, run), CLAIM)
  {
    var w, w1, w2, calls, end;
    run, w := DeletionBegun(p);
    RunInv(p, EMPTY, run);
    assert ClaimInv(w, CLAIM);
    DeleteIsUnderway(w.s, FILESYSTEM, []);
    AcceptsUnmapped(p, w.s, FILESYSTEM, DeleteScript(FILESYSTEM, []));
    calls, w1 := RunsScript(p, w, CLAIM, FILESYSTEM, DeleteScript(FILESYSTEM, []));
    RunInv(p, w, calls);
    end, w2 := RemovalFails(p, w1, CLAIM, FILESYSTEM);
    Joined(p, w, calls, end);
    Joined(p, EMPTY, run, calls + end);
    run := run + (calls + end);
    StaysExactlyIfGoneOrGivenUp(p, EMPTY, run, CLAIM);
  }

  /** A deletion whose first call fails. */
  lemma OneFailedDeletion(p: Params, w: World) returns (run: seq<Step>, w': World)
    requires p.threshold > 0 && Released(w) && !Exhausted(w.failures, p.threshold, CLAIM)
    ensures IsRun(p, w, run) && After(p, w, run) == w' && Released(w')
    ensures w'.failures == Counted(w.failures, p.threshold, CLAIM, true)
  {
    run, w' := Go(p, w, [], w, By(CLAIM, StartDelete([])));
    run, w' := Go(p, w, run, w', By(CLAIM, TearCall(false, [])));
  }

  lemma {:induction false} FailsSoOften(p: Params, k: nat) returns (run: seq<Step>, w: World)
    requires p.retries > 0 && p.threshold > 0 && k <= p.threshold
    ensures Init(EMPTY) && IsRun(p, EMPTY, run) && After(p, EMPTY, run) == w && Released(w)
    ensures k == 0 ==> CLAIM !in w.failures
    ensures k > 0 ==> CLAIM in w.failures && w.failures[CLAIM] == k
    decreases k
  {
    if k == 0 {
      run, w := ReleasedFilesystem(p);
    } else {
      var before, w1, more;
      before, w1 := FailsSoOften(p, k - 1);
      more, w := OneFailedDeletion(p, w1);
      Joined(p, EMPTY, before, more);
      run := before + more;
    }
  }

  /** After enough failed deletions an object stays for ever although its asset is there and nothing is amiss any more. */
  lemma GivenUpWithItsAsset(p: Params) returns (run: seq<Step>)
    requires p.retries > 0 && p.threshold > 0
    ensures Init(EMPTY) && IsRun(p, EMPTY, run)
    ensures var w := After(p, EMPTY, run);
      CLAIM in w.saved && Full(w.s, w.saved[CLAIM]) && StaysForEver(p, w, CLAIM)
  {
    var w;
    run, w := FailsSoOften(p, p.threshold);
    StaysExactlyIfGoneOrGivenUp(p, EMPTY, run, CLAIM);
  }
}
