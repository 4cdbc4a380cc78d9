/** What follows for whole runs: one LUN per volume, and whole volumes. */
module StorageTheorems {
  import opened Commons
  import opened StorageArray
  import opened StorageInvariant
  import opened StorageRuns

  /**
    One LUN per volume: at any moment of any run, all hosts that map a volume of ours map it at
    the same LUN, and once the volume object exists that is the LUN it records.
  */
  lemma OneLunAlways(p: Params, w0: World, steps: seq<Step>)
    requires Init(w0) && IsRun(p, w0, steps)
    ensures var w := After(p, w0, steps);
      && (forall h: Id, g: Id, v: Id :: (h, v) in w.s.luns && (g, v) in w.s.luns && v !in w0.s.issued ==>
            w.s.luns[(h, v)] == w.s.luns[(g, v)])
      && (forall n, h: Id :: n in w.saved && w.saved[n].source != Nfs && (h, w.saved[n].id) in w.s.luns ==>
            w.s.luns[(h, w.saved[n].id)] == w.saved[n].lun)
  {
    RunInv(p, w0, steps);
    var w := After(p, w0, steps);
    ForeignStays(p, w0, steps);
    forall n, h: Id | n in w.saved && w.saved[n].source != Nfs && (h, w.saved[n].id) in w.s.luns
      ensures w.s.luns[(h, w.saved[n].id)] == w.saved[n].lun
    {
      assert ClaimInv(w, n);
    }
  }

  lemma {:induction false} ForeignStays(p: Params, w: World, steps: seq<Step>)
    requires IsRun(p, w, steps)
    ensures After(p, w, steps).foreign == w.foreign
    decreases |steps|
  {
    if steps != [] {
      ForeignStays(p, Apply(p, w, steps[0]), steps[1..]);
    }
  }

  /** A volume object not released for deletion has its whole asset behind it. */
  lemma SavedVolumesAreWhole(p: Params, w0: World, steps: seq<Step>, n: string)
    requires Init(w0) && IsRun(p, w0, steps)
    requires n in After(p, w0, steps).saved && n !in After(p, w0, steps).eligible
    ensures var w := After(p, w0, steps); Full(w.s, w.saved[n])
  {
    RunInv(p, w0, steps);
    assert ClaimInv(After(p, w0, steps), n);
  }
}
