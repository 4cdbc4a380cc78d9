/**
  Interleavings of any number of AllocateNext and Release calls in one process. The class
  table map is read and written under one lock, each table is changed under its own lock,
  and building a table holds none: those are the steps.
*/
module GidRuns {
  import opened Allocator
  import opened GidAllocator

  datatype Goal = Take | Give(gid: Int64)

  datatype Call =
    | Starting(class_: string, min: Int64, max: Int64, goal: Goal)
    | Missed(class_: string, min: Int64, max: Int64, goal: Goal)
    | Found(class_: string, min: Int64, max: Int64, goal: Goal, table: nat)
    | Private(class_: string, min: Int64, max: Int64, goal: Goal, built: Table)
    | Holding(class_: string, goal: Goal, table: nat)

  /**
    `registered` maps a class to the identity of its table. `held` is history: per class,
    the GIDs recorded in the volumes its table was built from and the GIDs handed out,
    without those released since.
  */
  datatype World = World(
    registered: map<string, nat>, tables: map<nat, Table>, calls: map<nat, Call>,
    held: map<string, set<Int64>>)

  datatype Step =
    | Call(k: nat, class_: string, min: Int64, max: Int64, goal: Goal)
    | Lookup(k: nat)
    | Build(k: nat, listing: Option<seq<PersistentVolume>>)
    | AdaptRange(k: nat)
    | Publish(k: nat, id: nat)
    | Finish(k: nat)

  const START := World(map[], map[], map[], map[])

  ghost predicate Enabled(w: World, s: Step) {
    match s
    case Call(k, _, min, max, _) => k !in w.calls && ABSOLUTE_GID_MIN <= min <= max <= ABSOLUTE_GID_MAX
    case Lookup(k) => k in w.calls && w.calls[k].Starting?
    case Build(k, _) => k in w.calls && w.calls[k].Missed?
    case AdaptRange(k) => k in w.calls && w.calls[k].Found? && w.calls[k].table in w.tables
    case Publish(k, id) =>
      && k in w.calls && w.calls[k].Private? && id !in w.tables
      && (w.calls[k].class_ in w.registered ==> w.registered[w.calls[k].class_] in w.tables)
    case Finish(k) => k in w.calls && w.calls[k].Holding? && w.calls[k].table in w.tables
  }

  /** What a Finish hands out. */
  ghost function HandedOut(w: World, s: Step): Option<Int64>
    requires Enabled(w, s)
  {
    if s.Finish? && w.calls[s.k].goal.Take? then
      match NextAllocated(w.tables[w.calls[s.k].table]).1
      case Ok(gid) => Some(gid)
      case Err(_) => None
    else None
  }

  ghost predicate Releases(w: World, s: Step, class_: string, gid: Int64)
    requires Enabled(w, s)
  {
    s.Finish? && w.calls[s.k].class_ == class_ && w.calls[s.k].goal == Give(gid)
  }

  function Held(w: World, class_: string): set<Int64> {
    if class_ in w.held then w.held[class_] else {}
  }

  ghost function Apply(w: World, s: Step): World
    requires Enabled(w, s)
  {
    match s
    case Call(k, c, min, max, goal) => w.(calls := w.calls[k := Starting(c, min, max, goal)])
    case Lookup(k) =>
      var t := w.calls[k];
      w.(calls := w.calls[k :=
        if t.class_ in w.registered
        then Found(t.class_, t.min, t.max, t.goal, w.registered[t.class_])
        else Missed(t.class_, t.min, t.max, t.goal)])
    case Build(k, listing) =>
      var t := w.calls[k];
      if listing.None? then w.(calls := w.calls - {k})
      else w.(calls := w.calls[k :=
             Private(t.class_, t.min, t.max, t.goal, Built(t.class_, listing.value, t.min, t.max))])
    case AdaptRange(k) =>
      var t := w.calls[k];
      w.(calls := w.calls[k := Holding(t.class_, t.goal, t.table)],
         tables := w.tables[t.table := Ranged(w.tables[t.table], t.min, t.max)])
    case Publish(k, id) =>
      var t := w.calls[k];
      if t.class_ in w.registered then
        var old_ := w.registered[t.class_];
        w.(calls := w.calls[k := Holding(t.class_, t.goal, old_)],
           tables := w.tables[old_ := Ranged(w.tables[old_], t.min, t.max)])
      else
        w.(calls := w.calls[k := Holding(t.class_, t.goal, id)],
           tables := w.tables[id := t.built],
           registered := w.registered[t.class_ := id],
           held := w.held[t.class_ := t.built.used])
    case Finish(k) =>
      var t := w.calls[k];
      match t.goal
      case Take =>
        var (table, r) := NextAllocated(w.tables[t.table]);
        w.(calls := w.calls - {k}, tables := w.tables[t.table := table],
           held := if r.Ok? then w.held[t.class_ := Held(w, t.class_) + {r.number}] else w.held)
      case Give(gid) =>
        w.(calls := w.calls - {k}, tables := w.tables[t.table := Released(w.tables[t.table], gid)],
           held := w.held[t.class_ := Held(w, t.class_) - {gid}])
  }

  ghost predicate CallInv(w: World, t: Call) {
    && (t.Found? || t.Holding? ==> t.class_ in w.registered && w.registered[t.class_] == t.table)
    && (t.Private? ==> Valid(t.built))
    && (!t.Holding? ==> ABSOLUTE_GID_MIN <= t.min <= t.max <= ABSOLUTE_GID_MAX)
  }

  ghost predicate ClassInv(w: World, c: string)
    requires c in w.registered
  {
    && w.registered[c] in w.tables
    && Valid(w.tables[w.registered[c]])
    && Held(w, c) <= w.tables[w.registered[c]].used
  }

  ghost predicate NoSharing(registered: map<string, nat>) {
    forall c, d :: c in registered && d in registered && registered[c] == registered[d] ==> c == d
  }

  /** Everything held of a class is marked as used in the class's one table. */
  ghost predicate Inv(w: World) {
    && w.held.Keys == w.registered.Keys
    && (forall c :: c in w.registered ==> ClassInv(w, c))
    && NoSharing(w.registered)
    && (forall k :: k in w.calls ==> CallInv(w, w.calls[k]))
  }

  lemma CallReplaced(w: World, k: nat, t: Call)
    requires Inv(w) && CallInv(w, t)
    ensures Inv(w.(calls := w.calls[k := t]))
  {
    var w' := w.(calls := w.calls[k := t]);
    forall c | c in w'.registered ensures ClassInv(w', c) {
      assert ClassInv(w, c);
    }
  }

  lemma CallEnded(w: World, k: nat)
    requires Inv(w)
    ensures Inv(w.(calls := w.calls - {k}))
  {
    var w' := w.(calls := w.calls - {k});
    forall c | c in w'.registered ensures ClassInv(w', c) {
      assert ClassInv(w, c);
    }
  }

  lemma TableReplaced(w: World, c: string, t: Table, held: set<Int64>)
    requires Inv(w) && c in w.registered && Valid(t) && held <= t.used
    ensures Inv(w.(tables := w.tables[w.registered[c] := t], held := w.held[c := held]))
  {
    var w' := w.(tables := w.tables[w.registered[c] := t], held := w.held[c := held]);
    forall d | d in w'.registered ensures ClassInv(w', d) {
      assert ClassInv(w, d);
    }
  }

  lemma TablePublished(w: World, c: string, id: nat, t: Table)
    requires Inv(w) && c !in w.registered && id !in w.tables && Valid(t)
    ensures Inv(w.(tables := w.tables[id := t], registered := w.registered[c := id], held := w.held[c := t.used]))
  {
    var w' := w.(tables := w.tables[id := t], registered := w.registered[c := id], held := w.held[c := t.used]);
    forall d | d in w'.registered ensures ClassInv(w', d) && (d != c ==> w'.registered[d] != id) {
      assert d != c ==> ClassInv(w, d);
    }
    forall k | k in w'.calls ensures CallInv(w', w'.calls[k]) {
      CallUnaffected(w, c, id, t, w.calls[k]);
    }
    NewIdentity(w.registered, c, id);
  }

  lemma CallUnaffected(w: World, c: string, id: nat, t: Table, call: Call)
    requires c !in w.registered && id !in w.tables && Valid(t) && CallInv(w, call)
    ensures CallInv(w.(tables := w.tables[id := t], registered := w.registered[c := id], held := w.held[c := t.used]), call)
  {
  }

  lemma NewIdentity(registered: map<string, nat>, c: string, id: nat)
    requires NoSharing(registered) && forall d :: d in registered ==> registered[d] != id
    ensures NoSharing(registered[c := id])
  {
  }

  lemma FinishInv(w: World, k: nat)
    requires Inv(w) && Enabled(w, Finish(k))
    ensures Inv(Apply(w, Finish(k)))
  {
    var t := w.calls[k];
    assert CallInv(w, t) && ClassInv(w, t.class_);
    var table, held := w.tables[t.table], Held(w, t.class_);
    CallEnded(w, k);
    var w1 := w.(calls := w.calls - {k});
    match t.goal
    case Give(gid) =>
      ReleaseKeepsValid(table, gid);
      TableReplaced(w1, t.class_, Released(table, gid), held - {gid});
    case Take =>
      AllocateNextKeepsValid(table);
      var (table', r) := NextAllocated(table);
      TableReplaced(w1, t.class_, table', if r.Ok? then held + {r.number} else held);
      assert w1.held == w1.held[t.class_ := held];
  }

  lemma StepInv(w: World, s: Step)
    requires Inv(w) && Enabled(w, s)
    ensures Inv(Apply(w, s))
  {
    match s
    case Call(k, c, min, max, goal) => CallReplaced(w, k, Starting(c, min, max, goal));
    case Lookup(k) =>
      assert CallInv(w, w.calls[k]);
      CallReplaced(w, k, Apply(w, s).calls[k]);
    case Build(k, listing) =>
      var t := w.calls[k];
      assert CallInv(w, t);
      if listing.Some? {
        BuiltHoldsTheRecordedGids(t.class_, listing.value, t.min, t.max);
        CallReplaced(w, k, Apply(w, s).calls[k]);
      } else {
        CallEnded(w, k);
      }
    case AdaptRange(k) => RangeInv(w, k, w.calls[k]);
    case Publish(k, id) =>
      var t := w.calls[k];
      assert CallInv(w, t);
      if t.class_ in w.registered {
        RangeInv(w, k, t);
      } else {
        TablePublished(w, t.class_, id, t.built);
        CallReplaced(Apply(w, s).(calls := w.calls), k, Holding(t.class_, t.goal, id));
      }
    case Finish(k) => FinishInv(w, k);
  }

  lemma RangeInv(w: World, k: nat, t: Call)
    requires Inv(w) && CallInv(w, t) && (t.Found? || t.Private?) && t.class_ in w.registered
    ensures var id := w.registered[t.class_];
            && id in w.tables
            && Inv(w.(calls := w.calls[k := Holding(t.class_, t.goal, id)],
                      tables := w.tables[id := Ranged(w.tables[id], t.min, t.max)]))
  {
    assert ClassInv(w, t.class_);
    var id := w.registered[t.class_];
    CallReplaced(w, k, Holding(t.class_, t.goal, id));
    TableReplaced(w.(calls := w.calls[k := Holding(t.class_, t.goal, id)]), t.class_,
                  Ranged(w.tables[id], t.min, t.max), Held(w, t.class_));
    assert w.held == w.held[t.class_ := Held(w, t.class_)];
  }

  ghost predicate IsRun(w: World, steps: seq<Step>)
    decreases |steps|
  {
    steps == [] || (Enabled(w, steps[0]) && IsRun(Apply(w, steps[0]), steps[1..]))
  }

  ghost function After(w: World, steps: seq<Step>): World
    requires IsRun(w, steps)
    decreases |steps|
  {
    if steps == [] then w else After(Apply(w, steps[0]), steps[1..])
  }

  lemma {:induction false} RunInv(w: World, steps: seq<Step>)
    requires Inv(w) && IsRun(w, steps)
    ensures Inv(After(w, steps))
    decreases |steps|
  {
    if steps != [] {
      StepInv(w, steps[0]);
      RunInv(Apply(w, steps[0]), steps[1..]);
    }
  }

  ghost predicate NeverReleased(w: World, steps: seq<Step>, class_: string, gid: Int64)
    requires IsRun(w, steps)
    decreases |steps|
  {
    steps != [] ==>
      !Releases(w, steps[0], class_, gid) && NeverReleased(Apply(w, steps[0]), steps[1..], class_, gid)
  }

  lemma HeldAfterStep(w: World, s: Step, class_: string, gid: Int64)
    requires Inv(w) && Enabled(w, s) && gid in Held(w, class_) && !Releases(w, s, class_, gid)
    ensures gid in Held(Apply(w, s), class_)
  {
    assert class_ in w.registered;
  }

  lemma {:induction false} HeldUntilReleased(w: World, steps: seq<Step>, class_: string, gid: Int64)
    requires Inv(w) && IsRun(w, steps) && gid in Held(w, class_) && NeverReleased(w, steps, class_, gid)
    ensures gid in Held(After(w, steps), class_)
    decreases |steps|
  {
    if steps != [] {
      StepInv(w, steps[0]);
      HeldAfterStep(w, steps[0], class_, gid);
      HeldUntilReleased(Apply(w, steps[0]), steps[1..], class_, gid);
    }
  }

  lemma {:induction false} NeverReplaced(w: World, steps: seq<Step>, class_: string)
    requires IsRun(w, steps) && class_ in w.registered
    ensures var w' := After(w, steps); class_ in w'.registered && w'.registered[class_] == w.registered[class_]
    decreases |steps|
  {
    if steps != [] {
      NeverReplaced(Apply(w, steps[0]), steps[1..], class_);
    }
  }

  /**
    A GID once handed out, or recorded in a volume the class's table was built from, is not
    handed out again for that class before it is released: whatever the calls in between and
    however they interleave, it stays marked in the class's table, which is still the same.
  */
  lemma GidsAreUnique(before: seq<Step>, steps: seq<Step>, last: Step, class_: string, gid: Int64)
    requires IsRun(START, before) && gid in Held(After(START, before), class_)
    requires IsRun(After(START, before), steps)
    requires NeverReleased(After(START, before), steps, class_, gid)
    requires Enabled(After(After(START, before), steps), last)
    ensures var w, w' := After(START, before), After(After(START, before), steps);
            && class_ in w.registered && class_ in w'.registered && w'.registered[class_] == w.registered[class_]
            && w'.registered[class_] in w'.tables && gid in w'.tables[w'.registered[class_]].used
            && (last.Finish? && w'.calls[last.k].class_ == class_ ==> HandedOut(w', last) != Some(gid))
  {
    RunInv(START, before);
    var w := After(START, before);
    RunInv(w, steps);
    HeldUntilReleased(w, steps, class_, gid);
    NeverReplaced(w, steps, class_);
    var w' := After(w, steps);
    assert ClassInv(w', class_);
    if last.Finish? {
      assert CallInv(w', w'.calls[last.k]);
    }
  }

  /** What is handed out counts as held from then on. */
  lemma HandedOutIsHeld(before: seq<Step>, last: Step)
    requires IsRun(START, before) && Enabled(After(START, before), last)
    requires HandedOut(After(START, before), last).Some?
    ensures var w := After(START, before);
            var gid, class_ := HandedOut(w, last).value, w.calls[last.k].class_;
            gid !in Held(w, class_) && gid in Held(Apply(w, last), class_)
  {
    RunInv(START, before);
    var w := After(START, before);
    assert CallInv(w, w.calls[last.k]) && ClassInv(w, w.calls[last.k].class_);
  }
}
