/**
  Supplemental GIDs per storage class: a table per class, built from the GIDs recorded in
  the class's persistent volumes the first time the class is used.
*/
module GidAllocator {
  import opened Allocator
  import opened Decimal

  const DEFAULT_GID_MIN: Int64 := 2000
  const DEFAULT_GID_MAX: Int64 := 0x7fff_ffff
  const ABSOLUTE_GID_MIN: Int64 := 2000
  const ABSOLUTE_GID_MAX: Int64 := 0x7fff_ffff

  datatype Option<+T> = None | Some(value: T) {
    function GetOr(default: T): T {
      match this
      case Some(v) => v
      case None => default
    }
  }

  /** What is read of a persistent volume: its class, in two places, and its GID annotation. */
  datatype PersistentVolume = PersistentVolume(
    classAnnotation: Option<string>, classField: string, gid: Option<string>)
  {
    /** The beta annotation takes precedence. */
    function Class(): string {
      match classAnnotation
      case Some(c) => c
      case None => classField
    }
  }

  function ConvertGid(s: string): (r: Option<Int64>)
    ensures r.Some? ==> 0 <= r.value <= ABSOLUTE_GID_MAX
    ensures forall n: Int64 :: r == Some(n) <==> ParseInt(s, LIMIT32) == Number(n) && 0 <= n <= ABSOLUTE_GID_MAX
  {
    match ParseInt(s, LIMIT32)
    case Number(v) => if v < 0 then None else Some(v)
    case _ => None
  }

  /** Every GID up to the largest 32-bit int is accepted as it is written. */
  lemma EveryGidIsAccepted(n: Int64)
    requires 0 <= n <= ABSOLUTE_GID_MAX
    ensures ConvertGid(Format(n)) == Some(n)
  {
    RoundTrip(n, LIMIT32);
  }

  /** The class parameters "gidmin" and "gidmax" whatever their case. */
  datatype Parameters = Parameters(gidMin: Option<string>, gidMax: Option<string>)

  function ParseBound(s: Option<string>, default: Int64): Option<Int64> {
    match s
    case None => Some(default)
    case Some(text) =>
      match ConvertGid(text)
      case Some(v) => if ABSOLUTE_GID_MIN <= v <= ABSOLUTE_GID_MAX then Some(v) else None
      case None => None
  }

  /** What the text of a parameter stands for: the default if it is absent, else the number it spells. */
  predicate Means(text: Option<string>, default: Int64, bound: Int64) {
    match text
    case None => bound == default
    case Some(s) => ParseInt(s, LIMIT32) == Number(bound)
  }

  function ParseClassParameters(p: Parameters): (r: Option<(Int64, Int64)>)
    ensures r.Some? ==> ABSOLUTE_GID_MIN <= r.value.0 <= r.value.1 <= ABSOLUTE_GID_MAX
    ensures r.Some? ==> Means(p.gidMin, DEFAULT_GID_MIN, r.value.0) && Means(p.gidMax, DEFAULT_GID_MAX, r.value.1)
    ensures forall lo: Int64, hi: Int64 :: Means(p.gidMin, DEFAULT_GID_MIN, lo) && Means(p.gidMax, DEFAULT_GID_MAX, hi) ==>
              ABSOLUTE_GID_MIN <= lo <= hi <= ABSOLUTE_GID_MAX ==> r == Some((lo, hi))
  {
    match (ParseBound(p.gidMin, DEFAULT_GID_MIN), ParseBound(p.gidMax, DEFAULT_GID_MAX))
    case (Some(lo), Some(hi)) => if lo > hi then None else Some((lo, hi))
    case _ => None
  }

  /** Bounds written in decimal are taken as they are, exactly if they are in order and within the absolute ones. */
  lemma WrittenBounds(lo: Int64, hi: Int64)
    requires 0 <= lo <= ABSOLUTE_GID_MAX && 0 <= hi <= ABSOLUTE_GID_MAX
    ensures ParseClassParameters(Parameters(Some(Format(lo)), Some(Format(hi)))) ==
            if ABSOLUTE_GID_MIN <= lo <= hi then Some((lo, hi)) else None
  {
    EveryGidIsAccepted(lo);
    EveryGidIsAccepted(hi);
  }

  // ---------------------------------------------------------------- filling a table

  /** The GID a volume contributes to the table of a class. */
  function Recorded(class_: string, pv: PersistentVolume): (r: Option<Int64>)
    // the class is that of the annotation, or that of the field if there is no annotation
    ensures r.Some? ==> pv.classAnnotation == Some(class_) || (pv.classAnnotation.None? && pv.classField == class_)
    ensures r.Some? ==> pv.gid.Some? && ParseInt(pv.gid.value, LIMIT32) == Number(r.value)
    ensures r.None? && pv.gid.Some? && (pv.classAnnotation == Some(class_) || (pv.classAnnotation.None? && pv.classField == class_)) ==>
              forall n: Int64 :: n >= 0 ==> ParseInt(pv.gid.value, LIMIT32) != Number(n)
  {
    if pv.Class() != class_ || pv.gid.None? then None else ConvertGid(pv.gid.value)
  }

  /** All GIDs recorded in the volumes of a class. */
  ghost function GidsOf(class_: string, pvs: seq<PersistentVolume>): set<Int64> {
    set pv | pv in pvs && Recorded(class_, pv).Some? :: Recorded(class_, pv).value
  }

  /** One volume of collectGids; a GID that is already there is only warned about. */
  function Collect1(class_: string, t: Table, pv: PersistentVolume): (Table, Outcome) {
    match Recorded(class_, pv)
    case None => (t, Ok(0))
    case Some(gid) => Allocated(t, gid)
  }

  function Collect(class_: string, t: Table, pvs: seq<PersistentVolume>): Table {
    if pvs == [] then t
    else Collect1(class_, Collect(class_, t, pvs[..|pvs| - 1]), pvs[|pvs| - 1]).0
  }

  /**
    With the full range nothing is left out, whatever duplicates the list holds, and no
    volume can make the collection fail.
  */
  lemma {:induction false} CollectGathersAll(class_: string, t: Table, pvs: seq<PersistentVolume>)
    requires Valid(t) && t.min == 0 && t.max == ABSOLUTE_GID_MAX
    ensures var r := Collect(class_, t, pvs);
            Valid(r) && r.min == t.min && r.max == t.max && r.used == t.used + GidsOf(class_, pvs)
    ensures forall pv :: Collect1(class_, Collect(class_, t, pvs), pv).1 !in {Err(ErrOutOfRange), Err(ErrRangeFull)}
    decreases |pvs|
  {
    if pvs == [] {
      assert GidsOf(class_, pvs) == {};
    } else {
      var init, last := pvs[..|pvs| - 1], pvs[|pvs| - 1];
      CollectGathersAll(class_, t, init);
      var gid := Recorded(class_, last);
      assert forall pv :: pv in pvs <==> pv in init || pv == last;
      if gid.Some? {
        AllocateKeepsValid(Collect(class_, t, init), gid.value);
        assert GidsOf(class_, pvs) == GidsOf(class_, init) + {gid.value};
      } else {
        assert GidsOf(class_, pvs) == GidsOf(class_, init);
      }
    }
  }

  /** A table as getGidTable builds it: collected over the full range, narrowed afterwards. */
  function Built(class_: string, pvs: seq<PersistentVolume>, min: Int64, max: Int64): Table {
    Ranged(Collect(class_, NewTable(0, ABSOLUTE_GID_MAX), pvs), min, max)
  }

  /** It holds exactly the recorded GIDs, and its count is the count of the narrowed range. */
  lemma BuiltHoldsTheRecordedGids(class_: string, pvs: seq<PersistentVolume>, min: Int64, max: Int64)
    requires ABSOLUTE_GID_MIN <= min <= max <= ABSOLUTE_GID_MAX
    ensures var t := Built(class_, pvs, min, max);
            && Valid(t) && t.used == GidsOf(class_, pvs)
            && t.min == min && t.max == max && t.free == FreeCount(min, max, t.used)
  {
    NewValid(0, ABSOLUTE_GID_MAX);
    CollectGathersAll(class_, NewTable(0, ABSOLUTE_GID_MAX), pvs);
    Pigeonhole(min, max, GidsOf(class_, pvs));
  }

  /** The contents decide: adapting any table that holds the recorded GIDs gives the table built here. */
  lemma SameAsBuilt(t: Table, class_: string, pvs: seq<PersistentVolume>, min: Int64, max: Int64)
    requires Valid(t) && t.used == GidsOf(class_, pvs) && ABSOLUTE_GID_MIN <= min <= max <= ABSOLUTE_GID_MAX
    ensures Ranged(t, min, max) == Built(class_, pvs, min, max)
  {
    BuiltHoldsTheRecordedGids(class_, pvs, min, max);
    Pigeonhole(min, max, t.used);
  }

  /** Class ranges are narrow enough for AllocateNext to keep its promise. */
  lemma NextOfClassRange(t: Table)
    requires Valid(t) && ABSOLUTE_GID_MIN <= t.min && t.max <= ABSOLUTE_GID_MAX
    ensures match NextAllocated(t).1
            case Ok(gid) => IsLeastFree(t, gid) && gid in NextAllocated(t).0.used
            case Err(_) => forall i: Int64 :: t.min <= i <= t.max ==> i in t.used
  {
    FittingRangeKeepsThePromise(t);
  }

  // ---------------------------------------------------------------- the allocator

  /** A table can be had: the parameters are good, and it is there or the volumes can be listed. */
  predicate Available(parameters: Parameters, known: bool, listing: Option<seq<PersistentVolume>>) {
    ParseClassParameters(parameters).Some? && (known || listing.Some?)
  }

  class GidAllocator {
    var gidTable: map<string, MinMaxAllocator>

    ghost predicate Valid()
      reads this, gidTable.Values
    {
      && (forall c :: c in gidTable ==> Allocator.Valid(gidTable[c].View()))
      && (forall c, d :: c in gidTable && d in gidTable && c != d ==> gidTable[c] != gidTable[d])
    }

    constructor ()
      ensures Valid() && gidTable == map[]
    {
      gidTable := map[];
    }

    /** `listing` is the reply to the list call, None if it failed. */
    method CollectGids(className: string, table: MinMaxAllocator, listing: Option<seq<PersistentVolume>>)
      returns (ok: bool)
      requires Allocator.Valid(table.View()) && table.min == 0 && table.max == ABSOLUTE_GID_MAX
      modifies table
      ensures ok <==> listing.Some?
      ensures Allocator.Valid(table.View())
      ensures ok ==> table.View() == Collect(className, old(table.View()), listing.value)
    {
      if listing.None? {
        return false;
      }
      var pvs := listing.value;
      for k := 0 to |pvs|
        invariant Allocator.Valid(table.View())
        invariant table.View() == Collect(className, old(table.View()), pvs[..k])
      {
        CollectGathersAll(className, old(table.View()), pvs[..k]);
        assert pvs[..k + 1][..k] == pvs[..k];
        var pv := pvs[k];
        if pv.Class() == className && pv.gid.Some? {
          var gid := ConvertGid(pv.gid.value);
          if gid.Some? {
            ghost var here := Collect1(className, Collect(className, old(table.View()), pvs[..k]), pv).1;
            var r := table.Allocate(gid.value);
            assert r == here;
            if r.Err? && r.error != ErrConflict {
              return false;
            }
          }
        }
      }
      assert pvs[..|pvs|] == pvs;
      ok := true;
    }

    /** A private table, narrowed only after everything is collected. */
    method BuildTable(className: string, min: Int64, max: Int64, listing: Option<seq<PersistentVolume>>)
      returns (t: MinMaxAllocator?)
      requires ABSOLUTE_GID_MIN <= min <= max <= ABSOLUTE_GID_MAX
      ensures t == null <==> listing.None?
      ensures t != null ==> fresh(t) && Allocator.Valid(t.View()) && t.View() == Built(className, listing.value, min, max)
    {
      t := MinMaxAllocator.New(0, ABSOLUTE_GID_MAX);
      var collected := CollectGids(className, t, listing);
      if !collected {
        return null;
      }
      var _ := t.SetRange(min, max);
    }

    /** Another goroutine registers a table for the class, built from the listing it got. */
    method RegisterOther(className: string, pvs: seq<PersistentVolume>, ghost mine: MinMaxAllocator)
      requires Valid() && className !in gidTable && mine !in gidTable.Values
      modifies this
      ensures Valid() && mine !in gidTable.Values
      ensures className in gidTable && gidTable == old(gidTable)[className := gidTable[className]]
      ensures fresh(gidTable[className]) && gidTable[className].View().used == GidsOf(className, pvs)
    {
      assert DEFAULT_GID_MIN <= DEFAULT_GID_MAX;
      var min: Int64, max: Int64 :| ABSOLUTE_GID_MIN <= min <= max <= ABSOLUTE_GID_MAX;
      var t := BuildTable(className, min, max, Some(pvs));
      BuiltHoldsTheRecordedGids(className, pvs, min, max);
      gidTable := gidTable[className := t];
    }

    /** A registered table is adapted to the current range of its class. */
    method Adapt(className: string, min: Int64, max: Int64) returns (t: MinMaxAllocator)
      requires Valid() && min <= max && className in gidTable
      modifies gidTable[className]
      ensures Valid() && t == gidTable[className]
      ensures t.View() == Ranged(old(t.View()), min, max) && t.min == min && t.max == max
    {
      t := gidTable[className];
      var _ := t.SetRange(min, max);
    }

    /**
      The end of getGidTable, under the lock: a table that has been registered meanwhile is
      used and adapted, and the one just built is dropped; otherwise it is registered.
    */
    method Register(className: string, built: MinMaxAllocator, min: Int64, max: Int64) returns (t: MinMaxAllocator)
      requires Valid() && built !in gidTable.Values && Allocator.Valid(built.View())
      requires min <= max && built.min == min && built.max == max
      modifies this, if className in gidTable then {gidTable[className]} else {}
      ensures Valid() && built.View() == old(built.View())
      ensures className in gidTable && t == gidTable[className] && t.min == min && t.max == max
      ensures gidTable == if className in old(gidTable) then old(gidTable) else old(gidTable)[className := built]
      ensures t == built <==> className !in old(gidTable)
      ensures className in old(gidTable) ==> t.View() == Ranged(old(gidTable[className].View()), min, max)
    {
      if className in gidTable {
        t := Adapt(className, min, max);
        return;
      }
      gidTable := gidTable[className := built];
      t := built;
    }

    /**
      Builds a table while no lock is held and registers it. `meanwhile` is the listing from
      which somebody else registers a table for the class in between.
    */
    method MakeTable(className: string, min: Int64, max: Int64, listing: Option<seq<PersistentVolume>>,
                     meanwhile: Option<seq<PersistentVolume>>)
      returns (t: MinMaxAllocator?)
      requires Valid() && className !in gidTable && ABSOLUTE_GID_MIN <= min <= max <= ABSOLUTE_GID_MAX
      modifies this
      ensures Valid()
      ensures t == null <==> listing.None?
      ensures gidTable == if t == null then old(gidTable) else old(gidTable)[className := t]
      ensures t != null ==> fresh(t) && t.min == min && t.max == max
      ensures t != null ==> t.View() == Built(className, meanwhile.GetOr(listing.value), min, max)
    {
      t := BuildTable(className, min, max, listing);
      if t == null {
        return;
      }
      if meanwhile.Some? {
        RegisterOther(className, meanwhile.value, t);
        SameAsBuilt(gidTable[className].View(), className, meanwhile.value, min, max);
      }
      BuiltHoldsTheRecordedGids(className, listing.value, min, max);
      t := Register(className, t, min, max);
    }

    /**
      The table of a class. A registered table is never replaced, not even by one that was
      being built while another goroutine registered its own.
    */
    method GetGidTable(className: string, min: Int64, max: Int64, listing: Option<seq<PersistentVolume>>,
                       meanwhile: Option<seq<PersistentVolume>>)
      returns (t: MinMaxAllocator?)
      requires Valid() && ABSOLUTE_GID_MIN <= min <= max <= ABSOLUTE_GID_MAX
      modifies this, if className in gidTable then {gidTable[className]} else {}
      ensures Valid()
      ensures t == null <==> className !in old(gidTable) && listing.None?
      ensures t == null || className in old(gidTable) ==> gidTable == old(gidTable)
      ensures t != null && className !in old(gidTable) ==> gidTable == old(gidTable)[className := t]
      ensures className in old(gidTable) ==> t == old(gidTable[className])
      ensures className in old(gidTable) ==> t.View() == Ranged(old(gidTable[className].View()), min, max)
      // a table made now holds what a listing records: the one of whoever registered first
      ensures t != null && className !in old(gidTable) ==> fresh(t)
      ensures t != null && className !in old(gidTable) ==>
                t.View() == Built(className, meanwhile.GetOr(listing.value), min, max)
      ensures t != null && className !in old(gidTable) ==>
                t.used.Keys == GidsOf(className, meanwhile.GetOr(listing.value))
      ensures t != null ==> className in gidTable && gidTable[className] == t
      ensures t != null ==> Allocator.Valid(t.View()) && t.min == min && t.max == max
    {
      if className in gidTable {
        t := Adapt(className, min, max);
        return;
      }
      t := MakeTable(className, min, max, listing, meanwhile);
      if t != null {
        BuiltHoldsTheRecordedGids(className, meanwhile.GetOr(listing.value), min, max);
      }
    }

    /** The next GID of a table with a class range: the least free one, or none. */
    static method Take(t: MinMaxAllocator) returns (r: Option<Int64>)
      requires Allocator.Valid(t.View()) && ABSOLUTE_GID_MIN <= t.min && t.max <= ABSOLUTE_GID_MAX
      modifies t
      ensures Allocator.Valid(t.View()) && t.View() == NextAllocated(old(t.View())).0
      ensures r.Some? <==> exists i: Int64 :: old(t.min) <= i <= old(t.max) && i !in old(t.View()).used
      ensures r.Some? ==> IsLeastFree(old(t.View()), r.value)
      ensures t.View().used == old(t.View()).used + if r.Some? then {r.value} else {}
    {
      NextOfClassRange(t.View());
      var n := t.AllocateNext();
      r := if n.Ok? then Some(n.number) else None;
    }

    /**
      `before` is the class's table when the GID is chosen: the registered one adapted to the
      class's current range, or one that holds what a listing records. The GID handed out is
      the least of that range which is not in use, and is in use afterwards.
    */
    method AllocateNext(className: string, parameters: Parameters, listing: Option<seq<PersistentVolume>>,
                        meanwhile: Option<seq<PersistentVolume>>)
      returns (r: Option<Int64>, ghost before: Table)
      requires Valid()
      modifies this, if className in gidTable then {gidTable[className]} else {}
      ensures Valid()
      // a table can be had, and it is the right one
      ensures Available(parameters, className in old(gidTable), listing) ==>
                && ParseClassParameters(parameters) == Some((before.min, before.max))
                && (className in old(gidTable) ==>
                      before == Ranged(old(gidTable[className].View()), before.min, before.max))
                && (className !in old(gidTable) ==>
                      before.used == GidsOf(className, meanwhile.GetOr(listing.value)))
      // it succeeds exactly if some number of the range is free
      ensures r.Some? <==> Available(parameters, className in old(gidTable), listing)
                           && exists i: Int64 :: before.min <= i <= before.max && i !in before.used
      ensures r.Some? ==> IsLeastFree(before, r.value)
      ensures Available(parameters, className in old(gidTable), listing) ==>
                && className in gidTable
                && gidTable[className].View() == NextAllocated(before).0
                && gidTable[className].View().used == before.used + if r.Some? then {r.value} else {}
      ensures !Available(parameters, className in old(gidTable), listing) || className in old(gidTable) ==>
                gidTable == old(gidTable)
      ensures Available(parameters, className in old(gidTable), listing) && className !in old(gidTable) ==>
                gidTable == old(gidTable)[className := gidTable[className]]
      // in particular, a class used for the first time never gets a GID that its volumes record
      ensures r.Some? && className !in old(gidTable) ==>
                r.value !in GidsOf(className, meanwhile.GetOr(listing.value))
    {
      before := NewTable(0, 0);
      var range := ParseClassParameters(parameters);
      if range.None? {
        return None, before;
      }
      var t := GetGidTable(className, range.value.0, range.value.1, listing, meanwhile);
      if t == null {
        return None, before;
      }
      before := t.View();
      r := Take(t);
    }

    /** Releases a GID in the table of one class. */
    method ReleaseFrom(className: string, gid: Int64, min: Int64, max: Int64, listing: Option<seq<PersistentVolume>>,
                       meanwhile: Option<seq<PersistentVolume>>)
      returns (ok: bool, ghost before: Table)
      requires Valid() && ABSOLUTE_GID_MIN <= min <= max <= ABSOLUTE_GID_MAX
      modifies this, if className in gidTable then {gidTable[className]} else {}
      ensures Valid()
      ensures ok ==> className in gidTable
      ensures !ok || className in old(gidTable) ==> gidTable == old(gidTable)
      ensures ok && className !in old(gidTable) ==> gidTable == old(gidTable)[className := gidTable[className]]
      ensures ok ==> gidTable[className].View() == Released(before, gid)
      ensures ok ==> before.min == min && before.max == max
      ensures ok && className in old(gidTable) ==> before == Ranged(old(gidTable[className].View()), min, max)
      ensures ok <==> className in old(gidTable) || listing.Some?
      ensures ok && className !in old(gidTable) ==>
                before.used == GidsOf(className, meanwhile.GetOr(listing.value))
    {
      before := NewTable(0, 0);
      var t := GetGidTable(className, min, max, listing, meanwhile);
      if t == null {
        return false, before;
      }
      before := t.View();
      t.Release(gid);
      ok := true;
    }

    /** The GID the volume carries, if it has one that can be read. */
    static function Carried(volume: PersistentVolume): Option<Int64> {
      if volume.gid.Some? then ConvertGid(volume.gid.value) else None
    }

    /** What a release under a class has done, `carried` being the GID of the volume. */
    twostate predicate Freed(className: string, parameters: Parameters, carried: Option<Int64>,
                             listing: Option<seq<PersistentVolume>>, meanwhile: Option<seq<PersistentVolume>>,
                             ok: bool, before: Table)
      reads this, gidTable.Values
    {
      // it fails for bad parameters, and if a table is needed that cannot be had
      && (ok <==> ParseClassParameters(parameters).Some?
                  && (carried.Some? && listing.None? ==> className in old(gidTable)))
      && (ok && carried.Some? ==>
            && className in gidTable
            && gidTable[className].View() == Released(before, carried.value)
            && ParseClassParameters(parameters) == Some((before.min, before.max))
            && (className in old(gidTable) ==>
                  before == Ranged(old(gidTable[className].View()), before.min, before.max))
            && (className !in old(gidTable) ==>
                  && before.used == GidsOf(className, meanwhile.GetOr(listing.value))
                  && gidTable == old(gidTable)[className := gidTable[className]]))
      && (!ok || carried.None? || className in old(gidTable) ==> gidTable == old(gidTable))
      && ((!ok || carried.None?) && className in gidTable ==> gidTable[className].View() == old(gidTable[className].View()))
    }

    /** Releases what a volume carries, if anything, under the class that was looked up. */
    method ReleaseAs(className: string, parameters: Parameters, volume: PersistentVolume,
                     listing: Option<seq<PersistentVolume>>, meanwhile: Option<seq<PersistentVolume>>)
      returns (ok: bool, ghost before: Table)
      requires Valid()
      modifies this, if className in gidTable then {gidTable[className]} else {}
      ensures Valid()
      ensures Freed(className, parameters, Carried(volume), listing, meanwhile, ok, before)
    {
      before := NewTable(0, 0);
      var range := ParseClassParameters(parameters);
      if range.None? {
        return false, before;
      }
      if volume.gid.Some? {
        var gid := ConvertGid(volume.gid.value);
        if gid.Some? {
          ok, before := ReleaseFrom(className, gid.value, range.value.0, range.value.1, listing, meanwhile);
          return;
        }
      }
      ok := true;
    }

    /**
      `lookup` is the reply for the volume's class. The error of that call is dropped, and an
      unanswered lookup goes on with an empty class without parameters: the table named "".
    */
    method Release(volume: PersistentVolume, lookup: Option<Parameters>, listing: Option<seq<PersistentVolume>>,
                   meanwhile: Option<seq<PersistentVolume>>)
      returns (ok: bool, ghost before: Table)
      requires Valid()
      modifies this, if (if lookup.Some? then volume.Class() else "") in gidTable
                     then {gidTable[if lookup.Some? then volume.Class() else ""]} else {}
      ensures Valid()
      ensures Freed(if lookup.Some? then volume.Class() else "", lookup.GetOr(Parameters(None, None)), Carried(volume),
                    listing, meanwhile, ok, before)
      // the table of the volume's own class is touched only if the class was read, or has no name
      ensures volume.Class() in old(gidTable) && lookup.None? && volume.Class() != "" ==>
                gidTable[volume.Class()].View() == old(gidTable[volume.Class()].View())
      // and a GID that is taken there is freed there exactly then
      ensures ok && Carried(volume).Some? && volume.Class() in old(gidTable)
              && Carried(volume).value in old(gidTable[volume.Class()].View()).used ==>
                (Carried(volume).value !in gidTable[volume.Class()].View().used <==> lookup.Some? || volume.Class() == "")
    {
      var className, parameters := "", Parameters(None, None);
      if lookup.Some? {
        className, parameters := volume.Class(), lookup.value;
      }
      ok, before := ReleaseAs(className, parameters, volume, listing, meanwhile);
    }
  }
}
