/**
  The number allocator over a movable range [min, max]: a sparse set of used numbers and
  a count of the free ones that is kept up to date instead of being recomputed.

  Go's int is 64 bits wide; arithmetic on the count wraps around.
*/
module Allocator {

  const TWO63 := 0x8000_0000_0000_0000
  const TWO64 := 0x1_0000_0000_0000_0000
  const MAX_INT := TWO63 - 1

  type Int64 = x: int | -TWO63 <= x < TWO63

  /** The 64-bit two's complement value of an integer. */
  function Wrap(x: int): (r: Int64)
    ensures (r - x) % TWO64 == 0
    ensures -TWO63 <= x < TWO63 ==> r == x
  {
    (x + TWO63) % TWO64 - TWO63
  }

  datatype Error = ErrConflict | ErrInvalidRange | ErrOutOfRange | ErrRangeFull | ErrInternal
  datatype Outcome = Ok(number: Int64) | Err(error: Error)

  /** The fields of a MinMaxAllocator. */
  datatype Table = Table(min: Int64, max: Int64, free: Int64, used: set<Int64>)

  function InRange(used: set<Int64>, min: Int64, max: Int64): set<Int64> {
    set i | i in used && min <= i <= max
  }

  /** The simple definition of the count: how many numbers of the range are not used. */
  function FreeCount(min: Int64, max: Int64, used: set<Int64>): int {
    max - min + 1 - |InRange(used, min, max)|
  }

  /** The cached count agrees with a recount, up to the machine's wrap-around. */
  ghost predicate Valid(t: Table) {
    t.min <= t.max && t.free == Wrap(FreeCount(t.min, t.max, t.used))
  }

  // ---------------------------------------------------------------- the operations on values

  function NewTable(min: Int64, max: Int64): Table {
    Table(min, max, Wrap(1 + max - min), {})
  }

  function Ranged(t: Table, min: Int64, max: Int64): Table {
    if min > max || (t.min == min && t.max == max) then t
    else Table(min, max, Wrap(FreeCount(min, max, t.used)), t.used)
  }

  function Allocated(t: Table, i: Int64): (Table, Outcome) {
    if !(t.min <= i <= t.max) then (t, Err(ErrOutOfRange))
    else if i in t.used then (t, Err(ErrConflict))
    else (t.(used := t.used + {i}, free := Wrap(t.free - 1)), Ok(i))
  }

  function Released(t: Table, i: Int64): Table {
    if i !in t.used then t
    else t.(used := t.used - {i}, free := if t.min <= i <= t.max then Wrap(t.free + 1) else t.free)
  }

  /** The first number from `i` on that is not used, if `max` is not passed. */
  function Scan(used: set<Int64>, i: int, max: Int64): (r: Outcome)
    requires -TWO63 <= i
    ensures r.Ok? ==> i <= r.number <= max && r.number !in used
                      && forall j: Int64 :: i <= j < r.number ==> j in used
    ensures r.Err? ==> r.error == ErrInternal && forall j: Int64 :: i <= j <= max ==> j in used
    decreases max - i
  {
    if i > max then Err(ErrInternal)
    else if i !in used then Ok(i)
    else Scan(used, i + 1, max)
  }

  function NextAllocated(t: Table): (Table, Outcome) {
    if t.free <= 0 then (t, Err(ErrRangeFull))
    else match Scan(t.used, t.min, t.max)
         case Ok(i) => (t.(used := t.used + {i}, free := Wrap(t.free - 1)), Ok(i))
         case Err(e) => (t, Err(e))
  }

  // ---------------------------------------------------------------- counting

  ghost function Interval(min: int, max: Int64): (s: set<Int64>)
    requires -TWO63 <= min
    ensures forall i: Int64 :: i in s <==> min <= i <= max
    ensures |s| == if min <= max then max - min + 1 else 0
    decreases max - min
  {
    if min > max then {} else
      var rest := Interval(min + 1, max);
      assert min !in rest;
      rest + {min}
  }

  lemma {:induction false} SubsetSize(a: set<Int64>, b: set<Int64>)
    requires a <= b
    ensures |a| <= |b|
    ensures |a| == |b| ==> a == b
    decreases |b|
  {
    if a != {} {
      var x :| x in a;
      SubsetSize(a - {x}, b - {x});
      assert a == a - {x} + {x} && b == b - {x} + {x};
    }
  }

  /** Pigeonhole: the recount is never negative, and is zero exactly when the range is used up. */
  lemma Pigeonhole(min: Int64, max: Int64, used: set<Int64>)
    requires min <= max
    ensures 0 <= FreeCount(min, max, used) <= max - min + 1
    ensures FreeCount(min, max, used) == 0 <==> forall i: Int64 :: min <= i <= max ==> i in used
  {
    var all, taken := Interval(min, max), InRange(used, min, max);
    SubsetSize(taken, all);
    if forall i: Int64 :: min <= i <= max ==> i in used {
      assert taken == all;
    } else {
      var i: Int64 :| min <= i <= max && i !in used;
      assert i in all && i !in taken;
    }
  }

  lemma WrapAdd(x: int, d: int)
    ensures Wrap(Wrap(x) + d) == Wrap(x + d)
  {
    var y := Wrap(x);
    assert (y + d + TWO63) % TWO64 == (x + d + TWO63) % TWO64 by {
      var k := (y - x) / TWO64;
      assert y == x + k * TWO64;
      ModShift(x + d + TWO63, k);
    }
  }

  lemma {:induction false} ModShift(x: int, k: int)
    ensures (x + k * TWO64) % TWO64 == x % TWO64
    decreases if k < 0 then -k else k
  {
    if k > 0 {
      ModShift(x, k - 1);
    } else if k < 0 {
      ModShift(x, k + 1);
    }
  }

  lemma UsedGrows(min: Int64, max: Int64, used: set<Int64>, i: Int64)
    requires i !in used
    ensures FreeCount(min, max, used + {i}) == FreeCount(min, max, used) - if min <= i <= max then 1 else 0
  {
    var a, b := InRange(used, min, max), InRange(used + {i}, min, max);
    if min <= i <= max {
      assert b == a + {i};
    } else {
      assert b == a;
    }
  }

  // ---------------------------------------------------------------- what each operation keeps and does

  lemma NewValid(min: Int64, max: Int64)
    requires min <= max
    ensures Valid(NewTable(min, max))
  {
    assert InRange({}, min, max) == {};
  }

  lemma AllocateKeepsValid(t: Table, i: Int64)
    requires Valid(t)
    ensures Valid(Allocated(t, i).0)
  {
    if t.min <= i <= t.max && i !in t.used {
      UsedGrows(t.min, t.max, t.used, i);
      WrapAdd(FreeCount(t.min, t.max, t.used), -1);
    }
  }

  lemma ReleaseKeepsValid(t: Table, i: Int64)
    requires Valid(t)
    ensures Valid(Released(t, i))
  {
    if i in t.used {
      assert t.used - {i} + {i} == t.used;
      UsedGrows(t.min, t.max, t.used - {i}, i);
      WrapAdd(FreeCount(t.min, t.max, t.used), 1);
    }
  }

  lemma AllocateNextKeepsValid(t: Table)
    requires Valid(t)
    ensures Valid(NextAllocated(t).0)
  {
    var r := Scan(t.used, t.min, t.max);
    if t.free > 0 && r.Ok? {
      UsedGrows(t.min, t.max, t.used, r.number);
      WrapAdd(FreeCount(t.min, t.max, t.used), -1);
    }
  }

  datatype Op =
    | DoAllocate(i: Int64)
    | DoAllocateNext
    | DoRelease(i: Int64)
    | DoSetRange(min: Int64, max: Int64)

  function ApplyOp(t: Table, op: Op): Table {
    match op
    case DoAllocate(i) => Allocated(t, i).0
    case DoAllocateNext => NextAllocated(t).0
    case DoRelease(i) => Released(t, i)
    case DoSetRange(min, max) => Ranged(t, min, max)
  }

  function Run(t: Table, ops: seq<Op>): Table
    decreases |ops|
  {
    if ops == [] then t else Run(ApplyOp(t, ops[0]), ops[1..])
  }

  lemma {:induction false} RunKeepsValid(t: Table, ops: seq<Op>)
    requires Valid(t)
    ensures Valid(Run(t, ops))
    decreases |ops|
  {
    if ops != [] {
      match ops[0] {
        case DoAllocate(i) => AllocateKeepsValid(t, i);
        case DoAllocateNext => AllocateNextKeepsValid(t);
        case DoRelease(i) => ReleaseKeepsValid(t, i);
        case DoSetRange(_, _) =>
      }
      RunKeepsValid(ApplyOp(t, ops[0]), ops[1..]);
    }
  }

  /**
    After any sequence of operations on a new allocator, including ones that leave used
    numbers outside a shrunk range, the incremental count equals the recount, provided
    the current range fits the machine's int.
  */
  lemma FreeIsTheRecount(min: Int64, max: Int64, ops: seq<Op>)
    requires min <= max
    ensures var t := Run(NewTable(min, max), ops);
            t.min <= t.max && (t.max - t.min + 1 <= MAX_INT ==> t.free == FreeCount(t.min, t.max, t.used) >= 0)
  {
    NewValid(min, max);
    RunKeepsValid(NewTable(min, max), ops);
    var t := Run(NewTable(min, max), ops);
    Pigeonhole(t.min, t.max, t.used);
  }

  ghost predicate IsLeastFree(t: Table, i: Int64) {
    && t.min <= i <= t.max && i !in t.used
    && forall j: Int64 :: t.min <= j < i ==> j in t.used
  }

  /** The promise of AllocateNext: the least free number, and "range full" only if there is none. */
  ghost predicate Promise(t: Table, r: Outcome) {
    match r
    case Ok(i) => IsLeastFree(t, i)
    case Err(e) => e == ErrRangeFull && forall i: Int64 :: t.min <= i <= t.max ==> i in t.used
  }

  /**
    The promise is kept exactly when the number of free numbers fits the machine's int.
    A success is right in any case, and the internal error never happens.
  */
  lemma AllocateNextPromise(t: Table)
    requires Valid(t)
    ensures var r := NextAllocated(t).1;
            && (Promise(t, r) <==> FreeCount(t.min, t.max, t.used) <= MAX_INT)
            && (r.Ok? ==> IsLeastFree(t, r.number))
            && r != Err(ErrInternal)
  {
    Pigeonhole(t.min, t.max, t.used);
    var n := FreeCount(t.min, t.max, t.used);
    if n > MAX_INT {
      assert t.max - t.min + 1 <= TWO64;
      if n == TWO64 {
        assert t.free == 0;
      } else {
        assert t.free == n - TWO64;
      }
    }
  }

  /** A range that fits the int suffices, whatever has been used. */
  lemma FittingRangeKeepsThePromise(t: Table)
    requires Valid(t) && t.max - t.min + 1 <= MAX_INT
    ensures Promise(t, NextAllocated(t).1)
  {
    Pigeonhole(t.min, t.max, t.used);
    AllocateNextPromise(t);
  }

  /** The widest range breaks the promise: its count wraps to zero, and an empty table is "full". */
  lemma WidestRangeLooksFull()
    ensures var t := NewTable(-TWO63, MAX_INT);
            NextAllocated(t) == (t, Err(ErrRangeFull)) && !Promise(t, Err(ErrRangeFull))
  {
    var t := NewTable(-TWO63, MAX_INT);
    assert t.min <= 0 <= t.max;
    assert var i: Int64 := 0; i !in t.used;
  }

  // ---------------------------------------------------------------- the allocator itself

  class MinMaxAllocator {
    var min: Int64
    var max: Int64
    var free: Int64
    var used: map<Int64, bool>

    ghost function View(): Table
      reads this
    {
      Table(min, max, free, used.Keys)
    }

    constructor (min: Int64, max: Int64)
      requires min <= max
      ensures View() == NewTable(min, max)
    {
      this.min, this.max, free := min, max, Wrap(1 + max - min);
      used := map[];
    }

    /** NewMinMaxAllocator, which refuses an empty range. */
    static method New(min: Int64, max: Int64) returns (a: MinMaxAllocator?)
      ensures a == null <==> min > max
      ensures a != null ==> fresh(a) && Valid(a.View()) && a.View() == NewTable(min, max)
    {
      if min > max {
        return null;
      }
      a := new MinMaxAllocator(min, max);
      NewValid(min, max);
    }

    /** The recount of SetRange: how many used numbers lie in the range. */
    method CountUsed() returns (numUsed: nat)
      ensures numUsed == |InRange(used.Keys, min, max)|
    {
      numUsed := 0;
      ghost var counted := {};
      var todo := used.Keys;
      while todo != {}
        invariant todo !! counted && todo + counted == used.Keys
        invariant numUsed == |InRange(counted, min, max)|
        decreases |todo|
      {
        var i :| i in todo;
        todo := todo - {i};
        UsedGrows(min, max, counted, i);
        counted := counted + {i};
        if min <= i <= max {
          numUsed := numUsed + 1;
        }
      }
      assert counted == used.Keys;
    }

    method SetRange(min: Int64, max: Int64) returns (ok: bool)
      requires Valid(View())
      modifies this
      ensures Valid(View()) && View() == Ranged(old(View()), min, max)
      ensures ok <==> min <= max
    {
      if min > max {
        return false;
      }
      if this.min == min && this.max == max {
        return true;
      }
      this.min, this.max := min, max;
      var numUsed := CountUsed();
      free := Wrap(1 + max - min - numUsed);
      ok := true;
    }

    method Allocate(i: Int64) returns (r: Outcome)
      requires Valid(View())
      modifies this
      ensures Valid(View()) && (View(), r) == Allocated(old(View()), i)
    {
      AllocateKeepsValid(View(), i);
      if !(min <= i <= max) {
        return Err(ErrOutOfRange);
      }
      if i in used {
        return Err(ErrConflict);
      }
      used := used[i := true];
      free := Wrap(free - 1);
      assert used.Keys == old(used.Keys) + {i};
      r := Ok(i);
    }

    /** The scan never steps past the largest int, so the loop index cannot wrap around. */
    method AllocateNext() returns (r: Outcome)
      requires Valid(View())
      modifies this
      ensures Valid(View()) && (View(), r) == NextAllocated(old(View()))
      ensures r != Err(ErrInternal)
    {
      AllocateNextKeepsValid(View());
      AllocateNextPromise(View());
      if free <= 0 {
        return Err(ErrRangeFull);
      }
      ghost var n := Scan(used.Keys, min, max).number;
      var i: Int64 := min;
      while i <= max
        invariant View() == old(View())
        invariant min <= i <= n <= max && Scan(used.Keys, i, max) == Ok(n)
        decreases max - i
      {
        if i !in used {
          used := used[i := true];
          free := Wrap(free - 1);
          assert used.Keys == old(used.Keys) + {i};
          return Ok(i);
        }
        i := i + 1; // stays within Int64
      }
      assert false;
      r := Err(ErrInternal);
    }

    method Release(i: Int64)
      requires Valid(View())
      modifies this
      ensures Valid(View()) && View() == Released(old(View()), i)
    {
      ReleaseKeepsValid(View(), i);
      if i !in used {
        return;
      }
      used := used - {i};
      if min <= i <= max {
        free := Wrap(free + 1);
      }
    }
  }
}
