/** The one-time validation of pool and network spaces: split, filter, join. */
module Validation {
  import opened StorageArray

  // ---------------------------------------------------------------- strings.Split, Join and Trim

  function Split(s: string, sep: char): (r: seq<string>)
    ensures r != [] && forall x :: x in r ==> sep !in x
    decreases |s|
  {
    if s == "" then [""]
    else
      var rest := Split(s[1..], sep);
      if s[0] == sep then [""] + rest else [[s[0]] + rest[0]] + rest[1..]
  }

  function Join(xs: seq<string>, sep: char): string {
    if xs == [] then "" else if |xs| == 1 then xs[0] else xs[0] + [sep] + Join(xs[1..], sep)
  }

  function TrimLeft(s: string): string {
    if s != "" && s[0] == ' ' then TrimLeft(s[1..]) else s
  }

  function TrimRight(s: string): string {
    if s != "" && s[|s| - 1] == ' ' then TrimRight(s[..|s| - 1]) else s
  }

  function Trim(s: string): string {
    TrimRight(TrimLeft(s))
  }

  predicate Blank(s: string) {
    forall k :: 0 <= k < |s| ==> s[k] == ' '
  }

  lemma {:induction false} TrimLeftParts(s: string) returns (n: nat)
    ensures n <= |s| && Blank(s[..n]) && TrimLeft(s) == s[n..] && (TrimLeft(s) != "" ==> TrimLeft(s)[0] != ' ')
    decreases |s|
  {
    n := 0;
    if s != "" && s[0] == ' ' {
      n := TrimLeftParts(s[1..]);
      n := n + 1;
      assert s[..n] == [s[0]] + s[1..][..n - 1];
    }
  }

  lemma {:induction false} TrimRightParts(s: string) returns (n: nat)
    ensures n <= |s| && Blank(s[n..]) && TrimRight(s) == s[..n]
    ensures TrimRight(s) != "" ==> TrimRight(s)[n - 1] != ' ' && TrimRight(s)[0] == s[0]
    decreases |s|
  {
    n := |s|;
    if s != "" && s[|s| - 1] == ' ' {
      var t := s[..|s| - 1];
      n := TrimRightParts(t);
      assert s[n..] == t[n..] + [s[|s| - 1]];
    }
  }

  /** Only blanks are taken away, at both ends, and none is left there. */
  lemma TrimTakesTheBlanks(s: string) returns (i: nat, j: nat)
    ensures i <= j <= |s| && Trim(s) == s[i..j] && Blank(s[..i]) && Blank(s[j..])
    ensures i < j ==> s[i] != ' ' && s[j - 1] != ' '
  {
    i := TrimLeftParts(s);
    var n := TrimRightParts(s[i..]);
    j := i + n;
    assert s[i..][..n] == s[i..j] && s[i..][n..] == s[j..];
  }

  /** A character put before the first piece comes before the whole. */
  lemma JoinPush(c: char, rest: seq<string>, sep: char)
    requires rest != []
    ensures Join([[c] + rest[0]] + rest[1..], sep) == [c] + Join(rest, sep)
  {
    var r := [[c] + rest[0]] + rest[1..];
    assert r[1..] == rest[1..];
    if |rest| > 1 {
      var tail := [sep] + Join(rest[1..], sep);
      assert Join(rest, sep) == rest[0] + tail;
      assert Join(r, sep) == ([c] + rest[0]) + tail;
    }
  }

  lemma {:induction false} JoinSplit(s: string, sep: char)
    ensures Join(Split(s, sep), sep) == s
    decreases |s|
  {
    if s != "" {
      var rest := Split(s[1..], sep);
      JoinSplit(s[1..], sep);
      assert s == [s[0]] + s[1..];
      if s[0] == sep {
        assert ([""] + rest)[1..] == rest;
      } else {
        JoinPush(s[0], rest, sep);
      }
    }
  }

  lemma {:induction false} SplitPiece(x: string, sep: char)
    requires sep !in x
    ensures Split(x, sep) == [x]
    decreases |x|
  {
    if x != "" {
      SplitPiece(x[1..], sep);
      assert [x[0]] + x[1..] == x;
    }
  }

  lemma {:induction false} SplitPrefix(x: string, t: string, sep: char)
    requires sep !in x
    ensures Split(x + [sep] + t, sep) == [x] + Split(t, sep)
    decreases |x|
  {
    var s := x + [sep] + t;
    if x == "" {
      assert s == [sep] + t && s[1..] == t;
    } else {
      assert s[1..] == x[1..] + [sep] + t;
      SplitPrefix(x[1..], t, sep);
      assert [x[0]] + x[1..] == x;
      assert ([x[1..]] + Split(t, sep))[1..] == Split(t, sep);
    }
  }

  lemma {:induction false} SplitJoin(xs: seq<string>, sep: char)
    requires xs != [] && forall x :: x in xs ==> sep !in x
    ensures Split(Join(xs, sep), sep) == xs
    decreases |xs|
  {
    if |xs| == 1 {
      SplitPiece(xs[0], sep);
    } else {
      SplitJoin(xs[1..], sep);
      SplitPrefix(xs[0], Join(xs[1..], sep), sep);
    }
  }

  // ---------------------------------------------------------------- validation

  function Filter(names: seq<string>, known: set<string>): (r: seq<string>)
    ensures forall x :: x in r <==> x in names && x in known
  {
    if names == [] then []
    else
      var init, last := names[..|names| - 1], names[|names| - 1];
      assert names == init + [last];
      if last in known then Filter(init, known) + [last] else Filter(init, known)
  }

  lemma {:induction false} FilterOfKnown(names: seq<string>, known: set<string>)
    requires forall x :: x in names ==> x in known
    ensures Filter(names, known) == names
    decreases |names|
  {
    if names != [] {
      FilterOfKnown(names[..|names| - 1], known);
    }
  }

  /** The outcome when every call is answered: None is the error. */
  function Validated(spaces: string, known: set<string>): Option<string> {
    var valid := Filter(Split(spaces, ','), known);
    if valid == [] then None else Some(Join(valid, ','))
  }

  /** Splitting the result gives back exactly the valid names, in their order. */
  lemma ResultListsTheValidNames(spaces: string, known: set<string>)
    requires Validated(spaces, known).Some?
    ensures Split(Validated(spaces, known).value, ',') == Filter(Split(spaces, ','), known)
  {
    SplitJoin(Filter(Split(spaces, ','), known), ',');
  }

  /** Validating a result again changes nothing. */
  lemma ValidationIsIdempotent(spaces: string, known: set<string>)
    requires Validated(spaces, known).Some?
    ensures Validated(Validated(spaces, known).value, known) == Validated(spaces, known)
  {
    ResultListsTheValidNames(spaces, known);
    FilterOfKnown(Filter(Split(spaces, ','), known), known);
  }

  /** Every name of the list is configured and known. */
  ghost predicate Within(list: string, spaces: string, known: set<string>) {
    forall x :: x in Split(list, ',') ==> x in Split(spaces, ',') && x in known
  }

  /** An unanswered lookup counts as an unknown name. */
  method OneTimeValidation(arr: Array, pool: string, spaces: string) returns (list: string, ok: bool)
    modifies arr`faults
    ensures arr.faults >= old(arr.faults)
    ensures ok ==> pool in arr.pools
    ensures ok ==> Within(list, spaces, arr.spaces.Keys)
    ensures arr.faults == old(arr.faults) ==>
              && (ok <==> pool in arr.pools && Validated(spaces, arr.spaces.Keys).Some?)
              && (ok ==> list == Validated(spaces, arr.spaces.Keys).value)
  {
    list := "";
    var found := arr.FindPool(pool);
    if found.Err? {
      return list, false;
    }
    var names := Split(spaces, ',');
    var valid: seq<string> := [];
    for k := 0 to |names|
      invariant arr.faults >= old(arr.faults)
      invariant arr.faults == old(arr.faults) ==> valid == Filter(names[..k], arr.spaces.Keys)
      invariant forall x :: x in valid ==> x in names && x in arr.spaces
    {
      var reply := arr.FindSpace(names[k]);
      assert names[..k + 1][..k] == names[..k];
      if reply.Ok? {
        valid := valid + [names[k]];
      }
    }
    assert names[..|names|] == names;
    if valid != [] {
      list, ok := Join(valid, ','), true;
      SplitJoin(valid, ',');
      return;
    }
    ok := false;
  }
}
