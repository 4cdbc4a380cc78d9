/** How the controller gives up on an object after too many failures in a row. */
module FailureCounts {
  /** Afterwards an attempt for `name` that has failed or not; nothing is counted without a threshold. */
  function Counted(stats: map<string, nat>, threshold: int, name: string, failed: bool): map<string, nat> {
    if threshold <= 0 then stats
    else if failed then stats[name := if name in stats then stats[name] + 1 else 1]
    else stats - {name}
  }

  /** No further attempt is made. */
  predicate Exhausted(stats: map<string, nat>, threshold: int, name: string) {
    threshold > 0 && name in stats && stats[name] >= threshold
  }

  datatype Result = Result(name: string, failed: bool)

  function CountedAll(threshold: int, results: seq<Result>): map<string, nat> {
    if results == [] then map[]
    else
      var last := results[|results| - 1];
      Counted(CountedAll(threshold, results[..|results| - 1]), threshold, last.name, last.failed)
  }

  /** How many attempts for `name` have failed since the last one that succeeded. */
  function Streak(results: seq<Result>, name: string): nat {
    if results == [] then 0
    else
      var last, before := results[|results| - 1], Streak(results[..|results| - 1], name);
      if last.name != name then before else if last.failed then before + 1 else 0
  }

  lemma {:induction false} CountIsTheStreak(threshold: int, results: seq<Result>, name: string)
    requires threshold > 0
    ensures var stats := CountedAll(threshold, results);
      Streak(results, name) == if name in stats then stats[name] else 0
    decreases |results|
  {
    if results != [] {
      CountIsTheStreak(threshold, results[..|results| - 1], name);
    }
  }

  /** An object is given up exactly after `threshold` failures in a row, and never if the threshold is not positive. */
  lemma GivenUpAfterAStreak(threshold: int, results: seq<Result>, name: string)
    ensures Exhausted(CountedAll(threshold, results), threshold, name)
            <==> threshold > 0 && Streak(results, name) >= threshold
  {
    if threshold > 0 {
      CountIsTheStreak(threshold, results, name);
    }
  }
}
