/** Round robin over a fixed list: how evenly successful calls use its entries. */
module Balance {

  /** The entry the i-th successful iSCSI call uses: the counter starts at 1 and every call raises it. */
  function IscsiEntry(i: nat, k: nat): nat
    requires k > 0
  {
    (1 + i) % k
  }

  /**
    The entry the i-th NFS call uses: the first call creates the counter at 0 after reading
    0, so the second call reads 0 once more.
  */
  function NfsEntry(i: nat, k: nat): nat
    requires k > 0
  {
    if i == 0 then 0 else (i - 1) % k
  }

  function IscsiUses(n: nat, k: nat, j: nat): nat
    requires k > 0
  {
    if n == 0 then 0 else IscsiUses(n - 1, k, j) + if IscsiEntry(n - 1, k) == j then 1 else 0
  }

  function NfsUses(n: nat, k: nat, j: nat): nat
    requires k > 0
  {
    if n == 0 then 0 else NfsUses(n - 1, k, j) + if NfsEntry(n - 1, k) == j then 1 else 0
  }

  // ---------------------------------------------------------------- walking around a circle

  function Next(p: nat, k: nat): nat {
    if p + 1 == k then 0 else p + 1
  }

  function Position(start: nat, n: nat, k: nat): nat {
    if n == 0 then start else Next(Position(start, n - 1, k), k)
  }

  function Hits(start: nat, n: nat, k: nat, j: nat): nat {
    if n == 0 then 0 else Hits(start, n - 1, k, j) + if Position(start, n - 1, k) == j then 1 else 0
  }

  /** How often the walk has come back to its start. */
  function Rounds(start: nat, n: nat, k: nat): nat {
    if n == 0 then 0 else Rounds(start, n - 1, k) + if Position(start, n, k) == start then 1 else 0
  }

  /** The entries passed since the last return to the start. */
  predicate OnArc(start: nat, p: nat, j: nat) {
    if start <= p then start <= j < p else start <= j || j < p
  }

  /** Every entry is hit once a round, and those on the last arc once more. */
  lemma {:induction false} HitsOfRounds(start: nat, n: nat, k: nat, j: nat)
    requires start < k && j < k
    ensures Position(start, n, k) < k
    ensures Hits(start, n, k, j) == Rounds(start, n, k) + if OnArc(start, Position(start, n, k), j) then 1 else 0
  {
    if n > 0 {
      HitsOfRounds(start, n - 1, k, j);
    }
  }

  lemma {:induction false} Multiple(e: nat, k: nat)
    requires e >= 1
    ensures e * k >= k
  {
    if e > 1 {
      Multiple(e - 1, k);
      assert e * k == (e - 1) * k + k;
    }
  }

  lemma RemainderUnique(y: nat, d: nat, m: nat, k: nat)
    requires k > 0 && m < k && y == d * k + m
    ensures y % k == m
  {
    var d', m' := y / k, y % k;
    assert y == d' * k + m';
    if d' < d {
      Multiple(d - d', k);
    } else if d < d' {
      Multiple(d' - d, k);
    }
  }

  lemma RemainderStep(x: nat, k: nat)
    requires k > 0
    ensures (x + 1) % k == Next(x % k, k)
  {
    var d, m := x / k, x % k;
    assert x == d * k + m;
    if m + 1 == k {
      assert (d + 1) * k == d * k + k;
      RemainderUnique(x + 1, d + 1, 0, k);
    } else {
      RemainderUnique(x + 1, d, m + 1, k);
    }
  }

  lemma {:induction false} RemainderWalks(x: nat, i: nat, k: nat)
    requires k > 0
    ensures (x + i) % k == Position(x % k, i, k)
  {
    if i > 0 {
      RemainderWalks(x, i - 1, k);
      RemainderStep(x + i - 1, k);
    }
  }

  lemma {:induction false} IscsiWalk(n: nat, k: nat, j: nat)
    requires k > 0
    ensures IscsiUses(n, k, j) == Hits(1 % k, n, k, j)
  {
    if n > 0 {
      IscsiWalk(n - 1, k, j);
      RemainderWalks(1, n - 1, k);
    }
  }

  lemma {:induction false} NfsWalk(n: nat, k: nat, j: nat)
    requires k > 0 && n > 0
    ensures NfsUses(n, k, j) == Hits(0, n - 1, k, j) + if j == 0 then 1 else 0
  {
    if n > 1 {
      NfsWalk(n - 1, k, j);
      RemainderWalks(0, n - 2, k);
    } else {
      assert NfsUses(0, k, j) == 0;
    }
  }

  // ---------------------------------------------------------------- balance

  /** Over any number of calls no two network spaces differ by more than one use. */
  lemma IscsiIsBalanced(n: nat, k: nat, i: nat, j: nat)
    requires i < k && j < k
    ensures IscsiUses(n, k, i) <= IscsiUses(n, k, j) + 1
  {
    IscsiWalk(n, k, i);
    IscsiWalk(n, k, j);
    HitsOfRounds(1 % k, n, k, i);
    HitsOfRounds(1 % k, n, k, j);
  }

  /** No two addresses differ by more than two uses, and only the first can be two ahead. */
  lemma NfsIsBalanced(n: nat, k: nat, i: nat, j: nat)
    requires i < k && j < k
    ensures NfsUses(n, k, i) <= NfsUses(n, k, j) + if i == 0 then 2 else 1
  {
    if n > 0 {
      NfsWalk(n, k, i);
      NfsWalk(n, k, j);
      HitsOfRounds(0, n - 1, k, i);
      HitsOfRounds(0, n - 1, k, j);
    }
  }

  /** With two or more addresses the imbalance of two does occur: after two calls. */
  lemma NfsImbalanceOfTwo(k: nat)
    requires k >= 2
    ensures NfsUses(2, k, 0) == NfsUses(2, k, 1) + 2
  {
    NfsWalk(2, k, 0);
    NfsWalk(2, k, 1);
    assert Hits(0, 1, k, 0) == Hits(0, 0, k, 0) + 1;
    assert Hits(0, 1, k, 1) == Hits(0, 0, k, 1);
  }
}
