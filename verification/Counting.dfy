/** Finite counting: a duplicate-free list of `n` numbers below `n` names every one of them. */
module Counting {

  function Range(n: nat): (r: set<int>)
    ensures |r| == n
    ensures forall x :: x in r <==> 0 <= x < n
  {
    if n == 0 then {} else Range(n - 1) + {n - 1}
  }

  function Elements(row: seq<int>): (s: set<int>)
    ensures forall x :: x in s <==> x in row
  {
    if row == [] then {} else Elements(row[..|row| - 1]) + {row[|row| - 1]}
  }

  ghost predicate Injective(row: seq<int>) {
    forall i, j | 0 <= i < j < |row| :: row[i] != row[j]
  }

  lemma {:induction false} DistinctSize(row: seq<int>)
    requires Injective(row)
    ensures |Elements(row)| == |row|
  {
    if row != [] {
      DistinctSize(row[..|row| - 1]);
    }
  }

  lemma SameSize(a: set<int>, b: set<int>)
    requires a <= b && |a| == |b|
    ensures a == b
  {
    assert b == a + (b - a);
    assert |b - a| == 0;
  }

  lemma PigeonHole(row: seq<int>)
    requires Injective(row)
    requires forall j | 0 <= j < |row| :: 0 <= row[j] < |row|
    ensures forall x | 0 <= x < |row| :: x in row
  {
    DistinctSize(row);
    SameSize(Elements(row), Range(|row|));
    forall x | 0 <= x < |row| ensures x in row {
      assert x in Range(|row|);
    }
  }

  ghost predicate NoRepeat<T>(row: seq<T>) {
    forall i, j | 0 <= i < j < |row| :: row[i] != row[j]
  }

  /** `seen` holds the first `n` entries of `row`, which are all different. */
  ghost predicate Listed<T>(row: seq<T>, n: nat, seen: set<T>)
    requires n <= |row|
  {
    && (forall i | 0 <= i < n :: row[i] in seen)
    && (forall x | x in seen :: exists i | 0 <= i < n :: row[i] == x)
    && NoRepeat(row[..n])
  }

  lemma ListedStart<T>(row: seq<T>)
    ensures Listed(row, 0, {})
  {
  }

  lemma ListedStep<T>(row: seq<T>, n: nat, seen: set<T>)
    requires n < |row| && Listed(row, n, seen)
    ensures row[n] !in seen ==> Listed(row, n + 1, seen + {row[n]})
    ensures row[n] in seen ==> !NoRepeat(row)
  {
    if row[n] !in seen {
      var m, more := n + 1, seen + {row[n]};
      forall x | x in more ensures exists i | 0 <= i < m :: row[i] == x {
        if x !in seen { assert row[n] == x; }
      }
    }
  }

  lemma ListedAll<T>(row: seq<T>, seen: set<T>)
    requires Listed(row, |row|, seen)
    ensures NoRepeat(row)
  {
    assert row[..|row|] == row;
  }
}
