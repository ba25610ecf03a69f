/** The greatest of a finite set of numbers, and the sorted list of one: a map's keys, collected and sorted. */
module Sorting {

  function Least(keys: set<int>): (least: int)
    requires keys != {}
    ensures least in keys && forall k <- keys :: least <= k
    decreases |keys|
  {
    LeastExists(keys);
    var least :| least in keys && forall k <- keys :: least <= k;
    least
  }

  lemma {:induction false} LeastExists(keys: set<int>)
    requires keys != {}
    ensures exists least :: least in keys && forall k <- keys :: least <= k
    decreases |keys|
  {
    if forall k :: k !in keys {
      assert false;
    }
    var k :| k in keys;
    if keys != {k} {
      var rest := keys - {k};
      LeastExists(rest);
      var least :| least in rest && forall j <- rest :: least <= j;
      assert forall j <- keys :: j == k || j in rest;
      var m := if least < k then least else k;
      assert m in keys && forall j <- keys :: m <= j;
    }
  }

  // 0 for no numbers at all.
  function Greatest(numbers: set<int>): (greatest: int)
    ensures numbers == {} ==> greatest == 0
    ensures numbers != {} ==> greatest in numbers
    ensures forall n <- numbers :: n <= greatest
    decreases |numbers|
  {
    if numbers == {} then 0 else
    GreatestExists(numbers);
    var greatest :| greatest in numbers && forall n <- numbers :: n <= greatest;
    greatest
  }

  lemma {:induction false} GreatestExists(numbers: set<int>)
    requires numbers != {}
    ensures exists greatest :: greatest in numbers && forall n <- numbers :: n <= greatest
    decreases |numbers|
  {
    if forall n :: n !in numbers {
      assert false;
    }
    var n :| n in numbers;
    if numbers != {n} {
      var rest := numbers - {n};
      GreatestExists(rest);
      var m :| m in rest && forall k <- rest :: k <= m;
      assert forall k <- numbers :: k == n || k in rest;
      var g := if m < n then n else m;
      assert g in numbers && forall k <- numbers :: k <= g;
    }
  }

  // The keys of the tools, collected and sorted.
  function SortedKeys(keys: set<int>): (sorted: seq<int>)
    ensures forall i, j | 0 <= i < j < |sorted| :: sorted[i] < sorted[j]
    ensures forall i | 0 <= i < |sorted| :: sorted[i] in keys
    ensures |sorted| == |keys|
    decreases |keys|
  {
    if keys == {} then [] else
    var least := Least(keys);
    [least] + SortedKeys(keys - {least})
  }

  lemma {:induction false} SortedKeysComplete(keys: set<int>, k: int)
    requires k in keys
    ensures k in SortedKeys(keys)
    decreases |keys|
  {
    if k != Least(keys) {
      SortedKeysComplete(keys - {Least(keys)}, k);
    }
  }

  // A sorted list of the numbers below its length is the list 0, 1, 2, ...
  lemma {:induction false} SortedRange(sorted: seq<int>, j: nat)
    requires forall i, k | 0 <= i < k < |sorted| :: sorted[i] < sorted[k]
    requires forall i | 0 <= i < |sorted| :: 0 <= sorted[i] < |sorted|
    requires j < |sorted|
    ensures sorted[j] == j
  {
    SortedAtLeast(sorted, j);
    SortedAtMost(sorted, j);
  }

  lemma {:induction false} SortedAtLeast(sorted: seq<int>, j: nat)
    requires forall i, k | 0 <= i < k < |sorted| :: sorted[i] < sorted[k]
    requires j < |sorted| && 0 <= sorted[0]
    ensures sorted[j] >= j
  {
    if j > 0 {
      SortedAtLeast(sorted, j - 1);
    }
  }

  lemma {:induction false} SortedAtMost(sorted: seq<int>, j: nat)
    requires forall i, k | 0 <= i < k < |sorted| :: sorted[i] < sorted[k]
    requires j < |sorted| && sorted[|sorted| - 1] < |sorted|
    ensures sorted[j] <= j
    decreases |sorted| - j
  {
    if j + 1 < |sorted| {
      SortedAtMost(sorted, j + 1);
    }
  }

  // Ascending lists of the same numbers are the same list.
  lemma {:induction false} SameSorted(xs: seq<int>, ys: seq<int>)
    requires forall i, k | 0 <= i < k < |xs| :: xs[i] < xs[k]
    requires forall i, k | 0 <= i < k < |ys| :: ys[i] < ys[k]
    requires forall n :: n in xs <==> n in ys
    ensures xs == ys
    decreases |xs|
  {
    assert xs != [] ==> xs[0] in xs;
    assert ys != [] ==> ys[0] in ys;
    if xs != [] {
      assert xs == [xs[0]] + xs[1..] && ys == [ys[0]] + ys[1..];
      assert xs[0] == ys[0];
      forall n
        ensures n in xs[1..] <==> n in ys[1..]
      {
        assert n in xs[1..] <==> n in xs && n != xs[0];
        assert n in ys[1..] <==> n in ys && n != ys[0];
      }
      SameSorted(xs[1..], ys[1..]);
    }
  }
}
