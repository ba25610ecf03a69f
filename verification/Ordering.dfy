/** Sorting by any total preorder, and the ascending lists that orders determine. */
module Ordering {

  ghost predicate TotalPreorder<T(!new)>(le: (T, T) -> bool) {
    && (forall x, y :: le(x, y) || le(y, x))
    && (forall x, y, z :: le(x, y) && le(y, z) ==> le(x, z))
  }

  ghost predicate TotalOrder<T(!new)>(le: (T, T) -> bool) {
    && TotalPreorder(le)
    && (forall x, y :: le(x, y) && le(y, x) ==> x == y)
  }

  predicate Ascending<T>(le: (T, T) -> bool, xs: seq<T>) {
    forall i, j | 0 <= i < j < |xs| :: le(xs[i], xs[j])
  }

  predicate Unrepeated<T(==)>(xs: seq<T>) {
    forall i, j | 0 <= i < j < |xs| :: xs[i] != xs[j]
  }

  function Insert<T>(le: (T, T) -> bool, x: T, xs: seq<T>): seq<T> {
    if xs == [] || le(x, xs[0]) then [x] + xs else [xs[0]] + Insert(le, x, xs[1..])
  }

  function Sort<T>(le: (T, T) -> bool, xs: seq<T>): seq<T> {
    if xs == [] then [] else Insert(le, xs[0], Sort(le, xs[1..]))
  }

  lemma {:induction false} InsertContents<T>(le: (T, T) -> bool, x: T, xs: seq<T>)
    ensures multiset(Insert(le, x, xs)) == multiset(xs) + multiset{x}
  {
    if xs != [] && !le(x, xs[0]) {
      InsertContents(le, x, xs[1..]);
      assert xs == [xs[0]] + xs[1..];
    }
  }

  lemma {:induction false} InsertAscending<T(!new)>(le: (T, T) -> bool, x: T, xs: seq<T>)
    requires TotalPreorder(le) && Ascending(le, xs)
    ensures Ascending(le, Insert(le, x, xs))
  {
    if xs == [] {
    } else if le(x, xs[0]) {
      forall k | 0 <= k < |xs|
        ensures le(x, xs[k])
      {
        assert k > 0 ==> le(xs[0], xs[k]);
      }
    } else {
      InsertAscending(le, x, xs[1..]);
      InsertContents(le, x, xs[1..]);
      var rest := Insert(le, x, xs[1..]);
      forall k | 0 <= k < |rest|
        ensures le(xs[0], rest[k])
      {
        assert rest[k] in multiset(rest);
        if rest[k] != x {
          assert rest[k] in multiset(xs[1..]);
        }
      }
    }
  }

  // Sorting gives an ascending list of the same values.
  lemma {:induction false} SortSorts<T(!new)>(le: (T, T) -> bool, xs: seq<T>)
    requires TotalPreorder(le)
    ensures Ascending(le, Sort(le, xs)) && multiset(Sort(le, xs)) == multiset(xs) && |Sort(le, xs)| == |xs|
  {
    if xs != [] {
      SortSorts(le, xs[1..]);
      InsertAscending(le, xs[0], Sort(le, xs[1..]));
      InsertContents(le, xs[0], Sort(le, xs[1..]));
      assert xs == [xs[0]] + xs[1..];
      assert |multiset(Sort(le, xs))| == |multiset(xs)|;
    }
  }

  // The keys of a map, collected and sorted.
  predicate Lists<T(==)>(le: (T, T) -> bool, xs: seq<T>, keys: set<T>) {
    Ascending(le, xs) && Unrepeated(xs) && (forall x <- xs :: x in keys) && (forall k <- keys :: k in xs)
  }

  // Keys come out of a map in any order.
  method SortedKeys<T(==,!new)>(le: (T, T) -> bool, keys: set<T>) returns (sorted: seq<T>)
    requires TotalOrder(le)
    ensures Lists(le, sorted, keys)
  {
    var left := keys;
    var collected: seq<T> := [];
    while left != {}
      invariant left <= keys && Unrepeated(collected)
      invariant forall k :: k in collected <==> k in keys && k !in left
      decreases |left|
    {
      var k :| k in left;
      collected := collected + [k];
      left := left - {k};
    }
    sorted := Sort(le, collected);
    SortSorts(le, collected);
    SortKeepsUnrepeated(le, collected);
    forall k
      ensures k in sorted <==> k in collected
    {
      assert k in multiset(sorted) <==> k in multiset(collected);
    }
  }

  lemma SortKeepsUnrepeated<T(!new)>(le: (T, T) -> bool, xs: seq<T>)
    requires TotalPreorder(le) && Unrepeated(xs)
    ensures Unrepeated(Sort(le, xs))
  {
    SortSorts(le, xs);
    var sorted := Sort(le, xs);
    hide Sort;
    forall i, j | 0 <= i < j < |sorted|
      ensures sorted[i] != sorted[j]
    {
      OnceInMultiset(xs, sorted[i]);
      TwiceInMultiset(sorted, i, j);
    }
  }

  lemma TwiceInMultiset<T>(xs: seq<T>, i: nat, j: nat)
    requires i < j < |xs|
    ensures xs[i] == xs[j] ==> multiset(xs)[xs[i]] >= 2
  {
    assert xs == xs[..i] + [xs[i]] + xs[i + 1..j] + [xs[j]] + xs[j + 1..];
  }

  lemma {:induction false} OnceInMultiset<T>(xs: seq<T>, x: T)
    requires Unrepeated(xs)
    ensures multiset(xs)[x] <= 1
  {
    if xs != [] {
      OnceInMultiset(xs[1..], x);
      assert xs == [xs[0]] + xs[1..];
      if x == xs[0] {
        assert x !in xs[1..];
      }
    }
  }

  // A set has one sorted list.
  lemma {:induction false} OneList<T(!new)>(le: (T, T) -> bool, xs: seq<T>, ys: seq<T>, keys: set<T>)
    requires TotalOrder(le) && Lists(le, xs, keys) && Lists(le, ys, keys)
    ensures xs == ys
    decreases |xs|
  {
    if xs != [] {
      ListedKeys(le, xs, keys);
    }
    if ys != [] {
      ListedKeys(le, ys, keys);
    }
    if keys != {} {
      SomethingListed(le, xs, keys);
      SomethingListed(le, ys, keys);
      assert le(xs[0], xs[0]) && le(ys[0], ys[0]);
      assert le(xs[0], ys[0]) by {
        FirstIsLeast(le, xs, ys[0]);
      }
      assert le(ys[0], xs[0]) by {
        FirstIsLeast(le, ys, xs[0]);
      }
      ListsRest(le, xs, keys);
      ListsRest(le, ys, keys);
      OneList(le, xs[1..], ys[1..], keys - {xs[0]});
      assert xs == [xs[0]] + xs[1..] && ys == [ys[0]] + ys[1..];
    }
  }

  lemma ListedKeys<T>(le: (T, T) -> bool, xs: seq<T>, keys: set<T>)
    requires Lists(le, xs, keys) && xs != []
    ensures keys != {}
  {
    assert xs[0] in keys;
  }

  lemma SomethingListed<T>(le: (T, T) -> bool, xs: seq<T>, keys: set<T>)
    requires Lists(le, xs, keys) && keys != {}
    ensures xs != [] && xs[0] in keys
  {
    var k :| k in keys;
    assert k in xs;
  }

  lemma FirstIsLeast<T(!new)>(le: (T, T) -> bool, xs: seq<T>, x: T)
    requires TotalOrder(le) && Ascending(le, xs) && x in xs
    ensures le(xs[0], x)
  {
    var k :| 0 <= k < |xs| && xs[k] == x;
    assert k == 0 || le(xs[0], xs[k]);
  }

  lemma ListsRest<T>(le: (T, T) -> bool, xs: seq<T>, keys: set<T>)
    requires Lists(le, xs, keys) && xs != []
    ensures Lists(le, xs[1..], keys - {xs[0]})
  {
    forall k | k in keys - {xs[0]}
      ensures k in xs[1..]
    {
      var i :| 0 <= i < |xs| && xs[i] == k;
      assert xs[1..][i - 1] == k;
    }
  }
}
