/** Strings in byte order: the order, sorting a list by it, and lists it determines; and hexadecimal digits. */
module StringOrder {
  import opened Ordering

  predicate Hex(c: char) {
    '0' <= c <= '9' || 'a' <= c <= 'f'
  }

  // Byte by byte; a prefix comes first.
  predicate AtMost(a: string, b: string) {
    a == "" || (b != "" && (a[0] < b[0] || (a[0] == b[0] && AtMost(a[1..], b[1..]))))
  }

  // The strings part at a position where the first has the smaller byte.
  predicate PartsBelow(a: string, b: string, i: nat) {
    i < |a| && i < |b| && a[..i] == b[..i] && a[i] < b[i]
  }

  // One string is at most another exactly when it is a prefix of it or has the smaller byte where they part.
  lemma {:induction false} OrderExactly(a: string, b: string)
    ensures AtMost(a, b) <==> a <= b || exists i: nat :: PartsBelow(a, b, i)
  {
    if a != "" && b != "" && a[0] == b[0] {
      OrderExactly(a[1..], b[1..]);
      assert a == [a[0]] + a[1..] && b == [b[0]] + b[1..];
      if i: nat :| PartsBelow(a[1..], b[1..], i) {
        assert a[..i + 1] == [a[0]] + a[1..][..i] && b[..i + 1] == [b[0]] + b[1..][..i];
        assert PartsBelow(a, b, i + 1);
      }
      if i: nat :| PartsBelow(a, b, i) {
        assert i > 0;
        assert a[1..][..i - 1] == a[..i][1..] && b[1..][..i - 1] == b[..i][1..];
        assert PartsBelow(a[1..], b[1..], i - 1);
      }
    } else if a != "" && b != "" {
      assert a[..0] == b[..0];
      assert a[0] < b[0] ==> PartsBelow(a, b, 0);
      if i: nat :| PartsBelow(a, b, i) {
        assert i > 0 ==> a[..i][0] == b[..i][0];
      }
    }
  }

  lemma {:induction false} Total(a: string, b: string)
    ensures AtMost(a, b) || AtMost(b, a)
  {
    if a != "" && b != "" {
      Total(a[1..], b[1..]);
    }
  }

  lemma {:induction false} Antisymmetric(a: string, b: string)
    requires AtMost(a, b) && AtMost(b, a)
    ensures a == b
  {
    if a != "" && b != "" {
      Antisymmetric(a[1..], b[1..]);
      assert a == [a[0]] + a[1..] && b == [b[0]] + b[1..];
    }
  }

  lemma {:induction false} Transitive(a: string, b: string, c: string)
    requires AtMost(a, b) && AtMost(b, c)
    ensures AtMost(a, c)
  {
    if a != "" && a[0] == b[0] == c[0] {
      Transitive(a[1..], b[1..], c[1..]);
    }
  }

  lemma IsTotalOrder()
    ensures TotalOrder(AtMost)
  {
    forall x, y
      ensures AtMost(x, y) || AtMost(y, x)
      ensures AtMost(x, y) && AtMost(y, x) ==> x == y
    {
      Total(x, y);
      if AtMost(x, y) && AtMost(y, x) {
        Antisymmetric(x, y);
      }
    }
    forall x, y, z | AtMost(x, y) && AtMost(y, z)
      ensures AtMost(x, z)
    {
      Transitive(x, y, z);
    }
  }

  predicate Ascending(xs: seq<string>) {
    Ordering.Ascending(AtMost, xs)
  }

  predicate Distinct(xs: seq<string>) {
    Unrepeated(xs)
  }

  function Sort(xs: seq<string>): seq<string> {
    Ordering.Sort(AtMost, xs)
  }

  // Sorting gives an ascending list of the same strings.
  lemma SortSorts(xs: seq<string>)
    ensures Ascending(Sort(xs)) && multiset(Sort(xs)) == multiset(xs) && |Sort(xs)| == |xs|
  {
    IsTotalOrder();
    Ordering.SortSorts(AtMost, xs);
  }

  lemma SortMembers(xs: seq<string>, x: string)
    ensures x in Sort(xs) <==> x in xs
  {
    SortSorts(xs);
    assert x in Sort(xs) <==> x in multiset(Sort(xs));
  }

  lemma SortDistinct(xs: seq<string>)
    requires Distinct(xs)
    ensures Distinct(Sort(xs))
  {
    IsTotalOrder();
    SortKeepsUnrepeated(AtMost, xs);
  }

  // An ascending list without repetition is determined by its members.
  lemma SameMembersSameList(xs: seq<string>, ys: seq<string>)
    requires Ascending(xs) && Distinct(xs) && Ascending(ys) && Distinct(ys)
    requires forall x :: x in xs <==> x in ys
    ensures xs == ys
  {
    IsTotalOrder();
    var keys := set x | x in xs;
    assert Lists(AtMost, xs, keys) && Lists(AtMost, ys, keys);
    OneList(AtMost, xs, ys, keys);
  }
}
