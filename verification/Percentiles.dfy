/** Latency percentiles: what the control plane's rank means, and how the portal's rank relates to it. */
module Percentiles {
  import opened Wrappers
  import opened Ordering

  predicate AtMost(a: int, b: int) {
    a <= b
  }

  // An exact fraction, such as 1/2 or 19/20.
  datatype Fraction = Fraction(num: nat, den: nat)

  const HALF := Fraction(1, 2)
  const NINETY_FIVE := Fraction(19, 20)

  predicate Proper(f: Fraction) {
    0 < f.num <= f.den
  }

  function CeilDiv(a: nat, b: nat): nat
    requires b > 0
  {
    (a + b - 1) / b
  }

  // The control plane's index into n sorted values.
  function ControlRank(n: nat, f: Fraction): nat
    requires n > 0 && Proper(f)
  {
    var index := CeilDiv(n * f.num, f.den) - 1;
    if index < 0 then 0 else index
  }

  // The portal's index.
  function PortalRank(n: nat, f: Fraction): nat
    requires n > 0 && Proper(f)
  {
    var index := (n - 1) * f.num / f.den;
    if 20 * f.num >= 19 * f.den && index < n - 1 then index + 1 else index
  }

  lemma CeilDivBounds(a: nat, b: nat)
    requires b > 0
    ensures CeilDiv(a, b) * b >= a
    ensures a > 0 ==> CeilDiv(a, b) > 0 && (CeilDiv(a, b) - 1) * b < a
  {
    var q, r := (a + b - 1) / b, (a + b - 1) % b;
    assert a + b - 1 == q * b + r;
    assert (q - 1) * b == q * b - b;
  }

  lemma ScaledAtMost(x: nat, y: nat, k: nat)
    requires x <= y
    ensures x * k <= y * k
  {
  }

  lemma ControlRankBounds(n: nat, f: Fraction)
    requires n > 0 && Proper(f)
    ensures ControlRank(n, f) < n
    ensures (ControlRank(n, f) + 1) * f.den >= n * f.num
    ensures ControlRank(n, f) * f.den < n * f.num
  {
    var a := n * f.num;
    assert a > 0;
    CeilDivBounds(a, f.den);
    var q := CeilDiv(a, f.den);
    ScaledAtMost(f.num, f.den, n);
    if q - 1 >= n {
      ScaledAtMost(n, q - 1, f.den);
      assert false;
    }
  }

  lemma PortalRankBounds(n: nat, f: Fraction)
    requires n > 0 && Proper(f)
    ensures PortalRank(n, f) < n
  {
    var a := (n - 1) * f.num;
    ScaledAtMost(f.num, f.den, n - 1);
    assert a / f.den * f.den <= a;
    assert n * f.den == (n - 1) * f.den + f.den;
    if a / f.den > n - 1 {
      ScaledAtMost(n, a / f.den, f.den);
      assert false;
    }
  }

  // Expects sorted values.
  function Percentile(values: seq<int>, f: Fraction): Option<int>
    requires Proper(f)
  {
    if values == [] then None else
    ControlRankBounds(|values|, f);
    Some(values[ControlRank(|values|, f)])
  }

  function DurationPercentile(values: seq<int>, f: Fraction): Option<int>
    requires Proper(f)
  {
    if values == [] then None else
    IntegersAreOrdered();
    SortSorts(AtMost, values);
    PortalRankBounds(|values|, f);
    Some(Sort(AtMost, values)[PortalRank(|values|, f)])
  }

  lemma IntegersAreOrdered()
    ensures TotalOrder(AtMost)
  {
  }

  // How many values are at or below one.
  function Below(values: seq<int>, v: int): nat {
    if values == [] then 0 else Below(values[..|values| - 1], v) + if values[|values| - 1] <= v then 1 else 0
  }

  lemma {:induction false} BelowBounds(values: seq<int>, v: int, n: nat)
    requires Ascending(AtMost, values) && n <= |values|
    ensures (forall i | 0 <= i < n :: values[i] <= v) ==> Below(values, v) >= n
    ensures (forall i | n <= i < |values| :: values[i] > v) ==> Below(values, v) <= n
  {
    if values != [] {
      var init := values[..|values| - 1];
      if n == |values| {
        BelowBounds(init, v, n - 1);
      } else {
        BelowBounds(init, v, n);
      }
    }
  }

  // The percentile is the least value with at least the stated fraction of the values at or below it.
  lemma PercentileIsLeast(values: seq<int>, f: Fraction, w: int)
    requires Ascending(AtMost, values) && values != [] && Proper(f)
    ensures var v := Percentile(values, f).value;
            && v in values
            && Below(values, v) * f.den >= f.num * |values|
            && (w < v ==> Below(values, w) * f.den < f.num * |values|)
  {
    var n, i := |values|, ControlRank(|values|, f);
    ControlRankBounds(n, f);
    var v := values[i];
    assert forall k | 0 <= k < i :: AtMost(values[k], values[i]);
    BelowBounds(values, v, i + 1);
    ScaledAtMost(i + 1, Below(values, v), f.den);
    if w < v {
      assert forall k | i < k < n :: AtMost(values[i], values[k]);
      BelowBounds(values, w, i);
      ScaledAtMost(Below(values, w), i, f.den);
    }
  }

  // The portal's median is the control plane's, for lists of every size.
  lemma SameMedianRank(n: nat)
    requires n > 0
    ensures PortalRank(n, HALF) == ControlRank(n, HALF)
  {
  }

  // The portal's 95th percentile has the same rank, or the next one; the next one exactly for lists
  // of more than one value whose size is a multiple of 20 or one more.
  lemma NinetyFiveRanks(n: nat)
    requires n > 0
    ensures PortalRank(n, NINETY_FIVE) == ControlRank(n, NINETY_FIVE) + if n > 1 && n % 20 <= 1 then 1 else 0
  {
    var q, r := n / 20, n % 20;
    assert n == 20 * q + r;
    assert 19 * n == 20 * (19 * q) + 19 * r;
    assert 19 * n + 19 == 20 * (19 * q) + (19 * r + 19);
    assert CeilDiv(n * 19, 20) == 19 * q + (19 * r + 19) / 20;
    assert (n - 1) * 19 == 19 * n - 19;
    if r >= 1 {
      assert (n - 1) * 19 / 20 == 19 * q + (19 * r - 19) / 20;
    } else {
      assert (n - 1) * 19 == 20 * (19 * q - 1) + 1;
      assert (n - 1) * 19 / 20 == 19 * q - 1;
    }
  }

  // So both views report the same median, and the portal's 95th percentile is never the smaller one.
  lemma ReportsAgree(values: seq<int>)
    requires values != []
    ensures DurationPercentile(values, HALF) == Percentile(Sort(AtMost, values), HALF)
    ensures DurationPercentile(values, NINETY_FIVE).value >= Percentile(Sort(AtMost, values), NINETY_FIVE).value
    ensures |values| == 1 || |values| % 20 > 1 ==>
              DurationPercentile(values, NINETY_FIVE) == Percentile(Sort(AtMost, values), NINETY_FIVE)
  {
    IntegersAreOrdered();
    SortSorts(AtMost, values);
    SameMedianRank(|values|);
    NinetyFiveRanks(|values|);
    ControlRankBounds(|values|, NINETY_FIVE);
    PortalRankBounds(|values|, NINETY_FIVE);
    hide Sort, ControlRank, PortalRank;
    var sorted := Sort(AtMost, values);
    var i, j := ControlRank(|values|, NINETY_FIVE), PortalRank(|values|, NINETY_FIVE);
    assert i == j || AtMost(sorted[i], sorted[j]);
  }
}
