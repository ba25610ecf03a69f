/** The peak of concurrent requests: a sweep over sorted starts and ends, and the maximum it finds. */
module PeakConcurrency {
  import opened Ordering
  import opened UsageRecords

  datatype Event = Event(at: int, delta: int)

  // Earlier first; at the same time ends before starts.
  predicate Before(a: Event, b: Event) {
    a.at < b.at || (a.at == b.at && a.delta <= b.delta)
  }

  lemma BeforeIsTotal()
    ensures TotalOrder(Before)
  {
  }

  function EndOf(r: Request, now: int): int {
    r.completedAt.GetOr(now)
  }

  // The request is running at this instant: from its start up to, not including, its end.
  predicate Running(r: Request, now: int, t: int) {
    r.startedAt <= t < EndOf(r, now)
  }

  function Active(now: int, t: int): Request -> bool {
    (r: Request) => Running(r, now, t)
  }

  function Events(requests: seq<Request>, now: int): seq<Event> {
    if requests == [] then [] else
    var r := requests[|requests| - 1];
    Events(requests[..|requests| - 1], now)
    + if EndOf(r, now) > r.startedAt then [Event(r.startedAt, 1), Event(EndOf(r, now), -1)] else []
  }

  function Sum(events: seq<Event>): int {
    if events == [] then 0 else Sum(events[..|events| - 1]) + events[|events| - 1].delta
  }

  // The greatest sum of a prefix, at least 0.
  function Highest(events: seq<Event>): int {
    if events == [] then 0 else
    var before := Highest(events[..|events| - 1]);
    if Sum(events) > before then Sum(events) else before
  }

  function Peak(requests: seq<Request>, now: int): int {
    Highest(Sort(Before, Events(requests, now)))
  }

  method PeakRequests(requests: seq<Request>, now: int) returns (peak: int)
    ensures peak == Peak(requests, now)
  {
    var events: seq<Event> := [];
    for i := 0 to |requests|
      invariant events == Events(requests[..i], now)
    {
      var r := requests[i];
      assert requests[..i + 1][..i] == requests[..i];
      var end := if r.completedAt.Some? then r.completedAt.value else now;
      if end > r.startedAt {
        events := events + [Event(r.startedAt, 1), Event(end, -1)];
      } else {
        assert events + [] == events;
      }
    }
    assert requests[..|requests|] == requests;
    events := Sort(Before, events);
    var current := 0;
    peak := 0;
    for i := 0 to |events|
      invariant current == Sum(events[..i]) && peak == Highest(events[..i])
    {
      assert events[..i + 1][..i] == events[..i];
      current := current + events[i].delta;
      if current > peak {
        peak := current;
      }
    }
    assert events[..|events|] == events;
  }

  // --- Events up to an instant ------------------------------------------------------------

  // What the events up to an instant add up to.
  function UpTo(events: seq<Event>, t: int): int {
    if events == [] then 0 else
    UpTo(events[..|events| - 1], t) + if events[|events| - 1].at <= t then events[|events| - 1].delta else 0
  }

  lemma {:induction false} UpToConcat(a: seq<Event>, b: seq<Event>, t: int)
    ensures UpTo(a + b, t) == UpTo(a, t) + UpTo(b, t)
  {
    if b == [] {
      assert a + b == a;
    } else {
      UpToConcat(a, b[..|b| - 1], t);
      assert (a + b)[..|a + b| - 1] == a + b[..|b| - 1];
    }
  }

  lemma UpToOne(e: Event, t: int)
    ensures UpTo([e], t) == if e.at <= t then e.delta else 0
  {
    assert [e][..0] == [];
    assert UpTo([], t) == 0;
  }

  // It does not depend on the order of the events.
  lemma {:induction false} UpToInsert(x: Event, xs: seq<Event>, t: int)
    ensures UpTo(Insert(Before, x, xs), t) == UpTo([x], t) + UpTo(xs, t)
  {
    if xs == [] || Before(x, xs[0]) {
      UpToConcat([x], xs, t);
    } else {
      UpToInsert(x, xs[1..], t);
      UpToConcat([xs[0]], Insert(Before, x, xs[1..]), t);
      UpToConcat([xs[0]], xs[1..], t);
      assert xs == [xs[0]] + xs[1..];
    }
  }

  lemma {:induction false} UpToSort(xs: seq<Event>, t: int)
    ensures UpTo(Sort(Before, xs), t) == UpTo(xs, t)
  {
    if xs != [] {
      UpToSort(xs[1..], t);
      UpToInsert(xs[0], Sort(Before, xs[1..]), t);
      UpToConcat([xs[0]], xs[1..], t);
      assert xs == [xs[0]] + xs[1..];
    }
  }

  // The events up to an instant add up to the requests running then.
  lemma {:induction false} UpToIsActive(requests: seq<Request>, now: int, t: int)
    ensures UpTo(Events(requests, now), t) == Count(Active(now, t), requests)
  {
    if requests != [] {
      var init, r := requests[..|requests| - 1], requests[|requests| - 1];
      UpToIsActive(init, now, t);
      if EndOf(r, now) > r.startedAt {
        var start, end := Event(r.startedAt, 1), Event(EndOf(r, now), -1);
        UpToConcat(Events(init, now), [start, end], t);
        assert [start, end] == [start] + [end];
        UpToConcat([start], [end], t);
        UpToOne(start, t);
        UpToOne(end, t);
      } else {
        assert Events(init, now) + [] == Events(init, now);
      }
    }
  }

  // --- The sweep finds the maximum --------------------------------------------------------

  // All events happen by t: they all count.
  lemma {:induction false} AllUpTo(events: seq<Event>, t: int)
    requires forall e <- events :: e.at <= t
    ensures UpTo(events, t) == Sum(events)
  {
    if events != [] {
      AllUpTo(events[..|events| - 1], t);
    }
  }

  lemma {:induction false} NoneUpTo(events: seq<Event>, t: int)
    requires forall e <- events :: e.at > t
    ensures UpTo(events, t) == 0
  {
    if events != [] {
      NoneUpTo(events[..|events| - 1], t);
    }
  }

  lemma {:induction false} HighestBounds(events: seq<Event>, n: nat)
    requires n <= |events|
    ensures Sum(events[..n]) <= Highest(events) && 0 <= Highest(events)
  {
    if events != [] {
      if n == |events| {
        assert events[..n] == events;
        HighestBounds(events[..|events| - 1], 0);
      } else {
        HighestBounds(events[..|events| - 1], n);
        assert events[..|events| - 1][..n] == events[..n];
      }
    }
  }

  // How many events lie at or before an instant, in a sorted list.
  function Cut(events: seq<Event>, t: int): (n: nat)
    ensures n <= |events|
    ensures n < |events| ==> events[n].at > t
    ensures forall i | 0 <= i < n :: events[i].at <= t
  {
    if events == [] || events[0].at > t then 0 else 1 + Cut(events[1..], t)
  }

  lemma AfterCut(events: seq<Event>, t: int)
    requires Ascending(Before, events)
    ensures forall e <- events[Cut(events, t)..] :: e.at > t
  {
    hide Cut;
    var n := Cut(events, t);
    forall k | n <= k < |events|
      ensures events[k].at > t
    {
      assert k == n || Before(events[n], events[k]);
    }
  }

  lemma UpToIsPrefix(events: seq<Event>, t: int)
    requires Ascending(Before, events)
    ensures UpTo(events, t) == Sum(events[..Cut(events, t)])
  {
    hide Cut, Sum, UpTo;
    var n := Cut(events, t);
    AfterCut(events, t);
    AllUpTo(events[..n], t);
    NoneUpTo(events[n..], t);
    UpToConcat(events[..n], events[n..], t);
    assert events == events[..n] + events[n..];
  }

  lemma {:induction false} OnlyStartsAdd(events: seq<Event>, t: int)
    requires forall e <- events | e.at <= t :: e.delta >= 0
    ensures UpTo(events, t) >= 0
  {
    if events != [] {
      OnlyStartsAdd(events[..|events| - 1], t);
    }
  }

  // A prefix that ends in a start adds up to no more than is active at that start.
  lemma StartIsCovered(events: seq<Event>, n: nat)
    requires Ascending(Before, events) && n < |events| && events[n].delta >= 0
    ensures Sum(events[..n + 1]) <= UpTo(events, events[n].at)
  {
    var t := events[n].at;
    forall e | e in events[..n + 1]
      ensures e.at <= t
    {
      var k :| 0 <= k < n + 1 && events[k] == e;
      assert k == n || Before(events[k], events[n]);
    }
    AllUpTo(events[..n + 1], t);
    forall e | e in events[n + 1..] && e.at <= t
      ensures e.delta >= 0
    {
      var k :| 0 <= k < |events[n + 1..]| && events[n + 1..][k] == e;
      assert Before(events[n], events[n + 1 + k]);
    }
    OnlyStartsAdd(events[n + 1..], t);
    UpToConcat(events[..n + 1], events[n + 1..], t);
    assert events == events[..n + 1] + events[n + 1..];
  }

  // A peak above zero is what some prefix ending in a start adds up to.
  lemma {:induction false} HighestAtStart(events: seq<Event>) returns (n: nat)
    requires Highest(events) > 0
    ensures n < |events| && events[n].delta > 0 && Sum(events[..n + 1]) == Highest(events)
  {
    var init := events[..|events| - 1];
    if Sum(events) > Highest(init) {
      n := |events| - 1;
      HighestBounds(init, |init|);
      assert init[..|init|] == init && events[..n + 1] == events;
    } else {
      n := HighestAtStart(init);
      assert init[..n + 1] == events[..n + 1];
    }
  }

  function Earliest(requests: seq<Request>): int {
    if requests == [] then 0 else
    var before := Earliest(requests[..|requests| - 1]);
    if requests[|requests| - 1].startedAt < before then requests[|requests| - 1].startedAt else before
  }

  lemma {:induction false} QuietBefore(requests: seq<Request>, now: int, t: int)
    requires t < Earliest(requests)
    ensures Count(Active(now, t), requests) == 0
  {
    if requests != [] {
      QuietBefore(requests[..|requests| - 1], now, t);
    }
  }

  // The peak is exactly the maximum, over all instants, of the requests running at that instant.
  lemma PeakIsMaximum(requests: seq<Request>, now: int)
    ensures forall t :: Count(Active(now, t), requests) <= Peak(requests, now)
    ensures exists t :: Count(Active(now, t), requests) == Peak(requests, now)
  {
    hide Highest, Sum, UpTo, Count, Events, Sort;
    var events := Sort(Before, Events(requests, now));
    BeforeIsTotal();
    SortSorts(Before, Events(requests, now));
    forall t
      ensures Count(Active(now, t), requests) == UpTo(events, t) <= Highest(events)
    {
      UpToSort(Events(requests, now), t);
      UpToIsActive(requests, now, t);
      UpToIsPrefix(events, t);
      HighestBounds(events, Cut(events, t));
    }
    HighestBounds(events, 0);
    if Highest(events) > 0 {
      var n := HighestAtStart(events);
      StartIsCovered(events, n);
      assert Count(Active(now, events[n].at), requests) == Highest(events);
    } else {
      QuietBefore(requests, now, Earliest(requests) - 1);
      assert Count(Active(now, Earliest(requests) - 1), requests) == Highest(events);
    }
  }
}
