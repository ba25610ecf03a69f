/** The figures of the reports, said of the listed requests one by one. */
module ReportFigures {
  import opened Wrappers
  import opened StreamChunks
  import Ordering
  import StringOrder
  import opened UsageRecords
  import opened PeakConcurrency
  import opened TokenTotals
  import opened Breakdowns
  import Percentiles

  // --- Counting ---------------------------------------------------------------------------

  // The positions in a list at which a request is of this kind.
  function Positions(p: Request -> bool, requests: seq<Request>): set<int> {
    set i | 0 <= i < |requests| && p(requests[i])
  }

  lemma {:induction false} CountIs(p: Request -> bool, requests: seq<Request>)
    ensures Count(p, requests) == |Positions(p, requests)|
  {
    if requests != [] {
      var init, n := requests[..|requests| - 1], |requests| - 1;
      CountIs(p, init);
      assert Positions(p, requests) == Positions(p, init) + if p(requests[n]) then {n} else {};
    } else {
      assert Positions(p, requests) == {};
    }
  }

  lemma SamePositions(p: Request -> bool, q: Request -> bool, requests: seq<Request>)
    requires forall r <- requests :: p(r) <==> q(r)
    ensures Positions(p, requests) == Positions(q, requests)
  {
  }

  // --- Statuses ---------------------------------------------------------------------------

  // The counters by status: four that are named, and all others in progress.
  lemma StatusFigures(requests: seq<Request>)
    ensures var counts := StatusesOf(requests);
            && counts.succeeded == |set i | 0 <= i < |requests| && requests[i].status == "succeeded"|
            && counts.failed == |set i | 0 <= i < |requests| && requests[i].status == "failed"|
            && counts.blocked == |set i | 0 <= i < |requests| && requests[i].status == "blocked"|
            && counts.cancelled == |set i | 0 <= i < |requests| && requests[i].status == "cancelled"|
            && counts.inProgress
               == |set i | 0 <= i < |requests| && requests[i].status !in {"succeeded", "failed", "blocked", "cancelled"}|
  {
    CountIs(HasStatus("succeeded"), requests);
    CountIs(HasStatus("failed"), requests);
    CountIs(HasStatus("blocked"), requests);
    CountIs(HasStatus("cancelled"), requests);
    CountIs(Unfinished(), requests);
    assert Positions(HasStatus("succeeded"), requests) == set i | 0 <= i < |requests| && requests[i].status == "succeeded";
    assert Positions(HasStatus("failed"), requests) == set i | 0 <= i < |requests| && requests[i].status == "failed";
    assert Positions(HasStatus("blocked"), requests) == set i | 0 <= i < |requests| && requests[i].status == "blocked";
    assert Positions(HasStatus("cancelled"), requests) == set i | 0 <= i < |requests| && requests[i].status == "cancelled";
    assert Positions(Unfinished(), requests)
        == set i | 0 <= i < |requests| && requests[i].status !in {"succeeded", "failed", "blocked", "cancelled"};
  }

  // --- Concurrency ------------------------------------------------------------------------

  // The requests that began by this instant and had not ended at it; one without an end is still running now.
  function RunningAt(now: int, t: int, requests: seq<Request>): set<int> {
    set i | 0 <= i < |requests| && requests[i].startedAt <= t
            && match requests[i].completedAt case Some(end) => t < end case None => t < now
  }

  lemma PeakFigures(requests: seq<Request>, now: int)
    ensures forall t :: |RunningAt(now, t, requests)| <= Peak(requests, now)
    ensures exists t :: |RunningAt(now, t, requests)| == Peak(requests, now)
  {
    hide Peak, Count;
    PeakIsMaximum(requests, now);
    forall t
      ensures Count(Active(now, t), requests) == |RunningAt(now, t, requests)|
    {
      CountIs(Active(now, t), requests);
      assert Positions(Active(now, t), requests) == RunningAt(now, t, requests);
    }
    var t :| Count(Active(now, t), requests) == Peak(requests, now);
    assert |RunningAt(now, t, requests)| == Peak(requests, now);
  }

  // --- Tokens -----------------------------------------------------------------------------

  predicate Succeeds(r: Request) {
    r.status == "succeeded"
  }

  predicate BothKnown(r: Request) {
    r.usage.input.Some? && r.usage.output.Some?
  }

  // All tokens of the requests that succeeded.
  function TokensOf(requests: seq<Request>): int {
    if requests == [] then 0 else
    (if requests[0].status == "succeeded" then
       (match requests[0].usage.input case Some(n) => n case None => 0) + (match requests[0].usage.output case Some(n) => n case None => 0)
     else 0)
    + TokensOf(requests[1..])
  }

  lemma {:induction false} TokensSnoc(requests: seq<Request>, r: Request)
    ensures TokensOf(requests + [r]) == TokensOf(requests) + TokensOf([r])
  {
    if requests == [] {
      assert [] + [r] == [r];
    } else {
      TokensSnoc(requests[1..], r);
      assert (requests + [r])[1..] == requests[1..] + [r];
    }
  }

  lemma {:induction false} KnownIs(requests: seq<Request>)
    ensures Known(BothOf(), requests) <= Eligible(requests)
    ensures Known(BothOf(), requests) == Eligible(requests) <==> forall r <- requests :: Succeeds(r) ==> BothKnown(r)
    ensures Known(BothOf(), requests) == Eligible(requests) ==> TokenTotals.Sum(BothOf(), requests) == TokensOf(requests)
    ensures Eligible(requests) > 0 <==> exists r <- requests :: Succeeds(r)
  {
    if requests != [] {
      var init, last := requests[..|requests| - 1], requests[|requests| - 1];
      KnownIs(init);
      TokensSnoc(init, last);
      assert requests == init + [last] && [last][1..] == [];
      assert last in requests && forall r <- init :: r in requests;
      assert forall r <- requests :: r in init || r == last;
    }
  }

  lemma UnsettledIs(requests: seq<Request>)
    ensures Count(Unsettled(), requests) > 0 <==> exists r <- requests :: Succeeds(r) && !r.usageFinal
  {
    CountPositive(Unsettled(), requests);
  }

  lemma {:induction false} CountPositive(p: Request -> bool, requests: seq<Request>)
    ensures Count(p, requests) > 0 <==> exists r <- requests :: p(r)
  {
    if requests != [] {
      var init, last := requests[..|requests| - 1], requests[|requests| - 1];
      CountPositive(p, init);
      assert requests == init + [last];
    }
  }

  // A group's tokens are known exactly when some request succeeded and every one that did has both counts;
  // they are then all of them, and final exactly when every usage is.
  lemma TokenFigures(requests: seq<Request>)
    ensures var metric := PortalTokens(requests);
            var some := exists r <- requests :: Succeeds(r);
            var known := forall r <- requests :: Succeeds(r) ==> BothKnown(r);
            && metric.value == (if some && known then Some(TokensOf(requests)) else None)
            && metric.eligible == |set i | 0 <= i < |requests| && Succeeds(requests[i])|
            && (metric.finality == UnknownMetric <==> !some)
            && (metric.finality == FinalMetric <==> some && known && forall r <- requests :: Succeeds(r) ==> r.usageFinal)
            && (metric.finality == PartialMetric <==> some && !(known && forall r <- requests :: Succeeds(r) ==> r.usageFinal))
  {
    hide Known, TokenTotals.Sum, Count;
    KnownIs(requests);
    UnsettledIs(requests);
    CountIs(HasStatus("succeeded"), requests);
    assert Positions(HasStatus("succeeded"), requests) == set i | 0 <= i < |requests| && Succeeds(requests[i]);
  }

  // Both views of a whole period, and the portal's when nothing was requested.
  lemma PeriodFigures(requests: seq<Request>)
    ensures PortalUsageTotal([]) == Some(0) && ControlTotal([]) == None
    ensures requests != [] ==> PortalUsageTotal(requests) == ControlTotal(requests)
    ensures ControlTotal(requests)
            == if (exists r <- requests :: Succeeds(r)) && (forall r <- requests :: Succeeds(r) ==> BothKnown(r))
               then Some(TokensOf(requests)) else None
  {
    TotalsAgree(requests);
    PeriodTotalsAgree(requests);
    TokenFigures(requests);
  }

  // A builder knows a value once one was added, and is final when every eligible request added one.
  lemma BuilderFigures(value: int, known: nat, eligible: nat)
    ensures var metric := ControlMetric(value, known, eligible);
            && metric.known == known && metric.eligible == eligible
            && (metric.value == if known >= 1 then Some(value) else None)
            && (metric.finality == FinalMetric <==> known == eligible >= 1)
            && (metric.finality == UnknownMetric <==> known == 0)
            && (metric.finality == PartialMetric <==> known >= 1 && known != eligible)
  {
  }

  // Nothing has no share.
  lemma ShareOfNothing(value: nat)
    ensures Ratio(value, 0) == None
  {
  }

  // --- Groups -----------------------------------------------------------------------------

  // The requests with this key, from the first on.
  function Chosen<K(==)>(keyOf: Request -> K, key: K, requests: seq<Request>): seq<Request> {
    if requests == [] then []
    else if keyOf(requests[0]) == key then [requests[0]] + Chosen(keyOf, key, requests[1..])
    else Chosen(keyOf, key, requests[1..])
  }

  lemma {:induction false} ChosenSnoc<K>(keyOf: Request -> K, key: K, requests: seq<Request>, r: Request)
    ensures Chosen(keyOf, key, requests + [r]) == Chosen(keyOf, key, requests) + if keyOf(r) == key then [r] else []
  {
    if requests == [] {
      assert [] + [r] == [r] && [r][1..] == [];
    } else {
      ChosenSnoc(keyOf, key, requests[1..], r);
      assert (requests + [r])[1..] == requests[1..] + [r];
    }
  }

  lemma {:induction false} GroupIs<K>(keyOf: Request -> K, key: K, requests: seq<Request>)
    ensures Group(keyOf, key, requests) == Chosen(keyOf, key, requests)
  {
    if requests != [] {
      var init, last := requests[..|requests| - 1], requests[|requests| - 1];
      GroupIs(keyOf, key, init);
      ChosenSnoc(keyOf, key, init, last);
      assert requests == init + [last];
    }
  }

  // A row of the models' breakdown: the requests under one alias that ran one model, their tokens and their
  // share of all.
  lemma ModelRowFigures(key: ModelKey, requests: seq<Request>)
    requires requests != []
    ensures var group := Chosen((r: Request) => (r.alias, r.executed), (key.alias, key.executed), requests);
            PortalRow(key, requests)
            == Row(key.alias, if key.executed == "" then None else Some(key.executed), |group|, PortalTokens(group).value,
                   Some(100.0 * (|group| as real / |requests| as real)))
  {
    hide PortalTokens;
    GroupIs(ModelKeyOf(), key, requests);
    SameChosen(key, requests);
  }

  lemma {:induction false} SameChosen(key: ModelKey, requests: seq<Request>)
    ensures Chosen(ModelKeyOf(), key, requests)
            == Chosen((r: Request) => (r.alias, r.executed), (key.alias, key.executed), requests)
  {
    if requests != [] {
      SameChosen(key, requests[1..]);
    }
  }

  lemma AccountRowFigures(account: string, names: map<string, string>, requests: seq<Request>)
    requires requests != []
    ensures var group := Chosen((r: Request) => r.account, account, requests);
            AccountRow(account, names, requests)
            == Row(if account in names then names[account] else "", None, |group|, PortalTokens(group).value,
                   Some(100.0 * (|group| as real / |requests| as real)))
  {
    hide PortalTokens;
    GroupIs(AccountOf(), account, requests);
    SameAccounts(account, requests);
  }

  lemma {:induction false} SameAccounts(account: string, requests: seq<Request>)
    ensures Chosen(AccountOf(), account, requests) == Chosen((r: Request) => r.account, account, requests)
  {
    if requests != [] {
      SameAccounts(account, requests[1..]);
    }
  }

  // Rows come by alias, and under one alias by model, both in byte order.
  lemma RowsInOrder(rows: seq<Row>, requests: seq<Request>, i: nat, j: nat)
    requires PortalRows(rows, requests) && i < j < |rows|
    ensures StringOrder.AtMost(rows[i].alias, rows[j].alias)
    ensures rows[i].alias == rows[j].alias ==> StringOrder.AtMost(rows[i].executed.GetOr(""), rows[j].executed.GetOr(""))
  {
    hide KeysOf, PortalTokens, Group, StringOrder.AtMost;
    var keys :| Ordering.Lists(KeyOrder, keys, KeysOf(ModelKeyOf(), requests)) && |rows| == |keys|
                && forall k | 0 <= k < |keys| :: rows[k] == PortalRow(keys[k], requests);
    assert KeyOrder(keys[i], keys[j]);
    StringOrder.Total(rows[i].alias, rows[i].alias);
  }

  // --- The trend --------------------------------------------------------------------------

  // The requests that began in the hour from this second on.
  function InHour(start: int, requests: seq<Request>): seq<Request> {
    if requests == [] then []
    else if start <= requests[0].startedAt < start + 3600 then [requests[0]] + InHour(start, requests[1..])
    else InHour(start, requests[1..])
  }

  lemma {:induction false} HourIs(start: int, requests: seq<Request>)
    requires start % 3600 == 0
    ensures Chosen(HourOf(), start, requests) == InHour(start, requests)
  {
    if requests != [] {
      HourIs(start, requests[1..]);
      WithinHour(start, requests[0].startedAt);
    }
  }

  lemma WithinHour(start: int, at: int)
    requires start % 3600 == 0
    ensures at - at % 3600 == start <==> start <= at < start + 3600
  {
    var q, r := at / 3600, start / 3600;
    assert at == 3600 * q + at % 3600 && start == 3600 * r;
  }

  // The durations of the requests that ended.
  function EndedDurations(requests: seq<Request>): seq<int> {
    if requests == [] then []
    else if requests[0].completedAt == None then EndedDurations(requests[1..])
    else [requests[0].durationMs] + EndedDurations(requests[1..])
  }

  lemma {:induction false} DurationsSnoc(requests: seq<Request>, r: Request)
    ensures EndedDurations(requests + [r]) == EndedDurations(requests) + if r.completedAt == None then [] else [r.durationMs]
  {
    if requests == [] {
      assert [] + [r] == [r] && [r][1..] == [];
    } else {
      DurationsSnoc(requests[1..], r);
      assert (requests + [r])[1..] == requests[1..] + [r];
    }
  }

  lemma {:induction false} DurationsIs(requests: seq<Request>)
    ensures Durations(requests) == EndedDurations(requests)
  {
    if requests != [] {
      DurationsIs(requests[..|requests| - 1]);
      DurationsSnoc(requests[..|requests| - 1], requests[|requests| - 1]);
      assert requests == requests[..|requests| - 1] + [requests[|requests| - 1]];
    }
  }

  // Every request of the group ended in a named way, and every success has its final usage.
  predicate Settled(group: seq<Request>) {
    forall r <- group :: r.status in {"succeeded", "failed", "blocked", "cancelled"} && (r.status == "succeeded" ==> r.usageFinal)
  }

  lemma PartialIs(group: seq<Request>)
    ensures Count(Unsettled(), group) > 0 || Count(Unfinished(), group) > 0 <==> !Settled(group)
  {
    CountPositive(Unsettled(), group);
    CountPositive(Unfinished(), group);
  }

  // A point of the trend tells how many requests began in its hour, how they ended, their tokens and the 95th
  // percentile of their durations; it is final exactly when every one of them is settled.
  lemma PointFigures(start: int, requests: seq<Request>)
    requires start % 3600 == 0
    ensures var group, point := InHour(start, requests), PointOf(start, requests);
            && point.start == start && point.logical == |group| && point.statuses == StatusesOf(group)
            && point.tokens.value == PortalTokens(group).value && point.tokens.eligible == PortalTokens(group).eligible
            && (point.tokens.finality == FinalMetric <==> point.tokens.value.Some? && Settled(group))
            && point.p95 == Percentiles.DurationPercentile(EndedDurations(group), Percentiles.NINETY_FIVE)
            && (point.final <==> Settled(group))
  {
    hide Count, Known, TokenTotals.Sum, Durations, EndedDurations, Percentiles.DurationPercentile, Settled, StatusesOf, Group;
    GroupIs(HourOf(), start, requests);
    HourIs(start, requests);
    DurationsIs(InHour(start, requests));
    PartialIs(InHour(start, requests));
  }

  // The points are those of the hours in which requests began, earliest first.
  lemma TrendFigures(points: seq<Point>, requests: seq<Request>)
    requires Trend(points, requests)
    ensures forall i | 0 <= i < |points| ::
              points[i].start % 3600 == 0 && points[i] == PointOf(points[i].start, requests) && InHour(points[i].start, requests) != []
    ensures forall i, j | 0 <= i < j < |points| :: points[i].start < points[j].start
    ensures forall r <- requests :: exists i :: 0 <= i < |points| && points[i].start <= r.startedAt < points[i].start + 3600
  {
    hide PointFrom, Group;
    var hours :| Ordering.Lists(Percentiles.AtMost, hours, KeysOf(HourOf(), requests)) && |points| == |hours|
                 && forall i | 0 <= i < |hours| :: points[i] == PointOf(hours[i], requests);
    forall i | 0 <= i < |points|
      ensures points[i].start == hours[i] && hours[i] % 3600 == 0 && InHour(hours[i], requests) != []
    {
      StartOfPoint(hours[i], requests);
      assert hours[i] in KeysOf(HourOf(), requests);
      var r :| r in requests && HourOf()(r) == hours[i];
      WholeHour(r.startedAt);
      GroupMembers(HourOf(), hours[i], requests, r);
      GroupIs(HourOf(), hours[i], requests);
      HourIs(hours[i], requests);
    }
    forall i, j | 0 <= i < j < |points|
      ensures points[i].start < points[j].start
    {
      assert Percentiles.AtMost(hours[i], hours[j]) && hours[i] != hours[j];
    }
    forall r <- requests
      ensures exists i :: 0 <= i < |points| && points[i].start <= r.startedAt < points[i].start + 3600
    {
      assert HourOf()(r) in KeysOf(HourOf(), requests);
      var i :| 0 <= i < |hours| && hours[i] == HourOf()(r);
      WholeHour(r.startedAt);
      WithinHour(hours[i], r.startedAt);
      assert points[i].start == hours[i];
    }
  }

  lemma WholeHour(at: int)
    ensures (at - at % 3600) % 3600 == 0
  {
    assert at - at % 3600 == 3600 * (at / 3600);
  }

  lemma StartOfPoint(start: int, requests: seq<Request>)
    ensures PointOf(start, requests).start == start
  {
    hide Group, Percentiles.DurationPercentile;
  }

  // --- Percentiles ------------------------------------------------------------------------

  // Half, and nineteen in twenty, of the values are at or below the reported ones; no smaller value has as
  // many at or below it.
  lemma PercentileFigures(values: seq<int>, w: int)
    requires Ordering.Ascending(Percentiles.AtMost, values) && values != []
    ensures var median := Percentiles.Percentile(values, Percentiles.HALF).value;
            && median in values && 2 * Percentiles.Below(values, median) >= |values|
            && (w < median ==> 2 * Percentiles.Below(values, w) < |values|)
    ensures var high := Percentiles.Percentile(values, Percentiles.NINETY_FIVE).value;
            && high in values && 20 * Percentiles.Below(values, high) >= 19 * |values|
            && (w < high ==> 20 * Percentiles.Below(values, w) < 19 * |values|)
  {
    Percentiles.PercentileIsLeast(values, Percentiles.HALF, w);
    Percentiles.PercentileIsLeast(values, Percentiles.NINETY_FIVE, w);
  }

  // The portal rounds down, and goes one up from the 95th percentile on, while there is one more.
  lemma PortalRankFigures(n: nat, f: Percentiles.Fraction, rank: nat)
    requires n > 0 && Percentiles.Proper(f)
    requires rank * f.den <= (n - 1) * f.num < (rank + 1) * f.den
    ensures Percentiles.PortalRank(n, f) == if f.num * 100 >= f.den * 95 && rank + 1 < n then rank + 1 else rank
  {
    var a := (n - 1) * f.num;
    assert a / f.den == rank by {
      Quotient(a, f.den, rank);
    }
  }

  lemma Quotient(a: nat, b: nat, q: nat)
    requires b > 0 && q * b <= a < (q + 1) * b
    ensures a / b == q
  {
    var p := a / b;
    assert p * b <= a < (p + 1) * b;
    Smaller(p, q + 1, b);
    Smaller(q, p + 1, b);
  }

  lemma Smaller(x: nat, y: nat, b: nat)
    requires x * b < y * b
    ensures x < y
  {
    if y <= x {
      Percentiles.ScaledAtMost(y, x, b);
    }
  }

  lemma {:induction false} BelowIs(values: seq<int>, v: int)
    ensures Percentiles.Below(values, v) == |set i | 0 <= i < |values| && values[i] <= v|
  {
    var at := set i | 0 <= i < |values| && values[i] <= v;
    if values != [] {
      var init, n := values[..|values| - 1], |values| - 1;
      BelowIs(init, v);
      assert at == (set i | 0 <= i < |init| && init[i] <= v) + if values[n] <= v then {n} else {};
    } else {
      assert at == {};
    }
  }
}
