/** Breakdowns by model and by account, and the hourly trend: both views of the same requests. */
module Breakdowns {
  import opened Wrappers
  import opened Ordering
  import StringOrder
  import opened UsageRecords
  import opened TokenTotals
  import opened Percentiles

  // --- Grouping in maps -------------------------------------------------------------------

  // A map holds exactly the groups of a list, each in list order.
  predicate Grouped<K(==)>(groups: map<K, seq<Request>>, keyOf: Request -> K, requests: seq<Request>) {
    groups.Keys == KeysOf(keyOf, requests) && forall k <- groups :: groups[k] == Group(keyOf, k, requests)
  }

  method GroupBy<K(==,!new)>(keyOf: Request -> K, requests: seq<Request>) returns (groups: map<K, seq<Request>>)
    ensures Grouped(groups, keyOf, requests)
  {
    groups := map[];
    for i := 0 to |requests|
      invariant Grouped(groups, keyOf, requests[..i])
    {
      assert requests[..i + 1][..i] == requests[..i] && requests[..i + 1] == requests[..i] + [requests[i]];
      var key := keyOf(requests[i]);
      if key !in groups {
        GroupOfNone(keyOf, key, requests[..i]);
      }
      groups := groups[key := (if key in groups then groups[key] else []) + [requests[i]]];
    }
    assert requests[..|requests|] == requests;
  }

  lemma {:induction false} GroupOfNone<K>(keyOf: Request -> K, key: K, requests: seq<Request>)
    requires key !in KeysOf(keyOf, requests)
    ensures Group(keyOf, key, requests) == []
  {
    if requests != [] {
      var init := requests[..|requests| - 1];
      assert forall r <- init :: r in requests;
      GroupOfNone(keyOf, key, init);
      assert requests[|requests| - 1] in requests;
    }
  }

  // --- Keys -------------------------------------------------------------------------------

  datatype ModelKey = ModelKey(alias: string, executed: string)

  function AliasOf(): Request -> string {
    (r: Request) => r.alias
  }

  function ModelKeyOf(): Request -> ModelKey {
    (r: Request) => ModelKey(r.alias, r.executed)
  }

  function AccountOf(): Request -> string {
    (r: Request) => r.account
  }

  predicate KeyOrder(a: ModelKey, b: ModelKey) {
    if a.alias == b.alias then StringOrder.AtMost(a.executed, b.executed) else StringOrder.AtMost(a.alias, b.alias)
  }

  lemma KeysAreOrdered()
    ensures TotalOrder(KeyOrder)
  {
    StringOrder.IsTotalOrder();
    hide StringOrder.AtMost;
  }

  // Splitting by alias and then by model is splitting by both.
  lemma {:induction false} GroupWithin(key: ModelKey, requests: seq<Request>)
    ensures Group(ModelKeyOf(), key, Group(AliasOf(), key.alias, requests)) == Group(ModelKeyOf(), key, requests)
  {
    if requests != [] {
      var init, last := requests[..|requests| - 1], requests[|requests| - 1];
      GroupWithin(key, init);
      var outer := Group(AliasOf(), key.alias, init);
      if last.alias == key.alias {
        assert (outer + [last])[..|outer|] == outer;
      } else {
        assert outer + [] == outer;
      }
    }
  }

  lemma {:induction false} GroupMembers<K>(keyOf: Request -> K, key: K, requests: seq<Request>, r: Request)
    ensures r in Group(keyOf, key, requests) <==> r in requests && keyOf(r) == key
  {
    if requests != [] {
      GroupMembers(keyOf, key, requests[..|requests| - 1], r);
      assert requests == requests[..|requests| - 1] + [requests[|requests| - 1]];
    }
  }

  // --- Model rows -------------------------------------------------------------------------

  datatype Row = Row(alias: string, executed: Option<string>, requests: nat, tokens: Option<int>, share: Option<real>)

  function Ratio(value: nat, total: nat): Option<real> {
    if total == 0 then None else Some(value as real / total as real * 100.0)
  }

  function Named(executed: string): Option<string> {
    if executed == "" then None else Some(executed)
  }

  function PortalRow(key: ModelKey, requests: seq<Request>): Row {
    var group := Group(ModelKeyOf(), key, requests);
    Row(key.alias, Named(key.executed), |group|, PortalTokens(group).value, Ratio(|group|, |requests|))
  }

  function ControlRow(key: ModelKey, requests: seq<Request>): Row
    requires requests != []
  {
    var group := Group(ModelKeyOf(), key, requests);
    Row(key.alias, Named(key.executed), |group|, ControlTotal(group), Some(|group| as real / |requests| as real * 100.0))
  }

  // One row per model, in key order.
  ghost predicate PortalRows(rows: seq<Row>, requests: seq<Request>) {
    exists keys: seq<ModelKey> ::
      && Lists(KeyOrder, keys, KeysOf(ModelKeyOf(), requests)) && |rows| == |keys|
      && forall i | 0 <= i < |keys| :: rows[i] == PortalRow(keys[i], requests)
  }

  ghost predicate ControlRows(rows: seq<Row>, requests: seq<Request>) {
    exists keys: seq<ModelKey> ::
      && Lists(KeyOrder, keys, KeysOf(ModelKeyOf(), requests)) && |rows| == |keys| && (keys != [] ==> requests != [])
      && forall i | 0 <= i < |keys| :: rows[i] == ControlRow(keys[i], requests)
  }

  // The groups by alias split again by executed model, with the requests counted on the way.
  method SplitByModel(aliasGroups: map<string, seq<Request>>, ghost requests: seq<Request>)
    returns (groups: map<ModelKey, seq<Request>>, all: nat)
    requires Grouped(aliasGroups, AliasOf(), requests)
    ensures Grouped(groups, ModelKeyOf(), requests) && all == |requests|
  {
    hide Over, Count, Group, KeysOf;
    groups, all := map[], 0;
    ghost var done: seq<string> := [];
    var left := aliasGroups.Keys;
    OverNone(AliasOf(), Any(), requests);
    while left != {}
      invariant left <= aliasGroups.Keys && Unrepeated(done)
      invariant forall a :: a in done <==> a in aliasGroups && a !in left
      invariant forall k :: k in groups <==> k in KeysOf(ModelKeyOf(), requests) && k.alias in aliasGroups && k.alias !in left
      invariant forall k <- groups :: groups[k] == Group(ModelKeyOf(), k, requests)
      invariant all == Over(AliasOf(), Any(), done, requests)
      decreases |left|
    {
      var alias :| alias in left;
      var inner := GroupBy(ModelKeyOf(), aliasGroups[alias]);
      InnerGroups(inner, alias, aliasGroups[alias], requests);
      groups := groups + inner;
      all := all + |aliasGroups[alias]|;
      CountAny(aliasGroups[alias]);
      OverAdds(AliasOf(), Any(), done, alias, requests);
      done := done + [alias];
      left := left - {alias};
    }
    AllCounted(AliasOf(), done, requests);
    ModelAliases(requests);
    assert groups.Keys == KeysOf(ModelKeyOf(), requests);
  }

  lemma OverNone<K>(keyOf: Request -> K, p: Request -> bool, requests: seq<Request>)
    ensures Over(keyOf, p, [], requests) == 0
  {
  }

  lemma ModelAliases(requests: seq<Request>)
    ensures forall k <- KeysOf(ModelKeyOf(), requests) :: k.alias in KeysOf(AliasOf(), requests)
  {
    forall k | k in KeysOf(ModelKeyOf(), requests)
      ensures k.alias in KeysOf(AliasOf(), requests)
    {
      var r :| r in requests && ModelKeyOf()(r) == k;
      assert AliasOf()(r) == k.alias;
    }
  }

  // Counting every group once counts every request once.
  lemma AllCounted<K>(keyOf: Request -> K, keys: seq<K>, requests: seq<Request>)
    requires Unrepeated(keys) && forall k <- KeysOf(keyOf, requests) :: k in keys
    ensures Over(keyOf, Any(), keys, requests) == |requests|
  {
    forall r | r in requests
      ensures keyOf(r) in keys
    {
      assert keyOf(r) in KeysOf(keyOf, requests);
    }
    Conserved(keyOf, Any(), keys, requests);
    CountAny(requests);
  }

  method MakeModelBreakdowns(aliasGroups: map<string, seq<Request>>, ghost requests: seq<Request>)
    returns (rows: seq<Row>)
    requires Grouped(aliasGroups, AliasOf(), requests)
    ensures PortalRows(rows, requests)
  {
    hide Group, KeysOf, KeyOrder, PortalTokens;
    var groups, all := SplitByModel(aliasGroups, requests);
    KeysAreOrdered();
    var sorted := SortedKeys(KeyOrder, groups.Keys);
    rows := [];
    for i := 0 to |sorted|
      invariant |rows| == i && forall j | 0 <= j < i :: rows[j] == PortalRow(sorted[j], requests)
    {
      assert sorted[i] in groups;
      var group := groups[sorted[i]];
      var metric := GroupTokens(group);
      rows := rows + [Row(sorted[i].alias, Named(sorted[i].executed), |group|, metric.value, Ratio(|group|, all))];
    }
  }

  lemma InnerGroups(inner: map<ModelKey, seq<Request>>, alias: string, group: seq<Request>, requests: seq<Request>)
    requires Grouped(inner, ModelKeyOf(), group) && group == Group(AliasOf(), alias, requests)
    ensures forall k :: k in inner <==> k in KeysOf(ModelKeyOf(), requests) && k.alias == alias
    ensures forall k <- inner :: inner[k] == Group(ModelKeyOf(), k, requests)
  {
    forall k
      ensures k in inner <==> k in KeysOf(ModelKeyOf(), requests) && k.alias == alias
    {
      if k in inner {
        var r :| r in group && ModelKeyOf()(r) == k;
        GroupMembers(AliasOf(), alias, requests, r);
      }
      if k in KeysOf(ModelKeyOf(), requests) && k.alias == alias {
        var r :| r in requests && ModelKeyOf()(r) == k;
        GroupMembers(AliasOf(), alias, requests, r);
      }
    }
    forall k | k in inner
      ensures inner[k] == Group(ModelKeyOf(), k, requests)
    {
      GroupWithin(k, requests);
    }
  }

  lemma {:induction false} OverAdds<K>(keyOf: Request -> K, p: Request -> bool, keys: seq<K>, key: K, requests: seq<Request>)
    ensures Over(keyOf, p, keys + [key], requests) == Over(keyOf, p, keys, requests) + Count(p, Group(keyOf, key, requests))
  {
    if keys == [] {
      assert [] + [key] == [key];
      assert [key][1..] == [];
    } else {
      OverAdds(keyOf, p, keys[1..], key, requests);
      assert (keys + [key])[1..] == keys[1..] + [key];
    }
  }

  lemma KeysNeedRequests(keys: seq<ModelKey>, requests: seq<Request>)
    requires forall k <- keys :: k in KeysOf(ModelKeyOf(), requests)
    ensures keys != [] ==> requests != []
  {
    if keys != [] {
      assert keys[0] in KeysOf(ModelKeyOf(), requests);
    }
  }

  // The control plane's rows: grouped by both at once.
  method ClientModelBreakdown(requests: seq<Request>) returns (rows: seq<Row>)
    ensures ControlRows(rows, requests)
  {
    hide Group, KeysOf, KeyOrder, ControlTotal;
    var groups := GroupBy(ModelKeyOf(), requests);
    KeysAreOrdered();
    var sorted := SortedKeys(KeyOrder, groups.Keys);
    KeysNeedRequests(sorted, requests);
    rows := [];
    for i := 0 to |sorted|
      invariant |rows| == i && forall j | 0 <= j < i :: rows[j] == ControlRow(sorted[j], requests)
    {
      assert sorted[i] in groups;
      var group := groups[sorted[i]];
      var tokens := ClientTokens(group);
      rows := rows + [Row(sorted[i].alias, Named(sorted[i].executed), |group|, tokens,
                          Some(|group| as real / |requests| as real * 100.0))];
    }
  }

  // The portal and the control plane list the same models in the same order, with the same counts,
  // the same nullable token totals and the same shares.
  lemma ModelBreakdownsAgree(requests: seq<Request>, portal: seq<Row>, control: seq<Row>)
    requires PortalRows(portal, requests) && ControlRows(control, requests)
    ensures portal == control
  {
    hide KeysOf, Lists, PortalTokens, ControlTotal, Group;
    var portalKeys :| Lists(KeyOrder, portalKeys, KeysOf(ModelKeyOf(), requests)) && |portal| == |portalKeys|
                      && forall i | 0 <= i < |portalKeys| :: portal[i] == PortalRow(portalKeys[i], requests);
    var controlKeys :| Lists(KeyOrder, controlKeys, KeysOf(ModelKeyOf(), requests)) && |control| == |controlKeys|
                       && (controlKeys != [] ==> requests != [])
                       && forall i | 0 <= i < |controlKeys| :: control[i] == ControlRow(controlKeys[i], requests);
    KeysAreOrdered();
    OneList(KeyOrder, portalKeys, controlKeys, KeysOf(ModelKeyOf(), requests));
    forall i | 0 <= i < |portal|
      ensures portal[i] == control[i]
    {
      TotalsAgree(Group(ModelKeyOf(), portalKeys[i], requests));
    }
  }

  // The portal's rows add up to every request.
  lemma PortalRowsConserve(requests: seq<Request>, rows: seq<Row>)
    requires PortalRows(rows, requests)
    ensures RowRequests(rows) == |requests|
  {
    hide KeysOf, Lists, PortalTokens, Group;
    var keys :| Lists(KeyOrder, keys, KeysOf(ModelKeyOf(), requests)) && |rows| == |keys|
                && forall i | 0 <= i < |keys| :: rows[i] == PortalRow(keys[i], requests);
    RowsConserve(KeyOrder, ModelKeyOf(), keys, rows, requests);
  }

  function RowRequests(rows: seq<Row>): nat {
    if rows == [] then 0 else rows[0].requests + RowRequests(rows[1..])
  }

  lemma {:induction false} RowsAreGroups<K>(keyOf: Request -> K, keys: seq<K>, rows: seq<Row>, requests: seq<Request>)
    requires |rows| == |keys| && forall i | 0 <= i < |rows| :: rows[i].requests == |Group(keyOf, keys[i], requests)|
    ensures RowRequests(rows) == Over(keyOf, Any(), keys, requests)
  {
    if rows != [] {
      RowsAreGroups(keyOf, keys[1..], rows[1..], requests);
      CountAny(Group(keyOf, keys[0], requests));
    }
  }

  // The rows of a breakdown add up to every request.
  lemma RowsConserve<K(!new)>(le: (K, K) -> bool, keyOf: Request -> K, keys: seq<K>, rows: seq<Row>, requests: seq<Request>)
    requires Lists(le, keys, KeysOf(keyOf, requests))
    requires |rows| == |keys| && forall i | 0 <= i < |rows| :: rows[i].requests == |Group(keyOf, keys[i], requests)|
    ensures RowRequests(rows) == |requests|
  {
    RowsAreGroups(keyOf, keys, rows, requests);
    AllCounted(keyOf, keys, requests);
  }

  // --- Account rows -----------------------------------------------------------------------

  // A row's alias holds the account's display name.
  function AccountRow(account: string, names: map<string, string>, requests: seq<Request>): Row {
    var group := Group(AccountOf(), account, requests);
    Row(if account in names then names[account] else "", None, |group|, PortalTokens(group).value, Ratio(|group|, |requests|))
  }

  // One row per account, in key order.
  ghost predicate AccountRows(rows: seq<Row>, names: map<string, string>, requests: seq<Request>) {
    exists keys: seq<string> ::
      && Lists(StringOrder.AtMost, keys, KeysOf(AccountOf(), requests)) && |rows| == |keys|
      && forall i | 0 <= i < |keys| :: rows[i] == AccountRow(keys[i], names, requests)
  }

  method MakeBreakdowns(groups: map<string, seq<Request>>, names: map<string, string>, ghost requests: seq<Request>)
    returns (rows: seq<Row>)
    requires Grouped(groups, AccountOf(), requests)
    ensures AccountRows(rows, names, requests)
    ensures RowRequests(rows) == |requests|
  {
    hide Over, Count, Group, KeysOf, StringOrder.AtMost, PortalTokens;
    var all := 0;
    ghost var done: seq<string> := [];
    var left := groups.Keys;
    OverNone(AccountOf(), Any(), requests);
    while left != {}
      invariant left <= groups.Keys && Unrepeated(done)
      invariant forall a :: a in done <==> a in groups && a !in left
      invariant all == Over(AccountOf(), Any(), done, requests)
      decreases |left|
    {
      var account :| account in left;
      all := all + |groups[account]|;
      CountAny(groups[account]);
      OverAdds(AccountOf(), Any(), done, account, requests);
      done := done + [account];
      left := left - {account};
    }
    AllCounted(AccountOf(), done, requests);
    StringOrder.IsTotalOrder();
    var sorted := SortedKeys(StringOrder.AtMost, groups.Keys);
    rows := [];
    for i := 0 to |sorted|
      invariant |rows| == i && forall j | 0 <= j < i :: rows[j] == AccountRow(sorted[j], names, requests)
    {
      assert sorted[i] in groups;
      var group := groups[sorted[i]];
      var metric := GroupTokens(group);
      var name := if sorted[i] in names then names[sorted[i]] else "";
      rows := rows + [Row(name, None, |group|, metric.value, Ratio(|group|, all))];
    }
    RowsConserve(StringOrder.AtMost, AccountOf(), sorted, rows, requests);
  }

  // --- The hourly trend -------------------------------------------------------------------

  const HOUR := 3600

  function HourOf(): Request -> int {
    (r: Request) => r.startedAt - r.startedAt % HOUR
  }

  datatype Statuses = Statuses(succeeded: nat, failed: nat, blocked: nat, cancelled: nat, inProgress: nat) {
    function Plus(other: Statuses): Statuses {
      Statuses(succeeded + other.succeeded, failed + other.failed, blocked + other.blocked,
               cancelled + other.cancelled, inProgress + other.inProgress)
    }
  }

  function StatusesOf(requests: seq<Request>): Statuses {
    Statuses(Count(HasStatus("succeeded"), requests), Count(HasStatus("failed"), requests),
             Count(HasStatus("blocked"), requests), Count(HasStatus("cancelled"), requests), Count(Unfinished(), requests))
  }

  // The running counters of the portal's totals and of one trend point.
  method CountStatuses(requests: seq<Request>) returns (counts: Statuses, logical: nat)
    ensures counts == StatusesOf(requests) && logical == |requests|
  {
    var succeeded, failed, blocked, cancelled, inProgress: nat := 0, 0, 0, 0, 0;
    logical := 0;
    for i := 0 to |requests|
      invariant Statuses(succeeded, failed, blocked, cancelled, inProgress) == StatusesOf(requests[..i]) && logical == i
    {
      assert requests[..i + 1][..i] == requests[..i];
      logical := logical + 1;
      if requests[i].status == "succeeded" {
        succeeded := succeeded + 1;
      } else if requests[i].status == "failed" {
        failed := failed + 1;
      } else if requests[i].status == "blocked" {
        blocked := blocked + 1;
      } else if requests[i].status == "cancelled" {
        cancelled := cancelled + 1;
      } else {
        inProgress := inProgress + 1;
      }
    }
    assert requests[..|requests|] == requests;
    counts := Statuses(succeeded, failed, blocked, cancelled, inProgress);
  }

  function Durations(requests: seq<Request>): seq<int> {
    if requests == [] then [] else
    Durations(requests[..|requests| - 1])
    + if requests[|requests| - 1].completedAt.Some? then [requests[|requests| - 1].durationMs] else []
  }

  // A point is partial when a request is unfinished or a success has no final usage.
  datatype Point = Point(start: int, logical: nat, statuses: Statuses, tokens: Metric, p95: Option<int>, final: bool)

  function PointFrom(start: int, group: seq<Request>): Point {
    var partial := Count(Unsettled(), group) > 0 || Count(Unfinished(), group) > 0;
    Point(start, |group|, StatusesOf(group),
          PortalMetric(Sum(BothOf(), group), Known(BothOf(), group), Eligible(group), partial),
          DurationPercentile(Durations(group), NINETY_FIVE), !partial)
  }

  function PointOf(start: int, requests: seq<Request>): Point {
    PointFrom(start, Group(HourOf(), start, requests))
  }

  method BuildPoint(start: int, group: seq<Request>) returns (point: Point)
    ensures point == PointFrom(start, group)
  {
    var counts, logical := CountStatuses(group);
    var total, known: nat := 0, 0;
    var durations: seq<int> := [];
    var unsettled := false;
    for i := 0 to |group|
      invariant total == Sum(BothOf(), group[..i]) && known == Known(BothOf(), group[..i])
      invariant durations == Durations(group[..i])
      invariant unsettled == (Count(Unsettled(), group[..i]) > 0)
    {
      assert group[..i + 1][..i] == group[..i];
      var r := group[i];
      if r.status == "succeeded" {
        if r.usage.input.Some? && r.usage.output.Some? {
          total := total + (r.usage.input.value + r.usage.output.value);
          known := known + 1;
        }
        if !r.usageFinal {
          unsettled := true;
        }
      }
      if r.completedAt.Some? {
        durations := durations + [r.durationMs];
      } else {
        assert durations + [] == durations;
      }
    }
    assert group[..|group|] == group;
    var partial := unsettled || counts.inProgress > 0;
    point := Point(start, logical, counts, PortalMetric(total, known, counts.succeeded, partial),
                   DurationPercentile(durations, NINETY_FIVE), !partial);
  }

  // One point per hour that has requests, in order.
  ghost predicate Trend(points: seq<Point>, requests: seq<Request>) {
    exists hours: seq<int> ::
      && Lists(AtMost, hours, KeysOf(HourOf(), requests)) && |points| == |hours|
      && forall i | 0 <= i < |hours| :: points[i] == PointOf(hours[i], requests)
  }

  method BuildDirectTrend(requests: seq<Request>) returns (points: seq<Point>)
    ensures Trend(points, requests)
  {
    hide PointFrom, Group, KeysOf;
    var groups := GroupBy(HourOf(), requests);
    IntegersAreOrdered();
    var sorted := SortedKeys(AtMost, groups.Keys);
    points := [];
    for i := 0 to |sorted|
      invariant |points| == i && forall j | 0 <= j < i :: points[j] == PointOf(sorted[j], requests)
    {
      assert sorted[i] in groups;
      var point := BuildPoint(sorted[i], groups[sorted[i]]);
      points := points + [point];
    }
  }

  function TrendTotals(points: seq<Point>): (nat, Statuses) {
    if points == [] then (0, Statuses(0, 0, 0, 0, 0)) else
    var rest := TrendTotals(points[1..]);
    (points[0].logical + rest.0, points[0].statuses.Plus(rest.1))
  }

  lemma {:induction false} TrendIsOver(points: seq<Point>, hours: seq<int>, requests: seq<Request>)
    requires |points| == |hours| && forall i | 0 <= i < |hours| :: points[i] == PointOf(hours[i], requests)
    ensures TrendTotals(points)
         == (Over(HourOf(), Any(), hours, requests),
             Statuses(Over(HourOf(), HasStatus("succeeded"), hours, requests), Over(HourOf(), HasStatus("failed"), hours, requests),
                      Over(HourOf(), HasStatus("blocked"), hours, requests), Over(HourOf(), HasStatus("cancelled"), hours, requests),
                      Over(HourOf(), Unfinished(), hours, requests)))
  {
    hide Count, Sum, Known, DurationPercentile, Group;
    if points != [] {
      TrendIsOver(points[1..], hours[1..], requests);
      CountAny(Group(HourOf(), hours[0], requests));
    }
  }

  // The trend's points add up to every request, and status by status to the portal's totals.
  lemma TrendConserves(points: seq<Point>, requests: seq<Request>)
    requires Trend(points, requests)
    ensures TrendTotals(points) == (|requests|, StatusesOf(requests))
  {
    hide PointOf, Over, Count;
    var hours :| Lists(AtMost, hours, KeysOf(HourOf(), requests)) && |points| == |hours|
                 && forall i | 0 <= i < |hours| :: points[i] == PointOf(hours[i], requests);
    TrendIsOver(points, hours, requests);
    forall r | r in requests
      ensures HourOf()(r) in hours
    {
      assert HourOf()(r) in KeysOf(HourOf(), requests);
    }
    Conserved(HourOf(), Any(), hours, requests);
    Conserved(HourOf(), HasStatus("succeeded"), hours, requests);
    Conserved(HourOf(), HasStatus("failed"), hours, requests);
    Conserved(HourOf(), HasStatus("blocked"), hours, requests);
    Conserved(HourOf(), HasStatus("cancelled"), hours, requests);
    Conserved(HourOf(), Unfinished(), hours, requests);
    CountAny(requests);
  }
}
