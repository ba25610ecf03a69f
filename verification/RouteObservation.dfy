/** What the requests of one scope say about a route: the loop over them, and filter-then-maximum. */
module RouteObservation {
  import opened Wrappers
  import opened UsageRecords

  datatype Route = Route(id: string, target: string, model: string, generation: int)

  datatype Status = Unobserved | Operational | Degraded

  datatype Observation = Observation(status: Status, latestAt: Option<int>, lastSuccessAt: Option<int>)

  predicate Identified(route: Route) {
    route.id != "" && route.target != "" && route.model != "" && route.generation > 0
  }

  predicate TargetFailure(errorClass: string) {
    errorClass in {"target_configuration", "upstream_rate_limited", "upstream_timeout", "upstream_transport",
                   "upstream_unavailable", "upstream_error", "invalid_upstream_response", "upstream_response_too_large"}
  }

  // Completed under exactly this binding.
  predicate Bound(route: Route, r: Request) {
    && r.route == route.id && r.target == route.target && r.model == route.model
    && r.generation == route.generation && r.completedAt.Some?
  }

  function HealthOf(r: Request): Status {
    if r.status == "succeeded" then Operational
    else if r.status == "failed" && TargetFailure(r.errorClass) then Degraded
    else Unobserved
  }

  predicate Telling(route: Route, r: Request) {
    Bound(route, r) && HealthOf(r) != Unobserved
  }

  predicate Success(route: Route, r: Request) {
    Bound(route, r) && r.status == "succeeded"
  }

  // --- Filter, then maximum ---------------------------------------------------------------

  function Tellings(route: Route, requests: seq<Request>): seq<Request> {
    if requests == [] then [] else
    Tellings(route, requests[..|requests| - 1])
    + if Telling(route, requests[|requests| - 1]) then [requests[|requests| - 1]] else []
  }

  function Successes(route: Route, requests: seq<Request>): seq<Request> {
    if requests == [] then [] else
    Successes(route, requests[..|requests| - 1])
    + if Success(route, requests[|requests| - 1]) then [requests[|requests| - 1]] else []
  }

  predicate AllCompleted(requests: seq<Request>) {
    forall r <- requests :: r.completedAt.Some?
  }

  // The latest completion time.
  predicate IsLatest(requests: seq<Request>, at: Option<int>) {
    match at
    case None => requests == []
    case Some(t) => (exists r <- requests :: r.completedAt == Some(t)) && (forall r <- requests :: r.completedAt.GetOr(t) <= t)
  }

  // The first request in list order that completed at this time.
  predicate IsFirstAt(requests: seq<Request>, at: int, first: Request) {
    exists k | 0 <= k < |requests| ::
      && requests[k] == first && first.completedAt == Some(at)
      && forall i | 0 <= i < k :: requests[i].completedAt != Some(at)
  }

  // Latest status and time come from the latest health-relevant completion, the first in list order
  // on ties; the last success from the latest success.
  ghost predicate Describes(route: Route, requests: seq<Request>, o: Observation) {
    var tellings := Tellings(route, requests);
    && IsLatest(tellings, o.latestAt) && IsLatest(Successes(route, requests), o.lastSuccessAt)
    && (if o.latestAt.None? then o.status == Unobserved
        else exists first :: IsFirstAt(tellings, o.latestAt.value, first) && o.status == HealthOf(first))
  }

  method ScopedRouteObservation(route: Route, requests: seq<Request>) returns (o: Observation)
    ensures !Identified(route) ==> o == Observation(Unobserved, None, None)
    ensures Identified(route) ==> Describes(route, requests, o)
  {
    hide Describes, TargetFailure;
    NothingDescribed(route);
    o := Observation(Unobserved, None, None);
    if route.id == "" || route.target == "" || route.model == "" || route.generation <= 0 {
      return;
    }
    for i := 0 to |requests|
      invariant Describes(route, requests[..i], o)
    {
      var r := requests[i];
      assert requests[..i + 1] == requests[..i] + [r];
      ghost var before := o;
      if || r.route != route.id || r.target != route.target || r.model != route.model
         || r.generation != route.generation || r.completedAt.None?
      {
        NotBound(route, requests[..i], r, o);
        continue;
      }
      var at := r.completedAt.value;
      if o.latestAt.None? || at > o.latestAt.value {
        var status := Unobserved;
        if r.status == "succeeded" {
          status := Operational;
        } else if r.status == "failed" && TargetFailure(r.errorClass) {
          status := Degraded;
        }
        if status != Unobserved {
          o := o.(latestAt := Some(at), status := status);
        }
      }
      if r.status == "succeeded" && (o.lastSuccessAt.None? || at > o.lastSuccessAt.value) {
        o := o.(lastSuccessAt := Some(at));
      }
      Bounded(route, requests[..i], r, before, o);
    }
    assert requests[..|requests|] == requests;
  }

  lemma NothingDescribed(route: Route)
    ensures Describes(route, [], Observation(Unobserved, None, None))
  {
  }

  // --- One more request -------------------------------------------------------------------

  lemma NotBound(route: Route, requests: seq<Request>, r: Request, o: Observation)
    requires Describes(route, requests, o) && !Bound(route, r)
    ensures Describes(route, requests + [r], o)
  {
    assert (requests + [r])[..|requests|] == requests;
    assert Tellings(route, requests) + [] == Tellings(route, requests);
    assert Successes(route, requests) + [] == Successes(route, requests);
  }

  function Later(at: Option<int>, t: int): Option<int> {
    if at.None? || t > at.value then Some(t) else at
  }

  lemma LatestSnoc(requests: seq<Request>, r: Request, at: Option<int>)
    requires IsLatest(requests, at) && r.completedAt.Some? && AllCompleted(requests)
    ensures IsLatest(requests + [r], Later(at, r.completedAt.value))
  {
    var longer := requests + [r];
    assert r in longer;
    if at.Some? {
      var s :| s in requests && s.completedAt == at;
      assert s in longer;
    }
    forall s | s in longer
      ensures s == r || s in requests
    {
    }
  }

  lemma FirstSnoc(requests: seq<Request>, r: Request, at: int, first: Request)
    requires IsFirstAt(requests, at, first)
    ensures IsFirstAt(requests + [r], at, first)
  {
    var k :| 0 <= k < |requests| && requests[k] == first && first.completedAt == Some(at)
             && forall i | 0 <= i < k :: requests[i].completedAt != Some(at);
    assert (requests + [r])[k] == first;
  }

  lemma FirstNew(requests: seq<Request>, r: Request, at: Option<int>)
    requires IsLatest(requests, at) && AllCompleted(requests) && r.completedAt.Some?
    requires at.None? || r.completedAt.value > at.value
    ensures IsFirstAt(requests + [r], r.completedAt.value, r)
  {
    var longer := requests + [r];
    assert longer[|requests|] == r;
    forall i | 0 <= i < |requests|
      ensures longer[i].completedAt != r.completedAt
    {
      assert requests[i] in requests;
    }
  }

  lemma {:induction false} TellingsComplete(route: Route, requests: seq<Request>)
    ensures AllCompleted(Tellings(route, requests)) && AllCompleted(Successes(route, requests))
  {
    hide TargetFailure;
    if requests != [] {
      TellingsComplete(route, requests[..|requests| - 1]);
    }
  }

  lemma Bounded(route: Route, requests: seq<Request>, r: Request, before: Observation, after: Observation)
    requires Describes(route, requests, before) && Bound(route, r)
    requires var at := r.completedAt.value;
             var newer := HealthOf(r) != Unobserved && (before.latestAt.None? || at > before.latestAt.value);
             after == Observation(
               if newer then HealthOf(r) else before.status,
               if newer then Some(at) else before.latestAt,
               if r.status == "succeeded" then Later(before.lastSuccessAt, at) else before.lastSuccessAt)
    ensures Describes(route, requests + [r], after)
  {
    hide IsLatest, IsFirstAt, TargetFailure;
    assert (requests + [r])[..|requests|] == requests;
    var tellings, successes := Tellings(route, requests), Successes(route, requests);
    TellingsComplete(route, requests);
    if HealthOf(r) != Unobserved {
      LatestSnoc(tellings, r, before.latestAt);
      if before.latestAt.None? || r.completedAt.value > before.latestAt.value {
        FirstNew(tellings, r, before.latestAt);
      } else {
        var first :| IsFirstAt(tellings, before.latestAt.value, first) && before.status == HealthOf(first);
        FirstSnoc(tellings, r, before.latestAt.value, first);
      }
    } else {
      assert tellings + [] == tellings;
    }
    if r.status == "succeeded" {
      LatestSnoc(successes, r, before.lastSuccessAt);
    } else {
      assert successes + [] == successes;
    }
  }

  // --- The order of the list --------------------------------------------------------------

  lemma {:induction false} TellingMembers(route: Route, requests: seq<Request>, r: Request)
    ensures r in Tellings(route, requests) <==> r in requests && Telling(route, r)
    ensures r in Successes(route, requests) <==> r in requests && Success(route, r)
  {
    hide Telling, Success;
    if requests != [] {
      TellingMembers(route, requests[..|requests| - 1], r);
      assert requests == requests[..|requests| - 1] + [requests[|requests| - 1]];
    }
  }

  lemma SameLatest(a: seq<Request>, b: seq<Request>, x: Option<int>, y: Option<int>)
    requires AllCompleted(a) && AllCompleted(b) && IsLatest(a, x) && IsLatest(b, y)
    requires forall r :: r in a <==> r in b
    ensures x == y
  {
    if a != [] {
      assert a[0] in b;
    }
    if b != [] {
      assert b[0] in a;
    }
  }

  // All health-relevant completions at the latest time tell the same.
  predicate Unanimous(route: Route, requests: seq<Request>, o: Observation) {
    forall r <- Tellings(route, requests) | r.completedAt == o.latestAt :: HealthOf(r) == o.status
  }

  // Permuting the list changes neither time.
  lemma PermutedTimes(route: Route, a: seq<Request>, b: seq<Request>, x: Observation, y: Observation)
    requires multiset(a) == multiset(b) && Describes(route, a, x) && Describes(route, b, y)
    ensures x.latestAt == y.latestAt && x.lastSuccessAt == y.lastSuccessAt
  {
    hide IsLatest, IsFirstAt, Telling, Success;
    forall r
      ensures r in Tellings(route, a) <==> r in Tellings(route, b)
      ensures r in Successes(route, a) <==> r in Successes(route, b)
    {
      TellingMembers(route, a, r);
      TellingMembers(route, b, r);
      assert r in a <==> r in multiset(a);
      assert r in b <==> r in multiset(b);
    }
    TellingsComplete(route, a);
    TellingsComplete(route, b);
    SameLatest(Tellings(route, a), Tellings(route, b), x.latestAt, y.latestAt);
    SameLatest(Successes(route, a), Successes(route, b), x.lastSuccessAt, y.lastSuccessAt);
  }

  lemma FirstMember(requests: seq<Request>, at: int, first: Request)
    requires IsFirstAt(requests, at, first)
    ensures first in requests && first.completedAt == Some(at)
  {
  }

  // Nor, when the latest completions agree, the status.
  lemma PermutedStatus(route: Route, a: seq<Request>, b: seq<Request>, x: Observation, y: Observation)
    requires multiset(a) == multiset(b) && Describes(route, a, x) && Describes(route, b, y) && Unanimous(route, a, x)
    ensures x.status == y.status
  {
    hide IsLatest, IsFirstAt, Telling, Success, Tellings, Successes;
    PermutedTimes(route, a, b, x, y);
    if y.latestAt.Some? {
      var first :| IsFirstAt(Tellings(route, b), y.latestAt.value, first) && y.status == HealthOf(first);
      FirstMember(Tellings(route, b), y.latestAt.value, first);
      TellingMembers(route, b, first);
      TellingMembers(route, a, first);
      assert first in multiset(b);
    }
  }

  // When they do not agree, some order of the same list gives another status.
  lemma DisputedStatus(route: Route, a: seq<Request>, x: Observation) returns (b: seq<Request>)
    requires Describes(route, a, x) && !Unanimous(route, a, x)
    ensures multiset(b) == multiset(a)
    ensures forall y :: Describes(route, b, y) ==> y.status != x.status
  {
    hide IsLatest, Success, Successes, TargetFailure;
    var r :| r in Tellings(route, a) && r.completedAt == x.latestAt && HealthOf(r) != x.status;
    TellingMembers(route, a, r);
    var k :| 0 <= k < |a| && a[k] == r;
    b := [r] + (a[..k] + a[k + 1..]);
    assert a == a[..k] + [a[k]] + a[k + 1..];
    forall y | Describes(route, b, y)
      ensures y.status != x.status
    {
      PermutedTimes(route, a, b, x, y);
      FrontTelling(route, r, a[..k] + a[k + 1..]);
      var first :| IsFirstAt(Tellings(route, b), y.latestAt.value, first) && y.status == HealthOf(first);
      FirstIsFront(Tellings(route, b), y.latestAt.value, first);
    }
  }

  lemma {:induction false} FrontTelling(route: Route, r: Request, rest: seq<Request>)
    requires Telling(route, r)
    ensures |Tellings(route, [r] + rest)| > 0 && Tellings(route, [r] + rest)[0] == r
  {
    hide Telling;
    if rest == [] {
      assert [r] + rest == [r] && [r][..0] == [];
    } else {
      FrontTelling(route, r, rest[..|rest| - 1]);
      assert ([r] + rest)[..|rest|] == [r] + rest[..|rest| - 1];
    }
  }

  lemma FirstIsFront(requests: seq<Request>, at: int, first: Request)
    requires IsFirstAt(requests, at, first) && requests != [] && requests[0].completedAt == Some(at)
    ensures first == requests[0]
  {
  }

  // --- The observation, request by request ------------------------------------------------

  // Completed under this binding, and a success or a failure of the target itself.
  predicate Observes(route: Route, r: Request) {
    && r.completedAt.Some? && route == Route(r.route, r.target, r.model, r.generation)
    && (r.status == "succeeded"
        || (r.status == "failed"
            && (|| r.errorClass == "target_configuration" || r.errorClass == "upstream_rate_limited"
                || r.errorClass == "upstream_timeout" || r.errorClass == "upstream_transport"
                || r.errorClass == "upstream_unavailable" || r.errorClass == "upstream_error"
                || r.errorClass == "invalid_upstream_response" || r.errorClass == "upstream_response_too_large")))
  }

  lemma ObservesIs(route: Route, r: Request)
    ensures Telling(route, r) <==> Observes(route, r)
    ensures Success(route, r) <==> Observes(route, r) && r.status == "succeeded"
    ensures Observes(route, r) ==> HealthOf(r) == if r.status == "succeeded" then Operational else Degraded
    ensures Identified(route) <==> route.id != "" && route.target != "" && route.model != "" && route.generation >= 1
  {
  }

  // The request at this position is the first of those that completed at this time.
  predicate FirstOf(route: Route, requests: seq<Request>, at: int, k: nat) {
    && k < |requests| && Observes(route, requests[k]) && requests[k].completedAt == Some(at)
    && forall i | 0 <= i < k :: !(Observes(route, requests[i]) && requests[i].completedAt == Some(at))
  }

  lemma {:induction false} FirstAmongAll(route: Route, requests: seq<Request>, at: int, first: Request) returns (k: nat)
    requires IsFirstAt(Tellings(route, requests), at, first)
    ensures FirstOf(route, requests, at, k) && requests[k] == first
  {
    hide Telling, Observes;
    var init, last := requests[..|requests| - 1], requests[|requests| - 1];
    var before := Tellings(route, init);
    ObservesIs(route, last);
    var n :| 0 <= n < |Tellings(route, requests)| && Tellings(route, requests)[n] == first && first.completedAt == Some(at)
             && forall i | 0 <= i < n :: Tellings(route, requests)[i].completedAt != Some(at);
    assert forall i | 0 <= i < |before| :: Tellings(route, requests)[i] == before[i];
    if n < |before| {
      assert IsFirstAt(before, at, first);
      k := FirstAmongAll(route, init, at, first);
      assert FirstOf(route, requests, at, k);
    } else {
      k := |init|;
      forall i | 0 <= i < k
        ensures !(Observes(route, requests[i]) && requests[i].completedAt == Some(at))
      {
        ObservesIs(route, requests[i]);
        TellingMembers(route, init, requests[i]);
        assert requests[i] in init;
        if requests[i] in before {
          var j :| 0 <= j < |before| && before[j] == requests[i];
          assert Tellings(route, requests)[j].completedAt != Some(at);
        }
      }
    }
  }

  // The observation's time is the latest at which a request tells of the target, and its status what the first
  // such request in the list tells; its last success is the latest at which one succeeded.
  lemma ObservedExactly(route: Route, requests: seq<Request>, o: Observation)
    requires Describes(route, requests, o)
    ensures match o.latestAt
            case None => o.status == Unobserved && forall r <- requests :: !Observes(route, r)
            case Some(at) =>
              && (exists k: nat :: FirstOf(route, requests, at, k)
                                   && o.status == if requests[k].status == "succeeded" then Operational else Degraded)
              && forall r <- requests :: Observes(route, r) ==> r.completedAt.value <= at
    ensures match o.lastSuccessAt
            case None => forall r <- requests :: !(Observes(route, r) && r.status == "succeeded")
            case Some(at) =>
              && (exists r <- requests :: Observes(route, r) && r.status == "succeeded" && r.completedAt == Some(at))
              && forall r <- requests :: Observes(route, r) && r.status == "succeeded" ==> r.completedAt.value <= at
  {
    hide Telling, Success, Tellings, Successes, IsFirstAt, HealthOf, Observes, FirstOf;
    forall r
      ensures r in Tellings(route, requests) <==> r in requests && Observes(route, r)
      ensures r in Successes(route, requests) <==> r in requests && Observes(route, r) && r.status == "succeeded"
    {
      TellingMembers(route, requests, r);
      ObservesIs(route, r);
    }
    ObservedCompleted(route);
    if o.latestAt.Some? {
      var first :| IsFirstAt(Tellings(route, requests), o.latestAt.value, first) && o.status == HealthOf(first);
      var k := FirstAmongAll(route, requests, o.latestAt.value, first);
      FirstMember(Tellings(route, requests), o.latestAt.value, first);
      ObservesIs(route, first);
    }
  }

  lemma ObservedCompleted(route: Route)
    ensures forall r :: Observes(route, r) ==> r.completedAt.Some?
  {
  }
}
