/** The logical requests the portal and the control plane report on, and what a list of them adds up to. */
module UsageRecords {
  import opened Wrappers
  import opened StreamChunks

  // Times are seconds, durations milliseconds. `route` to `generation` are the binding a request ran under.
  datatype Request = Request(
    status: string, startedAt: int, completedAt: Option<int>, durationMs: int,
    usage: TokenUsage, usageFinal: bool, account: string, alias: string, executed: string, errorClass: string,
    route: string, target: string, model: string, generation: int)

  function Count(p: Request -> bool, requests: seq<Request>): nat {
    if requests == [] then 0
    else Count(p, requests[..|requests| - 1]) + if p(requests[|requests| - 1]) then 1 else 0
  }

  function Any(): Request -> bool {
    (r: Request) => true
  }

  function HasStatus(status: string): Request -> bool {
    (r: Request) => r.status == status
  }

  predicate KnownStatus(status: string) {
    status == "succeeded" || status == "failed" || status == "blocked" || status == "cancelled"
  }

  // Every other status counts as in progress.
  function Unfinished(): Request -> bool {
    (r: Request) => !KnownStatus(r.status)
  }

  lemma {:induction false} CountAny(requests: seq<Request>)
    ensures Count(Any(), requests) == |requests|
  {
    if requests != [] {
      CountAny(requests[..|requests| - 1]);
    }
  }

  lemma {:induction false} StatusesPartition(requests: seq<Request>)
    ensures Count(HasStatus("succeeded"), requests) + Count(HasStatus("failed"), requests) + Count(HasStatus("blocked"), requests)
            + Count(HasStatus("cancelled"), requests) + Count(Unfinished(), requests) == |requests|
  {
    if requests != [] {
      StatusesPartition(requests[..|requests| - 1]);
    }
  }

  // --- Groups -----------------------------------------------------------------------------

  // The requests of one group, in order.
  function Group<K(==)>(keyOf: Request -> K, key: K, requests: seq<Request>): seq<Request> {
    if requests == [] then []
    else Group(keyOf, key, requests[..|requests| - 1]) + if keyOf(requests[|requests| - 1]) == key then [requests[|requests| - 1]] else []
  }

  function KeysOf<K(==)>(keyOf: Request -> K, requests: seq<Request>): set<K> {
    set r | r in requests :: keyOf(r)
  }

  // What a measure adds up to over a list of groups.
  function Over<K(==)>(keyOf: Request -> K, p: Request -> bool, keys: seq<K>, requests: seq<Request>): nat {
    if keys == [] then 0 else Count(p, Group(keyOf, keys[0], requests)) + Over(keyOf, p, keys[1..], requests)
  }

  lemma {:induction false} OverNothing<K>(keyOf: Request -> K, p: Request -> bool, keys: seq<K>)
    ensures Over(keyOf, p, keys, []) == 0
  {
    if keys != [] {
      OverNothing(keyOf, p, keys[1..]);
    }
  }

  lemma CountSnoc(p: Request -> bool, requests: seq<Request>, r: Request)
    ensures Count(p, requests + [r]) == Count(p, requests) + if p(r) then 1 else 0
  {
    assert (requests + [r])[..|requests|] == requests;
  }

  lemma GroupSnoc<K>(keyOf: Request -> K, p: Request -> bool, key: K, requests: seq<Request>)
    requires requests != []
    ensures var init, last := requests[..|requests| - 1], requests[|requests| - 1];
            Count(p, Group(keyOf, key, requests))
            == Count(p, Group(keyOf, key, init)) + if keyOf(last) == key && p(last) then 1 else 0
  {
    hide Count;
    var init, last := requests[..|requests| - 1], requests[|requests| - 1];
    CountSnoc(p, Group(keyOf, key, init), last);
    assert Group(keyOf, key, init) + [] == Group(keyOf, key, init);
  }

  // One more request adds to exactly one group.
  lemma {:induction false} OverSnoc<K>(keyOf: Request -> K, p: Request -> bool, keys: seq<K>, requests: seq<Request>)
    requires requests != [] && forall i, j | 0 <= i < j < |keys| :: keys[i] != keys[j]
    ensures var init, last := requests[..|requests| - 1], requests[|requests| - 1];
            Over(keyOf, p, keys, requests)
            == Over(keyOf, p, keys, init) + if keyOf(last) in keys && p(last) then 1 else 0
  {
    hide Count, Group;
    if keys != [] {
      OverSnoc(keyOf, p, keys[1..], requests);
      GroupSnoc(keyOf, p, keys[0], requests);
      assert keys == [keys[0]] + keys[1..];
    }
  }

  // The groups of a list that names every key once add up to the whole.
  lemma {:induction false} Conserved<K>(keyOf: Request -> K, p: Request -> bool, keys: seq<K>, requests: seq<Request>)
    requires forall i, j | 0 <= i < j < |keys| :: keys[i] != keys[j]
    requires forall r <- requests :: keyOf(r) in keys
    ensures Over(keyOf, p, keys, requests) == Count(p, requests)
  {
    if requests == [] {
      OverNothing(keyOf, p, keys);
    } else {
      Conserved(keyOf, p, keys, requests[..|requests| - 1]);
      OverSnoc(keyOf, p, keys, requests);
    }
  }
}
