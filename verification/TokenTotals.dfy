/** Nullable token totals: the portal's running totals, the control plane's metric builders, and their agreement. */
module TokenTotals {
  import opened Wrappers
  import opened UsageRecords

  // Only succeeded requests carry tokens.
  function InputOf(): Request -> Option<int> {
    (r: Request) => if r.status == "succeeded" then r.usage.input else None
  }

  function OutputOf(): Request -> Option<int> {
    (r: Request) => if r.status == "succeeded" then r.usage.output else None
  }

  function BothOf(): Request -> Option<int> {
    (r: Request) => if r.status == "succeeded" && r.usage.input.Some? && r.usage.output.Some?
                    then Some(r.usage.input.value + r.usage.output.value) else None
  }

  function Known(f: Request -> Option<int>, requests: seq<Request>): nat {
    if requests == [] then 0
    else Known(f, requests[..|requests| - 1]) + if f(requests[|requests| - 1]).Some? then 1 else 0
  }

  function Sum(f: Request -> Option<int>, requests: seq<Request>): int {
    if requests == [] then 0 else Sum(f, requests[..|requests| - 1]) + f(requests[|requests| - 1]).GetOr(0)
  }

  function Eligible(requests: seq<Request>): nat {
    Count(HasStatus("succeeded"), requests)
  }

  // --- The portal -------------------------------------------------------------------------

  datatype MetricFinality = UnknownMetric | PartialMetric | FinalMetric | NotApplicable

  datatype Metric = Metric(value: Option<int>, known: nat, eligible: nat, finality: MetricFinality)

  function PortalMetric(total: int, known: nat, eligible: nat, forcedPartial: bool): Metric {
    Metric(if eligible > 0 && known == eligible then Some(total) else None, known, eligible,
           if eligible == 0 then UnknownMetric else if known == eligible && !forcedPartial then FinalMetric else PartialMetric)
  }

  function Unsettled(): Request -> bool {
    (r: Request) => r.status == "succeeded" && !r.usageFinal
  }

  function PortalTokens(requests: seq<Request>): Metric {
    PortalMetric(Sum(BothOf(), requests), Known(BothOf(), requests), Eligible(requests), Count(Unsettled(), requests) > 0)
  }

  method GroupTokens(requests: seq<Request>) returns (metric: Metric)
    ensures metric == PortalTokens(requests)
  {
    var total, known, eligible: nat := 0, 0, 0;
    var partial := false;
    for i := 0 to |requests|
      invariant total == Sum(BothOf(), requests[..i]) && known == Known(BothOf(), requests[..i])
      invariant eligible == Eligible(requests[..i]) && partial == (Count(Unsettled(), requests[..i]) > 0)
    {
      assert requests[..i + 1][..i] == requests[..i];
      var r := requests[i];
      if r.status != "succeeded" {
        continue;
      }
      eligible := eligible + 1;
      if !r.usageFinal {
        partial := true;
      }
      if r.usage.input.Some? && r.usage.output.Some? {
        total := total + (r.usage.input.value + r.usage.output.value);
        known := known + 1;
      }
    }
    assert requests[..|requests|] == requests;
    metric := PortalMetric(total, known, eligible, partial);
  }

  // --- The control plane ------------------------------------------------------------------

  class MetricBuilder {
    var value: int
    var known: nat

    constructor ()
      ensures value == 0 && known == 0
    {
      value, known := 0, 0;
    }

    method Add(v: Option<int>)
      modifies this
      ensures value == old(value) + v.GetOr(0) && known == old(known) + if v.Some? then 1 else 0
    {
      if v.Some? {
        value := value + v.value;
        known := known + 1;
      }
    }

    function Result(eligible: nat): Metric
      reads this
    {
      ControlMetric(value, known, eligible)
    }
  }

  function ControlMetric(value: int, known: nat, eligible: nat): Metric {
    Metric(if known > 0 then Some(value) else None, known, eligible,
           if eligible > 0 && known == eligible then FinalMetric else if known > 0 then PartialMetric else UnknownMetric)
  }

  function CompleteTokenMetric(metric: Metric): Option<int> {
    if metric.eligible == 0 || metric.known != metric.eligible then None else metric.value
  }

  function AddKnown(left: Option<int>, right: Option<int>): Option<int> {
    if left.None? || right.None? then None else Some(left.value + right.value)
  }

  function ControlTotal(requests: seq<Request>): Option<int> {
    AddKnown(CompleteTokenMetric(ControlMetric(Sum(InputOf(), requests), Known(InputOf(), requests), Eligible(requests))),
             CompleteTokenMetric(ControlMetric(Sum(OutputOf(), requests), Known(OutputOf(), requests), Eligible(requests))))
  }

  method ClientTokens(requests: seq<Request>) returns (total: Option<int>)
    ensures total == ControlTotal(requests)
  {
    var input := new MetricBuilder();
    var output := new MetricBuilder();
    var eligible := 0;
    for i := 0 to |requests|
      invariant fresh(input) && fresh(output) && input != output
      invariant input.value == Sum(InputOf(), requests[..i]) && input.known == Known(InputOf(), requests[..i])
      invariant output.value == Sum(OutputOf(), requests[..i]) && output.known == Known(OutputOf(), requests[..i])
      invariant eligible == Eligible(requests[..i])
    {
      assert requests[..i + 1][..i] == requests[..i];
      var r := requests[i];
      if r.status == "succeeded" {
        eligible := eligible + 1;
        input.Add(r.usage.input);
        output.Add(r.usage.output);
      }
    }
    assert requests[..|requests|] == requests;
    total := AddKnown(CompleteTokenMetric(input.Result(eligible)), CompleteTokenMetric(output.Result(eligible)));
  }

  // --- Agreement --------------------------------------------------------------------------

  lemma {:induction false} KnownTogether(requests: seq<Request>)
    ensures var input, output, both := Known(InputOf(), requests), Known(OutputOf(), requests), Known(BothOf(), requests);
            && both <= input <= Eligible(requests) && both <= output <= Eligible(requests)
            && input + output <= Eligible(requests) + both
            && (both == Eligible(requests) ==> Sum(BothOf(), requests) == Sum(InputOf(), requests) + Sum(OutputOf(), requests))
  {
    if requests != [] {
      KnownTogether(requests[..|requests| - 1]);
    }
  }

  // The two independent computations give the same nullable total for every list of requests.
  lemma TotalsAgree(requests: seq<Request>)
    ensures PortalTokens(requests).value == ControlTotal(requests)
  {
    KnownTogether(requests);
  }

  // The portal's total over a whole period: exactly zero, not unknown, when nothing was requested.
  function PortalUsageTotal(requests: seq<Request>): Option<int> {
    if requests == [] then Some(0) else
    var eligible := Eligible(requests);
    var input := if eligible == 0 || Known(InputOf(), requests) != eligible then None else Some(Sum(InputOf(), requests));
    var output := if eligible == 0 || Known(OutputOf(), requests) != eligible then None else Some(Sum(OutputOf(), requests));
    AddKnown(input, output)
  }

  method PeriodTokens(requests: seq<Request>) returns (total: Option<int>)
    ensures total == PortalUsageTotal(requests)
  {
    var succeeded, inputKnown, outputKnown: nat := 0, 0, 0;
    var input, output := 0, 0;
    for i := 0 to |requests|
      invariant succeeded == Eligible(requests[..i])
      invariant input == Sum(InputOf(), requests[..i]) && inputKnown == Known(InputOf(), requests[..i])
      invariant output == Sum(OutputOf(), requests[..i]) && outputKnown == Known(OutputOf(), requests[..i])
    {
      assert requests[..i + 1][..i] == requests[..i];
      var r := requests[i];
      if r.status == "succeeded" {
        succeeded := succeeded + 1;
        if r.usage.input.Some? {
          input := input + r.usage.input.value;
          inputKnown := inputKnown + 1;
        }
        if r.usage.output.Some? {
          output := output + r.usage.output.value;
          outputKnown := outputKnown + 1;
        }
      }
    }
    assert requests[..|requests|] == requests;
    var completeInput := if succeeded == 0 || inputKnown != succeeded then None else Some(input);
    var completeOutput := if succeeded == 0 || outputKnown != succeeded then None else Some(output);
    total := AddKnown(completeInput, completeOutput);
    if |requests| == 0 {
      total := Some(0);
    }
  }

  // Over a whole period the two agree exactly when there was a request at all.
  lemma PeriodTotalsAgree(requests: seq<Request>)
    ensures PortalUsageTotal(requests) == ControlTotal(requests) <==> requests != []
    ensures requests != [] ==> PortalUsageTotal(requests) == PortalTokens(requests).value
  {
    KnownTogether(requests);
  }
}
