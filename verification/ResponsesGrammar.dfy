/**
 What the strict client's acceptance of a trace means, said of the trace alone: numbering,
 bracketing, and one life - added, deltas, done - for each output item.
 */
module ResponsesGrammar {
  import opened Wrappers
  import opened StreamChunks
  import opened ResponsesStream
  import opened ResponsesClient
  import ResponsesTrace

  // The output index an event speaks of.
  function Mentioned(body: Body): Option<nat> {
    match body
    case OutputItemAdded(k, _) => Some(k)
    case ContentPartAdded(_, k) => Some(k)
    case OutputTextDelta(_, k, _) => Some(k)
    case ArgumentsDelta(_, k, _) => Some(k)
    case OutputTextDone(_, k, _) => Some(k)
    case ContentPartDone(_, k, _) => Some(k)
    case ArgumentsDone(_, k, _) => Some(k)
    case OutputItemDone(k, _) => Some(k)
    case _ => None
  }

  function DeltaFor(body: Body, k: nat): string {
    match body
    case OutputTextDelta(_, j, delta) => if j == k then delta else ""
    case ArgumentsDelta(_, j, delta) => if j == k then delta else ""
    case _ => ""
  }

  // All deltas for one output index, joined.
  function Deltas(trace: seq<Event>, k: nat): string {
    if trace == [] then "" else Deltas(trace[..|trace| - 1], k) + DeltaFor(trace[|trace| - 1].body, k)
  }

  predicate Numbered(trace: seq<Event>) {
    forall i | 0 <= i < |trace| :: trace[i].sequence == i + 1
  }

  predicate Opened(trace: seq<Event>) {
    && |trace| >= 2 && trace[0].body.ResponseCreated? && trace[1].body.ResponseInProgress?
  }

  // Created, in_progress, events about items only, and one terminal event at the very end.
  predicate Bracketed(trace: seq<Event>) {
    && |trace| >= 3 && Opened(trace) && trace[|trace| - 1].body.ResponseEnded?
    && forall i | 2 <= i < |trace| - 1 :: Mentioned(trace[i].body).Some?
  }

  // Nothing about an item precedes its being added, and nothing follows its being done.
  predicate OneLife(trace: seq<Event>) {
    && (forall i, j | 0 <= i < j < |trace| && trace[j].body.OutputItemAdded? ::
          Mentioned(trace[i].body) != Some(trace[j].body.outputIndex))
    && (forall i, j | 0 <= i < j < |trace| && trace[i].body.OutputItemDone? ::
          Mentioned(trace[j].body) != Some(trace[i].body.outputIndex))
  }

  predicate AddedIn(trace: seq<Event>, k: nat) {
    exists i :: 0 <= i < |trace| && trace[i].body.OutputItemAdded? && trace[i].body.outputIndex == k
  }

  predicate DoneIn(trace: seq<Event>, k: nat) {
    exists i :: 0 <= i < |trace| && trace[i].body.OutputItemDone? && trace[i].body.outputIndex == k
  }

  // Every payload an event repeats when it closes something is the item's deltas so far.
  predicate Repeats(trace: seq<Event>, body: Body) {
    match body
    case OutputTextDone(_, k, text) => text == Deltas(trace, k)
    case ContentPartDone(_, k, text) => text == Deltas(trace, k)
    case ArgumentsDone(_, k, arguments) => arguments == Deltas(trace, k)
    case OutputItemDone(k, MessageItem(_, _, content)) => content == Some(Deltas(trace, k))
    case OutputItemDone(k, CallItem(_, _, _, _, _, arguments)) => arguments == Deltas(trace, k)
    case _ => true
  }

  predicate Faithful(trace: seq<Event>) {
    forall i | 0 <= i < |trace| :: Repeats(trace[..i], trace[i].body)
  }

  // --- What holds after every accepted prefix ---------------------------------------------

  predicate PhaseFits(trace: seq<Event>, phase: Phase) {
    match phase
    case Expecting => trace == []
    case Announced(_) => |trace| == 1 && trace[0].body.ResponseCreated?
    case Streaming(_) => Opened(trace) && forall i | 2 <= i < |trace| :: Mentioned(trace[i].body).Some?
    case Ended(r) => Bracketed(trace) && trace[|trace| - 1].body.response == r
  }

  predicate ItemsFit(trace: seq<Event>, items: seq<ClientItem>) {
    && (forall i | 0 <= i < |trace| && Mentioned(trace[i].body).Some? :: Mentioned(trace[i].body).value < |items|)
    && (forall k | 0 <= k < |items| :: AddedIn(trace, k) && items[k].received == Deltas(trace, k))
    && (forall k | 0 <= k < |items| :: DoneIn(trace, k) <==> items[k].stage == Closed)
  }

  predicate Fits(trace: seq<Event>, c: Client) {
    && c.received == |trace| && Numbered(trace) && OneLife(trace)
    && PhaseFits(trace, c.phase)
    && (!c.phase.Streaming? && !c.phase.Ended? ==> c.items == [])
    && ItemsFit(trace, c.items)
    && (c.phase.Ended? ==>
          && |c.phase.response.output| == |c.items|
          && forall k | 0 <= k < |c.items| :: c.items[k].stage == Closed && c.phase.response.output[k] == Rebuilt(c.items[k]))
  }

  lemma ItemsStep(trace: seq<Event>, e: Event, items: seq<ClientItem>, k: nat, ci: ClientItem)
    requires ItemsFit(trace, items) && Mentioned(e.body) == Some(k) && k < |items|
    requires !e.body.OutputItemAdded?
    requires items[k].stage != Closed
    requires ci.received == items[k].received + DeltaFor(e.body, k)
    requires ci.stage == Closed <==> e.body.OutputItemDone?
    ensures ItemsFit(trace + [e], items[k := ci])
  {
    var longer := trace + [e];
    assert longer[..|longer| - 1] == trace;
    forall j | 0 <= j < |items|
      ensures AddedIn(longer, j) && items[k := ci][j].received == Deltas(longer, j)
      ensures DoneIn(longer, j) <==> items[k := ci][j].stage == Closed
    {
      AddedLonger(trace, e, j);
      DoneLonger(trace, e, j);
      if j != k {
        assert Deltas(trace, j) + "" == Deltas(trace, j);
      }
    }
  }

  lemma AddedLonger(trace: seq<Event>, e: Event, k: nat)
    ensures AddedIn(trace + [e], k) <==> AddedIn(trace, k) || (e.body.OutputItemAdded? && e.body.outputIndex == k)
  {
    var longer := trace + [e];
    if AddedIn(trace, k) {
      var i :| 0 <= i < |trace| && trace[i].body.OutputItemAdded? && trace[i].body.outputIndex == k;
      assert longer[i] == trace[i];
    }
    if e.body.OutputItemAdded? && e.body.outputIndex == k {
      assert longer[|trace|] == e;
    }
  }

  lemma DoneLonger(trace: seq<Event>, e: Event, k: nat)
    ensures DoneIn(trace + [e], k) <==> DoneIn(trace, k) || (e.body.OutputItemDone? && e.body.outputIndex == k)
  {
    var longer := trace + [e];
    if DoneIn(trace, k) {
      var i :| 0 <= i < |trace| && trace[i].body.OutputItemDone? && trace[i].body.outputIndex == k;
      assert longer[i] == trace[i];
    }
    if e.body.OutputItemDone? && e.body.outputIndex == k {
      assert longer[|trace|] == e;
    }
  }

  lemma ItemAddedStep(trace: seq<Event>, e: Event, items: seq<ClientItem>)
    requires ItemsFit(trace, items) && e.body.OutputItemAdded? && e.body.outputIndex == |items|
    ensures ItemsFit(trace + [e], items + [ClientItem(e.body.item, "", Added)])
    ensures forall i | 0 <= i < |trace| :: Mentioned(trace[i].body) != Some(|items|)
  {
    var longer := trace + [e];
    assert longer[..|longer| - 1] == trace;
    forall j | 0 <= j <= |items|
      ensures AddedIn(longer, j) && DoneIn(longer, j) == DoneIn(trace, j) && Deltas(longer, j) == Deltas(trace, j)
    {
      AddedLonger(trace, e, j);
      DoneLonger(trace, e, j);
      assert Deltas(trace, j) + "" == Deltas(trace, j);
    }
    Unmentioned(trace, |items|);
  }

  lemma {:induction false} Unmentioned(trace: seq<Event>, k: nat)
    requires forall i | 0 <= i < |trace| :: Mentioned(trace[i].body) != Some(k)
    ensures Deltas(trace, k) == "" && !DoneIn(trace, k)
  {
    if trace != [] {
      Unmentioned(trace[..|trace| - 1], k);
      assert DeltaFor(trace[|trace| - 1].body, k) == "";
    }
  }

  // An item that was done is closed, so the client takes nothing more about it.
  lemma ItemEventStep(trace: seq<Event>, e: Event, c: Client, next: Client)
    requires Fits(trace, c) && c.phase.Streaming?
    requires AcceptItemEvent(c, e.body) == Some(next)
    ensures ItemsFit(trace + [e], next.items) && next.phase == c.phase && next.received == c.received
    ensures Repeats(trace, e.body) && Mentioned(e.body).Some?
    ensures forall i | 0 <= i < |trace| && trace[i].body.OutputItemDone? :: Mentioned(e.body) != Some(trace[i].body.outputIndex)
    ensures e.body.OutputItemAdded? ==> forall i | 0 <= i < |trace| :: Mentioned(trace[i].body) != Some(e.body.outputIndex)
  {
    hide OneLife, Numbered, PhaseFits;
    var k := Mentioned(e.body).value;
    if e.body.OutputItemAdded? {
      ItemAddedStep(trace, e, c.items);
      forall i | 0 <= i < |trace| && trace[i].body.OutputItemDone?
        ensures Mentioned(e.body) != Some(trace[i].body.outputIndex)
      {
        assert Mentioned(trace[i].body) == Some(trace[i].body.outputIndex);
      }
    } else {
      assert c.items[k].received + "" == c.items[k].received;
      ItemsStep(trace, e, c.items, k, next.items[k]);
      assert next.items == c.items[k := next.items[k]];
      forall i | 0 <= i < |trace| && trace[i].body.OutputItemDone?
        ensures Mentioned(e.body) != Some(trace[i].body.outputIndex)
      {
        var j := trace[i].body.outputIndex;
        assert Mentioned(trace[i].body) == Some(j);
        assert DoneIn(trace, j);
      }
    }
  }

  lemma QuietStep(trace: seq<Event>, e: Event, items: seq<ClientItem>)
    requires ItemsFit(trace, items) && Mentioned(e.body).None?
    ensures ItemsFit(trace + [e], items)
  {
    var longer := trace + [e];
    assert longer[..|longer| - 1] == trace;
    forall k | 0 <= k < |items|
      ensures AddedIn(longer, k) && Deltas(longer, k) == Deltas(trace, k) && (DoneIn(longer, k) <==> DoneIn(trace, k))
    {
      AddedLonger(trace, e, k);
      DoneLonger(trace, e, k);
      assert Deltas(trace, k) + "" == Deltas(trace, k);
    }
  }

  lemma FitsStep(trace: seq<Event>, e: Event, c: Client, next: Client)
    requires Fits(trace, c) && Receive(c, e) == Some(next)
    ensures Fits(trace + [e], next) && Repeats(trace, e.body)
  {
    var longer := trace + [e];
    if Mentioned(e.body).None? {
      QuietStep(trace, e, c.items);
      assert next.items == c.items;
    } else {
      ItemEventStep(trace, e, c, next.(received := c.received));
    }
    assert OneLife(longer);
    assert Numbered(longer);
    assert PhaseFits(longer, next.phase);
  }

  lemma {:induction false} FitsAll(trace: seq<Event>)
    requires ReceiveAll(FRESH, trace).Some?
    ensures Fits(trace, ReceiveAll(FRESH, trace).value) && Faithful(trace)
  {
    if trace == [] {
    } else {
      var before := trace[..|trace| - 1];
      var e := trace[|trace| - 1];
      FitsAll(before);
      FitsStep(before, e, ReceiveAll(FRESH, before).value, ReceiveAll(FRESH, trace).value);
      assert trace == before + [e];
      forall i | 0 <= i < |trace| ensures Repeats(trace[..i], trace[i].body) {
        if i < |before| {
          assert before[..i] == trace[..i] && before[i] == trace[i];
        }
      }
    }
  }

  // --- The theorem ------------------------------------------------------------------------

  function PayloadOf(item: Item): string {
    if item.MessageItem? then item.content.GetOr("") else item.arguments
  }

  predicate Grammatical(trace: seq<Event>, output: seq<Item>) {
    && Numbered(trace) && Bracketed(trace) && OneLife(trace) && Faithful(trace)
    && (forall i | 0 <= i < |trace| && Mentioned(trace[i].body).Some? :: Mentioned(trace[i].body).value < |output|)
    && (forall k | 0 <= k < |output| :: AddedIn(trace, k) && DoneIn(trace, k))
    && (forall k | 0 <= k < |output| :: PayloadOf(output[k]) == Deltas(trace, k))
    && (forall i | 0 <= i < |trace| && trace[i].body.OutputItemDone? :: trace[i].body.item == output[trace[i].body.outputIndex])
  }

  lemma {:induction false} DoneItemFixed(trace: seq<Event>, i: nat)
    requires ReceiveAll(FRESH, trace).Some? && i < |trace| && trace[i].body.OutputItemDone?
    ensures var items := ReceiveAll(FRESH, trace).value.items;
            && trace[i].body.outputIndex < |items|
            && trace[i].body.item == Rebuilt(items[trace[i].body.outputIndex])
            && items[trace[i].body.outputIndex].stage == Closed
  {
    var c := ReceiveAll(FRESH, trace[..|trace| - 1]).value;
    var e := trace[|trace| - 1];
    if i < |trace| - 1 {
      DoneItemFixed(trace[..|trace| - 1], i);
      ClosedStay(c, e, trace[i].body.outputIndex);
    }
  }

  lemma ClosedStay(c: Client, e: Event, k: nat)
    requires Receive(c, e).Some? && k < |c.items| && c.items[k].stage == Closed
    ensures k < |Receive(c, e).value.items| && Receive(c, e).value.items[k] == c.items[k]
  {
  }

  lemma AcceptedTraceGrammatical(trace: seq<Event>)
    requires ReceiveAll(FRESH, trace).Some? && ReceiveAll(FRESH, trace).value.phase.Ended?
    ensures Grammatical(trace, ReceiveAll(FRESH, trace).value.phase.response.output)
  {
    hide Receive, ReceiveAll, OneLife, Faithful, Numbered, Bracketed, AddedIn, DoneIn;
    var c := ReceiveAll(FRESH, trace).value;
    FitsAll(trace);
    forall i | 0 <= i < |trace| && trace[i].body.OutputItemDone?
      ensures trace[i].body.item == c.phase.response.output[trace[i].body.outputIndex]
    {
      DoneItemFixed(trace, i);
    }
  }

  // Every stream the encoder finishes has a grammatical trace.
  lemma FinishedStreamGrammatical(cfg: Config, jsonObject: string -> bool, chunks: seq<Chunk>, usage: TokenUsage)
    requires Translate(cfg, jsonObject, chunks, usage).result.Ok?
    ensures var trace := Translate(cfg, jsonObject, chunks, usage).result.value;
            && |trace| > 0 && trace[|trace| - 1].body.ResponseEnded?
            && Grammatical(trace, trace[|trace| - 1].body.response.output)
  {
    hide Translate, ReceiveAll, Grammatical;
    ResponsesTrace.FinishedStreamAccepted(cfg, jsonObject, chunks, usage);
    AcceptedTraceGrammatical(Translate(cfg, jsonObject, chunks, usage).result.value);
  }
}
