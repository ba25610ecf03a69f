/** The order in which a finished Responses stream closes its items: the text first, then the calls by index. */
module ResponsesClosing {
  import opened Wrappers
  import opened Sorting
  import opened StreamChunks
  import opened RawStreams
  import opened EncoderSteps
  import opened ResponsesStream
  import RF = ResponsesFromChunks

  // The ids of the items these events close, in order.
  function Closed(events: seq<Event>): seq<ItemId> {
    if events == [] then [] else
    Closed(events[..|events| - 1])
    + match events[|events| - 1].body case OutputItemDone(_, item) => [item.id] case _ => []
  }

  lemma {:induction false} ClosedConcat(a: seq<Event>, b: seq<Event>)
    ensures Closed(a + b) == Closed(a) + Closed(b)
  {
    if b == [] {
      assert a + b == a;
    } else {
      ClosedConcat(a, b[..|b| - 1]);
      assert (a + b)[..|a + b| - 1] == a + b[..|b| - 1];
    }
  }

  predicate Closing(body: Body) {
    body.OutputItemDone?
  }

  lemma {:induction false} NothingClosed(events: seq<Event>)
    requires forall i | 0 <= i < |events| :: !Closing(events[i].body)
    ensures Closed(events) == []
  {
    if events != [] {
      NothingClosed(events[..|events| - 1]);
    }
  }

  // An operation that closes nothing.
  predicate Quiet(step: Step<State, Event>) {
    step.result.Ok? ==> Closed(step.result.value) == []
  }

  lemma AfterQuiet(first: Step<State, Event>, next: Step<State, Event>)
    requires Quiet(first) && Quiet(next)
    ensures Quiet(After(first, next))
  {
    hide Closed;
    if first.result.Ok? && next.result.Ok? {
      ClosedConcat(first.result.value, next.result.value);
    }
  }

  lemma EmitQuiet(s: State, bodies: seq<Body>)
    requires forall i | 0 <= i < |bodies| :: !Closing(bodies[i])
    ensures Quiet(Emit(s, bodies))
  {
    NothingClosed(Number(s.sequence, bodies));
  }

  lemma CallQuiet(cfg: Config, s: State, call: ToolCallDelta)
    ensures Quiet(EncodeCall(cfg, s, call))
  {
    hide Closed, ValidToolCallId, ValidToolName, Emit, NewTool, Quiet;
    NoneQuiet(s);
    var begun := OpenTool(cfg, s, call);
    assert Quiet(begun) by {
      OpenQuiet(cfg, s, call);
    }
    if begun.result.Ok? {
      OpensTool(cfg, s, call);
      ArgumentsQuiet(begun.state, call);
      AfterQuiet(begun, TakeArguments(begun.state, call));
    }
  }

  lemma NoneQuiet(s: State)
    ensures Quiet(Step(s, Ok([])))
  {
  }

  lemma OpenQuiet(cfg: Config, s: State, call: ToolCallDelta)
    ensures Quiet(OpenTool(cfg, s, call))
  {
    hide Closed, ValidToolCallId, ValidToolName, Emit, Quiet;
    NoneQuiet(s);
    FailedQuiet(s, ToolWithoutIdentity);
    FailedQuiet(s, ToolIdChanged);
    FailedQuiet(s, ToolNameChanged);
    if call.index !in s.tools && call.func.Some? {
      var tool := NewTool(cfg, s, call);
      EmitQuiet(s.(tools := s.tools[call.index := tool], nextOutputIndex := s.nextOutputIndex + 1),
                [OutputItemAdded(tool.outputIndex, ToolItem(tool, InProgress))]);
    }
  }

  lemma FailedQuiet(s: State, e: EncodeError)
    ensures Quiet(Step(s, Err(e)))
  {
  }

  lemma OpensTool(cfg: Config, s: State, call: ToolCallDelta)
    requires OpenTool(cfg, s, call).result.Ok?
    ensures call.index in OpenTool(cfg, s, call).state.tools
  {
    hide ValidToolCallId, ValidToolName, Number;
  }

  lemma ArgumentsQuiet(s: State, call: ToolCallDelta)
    requires call.index in s.tools
    ensures Quiet(TakeArguments(s, call))
  {
    hide Closed, Emit, Quiet;
    NoneQuiet(s);
    var tool := s.tools[call.index];
    EmitQuiet(s.(tools := s.tools[call.index := tool.(arguments := tool.arguments + Arguments(call))]),
              [ArgumentsDelta(tool.itemId, tool.outputIndex, Arguments(call))]);
  }

  lemma {:induction false} CallsQuiet(cfg: Config, s: State, calls: seq<ToolCallDelta>)
    ensures Quiet(EncodeCalls(cfg, s, calls))
    decreases |calls|
  {
    hide Closed, EncodeCall, Quiet;
    NoneQuiet(s);
    if calls != [] {
      var first := EncodeCall(cfg, s, calls[0]);
      CallQuiet(cfg, s, calls[0]);
      if first.result.Ok? {
        CallsQuiet(cfg, first.state, calls[1..]);
        AfterQuiet(first, EncodeCalls(cfg, first.state, calls[1..]));
      }
    }
  }

  lemma TextQuiet(cfg: Config, s: State, content: string)
    ensures Quiet(EncodeText(cfg, s, content))
  {
    hide Closed, Emit, Quiet;
    NoneQuiet(s);
    var index := s.nextOutputIndex;
    EmitQuiet(s.(textStarted := true, textOutputIndex := index, nextOutputIndex := index + 1, text := s.text + content),
              [OutputItemAdded(index, MessageItem(TextId(cfg), InProgress, None)), ContentPartAdded(TextId(cfg), index),
               OutputTextDelta(TextId(cfg), index, content)]);
    EmitQuiet(s.(text := s.text + content), [OutputTextDelta(TextId(cfg), s.textOutputIndex, content)]);
  }

  lemma ChunkQuiet(cfg: Config, s: State, chunk: Chunk)
    ensures Quiet(Encode(cfg, s, chunk))
  {
    hide Closed, Quiet, Emit, EncodeText, EncodeCalls, DecodeTranslated, PublicId;
    NoneQuiet(s);
    if DecodeTranslated(chunk).Ok? {
      var d := DecodeTranslated(chunk).value;
      var start := Start(cfg, s, chunk);
      var base := BaseResponse(cfg, s.(started := true, responseId := PublicId(cfg.requestId, chunk.id)), InProgress, [], None);
      EmitQuiet(s.(started := true, responseId := PublicId(cfg.requestId, chunk.id)), [ResponseCreated(base), ResponseInProgress(base)]);
      FailedQuiet(start.state, InvalidFinishReason);
      var text := EncodeText(cfg, TakeReason(start.state, d.finishReason), d.content);
      TextQuiet(cfg, TakeReason(start.state, d.finishReason), d.content);
      CallsQuiet(cfg, text.state, d.calls);
      AfterQuiet(text, EncodeCalls(cfg, text.state, d.calls));
      AfterQuiet(start, EncodeDelta(cfg, start.state, d));
    } else {
      FailedQuiet(s, DecodeTranslated(chunk).error);
    }
  }

  // Nothing is closed while chunks arrive.
  lemma {:induction false} StreamQuiet(cfg: Config, chunks: seq<Chunk>)
    ensures Quiet(EncodeAll(cfg, chunks))
  {
    hide Closed, Quiet, Encode;
    NoneQuiet(INITIAL);
    if chunks != [] {
      var before := EncodeAll(cfg, chunks[..|chunks| - 1]);
      StreamQuiet(cfg, chunks[..|chunks| - 1]);
      ChunkQuiet(cfg, before.state, chunks[|chunks| - 1]);
      AfterQuiet(before, Encode(cfg, before.state, chunks[|chunks| - 1]));
    }
  }

  // --- The end ----------------------------------------------------------------------------

  // The ids of calls with these indices, in order.
  function CallIds(requestId: string, indices: seq<int>): (ids: seq<ItemId>)
    ensures |ids| == |indices| && forall k | 0 <= k < |indices| :: ids[k] == CallId(requestId, indices[k])
  {
    seq(|indices|, k requires 0 <= k < |indices| => CallId(requestId, indices[k]))
  }

  lemma ClosedOne(from: nat, bodies: seq<Body>)
    requires |bodies| > 0 && forall i | 0 <= i < |bodies| - 1 :: !Closing(bodies[i])
    ensures Closed(Number(from, bodies)) == if bodies[|bodies| - 1].OutputItemDone? then [bodies[|bodies| - 1].item.id] else []
  {
    var events := Number(from, bodies);
    NothingClosed(events[..|events| - 1]);
  }

  lemma {:induction false} ToolsClose(jsonObject: string -> bool, requestId: string, s: State, indices: seq<int>)
    requires forall k | 0 <= k < |indices| :: indices[k] in s.tools
    requires forall i <- s.tools :: s.tools[i].itemId == CallId(requestId, i)
    ensures var step := FinishTools(jsonObject, s, indices);
            step.result.Ok? ==> Closed(step.result.value) == CallIds(requestId, indices)
    decreases |indices|
  {
    hide Closed, Number;
    if indices == [] {
      ClosedNothing();
    } else {
      var tool := s.tools[indices[0]];
      var first := FinishTool(jsonObject, s, indices[0]);
      if first.result.Ok? {
        ClosedOne(s.sequence, [ArgumentsDone(tool.itemId, tool.outputIndex, tool.arguments), OutputItemDone(tool.outputIndex, ToolItem(tool, Completed))]);
        ToolsClose(jsonObject, requestId, first.state, indices[1..]);
        var rest := FinishTools(jsonObject, first.state, indices[1..]);
        if rest.result.Ok? {
          ClosedConcat(first.result.value, rest.result.value);
          assert [CallId(requestId, indices[0])] + CallIds(requestId, indices[1..]) == CallIds(requestId, indices);
        }
      }
    }
  }

  lemma ClosedNothing()
    ensures Closed([]) == []
  {
  }

  lemma TextCloses(cfg: Config, s: State)
    ensures FinishText(cfg, s).result.Ok? && FinishText(cfg, s).state == s.(sequence := FinishText(cfg, s).state.sequence)
    ensures Closed(FinishText(cfg, s).result.value) == if s.textStarted then [MessageId(cfg.requestId)] else []
  {
    hide Closed, Number;
    ClosedNothing();
    ClosedOne(s.sequence, [OutputTextDone(TextId(cfg), s.textOutputIndex, s.text), ContentPartDone(TextId(cfg), s.textOutputIndex, s.text),
                           OutputItemDone(s.textOutputIndex, DoneText(cfg, s))]);
  }

  lemma ResponseCloses(cfg: Config, s: State, usage: TokenUsage)
    ensures FinishResponse(cfg, s, usage).result.Ok? ==> Closed(FinishResponse(cfg, s, usage).result.value) == []
  {
    hide Closed, SortByIndex, UsageFromPlatform;
    if FinishResponse(cfg, s, usage).result.Ok? {
      NothingClosed(FinishResponse(cfg, s, usage).result.value);
    }
  }

  lemma FinishCloses(cfg: Config, jsonObject: string -> bool, s: State, usage: TokenUsage)
    requires Finish(cfg, jsonObject, s, usage).result.Ok?
    requires forall i <- s.tools :: s.tools[i].itemId == CallId(cfg.requestId, i)
    ensures Closed(Finish(cfg, jsonObject, s, usage).result.value)
            == (if s.textStarted then [MessageId(cfg.requestId)] else []) + CallIds(cfg.requestId, SortedKeys(s.tools.Keys))
  {
    hide Closed, FinishText, FinishTools, FinishResponse, SortedKeys, CallIds;
    TextCloses(cfg, s);
    var text := FinishText(cfg, s);
    var tools := FinishTools(jsonObject, text.state, SortedKeys(s.tools.Keys));
    ToolsClose(jsonObject, cfg.requestId, text.state, SortedKeys(s.tools.Keys));
    var both := After(text, tools);
    ResponseCloses(cfg, both.state, usage);
    var last := FinishResponse(cfg, both.state, usage);
    ClosedConcat(text.result.value, tools.result.value);
    ClosedConcat(both.result.value, last.result.value);
    assert Closed(both.result.value) + [] == Closed(both.result.value);
  }

  // The text is closed first, if there is any, and then every call, by ascending index.
  lemma ClosesInOrder(cfg: Config, jsonObject: string -> bool, chunks: seq<Chunk>, counts: TokenUsage) returns (indices: seq<int>)
    requires Translate(cfg, jsonObject, chunks, counts).result.Ok?
    ensures Closed(Translate(cfg, jsonObject, chunks, counts).result.value)
            == (if TextSaid(chunks) != "" then [MessageId(cfg.requestId)] else []) + CallIds(cfg.requestId, indices)
    ensures forall j, k | 0 <= j < k < |indices| :: indices[j] < indices[k]
    ensures forall i :: i in indices <==> HasIndex(Fragments(chunks), i)
  {
    hide Closed, EncodeAll, Finish, TextSaid, Fragments, HasIndex, RF.FragmentsFit, Translatable, LastStated, Pieces, Appearances, Payload, CallIds,
      ArgumentsOf;
    RF.FinishesWhen(cfg, jsonObject, chunks, counts);
    var before := EncodeAll(cfg, chunks);
    RF.StateHolds(cfg, chunks);
    RF.StateItems(cfg, chunks);
    StreamQuiet(cfg, chunks);
    FinishCloses(cfg, jsonObject, before.state, counts);
    ClosedConcat(before.result.value, Finish(cfg, jsonObject, before.state, counts).result.value);
    indices := SortedKeys(before.state.tools.Keys);
    forall i
      ensures i in indices <==> HasIndex(Fragments(chunks), i)
    {
      if i in before.state.tools {
        SortedKeysComplete(before.state.tools.Keys, i);
      }
    }
  }
}
