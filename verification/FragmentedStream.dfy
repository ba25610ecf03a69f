/**
 A finished stream whose call arrives in two fragments, the second without id or name, and every event its
 client receives in either protocol.
 */
module FragmentedStream {
  import opened Wrappers
  import opened Sorting
  import opened StreamChunks
  import opened RawStreams
  import opened EncoderSteps
  import opened ExampleStreams
  import R = ResponsesStream
  import RT = ResponsesTrace
  import A = AnthropicStream

  const QUERY := "{\"q\":1}"
  const BEGINS := ToolCallDelta(0, "call_1", "function", Some(FunctionDelta("lookup", "")))
  const CONTINUES := ToolCallDelta(0, "", "", Some(FunctionDelta("", QUERY)))

  // Text and the call's first fragment, its second fragment and the finish reason, a usage report.
  const OPENS := Says(Delta("assistant", Some("Hi"), Some([BEGINS])), NoReason)
  const GOES_ON := Says(Delta("", None, Some([CONTINUES])), Reason("tool_calls"))
  const COUNTS := Chunk("chat-1", "m", EmptyChoices, Some(ProviderUsage(Some(5), Some(3), None, Some(1), Some(2), None)), false)
  const FRAGMENTED := [OPENS, GOES_ON, COUNTS]
  const REPORTED := TokenUsage(Some(5), Some(3), Some(2), Some(1))

  lemma Prefixes()
    ensures |FRAGMENTED| == 3 && FRAGMENTED[0] == OPENS && FRAGMENTED[1] == GOES_ON && FRAGMENTED[2] == COUNTS
    ensures FRAGMENTED[..2] == [OPENS, GOES_ON] && [OPENS, GOES_ON][..1] == [OPENS] && [OPENS][..0] == []
  {
  }

  lemma Names()
    ensures ValidToolCallId("call_1") && ValidToolName("lookup") && IdAllowed("call_1") && NameAllowed("lookup")
    ensures forall request :: PublicId(request, "chat-1") == "chat-1"
  {
    assert Showable("chat-1", 200, "/");
    forall request
      ensures PublicId(request, "chat-1") == "chat-1"
    {
      PublicIdIs(request, "chat-1");
    }
  }

  lemma Decodes()
    ensures DecodeTranslated(OPENS) == Ok(Decoded("Hi", [BEGINS], NoReason))
    ensures DecodeTranslated(GOES_ON) == Ok(Decoded("", [CONTINUES], Reason("tool_calls")))
    ensures DecodeTranslated(COUNTS) == Ok(Decoded("", [], NoReason))
  {
  }

  // The accumulator accepts it.
  lemma Accepted()
    ensures AllAllowed(FRAGMENTED) && ChoiceOffered(FRAGMENTED) && ReasonStated(FRAGMENTED) && Reported(FRAGMENTED) == REPORTED
  {
    Prefixes();
    Names();
    hide IdAllowed, NameAllowed;
    assert FragmentAllowed(BEGINS) && FragmentAllowed(CONTINUES);
    assert OffersChoice(OPENS) && OPENS in [OPENS, GOES_ON] && OPENS in FRAGMENTED && StatesReason(GOES_ON) && GOES_ON in FRAGMENTED;
    forall k | 0 <= k < |FRAGMENTED|
      ensures Allowed(FRAGMENTED[..k], FRAGMENTED[k])
    {
      if k == 2 {
        assert ChoiceOffered(FRAGMENTED[..2]);
      }
    }
    assert LastReport(FRAGMENTED) == COUNTS.usage;
  }

  // --- As Responses events ----------------------------------------------------------------

  function ResponsesConfig(request: string, model: string, created: int): R.Config {
    R.Config(request, model, created, map["lookup" := R.Identity("files", "find")])
  }

  function Called(arguments: string): R.Tool {
    R.Tool(0, 1, R.CallId("r", 0), "call_1", "find", "files", arguments)
  }

  const CONFIG := ResponsesConfig("r", "public", 7)
  const TEXT_ID := R.MessageId("r")
  const CALL_ID := R.CallId("r", 0)
  const BASE := R.Response("chat-1", 7, "public", R.InProgress, None, [], None)
  const STARTED := R.State("chat-1", 6, true, true, 0, "Hi", map[0 := Called("")], 2, "")
  const CONTINUED := R.State("chat-1", 7, true, true, 0, "Hi", map[0 := Called(QUERY)], 2, "tool_calls")
  const SPOKEN := R.MessageItem(TEXT_ID, R.Completed, Some("Hi"))
  const LOOKED_UP := R.CallItem(CALL_ID, R.Completed, "call_1", "find", Some("files"), QUERY)

  const ANNOUNCED := [R.ResponseCreated(BASE), R.ResponseInProgress(BASE)]
  const SPEAKS_UP := [
    R.OutputItemAdded(0, R.MessageItem(TEXT_ID, R.InProgress, None)), R.ContentPartAdded(TEXT_ID, 0), R.OutputTextDelta(TEXT_ID, 0, "Hi")]
  const CALLS_UP := [R.OutputItemAdded(1, R.CallItem(CALL_ID, R.InProgress, "call_1", "find", Some("files"), ""))]
  const ASKS := [R.ArgumentsDelta(CALL_ID, 1, QUERY)]
  const TEXT_ENDS := [R.OutputTextDone(TEXT_ID, 0, "Hi"), R.ContentPartDone(TEXT_ID, 0, "Hi"), R.OutputItemDone(0, SPOKEN)]
  const CALL_ENDS := [R.ArgumentsDone(CALL_ID, 1, QUERY), R.OutputItemDone(1, LOOKED_UP)]
  const ALL_ENDS := [R.ResponseEnded(R.Response("chat-1", 7, "public", R.Completed, None, [SPOKEN, LOOKED_UP], Some(R.Usage(5, 3, 8, 2, 1))))]

  lemma Numbers(from: nat, a: seq<R.Body>, b: seq<R.Body>)
    ensures R.Number(from, a) + R.Number(from + |a|, b) == R.Number(from, a + b)
  {
  }

  lemma OpensEncodes()
    ensures R.Encode(CONFIG, R.INITIAL, OPENS) == Step(STARTED, Ok(R.Number(0, ANNOUNCED + SPEAKS_UP + CALLS_UP)))
  {
    Decodes();
    var s := R.State("chat-1", 2, true, false, 0, "", map[], 0, "");
    var t := R.State("chat-1", 5, true, true, 0, "Hi", map[], 1, "");
    assert R.Start(CONFIG, R.INITIAL, OPENS) == Step(s, Ok(R.Number(0, ANNOUNCED))) by { Names(); }
    assert R.EncodeText(CONFIG, s, "Hi") == Step(t, Ok(R.Number(2, SPEAKS_UP))) by { assert "" + "Hi" == "Hi"; }
    OneCallEncodes(t, BEGINS);
    CallOpens(t);
    Numbers(2, SPEAKS_UP, CALLS_UP);
    Numbers(0, ANNOUNCED, SPEAKS_UP + CALLS_UP);
    assert ANNOUNCED + (SPEAKS_UP + CALLS_UP) == ANNOUNCED + SPEAKS_UP + CALLS_UP;
    hide DecodeTranslated, R.Number, R.EncodeCall, R.EncodeCalls, R.EncodeText, R.Start;
  }

  lemma OneCallEncodes(s: R.State, call: ToolCallDelta)
    ensures R.EncodeCall(CONFIG, s, call).result.Ok? ==> R.EncodeCalls(CONFIG, s, [call]) == R.EncodeCall(CONFIG, s, call)
  {
    hide R.EncodeCall;
    var step := R.EncodeCall(CONFIG, s, call);
    assert [call][1..] == [];
    assert R.EncodeCalls(CONFIG, step.state, []) == Step(step.state, Ok([]));
    if step.result.Ok? {
      assert step.result.value + [] == step.result.value;
    }
  }

  lemma CallOpens(s: R.State)
    requires s == R.State("chat-1", 5, true, true, 0, "Hi", map[], 1, "")
    ensures R.EncodeCall(CONFIG, s, BEGINS)
            == Step(STARTED, Ok(R.Number(5, CALLS_UP)))
  {
    Names();
    hide ValidToolCallId, ValidToolName, R.Number;
    assert R.Number(5, CALLS_UP) + [] == R.Number(5, CALLS_UP);
  }

  lemma ContinuesEncodes()
    ensures R.Encode(CONFIG, STARTED, GOES_ON) == Step(CONTINUED, Ok(R.Number(6, ASKS)))
  {
    Decodes();
    hide DecodeTranslated, R.Number;
    var s := STARTED.(finishReason := "tool_calls");
    OneCallEncodes(s, CONTINUES);
    assert "" + QUERY == QUERY;
    assert STARTED.tools[0 := Called(QUERY)] == map[0 := Called(QUERY)];
    assert [] + R.Number(6, ASKS) == R.Number(6, ASKS);
    assert R.EncodeCall(CONFIG, s, CONTINUES) == Step(CONTINUED, Ok(R.Number(6, ASKS)));
    hide R.EncodeCalls;
  }

  lemma CountsEncodes()
    ensures R.Encode(CONFIG, CONTINUED, COUNTS) == Step(CONTINUED, Ok([]))
  {
    Decodes();
    var none: seq<R.Event> := [];
    assert none + none == none;
    assert R.EncodeText(CONFIG, CONTINUED, "") == Step(CONTINUED, Ok([]));
    assert R.EncodeCalls(CONFIG, CONTINUED, []) == Step(CONTINUED, Ok([]));
    hide DecodeTranslated, R.EncodeText, R.EncodeCalls;
  }

  lemma ResponsesEncoded()
    ensures R.EncodeAll(CONFIG, FRAGMENTED) == Step(CONTINUED, Ok(R.Number(0, ANNOUNCED + SPEAKS_UP + CALLS_UP + ASKS)))
  {
    Prefixes();
    OpensEncodes();
    ContinuesEncodes();
    CountsEncodes();
    hide R.Encode, R.Number;
    assert R.EncodeAll(CONFIG, []) == Step(R.INITIAL, Ok([]));
    var first := R.Number(0, ANNOUNCED + SPEAKS_UP + CALLS_UP);
    assert [] + first == first;
    assert R.EncodeAll(CONFIG, [OPENS]) == Step(STARTED, Ok(first));
    Numbers(0, ANNOUNCED + SPEAKS_UP + CALLS_UP, ASKS);
    var second := R.Number(0, ANNOUNCED + SPEAKS_UP + CALLS_UP + ASKS);
    assert R.EncodeAll(CONFIG, [OPENS, GOES_ON]) == Step(CONTINUED, Ok(second));
    assert second + [] == second;
  }

  lemma ToolEnds(jsonObject: string -> bool, s: R.State)
    requires jsonObject(QUERY) && s == CONTINUED.(sequence := 10)
    ensures R.FinishTools(jsonObject, s, [0]) == Step(CONTINUED.(sequence := 12), Ok(R.Number(10, CALL_ENDS)))
  {
    var t := CONTINUED.(sequence := 12);
    assert R.FinishTool(jsonObject, s, 0) == Step(t, Ok(R.Number(10, CALL_ENDS)));
    assert [0][1..] == [];
    assert R.FinishTools(jsonObject, t, []) == Step(t, Ok([]));
    assert R.Number(10, CALL_ENDS) + [] == R.Number(10, CALL_ENDS);
    hide R.Number;
  }

  lemma ResponseEnds()
    ensures R.FinishResponse(CONFIG, CONTINUED.(sequence := 12), REPORTED).result == Ok(R.Number(12, ALL_ENDS))
  {
    hide R.SortByIndex;
    var t := CONTINUED.(sequence := 12);
    var order := [TextSlot, ToolSlot(0)];
    RT.OutputByIndex(CONFIG, t, order);
    assert RT.DoneItems(CONFIG, t, order) == [SPOKEN, LOOKED_UP];
    RT.FinishedDistinct(CONFIG, t, order);
    hide R.FinishedItems;
  }

  lemma OneKey()
    ensures SortedKeys({0}) == [0] && CONTINUED.tools.Keys == {0}
  {
  }

  lemma ResponsesEnded(jsonObject: string -> bool)
    requires jsonObject(QUERY)
    ensures R.Finish(CONFIG, jsonObject, CONTINUED, REPORTED).result == Ok(R.Number(7, TEXT_ENDS + CALL_ENDS + ALL_ENDS))
  {
    OneKey();
    var s := CONTINUED.(sequence := 10);
    assert R.FinishText(CONFIG, CONTINUED) == Step(s, Ok(R.Number(7, TEXT_ENDS)));
    ToolEnds(jsonObject, s);
    ResponseEnds();
    Numbers(7, TEXT_ENDS, CALL_ENDS);
    Numbers(7, TEXT_ENDS + CALL_ENDS, ALL_ENDS);
    hide R.Number, R.FinishText, R.FinishTools, R.FinishResponse, SortedKeys;
  }

  // Every event of the stream: the second fragment's arguments arrive, and the call is finished with them.
  lemma ResponsesEvents(jsonObject: string -> bool)
    requires jsonObject(QUERY)
    ensures R.Translate(CONFIG, jsonObject, FRAGMENTED, Reported(FRAGMENTED)).result
            == Ok(R.Number(0, ANNOUNCED + SPEAKS_UP + CALLS_UP + ASKS + (TEXT_ENDS + CALL_ENDS + ALL_ENDS)))
  {
    hide *;
    Accepted();
    ResponsesEncoded();
    ResponsesEnded(jsonObject);
    var before, ending := ANNOUNCED + SPEAKS_UP + CALLS_UP + ASKS, TEXT_ENDS + CALL_ENDS + ALL_ENDS;
    assert |before| == 7 by { BeforeSize(); }
    Numbers(0, before, ending);
    Translated(jsonObject, R.Number(0, before), R.Number(7, ending));
  }

  lemma BeforeSize()
    ensures |ANNOUNCED + SPEAKS_UP + CALLS_UP + ASKS| == 7
  {
  }

  lemma Translated(jsonObject: string -> bool, before: seq<R.Event>, ending: seq<R.Event>)
    requires R.EncodeAll(CONFIG, FRAGMENTED) == Step(CONTINUED, Ok(before))
    requires R.Finish(CONFIG, jsonObject, CONTINUED, REPORTED).result == Ok(ending)
    ensures R.Translate(CONFIG, jsonObject, FRAGMENTED, REPORTED).result == Ok(before + ending)
  {
    hide R.EncodeAll, R.Finish, CONTINUED, FRAGMENTED, REPORTED, CONFIG;
  }

  // --- As Anthropic events ----------------------------------------------------------------

  const MESSAGES := A.Config("r", "public")
  const TOLD := A.State("chat-1", true, true, 0, "Hi", map[0 := A.Tool("call_1", "lookup", "", 1)], 2, 1, "")
  const ASKED := A.State("chat-1", true, true, 0, "Hi", map[0 := A.Tool("call_1", "lookup", QUERY, 1)], 2, 1, "tool_calls")
  const BLOCKS: seq<A.Event> := [
    A.MessageStart("chat-1", "public"), A.BlockStart(0, A.TextBlock), A.ContentDelta(0, A.TextDelta("Hi")), A.BlockStop(0),
    A.BlockStart(1, A.ToolUseBlock("call_1", "lookup"))]
  const INPUT: seq<A.Event> := [A.ContentDelta(1, A.InputJsonDelta(QUERY))]
  const ENDING: seq<A.Event> := [A.BlockStop(1), A.MessageDelta("tool_use", 3), A.MessageStop]

  lemma BlocksOpen()
    ensures A.Encode(MESSAGES, A.INITIAL, OPENS) == Step(TOLD, Ok(BLOCKS))
  {
    Decodes();
    Names();
    var began := A.State("chat-1", true, false, 0, "", map[], 0, -1, "");
    var spoke := A.State("chat-1", true, true, 0, "Hi", map[], 1, 0, "");
    var started: seq<A.Event> := [A.MessageStart("chat-1", "public")];
    var text: seq<A.Event> := [A.BlockStart(0, A.TextBlock), A.ContentDelta(0, A.TextDelta("Hi"))];
    var call: seq<A.Event> := [A.BlockStop(0), A.BlockStart(1, A.ToolUseBlock("call_1", "lookup"))];
    assert A.Start(MESSAGES, A.INITIAL, OPENS) == Step(began, Ok(started));
    SpeaksFirst(began, spoke, text);
    CallsFirst(spoke, call);
    assert started + (text + call) == BLOCKS;
    hide A.EncodeCalls, A.EncodeText, A.Start, DecodeTranslated;
  }

  lemma SpeaksFirst(began: A.State, spoke: A.State, text: seq<A.Event>)
    requires began == A.State("chat-1", true, false, 0, "", map[], 0, -1, "")
    requires spoke == A.State("chat-1", true, true, 0, "Hi", map[], 1, 0, "")
    requires text == [A.BlockStart(0, A.TextBlock), A.ContentDelta(0, A.TextDelta("Hi"))]
    ensures A.EncodeText(began, "Hi") == Step(spoke, Ok(text))
  {
    assert "" + "Hi" == "Hi";
    var none: seq<A.Event> := [];
    assert A.CloseOpen(began) == none && none + text == text;
  }

  lemma CallsFirst(spoke: A.State, call: seq<A.Event>)
    requires spoke == A.State("chat-1", true, true, 0, "Hi", map[], 1, 0, "")
    requires call == [A.BlockStop(0), A.BlockStart(1, A.ToolUseBlock("call_1", "lookup"))]
    ensures A.EncodeCalls(spoke, [BEGINS]) == Step(TOLD, Ok(call))
  {
    Names();
    hide ValidToolCallId, ValidToolName;
    var none: seq<A.Event> := [];
    assert [BEGINS][1..] == [] && call + none == call;
    assert [A.BlockStop(0)] + [A.BlockStart(1, A.ToolUseBlock("call_1", "lookup"))] == call;
    assert A.EncodeCall(spoke, BEGINS) == Step(TOLD, Ok(call));
    assert A.EncodeCalls(TOLD, []) == Step(TOLD, Ok(none));
  }

  lemma InputArrives()
    ensures A.Encode(MESSAGES, TOLD, GOES_ON) == Step(ASKED, Ok(INPUT))
    ensures A.Encode(MESSAGES, ASKED, COUNTS) == Step(ASKED, Ok([]))
  {
    Decodes();
    hide DecodeTranslated, PublicId, ValidToolCallId, ValidToolName;
    assert "" + QUERY == QUERY && [CONTINUES][1..] == [];
    var none: seq<A.Event> := [];
    assert none + none == none && none + INPUT == INPUT && INPUT + none == INPUT;
    assert A.EncodeCalls(ASKED, []) == Step(ASKED, Ok(none));
    var s := TOLD.(finishReason := "tool_calls");
    assert s.tools[0 := A.Tool("call_1", "lookup", QUERY, 1)] == map[0 := A.Tool("call_1", "lookup", QUERY, 1)];
    assert A.EncodeCall(s, CONTINUES) == Step(ASKED, Ok(INPUT));
    assert A.EncodeCalls(s, [CONTINUES]) == Step(ASKED, Ok(INPUT));
    hide A.EncodeCalls;
  }

  lemma AnthropicEncoded()
    ensures A.EncodeAll(MESSAGES, FRAGMENTED) == Step(ASKED, Ok(BLOCKS + INPUT))
  {
    Prefixes();
    BlocksOpen();
    InputArrives();
    hide A.Encode, BLOCKS, INPUT, TOLD, ASKED;
    assert A.EncodeAll(MESSAGES, []) == Step(A.INITIAL, Ok([]));
    assert [] + BLOCKS == BLOCKS && (BLOCKS + INPUT) + [] == BLOCKS + INPUT;
    assert A.EncodeAll(MESSAGES, [OPENS]) == Step(TOLD, Ok(BLOCKS));
    assert A.EncodeAll(MESSAGES, [OPENS, GOES_ON]) == Step(ASKED, Ok(BLOCKS + INPUT));
  }

  lemma AnthropicEnds(jsonObject: string -> bool)
    requires jsonObject(QUERY)
    ensures A.Finish(jsonObject, ASKED, REPORTED).result == Ok(ENDING)
  {
    assert A.CloseOpen(ASKED) == [A.BlockStop(1)];
    assert [A.BlockStop(1)] + [A.MessageDelta("tool_use", 3), A.MessageStop] == ENDING;
    assert forall i <- ASKED.tools :: ASKED.tools[i].arguments == QUERY;
  }

  // The same stream as Anthropic events: text, then the call with the input its second fragment brought.
  lemma AnthropicEvents(jsonObject: string -> bool)
    requires jsonObject(QUERY)
    ensures A.Translate(MESSAGES, jsonObject, FRAGMENTED, Reported(FRAGMENTED)).result == Ok(BLOCKS + INPUT + ENDING)
  {
    Accepted();
    AnthropicEncoded();
    AnthropicEnds(jsonObject);
    hide A.EncodeAll, A.Finish, BLOCKS, INPUT, ENDING, Reported, ASKED;
  }
}
