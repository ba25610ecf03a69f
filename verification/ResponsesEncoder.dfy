/** The Responses stream encoder as the object the gateway holds: its fields are updated on every chunk. */
module ResponsesEncoder {
  import opened Wrappers
  import opened Sorting
  import opened StreamChunks
  import opened EncoderSteps
  import opened ResponsesStream

  lemma NumberOne(from: nat, body: Body)
    ensures Number(from, [body]) == [Event(from + 1, body)]
  {
  }

  lemma NumberThree(from: nat, a: Body, b: Body, c: Body)
    ensures Number(from, [a, b]) == [Event(from + 1, a)] + [Event(from + 2, b)]
    ensures Number(from, [a, b, c]) == [Event(from + 1, a)] + [Event(from + 2, b)] + [Event(from + 3, c)]
  {
  }

  class ResponsesStreamEncoder {
    const cfg: Config
    const jsonObject: string -> bool
    var responseId: string
    var sequence: nat
    var started: bool
    var textStarted: bool
    var textOutputIndex: nat
    var text: string
    var tools: map<int, Tool>
    var nextOutputIndex: nat
    var finishReason: string

    ghost function Model(): State
      reads this
    {
      State(responseId, sequence, started, textStarted, textOutputIndex, text, tools, nextOutputIndex, finishReason)
    }

    constructor (cfg: Config, jsonObject: string -> bool)
      ensures this.cfg == cfg && this.jsonObject == jsonObject && Model() == INITIAL
    {
      this.cfg := cfg;
      this.jsonObject := jsonObject;
      responseId, sequence, started := "", 0, false;
      textStarted, textOutputIndex, text := false, 0, "";
      tools, nextOutputIndex, finishReason := map[], 0, "";
    }

    method Send(body: Body) returns (event: Event)
      modifies this`sequence
      ensures event == Event(old(sequence) + 1, body) && sequence == old(sequence) + 1
    {
      sequence := sequence + 1;
      event := Event(sequence, body);
    }

    method StartStream(chunk: Chunk) returns (output: seq<Event>)
      modifies this
      ensures Step(Model(), Ok(output)) == Start(cfg, old(Model()), chunk)
    {
      if started {
        return [];
      }
      started := true;
      responseId := SafeProviderId(chunk.id);
      if responseId == "" {
        responseId := cfg.requestId;
      }
      var base := Response(responseId, cfg.createdAt, cfg.publicModel, InProgress, None, [], None);
      var created := Send(ResponseCreated(base));
      var inProgress := Send(ResponseInProgress(base));
      output := [created] + [inProgress];
      NumberThree(old(sequence), created.body, inProgress.body, inProgress.body);
    }

    method TakeText(content: string) returns (output: seq<Event>)
      modifies this
      ensures Step(Model(), Ok(output)) == EncodeText(cfg, old(Model()), content)
    {
      output := [];
      if content == "" {
        return;
      }
      if !textStarted {
        textStarted := true;
        textOutputIndex := nextOutputIndex;
        nextOutputIndex := nextOutputIndex + 1;
        var added := Send(OutputItemAdded(textOutputIndex, MessageItem(TextId(cfg), InProgress, None)));
        var part := Send(ContentPartAdded(TextId(cfg), textOutputIndex));
        output := [added] + [part];
      }
      text := text + content;
      var delta := Send(OutputTextDelta(TextId(cfg), textOutputIndex, content));
      output := output + [delta];
      NumberOne(old(sequence), delta.body);
      if !old(textStarted) {
        NumberThree(old(sequence), output[0].body, output[1].body, output[2].body);
      } else {
        assert output == [delta];
      }
    }

    // One tool-call fragment of the loop over a chunk's calls.
    method TakeCall(call: ToolCallDelta) returns (result: Result<seq<Event>, EncodeError>)
      modifies this
      ensures Step(Model(), result) == EncodeCall(cfg, old(Model()), call)
    {
      var output := [];
      if call.index !in tools {
        if !ValidToolCallId(call.id) || call.func.None? || !ValidToolName(call.func.value.name) {
          return Err(ToolWithoutIdentity);
        }
        var public := ResponsesFunctionCall(call.func.value.name, cfg.aliases);
        var tool := Tool(call.index, nextOutputIndex, CallId(cfg.requestId, call.index), call.id, public.name,
                         if public.namespace.Some? then public.namespace.value else "", "");
        nextOutputIndex := nextOutputIndex + 1;
        tools := tools[call.index := tool];
        var added := Send(OutputItemAdded(tool.outputIndex, ToolItem(tool, InProgress)));
        output := [added];
        NumberOne(old(sequence), added.body);
      } else {
        var tool := tools[call.index];
        if call.id != "" && call.id != tool.callId {
          return Err(ToolIdChanged);
        }
        if call.func.Some? && call.func.value.name != "" {
          var public := ResponsesFunctionCall(call.func.value.name, cfg.aliases);
          if public.name != tool.name {
            return Err(ToolNameChanged);
          }
        }
      }
      ghost var begun := OpenTool(cfg, old(Model()), call);
      assert begun == Step(Model(), Ok(output));
      if call.func.Some? && call.func.value.arguments != "" {
        var tool := tools[call.index];
        tools := tools[call.index := tool.(arguments := tool.arguments + call.func.value.arguments)];
        var delta := Send(ArgumentsDelta(tool.itemId, tool.outputIndex, call.func.value.arguments));
        NumberOne(begun.state.sequence, delta.body);
        assert TakeArguments(begun.state, call) == Step(Model(), Ok([delta]));
        output := output + [delta];
      } else {
        assert TakeArguments(begun.state, call) == Step(Model(), Ok([]));
        assert output + [] == output;
      }
      result := Ok(output);
    }

    // The loop over a chunk's calls.
    method TakeCalls(calls: seq<ToolCallDelta>) returns (result: Result<seq<Event>, EncodeError>)
      modifies this
      ensures Step(Model(), result) == EncodeCalls(cfg, old(Model()), calls)
    {
      hide EncodeCall;
      var output := [];
      ghost var target := EncodeCalls(cfg, Model(), calls);
      assert calls[0..] == calls;
      assert target.result.Ok? ==> [] + target.result.value == target.result.value;
      for i := 0 to |calls|
        invariant After(Step(Model(), Ok(output)), EncodeCalls(cfg, Model(), calls[i..])) == target
      {
        ghost var here := Model();
        var taken := TakeCall(calls[i]);
        assert calls[i..][0] == calls[i] && calls[i..][1..] == calls[i + 1..];
        if taken.Err? {
          return taken;
        }
        AfterAssociative(here, output, Model(), taken.value, EncodeCalls(cfg, Model(), calls[i + 1..]));
        output := output + taken.value;
      }
      assert output + [] == output;
      result := Ok(output);
    }

    method EncodeChunk(chunk: Chunk) returns (result: Result<seq<Event>, EncodeError>)
      modifies this
      ensures Step(Model(), result) == Encode(cfg, old(Model()), chunk)
    {
      hide Start, EncodeText, EncodeCalls, DecodeTranslated;
      var decoded := DecodeTranslated(chunk);
      if decoded.Err? {
        return Err(decoded.error);
      }
      var d := decoded.value;
      var output := StartStream(chunk);
      ghost var start := Step(Model(), Ok(output));
      if d.finishReason.BadReason? {
        return Err(InvalidFinishReason);
      }
      if d.finishReason.Reason? {
        finishReason := d.finishReason.text;
      }
      assert Model() == TakeReason(start.state, d.finishReason);
      var text := TakeText(d.content);
      var calls := TakeCalls(d.calls);
      if calls.Err? {
        return calls;
      }
      assert EncodeDelta(cfg, start.state, d) == Step(Model(), Ok(text + calls.value));
      result := Ok(output + (text + calls.value));
    }

    method CloseText() returns (output: seq<Event>)
      modifies this
      ensures Step(Model(), Ok(output)) == FinishText(cfg, old(Model()))
    {
      if !textStarted {
        return [];
      }
      var done := Send(OutputTextDone(TextId(cfg), textOutputIndex, text));
      var part := Send(ContentPartDone(TextId(cfg), textOutputIndex, text));
      var itemDone := Send(OutputItemDone(textOutputIndex, MessageItem(TextId(cfg), Completed, Some(text))));
      output := [done] + [part] + [itemDone];
      NumberThree(old(sequence), done.body, part.body, itemDone.body);
    }

    method CloseTool(index: int) returns (output: seq<Event>)
      requires index in tools && jsonObject(tools[index].arguments)
      modifies this
      ensures Step(Model(), Ok(output)) == FinishTool(jsonObject, old(Model()), index)
      ensures Model() == old(Model()).(sequence := sequence)
    {
      var tool := tools[index];
      var done := Send(ArgumentsDone(tool.itemId, tool.outputIndex, tool.arguments));
      var itemDone := Send(OutputItemDone(tool.outputIndex, ToolItem(tool, Completed)));
      output := [done] + [itemDone];
      NumberThree(old(sequence), done.body, itemDone.body, itemDone.body);
    }

    // The loop over the tools in index order: their closing events and their finished items.
    method CloseTools() returns (result: Result<seq<Event>, EncodeError>, items: seq<IndexedItem>)
      modifies this
      ensures Step(Model(), result) == FinishTools(jsonObject, old(Model()), SortedKeys(old(tools).Keys))
      ensures Model() == old(Model()).(sequence := sequence)
      ensures result.Ok? ==> items == ToolItems(old(Model()), SortedKeys(old(tools).Keys))
    {
      hide FinishTool, FinishTools, ToolItem;
      var output := [];
      items := [];
      var indices := SortedKeys(tools.Keys);
      ghost var target := FinishTools(jsonObject, Model(), indices);
      ghost var all := ToolItems(Model(), indices);
      assert indices[0..] == indices;
      assert target.result.Ok? ==> [] + target.result.value == target.result.value;
      for i := 0 to |indices|
        invariant Model() == old(Model()).(sequence := sequence)
        invariant items == all[..i]
        invariant After(Step(Model(), Ok(output)), FinishTools(jsonObject, Model(), indices[i..])) == target
      {
        ghost var here := Model();
        var tool := tools[indices[i]];
        FinishToolsFrom(here, indices, i);
        if !jsonObject(tool.arguments) {
          ToolRejected(here, indices[i]);
          return Err(ArgumentsNotObject), items;
        }
        var closed := CloseTool(indices[i]);
        AfterAssociative(here, output, Model(), closed, FinishTools(jsonObject, Model(), indices[i + 1..]));
        output := output + closed;
        items := items + [IndexedItem(tool.outputIndex, ToolItem(tool, Completed))];
      }
      assert output + [] == output;
      FinishNoTools(Model(), indices);
      result := Ok(output);
    }

    lemma FinishToolsFrom(s: State, indices: seq<int>, i: nat)
      requires i < |indices| && forall k | 0 <= k < |indices| :: indices[k] in s.tools
      ensures var first := FinishTool(jsonObject, s, indices[i]);
              FinishTools(jsonObject, s, indices[i..])
              == if first.result.Err? then first else After(first, FinishTools(jsonObject, first.state, indices[i + 1..]))
    {
      hide FinishTool;
      assert indices[i..][0] == indices[i] && indices[i..][1..] == indices[i + 1..];
    }

    lemma FinishNoTools(s: State, indices: seq<int>)
      ensures FinishTools(jsonObject, s, indices[|indices|..]) == Step(s, Ok([]))
    {
    }

    lemma ToolRejected(s: State, index: int)
      requires index in s.tools && !jsonObject(s.tools[index].arguments)
      ensures FinishTool(jsonObject, s, index) == Step(s, Err(ArgumentsNotObject))
    {
    }

    method EndResponse(items: seq<IndexedItem>, usage: TokenUsage) returns (result: Result<seq<Event>, EncodeError>)
      requires items == FinishedItems(cfg, Model())
      modifies this
      ensures Step(Model(), result) == FinishResponse(cfg, old(Model()), usage)
    {
      hide FinishedItems, SortByIndex;
      if |items| == 0 {
        return Err(NoOutput);
      }
      var ordered := Values(SortByIndex(items));
      var status := Completed;
      var incomplete: Option<string> := None;
      if finishReason == "length" {
        status := Incomplete;
        incomplete := Some("max_output_tokens");
      } else if finishReason != "stop" && finishReason != "tool_calls" {
        return Err(UnsupportedFinishReason(finishReason));
      }
      var response := Response(responseId, cfg.createdAt, cfg.publicModel, status, incomplete, ordered, Some(UsageFromPlatform(usage)));
      var ended := Send(ResponseEnded(response));
      NumberOne(old(sequence), ended.body);
      result := Ok([ended]);
    }

    method FinishStream(usage: TokenUsage) returns (result: Result<seq<Event>, EncodeError>)
      modifies this
      ensures Step(Model(), result) == Finish(cfg, jsonObject, old(Model()), usage)
    {
      hide FinishTools, FinishResponse;
      if !started {
        return Err(NeverStarted);
      }
      ghost var s := Model();
      var output := CloseText();
      var items: seq<IndexedItem> := [];
      if textStarted {
        items := [IndexedItem(textOutputIndex, MessageItem(TextId(cfg), Completed, Some(text)))];
      }
      var closing, toolItems := CloseTools();
      if closing.Err? {
        return closing;
      }
      items := items + toolItems;
      assert items == FinishedItems(cfg, Model());
      var ended := EndResponse(items, usage);
      if ended.Err? {
        return ended;
      }
      result := Ok((output + closing.value) + ended.value);
    }
  }
}
