/** The Anthropic stream encoder as the object the gateway holds: its fields are updated on every chunk. */
module AnthropicEncoder {
  import opened Wrappers
  import opened StreamChunks
  import opened EncoderSteps
  import opened AnthropicStream

  class AnthropicStreamEncoder {
    const cfg: Config
    const jsonObject: string -> bool
    var messageId: string
    var started: bool
    var textStarted: bool
    var textBlock: nat
    var text: string
    var tools: map<int, Tool>
    var nextBlock: nat
    var openBlock: int
    var finishReason: string

    ghost function Model(): State
      reads this
    {
      State(messageId, started, textStarted, textBlock, text, tools, nextBlock, openBlock, finishReason)
    }

    constructor (cfg: Config, jsonObject: string -> bool)
      ensures this.cfg == cfg && this.jsonObject == jsonObject && Model() == INITIAL
    {
      this.cfg := cfg;
      this.jsonObject := jsonObject;
      messageId, started, textStarted, textBlock, text := "", false, false, 0, "";
      tools, nextBlock, openBlock, finishReason := map[], 0, -1, "";
    }

    method StartStream(chunk: Chunk) returns (output: seq<Event>)
      modifies this
      ensures Step(Model(), Ok(output)) == Start(cfg, old(Model()), chunk)
    {
      if started {
        return [];
      }
      started := true;
      messageId := SafeProviderId(chunk.id);
      if messageId == "" {
        messageId := cfg.requestId;
      }
      output := [MessageStart(messageId, cfg.publicModel)];
    }

    method CloseOpenBlock() returns (output: seq<Event>)
      modifies this`openBlock
      ensures output == CloseOpen(old(Model())) && Model() == Closed(old(Model()))
      ensures openBlock < 0 && (old(openBlock) >= 0 ==> openBlock == -1)
      ensures output == if old(openBlock) < 0 then [] else [BlockStop(old(openBlock))]
    {
      if openBlock < 0 {
        return [];
      }
      var index := openBlock;
      openBlock := -1;
      output := [BlockStop(index)];
    }

    method TakeText(content: string) returns (output: seq<Event>)
      modifies this
      ensures Step(Model(), Ok(output)) == EncodeText(old(Model()), content)
    {
      output := [];
      if content == "" {
        return;
      }
      if !textStarted {
        output := CloseOpenBlock();
        textStarted := true;
        textBlock := nextBlock;
        nextBlock := nextBlock + 1;
        openBlock := textBlock;
        output := output + [BlockStart(textBlock, TextBlock)];
      }
      text := text + content;
      output := output + [ContentDelta(textBlock, TextDelta(content))];
      assert old(textStarted) ==> output == [ContentDelta(textBlock, TextDelta(content))];
      assert !old(textStarted) ==>
          output == CloseOpen(old(Model())) + [BlockStart(textBlock, TextBlock), ContentDelta(textBlock, TextDelta(content))];
    }

    // One tool-call fragment of the loop over a chunk's calls.
    method TakeCall(call: ToolCallDelta) returns (result: Result<seq<Event>, EncodeError>)
      modifies this
      ensures Step(Model(), result) == EncodeCall(old(Model()), call)
    {
      var output := [];
      if call.index !in tools {
        if !ValidToolCallId(call.id) || call.func.None? || !ValidToolName(call.func.value.name) {
          return Err(ToolWithoutIdentity);
        }
        output := CloseOpenBlock();
        var tool := Tool(call.id, call.func.value.name, "", nextBlock);
        nextBlock := nextBlock + 1;
        openBlock := tool.blockIndex;
        tools := tools[call.index := tool];
        output := output + [BlockStart(tool.blockIndex, ToolUseBlock(tool.callId, tool.name))];
      }
      ghost var begun := Step(Model(), Ok(output));
      assert begun == OpenTool(old(Model()), call);
      if call.func.Some? && call.func.value.arguments != "" {
        var tool := tools[call.index];
        tools := tools[call.index := tool.(arguments := tool.arguments + call.func.value.arguments)];
        var delta := ContentDelta(tool.blockIndex, InputJsonDelta(call.func.value.arguments));
        assert TakeArguments(begun.state, call) == Step(Model(), Ok([delta]));
        output := output + [delta];
      } else {
        assert output + [] == output;
      }
      result := Ok(output);
    }

    // The loop over a chunk's calls.
    method TakeCalls(calls: seq<ToolCallDelta>) returns (result: Result<seq<Event>, EncodeError>)
      modifies this
      ensures Step(Model(), result) == EncodeCalls(old(Model()), calls)
    {
      hide EncodeCall;
      var output := [];
      ghost var target := EncodeCalls(Model(), calls);
      assert calls[0..] == calls;
      assert target.result.Ok? ==> [] + target.result.value == target.result.value;
      for i := 0 to |calls|
        invariant After(Step(Model(), Ok(output)), EncodeCalls(Model(), calls[i..])) == target
      {
        ghost var here := Model();
        var taken := TakeCall(calls[i]);
        assert calls[i..][0] == calls[i] && calls[i..][1..] == calls[i + 1..];
        if taken.Err? {
          return taken;
        }
        AfterAssociative(here, output, Model(), taken.value, EncodeCalls(Model(), calls[i + 1..]));
        output := output + taken.value;
      }
      assert output + [] == output;
      result := Ok(output);
    }

    method EncodeChunk(chunk: Chunk) returns (result: Result<seq<Event>, EncodeError>)
      modifies this
      ensures Step(Model(), result) == Encode(cfg, old(Model()), chunk)
    {
      hide Start, EncodeText, EncodeCalls, DecodeTranslated;
      var decoded := DecodeTranslated(chunk);
      if decoded.Err? {
        return Err(decoded.error);
      }
      var d := decoded.value;
      var output := StartStream(chunk);
      ghost var start := Step(Model(), Ok(output));
      if d.finishReason.BadReason? {
        return Err(InvalidFinishReason);
      }
      if d.finishReason.Reason? {
        finishReason := d.finishReason.text;
      }
      assert Model() == TakeReason(start.state, d.finishReason);
      var text := TakeText(d.content);
      var calls := TakeCalls(d.calls);
      if calls.Err? {
        return calls;
      }
      assert EncodeDelta(start.state, d) == Step(Model(), Ok(text + calls.value));
      result := Ok(output + (text + calls.value));
    }

    // The loop over the tools, in whatever order the map gives them.
    method ToolsParse() returns (ok: bool)
      ensures ok <==> forall i <- tools :: jsonObject(tools[i].arguments)
    {
      var left := tools.Keys;
      while left != {}
        invariant left <= tools.Keys
        invariant forall i <- tools | i !in left :: jsonObject(tools[i].arguments)
        decreases |left|
      {
        if forall k :: k !in left {
          assert false;
        }
        var i :| i in left;
        if !jsonObject(tools[i].arguments) {
          return false;
        }
        left := left - {i};
      }
      ok := true;
    }

    method FinishStream(usage: TokenUsage) returns (result: Result<seq<Event>, EncodeError>)
      modifies this
      ensures Step(Model(), result) == Finish(jsonObject, old(Model()), usage)
    {
      if !started {
        return Err(NeverStarted);
      }
      var parse := ToolsParse();
      if !parse {
        return Err(ArgumentsNotObject);
      }
      var output := CloseOpenBlock();
      var stopReason := "end_turn";
      if finishReason == "length" {
        stopReason := "max_tokens";
      } else if finishReason == "tool_calls" {
        stopReason := "tool_use";
      } else if finishReason != "stop" {
        return Err(UnsupportedFinishReason(finishReason));
      }
      var outputTokens := if usage.output.Some? then usage.output.value else 0;
      result := Ok(output + [MessageDelta(stopReason, outputTokens), MessageStop]);
    }
  }
}
