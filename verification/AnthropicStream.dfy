/**
 The encoder that turns Chat Completions chunks into Anthropic Messages events: what each
 operation does to the encoder's state and which events it emits.
 */
module AnthropicStream {
  import opened Wrappers
  import opened StreamChunks
  import opened EncoderSteps

  datatype Block = TextBlock | ToolUseBlock(id: string, name: string)

  datatype BlockDelta = TextDelta(text: string) | InputJsonDelta(partial: string)

  datatype Event =
    | MessageStart(id: string, model: string)
    | BlockStart(index: nat, block: Block)
    | ContentDelta(index: nat, delta: BlockDelta)
    | BlockStop(index: nat)
    | MessageDelta(stopReason: string, outputTokens: int)
    | MessageStop

  datatype Config = Config(requestId: string, publicModel: string)

  datatype Tool = Tool(callId: string, name: string, arguments: string, blockIndex: nat)

  // `openBlock` is -1 while no block is open.
  datatype State = State(
    messageId: string, started: bool, textStarted: bool, textBlock: nat, text: string,
    tools: map<int, Tool>, nextBlock: nat, openBlock: int, finishReason: string)

  const INITIAL := State("", false, false, 0, "", map[], 0, -1, "")

  function Start(cfg: Config, s: State, chunk: Chunk): Step<State, Event> {
    if s.started then Step(s, Ok([])) else
    var id := PublicId(cfg.requestId, chunk.id);
    Step(s.(started := true, messageId := id), Ok([MessageStart(id, cfg.publicModel)]))
  }

  function CloseOpen(s: State): seq<Event> {
    if s.openBlock < 0 then [] else [BlockStop(s.openBlock)]
  }

  function Closed(s: State): State {
    if s.openBlock < 0 then s else s.(openBlock := -1)
  }

  function EncodeText(s: State, content: string): Step<State, Event> {
    if content == "" then Step(s, Ok([]))
    else if !s.textStarted then
      var block := s.nextBlock;
      Step(s.(textStarted := true, textBlock := block, nextBlock := block + 1, openBlock := block, text := s.text + content),
           Ok(CloseOpen(s) + [BlockStart(block, TextBlock), ContentDelta(block, TextDelta(content))]))
    else
      Step(s.(text := s.text + content), Ok([ContentDelta(s.textBlock, TextDelta(content))]))
  }

  function OpenTool(s: State, call: ToolCallDelta): Step<State, Event> {
    if call.index in s.tools then Step(s, Ok([]))
    else if !ValidToolCallId(call.id) || call.func.None? || !ValidToolName(call.func.value.name) then
      Step(s, Err(ToolWithoutIdentity))
    else
      var block := s.nextBlock;
      var tool := Tool(call.id, call.func.value.name, "", block);
      Step(s.(tools := s.tools[call.index := tool], nextBlock := block + 1, openBlock := block),
           Ok(CloseOpen(s) + [BlockStart(block, ToolUseBlock(tool.callId, tool.name))]))
  }

  function TakeArguments(s: State, call: ToolCallDelta): Step<State, Event>
    requires call.index in s.tools
  {
    if Arguments(call) == "" then Step(s, Ok([])) else
    var tool := s.tools[call.index];
    Step(s.(tools := s.tools[call.index := tool.(arguments := tool.arguments + Arguments(call))]),
         Ok([ContentDelta(tool.blockIndex, InputJsonDelta(Arguments(call)))]))
  }

  function EncodeCall(s: State, call: ToolCallDelta): Step<State, Event> {
    var begun := OpenTool(s, call);
    if begun.result.Err? then begun else After(begun, TakeArguments(begun.state, call))
  }

  function EncodeCalls(s: State, calls: seq<ToolCallDelta>): Step<State, Event>
    decreases |calls|
  {
    if calls == [] then Step(s, Ok([])) else
    var first := EncodeCall(s, calls[0]);
    if first.result.Err? then first else After(first, EncodeCalls(first.state, calls[1..]))
  }

  function TakeReason(s: State, reason: FinishField): State {
    if reason.Reason? then s.(finishReason := reason.text) else s
  }

  function EncodeDelta(s: State, d: Decoded): Step<State, Event> {
    if d.finishReason.BadReason? then Step(s, Err(InvalidFinishReason)) else
    var text := EncodeText(TakeReason(s, d.finishReason), d.content);
    After(text, EncodeCalls(text.state, d.calls))
  }

  function Encode(cfg: Config, s: State, chunk: Chunk): Step<State, Event> {
    match DecodeTranslated(chunk)
    case Err(e) => Step(s, Err(e))
    case Ok(d) =>
      var start := Start(cfg, s, chunk);
      After(start, EncodeDelta(start.state, d))
  }

  function StopReason(finishReason: string): Option<string> {
    if finishReason == "stop" then Some("end_turn")
    else if finishReason == "length" then Some("max_tokens")
    else if finishReason == "tool_calls" then Some("tool_use")
    else None
  }

  // A bad finish reason is noticed after the open block was closed.
  function Finish(jsonObject: string -> bool, s: State, usage: TokenUsage): Step<State, Event> {
    if !s.started then Step(s, Err(NeverStarted))
    else if exists i <- s.tools :: !jsonObject(s.tools[i].arguments) then Step(s, Err(ArgumentsNotObject))
    else
      var closed := Closed(s);
      match StopReason(s.finishReason)
      case None => Step(closed, Err(UnsupportedFinishReason(s.finishReason)))
      case Some(reason) =>
        Step(closed, Ok(CloseOpen(s) + [MessageDelta(reason, usage.output.GetOr(0)), MessageStop]))
  }

  function EncodeAll(cfg: Config, chunks: seq<Chunk>): Step<State, Event> {
    if chunks == [] then Step(INITIAL, Ok([])) else
    var before := EncodeAll(cfg, chunks[..|chunks| - 1]);
    if before.result.Err? then before
    else After(before, Encode(cfg, before.state, chunks[|chunks| - 1]))
  }

  function Translate(cfg: Config, jsonObject: string -> bool, chunks: seq<Chunk>, usage: TokenUsage): Step<State, Event> {
    var before := EncodeAll(cfg, chunks);
    if before.result.Err? then before else After(before, Finish(jsonObject, before.state, usage))
  }
}
