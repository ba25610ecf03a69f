/**
 The encoder that turns Chat Completions chunks into OpenAI Responses events: what each
 operation does to the encoder's state and which events it emits.
 */
module ResponsesStream {
  import opened Wrappers
  import opened StreamChunks
  import opened EncoderSteps
  import opened Sorting
  import Ordering

  // --- Public names of tools --------------------------------------------------------------

  datatype Identity = Identity(namespace: string, name: string)

  type Aliases = map<string, Identity>

  datatype PublicName = PublicName(name: string, namespace: Option<string>)

  function ResponsesFunctionCall(name: string, aliases: Aliases): PublicName {
    if name in aliases then PublicName(aliases[name].name, Some(aliases[name].namespace)) else PublicName(name, None)
  }

  // --- Responses and events ---------------------------------------------------------------

  // `msg_<request>` and `fc_<request>_<index>`.
  datatype ItemId = MessageId(request: string) | CallId(request: string, index: int)

  datatype Status = InProgress | Completed | Incomplete

  // A message's content is empty while it is in progress and one text part when it is completed.
  datatype Item =
    | MessageItem(id: ItemId, status: Status, content: Option<string>)
    | CallItem(id: ItemId, status: Status, callId: string, name: string, namespace: Option<string>, arguments: string)

  datatype Usage = Usage(input: int, output: int, total: int, cached: int, reasoning: int)

  datatype Response = Response(
    id: string, createdAt: int, model: string, status: Status, incompleteReason: Option<string>,
    output: seq<Item>, usage: Option<Usage>)

  datatype Body =
    | ResponseCreated(response: Response)
    | ResponseInProgress(response: Response)
    | OutputItemAdded(outputIndex: nat, item: Item)
    | ContentPartAdded(itemId: ItemId, outputIndex: nat)
    | OutputTextDelta(itemId: ItemId, outputIndex: nat, delta: string)
    | ArgumentsDelta(itemId: ItemId, outputIndex: nat, delta: string)
    | OutputTextDone(itemId: ItemId, outputIndex: nat, text: string)
    | ContentPartDone(itemId: ItemId, outputIndex: nat, text: string)
    | ArgumentsDone(itemId: ItemId, outputIndex: nat, arguments: string)
    | OutputItemDone(outputIndex: nat, item: Item)
    | ResponseEnded(response: Response)

  datatype Event = Event(sequence: nat, body: Body)

  // --- The encoder's state ----------------------------------------------------------------

  datatype Config = Config(requestId: string, publicModel: string, createdAt: int, aliases: Aliases)

  // `namespace` is "" for a tool that has none.
  datatype Tool = Tool(
    index: int, outputIndex: nat, itemId: ItemId, callId: string, name: string, namespace: string, arguments: string)

  datatype State = State(
    responseId: string, sequence: nat, started: bool,
    textStarted: bool, textOutputIndex: nat, text: string,
    tools: map<int, Tool>, nextOutputIndex: nat, finishReason: string)

  const INITIAL := State("", 0, false, false, 0, "", map[], 0, "")

  function Number(from: nat, bodies: seq<Body>): (events: seq<Event>)
    ensures |events| == |bodies|
    ensures forall i | 0 <= i < |events| :: events[i] == Event(from + i + 1, bodies[i])
  {
    seq(|bodies|, i requires 0 <= i < |bodies| => Event(from + i + 1, bodies[i]))
  }

  function Emit(s: State, bodies: seq<Body>): Step<State, Event> {
    Step(s.(sequence := s.sequence + |bodies|), Ok(Number(s.sequence, bodies)))
  }

  function BaseResponse(cfg: Config, s: State, status: Status, output: seq<Item>, usage: Option<Usage>): Response {
    Response(s.responseId, cfg.createdAt, cfg.publicModel, status, None, output, usage)
  }

  function Start(cfg: Config, s: State, chunk: Chunk): Step<State, Event> {
    if s.started then Step(s, Ok([])) else
    var id := PublicId(cfg.requestId, chunk.id);
    var s1 := s.(started := true, responseId := id);
    var base := BaseResponse(cfg, s1, InProgress, [], None);
    Emit(s1, [ResponseCreated(base), ResponseInProgress(base)])
  }

  function TextId(cfg: Config): ItemId {
    MessageId(cfg.requestId)
  }

  function EncodeText(cfg: Config, s: State, content: string): Step<State, Event> {
    if content == "" then Step(s, Ok([]))
    else if !s.textStarted then
      var index := s.nextOutputIndex;
      Emit(s.(textStarted := true, textOutputIndex := index, nextOutputIndex := index + 1, text := s.text + content),
           [OutputItemAdded(index, MessageItem(TextId(cfg), InProgress, None)),
            ContentPartAdded(TextId(cfg), index),
            OutputTextDelta(TextId(cfg), index, content)])
    else
      Emit(s.(text := s.text + content), [OutputTextDelta(TextId(cfg), s.textOutputIndex, content)])
  }

  function NewTool(cfg: Config, s: State, call: ToolCallDelta): Tool
    requires call.func.Some?
  {
    var public := ResponsesFunctionCall(call.func.value.name, cfg.aliases);
    Tool(call.index, s.nextOutputIndex, CallId(cfg.requestId, call.index), call.id, public.name, public.namespace.GetOr(""), "")
  }

  function ToolItem(tool: Tool, status: Status): Item {
    CallItem(tool.itemId, status, tool.callId, tool.name,
             if tool.namespace == "" then None else Some(tool.namespace),
             if status == InProgress then "" else tool.arguments)
  }

  // The call's tool, newly opened or already known, before its arguments are taken.
  function OpenTool(cfg: Config, s: State, call: ToolCallDelta): Step<State, Event> {
    if call.index !in s.tools then
      if !ValidToolCallId(call.id) || call.func.None? || !ValidToolName(call.func.value.name) then
        Step(s, Err(ToolWithoutIdentity))
      else
        var tool := NewTool(cfg, s, call);
        Emit(s.(tools := s.tools[call.index := tool], nextOutputIndex := s.nextOutputIndex + 1),
             [OutputItemAdded(tool.outputIndex, ToolItem(tool, InProgress))])
    else
      var tool := s.tools[call.index];
      if call.id != "" && call.id != tool.callId then Step(s, Err(ToolIdChanged))
      else if && call.func.Some? && call.func.value.name != ""
              && ResponsesFunctionCall(call.func.value.name, cfg.aliases).name != tool.name then
        Step(s, Err(ToolNameChanged))
      else Step(s, Ok([]))
  }

  function TakeArguments(s: State, call: ToolCallDelta): Step<State, Event>
    requires call.index in s.tools
  {
    if Arguments(call) == "" then Step(s, Ok([])) else
    var tool := s.tools[call.index];
    Emit(s.(tools := s.tools[call.index := tool.(arguments := tool.arguments + Arguments(call))]),
         [ArgumentsDelta(tool.itemId, tool.outputIndex, Arguments(call))])
  }

  function EncodeCall(cfg: Config, s: State, call: ToolCallDelta): Step<State, Event> {
    var begun := OpenTool(cfg, s, call);
    if begun.result.Err? then begun else After(begun, TakeArguments(begun.state, call))
  }

  function EncodeCalls(cfg: Config, s: State, calls: seq<ToolCallDelta>): Step<State, Event>
    decreases |calls|
  {
    if calls == [] then Step(s, Ok([])) else
    var first := EncodeCall(cfg, s, calls[0]);
    if first.result.Err? then first else After(first, EncodeCalls(cfg, first.state, calls[1..]))
  }

  // The finish reason a chunk leaves; a reason that is not text fails and leaves it alone.
  function TakeReason(s: State, reason: FinishField): State {
    if reason.Reason? then s.(finishReason := reason.text) else s
  }

  function EncodeDelta(cfg: Config, s: State, d: Decoded): Step<State, Event> {
    if d.finishReason.BadReason? then Step(s, Err(InvalidFinishReason)) else
    var text := EncodeText(cfg, TakeReason(s, d.finishReason), d.content);
    After(text, EncodeCalls(cfg, text.state, d.calls))
  }

  function Encode(cfg: Config, s: State, chunk: Chunk): Step<State, Event> {
    match DecodeTranslated(chunk)
    case Err(e) => Step(s, Err(e))
    case Ok(d) =>
      var start := Start(cfg, s, chunk);
      After(start, EncodeDelta(cfg, start.state, d))
  }

  // --- Finishing --------------------------------------------------------------------------

  function UsageFromPlatform(u: TokenUsage): Usage {
    Usage(u.input.GetOr(0), u.output.GetOr(0), u.input.GetOr(0) + u.output.GetOr(0), u.cached.GetOr(0), u.reasoning.GetOr(0))
  }

  datatype IndexedItem = IndexedItem(index: nat, item: Item)

  predicate ByIndex(x: IndexedItem, y: IndexedItem) {
    x.index <= y.index
  }

  function SortByIndex(xs: seq<IndexedItem>): seq<IndexedItem> {
    Ordering.Sort(ByIndex, xs)
  }

  function Values(xs: seq<IndexedItem>): (items: seq<Item>)
    ensures |items| == |xs|
    ensures forall i | 0 <= i < |xs| :: items[i] == xs[i].item
  {
    seq(|xs|, i requires 0 <= i < |xs| => xs[i].item)
  }

  function DoneText(cfg: Config, s: State): Item {
    MessageItem(TextId(cfg), Completed, Some(s.text))
  }

  function FinishText(cfg: Config, s: State): Step<State, Event> {
    if !s.textStarted then Step(s, Ok([])) else
    Emit(s, [OutputTextDone(TextId(cfg), s.textOutputIndex, s.text),
             ContentPartDone(TextId(cfg), s.textOutputIndex, s.text),
             OutputItemDone(s.textOutputIndex, DoneText(cfg, s))])
  }

  function FinishTool(jsonObject: string -> bool, s: State, index: int): Step<State, Event>
    requires index in s.tools
  {
    var tool := s.tools[index];
    if !jsonObject(tool.arguments) then Step(s, Err(ArgumentsNotObject)) else
    Emit(s, [ArgumentsDone(tool.itemId, tool.outputIndex, tool.arguments),
             OutputItemDone(tool.outputIndex, ToolItem(tool, Completed))])
  }

  function FinishTools(jsonObject: string -> bool, s: State, indices: seq<int>): Step<State, Event>
    requires forall k | 0 <= k < |indices| :: indices[k] in s.tools
    decreases |indices|
  {
    if indices == [] then Step(s, Ok([])) else
    var first := FinishTool(jsonObject, s, indices[0]);
    if first.result.Err? then first else After(first, FinishTools(jsonObject, first.state, indices[1..]))
  }

  function ToolItems(s: State, indices: seq<int>): (items: seq<IndexedItem>)
    requires forall k | 0 <= k < |indices| :: indices[k] in s.tools
    ensures |items| == |indices|
    ensures forall k | 0 <= k < |items| ::
              items[k] == IndexedItem(s.tools[indices[k]].outputIndex, ToolItem(s.tools[indices[k]], Completed))
  {
    seq(|indices|, k requires 0 <= k < |indices| =>
      IndexedItem(s.tools[indices[k]].outputIndex, ToolItem(s.tools[indices[k]], Completed)))
  }

  function FinishedItems(cfg: Config, s: State): seq<IndexedItem> {
    (if s.textStarted then [IndexedItem(s.textOutputIndex, DoneText(cfg, s))] else [])
    + ToolItems(s, SortedKeys(s.tools.Keys))
  }

  function FinishResponse(cfg: Config, s: State, usage: TokenUsage): Step<State, Event> {
    var items := FinishedItems(cfg, s);
    if items == [] then Step(s, Err(NoOutput)) else
    if s.finishReason !in {"length", "stop", "tool_calls"} then Step(s, Err(UnsupportedFinishReason(s.finishReason))) else
    var status := if s.finishReason == "length" then Incomplete else Completed;
    var response := BaseResponse(cfg, s, status, Values(SortByIndex(items)), Some(UsageFromPlatform(usage)))
      .(incompleteReason := if status == Incomplete then Some("max_output_tokens") else None);
    Emit(s, [ResponseEnded(response)])
  }

  // The state the tools leave differs from the one they found in its sequence number alone.
  lemma {:induction false} FinishToolsKeep(jsonObject: string -> bool, s: State, indices: seq<int>)
    requires forall k | 0 <= k < |indices| :: indices[k] in s.tools
    ensures FinishTools(jsonObject, s, indices).state.(sequence := s.sequence) == s
    decreases |indices|
  {
    if indices != [] {
      var first := FinishTool(jsonObject, s, indices[0]);
      if first.result.Ok? {
        FinishToolsKeep(jsonObject, first.state, indices[1..]);
      }
    }
  }

  function Finish(cfg: Config, jsonObject: string -> bool, s: State, usage: TokenUsage): Step<State, Event> {
    if !s.started then Step(s, Err(NeverStarted)) else
    var text := FinishText(cfg, s);
    var tools := After(text, FinishTools(jsonObject, text.state, SortedKeys(s.tools.Keys)));
    if tools.result.Err? then tools else After(tools, FinishResponse(cfg, tools.state, usage))
  }

  // --- Whole runs -------------------------------------------------------------------------

  // The encoder after every chunk of a stream was accepted, and all events so far.
  function EncodeAll(cfg: Config, chunks: seq<Chunk>): Step<State, Event> {
    if chunks == [] then Step(INITIAL, Ok([])) else
    var before := EncodeAll(cfg, chunks[..|chunks| - 1]);
    if before.result.Err? then before
    else After(before, Encode(cfg, before.state, chunks[|chunks| - 1]))
  }

  function Translate(cfg: Config, jsonObject: string -> bool, chunks: seq<Chunk>, usage: TokenUsage): Step<State, Event> {
    var before := EncodeAll(cfg, chunks);
    if before.result.Err? then before else After(before, Finish(cfg, jsonObject, before.state, usage))
  }
}
