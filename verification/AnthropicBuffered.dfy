/**
 The buffered Anthropic encoder, and when a streamed completion is the message the buffered encoder
 gives.
 */
module AnthropicBuffered {
  import opened Wrappers
  import opened Sorting
  import opened StreamChunks
  import opened EncoderSteps
  import opened Completions
  import opened ExampleStreams
  import opened AnthropicStream
  import opened AnthropicTrace
  import Messages
  import Ordering

  // --- The buffered encoder ---------------------------------------------------------------

  // A tool's input is the JSON value its arguments parse to. That parse is another one than the test
  // for an object: it takes numbers for floating-point ones, and refuses those that are out of range.
  datatype Content<J> = TextContent(text: string) | ToolUse(id: string, name: string, input: Option<J>)

  datatype Usage = Usage(input: int, output: int, cacheRead: int)

  datatype Answer<J> = Answer(id: string, model: string, content: seq<Content<J>>, stopReason: string, usage: Usage)

  // The buffered path takes a missing finish reason for a stop.
  function BufferedStopReason(finishReason: string): Option<string> {
    if finishReason == "" then Some("end_turn") else StopReason(finishReason)
  }

  function CallContent<J>(input: string -> Option<J>, call: Messages.ToolCall): Content<J> {
    ToolUse(call.id, call.name, input(call.arguments))
  }

  function CallContents<J>(input: string -> Option<J>, calls: seq<Messages.ToolCall>): (contents: seq<Content<J>>)
    ensures |contents| == |calls|
    ensures forall p | 0 <= p < |calls| :: contents[p] == CallContent(input, calls[p])
  {
    seq(|calls|, p requires 0 <= p < |calls| => CallContent(input, calls[p]))
  }

  function BufferedContent<J>(input: string -> Option<J>, chat: Completion): seq<Content<J>> {
    (if chat.content.Some? then [TextContent(chat.content.value)] else []) + CallContents(input, chat.calls)
  }

  function ReportedUsage(value: Option<ProviderUsage>): Usage {
    match value
    case None => Usage(0, 0, 0)
    case Some(u) =>
      Usage(u.promptTokens.GetOr(0), u.completionTokens.GetOr(0), OrElse(u.promptCachedTokens, u.cachedTokens).GetOr(0))
  }

  predicate Readable<J>(input: string -> Option<J>, calls: seq<Messages.ToolCall>) {
    forall call <- calls :: input(call.arguments).Some?
  }

  function EncodeResponse<J>(cfg: Config, jsonObject: string -> bool, input: string -> Option<J>, chat: Completion): Option<Answer<J>> {
    if !Convertible(jsonObject, chat) || !Readable(input, chat.calls) then None else
    match BufferedStopReason(chat.finishReason)
    case None => None
    case Some(reason) =>
      Some(Answer(PublicId(cfg.requestId, chat.id), cfg.publicModel, BufferedContent(input, chat), reason, ReportedUsage(chat.usage)))
  }

  // --- The streamed message ---------------------------------------------------------------

  function ReadBlock<J>(input: string -> Option<J>, b: ClientBlock): Content<J> {
    match b.block
    case TextBlock => TextContent(b.received)
    case ToolUseBlock(id, name) => ToolUse(id, name, input(b.received))
  }

  function ReadBlocks<J>(input: string -> Option<J>, blocks: seq<ClientBlock>): (contents: seq<Content<J>>)
    ensures |contents| == |blocks|
    ensures forall j | 0 <= j < |blocks| :: contents[j] == ReadBlock(input, blocks[j])
  {
    seq(|blocks|, j requires 0 <= j < |blocks| => ReadBlock(input, blocks[j]))
  }

  // The message a client puts together: message_start counts no tokens, message_delta only output.
  function Streamed<J>(input: string -> Option<J>, trace: seq<Event>): Option<Answer<J>> {
    if |trace| < 2 || !trace[0].MessageStart? || !trace[|trace| - 2].MessageDelta? then None else
    match ReceiveAll(FRESH, trace)
    case None => None
    case Some(c) =>
      var (start, end) := (trace[0], trace[|trace| - 2]);
      Some(Answer(start.id, start.model, ReadBlocks(input, c.blocks), end.stopReason, Usage(0, end.outputTokens, 0)))
  }

  // --- The order of the content -----------------------------------------------------------

  function FirstTool(order: seq<Slot>): nat {
    if TextSlot in order then 1 else 0
  }

  // Text first if there is any, then nothing but tools.
  predicate TextFirst(order: seq<Slot>) {
    && FirstTool(order) <= |order|
    && (TextSlot in order ==> order[0] == TextSlot)
    && forall j | FirstTool(order) <= j < |order| :: order[j].ToolSlot?
  }

  // The tools first appear in ascending order of their indices.
  predicate ToolsAscend(order: seq<Slot>)
    requires TextFirst(order)
  {
    forall i, j | FirstTool(order) <= i < j < |order| :: order[i].index < order[j].index
  }

  predicate DistinctIds(pieces: seq<Piece>) {
    var indices := ToolIndices(Appearances(pieces));
    forall i <- indices, k <- indices | i != k :: AssembledCall(pieces, i).id != AssembledCall(pieces, k).id
  }

  lemma {:induction false} AppearancesUnrepeated(pieces: seq<Piece>)
    ensures Ordering.Unrepeated(Appearances(pieces))
  {
    if pieces != [] {
      AppearancesUnrepeated(pieces[..|pieces| - 1]);
    }
  }

  // The tools of an order are as many as their indices.
  lemma {:induction false} ToolCount(order: seq<Slot>)
    requires Ordering.Unrepeated(order)
    ensures |order| == FirstTool(order) + |ToolIndices(order)|
  {
    if order != [] {
      var before, last := order[..|order| - 1], order[|order| - 1];
      ToolCount(before);
      assert order == before + [last];
      assert last !in before;
      if last.ToolSlot? {
        assert ToolIndices(order) == ToolIndices(before) + {last.index};
        assert last.index !in ToolIndices(before);
      } else {
        assert ToolIndices(order) == ToolIndices(before);
      }
    }
  }

  // What a block of the stream holds, by its slot.
  function SlotContent<J>(input: string -> Option<J>, pieces: seq<Piece>, slot: Slot): Content<J>
    requires slot in Appearances(pieces)
  {
    match slot
    case TextSlot => TextContent(Payload(pieces, TextSlot))
    case ToolSlot(i) => CallContent(input, AssembledCall(pieces, i))
  }

  lemma BlockContent<J>(input: string -> Option<J>, blocks: seq<ClientBlock>, pieces: seq<Piece>, j: nat)
    requires Carries(blocks, pieces) && j < |blocks|
    ensures ReadBlock(input, blocks[j]) == SlotContent(input, pieces, Appearances(pieces)[j])
  {
    hide Payload, Appearances;
  }

  lemma BufferedAt<J>(input: string -> Option<J>, chunks: seq<Chunk>, created: int, j: nat)
    ensures var pieces := Pieces(chunks);
            var order := Appearances(pieces);
            var keys := SortedKeys(ToolIndices(order));
            var content := BufferedContent(input, Assemble(chunks, created));
            && |content| == FirstTool(order) + |keys| == |order|
            && (j < FirstTool(order) ==> content[j] == SlotContent(input, pieces, TextSlot))
            && (FirstTool(order) <= j < |order| ==>
                  && ToolSlot(keys[j - FirstTool(order)]) in order
                  && content[j] == SlotContent(input, pieces, ToolSlot(keys[j - FirstTool(order)])))
  {
    hide Payload, Appearances, Pieces, SortedKeys, AssembledCall, CallContent;
    var pieces := Pieces(chunks);
    AppearancesUnrepeated(pieces);
    ToolCount(Appearances(pieces));
    assert forall k <- ToolIndices(Appearances(pieces)) :: ToolSlot(k) in Appearances(pieces);
  }

  // The slot at a place of the buffered content.
  function BufferedSlot(order: seq<Slot>, j: nat): Slot
    requires j < FirstTool(order) + |SortedKeys(ToolIndices(order))|
  {
    if j < FirstTool(order) then TextSlot else ToolSlot(SortedKeys(ToolIndices(order))[j - FirstTool(order)])
  }

  // The two slots hold the same block.
  predicate SameContent<J(==)>(input: string -> Option<J>, pieces: seq<Piece>, a: Slot, b: Slot) {
    && a in Appearances(pieces) && b in Appearances(pieces)
    && SlotContent(input, pieces, a) == SlotContent(input, pieces, b)
  }

  // Every block appears at its place, text first and tools by index, or is just like the one that
  // belongs there.
  predicate InPlace<J(==)>(input: string -> Option<J>, pieces: seq<Piece>) {
    var order := Appearances(pieces);
    && |order| == FirstTool(order) + |SortedKeys(ToolIndices(order))|
    && forall j | 0 <= j < |order| :: SameContent(input, pieces, order[j], BufferedSlot(order, j))
  }

  lemma BlocksAt<J>(input: string -> Option<J>, blocks: seq<ClientBlock>, chunks: seq<Chunk>, created: int, j: nat)
    requires Carries(blocks, Pieces(chunks)) && j < |blocks|
    ensures var order := Appearances(Pieces(chunks));
            && |blocks| == |order| == |BufferedContent(input, Assemble(chunks, created))|
            && |order| == FirstTool(order) + |SortedKeys(ToolIndices(order))|
            && (ReadBlocks(input, blocks)[j] == BufferedContent(input, Assemble(chunks, created))[j]
                <==> SameContent(input, Pieces(chunks), order[j], BufferedSlot(order, j)))
  {
    hide Payload, Pieces, AssembledCall, Appearances, Assemble, BufferedContent, SortedKeys, Opening, Carries, SlotContent, ReadBlock, ToolIndices;
    CarriesSize(blocks, Pieces(chunks));
    BufferedAt(input, chunks, created, j);
    BlockContent(input, blocks, Pieces(chunks), j);
  }

  // The content of a streamed message is the buffered content exactly when every block is in place.
  lemma ContentAgrees<J>(input: string -> Option<J>, blocks: seq<ClientBlock>, chunks: seq<Chunk>, created: int)
    requires Carries(blocks, Pieces(chunks))
    ensures ReadBlocks(input, blocks) == BufferedContent(input, Assemble(chunks, created)) <==> InPlace(input, Pieces(chunks))
  {
    hide Pieces, Appearances, Assemble, BufferedContent, SortedKeys, Carries, SameContent, ReadBlock, ToolIndices, FirstTool, BufferedSlot;
    var pieces := Pieces(chunks);
    var streamed, buffered := ReadBlocks(input, blocks), BufferedContent(input, Assemble(chunks, created));
    var order := Appearances(pieces);
    CarriesSize(blocks, pieces);
    BufferedAt(input, chunks, created, 0);
    forall j | 0 <= j < |order|
      ensures streamed[j] == buffered[j] <==> SameContent(input, pieces, order[j], BufferedSlot(order, j))
    {
      BlocksAt(input, blocks, chunks, created, j);
    }
  }

  lemma CarriesSize(blocks: seq<ClientBlock>, pieces: seq<Piece>)
    requires Carries(blocks, pieces)
    ensures |blocks| == |Appearances(pieces)|
  {
  }

  function ToolsOf(order: seq<Slot>): (indices: seq<int>)
    requires TextFirst(order)
    ensures |indices| == |order| - FirstTool(order)
    ensures forall p | 0 <= p < |indices| :: indices[p] == order[FirstTool(order) + p].index
  {
    seq(|order| - FirstTool(order), p requires 0 <= p < |order| - FirstTool(order) => order[FirstTool(order) + p].index)
  }

  lemma ToolsOfMembers(order: seq<Slot>, i: int)
    requires TextFirst(order)
    ensures i in ToolsOf(order) <==> i in ToolIndices(order)
  {
    if i in ToolIndices(order) {
      var j :| 0 <= j < |order| && order[j] == ToolSlot(i);
      assert ToolsOf(order)[j - FirstTool(order)] == i;
    }
  }

  // Text first and tools ascending is the buffered order itself.
  lemma AscendingIsBuffered(order: seq<Slot>, j: nat)
    requires TextFirst(order) && ToolsAscend(order)
    ensures FirstTool(order) + |SortedKeys(ToolIndices(order))| == |order|
    ensures j < |order| ==> order[j] == BufferedSlot(order, j)
  {
    hide ToolIndices, SortedKeys;
    var keys, mine := SortedKeys(ToolIndices(order)), ToolsOf(order);
    forall i
      ensures i in mine <==> i in keys
    {
      ToolsOfMembers(order, i);
      if i in ToolIndices(order) {
        SortedKeysComplete(ToolIndices(order), i);
      }
    }
    SameSorted(mine, keys);
    if FirstTool(order) <= j < |order| {
      assert mine[j - FirstTool(order)] == order[j].index;
    }
  }

  lemma AscendingInPlace<J>(input: string -> Option<J>, pieces: seq<Piece>)
    requires TextFirst(Appearances(pieces)) && ToolsAscend(Appearances(pieces))
    ensures InPlace(input, pieces)
  {
    hide Appearances, SortedKeys, ToolIndices, BufferedSlot, SlotContent, ToolsAscend, TextFirst;
    var order := Appearances(pieces);
    AscendingIsBuffered(order, 0);
    forall j | 0 <= j < |order|
      ensures SameContent(input, pieces, order[j], BufferedSlot(order, j))
    {
      AscendingIsBuffered(order, j);
    }
  }

  // What is in place among tools with distinct ids is in the buffered order.
  lemma InPlaceIsBuffered<J>(input: string -> Option<J>, pieces: seq<Piece>, j: nat)
    requires InPlace(input, pieces) && j < |Appearances(pieces)|
    ensures Appearances(pieces)[j].TextSlot? <==> BufferedSlot(Appearances(pieces), j).TextSlot?
    ensures DistinctIds(pieces) ==> Appearances(pieces)[j] == BufferedSlot(Appearances(pieces), j)
  {
    hide Appearances, SortedKeys, AssembledCall, BufferedSlot;
    var order := Appearances(pieces);
    assert SameContent(input, pieces, order[j], BufferedSlot(order, j));
  }

  lemma InPlaceAscends<J>(input: string -> Option<J>, pieces: seq<Piece>)
    requires InPlace(input, pieces)
    ensures TextFirst(Appearances(pieces))
    ensures DistinctIds(pieces) ==> ToolsAscend(Appearances(pieces))
  {
    hide Appearances, SortedKeys, ToolIndices, SameContent, DistinctIds;
    var order := Appearances(pieces);
    var keys := SortedKeys(ToolIndices(order));
    forall j | 0 <= j < |order|
      ensures order[j].TextSlot? <==> j < FirstTool(order)
      ensures DistinctIds(pieces) && FirstTool(order) <= j ==> order[j] == ToolSlot(keys[j - FirstTool(order)])
    {
      InPlaceIsBuffered(input, pieces, j);
    }
  }

  // --- The rest of the message ------------------------------------------------------------

  lemma {:induction false} StreamReason(cfg: Config, chunks: seq<Chunk>)
    requires EncodeAll(cfg, chunks).result.Ok?
    ensures EncodeAll(cfg, chunks).state.finishReason == LastReason(chunks)
    ensures EncodeAll(cfg, chunks).state.started <==> chunks != []
    ensures chunks != [] ==>
              && |EncodeAll(cfg, chunks).result.value| > 0
              && EncodeAll(cfg, chunks).result.value[0] == MessageStart(PublicId(cfg.requestId, chunks[0].id), cfg.publicModel)
  {
    hide Encode;
    if chunks != [] {
      var front := chunks[..|chunks| - 1];
      StreamReason(cfg, front);
      ChunkReason(cfg, EncodeAll(cfg, front).state, chunks[|chunks| - 1]);
    }
  }

  lemma {:induction false} CallsKeepReason(s: State, calls: seq<ToolCallDelta>)
    ensures EncodeCalls(s, calls).state.finishReason == s.finishReason && EncodeCalls(s, calls).state.started == s.started
    decreases |calls|
  {
    if calls != [] {
      var first := EncodeCall(s, calls[0]);
      if first.result.Ok? {
        CallsKeepReason(first.state, calls[1..]);
      }
    }
  }

  lemma ChunkReason(cfg: Config, s: State, chunk: Chunk)
    requires Encode(cfg, s, chunk).result.Ok? && (!s.started ==> s == INITIAL)
    ensures DecodeTranslated(chunk).Ok?
    ensures var t := Encode(cfg, s, chunk).state;
            var reason := DecodeTranslated(chunk).value.finishReason;
            t.started && t.finishReason == if reason.Reason? then reason.text else s.finishReason
    ensures var events := Encode(cfg, s, chunk).result.value;
            !s.started ==> |events| > 0 && events[0] == MessageStart(PublicId(cfg.requestId, chunk.id), cfg.publicModel)
  {
    var start := Start(cfg, s, chunk);
    var d := DecodeTranslated(chunk).value;
    var text := EncodeText(TakeReason(start.state, d.finishReason), d.content);
    CallsKeepReason(text.state, d.calls);
  }

  function ToolArguments(tools: map<int, Tool>): (arguments: map<int, string>)
    ensures arguments.Keys == tools.Keys
    ensures forall i <- tools :: arguments[i] == tools[i].arguments
    ensures arguments == map[] <==> tools == map[]
  {
    assert tools == map[] <==> tools.Keys == {};
    map i | i in tools :: tools[i].arguments
  }

  lemma FinishFields(jsonObject: string -> bool, s: State, usage: TokenUsage)
    requires s.started
    ensures Finish(jsonObject, s, usage).result.Ok? <==> AllObjects(jsonObject, ToolArguments(s.tools)) && StopReason(s.finishReason).Some?
    ensures Finish(jsonObject, s, usage).result.Ok? ==>
              var events := Finish(jsonObject, s, usage).result.value;
              && |events| >= 2
              && events[|events| - 2] == MessageDelta(StopReason(s.finishReason).value, usage.output.GetOr(0))
  {
    var arguments := ToolArguments(s.tools);
    assert forall i <- s.tools :: arguments[i] == s.tools[i].arguments;
  }

  lemma ToolKeys(s: State, order: seq<Slot>)
    requires Ordered(s, order)
    ensures ToolIndices(order) == s.tools.Keys
    ensures TextSlot in order <==> s.textStarted
  {
    forall i <- s.tools ensures i in ToolIndices(order) {
      assert order[s.tools[i].blockIndex] == ToolSlot(i);
    }
  }

  lemma TracksOrdered(s: State, pieces: seq<Piece>)
    requires Tracks(s, pieces)
    ensures Ordered(s, Appearances(pieces))
  {
  }

  lemma AssembledTool(s: State, pieces: seq<Piece>, i: int)
    requires Tracks(s, pieces) && i in s.tools
    ensures ToolSlot(i) in Appearances(pieces) && ListedCall(AssembledCall(pieces, i), s.tools[i].arguments)
  {
    hide Ordered, Opening, Payload, Appearances, ValidToolCallId, ValidToolName;
    assert ToolTracks(s.tools[i], Opening(pieces, ToolSlot(i)).call, Payload(pieces, ToolSlot(i)));
  }

  lemma AssembledTools(chunks: seq<Chunk>, created: int, s: State)
    requires Tracks(s, Pieces(chunks))
    ensures Lists(Assemble(chunks, created), s.textStarted, ToolArguments(s.tools))
  {
    hide Tracks, Ordered, Payload, Appearances, ListedCall, AssembledCall, ToolIndices, SortedKeys, Pieces, LastReason, LastUsage;
    var pieces := Pieces(chunks);
    TracksOrdered(s, pieces);
    ToolKeys(s, Appearances(pieces));
    var keys := SortedKeys(s.tools.Keys);
    var calls := Assemble(chunks, created).calls;
    assert |calls| == |keys|;
    forall p | 0 <= p < |calls|
      ensures keys[p] in s.tools && ListedCall(calls[p], s.tools[keys[p]].arguments)
    {
      AssembledTool(s, pieces, keys[p]);
    }
  }

  lemma AssembledConvertible(jsonObject: string -> bool, chunks: seq<Chunk>, created: int, s: State)
    requires Tracks(s, Pieces(chunks))
    ensures Convertible(jsonObject, Assemble(chunks, created))
            <==> AllObjects(jsonObject, ToolArguments(s.tools)) && (s.textStarted || ToolArguments(s.tools) != map[])
    ensures AllObjects(jsonObject, ToolArguments(s.tools)) <==> forall call <- Assemble(chunks, created).calls :: jsonObject(call.arguments)
    ensures Appearances(Pieces(chunks)) == [] <==> !s.textStarted && ToolArguments(s.tools) == map[]
  {
    NothingAppeared(s, Appearances(Pieces(chunks)));
    hide Tracks, Assemble, Pieces, Lists, Convertible;
    AssembledTools(chunks, created, s);
    ListsConvertible(jsonObject, Assemble(chunks, created), s.textStarted, ToolArguments(s.tools));
  }

  lemma NothingAppeared(s: State, order: seq<Slot>)
    requires Ordered(s, order)
    ensures order == [] <==> !s.textStarted && ToolArguments(s.tools) == map[]
  {
    if order == [] {
      assert forall i :: i !in s.tools;
      assert s.tools == map[];
    } else if order[0].ToolSlot? {
      assert order[0].index in s.tools;
    } else {
      assert s.textStarted;
    }
  }

  // --- The theorems -----------------------------------------------------------------------

  // Which of the two accepts a stream whose chunks were all encoded: streaming asks for a finish reason
  // and takes a message without content, buffering asks for content, takes a missing reason, and has to
  // read the arguments again.
  lemma EachAccepts<J>(
    cfg: Config, jsonObject: string -> bool, input: string -> Option<J>, chunks: seq<Chunk>, created: int, usage: TokenUsage)
    requires EncodeAll(cfg, chunks).result.Ok? && chunks != []
    ensures var objects := forall call <- Assemble(chunks, created).calls :: jsonObject(call.arguments);
            && (Translate(cfg, jsonObject, chunks, usage).result.Ok?
                <==> objects && LastReason(chunks) in {"stop", "length", "tool_calls"})
            && (EncodeResponse(cfg, jsonObject, input, Assemble(chunks, created)).Some?
                <==> objects && Readable(input, Assemble(chunks, created).calls) && Appearances(Pieces(chunks)) != []
                     && LastReason(chunks) in {"", "stop", "length", "tool_calls"})
  {
    hide EncodeAll, Tracks, Finish, Convertible, Readable, BufferedContent, LastReason, Pieces, Appearances, AllObjects, View, ReceiveAll, Strays;
    var s := EncodeAll(cfg, chunks).state;
    StreamAgrees(cfg, chunks);
    StreamReason(cfg, chunks);
    FinishFields(jsonObject, s, usage);
    AssembledConvertible(jsonObject, chunks, created, s);
  }

  // Only output tokens were reported, if any.
  predicate OnlyOutput(usage: Option<ProviderUsage>) {
    ReportedUsage(usage).input == 0 && ReportedUsage(usage).cacheRead == 0
  }

  lemma StreamedUsage(providerId: string, chunks: seq<Chunk>)
    requires ConsumeAll(providerId, chunks).Some?
    ensures ConsumeAll(providerId, chunks).value.usage.output.GetOr(0) == ReportedUsage(LastUsage(chunks)).output
  {
    AccumulatedUsage(providerId, chunks);
  }

  lemma StreamedFields<J>(cfg: Config, jsonObject: string -> bool, input: string -> Option<J>, chunks: seq<Chunk>, usage: TokenUsage)
    requires Translate(cfg, jsonObject, chunks, usage).result.Ok?
    ensures var streamed := Streamed(input, Translate(cfg, jsonObject, chunks, usage).result.value);
            && streamed.Some? && chunks != []
            && streamed.value.id == PublicId(cfg.requestId, chunks[0].id) && streamed.value.model == cfg.publicModel
            && Some(streamed.value.stopReason) == StopReason(LastReason(chunks))
            && streamed.value.usage == Usage(0, usage.output.GetOr(0), 0)
            && exists blocks :: Carries(blocks, Pieces(chunks)) && streamed.value.content == ReadBlocks(input, blocks)
  {
    hide EncodeAll, Finish, Carries, LastReason, Pieces, ReadBlock, ReceiveAll, StopReason, SinglePass;
    var before := EncodeAll(cfg, chunks);
    var trace := Translate(cfg, jsonObject, chunks, usage).result.value;
    StreamReason(cfg, chunks);
    FinishNeedsStart(jsonObject, before.state, usage);
    FinishFields(jsonObject, before.state, usage);
    FinishedStreamBracketed(cfg, jsonObject, chunks, usage);
    var ending := Finish(jsonObject, before.state, usage).result.value;
    assert trace == before.result.value + ending;
    assert trace[0] == before.result.value[0] && trace[|trace| - 2] == ending[|ending| - 2];
    assert Carries(ReceiveAll(FRESH, trace).value.blocks, Pieces(chunks));
  }

  // A finished stream and the completion it assembles to give the same message, provided it says
  // anything and its arguments can be read: always in id, model, stop reason and output tokens; in content exactly when every block
  // is in place, which among calls of distinct ids means text first and tools ascending; in usage
  // exactly when nothing but output was counted.
  lemma StreamingRefinesBuffered<J>(
    cfg: Config, jsonObject: string -> bool, input: string -> Option<J>, providerId: string, chunks: seq<Chunk>, created: int)
    requires ConsumeAll(providerId, chunks).Some?
    requires Translate(cfg, jsonObject, chunks, ConsumeAll(providerId, chunks).value.usage).result.Ok?
    ensures Streamed(input, Translate(cfg, jsonObject, chunks, ConsumeAll(providerId, chunks).value.usage).result.value).Some?
    ensures EncodeResponse(cfg, jsonObject, input, Assemble(chunks, created)).Some?
            <==> Appearances(Pieces(chunks)) != [] && Readable(input, Assemble(chunks, created).calls)
    ensures EncodeResponse(cfg, jsonObject, input, Assemble(chunks, created)).Some? ==>
              var streamed := Streamed(input, Translate(cfg, jsonObject, chunks, ConsumeAll(providerId, chunks).value.usage).result.value).value;
              var buffered := EncodeResponse(cfg, jsonObject, input, Assemble(chunks, created)).value;
              && streamed.id == buffered.id && streamed.model == buffered.model && streamed.stopReason == buffered.stopReason
              && streamed.usage.output == buffered.usage.output
              && (streamed.content == buffered.content <==> InPlace(input, Pieces(chunks)))
              && (streamed.usage == buffered.usage <==> OnlyOutput(LastUsage(chunks)))
    ensures var order := Appearances(Pieces(chunks));
            && (InPlace(input, Pieces(chunks)) ==> TextFirst(order))
            && (TextFirst(order) && ToolsAscend(order) ==> InPlace(input, Pieces(chunks)))
            && (DistinctIds(Pieces(chunks)) ==> (InPlace(input, Pieces(chunks)) <==> TextFirst(order) && ToolsAscend(order)))
  {
    hide Translate, EncodeAll, Convertible, Readable, BufferedContent, LastReason, Pieces, Appearances, Carries, InPlace, TextFirst, ToolsAscend,
      DistinctIds, Streamed, ReadBlocks, ConsumeAll, LastUsage;
    var usage := ConsumeAll(providerId, chunks).value.usage;
    StreamedFields(cfg, jsonObject, input, chunks, usage);
    StreamedUsage(providerId, chunks);
    TranslateEncodes(cfg, jsonObject, chunks, usage);
    EachAccepts(cfg, jsonObject, input, chunks, created, usage);
    var streamed := Streamed(input, Translate(cfg, jsonObject, chunks, usage).result.value).value;
    var blocks :| Carries(blocks, Pieces(chunks)) && streamed.content == ReadBlocks(input, blocks);
    ContentAgrees(input, blocks, chunks, created);
    if InPlace(input, Pieces(chunks)) {
      InPlaceAscends(input, Pieces(chunks));
    }
    if TextFirst(Appearances(Pieces(chunks))) && ToolsAscend(Appearances(Pieces(chunks))) {
      AscendingInPlace(input, Pieces(chunks));
    }
  }

  lemma TranslateEncodes(cfg: Config, jsonObject: string -> bool, chunks: seq<Chunk>, usage: TokenUsage)
    requires Translate(cfg, jsonObject, chunks, usage).result.Ok?
    ensures EncodeAll(cfg, chunks).result.Ok?
  {
    hide EncodeAll, Finish;
  }

  // --- Streams on which the two part ------------------------------------------------------

  lemma OneChunkEncodes(cfg: Config, content: Option<string>, reason: FinishField)
    requires reason in {NoReason, Reason("stop")}
    ensures EncodeAll(cfg, [Says(Delta("assistant", content, None), reason)]).result.Ok?
  {
    var delta := Delta("assistant", content, None);
    SaysOne(delta, reason);
    var chunk := Says(delta, reason);
    assert [chunk][..0] == [];
    hide DecodeTranslated, PublicId;
    assert EncodeAll(cfg, []) == Step(INITIAL, Ok([]));
    assert Encode(cfg, INITIAL, chunk).result.Ok?;
  }

  lemma TextOnly(content: string)
    ensures ToolIndices(Appearances(TextPieces(content))) == {}
    ensures Appearances(TextPieces(content)) == [] <==> content == ""
  {
    if content != "" {
      assert [TextPiece(content)][..0] == [];
      assert Appearances([TextPiece(content)]) == [TextSlot];
    }
  }

  lemma OneChunkReason(delta: Delta, reason: FinishField)
    requires DecodeTranslated(Says(delta, reason)).Ok? && DecodeTranslated(Says(delta, reason)).value.finishReason == reason
    ensures LastReason([Says(delta, reason)]) == if reason.Reason? then reason.text else ""
  {
    hide DecodeTranslated, Says;
    assert [Says(delta, reason)][..0] == [];
    assert LastReason([]) == "";
  }

  lemma OneChunkCalls(content: string, chunks: seq<Chunk>, created: int)
    requires Pieces(chunks) == TextPieces(content)
    ensures Assemble(chunks, created).calls == []
    ensures Appearances(Pieces(chunks)) == [] <==> content == ""
  {
    hide Pieces, Appearances, ToolIndices, TextPieces;
    TextOnly(content);
  }

  lemma OneChunkAssembles(content: Option<string>, reason: FinishField, created: int)
    requires reason in {NoReason, Reason("stop")}
    ensures var chunks := [Says(Delta("assistant", content, None), reason)];
            && ConsumeAll("", chunks).Some?
            && Assemble(chunks, created).calls == []
            && LastReason(chunks) == (if reason.NoReason? then "" else "stop")
            && (Appearances(Pieces(chunks)) == [] <==> content.GetOr("") == "")
  {
    hide Pieces, Appearances, ToolIndices, DecodeTranslated, ConsumeAll, TextPieces, Says, LastReason, Assemble;
    var delta := Delta("assistant", content, None);
    SaysOne(delta, reason);
    OneChunkReason(delta, reason);
    assert TextPieces(content.GetOr("")) + [] == TextPieces(content.GetOr(""));
    OneChunkCalls(content.GetOr(""), [Says(delta, reason)], created);
  }

  // A message without content is streamed to its end, and refused when it is buffered.
  lemma SilenceParts<J>(cfg: Config, jsonObject: string -> bool, input: string -> Option<J>, created: int)
    ensures ConsumeAll("", [SILENCE]).Some?
    ensures Translate(cfg, jsonObject, [SILENCE], NO_USAGE).result.Ok?
    ensures EncodeResponse(cfg, jsonObject, input, Assemble([SILENCE], created)).None?
  {
    hide EncodeAll, Translate, EncodeResponse, Assemble, ConsumeAll, Pieces, Appearances, LastReason, Says;
    OneChunkEncodes(cfg, None, Reason("stop"));
    OneChunkAssembles(None, Reason("stop"), created);
    EachAccepts(cfg, jsonObject, input, [SILENCE], created, NO_USAGE);
  }

  // A message without a finish reason is refused when it is streamed, and ends its turn when buffered.
  lemma UnfinishedParts<J>(cfg: Config, jsonObject: string -> bool, input: string -> Option<J>, created: int)
    ensures ConsumeAll("", [UNFINISHED]).Some?
    ensures Translate(cfg, jsonObject, [UNFINISHED], NO_USAGE).result.Err?
    ensures EncodeResponse(cfg, jsonObject, input, Assemble([UNFINISHED], created)).Some?
  {
    hide EncodeAll, Translate, EncodeResponse, Assemble, ConsumeAll, Pieces, Appearances, LastReason, Says;
    OneChunkEncodes(cfg, Some("Hi"), NoReason);
    OneChunkAssembles(Some("Hi"), NoReason, created);
    EachAccepts(cfg, jsonObject, input, [UNFINISHED], created, NO_USAGE);
  }

  lemma LookupEncodes(s: State, arguments: string)
    requires s.tools == map[]
    ensures EncodeCalls(s, [Lookup(arguments)]).result.Ok? && EncodeCalls(s, [Lookup(arguments)]).state.started == s.started
  {
    LookupNames();
    hide ValidToolCallId, ValidToolName;
    var step := EncodeCall(s, Lookup(arguments));
    assert [Lookup(arguments)][1..] == [];
    assert EncodeCalls(step.state, []) == Step(step.state, Ok([]));
  }

  lemma NoCalls(s: State)
    ensures EncodeCalls(s, []) == Step(s, Ok([]))
  {
  }

  lemma PartingEncodes(cfg: Config)
    ensures EncodeAll(cfg, PARTING).result.Ok? && PARTING != []
  {
    PartingDecodes();
    PartingPrefixes();
    hide DecodeTranslated, EncodeCalls, PublicId;
    assert EncodeAll(cfg, []) == Step(INITIAL, Ok([]));
    LookupEncodes(Start(cfg, INITIAL, LOOKS_UP).state, "{}");
    var first := EncodeAll(cfg, [LOOKS_UP]);
    assert first.result.Ok?;
    NoCalls(EncodeText(first.state.(finishReason := "tool_calls"), "Hi").state);
    var second := EncodeAll(cfg, [LOOKS_UP, SPEAKS]);
    assert second.result.Ok?;
    NoCalls(second.state);
  }

  lemma PartingCalls(created: int, call: Messages.ToolCall)
    requires call in Assemble(PARTING, created).calls
    ensures call.arguments == "{}"
  {
    PartingPieces();
    CallBeforeText(LOOKUP, "Hi");
    hide Pieces, Appearances, Opening, Payload, LastReason, LastUsage;
  }

  lemma PartingOrder()
    ensures Appearances(Pieces(PARTING)) != [] && !TextFirst(Appearances(Pieces(PARTING)))
    ensures LastReason(PARTING) == "tool_calls" && !OnlyOutput(LastUsage(PARTING))
  {
    PartingPieces();
    CallBeforeText(LOOKUP, "Hi");
    hide Pieces, Appearances, LastReason, LastUsage;
  }

  // A finished stream that calls a tool before it speaks and reports its input: streamed and buffered
  // differ in content and in usage.
  lemma PartingStream<J>(cfg: Config, jsonObject: string -> bool, input: string -> Option<J>, created: int)
    requires jsonObject("{}") && input("{}").Some?
    ensures ConsumeAll("", PARTING).Some?
    ensures var translated := Translate(cfg, jsonObject, PARTING, ConsumeAll("", PARTING).value.usage).result;
            var buffered := EncodeResponse(cfg, jsonObject, input, Assemble(PARTING, created));
            && translated.Ok? && Streamed(input, translated.value).Some? && buffered.Some?
            && Streamed(input, translated.value).value.content != buffered.value.content
            && Streamed(input, translated.value).value.usage != buffered.value.usage
  {
    hide *;
    PartingConsumed();
    PartingEncodes(cfg);
    PartingOrder();
    forall call <- Assemble(PARTING, created).calls
      ensures jsonObject(call.arguments) && input(call.arguments).Some?
    {
      PartingCalls(created, call);
    }
    assert Readable(input, Assemble(PARTING, created).calls) by {
      ReadableIf(input, Assemble(PARTING, created).calls);
    }
    var usage := ConsumeAll("", PARTING).value.usage;
    EachAccepts(cfg, jsonObject, input, PARTING, created, usage);
    StreamingRefinesBuffered(cfg, jsonObject, input, "", PARTING, created);
  }

  lemma ReadableIf<J>(input: string -> Option<J>, calls: seq<Messages.ToolCall>)
    requires forall call <- calls :: input(call.arguments).Some?
    ensures Readable(input, calls)
  {
  }

  lemma OverflowsAssembles(created: int)
    ensures var calls := Assemble([OVERFLOWS], created).calls;
            |calls| == 1 && calls[0].arguments == HUGE
  {
    OverflowsSays();
    OneCall(Lookup(HUGE));
    hide Pieces, Appearances, Opening, Payload, LastReason, LastUsage;
    assert ToolIndices([ToolSlot(0)]) == {0};
    assert SortedKeys({0}) == [0] by {
      SortedKeysComplete({0}, 0);
    }
  }

  lemma OverflowsEncodes(cfg: Config)
    ensures EncodeAll(cfg, [OVERFLOWS]).result.Ok?
  {
    OverflowsSays();
    hide DecodeTranslated, EncodeCalls, PublicId;
    assert [OVERFLOWS][..0] == [];
    assert EncodeAll(cfg, []) == Step(INITIAL, Ok([]));
    LookupEncodes(Start(cfg, INITIAL, OVERFLOWS).state.(finishReason := "tool_calls"), HUGE);
    assert EncodeText(Start(cfg, INITIAL, OVERFLOWS).state.(finishReason := "tool_calls"), "").result.Ok?;
  }

  lemma UnreadableCall<J>(jsonObject: string -> bool, input: string -> Option<J>, chat: Completion)
    requires |chat.calls| == 1 && jsonObject(chat.calls[0].arguments) && input(chat.calls[0].arguments).None?
    ensures forall call <- chat.calls :: jsonObject(call.arguments)
    ensures !Readable(input, chat.calls)
  {
    assert chat.calls[0] in chat.calls;
  }

  lemma ChunksConvertible(cfg: Config, jsonObject: string -> bool, chunks: seq<Chunk>, created: int)
    requires EncodeAll(cfg, chunks).result.Ok? && chunks != [] && Appearances(Pieces(chunks)) != []
    requires forall call <- Assemble(chunks, created).calls :: jsonObject(call.arguments)
    ensures Convertible(jsonObject, Assemble(chunks, created))
  {
    hide EncodeAll, Assemble, Pieces, Appearances, Tracks, Convertible, AllObjects, ToolArguments, View, ReceiveAll, Strays;
    StreamAgrees(cfg, chunks);
    AssembledConvertible(jsonObject, chunks, created, EncodeAll(cfg, chunks).state);
  }

  // Arguments that are an object and hold a number out of range are streamed to their end, and refused
  // when buffered.
  lemma OverflowParts<J>(cfg: Config, jsonObject: string -> bool, input: string -> Option<J>, created: int)
    requires jsonObject(HUGE) && input(HUGE).None?
    ensures ConsumeAll("", [OVERFLOWS]).Some? && Convertible(jsonObject, Assemble([OVERFLOWS], created))
    ensures Translate(cfg, jsonObject, [OVERFLOWS], NO_USAGE).result.Ok?
    ensures EncodeResponse(cfg, jsonObject, input, Assemble([OVERFLOWS], created)).None?
  {
    hide *;
    OverflowsSays();
    OverflowsEncodes(cfg);
    OverflowsAssembles(created);
    OneCall(Lookup(HUGE));
    UnreadableCall(jsonObject, input, Assemble([OVERFLOWS], created));
    EachAccepts(cfg, jsonObject, input, [OVERFLOWS], created, NO_USAGE);
    ChunksConvertible(cfg, jsonObject, [OVERFLOWS], created);
  }
}
