/**
 The buffered Responses encoder, the completion a stream of chunks assembles to, and when
 streaming that completion ends in the response the buffered encoder gives.
 */
module ResponsesBuffered {
  import opened Wrappers
  import opened Sorting
  import opened StreamChunks
  import opened EncoderSteps
  import opened Completions
  import opened ExampleStreams
  import opened ResponsesStream
  import opened ResponsesTrace
  import Messages

  // --- The buffered encoder ---------------------------------------------------------------

  // The buffered path: nested token details win over top-level ones.
  function ResponsesUsage(value: Option<ProviderUsage>): Usage {
    match value
    case None => Usage(0, 0, 0, 0, 0)
    case Some(u) =>
      Usage(u.promptTokens.GetOr(0), u.completionTokens.GetOr(0), u.promptTokens.GetOr(0) + u.completionTokens.GetOr(0),
            OrElse(u.promptCachedTokens, u.cachedTokens).GetOr(0),
            OrElse(u.completionReasoningTokens, u.reasoningTokens).GetOr(0))
  }

  function CallOutput(cfg: Config, index: nat, call: Messages.ToolCall): Item {
    var public := ResponsesFunctionCall(call.name, cfg.aliases);
    CallItem(CallId(cfg.requestId, index), Completed, call.id, public.name, public.namespace, call.arguments)
  }

  function CallOutputs(cfg: Config, calls: seq<Messages.ToolCall>): (items: seq<Item>)
    ensures |items| == |calls|
    ensures forall p | 0 <= p < |calls| :: items[p] == CallOutput(cfg, p, calls[p])
  {
    seq(|calls|, p requires 0 <= p < |calls| => CallOutput(cfg, p, calls[p]))
  }

  function BufferedOutput(cfg: Config, chat: Completion): seq<Item> {
    (if chat.content.Some? then [MessageItem(MessageId(cfg.requestId), Completed, chat.content)] else [])
    + CallOutputs(cfg, chat.calls)
  }

  function EncodeResponse(cfg: Config, jsonObject: string -> bool, chat: Completion): Option<Response> {
    if !Convertible(jsonObject, chat) then None else
    var created := if chat.created <= 0 then cfg.createdAt else chat.created;
    var status := if chat.finishReason == "length" then Incomplete else Completed;
    Some(Response(PublicId(cfg.requestId, chat.id), created, cfg.publicModel, status,
                  if chat.finishReason == "length" then Some("max_output_tokens") else None,
                  BufferedOutput(cfg, chat), Some(ResponsesUsage(chat.usage))))
  }

  // --- The conditions ---------------------------------------------------------------------

  // Text first if there is any, then tools 0, 1, 2, ... in that order.
  predicate Canonical(order: seq<Slot>) {
    var start := if TextSlot in order then 1 else 0;
    && (start == 1 ==> order[0] == TextSlot)
    && forall j | start <= j < |order| :: order[j] == ToolSlot(j - start)
  }

  predicate Agree(topLevel: Option<int>, nested: Option<int>) {
    topLevel.Some? && nested.Some? ==> topLevel == nested
  }

  predicate Unconflicted(usage: Option<ProviderUsage>) {
    usage.Some? ==>
      && Agree(usage.value.cachedTokens, usage.value.promptCachedTokens)
      && Agree(usage.value.reasoningTokens, usage.value.completionReasoningTokens)
  }

  // Every alias the Responses adapter declares has a namespace.
  predicate NamedAliases(aliases: Aliases) {
    forall name <- aliases :: aliases[name].namespace != ""
  }

  // --- Usage ------------------------------------------------------------------------------

  lemma UsageAgrees(providerId: string, chunks: seq<Chunk>)
    requires ConsumeAll(providerId, chunks).Some?
    ensures Unconflicted(LastUsage(chunks)) ==>
              UsageFromPlatform(ConsumeAll(providerId, chunks).value.usage) == ResponsesUsage(LastUsage(chunks))
    ensures UsageFromPlatform(ConsumeAll(providerId, chunks).value.usage) == ResponsesUsage(LastUsage(chunks)) ==>
              Unconflicted(LastUsage(chunks))
  {
    AccumulatedUsage(providerId, chunks);
  }

  // --- Output -----------------------------------------------------------------------------

  lemma ToolKeys(s: State, order: seq<Slot>)
    requires Ordered(s, order)
    ensures ToolIndices(order) == s.tools.Keys
    ensures TextSlot in order <==> s.textStarted
  {
    forall i <- s.tools ensures i in ToolIndices(order) {
      assert order[s.tools[i].outputIndex] == ToolSlot(i);
    }
  }

  // A finished tool is the buffered item of the assembled call, but for the index in its id.
  lemma ToolAgrees(cfg: Config, s: State, pieces: seq<Piece>, i: int, p: nat)
    requires Tracks(cfg, s, pieces) && NamedAliases(cfg.aliases) && i in s.tools
    ensures ToolItem(s.tools[i], Completed) == CallOutput(cfg, p, AssembledCall(pieces, i)) <==> i == p
    ensures ToolItem(s.tools[i], Completed).id == CallId(cfg.requestId, i)
  {
    assert ToolTracks(cfg, s.tools[i], Opening(pieces, ToolSlot(i)).call, Payload(pieces, ToolSlot(i)));
  }

  lemma CanonicalKeys(s: State, order: seq<Slot>, p: nat)
    requires Ordered(s, order) && Canonical(order) && p < |s.tools|
    ensures p < |SortedKeys(ToolIndices(order))| && SortedKeys(ToolIndices(order))[p] == p
  {
    ToolKeys(s, order);
    var keys := SortedKeys(s.tools.Keys);
    forall k | 0 <= k < |keys| ensures 0 <= keys[k] < |keys| {
      assert order[s.tools[keys[k]].outputIndex] == ToolSlot(keys[k]);
    }
    SortedRange(keys, p);
  }

  lemma AssembledShape(chunks: seq<Chunk>, created: int, s: State)
    requires Ordered(s, Appearances(Pieces(chunks)))
    ensures var order := Appearances(Pieces(chunks));
            var chat := Assemble(chunks, created);
            && (chat.content.Some? <==> TextSlot in order)
            && (chat.content.Some? ==> chat.content.value == Payload(Pieces(chunks), TextSlot))
            && |chat.calls| == |SortedKeys(ToolIndices(order))|
            && |order| == |chat.calls| + (if TextSlot in order then 1 else 0)
  {
    ToolKeys(s, Appearances(Pieces(chunks)));
  }

  lemma CanonicalCall(cfg: Config, chunks: seq<Chunk>, created: int, s: State, p: nat)
    requires Tracks(cfg, s, Pieces(chunks)) && NamedAliases(cfg.aliases)
    requires Canonical(Appearances(Pieces(chunks))) && p < |Assemble(chunks, created).calls|
    ensures p in s.tools && CallOutput(cfg, p, Assemble(chunks, created).calls[p]) == ToolItem(s.tools[p], Completed)
  {
    var order := Appearances(Pieces(chunks));
    ToolKeys(s, order);
    CanonicalKeys(s, order, p);
    ToolAgrees(cfg, s, Pieces(chunks), p, p);
  }

  lemma BufferedAt(cfg: Config, chat: Completion, j: nat)
    ensures var start := if chat.content.Some? then 1 else 0;
            && |BufferedOutput(cfg, chat)| == start + |chat.calls|
            && (j < start ==> BufferedOutput(cfg, chat)[j] == MessageItem(MessageId(cfg.requestId), Completed, chat.content))
            && (start <= j < start + |chat.calls| ==>
                  BufferedOutput(cfg, chat)[j] == CallOutput(cfg, j - start, chat.calls[j - start]))
  {
    hide CallOutput;
  }

  // What the assembled completion shares with the encoder's state.
  predicate Matches(cfg: Config, s: State, order: seq<Slot>, chat: Completion) {
    && |order| == |chat.calls| + (if TextSlot in order then 1 else 0)
    && (chat.content == if TextSlot in order then Some(s.text) else None)
  }

  lemma CanonicalAt(cfg: Config, s: State, order: seq<Slot>, chat: Completion, j: nat)
    requires Ordered(s, order) && Canonical(order) && Matches(cfg, s, order, chat)
    requires forall p | 0 <= p < |chat.calls| ::
               p in s.tools && CallOutput(cfg, p, chat.calls[p]) == ToolItem(s.tools[p], Completed)
    requires j < |order|
    ensures j < |BufferedOutput(cfg, chat)| && DoneItems(cfg, s, order)[j] == BufferedOutput(cfg, chat)[j]
  {
    hide CallOutput, ToolItem, BufferedOutput, Ordered;
    BufferedAt(cfg, chat, j);
  }

  lemma AssembledMatches(cfg: Config, chunks: seq<Chunk>, created: int, s: State)
    requires Tracks(cfg, s, Pieces(chunks))
    ensures Ordered(s, Appearances(Pieces(chunks)))
    ensures Matches(cfg, s, Appearances(Pieces(chunks)), Assemble(chunks, created))
  {
    AssembledShape(chunks, created, s);
    hide Assemble, ToolTracks, Ordered;
  }

  lemma CanonicalOutput(cfg: Config, chunks: seq<Chunk>, created: int, s: State)
    requires Tracks(cfg, s, Pieces(chunks)) && NamedAliases(cfg.aliases)
    requires Canonical(Appearances(Pieces(chunks)))
    ensures Ordered(s, Appearances(Pieces(chunks)))
    ensures DoneItems(cfg, s, Appearances(Pieces(chunks))) == BufferedOutput(cfg, Assemble(chunks, created))
  {
    hide *;
    AssembledMatches(cfg, chunks, created, s);
    var order := Appearances(Pieces(chunks));
    var chat := Assemble(chunks, created);
    forall p | 0 <= p < |chat.calls|
      ensures p in s.tools && CallOutput(cfg, p, chat.calls[p]) == ToolItem(s.tools[p], Completed)
    {
      CanonicalCall(cfg, chunks, created, s, p);
    }
    CanonicalItems(cfg, s, order, chat);
  }

  lemma CanonicalItems(cfg: Config, s: State, order: seq<Slot>, chat: Completion)
    requires Ordered(s, order) && Canonical(order) && Matches(cfg, s, order, chat)
    requires forall p | 0 <= p < |chat.calls| ::
               p in s.tools && CallOutput(cfg, p, chat.calls[p]) == ToolItem(s.tools[p], Completed)
    ensures DoneItems(cfg, s, order) == BufferedOutput(cfg, chat)
  {
    hide *;
    var done := DoneItems(cfg, s, order);
    var buffered := BufferedOutput(cfg, chat);
    assert |done| == |buffered| by {
      BufferedLength(cfg, s, order, chat);
    }
    forall j | 0 <= j < |order| ensures done[j] == buffered[j] {
      CanonicalAt(cfg, s, order, chat, j);
    }
  }

  lemma BufferedLength(cfg: Config, s: State, order: seq<Slot>, chat: Completion)
    requires Matches(cfg, s, order, chat)
    ensures |BufferedOutput(cfg, chat)| == |order|
  {
    hide CallOutput;
  }

  // The slot behind an item of the output is the one its id names.
  lemma SlotOfId(cfg: Config, s: State, pieces: seq<Piece>, slot: Slot)
    requires Tracks(cfg, s, pieces) && Holds(s, slot)
    ensures DoneItem(cfg, s, slot).id == match slot
                                         case TextSlot => MessageId(cfg.requestId)
                                         case ToolSlot(i) => CallId(cfg.requestId, i)
  {
  }

  lemma CanonicalFrom(cfg: Config, s: State, order: seq<Slot>, chat: Completion, j: nat)
    requires Ordered(s, order) && Matches(cfg, s, order, chat)
    requires DoneItems(cfg, s, order) == BufferedOutput(cfg, chat)
    requires forall k | 0 <= k < |order| ::
               Holds(s, order[k]) &&
               DoneItem(cfg, s, order[k]).id == match order[k]
                                                case TextSlot => MessageId(cfg.requestId)
                                                case ToolSlot(i) => CallId(cfg.requestId, i)
    requires j < |order|
    ensures var start := if TextSlot in order then 1 else 0;
            order[j] == if j < start then TextSlot else ToolSlot(j - start)
  {
    assert DoneItems(cfg, s, order)[j] == DoneItem(cfg, s, order[j]);
    hide ToolItem, BufferedOutput, Ordered, DoneItems, DoneItem, Holds;
    BufferedAt(cfg, chat, j);
  }

  lemma OutputCanonical(cfg: Config, chunks: seq<Chunk>, created: int, s: State)
    requires Tracks(cfg, s, Pieces(chunks)) && Ordered(s, Appearances(Pieces(chunks)))
    requires DoneItems(cfg, s, Appearances(Pieces(chunks))) == BufferedOutput(cfg, Assemble(chunks, created))
    ensures Canonical(Appearances(Pieces(chunks)))
  {
    hide *;
    AssembledMatches(cfg, chunks, created, s);
    var order := Appearances(Pieces(chunks));
    var chat := Assemble(chunks, created);
    forall k | 0 <= k < |order|
      ensures Holds(s, order[k])
      ensures DoneItem(cfg, s, order[k]).id == match order[k]
                                               case TextSlot => MessageId(cfg.requestId)
                                               case ToolSlot(i) => CallId(cfg.requestId, i)
    {
      OrderedHolds(s, order, k);
      SlotOfId(cfg, s, Pieces(chunks), order[k]);
    }
    forall j | 0 <= j < |order|
      ensures order[j] == if j < (if TextSlot in order then 1 else 0) then TextSlot
                          else ToolSlot(j - if TextSlot in order then 1 else 0)
    {
      CanonicalFrom(cfg, s, order, chat, j);
    }
    CanonicalIf(order);
  }

  lemma OrderedHolds(s: State, order: seq<Slot>, k: nat)
    requires Ordered(s, order) && k < |order|
    ensures Holds(s, order[k])
  {
  }

  lemma CanonicalIf(order: seq<Slot>)
    requires forall j | 0 <= j < |order| ::
               order[j] == if j < (if TextSlot in order then 1 else 0) then TextSlot
                           else ToolSlot(j - if TextSlot in order then 1 else 0)
    ensures Canonical(order)
  {
  }

  // --- The rest of the response -----------------------------------------------------------

  lemma {:induction false} StreamReason(cfg: Config, chunks: seq<Chunk>)
    requires EncodeAll(cfg, chunks).result.Ok?
    ensures EncodeAll(cfg, chunks).state.finishReason == LastReason(chunks)
    ensures chunks != [] ==>
              EncodeAll(cfg, chunks).state.responseId
              == PublicId(cfg.requestId, chunks[0].id)
    ensures EncodeAll(cfg, chunks).state.started <==> chunks != []
  {
    if chunks != [] {
      var front := chunks[..|chunks| - 1];
      StreamReason(cfg, front);
      ChunkReason(cfg, EncodeAll(cfg, front).state, chunks[|chunks| - 1]);
    }
  }

  lemma {:induction false} CallsKeepReason(cfg: Config, s: State, calls: seq<ToolCallDelta>)
    ensures var t := EncodeCalls(cfg, s, calls).state;
            t.finishReason == s.finishReason && t.responseId == s.responseId && t.started == s.started
    decreases |calls|
  {
    if calls != [] {
      var first := EncodeCall(cfg, s, calls[0]);
      if first.result.Ok? {
        CallsKeepReason(cfg, first.state, calls[1..]);
      }
    }
  }

  lemma ChunkReason(cfg: Config, s: State, chunk: Chunk)
    requires Encode(cfg, s, chunk).result.Ok?
    ensures var t := Encode(cfg, s, chunk).state;
            var reason := DecodeTranslated(chunk).value.finishReason;
            && t.started
            && t.finishReason == (if reason.Reason? then reason.text else s.finishReason)
            && t.responseId == (if s.started then s.responseId
                                else PublicId(cfg.requestId, chunk.id))
  {
    var start := Start(cfg, s, chunk);
    var d := DecodeTranslated(chunk).value;
    var text := EncodeText(cfg, TakeReason(start.state, d.finishReason), d.content);
    CallsKeepReason(cfg, text.state, d.calls);
  }

  lemma FinishFields(cfg: Config, jsonObject: string -> bool, s: State, usage: TokenUsage)
    requires Finish(cfg, jsonObject, s, usage).result.Ok?
    ensures var events := Finish(cfg, jsonObject, s, usage).result.value;
            && |events| > 0
            && var r := Last(events);
            && r.id == s.responseId && r.usage == Some(UsageFromPlatform(usage))
            && r.createdAt == cfg.createdAt && r.model == cfg.publicModel
            && r.status == (if s.finishReason == "length" then Incomplete else Completed)
            && r.incompleteReason == (if s.finishReason == "length" then Some("max_output_tokens") else None)
  {
    hide FinishResponse, FinishTools, UsageFromPlatform;
    var text := FinishText(cfg, s);
    var keys := SortedKeys(s.tools.Keys);
    FinishToolsKeep(jsonObject, text.state, keys);
    var tools := After(text, FinishTools(jsonObject, text.state, keys));
    ResponseFields(cfg, tools.state, usage);
    var last := FinishResponse(cfg, tools.state, usage).result.value;
    assert Finish(cfg, jsonObject, s, usage).result.value == tools.result.value + last;
  }

  lemma ResponseFields(cfg: Config, s: State, usage: TokenUsage)
    requires FinishResponse(cfg, s, usage).result.Ok?
    ensures var events := FinishResponse(cfg, s, usage).result.value;
            && |events| > 0
            && var r := Last(events);
            && r.id == s.responseId && r.usage == Some(UsageFromPlatform(usage))
            && r.createdAt == cfg.createdAt && r.model == cfg.publicModel
            && r.status == (if s.finishReason == "length" then Incomplete else Completed)
            && r.incompleteReason == (if s.finishReason == "length" then Some("max_output_tokens") else None)
  {
    hide SortByIndex, UsageFromPlatform;
  }

  lemma TerminalFields(cfg: Config, jsonObject: string -> bool, chunks: seq<Chunk>, usage: TokenUsage)
    requires Translate(cfg, jsonObject, chunks, usage).result.Ok?
    ensures EncodeAll(cfg, chunks).result.Ok?
    ensures Finish(cfg, jsonObject, EncodeAll(cfg, chunks).state, usage).result.Ok?
    ensures var trace := Translate(cfg, jsonObject, chunks, usage).result.value;
            var ending := Finish(cfg, jsonObject, EncodeAll(cfg, chunks).state, usage).result.value;
            |ending| > 0 ==> |trace| > 0 && Last(trace) == Last(ending)
  {
    hide EncodeAll, Finish;
  }

  function Last(trace: seq<Event>): Response
    requires |trace| > 0
  {
    var body := trace[|trace| - 1].body;
    if body.ResponseEnded? then body.response else Response("", 0, "", InProgress, None, [], None)
  }

  predicate AllParse(jsonObject: string -> bool, tools: map<int, Tool>, indices: seq<int>)
    requires forall k | 0 <= k < |indices| :: indices[k] in tools
  {
    forall k | 0 <= k < |indices| :: jsonObject(tools[indices[k]].arguments)
  }

  lemma {:induction false} FinishedToolsParse(jsonObject: string -> bool, s: State, indices: seq<int>)
    requires forall k | 0 <= k < |indices| :: indices[k] in s.tools
    ensures FinishTools(jsonObject, s, indices).result.Ok? <==> AllParse(jsonObject, s.tools, indices)
    decreases |indices|
  {
    if indices != [] {
      var first := FinishTool(jsonObject, s, indices[0]);
      if first.result.Ok? {
        FinishedToolsParse(jsonObject, first.state, indices[1..]);
        assert forall k | 0 < k < |indices| :: indices[1..][k - 1] == indices[k];
      }
    }
  }

  function ToolArguments(tools: map<int, Tool>): (arguments: map<int, string>)
    ensures arguments.Keys == tools.Keys
    ensures forall i <- tools :: arguments[i] == tools[i].arguments
    ensures arguments == map[] <==> tools == map[]
  {
    assert tools == map[] <==> tools.Keys == {};
    map i | i in tools :: tools[i].arguments
  }

  // What an encoder's state must be for its stream to finish.
  predicate Finishable(jsonObject: string -> bool, s: State) {
    && AllObjects(jsonObject, ToolArguments(s.tools))
    && (s.textStarted || ToolArguments(s.tools) != map[])
  }

  lemma FinishAccepts(cfg: Config, jsonObject: string -> bool, s: State, usage: TokenUsage)
    requires s.started
    ensures Finish(cfg, jsonObject, s, usage).result.Ok? <==> Finishable(jsonObject, s) && s.finishReason in {"length", "stop", "tool_calls"}
  {
    hide FinishResponse, FinishTools, SortedKeys, Number, Finishable, AllParse;
    var text := FinishText(cfg, s);
    var keys := SortedKeys(s.tools.Keys);
    assert text.result.Ok? && text.state == s.(sequence := text.state.sequence);
    FinishToolsKeep(jsonObject, text.state, keys);
    FinishedToolsParse(jsonObject, text.state, keys);
    var tools := FinishTools(jsonObject, text.state, keys);
    assert tools.state == s.(sequence := tools.state.sequence);
    ResponseAccepts(cfg, tools.state, usage);
    KeysFinishable(jsonObject, s);
    assert Finish(cfg, jsonObject, s, usage).result.Ok? <==> tools.result.Ok? && FinishResponse(cfg, tools.state, usage).result.Ok?;
  }

  lemma KeysFinishable(jsonObject: string -> bool, s: State)
    ensures Finishable(jsonObject, s)
            <==> AllParse(jsonObject, s.tools, SortedKeys(s.tools.Keys)) && (s.textStarted || s.tools != map[])
  {
    hide SortedKeys;
    var keys := SortedKeys(s.tools.Keys);
    var arguments := ToolArguments(s.tools);
    if AllParse(jsonObject, s.tools, keys) {
      forall i <- arguments
        ensures jsonObject(arguments[i])
      {
        SortedKeysComplete(s.tools.Keys, i);
        var k :| 0 <= k < |keys| && keys[k] == i;
      }
    }
    if AllObjects(jsonObject, arguments) {
      forall k | 0 <= k < |keys|
        ensures jsonObject(s.tools[keys[k]].arguments)
      {
        assert keys[k] in arguments;
      }
    }
  }

  lemma ResponseAccepts(cfg: Config, s: State, usage: TokenUsage)
    ensures FinishResponse(cfg, s, usage).result.Ok?
            <==> (s.textStarted || s.tools != map[]) && s.finishReason in {"length", "stop", "tool_calls"}
  {
    hide SortByIndex, UsageFromPlatform;
    assert s.tools == map[] <==> s.tools.Keys == {};
  }

  lemma AssembledTool(cfg: Config, s: State, pieces: seq<Piece>, i: int)
    requires Tracks(cfg, s, pieces) && i in s.tools
    ensures ToolSlot(i) in Appearances(pieces) && ListedCall(AssembledCall(pieces, i), s.tools[i].arguments)
  {
    hide Ordered, Opening, Payload, Appearances, ValidToolCallId, ValidToolName;
    assert ToolTracks(cfg, s.tools[i], Opening(pieces, ToolSlot(i)).call, Payload(pieces, ToolSlot(i)));
  }

  lemma AssembledTools(cfg: Config, chunks: seq<Chunk>, created: int, s: State)
    requires Tracks(cfg, s, Pieces(chunks))
    ensures Lists(Assemble(chunks, created), s.textStarted, ToolArguments(s.tools))
  {
    hide Tracks, Ordered, Payload, Appearances, ListedCall, AssembledCall, ToolIndices, SortedKeys, Pieces, LastReason, LastUsage;
    var pieces := Pieces(chunks);
    TracksOrdered(cfg, s, pieces);
    ToolKeys(s, Appearances(pieces));
    var keys := SortedKeys(s.tools.Keys);
    var calls := Assemble(chunks, created).calls;
    assert |calls| == |keys|;
    forall p | 0 <= p < |calls|
      ensures keys[p] in s.tools && ListedCall(calls[p], s.tools[keys[p]].arguments)
    {
      AssembledTool(cfg, s, pieces, keys[p]);
    }
  }

  lemma AssembledConvertible(cfg: Config, jsonObject: string -> bool, chunks: seq<Chunk>, created: int, s: State)
    requires Tracks(cfg, s, Pieces(chunks))
    ensures Convertible(jsonObject, Assemble(chunks, created)) <==> Finishable(jsonObject, s)
  {
    hide Tracks, Assemble, Pieces, Lists, Convertible;
    AssembledTools(cfg, chunks, created, s);
    ListsConvertible(jsonObject, Assemble(chunks, created), s.textStarted, ToolArguments(s.tools));
  }

  // --- The theorems -----------------------------------------------------------------------

  // A stream whose chunks were all encoded finishes exactly when the completion it assembles to is
  // one the buffered encoder takes and its last finish reason is known; the buffered encoder takes
  // any finish reason.
  lemma StreamingAcceptsBuffered(cfg: Config, jsonObject: string -> bool, chunks: seq<Chunk>, created: int, usage: TokenUsage)
    requires EncodeAll(cfg, chunks).result.Ok? && chunks != []
    ensures Translate(cfg, jsonObject, chunks, usage).result.Ok?
            <==> EncodeResponse(cfg, jsonObject, Assemble(chunks, created)).Some? && LastReason(chunks) in {"length", "stop", "tool_calls"}
  {
    hide EncodeAll, Tracks, Finish, Convertible, Assemble, BufferedOutput, Finishable, LastReason;
    var s := EncodeAll(cfg, chunks).state;
    StreamAgrees(cfg, chunks);
    StreamReason(cfg, chunks);
    FinishAccepts(cfg, jsonObject, s, usage);
    AssembledConvertible(cfg, jsonObject, chunks, created, s);
  }

  // A finished stream and the completion it assembles to give the same response: always in id,
  // model, status and incomplete_details; in created_at exactly when the completion has no time of
  // its own or it is the gateway's; in output exactly when items appear in canonical order; in usage
  // exactly when the last report's top-level and nested details do not contradict.
  lemma StreamingRefinesBuffered(cfg: Config, jsonObject: string -> bool, providerId: string, chunks: seq<Chunk>, created: int)
    requires NamedAliases(cfg.aliases)
    requires ConsumeAll(providerId, chunks).Some?
    requires Translate(cfg, jsonObject, chunks, ConsumeAll(providerId, chunks).value.usage).result.Ok?
    ensures |Translate(cfg, jsonObject, chunks, ConsumeAll(providerId, chunks).value.usage).result.value| > 0
    ensures EncodeResponse(cfg, jsonObject, Assemble(chunks, created)).Some?
    ensures var streamed := Last(Translate(cfg, jsonObject, chunks, ConsumeAll(providerId, chunks).value.usage).result.value);
            var buffered := EncodeResponse(cfg, jsonObject, Assemble(chunks, created)).value;
            && streamed.(createdAt := 0, output := [], usage := None) == buffered.(createdAt := 0, output := [], usage := None)
            && (streamed.createdAt == buffered.createdAt <==> created <= 0 || created == cfg.createdAt)
            && (streamed.output == buffered.output <==> Canonical(Appearances(Pieces(chunks))))
            && (streamed.usage == buffered.usage <==> Unconflicted(LastUsage(chunks)))
  {
    hide Translate, Tracks, Canonical, Appearances, Pieces, DoneItems, BufferedOutput, Unconflicted, ResponsesUsage, Convertible, ConsumeAll, EncodeAll, Ordered, Finish;
    var usage := ConsumeAll(providerId, chunks).value.usage;
    var s := EncodeAll(cfg, chunks).state;
    TranslateNeedsStart(cfg, jsonObject, chunks, usage);
    FinishedStreamAccepted(cfg, jsonObject, chunks, usage);
    TerminalFields(cfg, jsonObject, chunks, usage);
    FinishFields(cfg, jsonObject, s, usage);
    StreamReason(cfg, chunks);
    StreamingAcceptsBuffered(cfg, jsonObject, chunks, created, usage);
    UsageAgrees(providerId, chunks);
    if Canonical(Appearances(Pieces(chunks))) {
      CanonicalOutput(cfg, chunks, created, s);
    }
    assert Ordered(s, Appearances(Pieces(chunks))) by {
      TracksOrdered(cfg, s, Pieces(chunks));
    }
    if DoneItems(cfg, s, Appearances(Pieces(chunks))) == BufferedOutput(cfg, Assemble(chunks, created)) {
      OutputCanonical(cfg, chunks, created, s);
    }
  }

  lemma TracksOrdered(cfg: Config, s: State, pieces: seq<Piece>)
    requires Tracks(cfg, s, pieces)
    ensures Ordered(s, Appearances(pieces))
  {
  }

  lemma TranslateNeedsStart(cfg: Config, jsonObject: string -> bool, chunks: seq<Chunk>, usage: TokenUsage)
    requires Translate(cfg, jsonObject, chunks, usage).result.Ok?
    ensures chunks != []
  {
  }

  // --- A stream that finishes -------------------------------------------------------------

  lemma GreetingEncodes(cfg: Config)
    ensures var step := Encode(cfg, INITIAL, GREETING);
            && step.result.Ok? && step.state.started && step.state.textStarted && step.state.tools == map[]
            && step.state.finishReason == "stop"
  {
    SaysOne(Delta("assistant", Some("Hi"), None), Reason("stop"));
    hide DecodeTranslated, Number;
  }

  // One chunk of text that stops is a whole stream.
  lemma GreetingFinishes(cfg: Config, jsonObject: string -> bool)
    ensures Translate(cfg, jsonObject, [GREETING], NO_USAGE).result.Ok?
    ensures ConsumeAll("", [GREETING]).Some?
  {
    GreetingEncodes(cfg);
    SaysOne(Delta("assistant", Some("Hi"), None), Reason("stop"));
    hide Encode, SortByIndex, ConsumeAll, DecodeTranslated;
    assert [GREETING][..0] == [];
    assert EncodeAll(cfg, []) == Step(INITIAL, Ok([]));
    var step := EncodeAll(cfg, [GREETING]);
    assert step.result.Ok? && step.state == Encode(cfg, INITIAL, GREETING).state;
    assert SortedKeys(step.state.tools.Keys) == [];
  }

  // --- Streams on which the two part ------------------------------------------------------

  // One report whose top-level and nested details contradict is read differently by the two.
  lemma ConflictingUsageParts()
    ensures !Unconflicted(Some(CONFLICT)) && ParseProviderUsage(CONFLICT).Some?
    ensures UsageFromPlatform(ParseProviderUsage(CONFLICT).value.0).cached == 1 && ResponsesUsage(Some(CONFLICT)).cached == 2
  {
  }

  // A call before any text streams as the first item, but is buffered after the text.
  lemma CallBeforeTextParts(call: ToolCallDelta, text: string)
    ensures !Canonical(Appearances([CallPiece(call), TextPiece(text)]))
  {
    CallBeforeText(call, text);
  }

  lemma LookupEncodes(cfg: Config, s: State)
    requires s.tools == map[]
    ensures var step := EncodeCalls(cfg, s, [LOOKUP]);
            step.result.Ok? && step.state.started == s.started && step.state.tools.Keys == {0} && step.state.tools[0].arguments == "{}"
  {
    LookupNames();
    hide ValidToolCallId, ValidToolName, Number, ResponsesFunctionCall;
    var step := EncodeCall(cfg, s, LOOKUP);
    assert "" + "{}" == "{}";
    assert step.result.Ok? && step.state.tools.Keys == {0};
    assert [LOOKUP][1..] == [];
    assert EncodeCalls(cfg, step.state, []) == Step(step.state, Ok([]));
  }

  lemma PartingEncodes(cfg: Config)
    ensures var step := EncodeAll(cfg, PARTING);
            && step.result.Ok? && step.state.started && step.state.textStarted && step.state.finishReason == "tool_calls"
            && step.state.tools.Keys == {0} && step.state.tools[0].arguments == "{}"
  {
    PartingDecodes();
    PartingPrefixes();
    hide DecodeTranslated, Number, EncodeCalls, PublicId;
    assert EncodeAll(cfg, []) == Step(INITIAL, Ok([]));
    LookupEncodes(cfg, Start(cfg, INITIAL, LOOKS_UP).state);
    var first := EncodeAll(cfg, [LOOKS_UP]);
    assert first.result.Ok?;
    NoCalls(cfg, EncodeText(cfg, first.state.(finishReason := "tool_calls"), "Hi").state);
    var second := EncodeAll(cfg, [LOOKS_UP, SPEAKS]);
    assert second.result.Ok?;
    NoCalls(cfg, second.state);
  }

  lemma NoCalls(cfg: Config, s: State)
    ensures EncodeCalls(cfg, s, []) == Step(s, Ok([]))
  {
  }

  // A finished stream that calls a tool before it speaks and ends with a conflicting report: streamed
  // and buffered differ in output and in usage.
  lemma PartingStream(cfg: Config, jsonObject: string -> bool, created: int)
    requires NamedAliases(cfg.aliases) && jsonObject("{}")
    ensures var chunks := PARTING;
            && ConsumeAll("", chunks).Some?
            && var translated := Translate(cfg, jsonObject, chunks, ConsumeAll("", chunks).value.usage).result;
               && translated.Ok? && |translated.value| > 0
               && var buffered := EncodeResponse(cfg, jsonObject, Assemble(chunks, created));
                  && buffered.Some?
                  && Last(translated.value).output != buffered.value.output
                  && Last(translated.value).usage != buffered.value.usage
  {
    hide *;
    var chunks := PARTING;
    PartingConsumed();
    PartingEncodes(cfg);
    PartingPieces();
    ConflictingUsageParts();
    CallBeforeTextParts(LOOKUP, "Hi");
    var usage := ConsumeAll("", chunks).value.usage;
    PartingFinishes(cfg, jsonObject, EncodeAll(cfg, chunks).state, usage);
    FinishTranslates(cfg, jsonObject, chunks, usage);
    StreamingRefinesBuffered(cfg, jsonObject, "", chunks, created);
  }

  lemma PartingFinishes(cfg: Config, jsonObject: string -> bool, s: State, usage: TokenUsage)
    requires jsonObject("{}") && s.started && s.textStarted && s.finishReason == "tool_calls"
    requires s.tools.Keys == {0} && s.tools[0].arguments == "{}"
    ensures Finish(cfg, jsonObject, s, usage).result.Ok?
  {
    hide Finish;
    FinishAccepts(cfg, jsonObject, s, usage);
  }

  lemma FinishTranslates(cfg: Config, jsonObject: string -> bool, chunks: seq<Chunk>, usage: TokenUsage)
    requires EncodeAll(cfg, chunks).result.Ok? && Finish(cfg, jsonObject, EncodeAll(cfg, chunks).state, usage).result.Ok?
    ensures Translate(cfg, jsonObject, chunks, usage).result.Ok?
  {
    hide EncodeAll, Finish;
  }
}
