/**
 What the client of a finished Anthropic stream holds, and which streams finish, said of the raw chunks
 alone: their text, their call fragments, their last finish reason and their last report.
 */
module AnthropicFromChunks {
  import opened Wrappers
  import opened StreamChunks
  import opened RawStreams
  import opened EncoderSteps
  import opened EncodableStreams
  import opened Completions
  import opened AnthropicStream
  import opened AnthropicTrace
  import AB = AnthropicBuffered
  import AE = AnthropicEncodable

  // --- Which fragments fit ----------------------------------------------------------------

  // The first fragment of a tool brings a valid id and name; the others bring what they like.
  predicate FragmentsFit(fragments: seq<ToolCallDelta>) {
    forall fragment <- fragments ::
      && HasIndex(fragments, fragment.index)
      && var first := FirstOf(fragments, fragment.index);
         IdAllowed(first.id) && first.func.Some? && NameAllowed(first.func.value.name)
  }

  lemma FragmentsFitSnoc(fragments: seq<ToolCallDelta>, fragment: ToolCallDelta)
    ensures FragmentsFit(fragments + [fragment])
            <==> && FragmentsFit(fragments)
                 && (!HasIndex(fragments, fragment.index) ==>
                       IdAllowed(fragment.id) && fragment.func.Some? && NameAllowed(fragment.func.value.name))
  {
    hide IdAllowed, NameAllowed, FirstOf;
    var longer := fragments + [fragment];
    forall f <- longer
      ensures HasIndex(longer, f.index)
      ensures FirstOf(longer, f.index) == if HasIndex(fragments, f.index) then FirstOf(fragments, f.index) else fragment
    {
      FirstOfSnoc(fragments, fragment, f.index);
    }
    assert fragment in longer;
    forall f <- fragments
      ensures f in longer && HasIndex(fragments, f.index)
    {
    }
    if HasIndex(fragments, fragment.index) {
      var f :| f in fragments && f.index == fragment.index;
      assert f in longer;
    }
  }

  lemma {:induction false} PiecesFit(pieces: seq<Piece>)
    ensures FitBehind(AE.Fits, [], pieces) <==> FragmentsFit(CallsOf(pieces))
  {
    hide FitBehind, FragmentsFit, CallsOf, AE.Fits;
    if pieces == [] {
      FitNone(AE.Fits, []);
      NothingFits();
    } else {
      var front, last := pieces[..|pieces| - 1], pieces[|pieces| - 1];
      PiecesFit(front);
      FitConcat(AE.Fits, [], front, [last]);
      assert front + [last] == pieces && [] + front == front;
      FitOne(AE.Fits, front, last);
      CallsSnoc(front, last);
      PieceFits(front, last);
      if last.CallPiece? {
        FragmentsFitSnoc(CallsOf(front), last.call);
      }
    }
  }

  lemma NothingFits()
    ensures CallsOf([]) == [] && FragmentsFit(CallsOf([]))
  {
  }

  lemma PieceFits(before: seq<Piece>, p: Piece)
    ensures p.TextPiece? ==> AE.Fits(before, p) && CallsOf(before) + [] == CallsOf(before)
    ensures p.CallPiece? ==>
              (AE.Fits(before, p)
               <==> (!HasIndex(CallsOf(before), p.call.index) ==>
                       IdAllowed(p.call.id) && p.call.func.Some? && NameAllowed(p.call.func.value.name)))
  {
    hide Opens, IdAllowed, NameAllowed, HasIndex, CallsOf, Appearances;
    if p.CallPiece? {
      ToolHolds(before, p.call.index);
      OpensIs(p.call);
    }
  }

  // The encoder takes a stream exactly when every chunk is translatable and every tool is opened.
  lemma EncodesWhen(cfg: Config, chunks: seq<Chunk>)
    ensures EncodeAll(cfg, chunks).result.Ok?
            <==> (forall chunk <- chunks :: Translatable(chunk)) && FragmentsFit(Fragments(chunks))
  {
    hide FitBehind, FragmentsFit, Decodes, Translatable, Pieces, Fragments, EncodeAll, AE.Fits;
    AE.EncodesExactly(cfg, chunks);
    forall chunk <- chunks
      ensures Decodes(chunk) <==> Translatable(chunk)
    {
      TranslatableIs(chunk);
    }
    PiecesFit(Pieces(chunks));
    if forall chunk <- chunks :: Translatable(chunk) {
      PiecesHold(chunks);
    }
  }

  lemma StateHolds(cfg: Config, chunks: seq<Chunk>)
    requires EncodeAll(cfg, chunks).result.Ok? && chunks != []
    ensures var s := EncodeAll(cfg, chunks).state;
            && s.started && Tracks(s, Pieces(chunks)) && (forall chunk <- chunks :: Translatable(chunk))
            && (forall i :: i in s.tools <==> HasIndex(Fragments(chunks), i))
            && (forall i <- s.tools :: s.tools[i].arguments == ArgumentsOf(Fragments(chunks), i))
            && s.finishReason == LastStated(chunks)
  {
    hide EncodeAll, Translatable, TextSaid, Fragments, Pieces, HasIndex, ArgumentsOf, Payload, Appearances, View, FragmentsFit, LastReason, LastStated, Strays;
    EncodesWhen(cfg, chunks);
    StreamAgrees(cfg, chunks);
    AB.StreamReason(cfg, chunks);
    LastReasonIs(chunks);
    var s := EncodeAll(cfg, chunks).state;
    AB.ToolKeys(s, Appearances(Pieces(chunks)));
    forall i
      ensures i in s.tools <==> HasIndex(Fragments(chunks), i)
      ensures i in s.tools ==> s.tools[i].arguments == ArgumentsOf(Fragments(chunks), i)
    {
      PiecesSay(chunks, i);
      assert i in ToolIndices(Appearances(Pieces(chunks))) <==> ToolSlot(i) in Appearances(Pieces(chunks));
    }
  }

  // A stream finishes exactly when there is a chunk, every chunk is translatable, every tool is opened,
  // its arguments are an object, and the last reason is known.
  lemma FinishesWhen(cfg: Config, jsonObject: string -> bool, chunks: seq<Chunk>, usage: TokenUsage)
    ensures Translate(cfg, jsonObject, chunks, usage).result.Ok?
            <==> && chunks != [] && (forall chunk <- chunks :: Translatable(chunk)) && FragmentsFit(Fragments(chunks))
                 && (forall fragment <- Fragments(chunks) :: jsonObject(ArgumentsOf(Fragments(chunks), fragment.index)))
                 && (LastStated(chunks) == "stop" || LastStated(chunks) == "length" || LastStated(chunks) == "tool_calls")
  {
    hide Translatable, FragmentsFit, TextSaid, Fragments, ArgumentsOf, LastStated, EncodeAll, Finish, Tracks, AllObjects;
    EncodesWhen(cfg, chunks);
    if EncodeAll(cfg, chunks).result.Ok? && chunks != [] {
      var s := EncodeAll(cfg, chunks).state;
      StateHolds(cfg, chunks);
      AB.FinishFields(jsonObject, s, usage);
      ObjectsWhen(jsonObject, s, chunks);
    }
    if chunks == [] {
      NothingFinishes(cfg, jsonObject, usage);
    }
  }

  lemma NothingFinishes(cfg: Config, jsonObject: string -> bool, usage: TokenUsage)
    ensures Translate(cfg, jsonObject, [], usage).result == Err(NeverStarted)
  {
  }

  lemma ObjectsWhen(jsonObject: string -> bool, s: State, chunks: seq<Chunk>)
    requires forall i :: i in s.tools <==> HasIndex(Fragments(chunks), i)
    requires forall i <- s.tools :: s.tools[i].arguments == ArgumentsOf(Fragments(chunks), i)
    ensures AllObjects(jsonObject, AB.ToolArguments(s.tools))
            <==> forall fragment <- Fragments(chunks) :: jsonObject(ArgumentsOf(Fragments(chunks), fragment.index))
  {
    hide Fragments, ArgumentsOf;
    var fragments, arguments := Fragments(chunks), AB.ToolArguments(s.tools);
    forall i <- s.tools
      ensures exists fragment <- fragments :: fragment.index == i
    {
      assert HasIndex(fragments, i);
    }
    forall fragment <- fragments
      ensures fragment.index in arguments
    {
      assert HasIndex(fragments, fragment.index);
    }
  }

  // Why a stream that was taken does not finish.
  lemma RefusedBecause(cfg: Config, jsonObject: string -> bool, chunks: seq<Chunk>, usage: TokenUsage)
    requires EncodeAll(cfg, chunks).result.Ok?
    ensures var result := Translate(cfg, jsonObject, chunks, usage).result;
            var objects := forall fragment <- Fragments(chunks) :: jsonObject(ArgumentsOf(Fragments(chunks), fragment.index));
            && (result == Err(NeverStarted) <==> chunks == [])
            && (result == Err(ArgumentsNotObject) <==> chunks != [] && !objects)
            && (result.Err? && chunks != [] && objects ==> result == Err(UnsupportedFinishReason(LastStated(chunks))))
  {
    hide Fragments, ArgumentsOf, LastStated, EncodeAll, Tracks, AllObjects;
    if chunks == [] {
      NothingFinishes(cfg, jsonObject, usage);
    } else {
      var s := EncodeAll(cfg, chunks).state;
      StateHolds(cfg, chunks);
      ObjectsWhen(jsonObject, s, chunks);
      FinishRefused(jsonObject, s, usage);
    }
  }

  lemma FinishRefused(jsonObject: string -> bool, s: State, usage: TokenUsage)
    requires s.started
    ensures var result := Finish(jsonObject, s, usage).result;
            && (result == Err(ArgumentsNotObject) <==> !AllObjects(jsonObject, AB.ToolArguments(s.tools)))
            && (result.Err? ==> result.error in {ArgumentsNotObject, UnsupportedFinishReason(s.finishReason)})
  {
    var arguments := AB.ToolArguments(s.tools);
    assert forall i <- s.tools :: arguments[i] == s.tools[i].arguments;
  }

  // --- What the client is told ------------------------------------------------------------

  // A block is the text, or a tool named by its first fragment with the arguments of all.
  predicate OwedBlock(chunks: seq<Chunk>, slot: Slot, b: ClientBlock) {
    match slot
    case TextSlot => b == ClientBlock(TextBlock, TextSaid(chunks))
    case ToolSlot(index) =>
      && HasIndex(Fragments(chunks), index)
      && var first := FirstOf(Fragments(chunks), index);
         first.func.Some? && b == ClientBlock(ToolUseBlock(first.id, first.func.value.name), ArgumentsOf(Fragments(chunks), index))
  }

  // There is one block for the text, if there is any, and one for each tool.
  predicate OwedBlocks(chunks: seq<Chunk>, slots: seq<Slot>, blocks: seq<ClientBlock>) {
    && OwedSlots(chunks, slots) && |blocks| == |slots|
    && forall j | 0 <= j < |slots| :: OwedBlock(chunks, slots[j], blocks[j])
  }

  // The message opens the trace; its stop reason and its output tokens close it.
  predicate Told(cfg: Config, chunks: seq<Chunk>, counts: TokenUsage, trace: seq<Event>) {
    && chunks != [] && |trace| >= 3
    && trace[0] == MessageStart(OwedId(cfg.requestId, chunks[0].id), cfg.publicModel)
    && trace[|trace| - 2].MessageDelta? && trace[|trace| - 1] == MessageStop
    && var ending := trace[|trace| - 2];
       && (LastStated(chunks) == "stop" <==> ending.stopReason == "end_turn")
       && (LastStated(chunks) == "length" <==> ending.stopReason == "max_tokens")
       && (LastStated(chunks) == "tool_calls" <==> ending.stopReason == "tool_use")
       && ending.outputTokens == if counts.output == None then 0 else counts.output.value
  }

  lemma Ending(jsonObject: string -> bool, s: State, usage: TokenUsage)
    requires Finish(jsonObject, s, usage).result.Ok?
    ensures var events := Finish(jsonObject, s, usage).result.value;
            && |events| >= 2 && events[|events| - 1] == MessageStop && events[|events| - 2].MessageDelta?
            && (s.finishReason == "stop" <==> events[|events| - 2].stopReason == "end_turn")
            && (s.finishReason == "length" <==> events[|events| - 2].stopReason == "max_tokens")
            && (s.finishReason == "tool_calls" <==> events[|events| - 2].stopReason == "tool_use")
            && events[|events| - 2].outputTokens == if usage.output == None then 0 else usage.output.value
  {
  }

  // Every finished stream opens with the message's id and ends with the reason and tokens of its chunks.
  lemma FinishedTells(cfg: Config, jsonObject: string -> bool, chunks: seq<Chunk>, counts: TokenUsage)
    requires Translate(cfg, jsonObject, chunks, counts).result.Ok?
    ensures Told(cfg, chunks, counts, Translate(cfg, jsonObject, chunks, counts).result.value)
  {
    hide EncodeAll, Finish, FragmentsFit, Translatable, Fragments, LastStated, ArgumentsOf, Tracks, LastReason, PublicId, OwedId;
    FinishesWhen(cfg, jsonObject, chunks, counts);
    var before := EncodeAll(cfg, chunks);
    StateHolds(cfg, chunks);
    AB.StreamReason(cfg, chunks);
    PublicIdIs(cfg.requestId, chunks[0].id);
    Ending(jsonObject, before.state, counts);
    assert Translate(cfg, jsonObject, chunks, counts).result.value == before.result.value + Finish(jsonObject, before.state, counts).result.value;
  }

  lemma CarriedOwed(chunks: seq<Chunk>, blocks: seq<ClientBlock>, j: nat)
    requires forall chunk <- chunks :: Translatable(chunk)
    requires Carries(blocks, Pieces(chunks)) && j < |blocks|
    ensures OwedBlock(chunks, Appearances(Pieces(chunks))[j], blocks[j])
  {
    hide Translatable, TextSaid, Fragments, Pieces, HasIndex, ArgumentsOf, Payload, Appearances, FirstOf, Opening;
    var slot := Appearances(Pieces(chunks))[j];
    PiecesSay(chunks, if slot.ToolSlot? then slot.index else 0);
  }

  // The client's blocks are what the chunks carried, however they were cut.
  lemma BlocksOwed(chunks: seq<Chunk>, blocks: seq<ClientBlock>)
    requires forall chunk <- chunks :: Translatable(chunk)
    requires Carries(blocks, Pieces(chunks))
    ensures OwedBlocks(chunks, Appearances(Pieces(chunks)), blocks)
  {
    hide Translatable, Pieces, Appearances, OwedBlock, OwedSlots, Payload;
    var slots := Appearances(Pieces(chunks));
    forall j | 0 <= j < |slots|
      ensures OwedBlock(chunks, slots[j], blocks[j])
    {
      CarriedOwed(chunks, blocks, j);
    }
    SlotsOwed(chunks);
  }

  // A client that took a finished stream holds the text and every tool's arguments.
  lemma FinishedHolds(cfg: Config, jsonObject: string -> bool, chunks: seq<Chunk>, counts: TokenUsage)
    requires Translate(cfg, jsonObject, chunks, counts).result.Ok?
    ensures var end := ReceiveAll(FRESH, Translate(cfg, jsonObject, chunks, counts).result.value);
            end.Some? && OwedBlocks(chunks, Appearances(Pieces(chunks)), end.value.blocks)
    ensures forall slot :: Payload(Pieces(chunks), slot) == OwedPayload(chunks, slot)
  {
    hide Payload, OwedPayload, OwedSlots, Appearances, Pieces, Translate, ReceiveAll, OwedBlocks, Carries, FragmentsFit, Translatable, Fragments, ArgumentsOf, LastStated, SinglePass;
    FinishesWhen(cfg, jsonObject, chunks, counts);
    FinishedStreamBracketed(cfg, jsonObject, chunks, counts);
    SlotsOwed(chunks);
    BlocksOwed(chunks, ReceiveAll(FRESH, Translate(cfg, jsonObject, chunks, counts).result.value).value.blocks);
  }

  // --- The buffered message ---------------------------------------------------------------

  // A completion is refused for a call that fails the checks or cannot be read, for saying nothing, and
  // for an unknown finish reason; a missing reason ends the turn.
  lemma BufferedTells<J>(cfg: Config, jsonObject: string -> bool, input: string -> Option<J>, chat: Completion)
    ensures var buffered := AB.EncodeResponse(cfg, jsonObject, input, chat);
            && (buffered.Some?
                <==> && (chat.content.Some? || |chat.calls| > 0)
                     && (forall call <- chat.calls :: CallOwed(jsonObject, call) && input(call.arguments).Some?)
                     && (chat.finishReason == "" || chat.finishReason == "stop" || chat.finishReason == "length"
                         || chat.finishReason == "tool_calls"))
            && (buffered.Some? ==>
                  && buffered.value.id == OwedId(cfg.requestId, chat.id) && buffered.value.model == cfg.publicModel
                  && (chat.finishReason == "" || chat.finishReason == "stop" <==> buffered.value.stopReason == "end_turn")
                  && (chat.finishReason == "length" <==> buffered.value.stopReason == "max_tokens")
                  && (chat.finishReason == "tool_calls" <==> buffered.value.stopReason == "tool_use")
                  && var start := if chat.content.Some? then 1 else 0;
                     && |buffered.value.content| == start + |chat.calls|
                     && (chat.content.Some? ==> buffered.value.content[0] == AB.TextContent(chat.content.value))
                     && forall p | 0 <= p < |chat.calls| ::
                          var call := chat.calls[p];
                          buffered.value.content[start + p] == AB.ToolUse(call.id, call.name, input(call.arguments)))
            && (buffered.Some? ==>
                  buffered.value.usage
                  == match chat.usage
                     case None => AB.Usage(0, 0, 0)
                     case Some(ProviderUsage(prompt, completion, cached, _, promptCached, _)) =>
                       AB.Usage(if prompt == None then 0 else prompt.value, if completion == None then 0 else completion.value,
                                if promptCached != None then promptCached.value else if cached != None then cached.value else 0))
  {
    hide Convertible, CallOwed, OwedId, PublicId;
    ConvertibleIs(jsonObject, chat);
    PublicIdIs(cfg.requestId, chat.id);
  }
}
