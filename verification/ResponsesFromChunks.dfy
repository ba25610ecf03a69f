/**
 What the client of a finished Responses stream holds, and which streams finish, said of the raw chunks
 alone: their text, their call fragments, their last finish reason and their last report.
 */
module ResponsesFromChunks {
  import opened Wrappers
  import opened Sorting
  import opened StreamChunks
  import opened RawStreams
  import opened EncoderSteps
  import opened EncodableStreams
  import opened Completions
  import opened ResponsesStream
  import opened ResponsesTrace
  import RB = ResponsesBuffered
  import RE = ResponsesEncodable

  // --- Which fragments fit ----------------------------------------------------------------

  function ShownName(cfg: Config, fragment: ToolCallDelta): string {
    match fragment.func
    case None => ""
    case Some(FunctionDelta(name, _)) => if name in cfg.aliases then cfg.aliases[name].name else name
  }

  // The first fragment of a tool brings a valid id and name; a later one brings neither, or the same id
  // and a name shown the same way.
  predicate FragmentFits(cfg: Config, before: seq<ToolCallDelta>, fragment: ToolCallDelta) {
    if !HasIndex(before, fragment.index) then
      IdAllowed(fragment.id) && fragment.func.Some? && NameAllowed(fragment.func.value.name)
    else
      var first := FirstOf(before, fragment.index);
      && (fragment.id == "" || fragment.id == first.id)
      && (fragment.func == None || fragment.func.value.name == "" || ShownName(cfg, fragment) == ShownName(cfg, first))
  }

  predicate FragmentsFit(cfg: Config, fragments: seq<ToolCallDelta>) {
    forall k | 0 <= k < |fragments| :: FragmentFits(cfg, fragments[..k], fragments[k])
  }

  lemma FragmentsFitSnoc(cfg: Config, fragments: seq<ToolCallDelta>, fragment: ToolCallDelta)
    ensures FragmentsFit(cfg, fragments + [fragment]) <==> FragmentsFit(cfg, fragments) && FragmentFits(cfg, fragments, fragment)
  {
    hide FragmentFits;
    var longer := fragments + [fragment];
    forall k | 0 <= k < |fragments|
      ensures longer[..k] == fragments[..k] && longer[k] == fragments[k]
    {
    }
    assert longer[..|fragments|] == fragments;
    if FragmentsFit(cfg, longer) {
      forall k | 0 <= k < |fragments|
        ensures FragmentFits(cfg, fragments[..k], fragments[k])
      {
        assert FragmentFits(cfg, longer[..k], longer[k]);
      }
      assert FragmentFits(cfg, longer[..|fragments|], longer[|fragments|]);
    }
    if FragmentsFit(cfg, fragments) && FragmentFits(cfg, fragments, fragment) {
      forall k | 0 <= k < |longer|
        ensures FragmentFits(cfg, longer[..k], longer[k])
      {
        if k < |fragments| {
          assert FragmentFits(cfg, fragments[..k], fragments[k]);
        }
      }
    }
  }

  lemma PieceFits(cfg: Config, before: seq<Piece>, call: ToolCallDelta)
    ensures RE.Fits(cfg, before, CallPiece(call)) <==> FragmentFits(cfg, CallsOf(before), call)
  {
    hide Opens, IdAllowed, NameAllowed, Payload, Appearances, Opening, CallsOf, ArgumentsOf, HasIndex, FirstOf;
    ToolHolds(before, call.index);
    OpensIs(call);
  }

  lemma {:induction false} PiecesFit(cfg: Config, pieces: seq<Piece>)
    ensures FitBehind(RE.Fitting(cfg), [], pieces) <==> FragmentsFit(cfg, CallsOf(pieces))
  {
    hide FitBehind, FragmentsFit, CallsOf, RE.Fits, FragmentFits;
    if pieces == [] {
      FitNone(RE.Fitting(cfg), []);
      NothingFits(cfg);
    } else {
      var front, last := pieces[..|pieces| - 1], pieces[|pieces| - 1];
      PiecesFit(cfg, front);
      FitConcat(RE.Fitting(cfg), [], front, [last]);
      assert front + [last] == pieces && [] + front == front;
      FitOne(RE.Fitting(cfg), front, last);
      CallsSnoc(front, last);
      if last.CallPiece? {
        PieceFits(cfg, front, last.call);
        FragmentsFitSnoc(cfg, CallsOf(front), last.call);
      } else {
        TextFits(cfg, front, last);
      }
    }
  }

  lemma NothingFits(cfg: Config)
    ensures CallsOf([]) == [] && FragmentsFit(cfg, CallsOf([]))
  {
  }

  lemma TextFits(cfg: Config, before: seq<Piece>, p: Piece)
    requires p.TextPiece?
    ensures RE.Fits(cfg, before, p) && CallsOf(before) + [] == CallsOf(before)
  {
  }

  // The encoder takes a stream exactly when every chunk is translatable and every fragment fits.
  lemma EncodesWhen(cfg: Config, chunks: seq<Chunk>)
    ensures EncodeAll(cfg, chunks).result.Ok?
            <==> (forall chunk <- chunks :: Translatable(chunk)) && FragmentsFit(cfg, Fragments(chunks))
  {
    hide FitBehind, FragmentsFit, Decodes, Translatable, Pieces, Fragments, EncodeAll, RE.Fitting;
    RE.EncodesExactly(cfg, chunks);
    forall chunk <- chunks
      ensures Decodes(chunk) <==> Translatable(chunk)
    {
      TranslatableIs(chunk);
    }
    PiecesFit(cfg, Pieces(chunks));
    if forall chunk <- chunks :: Translatable(chunk) {
      PiecesHold(chunks);
    }
  }

  // --- What the state holds ---------------------------------------------------------------

  lemma StateHolds(cfg: Config, chunks: seq<Chunk>)
    requires EncodeAll(cfg, chunks).result.Ok? && chunks != []
    ensures var s := EncodeAll(cfg, chunks).state;
            && s.started && Tracks(cfg, s, Pieces(chunks)) && (forall chunk <- chunks :: Translatable(chunk))
            && (s.textStarted <==> TextSaid(chunks) != "") && s.text == TextSaid(chunks)
            && (forall i :: i in s.tools <==> HasIndex(Fragments(chunks), i))
            && (forall i <- s.tools :: s.tools[i].arguments == ArgumentsOf(Fragments(chunks), i))
            && s.finishReason == LastStated(chunks)
  {
    hide EncodeAll, Translatable, TextSaid, Fragments, Pieces, HasIndex, ArgumentsOf, Payload, Appearances, View, FragmentsFit, LastReason, LastStated;
    EncodesWhen(cfg, chunks);
    StreamAgrees(cfg, chunks);
    RB.StreamReason(cfg, chunks);
    LastReasonIs(chunks);
    var s := EncodeAll(cfg, chunks).state;
    PiecesSay(chunks, 0);
    RB.ToolKeys(s, Appearances(Pieces(chunks)));
    forall i
      ensures i in s.tools <==> HasIndex(Fragments(chunks), i)
      ensures i in s.tools ==> s.tools[i].arguments == ArgumentsOf(Fragments(chunks), i)
    {
      PiecesSay(chunks, i);
      assert i in ToolIndices(Appearances(Pieces(chunks))) <==> ToolSlot(i) in Appearances(Pieces(chunks));
    }
  }

  lemma StateItems(cfg: Config, chunks: seq<Chunk>)
    requires EncodeAll(cfg, chunks).result.Ok? && chunks != []
    ensures var s := EncodeAll(cfg, chunks).state;
            forall i <- s.tools :: s.tools[i].itemId == CallId(cfg.requestId, i)
  {
    hide EncodeAll, Pieces, Payload, Appearances, View, Ordered, ValidToolCallId, ValidToolName;
    StreamAgrees(cfg, chunks);
  }

  // A stream finishes exactly when there is a chunk, every chunk is translatable, every fragment fits, it
  // says something or calls a tool, every tool's arguments are an object, and the last reason is known.
  lemma FinishesWhen(cfg: Config, jsonObject: string -> bool, chunks: seq<Chunk>, usage: TokenUsage)
    ensures Translate(cfg, jsonObject, chunks, usage).result.Ok?
            <==> && chunks != [] && (forall chunk <- chunks :: Translatable(chunk)) && FragmentsFit(cfg, Fragments(chunks))
                 && (TextSaid(chunks) != "" || Fragments(chunks) != [])
                 && (forall fragment <- Fragments(chunks) :: jsonObject(ArgumentsOf(Fragments(chunks), fragment.index)))
                 && (LastStated(chunks) == "stop" || LastStated(chunks) == "length" || LastStated(chunks) == "tool_calls")
  {
    hide Translatable, FragmentsFit, TextSaid, Fragments, ArgumentsOf, LastStated, EncodeAll, Finish, RB.Finishable, Tracks;
    EncodesWhen(cfg, chunks);
    if EncodeAll(cfg, chunks).result.Ok? && chunks != [] {
      var s := EncodeAll(cfg, chunks).state;
      StateHolds(cfg, chunks);
      RB.FinishAccepts(cfg, jsonObject, s, usage);
      FinishableWhen(jsonObject, s, chunks);
    }
    if chunks == [] {
      NothingFinishes(cfg, jsonObject, usage);
    }
  }

  lemma NothingFinishes(cfg: Config, jsonObject: string -> bool, usage: TokenUsage)
    ensures Translate(cfg, jsonObject, [], usage).result == Err(NeverStarted)
  {
  }

  lemma FinishableWhen(jsonObject: string -> bool, s: State, chunks: seq<Chunk>)
    requires s.textStarted <==> TextSaid(chunks) != ""
    requires forall i :: i in s.tools <==> HasIndex(Fragments(chunks), i)
    requires forall i <- s.tools :: s.tools[i].arguments == ArgumentsOf(Fragments(chunks), i)
    ensures RB.Finishable(jsonObject, s)
            <==> && (TextSaid(chunks) != "" || Fragments(chunks) != [])
                 && (forall fragment <- Fragments(chunks) :: jsonObject(ArgumentsOf(Fragments(chunks), fragment.index)))
  {
    hide TextSaid, Fragments, ArgumentsOf;
    var fragments, arguments := Fragments(chunks), RB.ToolArguments(s.tools);
    if fragments != [] {
      assert HasIndex(fragments, fragments[0].index) && fragments[0].index in s.tools;
    }
    if fragments == [] {
      assert forall i :: i !in s.tools;
      assert s.tools == map[];
    }
    forall i <- s.tools
      ensures exists fragment <- fragments :: fragment.index == i
    {
      assert HasIndex(fragments, i);
    }
    forall fragment <- fragments
      ensures fragment.index in arguments
    {
      assert HasIndex(fragments, fragment.index);
    }
  }

  // Why a stream that was taken does not finish: nothing arrived, a tool's arguments are no object, nothing
  // was said or called, or its last reason is not known.
  lemma RefusedBecause(cfg: Config, jsonObject: string -> bool, chunks: seq<Chunk>, usage: TokenUsage)
    requires EncodeAll(cfg, chunks).result.Ok?
    ensures var result := Translate(cfg, jsonObject, chunks, usage).result;
            var objects := forall fragment <- Fragments(chunks) :: jsonObject(ArgumentsOf(Fragments(chunks), fragment.index));
            var something := TextSaid(chunks) != "" || Fragments(chunks) != [];
            && (result == Err(NeverStarted) <==> chunks == [])
            && (result == Err(ArgumentsNotObject) <==> chunks != [] && !objects)
            && (result == Err(NoOutput) <==> chunks != [] && objects && !something)
            && (result.Err? && chunks != [] && objects && something ==> result == Err(UnsupportedFinishReason(LastStated(chunks))))
  {
    hide TextSaid, Fragments, ArgumentsOf, LastStated, EncodeAll, Finish, RB.Finishable, Tracks, RB.AllParse;
    if chunks == [] {
      NothingFinishes(cfg, jsonObject, usage);
    } else {
      var s := EncodeAll(cfg, chunks).state;
      StateHolds(cfg, chunks);
      FinishRefused(cfg, jsonObject, s, usage);
      RB.KeysFinishable(jsonObject, s);
      FinishableWhen(jsonObject, s, chunks);
      ParseWhen(jsonObject, s, chunks);
    }
  }

  // Why a fragment is refused: it opens a tool without a valid id and name, or names another id or, with the
  // same id, a tool shown under another name.
  lemma FragmentRefused(cfg: Config, s: State, call: ToolCallDelta)
    ensures var result := EncodeCall(cfg, s, call).result;
            && (result == Err(ToolWithoutIdentity)
                <==> call.index !in s.tools && !(IdAllowed(call.id) && call.func.Some? && NameAllowed(call.func.value.name)))
            && (result == Err(ToolIdChanged) <==> call.index in s.tools && call.id != "" && call.id != s.tools[call.index].callId)
            && (result == Err(ToolNameChanged)
                <==> && call.index in s.tools && (call.id == "" || call.id == s.tools[call.index].callId)
                     && call.func.Some? && call.func.value.name != "" && ShownName(cfg, call) != s.tools[call.index].name)
            && (result.Err? ==> result.error in {ToolWithoutIdentity, ToolIdChanged, ToolNameChanged})
  {
    hide ValidToolCallId, ValidToolName, IdAllowed, NameAllowed, Number;
    NamesAllowed(call.id);
    if call.func.Some? {
      NamesAllowed(call.func.value.name);
    }
  }

  lemma ParseWhen(jsonObject: string -> bool, s: State, chunks: seq<Chunk>)
    requires forall i :: i in s.tools <==> HasIndex(Fragments(chunks), i)
    requires forall i <- s.tools :: s.tools[i].arguments == ArgumentsOf(Fragments(chunks), i)
    ensures RB.AllParse(jsonObject, s.tools, SortedKeys(s.tools.Keys))
            <==> forall fragment <- Fragments(chunks) :: jsonObject(ArgumentsOf(Fragments(chunks), fragment.index))
    ensures s.tools == map[] <==> Fragments(chunks) == []
  {
    hide Fragments, ArgumentsOf, SortedKeys;
    var fragments, keys := Fragments(chunks), SortedKeys(s.tools.Keys);
    if RB.AllParse(jsonObject, s.tools, keys) {
      forall fragment <- fragments
        ensures jsonObject(ArgumentsOf(fragments, fragment.index))
      {
        assert HasIndex(fragments, fragment.index) && fragment.index in s.tools;
        SortedKeysComplete(s.tools.Keys, fragment.index);
        var k :| 0 <= k < |keys| && keys[k] == fragment.index;
      }
    }
    forall k | 0 <= k < |keys|
      ensures exists fragment <- fragments :: fragment.index == keys[k]
    {
      assert keys[k] in s.tools && HasIndex(fragments, keys[k]);
    }
    if fragments == [] {
      assert forall i :: i !in s.tools;
      assert s.tools == map[];
    } else {
      assert HasIndex(fragments, fragments[0].index) && fragments[0].index in s.tools;
    }
  }

  lemma FinishRefused(cfg: Config, jsonObject: string -> bool, s: State, usage: TokenUsage)
    requires s.started
    ensures var result := Finish(cfg, jsonObject, s, usage).result;
            var objects := RB.AllParse(jsonObject, s.tools, SortedKeys(s.tools.Keys));
            && (result == Err(ArgumentsNotObject) <==> !objects)
            && (result == Err(NoOutput) <==> objects && !s.textStarted && s.tools == map[])
            && (result.Err? ==> result.error in {ArgumentsNotObject, NoOutput, UnsupportedFinishReason(s.finishReason)})
  {
    hide FinishResponse, FinishTools, SortedKeys, Number, RB.AllParse;
    var text := FinishText(cfg, s);
    var keys := SortedKeys(s.tools.Keys);
    FinishToolsKeep(jsonObject, text.state, keys);
    RB.FinishedToolsParse(jsonObject, text.state, keys);
    ToolsRefused(jsonObject, text.state, keys);
    var tools := FinishTools(jsonObject, text.state, keys);
    ResponseRefused(cfg, tools.state, usage);
  }

  lemma {:induction false} ToolsRefused(jsonObject: string -> bool, s: State, indices: seq<int>)
    requires forall k | 0 <= k < |indices| :: indices[k] in s.tools
    ensures FinishTools(jsonObject, s, indices).result.Err? ==> FinishTools(jsonObject, s, indices).result == Err(ArgumentsNotObject)
    decreases |indices|
  {
    if indices != [] {
      var first := FinishTool(jsonObject, s, indices[0]);
      if first.result.Ok? {
        ToolsRefused(jsonObject, first.state, indices[1..]);
      }
    }
  }

  lemma ResponseRefused(cfg: Config, s: State, usage: TokenUsage)
    ensures var result := FinishResponse(cfg, s, usage).result;
            && (result == Err(NoOutput) <==> !s.textStarted && s.tools == map[])
            && (result.Err? ==> result.error in {NoOutput, UnsupportedFinishReason(s.finishReason)})
  {
    hide SortByIndex, UsageFromPlatform;
    assert s.tools == map[] <==> s.tools.Keys == {};
  }

  // --- What the client is told ------------------------------------------------------------

  // The finished call of a tool: named by its first fragment, with the arguments of all.
  function OwedCall(cfg: Config, fragments: seq<ToolCallDelta>, index: int): Item
    requires HasIndex(fragments, index)
  {
    var first := FirstOf(fragments, index);
    var name := match first.func case Some(FunctionDelta(name, _)) => name case None => "";
    CallItem(CallId(cfg.requestId, index), Completed, first.id,
             if name in cfg.aliases then cfg.aliases[name].name else name,
             if name in cfg.aliases && cfg.aliases[name].namespace != "" then Some(cfg.aliases[name].namespace) else None,
             ArgumentsOf(fragments, index))
  }

  // The items are the text, if there is any, and each tool's call, each once.
  predicate OwedItem(cfg: Config, chunks: seq<Chunk>, item: Item) {
    match item
    case MessageItem(id, status, content) =>
      TextSaid(chunks) != "" && id == MessageId(cfg.requestId) && status == Completed && content == Some(TextSaid(chunks))
    case CallItem(CallId(_, index), _, _, _, _, _) =>
      HasIndex(Fragments(chunks), index) && item == OwedCall(cfg, Fragments(chunks), index)
    case CallItem(_, _, _, _, _, _) => false
  }

  predicate OwedOutput(cfg: Config, chunks: seq<Chunk>, output: seq<Item>) {
    && (forall item <- output :: OwedItem(cfg, chunks, item))
    && (forall j, k | 0 <= j < k < |output| :: output[j].id != output[k].id)
    && (TextSaid(chunks) != "" ==> MessageItem(MessageId(cfg.requestId), Completed, Some(TextSaid(chunks))) in output)
    && (forall fragment <- Fragments(chunks) :: OwedCall(cfg, Fragments(chunks), fragment.index) in output)
  }

  function OwedUsage(counts: TokenUsage): Usage {
    var input := if counts.input == None then 0 else counts.input.value;
    var output := if counts.output == None then 0 else counts.output.value;
    Usage(input, output, input + output,
          if counts.cached == None then 0 else counts.cached.value,
          if counts.reasoning == None then 0 else counts.reasoning.value)
  }

  // Two announcements of the response, and at the end the response itself.
  predicate Told(cfg: Config, chunks: seq<Chunk>, counts: TokenUsage, trace: seq<Event>) {
    && chunks != [] && |trace| >= 3
    && var base := Response(OwedId(cfg.requestId, chunks[0].id), cfg.createdAt, cfg.publicModel, InProgress, None, [], None);
    && trace[0] == Event(1, ResponseCreated(base)) && trace[1] == Event(2, ResponseInProgress(base))
    && trace[|trace| - 1].body.ResponseEnded?
    && var r := trace[|trace| - 1].body.response;
       && r.id == base.id && r.createdAt == cfg.createdAt && r.model == cfg.publicModel
       && (LastStated(chunks) == "length" <==> r.status == Incomplete)
       && (LastStated(chunks) == "stop" || LastStated(chunks) == "tool_calls" <==> r.status == Completed)
       && r.incompleteReason == (if LastStated(chunks) == "length" then Some("max_output_tokens") else None)
       && r.usage == Some(OwedUsage(counts))
       && OwedOutput(cfg, chunks, r.output)
  }

  lemma {:induction false} Announced(cfg: Config, chunks: seq<Chunk>)
    requires EncodeAll(cfg, chunks).result.Ok? && chunks != []
    ensures var base := Response(OwedId(cfg.requestId, chunks[0].id), cfg.createdAt, cfg.publicModel, InProgress, None, [], None);
            var trace := EncodeAll(cfg, chunks).result.value;
            |trace| >= 2 && trace[0] == Event(1, ResponseCreated(base)) && trace[1] == Event(2, ResponseInProgress(base))
  {
    hide EncodeDelta, OwedId, PublicId;
    var front := chunks[..|chunks| - 1];
    if front == [] {
      PublicIdIs(cfg.requestId, chunks[0].id);
      assert EncodeAll(cfg, front) == Step(INITIAL, Ok([]));
    } else {
      Announced(cfg, front);
    }
  }

  lemma UsageIs(counts: TokenUsage)
    ensures UsageFromPlatform(counts) == OwedUsage(counts)
  {
  }

  // The item of a slot is what the chunks owe it.
  lemma SlotOwed(cfg: Config, chunks: seq<Chunk>, slot: Slot)
    requires EncodeAll(cfg, chunks).result.Ok? && chunks != []
    requires slot in Appearances(Pieces(chunks)) && Holds(EncodeAll(cfg, chunks).state, slot)
    ensures match slot
            case TextSlot =>
              && TextSaid(chunks) != ""
              && DoneItem(cfg, EncodeAll(cfg, chunks).state, slot) == MessageItem(MessageId(cfg.requestId), Completed, Some(TextSaid(chunks)))
            case ToolSlot(index) =>
              && HasIndex(Fragments(chunks), index)
              && DoneItem(cfg, EncodeAll(cfg, chunks).state, slot) == OwedCall(cfg, Fragments(chunks), index)
  {
    hide EncodeAll, Translatable, TextSaid, Fragments, Pieces, HasIndex, ArgumentsOf, Payload, Appearances, FirstOf, Ordered, ValidToolCallId, ValidToolName;
    var s := EncodeAll(cfg, chunks).state;
    StateHolds(cfg, chunks);
    if slot.ToolSlot? {
      PiecesSay(chunks, slot.index);
      assert ToolTracks(cfg, s.tools[slot.index], Opening(Pieces(chunks), slot).call, Payload(Pieces(chunks), slot));
    }
  }

  lemma OutputOwed(cfg: Config, chunks: seq<Chunk>, output: seq<Item>)
    requires EncodeAll(cfg, chunks).result.Ok? && chunks != []
    requires Ordered(EncodeAll(cfg, chunks).state, Appearances(Pieces(chunks)))
    requires output == DoneItems(cfg, EncodeAll(cfg, chunks).state, Appearances(Pieces(chunks)))
    ensures OwedOutput(cfg, chunks, output)
  {
    hide EncodeAll, TextSaid, Fragments, Pieces, HasIndex, Appearances, Ordered, OwedCall, DoneItem, Holds;
    var s, order := EncodeAll(cfg, chunks).state, Appearances(Pieces(chunks));
    forall j | 0 <= j < |output|
      ensures OwedItem(cfg, chunks, output[j]) && output[j].id == IdOfSlot(cfg, order[j])
    {
      SlotOwed(cfg, chunks, order[j]);
      if order[j].ToolSlot? {
        OwedCallShape(cfg, Fragments(chunks), order[j].index);
      }
    }
    SlotsDiffer(s, order);
    if TextSaid(chunks) != "" {
      PiecesSaid(cfg, chunks, 0);
      var j :| 0 <= j < |order| && order[j] == TextSlot;
      SlotOwed(cfg, chunks, order[j]);
      assert output[j] in output;
    }
    forall fragment <- Fragments(chunks)
      ensures HasIndex(Fragments(chunks), fragment.index) && OwedCall(cfg, Fragments(chunks), fragment.index) in output
    {
      FragmentHas(Fragments(chunks), fragment);
      PiecesSaid(cfg, chunks, fragment.index);
      var j :| 0 <= j < |order| && order[j] == ToolSlot(fragment.index);
      SlotOwed(cfg, chunks, order[j]);
      assert output[j] in output;
    }
  }

  lemma PiecesSaid(cfg: Config, chunks: seq<Chunk>, index: int)
    requires EncodeAll(cfg, chunks).result.Ok?
    ensures TextSlot in Appearances(Pieces(chunks)) <==> TextSaid(chunks) != ""
    ensures ToolSlot(index) in Appearances(Pieces(chunks)) <==> HasIndex(Fragments(chunks), index)
  {
    hide EncodeAll, Translatable, TextSaid, Fragments, Pieces, HasIndex, Appearances, FragmentsFit, Payload, Opening, FirstOf, ArgumentsOf;
    EncodesWhen(cfg, chunks);
    PiecesSay(chunks, index);
  }

  function IdOfSlot(cfg: Config, slot: Slot): ItemId {
    match slot
    case TextSlot => MessageId(cfg.requestId)
    case ToolSlot(index) => CallId(cfg.requestId, index)
  }

  lemma OwedCallShape(cfg: Config, fragments: seq<ToolCallDelta>, index: int)
    requires HasIndex(fragments, index)
    ensures OwedCall(cfg, fragments, index).CallItem? && OwedCall(cfg, fragments, index).id == CallId(cfg.requestId, index)
  {
    hide FirstOf, ArgumentsOf, HasIndex;
  }

  lemma SlotsDiffer(s: State, order: seq<Slot>)
    requires Ordered(s, order)
    ensures forall j, k | 0 <= j < k < |order| :: order[j] != order[k]
  {
  }

  // Every finished stream tells its client exactly what its chunks carried, however they were cut.
  lemma FinishedTells(cfg: Config, jsonObject: string -> bool, chunks: seq<Chunk>, counts: TokenUsage)
    requires Translate(cfg, jsonObject, chunks, counts).result.Ok?
    ensures Told(cfg, chunks, counts, Translate(cfg, jsonObject, chunks, counts).result.value)
  {
    hide EncodeAll, Finish, OwedOutput, Pieces, Appearances, DoneItems, Ordered, UsageFromPlatform, OwedUsage, OwedId, LastStated, FragmentsFit, TextSaid, Fragments, Translatable;
    FinishesWhen(cfg, jsonObject, chunks, counts);
    var before := EncodeAll(cfg, chunks);
    FinishedStreamAccepted(cfg, jsonObject, chunks, counts);
    RB.TerminalFields(cfg, jsonObject, chunks, counts);
    RB.FinishFields(cfg, jsonObject, before.state, counts);
    RB.StreamReason(cfg, chunks);
    StateHolds(cfg, chunks);
    Announced(cfg, chunks);
    UsageIs(counts);
    PublicIdIs(cfg.requestId, chunks[0].id);
    var trace := Translate(cfg, jsonObject, chunks, counts).result.value;
    TracksOrdered(cfg, before.state, chunks);
    OutputOwed(cfg, chunks, trace[|trace| - 1].body.response.output);
    assert trace == before.result.value + Finish(cfg, jsonObject, before.state, counts).result.value;
  }

  lemma TracksOrdered(cfg: Config, s: State, chunks: seq<Chunk>)
    requires Tracks(cfg, s, Pieces(chunks))
    ensures Ordered(s, Appearances(Pieces(chunks)))
  {
  }

  // --- The buffered response --------------------------------------------------------------

  // The buffered path reads a nested detail before a top-level one.
  function BufferedCounts(report: Option<ProviderUsage>): TokenUsage {
    match report
    case None => TokenUsage(None, None, None, None)
    case Some(ProviderUsage(prompt, completion, cached, reasoning, promptCached, completionReasoning)) =>
      TokenUsage(prompt, completion, if promptCached == None then cached else promptCached,
                 if completionReasoning == None then reasoning else completionReasoning)
  }

  lemma BufferedUsageIs(report: Option<ProviderUsage>)
    ensures RB.ResponsesUsage(report) == OwedUsage(BufferedCounts(report))
  {
  }

  // The output of a buffered response: the text, then its calls under their positions.
  predicate BufferedItems(cfg: Config, chat: Completion, output: seq<Item>) {
    var start := if chat.content.Some? then 1 else 0;
    && |output| == start + |chat.calls|
    && (chat.content.Some? ==> output[0] == MessageItem(MessageId(cfg.requestId), Completed, chat.content))
    && forall p | 0 <= p < |chat.calls| ::
         var call := chat.calls[p];
         output[start + p]
         == CallItem(CallId(cfg.requestId, p), Completed, call.id,
                     if call.name in cfg.aliases then cfg.aliases[call.name].name else call.name,
                     if call.name in cfg.aliases then Some(cfg.aliases[call.name].namespace) else None,
                     call.arguments)
  }

  lemma BufferedItemsOwed(cfg: Config, chat: Completion)
    ensures BufferedItems(cfg, chat, RB.BufferedOutput(cfg, chat))
  {
    var output, start := RB.BufferedOutput(cfg, chat), if chat.content.Some? then 1 else 0;
    forall p | 0 <= p < |chat.calls|
      ensures output[start + p] == RB.CallOutput(cfg, p, chat.calls[p])
    {
    }
  }

  // A completion is refused for a call that fails the checks and for saying nothing; the response tells
  // all the rest says.
  lemma BufferedTells(cfg: Config, jsonObject: string -> bool, chat: Completion)
    ensures var buffered := RB.EncodeResponse(cfg, jsonObject, chat);
            && (buffered.Some? <==> (chat.content.Some? || |chat.calls| > 0) && forall call <- chat.calls :: CallOwed(jsonObject, call))
            && (buffered.Some? ==>
                  && buffered.value.id == OwedId(cfg.requestId, chat.id) && buffered.value.model == cfg.publicModel
                  && buffered.value.createdAt == (if chat.created > 0 then chat.created else cfg.createdAt)
                  && (chat.finishReason == "length" <==> buffered.value.status == Incomplete)
                  && (chat.finishReason != "length" <==> buffered.value.status == Completed)
                  && buffered.value.incompleteReason == (if chat.finishReason == "length" then Some("max_output_tokens") else None)
                  && buffered.value.usage == Some(OwedUsage(BufferedCounts(chat.usage)))
                  && BufferedItems(cfg, chat, buffered.value.output))
  {
    hide Convertible, CallOwed, OwedId, PublicId, RB.BufferedOutput, BufferedItems, RB.ResponsesUsage, OwedUsage, BufferedCounts;
    ConvertibleIs(jsonObject, chat);
    PublicIdIs(cfg.requestId, chat.id);
    BufferedUsageIs(chat.usage);
    BufferedItemsOwed(cfg, chat);
  }
}
