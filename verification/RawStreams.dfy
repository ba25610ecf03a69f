/**
 What a stream says, read straight off its chunks: which streams the accumulator accepts and what it
 keeps of them, and the text, call fragments, finish reason and usage that a client is owed.
 */
module RawStreams {
  import opened Wrappers
  import opened StreamChunks
  import opened EncodableStreams
  import opened Completions

  // --- What the accumulator accepts -------------------------------------------------------

  predicate Letter(c: char) {
    'a' <= c <= 'z' || 'A' <= c <= 'Z'
  }

  predicate IdAllowed(id: string) {
    1 <= |id| <= 200 && forall c <- id :: Letter(c) || '0' <= c <= '9' || c == '.' || c == '_' || c == ':' || c == '-'
  }

  predicate NameAllowed(name: string) {
    1 <= |name| <= 64 && forall c <- name :: Letter(c) || '0' <= c <= '9' || c == '_' || c == '-'
  }

  // The chunk lists at least one choice.
  predicate OffersChoice(chunk: Chunk) {
    chunk.choices.Listed? && |chunk.choices.items| >= 1
  }

  // Some choice of the chunk states a finish reason.
  predicate StatesReason(chunk: Chunk) {
    chunk.choices.Listed? && exists choice <- chunk.choices.items :: choice.finishReason.Reason?
  }

  predicate Unsigned(count: Option<int>) {
    count == None || 0 <= count.value
  }

  // No count is negative; a nested detail is looked at only where the top level has none.
  predicate Countable(report: ProviderUsage) {
    match report
    case ProviderUsage(prompt, completion, cached, reasoning, promptCached, completionReasoning) =>
      && Unsigned(prompt) && Unsigned(completion)
      && Unsigned(if cached == None then promptCached else cached)
      && Unsigned(if reasoning == None then completionReasoning else reasoning)
  }

  predicate FragmentAllowed(call: ToolCallDelta) {
    match call
    case ToolCallDelta(index, id, kind, func) =>
      && 0 <= index && (id == "" || IdAllowed(id)) && (kind == "" || kind == "function")
      && (func == None || func.value.name == "" || NameAllowed(func.value.name))
  }

  predicate ChoiceAllowed(choice: Choice) {
    && (match choice.delta
        case NoDelta => true
        case BadDelta => false
        case Delta(role, _, None) => role == "" || role == "assistant"
        case Delta(role, _, Some(calls)) =>
          (role == "" || role == "assistant") && 1 <= |calls| <= 128 && forall call <- calls :: FragmentAllowed(call))
    && (match choice.finishReason
        case NoReason => true
        case BadReason => false
        case Reason(text) => text == "stop" || text == "length" || text == "tool_calls")
  }

  predicate ChoiceOffered(chunks: seq<Chunk>) {
    exists chunk <- chunks :: OffersChoice(chunk)
  }

  predicate ReasonStated(chunks: seq<Chunk>) {
    exists chunk <- chunks :: StatesReason(chunk)
  }

  // A chunk is allowed behind these: it reports no error, every choice it lists is allowed, it lists a
  // choice or reports usage, and usage is reported only once a choice was listed.
  predicate Allowed(before: seq<Chunk>, chunk: Chunk) {
    && !chunk.hasError
    && (chunk.usage.Some? ==> ChoiceOffered(before) && Countable(chunk.usage.value))
    && (chunk.usage == None ==> OffersChoice(chunk))
    && chunk.choices != BadChoices
    && (chunk.choices.Listed? ==> |chunk.choices.items| <= 128 && forall choice <- chunk.choices.items :: ChoiceAllowed(choice))
  }

  predicate AllAllowed(chunks: seq<Chunk>) {
    forall k | 0 <= k < |chunks| :: Allowed(chunks[..k], chunks[k])
  }

  // The counts of a report, top-level details before nested ones, and how final they are.
  function Counts(report: ProviderUsage): TokenUsage {
    match report
    case ProviderUsage(prompt, completion, cached, reasoning, promptCached, completionReasoning) =>
      TokenUsage(prompt, completion, if cached == None then promptCached else cached,
                 if reasoning == None then completionReasoning else reasoning)
  }

  function Certainty(counts: TokenUsage): Finality {
    match counts
    case TokenUsage(None, None, None, None) => Unknown
    case TokenUsage(Some(_), Some(_), _, _) => Final
    case _ => Partial
  }

  // The last report of a stream, and its counts.
  function LastReport(chunks: seq<Chunk>): Option<ProviderUsage> {
    if chunks == [] then None
    else match chunks[|chunks| - 1].usage
         case Some(report) => Some(report)
         case None => LastReport(chunks[..|chunks| - 1])
  }

  function Reported(chunks: seq<Chunk>): TokenUsage {
    match LastReport(chunks)
    case None => TokenUsage(None, None, None, None)
    case Some(report) => Counts(report)
  }

  // The last id and the last model that may be shown.
  predicate Showable(text: string, longest: nat, more: string) {
    1 <= |text| <= longest
    && forall c <- text :: Letter(c) || '0' <= c <= '9' || c == '.' || c == '_' || c == ':' || c == '-' || c in more
  }

  function ShownId(first: string, chunks: seq<Chunk>): string {
    if chunks == [] then first
    else if Showable(chunks[|chunks| - 1].id, 200, "/") then chunks[|chunks| - 1].id
    else ShownId(first, chunks[..|chunks| - 1])
  }

  function ShownModel(chunks: seq<Chunk>): string {
    if chunks == [] then ""
    else if Showable(chunks[|chunks| - 1].model, 255, "/@") then chunks[|chunks| - 1].model
    else ShownModel(chunks[..|chunks| - 1])
  }

  lemma ShowableIs(text: string)
    ensures SafeProviderId(text) == if Showable(text, 200, "/") then text else ""
    ensures SafeModel(text) == if Showable(text, 255, "/@") then text else ""
    ensures text == "" ==> !Showable(text, 200, "/") && !Showable(text, 255, "/@")
  {
  }

  lemma AllowedSnoc(chunks: seq<Chunk>)
    requires chunks != []
    ensures var front, last := chunks[..|chunks| - 1], chunks[|chunks| - 1];
            && (AllAllowed(chunks) <==> AllAllowed(front) && Allowed(front, last))
            && (ChoiceOffered(chunks) <==> ChoiceOffered(front) || OffersChoice(last))
            && (ReasonStated(chunks) <==> ReasonStated(front) || StatesReason(last))
  {
    hide Allowed, OffersChoice, StatesReason;
    var front, last := chunks[..|chunks| - 1], chunks[|chunks| - 1];
    assert chunks == front + [last];
    forall k | 0 <= k < |front|
      ensures chunks[..k] == front[..k] && chunks[k] == front[k]
    {
    }
    if AllAllowed(chunks) {
      forall k | 0 <= k < |front|
        ensures Allowed(front[..k], front[k])
      {
        assert Allowed(chunks[..k], chunks[k]);
      }
      assert Allowed(chunks[..|front|], chunks[|front|]);
    }
    if AllAllowed(front) && Allowed(front, last) {
      forall k | 0 <= k < |chunks|
        ensures Allowed(chunks[..k], chunks[k])
      {
        if k < |front| {
          assert Allowed(front[..k], front[k]);
        }
      }
    }
  }

  lemma NamesAllowed(text: string)
    ensures ValidToolCallId(text) <==> IdAllowed(text)
    ensures ValidToolName(text) <==> NameAllowed(text)
  {
  }

  lemma ChoiceIs(choice: Choice)
    ensures ValidChoice(choice) <==> ChoiceAllowed(choice)
  {
    hide ValidToolCallId, ValidToolName, IdAllowed, NameAllowed;
    if choice.delta.Delta? && choice.delta.toolCalls.Some? {
      forall call <- choice.delta.toolCalls.value
        ensures ValidCallDelta(call) <==> FragmentAllowed(call)
      {
        NamesAllowed(call.id);
        if call.func.Some? {
          NamesAllowed(call.func.value.name);
        }
      }
    }
  }

  // The accumulator accepts a stream exactly when every chunk is allowed behind those before it, and it
  // then knows whether a choice was listed, whether a finish reason was stated, and the last report.
  lemma {:induction false} AcceptsExactly(providerId: string, chunks: seq<Chunk>)
    ensures ConsumeAll(providerId, chunks).Some? <==> AllAllowed(chunks)
    ensures ConsumeAll(providerId, chunks).Some? ==>
              var state := ConsumeAll(providerId, chunks).value;
              && (state.sawChoice <==> ChoiceOffered(chunks))
              && (state.sawFinish <==> ReasonStated(chunks))
              && state.usage == Reported(chunks) && state.finality == Certainty(Reported(chunks))
              && state.providerId == ShownId(providerId, chunks) && state.model == ShownModel(chunks)
  {
    if chunks != [] {
      var front, last := chunks[..|chunks| - 1], chunks[|chunks| - 1];
      AcceptsExactly(providerId, front);
      AllowedSnoc(chunks);
      hide AllAllowed, ChoiceOffered, ReasonStated, Showable;
      if ConsumeAll(providerId, front).Some? {
        StepIs(ConsumeAll(providerId, front).value, front, last);
      }
    }
  }

  lemma StepIs(state: StreamState, before: seq<Chunk>, chunk: Chunk)
    requires state.sawChoice <==> ChoiceOffered(before)
    ensures Consumed(state, chunk).Some? <==> Allowed(before, chunk)
    ensures Consumed(state, chunk).Some? ==>
              var next := Consumed(state, chunk).value;
              && (next.sawChoice <==> state.sawChoice || OffersChoice(chunk))
              && (next.sawFinish <==> state.sawFinish || StatesReason(chunk))
              && (chunk.usage == None ==> next.usage == state.usage && next.finality == state.finality)
              && (chunk.usage.Some? ==> next.usage == Counts(chunk.usage.value) && next.finality == Certainty(next.usage))
              && next.providerId == (if Showable(chunk.id, 200, "/") then chunk.id else state.providerId)
              && next.model == (if Showable(chunk.model, 255, "/@") then chunk.model else state.model)
  {
    ShowableIs(chunk.id);
    ShowableIs(chunk.model);
    hide SafeProviderId, SafeModel, Showable, ValidChoice, ChoiceAllowed, ChoiceOffered;
    if chunk.choices.Listed? {
      forall choice <- chunk.choices.items
        ensures ValidChoice(choice) <==> ChoiceAllowed(choice)
      {
        ChoiceIs(choice);
      }
    }
  }

  // --- What a translation owes the client -------------------------------------------------

  // A chunk a translating encoder can take: one choice, numbered 0, or none beside a usage report.
  predicate Translatable(chunk: Chunk) {
    match chunk.choices
    case NoChoices => chunk.usage.Some?
    case EmptyChoices => chunk.usage.Some?
    case Listed(items) => |items| == 1 && items[0].index == 0 && items[0].delta != BadDelta && items[0].finishReason != BadReason
    case BadChoices => false
  }

  // The text of a chunk's one choice, its call fragments and its finish reason.
  function SaidIn(chunk: Chunk): string {
    if !chunk.choices.Listed? || |chunk.choices.items| != 1 then "" else
    match chunk.choices.items[0].delta
    case Delta(_, Some(text), _) => text
    case _ => ""
  }

  function FragmentsIn(chunk: Chunk): seq<ToolCallDelta> {
    if !chunk.choices.Listed? || |chunk.choices.items| != 1 then [] else
    match chunk.choices.items[0].delta
    case Delta(_, _, Some(calls)) => calls
    case _ => []
  }

  function TextSaid(chunks: seq<Chunk>): string {
    if chunks == [] then "" else TextSaid(chunks[..|chunks| - 1]) + SaidIn(chunks[|chunks| - 1])
  }

  function Fragments(chunks: seq<Chunk>): seq<ToolCallDelta> {
    if chunks == [] then [] else Fragments(chunks[..|chunks| - 1]) + FragmentsIn(chunks[|chunks| - 1])
  }

  // The arguments of every fragment with this index, joined, named or not.
  function ArgumentsOf(fragments: seq<ToolCallDelta>, index: int): string {
    if fragments == [] then "" else
    ArgumentsOf(fragments[..|fragments| - 1], index)
    + match fragments[|fragments| - 1]
      case ToolCallDelta(i, _, _, Some(FunctionDelta(_, arguments))) => if i == index then arguments else ""
      case ToolCallDelta(_, _, _, None) => ""
  }

  predicate HasIndex(fragments: seq<ToolCallDelta>, index: int) {
    exists fragment <- fragments :: fragment.index == index
  }

  // The fragment that opens a tool: the first with its index.
  function FirstOf(fragments: seq<ToolCallDelta>, index: int): (first: ToolCallDelta)
    requires HasIndex(fragments, index)
    ensures first.index == index
  {
    if fragments[0].index == index then fragments[0] else FirstOf(fragments[1..], index)
  }

  function LastStated(chunks: seq<Chunk>): string {
    if chunks == [] then "" else
    match chunks[|chunks| - 1].choices
    case Listed(items) => if |items| == 1 && items[0].finishReason.Reason? then items[0].finishReason.text else LastStated(chunks[..|chunks| - 1])
    case _ => LastStated(chunks[..|chunks| - 1])
  }

  lemma {:induction false} LastReasonIs(chunks: seq<Chunk>)
    requires forall chunk <- chunks :: Translatable(chunk)
    ensures LastReason(chunks) == LastStated(chunks)
  {
    if chunks != [] {
      LastReasonIs(chunks[..|chunks| - 1]);
      var last := chunks[|chunks| - 1];
      assert Translatable(last) && DecodeTranslated(last).Ok?;
      hide DecodeTranslated;
    }
  }

  lemma {:induction false} LastUsageIs(chunks: seq<Chunk>)
    ensures LastUsage(chunks) == LastReport(chunks)
  {
    if chunks != [] {
      LastUsageIs(chunks[..|chunks| - 1]);
    }
  }

  // The text and the call fragments among these pieces.
  function TextOf(pieces: seq<Piece>): string {
    if pieces == [] then "" else
    TextOf(pieces[..|pieces| - 1]) + match pieces[|pieces| - 1] case TextPiece(text) => text case CallPiece(_) => ""
  }

  function CallsOf(pieces: seq<Piece>): seq<ToolCallDelta> {
    if pieces == [] then [] else
    CallsOf(pieces[..|pieces| - 1]) + match pieces[|pieces| - 1] case TextPiece(_) => [] case CallPiece(call) => [call]
  }

  lemma {:induction false} TextConcat(a: seq<Piece>, b: seq<Piece>)
    ensures TextOf(a + b) == TextOf(a) + TextOf(b)
  {
    if b == [] {
      assert a + b == a;
    } else {
      TextConcat(a, b[..|b| - 1]);
      assert (a + b)[..|a + b| - 1] == a + b[..|b| - 1];
    }
  }

  lemma {:induction false} CallsConcat(a: seq<Piece>, b: seq<Piece>)
    ensures CallsOf(a + b) == CallsOf(a) + CallsOf(b)
  {
    if b == [] {
      assert a + b == a;
    } else {
      CallsConcat(a, b[..|b| - 1]);
      assert (a + b)[..|a + b| - 1] == a + b[..|b| - 1];
    }
  }

  lemma TextSnoc(front: seq<Piece>, call: ToolCallDelta)
    ensures TextOf(front + [CallPiece(call)]) == TextOf(front)
  {
    assert (front + [CallPiece(call)])[..|front|] == front;
    assert TextOf(front) + "" == TextOf(front);
  }

  lemma CallPiecesSnoc(calls: seq<ToolCallDelta>)
    requires calls != []
    ensures CallPieces(calls) == CallPieces(calls[..|calls| - 1]) + [CallPiece(calls[|calls| - 1])]
  {
    hide CallPieces;
    var whole, front := CallPieces(calls), CallPieces(calls[..|calls| - 1]);
    forall i | 0 <= i < |calls| - 1
      ensures whole[i] == front[i]
    {
    }
  }

  lemma {:induction false} OfCallPieces(calls: seq<ToolCallDelta>)
    ensures TextOf(CallPieces(calls)) == "" && CallsOf(CallPieces(calls)) == calls
  {
    if calls != [] {
      var front, last := calls[..|calls| - 1], calls[|calls| - 1];
      OfCallPieces(front);
      CallPiecesSnoc(calls);
      TextSnoc(CallPieces(front), last);
      CallsSnoc(CallPieces(front), CallPiece(last));
      hide CallPieces, TextOf, CallsOf;
      assert calls == front + [last];
    }
  }

  lemma OfTextPieces(text: string)
    ensures TextOf(TextPieces(text)) == text && CallsOf(TextPieces(text)) == []
  {
    assert text != "" ==> TextPieces(text)[..0] == [];
  }

  lemma ChunkIs(chunk: Chunk)
    requires Translatable(chunk)
    ensures ChunkPieces(chunk) == TextPieces(SaidIn(chunk)) + CallPieces(FragmentsIn(chunk))
  {
    hide TextPieces, CallPieces;
    assert DecodedPieces(Decoded("", [], NoReason)) == TextPieces("") + CallPieces([]);
  }

  lemma OfChunk(chunk: Chunk)
    requires Translatable(chunk)
    ensures TextOf(ChunkPieces(chunk)) == SaidIn(chunk) && CallsOf(ChunkPieces(chunk)) == FragmentsIn(chunk)
  {
    hide *;
    ChunkIs(chunk);
    OfTextPieces(SaidIn(chunk));
    TextConcat(TextPieces(SaidIn(chunk)), CallPieces(FragmentsIn(chunk)));
    CallsConcat(TextPieces(SaidIn(chunk)), CallPieces(FragmentsIn(chunk)));
    OfCallPieces(FragmentsIn(chunk));
    assert SaidIn(chunk) + "" == SaidIn(chunk);
    var none: seq<ToolCallDelta> := [];
    assert none + FragmentsIn(chunk) == FragmentsIn(chunk);
  }

  predicate Spoken(pieces: seq<Piece>) {
    forall p <- pieces :: p.TextPiece? ==> p.text != ""
  }

  lemma {:induction false} PiecesHold(chunks: seq<Chunk>)
    requires forall chunk <- chunks :: Translatable(chunk)
    ensures TextOf(Pieces(chunks)) == TextSaid(chunks) && CallsOf(Pieces(chunks)) == Fragments(chunks) && Spoken(Pieces(chunks))
  {
    hide TextOf, CallsOf, ChunkPieces, SaidIn, FragmentsIn, Translatable;
    if chunks == [] {
      OfNothing();
    } else {
      var front, last := chunks[..|chunks| - 1], chunks[|chunks| - 1];
      PiecesHold(front);
      OfChunk(last);
      TextConcat(Pieces(front), ChunkPieces(last));
      CallsConcat(Pieces(front), ChunkPieces(last));
      ChunkSpoken(last);
    }
  }

  lemma OfNothing()
    ensures TextOf([]) == "" && CallsOf([]) == []
  {
  }

  lemma ChunkSpoken(chunk: Chunk)
    ensures Spoken(ChunkPieces(chunk))
  {
  }

  lemma {:induction false} FirstOfSnoc(fragments: seq<ToolCallDelta>, call: ToolCallDelta, index: int)
    ensures HasIndex(fragments + [call], index) <==> HasIndex(fragments, index) || call.index == index
    ensures HasIndex(fragments + [call], index) ==>
              FirstOf(fragments + [call], index) == if HasIndex(fragments, index) then FirstOf(fragments, index) else call
  {
    if fragments != [] {
      FirstOfSnoc(fragments[1..], call, index);
      assert (fragments + [call])[1..] == fragments[1..] + [call];
      assert fragments == [fragments[0]] + fragments[1..];
    } else {
      assert fragments + [call] == [call];
    }
  }

  // The slots of these pieces, what they carry and what opened them, said of their text and calls.
  lemma {:induction false} TextHolds(pieces: seq<Piece>)
    requires Spoken(pieces)
    ensures Payload(pieces, TextSlot) == TextOf(pieces) && (TextSlot in Appearances(pieces) <==> TextOf(pieces) != "")
  {
    if pieces != [] {
      var front, last := pieces[..|pieces| - 1], pieces[|pieces| - 1];
      TextHolds(front);
      SnocFacts(front, last);
      assert pieces == front + [last];
    }
  }

  lemma {:induction false} ToolHolds(pieces: seq<Piece>, index: int)
    ensures Payload(pieces, ToolSlot(index)) == ArgumentsOf(CallsOf(pieces), index)
    ensures ToolSlot(index) in Appearances(pieces) <==> HasIndex(CallsOf(pieces), index)
    ensures HasIndex(CallsOf(pieces), index) ==> Opening(pieces, ToolSlot(index)) == CallPiece(FirstOf(CallsOf(pieces), index))
  {
    if pieces != [] {
      var front, last := pieces[..|pieces| - 1], pieces[|pieces| - 1];
      ToolHolds(front, index);
      ToolStep(front, last, index);
      assert pieces == front + [last];
    }
  }

  lemma ToolStep(front: seq<Piece>, last: Piece, index: int)
    requires Payload(front, ToolSlot(index)) == ArgumentsOf(CallsOf(front), index)
    requires ToolSlot(index) in Appearances(front) <==> HasIndex(CallsOf(front), index)
    requires HasIndex(CallsOf(front), index) ==> Opening(front, ToolSlot(index)) == CallPiece(FirstOf(CallsOf(front), index))
    ensures var pieces := front + [last];
            && Payload(pieces, ToolSlot(index)) == ArgumentsOf(CallsOf(pieces), index)
            && (ToolSlot(index) in Appearances(pieces) <==> HasIndex(CallsOf(pieces), index))
            && (HasIndex(CallsOf(pieces), index) ==> Opening(pieces, ToolSlot(index)) == CallPiece(FirstOf(CallsOf(pieces), index)))
  {
    SnocFacts(front, last);
    CallsSnoc(front, last);
    if last.CallPiece? {
      FirstOfSnoc(CallsOf(front), last.call, index);
      ArgumentsSnoc(CallsOf(front), last.call, index);
    }
    hide Payload, Appearances, Opening, CallsOf, HasIndex, FirstOf, ArgumentsOf;
    assert Payload(front, ToolSlot(index)) + "" == Payload(front, ToolSlot(index)) && CallsOf(front) + [] == CallsOf(front);
  }

  lemma CallsSnoc(front: seq<Piece>, last: Piece)
    ensures CallsOf(front + [last]) == CallsOf(front) + if last.CallPiece? then [last.call] else []
  {
    assert (front + [last])[..|front + [last]| - 1] == front;
  }

  lemma ArgumentsSnoc(fragments: seq<ToolCallDelta>, call: ToolCallDelta, index: int)
    ensures ArgumentsOf(fragments + [call], index)
            == ArgumentsOf(fragments, index) + if call.index == index && call.func.Some? then call.func.value.arguments else ""
  {
    assert (fragments + [call])[..|fragments + [call]| - 1] == fragments;
  }

  // What the pieces of a stream carry is what its chunks say: all text, and for every tool the arguments
  // of every fragment with its index; the tool is opened by the first of them.
  lemma PiecesSay(chunks: seq<Chunk>, index: int)
    requires forall chunk <- chunks :: Translatable(chunk)
    ensures var pieces := Pieces(chunks);
            && Payload(pieces, TextSlot) == TextSaid(chunks)
            && (TextSlot in Appearances(pieces) <==> TextSaid(chunks) != "")
            && Payload(pieces, ToolSlot(index)) == ArgumentsOf(Fragments(chunks), index)
            && (ToolSlot(index) in Appearances(pieces) <==> HasIndex(Fragments(chunks), index))
            && (HasIndex(Fragments(chunks), index) ==>
                  Opening(pieces, ToolSlot(index)) == CallPiece(FirstOf(Fragments(chunks), index)))
  {
    hide TextOf, CallsOf, Payload, Appearances, Opening;
    PiecesHold(chunks);
    TextHolds(Pieces(chunks));
    ToolHolds(Pieces(chunks), index);
  }

  lemma TranslatableIs(chunk: Chunk)
    ensures Decodes(chunk) <==> Translatable(chunk)
  {
  }

  lemma OpensIs(call: ToolCallDelta)
    ensures Opens(call) <==> IdAllowed(call.id) && call.func.Some? && NameAllowed(call.func.value.name)
  {
    NamesAllowed(call.id);
    if call.func.Some? {
      NamesAllowed(call.func.value.name);
    }
  }

  // Why a chunk is not translatable: it has no choice and no report, not the one choice, or a bad delta.
  lemma RefusedBecause(chunk: Chunk)
    ensures DecodeTranslated(chunk) == Err(MissingChoice) <==> (chunk.choices == NoChoices || chunk.choices == EmptyChoices) && chunk.usage == None
    ensures DecodeTranslated(chunk) == Err(InvalidDelta)
            <==> chunk.choices.Listed? && |chunk.choices.items| == 1 && chunk.choices.items[0].index == 0 && chunk.choices.items[0].delta == BadDelta
    ensures DecodeTranslated(chunk) == Err(NotOneChoice)
            <==> chunk.choices == BadChoices
                 || (chunk.choices.Listed? && (|chunk.choices.items| != 1 || chunk.choices.items[0].index != 0))
  {
  }

  lemma FragmentHas(fragments: seq<ToolCallDelta>, fragment: ToolCallDelta)
    requires fragment in fragments
    ensures HasIndex(fragments, fragment.index)
  {
  }

  // The id a client is shown: the first chunk's when it may be shown, else the request's.
  function OwedId(requestId: string, id: string): string {
    if Showable(id, 200, "/") then id else requestId
  }

  lemma PublicIdIs(requestId: string, id: string)
    ensures PublicId(requestId, id) == OwedId(requestId, id)
  {
    ShowableIs(id);
    hide SafeProviderId, Showable;
  }

  // The conditions both buffered encoders ask of a call.
  predicate CallOwed(jsonObject: string -> bool, call: Messages.ToolCall) {
    call.kind == "function" && IdAllowed(call.id) && NameAllowed(call.name) && jsonObject(call.arguments)
  }

  lemma ConvertibleIs(jsonObject: string -> bool, chat: Completion)
    ensures Convertible(jsonObject, chat)
            <==> (chat.content.Some? || |chat.calls| > 0) && forall call <- chat.calls :: CallOwed(jsonObject, call)
  {
    hide ValidToolCallId, ValidToolName, IdAllowed, NameAllowed;
    forall call <- chat.calls
      ensures ValidToolCallId(call.id) <==> IdAllowed(call.id)
      ensures ValidToolName(call.name) <==> NameAllowed(call.name)
    {
      NamesAllowed(call.id);
      NamesAllowed(call.name);
    }
  }

  // What the chunks carry for a slot, and which slots they fill.
  function OwedPayload(chunks: seq<Chunk>, slot: Slot): string {
    match slot
    case TextSlot => TextSaid(chunks)
    case ToolSlot(index) => ArgumentsOf(Fragments(chunks), index)
  }

  predicate OwedSlots(chunks: seq<Chunk>, slots: seq<Slot>) {
    && (forall j, k | 0 <= j < k < |slots| :: slots[j] != slots[k])
    && (TextSlot in slots <==> TextSaid(chunks) != "")
    && (forall slot <- slots :: slot.ToolSlot? ==> HasIndex(Fragments(chunks), slot.index))
    && (forall fragment <- Fragments(chunks) :: ToolSlot(fragment.index) in slots)
  }

  lemma {:induction false} AppearOnce(pieces: seq<Piece>)
    ensures forall j, k | 0 <= j < k < |Appearances(pieces)| :: Appearances(pieces)[j] != Appearances(pieces)[k]
  {
    if pieces != [] {
      AppearOnce(pieces[..|pieces| - 1]);
    }
  }

  lemma SlotsOwed(chunks: seq<Chunk>)
    requires forall chunk <- chunks :: Translatable(chunk)
    ensures OwedSlots(chunks, Appearances(Pieces(chunks)))
    ensures forall slot :: Payload(Pieces(chunks), slot) == OwedPayload(chunks, slot)
  {
    hide Translatable, TextSaid, Fragments, Pieces, HasIndex, Appearances, Payload, Opening, ArgumentsOf, FirstOf;
    var slots := Appearances(Pieces(chunks));
    AppearOnce(Pieces(chunks));
    PiecesSay(chunks, 0);
    forall slot <- slots | slot.ToolSlot?
      ensures HasIndex(Fragments(chunks), slot.index)
    {
      PiecesSay(chunks, slot.index);
    }
    forall fragment <- Fragments(chunks)
      ensures ToolSlot(fragment.index) in slots
    {
      FragmentHas(Fragments(chunks), fragment);
      PiecesSay(chunks, fragment.index);
    }
    forall slot
      ensures Payload(Pieces(chunks), slot) == OwedPayload(chunks, slot)
    {
      PiecesSay(chunks, if slot.ToolSlot? then slot.index else 0);
    }
  }
}
