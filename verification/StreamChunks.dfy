/**
 The provider's streaming chunks, already parsed from JSON, the accumulator that validates
 them, and the view of a chunk that the two translating encoders share.

 Go strings are byte strings: a `string` here holds one char a byte.
 */
module StreamChunks {
  import opened Wrappers

  // --- Limits and name checks -------------------------------------------------------------

  const MAX_TOOL_CALLS := 128
  const MAX_CHOICES := 128
  const MAX_TOOL_NAME := 64

  predicate Alphanumeric(c: char) {
    'a' <= c <= 'z' || 'A' <= c <= 'Z' || '0' <= c <= '9'
  }

  predicate SafeMetadata(value: string, extra: string) {
    forall c <- value :: Alphanumeric(c) || c in "._:-" || c in extra
  }

  predicate ValidToolName(value: string) {
    0 < |value| <= MAX_TOOL_NAME && forall c <- value :: Alphanumeric(c) || c == '_' || c == '-'
  }

  predicate ValidToolCallId(value: string) {
    0 < |value| <= 200 && SafeMetadata(value, "-")
  }

  function SafeProviderId(value: string): string {
    if 0 < |value| <= 200 && SafeMetadata(value, "/") then value else ""
  }

  // The id a client sees: the provider's when it is safe to show, else the request's.
  function PublicId(requestId: string, providerId: string): string {
    if SafeProviderId(providerId) == "" then requestId else SafeProviderId(providerId)
  }

  function SafeModel(value: string): string {
    if 0 < |value| <= 255 && SafeMetadata(value, "/@") then value else ""
  }

  // --- Chunks -----------------------------------------------------------------------------

  datatype FunctionDelta = FunctionDelta(name: string, arguments: string)

  datatype ToolCallDelta = ToolCallDelta(index: int, id: string, kind: string, func: Option<FunctionDelta>)

  // `toolCalls` is None when the field is absent or null; an explicit empty list is Some([]).
  datatype Delta =
    | NoDelta
    | Delta(role: string, content: Option<string>, toolCalls: Option<seq<ToolCallDelta>>)
    | BadDelta

  datatype FinishField = NoReason | Reason(text: string) | BadReason

  datatype Choice = Choice(index: int, delta: Delta, finishReason: FinishField)

  // EmptyChoices is the literal `[]`; null and `[ ]` decode to Listed([]).
  datatype Choices = NoChoices | EmptyChoices | Listed(items: seq<Choice>) | BadChoices

  datatype ProviderUsage = ProviderUsage(
    promptTokens: Option<int>, completionTokens: Option<int>,
    cachedTokens: Option<int>, reasoningTokens: Option<int>,
    promptCachedTokens: Option<int>, completionReasoningTokens: Option<int>)

  datatype Chunk = Chunk(id: string, model: string, choices: Choices, usage: Option<ProviderUsage>, hasError: bool)

  // --- Provider usage ---------------------------------------------------------------------

  datatype Finality = Unknown | Partial | Final

  datatype TokenUsage = TokenUsage(input: Option<int>, output: Option<int>, cached: Option<int>, reasoning: Option<int>)

  const NO_USAGE := TokenUsage(None, None, None, None)

  predicate Negative(value: Option<int>) {
    value.Some? && value.value < 0
  }

  function OrElse(first: Option<int>, second: Option<int>): Option<int> {
    if first.Some? then first else second
  }

  // The streaming path: top-level token details win over nested ones.
  function ParseProviderUsage(u: ProviderUsage): Option<(TokenUsage, Finality)> {
    var usage := TokenUsage(u.promptTokens, u.completionTokens,
                            OrElse(u.cachedTokens, u.promptCachedTokens),
                            OrElse(u.reasoningTokens, u.completionReasoningTokens));
    if Negative(usage.input) || Negative(usage.output) || Negative(usage.cached) || Negative(usage.reasoning) then None
    else if usage.input.Some? && usage.output.Some? then Some((usage, Final))
    else if usage != NO_USAGE then Some((usage, Partial))
    else Some((usage, Unknown))
  }

  // --- The accumulator --------------------------------------------------------------------

  datatype StreamState = StreamState(
    model: string, providerId: string, usage: TokenUsage, finality: Finality, sawChoice: bool, sawFinish: bool)

  predicate ValidCallDelta(call: ToolCallDelta) {
    && 0 <= call.index
    && (call.id == "" || ValidToolCallId(call.id))
    && (call.kind == "" || call.kind == "function")
    && (call.func.Some? && call.func.value.name != "" ==> ValidToolName(call.func.value.name))
  }

  predicate ValidDelta(delta: Delta) {
    match delta
    case NoDelta => true
    case BadDelta => false
    case Delta(role, _, toolCalls) =>
      && (role == "" || role == "assistant")
      && (toolCalls.Some? ==>
            && 0 < |toolCalls.value| <= MAX_TOOL_CALLS
            && forall call <- toolCalls.value :: ValidCallDelta(call))
  }

  predicate ValidFinish(reason: FinishField) {
    reason.NoReason? || (reason.Reason? && reason.text in {"stop", "length", "tool_calls"})
  }

  predicate ValidChoice(choice: Choice) {
    ValidDelta(choice.delta) && ValidFinish(choice.finishReason)
  }

  // What one chunk does to the accumulator when it is accepted; None when it is rejected.
  function Consumed(state: StreamState, chunk: Chunk): Option<StreamState> {
    if chunk.hasError then None else
    var s1 := state.(
      providerId := if SafeProviderId(chunk.id) != "" then SafeProviderId(chunk.id) else state.providerId,
      model := if SafeModel(chunk.model) != "" then SafeModel(chunk.model) else state.model);
    if chunk.usage.Some? && !state.sawChoice then None else
    var parsed := if chunk.usage.Some? then ParseProviderUsage(chunk.usage.value) else Some((state.usage, state.finality));
    if parsed.None? then None else
    var s2 := s1.(usage := parsed.value.0, finality := parsed.value.1);
    match chunk.choices
    case BadChoices => None
    case NoChoices => if chunk.usage.None? then None else Some(s2)
    case EmptyChoices => if chunk.usage.None? then None else Some(s2)
    case Listed(items) =>
      if |items| > MAX_CHOICES then None
      else if items == [] then if chunk.usage.None? then None else Some(s2)
      else if forall choice <- items :: ValidChoice(choice) then
        Some(s2.(sawChoice := true, sawFinish := state.sawFinish || exists choice <- items :: choice.finishReason.Reason?))
      else None
  }

  function ConsumeAll(providerId: string, chunks: seq<Chunk>): Option<StreamState> {
    if chunks == [] then Some(StreamState("", providerId, NO_USAGE, Unknown, false, false)) else
    match ConsumeAll(providerId, chunks[..|chunks| - 1])
    case None => None
    case Some(state) => Consumed(state, chunks[|chunks| - 1])
  }

  // --- The view the encoders take ---------------------------------------------------------

  datatype EncodeError =
    | MissingChoice
    | NotOneChoice
    | InvalidDelta
    | InvalidFinishReason
    | ToolWithoutIdentity
    | ToolIdChanged
    | ToolNameChanged
    | NeverStarted
    | ArgumentsNotObject
    | NoOutput
    | UnsupportedFinishReason(reason: string)

  // What an encoder takes from a chunk: the text, the call fragments and the finish reason.
  datatype Decoded = Decoded(content: string, calls: seq<ToolCallDelta>, finishReason: FinishField)

  function Content(delta: Delta): string {
    if delta.Delta? && delta.content.Some? then delta.content.value else ""
  }

  function Calls(delta: Delta): seq<ToolCallDelta> {
    if delta.Delta? && delta.toolCalls.Some? then delta.toolCalls.value else []
  }

  function DecodeTranslated(chunk: Chunk): Result<Decoded, EncodeError> {
    match chunk.choices
    case BadChoices => Err(NotOneChoice)
    case NoChoices => if chunk.usage.Some? then Ok(Decoded("", [], NoReason)) else Err(MissingChoice)
    case EmptyChoices => if chunk.usage.Some? then Ok(Decoded("", [], NoReason)) else Err(MissingChoice)
    case Listed(items) =>
      if |items| != 1 || items[0].index != 0 then Err(NotOneChoice)
      else if items[0].delta.BadDelta? then Err(InvalidDelta)
      else Ok(Decoded(Content(items[0].delta), Calls(items[0].delta), items[0].finishReason))
  }

  function Arguments(call: ToolCallDelta): string {
    if call.func.Some? then call.func.value.arguments else ""
  }

  // --- The pieces of a stream -------------------------------------------------------------
  // A stream as its client means it: text fragments and tool-call fragments in order.

  datatype Slot = TextSlot | ToolSlot(index: int)

  datatype Piece = TextPiece(text: string) | CallPiece(call: ToolCallDelta) {
    function Slot(): Slot {
      if TextPiece? then TextSlot else ToolSlot(call.index)
    }
    function Payload(): string {
      if TextPiece? then text else Arguments(call)
    }
  }

  function CallPieces(calls: seq<ToolCallDelta>): (pieces: seq<Piece>)
    ensures |pieces| == |calls|
    ensures forall i | 0 <= i < |calls| :: pieces[i] == CallPiece(calls[i])
  {
    if calls == [] then [] else [CallPiece(calls[0])] + CallPieces(calls[1..])
  }

  function TextPieces(content: string): seq<Piece> {
    if content == "" then [] else [TextPiece(content)]
  }

  function DecodedPieces(d: Decoded): seq<Piece> {
    TextPieces(d.content) + CallPieces(d.calls)
  }

  function ChunkPieces(chunk: Chunk): seq<Piece> {
    match DecodeTranslated(chunk)
    case Ok(d) => DecodedPieces(d)
    case Err(_) => []
  }

  function Pieces(chunks: seq<Chunk>): seq<Piece> {
    if chunks == [] then [] else Pieces(chunks[..|chunks| - 1]) + ChunkPieces(chunks[|chunks| - 1])
  }

  // Everything a stream carries for one slot, joined in arrival order.
  function Payload(pieces: seq<Piece>, slot: Slot): string {
    if pieces == [] then ""
    else
      var last := pieces[|pieces| - 1];
      Payload(pieces[..|pieces| - 1], slot) + if last.Slot() == slot then last.Payload() else ""
  }

  // The slots of a stream in order of first appearance.
  function Appearances(pieces: seq<Piece>): seq<Slot> {
    if pieces == [] then []
    else
      var before := Appearances(pieces[..|pieces| - 1]);
      var slot := pieces[|pieces| - 1].Slot();
      if slot in before then before else before + [slot]
  }

  // The fragment that opens a slot.
  function Opening(pieces: seq<Piece>, slot: Slot): (piece: Piece)
    requires slot in Appearances(pieces)
    ensures piece.Slot() == slot
  {
    if slot in Appearances(pieces[..|pieces| - 1]) then Opening(pieces[..|pieces| - 1], slot)
    else pieces[|pieces| - 1]
  }

  // What one more piece changes.
  lemma SnocFacts(pieces: seq<Piece>, p: Piece)
    ensures (pieces + [p])[..|pieces + [p]| - 1] == pieces
    ensures Appearances(pieces + [p]) == if p.Slot() in Appearances(pieces) then Appearances(pieces) else Appearances(pieces) + [p.Slot()]
    ensures forall slot :: Payload(pieces + [p], slot) == Payload(pieces, slot) + if p.Slot() == slot then p.Payload() else ""
    ensures forall slot :: slot in Appearances(pieces) ==> Opening(pieces + [p], slot) == Opening(pieces, slot)
    ensures p.Slot() !in Appearances(pieces) ==> Opening(pieces + [p], p.Slot()) == p
  {
    assert (pieces + [p])[..|pieces + [p]| - 1] == pieces;
  }

  lemma {:induction false} SlotAbsent(pieces: seq<Piece>, slot: Slot)
    requires slot !in Appearances(pieces)
    ensures Payload(pieces, slot) == ""
  {
    if pieces != [] {
      SlotAbsent(pieces[..|pieces| - 1], slot);
    }
  }

  // The last finish reason a stream states, "" when it states none.
  function LastReason(chunks: seq<Chunk>): string {
    if chunks == [] then ""
    else
      var rest := LastReason(chunks[..|chunks| - 1]);
      match DecodeTranslated(chunks[|chunks| - 1])
      case Ok(d) => if d.finishReason.Reason? then d.finishReason.text else rest
      case Err(_) => rest
  }

  // The last usage report of a stream.
  function LastUsage(chunks: seq<Chunk>): Option<ProviderUsage> {
    if chunks == [] then None
    else if chunks[|chunks| - 1].usage.Some? then chunks[|chunks| - 1].usage
    else LastUsage(chunks[..|chunks| - 1])
  }
}
