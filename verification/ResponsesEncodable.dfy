/** Exactly which streams the Responses encoder takes, and which it finishes. */
module ResponsesEncodable {
  import opened Wrappers
  import opened StreamChunks
  import opened EncoderSteps
  import opened EncodableStreams
  import opened Completions
  import opened ResponsesStream
  import opened ResponsesTrace
  import opened ResponsesBuffered

  function PublicNameOf(cfg: Config, call: ToolCallDelta): string {
    if call.func.Some? then ResponsesFunctionCall(call.func.value.name, cfg.aliases).name else ""
  }

  // A fragment either opens its tool with a valid id and name, or repeats neither with another value.
  predicate Fits(cfg: Config, before: seq<Piece>, p: Piece) {
    p.CallPiece? ==>
      if p.Slot() !in Appearances(before) then Opens(p.call) else
      var opening := Opening(before, p.Slot()).call;
      && (p.call.id == "" || p.call.id == opening.id)
      && (p.call.func.Some? && p.call.func.value.name != "" ==> PublicNameOf(cfg, p.call) == PublicNameOf(cfg, opening))
  }

  function Fitting(cfg: Config): (seq<Piece>, Piece) -> bool {
    (before, p) => Fits(cfg, before, p)
  }

  lemma CallFits(cfg: Config, s: State, pieces: seq<Piece>, call: ToolCallDelta)
    requires Tracks(cfg, s, pieces)
    ensures EncodeCall(cfg, s, call).result.Ok? <==> Fitting(cfg)(pieces, CallPiece(call))
  {
    var slot := ToolSlot(call.index);
    if call.index in s.tools {
      assert ToolTracks(cfg, s.tools[call.index], Opening(pieces, slot).call, Payload(pieces, slot));
      assert slot in Appearances(pieces);
    } else {
      assert slot !in Appearances(pieces);
    }
  }

  lemma {:induction false} CallsFit(cfg: Config, s: State, pieces: seq<Piece>, trace: seq<Event>, calls: seq<ToolCallDelta>)
    requires Agrees(cfg, s, pieces, trace)
    ensures EncodeCalls(cfg, s, calls).result.Ok? <==> FitBehind(Fitting(cfg), pieces, CallPieces(calls))
    decreases |calls|
  {
    hide Agrees, EncodeCall, FitBehind, Fitting, Tracks;
    if calls == [] {
      FitNone(Fitting(cfg), pieces);
    } else {
      var first := EncodeCall(cfg, s, calls[0]);
      assert Tracks(cfg, s, pieces) by { AgreesTracks(cfg, s, pieces, trace); }
      CallFits(cfg, s, pieces, calls[0]);
      FitOne(Fitting(cfg), pieces, CallPiece(calls[0]));
      FitConcat(Fitting(cfg), pieces, [CallPiece(calls[0])], CallPieces(calls[1..]));
      if first.result.Ok? {
        CallAgrees(cfg, s, pieces, trace, calls[0]);
        CallsFit(cfg, first.state, pieces + [CallPiece(calls[0])], trace + first.result.value, calls[1..]);
      }
    }
  }

  lemma AgreesTracks(cfg: Config, s: State, pieces: seq<Piece>, trace: seq<Event>)
    requires Agrees(cfg, s, pieces, trace)
    ensures Tracks(cfg, s, pieces)
  {
  }

  lemma TextFits(cfg: Config, before: seq<Piece>, content: string)
    ensures FitBehind(Fitting(cfg), before, TextPieces(content))
  {
    if content != "" {
      FitOne(Fitting(cfg), before, TextPiece(content));
    }
  }

  lemma DeltaFits(cfg: Config, s: State, pieces: seq<Piece>, trace: seq<Event>, d: Decoded)
    requires Agrees(cfg, s, pieces, trace)
    ensures EncodeDelta(cfg, s, d).result.Ok?
            <==> !d.finishReason.BadReason? && FitBehind(Fitting(cfg), pieces, DecodedPieces(d))
  {
    hide Agrees, EncodeText, EncodeCalls, FitBehind, Fitting, TextPieces, CallPieces;
    if !d.finishReason.BadReason? {
      var s1 := TakeReason(s, d.finishReason);
      ReasonAgrees(cfg, s, pieces, trace, d.finishReason);
      var text := EncodeText(cfg, s1, d.content);
      TextAgrees(cfg, s1, pieces, trace, d.content);
      CallsFit(cfg, text.state, pieces + TextPieces(d.content), trace + text.result.value, d.calls);
      TextFits(cfg, pieces, d.content);
      FitConcat(Fitting(cfg), pieces, TextPieces(d.content), CallPieces(d.calls));
    }
  }

  lemma ChunkFits(cfg: Config, s: State, pieces: seq<Piece>, trace: seq<Event>, chunk: Chunk)
    requires if s.started then Agrees(cfg, s, pieces, trace) else s == INITIAL && pieces == [] && trace == []
    ensures Encode(cfg, s, chunk).result.Ok? <==> Decodes(chunk) && FitBehind(Fitting(cfg), pieces, ChunkPieces(chunk))
  {
    hide Agrees, EncodeDelta, DecodeTranslated, DecodedPieces, FitBehind, Fitting;
    var start := Start(cfg, s, chunk);
    if !s.started {
      StartAgrees(cfg, chunk);
    }
    if DecodeTranslated(chunk).Ok? {
      DeltaFits(cfg, start.state, pieces, if s.started then trace else start.result.value, DecodeTranslated(chunk).value);
    }
  }

  // The encoder takes a stream exactly when every chunk decodes, every tool opens with a valid id and
  // name, and later fragments name no other id and no other public name.
  lemma {:induction false} EncodesExactly(cfg: Config, chunks: seq<Chunk>)
    ensures EncodeAll(cfg, chunks).result.Ok? <==> Encodable(Fitting(cfg), chunks)
  {
    hide Agrees, Encode, Encodable, Fitting, Pieces, ChunkPieces, Decodes, FitBehind;
    if chunks == [] {
      NothingEncodable(cfg);
    } else {
      var front, last := chunks[..|chunks| - 1], chunks[|chunks| - 1];
      EncodesExactly(cfg, front);
      EncodableSnoc(Fitting(cfg), chunks);
      var before := EncodeAll(cfg, front);
      if before.result.Ok? {
        StreamAgrees(cfg, front);
        StreamStarted(cfg, front);
        ChunkFits(cfg, before.state, Pieces(front), before.result.value, last);
      }
    }
  }

  lemma NothingEncodable(cfg: Config)
    ensures Encodable(Fitting(cfg), [])
  {
  }

  lemma StreamStarted(cfg: Config, chunks: seq<Chunk>)
    requires EncodeAll(cfg, chunks).result.Ok?
    ensures EncodeAll(cfg, chunks).state.started <==> chunks != []
    ensures chunks == [] ==> Pieces(chunks) == []
  {
    StreamReason(cfg, chunks);
  }

  // It finishes one exactly when, besides, there is a chunk, the buffered encoder takes the completion
  // and the last finish reason is known.
  lemma FinishesExactly(cfg: Config, jsonObject: string -> bool, chunks: seq<Chunk>, created: int, usage: TokenUsage)
    ensures Translate(cfg, jsonObject, chunks, usage).result.Ok?
            <==> && chunks != [] && Encodable(Fitting(cfg), chunks)
                 && EncodeResponse(cfg, jsonObject, Assemble(chunks, created)).Some?
                 && LastReason(chunks) in {"length", "stop", "tool_calls"}
  {
    hide Translate, Encodable, EncodeResponse, Assemble, LastReason, Fitting;
    EncodesExactly(cfg, chunks);
    if EncodeAll(cfg, chunks).result.Ok? && chunks != [] {
      StreamingAcceptsBuffered(cfg, jsonObject, chunks, created, usage);
    }
    if Translate(cfg, jsonObject, chunks, usage).result.Ok? {
      TranslateNeedsStart(cfg, jsonObject, chunks, usage);
      TerminalFields(cfg, jsonObject, chunks, usage);
    }
  }
}
