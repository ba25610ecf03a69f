/** Exactly which streams the Anthropic encoder takes, and which it finishes. */
module AnthropicEncodable {
  import opened Wrappers
  import opened StreamChunks
  import opened EncoderSteps
  import opened EncodableStreams
  import opened Completions
  import opened AnthropicStream
  import opened AnthropicTrace
  import opened AnthropicBuffered

  // The first fragment of a tool opens it with a valid id and name; later ones are not looked at.
  predicate Fits(before: seq<Piece>, p: Piece) {
    p.CallPiece? && p.Slot() !in Appearances(before) ==> Opens(p.call)
  }

  lemma CallFits(s: State, pieces: seq<Piece>, call: ToolCallDelta)
    requires Tracks(s, pieces)
    ensures EncodeCall(s, call).result.Ok? <==> Fits(pieces, CallPiece(call))
  {
    var slot := ToolSlot(call.index);
    if call.index in s.tools {
      assert ToolTracks(s.tools[call.index], Opening(pieces, slot).call, Payload(pieces, slot));
      assert slot in Appearances(pieces);
    } else {
      assert slot !in Appearances(pieces);
    }
  }

  lemma {:induction false} CallsFit(s: State, pieces: seq<Piece>, trace: seq<Event>, calls: seq<ToolCallDelta>)
    requires Agrees(s, pieces, trace)
    ensures EncodeCalls(s, calls).result.Ok? <==> FitBehind(Fits, pieces, CallPieces(calls))
    decreases |calls|
  {
    hide Agrees, EncodeCall, FitBehind, Fits, Tracks;
    if calls == [] {
      FitNone(Fits, pieces);
    } else {
      var first := EncodeCall(s, calls[0]);
      assert Tracks(s, pieces) by { AgreesTracks(s, pieces, trace); }
      CallFits(s, pieces, calls[0]);
      FitOne(Fits, pieces, CallPiece(calls[0]));
      FitConcat(Fits, pieces, [CallPiece(calls[0])], CallPieces(calls[1..]));
      if first.result.Ok? {
        CallAgrees(s, pieces, trace, calls[0]);
        CallsFit(first.state, pieces + [CallPiece(calls[0])], trace + first.result.value, calls[1..]);
      }
    }
  }

  lemma AgreesTracks(s: State, pieces: seq<Piece>, trace: seq<Event>)
    requires Agrees(s, pieces, trace)
    ensures Tracks(s, pieces)
  {
  }

  lemma TextFits(before: seq<Piece>, content: string)
    ensures FitBehind(Fits, before, TextPieces(content))
  {
    if content != "" {
      FitOne(Fits, before, TextPiece(content));
    }
  }

  lemma DeltaFits(s: State, pieces: seq<Piece>, trace: seq<Event>, d: Decoded)
    requires Agrees(s, pieces, trace)
    ensures EncodeDelta(s, d).result.Ok?
            <==> !d.finishReason.BadReason? && FitBehind(Fits, pieces, DecodedPieces(d))
  {
    hide Agrees, EncodeText, EncodeCalls, FitBehind, Fits, TextPieces, CallPieces;
    if !d.finishReason.BadReason? {
      var s1 := TakeReason(s, d.finishReason);
      ReasonAgrees(s, pieces, trace, d.finishReason);
      var text := EncodeText(s1, d.content);
      TextAgrees(s1, pieces, trace, d.content);
      CallsFit(text.state, pieces + TextPieces(d.content), trace + text.result.value, d.calls);
      TextFits(pieces, d.content);
      FitConcat(Fits, pieces, TextPieces(d.content), CallPieces(d.calls));
    }
  }

  lemma ChunkFits(cfg: Config, s: State, pieces: seq<Piece>, trace: seq<Event>, chunk: Chunk)
    requires if s.started then Agrees(s, pieces, trace) else s == INITIAL && pieces == [] && trace == []
    ensures Encode(cfg, s, chunk).result.Ok? <==> Decodes(chunk) && FitBehind(Fits, pieces, ChunkPieces(chunk))
  {
    hide Agrees, EncodeDelta, DecodeTranslated, DecodedPieces, FitBehind, Fits;
    var start := Start(cfg, s, chunk);
    if !s.started {
      StartAgrees(cfg, chunk);
    }
    if DecodeTranslated(chunk).Ok? {
      DeltaFits(start.state, pieces, if s.started then trace else start.result.value, DecodeTranslated(chunk).value);
    }
  }

  // The encoder takes a stream exactly when every chunk decodes, every tool opens with a valid id and
  // name, and later fragments name no other id and no other public name.
  lemma {:induction false} EncodesExactly(cfg: Config, chunks: seq<Chunk>)
    ensures EncodeAll(cfg, chunks).result.Ok? <==> Encodable(Fits, chunks)
  {
    hide Agrees, Encode, Encodable, Fits, Pieces, ChunkPieces, Decodes, FitBehind;
    if chunks == [] {
      NothingEncodable(cfg);
    } else {
      var front, last := chunks[..|chunks| - 1], chunks[|chunks| - 1];
      EncodesExactly(cfg, front);
      EncodableSnoc(Fits, chunks);
      var before := EncodeAll(cfg, front);
      if before.result.Ok? {
        StreamAgrees(cfg, front);
        StreamStarted(cfg, front);
        ChunkFits(cfg, before.state, Pieces(front), before.result.value, last);
      }
    }
  }

  lemma NothingEncodable(cfg: Config)
    ensures Encodable(Fits, [])
  {
  }

  lemma StreamStarted(cfg: Config, chunks: seq<Chunk>)
    requires EncodeAll(cfg, chunks).result.Ok?
    ensures EncodeAll(cfg, chunks).state.started <==> chunks != []
    ensures chunks == [] ==> Pieces(chunks) == []
  {
    StreamReason(cfg, chunks);
  }

  lemma TranslateNeedsChunks(cfg: Config, jsonObject: string -> bool, chunks: seq<Chunk>, usage: TokenUsage)
    requires Translate(cfg, jsonObject, chunks, usage).result.Ok?
    ensures chunks != []
  {
  }

  // It finishes one exactly when, besides, there is a chunk, all arguments are objects and the last finish
  // reason is known.
  lemma FinishesExactly(cfg: Config, jsonObject: string -> bool, chunks: seq<Chunk>, created: int, usage: TokenUsage)
    ensures Translate(cfg, jsonObject, chunks, usage).result.Ok?
            <==> && chunks != [] && Encodable(Fits, chunks)
                 && (forall call <- Assemble(chunks, created).calls :: jsonObject(call.arguments))
                 && LastReason(chunks) in {"stop", "length", "tool_calls"}
  {
    hide Translate, Encodable, EncodeResponse, Assemble, LastReason, Fits, Pieces, Appearances;
    EncodesExactly(cfg, chunks);
    if EncodeAll(cfg, chunks).result.Ok? && chunks != [] {
      EachAccepts(cfg, jsonObject, (text: string) => Some(text), chunks, created, usage);
    }
    if Translate(cfg, jsonObject, chunks, usage).result.Ok? {
      TranslateNeedsChunks(cfg, jsonObject, chunks, usage);
      TranslateEncodes(cfg, jsonObject, chunks, usage);
    }
  }
}
