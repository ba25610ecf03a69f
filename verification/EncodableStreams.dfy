/** Which streams an encoder can take, said of the chunks alone. */
module EncodableStreams {
  import opened Wrappers
  import opened StreamChunks

  // The chunk shows the encoders one choice and, if any, a readable finish reason.
  predicate Decodes(chunk: Chunk) {
    DecodeTranslated(chunk).Ok? && !DecodeTranslated(chunk).value.finishReason.BadReason?
  }

  // A call fragment that can open a tool.
  predicate Opens(call: ToolCallDelta) {
    ValidToolCallId(call.id) && call.func.Some? && ValidToolName(call.func.value.name)
  }

  // Every piece fits behind those before it.
  predicate FitBehind(fits: (seq<Piece>, Piece) -> bool, before: seq<Piece>, pieces: seq<Piece>) {
    forall i | 0 <= i < |pieces| :: fits(before + pieces[..i], pieces[i])
  }

  predicate Encodable(fits: (seq<Piece>, Piece) -> bool, chunks: seq<Chunk>) {
    (forall chunk <- chunks :: Decodes(chunk)) && FitBehind(fits, [], Pieces(chunks))
  }

  lemma FitConcat(fits: (seq<Piece>, Piece) -> bool, before: seq<Piece>, a: seq<Piece>, b: seq<Piece>)
    ensures FitBehind(fits, before, a + b) <==> FitBehind(fits, before, a) && FitBehind(fits, before + a, b)
  {
    var all := a + b;
    forall i | 0 <= i < |a|
      ensures all[i] == a[i] && before + all[..i] == before + a[..i]
    {
      assert all[..i] == a[..i];
    }
    forall i | 0 <= i < |b|
      ensures all[|a| + i] == b[i] && before + all[..|a| + i] == (before + a) + b[..i]
    {
      assert all[..|a| + i] == a + b[..i];
    }
    if FitBehind(fits, before, all) {
      forall i | 0 <= i < |b|
        ensures fits((before + a) + b[..i], b[i])
      {
        assert fits(before + all[..|a| + i], all[|a| + i]);
      }
      forall i | 0 <= i < |a|
        ensures fits(before + a[..i], a[i])
      {
        assert fits(before + all[..i], all[i]);
      }
    }
    if FitBehind(fits, before, a) && FitBehind(fits, before + a, b) {
      forall i | 0 <= i < |all|
        ensures fits(before + all[..i], all[i])
      {
        if i >= |a| {
          assert fits((before + a) + b[..i - |a|], b[i - |a|]);
        }
      }
    }
  }

  lemma FitOne(fits: (seq<Piece>, Piece) -> bool, before: seq<Piece>, p: Piece)
    ensures FitBehind(fits, before, [p]) <==> fits(before, p)
  {
    assert [p][..0] == [] && before + [] == before;
  }

  lemma FitNone(fits: (seq<Piece>, Piece) -> bool, before: seq<Piece>)
    ensures FitBehind(fits, before, [])
  {
  }

  // One more chunk.
  lemma EncodableSnoc(fits: (seq<Piece>, Piece) -> bool, chunks: seq<Chunk>)
    requires chunks != []
    ensures var front, last := chunks[..|chunks| - 1], chunks[|chunks| - 1];
            Encodable(fits, chunks) <==> Encodable(fits, front) && Decodes(last) && FitBehind(fits, Pieces(front), ChunkPieces(last))
  {
    hide Decodes, FitBehind, ChunkPieces;
    var front, last := chunks[..|chunks| - 1], chunks[|chunks| - 1];
    FitConcat(fits, [], Pieces(front), ChunkPieces(last));
    assert [] + Pieces(front) == Pieces(front);
    assert chunks == front + [last];
  }
}
