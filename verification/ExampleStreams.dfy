/** Short streams on which the streaming and the buffered encoders can be compared. */
module ExampleStreams {
  import opened Wrappers
  import opened StreamChunks

  function Says(delta: Delta, reason: FinishField): Chunk {
    Chunk("chat-1", "m", Listed([Choice(0, delta, reason)]), None, false)
  }

  lemma SaysOne(delta: Delta, reason: FinishField)
    requires ValidDelta(delta) && ValidFinish(reason)
    ensures ConsumeAll("", [Says(delta, reason)]).Some? && ConsumeAll("", [Says(delta, reason)]).value.sawChoice
    ensures DecodeTranslated(Says(delta, reason)) == Ok(Decoded(Content(delta), Calls(delta), reason))
    ensures Pieces([Says(delta, reason)]) == DecodedPieces(Decoded(Content(delta), Calls(delta), reason))
  {
    hide SafeProviderId, SafeModel;
    var chunk := Says(delta, reason);
    assert [chunk][..0] == [];
    assert Pieces([]) + ChunkPieces(chunk) == ChunkPieces(chunk);
  }

  // Text that stops, text that never states a reason, and a stop without a word.
  const GREETING := Says(Delta("assistant", Some("Hi"), None), Reason("stop"))
  const UNFINISHED := Says(Delta("assistant", Some("Hi"), None), NoReason)
  const SILENCE := Says(Delta("assistant", None, None), Reason("stop"))

  // A call whose argument is a number no floating-point number reaches.
  const HUGE := "{\"n\":1e999}"
  const OVERFLOWS := Says(Delta("assistant", None, Some([Lookup(HUGE)])), Reason("tool_calls"))

  // A call, then text, then a report whose top-level and nested details contradict.
  function Lookup(arguments: string): ToolCallDelta {
    ToolCallDelta(0, "call_1", "function", Some(FunctionDelta("lookup", arguments)))
  }

  const LOOKUP := Lookup("{}")
  const LOOKS_UP := Says(Delta("assistant", None, Some([LOOKUP])), NoReason)
  const SPEAKS := Says(Delta("", Some("Hi"), None), Reason("tool_calls"))
  const CONFLICT := ProviderUsage(Some(5), Some(3), Some(1), None, Some(2), None)
  const REPORTS := Chunk("chat-1", "m", EmptyChoices, Some(CONFLICT), false)
  const PARTING := [LOOKS_UP, SPEAKS, REPORTS]

  lemma LookupNames()
    ensures ValidToolCallId("call_1") && ValidToolName("lookup")
  {
  }

  lemma PartingDecodes()
    ensures DecodeTranslated(LOOKS_UP) == Ok(Decoded("", [LOOKUP], NoReason))
    ensures DecodeTranslated(SPEAKS) == Ok(Decoded("Hi", [], Reason("tool_calls")))
    ensures DecodeTranslated(REPORTS) == Ok(Decoded("", [], NoReason))
  {
  }

  lemma PartingPrefixes()
    ensures PARTING[..2] == [LOOKS_UP, SPEAKS] && [LOOKS_UP, SPEAKS][..1] == [LOOKS_UP] && [LOOKS_UP][..0] == []
    ensures |PARTING| == 3 && PARTING[2] == REPORTS && PARTING[0] == LOOKS_UP
  {
  }

  lemma PartingPieces()
    ensures Pieces(PARTING) == [CallPiece(LOOKUP), TextPiece("Hi")]
    ensures LastUsage(PARTING) == Some(CONFLICT) && LastReason(PARTING) == "tool_calls"
  {
    PartingDecodes();
    PartingPrefixes();
    hide DecodeTranslated;
    assert CallPieces([LOOKUP]) == [CallPiece(LOOKUP)];
    assert Pieces([LOOKS_UP]) == [CallPiece(LOOKUP)];
    assert Pieces([LOOKS_UP, SPEAKS]) == [CallPiece(LOOKUP), TextPiece("Hi")];
    assert LastReason([LOOKS_UP, SPEAKS]) == "tool_calls";
  }

  lemma PartingConsumed()
    ensures ConsumeAll("", PARTING).Some?
  {
    LookupNames();
    PartingPrefixes();
    hide SafeProviderId, SafeModel, ValidToolCallId, ValidToolName;
    assert ValidCallDelta(LOOKUP);
    assert ValidDelta(Delta("assistant", None, Some([LOOKUP]))) && ValidDelta(Delta("", Some("Hi"), None));
    assert ConsumeAll("", [LOOKS_UP]).Some? && ConsumeAll("", [LOOKS_UP]).value.sawChoice;
    assert ConsumeAll("", [LOOKS_UP, SPEAKS]).Some? && ConsumeAll("", [LOOKS_UP, SPEAKS]).value.sawChoice;
  }

  lemma CallBeforeText(call: ToolCallDelta, text: string)
    ensures Appearances([CallPiece(call), TextPiece(text)]) == [ToolSlot(call.index), TextSlot]
    ensures Opening([CallPiece(call), TextPiece(text)], ToolSlot(call.index)) == CallPiece(call)
    ensures Payload([CallPiece(call), TextPiece(text)], ToolSlot(call.index)) == Arguments(call)
  {
    var pieces := [CallPiece(call), TextPiece(text)];
    assert pieces[..1] == [CallPiece(call)] && pieces[..1][..0] == [];
    assert Appearances(pieces[..1]) == [ToolSlot(call.index)];
    assert Payload(pieces[..1], ToolSlot(call.index)) == "" + Arguments(call);
    assert Payload(pieces, ToolSlot(call.index)) == ("" + Arguments(call)) + "";
  }

  lemma OneCall(call: ToolCallDelta)
    ensures Appearances([CallPiece(call)]) == [ToolSlot(call.index)]
    ensures Opening([CallPiece(call)], ToolSlot(call.index)) == CallPiece(call)
    ensures Payload([CallPiece(call)], ToolSlot(call.index)) == Arguments(call)
  {
    var pieces := [CallPiece(call)];
    assert pieces[..0] == [];
    assert Payload(pieces, ToolSlot(call.index)) == "" + Arguments(call);
  }

  lemma OverflowsSays()
    ensures ConsumeAll("", [OVERFLOWS]).Some?
    ensures DecodeTranslated(OVERFLOWS) == Ok(Decoded("", [Lookup(HUGE)], Reason("tool_calls")))
    ensures Pieces([OVERFLOWS]) == [CallPiece(Lookup(HUGE))]
    ensures LastReason([OVERFLOWS]) == "tool_calls"
  {
    LookupNames();
    hide ValidToolCallId, ValidToolName;
    var delta := Delta("assistant", None, Some([Lookup(HUGE)]));
    assert ValidCallDelta(Lookup(HUGE)) && ValidDelta(delta);
    SaysOne(delta, Reason("tool_calls"));
    assert CallPieces([Lookup(HUGE)]) == [CallPiece(Lookup(HUGE))];
    assert [OVERFLOWS][..0] == [];
  }
}
