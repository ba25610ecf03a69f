/**
 The bracketing of an Anthropic event trace, said of the trace alone, and the exact condition
 under which every delta names the open block.
 */
module AnthropicGrammar {
  import opened Wrappers
  import opened StreamChunks
  import opened EncoderSteps
  import opened AnthropicStream
  import opened AnthropicTrace

  datatype Mark = Started(index: nat) | Ended(index: nat)

  function MarkOf(e: Event): seq<Mark> {
    match e
    case BlockStart(k, _) => [Started(k)]
    case BlockStop(k) => [Ended(k)]
    case _ => []
  }

  // The block starts and stops of a trace.
  function Marks(trace: seq<Event>): seq<Mark> {
    if trace == [] then [] else Marks(trace[..|trace| - 1]) + MarkOf(trace[|trace| - 1])
  }

  // Started 0, Ended 0, Started 1, Ended 1, ...
  function Alternating(n: nat): seq<Mark> {
    if n == 0 then [] else Alternating(n - 1) + [Started(n - 1), Ended(n - 1)]
  }

  // The block that was started last and not stopped since.
  function OpenAt(trace: seq<Event>): Option<nat> {
    var marks := Marks(trace);
    if marks != [] && marks[|marks| - 1].Started? then Some(marks[|marks| - 1].index) else None
  }

  predicate DeltasNameOpenBlock(trace: seq<Event>) {
    forall i | 0 <= i < |trace| && trace[i].ContentDelta? :: OpenAt(trace[..i]) == Some(trace[i].index)
  }

  function DeltaFor(e: Event, k: nat): string {
    if e.ContentDelta? && e.index == k then DeltaText(e.delta) else ""
  }

  // All deltas for one block, joined.
  function Deltas(trace: seq<Event>, k: nat): string {
    if trace == [] then "" else Deltas(trace[..|trace| - 1], k) + DeltaFor(trace[|trace| - 1], k)
  }

  predicate BlockEvent(e: Event) {
    e.BlockStart? || e.ContentDelta? || e.BlockStop?
  }

  // message_start first, message_delta and message_stop last, block events in between.
  predicate Framed(trace: seq<Event>) {
    && |trace| >= 3
    && trace[0].MessageStart? && trace[|trace| - 2].MessageDelta? && trace[|trace| - 1].MessageStop?
    && forall i | 0 < i < |trace| - 2 :: BlockEvent(trace[i])
  }

  predicate PhaseFits(trace: seq<Event>, phase: Phase) {
    match phase
    case Expecting => trace == []
    case Streaming(_) => |trace| > 0 && trace[0].MessageStart? && forall i | 0 < i < |trace| :: BlockEvent(trace[i])
    case Ending(_) =>
      && |trace| >= 2 && trace[0].MessageStart? && trace[|trace| - 1].MessageDelta?
      && forall i | 0 < i < |trace| - 1 :: BlockEvent(trace[i])
    case Stopped(_) => Framed(trace)
  }

  ghost predicate Fits(trace: seq<Event>, c: Client) {
    && PhaseFits(trace, c.phase)
    && (match c.open
        case None => Marks(trace) == Alternating(|c.blocks|)
        case Some(k) => |c.blocks| == k + 1 && Marks(trace) == Alternating(k) + [Started(k)])
    && (c.strays == 0 <==> DeltasNameOpenBlock(trace))
    && (forall k: nat :: Deltas(trace, k) == if k < |c.blocks| then c.blocks[k].received else "")
  }

  lemma AlternatingEnds(n: nat)
    ensures n > 0 ==> Alternating(n)[|Alternating(n)| - 1].Ended?
    ensures n == 0 ==> Alternating(n) == []
  {
  }

  lemma OpenAtFits(trace: seq<Event>, c: Client)
    requires Fits(trace, c)
    ensures OpenAt(trace) == c.open
  {
    AlternatingEnds(|c.blocks|);
  }

  lemma NamesStep(trace: seq<Event>, e: Event)
    ensures DeltasNameOpenBlock(trace + [e]) <==>
            DeltasNameOpenBlock(trace) && (e.ContentDelta? ==> OpenAt(trace) == Some(e.index))
  {
    hide OpenAt;
    var longer := trace + [e];
    assert longer[..|trace|] == trace;
    assert forall i | 0 <= i < |trace| :: longer[..i] == trace[..i] && longer[i] == trace[i];
    if DeltasNameOpenBlock(longer) {
      forall i | 0 <= i < |trace| && trace[i].ContentDelta? ensures OpenAt(trace[..i]) == Some(trace[i].index) {
        assert longer[i] == trace[i];
      }
      if e.ContentDelta? {
        assert longer[|trace|] == e;
      }
    }
  }

  lemma PhaseStep(trace: seq<Event>, e: Event, c: Client, next: Client)
    requires PhaseFits(trace, c.phase) && Receive(c, e) == Some(next)
    ensures PhaseFits(trace + [e], next.phase)
  {
    var longer := trace + [e];
    assert forall i | 0 <= i < |trace| :: longer[i] == trace[i];
  }

  lemma DeltasStep(trace: seq<Event>, e: Event, c: Client, next: Client, k: nat)
    requires Receive(c, e) == Some(next)
    requires Deltas(trace, k) == if k < |c.blocks| then c.blocks[k].received else ""
    ensures Deltas(trace + [e], k) == if k < |next.blocks| then next.blocks[k].received else ""
  {
    var longer := trace + [e];
    assert longer[..|longer| - 1] == trace;
    assert Deltas(trace, k) + "" == Deltas(trace, k);
  }

  lemma StraysStep(c: Client, e: Event, next: Client)
    requires Receive(c, e) == Some(next)
    ensures next.strays == 0 <==> c.strays == 0 && (e.ContentDelta? ==> c.open == Some(e.index))
  {
  }

  lemma FitsStep(trace: seq<Event>, e: Event, c: Client, next: Client)
    requires Fits(trace, c) && Receive(c, e) == Some(next)
    ensures Fits(trace + [e], next)
  {
    hide DeltasNameOpenBlock, OpenAt, Alternating, Receive, PhaseFits, Deltas, Marks;
    OpenAtFits(trace, c);
    NamesStep(trace, e);
    StraysStep(c, e, next);
    forall k: nat ensures Deltas(trace + [e], k) == if k < |next.blocks| then next.blocks[k].received else "" {
      DeltasStep(trace, e, c, next, k);
    }
    MarksStep(trace, e, c, next);
    PhaseStep(trace, e, c, next);
  }

  lemma MarksStep(trace: seq<Event>, e: Event, c: Client, next: Client)
    requires Fits(trace, c) && Receive(c, e) == Some(next)
    ensures match next.open
            case None => Marks(trace + [e]) == Alternating(|next.blocks|)
            case Some(k) => |next.blocks| == k + 1 && Marks(trace + [e]) == Alternating(k) + [Started(k)]
  {
    assert (trace + [e])[..|trace + [e]| - 1] == trace;
    if e.BlockStop? {
      var k := c.open.value;
      assert (Alternating(k) + [Started(k)]) + [Ended(k)] == Alternating(k + 1);
    } else if !e.BlockStart? {
      assert Marks(trace) + [] == Marks(trace);
    }
  }

  lemma FitsNothing()
    ensures Fits([], FRESH)
  {
  }

  lemma {:induction false} FitsAll(trace: seq<Event>)
    requires ReceiveAll(FRESH, trace).Some?
    ensures Fits(trace, ReceiveAll(FRESH, trace).value)
  {
    if trace == [] {
      FitsNothing();
    } else {
      hide Fits, Receive;
      var before := trace[..|trace| - 1];
      FitsAll(before);
      FitsStep(before, trace[|trace| - 1], ReceiveAll(FRESH, before).value, ReceiveAll(FRESH, trace).value);
      assert trace == before + [trace[|trace| - 1]];
    }
  }

  // Every finished stream: framed, blocks 0..m-1 strictly alternating and all stopped, block k with
  // the joined payload of the k-th slot to appear; and each delta names the open block if and only
  // if the upstream never returns to a slot it left for a new one.
  lemma FinishedStreamGrammatical(cfg: Config, jsonObject: string -> bool, chunks: seq<Chunk>, usage: TokenUsage)
    requires Translate(cfg, jsonObject, chunks, usage).result.Ok?
    ensures var trace := Translate(cfg, jsonObject, chunks, usage).result.value;
            var order := Appearances(Pieces(chunks));
            && Framed(trace)
            && Marks(trace) == Alternating(|order|)
            && (forall k | 0 <= k < |order| :: Deltas(trace, k) == Payload(Pieces(chunks), order[k]))
            && (DeltasNameOpenBlock(trace) <==> SinglePass(Pieces(chunks)))
  {
    hide Translate, ReceiveAll, Marks, Alternating, Deltas, Payload, Pieces, Appearances, SinglePass, DeltasNameOpenBlock, Framed;
    FinishedStreamBracketed(cfg, jsonObject, chunks, usage);
    var trace := Translate(cfg, jsonObject, chunks, usage).result.value;
    FitsAll(trace);
    var end := ReceiveAll(FRESH, trace).value;
    forall k | 0 <= k < |end.blocks|
      ensures Deltas(trace, k) == Payload(Pieces(chunks), Appearances(Pieces(chunks))[k])
    {
      assert end.blocks[k].received == Payload(Pieces(chunks), Appearances(Pieces(chunks))[k]);
    }
  }

  function Delivering(content: Option<string>, calls: seq<ToolCallDelta>, reason: FinishField): Chunk {
    Chunk("", "", Listed([Choice(0, Delta("", content, if calls == [] then None else Some(calls)), reason)]), None, false)
  }

  const SEARCH := ToolCallDelta(0, "call_1", "function", Some(FunctionDelta("search", "{}")))

  lemma SearchValid()
    ensures ValidToolCallId(SEARCH.id) && ValidToolName(SEARCH.func.value.name)
  {
  }

  const HI := Delivering(Some("Hi"), [], NoReason)
  const CALL := Delivering(None, [SEARCH], NoReason)
  const MORE := Delivering(Some("!"), [], Reason("stop"))

  function AfterHi(cfg: Config): State {
    State(cfg.requestId, true, true, 0, "Hi", map[], 1, 0, "")
  }

  function AfterCall(cfg: Config): State {
    AfterHi(cfg).(tools := map[0 := Tool("call_1", "search", "{}", 1)], nextBlock := 2, openBlock := 1)
  }

  function HiEvents(cfg: Config): seq<Event> {
    [MessageStart(cfg.requestId, cfg.publicModel), BlockStart(0, TextBlock), ContentDelta(0, TextDelta("Hi"))]
  }

  const CALL_EVENTS := [BlockStop(0), BlockStart(1, ToolUseBlock("call_1", "search")), ContentDelta(1, InputJsonDelta("{}"))]

  lemma HiStep(cfg: Config)
    ensures Encode(cfg, INITIAL, HI) == Step(AfterHi(cfg), Ok(HiEvents(cfg)))
  {
    assert "" + "Hi" == "Hi";
    var start := Start(cfg, INITIAL, HI).state;
    var events := [BlockStart(0, TextBlock), ContentDelta(0, TextDelta("Hi"))];
    assert CloseOpen(start) + events == events && events + [] == events;
    assert [MessageStart(cfg.requestId, cfg.publicModel)] + events == HiEvents(cfg);
    assert EncodeText(start, "Hi") == Step(AfterHi(cfg), Ok(events));
    assert EncodeDelta(start, Decoded("Hi", [], NoReason)) == EncodeText(start, "Hi");
  }

  lemma CallStep(cfg: Config)
    ensures Encode(cfg, AfterHi(cfg), CALL) == Step(AfterCall(cfg), Ok(CALL_EVENTS))
  {
    SearchValid();
    var s := AfterHi(cfg);
    assert "" + "{}" == "{}";
    var begun := OpenTool(s, SEARCH);
    assert [BlockStop(0)] + [BlockStart(1, ToolUseBlock("call_1", "search"))] == CALL_EVENTS[..2];
    assert begun.result == Ok(CALL_EVENTS[..2]) && begun.state.tools == map[0 := Tool("call_1", "search", "", 1)];
    assert begun.state.tools[0 := Tool("call_1", "search", "{}", 1)] == map[0 := Tool("call_1", "search", "{}", 1)];
    assert CALL_EVENTS[2..] == [ContentDelta(1, InputJsonDelta("{}"))];
    assert TakeArguments(begun.state, SEARCH) == Step(AfterCall(cfg), Ok(CALL_EVENTS[2..]));
    assert CALL_EVENTS[..2] + CALL_EVENTS[2..] == CALL_EVENTS && CALL_EVENTS + [] == CALL_EVENTS && [] + CALL_EVENTS == CALL_EVENTS;
    assert EncodeCalls(s, [SEARCH]) == Step(AfterCall(cfg), Ok(CALL_EVENTS));
  }

  lemma MoreStep(cfg: Config)
    ensures Encode(cfg, AfterCall(cfg), MORE)
         == Step(AfterCall(cfg).(text := "Hi!", finishReason := "stop"), Ok([ContentDelta(0, TextDelta("!"))]))
  {
    var events := [ContentDelta(0, TextDelta("!"))];
    assert events + [] == events && [] + events == events;
    assert "Hi" + "!" == "Hi!";
  }

  lemma LateChunks()
    ensures ChunkPieces(HI) == [TextPiece("Hi")]
    ensures ChunkPieces(CALL) == [CallPiece(SEARCH)]
    ensures ChunkPieces(MORE) == [TextPiece("!")]
  {
  }

  lemma LatePieces()
    ensures Pieces([HI, CALL, MORE]) == [TextPiece("Hi"), CallPiece(SEARCH), TextPiece("!")]
  {
    LateChunks();
    hide ChunkPieces;
    assert [HI, CALL, MORE][..2] == [HI, CALL] && [HI, CALL][..1] == [HI] && [HI][..0] == [];
    assert Pieces([HI]) == [TextPiece("Hi")];
    assert Pieces([HI, CALL]) == [TextPiece("Hi"), CallPiece(SEARCH)];
  }

  lemma LateTextStrays(first: Piece, second: Piece, third: Piece)
    requires first.TextPiece? && second.CallPiece? && third.TextPiece? && third.text != ""
    ensures !SinglePass([first, second, third])
  {
    hide IsStray;
    var all := [first, second, third];
    assert all[..2] == [first, second] && [first, second][..1] == [first] && [first][..0] == [];
    assert Appearances([first]) == [TextSlot];
    assert Appearances([first, second]) == [TextSlot, ToolSlot(second.call.index)];
    LateStray([first, second], third);
    assert IsStray(all[..2], all[2]);
  }

  lemma LateStray(pieces: seq<Piece>, p: Piece)
    requires p.TextPiece? && p.text != "" && |Appearances(pieces)| == 2
    requires Appearances(pieces)[0] == TextSlot && Appearances(pieces)[1] != TextSlot
    ensures IsStray(pieces, p)
  {
    SnocFacts(pieces, p);
  }

  lemma LateConsumed()
    ensures ConsumeAll("", [HI, CALL, MORE]).Some?
  {
    SearchValid();
    hide SafeProviderId, SafeModel, ValidToolCallId, ValidToolName;
    assert [HI, CALL, MORE][..2] == [HI, CALL] && [HI, CALL][..1] == [HI] && [HI][..0] == [];
    assert ValidCallDelta(SEARCH);
    assert ConsumeAll("", [HI]).Some? && ConsumeAll("", [HI]).value.sawChoice;
    assert ConsumeAll("", [HI, CALL]).Some? && ConsumeAll("", [HI, CALL]).value.sawChoice;
  }

  lemma LateEncodes(cfg: Config)
    ensures EncodeAll(cfg, [HI, CALL, MORE])
         == Step(AfterCall(cfg).(text := "Hi!", finishReason := "stop"),
                 Ok(HiEvents(cfg) + CALL_EVENTS + [ContentDelta(0, TextDelta("!"))]))
  {
    hide Encode;
    assert [HI, CALL, MORE][..2] == [HI, CALL] && [HI, CALL][..1] == [HI] && [HI][..0] == [];
    HiStep(cfg);
    CallStep(cfg);
    MoreStep(cfg);
    assert [] + HiEvents(cfg) == HiEvents(cfg);
    assert EncodeAll(cfg, [HI]) == Step(AfterHi(cfg), Ok(HiEvents(cfg)));
    assert EncodeAll(cfg, [HI, CALL]) == Step(AfterCall(cfg), Ok(HiEvents(cfg) + CALL_EVENTS));
  }

  // A finished stream whose last text fragment, after a tool call, names the text block, which was
  // stopped for the tool's.
  lemma LateTextNamesClosedBlock(cfg: Config, jsonObject: string -> bool)
    requires jsonObject("{}")
    ensures EncodeAll(cfg, [HI, CALL, MORE]).result == Ok(HiEvents(cfg) + CALL_EVENTS + [ContentDelta(0, TextDelta("!"))])
    ensures !SinglePass(Pieces([HI, CALL, MORE]))
    ensures ConsumeAll("", [HI, CALL, MORE]).Some?
    ensures var translated := Translate(cfg, jsonObject, [HI, CALL, MORE], ConsumeAll("", [HI, CALL, MORE]).value.usage).result;
            translated.Ok? && !DeltasNameOpenBlock(translated.value)
  {
    hide EncodeAll, SinglePass, Pieces, IsStray, ConsumeAll, DeltasNameOpenBlock, Framed, Marks, Deltas;
    LateConsumed();
    LateEncodes(cfg);
    LatePieces();
    LateTextStrays(TextPiece("Hi"), CallPiece(SEARCH), TextPiece("!"));
    var usage := ConsumeAll("", [HI, CALL, MORE]).value.usage;
    var s := EncodeAll(cfg, [HI, CALL, MORE]).state;
    assert Finish(jsonObject, s, usage).result.Ok?;
    FinishedStreamGrammatical(cfg, jsonObject, [HI, CALL, MORE], usage);
  }
}
