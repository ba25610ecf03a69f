/**
 Every stream the Responses encoder finishes is one the strict client accepts, and what the
 client rebuilds is the output of the terminal event.
 */
module ResponsesTrace {
  import opened Wrappers
  import opened StreamChunks
  import opened EncoderSteps
  import opened Sorting
  import Ordering
  import opened ResponsesStream
  import opened ResponsesClient

  // --- What the encoder's state means -----------------------------------------------------

  // The slot at each output index, as allocated.
  predicate Ordered(s: State, order: seq<Slot>) {
    && |order| == s.nextOutputIndex == |s.tools| + (if s.textStarted then 1 else 0)
    && (forall j | 0 <= j < |order| ::
          match order[j]
          case TextSlot => s.textStarted && s.textOutputIndex == j
          case ToolSlot(i) => i in s.tools && s.tools[i].outputIndex == j)
    && (s.textStarted ==> s.textOutputIndex < |order| && order[s.textOutputIndex] == TextSlot)
    && (forall i <- s.tools :: s.tools[i].outputIndex < |order| && order[s.tools[i].outputIndex] == ToolSlot(i))
  }

  // A tool is what the fragment that opened it says, with all its arguments so far.
  predicate ToolTracks(cfg: Config, tool: Tool, opening: ToolCallDelta, arguments: string) {
    && opening.func.Some?
    && ValidToolCallId(opening.id)
    && ValidToolName(opening.func.value.name)
    && tool.index == opening.index
    && tool.itemId == CallId(cfg.requestId, opening.index)
    && tool.callId == opening.id
    && tool.name == ResponsesFunctionCall(opening.func.value.name, cfg.aliases).name
    && tool.namespace == ResponsesFunctionCall(opening.func.value.name, cfg.aliases).namespace.GetOr("")
    && tool.arguments == arguments
  }

  // The state holds exactly what the pieces of the stream carried.
  predicate Tracks(cfg: Config, s: State, pieces: seq<Piece>) {
    && Ordered(s, Appearances(pieces))
    && s.text == Payload(pieces, TextSlot)
    && (forall i <- s.tools :: ToolSlot(i) in Appearances(pieces)
          && ToolTracks(cfg, s.tools[i], Opening(pieces, ToolSlot(i)).call, Payload(pieces, ToolSlot(i))))
  }

  // --- What the client has seen -----------------------------------------------------------

  predicate Holds(s: State, slot: Slot) {
    if slot.TextSlot? then s.textStarted else slot.index in s.tools
  }

  function SlotItem(cfg: Config, s: State, slot: Slot, closed: set<Slot>): ClientItem
    requires Holds(s, slot)
  {
    match slot
    case TextSlot =>
      ClientItem(MessageItem(TextId(cfg), InProgress, None), s.text, if slot in closed then Closed else PartOpen)
    case ToolSlot(i) =>
      ClientItem(ToolItem(s.tools[i], InProgress), s.tools[i].arguments, if slot in closed then Closed else Added)
  }

  function SlotItems(cfg: Config, s: State, order: seq<Slot>, closed: set<Slot>): (items: seq<ClientItem>)
    requires Ordered(s, order)
    ensures |items| == |order|
    ensures forall j | 0 <= j < |order| :: Holds(s, order[j]) && items[j] == SlotItem(cfg, s, order[j], closed)
  {
    seq(|order|, j requires 0 <= j < |order| => SlotItem(cfg, s, order[j], closed))
  }

  // The client once it received everything the encoder emitted on the way to this state.
  function View(cfg: Config, s: State, order: seq<Slot>, closed: set<Slot>): Client
    requires Ordered(s, order)
  {
    if !s.started then Client(s.sequence, Expecting, SlotItems(cfg, s, order, closed))
    else Client(s.sequence, Streaming(BaseResponse(cfg, s, InProgress, [], None)), SlotItems(cfg, s, order, closed))
  }

  // --- One piece at a time ----------------------------------------------------------------

  lemma ReceiveBodies(c: Client, bodies: seq<Body>)
    requires 1 <= |bodies| <= 3
    ensures |bodies| == 1 ==> ReceiveAll(c, Number(c.received, bodies)) == Receive(c, Event(c.received + 1, bodies[0]))
    ensures |bodies| == 2 ==> ReceiveAll(c, Number(c.received, bodies)) == Receive2(c, bodies[0], bodies[1])
    ensures |bodies| == 3 ==> ReceiveAll(c, Number(c.received, bodies)) == Receive3(c, bodies[0], bodies[1], bodies[2])
  {
    hide Receive, ReceiveAll;
    var n := c.received;
    var a := Event(n + 1, bodies[0]);
    if |bodies| == 1 {
      ReceiveOne(c, a);
      assert Number(n, bodies) == [a];
    } else if |bodies| == 2 {
      ReceiveTwo(c, a, Event(n + 2, bodies[1]));
      assert Number(n, bodies) == [a, Event(n + 2, bodies[1])];
    } else {
      ReceiveTwo(c, a, Event(n + 2, bodies[1]));
      ReceiveThree(c, a, Event(n + 2, bodies[1]), Event(n + 3, bodies[2]));
      assert Number(n, bodies) == [a, Event(n + 2, bodies[1]), Event(n + 3, bodies[2])];
    }
  }

  function Receive2(c: Client, a: Body, b: Body): Option<Client> {
    match Receive(c, Event(c.received + 1, a))
    case None => None
    case Some(c1) => Receive(c1, Event(c.received + 2, b))
  }

  function Receive3(c: Client, a: Body, b: Body, d: Body): Option<Client> {
    match Receive2(c, a, b)
    case None => None
    case Some(c2) => Receive(c2, Event(c.received + 3, d))
  }

  lemma StartTracks(cfg: Config, chunk: Chunk)
    ensures var step := Start(cfg, INITIAL, chunk);
            && step.result.Ok? && step.state.started
            && Tracks(cfg, step.state, [])
            && ReceiveAll(FRESH, step.result.value) == Some(View(cfg, step.state, [], {}))
  {
    var step := Start(cfg, INITIAL, chunk);
    var base := BaseResponse(cfg, step.state, InProgress, [], None);
    ReceiveBodies(FRESH, [ResponseCreated(base), ResponseInProgress(base)]);
  }

  lemma FirstTextOrdered(cfg: Config, s: State, order: seq<Slot>, content: string)
    requires Ordered(s, order) && !s.textStarted && content != ""
    ensures Ordered(EncodeText(cfg, s, content).state, order + [TextSlot])
  {
  }

  lemma TextState(cfg: Config, s: State, pieces: seq<Piece>, content: string)
    requires Tracks(cfg, s, pieces) && content != ""
    ensures Tracks(cfg, EncodeText(cfg, s, content).state, pieces + [TextPiece(content)])
  {
    var order := Appearances(pieces);
    SnocFacts(pieces, TextPiece(content));
    var next := EncodeText(cfg, s, content).state;
    if !s.textStarted {
      assert TextSlot !in order;
      FirstTextOrdered(cfg, s, order, content);
    }
    assert next.tools == s.tools;
    assert next.text == s.text + content;
  }

  // What the client makes of the events that open a text item.
  lemma TextOpens(c: Client, id: ItemId, content: string)
    requires c.phase.Streaming?
    ensures var k, message := |c.items|, MessageItem(id, InProgress, None);
            ReceiveAll(c, Number(c.received, [OutputItemAdded(k, message), ContentPartAdded(id, k), OutputTextDelta(id, k, content)]))
            == Some(Client(c.received + 3, c.phase, c.items + [ClientItem(message, content, PartOpen)]))
  {
    var k, message := |c.items|, MessageItem(id, InProgress, None);
    var bodies := [OutputItemAdded(k, message), ContentPartAdded(id, k), OutputTextDelta(id, k, content)];
    ReceiveBodies(c, bodies);
    hide ReceiveAll;
    var c1 := Client(c.received + 1, c.phase, c.items + [ClientItem(message, "", Added)]);
    assert Receive(c, Event(c.received + 1, bodies[0])) == Some(c1);
    var c2 := Client(c.received + 2, c.phase, c.items + [ClientItem(message, "", PartOpen)]);
    assert c1.items[k := ClientItem(message, "", PartOpen)] == c2.items;
    assert Receive(c1, Event(c.received + 2, bodies[1])) == Some(c2);
    var c3 := Client(c.received + 3, c.phase, c.items + [ClientItem(message, content, PartOpen)]);
    assert c2.items[k := ClientItem(message, content, PartOpen)] == c3.items;
    assert "" + content == content;
    assert Receive(c2, Event(c.received + 3, bodies[2])) == Some(c3);
  }

  lemma FirstTextEvents(cfg: Config, s: State, order: seq<Slot>, content: string)
    requires s.started && Ordered(s, order) && !s.textStarted && s.text == "" && content != ""
    requires Ordered(EncodeText(cfg, s, content).state, order + [TextSlot])
    ensures var step := EncodeText(cfg, s, content);
            ReceiveAll(View(cfg, s, order, {}), step.result.value) == Some(View(cfg, step.state, order + [TextSlot], {}))
  {
    hide Receive, ReceiveAll, Number;
    var step := EncodeText(cfg, s, content);
    var c := View(cfg, s, order, {});
    TextOpens(c, TextId(cfg), content);
    assert "" + content == content;
    assert SlotItems(cfg, step.state, order + [TextSlot], {})
        == c.items + [ClientItem(MessageItem(TextId(cfg), InProgress, None), content, PartOpen)];
  }

  lemma LaterTextEvents(cfg: Config, s: State, order: seq<Slot>, content: string)
    requires s.started && Ordered(s, order) && s.textStarted && content != ""
    ensures var step := EncodeText(cfg, s, content);
            && Ordered(step.state, order)
            && ReceiveAll(View(cfg, s, order, {}), step.result.value) == Some(View(cfg, step.state, order, {}))
  {
    var step := EncodeText(cfg, s, content);
    var c := View(cfg, s, order, {});
    ReceiveBodies(c, [OutputTextDelta(TextId(cfg), s.textOutputIndex, content)]);
    assert ReceiveAll(c, step.result.value).value.items == SlotItems(cfg, step.state, order, {});
  }

  lemma TextTracks(cfg: Config, s: State, pieces: seq<Piece>, content: string)
    requires s.started && Tracks(cfg, s, pieces)
    ensures var step := EncodeText(cfg, s, content);
            && step.result.Ok? && step.state.started
            && Tracks(cfg, step.state, pieces + TextPieces(content))
            && ReceiveAll(View(cfg, s, Appearances(pieces), {}), step.result.value)
               == Some(View(cfg, step.state, Appearances(pieces + TextPieces(content)), {}))
  {
    var order := Appearances(pieces);
    if content == "" {
      assert pieces + [] == pieces;
    } else {
      TextState(cfg, s, pieces, content);
      SnocFacts(pieces, TextPiece(content));
      if s.textStarted {
        LaterTextEvents(cfg, s, order, content);
      } else {
        assert TextSlot !in order;
        SlotAbsent(pieces, TextSlot);
        FirstTextEvents(cfg, s, order, content);
      }
    }
  }

  // --- Tool calls -------------------------------------------------------------------------

  lemma OpenedOrdered(cfg: Config, s: State, order: seq<Slot>, call: ToolCallDelta)
    requires Ordered(s, order) && call.index !in s.tools && OpenTool(cfg, s, call).result.Ok?
    ensures Ordered(OpenTool(cfg, s, call).state, order + [ToolSlot(call.index)])
  {
    var next := OpenTool(cfg, s, call).state;
    var longer := order + [ToolSlot(call.index)];
    assert next.tools.Keys == s.tools.Keys + {call.index};
    assert forall i <- s.tools :: next.tools[i] == s.tools[i];
    forall j | 0 <= j < |order| && order[j].ToolSlot?
      ensures longer[j].index in next.tools && next.tools[longer[j].index].outputIndex == j
    {
      assert order[j].index != call.index;
    }
  }

  lemma OpenedEvents(cfg: Config, s: State, order: seq<Slot>, call: ToolCallDelta)
    requires s.started && Ordered(s, order) && call.index !in s.tools && OpenTool(cfg, s, call).result.Ok?
    requires Ordered(OpenTool(cfg, s, call).state, order + [ToolSlot(call.index)])
    ensures var step := OpenTool(cfg, s, call);
            ReceiveAll(View(cfg, s, order, {}), step.result.value)
            == Some(View(cfg, step.state, order + [ToolSlot(call.index)], {}))
  {
    var step := OpenTool(cfg, s, call);
    var c := View(cfg, s, order, {});
    var tool := NewTool(cfg, s, call);
    ReceiveBodies(c, [OutputItemAdded(tool.outputIndex, ToolItem(tool, InProgress))]);
    var items := SlotItems(cfg, step.state, order + [ToolSlot(call.index)], {});
    assert c.items + [ClientItem(ToolItem(tool, InProgress), "", Added)] == items;
  }

  lemma ArgumentsEvents(cfg: Config, s: State, order: seq<Slot>, call: ToolCallDelta)
    requires s.started && Ordered(s, order) && call.index in s.tools
    ensures var step := TakeArguments(s, call);
            && step.result.Ok? && step.state.started
            && Ordered(step.state, order)
            && ReceiveAll(View(cfg, s, order, {}), step.result.value) == Some(View(cfg, step.state, order, {}))
  {
    if Arguments(call) != "" {
      var step := TakeArguments(s, call);
      var c := View(cfg, s, order, {});
      var tool := s.tools[call.index];
      assert step.state.tools.Keys == s.tools.Keys;
      assert Ordered(step.state, order);
      assert order[tool.outputIndex] == ToolSlot(call.index);
      ReceiveBodies(c, [ArgumentsDelta(tool.itemId, tool.outputIndex, Arguments(call))]);
      var items := SlotItems(cfg, step.state, order, {});
      forall j | 0 <= j < |order| && j != tool.outputIndex
        ensures items[j] == c.items[j]
      {
        assert order[j] != order[tool.outputIndex];
      }
      assert c.items[tool.outputIndex := items[tool.outputIndex]] == items;
    }
  }

  lemma CallEvents(cfg: Config, s: State, pieces: seq<Piece>, call: ToolCallDelta)
    requires s.started && Tracks(cfg, s, pieces) && EncodeCall(cfg, s, call).result.Ok?
    ensures var step := EncodeCall(cfg, s, call);
            var next := Appearances(pieces + [CallPiece(call)]);
            && step.state.started
            && Ordered(step.state, next)
            && ReceiveAll(View(cfg, s, Appearances(pieces), {}), step.result.value) == Some(View(cfg, step.state, next, {}))
  {
    var order := Appearances(pieces);
    SnocFacts(pieces, CallPiece(call));
    var begun := OpenTool(cfg, s, call);
    var next := Appearances(pieces + [CallPiece(call)]);
    var c := View(cfg, s, order, {});
    if call.index in s.tools {
      assert ToolSlot(call.index) in order;
    } else {
      assert ToolSlot(call.index) !in order;
      OpenedOrdered(cfg, s, order, call);
      OpenedEvents(cfg, s, order, call);
    }
    ArgumentsEvents(cfg, begun.state, next, call);
    ReceiveConcat(c, begun.result.value, TakeArguments(begun.state, call).result.value);
  }

  // What a call leaves of each tool.
  lemma CallTools(cfg: Config, s: State, call: ToolCallDelta)
    requires EncodeCall(cfg, s, call).result.Ok?
    ensures var next := EncodeCall(cfg, s, call).state;
            && next.tools.Keys == s.tools.Keys + {call.index}
            && next.text == s.text
            && (forall i <- s.tools | i != call.index :: next.tools[i] == s.tools[i])
            && (call.index !in s.tools ==>
                  call.func.Some? && next.tools[call.index] == NewTool(cfg, s, call).(arguments := Arguments(call)))
            && (call.index in s.tools ==>
                  next.tools[call.index] == s.tools[call.index].(arguments := s.tools[call.index].arguments + Arguments(call)))
  {
    assert "" + Arguments(call) == Arguments(call);
    if call.index in s.tools {
      assert s.tools[call.index].arguments + "" == s.tools[call.index].arguments;
    }
  }

  lemma ToolState(cfg: Config, s: State, pieces: seq<Piece>, call: ToolCallDelta, i: int)
    requires Tracks(cfg, s, pieces) && EncodeCall(cfg, s, call).result.Ok?
    requires i in EncodeCall(cfg, s, call).state.tools
    ensures var longer := pieces + [CallPiece(call)];
            && ToolSlot(i) in Appearances(longer)
            && ToolTracks(cfg, EncodeCall(cfg, s, call).state.tools[i], Opening(longer, ToolSlot(i)).call, Payload(longer, ToolSlot(i)))
  {
    hide Encode, EncodeCall, Opening, Payload, Appearances;
    SnocFacts(pieces, CallPiece(call));
    CallTools(cfg, s, call);
    var slot := ToolSlot(i);
    if i in s.tools {
      assert slot in Appearances(pieces);
      if i != call.index {
        assert Payload(pieces, slot) + "" == Payload(pieces, slot);
      }
    } else {
      assert slot !in Appearances(pieces);
      SlotAbsent(pieces, slot);
      NewCallValid(cfg, s, call);
      assert "" + Arguments(call) == Arguments(call);
    }
  }

  lemma NewCallValid(cfg: Config, s: State, call: ToolCallDelta)
    requires EncodeCall(cfg, s, call).result.Ok? && call.index !in s.tools
    ensures call.func.Some? && ValidToolCallId(call.id) && ValidToolName(call.func.value.name)
  {
  }

  lemma CallState(cfg: Config, s: State, pieces: seq<Piece>, call: ToolCallDelta)
    requires Tracks(cfg, s, pieces) && EncodeCall(cfg, s, call).result.Ok?
    requires Ordered(EncodeCall(cfg, s, call).state, Appearances(pieces + [CallPiece(call)]))
    ensures Tracks(cfg, EncodeCall(cfg, s, call).state, pieces + [CallPiece(call)])
  {
    hide Encode, EncodeCall, Opening, Payload, Appearances, ToolTracks, Ordered;
    var next := EncodeCall(cfg, s, call).state;
    SnocFacts(pieces, CallPiece(call));
    CallTools(cfg, s, call);
    assert Payload(pieces, TextSlot) + "" == Payload(pieces, TextSlot);
    forall i <- next.tools
      ensures ToolSlot(i) in Appearances(pieces + [CallPiece(call)])
      ensures ToolTracks(cfg, next.tools[i], Opening(pieces + [CallPiece(call)], ToolSlot(i)).call,
                         Payload(pieces + [CallPiece(call)], ToolSlot(i)))
    {
      ToolState(cfg, s, pieces, call, i);
    }
  }

  // The state holds what the pieces carried, and the client that received the trace agrees.
  predicate Agrees(cfg: Config, s: State, pieces: seq<Piece>, trace: seq<Event>) {
    && s.started
    && Tracks(cfg, s, pieces)
    && ReceiveAll(FRESH, trace) == Some(View(cfg, s, Appearances(pieces), {}))
  }

  lemma CallAgrees(cfg: Config, s: State, pieces: seq<Piece>, trace: seq<Event>, call: ToolCallDelta)
    requires Agrees(cfg, s, pieces, trace) && EncodeCall(cfg, s, call).result.Ok?
    ensures var step := EncodeCall(cfg, s, call);
            Agrees(cfg, step.state, pieces + [CallPiece(call)], trace + step.result.value)
  {
    CallEvents(cfg, s, pieces, call);
    CallState(cfg, s, pieces, call);
    ReceiveConcat(FRESH, trace, EncodeCall(cfg, s, call).result.value);
  }

  lemma {:induction false} CallsAgree(cfg: Config, s: State, pieces: seq<Piece>, trace: seq<Event>, calls: seq<ToolCallDelta>)
    requires Agrees(cfg, s, pieces, trace) && EncodeCalls(cfg, s, calls).result.Ok?
    ensures var step := EncodeCalls(cfg, s, calls);
            Agrees(cfg, step.state, pieces + CallPieces(calls), trace + step.result.value)
    decreases |calls|
  {
    hide Agrees, EncodeCall;
    if calls == [] {
      assert pieces + CallPieces(calls) == pieces;
      assert trace + [] == trace;
    } else {
      var first := EncodeCall(cfg, s, calls[0]);
      CallAgrees(cfg, s, pieces, trace, calls[0]);
      var rest := EncodeCalls(cfg, first.state, calls[1..]);
      CallsAgree(cfg, first.state, pieces + [CallPiece(calls[0])], trace + first.result.value, calls[1..]);
      assert (pieces + [CallPiece(calls[0])]) + CallPieces(calls[1..]) == pieces + CallPieces(calls);
      assert (trace + first.result.value) + rest.result.value == trace + (first.result.value + rest.result.value);
    }
  }

  lemma ReasonAgrees(cfg: Config, s: State, pieces: seq<Piece>, trace: seq<Event>, reason: FinishField)
    requires Agrees(cfg, s, pieces, trace)
    ensures Agrees(cfg, TakeReason(s, reason), pieces, trace)
  {
    var order := Appearances(pieces);
    assert Ordered(TakeReason(s, reason), order);
    assert SlotItems(cfg, TakeReason(s, reason), order, {}) == SlotItems(cfg, s, order, {});
  }

  lemma TextAgrees(cfg: Config, s: State, pieces: seq<Piece>, trace: seq<Event>, content: string)
    requires Agrees(cfg, s, pieces, trace)
    ensures var step := EncodeText(cfg, s, content);
            step.result.Ok? && Agrees(cfg, step.state, pieces + TextPieces(content), trace + step.result.value)
  {
    TextTracks(cfg, s, pieces, content);
    ReceiveConcat(FRESH, trace, EncodeText(cfg, s, content).result.value);
  }

  lemma DeltaAgrees(cfg: Config, s: State, pieces: seq<Piece>, trace: seq<Event>, d: Decoded)
    requires Agrees(cfg, s, pieces, trace) && EncodeDelta(cfg, s, d).result.Ok?
    ensures var step := EncodeDelta(cfg, s, d);
            Agrees(cfg, step.state, pieces + DecodedPieces(d), trace + step.result.value)
  {
    hide Agrees, EncodeText, EncodeCalls;
    var s1 := TakeReason(s, d.finishReason);
    ReasonAgrees(cfg, s, pieces, trace, d.finishReason);
    var text := EncodeText(cfg, s1, d.content);
    TextAgrees(cfg, s1, pieces, trace, d.content);
    var calls := EncodeCalls(cfg, text.state, d.calls);
    CallsAgree(cfg, text.state, pieces + TextPieces(d.content), trace + text.result.value, d.calls);
    assert (pieces + TextPieces(d.content)) + CallPieces(d.calls) == pieces + DecodedPieces(d);
    assert (trace + text.result.value) + calls.result.value == trace + (text.result.value + calls.result.value);
  }

  // --- Whole streams ----------------------------------------------------------------------

  lemma StartAgrees(cfg: Config, chunk: Chunk)
    ensures Start(cfg, INITIAL, chunk).result.Ok?
    ensures Agrees(cfg, Start(cfg, INITIAL, chunk).state, [], Start(cfg, INITIAL, chunk).result.value)
  {
    StartTracks(cfg, chunk);
  }

  lemma ChunkAgrees(cfg: Config, s: State, pieces: seq<Piece>, trace: seq<Event>, chunk: Chunk)
    requires Encode(cfg, s, chunk).result.Ok?
    requires if s.started then Agrees(cfg, s, pieces, trace) else s == INITIAL && pieces == [] && trace == []
    ensures var step := Encode(cfg, s, chunk);
            Agrees(cfg, step.state, pieces + ChunkPieces(chunk), trace + step.result.value)
  {
    hide Agrees, EncodeDelta, DecodeTranslated, DecodedPieces;
    var start := Start(cfg, s, chunk);
    if s.started {
      assert trace + [] == trace;
    } else {
      StartAgrees(cfg, chunk);
      assert [] + start.result.value == start.result.value;
    }
    var d := DecodeTranslated(chunk).value;
    var rest := EncodeDelta(cfg, start.state, d);
    DeltaAgrees(cfg, start.state, pieces, trace + start.result.value, d);
    assert (trace + start.result.value) + rest.result.value == trace + (start.result.value + rest.result.value);
  }

  // After any accepted chunks the state holds what they carried and the client agrees with it.
  lemma {:induction false} StreamAgrees(cfg: Config, chunks: seq<Chunk>)
    requires EncodeAll(cfg, chunks).result.Ok?
    ensures chunks == [] ==> EncodeAll(cfg, chunks) == Step(INITIAL, Ok([]))
    ensures chunks != [] ==> Agrees(cfg, EncodeAll(cfg, chunks).state, Pieces(chunks), EncodeAll(cfg, chunks).result.value)
  {
    if chunks != [] {
      var before := EncodeAll(cfg, chunks[..|chunks| - 1]);
      StreamAgrees(cfg, chunks[..|chunks| - 1]);
      ChunkAgrees(cfg, before.state, Pieces(chunks[..|chunks| - 1]), before.result.value, chunks[|chunks| - 1]);
    }
  }

  // --- The order of the final output ------------------------------------------------------

  predicate Strict(xs: seq<IndexedItem>) {
    forall i, j | 0 <= i < j < |xs| :: xs[i].index < xs[j].index
  }

  predicate Distinct(xs: seq<IndexedItem>) {
    forall i, j | 0 <= i < j < |xs| :: xs[i].index != xs[j].index
  }

  lemma SortStrict(xs: seq<IndexedItem>)
    requires Distinct(xs)
    ensures Strict(SortByIndex(xs)) && |SortByIndex(xs)| == |xs|
    ensures forall y :: y in SortByIndex(xs) <==> y in xs
  {
    hide Ordering.Sort;
    var sorted := SortByIndex(xs);
    Ordering.SortSorts(ByIndex, xs);
    Ordering.SortKeepsUnrepeated(ByIndex, xs);
    forall y
      ensures y in sorted <==> y in xs
    {
      assert y in multiset(sorted) <==> y in multiset(xs);
    }
    forall i, j | 0 <= i < j < |sorted|
      ensures sorted[i].index < sorted[j].index
    {
      assert ByIndex(sorted[i], sorted[j]) && sorted[i] in xs && sorted[j] in xs;
    }
  }

  lemma StrictFills(xs: seq<IndexedItem>, j: nat)
    requires Strict(xs) && j < |xs| && forall i | 0 <= i < |xs| :: xs[i].index < |xs|
    ensures xs[j].index == j
  {
    SortedRange(seq(|xs|, i requires 0 <= i < |xs| => xs[i].index), j);
  }

  function DoneItem(cfg: Config, s: State, slot: Slot): Item
    requires Holds(s, slot)
  {
    match slot
    case TextSlot => DoneText(cfg, s)
    case ToolSlot(i) => ToolItem(s.tools[i], Completed)
  }

  function DoneItems(cfg: Config, s: State, order: seq<Slot>): (items: seq<Item>)
    requires Ordered(s, order)
    ensures |items| == |order|
    ensures forall j | 0 <= j < |order| :: Holds(s, order[j]) && items[j] == DoneItem(cfg, s, order[j])
  {
    seq(|order|, j requires 0 <= j < |order| => DoneItem(cfg, s, order[j]))
  }

  // The finished item at this index is the one its slot stands for.
  predicate Indexed(cfg: Config, s: State, order: seq<Slot>, x: IndexedItem) {
    x.index < |order| && Holds(s, order[x.index]) && x.item == DoneItem(cfg, s, order[x.index])
  }

  lemma OrderedTool(cfg: Config, s: State, order: seq<Slot>, i: int)
    requires Ordered(s, order) && i in s.tools
    ensures s.tools[i].outputIndex < |order| && order[s.tools[i].outputIndex] == ToolSlot(i)
    ensures Indexed(cfg, s, order, IndexedItem(s.tools[i].outputIndex, ToolItem(s.tools[i], Completed)))
  {
  }

  lemma OrderedText(cfg: Config, s: State, order: seq<Slot>)
    requires Ordered(s, order) && s.textStarted
    ensures s.textOutputIndex < |order| && order[s.textOutputIndex] == TextSlot
    ensures Indexed(cfg, s, order, IndexedItem(s.textOutputIndex, DoneText(cfg, s)))
  {
  }

  lemma OrderedTools(cfg: Config, s: State, order: seq<Slot>, keys: seq<int>)
    requires Ordered(s, order) && forall k | 0 <= k < |keys| :: keys[k] in s.tools
    ensures forall k | 0 <= k < |keys| ::
              var x := ToolItems(s, keys)[k];
              Indexed(cfg, s, order, x) && x.index < |order| && order[x.index] == ToolSlot(keys[k])
  {
    hide *;
    var tools := ToolItems(s, keys);
    forall k | 0 <= k < |keys|
      ensures Indexed(cfg, s, order, tools[k]) && tools[k].index < |order| && order[tools[k].index] == ToolSlot(keys[k])
    {
      OrderedTool(cfg, s, order, keys[k]);
    }
  }

  lemma FinishedDistinct(cfg: Config, s: State, order: seq<Slot>)
    requires Ordered(s, order)
    ensures Distinct(FinishedItems(cfg, s)) && |FinishedItems(cfg, s)| == |order|
    ensures forall k | 0 <= k < |FinishedItems(cfg, s)| :: Indexed(cfg, s, order, FinishedItems(cfg, s)[k])
  {
    hide *;
    var keys := SortedKeys(s.tools.Keys);
    var tools := ToolItems(s, keys);
    var text := if s.textStarted then [IndexedItem(s.textOutputIndex, DoneText(cfg, s))] else [];
    FinishedShape(cfg, s, order, text, tools);
    OrderedTools(cfg, s, order, keys);
    if s.textStarted {
      OrderedText(cfg, s, order);
    }
    DistinctSlots(order, text, tools, keys);
  }

  lemma FinishedShape(cfg: Config, s: State, order: seq<Slot>, text: seq<IndexedItem>, tools: seq<IndexedItem>)
    requires Ordered(s, order)
    requires text == if s.textStarted then [IndexedItem(s.textOutputIndex, DoneText(cfg, s))] else []
    requires tools == ToolItems(s, SortedKeys(s.tools.Keys))
    ensures FinishedItems(cfg, s) == text + tools && |text + tools| == |order|
  {
    hide ToolItems, SortedKeys, DoneText;
  }

  lemma DistinctSlots(order: seq<Slot>, text: seq<IndexedItem>, tools: seq<IndexedItem>, keys: seq<int>)
    requires |text| <= 1 && forall k | 0 <= k < |text| :: text[k].index < |order| && order[text[k].index] == TextSlot
    requires |tools| == |keys| && forall i, j | 0 <= i < j < |keys| :: keys[i] < keys[j]
    requires forall k | 0 <= k < |tools| :: tools[k].index < |order| && order[tools[k].index] == ToolSlot(keys[k])
    ensures Distinct(text + tools)
  {
    var xs := text + tools;
    forall i, j | 0 <= i < j < |xs| ensures xs[i].index != xs[j].index {
      assert order[xs[j].index] == ToolSlot(keys[j - |text|]);
      if i < |text| {
        assert order[xs[i].index] == TextSlot;
      } else {
        assert order[xs[i].index] == ToolSlot(keys[i - |text|]);
        assert keys[i - |text|] < keys[j - |text|];
      }
    }
  }

  // Sorting the finished items by output index puts item j at position j.
  lemma OutputByIndex(cfg: Config, s: State, order: seq<Slot>)
    requires Ordered(s, order)
    ensures Values(SortByIndex(FinishedItems(cfg, s))) == DoneItems(cfg, s, order)
  {
    var items := DoneItems(cfg, s, order);
    var xs := FinishedItems(cfg, s);
    FinishedDistinct(cfg, s, order);
    SortStrict(xs);
    hide Ordered, DoneItem, FinishedItems, SortByIndex;
    var sorted := SortByIndex(xs);
    forall i | 0 <= i < |sorted| ensures Indexed(cfg, s, order, sorted[i]) {
      assert sorted[i] in sorted;
    }
    forall j | 0 <= j < |sorted| ensures Values(sorted)[j] == items[j] {
      StrictFills(sorted, j);
      assert Indexed(cfg, s, order, sorted[j]);
    }
  }

  // --- Closing the items ------------------------------------------------------------------

  // What the client makes of the events that close a text item, and a call.
  lemma TextCloses(c: Client, k: nat, id: ItemId, added: Item, text: string)
    requires c.phase.Streaming? && k < |c.items| && c.items[k] == ClientItem(added, text, PartOpen)
    requires added.MessageItem? && added.id == id
    ensures ReceiveAll(c, Number(c.received, [OutputTextDone(id, k, text), ContentPartDone(id, k, text),
                                              OutputItemDone(k, MessageItem(id, Completed, Some(text)))]))
         == Some(Client(c.received + 3, c.phase, c.items[k := ClientItem(added, text, Closed)]))
  {
    var bodies := [OutputTextDone(id, k, text), ContentPartDone(id, k, text), OutputItemDone(k, MessageItem(id, Completed, Some(text)))];
    ReceiveBodies(c, bodies);
    hide ReceiveAll;
    var c1 := Client(c.received + 1, c.phase, c.items[k := ClientItem(added, text, PayloadDone)]);
    assert Receive(c, Event(c.received + 1, bodies[0])) == Some(c1);
    var c2 := Client(c.received + 2, c.phase, c.items[k := ClientItem(added, text, Ready)]);
    assert c1.items[k := ClientItem(added, text, Ready)] == c2.items;
    assert Receive(c1, Event(c.received + 2, bodies[1])) == Some(c2);
    var c3 := Client(c.received + 3, c.phase, c.items[k := ClientItem(added, text, Closed)]);
    assert c2.items[k := ClientItem(added, text, Closed)] == c3.items;
    assert Receive(c2, Event(c.received + 3, bodies[2])) == Some(c3);
  }

  lemma CallCloses(c: Client, k: nat, added: Item, arguments: string, done: Item)
    requires c.phase.Streaming? && k < |c.items| && c.items[k] == ClientItem(added, arguments, Added)
    requires added.CallItem? && done == Rebuilt(c.items[k])
    ensures ReceiveAll(c, Number(c.received, [ArgumentsDone(added.id, k, arguments), OutputItemDone(k, done)]))
         == Some(Client(c.received + 2, c.phase, c.items[k := ClientItem(added, arguments, Closed)]))
  {
    var bodies := [ArgumentsDone(added.id, k, arguments), OutputItemDone(k, done)];
    ReceiveBodies(c, bodies);
    hide ReceiveAll;
    var c1 := Client(c.received + 1, c.phase, c.items[k := ClientItem(added, arguments, Ready)]);
    assert Receive(c, Event(c.received + 1, bodies[0])) == Some(c1);
    var c2 := Client(c.received + 2, c.phase, c.items[k := ClientItem(added, arguments, Closed)]);
    assert c1.items[k := ClientItem(added, arguments, Closed)] == c2.items;
    assert Receive(c1, Event(c.received + 2, bodies[1])) == Some(c2);
  }

  // Closing one slot changes that item alone.
  lemma ViewCloses(cfg: Config, s: State, next: State, order: seq<Slot>, closed: set<Slot>, k: nat)
    requires s.started && Ordered(s, order) && next == s.(sequence := next.sequence) && k < |order|
    ensures Ordered(next, order)
    ensures View(cfg, next, order, closed + {order[k]})
         == Client(next.sequence, View(cfg, s, order, closed).phase,
                   View(cfg, s, order, closed).items[k := SlotItem(cfg, s, order[k], closed + {order[k]})])
  {
    var items := SlotItems(cfg, next, order, closed + {order[k]});
    var before := SlotItems(cfg, s, order, closed);
    forall j | 0 <= j < |order| && j != k
      ensures items[j] == before[j]
    {
      assert order[j] != order[k];
    }
    assert items == before[k := SlotItem(cfg, s, order[k], closed + {order[k]})];
  }

  lemma FinishTextEvents(cfg: Config, s: State, order: seq<Slot>)
    requires s.started && Ordered(s, order)
    ensures var step := FinishText(cfg, s);
            && step.result.Ok? && step.state == s.(sequence := step.state.sequence)
            && Ordered(step.state, order)
            && ReceiveAll(View(cfg, s, order, {}), step.result.value) == Some(View(cfg, step.state, order, {TextSlot}))
  {
    hide Receive, ReceiveAll, Number;
    var step := FinishText(cfg, s);
    var c := View(cfg, s, order, {});
    if s.textStarted {
      var k := s.textOutputIndex;
      assert c.items[k] == SlotItem(cfg, s, TextSlot, {});
      TextCloses(c, k, TextId(cfg), c.items[k].added, s.text);
      ViewCloses(cfg, s, step.state, order, {}, k);
      assert {} + {TextSlot} == {TextSlot};
    } else {
      ReceiveNothing(c);
      assert c.items == SlotItems(cfg, step.state, order, {TextSlot});
    }
  }

  lemma ReceiveNothing(c: Client)
    ensures ReceiveAll(c, []) == Some(c)
  {
  }

  lemma FinishToolEvents(cfg: Config, jsonObject: string -> bool, s: State, order: seq<Slot>, closed: set<Slot>, index: int)
    requires s.started && Ordered(s, order) && index in s.tools && ToolSlot(index) !in closed
    requires FinishTool(jsonObject, s, index).result.Ok?
    ensures var step := FinishTool(jsonObject, s, index);
            && step.state == s.(sequence := step.state.sequence)
            && Ordered(step.state, order)
            && ReceiveAll(View(cfg, s, order, closed), step.result.value)
               == Some(View(cfg, step.state, order, closed + {ToolSlot(index)}))
  {
    hide Receive, ReceiveAll, Number;
    var step := FinishTool(jsonObject, s, index);
    var c := View(cfg, s, order, closed);
    var tool := s.tools[index];
    var k := tool.outputIndex;
    assert order[k] == ToolSlot(index);
    assert c.items[k] == SlotItem(cfg, s, ToolSlot(index), closed);
    CallCloses(c, k, c.items[k].added, tool.arguments, ToolItem(tool, Completed));
    ViewCloses(cfg, s, step.state, order, closed, k);
  }

  function ToolSlots(indices: seq<int>): set<Slot> {
    set i | i in indices :: ToolSlot(i)
  }

  lemma {:induction false} FinishToolsEvents(
    cfg: Config, jsonObject: string -> bool, s: State, order: seq<Slot>, closed: set<Slot>, indices: seq<int>)
    requires s.started && Ordered(s, order)
    requires forall k | 0 <= k < |indices| :: indices[k] in s.tools
    requires forall i, j | 0 <= i < j < |indices| :: indices[i] < indices[j]
    requires closed !! ToolSlots(indices)
    requires FinishTools(jsonObject, s, indices).result.Ok?
    ensures var step := FinishTools(jsonObject, s, indices);
            && step.state == s.(sequence := step.state.sequence)
            && Ordered(step.state, order)
            && ReceiveAll(View(cfg, s, order, closed), step.result.value)
               == Some(View(cfg, step.state, order, closed + ToolSlots(indices)))
    decreases |indices|
  {
    hide Ordered, FinishTool, View;
    if indices == [] {
      assert closed + ToolSlots(indices) == closed;
    } else {
      var first := FinishTool(jsonObject, s, indices[0]);
      assert ToolSlot(indices[0]) in ToolSlots(indices);
      FinishToolEvents(cfg, jsonObject, s, order, closed, indices[0]);
      var more := closed + {ToolSlot(indices[0])};
      assert more !! ToolSlots(indices[1..]);
      FinishToolsEvents(cfg, jsonObject, first.state, order, more, indices[1..]);
      assert more + ToolSlots(indices[1..]) == closed + ToolSlots(indices) by {
        assert indices == [indices[0]] + indices[1..];
      }
      ReceiveConcat(View(cfg, s, order, closed), first.result.value, FinishTools(jsonObject, first.state, indices[1..]).result.value);
    }
  }

  lemma EndedResponse(cfg: Config, s: State, usage: TokenUsage)
    requires FinishResponse(cfg, s, usage).result.Ok?
    ensures FinishedItems(cfg, s) != []
    ensures var events := FinishResponse(cfg, s, usage).result.value;
            && |events| == 1 && events[0].body.ResponseEnded?
            && events == Number(s.sequence, [events[0].body])
            && var r := events[0].body.response;
               && r.output == Values(SortByIndex(FinishedItems(cfg, s)))
               && SameResponse(r, BaseResponse(cfg, s, InProgress, [], None))
               && r.usage.Some? && r.status != InProgress
               && r.incompleteReason == if r.status == Incomplete then Some("max_output_tokens") else None
  {
    hide FinishedItems, SortByIndex;
  }

  lemma ClosedItem(cfg: Config, s: State, order: seq<Slot>, closed: set<Slot>, j: nat)
    requires Ordered(s, order) && j < |order| && order[j] in closed
    ensures var items := SlotItems(cfg, s, order, closed);
            items[j].stage == Closed && DoneItems(cfg, s, order)[j] == Rebuilt(items[j])
  {
  }

  lemma TerminalEvent(cfg: Config, s: State, order: seq<Slot>, closed: set<Slot>, usage: TokenUsage)
    requires s.started && Ordered(s, order) && forall j | 0 <= j < |order| :: order[j] in closed
    requires FinishResponse(cfg, s, usage).result.Ok?
    ensures var events := FinishResponse(cfg, s, usage).result.value;
            && |events| == 1 && events[0].body.ResponseEnded?
            && events[0].body.response.output == DoneItems(cfg, s, order)
            && ReceiveAll(View(cfg, s, order, closed), events)
               == Some(View(cfg, s, order, closed).(received := s.sequence + 1, phase := Ended(events[0].body.response)))
  {
    hide Ordered, DoneItems, FinishedItems, SortByIndex, SlotItems, FinishResponse, ReceiveAll, Rebuilt, BaseResponse, SameResponse;
    var events := FinishResponse(cfg, s, usage).result.value;
    var c := View(cfg, s, order, closed);
    EndedResponse(cfg, s, usage);
    OutputByIndex(cfg, s, order);
    FinishedDistinct(cfg, s, order);
    forall j | 0 <= j < |order|
      ensures c.items[j].stage == Closed && events[0].body.response.output[j] == Rebuilt(c.items[j])
    {
      ClosedItem(cfg, s, order, closed, j);
    }
    assert Terminal(c, events[0].body.response);
    ReceiveBodies(c, [events[0].body]);
  }

  lemma SameButSequence(cfg: Config, s: State, t: State, order: seq<Slot>)
    requires Ordered(s, order) && Ordered(t, order) && t == s.(sequence := t.sequence)
    ensures DoneItems(cfg, t, order) == DoneItems(cfg, s, order)
  {
    hide Ordered;
  }

  lemma AllClosed(s: State, order: seq<Slot>)
    requires Ordered(s, order)
    ensures forall j | 0 <= j < |order| :: order[j] in {TextSlot} + ToolSlots(SortedKeys(s.tools.Keys))
  {
    forall j | 0 <= j < |order| ensures order[j] in {TextSlot} + ToolSlots(SortedKeys(s.tools.Keys)) {
      if order[j].ToolSlot? {
        SortedKeysComplete(s.tools.Keys, order[j].index);
      }
    }
  }

  // The three steps of Finish, as the client takes them.
  lemma FinishEvents(cfg: Config, jsonObject: string -> bool, s: State, order: seq<Slot>, usage: TokenUsage)
    requires s.started && Ordered(s, order) && Finish(cfg, jsonObject, s, usage).result.Ok?
    ensures var events := Finish(cfg, jsonObject, s, usage).result.value;
            && |events| > 0 && events[|events| - 1].body.ResponseEnded?
            && events[|events| - 1].body.response.output == DoneItems(cfg, s, order)
            && var end := ReceiveAll(View(cfg, s, order, {}), events);
               end.Some? && end.value.phase == Ended(events[|events| - 1].body.response)
  {
    hide Ordered, View, ReceiveAll, FinishText, FinishTools, FinishResponse, DoneItems, SortedKeys;
    var indices := SortedKeys(s.tools.Keys);
    var text := FinishText(cfg, s);
    FinishTextEvents(cfg, s, order);
    var tools := FinishTools(jsonObject, text.state, indices);
    var last := FinishResponse(cfg, tools.state, usage);
    var closed := {TextSlot} + ToolSlots(indices);
    var c := View(cfg, s, order, {});
    FinishToolsEvents(cfg, jsonObject, text.state, order, {TextSlot}, indices);
    AllClosed(s, order);
    TerminalEvent(cfg, tools.state, order, closed, usage);
    SameButSequence(cfg, s, tools.state, order);
    var events := (text.result.value + tools.result.value) + last.result.value;
    assert Finish(cfg, jsonObject, s, usage).result.value == events;
    ReceiveConcat(c, text.result.value, tools.result.value);
    ReceiveConcat(c, text.result.value + tools.result.value, last.result.value);
    assert events[|events| - 1] == last.result.value[0];
  }

  lemma FinishNeedsStart(cfg: Config, jsonObject: string -> bool, s: State, usage: TokenUsage)
    ensures Finish(cfg, jsonObject, s, usage).result.Ok? ==> s.started
  {
  }

  // --- The theorem ------------------------------------------------------------------------

  // Every finished stream is one a strict client accepts to the end, and the terminal event is
  // the last and carries the client's own reconstruction, slot by slot in order of appearance.
  lemma FinishedStreamAccepted(cfg: Config, jsonObject: string -> bool, chunks: seq<Chunk>, usage: TokenUsage)
    requires Translate(cfg, jsonObject, chunks, usage).result.Ok?
    ensures var trace := Translate(cfg, jsonObject, chunks, usage).result.value;
            && |trace| > 0 && trace[|trace| - 1].body.ResponseEnded?
            && ReceiveAll(FRESH, trace).Some?
            && ReceiveAll(FRESH, trace).value.phase == Ended(trace[|trace| - 1].body.response)
    ensures Tracks(cfg, EncodeAll(cfg, chunks).state, Pieces(chunks))
    ensures var trace := Translate(cfg, jsonObject, chunks, usage).result.value;
            trace[|trace| - 1].body.response.output
            == DoneItems(cfg, EncodeAll(cfg, chunks).state, Appearances(Pieces(chunks)))
  {
    hide EncodeAll, Finish, View, ReceiveAll, Appearances, Pieces, DoneItems, Ordered;
    var before := EncodeAll(cfg, chunks);
    StreamAgrees(cfg, chunks);
    var order := Appearances(Pieces(chunks));
    FinishNeedsStart(cfg, jsonObject, before.state, usage);
    FinishEvents(cfg, jsonObject, before.state, order, usage);
    var ending := Finish(cfg, jsonObject, before.state, usage).result.value;
    ReceiveConcat(FRESH, before.result.value, ending);
    var trace := before.result.value + ending;
    assert trace[|trace| - 1] == ending[|ending| - 1];
  }
}
