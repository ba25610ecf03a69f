/**
 A client of Anthropic Messages events, and the proof that every stream the encoder finishes is
 bracketed as the protocol asks; and exactly when every delta names the open block.
 */
module AnthropicTrace {
  import opened Wrappers
  import opened StreamChunks
  import opened EncoderSteps
  import opened AnthropicStream

  // --- The client -------------------------------------------------------------------------

  datatype ClientBlock = ClientBlock(block: Block, received: string)

  datatype Phase = Expecting | Streaming(id: string) | Ending(id: string) | Stopped(id: string)

  // `strays` counts the deltas that named a block other than the open one.
  datatype Client = Client(phase: Phase, blocks: seq<ClientBlock>, open: Option<nat>, strays: nat)

  const FRESH := Client(Expecting, [], None, 0)

  function DeltaText(delta: BlockDelta): string {
    match delta
    case TextDelta(text) => text
    case InputJsonDelta(partial) => partial
  }

  function Receive(c: Client, e: Event): Option<Client> {
    match e
    case MessageStart(id, _) =>
      if c.phase.Expecting? then Some(c.(phase := Streaming(id))) else None
    case BlockStart(index, block) =>
      if c.phase.Streaming? && c.open.None? && index == |c.blocks|
      then Some(c.(blocks := c.blocks + [ClientBlock(block, "")], open := Some(index))) else None
    case ContentDelta(index, delta) =>
      if c.phase.Streaming? && index < |c.blocks| && (delta.TextDelta? <==> c.blocks[index].block.TextBlock?)
      then Some(c.(blocks := c.blocks[index := ClientBlock(c.blocks[index].block, c.blocks[index].received + DeltaText(delta))],
                   strays := c.strays + if c.open == Some(index) then 0 else 1))
      else None
    case BlockStop(index) =>
      if c.phase.Streaming? && c.open == Some(index) then Some(c.(open := None)) else None
    case MessageDelta(_, _) =>
      if c.phase.Streaming? && c.open.None? then Some(c.(phase := Ending(c.phase.id))) else None
    case MessageStop =>
      if c.phase.Ending? then Some(c.(phase := Stopped(c.phase.id))) else None
  }

  function ReceiveAll(c: Client, events: seq<Event>): Option<Client> {
    if events == [] then Some(c) else
    match ReceiveAll(c, events[..|events| - 1])
    case None => None
    case Some(before) => Receive(before, events[|events| - 1])
  }

  lemma {:induction false} ReceiveConcat(c: Client, xs: seq<Event>, ys: seq<Event>)
    requires ReceiveAll(c, xs).Some?
    ensures ReceiveAll(c, xs + ys) == ReceiveAll(ReceiveAll(c, xs).value, ys)
  {
    if ys == [] {
      assert xs + ys == xs;
    } else {
      ReceiveConcat(c, xs, ys[..|ys| - 1]);
      assert (xs + ys)[..|xs + ys| - 1] == xs + ys[..|ys| - 1];
    }
  }

  lemma ReceiveOne(c: Client, e: Event)
    ensures ReceiveAll(c, [e]) == Receive(c, e)
  {
    assert [e][..0] == [];
    assert ReceiveAll(c, []) == Some(c);
  }

  lemma ReceiveTwo(c: Client, a: Event, b: Event)
    ensures ReceiveAll(c, [a, b]) == match Receive(c, a) case None => None case Some(d) => Receive(d, b)
  {
    ReceiveOne(c, a);
    assert [a, b][..1] == [a];
  }

  // --- Which deltas stray -----------------------------------------------------------------

  // A fragment strays when it carries something for a slot that is not the newest.
  predicate IsStray(pieces: seq<Piece>, p: Piece) {
    var order := Appearances(pieces + [p]);
    p.Payload() != "" && (order == [] || order[|order| - 1] != p.Slot())
  }

  function Strays(pieces: seq<Piece>): nat {
    if pieces == [] then 0 else
    var before := pieces[..|pieces| - 1];
    Strays(before) + if IsStray(before, pieces[|pieces| - 1]) then 1 else 0
  }

  // Once a slot was left for a new one, nothing more arrives for it.
  predicate SinglePass(pieces: seq<Piece>) {
    forall i | 0 <= i < |pieces| :: !IsStray(pieces[..i], pieces[i])
  }

  lemma {:induction false} SinglePassHasNoStrays(pieces: seq<Piece>)
    ensures SinglePass(pieces) <==> Strays(pieces) == 0
  {
    if pieces != [] {
      var before := pieces[..|pieces| - 1];
      SinglePassHasNoStrays(before);
      assert forall i | 0 <= i < |before| :: before[..i] == pieces[..i] && before[i] == pieces[i];
      assert pieces[..|pieces| - 1] == before;
    }
  }

  // --- What the encoder's state means -----------------------------------------------------

  // The slot of each block; the newest block is the open one.
  predicate Ordered(s: State, order: seq<Slot>) {
    && |order| == s.nextBlock == s.openBlock + 1
    && (forall j | 0 <= j < |order| ::
          match order[j]
          case TextSlot => s.textStarted && s.textBlock == j
          case ToolSlot(i) => i in s.tools && s.tools[i].blockIndex == j)
    && (s.textStarted ==> s.textBlock < |order| && order[s.textBlock] == TextSlot)
    && (forall i <- s.tools :: s.tools[i].blockIndex < |order| && order[s.tools[i].blockIndex] == ToolSlot(i))
  }

  predicate ToolTracks(tool: Tool, opening: ToolCallDelta, arguments: string) {
    && opening.func.Some?
    && ValidToolCallId(opening.id)
    && ValidToolName(opening.func.value.name)
    && tool.callId == opening.id
    && tool.name == opening.func.value.name
    && tool.arguments == arguments
  }

  predicate Tracks(s: State, pieces: seq<Piece>) {
    && Ordered(s, Appearances(pieces))
    && s.text == Payload(pieces, TextSlot)
    && (forall i <- s.tools :: ToolSlot(i) in Appearances(pieces)
          && ToolTracks(s.tools[i], Opening(pieces, ToolSlot(i)).call, Payload(pieces, ToolSlot(i))))
  }

  predicate Holds(s: State, slot: Slot) {
    if slot.TextSlot? then s.textStarted else slot.index in s.tools
  }

  function SlotBlock(s: State, slot: Slot): ClientBlock
    requires Holds(s, slot)
  {
    match slot
    case TextSlot => ClientBlock(TextBlock, s.text)
    case ToolSlot(i) => ClientBlock(ToolUseBlock(s.tools[i].callId, s.tools[i].name), s.tools[i].arguments)
  }

  function SlotBlocks(s: State, order: seq<Slot>): (blocks: seq<ClientBlock>)
    requires Ordered(s, order)
    ensures |blocks| == |order|
    ensures forall j | 0 <= j < |order| :: Holds(s, order[j]) && blocks[j] == SlotBlock(s, order[j])
  {
    seq(|order|, j requires 0 <= j < |order| => SlotBlock(s, order[j]))
  }

  function View(s: State, order: seq<Slot>, strays: nat): Client
    requires Ordered(s, order)
  {
    Client(Streaming(s.messageId), SlotBlocks(s, order), if s.openBlock < 0 then None else Some(s.openBlock), strays)
  }

  predicate Agrees(s: State, pieces: seq<Piece>, trace: seq<Event>) {
    && s.started
    && Tracks(s, pieces)
    && ReceiveAll(FRESH, trace) == Some(View(s, Appearances(pieces), Strays(pieces)))
  }

  // --- Facts about one more piece ---------------------------------------------------------

  lemma StraysSnoc(pieces: seq<Piece>, p: Piece)
    ensures Strays(pieces + [p]) == Strays(pieces) + if IsStray(pieces, p) then 1 else 0
  {
    assert (pieces + [p])[..|pieces + [p]| - 1] == pieces;
  }

  // Closing the open block and starting the next one.
  lemma OpenEvents(s: State, order: seq<Slot>, strays: nat, block: Block)
    requires Ordered(s, order)
    ensures var c := View(s, order, strays);
            ReceiveAll(c, CloseOpen(s) + [BlockStart(s.nextBlock, block)])
            == Some(c.(blocks := c.blocks + [ClientBlock(block, "")], open := Some(s.nextBlock)))
  {
    var c := View(s, order, strays);
    if s.openBlock < 0 {
      ReceiveOne(c, BlockStart(s.nextBlock, block));
      assert CloseOpen(s) + [BlockStart(s.nextBlock, block)] == [BlockStart(s.nextBlock, block)];
    } else {
      ReceiveTwo(c, BlockStop(s.openBlock), BlockStart(s.nextBlock, block));
      assert CloseOpen(s) + [BlockStart(s.nextBlock, block)] == [BlockStop(s.openBlock), BlockStart(s.nextBlock, block)];
    }
  }

  lemma FirstTextOrdered(s: State, order: seq<Slot>, content: string)
    requires Ordered(s, order) && !s.textStarted && content != ""
    ensures Ordered(EncodeText(s, content).state, order + [TextSlot])
  {
  }

  lemma FirstTextEvents(s: State, order: seq<Slot>, strays: nat, content: string)
    requires Ordered(s, order) && !s.textStarted && s.text == "" && content != ""
    requires Ordered(EncodeText(s, content).state, order + [TextSlot])
    ensures var step := EncodeText(s, content);
            ReceiveAll(View(s, order, strays), step.result.value) == Some(View(step.state, order + [TextSlot], strays))
  {
    var step := EncodeText(s, content);
    var c := View(s, order, strays);
    var k := s.nextBlock;
    OpenEvents(s, order, strays, TextBlock);
    var c1 := c.(blocks := c.blocks + [ClientBlock(TextBlock, "")], open := Some(k));
    var delta := ContentDelta(k, TextDelta(content));
    ReceiveOne(c1, delta);
    assert "" + content == content;
    var opening := CloseOpen(s) + [BlockStart(k, TextBlock)];
    ReceiveConcat(c, opening, [delta]);
    assert step.result.value == opening + [delta];
    var c2 := c1.(blocks := c.blocks + [ClientBlock(TextBlock, content)]);
    assert c1.blocks[k := ClientBlock(TextBlock, content)] == c2.blocks;
    assert Receive(c1, delta) == Some(c2);
    assert c2.blocks == SlotBlocks(step.state, order + [TextSlot]);
  }

  lemma LaterTextEvents(s: State, order: seq<Slot>, strays: nat, content: string)
    requires Ordered(s, order) && s.textStarted && content != ""
    ensures var step := EncodeText(s, content);
            && Ordered(step.state, order)
            && ReceiveAll(View(s, order, strays), step.result.value)
               == Some(View(step.state, order, strays + if order[|order| - 1] == TextSlot then 0 else 1))
  {
    var step := EncodeText(s, content);
    var c := View(s, order, strays);
    ReceiveOne(c, ContentDelta(s.textBlock, TextDelta(content)));
    assert c.blocks[s.textBlock] == SlotBlock(s, TextSlot);
    assert c.blocks[s.textBlock := ClientBlock(TextBlock, s.text + content)] == SlotBlocks(step.state, order);
  }

  lemma TextTracks(s: State, pieces: seq<Piece>, content: string)
    requires Tracks(s, pieces) && content != ""
    ensures Tracks(EncodeText(s, content).state, pieces + [TextPiece(content)])
  {
    var order := Appearances(pieces);
    SnocFacts(pieces, TextPiece(content));
    StraysSnoc(pieces, TextPiece(content));
    if !s.textStarted {
      assert TextSlot !in order;
      FirstTextOrdered(s, order, content);
    }
    assert EncodeText(s, content).state.tools == s.tools;
  }

  lemma TextStep(s: State, content: string)
    ensures EncodeText(s, content).result.Ok?
    ensures EncodeText(s, content).state.started == s.started
  {
  }

  lemma SomeTextAgrees(s: State, pieces: seq<Piece>, trace: seq<Event>, content: string)
    requires Agrees(s, pieces, trace) && content != ""
    ensures var step := EncodeText(s, content);
            step.result.Ok? && Agrees(step.state, pieces + [TextPiece(content)], trace + step.result.value)
  {
    hide *;
    AgreesMeans(s, pieces, trace);
    var order := Appearances(pieces);
    var step := EncodeText(s, content);
    TextStep(s, content);
    TextTracks(s, pieces, content);
    SnocFacts(pieces, TextPiece(content));
    StraysSnoc(pieces, TextPiece(content));
    ReceiveConcat(FRESH, trace, step.result.value);
    TextStray(s, pieces, content);
    if s.textStarted {
      LaterTextEvents(s, order, Strays(pieces), content);
    } else {
      TracksOrdered(step.state, pieces + [TextPiece(content)]);
      FirstTextEvents(s, order, Strays(pieces), content);
    }
    AgreesIf(step.state, pieces + [TextPiece(content)], trace + step.result.value);
  }

  lemma TextAgrees(s: State, pieces: seq<Piece>, trace: seq<Event>, content: string)
    requires Agrees(s, pieces, trace)
    ensures var step := EncodeText(s, content);
            step.result.Ok? && Agrees(step.state, pieces + TextPieces(content), trace + step.result.value)
  {
    hide Agrees;
    if content == "" {
      assert pieces + [] == pieces && trace + [] == trace;
    } else {
      SomeTextAgrees(s, pieces, trace, content);
    }
  }

  lemma AgreesMeans(s: State, pieces: seq<Piece>, trace: seq<Event>)
    requires Agrees(s, pieces, trace)
    ensures s.started && Tracks(s, pieces) && Ordered(s, Appearances(pieces))
    ensures ReceiveAll(FRESH, trace) == Some(View(s, Appearances(pieces), Strays(pieces)))
  {
  }

  lemma AgreesIf(s: State, pieces: seq<Piece>, trace: seq<Event>)
    requires s.started && Tracks(s, pieces)
    requires ReceiveAll(FRESH, trace) == Some(View(s, Appearances(pieces), Strays(pieces)))
    ensures Agrees(s, pieces, trace)
  {
  }

  lemma TracksOrdered(s: State, pieces: seq<Piece>)
    requires Tracks(s, pieces)
    ensures Ordered(s, Appearances(pieces))
  {
  }

  lemma TextStray(s: State, pieces: seq<Piece>, content: string)
    requires Tracks(s, pieces) && content != ""
    ensures var order := Appearances(pieces);
            && (s.textStarted <==> TextSlot in order)
            && (s.textStarted ==> |order| > 0 && (IsStray(pieces, TextPiece(content)) <==> order[|order| - 1] != TextSlot))
            && (!s.textStarted ==> s.text == "" && !IsStray(pieces, TextPiece(content)))
            && Appearances(pieces + [TextPiece(content)]) == (if s.textStarted then order else order + [TextSlot])
            && Strays(pieces + [TextPiece(content)])
               == Strays(pieces) + (if s.textStarted && order[|order| - 1] != TextSlot then 1 else 0)
  {
    SnocFacts(pieces, TextPiece(content));
    StraysSnoc(pieces, TextPiece(content));
    if !s.textStarted {
      assert TextSlot !in Appearances(pieces);
      SlotAbsent(pieces, TextSlot);
    }
  }

  // --- Tool calls -------------------------------------------------------------------------

  lemma OpenedOrdered(s: State, order: seq<Slot>, call: ToolCallDelta)
    requires Ordered(s, order) && call.index !in s.tools && OpenTool(s, call).result.Ok?
    ensures Ordered(OpenTool(s, call).state, order + [ToolSlot(call.index)])
  {
    var next := OpenTool(s, call).state;
    var longer := order + [ToolSlot(call.index)];
    assert next.tools.Keys == s.tools.Keys + {call.index};
    assert forall i <- s.tools :: next.tools[i] == s.tools[i];
    forall j | 0 <= j < |order| && order[j].ToolSlot?
      ensures longer[j].index in next.tools && next.tools[longer[j].index].blockIndex == j
    {
      assert order[j].index != call.index;
    }
  }

  lemma OpenedEvents(s: State, order: seq<Slot>, strays: nat, call: ToolCallDelta)
    requires Ordered(s, order) && call.index !in s.tools && OpenTool(s, call).result.Ok?
    requires Ordered(OpenTool(s, call).state, order + [ToolSlot(call.index)])
    ensures var step := OpenTool(s, call);
            ReceiveAll(View(s, order, strays), step.result.value)
            == Some(View(step.state, order + [ToolSlot(call.index)], strays))
  {
    var step := OpenTool(s, call);
    var c := View(s, order, strays);
    var block := ToolUseBlock(call.id, call.func.value.name);
    OpenEvents(s, order, strays, block);
    assert c.blocks + [ClientBlock(block, "")] == SlotBlocks(step.state, order + [ToolSlot(call.index)]);
  }

  lemma ArgumentsEvents(s: State, order: seq<Slot>, strays: nat, call: ToolCallDelta)
    requires Ordered(s, order) && call.index in s.tools && Arguments(call) != ""
    ensures var step := TakeArguments(s, call);
            && Ordered(step.state, order)
            && ReceiveAll(View(s, order, strays), step.result.value)
               == Some(View(step.state, order, strays + if order[|order| - 1] == ToolSlot(call.index) then 0 else 1))
  {
    var step := TakeArguments(s, call);
    var c := View(s, order, strays);
    var tool := s.tools[call.index];
    var k := tool.blockIndex;
    assert step.state.tools.Keys == s.tools.Keys;
    assert Ordered(step.state, order);
    assert order[k] == ToolSlot(call.index);
    ReceiveOne(c, ContentDelta(k, InputJsonDelta(Arguments(call))));
    assert c.blocks[k] == SlotBlock(s, ToolSlot(call.index));
    var blocks := SlotBlocks(step.state, order);
    forall j | 0 <= j < |order| && j != k ensures blocks[j] == c.blocks[j] {
      assert order[j] != order[k];
    }
    assert c.blocks[k := blocks[k]] == blocks;
    assert order[|order| - 1] == ToolSlot(call.index) <==> k == |order| - 1;
  }

  lemma CallTools(s: State, call: ToolCallDelta)
    requires EncodeCall(s, call).result.Ok?
    ensures var next := EncodeCall(s, call).state;
            && next.started == s.started
            && next.tools.Keys == s.tools.Keys + {call.index}
            && next.text == s.text
            && (forall i <- s.tools | i != call.index :: next.tools[i] == s.tools[i])
            && (call.index !in s.tools ==>
                  && call.func.Some? && ValidToolCallId(call.id) && ValidToolName(call.func.value.name)
                  && next.tools[call.index] == Tool(call.id, call.func.value.name, Arguments(call), s.nextBlock))
            && (call.index in s.tools ==>
                  next.tools[call.index] == s.tools[call.index].(arguments := s.tools[call.index].arguments + Arguments(call)))
  {
    assert "" + Arguments(call) == Arguments(call);
    if call.index in s.tools {
      assert s.tools[call.index].arguments + "" == s.tools[call.index].arguments;
    }
  }

  lemma ToolState(s: State, pieces: seq<Piece>, call: ToolCallDelta, i: int)
    requires Tracks(s, pieces) && EncodeCall(s, call).result.Ok?
    requires i in EncodeCall(s, call).state.tools
    ensures var longer := pieces + [CallPiece(call)];
            && ToolSlot(i) in Appearances(longer)
            && ToolTracks(EncodeCall(s, call).state.tools[i], Opening(longer, ToolSlot(i)).call, Payload(longer, ToolSlot(i)))
  {
    hide EncodeCall, Opening, Payload, Appearances;
    SnocFacts(pieces, CallPiece(call));
    StraysSnoc(pieces, CallPiece(call));
    CallTools(s, call);
    var slot := ToolSlot(i);
    if i in s.tools {
      assert slot in Appearances(pieces);
      if i != call.index {
        assert Payload(pieces, slot) + "" == Payload(pieces, slot);
      }
    } else {
      assert slot !in Appearances(pieces);
      SlotAbsent(pieces, slot);
      assert "" + Arguments(call) == Arguments(call);
    }
  }

  lemma CallTracks(s: State, pieces: seq<Piece>, call: ToolCallDelta)
    requires Tracks(s, pieces) && EncodeCall(s, call).result.Ok?
    requires Ordered(EncodeCall(s, call).state, Appearances(pieces + [CallPiece(call)]))
    ensures Tracks(EncodeCall(s, call).state, pieces + [CallPiece(call)])
  {
    hide EncodeCall, Opening, Payload, Appearances, ToolTracks, Ordered;
    var next := EncodeCall(s, call).state;
    SnocFacts(pieces, CallPiece(call));
    StraysSnoc(pieces, CallPiece(call));
    CallTools(s, call);
    assert Payload(pieces, TextSlot) + "" == Payload(pieces, TextSlot);
    forall i <- next.tools
      ensures ToolSlot(i) in Appearances(pieces + [CallPiece(call)])
      ensures ToolTracks(next.tools[i], Opening(pieces + [CallPiece(call)], ToolSlot(i)).call,
                         Payload(pieces + [CallPiece(call)], ToolSlot(i)))
    {
      ToolState(s, pieces, call, i);
    }
  }

  // The block a call opens, if it is new.
  lemma CallOpens(s: State, pieces: seq<Piece>, call: ToolCallDelta)
    requires Tracks(s, pieces) && EncodeCall(s, call).result.Ok?
    ensures var next := Appearances(pieces + [CallPiece(call)]);
            var begun := OpenTool(s, call);
            && begun.result.Ok? && call.index in begun.state.tools
            && Ordered(begun.state, next)
            && ReceiveAll(View(s, Appearances(pieces), Strays(pieces)), begun.result.value)
               == Some(View(begun.state, next, Strays(pieces)))
  {
    var order := Appearances(pieces);
    SnocFacts(pieces, CallPiece(call));
    StraysSnoc(pieces, CallPiece(call));
    if call.index in s.tools {
      assert ToolSlot(call.index) in order;
    } else {
      assert ToolSlot(call.index) !in order;
      OpenedOrdered(s, order, call);
      OpenedEvents(s, order, Strays(pieces), call);
    }
  }

  lemma CallArguments(s: State, pieces: seq<Piece>, call: ToolCallDelta)
    requires call.index in s.tools && Ordered(s, Appearances(pieces + [CallPiece(call)]))
    ensures var order := Appearances(pieces + [CallPiece(call)]);
            var step := TakeArguments(s, call);
            && step.result.Ok?
            && Ordered(step.state, order)
            && ReceiveAll(View(s, order, Strays(pieces)), step.result.value)
               == Some(View(step.state, order, Strays(pieces + [CallPiece(call)])))
  {
    hide Appearances, Ordered, View, ReceiveAll;
    var order := Appearances(pieces + [CallPiece(call)]);
    SnocFacts(pieces, CallPiece(call));
    StraysSnoc(pieces, CallPiece(call));
    OrderedNonEmpty(s, order, call.index);
    if Arguments(call) != "" {
      ArgumentsEvents(s, order, Strays(pieces), call);
    } else {
      ReceiveNone(View(s, order, Strays(pieces)));
    }
  }

  lemma ReceiveNone(c: Client)
    ensures ReceiveAll(c, []) == Some(c)
  {
  }

  lemma OrderedNonEmpty(s: State, order: seq<Slot>, i: int)
    requires Ordered(s, order) && i in s.tools
    ensures |order| > 0
  {
  }

  lemma EncodeCallParts(s: State, call: ToolCallDelta)
    requires EncodeCall(s, call).result.Ok?
    ensures var begun := OpenTool(s, call);
            && begun.result.Ok? && call.index in begun.state.tools
            && TakeArguments(begun.state, call).result.Ok?
            && EncodeCall(s, call).state == TakeArguments(begun.state, call).state
            && EncodeCall(s, call).result.value == begun.result.value + TakeArguments(begun.state, call).result.value
  {
  }

  lemma CallAgrees(s: State, pieces: seq<Piece>, trace: seq<Event>, call: ToolCallDelta)
    requires Agrees(s, pieces, trace) && EncodeCall(s, call).result.Ok?
    ensures var step := EncodeCall(s, call);
            Agrees(step.state, pieces + [CallPiece(call)], trace + step.result.value)
  {
    hide *;
    AgreesMeans(s, pieces, trace);
    EncodeCallParts(s, call);
    CallOpens(s, pieces, call);
    var begun := OpenTool(s, call);
    CallArguments(begun.state, pieces, call);
    CallTools(s, call);
    CallTracks(s, pieces, call);
    var rest := TakeArguments(begun.state, call).result.value;
    ReceiveConcat(FRESH, trace, begun.result.value);
    ReceiveConcat(FRESH, trace + begun.result.value, rest);
    assert trace + (begun.result.value + rest) == (trace + begun.result.value) + rest;
    AgreesIf(EncodeCall(s, call).state, pieces + [CallPiece(call)], trace + EncodeCall(s, call).result.value);
  }

  lemma {:induction false} CallsAgree(s: State, pieces: seq<Piece>, trace: seq<Event>, calls: seq<ToolCallDelta>)
    requires Agrees(s, pieces, trace) && EncodeCalls(s, calls).result.Ok?
    ensures var step := EncodeCalls(s, calls);
            Agrees(step.state, pieces + CallPieces(calls), trace + step.result.value)
    decreases |calls|
  {
    hide Agrees, EncodeCall;
    if calls == [] {
      assert pieces + CallPieces(calls) == pieces;
      assert trace + [] == trace;
    } else {
      var first := EncodeCall(s, calls[0]);
      CallAgrees(s, pieces, trace, calls[0]);
      var rest := EncodeCalls(first.state, calls[1..]);
      CallsAgree(first.state, pieces + [CallPiece(calls[0])], trace + first.result.value, calls[1..]);
      assert (pieces + [CallPiece(calls[0])]) + CallPieces(calls[1..]) == pieces + CallPieces(calls);
      assert (trace + first.result.value) + rest.result.value == trace + (first.result.value + rest.result.value);
    }
  }

  lemma ReasonAgrees(s: State, pieces: seq<Piece>, trace: seq<Event>, reason: FinishField)
    requires Agrees(s, pieces, trace)
    ensures Agrees(TakeReason(s, reason), pieces, trace)
  {
    var order := Appearances(pieces);
    assert Ordered(TakeReason(s, reason), order);
    assert SlotBlocks(TakeReason(s, reason), order) == SlotBlocks(s, order);
  }

  lemma DeltaAgrees(s: State, pieces: seq<Piece>, trace: seq<Event>, d: Decoded)
    requires Agrees(s, pieces, trace) && EncodeDelta(s, d).result.Ok?
    ensures var step := EncodeDelta(s, d);
            Agrees(step.state, pieces + DecodedPieces(d), trace + step.result.value)
  {
    hide Agrees, EncodeText, EncodeCalls;
    var s1 := TakeReason(s, d.finishReason);
    ReasonAgrees(s, pieces, trace, d.finishReason);
    var text := EncodeText(s1, d.content);
    TextAgrees(s1, pieces, trace, d.content);
    var calls := EncodeCalls(text.state, d.calls);
    CallsAgree(text.state, pieces + TextPieces(d.content), trace + text.result.value, d.calls);
    assert (pieces + TextPieces(d.content)) + CallPieces(d.calls) == pieces + DecodedPieces(d);
    assert (trace + text.result.value) + calls.result.value == trace + (text.result.value + calls.result.value);
  }

  // --- Whole streams ----------------------------------------------------------------------

  lemma StartAgrees(cfg: Config, chunk: Chunk)
    ensures Start(cfg, INITIAL, chunk).result.Ok?
    ensures Agrees(Start(cfg, INITIAL, chunk).state, [], Start(cfg, INITIAL, chunk).result.value)
  {
    var step := Start(cfg, INITIAL, chunk);
    ReceiveOne(FRESH, step.result.value[0]);
    assert Ordered(step.state, []);
  }

  lemma ChunkAgrees(cfg: Config, s: State, pieces: seq<Piece>, trace: seq<Event>, chunk: Chunk)
    requires Encode(cfg, s, chunk).result.Ok?
    requires if s.started then Agrees(s, pieces, trace) else s == INITIAL && pieces == [] && trace == []
    ensures var step := Encode(cfg, s, chunk);
            Agrees(step.state, pieces + ChunkPieces(chunk), trace + step.result.value)
  {
    hide Agrees, EncodeDelta, DecodeTranslated, DecodedPieces;
    var start := Start(cfg, s, chunk);
    if s.started {
      assert trace + [] == trace;
    } else {
      StartAgrees(cfg, chunk);
      assert [] + start.result.value == start.result.value;
    }
    var d := DecodeTranslated(chunk).value;
    var rest := EncodeDelta(start.state, d);
    DeltaAgrees(start.state, pieces, trace + start.result.value, d);
    assert (trace + start.result.value) + rest.result.value == trace + (start.result.value + rest.result.value);
  }

  lemma {:induction false} StreamAgrees(cfg: Config, chunks: seq<Chunk>)
    requires EncodeAll(cfg, chunks).result.Ok?
    ensures chunks == [] ==> EncodeAll(cfg, chunks) == Step(INITIAL, Ok([]))
    ensures chunks != [] ==> Agrees(EncodeAll(cfg, chunks).state, Pieces(chunks), EncodeAll(cfg, chunks).result.value)
  {
    if chunks != [] {
      var before := EncodeAll(cfg, chunks[..|chunks| - 1]);
      StreamAgrees(cfg, chunks[..|chunks| - 1]);
      ChunkAgrees(cfg, before.state, Pieces(chunks[..|chunks| - 1]), before.result.value, chunks[|chunks| - 1]);
    }
  }

  lemma FinishEvents(jsonObject: string -> bool, s: State, order: seq<Slot>, strays: nat, usage: TokenUsage)
    requires s.started && Ordered(s, order) && Finish(jsonObject, s, usage).result.Ok?
    ensures var c := View(s, order, strays);
            ReceiveAll(c, Finish(jsonObject, s, usage).result.value)
            == Some(c.(phase := Stopped(s.messageId), open := None))
  {
    var events := Finish(jsonObject, s, usage).result.value;
    var c := View(s, order, strays);
    var d := c.(open := None);
    var end := [MessageDelta(StopReason(s.finishReason).value, usage.output.GetOr(0)), MessageStop];
    ReceiveTwo(d, end[0], end[1]);
    if s.openBlock < 0 {
      ReceiveNone(c);
    } else {
      ReceiveOne(c, BlockStop(s.openBlock));
    }
    ReceiveConcat(c, CloseOpen(s), end);
    assert events == CloseOpen(s) + end;
  }

  // The blocks of a stream, each with all the stream carried for its slot.
  predicate Carries(blocks: seq<ClientBlock>, pieces: seq<Piece>) {
    && |blocks| == |Appearances(pieces)|
    && forall j | 0 <= j < |blocks| ::
         && blocks[j].received == Payload(pieces, Appearances(pieces)[j])
         && match Appearances(pieces)[j]
            case TextSlot => blocks[j].block == TextBlock
            case ToolSlot(i) =>
              var opening := Opening(pieces, Appearances(pieces)[j]);
              && opening.CallPiece? && opening.call.func.Some?
              && blocks[j].block == ToolUseBlock(opening.call.id, opening.call.func.value.name)
  }

  lemma BlocksCarry(s: State, pieces: seq<Piece>)
    requires Tracks(s, pieces)
    ensures Ordered(s, Appearances(pieces)) && Carries(SlotBlocks(s, Appearances(pieces)), pieces)
  {
    var order := Appearances(pieces);
    var blocks := SlotBlocks(s, order);
    hide Ordered, Payload, Appearances;
    forall j | 0 <= j < |order|
      ensures blocks[j].received == Payload(pieces, order[j])
    {
      assert blocks[j] == SlotBlock(s, order[j]);
    }
  }

  // Every finished stream is bracketed: the client takes it to the end, all blocks are closed and
  // hold what the stream carried; and every delta named the open block exactly when the stream
  // never returns to a slot it left.
  lemma FinishedStreamBracketed(cfg: Config, jsonObject: string -> bool, chunks: seq<Chunk>, usage: TokenUsage)
    requires Translate(cfg, jsonObject, chunks, usage).result.Ok?
    ensures var end := ReceiveAll(FRESH, Translate(cfg, jsonObject, chunks, usage).result.value);
            && end.Some? && end.value.phase.Stopped? && end.value.open.None?
            && Carries(end.value.blocks, Pieces(chunks))
            && (end.value.strays == 0 <==> SinglePass(Pieces(chunks)))
  {
    hide EncodeAll, Finish, View, ReceiveAll, Appearances, Pieces, Ordered, Tracks, Carries, SinglePass, Strays, Agrees;
    var before := EncodeAll(cfg, chunks);
    StreamAgrees(cfg, chunks);
    FinishNeedsStart(jsonObject, before.state, usage);
    var pieces := Pieces(chunks);
    AgreesMeans(before.state, pieces, before.result.value);
    FinishEvents(jsonObject, before.state, Appearances(pieces), Strays(pieces), usage);
    ReceiveConcat(FRESH, before.result.value, Finish(jsonObject, before.state, usage).result.value);
    BlocksCarry(before.state, pieces);
    SinglePassHasNoStrays(pieces);
    ViewFields(before.state, Appearances(pieces), Strays(pieces));
  }

  lemma ViewFields(s: State, order: seq<Slot>, strays: nat)
    requires Ordered(s, order)
    ensures View(s, order, strays).blocks == SlotBlocks(s, order) && View(s, order, strays).strays == strays
  {
  }

  lemma FinishNeedsStart(jsonObject: string -> bool, s: State, usage: TokenUsage)
    ensures Finish(jsonObject, s, usage).result.Ok? ==> s.started
  {
  }
}
