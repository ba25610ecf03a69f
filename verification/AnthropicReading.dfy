/**
 What an Anthropic request becomes, said block by block: which requests convert, and the chat messages
 they convert to.
 */
module AnthropicReading {
  import opened Wrappers
  import opened StreamChunks
  import opened RawStreams
  import opened Messages
  import opened AnthropicConversion
  import SseFrames
  import SseLines

  // --- Which blocks convert ---------------------------------------------------------------

  function Lined(parts: seq<Part>): string {
    if parts == [] then "" else if |parts| == 1 then parts[0].text else parts[0].text + "\n" + Lined(parts[1..])
  }

  // The text of a tool result, its parts one line each; "" when there is none or it cannot be read.
  function ResultSays(content: Content): string {
    match content
    case Text(text) => text
    case Parts(parts) =>
      if && 1 <= |parts| <= 128
         && forall part <- parts ::
              (part.kind == "text" || part.kind == "input_text" || part.kind == "output_text") && part.text != ""
      then Lined(parts) else ""
    case _ => ""
  }

  predicate BlockAllowed(jsonObject: string -> bool, role: string, b: Block) {
    match b
    case TextBlock(text, cached) => !cached && text != ""
    case ToolUse(id, name, input, cached) =>
      role == "assistant" && !cached && IdAllowed(id) && NameAllowed(name) && jsonObject(input)
    case ToolResult(id, content, cached) => role == "user" && !cached && IdAllowed(id) && ResultSays(content) != ""
    case OtherBlock(_) => false
  }

  predicate TurnAllowed(jsonObject: string -> bool, m: AnthropicMessage) {
    && (m.role == "user" || m.role == "assistant")
    && match m.content
       case Plain(text) => text != ""
       case Blocks(blocks) => 1 <= |blocks| <= 128 && forall b <- blocks :: BlockAllowed(jsonObject, m.role, b)
       case BadContent => false
  }

  lemma {:induction false} LinedIs(parts: seq<Part>)
    ensures SseFrames.Join(PartTexts(parts)) == Lined(parts)
  {
    if |parts| > 1 {
      SseLines.JoinFirst(PartTexts(parts));
      LinedIs(parts[1..]);
      assert PartTexts(parts)[1..] == PartTexts(parts[1..]);
    }
  }

  lemma ResultIs(content: Content)
    ensures ResultText(content).GetOr("") == ResultSays(content)
  {
    if content.Parts? {
      LinedIs(content.parts);
    }
  }

  lemma BlockIs(jsonObject: string -> bool, b: Block)
    ensures ValidAssistantBlock(jsonObject, b) <==> BlockAllowed(jsonObject, "assistant", b)
    ensures ValidUserBlock(b) <==> BlockAllowed(jsonObject, "user", b)
  {
    hide ResultText, ResultSays, ValidToolCallId, ValidToolName, IdAllowed, NameAllowed;
    if b.ToolUse? {
      NamesAllowed(b.id);
      NamesAllowed(b.name);
    }
    if b.ToolResult? {
      NamesAllowed(b.toolUseId);
      ResultIs(b.content);
    }
  }

  // --- What blocks hold, from the first on ------------------------------------------------

  function TextsIn(blocks: seq<Block>): seq<string> {
    if blocks == [] then []
    else if blocks[0].TextBlock? then [blocks[0].text] + TextsIn(blocks[1..])
    else TextsIn(blocks[1..])
  }

  function UsesIn(blocks: seq<Block>): seq<ToolCall> {
    if blocks == [] then []
    else if blocks[0].ToolUse? then [ToolCall(blocks[0].id, "function", blocks[0].name, blocks[0].input)] + UsesIn(blocks[1..])
    else UsesIn(blocks[1..])
  }

  function ResultsIn(blocks: seq<Block>): seq<Message> {
    if blocks == [] then []
    else if blocks[0].ToolResult? then
      [Message("tool", Text(ResultSays(blocks[0].content)), None, [], blocks[0].toolUseId, "")] + ResultsIn(blocks[1..])
    else ResultsIn(blocks[1..])
  }

  lemma {:induction false} HoldsSnoc(blocks: seq<Block>, b: Block)
    ensures TextsIn(blocks + [b]) == TextsIn(blocks) + TextsIn([b])
    ensures UsesIn(blocks + [b]) == UsesIn(blocks) + UsesIn([b])
    ensures ResultsIn(blocks + [b]) == ResultsIn(blocks) + ResultsIn([b])
  {
    if blocks == [] {
      assert [] + [b] == [b];
    } else {
      HoldsSnoc(blocks[1..], b);
      assert (blocks + [b])[0] == blocks[0] && (blocks + [b])[1..] == blocks[1..] + [b];
      hide ResultSays;
    }
  }

  lemma {:induction false} HoldsSame(blocks: seq<Block>)
    ensures Texts(blocks) == TextsIn(blocks) && Uses(blocks) == UsesIn(blocks) && Results(blocks) == ResultsIn(blocks)
  {
    if blocks != [] {
      var init, last := blocks[..|blocks| - 1], blocks[|blocks| - 1];
      HoldsSame(init);
      HoldsSnoc(init, last);
      assert init + [last] == blocks && [last][1..] == [];
      if last.ToolResult? {
        ResultIs(last.content);
      }
      hide ResultText, ResultSays;
    }
  }

  // --- What a message becomes -------------------------------------------------------------

  // Content that says these texts: one as it is, several as parts.
  predicate ContentSays(content: Content, texts: seq<string>) {
    if |texts| == 1 then content == Text(texts[0])
    else content.Parts? && |content.parts| == |texts| && forall i | 0 <= i < |texts| :: content.parts[i] == Part("text", texts[i])
  }

  // A plain message stays one; an assistant's blocks become one message with its calls; a user's results come
  // first, one message each, and its texts after them, if there are any.
  predicate Becomes(m: AnthropicMessage, chat: seq<Message>) {
    match m.content
    case BadContent => false
    case Plain(text) => chat == [Message(m.role, Text(text), None, [], "", "")]
    case Blocks(blocks) =>
      var texts := TextsIn(blocks);
      if m.role == "assistant" then
        && |chat| == 1 && chat[0] == Message("assistant", chat[0].content, None, UsesIn(blocks), "", "")
        && (if texts == [] then chat[0].content == Null else ContentSays(chat[0].content, texts))
      else if texts == [] then chat == ResultsIn(blocks)
      else
        && |chat| == |ResultsIn(blocks)| + 1 && chat[..|chat| - 1] == ResultsIn(blocks)
        && var spoken := chat[|chat| - 1];
           spoken == Message("user", spoken.content, None, [], "", "") && ContentSays(spoken.content, texts)
  }

  lemma ConvertsExactly(jsonObject: string -> bool, m: AnthropicMessage)
    ensures Convert(jsonObject, m).Some? <==> TurnAllowed(jsonObject, m)
    ensures Convert(jsonObject, m).Some? ==> Becomes(m, Convert(jsonObject, m).value)
  {
    hide ValidAssistantBlock, ValidUserBlock, BlockAllowed, TextsIn, UsesIn, ResultsIn, Texts, Uses, Results;
    if m.content.Blocks? {
      HoldsSame(m.content.blocks);
      forall b <- m.content.blocks
        ensures ValidAssistantBlock(jsonObject, b) <==> BlockAllowed(jsonObject, "assistant", b)
        ensures ValidUserBlock(b) <==> BlockAllowed(jsonObject, "user", b)
      {
        BlockIs(jsonObject, b);
      }
      assert Results(m.content.blocks) + [] == Results(m.content.blocks);
    }
  }

  // --- What a request becomes -------------------------------------------------------------

  predicate SystemAllowed(system: Option<BlockContent>) {
    match system
    case None => true
    case Some(Plain(text)) => text != ""
    case Some(Blocks(blocks)) => 1 <= |blocks| <= 128 && forall b <- blocks :: b.TextBlock? && !b.cached && b.text != ""
    case Some(BadContent) => false
  }

  function SystemSays(system: Option<BlockContent>): seq<string> {
    match system
    case Some(Plain(text)) => [text]
    case Some(Blocks(blocks)) => TextsIn(blocks)
    case _ => []
  }

  lemma SystemExactly(system: Option<BlockContent>)
    ensures SystemMessages(system).Some? <==> SystemAllowed(system)
    ensures SystemMessages(system) == Some([]) <==> system == None
    ensures SystemMessages(system).Some? && system.Some? ==>
              var chat := SystemMessages(system).value;
              && |chat| == 1 && chat[0] == Message("system", chat[0].content, None, [], "", "")
              && ContentSays(chat[0].content, SystemSays(system))
  {
    hide TextsIn, Texts;
    if system.Some? && system.value.Blocks? {
      HoldsSame(system.value.blocks);
    }
  }

  // A request decodes exactly when its system prompt and every message are allowed; it is then the system
  // message, if there is a prompt, and what each message becomes, in order.
  lemma {:induction false} DecodesExactly(jsonObject: string -> bool, system: Option<BlockContent>, messages: seq<AnthropicMessage>)
    returns (parts: seq<seq<Message>>)
    ensures DecodeMessages(jsonObject, system, messages).Some?
            <==> SystemAllowed(system) && forall m <- messages :: TurnAllowed(jsonObject, m)
    ensures DecodeMessages(jsonObject, system, messages).Some? ==>
              && |parts| == |messages| && (forall i | 0 <= i < |messages| :: Becomes(messages[i], parts[i]))
              && SystemMessages(system).Some?
              && DecodeMessages(jsonObject, system, messages).value == SystemMessages(system).value + Flat(parts)
  {
    hide Convert, TurnAllowed, Becomes, SystemMessages, SystemAllowed;
    SystemExactly(system);
    parts := Converted(jsonObject, messages);
  }

  function Flat(parts: seq<seq<Message>>): seq<Message> {
    if parts == [] then [] else parts[0] + Flat(parts[1..])
  }

  lemma {:induction false} Converted(jsonObject: string -> bool, messages: seq<AnthropicMessage>) returns (parts: seq<seq<Message>>)
    ensures ConvertAll(jsonObject, messages).Some? <==> forall m <- messages :: TurnAllowed(jsonObject, m)
    ensures ConvertAll(jsonObject, messages).Some? ==>
              && |parts| == |messages| && (forall i | 0 <= i < |messages| :: Becomes(messages[i], parts[i]))
              && ConvertAll(jsonObject, messages).value == Flat(parts)
  {
    hide Convert, TurnAllowed, Becomes;
    parts := [];
    if messages != [] {
      var m := messages[0];
      ConvertsExactly(jsonObject, m);
      var rest := Converted(jsonObject, messages[1..]);
      assert messages == [m] + messages[1..];
      if ConvertAll(jsonObject, messages).Some? {
        parts := [Convert(jsonObject, m).value] + rest;
        assert parts[1..] == rest;
      }
    }
  }
}
