/** Anthropic messages turned into chat messages, and what the conversion keeps. */
module AnthropicConversion {
  import opened Wrappers
  import opened StreamChunks
  import opened StringOrder
  import opened Messages
  import opened MessageRules
  import SseFrames

  // A tool use's input is its JSON text without surrounding space. `cached`: cache_control is set.
  datatype Block =
    | TextBlock(text: string, cached: bool)
    | ToolUse(id: string, name: string, input: string, cached: bool)
    | ToolResult(toolUseId: string, content: Content, cached: bool)
    | OtherBlock(cached: bool)

  datatype BlockContent = Plain(text: string) | Blocks(blocks: seq<Block>) | BadContent

  datatype AnthropicMessage = AnthropicMessage(role: string, content: BlockContent)

  function PartTexts(parts: seq<Part>): (texts: seq<string>)
    ensures |texts| == |parts| && forall i | 0 <= i < |parts| :: texts[i] == parts[i].text
  {
    seq(|parts|, i requires 0 <= i < |parts| => parts[i].text)
  }

  // The text of a tool result; its parts become lines.
  function ResultText(content: Content): Option<string> {
    match content
    case Missing => None
    case Malformed => None
    case Null => Some("")
    case Text(text) => Some(text)
    case Parts(parts) =>
      if parts == [] || |parts| > MAX_PARTS then None
      else if exists part <- parts :: part.kind !in {"input_text", "output_text", "text"} || part.text == "" then None
      else Some(SseFrames.Join(PartTexts(parts)))
  }

  predicate ValidAssistantBlock(jsonObject: string -> bool, b: Block) {
    && !b.cached
    && match b
       case TextBlock(text, _) => text != ""
       case ToolUse(id, name, input, _) => ValidToolCallId(id) && ValidToolName(name) && jsonObject(input)
       case _ => false
  }

  predicate ValidUserBlock(b: Block) {
    && !b.cached
    && match b
       case TextBlock(text, _) => text != ""
       case ToolResult(id, content, _) => ValidToolCallId(id) && ResultText(content).GetOr("") != ""
       case _ => false
  }

  // --- What a list of blocks holds, in order ----------------------------------------------

  function Texts(blocks: seq<Block>): seq<string> {
    if blocks == [] then [] else
    Texts(blocks[..|blocks| - 1]) + match blocks[|blocks| - 1] case TextBlock(text, _) => [text] case _ => []
  }

  function Uses(blocks: seq<Block>): seq<ToolCall> {
    if blocks == [] then [] else
    Uses(blocks[..|blocks| - 1])
    + match blocks[|blocks| - 1] case ToolUse(id, name, input, _) => [ToolCall(id, "function", name, input)] case _ => []
  }

  function ResultMessage(id: string, text: string): Message {
    Message("tool", Text(text), None, [], id, "")
  }

  function Results(blocks: seq<Block>): seq<Message> {
    if blocks == [] then [] else
    Results(blocks[..|blocks| - 1])
    + match blocks[|blocks| - 1] case ToolResult(id, content, _) => [ResultMessage(id, ResultText(content).GetOr(""))] case _ => []
  }

  function TextParts(texts: seq<string>): (parts: seq<Part>)
    ensures |parts| == |texts| && forall i | 0 <= i < |texts| :: parts[i] == Part("text", texts[i])
  {
    seq(|texts|, i requires 0 <= i < |texts| => Part("text", texts[i]))
  }

  function JoinTextParts(texts: seq<string>): Content {
    if |texts| == 1 then Text(texts[0]) else Parts(TextParts(texts))
  }

  function Spoken(role: string, content: Content, calls: seq<ToolCall>): Message {
    Message(role, content, None, calls, "", "")
  }

  // --- The conversion ---------------------------------------------------------------------

  // A user turn's results come before its text.
  function UserMessages(blocks: seq<Block>): seq<Message> {
    Results(blocks) + if Texts(blocks) == [] then [] else [Spoken("user", JoinTextParts(Texts(blocks)), [])]
  }

  function AssistantMessage(blocks: seq<Block>): Message {
    Spoken("assistant", if Texts(blocks) == [] then Null else JoinTextParts(Texts(blocks)), Uses(blocks))
  }

  function Convert(jsonObject: string -> bool, m: AnthropicMessage): Option<seq<Message>> {
    if m.role != "user" && m.role != "assistant" then None else
    match m.content
    case BadContent => None
    case Plain(text) => if text == "" then None else Some([Spoken(m.role, Text(text), [])])
    case Blocks(blocks) =>
      if blocks == [] || |blocks| > MAX_PARTS then None
      else if m.role == "assistant" then
        if forall b <- blocks :: ValidAssistantBlock(jsonObject, b) then Some([AssistantMessage(blocks)]) else None
      else if forall b <- blocks :: ValidUserBlock(b) then Some(UserMessages(blocks)) else None
  }

  function ConvertAll(jsonObject: string -> bool, messages: seq<AnthropicMessage>): Option<seq<Message>> {
    if messages == [] then Some([]) else
    var first := Convert(jsonObject, messages[0]);
    var rest := ConvertAll(jsonObject, messages[1..]);
    if first.Some? && rest.Some? then Some(first.value + rest.value) else None
  }

  // The texts of a system prompt.
  function SystemTexts(content: BlockContent): Option<seq<string>> {
    match content
    case BadContent => None
    case Plain(text) => if text == "" then None else Some([text])
    case Blocks(blocks) =>
      if blocks == [] || |blocks| > MAX_PARTS then None
      else if forall b <- blocks :: b.TextBlock? && !b.cached && b.text != "" then Some(Texts(blocks)) else None
  }

  function SystemMessages(system: Option<BlockContent>): Option<seq<Message>> {
    match system
    case None => Some([])
    case Some(content) =>
      match SystemTexts(content)
      case None => None
      case Some(texts) => Some([Spoken("system", JoinTextParts(texts), [])])
  }

  function DecodeMessages(jsonObject: string -> bool, system: Option<BlockContent>, messages: seq<AnthropicMessage>): Option<seq<Message>> {
    var head := SystemMessages(system);
    var body := ConvertAll(jsonObject, messages);
    if head.Some? && body.Some? then Some(head.value + body.value) else None
  }

  method ConvertMessage(jsonObject: string -> bool, m: AnthropicMessage) returns (result: Option<seq<Message>>)
    ensures result == Convert(jsonObject, m)
  {
    hide ValidToolName, ValidToolCallId, ResultText;
    if m.role != "user" && m.role != "assistant" {
      return None;
    }
    match m.content {
      case BadContent => return None;
      case Plain(text) =>
        return if text == "" then None else Some([Spoken(m.role, Text(text), [])]);
      case Blocks(blocks) =>
        if |blocks| == 0 || |blocks| > MAX_PARTS {
          return None;
        }
        if m.role == "assistant" {
          var message := ConvertAssistant(jsonObject, blocks);
          return if message.Some? then Some([message.value]) else None;
        }
        result := ConvertUser(blocks);
    }
  }

  method ConvertAssistant(jsonObject: string -> bool, blocks: seq<Block>) returns (message: Option<Message>)
    ensures message == if forall b <- blocks :: ValidAssistantBlock(jsonObject, b) then Some(AssistantMessage(blocks)) else None
  {
    hide ValidToolName, ValidToolCallId;
    var texts: seq<string> := [];
    var calls: seq<ToolCall> := [];
    for i := 0 to |blocks|
      invariant texts == Texts(blocks[..i]) && calls == Uses(blocks[..i])
      invariant forall k | 0 <= k < i :: ValidAssistantBlock(jsonObject, blocks[k])
    {
      var block := blocks[i];
      assert blocks[..i + 1][..i] == blocks[..i];
      assert block in blocks && (block.cached ==> !ValidAssistantBlock(jsonObject, block));
      if block.cached {
        return None;
      }
      match block {
        case TextBlock(text, _) =>
          if text == "" {
            return None;
          }
          texts := texts + [text];
        case ToolUse(id, name, input, _) =>
          if !ValidToolCallId(id) || !ValidToolName(name) || !jsonObject(input) {
            return None;
          }
          calls := calls + [ToolCall(id, "function", name, input)];
        case _ =>
          return None;
      }
    }
    assert blocks[..|blocks|] == blocks;
    message := Some(Spoken("assistant", if |texts| == 0 then Null else JoinTextParts(texts), calls));
  }

  method ConvertUser(blocks: seq<Block>) returns (result: Option<seq<Message>>)
    ensures result == if forall b <- blocks :: ValidUserBlock(b) then Some(UserMessages(blocks)) else None
  {
    hide ValidToolCallId, ResultText;
    var messages: seq<Message> := [];
    var texts: seq<string> := [];
    for i := 0 to |blocks|
      invariant texts == Texts(blocks[..i]) && messages == Results(blocks[..i])
      invariant forall k | 0 <= k < i :: ValidUserBlock(blocks[k])
    {
      var block := blocks[i];
      assert blocks[..i + 1][..i] == blocks[..i];
      assert block in blocks && (block.cached ==> !ValidUserBlock(block));
      if block.cached {
        return None;
      }
      match block {
        case TextBlock(text, _) =>
          if text == "" {
            return None;
          }
          texts := texts + [text];
        case ToolResult(id, content, _) =>
          if !ValidToolCallId(id) {
            return None;
          }
          var text := ResultText(content);
          if text.None? || text.value == "" {
            return None;
          }
          messages := messages + [ResultMessage(id, text.value)];
        case _ =>
          return None;
      }
    }
    assert blocks[..|blocks|] == blocks;
    assert messages + [] == messages;
    if |texts| != 0 {
      messages := messages + [Spoken("user", JoinTextParts(texts), [])];
    }
    result := Some(messages);
  }

  method Decode(jsonObject: string -> bool, system: Option<BlockContent>, messages: seq<AnthropicMessage>)
    returns (result: Option<seq<Message>>)
    ensures result == DecodeMessages(jsonObject, system, messages)
  {
    hide Convert;
    var head := SystemMessages(system);
    if head.None? {
      return None;
    }
    var out := head.value;
    assert messages[0..] == messages;
    for i := 0 to |messages|
      invariant var whole, rest := ConvertAll(jsonObject, messages), ConvertAll(jsonObject, messages[i..]);
                if rest.Some? then whole.Some? && head.value + whole.value == out + rest.value else whole.None?
    {
      assert messages[i..][0] == messages[i] && messages[i..][1..] == messages[i + 1..];
      var converted := ConvertMessage(jsonObject, messages[i]);
      if converted.None? {
        return None;
      }
      ghost var rest := ConvertAll(jsonObject, messages[i + 1..]);
      assert rest.Some? ==> out + (converted.value + rest.value) == (out + converted.value) + rest.value;
      out := out + converted.value;
    }
    assert out + [] == out;
    result := Some(out);
  }

  // --- Pairing ----------------------------------------------------------------------------

  function UsesOf(m: AnthropicMessage): seq<ToolCall> {
    if m.role == "assistant" && m.content.Blocks? then Uses(m.content.blocks) else []
  }

  function ResultsOf(m: AnthropicMessage): seq<Message> {
    if m.role == "user" && m.content.Blocks? then Results(m.content.blocks) else []
  }

  function TextsOf(m: AnthropicMessage): seq<string> {
    match m.content
    case Plain(text) => [text]
    case Blocks(blocks) => Texts(blocks)
    case BadContent => []
  }

  function AllUses(messages: seq<AnthropicMessage>): seq<ToolCall> {
    if messages == [] then [] else UsesOf(messages[0]) + AllUses(messages[1..])
  }

  function AllResults(messages: seq<AnthropicMessage>): seq<Message> {
    if messages == [] then [] else ResultsOf(messages[0]) + AllResults(messages[1..])
  }

  function AllTexts(messages: seq<AnthropicMessage>): seq<string> {
    if messages == [] then [] else TextsOf(messages[0]) + AllTexts(messages[1..])
  }

  // The user message after each turn with tool uses answers exactly these.
  predicate UsesAnswered(messages: seq<AnthropicMessage>) {
    forall i | 0 <= i < |messages| && UsesOf(messages[i]) != [] ::
      && i + 1 < |messages| && messages[i + 1].role == "user"
      && multiset(ToolIds(ResultsOf(messages[i + 1]))) == multiset(Ids(UsesOf(messages[i])))
  }

  // Results follow a turn with tool uses.
  predicate ResultsAsked(messages: seq<AnthropicMessage>) {
    forall j | 0 <= j < |messages| && ResultsOf(messages[j]) != [] :: j > 0 && UsesOf(messages[j - 1]) != []
  }

  predicate Paired(messages: seq<AnthropicMessage>) {
    Distinct(Ids(AllUses(messages))) && UsesAnswered(messages) && ResultsAsked(messages)
  }

  // --- What the conversion keeps ----------------------------------------------------------

  function Pieces(content: Content): seq<string> {
    match content
    case Text(text) => [text]
    case Parts(parts) => PartTexts(parts)
    case _ => []
  }

  function SpokenTexts(messages: seq<Message>): seq<string> {
    if messages == [] then [] else
    (if messages[0].role == "tool" then [] else Pieces(messages[0].content)) + SpokenTexts(messages[1..])
  }

  function AllCalls(messages: seq<Message>): seq<ToolCall> {
    if messages == [] then [] else messages[0].calls + AllCalls(messages[1..])
  }

  function Tools(messages: seq<Message>): seq<Message> {
    if messages == [] then [] else (if messages[0].role == "tool" then [messages[0]] else []) + Tools(messages[1..])
  }

  lemma {:induction false} TextsConcat(a: seq<Message>, b: seq<Message>)
    ensures SpokenTexts(a + b) == SpokenTexts(a) + SpokenTexts(b)
  {
    if a == [] {
      assert a + b == b && [] + SpokenTexts(b) == SpokenTexts(b);
    } else {
      TextsConcat(a[1..], b);
      assert (a + b)[1..] == a[1..] + b && (a + b)[0] == a[0];
      var first: seq<string> := if a[0].role == "tool" then [] else Pieces(a[0].content);
      var rest, last := SpokenTexts(a[1..]), SpokenTexts(b);
      hide SpokenTexts;
      assert first + (rest + last) == (first + rest) + last;
    }
  }

  lemma {:induction false} CallsConcat(a: seq<Message>, b: seq<Message>)
    ensures AllCalls(a + b) == AllCalls(a) + AllCalls(b)
  {
    if a == [] {
      assert a + b == b && [] + AllCalls(b) == AllCalls(b);
    } else {
      CallsConcat(a[1..], b);
      assert (a + b)[1..] == a[1..] + b && (a + b)[0] == a[0];
      var first: seq<ToolCall> := a[0].calls;
      var rest, last := AllCalls(a[1..]), AllCalls(b);
      hide AllCalls;
      assert first + (rest + last) == (first + rest) + last;
    }
  }

  lemma {:induction false} ToolsConcat(a: seq<Message>, b: seq<Message>)
    ensures Tools(a + b) == Tools(a) + Tools(b)
  {
    if a == [] {
      assert a + b == b && [] + Tools(b) == Tools(b);
    } else {
      ToolsConcat(a[1..], b);
      assert (a + b)[1..] == a[1..] + b && (a + b)[0] == a[0];
      var first: seq<Message> := if a[0].role == "tool" then [a[0]] else [];
      var rest, last := Tools(a[1..]), Tools(b);
      hide Tools;
      assert first + (rest + last) == (first + rest) + last;
    }
  }

  lemma KeptConcat(a: seq<Message>, b: seq<Message>)
    ensures SpokenTexts(a + b) == SpokenTexts(a) + SpokenTexts(b)
    ensures AllCalls(a + b) == AllCalls(a) + AllCalls(b)
    ensures Tools(a + b) == Tools(a) + Tools(b)
  {
    TextsConcat(a, b);
    CallsConcat(a, b);
    ToolsConcat(a, b);
  }

  lemma KeptOne(m: Message)
    ensures SpokenTexts([m]) == if m.role == "tool" then [] else Pieces(m.content)
    ensures AllCalls([m]) == m.calls
    ensures Tools([m]) == if m.role == "tool" then [m] else []
  {
    assert [m][1..] == [];
  }

  lemma {:induction false} ResultsKept(blocks: seq<Block>)
    ensures SpokenTexts(Results(blocks)) == [] && AllCalls(Results(blocks)) == [] && Tools(Results(blocks)) == Results(blocks)
  {
    if blocks != [] {
      var before := Results(blocks[..|blocks| - 1]);
      ResultsKept(blocks[..|blocks| - 1]);
      match blocks[|blocks| - 1] {
        case ToolResult(id, content, _) =>
          var m := ResultMessage(id, ResultText(content).GetOr(""));
          KeptConcat(before, [m]);
          KeptOne(m);
        case _ =>
          assert before + [] == before;
      }
    }
  }

  lemma JoinedPieces(texts: seq<string>)
    requires texts != []
    ensures Pieces(JoinTextParts(texts)) == texts
  {
  }

  lemma {:induction false} OnlyText(jsonObject: string -> bool, blocks: seq<Block>)
    ensures (forall b <- blocks :: ValidAssistantBlock(jsonObject, b)) ==> Results(blocks) == []
    ensures (forall b <- blocks :: ValidUserBlock(b)) ==> Uses(blocks) == []
  {
    hide ValidToolName, ValidToolCallId, ResultText;
    if blocks != [] {
      var init, last := blocks[..|blocks| - 1], blocks[|blocks| - 1];
      assert blocks == init + [last];
      OnlyText(jsonObject, init);
      assert forall b <- init :: b in blocks;
      assert last in blocks;
    }
  }

  lemma ConvertKeeps(jsonObject: string -> bool, m: AnthropicMessage)
    requires Convert(jsonObject, m).Some?
    ensures var chat := Convert(jsonObject, m).value;
            SpokenTexts(chat) == TextsOf(m) && AllCalls(chat) == UsesOf(m) && Tools(chat) == ResultsOf(m)
  {
    hide SpokenTexts, AllCalls, Tools, Texts, Uses, Results, ValidAssistantBlock, ValidUserBlock;
    match m.content
    case Plain(text) =>
      KeptOne(Spoken(m.role, Text(text), []));
    case BadContent =>
    case Blocks(blocks) =>
      if Texts(blocks) != [] {
        JoinedPieces(Texts(blocks));
      }
      if m.role == "assistant" {
        KeptOne(AssistantMessage(blocks));
      } else {
        ResultsKept(blocks);
        var spoken := Spoken("user", JoinTextParts(Texts(blocks)), []);
        KeptOne(spoken);
        KeptConcat(Results(blocks), [spoken]);
        assert Results(blocks) + [] == Results(blocks);
      }
  }

  // All text, all calls and all results are kept, each in its order.
  lemma {:induction false} ConversionKeeps(jsonObject: string -> bool, messages: seq<AnthropicMessage>)
    requires ConvertAll(jsonObject, messages).Some?
    ensures var chat := ConvertAll(jsonObject, messages).value;
            && SpokenTexts(chat) == AllTexts(messages)
            && AllCalls(chat) == AllUses(messages)
            && Tools(chat) == AllResults(messages)
  {
    hide Convert, TextsOf, UsesOf, ResultsOf;
    if messages != [] {
      ConvertKeeps(jsonObject, messages[0]);
      ConversionKeeps(jsonObject, messages[1..]);
      KeptConcat(Convert(jsonObject, messages[0]).value, ConvertAll(jsonObject, messages[1..]).value);
    }
  }

  // Within one converted message nothing spoken comes before a result.
  lemma {:induction false} ResultsAreTools(blocks: seq<Block>)
    ensures forall m <- Results(blocks) :: m.role == "tool"
  {
    if blocks != [] {
      ResultsAreTools(blocks[..|blocks| - 1]);
    }
  }

  lemma ResultsFirst(jsonObject: string -> bool, m: AnthropicMessage, i: nat, j: nat)
    requires Convert(jsonObject, m).Some? && i < j < |Convert(jsonObject, m).value|
    requires Convert(jsonObject, m).value[j].role == "tool"
    ensures Convert(jsonObject, m).value[i].role == "tool"
  {
    hide Results, Texts, ValidAssistantBlock, ValidUserBlock;
    if m.content.Blocks? {
      ResultsAreTools(m.content.blocks);
      var chat := Convert(jsonObject, m).value;
      assert chat[i] == UserMessages(m.content.blocks)[i];
      assert Results(m.content.blocks)[i] in Results(m.content.blocks);
    }
  }
}
