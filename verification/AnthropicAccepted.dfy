/** What the Anthropic messages of a conversation convert to, and the validator's turns they make. */
module AnthropicAccepted {
  import opened Wrappers
  import opened StreamChunks
  import opened Messages
  import opened MessageRules
  import opened AnthropicConversion

  predicate AllAssistant(jsonObject: string -> bool, blocks: seq<Block>) {
    forall b <- blocks :: ValidAssistantBlock(jsonObject, b)
  }

  predicate AllUser(blocks: seq<Block>) {
    forall b <- blocks :: ValidUserBlock(b)
  }

  lemma {:induction false} TextsShape(jsonObject: string -> bool, blocks: seq<Block>)
    requires AllAssistant(jsonObject, blocks) || AllUser(blocks)
    ensures |Texts(blocks)| <= |blocks| && forall t <- Texts(blocks) :: t != ""
  {
    hide ValidToolName, ValidToolCallId, ResultText;
    if blocks != [] {
      var init, last := blocks[..|blocks| - 1], blocks[|blocks| - 1];
      assert forall b <- init :: b in blocks;
      assert last in blocks;
      TextsShape(jsonObject, init);
    }
  }

  lemma {:induction false} UsesShape(jsonObject: string -> bool, blocks: seq<Block>)
    requires AllAssistant(jsonObject, blocks)
    ensures |Uses(blocks)| <= |blocks| && forall call <- Uses(blocks) :: ValidCall(jsonObject, call)
    ensures blocks != [] ==> Texts(blocks) != [] || Uses(blocks) != []
  {
    hide ValidToolName, ValidToolCallId;
    if blocks != [] {
      var init, last := blocks[..|blocks| - 1], blocks[|blocks| - 1];
      assert forall b <- init :: b in blocks;
      assert last in blocks && ValidAssistantBlock(jsonObject, last);
      UsesShape(jsonObject, init);
    }
  }

  lemma {:induction false} ResultsShape(blocks: seq<Block>)
    requires AllUser(blocks)
    ensures forall m <- Results(blocks) :: ValidTool(m) && m.name == ""
    ensures blocks != [] ==> Texts(blocks) != [] || Results(blocks) != []
  {
    hide ValidToolName, ValidToolCallId, ResultText;
    if blocks != [] {
      var init, last := blocks[..|blocks| - 1], blocks[|blocks| - 1];
      assert forall b <- init :: b in blocks;
      assert last in blocks && ValidUserBlock(last);
      ResultsShape(init);
    }
  }

  lemma JoinedHasText(texts: seq<string>, allowNull: bool)
    requires 0 < |texts| <= MAX_PARTS && forall t <- texts :: t != ""
    ensures HasText(JoinTextParts(texts), allowNull, true) == Some(true)
  {
    if |texts| > 1 {
      var parts := TextParts(texts);
      forall part | part in parts
        ensures part.kind == "text" && part.text != ""
      {
        var k :| 0 <= k < |parts| && parts[k] == part;
        assert texts[k] in texts;
      }
    } else {
      assert texts[0] in texts;
    }
  }

  // A message that speaks and calls nothing.
  predicate Quiet(jsonObject: string -> bool, m: Message) {
    m.role != "tool" && m.calls == [] && ValidMessage(jsonObject, m)
  }

  lemma QuietPlain(jsonObject: string -> bool, role: string, content: Content)
    requires role == "user" || role == "system" || role == "assistant"
    requires HasText(content, false, true) == Some(true)
    ensures Quiet(jsonObject, Spoken(role, content, []))
  {
  }

  // A turn without uses or results converts to one quiet message.
  lemma ConvertedQuiet(jsonObject: string -> bool, m: AnthropicMessage)
    requires Convert(jsonObject, m).Some? && UsesOf(m) == [] && ResultsOf(m) == []
    ensures |Convert(jsonObject, m).value| == 1 && Quiet(jsonObject, Convert(jsonObject, m).value[0])
  {
    hide Texts, Uses, Results, ValidAssistantBlock, ValidUserBlock, Quiet, JoinTextParts;
    match m.content
    case BadContent =>
    case Plain(text) =>
      QuietPlain(jsonObject, m.role, Text(text));
    case Blocks(blocks) =>
      if m.role == "assistant" {
        UsesShape(jsonObject, blocks);
      } else {
        ResultsShape(blocks);
        assert [] + [Spoken("user", JoinTextParts(Texts(blocks)), [])] == [Spoken("user", JoinTextParts(Texts(blocks)), [])];
      }
      TextsShape(jsonObject, blocks);
      JoinedHasText(Texts(blocks), false);
      QuietPlain(jsonObject, m.role, JoinTextParts(Texts(blocks)));
  }

  lemma ConvertedCalls(jsonObject: string -> bool, m: AnthropicMessage)
    requires Convert(jsonObject, m).Some? && UsesOf(m) != []
    ensures |Convert(jsonObject, m).value| == 1
    ensures var a := Convert(jsonObject, m).value[0];
            a.role == "assistant" && a.calls == UsesOf(m) && ValidMessage(jsonObject, a)
  {
    hide Texts, Uses, Results, ValidAssistantBlock, ValidUserBlock, JoinTextParts, ValidCall;
    var blocks := m.content.blocks;
    UsesShape(jsonObject, blocks);
    TextsShape(jsonObject, blocks);
    if Texts(blocks) != [] {
      JoinedHasText(Texts(blocks), true);
    }
  }

  // --- Turn by turn -----------------------------------------------------------------------

  lemma CallingTurn(jsonObject: string -> bool, seen: set<string>, m: Message, tools: seq<Message>, rest: seq<Message>)
    requires m.role == "assistant" && ValidMessage(jsonObject, m) && Fresh(m.calls, seen)
    requires forall t <- tools :: ValidTool(t) && t.name == ""
    requires multiset(ToolIds(tools)) == multiset(Ids(m.calls))
    requires Turns(jsonObject, seen + IdSet(m.calls), rest)
    ensures Turns(jsonObject, seen, [m] + (tools + rest))
  {
    hide ValidMessage, AnswersAll, ValidTool, ToolIds, Ids;
    WindowMeans(tools, m.calls);
    SameSize(tools, m.calls);
    TurnParts(m, tools, rest);
  }

  lemma TurnParts(m: Message, tools: seq<Message>, rest: seq<Message>)
    ensures var messages := [m] + (tools + rest);
            messages[0] == m && messages[1..|tools| + 1] == tools && messages[|tools| + 1..] == rest
  {
    var messages := [m] + (tools + rest);
    assert messages[1..] == tools + rest;
    assert messages[1..|tools| + 1] == messages[1..][..|tools|];
    assert messages[|tools| + 1..] == messages[1..][|tools|..];
  }

  lemma SameSize(tools: seq<Message>, calls: seq<ToolCall>)
    requires multiset(ToolIds(tools)) == multiset(Ids(calls))
    ensures |tools| == |calls|
  {
    assert |multiset(ToolIds(tools))| == |multiset(Ids(calls))|;
  }

  lemma IdsConcat(a: seq<ToolCall>, b: seq<ToolCall>)
    ensures Ids(a + b) == Ids(a) + Ids(b)
  {
  }

  lemma NoTurns(jsonObject: string -> bool, seen: set<string>)
    ensures Turns(jsonObject, seen, [])
  {
  }

  lemma UserUsesNothing(m: AnthropicMessage)
    requires m.role == "user"
    ensures UsesOf(m) == []
  {
  }

  lemma SystemHasText(content: BlockContent)
    requires SystemTexts(content).Some?
    ensures HasText(JoinTextParts(SystemTexts(content).value), false, true) == Some(true)
  {
    hide Texts, JoinTextParts;
    var texts := SystemTexts(content).value;
    if content.Blocks? {
      SystemBlocks(content.blocks);
    }
    JoinedHasText(texts, false);
  }

  lemma {:induction false} SystemBlocks(blocks: seq<Block>)
    requires forall b <- blocks :: b.TextBlock? && !b.cached && b.text != ""
    ensures |Texts(blocks)| == |blocks| && forall t <- Texts(blocks) :: t != ""
  {
    if blocks != [] {
      SystemBlocks(blocks[..|blocks| - 1]);
    }
  }
}
