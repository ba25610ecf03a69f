/**
 The messages of a chat request: the validator's single pass with its table of unanswered calls, and
 what its verdict says about the conversation as a whole.
 */
module Messages {
  import opened Wrappers
  import opened StreamChunks

  const MAX_PARTS := 128
  const MAX_REASONING_BYTES := 262144

  datatype Part = Part(kind: string, text: string)

  // Message content as parsed JSON; Missing is the absent field.
  datatype Content = Missing | Null | Text(text: string) | Parts(parts: seq<Part>) | Malformed

  datatype ToolCall = ToolCall(id: string, kind: string, name: string, arguments: string)

  datatype Message = Message(
    role: string, content: Content, reasoning: Option<string>, calls: seq<ToolCall>, toolCallId: string, name: string)

  // --- One message by itself --------------------------------------------------------------

  // Whether content holds text; None when it is unacceptable.
  function HasText(content: Content, allowNull: bool, allowParts: bool): Option<bool> {
    match content
    case Missing => None
    case Null => if allowNull then Some(false) else None
    case Text(text) => Some(text != "")
    case Malformed => None
    case Parts(parts) =>
      if !allowParts || parts == [] || |parts| > MAX_PARTS then None
      else if forall part <- parts :: part.kind == "text" && part.text != "" then Some(true)
      else None
  }

  predicate ValidCall(jsonObject: string -> bool, call: ToolCall) {
    call.kind == "function" && ValidToolName(call.name) && ValidToolCallId(call.id) && jsonObject(call.arguments)
  }

  predicate ValidPlain(m: Message) {
    && (m.role == "system" || m.role == "user")
    && m.reasoning.None? && m.calls == [] && m.toolCallId == "" && m.name == ""
    && HasText(m.content, false, true) == Some(true)
  }

  // An assistant message, its calls aside.
  predicate ValidTurn(m: Message) {
    && m.role == "assistant" && m.toolCallId == "" && m.name == "" && |m.calls| <= MAX_TOOL_CALLS
    && (m.reasoning.Some? ==> |m.reasoning.value| <= MAX_REASONING_BYTES)
    && HasText(m.content, m.calls != [], true).Some?
    && (m.calls == [] ==> HasText(m.content, false, true) == Some(true))
  }

  predicate ValidAssistant(jsonObject: string -> bool, m: Message) {
    ValidTurn(m) && forall call <- m.calls :: ValidCall(jsonObject, call)
  }

  predicate ValidTool(m: Message) {
    && m.role == "tool" && m.reasoning.None? && m.calls == [] && ValidToolCallId(m.toolCallId)
    && (m.name == "" || ValidToolName(m.name))
    && HasText(m.content, false, false) == Some(true)
  }

  predicate ValidMessage(jsonObject: string -> bool, m: Message) {
    ValidPlain(m) || ValidAssistant(jsonObject, m) || ValidTool(m)
  }

  // --- The validator ----------------------------------------------------------------------

  // Calls not yet answered, with their names, and every call id so far.
  datatype Table = Table(outstanding: map<string, string>, seen: set<string>)

  function Register(jsonObject: string -> bool, table: Table, calls: seq<ToolCall>): Option<Table>
    decreases |calls|
  {
    if calls == [] then Some(table)
    else if !ValidCall(jsonObject, calls[0]) || calls[0].id in table.seen then None
    else Register(jsonObject, Table(table.outstanding[calls[0].id := calls[0].name], table.seen + {calls[0].id}), calls[1..])
  }

  function Step(jsonObject: string -> bool, table: Table, m: Message): Option<Table> {
    if m.role != "tool" && table.outstanding != map[] then None
    else if m.role == "system" || m.role == "user" then if ValidPlain(m) then Some(table) else None
    else if m.role == "assistant" then
      if ValidTurn(m) then Register(jsonObject, table, m.calls) else None
    else if m.role == "tool" then
      if ValidTool(m) && m.toolCallId in table.outstanding && (m.name == "" || m.name == table.outstanding[m.toolCallId])
      then Some(table.(outstanding := table.outstanding - {m.toolCallId})) else None
    else None
  }

  // The pass over the remaining messages.
  predicate Scan(jsonObject: string -> bool, table: Table, messages: seq<Message>)
    decreases |messages|
  {
    if messages == [] then table.outstanding == map[] else
    match Step(jsonObject, table, messages[0])
    case None => false
    case Some(next) => Scan(jsonObject, next, messages[1..])
  }

  method TextContent(content: Content, allowNull: bool, allowParts: bool) returns (hasText: Option<bool>)
    ensures hasText == HasText(content, allowNull, allowParts)
  {
    match content {
      case Missing => return None;
      case Null => return if allowNull then Some(false) else None;
      case Text(text) => return Some(text != "");
      case Malformed => return None;
      case Parts(parts) =>
        if !allowParts || |parts| == 0 || |parts| > MAX_PARTS {
          return None;
        }
        for i := 0 to |parts|
          invariant forall k | 0 <= k < i :: parts[k].kind == "text" && parts[k].text != ""
        {
          if parts[i].kind != "text" || parts[i].text == "" {
            return None;
          }
        }
        return Some(true);
    }
  }

  method ValidateMessages(jsonObject: string -> bool, messages: seq<Message>) returns (ok: bool)
    ensures ok <==> Scan(jsonObject, Table(map[], {}), messages)
  {
    hide ValidToolName, ValidToolCallId;
    var outstanding: map<string, string> := map[];
    var seenCalls: set<string> := {};
    assert messages[0..] == messages;
    for i := 0 to |messages|
      invariant Scan(jsonObject, Table(map[], {}), messages) == Scan(jsonObject, Table(outstanding, seenCalls), messages[i..])
    {
      var message := messages[i];
      assert messages[i..][0] == message && messages[i..][1..] == messages[i + 1..];
      ghost var table := Table(outstanding, seenCalls);
      if message.role != "tool" && |outstanding| != 0 {
        return false;
      }
      if message.role == "system" || message.role == "user" {
        var fields := message.reasoning.None? && |message.calls| == 0 && message.toolCallId == "" && message.name == "";
        var hasText := TextContent(message.content, false, true);
        if !fields || hasText != Some(true) {
          return false;
        }
      } else if message.role == "assistant" {
        if message.toolCallId != "" || message.name != "" || |message.calls| > MAX_TOOL_CALLS {
          return false;
        }
        if message.reasoning.Some? && |message.reasoning.value| > MAX_REASONING_BYTES {
          return false;
        }
        var hasText := TextContent(message.content, |message.calls| > 0, true);
        if hasText.None? || (!hasText.value && |message.calls| == 0) {
          return false;
        }
        var registered := RegisterCalls(jsonObject, outstanding, seenCalls, message.calls);
        if registered.None? {
          return false;
        }
        outstanding, seenCalls := registered.value.outstanding, registered.value.seen;
      } else if message.role == "tool" {
        if message.reasoning.Some? || |message.calls| != 0 || !ValidToolCallId(message.toolCallId) {
          return false;
        }
        if message.toolCallId !in outstanding {
          return false;
        }
        var expected := outstanding[message.toolCallId];
        if message.name != "" && (message.name != expected || !ValidToolName(message.name)) {
          return false;
        }
        var hasText := TextContent(message.content, false, false);
        if hasText != Some(true) {
          return false;
        }
        outstanding := outstanding - {message.toolCallId};
      } else {
        return false;
      }
      assert Step(jsonObject, table, message) == Some(Table(outstanding, seenCalls));
    }
    ok := |outstanding| == 0;
  }

  method RegisterCalls(jsonObject: string -> bool, outstanding: map<string, string>, seen: set<string>, calls: seq<ToolCall>)
    returns (result: Option<Table>)
    ensures result == Register(jsonObject, Table(outstanding, seen), calls)
  {
    hide ValidToolName, ValidToolCallId;
    var left, known := outstanding, seen;
    assert calls[0..] == calls;
    for i := 0 to |calls|
      invariant Register(jsonObject, Table(outstanding, seen), calls) == Register(jsonObject, Table(left, known), calls[i..])
    {
      var call := calls[i];
      assert calls[i..][0] == call && calls[i..][1..] == calls[i + 1..];
      if call.kind != "function" || !ValidToolName(call.name) || !ValidToolCallId(call.id) {
        return None;
      }
      if call.id in known {
        return None;
      }
      if !jsonObject(call.arguments) {
        return None;
      }
      known := known + {call.id};
      left := left[call.id := call.name];
    }
    result := Some(Table(left, known));
  }
}
