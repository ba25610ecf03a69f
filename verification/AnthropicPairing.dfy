/**
 Exactly which Anthropic conversations convert to messages the chat validator accepts: every turn with
 tool uses is answered at once by user messages that bring its results, split as they may be, and of
 which only the last one also speaks.
 */
module AnthropicPairing {
  import opened Wrappers
  import opened StreamChunks
  import opened StringOrder
  import opened Messages
  import opened MessageRules
  import opened AnthropicConversion
  import opened AnthropicAccepted

  // User messages that answer one turn together.
  predicate Window(w: seq<AnthropicMessage>) {
    && w != []
    && (forall m <- w :: m.role == "user" && ResultsOf(m) != [])
    && (forall i | 0 <= i < |w| - 1 :: TextsOf(w[i]) == [])
  }

  // The k messages after the first answer its tool uses.
  predicate AnsweredBy(messages: seq<AnthropicMessage>, k: nat) {
    && 1 <= k < |messages|
    && Window(messages[1..k + 1])
    && multiset(ToolIds(AllResults(messages[1..k + 1]))) == multiset(Ids(UsesOf(messages[0])))
  }

  // Turn by turn: results only where they are asked for, and all of them there.
  predicate TurnsAnswered(messages: seq<AnthropicMessage>)
    decreases |messages|
  {
    messages == [] ||
    (&& ResultsOf(messages[0]) == []
     && if UsesOf(messages[0]) == [] then TurnsAnswered(messages[1..])
        else exists k | 1 <= k < |messages| :: AnsweredBy(messages, k) && TurnsAnswered(messages[k + 1..]))
  }

  predicate Exchange(messages: seq<AnthropicMessage>) {
    Distinct(Ids(AllUses(messages))) && TurnsAnswered(messages)
  }

  // --- Converting parts -------------------------------------------------------------------

  lemma {:induction false} ConvertConcat(jsonObject: string -> bool, a: seq<AnthropicMessage>, b: seq<AnthropicMessage>)
    ensures ConvertAll(jsonObject, a + b).Some? <==> ConvertAll(jsonObject, a).Some? && ConvertAll(jsonObject, b).Some?
    ensures ConvertAll(jsonObject, a + b).Some? ==>
              ConvertAll(jsonObject, a + b).value == ConvertAll(jsonObject, a).value + ConvertAll(jsonObject, b).value
  {
    hide Convert;
    if a == [] {
      assert a + b == b;
    } else {
      ConvertConcat(jsonObject, a[1..], b);
      assert (a + b)[0] == a[0] && (a + b)[1..] == a[1..] + b;
    }
  }

  lemma {:induction false} UsesConcat(a: seq<AnthropicMessage>, b: seq<AnthropicMessage>)
    ensures AllUses(a + b) == AllUses(a) + AllUses(b)
  {
    hide UsesOf;
    if a == [] {
      assert a + b == b;
    } else {
      UsesConcat(a[1..], b);
      assert (a + b)[0] == a[0] && (a + b)[1..] == a[1..] + b;
    }
  }

  lemma {:induction false} WindowUses(w: seq<AnthropicMessage>)
    requires forall m <- w :: m.role == "user"
    ensures AllUses(w) == []
  {
    if w != [] {
      WindowUses(w[1..]);
      UserUsesNothing(w[0]);
    }
  }

  // A quiet message neither helps nor hinders the turns after it.
  lemma QuietTurnOnly(jsonObject: string -> bool, seen: set<string>, m: Message, rest: seq<Message>)
    requires Quiet(jsonObject, m)
    ensures Turns(jsonObject, seen, [m] + rest) <==> Turns(jsonObject, seen, rest)
  {
    hide ValidMessage;
    var messages := [m] + rest;
    assert messages[1..1] == [] && messages[1..] == rest;
    assert Ids(m.calls) == [] && seen + IdSet([]) == seen;
  }

  // What a message with results converts to.
  lemma ResultsConvert(jsonObject: string -> bool, m: AnthropicMessage)
    requires Convert(jsonObject, m).Some? && m.role == "user" && ResultsOf(m) != []
    ensures var chat, results := Convert(jsonObject, m).value, ResultsOf(m);
            && |results| <= |chat| && chat[..|results|] == results
            && (if TextsOf(m) == [] then chat == results
                else |chat| == |results| + 1 && Quiet(jsonObject, chat[|results|]))
  {
    hide Texts, Results, ValidUserBlock, Quiet, JoinTextParts;
    var blocks := m.content.blocks;
    TextsShape(jsonObject, blocks);
    assert Results(blocks) + [] == Results(blocks);
    if Texts(blocks) != [] {
      JoinedHasText(Texts(blocks), false);
      QuietPlain(jsonObject, "user", JoinTextParts(Texts(blocks)));
    }
  }

  lemma ResultsValid(jsonObject: string -> bool, m: AnthropicMessage)
    requires Convert(jsonObject, m).Some? && m.role == "user"
    ensures forall t <- ResultsOf(m) :: ValidTool(t) && t.name == ""
  {
    hide Results, ValidUserBlock, ValidTool;
    if m.content.Blocks? {
      ResultsShape(m.content.blocks);
    }
  }

  // A window converts to its results, and at most one quiet message after them.
  lemma {:induction false} WindowConverts(jsonObject: string -> bool, w: seq<AnthropicMessage>)
    requires Window(w) && ConvertAll(jsonObject, w).Some?
    ensures var chat, results := ConvertAll(jsonObject, w).value, AllResults(w);
            && |results| <= |chat| <= |results| + 1 && chat[..|results|] == results
            && (|chat| > |results| ==> Quiet(jsonObject, chat[|results|]))
            && forall t <- results :: ValidTool(t) && t.name == ""
  {
    hide Convert, ResultsOf, TextsOf, Quiet, ValidTool;
    var m, rest := w[0], w[1..];
    ResultsConvert(jsonObject, m);
    ResultsValid(jsonObject, m);
    if rest == [] {
      assert ConvertAll(jsonObject, rest) == Some([]) && AllResults(rest) == [];
      assert Convert(jsonObject, m).value + [] == Convert(jsonObject, m).value && ResultsOf(m) + [] == ResultsOf(m);
    } else {
      assert forall i | 0 <= i < |rest| - 1 :: rest[i] == w[i + 1];
      assert Window(rest);
      WindowConverts(jsonObject, rest);
      var chat, results := ConvertAll(jsonObject, rest).value, AllResults(rest);
      assert TextsOf(w[0]) == [];
      assert (ResultsOf(m) + chat)[..|ResultsOf(m) + results|] == ResultsOf(m) + results;
    }
  }

  // What a message that does not begin with a tool message converts to, at its head.
  lemma ToolsComeFromResults(jsonObject: string -> bool, m: AnthropicMessage)
    requires Convert(jsonObject, m).Some?
    ensures var chat := Convert(jsonObject, m).value;
            |chat| > 0 && (chat[0].role == "tool" <==> ResultsOf(m) != [])
    ensures ResultsOf(m) != [] ==> m.role == "user"
  {
    hide Texts, Results, Uses, ValidAssistantBlock, ValidUserBlock, JoinTextParts;
    if m.content.Blocks? && m.role == "user" {
      ResultsShape(m.content.blocks);
      ResultsAreTools(m.content.blocks);
      var results := Results(m.content.blocks);
      if results != [] {
        assert results[0] in results;
      }
    }
  }

  // Where a run of n tool messages that ends at something else comes from.
  lemma {:induction false} WindowFound(jsonObject: string -> bool, messages: seq<AnthropicMessage>, n: nat) returns (k: nat)
    requires ConvertAll(jsonObject, messages).Some? && 1 <= n <= |ConvertAll(jsonObject, messages).value|
    requires var chat := ConvertAll(jsonObject, messages).value;
             (forall i | 0 <= i < n :: chat[i].role == "tool") && (n < |chat| ==> chat[n].role != "tool")
    ensures 1 <= k <= |messages| && Window(messages[..k])
    ensures AllResults(messages[..k]) == ConvertAll(jsonObject, messages).value[..n]
    decreases |messages|
  {
    hide Convert, ResultsOf, TextsOf, Quiet;
    var m, rest := messages[0], messages[1..];
    var chat, first, tail := ConvertAll(jsonObject, messages).value, Convert(jsonObject, m).value, ConvertAll(jsonObject, rest).value;
    ToolsComeFromResults(jsonObject, m);
    assert chat[0] == first[0];
    ResultsConvert(jsonObject, m);
    ResultsHaveRole(m);
    var r := |ResultsOf(m)|;
    assert chat[..r] == first[..r] && forall i | 0 <= i < r :: chat[i] == ResultsOf(m)[i];
    assert r < |first| ==> chat[r] == first[r];
    QuietIsNoTool(jsonObject, first, r);
    assert r <= n;
    if r == n {
      k := 1;
      assert messages[..1] == [m] && [m][1..] == [] && AllResults([]) == [];
      assert ResultsOf(m) + [] == ResultsOf(m);
    } else {
      assert TextsOf(m) == [];
      assert forall i | 0 <= i < |tail| :: tail[i] == chat[r + i];
      var j := WindowFound(jsonObject, rest, n - r);
      k := j + 1;
      assert messages[..k] == [m] + rest[..j] && ([m] + rest[..j])[1..] == rest[..j];
      assert chat[..n] == ResultsOf(m) + tail[..n - r];
      WindowGrows(m, rest[..j]);
    }
  }

  lemma ResultsHaveRole(m: AnthropicMessage)
    ensures forall t <- ResultsOf(m) :: t.role == "tool"
    ensures forall i | 0 <= i < |ResultsOf(m)| :: ResultsOf(m)[i].role == "tool"
  {
    hide Results;
    if m.role == "user" && m.content.Blocks? {
      ResultsAreTools(m.content.blocks);
    }
  }

  lemma QuietIsNoTool(jsonObject: string -> bool, chat: seq<Message>, r: nat)
    ensures r < |chat| && Quiet(jsonObject, chat[r]) ==> chat[r].role != "tool"
  {
  }

  lemma WindowGrows(m: AnthropicMessage, w: seq<AnthropicMessage>)
    requires m.role == "user" && ResultsOf(m) != [] && TextsOf(m) == [] && Window(w)
    ensures Window([m] + w)
  {
    hide ResultsOf, TextsOf;
  }

  // --- Turn by turn -----------------------------------------------------------------------

  // A calling message, its tool messages and at most one quiet one after them make a turn.
  lemma AnsweredTurn(jsonObject: string -> bool, seen: set<string>, a: Message, tools: seq<Message>, answer: seq<Message>, tail: seq<Message>)
    requires a.role == "assistant" && ValidMessage(jsonObject, a) && Fresh(a.calls, seen)
    requires |tools| <= |answer| <= |tools| + 1 && answer[..|tools|] == tools
    requires |answer| > |tools| ==> Quiet(jsonObject, answer[|tools|])
    requires forall t <- tools :: ValidTool(t) && t.name == ""
    requires multiset(ToolIds(tools)) == multiset(Ids(a.calls))
    requires Turns(jsonObject, seen + IdSet(a.calls), tail)
    ensures Turns(jsonObject, seen, [a] + (answer + tail))
  {
    hide *;
    if |answer| == |tools| {
      assert answer == tools;
      CallingTurn(jsonObject, seen, a, tools, tail);
    } else {
      var q := answer[|tools|];
      assert answer == tools + [q];
      QuietTurnOnly(jsonObject, seen + IdSet(a.calls), q, tail);
      CallingTurn(jsonObject, seen, a, tools, [q] + tail);
      assert (tools + [q]) + tail == tools + ([q] + tail);
    }
  }

  // A turn with tool uses and the window that answers it convert to a turn of the validator's.
  lemma WindowTurn(jsonObject: string -> bool, seen: set<string>, messages: seq<AnthropicMessage>, k: nat)
    requires ConvertAll(jsonObject, messages).Some? && messages != [] && UsesOf(messages[0]) != [] && AnsweredBy(messages, k)
    requires Fresh(UsesOf(messages[0]), seen)
    requires ConvertAll(jsonObject, messages[k + 1..]).Some?
    requires Turns(jsonObject, seen + IdSet(UsesOf(messages[0])), ConvertAll(jsonObject, messages[k + 1..]).value)
    ensures Turns(jsonObject, seen, ConvertAll(jsonObject, messages).value)
  {
    hide Turns, Convert, UsesOf, Quiet, Window, ToolIds, Ids, IdSet, Fresh, ValidTool, ValidMessage, AllResults;
    var m, w, rest := messages[0], messages[1..k + 1], messages[k + 1..];
    Parts3(messages, k);
    ConvertConcat(jsonObject, w, rest);
    ConvertedCalls(jsonObject, m);
    WindowConverts(jsonObject, w);
    var a := Convert(jsonObject, m).value;
    assert a == [a[0]];
    AnsweredTurn(jsonObject, seen, a[0], AllResults(w), ConvertAll(jsonObject, w).value, ConvertAll(jsonObject, rest).value);
  }

  lemma Parts3(messages: seq<AnthropicMessage>, k: nat)
    requires 1 <= k < |messages|
    ensures messages[1..] == messages[1..k + 1] + messages[k + 1..]
    ensures messages[1..][..k] == messages[1..k + 1] && messages[1..][k..] == messages[k + 1..]
  {
  }

  lemma TurnsHead(jsonObject: string -> bool, seen: set<string>, messages: seq<Message>)
    requires messages != [] && Turns(jsonObject, seen, messages)
    ensures var m, n := messages[0], |messages[0].calls|;
            && m.role != "tool" && Fresh(m.calls, seen)
            && n < |messages| && AnswersAll(messages[1..n + 1], Names(m.calls))
            && Turns(jsonObject, seen + IdSet(m.calls), messages[n + 1..])
  {
    hide ValidMessage, AnswersAll, Names, Ids, IdSet, Fresh;
  }

  // What a turn of the validator's says of its first message and the window behind it.
  lemma TurnMeans(jsonObject: string -> bool, seen: set<string>, a: Message, tail: seq<Message>)
    requires a.calls != [] && Turns(jsonObject, seen, [a] + tail)
    ensures var n := |a.calls|;
            && Fresh(a.calls, seen) && 1 <= n <= |tail|
            && (forall t <- tail[..n] :: t.role == "tool")
            && multiset(ToolIds(tail[..n])) == multiset(Ids(a.calls))
            && Turns(jsonObject, seen + IdSet(a.calls), tail[n..])
            && (n < |tail| ==> tail[n].role != "tool")
  {
    hide ValidMessage, AnswersAll, Names, ToolIds, Ids, Turns, IdSet, ValidTool;
    var n := |a.calls|;
    var messages := [a] + tail;
    TurnsHead(jsonObject, seen, messages);
    assert messages[1..n + 1] == tail[..n] && messages[n + 1..] == tail[n..];
    WindowMeans(tail[..n], a.calls);
    ToolRole(tail[..n]);
    if n < |tail| {
      assert tail[n..][0] == tail[n];
      TurnsHead(jsonObject, seen + IdSet(a.calls), tail[n..]);
    }
  }

  lemma ToolRole(tools: seq<Message>)
    requires forall t <- tools :: ValidTool(t)
    ensures forall t <- tools :: t.role == "tool"
  {
  }

  // The window behind a turn, found among the messages it was converted from.
  lemma TurnWindow(jsonObject: string -> bool, seen: set<string>, messages: seq<AnthropicMessage>) returns (k: nat)
    requires ConvertAll(jsonObject, messages).Some? && messages != [] && UsesOf(messages[0]) != []
    requires Turns(jsonObject, seen, ConvertAll(jsonObject, messages).value)
    ensures AnsweredBy(messages, k) && Fresh(UsesOf(messages[0]), seen)
    ensures ConvertAll(jsonObject, messages[k + 1..]).Some?
    ensures Turns(jsonObject, seen + IdSet(UsesOf(messages[0])), ConvertAll(jsonObject, messages[k + 1..]).value)
  {
    hide Turns, Convert, UsesOf, Quiet, Window, ToolIds, Ids, IdSet, Fresh, ValidTool, ValidMessage, AllResults;
    var m, later := messages[0], messages[1..];
    ConvertedCalls(jsonObject, m);
    var a, tail := Convert(jsonObject, m).value, ConvertAll(jsonObject, later).value;
    assert a == [a[0]];
    TurnMeans(jsonObject, seen, a[0], tail);
    var n := |a[0].calls|;
    assert forall i | 0 <= i < n :: tail[i] == tail[..n][i] && tail[..n][i] in tail[..n];
    k := WindowFound(jsonObject, later, n);
    Parts3(messages, k);
    var w, rest := later[..k], later[k..];
    assert later == w + rest;
    ConvertConcat(jsonObject, w, rest);
    WindowConverts(jsonObject, w);
    assert |AllResults(w)| == n;
    TailTurns(jsonObject, seen + IdSet(UsesOf(m)), ConvertAll(jsonObject, w).value, n, ConvertAll(jsonObject, rest).value);
  }

  lemma TailTurns(jsonObject: string -> bool, seen: set<string>, answer: seq<Message>, n: nat, tail: seq<Message>)
    requires n <= |answer| <= n + 1 && (|answer| > n ==> Quiet(jsonObject, answer[n]))
    requires Turns(jsonObject, seen, (answer + tail)[n..])
    ensures Turns(jsonObject, seen, tail)
  {
    hide *;
    if |answer| == n {
      assert (answer + tail)[n..] == tail;
    } else {
      assert (answer + tail)[n..] == [answer[n]] + tail;
      QuietTurnOnly(jsonObject, seen, answer[n], tail);
    }
  }

  // --- The theorem ------------------------------------------------------------------------

  // The ids of a turn and of the messages after its window.
  lemma IdsBehind(messages: seq<AnthropicMessage>, k: nat, seen: set<string>)
    requires messages != [] && AnsweredBy(messages, k)
    ensures Unused(Ids(AllUses(messages)), seen)
            <==> Fresh(UsesOf(messages[0]), seen) && Unused(Ids(AllUses(messages[k + 1..])), seen + IdSet(UsesOf(messages[0])))
  {
    hide UsesOf, ResultsOf, TextsOf, Unused, Fresh, Ids, IdSet, ToolIds;
    var m, w, rest := messages[0], messages[1..k + 1], messages[k + 1..];
    Parts3(messages, k);
    UsesConcat(w, rest);
    WindowUses(w);
    assert [] + AllUses(rest) == AllUses(rest);
    IdsConcat(UsesOf(m), AllUses(rest));
    UnusedSplit(UsesOf(m), Ids(AllUses(rest)), seen);
  }

  lemma {:induction false} ExchangeTurns(jsonObject: string -> bool, seen: set<string>, messages: seq<AnthropicMessage>)
    requires ConvertAll(jsonObject, messages).Some?
    ensures Turns(jsonObject, seen, ConvertAll(jsonObject, messages).value)
            <==> Unused(Ids(AllUses(messages)), seen) && TurnsAnswered(messages)
    decreases |messages|, 1
  {
    if messages == [] {
      NoTurns(jsonObject, seen);
    } else if UsesOf(messages[0]) != [] {
      CallingExchange(jsonObject, seen, messages);
    } else {
      QuietExchange(jsonObject, seen, messages);
    }
  }

  // The conversation begins with a message without tool uses.
  lemma QuietExchange(jsonObject: string -> bool, seen: set<string>, messages: seq<AnthropicMessage>)
    requires ConvertAll(jsonObject, messages).Some? && messages != [] && UsesOf(messages[0]) == []
    ensures Turns(jsonObject, seen, ConvertAll(jsonObject, messages).value)
            <==> Unused(Ids(AllUses(messages)), seen) && TurnsAnswered(messages)
    decreases |messages|, 0
  {
    hide Turns, Convert, UsesOf, ResultsOf, Quiet, Unused, Ids, ToolIds, AnsweredBy, AnswersAll, Names, Fresh, IdSet;
    var m, rest := messages[0], messages[1..];
    var chat, tail := Convert(jsonObject, m).value, ConvertAll(jsonObject, rest).value;
    ToolsComeFromResults(jsonObject, m);
    if ResultsOf(m) != [] {
      if Turns(jsonObject, seen, chat + tail) {
        TurnsHead(jsonObject, seen, chat + tail);
      }
    } else {
      ConvertedQuiet(jsonObject, m);
      assert chat == [chat[0]];
      QuietTurnOnly(jsonObject, seen, chat[0], tail);
      ExchangeTurns(jsonObject, seen, rest);
      assert [] + AllUses(rest) == AllUses(rest);
    }
  }

  // The conversation begins with a turn that uses tools.
  lemma CallingExchange(jsonObject: string -> bool, seen: set<string>, messages: seq<AnthropicMessage>)
    requires ConvertAll(jsonObject, messages).Some? && messages != [] && UsesOf(messages[0]) != []
    ensures Turns(jsonObject, seen, ConvertAll(jsonObject, messages).value)
            <==> Unused(Ids(AllUses(messages)), seen) && TurnsAnswered(messages)
    decreases |messages|, 0
  {
    hide Turns, Convert, UsesOf, ResultsOf, Quiet, Unused, Ids, ToolIds, AnsweredBy, Fresh, IdSet, AllUses;
    var used := seen + IdSet(UsesOf(messages[0]));
    if Turns(jsonObject, seen, ConvertAll(jsonObject, messages).value) {
      var k := TurnWindow(jsonObject, seen, messages);
      IdsBehind(messages, k, seen);
      assert 1 <= k < |messages| by { AnsweredRange(messages, k); }
      ExchangeTurns(jsonObject, used, messages[k + 1..]);
      CallsResultless(messages[0]);
    }
    if Unused(Ids(AllUses(messages)), seen) && TurnsAnswered(messages) {
      var k :| 1 <= k < |messages| && AnsweredBy(messages, k) && TurnsAnswered(messages[k + 1..]);
      IdsBehind(messages, k, seen);
      Parts3(messages, k);
      ConvertConcat(jsonObject, messages[1..k + 1], messages[k + 1..]);
      ExchangeTurns(jsonObject, used, messages[k + 1..]);
      WindowTurn(jsonObject, seen, messages, k);
    }
  }

  lemma AnsweredRange(messages: seq<AnthropicMessage>, k: nat)
    requires AnsweredBy(messages, k)
    ensures 1 <= k < |messages|
  {
  }

  lemma CallsResultless(m: AnthropicMessage)
    requires UsesOf(m) != []
    ensures ResultsOf(m) == []
  {
  }

  // A convertible conversation becomes one the validator accepts if and only if its tool uses have
  // distinct ids and every turn with uses is answered, exactly and at once, by a window behind it.
  lemma ExchangeAccepted(jsonObject: string -> bool, system: Option<BlockContent>, messages: seq<AnthropicMessage>)
    requires DecodeMessages(jsonObject, system, messages).Some?
    ensures Scan(jsonObject, Table(map[], {}), DecodeMessages(jsonObject, system, messages).value) <==> Exchange(messages)
    ensures Conversation(jsonObject, DecodeMessages(jsonObject, system, messages).value) <==> Exchange(messages)
  {
    hide Turns, Scan, Conversation, Quiet, JoinTextParts, Texts, ConvertAll, TurnsAnswered, AllUses, Ids;
    var chat := DecodeMessages(jsonObject, system, messages).value;
    var body := ConvertAll(jsonObject, messages).value;
    ExchangeTurns(jsonObject, {}, messages);
    if system.Some? {
      var texts := SystemTexts(system.value).value;
      SystemHasText(system.value);
      QuietPlain(jsonObject, "system", JoinTextParts(texts));
      QuietTurnOnly(jsonObject, {}, Spoken("system", JoinTextParts(texts), []), body);
    } else {
      assert [] + body == body;
    }
    ScanTurns(jsonObject, {}, chat);
    AcceptedConversation(jsonObject, chat);
  }

  // --- Turns answered by one message ------------------------------------------------------

  // Past an answered turn, results again follow uses only.
  lemma AskedLater(messages: seq<AnthropicMessage>)
    requires |messages| >= 2 && ResultsAsked(messages) && messages[1].role == "user"
    ensures ResultsAsked(messages[2..])
  {
    hide ResultsOf;
    var rest := messages[2..];
    forall j | 0 <= j < |rest| && ResultsOf(rest[j]) != []
      ensures j > 0 && UsesOf(rest[j - 1]) != []
    {
      assert messages[j + 2] == rest[j];
    }
  }

  lemma FirstAsksNothing(messages: seq<AnthropicMessage>)
    requires messages != [] && ResultsAsked(messages)
    ensures ResultsOf(messages[0]) == []
  {
  }

  lemma UsesAnsweredLater(messages: seq<AnthropicMessage>, n: nat)
    requires n <= |messages| && UsesAnswered(messages)
    ensures UsesAnswered(messages[n..])
  {
    hide UsesOf, ResultsOf, Ids, ToolIds;
    var rest := messages[n..];
    forall i | 0 <= i < |rest| && UsesOf(rest[i]) != []
      ensures i + 1 < |rest| && rest[i + 1].role == "user"
      ensures multiset(ToolIds(ResultsOf(rest[i + 1]))) == multiset(Ids(UsesOf(rest[i])))
    {
      assert messages[n + i] == rest[i];
    }
  }

  lemma ResultsAskedNext(messages: seq<AnthropicMessage>)
    requires messages != [] && ResultsAsked(messages) && UsesOf(messages[0]) == []
    ensures ResultsAsked(messages[1..])
  {
    hide ResultsOf, UsesOf;
    var rest := messages[1..];
    forall j | 0 <= j < |rest| && ResultsOf(rest[j]) != []
      ensures j > 0 && UsesOf(rest[j - 1]) != []
    {
      assert messages[j + 1] == rest[j];
    }
  }

  lemma OneAnswers(messages: seq<AnthropicMessage>)
    requires messages != [] && UsesAnswered(messages) && UsesOf(messages[0]) != []
    ensures |messages| > 1 && messages[1].role == "user" && AnsweredBy(messages, 1)
  {
    hide UsesOf, ResultsOf, TextsOf;
    var u := messages[1];
    assert messages[1..2] == [u] && [u][1..] == [];
    assert AllResults([u]) == ResultsOf(u) + [] == ResultsOf(u);
    assert |multiset(ToolIds(ResultsOf(u)))| == |multiset(Ids(UsesOf(messages[0])))|;
  }

  lemma {:induction false} PairedTurns(messages: seq<AnthropicMessage>)
    requires UsesAnswered(messages) && ResultsAsked(messages)
    ensures TurnsAnswered(messages)
    decreases |messages|
  {
    hide UsesOf, ResultsOf, AnsweredBy, UsesAnswered, ResultsAsked;
    if messages != [] {
      FirstAsksNothing(messages);
      if UsesOf(messages[0]) == [] {
        UsesAnsweredLater(messages, 1);
        ResultsAskedNext(messages);
        PairedTurns(messages[1..]);
      } else {
        OneAnswers(messages);
        UsesAnsweredLater(messages, 2);
        AskedLater(messages);
        PairedTurns(messages[2..]);
        assert AnsweredBy(messages, 1) && TurnsAnswered(messages[1 + 1..]);
      }
    }
  }

  // A convertible conversation with distinct tool uses, each turn answered at once and exactly,
  // becomes one the validator accepts.
  lemma ConversionAccepted(jsonObject: string -> bool, system: Option<BlockContent>, messages: seq<AnthropicMessage>)
    requires DecodeMessages(jsonObject, system, messages).Some? && Paired(messages)
    ensures Scan(jsonObject, Table(map[], {}), DecodeMessages(jsonObject, system, messages).value)
    ensures Conversation(jsonObject, DecodeMessages(jsonObject, system, messages).value)
  {
    hide Scan, Conversation, DecodeMessages, UsesAnswered, ResultsAsked, TurnsAnswered, AllUses, Ids;
    PairedTurns(messages);
    ExchangeAccepted(jsonObject, system, messages);
  }

  // Two results in two messages: accepted, though no one message answers the turn.
  lemma AnswersApart(jsonObject: string -> bool)
    requires jsonObject("{}")
    ensures var messages := [TWO_USES, Answering("call_a"), Answering("call_b")];
            && DecodeMessages(jsonObject, None, messages).Some?
            && Conversation(jsonObject, DecodeMessages(jsonObject, None, messages).value) && !Paired(messages)
  {
    hide Conversation, Scan, DecodeMessages, Exchange, Paired, Answering;
    ApartDecodes(jsonObject);
    ApartExchange();
    ExchangeAccepted(jsonObject, None, [TWO_USES, Answering("call_a"), Answering("call_b")]);
  }

  lemma ApartDecodes(jsonObject: string -> bool)
    requires jsonObject("{}")
    ensures DecodeMessages(jsonObject, None, [TWO_USES, Answering("call_a"), Answering("call_b")]).Some?
  {
    ApartConverts(jsonObject);
    hide Convert, Answering;
    var a, b := Answering("call_a"), Answering("call_b");
    assert [TWO_USES, a, b][1..] == [a, b] && [a, b][1..] == [b] && [b][1..] == [];
    assert ConvertAll(jsonObject, []) == Some([]);
    assert ConvertAll(jsonObject, [b]).Some? && ConvertAll(jsonObject, [a, b]).Some?;
  }

  function Use(id: string): Block {
    ToolUse(id, "lookup", "{}", false)
  }

  const TWO_USES := AnthropicMessage("assistant", Blocks([Use("call_a"), Use("call_b")]))

  function Answering(id: string): AnthropicMessage {
    AnthropicMessage("user", Blocks([ToolResult(id, Text("ok"), false)]))
  }

  lemma ApartConverts(jsonObject: string -> bool)
    requires jsonObject("{}")
    ensures Convert(jsonObject, TWO_USES).Some?
    ensures Convert(jsonObject, Answering("call_a")).Some? && Convert(jsonObject, Answering("call_b")).Some?
  {
    assert ValidToolCallId("call_a") && ValidToolCallId("call_b") && ValidToolName("lookup");
    hide ValidToolCallId, ValidToolName;
    assert forall b <- [Use("call_a"), Use("call_b")] :: ValidAssistantBlock(jsonObject, b);
    assert ValidUserBlock(ToolResult("call_a", Text("ok"), false)) && ValidUserBlock(ToolResult("call_b", Text("ok"), false));
  }

  lemma ApartUses()
    ensures UsesOf(TWO_USES) == [ToolCall("call_a", "function", "lookup", "{}"), ToolCall("call_b", "function", "lookup", "{}")]
    ensures ResultsOf(TWO_USES) == []
  {
    var blocks := [Use("call_a"), Use("call_b")];
    assert blocks[..1] == [Use("call_a")] && [Use("call_a")][..0] == [];
    assert Uses([Use("call_a")]) == [ToolCall("call_a", "function", "lookup", "{}")];
  }

  lemma ApartResults(id: string)
    ensures ResultsOf(Answering(id)) == [ResultMessage(id, "ok")] && TextsOf(Answering(id)) == [] && UsesOf(Answering(id)) == []
  {
    var blocks := [ToolResult(id, Text("ok"), false)];
    assert blocks[..0] == [] && Results([]) == [] && Texts([]) == [];
    assert Results(blocks) == [] + [ResultMessage(id, "ok")];
    assert Texts(blocks) == [] + [];
  }

  lemma ApartIds(results: seq<Message>, calls: seq<ToolCall>)
    requires results == [ResultMessage("call_a", "ok"), ResultMessage("call_b", "ok")]
    requires calls == [ToolCall("call_a", "function", "lookup", "{}"), ToolCall("call_b", "function", "lookup", "{}")]
    ensures multiset(ToolIds(results)) == multiset(Ids(calls)) && Distinct(Ids(calls))
  {
    assert ToolIds(results) == ["call_a", "call_b"] == Ids(calls);
    assert "call_a"[5] != "call_b"[5];
  }

  // Two user messages with one result each, put together.
  lemma TwoAnswer(m: AnthropicMessage, a: AnthropicMessage, b: AnthropicMessage)
    requires ResultsOf(m) == [] && UsesOf(m) != []
    requires Window([a, b]) && multiset(ToolIds(ResultsOf(a) + ResultsOf(b))) == multiset(Ids(UsesOf(m)))
    ensures TurnsAnswered([m, a, b])
  {
    hide UsesOf, ResultsOf, TextsOf, Window, Ids, ToolIds;
    var messages := [m, a, b];
    assert messages[1..3] == [a, b] && [a, b][1..] == [b] && [b][1..] == [];
    assert AllResults([b]) == ResultsOf(b) + [] == ResultsOf(b);
    assert AllResults([a, b]) == ResultsOf(a) + ResultsOf(b);
    assert AnsweredBy(messages, 2);
    assert messages[2 + 1..] == [] && TurnsAnswered([]);
  }

  lemma OneUses(m: AnthropicMessage, a: AnthropicMessage, b: AnthropicMessage)
    requires UsesOf(a) == [] && UsesOf(b) == []
    ensures AllUses([m, a, b]) == UsesOf(m)
  {
    hide UsesOf;
    assert [m, a, b][1..] == [a, b] && [a, b][1..] == [b] && [b][1..] == [];
    assert AllUses([b]) == [] && AllUses([a, b]) == [] && AllUses([m, a, b]) == UsesOf(m) + [];
  }

  lemma TooFewResults(messages: seq<AnthropicMessage>)
    requires |messages| > 1 && |ResultsOf(messages[1])| < |UsesOf(messages[0])|
    ensures !UsesAnswered(messages)
  {
    hide UsesOf, ResultsOf, Ids, ToolIds;
    assert |multiset(ToolIds(ResultsOf(messages[1])))| == |ResultsOf(messages[1])|;
    assert |multiset(Ids(UsesOf(messages[0])))| == |UsesOf(messages[0])|;
  }

  lemma ApartWindow()
    ensures Window([Answering("call_a"), Answering("call_b")])
  {
    ApartResults("call_a");
    ApartResults("call_b");
    hide ResultsOf, TextsOf;
  }

  lemma ApartExchange()
    ensures var messages := [TWO_USES, Answering("call_a"), Answering("call_b")];
            Exchange(messages) && !Paired(messages)
  {
    var a, b := Answering("call_a"), Answering("call_b");
    ApartUses();
    ApartResults("call_a");
    ApartResults("call_b");
    ApartWindow();
    hide UsesOf, ResultsOf, TextsOf, Answering, TurnsAnswered, Ids, ToolIds, Distinct, Window, UsesAnswered, ResultsAsked, AllUses;
    OneUses(TWO_USES, a, b);
    assert ResultsOf(a) + ResultsOf(b) == [ResultMessage("call_a", "ok"), ResultMessage("call_b", "ok")];
    ApartIds(ResultsOf(a) + ResultsOf(b), UsesOf(TWO_USES));
    TwoAnswer(TWO_USES, a, b);
    TooFewResults([TWO_USES, a, b]);
  }
}
