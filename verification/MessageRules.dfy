/**
 What the message validator accepts, stated without its pass: every message valid, call ids distinct,
 and every assistant turn followed at once by exactly the results its calls ask for.
 */
module MessageRules {
  import opened Wrappers
  import opened StringOrder
  import opened StreamChunks
  import opened RawStreams
  import opened Messages

  function Ids(calls: seq<ToolCall>): (ids: seq<string>)
    ensures |ids| == |calls| && forall i | 0 <= i < |calls| :: ids[i] == calls[i].id
  {
    seq(|calls|, i requires 0 <= i < |calls| => calls[i].id)
  }

  function ToolIds(messages: seq<Message>): (ids: seq<string>)
    ensures |ids| == |messages| && forall i | 0 <= i < |messages| :: ids[i] == messages[i].toolCallId
  {
    seq(|messages|, i requires 0 <= i < |messages| => messages[i].toolCallId)
  }

  // The ids of all calls of a conversation, in order.
  function CallIds(messages: seq<Message>): seq<string> {
    if messages == [] then [] else Ids(messages[0].calls) + CallIds(messages[1..])
  }

  // A result that names a function names that of the call it answers.
  predicate NameFits(m: Message, calls: seq<ToolCall>) {
    m.name == "" || exists call <- calls :: call.id == m.toolCallId && call.name == m.name
  }

  // The messages right after message i answer its calls, each exactly once, in any order.
  predicate Answered(messages: seq<Message>, i: nat)
    requires i < |messages|
  {
    var n := |messages[i].calls|;
    && i + n < |messages|
    && var window := messages[i + 1..i + 1 + n];
       && (forall m <- window :: m.role == "tool" && NameFits(m, messages[i].calls))
       && multiset(ToolIds(window)) == multiset(Ids(messages[i].calls))
  }

  predicate CallsReach(messages: seq<Message>, i: nat, j: nat) {
    i < j && i < |messages| && j <= i + |messages[i].calls|
  }

  // Message j lies among the answers to an earlier message.
  predicate Answers(messages: seq<Message>, j: nat) {
    exists i: nat | i < j :: CallsReach(messages, i, j)
  }

  // Content that says something: one text, or 1 to 128 text parts, none of them empty.
  predicate Speaks(content: Content, parts: bool) {
    match content
    case Text(text) => text != ""
    case Parts(items) => parts && 1 <= |items| <= 128 && forall item <- items :: item == Part("text", item.text) && item.text != ""
    case _ => false
  }

  // A message that is acceptable by itself, role by role; a turn that calls tools need not speak.
  predicate MessageAllowed(jsonObject: string -> bool, m: Message) {
    if m.role == "system" || m.role == "user" then
      m.reasoning == None && m.calls == [] && m.toolCallId == "" && m.name == "" && Speaks(m.content, true)
    else if m.role == "assistant" then
      && m.toolCallId == "" && m.name == "" && |m.calls| <= 128 && (m.reasoning == None || |m.reasoning.value| <= 262144)
      && (forall call <- m.calls :: CallOwed(jsonObject, call))
      && (Speaks(m.content, true) || (m.calls != [] && (m.content == Null || m.content == Text(""))))
    else
      && m.role == "tool" && m.reasoning == None && m.calls == [] && IdAllowed(m.toolCallId) && (m.name == "" || NameAllowed(m.name))
      && Speaks(m.content, false)
  }

  predicate Conversation(jsonObject: string -> bool, messages: seq<Message>) {
    && (forall m <- messages :: MessageAllowed(jsonObject, m))
    && Distinct(CallIds(messages))
    && (forall i | 0 <= i < |messages| :: Answered(messages, i))
    && (forall j | 0 <= j < |messages| && messages[j].role == "tool" :: Answers(messages, j))
  }

  // --- Turn by turn -----------------------------------------------------------------------

  function Names(calls: seq<ToolCall>): map<string, string> {
    if calls == [] then map[] else Names(calls[1..])[calls[0].id := calls[0].name]
  }

  predicate Fits(m: Message, outstanding: map<string, string>) {
    ValidTool(m) && m.toolCallId in outstanding && (m.name == "" || m.name == outstanding[m.toolCallId])
  }

  predicate AnswersAll(tools: seq<Message>, outstanding: map<string, string>)
    decreases |tools|
  {
    if tools == [] then outstanding == map[]
    else Fits(tools[0], outstanding) && AnswersAll(tools[1..], outstanding - {tools[0].toolCallId})
  }

  predicate Fresh(calls: seq<ToolCall>, seen: set<string>) {
    Distinct(Ids(calls)) && forall call <- calls :: call.id !in seen
  }

  function IdSet(calls: seq<ToolCall>): set<string> {
    set call | call in calls :: call.id
  }

  // One speaker's message, the answers to its calls, and the rest.
  predicate Turns(jsonObject: string -> bool, seen: set<string>, messages: seq<Message>)
    decreases |messages|
  {
    messages == [] ||
    var m := messages[0];
    var n := |m.calls|;
    && m.role != "tool" && ValidMessage(jsonObject, m) && Fresh(m.calls, seen)
    && n < |messages| && AnswersAll(messages[1..n + 1], Names(m.calls))
    && Turns(jsonObject, seen + IdSet(m.calls), messages[n + 1..])
  }

  // --- The pass goes turn by turn ---------------------------------------------------------

  lemma {:induction false} NamesOf(calls: seq<ToolCall>, id: string)
    ensures id in Names(calls) <==> id in IdSet(calls)
  {
    if calls != [] {
      NamesOf(calls[1..], id);
      assert calls == [calls[0]] + calls[1..];
      if id in IdSet(calls) && id != calls[0].id {
        var call :| call in calls && call.id == id;
        assert call in calls[1..];
      }
    }
  }

  lemma FreshRest(calls: seq<ToolCall>, seen: set<string>)
    requires calls != []
    ensures Fresh(calls, seen) <==> calls[0].id !in seen && Fresh(calls[1..], seen + {calls[0].id})
  {
    hide Distinct;
    DistinctRest(Ids(calls));
    assert Ids(calls)[1..] == Ids(calls[1..]);
    assert calls == [calls[0]] + calls[1..];
    FirstAgain(calls);
  }

  lemma DistinctRest(xs: seq<string>)
    requires xs != []
    ensures Distinct(xs) <==> xs[0] !in xs[1..] && Distinct(xs[1..])
  {
    var rest := xs[1..];
    assert forall i | 0 <= i < |rest| :: rest[i] == xs[i + 1];
    if xs[0] !in rest && Distinct(rest) {
      forall i, j | 0 <= i < j < |xs|
        ensures xs[i] != xs[j]
      {
        assert xs[j] == rest[j - 1] && (i > 0 ==> rest[i - 1] != rest[j - 1]);
      }
    }
    if Distinct(xs) {
      forall i, j | 0 <= i < j < |rest|
        ensures rest[i] != rest[j]
      {
        assert xs[i + 1] != xs[j + 1];
      }
    }
  }

  lemma FirstAgain(calls: seq<ToolCall>)
    requires calls != []
    ensures calls[0].id in Ids(calls[1..]) <==> exists call <- calls[1..] :: call.id == calls[0].id
  {
    var rest := calls[1..];
    if k :| 0 <= k < |rest| && Ids(rest)[k] == calls[0].id {
      assert rest[k] in rest;
    }
    if call :| call in rest && call.id == calls[0].id {
      var k :| 0 <= k < |rest| && rest[k] == call;
      assert Ids(rest)[k] == calls[0].id;
    }
  }

  // The names are recorded one by one, whatever was outstanding before.
  lemma {:induction false} RegisterMeans(jsonObject: string -> bool, table: Table, calls: seq<ToolCall>)
    ensures Register(jsonObject, table, calls).Some?
            <==> (forall call <- calls :: ValidCall(jsonObject, call)) && Fresh(calls, table.seen)
    ensures Register(jsonObject, table, calls).Some? ==>
              Register(jsonObject, table, calls).value
              == Table(table.outstanding + Names(calls), table.seen + IdSet(calls))
    decreases |calls|
  {
    hide ValidCall, Fresh;
    if calls == [] {
      assert Fresh(calls, table.seen) by {
        FreshNone(table.seen);
      }
      assert table.outstanding + map[] == table.outstanding && table.seen + {} == table.seen;
    } else {
      var rest := calls[1..];
      assert calls == [calls[0]] + rest;
      FreshRest(calls, table.seen);
      var next := Table(table.outstanding[calls[0].id := calls[0].name], table.seen + {calls[0].id});
      RegisterMeans(jsonObject, next, rest);
      if Register(jsonObject, table, calls).Some? {
        NamesOf(rest, calls[0].id);
        FreshMisses(rest, next.seen, calls[0].id);
        assert next.outstanding + Names(rest) == table.outstanding + Names(calls);
        IdSetGrows(calls);
        assert next.seen + IdSet(rest) == table.seen + IdSet(calls);
      }
    }
  }

  lemma FreshNone(seen: set<string>)
    ensures Fresh([], seen)
  {
  }

  lemma FreshMisses(calls: seq<ToolCall>, seen: set<string>, id: string)
    requires Fresh(calls, seen) && id in seen
    ensures id !in IdSet(calls)
  {
  }

  lemma IdSetGrows(calls: seq<ToolCall>)
    requires calls != []
    ensures IdSet(calls) == {calls[0].id} + IdSet(calls[1..])
  {
    assert calls == [calls[0]] + calls[1..];
  }

  lemma {:induction false} NamesCount(calls: seq<ToolCall>)
    requires Distinct(Ids(calls))
    ensures |Names(calls)| == |calls| && multiset(Names(calls).Keys) == multiset(Ids(calls))
  {
    if calls != [] {
      FreshRest(calls, {});
      NamesCount(calls[1..]);
      NamesOf(calls[1..], calls[0].id);
      FreshMisses(calls[1..], {} + {calls[0].id}, calls[0].id);
      var keys := Names(calls[1..]).Keys;
      assert Names(calls).Keys == keys + {calls[0].id};
      assert Ids(calls) == [calls[0].id] + Ids(calls[1..]);
    } else {
      assert Ids(calls) == [];
    }
  }

  // As long as calls are outstanding, the pass takes exactly their answers.
  lemma {:induction false} ScanTools(jsonObject: string -> bool, table: Table, messages: seq<Message>)
    ensures var n := |table.outstanding|;
            Scan(jsonObject, table, messages)
            <==> && n <= |messages| && AnswersAll(messages[..n], table.outstanding)
                 && Scan(jsonObject, Table(map[], table.seen), messages[n..])
    decreases |table.outstanding|
  {
    hide ValidTool, ValidTurn, ValidPlain, Register;
    var n := |table.outstanding|;
    if table.outstanding == map[] {
      assert messages[0..] == messages && messages[..0] == [];
    } else if messages != [] {
      EmptyMap(table.outstanding);
      var m := messages[0];
      if n <= |messages| {
        assert messages[..n][0] == m;
      }
      if Fits(m, table.outstanding) {
        ToolRole(m);
        var rest := table.outstanding - {m.toolCallId};
        RemoveKey(table.outstanding, m.toolCallId);
        ScanTools(jsonObject, Table(rest, table.seen), messages[1..]);
        if n <= |messages| {
          assert messages[..n][1..] == messages[1..][..n - 1] && messages[n..] == messages[1..][n - 1..];
        }
      }
    } else {
      EmptyMap(table.outstanding);
    }
  }

  lemma EmptyMap(m: map<string, string>)
    requires m != map[]
    ensures |m| > 0
  {
  }

  lemma RemoveKey(m: map<string, string>, k: string)
    requires k in m
    ensures |m - {k}| == |m| - 1
  {
    assert (m - {k}).Keys == m.Keys - {k};
  }

  lemma ToolRole(m: Message)
    requires ValidTool(m)
    ensures m.role == "tool"
  {
  }

  // A message that speaks: what one step over it says.
  lemma SpeakerStep(jsonObject: string -> bool, seen: set<string>, m: Message)
    requires m.role != "tool"
    ensures var next := Step(jsonObject, Table(map[], seen), m);
            && (next.Some? <==> ValidMessage(jsonObject, m) && Fresh(m.calls, seen))
            && (next.Some? ==> next.value == Table(Names(m.calls), seen + IdSet(m.calls)))
  {
    hide Fresh, Register, HasText, ValidCall;
    RegisterMeans(jsonObject, Table(map[], seen), m.calls);
    assert map[] + Names(m.calls) == Names(m.calls);
    if m.role == "system" || m.role == "user" {
      if ValidPlain(m) {
        FreshNone(seen);
        assert seen + IdSet([]) == seen;
      }
    }
  }

  // A speaker's turn, seen by the pass.
  lemma SpeakerTurn(jsonObject: string -> bool, seen: set<string>, messages: seq<Message>)
    requires messages != [] && messages[0].role != "tool"
    ensures var m, n := messages[0], |messages[0].calls|;
            Scan(jsonObject, Table(map[], seen), messages)
            <==> && ValidMessage(jsonObject, m) && Fresh(m.calls, seen)
                 && n < |messages| && AnswersAll(messages[1..n + 1], Names(m.calls))
                 && Scan(jsonObject, Table(map[], seen + IdSet(m.calls)), messages[n + 1..])
  {
    var m, n, rest := messages[0], |messages[0].calls|, messages[1..];
    var next := Step(jsonObject, Table(map[], seen), m);
    assert Scan(jsonObject, Table(map[], seen), messages) <==> next.Some? && Scan(jsonObject, next.value, rest);
    hide Scan, AnswersAll, ValidMessage, Step, Fresh, IdSet, Names;
    SpeakerStep(jsonObject, seen, m);
    if next.Some? {
      assert Distinct(Ids(m.calls)) by {
        FreshDistinct(m.calls, seen);
      }
      NamesCount(m.calls);
      ScanTools(jsonObject, next.value, rest);
      if n < |messages| {
        assert rest[..n] == messages[1..n + 1] && rest[n..] == messages[n + 1..];
      }
    }
  }

  lemma FreshDistinct(calls: seq<ToolCall>, seen: set<string>)
    requires Fresh(calls, seen)
    ensures Distinct(Ids(calls))
  {
  }

  lemma {:induction false} ScanTurns(jsonObject: string -> bool, seen: set<string>, messages: seq<Message>)
    ensures Scan(jsonObject, Table(map[], seen), messages) <==> Turns(jsonObject, seen, messages)
    decreases |messages|
  {
    hide AnswersAll, ValidMessage, Step, Fresh, IdSet, Names;
    if messages != [] {
      var m, n := messages[0], |messages[0].calls|;
      if m.role == "tool" {
        ToolFirst(jsonObject, seen, m);
      } else {
        SpeakerTurn(jsonObject, seen, messages);
        if n < |messages| {
          ScanTurns(jsonObject, seen + IdSet(m.calls), messages[n + 1..]);
        }
      }
    }
  }

  lemma ToolFirst(jsonObject: string -> bool, seen: set<string>, m: Message)
    requires m.role == "tool"
    ensures Step(jsonObject, Table(map[], seen), m).None?
  {
  }

  // --- Turn by turn is what the rules say -------------------------------------------------

  predicate AllFit(tools: seq<Message>, outstanding: map<string, string>) {
    forall m <- tools :: Fits(m, outstanding)
  }

  lemma ToolIdsRest(tools: seq<Message>, outstanding: map<string, string>)
    requires tools != []
    ensures var id := tools[0].toolCallId;
            && multiset(ToolIds(tools)) == multiset{id} + multiset(ToolIds(tools[1..]))
            && (id in outstanding ==> multiset(outstanding.Keys) == multiset{id} + multiset((outstanding - {id}).Keys))
  {
    assert ToolIds(tools) == [tools[0].toolCallId] + ToolIds(tools[1..]);
    if tools[0].toolCallId in outstanding {
      assert outstanding.Keys == (outstanding - {tools[0].toolCallId}).Keys + {tools[0].toolCallId};
    }
  }

  lemma AllFitRest(tools: seq<Message>, outstanding: map<string, string>)
    requires tools != []
    requires multiset(ToolIds(tools[1..])) == multiset((outstanding - {tools[0].toolCallId}).Keys)
    ensures AllFit(tools, outstanding) <==> Fits(tools[0], outstanding) && AllFit(tools[1..], outstanding - {tools[0].toolCallId})
  {
    hide ValidTool, ToolIds;
    var rest := outstanding - {tools[0].toolCallId};
    assert tools == [tools[0]] + tools[1..];
    forall m | m in tools[1..]
      ensures Fits(m, outstanding) <==> Fits(m, rest)
    {
      RestHasNot(tools, tools[0].toolCallId, rest, m);
    }
  }

  // Answering everything is answering each call exactly once, in any order.
  lemma {:induction false} AnswersAllMeans(tools: seq<Message>, outstanding: map<string, string>)
    ensures AnswersAll(tools, outstanding) <==> AllFit(tools, outstanding) && multiset(ToolIds(tools)) == multiset(outstanding.Keys)
    decreases |tools|
  {
    hide AllFit, ToolIds, Fits;
    if tools == [] {
      assert ToolIds(tools) == [];
      NoneFit(outstanding);
      if multiset(outstanding.Keys) == multiset([]) {
        NoKeys(outstanding);
      }
    } else {
      var rest := outstanding - {tools[0].toolCallId};
      AnswersAllMeans(tools[1..], rest);
      ToolIdsRest(tools, outstanding);
      if tools[0].toolCallId in outstanding {
        Cancel(tools[0].toolCallId, multiset(ToolIds(tools[1..])), multiset(rest.Keys));
        if multiset(ToolIds(tools[1..])) == multiset(rest.Keys) {
          AllFitRest(tools, outstanding);
        }
      } else {
        NotFit(tools, outstanding);
      }
    }
  }

  lemma Cancel(x: string, a: multiset<string>, b: multiset<string>)
    ensures multiset{x} + a == multiset{x} + b <==> a == b
  {
    assert a == (multiset{x} + a) - multiset{x} && b == (multiset{x} + b) - multiset{x};
  }

  lemma NoneFit(outstanding: map<string, string>)
    ensures AllFit([], outstanding)
  {
  }

  lemma NotFit(tools: seq<Message>, outstanding: map<string, string>)
    requires tools != [] && tools[0].toolCallId !in outstanding
    ensures !Fits(tools[0], outstanding) && !AllFit(tools, outstanding)
  {
    assert tools[0] in tools;
  }

  lemma NoKeys(m: map<string, string>)
    requires multiset(m.Keys) == multiset{}
    ensures m == map[]
  {
    assert forall k :: k in m.Keys <==> k in multiset(m.Keys);
  }

  lemma RestHasNot(tools: seq<Message>, id: string, rest: map<string, string>, m: Message)
    requires |tools| > 0 && m in tools[1..] && multiset(ToolIds(tools[1..])) == multiset(rest.Keys) && id !in rest
    ensures m.toolCallId != id && m.toolCallId in rest
  {
    var k :| 0 <= k < |tools[1..]| && tools[1..][k] == m;
    assert ToolIds(tools[1..])[k] == m.toolCallId;
    assert m.toolCallId in multiset(ToolIds(tools[1..]));
  }

  lemma {:induction false} NameOf(calls: seq<ToolCall>, id: string, name: string)
    requires Distinct(Ids(calls)) && id in Names(calls)
    ensures Names(calls)[id] == name <==> exists call <- calls :: call.id == id && call.name == name
  {
    FreshRest(calls, {});
    assert calls == [calls[0]] + calls[1..];
    FreshMisses(calls[1..], {} + {calls[0].id}, calls[0].id);
    if id == calls[0].id {
      assert calls[0] in calls;
      assert forall call <- calls[1..] :: call.id in IdSet(calls[1..]);
    } else {
      NameOf(calls[1..], id, name);
    }
  }

  // A window of messages answers distinct calls in the sense of the rules.
  lemma WindowMeans(tools: seq<Message>, calls: seq<ToolCall>)
    requires Distinct(Ids(calls))
    ensures AnswersAll(tools, Names(calls))
            <==> && (forall m <- tools :: ValidTool(m) && NameFits(m, calls))
                 && multiset(ToolIds(tools)) == multiset(Ids(calls))
  {
    hide ValidTool, AnswersAll, Names, ToolIds, NameFits;
    AnswersAllMeans(tools, Names(calls));
    NamesCount(calls);
    if multiset(ToolIds(tools)) == multiset(Ids(calls)) {
      forall m | m in tools
        ensures Fits(m, Names(calls)) <==> ValidTool(m) && NameFits(m, calls)
      {
        IdKnown(tools, calls, m);
        FitMeans(m, calls);
      }
    }
  }

  lemma IdKnown(tools: seq<Message>, calls: seq<ToolCall>, m: Message)
    requires m in tools && multiset(ToolIds(tools)) == multiset(Ids(calls))
    ensures m.toolCallId in Names(calls)
  {
    var k :| 0 <= k < |tools| && tools[k] == m;
    assert ToolIds(tools)[k] == m.toolCallId;
    assert m.toolCallId in multiset(Ids(calls));
    var c :| 0 <= c < |Ids(calls)| && Ids(calls)[c] == m.toolCallId;
    assert calls[c] in calls;
    NamesOf(calls, m.toolCallId);
  }

  lemma FitMeans(m: Message, calls: seq<ToolCall>)
    requires Distinct(Ids(calls)) && m.toolCallId in Names(calls)
    ensures Fits(m, Names(calls)) <==> ValidTool(m) && NameFits(m, calls)
  {
    hide ValidTool, Names;
    NameOf(calls, m.toolCallId, m.name);
  }

  // --- The rules, after some ids were used ------------------------------------------------

  predicate Unused(ids: seq<string>, seen: set<string>) {
    Distinct(ids) && forall id <- ids :: id !in seen
  }

  predicate AllValid(jsonObject: string -> bool, messages: seq<Message>) {
    forall m <- messages :: ValidMessage(jsonObject, m)
  }

  predicate AllAnswered(messages: seq<Message>) {
    forall i | 0 <= i < |messages| :: Answered(messages, i)
  }

  predicate AllAnswer(messages: seq<Message>) {
    forall j | 0 <= j < |messages| && messages[j].role == "tool" :: Answers(messages, j)
  }

  predicate Rules(jsonObject: string -> bool, seen: set<string>, messages: seq<Message>) {
    AllValid(jsonObject, messages) && Unused(CallIds(messages), seen) && AllAnswered(messages) && AllAnswer(messages)
  }

  lemma {:induction false} ToolsCallNothing(tools: seq<Message>, rest: seq<Message>)
    requires forall m <- tools :: m.calls == []
    ensures CallIds(tools + rest) == CallIds(rest)
  {
    if tools == [] {
      assert tools + rest == rest;
    } else {
      assert (tools + rest)[1..] == tools[1..] + rest && (tools + rest)[0] == tools[0];
      ToolsCallNothing(tools[1..], rest);
      assert Ids(tools[0].calls) == [];
      assert [] + CallIds(rest) == CallIds(rest);
    }
  }

  lemma {:induction false} DistinctConcat(xs: seq<string>, ys: seq<string>)
    ensures Distinct(xs + ys) <==> Distinct(xs) && Distinct(ys) && forall x <- xs :: x !in ys
  {
    hide Distinct;
    if xs == [] {
      assert xs + ys == ys;
      assert Distinct(xs) by {
        DistinctNone();
      }
    } else {
      DistinctRest(xs + ys);
      DistinctRest(xs);
      assert (xs + ys)[1..] == xs[1..] + ys && xs == [xs[0]] + xs[1..];
      DistinctConcat(xs[1..], ys);
    }
  }

  lemma DistinctNone()
    ensures Distinct([])
  {
  }

  lemma IdsInSet(calls: seq<ToolCall>, id: string)
    ensures id in Ids(calls) <==> id in IdSet(calls)
  {
    if k :| 0 <= k < |calls| && Ids(calls)[k] == id {
      assert calls[k] in calls;
    }
    if call :| call in calls && call.id == id {
      var k :| 0 <= k < |calls| && calls[k] == call;
      assert Ids(calls)[k] == id;
    }
  }

  lemma UnusedSplit(calls: seq<ToolCall>, later: seq<string>, seen: set<string>)
    ensures Unused(Ids(calls) + later, seen) <==> Fresh(calls, seen) && Unused(later, seen + IdSet(calls))
  {
    hide Distinct, IdSet;
    DistinctConcat(Ids(calls), later);
    forall id
      ensures id in Ids(calls) <==> id in IdSet(calls)
    {
      IdsInSet(calls, id);
    }
    assert forall id :: id in Ids(calls) + later <==> id in Ids(calls) || id in later;
    FreshIds(calls, seen);
  }

  lemma FreshIds(calls: seq<ToolCall>, seen: set<string>)
    ensures Fresh(calls, seen) <==> Distinct(Ids(calls)) && forall id <- Ids(calls) :: id !in seen
  {
    hide Distinct;
    if forall id <- Ids(calls) :: id !in seen {
      forall call | call in calls
        ensures call.id !in seen
      {
        IdsInSet(calls, call.id);
      }
    }
    if Fresh(calls, seen) {
      forall id | id in Ids(calls)
        ensures id !in seen
      {
        IdsInSet(calls, id);
      }
    }
  }

  lemma WindowShift(messages: seq<Message>, k: nat, i: nat, n: nat)
    requires k + i + n < |messages|
    ensures messages[k..][i + 1..i + 1 + n] == messages[k + i + 1..k + i + 1 + n]
  {
  }

  lemma AnsweredShift(messages: seq<Message>, k: nat, i: nat)
    requires k + i < |messages|
    ensures Answered(messages[k..], i) <==> Answered(messages, k + i)
  {
    hide NameFits, ToolIds, Ids;
    var n := |messages[k + i].calls|;
    assert messages[k..][i] == messages[k + i];
    if k + i + n < |messages| {
      WindowShift(messages, k, i, n);
    }
  }

  lemma AnsweredNothing(messages: seq<Message>, i: nat)
    requires i < |messages| && messages[i].calls == []
    ensures Answered(messages, i)
  {
    assert messages[i + 1..i + 1] == [];
    assert ToolIds([]) == [] && Ids([]) == [];
  }

  lemma ToolShape(m: Message)
    requires ValidTool(m)
    ensures m.role == "tool" && m.calls == []
  {
  }

  lemma ValidToolRole(jsonObject: string -> bool, m: Message)
    requires m.role == "tool"
    ensures ValidMessage(jsonObject, m) <==> ValidTool(m)
  {
  }

  // The two views of one turn: its message, its window and the rest.
  predicate TurnOf(jsonObject: string -> bool, seen: set<string>, messages: seq<Message>) {
    && messages != []
    && var m, n := messages[0], |messages[0].calls|;
       && m.role != "tool" && ValidMessage(jsonObject, m) && Fresh(m.calls, seen)
       && n < |messages| && AnswersAll(messages[1..n + 1], Names(m.calls))
  }

  lemma WindowShape(tools: seq<Message>, calls: seq<ToolCall>)
    requires Distinct(Ids(calls)) && AnswersAll(tools, Names(calls))
    ensures forall t <- tools :: ValidTool(t) && t.role == "tool" && t.calls == []
  {
    hide AnswersAll, Names, ToolIds, NameFits, ValidTool;
    WindowMeans(tools, calls);
    forall t | t in tools
      ensures t.role == "tool" && t.calls == []
    {
      ToolShape(t);
    }
  }

  lemma TurnCallIds(messages: seq<Message>, n: nat)
    requires messages != [] && n < |messages| && forall t <- messages[1..n + 1] :: t.calls == []
    ensures CallIds(messages) == Ids(messages[0].calls) + CallIds(messages[n + 1..])
  {
    var tools, rest := messages[1..n + 1], messages[n + 1..];
    assert messages[1..] == tools + rest;
    assert CallIds(messages) == Ids(messages[0].calls) + CallIds(tools + rest);
    hide CallIds;
    ToolsCallNothing(tools, rest);
  }

  lemma TurnAnswered(messages: seq<Message>, n: nat)
    requires n < |messages| && n == |messages[0].calls| && Answered(messages, 0)
    requires forall t <- messages[1..n + 1] :: t.calls == []
    ensures AllAnswered(messages) <==> AllAnswered(messages[n + 1..])
  {
    hide Answered;
    var rest := messages[n + 1..];
    forall i | 0 <= i < |rest|
      ensures Answered(rest, i) <==> Answered(messages, n + 1 + i)
    {
      AnsweredShift(messages, n + 1, i);
    }
    forall i | 1 <= i <= n
      ensures Answered(messages, i)
    {
      assert messages[i] == messages[1..n + 1][i - 1];
      AnsweredNothing(messages, i);
    }
    if AllAnswered(rest) {
      forall i | 0 <= i < |messages|
        ensures Answered(messages, i)
      {
        if i > n {
          assert Answered(rest, i - n - 1);
        }
      }
    }
    if AllAnswered(messages) {
      forall i | 0 <= i < |rest|
        ensures Answered(rest, i)
      {
        assert Answered(messages, n + 1 + i);
      }
    }
  }

  lemma TurnAnswers(messages: seq<Message>, n: nat)
    requires n < |messages| && n == |messages[0].calls| && messages[0].role != "tool"
    requires forall t <- messages[1..n + 1] :: t.role == "tool" && t.calls == []
    ensures AllAnswer(messages) <==> AllAnswer(messages[n + 1..])
  {
    var rest := messages[n + 1..];
    forall k | 1 <= k <= n
      ensures messages[k].calls == []
    {
      assert messages[k] == messages[1..n + 1][k - 1];
    }
    forall j | 0 <= j < |rest|
      ensures Answers(rest, j) <==> Answers(messages, n + 1 + j)
    {
      if Answers(rest, j) {
        var i: nat :| i < j && CallsReach(rest, i, j);
        assert CallsReach(messages, n + 1 + i, n + 1 + j);
      }
      if Answers(messages, n + 1 + j) {
        var i: nat :| i < n + 1 + j && CallsReach(messages, i, n + 1 + j);
        assert i > n;
        assert CallsReach(rest, i - n - 1, j);
      }
    }
    forall j | 1 <= j <= n
      ensures Answers(messages, j)
    {
      assert CallsReach(messages, 0, j);
    }
    hide Answers;
    if AllAnswer(rest) {
      forall j | 0 <= j < |messages| && messages[j].role == "tool"
        ensures Answers(messages, j)
      {
        if j > n {
          assert rest[j - n - 1] == messages[j];
        }
      }
    }
    if AllAnswer(messages) {
      forall j | 0 <= j < |rest| && rest[j].role == "tool"
        ensures Answers(rest, j)
      {
        assert messages[n + 1 + j] == rest[j];
      }
    }
  }

  lemma TurnValid(jsonObject: string -> bool, messages: seq<Message>, n: nat)
    requires n < |messages| && ValidMessage(jsonObject, messages[0])
    requires forall t <- messages[1..n + 1] :: ValidTool(t)
    ensures AllValid(jsonObject, messages) <==> AllValid(jsonObject, messages[n + 1..])
  {
    hide ValidTool, ValidPlain, ValidAssistant;
    assert messages == [messages[0]] + messages[1..n + 1] + messages[n + 1..];
  }

  lemma TurnRules(jsonObject: string -> bool, seen: set<string>, messages: seq<Message>)
    requires TurnOf(jsonObject, seen, messages)
    ensures var m, n := messages[0], |messages[0].calls|;
            Rules(jsonObject, seen, messages) <==> Rules(jsonObject, seen + IdSet(m.calls), messages[n + 1..])
  {
    hide ValidMessage, AnswersAll, AllValid, AllAnswered, AllAnswer, Unused, Answered, CallIds;
    var m, n := messages[0], |messages[0].calls|;
    WindowShape(messages[1..n + 1], m.calls);
    TurnValid(jsonObject, messages, n);
    TurnCallIds(messages, n);
    UnusedSplit(m.calls, CallIds(messages[n + 1..]), seen);
    FirstAnswered(jsonObject, seen, messages);
    TurnAnswered(messages, n);
    TurnAnswers(messages, n);
  }

  lemma FirstAnswered(jsonObject: string -> bool, seen: set<string>, messages: seq<Message>)
    requires TurnOf(jsonObject, seen, messages)
    ensures Answered(messages, 0)
  {
    hide ValidMessage, AnswersAll, NameFits, Names, ToolIds, ValidTool;
    var m, n := messages[0], |messages[0].calls|;
    WindowShape(messages[1..n + 1], m.calls);
    WindowMeans(messages[1..n + 1], m.calls);
  }

  lemma NothingAnswersFirst(messages: seq<Message>)
    ensures !Answers(messages, 0)
  {
  }

  // A conversation that follows the rules begins with a turn.
  lemma RulesBegin(jsonObject: string -> bool, seen: set<string>, messages: seq<Message>)
    requires messages != [] && Rules(jsonObject, seen, messages)
    ensures TurnOf(jsonObject, seen, messages)
  {
    hide ValidMessage, AnswersAll, NameFits, Names, ToolIds, ValidTool, Unused, CallsReach, CallIds;
    var m, n := messages[0], |messages[0].calls|;
    NothingAnswersFirst(messages);
    assert m in messages && Answered(messages, 0);
    var window := messages[1..n + 1];
    forall t | t in window
      ensures ValidTool(t) && t.calls == []
    {
      assert t in messages;
      ValidToolRole(jsonObject, t);
      ToolShape(t);
    }
    TurnCallIds(messages, n);
    UnusedSplit(m.calls, CallIds(messages[n + 1..]), seen);
    WindowMeans(window, m.calls);
  }

  lemma {:induction false} TurnsAreRules(jsonObject: string -> bool, seen: set<string>, messages: seq<Message>)
    ensures Turns(jsonObject, seen, messages) <==> Rules(jsonObject, seen, messages)
    decreases |messages|
  {
    hide ValidMessage, AnswersAll, Names, Fresh, Rules;
    if messages == [] {
      NoRules(jsonObject, seen);
    } else {
      if Rules(jsonObject, seen, messages) {
        RulesBegin(jsonObject, seen, messages);
      }
      if TurnOf(jsonObject, seen, messages) {
        var m, n := messages[0], |messages[0].calls|;
        TurnRules(jsonObject, seen, messages);
        TurnsAreRules(jsonObject, seen + IdSet(m.calls), messages[n + 1..]);
      }
    }
  }

  lemma NoRules(jsonObject: string -> bool, seen: set<string>)
    ensures Rules(jsonObject, seen, [])
  {
  }

  // The validator accepts exactly the conversations that follow the rules.
  lemma AcceptedConversation(jsonObject: string -> bool, messages: seq<Message>)
    ensures Scan(jsonObject, Table(map[], {}), messages) <==> Conversation(jsonObject, messages)
  {
    hide Scan, Turns, ValidMessage, MessageAllowed, Answered, Answers, CallIds;
    ScanTurns(jsonObject, {}, messages);
    TurnsAreRules(jsonObject, {}, messages);
    forall m <- messages
      ensures ValidMessage(jsonObject, m) <==> MessageAllowed(jsonObject, m)
    {
      AllowedIs(jsonObject, m);
    }
  }

  lemma SpeaksIs(content: Content, parts: bool)
    ensures HasText(content, false, parts) == Some(true) <==> Speaks(content, parts)
    ensures HasText(content, true, parts) == Some(true) <==> Speaks(content, parts)
    ensures HasText(content, true, parts).Some? <==> Speaks(content, parts) || content == Null || content == Text("")
    ensures HasText(content, false, parts).Some? <==> Speaks(content, parts) || content == Text("")
  {
  }

  lemma AllowedIs(jsonObject: string -> bool, m: Message)
    ensures ValidMessage(jsonObject, m) <==> MessageAllowed(jsonObject, m)
  {
    hide HasText, Speaks, ValidToolCallId, ValidToolName, IdAllowed, NameAllowed;
    SpeaksIs(m.content, true);
    SpeaksIs(m.content, false);
    NamesAllowed(m.toolCallId);
    NamesAllowed(m.name);
    forall call <- m.calls
      ensures ValidCall(jsonObject, call) <==> CallOwed(jsonObject, call)
    {
      NamesAllowed(call.id);
      NamesAllowed(call.name);
    }
  }
}
