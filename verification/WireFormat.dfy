/**
 What a reader that follows section 9.2.6 of the WHATWG HTML standard makes of the bytes a translated
 stream is written as: one event after another, each with its name and its payload.
 */
module WireFormat {
  import opened SseFrames
  import opened StreamRelay
  import R = ResponsesStream
  import A = AnthropicStream

  datatype Dispatched = Dispatched(name: string, data: string)

  // An event field names the event, a data field extends the buffer, an empty line dispatches both; an
  // event without a name is a message.
  function Dispatches(lines: seq<string>, name: string, buffer: string): seq<Dispatched> {
    if lines == [] then [] else
    var line := lines[0];
    if line == "" then
      (if buffer == "" then []
       else [Dispatched(if name == "" then "message" else name,
                        if buffer[|buffer| - 1] == '\n' then buffer[..|buffer| - 1] else buffer)])
      + Dispatches(lines[1..], "", "")
    else if line[0] == ':' then Dispatches(lines[1..], name, buffer)
    else
      var k := ColonAt(line);
      var after := if k < |line| then line[k + 1..] else "";
      var value := if after != "" && after[0] == ' ' then after[1..] else after;
      if line[..k] == "data" then Dispatches(lines[1..], name, buffer + value + "\n")
      else if line[..k] == "event" then Dispatches(lines[1..], value, buffer)
      else Dispatches(lines[1..], name, buffer)
  }

  predicate OneLine(text: string) {
    forall c <- text :: c != '\n' && c != '\r'
  }

  lemma {:induction false} LineEndAt(line: string, later: string)
    requires OneLine(line)
    ensures LineEnd(line + "\n" + later) == |line|
  {
    var whole := line + "\n" + later;
    assert whole[|line|] == '\n';
    forall i | 0 <= i < |line|
      ensures whole[i] != '\n' && whole[i] != '\r'
    {
      assert whole[i] == line[i] && line[i] in line;
    }
  }

  lemma LineFirst(line: string, later: string)
    requires OneLine(line)
    ensures Lines(line + "\n" + later) == [line] + Lines(later)
  {
    LineEndAt(line, later);
    var whole := line + "\n" + later;
    assert whole[..|line|] == line && whole[|line| + 1..] == later;
  }

  lemma FrameShape(name: string, payload: string, later: string)
    ensures EventFrame(name, payload) + later
            == ("event: " + name) + "\n" + (("data: " + payload) + "\n" + ("" + "\n" + later))
  {
    assert "\ndata: " == "\n" + "data: " && "\n\n" == "\n" + "\n";
  }

  lemma Labelled(field: string, text: string)
    requires OneLine(field) && OneLine(text)
    ensures OneLine(field + text)
  {
  }

  // One written event, as three lines.
  lemma FrameLines(name: string, payload: string, later: string)
    requires OneLine(name) && OneLine(payload)
    ensures Lines(EventFrame(name, payload) + later) == ["event: " + name, "data: " + payload, ""] + Lines(later)
  {
    hide Lines, EventFrame, OneLine;
    FrameShape(name, payload, later);
    assert OneLine("event: ") && OneLine("data: ") && OneLine("") by { Labels(); }
    Labelled("event: ", name);
    Labelled("data: ", payload);
    LineFirst("event: " + name, ("data: " + payload) + "\n" + ("" + "\n" + later));
    LineFirst("data: " + payload, "" + "\n" + later);
    LineFirst("", later);
    assert ["event: " + name] + (["data: " + payload] + ([""] + Lines(later))) == ["event: " + name, "data: " + payload, ""] + Lines(later);
  }

  lemma Labels()
    ensures OneLine("event: ") && OneLine("data: ") && OneLine("")
  {
  }

  lemma FieldAt(field: string, value: string)
    requires field == "event" || field == "data"
    ensures var line := field + ": " + value;
            && line != "" && line[0] != ':' && ColonAt(line) == |field| && line[..|field|] == field && line[|field| + 1..] == " " + value
  {
    var line := field + ": " + value;
    assert line[|field|] == ':';
    assert forall i | 0 <= i < |field| :: line[i] == field[i];
    assert line[..|field|] == field;
  }

  // The standard reads the event back.
  lemma EventRead(name: string, payload: string, lines: seq<string>)
    requires name != ""
    ensures Dispatches(["event: " + name, "data: " + payload, ""] + lines, "", "")
            == [Dispatched(name, payload)] + Dispatches(lines, "", "")
  {
    hide Dispatches, ColonAt;
    FieldAt("event", name);
    FieldAt("data", payload);
    var first, second := "event" + ": " + name, "data" + ": " + payload;
    SameLabel(name, payload);
    Reads(first, [second] + ([""] + lines), "event", name, "", "");
    Reads(second, [""] + lines, "data", payload, name, "");
    Sends(lines, name, payload);
    assert [first, second, ""] + lines == [first] + ([second] + ([""] + lines));
  }

  lemma SameLabel(name: string, payload: string)
    ensures "event" + ": " + name == "event: " + name && "data" + ": " + payload == "data: " + payload
  {
    assert "event" + ": " == "event: " && "data" + ": " == "data: ";
  }

  lemma Reads(line: string, lines: seq<string>, field: string, value: string, name: string, buffer: string)
    requires field == "event" || field == "data"
    requires line != "" && line[0] != ':' && ColonAt(line) == |field| < |line| && line[..|field|] == field && line[|field| + 1..] == " " + value
    ensures Dispatches([line] + lines, name, buffer)
            == if field == "event" then Dispatches(lines, value, buffer) else Dispatches(lines, name, buffer + value + "\n")
  {
    hide ColonAt;
    assert ([line] + lines)[0] == line && ([line] + lines)[1..] == lines;
    assert (" " + value)[0] == ' ' && (" " + value)[1..] == value;
  }

  lemma Sends(lines: seq<string>, name: string, payload: string)
    requires name != ""
    ensures Dispatches([""] + lines, name, "" + payload + "\n") == [Dispatched(name, payload)] + Dispatches(lines, "", "")
  {
    var buffer := "" + payload + "\n";
    assert ([""] + lines)[0] == "" && ([""] + lines)[1..] == lines;
    assert buffer[|buffer| - 1] == '\n' && buffer[..|buffer| - 1] == payload;
  }

  // --- What the client reads --------------------------------------------------------------

  function NamedResponses(json: R.Event -> string, events: seq<R.Event>): (read: seq<Dispatched>)
    ensures |read| == |events|
    ensures forall i | 0 <= i < |events| :: read[i] == Dispatched(ResponsesEventName(events[i].body), json(events[i]))
  {
    seq(|events|, i requires 0 <= i < |events| => Dispatched(ResponsesEventName(events[i].body), json(events[i])))
  }

  function NamedAnthropic(json: A.Event -> string, events: seq<A.Event>): (read: seq<Dispatched>)
    ensures |read| == |events|
    ensures forall i | 0 <= i < |events| :: read[i] == Dispatched(AnthropicEventName(events[i]), json(events[i]))
  {
    seq(|events|, i requires 0 <= i < |events| => Dispatched(AnthropicEventName(events[i]), json(events[i])))
  }

  lemma LifeNamesPlain()
    ensures OneLine("response.created") && OneLine("response.in_progress")
    ensures OneLine("response.incomplete") && OneLine("response.completed")
  {
  }

  lemma PartNamesPlain()
    ensures OneLine("response.output_item.added") && OneLine("response.content_part.added")
    ensures OneLine("response.content_part.done") && OneLine("response.output_item.done")
  {
  }

  lemma PayloadNamesPlain()
    ensures OneLine("response.output_text.delta") && OneLine("response.output_text.done")
  {
  }

  lemma ArgumentNamesPlain()
    ensures OneLine("response.function_call_arguments.delta") && OneLine("response.function_call_arguments.done")
  {
  }

  lemma ResponsesNamesPlain(body: R.Body)
    ensures OneLine(ResponsesEventName(body)) && ResponsesEventName(body) != ""
  {
    hide OneLine;
    LifeNamesPlain();
    PartNamesPlain();
    PayloadNamesPlain();
    ArgumentNamesPlain();
  }

  // A client tells the events of the Responses protocol apart by their names.
  lemma ResponsesNames(body: R.Body)
    ensures var name := ResponsesEventName(body);
            && (name == "response.created" <==> body.ResponseCreated?)
            && (name == "response.in_progress" <==> body.ResponseInProgress?)
            && (name == "response.incomplete" <==> body.ResponseEnded? && body.response.status == R.Incomplete)
            && (name == "response.completed" <==> body.ResponseEnded? && body.response.status != R.Incomplete)
            && ItemNames(body, name)
  {
    ItemNamesHold(body);
    hide ItemNames;
  }

  predicate ItemNames(body: R.Body, name: string) {
    && (name == "response.output_item.added" <==> body.OutputItemAdded?)
    && (name == "response.content_part.added" <==> body.ContentPartAdded?)
    && (name == "response.output_text.delta" <==> body.OutputTextDelta?)
    && (name == "response.function_call_arguments.delta" <==> body.ArgumentsDelta?)
    && (name == "response.output_text.done" <==> body.OutputTextDone?)
    && (name == "response.content_part.done" <==> body.ContentPartDone?)
    && (name == "response.function_call_arguments.done" <==> body.ArgumentsDone?)
    && (name == "response.output_item.done" <==> body.OutputItemDone?)
  }

  lemma ItemNamesHold(body: R.Body)
    ensures ItemNames(body, ResponsesEventName(body))
  {
  }

  lemma AnthropicNames(e: A.Event)
    ensures var name := AnthropicEventName(e);
            && OneLine(name) && name != ""
            && (name == "message_start" <==> e.MessageStart?)
            && (name == "content_block_start" <==> e.BlockStart?)
            && (name == "content_block_delta" <==> e.ContentDelta?)
            && (name == "content_block_stop" <==> e.BlockStop?)
            && (name == "message_delta" <==> e.MessageDelta?)
            && (name == "message_stop" <==> e.MessageStop?)
  {
  }

  // Whatever way events are written as JSON, so long as each takes one line: the standard reads back
  // exactly those events, in order.
  lemma {:induction false} ResponsesRead(json: R.Event -> string, events: seq<R.Event>)
    requires forall e <- events :: OneLine(json(e))
    ensures Dispatches(Lines(RenderResponses(json, events)), "", "") == NamedResponses(json, events)
  {
    hide Dispatches, Lines, EventFrame, ResponsesEventName, OneLine;
    if events == [] {
      NothingRead();
    } else {
      var first, rest := events[0], events[1..];
      ResponsesRead(json, rest);
      ResponsesNamesPlain(first.body);
      FrameLines(ResponsesEventName(first.body), json(first), RenderResponses(json, rest));
      EventRead(ResponsesEventName(first.body), json(first), Lines(RenderResponses(json, rest)));
    }
  }

  lemma {:induction false} AnthropicRead(json: A.Event -> string, events: seq<A.Event>)
    requires forall e <- events :: OneLine(json(e))
    ensures Dispatches(Lines(RenderAnthropic(json, events)), "", "") == NamedAnthropic(json, events)
  {
    hide Dispatches, Lines, EventFrame, AnthropicEventName, OneLine;
    if events == [] {
      NothingRead();
    } else {
      var first, rest := events[0], events[1..];
      AnthropicRead(json, rest);
      AnthropicNames(first);
      FrameLines(AnthropicEventName(first), json(first), RenderAnthropic(json, rest));
      EventRead(AnthropicEventName(first), json(first), Lines(RenderAnthropic(json, rest)));
    }
  }

  lemma NothingRead()
    ensures Dispatches(Lines(""), "", "") == []
  {
  }
}
