/**
 Carriage returns that end no CRLF. The reader keeps them inside a line, the standard ends a line at
 each; this is the one thing on which the two can part, and here is exactly when they do.
 */
module SseCarriageReturns {
  import opened SseFrames

  // --- Lines ------------------------------------------------------------------------------

  function ReturnAt(s: string): (k: nat)
    ensures k <= |s|
    ensures k < |s| ==> s[k] == '\r'
    ensures forall i | 0 <= i < k :: s[i] != '\r'
  {
    if s == "" then 0 else if s[0] == '\r' then 0 else 1 + ReturnAt(s[1..])
  }

  // The pieces of one of the reader's lines between its carriage returns.
  function Split(line: string): seq<string>
    decreases |line|
  {
    var k := ReturnAt(line);
    if k == |line| then [line] else [line[..k]] + Split(line[k + 1..])
  }

  // The reader's lines: ended by LF or CRLF alone.
  function CodeLines(s: string): seq<string>
    decreases |s|
  {
    var k := NewlineAt(s);
    if k == |s| then [] else [TrimCr(s[..k])] + CodeLines(s[k + 1..])
  }

  function AllSplit(lines: seq<string>): seq<string> {
    if lines == [] then [] else Split(lines[0]) + AllSplit(lines[1..])
  }

  lemma FirstEnd(s: string, k: nat)
    requires k < |s| && (s[k] == '\n' || s[k] == '\r') && forall i | 0 <= i < k :: s[i] != '\n' && s[i] != '\r'
    ensures LineEnd(s) == k
  {
  }

  lemma BareReturn(s: string, j: nat)
    requires j + 1 < |s| && LineEnd(s) == j && s[j] == '\r' && s[j + 1] != '\n'
    ensures Lines(s) == [s[..j]] + Lines(s[j + 1..])
  {
    hide LineEnd;
  }

  lemma Indices(text: string, ending: string, rest: string, k: nat)
    requires k <= |text|
    ensures var s := text + ending + rest;
            && (forall i | 0 <= i < k :: s[i] == text[i]) && s[..k] == text[..k]
            && s[k..] == text[k..] + ending + rest && s[|text| + |ending|..] == rest
            && (forall i | 0 <= i < |ending| :: s[|text| + i] == ending[i])
  {
  }

  lemma LastPiece(text: string, ending: string, rest: string)
    requires '\n' !in text && '\r' !in text && (ending == "\r\n" || ending == "\n")
    ensures Lines(text + ending + rest) == [text] + Lines(rest)
  {
    hide Lines, LineEnd;
    var s, k := text + ending + rest, |text|;
    Indices(text, ending, rest, k);
    assert text[..k] == text;
    FirstEnd(s, k);
    LineBreak(s, k + |ending| - 1, k);
  }

  lemma EarlierPiece(text: string, k: nat, ending: string, rest: string)
    requires k < |text| && text[k] == '\r' && '\n' !in text && forall i | 0 <= i < k :: text[i] != '\r'
    requires ending == "\r\n" || (ending == "\n" && text[|text| - 1] != '\r')
    ensures Lines(text + ending + rest) == [text[..k]] + Lines(text[k + 1..] + ending + rest)
  {
    hide Lines, LineEnd;
    var s := text + ending + rest;
    Indices(text, ending, rest, k + 1);
    Indices(text, ending, rest, k);
    Indices(text, ending, rest, |text|);
    FirstEnd(s, k);
    assert k + 1 < |text| ==> s[k + 1] == text[k + 1];
    BareReturn(s, k);
  }

  // A line's text with its ending, as the standard cuts it.
  lemma {:induction false} LinesOfLine(text: string, ending: string, rest: string)
    requires '\n' !in text
    requires ending == "\r\n" || (ending == "\n" && (text == "" || text[|text| - 1] != '\r'))
    ensures Lines(text + ending + rest) == Split(text) + Lines(rest)
    decreases |text|
  {
    hide Lines, LineEnd, ReturnAt;
    var k := ReturnAt(text);
    if k == |text| {
      LastPiece(text, ending, rest);
    } else {
      EarlierPiece(text, k, ending, rest);
      var later := text[k + 1..];
      LinesOfLine(later, ending, rest);
    }
  }

  // The standard's lines of a text that ends with a line are the reader's, cut at their returns.
  lemma {:induction false} LinesAreSplit(s: string)
    requires s == "" || s[|s| - 1] == '\n'
    ensures Lines(s) == AllSplit(CodeLines(s))
    decreases |s|
  {
    if s == "" {
      NoLines();
    } else {
      var k := NewlineAt(s);
      LinesAreSplit(s[k + 1..]);
      FirstLineSplit(s, k);
      var lines := CodeLines(s);
      assert lines[0] == TrimCr(s[..k]) && lines[1..] == CodeLines(s[k + 1..]);
    }
  }

  lemma FirstLineSplit(s: string, k: nat)
    requires k == NewlineAt(s) < |s|
    ensures Lines(s) == Split(TrimCr(s[..k])) + Lines(s[k + 1..])
  {
    hide Lines, LineEnd, Split, NewlineAt;
    var line, rest := s[..k], s[k + 1..];
    LineAndRest(s, k);
    if line != "" && line[k - 1] == '\r' {
      LinesOfLine(line[..k - 1], "\r\n", rest);
    } else {
      LinesOfLine(line, "\n", rest);
    }
  }

  lemma LineAndRest(s: string, k: nat)
    requires k < |s| && s[k] == '\n'
    ensures s[..k] + "\n" + s[k + 1..] == s
    ensures k > 0 && s[k - 1] == '\r' ==> s[..k][..k - 1] + "\r\n" + s[k + 1..] == s
  {
  }

  lemma NoLines()
    ensures Lines("") == []
  {
  }

  // --- What the reader makes of its lines -------------------------------------------------

  predicate Recognised(line: string) {
    line == "" || line[0] == ':' || "data:" <= line
  }

  predicate Comment(line: string) {
    line != "" && line[0] == ':'
  }

  function Value(line: string): string
    requires "data:" <= line
  {
    TrimSpace(line[5..])
  }

  // The data the reader gives for recognised lines, with these data lines collected before.
  function Dispatch(lines: seq<string>, data: seq<string>): seq<string>
    requires forall line <- lines :: Recognised(line)
  {
    if lines == [] then []
    else if lines[0] == "" then (if data != [] then [Join(data)] else []) + Dispatch(lines[1..], [])
    else if Comment(lines[0]) then Dispatch(lines[1..], data)
    else
      assert Recognised(lines[0]);
      Dispatch(lines[1..], data + [Value(lines[0])])
  }

  // The lines of the frame at the front of an input.
  function FrameLines(input: string): seq<string>
    decreases |input|
  {
    var k := NewlineAt(input);
    if k == |input| then [] else
    var value := TrimCr(input[..k]);
    if value == "" then [value] else [value] + FrameLines(input[k + 1..])
  }

  predicate Complete(lines: seq<string>) {
    (forall line <- lines :: Recognised(line)) && (lines == [] || lines[|lines| - 1] == "")
  }

  lemma CompleteCons(line: string, lines: seq<string>)
    requires Recognised(line) && Complete(lines) && lines != []
    ensures Complete([line] + lines)
  {
  }

  lemma CompleteConcat(a: seq<string>, b: seq<string>)
    requires Complete(a) && Complete(b)
    ensures Complete(a + b)
  {
    if b == [] {
      assert a + b == a;
    }
  }

  // One line of a frame, and the frame lines after it.
  lemma DispatchEnd(data: seq<string>)
    ensures Dispatch([""], data) == if data != [] then [Join(data)] else []
  {
    hide Join;
    assert [""][1..] == [];
  }

  lemma DispatchLine(line: string, lines: seq<string>, data: seq<string>)
    requires Recognised(line) && line != "" && Complete(lines) && lines != []
    ensures Complete([line] + lines)
    ensures Dispatch([line] + lines, data) == Dispatch(lines, if line[0] == ':' then data else data + [TrimSpace(line[5..])])
  {
    hide Join, TrimSpace;
    CompleteCons(line, lines);
    var all := [line] + lines;
    assert all[0] == line && all[1..] == lines;
  }

  // What the reader makes of the first line of an input it reads a frame from.
  lemma ReadLineStep(raw: string, data: seq<string>, input: string)
    requires ReadFrom(raw, data, input).Frame?
    ensures NewlineAt(input) < |input|
    ensures var k := NewlineAt(input);
            var value, longer, rest := TrimCr(input[..k]), raw + input[..k + 1], input[k + 1..];
            && Recognised(value)
            && FrameLines(input) == (if value == "" then [value] else [value] + FrameLines(rest))
            && CodeLines(input) == [value] + CodeLines(rest)
            && ReadFrom(raw, data, input)
               == (if value == "" then Frame(longer, Join(data), data != [], rest)
                   else ReadFrom(longer, if value[0] == ':' then data else data + [TrimSpace(value[5..])], rest))
  {
    hide NewlineAt, TrimCr, TrimSpace, Join;
  }

  lemma {:induction false} FrameTakesLines(raw: string, data: seq<string>, input: string)
    requires ReadFrom(raw, data, input).Frame?
    ensures var reading := ReadFrom(raw, data, input);
            && Complete(FrameLines(input)) && FrameLines(input) != []
            && CodeLines(input) == FrameLines(input) + CodeLines(reading.rest)
            && Dispatch(FrameLines(input), data) == if reading.hasData then [reading.data] else []
    decreases |input|
  {
    hide NewlineAt, TrimCr, TrimSpace, Join, Dispatch, Complete, ReadFrom, FrameLines, CodeLines;
    ReadLineStep(raw, data, input);
    var k := NewlineAt(input);
    var value, longer, rest := TrimCr(input[..k]), raw + input[..k + 1], input[k + 1..];
    if value == "" {
      DispatchEnd(data);
      CompleteEnd();
    } else {
      var more := if value[0] == ':' then data else data + [TrimSpace(value[5..])];
      FrameTakesLines(longer, more, rest);
      DispatchLine(value, FrameLines(rest), data);
      var reading := ReadFrom(longer, more, rest);
      assert [value] + (FrameLines(rest) + CodeLines(reading.rest)) == ([value] + FrameLines(rest)) + CodeLines(reading.rest);
    }
  }

  lemma CompleteEnd()
    ensures Complete([""])
  {
  }

  lemma {:induction false} DispatchConcat(a: seq<string>, b: seq<string>, data: seq<string>)
    requires Complete(a) && a != [] && Complete(b)
    ensures Complete(a + b) && Dispatch(a + b, data) == Dispatch(a, data) + Dispatch(b, [])
    decreases |a|
  {
    hide Join, TrimSpace;
    CompleteConcat(a, b);
    assert (a + b)[0] == a[0] && (a + b)[1..] == a[1..] + b;
    if |a| == 1 {
      assert a[1..] == [] && a[1..] + b == b;
    } else {
      assert Complete(a[1..]);
      assert Recognised(a[0]);
      var next := if a[0] == "" then [] else if Comment(a[0]) then data else data + [Value(a[0])];
      DispatchConcat(a[1..], b, next);
    }
  }

  // The frames of a stream are what the reader dispatches for the lines it consumed.
  lemma {:induction false} FramesDispatch(input: string)
    ensures var lines := CodeLines(Raw(Frames(input)));
            Complete(lines) && Dispatch(lines, []) == Data(Frames(input))
    decreases |input|
  {
    hide ReadFrom, Dispatch, FrameLines, Complete;
    var reading := ReadFrame(input);
    if reading.Frame? {
      ReadShrinks("", [], input);
      FramesDispatch(reading.rest);
      var frames := Frames(input);
      assert frames == [reading] + Frames(reading.rest);
      assert frames[1..] == Frames(reading.rest) && frames[0] == reading;
      var later := Raw(frames[1..]);
      ReadPrefix("", [], input, later);
      assert reading.raw[0..] == reading.raw;
      var whole := reading.raw + later;
      FrameTakesLines("", [], whole);
      DispatchConcat(FrameLines(whole), CodeLines(later), []);
    } else {
      NothingDispatched();
    }
  }

  lemma NothingDispatched()
    ensures CodeLines("") == [] && Complete([]) && Dispatch([], []) == []
  {
  }

  // --- The standard on the pieces ---------------------------------------------------------

  // A line the standard takes as a data field, and what it adds to the buffer.
  predicate DataField(line: string) {
    line != "" && line[0] != ':' && line[..ColonAt(line)] == "data"
  }

  function FieldValue(line: string): string {
    if ColonAt(line) < |line| then TrimSpace(line[ColonAt(line) + 1..]) else ""
  }

  // What an empty line dispatches.
  function Dispatched(buffer: string): seq<string> {
    if buffer == "" then [] else [if buffer[|buffer| - 1] == '\n' then buffer[..|buffer| - 1] else buffer]
  }

  lemma InterpretLine(line: string, lines: seq<string>, buffer: string)
    ensures Interpret([line] + lines, buffer)
         == if line == "" then
              Dispatched(buffer)
              + Interpret(lines, "")
            else if DataField(line) then Interpret(lines, buffer + FieldValue(line) + "\n")
            else Interpret(lines, buffer)
  {
    hide ColonAt;
    var all := [line] + lines;
    assert all[0] == line && all[1..] == lines;
  }

  // --- When the two agree -----------------------------------------------------------------

  // What the pieces of a comment after a return can hide from the reader.
  predicate HidesData(line: string) {
    exists piece <- Split(line) :: DataField(piece)
  }

  predicate HidesEnd(line: string) {
    "" in Split(line)
  }

  // No data line holds a return; no comment hides a data field; and a comment hides a frame's end only
  // before the frame's first data line or after its last. `pending`: the frame has data so far;
  // `cut`: a hidden end came after it.
  predicate Tolerated(lines: seq<string>, pending: bool, cut: bool) {
    if lines == [] then true
    else if lines[0] == "" then Tolerated(lines[1..], false, false)
    else if Comment(lines[0]) then
      !HidesData(lines[0]) && Tolerated(lines[1..], pending, cut || (pending && HidesEnd(lines[0])))
    else '\r' !in lines[0] && !cut && Tolerated(lines[1..], true, false)
  }

  // What the standard has dispatched after some lines, and what its buffer then holds.
  function After(lines: seq<string>, buffer: string): (seq<string>, string) {
    if lines == [] then ([], buffer)
    else if lines[0] == "" then
      var rest := After(lines[1..], "");
      (Dispatched(buffer) + rest.0, rest.1)
    else if DataField(lines[0]) then After(lines[1..], buffer + FieldValue(lines[0]) + "\n")
    else After(lines[1..], buffer)
  }

  lemma {:induction false} InterpretConcat(a: seq<string>, b: seq<string>, buffer: string)
    ensures Interpret(a + b, buffer) == After(a, buffer).0 + Interpret(b, After(a, buffer).1)
    decreases |a|
  {
    hide DataField, FieldValue, Interpret;
    if a == [] {
      assert a + b == b;
    } else {
      assert a + b == [a[0]] + (a[1..] + b);
      InterpretLine(a[0], a[1..] + b, buffer);
      InterpretConcat(a[1..], b, if a[0] == "" then "" else if DataField(a[0]) then buffer + FieldValue(a[0]) + "\n" else buffer);
    }
  }

  lemma {:induction false} PiecesClean(line: string)
    ensures forall piece <- Split(line) :: '\r' !in piece
    decreases |line|
  {
    var k := ReturnAt(line);
    if k < |line| {
      PiecesClean(line[k + 1..]);
    }
  }

  lemma CleanIsWhole(line: string)
    requires '\r' !in line
    ensures Split(line) == [line]
  {
  }

  lemma AllSplitCons(line: string, lines: seq<string>)
    ensures AllSplit([line] + lines) == Split(line) + AllSplit(lines)
  {
    assert ([line] + lines)[1..] == lines;
  }

  // A reader's data line is the same data field to the standard.
  lemma DataLine(line: string)
    requires "data:" <= line
    ensures DataField(line) && FieldValue(line) == Value(line) && !Comment(line) && line != ""
  {
    SseFrames.DataField(line);
  }

  // Pieces without a data field dispatch what is pending at the first empty one.
  lemma {:induction false} Inert(pieces: seq<string>, buffer: string)
    requires forall piece <- pieces :: !DataField(piece)
    ensures After(pieces, buffer)
         == if "" in pieces then (Dispatched(buffer), "")
            else ([], buffer)
  {
    hide DataField, FieldValue;
    if pieces != [] {
      assert pieces == [pieces[0]] + pieces[1..];
      Inert(pieces[1..], if pieces[0] == "" then "" else buffer);
      assert Dispatched(buffer) + [] == Dispatched(buffer);
    }
  }

  lemma AfterOne(line: string, buffer: string)
    ensures After([line], buffer)
         == if line == "" then (Dispatched(buffer), "")
            else if DataField(line) then ([], buffer + FieldValue(line) + "\n")
            else ([], buffer)
  {
    hide DataField, FieldValue;
    assert [line][1..] == [];
    assert Dispatched(buffer) + [] == Dispatched(buffer);
  }

  lemma BufferChops(data: seq<string>)
    ensures Buffer(data) == "" <==> data == []
    ensures data != [] ==> Buffer(data)[|Buffer(data)| - 1] == '\n' && Buffer(data)[..|Buffer(data)| - 1] == Join(data)
    ensures data != [] ==> |Buffer(data)| == |Join(data)| + 1
  {
    hide Join;
  }

  lemma CompleteRest(lines: seq<string>)
    requires Complete(lines) && lines != []
    ensures Recognised(lines[0]) && Complete(lines[1..]) && lines == [lines[0]] + lines[1..]
    ensures lines[0] != "" ==> lines[1..] != []
  {
  }

  // Tolerated lines: the standard dispatches what the reader does, at the latest where it does.
  lemma {:induction false} ToleratedAgree(lines: seq<string>, data: seq<string>, cut: bool)
    requires Complete(lines) && Tolerated(lines, data != [], cut) && (cut ==> data != []) && (lines == [] ==> data == [])
    ensures Dispatch(lines, data)
         == if cut then [Join(data)] + Interpret(AllSplit(lines), "") else Interpret(AllSplit(lines), Buffer(data))
    decreases |lines|
  {
    hide Interpret, Split, Join, DataField, FieldValue, HidesData, HidesEnd, Complete, TrimSpace, Buffer, Comment;
    if lines == [] {
      InterpretNothing(data);
    } else {
      var line, rest := lines[0], lines[1..];
      CompleteRest(lines);
      AllSplitCons(line, rest);
      BufferChops(data);
      var buffer := if cut then "" else Buffer(data);
      InterpretConcat(Split(line), AllSplit(rest), buffer);
      if line == "" {
        CleanIsWhole(line);
        AfterOne(line, buffer);
        BufferChops([]);
        ToleratedAgree(rest, [], false);
      } else if Comment(line) {
        InertComment(line, buffer);
        ToleratedAgree(rest, data, cut || (data != [] && HidesEnd(line)));
      } else {
        NotComment(line);
        CleanIsWhole(line);
        DataLine(line);
        AfterOne(line, buffer);
        BufferGrows(data, Value(line));
        ToleratedAgree(rest, data + [Value(line)], false);
      }
    }
  }

  lemma NotComment(line: string)
    requires Recognised(line) && line != "" && !Comment(line)
    ensures "data:" <= line
  {
  }

  lemma InterpretNothing(data: seq<string>)
    ensures Dispatch([], data) == [] && Interpret(AllSplit([]), "") == [] && Interpret(AllSplit([]), Buffer([])) == []
  {
  }

  lemma InertComment(line: string, buffer: string)
    requires !HidesData(line)
    ensures After(Split(line), buffer)
         == if HidesEnd(line) then (Dispatched(buffer), "")
            else ([], buffer)
  {
    hide Split, DataField, FieldValue, After;
    Inert(Split(line), buffer);
  }

  // --- When they part ---------------------------------------------------------------------

  predicate Returns(texts: seq<string>) {
    exists text <- texts :: '\r' in text
  }

  lemma {:induction false} InterpretClean(lines: seq<string>, buffer: string)
    requires !Returns(lines) && '\r' !in buffer
    ensures !Returns(Interpret(lines, buffer))
    decreases |lines|
  {
    hide Interpret, DataField, FieldValue;
    if lines == [] {
      NothingInterpreted(buffer);
    } else {
      var line, rest := lines[0], lines[1..];
      assert lines == [line] + rest;
      InterpretLine(line, rest, buffer);
      if line == "" {
        InterpretClean(rest, "");
      } else if DataField(line) {
        ValueClean(line);
        InterpretClean(rest, buffer + FieldValue(line) + "\n");
      } else {
        InterpretClean(rest, buffer);
      }
    }
  }

  lemma NothingInterpreted(buffer: string)
    ensures Interpret([], buffer) == []
  {
  }

  lemma ValueClean(line: string)
    requires '\r' !in line
    ensures '\r' !in FieldValue(line)
  {
    hide ColonAt;
  }

  lemma {:induction false} AllSplitClean(lines: seq<string>)
    ensures !Returns(AllSplit(lines))
  {
    hide Split;
    if lines != [] {
      PiecesClean(lines[0]);
      AllSplitClean(lines[1..]);
    }
  }

  lemma {:induction false} JoinReturns(data: seq<string>)
    ensures Returns(data) ==> '\r' in Join(data)
  {
    if |data| > 1 {
      var init := data[..|data| - 1];
      assert data == init + [data[|data| - 1]];
      JoinReturns(init);
    }
  }

  predicate DataReturns(lines: seq<string>) {
    exists line <- lines :: line != "" && !Comment(line) && '\r' in line
  }

  lemma ValueReturns(line: string)
    requires "data:" <= line && '\r' in line
    ensures '\r' in Value(line)
  {
    var k :| 0 <= k < |line| && line[k] == '\r';
    assert line[..5] == "data:";
    forall i | 0 <= i < 5
      ensures line[i] != '\r'
    {
      assert line[i] == line[..5][i];
    }
    assert line[5..][k - 5] == '\r';
    if line[5..][0] == ' ' {
      assert Value(line)[k - 6] == '\r';
    }
  }

  // A return in a data line reaches the reader's data.
  lemma {:induction false} DispatchReturns(lines: seq<string>, data: seq<string>)
    requires Complete(lines) && lines != [] && (Returns(data) || DataReturns(lines))
    ensures Returns(Dispatch(lines, data))
    decreases |lines|
  {
    hide Join, Complete, TrimSpace, Comment;
    var line, rest := lines[0], lines[1..];
    CompleteRest(lines);
    if line == "" {
      JoinReturns(data);
      if Returns(data) {
        assert Join(data) in Dispatch(lines, data);
      } else {
        assert rest != [];
        DispatchReturns(rest, []);
        assert forall text <- Dispatch(rest, []) :: text in Dispatch(lines, data);
      }
    } else if Comment(line) {
      DispatchReturns(rest, data);
    } else {
      NotComment(line);
      if '\r' in line {
        ValueReturns(line);
        assert Value(line) in data + [Value(line)];
      } else {
        assert forall text <- data :: text in data + [Value(line)];
      }
      DispatchReturns(rest, data + [Value(line)]);
    }
  }

  // Every text dispatched, with the line end that was taken off.
  function Weight(texts: seq<string>): nat {
    if texts == [] then 0 else |texts[0]| + 1 + Weight(texts[1..])
  }

  lemma {:induction false} WeightConcat(a: seq<string>, b: seq<string>)
    ensures Weight(a + b) == Weight(a) + Weight(b)
  {
    if a == [] {
      assert a + b == b;
    } else {
      WeightConcat(a[1..], b);
      assert (a + b)[1..] == a[1..] + b;
    }
  }

  // What the data fields among some lines add to the buffer.
  function Fields(lines: seq<string>): nat {
    if lines == [] then 0 else (if lines[0] != "" && DataField(lines[0]) then |FieldValue(lines[0])| + 1 else 0) + Fields(lines[1..])
  }

  lemma {:induction false} FieldsConcat(a: seq<string>, b: seq<string>)
    ensures Fields(a + b) == Fields(a) + Fields(b)
  {
    hide DataField, FieldValue;
    if a == [] {
      assert a + b == b;
    } else {
      FieldsConcat(a[1..], b);
      assert (a + b)[1..] == a[1..] + b;
    }
  }

  lemma {:induction false} FieldsHide(pieces: seq<string>)
    requires exists piece <- pieces :: DataField(piece)
    ensures Fields(pieces) > 0
  {
    hide FieldValue;
    assert pieces == [pieces[0]] + pieces[1..];
    if !DataField(pieces[0]) {
      hide DataField;
      FieldsHide(pieces[1..]);
    }
  }

  predicate Ended(buffer: string) {
    buffer == "" || buffer[|buffer| - 1] == '\n'
  }

  // Once a text ends with an empty line, everything collected was dispatched.
  lemma {:induction false} InterpretWeighs(lines: seq<string>, buffer: string)
    requires lines != [] && lines[|lines| - 1] == "" && Ended(buffer)
    ensures Weight(Interpret(lines, buffer)) == |buffer| + Fields(lines)
    decreases |lines|
  {
    hide Interpret, DataField, FieldValue;
    var line, rest := lines[0], lines[1..];
    assert lines == [line] + rest;
    InterpretLine(line, rest, buffer);
    if line == "" {
      var out := if buffer == "" then [] else [buffer[..|buffer| - 1]];
      WeightConcat(out, Interpret(rest, ""));
      assert out != [] ==> out[1..] == [];
      if rest == [] {
        NothingInterpreted("");
      } else {
        InterpretWeighs(rest, "");
      }
    } else {
      InterpretWeighs(rest, if DataField(line) then buffer + FieldValue(line) + "\n" else buffer);
    }
  }

  // The same of the reader.
  function Values(lines: seq<string>): nat
    requires forall line <- lines :: Recognised(line)
  {
    if lines == [] then 0
    else if lines[0] == "" || Comment(lines[0]) then Values(lines[1..])
    else
      assert Recognised(lines[0]);
      |Value(lines[0])| + 1 + Values(lines[1..])
  }

  lemma {:induction false} DispatchWeighs(lines: seq<string>, data: seq<string>)
    requires Complete(lines) && (lines == [] ==> data == [])
    ensures Weight(Dispatch(lines, data)) == |Buffer(data)| + Values(lines)
    decreases |lines|
  {
    hide Join, Buffer, TrimSpace, Comment;
    BufferChops(data);
    if lines != [] {
      var line, rest := lines[0], lines[1..];
      CompleteRest(lines);
      if line == "" {
        DispatchWeighs(rest, []);
        BufferChops([]);
        WeightConcat(if data != [] then [Join(data)] else [], Dispatch(rest, []));
      } else if Comment(line) {
        DispatchWeighs(rest, data);
      } else {
        NotComment(line);
        DispatchWeighs(rest, data + [Value(line)]);
        BufferGrows(data, Value(line));
      }
    }
  }

  predicate Hides(lines: seq<string>) {
    exists line <- lines :: Comment(line) && HidesData(line)
  }

  // The standard finds every data field of the reader, and those the comments hide.
  lemma {:induction false} MoreFields(lines: seq<string>)
    requires Complete(lines) && !DataReturns(lines)
    ensures Fields(AllSplit(lines)) >= Values(lines)
    ensures Hides(lines) ==> Fields(AllSplit(lines)) > Values(lines)
    decreases |lines|
  {
    hide Split, DataField, FieldValue, TrimSpace, Comment, HidesData, Complete;
    if lines != [] {
      var line, rest := lines[0], lines[1..];
      CompleteRest(lines);
      assert forall l <- rest :: l in lines;
      MoreFields(rest);
      AllSplitCons(line, rest);
      FieldsConcat(Split(line), AllSplit(rest));
      if line == "" || Comment(line) {
        if Comment(line) && HidesData(line) {
          HidesFields(line);
        }
        NothingHides(line);
      } else {
        NotComment(line);
        assert line in lines;
        CleanIsWhole(line);
        DataLine(line);
        FieldsOne(line);
      }
      ValuesStep(lines);
    }
  }

  lemma HidesFields(line: string)
    requires HidesData(line)
    ensures Fields(Split(line)) > 0
  {
    hide Split, DataField, FieldValue;
    FieldsHide(Split(line));
  }

  lemma NothingHides(line: string)
    ensures line == "" ==> !Comment(line)
  {
  }

  lemma FieldsOne(line: string)
    requires line != "" && DataField(line)
    ensures Fields([line]) == |FieldValue(line)| + 1
  {
    hide DataField, FieldValue;
    assert [line][1..] == [];
  }

  lemma ValuesStep(lines: seq<string>)
    requires Complete(lines) && lines != []
    ensures Complete(lines[1..]) && Recognised(lines[0])
    ensures lines[0] == "" || Comment(lines[0]) ==> Values(lines) == Values(lines[1..])
    ensures lines[0] != "" && !Comment(lines[0]) ==> "data:" <= lines[0] && Values(lines) == |Value(lines[0])| + 1 + Values(lines[1..])
  {
    CompleteRest(lines);
    hide TrimSpace;
  }

  // Without hidden data the standard dispatches at least as often, and more often where the frame's
  // data goes on after a hidden end.
  lemma {:induction false} MoreDispatches(lines: seq<string>, data: seq<string>, buffer: string, cut: bool)
    requires Complete(lines) && !DataReturns(lines) && !Hides(lines) && (lines == [] ==> data == [])
    requires cut ==> data != [] && buffer == ""
    requires !cut && data != [] ==> buffer != ""
    ensures |Interpret(AllSplit(lines), buffer)| + (if cut then 1 else 0)
            >= |Dispatch(lines, data)| + if Tolerated(lines, data != [], cut) then 0 else 1
    decreases |lines|
  {
    hide Interpret, Split, Join, DataField, FieldValue, HidesData, HidesEnd, Complete, TrimSpace, Comment;
    if lines != [] {
      var line, rest := lines[0], lines[1..];
      CompleteRest(lines);
      assert line in lines && forall l <- rest :: l in lines;
      AllSplitCons(line, rest);
      InterpretConcat(Split(line), AllSplit(rest), buffer);
      if line == "" {
        CleanIsWhole(line);
        AfterOne(line, buffer);
        MoreDispatches(rest, [], "", false);
      } else if Comment(line) {
        InertComment(line, buffer);
        var ends := HidesEnd(line);
        MoreDispatches(rest, data, if ends then "" else buffer, cut || (data != [] && ends));
      } else {
        NotComment(line);
        CleanIsWhole(line);
        DataLine(line);
        AfterOne(line, buffer);
        MoreDispatches(rest, data + [Value(line)], buffer + FieldValue(line) + "\n", false);
      }
    } else {
      InterpretNothing([]);
    }
  }

  lemma ToleratedNeeds(lines: seq<string>, data: seq<string>, cut: bool)
    requires Complete(lines) && Tolerated(lines, data != [], cut)
    ensures !DataReturns(lines) && !Hides(lines)
    decreases |lines|
  {
    hide Split, HidesData, HidesEnd, Complete, TrimSpace, Comment;
    if lines != [] {
      var line, rest := lines[0], lines[1..];
      CompleteRest(lines);
      NothingHides("");
      var pending := if line == "" then [] else if Comment(line) then data else [line];
      ToleratedNeeds(rest, pending, if line != "" && Comment(line) then cut || (data != [] && HidesEnd(line)) else false);
    }
  }

  // The standard dispatches the data of the frames if and only if their lines are tolerated.
  lemma FramesAgreeExactly(input: string)
    ensures Interpret(Lines(Raw(Frames(input))), "") == Data(Frames(input))
            <==> Tolerated(CodeLines(Raw(Frames(input))), false, false)
  {
    hide Frames, Raw, Data, Lines, Interpret, Dispatch, CodeLines, AllSplit, Tolerated, Complete;
    var raw := Raw(Frames(input));
    var lines := CodeLines(raw);
    RawEnds(input);
    LinesAreSplit(raw);
    FramesDispatch(input);
    LinesAgreeExactly(lines);
  }

  lemma LinesAgreeExactly(lines: seq<string>)
    requires Complete(lines)
    ensures Interpret(AllSplit(lines), "") == Dispatch(lines, []) <==> Tolerated(lines, false, false)
  {
    hide Lines, Interpret, Dispatch, AllSplit, Tolerated, Comment, HidesData;
    BufferChops([]);
    if Tolerated(lines, false, false) {
      ToleratedAgree(lines, [], false);
    } else if DataReturns(lines) {
      DispatchReturns(lines, []);
      AllSplitClean(lines);
      InterpretClean(AllSplit(lines), "");
    } else if Hides(lines) {
      MoreFields(lines);
      DispatchWeighs(lines, []);
      SplitEnds(lines);
      InterpretWeighs(AllSplit(lines), "");
    } else {
      MoreDispatches(lines, [], "", false);
    }
  }

  lemma {:induction false} SplitEnds(lines: seq<string>)
    requires lines != [] && lines[|lines| - 1] == ""
    ensures AllSplit(lines) != [] && AllSplit(lines)[|AllSplit(lines)| - 1] == ""
  {
    hide Split;
    if |lines| == 1 {
      CleanIsWhole("");
      assert lines[1..] == [] && AllSplit([]) == [];
    } else {
      SplitEnds(lines[1..]);
    }
  }

  lemma {:induction false} RawEnds(input: string)
    ensures var raw := Raw(Frames(input)); raw == "" || raw[|raw| - 1] == '\n'
    decreases |input|
  {
    hide ReadFrom;
    var reading := ReadFrame(input);
    if reading.Frame? {
      ReadShrinks("", [], input);
      RawEnds(reading.rest);
      var frames := Frames(input);
      assert frames[1..] == Frames(reading.rest) && frames[0] == reading;
    }
  }

  // --- Data lines alone -------------------------------------------------------------------

  predicate CommentsClean(lines: seq<string>) {
    forall line <- lines :: Comment(line) ==> '\r' !in line
  }

  lemma {:induction false} CleanTolerated(lines: seq<string>, pending: bool)
    requires Complete(lines) && CommentsClean(lines)
    ensures Tolerated(lines, pending, false) <==> !DataReturns(lines)
    decreases |lines|
  {
    hide Split, HidesData, HidesEnd, Complete, Comment;
    if lines != [] {
      var line, rest := lines[0], lines[1..];
      CompleteRest(lines);
      assert line in lines && forall l <- rest :: l in lines;
      if line == "" {
        NothingHides("");
        CleanTolerated(rest, false);
      } else if Comment(line) {
        CleanComment(line);
        CleanTolerated(rest, pending);
      } else {
        CleanTolerated(rest, true);
      }
    }
  }

  lemma CleanComment(line: string)
    requires Comment(line) && '\r' !in line
    ensures !HidesData(line) && !HidesEnd(line)
  {
    CleanIsWhole(line);
  }

  // On streams whose comments hold no carriage return, the two agree if and only if no data holds one.
  lemma CleanCommentsAgree(input: string)
    requires CommentsClean(CodeLines(Raw(Frames(input))))
    ensures Interpret(Lines(Raw(Frames(input))), "") == Data(Frames(input))
            <==> forall text <- Data(Frames(input)) :: '\r' !in text
  {
    hide Frames, Raw, Data, Lines, Interpret, Dispatch, CodeLines, AllSplit, Tolerated, CommentsClean, Complete, Comment;
    var raw := Raw(Frames(input));
    var lines := CodeLines(raw);
    FramesAgreeExactly(input);
    FramesDispatch(input);
    CleanTolerated(lines, false);
    if DataReturns(lines) {
      assert lines != [];
      DispatchReturns(lines, []);
    } else {
      RawEnds(input);
      LinesAreSplit(raw);
      AllSplitClean(lines);
      InterpretClean(AllSplit(lines), "");
    }
  }

  // --- Streams made of given lines --------------------------------------------------------

  // Lines as a server writes them, each ended by a line feed.
  function Written(lines: seq<string>): string {
    if lines == [] then "" else lines[0] + "\n" + Written(lines[1..])
  }

  predicate Plain(line: string) {
    '\n' !in line && (line != "" ==> line[|line| - 1] != '\r')
  }

  lemma WrittenLine(line: string, later: string)
    requires Plain(line)
    ensures var s := line + "\n" + later;
            NewlineAt(s) == |line| < |s| && TrimCr(s[..|line|]) == line && s[..|line| + 1] == line + "\n" && s[|line| + 1..] == later
  {
    var s := line + "\n" + later;
    NewlineUnique(s, |line|);
    assert s[..|line|] == line && s[|line| + 1..] == later && s[..|line| + 1] == line + "\n";
  }

  lemma {:induction false} WrittenLines(lines: seq<string>)
    requires forall line <- lines :: Plain(line)
    ensures CodeLines(Written(lines)) == lines
  {
    hide NewlineAt, TrimCr, Plain;
    if lines != [] {
      WrittenLine(lines[0], Written(lines[1..]));
      WrittenLines(lines[1..]);
      assert lines == [lines[0]] + lines[1..];
    }
  }

  lemma ReadWritten(raw: string, data: seq<string>, line: string, later: string)
    requires Plain(line) && Recognised(line)
    ensures ReadFrom(raw, data, line + "\n" + later)
         == if line == "" then Frame(raw + "\n", Join(data), data != [], later)
            else ReadFrom(raw + (line + "\n"), if line[0] == ':' then data else data + [TrimSpace(line[5..])], later)
  {
    hide ReadFrom, NewlineAt, TrimSpace, Join;
    WrittenLine(line, "");
    assert line + "\n" + "" == line + "\n" && (line + "\n")[..|line|] == line;
    ReadStep(raw, data, line + "\n", later);
    assert "" + "\n" == "\n";
  }

  // The first frame of written lines is theirs up to the first empty one.
  lemma {:induction false} FirstFrame(raw: string, data: seq<string>, lines: seq<string>) returns (m: nat)
    requires Complete(lines) && lines != [] && forall line <- lines :: Plain(line)
    ensures m <= |lines| && m > 0
    ensures var reading := ReadFrom(raw, data, Written(lines));
            reading.Frame? && reading.raw == raw + Written(lines[..m]) && reading.rest == Written(lines[m..])
    ensures Complete(lines[m..])
    decreases |lines|
  {
    hide ReadFrom, TrimSpace, Join, Plain, Complete;
    var line, later := lines[0], Written(lines[1..]);
    CompleteRest(lines);
    ReadWritten(raw, data, line, later);
    if line == "" {
      m := 1;
      WrittenPart(lines);
      assert "" + "\n" == "\n";
    } else {
      var k := FirstFrame(raw + (line + "\n"), if line[0] == ':' then data else data + [TrimSpace(line[5..])], lines[1..]);
      m := k + 1;
      WrittenPrefix(lines, k);
      assert (raw + (line + "\n")) + Written(lines[1..][..k]) == raw + (line + "\n" + Written(lines[1..][..k]));
    }
  }

  lemma WrittenPrefix(lines: seq<string>, k: nat)
    requires k < |lines|
    ensures Written(lines[..k + 1]) == lines[0] + "\n" + Written(lines[1..][..k])
    ensures lines[1..][k..] == lines[k + 1..]
  {
    assert lines[..k + 1][1..] == lines[1..][..k];
  }

  lemma WrittenPart(lines: seq<string>)
    requires lines != []
    ensures Written(lines[..1]) == lines[0] + "\n"
  {
    assert lines[..1][1..] == [];
    assert Written([]) == "";
  }

  lemma {:induction false} WrittenSplit(lines: seq<string>, m: nat)
    requires m <= |lines|
    ensures Written(lines) == Written(lines[..m]) + Written(lines[m..])
  {
    if m == 0 {
      assert lines[..0] == [] && lines[0..] == lines;
    } else {
      WrittenSplit(lines[1..], m - 1);
      assert lines[1..][m - 1..] == lines[m..] && lines[..m][1..] == lines[1..][..m - 1];
      assert lines[0] + "\n" + (Written(lines[1..][..m - 1]) + Written(lines[m..]))
          == (lines[0] + "\n" + Written(lines[1..][..m - 1])) + Written(lines[m..]);
    }
  }

  lemma NoFrames()
    ensures Frames("") == []
  {
  }

  lemma {:induction false} WrittenWhole(lines: seq<string>)
    requires Complete(lines) && forall line <- lines :: Plain(line)
    ensures Raw(Frames(Written(lines))) == Written(lines)
    decreases |lines|
  {
    hide ReadFrom, Plain, Complete;
    if lines == [] {
      NoFrames();
    } else {
      var m := FirstFrame("", [], lines);
      WrittenWhole(lines[m..]);
      WrittenSplit(lines, m);
      var frames := Frames(Written(lines));
      assert frames[1..] == Frames(Written(lines[m..])) && frames[0] == ReadFrame(Written(lines));
      assert "" + Written(lines[..m]) == Written(lines[..m]);
    }
  }

  // Whatever complete lines a server writes: the reader takes their data, the standard that of their
  // pieces, and the two agree exactly when the lines are tolerated.
  lemma WrittenAgree(lines: seq<string>)
    requires Complete(lines) && forall line <- lines :: Plain(line)
    ensures Data(Frames(Written(lines))) == Dispatch(lines, [])
    ensures Interpret(Lines(Raw(Frames(Written(lines)))), "") == Interpret(AllSplit(lines), "")
    ensures Interpret(Lines(Written(lines)), "") == Data(Frames(Written(lines))) <==> Tolerated(lines, false, false)
  {
    hide Frames, Raw, Data, Lines, Interpret, Dispatch, CodeLines, AllSplit, Tolerated, Written, Plain, Complete;
    WrittenWhole(lines);
    WrittenLines(lines);
    FramesDispatch(Written(lines));
    RawEnds(Written(lines));
    LinesAreSplit(Written(lines));
    FramesAgreeExactly(Written(lines));
  }

  // --- Streams on which they part ---------------------------------------------------------

  lemma ReturnIs(s: string, k: nat)
    requires k < |s| && s[k] == '\r' && forall i | 0 <= i < k :: s[i] != '\r'
    ensures ReturnAt(s) == k
  {
  }

  lemma SplitAt(s: string, k: nat)
    requires k < |s| && s[k] == '\r' && forall i | 0 <= i < k :: s[i] != '\r'
    ensures Split(s) == [s[..k]] + Split(s[k + 1..])
  {
    ReturnIs(s, k);
    hide ReturnAt;
  }

  // A data line for one character.
  function DataOf(c: char): string {
    "data: " + [c]
  }

  lemma DataOfReads(c: char)
    requires c != '\n' && c != '\r'
    ensures "data:" <= DataOf(c) && Value(DataOf(c)) == [c] && '\r' !in DataOf(c) && Plain(DataOf(c))
    ensures DataField(DataOf(c)) && FieldValue(DataOf(c)) == [c]
  {
    assert DataOf(c)[..5] == "data:" && DataOf(c)[5..] == " " + [c] && (" " + [c])[1..] == [c];
    DataLine(DataOf(c));
  }

  // A line that is neither empty nor a data field is passed over.
  lemma PassedOver(line: string, lines: seq<string>, buffer: string)
    requires line != "" && !DataField(line)
    ensures Interpret([line] + lines, buffer) == Interpret(lines, buffer)
  {
    InterpretLine(line, lines, buffer);
  }

  lemma FieldTaken(c: char, lines: seq<string>, buffer: string)
    requires c != '\n' && c != '\r'
    ensures Interpret([DataOf(c)] + lines, buffer) == Interpret(lines, buffer + [c] + "\n")
  {
    hide Interpret, DataOf, DataField, FieldValue;
    DataOfReads(c);
    InterpretLine(DataOf(c), lines, buffer);
  }

  lemma EndTaken(c: char, lines: seq<string>)
    ensures Interpret([""] + lines, "" + [c] + "\n") == [[c]] + Interpret(lines, "")
  {
    hide Interpret;
    InterpretLine("", lines, "" + [c] + "\n");
    assert ("" + [c] + "\n")[..1] == [c];
  }

  const BARE := "data: a\rb"

  lemma BareSplits()
    ensures Split(BARE) == [DataOf('a'), "b"] && Recognised(BARE) && Plain(BARE) && BARE != "" && !Comment(BARE)
    ensures "data:" <= BARE && Value(BARE) == "a\rb" && !DataField("b")
  {
    hide ReturnAt;
    assert BARE[..7] == DataOf('a') && BARE[8..] == "b";
    SplitAt(BARE, 7);
    CleanIsWhole("b");
    assert BARE[..5] == "data:" && BARE[5..] == " a\rb" && " a\rb"[1..] == "a\rb";
    assert ColonAt("b") == 1;
  }

  // A data line with a return: the reader gives it whole, the standard its first piece.
  lemma ReturnInDataParts()
    ensures var input := BARE + "\n" + "\n";
            Data(Frames(input)) == ["a\rb"] && Interpret(Lines(Raw(Frames(input))), "") == ["a"]
  {
    hide Frames, Raw, Lines, Data, Interpret, Split, DataField, FieldValue, Join, TrimSpace, DataOf, Plain;
    var lines := [BARE, ""];
    BareSplits();
    CleanIsWhole("");
    assert Plain("") by { PlainEnd(); }
    assert lines[1..] == [""] && [""][1..] == [];
    WrittenTwo(BARE);
    WrittenAgree(lines);
    assert [] + ["a\rb"] == ["a\rb"];
    JoinOne("a\rb");
    DispatchOne(BARE);
    assert AllSplit(lines) == [DataOf('a')] + (["b"] + ([""] + []));
    FieldTaken('a', ["b"] + ([""] + []), "");
    PassedOver("b", [""] + [], "" + ['a'] + "\n");
    EndTaken('a', []);
    NothingInterpreted("");
  }

  lemma PlainEnd()
    ensures Plain("")
  {
  }

  lemma JoinOne(text: string)
    ensures Join([text]) == text
  {
  }

  lemma WrittenTwo(line: string)
    ensures Written([line, ""]) == line + "\n" + "\n"
  {
    assert [line, ""][1..] == [""] && [""][1..] == [];
    assert Written([""]) == "" + "\n" + "";
  }

  lemma DispatchOne(line: string)
    requires "data:" <= line
    ensures Dispatch([line, ""], []) == [Value(line)]
  {
    hide TrimSpace, Join;
    assert [line, ""][1..] == [""] && [""][1..] == [];
    JoinOne(Value(line));
    assert [] + [Value(line)] == [Value(line)];
    DispatchEnd([Value(line)]);
  }

  const HIDING := ": x\rdata: y"

  lemma HidingText()
    ensures |HIDING| == 11 && HIDING[3] == '\r' && HIDING[..3] == ": x" && HIDING[4..] == "data: y" == DataOf('y')
    ensures Comment(HIDING) && Recognised(HIDING) && Plain(HIDING)
    ensures !DataField(": x") && ": x" != ""
  {
    hide ColonAt, TrimSpace;
  }

  lemma HidingSplits()
    ensures Split(HIDING) == [": x", DataOf('y')] && Comment(HIDING) && Recognised(HIDING) && Plain(HIDING)
    ensures !DataField(": x") && ": x" != ""
  {
    hide ReturnAt, Split, DataField, FieldValue, Value, Plain;
    HidingText();
    DataOfReads('y');
    SplitAt(HIDING, 3);
    CleanIsWhole(DataOf('y'));
  }

  // A data field behind a return in a comment: nothing to the reader, an event to the standard.
  lemma FieldInCommentParts()
    ensures var input := HIDING + "\n" + "\n";
            Data(Frames(input)) == [] && Interpret(Lines(Raw(Frames(input))), "") == ["y"]
  {
    hide Frames, Raw, Lines, Data, Interpret, Split, DataField, FieldValue, Join, TrimSpace, DataOf, Plain;
    var lines := [HIDING, ""];
    HidingSplits();
    CleanIsWhole("");
    PlainEnd();
    assert lines[1..] == [""] && [""][1..] == [];
    WrittenTwo(HIDING);
    WrittenAgree(lines);
    DispatchEnd([]);
    assert AllSplit(lines) == [": x"] + ([DataOf('y')] + ([""] + []));
    PassedOver(": x", [DataOf('y')] + ([""] + []), "");
    FieldTaken('y', [""] + [], "");
    EndTaken('y', []);
    NothingInterpreted("");
  }

  const CUTTING := ":\r\r:"

  lemma CuttingSplits()
    ensures Split(CUTTING) == [":", "", ":"] && Comment(CUTTING) && Recognised(CUTTING) && Plain(CUTTING) && !DataField(":")
  {
    hide ReturnAt;
    assert CUTTING[..1] == ":" && CUTTING[2..] == "\r:" && "\r:"[..0] == "" && "\r:"[1..] == ":";
    SplitAt(CUTTING, 1);
    SplitAt("\r:", 0);
    CleanIsWhole(":");
  }

  lemma CutLines()
    ensures var lines := [DataOf('a'), CUTTING, DataOf('b'), ""];
            && Complete(lines) && (forall line <- lines :: Plain(line))
            && AllSplit(lines) == [DataOf('a')] + ([":"] + ([""] + ([":"] + ([DataOf('b')] + ([""] + [])))))
            && Dispatch(lines, []) == ["a\nb"]
  {
    hide Split, DataField, FieldValue, Join, TrimSpace, DataOf, Plain, Dispatch, AllSplit, Complete;
    var a, b := DataOf('a'), DataOf('b');
    var lines := [a, CUTTING, b, ""];
    DataOfReads('a');
    DataOfReads('b');
    CuttingSplits();
    PlainEnd();
    CleanIsWhole(a);
    CleanIsWhole(b);
    CleanIsWhole("");
    assert [a] + [CUTTING, b, ""] == lines && [CUTTING] + [b, ""] == [CUTTING, b, ""] && [b] + [""] == [b, ""] && [""] + [] == [""];
    AllSplitCons(a, [CUTTING, b, ""]);
    AllSplitCons(CUTTING, [b, ""]);
    AllSplitCons(b, [""]);
    AllSplitCons("", []);
    NothingSplit();
    var last := [b] + ([""] + []);
    assert [":", "", ":"] + last == [":"] + ([""] + ([":"] + last));
    CompleteEnd();
    DispatchLine(b, [""], ["a"]);
    DispatchLine(CUTTING, [b, ""], ["a"]);
    DispatchLine(a, [CUTTING, b, ""], []);
    assert [] + ["a"] == ["a"] && ["a"] + ["b"] == ["a", "b"];
    DispatchEnd(["a", "b"]);
    JoinTwo();
  }

  lemma NothingSplit()
    ensures AllSplit([]) == []
  {
  }

  lemma JoinTwo()
    ensures Join(["a", "b"]) == "a\nb"
  {
    assert ["a", "b"][..1] == ["a"];
    JoinOne("a");
    assert "a" + "\n" + "b" == "a\nb";
  }

  // An empty line behind a return in a comment between two data lines: one event to the reader, two to
  // the standard.
  lemma EndInCommentParts()
    ensures var input := Written([DataOf('a'), CUTTING, DataOf('b'), ""]);
            Data(Frames(input)) == ["a\nb"] && Interpret(Lines(Raw(Frames(input))), "") == ["a", "b"]
  {
    hide Frames, Raw, Lines, Data, Interpret, Split, DataField, FieldValue, Join, TrimSpace, DataOf, Plain, Written, AllSplit, Dispatch, Complete;
    var lines := [DataOf('a'), CUTTING, DataOf('b'), ""];
    CutLines();
    CuttingSplits();
    WrittenAgree(lines);
    var last := [DataOf('b')] + ([""] + []);
    FieldTaken('a', [":"] + ([""] + ([":"] + last)), "");
    PassedOver(":", [""] + ([":"] + last), "" + ['a'] + "\n");
    EndTaken('a', [":"] + last);
    PassedOver(":", last, "");
    FieldTaken('b', [""] + [], "");
    EndTaken('b', []);
    NothingInterpreted("");
  }
}
