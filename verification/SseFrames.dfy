/**
 Reading one server-sent-event frame, and its agreement with sections 9.2.5 and 9.2.6 of the
 WHATWG HTML standard on streams made of data and comment lines.
 */
module SseFrames {

  // --- The reader -------------------------------------------------------------------------

  // Ended: the input ran out before the frame did.
  datatype Fault = Ended | UnsupportedField

  datatype Reading =
    | Frame(raw: string, data: string, hasData: bool, rest: string)
    | Broken(raw: string, fault: Fault, rest: string)

  function NewlineAt(s: string): (k: nat)
    ensures k <= |s|
    ensures k < |s| ==> s[k] == '\n'
    ensures forall i | 0 <= i < k :: s[i] != '\n'
  {
    if s == "" then 0 else if s[0] == '\n' then 0 else 1 + NewlineAt(s[1..])
  }

  function TrimCr(s: string): string {
    if s != "" && s[|s| - 1] == '\r' then s[..|s| - 1] else s
  }

  function TrimSpace(s: string): string {
    if s != "" && s[0] == ' ' then s[1..] else s
  }

  function Join(parts: seq<string>): string {
    if parts == [] then "" else if |parts| == 1 then parts[0] else Join(parts[..|parts| - 1]) + "\n" + parts[|parts| - 1]
  }

  // Reading on from a point inside a frame, where `raw` and `data` were already collected.
  function ReadFrom(raw: string, data: seq<string>, input: string): Reading
    decreases |input|
  {
    var k := NewlineAt(input);
    if k == |input| then Broken(raw + input, Ended, "") else
    var value := TrimCr(input[..k]);
    var longer := raw + input[..k + 1];
    var rest := input[k + 1..];
    if value == "" then Frame(longer, Join(data), data != [], rest)
    else if value[0] == ':' then ReadFrom(longer, data, rest)
    else if "data:" <= value then ReadFrom(longer, data + [TrimSpace(value[5..])], rest)
    else Broken(longer, UnsupportedField, rest)
  }

  function ReadFrame(input: string): Reading {
    ReadFrom("", [], input)
  }

  class ByteReader {
    var unread: string

    constructor (input: string)
      ensures unread == input
    {
      unread := input;
    }

    // A line with its newline; ok is false when the input ends first.
    method ReadLine() returns (line: string, ok: bool)
      modifies this
      ensures line + unread == old(unread)
      ensures ok ==> line != "" && NewlineAt(old(unread)) == |line| - 1 < |old(unread)|
      ensures !ok ==> unread == "" && NewlineAt(old(unread)) == |old(unread)|
    {
      var k := NewlineAt(unread);
      ok := k < |unread|;
      var n := if ok then k + 1 else k;
      line, unread := unread[..n], unread[n..];
    }

    method ReadSSEFrame() returns (reading: Reading)
      modifies this
      ensures reading == ReadFrame(old(unread)) && unread == reading.rest
    {
      var raw := "";
      var data: seq<string> := [];
      while true
        invariant ReadFrom(raw, data, unread) == ReadFrame(old(unread))
        decreases |unread|
      {
        ghost var input := unread;
        var line, ok := ReadLine();
        raw := raw + line;
        if !ok {
          assert line == input;
          return Broken(raw, Ended, unread);
        }
        assert line == input[..|line|] && unread == input[|line|..];
        var value := TrimCr(line[..|line| - 1]);
        assert line[..|line| - 1] == input[..|line| - 1];
        if value == "" {
          return Frame(raw, Join(data), data != [], unread);
        }
        if value[0] == ':' {
          continue;
        }
        if "data:" <= value {
          data := data + [TrimSpace(value[5..])];
        } else {
          return Broken(raw, UnsupportedField, unread);
        }
      }
    }
  }

  // --- Whole streams ----------------------------------------------------------------------

  // The frames of an input up to the first reading that breaks.
  function Frames(input: string): seq<Reading>
    decreases |input|
  {
    var reading := ReadFrame(input);
    if reading.Broken? then [] else
    ReadShrinks("", [], input);
    [reading] + Frames(reading.rest)
  }

  lemma {:induction false} ReadShrinks(raw: string, data: seq<string>, input: string)
    ensures ReadFrom(raw, data, input).raw + ReadFrom(raw, data, input).rest == raw + input
    ensures |raw| <= |ReadFrom(raw, data, input).raw|
    ensures ReadFrom(raw, data, input).Frame? ==> |raw| < |ReadFrom(raw, data, input).raw|
    ensures ReadFrom(raw, data, input).Frame? ==> ReadFrom(raw, data, input).raw[|ReadFrom(raw, data, input).raw| - 1] == '\n'
    decreases |input|
  {
    hide NewlineAt, TrimCr, TrimSpace, Join;
    var k := NewlineAt(input);
    if k < |input| {
      var value := TrimCr(input[..k]);
      var longer := raw + input[..k + 1];
      assert longer + input[k + 1..] == raw + input;
      if value != "" && value[0] == ':' {
        ReadShrinks(longer, data, input[k + 1..]);
      } else if value != "" && "data:" <= value {
        ReadShrinks(longer, data + [TrimSpace(value[5..])], input[k + 1..]);
      }
    }
  }

  function Raw(frames: seq<Reading>): string {
    if frames == [] then "" else frames[0].raw + Raw(frames[1..])
  }

  function Data(frames: seq<Reading>): seq<string> {
    if frames == [] then [] else
    (if frames[0].Frame? && frames[0].hasData then [frames[0].data] else []) + Data(frames[1..])
  }

  function Remaining(input: string): string
    decreases |input|
  {
    var reading := ReadFrame(input);
    if reading.Broken? then input else
    ReadShrinks("", [], input);
    Remaining(reading.rest)
  }

  // The raw parts of the frames, put together, are the input that was consumed.
  lemma {:induction false} RawIsConsumed(input: string)
    ensures Raw(Frames(input)) + Remaining(input) == input
    decreases |input|
  {
    hide ReadFrom;
    var reading := ReadFrame(input);
    if reading.Frame? {
      ReadShrinks("", [], input);
      RawIsConsumed(reading.rest);
      var frames := Frames(input);
      assert frames == [reading] + Frames(reading.rest);
      hide Frames, ReadFrame;
      assert frames[1..] == Frames(reading.rest);
      assert reading.raw + (Raw(frames[1..]) + Remaining(input)) == (reading.raw + Raw(frames[1..])) + Remaining(input);
      assert "" + input == input;
    }
  }

  // --- The standard -----------------------------------------------------------------------

  // Section 9.2.5: a line ends at CRLF, LF or CR; what the stream leaves unterminated is dropped.
  function LineEnd(s: string): (k: nat)
    ensures k <= |s|
    ensures k < |s| ==> s[k] == '\n' || s[k] == '\r'
    ensures forall i | 0 <= i < k :: s[i] != '\n' && s[i] != '\r'
  {
    if s == "" then 0 else if s[0] == '\n' || s[0] == '\r' then 0 else 1 + LineEnd(s[1..])
  }

  function Lines(s: string): seq<string>
    decreases |s|
  {
    var k := LineEnd(s);
    if k == |s| then [] else
    var next := if s[k] == '\r' && k + 1 < |s| && s[k + 1] == '\n' then k + 2 else k + 1;
    [s[..k]] + Lines(s[next..])
  }

  function ColonAt(s: string): (k: nat)
    ensures k <= |s|
    ensures k < |s| ==> s[k] == ':'
    ensures forall i | 0 <= i < k :: s[i] != ':'
  {
    if s == "" then 0 else if s[0] == ':' then 0 else 1 + ColonAt(s[1..])
  }

  // Section 9.2.6: a data field extends the buffer, an empty line dispatches it if it is not
  // empty, every other field and every comment leaves it alone.
  function Interpret(lines: seq<string>, buffer: string): seq<string> {
    if lines == [] then [] else
    var line := lines[0];
    if line == "" then
      (if buffer == "" then [] else [if buffer[|buffer| - 1] == '\n' then buffer[..|buffer| - 1] else buffer])
      + Interpret(lines[1..], "")
    else if line[0] == ':' then Interpret(lines[1..], buffer)
    else
      var k := ColonAt(line);
      var field := line[..k];
      var after := if k < |line| then line[k + 1..] else "";
      // One space after the colon is left out.
      var value := if after != "" && after[0] == ' ' then after[1..] else after;
      Interpret(lines[1..], if field == "data" then buffer + value + "\n" else buffer)
  }

  // --- Agreement --------------------------------------------------------------------------

  // The code ends lines at LF alone; a CR that does not belong to a CRLF is the one thing on
  // which it and the standard can part.
  predicate NoBareCr(s: string) {
    forall i | 0 <= i < |s| && s[i] == '\r' :: i + 1 < |s| && s[i + 1] == '\n'
  }

  // What the standard's buffer holds when the code holds these data lines.
  function Buffer(data: seq<string>): string {
    if data == [] then "" else Join(data) + "\n"
  }

  lemma BufferGrows(data: seq<string>, part: string)
    ensures Buffer(data) + part + "\n" == Buffer(data + [part])
  {
    assert (data + [part])[..|data + [part]| - 1] == data;
  }

  lemma LineEndIs(input: string, k: nat)
    requires k == NewlineAt(input) < |input| && NoBareCr(input)
    ensures LineEnd(input) == k || (LineEnd(input) == k - 1 && input[k - 1] == '\r')
    ensures LineEnd(input) == k ==> k == 0 || input[k - 1] != '\r'
  {
    var j := LineEnd(input);
    if input[j] == '\r' {
      assert input[j + 1] == '\n';
    }
  }

  lemma NoBareCrSuffix(s: string, n: nat)
    requires NoBareCr(s) && n <= |s|
    ensures NoBareCr(s[n..])
  {
    var rest := s[n..];
    forall i | 0 <= i < |rest| && rest[i] == '\r' ensures i + 1 < |rest| && rest[i + 1] == '\n' {
      assert s[n + i] == '\r';
    }
  }

  // Trimming gives the line the standard sees.
  lemma TrimmedIs(input: string, k: nat, j: nat)
    requires k < |input| && (j == k || j == k - 1) && j >= 0
    requires if j == k then k == 0 || input[k - 1] != '\r' else input[j] == '\r'
    ensures TrimCr(input[..k]) == input[..j]
  {
    var line := input[..k];
    if j < k {
      assert line[..k - 1] == input[..j];
    }
  }

  lemma LineBreak(s: string, k: nat, j: nat)
    requires j == LineEnd(s) < |s|
    requires if j == k then s[j] != '\r' else j == k - 1 && s[j] == '\r' && k < |s| && s[k] == '\n'
    requires k < |s|
    ensures Lines(s) == [s[..j]] + Lines(s[k + 1..])
  {
    hide LineEnd;
  }

  lemma FirstLine(input: string, k: nat)
    requires k == NewlineAt(input) < |input| && NoBareCr(input)
    ensures Lines(input) == [TrimCr(input[..k])] + Lines(input[k + 1..])
    ensures NoBareCr(input[k + 1..])
  {
    LineEndIs(input, k);
    NoBareCrSuffix(input, k + 1);
    hide NoBareCr, LineEnd, NewlineAt, TrimSpace, TrimCr, Lines;
    TrimmedIs(input, k, LineEnd(input));
    LineBreak(input, k, LineEnd(input));
  }

  lemma DataField(value: string)
    requires "data:" <= value
    ensures value[0] != ':' && ColonAt(value) == 4 && value[..4] == "data" && value[5..] == value[4 + 1..]
  {
    assert value[..5] == "data:";
    assert value[0] == 'd' && value[1] == 'a' && value[2] == 't' && value[3] == 'a' && value[4] == ':';
  }

  // One line, as the standard takes it: an empty line, a comment, and a data field.
  lemma InterpretEmpty(data: seq<string>, lines: seq<string>)
    ensures Interpret([""] + lines, Buffer(data)) == (if data != [] then [Join(data)] else []) + Interpret(lines, "")
  {
    hide Join, ColonAt;
    var all := [""] + lines;
    assert all[0] == "" && all[1..] == lines;
    if data != [] {
      assert Buffer(data)[..|Buffer(data)| - 1] == Join(data);
    }
  }

  lemma InterpretComment(line: string, lines: seq<string>, buffer: string)
    requires line != "" && line[0] == ':'
    ensures Interpret([line] + lines, buffer) == Interpret(lines, buffer)
  {
    var all := [line] + lines;
    assert all[0] == line && all[1..] == lines;
  }

  lemma InterpretData(line: string, lines: seq<string>, data: seq<string>)
    requires "data:" <= line
    ensures Interpret([line] + lines, Buffer(data)) == Interpret(lines, Buffer(data + [TrimSpace(line[5..])]))
  {
    var all := [line] + lines;
    assert all[0] == line && all[1..] == lines;
    DataField(line);
    BufferGrows(data, TrimSpace(line[5..]));
    hide Buffer, ColonAt;
  }

  // Whatever the code reads as one frame, the standard dispatches as that frame's data.
  lemma {:induction false} ReadAgrees(raw: string, data: seq<string>, input: string)
    requires ReadFrom(raw, data, input).Frame? && NoBareCr(input)
    ensures var reading := ReadFrom(raw, data, input);
            && NoBareCr(reading.rest)
            && Interpret(Lines(input), Buffer(data))
               == (if reading.hasData then [reading.data] else []) + Interpret(Lines(reading.rest), "")
    decreases |input|
  {
    hide NewlineAt, TrimCr, TrimSpace, NoBareCr, LineEnd, Lines, Join, ColonAt, Buffer, Interpret;
    var k := NewlineAt(input);
    FirstLine(input, k);
    var value := TrimCr(input[..k]);
    var longer := raw + input[..k + 1];
    var rest := input[k + 1..];
    if value == "" {
      InterpretEmpty(data, Lines(rest));
    } else if value[0] == ':' {
      InterpretComment(value, Lines(rest), Buffer(data));
      ReadAgrees(longer, data, rest);
    } else {
      InterpretData(value, Lines(rest), data);
      ReadAgrees(longer, data + [TrimSpace(value[5..])], rest);
    }
  }

  // The input the frames of a stream consumed, read by the standard, dispatches exactly their data.
  lemma {:induction false} FramesAgree(input: string)
    requires NoBareCr(Raw(Frames(input)))
    ensures Interpret(Lines(Raw(Frames(input))), "") == Data(Frames(input))
    decreases |input|
  {
    var reading := ReadFrame(input);
    if reading.Frame? {
      ReadShrinks("", [], input);
      var frames := Frames(input);
      var later := Raw(frames[1..]);
      assert frames[1..] == Frames(reading.rest);
      NoBareCrSuffix(reading.raw + later, |reading.raw|);
      assert (reading.raw + later)[|reading.raw|..] == later;
      FramesAgree(reading.rest);
      ReadPrefix("", [], input, later);
      ReadAgrees("", [], reading.raw + later);
      assert frames[0] == reading;
    }
  }

  // A frame is decided by its raw part alone.
  lemma {:induction false} ReadPrefix(raw: string, data: seq<string>, input: string, later: string)
    requires ReadFrom(raw, data, input).Frame?
    ensures var reading := ReadFrom(raw, data, input);
            && |raw| <= |reading.raw| && raw == reading.raw[..|raw|]
            && ReadFrom(raw, data, reading.raw[|raw|..] + later) == Frame(reading.raw, reading.data, reading.hasData, later)
    decreases |input|
  {
    hide ReadFrom, Join;
    var reading := ReadFrom(raw, data, input);
    var k := NewlineAt(input);
    FrameHasLine(raw, data, input);
    var line, rest := input[..k + 1], input[k + 1..];
    assert input == line + rest;
    NewlineUnique(line, k);
    ReadStep(raw, data, line, rest);
    ReadShrinks(raw, data, input);
    var value := TrimCr(line[..|line| - 1]);
    if value == "" {
      assert reading.raw[|raw|..] == line;
      ReadStep(raw, data, line, later);
    } else {
      var more := if value[0] == ':' then data else data + [TrimSpace(value[5..])];
      ReadPrefix(raw + line, more, rest, later);
      var tail := reading.raw[|raw + line|..];
      assert reading.raw == raw + line + tail;
      assert reading.raw[|raw|..] == line + tail;
      assert (line + tail) + later == line + (tail + later);
      ReadStep(raw, data, line, tail + later);
    }
  }

  lemma FrameHasLine(raw: string, data: seq<string>, input: string)
    requires ReadFrom(raw, data, input).Frame?
    ensures NewlineAt(input) < |input|
  {
  }

  // The first line of an input decides how reading goes on.
  lemma ReadStep(raw: string, data: seq<string>, line: string, later: string)
    requires line != "" && NewlineAt(line) == |line| - 1
    ensures var value := TrimCr(line[..|line| - 1]);
            ReadFrom(raw, data, line + later)
            == if value == "" then Frame(raw + line, Join(data), data != [], later)
               else if value[0] == ':' then ReadFrom(raw + line, data, later)
               else if "data:" <= value then ReadFrom(raw + line, data + [TrimSpace(value[5..])], later)
               else Broken(raw + line, UnsupportedField, later)
  {
    var input := line + later;
    NewlineUnique(input, |line| - 1);
    assert input[..|line| - 1] == line[..|line| - 1];
    assert input[..|line|] == line && input[|line|..] == later;
  }

  lemma NewlineUnique(s: string, k: nat)
    requires k < |s| && s[k] == '\n' && forall i | 0 <= i < k :: s[i] != '\n'
    ensures NewlineAt(s) == k
  {
  }
}
