/** Exactly what the reader makes of an input, line by line: a frame, or a break and its kind. */
module SseLines {
  import opened SseFrames

  // The lines of an input that end in a line feed, each without it.
  function Terminated(s: string): seq<string>
    decreases |s|
  {
    var k := NewlineAt(s);
    if k == |s| then [] else [s[..k]] + Terminated(s[k + 1..])
  }

  function Bytes(lines: seq<string>): string {
    if lines == [] then "" else lines[0] + "\n" + Bytes(lines[1..])
  }

  predicate Blank(line: string) {
    line == "" || line == "\r"
  }

  predicate CommentLine(line: string) {
    |line| >= 1 && line[0] == ':'
  }

  predicate DataLine(line: string) {
    |line| >= 5 && line[0] == 'd' && line[1] == 'a' && line[2] == 't' && line[3] == 'a' && line[4] == ':'
  }

  // What a data line carries: the rest, less a carriage return at its end and one space at its start.
  function Carries(line: string): string
    requires DataLine(line)
  {
    var rest := if line[|line| - 1] == '\r' then line[5..|line| - 1] else line[5..];
    if |rest| >= 1 && rest[0] == ' ' then rest[1..] else rest
  }

  function Carried(lines: seq<string>): seq<string> {
    if lines == [] then [] else (if DataLine(lines[0]) then [Carries(lines[0])] else []) + Carried(lines[1..])
  }

  // The values of a frame as one text, a line each.
  function Together(values: seq<string>): string {
    if values == [] then "" else if |values| == 1 then values[0] else values[0] + "\n" + Together(values[1..])
  }

  lemma {:induction false} JoinFirst(texts: seq<string>)
    requires |texts| > 1
    ensures Join(texts) == texts[0] + "\n" + Join(texts[1..])
  {
    var init, last := texts[..|texts| - 1], texts[|texts| - 1];
    if |texts| > 2 {
      JoinFirst(init);
      assert init[1..] == texts[1..][..|texts| - 2];
      assert (texts[0] + "\n" + Join(init[1..])) + "\n" + last == texts[0] + "\n" + (Join(init[1..]) + "\n" + last);
    } else {
      assert init == [texts[0]] && texts[1..] == [last];
    }
  }

  lemma {:induction false} JoinIs(values: seq<string>)
    ensures Join(values) == Together(values)
  {
    if |values| > 1 {
      JoinFirst(values);
      JoinIs(values[1..]);
    }
  }

  // Lines that belong to a frame that goes on.
  predicate Inside(lines: seq<string>) {
    forall line <- lines :: CommentLine(line) || DataLine(line)
  }

  // One line, as the reader takes it.
  lemma LineIs(line: string)
    ensures TrimCr(line) == "" <==> Blank(line)
    ensures CommentLine(line) ==> TrimCr(line) != "" && TrimCr(line)[0] == ':'
    ensures DataLine(line) ==> !CommentLine(line) && TrimCr(line) != "" && TrimCr(line)[0] != ':' && "data:" <= TrimCr(line)
    ensures DataLine(line) ==> "data:" <= TrimCr(line) && TrimSpace(TrimCr(line)[5..]) == Carries(line)
    ensures !Blank(line) && !CommentLine(line) && !DataLine(line) ==>
              TrimCr(line) != "" && TrimCr(line)[0] != ':' && !("data:" <= TrimCr(line))
  {
    var value := TrimCr(line);
    assert "data:" <= value <==> DataLine(value);
    assert DataLine(line) <==> DataLine(value);
    if DataLine(line) {
      assert value[5..] == if line[|line| - 1] == '\r' then line[5..|line| - 1] else line[5..];
    }
  }

  lemma FirstTerminated(input: string)
    requires Terminated(input) != []
    ensures var line := Terminated(input)[0];
            && NewlineAt(input) == |line| < |input| && input[..|line|] == line && input[..|line| + 1] == line + "\n"
            && Terminated(input)[1..] == Terminated(input[|line| + 1..])
  {
  }

  lemma GoesOn(input: string, head: string, rest: string, tail: string)
    requires input == head + rest && |tail| <= |rest| && rest[..|tail|] == tail
    ensures |head + tail| <= |input| && input[..|head + tail|] == head + tail && input[|head + tail|..] == rest[|tail|..]
  {
  }

  lemma InsideRest(all: seq<string>, n: nat)
    requires 0 < n <= |all| && Inside(all[..n])
    ensures Inside(all[1..][..n - 1]) && Inside([all[0]]) && all[..n] == [all[0]] + all[1..][..n - 1] && all[1..][n - 1..] == all[n..]
  {
    assert all[0] in all[..n];
    forall l <- all[1..][..n - 1]
      ensures l in all[..n]
    {
    }
  }

  lemma Joins<T>(a: seq<T>, b: seq<T>, c: seq<T>)
    ensures (a + b) + c == a + (b + c) && a + [] == a && [] + a == a
  {
  }

  // The reader from here on takes n lines that stay inside the frame.
  lemma {:induction false} TakesLines(raw: string, data: seq<string>, input: string, n: nat)
    requires n <= |Terminated(input)| && Inside(Terminated(input)[..n])
    ensures var lines := Terminated(input)[..n];
            && |Bytes(lines)| <= |input| && input[..|Bytes(lines)|] == Bytes(lines)
            && Terminated(input[|Bytes(lines)|..]) == Terminated(input)[n..]
            && ReadFrom(raw, data, input) == ReadFrom(raw + Bytes(lines), data + Carried(lines), input[|Bytes(lines)|..])
    decreases n
  {
    hide *;
    var all := Terminated(input);
    if n == 0 {
      assert all[..0] == [];
      NothingCarried();
      Joins(raw, [], []);
      Joins(data, [], []);
    } else {
      var line, tail := all[0], all[1..][..n - 1];
      FirstTerminated(input);
      InsideRest(all, n);
      var rest := input[|line| + 1..];
      InsideOne(line);
      TakesLine(raw, data, input);
      var own: seq<string> := if DataLine(line) then [Carries(line)] else [];
      TakesLines(raw + (line + "\n"), data + own, rest, n - 1);
      BytesFirst(line, tail);
      assert input == (line + "\n") + rest;
      GoesOn(input, line + "\n", rest, Bytes(tail));
      Joins(raw, line + "\n", Bytes(tail));
      Joins(data, own, Carried(tail));
    }
  }

  lemma NothingCarried()
    ensures Bytes([]) == "" && Carried([]) == []
  {
  }

  lemma InsideOne(line: string)
    requires Inside([line])
    ensures CommentLine(line) || DataLine(line)
  {
    assert line in [line];
  }

  lemma BytesFirst(line: string, tail: seq<string>)
    ensures Bytes([line] + tail) == (line + "\n") + Bytes(tail)
    ensures Carried([line] + tail) == (if DataLine(line) then [Carries(line)] else []) + Carried(tail)
  {
    assert ([line] + tail)[1..] == tail;
  }

  lemma TakesLine(raw: string, data: seq<string>, input: string)
    requires Terminated(input) != [] && (CommentLine(Terminated(input)[0]) || DataLine(Terminated(input)[0]))
    ensures var line := Terminated(input)[0];
            && |line| + 1 <= |input|
            && ReadFrom(raw, data, input)
               == ReadFrom(raw + (line + "\n"), data + (if DataLine(line) then [Carries(line)] else []), input[|line| + 1..])
  {
    var line := Terminated(input)[0];
    FirstTerminated(input);
    LineIs(line);
    hide TrimCr, TrimSpace, NewlineAt, CommentLine, DataLine, Carries;
    assert data + [] == data;
  }

  // A frame is the lines up to the first blank one, all comments and data; an input that runs out first, or
  // a line of any other kind, breaks it.
  lemma FrameExactly(input: string, n: nat)
    requires n <= |Terminated(input)| && Inside(Terminated(input)[..n])
    ensures var lines := Terminated(input);
            && (n == |lines| ==> ReadFrame(input) == Broken(input, Ended, ""))
            && (n < |lines| && !CommentLine(lines[n]) && !DataLine(lines[n]) ==>
                  && |Bytes(lines[..n + 1])| <= |input|
                  && ReadFrame(input)
                     == if Blank(lines[n])
                        then Frame(Bytes(lines[..n + 1]), Together(Carried(lines[..n])), Carried(lines[..n]) != [], input[|Bytes(lines[..n + 1])|..])
                        else Broken(Bytes(lines[..n + 1]), UnsupportedField, input[|Bytes(lines[..n + 1])|..]))
  {
    hide *;
    var lines := Terminated(input);
    var taken := lines[..n];
    TakesLines("", [], input, n);
    JoinIs(Carried(taken));
    var rest := input[|Bytes(taken)|..];
    Joins(Carried(taken), [], []);
    Joins(Bytes(taken), [], []);
    StartsEmpty(input);
    assert input == Bytes(taken) + rest;
    if n == |lines| {
      assert lines[n..] == [];
      RunsOut(Bytes(taken), Carried(taken), rest);
    } else if !CommentLine(lines[n]) && !DataLine(lines[n]) {
      assert lines[n..][0] == lines[n] && lines[..n + 1] == taken + [lines[n]];
      BytesSnoc(taken, lines[n]);
      Stops(Bytes(taken), Carried(taken), rest);
      GoesOn(input, Bytes(taken), rest, lines[n] + "\n");
    }
  }

  lemma StartsEmpty(input: string)
    ensures ReadFrame(input) == ReadFrom("", [], input)
  {
  }

  lemma RunsOut(raw: string, data: seq<string>, input: string)
    requires Terminated(input) == []
    ensures ReadFrom(raw, data, input) == Broken(raw + input, Ended, "")
  {
  }

  // A line that is neither a comment nor data.
  lemma Stops(raw: string, data: seq<string>, input: string)
    requires Terminated(input) != []
    requires !CommentLine(Terminated(input)[0]) && !DataLine(Terminated(input)[0])
    ensures var line := Terminated(input)[0];
            && |line| + 1 <= |input| && input[..|line| + 1] == line + "\n"
            && ReadFrom(raw, data, input)
               == if Blank(line) then Frame(raw + (line + "\n"), Join(data), data != [], input[|line| + 1..])
                  else Broken(raw + (line + "\n"), UnsupportedField, input[|line| + 1..])
  {
    FirstTerminated(input);
    LineIs(Terminated(input)[0]);
    hide TrimCr, TrimSpace, NewlineAt, CommentLine, DataLine, Join, Blank;
  }

  lemma {:induction false} BytesSnoc(lines: seq<string>, line: string)
    ensures Bytes(lines + [line]) == Bytes(lines) + (line + "\n")
  {
    if lines == [] {
      assert [] + [line] == [line] && [line][1..] == [];
    } else {
      BytesSnoc(lines[1..], line);
      assert (lines + [line])[1..] == lines[1..] + [line];
    }
  }
}
