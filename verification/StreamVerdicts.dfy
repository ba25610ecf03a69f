/**
 Exactly how a streaming attempt ends, said of the frames its upstream sent: how many of them were taken,
 and what the first one that was not taken, or the break behind them, makes of the attempt.
 */
module StreamVerdicts {
  import opened Wrappers
  import opened StreamChunks
  import opened RawStreams
  import opened Attempts
  import opened Ledger
  import opened SseFrames
  import opened StreamRelay
  import opened StreamOutcome

  // --- Frames that are taken --------------------------------------------------------------

  // How many writes these chunks call for: one each without an encoder, else one for each that yields
  // events.
  function Writes(protocol: Protocol, chunks: seq<Chunk>): nat {
    if chunks == [] then 0 else
    var front := chunks[..|chunks| - 1];
    Writes(protocol, front)
    + if protocol.ChatCompletions? || Rendering(protocol, chunks) != Rendering(protocol, front) then 1 else 0
  }

  predicate AllTaken(writer: nat -> WriteOutcome, writes: nat) {
    forall k: nat | k < writes :: writer(k).Taken?
  }

  // The chunks are allowed, the encoder accepts them, and every write they call for gets through.
  predicate Accepted(c: Setting, chunks: seq<Chunk>) {
    && AllAllowed(chunks)
    && (c.protocol.ChatCompletions? || Rendering(c.protocol, chunks).Some?)
    && AllTaken(c.writer, Writes(c.protocol, chunks))
  }

  // These frames are within the limit, none of them is the last one, all parse, and all are taken.
  predicate Passed(c: Setting, frames: seq<Reading>) {
    && |Raw(frames)| <= c.maxResponseBytes
    && (forall frame <- frames :: frame.Frame? && !(frame.hasData && frame.data == "[DONE]"))
    && Parsed(c.parse, frames).Some? && Accepted(c, Parsed(c.parse, frames).value)
  }

  // Where a relay stands that has taken these chunks.
  function StandsAt(c: Setting, chunks: seq<Chunk>): RelayState
    requires AllAllowed(chunks)
  {
    AcceptsExactly(c.world.providerId, chunks);
    var writes := Writes(c.protocol, chunks);
    RelayState(ConsumeAll(c.world.providerId, chunks).value, chunks, writes > 0, writes)
  }

  // --- One frame more ---------------------------------------------------------------------

  lemma ChunkTurn(c: Setting, chunks: seq<Chunk>, data: string)
    requires Accepted(c, chunks)
    ensures var turn := DataTurn(c.parse, c.protocol, c.writer, StandsAt(c, chunks), data);
            match c.parse(data)
            case None => turn == Ends(Close(Failed, INVALID, Writes(c.protocol, chunks) > 0))
            case Some(chunk) =>
              var longer := chunks + [chunk];
              if Accepted(c, longer) then turn == GoOn(StandsAt(c, longer))
              else if AllAllowed(longer) && (c.protocol.ChatCompletions? || Rendering(c.protocol, longer).Some?)
              then turn == Ends(Close(Cancelled, CLIENT_CANCELLED, true))
              else turn == Ends(Close(Failed, INVALID, Writes(c.protocol, chunks) > 0))
  {
    hide Consumed, Rendering, AllAllowed;
    var s := StandsAt(c, chunks);
    if c.parse(data).Some? {
      var chunk := c.parse(data).value;
      var longer := chunks + [chunk];
      assert longer[..|longer| - 1] == chunks;
      AcceptsExactly(c.world.providerId, chunks);
      AcceptsExactly(c.world.providerId, longer);
      assert ConsumeAll(c.world.providerId, longer) == Consumed(s.state, chunk);
      WritesStep(c, chunks, chunk);
    }
  }

  lemma WritesStep(c: Setting, chunks: seq<Chunk>, chunk: Chunk)
    ensures var longer := chunks + [chunk];
            var speaks := c.protocol.ChatCompletions? || Rendering(c.protocol, longer) != Rendering(c.protocol, chunks);
            && Writes(c.protocol, longer) == Writes(c.protocol, chunks) + (if speaks then 1 else 0)
            && (AllTaken(c.writer, Writes(c.protocol, chunks)) ==>
                  (AllTaken(c.writer, Writes(c.protocol, longer))
                   <==> !speaks || c.writer(Writes(c.protocol, chunks)).Taken?))
  {
    hide Rendering;
    assert (chunks + [chunk])[..|chunks|] == chunks;
  }

  // --- Frames along an input --------------------------------------------------------------

  // What is unread once the first n frames were.
  function Unread(input: string, n: nat): string
    requires n <= |Frames(input)|
  {
    if n == 0 then input else Frames(input)[n - 1].rest
  }

  lemma {:induction false} UnreadFrames(input: string, n: nat)
    requires n <= |Frames(input)|
    ensures Frames(input)[n..] == Frames(Unread(input, n))
    ensures n < |Frames(input)| ==> ReadFrame(Unread(input, n)) == Frames(input)[n]
    ensures n == |Frames(input)| ==> ReadFrame(Unread(input, n)).Broken?
    decreases n
  {
    hide ReadFrame;
    if n == 0 {
      FirstFrame(input);
    } else {
      UnreadFrames(input, n - 1);
      var rest := Unread(input, n - 1);
      FirstFrame(rest);
      assert Frames(input)[n - 1..][1..] == Frames(input)[n..];
      assert Unread(input, n) == ReadFrame(rest).rest;
      FirstFrame(Unread(input, n));
    }
  }

  lemma FirstFrame(input: string)
    ensures if ReadFrame(input).Broken? then Frames(input) == []
            else |Frames(input)| > 0 && Frames(input)[0] == ReadFrame(input) && Frames(input)[1..] == Frames(ReadFrame(input).rest)
  {
    if ReadFrame(input).Frame? {
      ReadShrinks("", [], input);
    }
  }

  lemma RawSnoc(frames: seq<Reading>, frame: Reading)
    ensures Raw(frames + [frame]) == Raw(frames) + frame.raw
  {
    RawConcat(frames, [frame]);
    RawOne(frame);
  }

  lemma ParsedSnoc(parse: string -> Option<Chunk>, frames: seq<Reading>, frame: Reading)
    requires frame.Frame?
    ensures Parsed(parse, frames + [frame])
            == if Parsed(parse, frames).None? || !frame.hasData || frame.data == "[DONE]" then Parsed(parse, frames)
               else if parse(frame.data).None? then None
               else Some(Parsed(parse, frames).value + [parse(frame.data).value])
  {
    assert (frames + [frame])[..|frames + [frame]| - 1] == frames;
  }

  // The chunks of frames are what their data parse to, one by one.
  lemma {:induction false} ParsedData(parse: string -> Option<Chunk>, frames: seq<Reading>)
    requires forall frame <- frames :: frame.Frame? && !(frame.hasData && frame.data == "[DONE]")
    ensures Parsed(parse, frames).Some? <==> forall text <- Data(frames) :: parse(text).Some?
    ensures Parsed(parse, frames).Some? ==>
              && |Parsed(parse, frames).value| == |Data(frames)|
              && forall k | 0 <= k < |Data(frames)| :: parse(Data(frames)[k]) == Some(Parsed(parse, frames).value[k])
  {
    if frames != [] {
      var front, last := frames[..|frames| - 1], frames[|frames| - 1];
      assert last in frames && frames == front + [last] && forall frame <- front :: frame in frames;
      ParsedData(parse, front);
      ParsedSnoc(parse, front, last);
      DataSnoc(front, last);
      hide Parsed, Data;
      if last.hasData {
        assert Data(frames)[|Data(front)|] == last.data;
        assert forall text <- Data(frames) :: text in Data(front) || text == last.data;
        assert forall text <- Data(front) :: text in Data(frames);
      }
    }
  }

  lemma {:induction false} DataSnoc(frames: seq<Reading>, frame: Reading)
    ensures Data(frames + [frame]) == Data(frames) + if frame.Frame? && frame.hasData then [frame.data] else []
  {
    if frames == [] {
      assert frames + [frame] == [frame] && [frame][1..] == [];
    } else {
      DataSnoc(frames[1..], frame);
      assert (frames + [frame])[1..] == frames[1..] + [frame];
    }
  }

  // Frames that are taken follow frames that are taken.
  lemma TakenBefore(c: Setting, chunks: seq<Chunk>, chunk: Chunk)
    requires Accepted(c, chunks + [chunk])
    ensures Accepted(c, chunks)
  {
    hide Allowed, R.Encode, A.Encode;
    var longer := chunks + [chunk];
    assert longer[..|longer| - 1] == chunks;
    AllowedSnoc(longer);
    hide AllAllowed;
    WritesStep(c, chunks, chunk);
    hide Writes;
    assert Writes(c.protocol, chunks) <= Writes(c.protocol, longer);
  }

  lemma PassedBefore(c: Setting, frames: seq<Reading>, frame: Reading)
    requires Passed(c, frames + [frame])
    ensures Passed(c, frames)
    ensures frame.Frame? && !(frame.hasData && frame.data == "[DONE]") && |Raw(frames)| + |frame.raw| <= c.maxResponseBytes
  {
    hide Accepted, Parsed, Raw;
    RawSnoc(frames, frame);
    assert frame in frames + [frame];
    ParsedSnoc(c.parse, frames, frame);
    assert forall f <- frames :: f in frames + [frame];
    if frame.hasData {
      assert Parsed(c.parse, frames).Some? && c.parse(frame.data).Some?;
      TakenBefore(c, Parsed(c.parse, frames).value, c.parse(frame.data).value);
    }
  }

  // Whether one more frame is taken.
  lemma PassedStep(c: Setting, frames: seq<Reading>, frame: Reading)
    requires Passed(c, frames) && frame.Frame?
    ensures Passed(c, frames + [frame])
            <==> && |Raw(frames)| + |frame.raw| <= c.maxResponseBytes
                 && (frame.hasData ==>
                       && frame.data != "[DONE]" && c.parse(frame.data).Some?
                       && Accepted(c, Parsed(c.parse, frames).value + [c.parse(frame.data).value]))
    ensures Parsed(c.parse, frames + [frame]).Some? && !frame.hasData ==>
              Parsed(c.parse, frames + [frame]) == Parsed(c.parse, frames)
  {
    hide Accepted, Parsed, Raw;
    RawSnoc(frames, frame);
    ParsedSnoc(c.parse, frames, frame);
    var longer := frames + [frame];
    assert frame in longer;
    assert forall f <- longer :: f in frames || f == frame;
    assert forall f <- frames :: f in longer;
  }

  // The loop that has taken these frames goes on where they end.
  lemma {:induction false} Unrolled(c: Setting, input: string, n: nat)
    requires n <= |Frames(input)| && Passed(c, Frames(input)[..n])
    ensures RelayEnd(c, input, 0, StandsAt(c, []))
            == RelayEnd(c, Unread(input, n), |Raw(Frames(input)[..n])|, StandsAt(c, Parsed(c.parse, Frames(input)[..n]).value))
    decreases n
  {
    hide Accepted, Parsed, Raw, Frames, DataTurn, StandsAt, RelayEnd, ReadFrame, Passed;
    var all := Frames(input);
    if n == 0 {
      NothingTaken(c, all);
    } else {
      var front, frame := all[..n - 1], all[n - 1];
      assert all[..n] == front + [frame];
      PassedBefore(c, front, frame);
      Unrolled(c, input, n - 1);
      UnreadFrames(input, n - 1);
      PassedTurn(c, Unread(input, n - 1), front, frame);
    }
  }

  lemma NothingTaken(c: Setting, frames: seq<Reading>)
    ensures frames[..0] == [] && Raw(frames[..0]) == "" && Parsed(c.parse, frames[..0]) == Some([])
    ensures AllAllowed([])
  {
  }

  lemma PassedTurn(c: Setting, unread: string, frames: seq<Reading>, frame: Reading)
    requires Passed(c, frames) && ReadFrame(unread) == frame && Passed(c, frames + [frame])
    ensures RelayEnd(c, unread, |Raw(frames)|, StandsAt(c, Parsed(c.parse, frames).value))
            == RelayEnd(c, frame.rest, |Raw(frames + [frame])|, StandsAt(c, Parsed(c.parse, frames + [frame]).value))
  {
    hide Accepted, Parsed, Raw, DataTurn, StandsAt, ReadFrame, BrokenOutcome;
    PassedBefore(c, frames, frame);
    PassedStep(c, frames, frame);
    ParsedSnoc(c.parse, frames, frame);
    RawSnoc(frames, frame);
    ReadMoves(unread);
    var chunks := Parsed(c.parse, frames).value;
    if frame.hasData {
      ChunkTurn(c, chunks, frame.data);
    }
  }

  // --- How an attempt ends ----------------------------------------------------------------

  // What the limited reader lets an attempt see.
  function Seen(c: Setting): string
    requires c.world.upstream.Streaming?
  {
    var bytes := c.world.upstream.bytes;
    if |bytes| <= c.maxResponseBytes + 1 then bytes else bytes[..c.maxResponseBytes + 1]
  }

  // The most frames from the start that are taken, and no more.
  predicate TakesJust(c: Setting, n: nat)
    requires c.world.upstream.Streaming?
  {
    var all := Frames(Seen(c));
    n <= |all| && Passed(c, all[..n]) && (n < |all| ==> !Passed(c, all[..n + 1]))
  }

  // An end that is no success.
  predicate FailsWith(end: Close, outcome: Outcome, class_: string, status: int, retryable: bool, committed: bool) {
    end == Close(outcome, AttemptResult(false, retryable, class_, status, "", TokenUsage(None, None, None, None), None), committed)
  }

  // The input broke behind the last frame: over the limit, cancelled, out of time, malformed, or cut off.
  predicate BreaksAs(c: Setting, end: Close, broken: Reading, read: nat, committed: bool)
    requires c.world.upstream.Streaming? && broken.Broken?
  {
    if read > c.maxResponseBytes then FailsWith(end, Failed, "upstream_response_too_large", 502, false, committed)
    else if c.world.parentCancelled then FailsWith(end, Cancelled, "client_cancelled", 499, false, committed)
    else if c.world.deadlineExceeded then FailsWith(end, Failed, "upstream_timeout", 504, !committed, committed)
    else if broken.fault == UnsupportedField || (c.world.upstream.ending == ReadFault && |c.world.upstream.bytes| <= c.maxResponseBytes) then
      FailsWith(end, Failed, "invalid_upstream_response", 502, false, committed)
    else FailsWith(end, Failed, "upstream_transport", 502, !committed, committed)
  }

  // A whole translation exists, or none is needed.
  predicate Finishes(c: Setting, chunks: seq<Chunk>) {
    c.protocol.ChatCompletions? || FullRendering(c.protocol, chunks, Reported(chunks)).Some?
  }

  // The frame that ends the stream: a success needs a choice, a finish reason, a whole translation and one
  // more write.
  predicate ConcludesAs(c: Setting, end: Close, chunks: seq<Chunk>, writes: nat) {
    if !ChoiceOffered(chunks) || !ReasonStated(chunks) || !Finishes(c, chunks) then
      FailsWith(end, Failed, "invalid_upstream_response", 502, false, writes > 0)
    else if c.writer(writes).Torn? then FailsWith(end, Cancelled, "client_cancelled", 499, false, true)
    else end == Close(Succeeded, AttemptResult(true, false, "", 0, "", Reported(chunks), None), true)
  }

  // A data frame that is not taken: its chunk is refused, or its write does not get through.
  predicate RefusesAs(c: Setting, end: Close, chunks: seq<Chunk>, data: string, writes: nat) {
    if && c.parse(data).Some? && AllAllowed(chunks + [c.parse(data).value])
       && (c.protocol.ChatCompletions? || Rendering(c.protocol, chunks + [c.parse(data).value]).Some?)
    then FailsWith(end, Cancelled, "client_cancelled", 499, false, true)
    else FailsWith(end, Failed, "invalid_upstream_response", 502, false, writes > 0)
  }

  // How an attempt ends that takes just n frames.
  ghost predicate EndsAs(c: Setting, n: nat, end: Close)
    requires c.world.upstream.Streaming? && TakesJust(c, n)
  {
    var all := Frames(Seen(c));
    var chunks := Parsed(c.parse, all[..n]).value;
    var writes := Writes(c.protocol, chunks);
    if n == |all| then
      var broken := ReadFrame(Unread(Seen(c), n));
      broken.Broken? && BreaksAs(c, end, broken, |Raw(all)| + |broken.raw|, writes > 0)
    else if |Raw(all[..n])| + |all[n].raw| > c.maxResponseBytes then
      FailsWith(end, Failed, "upstream_response_too_large", 502, false, writes > 0)
    else
      && all[n].Frame? && all[n].hasData
      && if all[n].data == "[DONE]" then ConcludesAs(c, end, chunks, writes) else RefusesAs(c, end, chunks, all[n].data, writes)
  }

  lemma StartStands(c: Setting)
    ensures AllAllowed([]) && RelayStart(c.world) == StandsAt(c, [])
  {
  }

  lemma SeenIs(c: Setting)
    requires c.world.upstream.Streaming?
    ensures Seen(c) == Readable(c.world, c.maxResponseBytes)
  {
  }

  lemma BreaksExactly(c: Setting, input: string, total: nat, s: RelayState)
    requires c.world.upstream.Streaming? && ReadFrame(input).Broken?
    ensures BreaksAs(c, RelayEnd(c, input, total, s), ReadFrame(input), total + |ReadFrame(input).raw|, s.committed)
  {
    hide ReadFrame;
  }

  lemma ConcludesExactly(c: Setting, input: string, total: nat, chunks: seq<Chunk>)
    requires AllAllowed(chunks) && ReadFrame(input).Frame?
    requires ReadFrame(input).hasData && ReadFrame(input).data == "[DONE]" && total + |ReadFrame(input).raw| <= c.maxResponseBytes
    ensures ConcludesAs(c, RelayEnd(c, input, total, StandsAt(c, chunks)), chunks, Writes(c.protocol, chunks))
  {
    hide ReadFrame, FullRendering, AllAllowed, ChoiceOffered, ReasonStated, Reported, Writes;
    AcceptsExactly(c.world.providerId, chunks);
  }

  lemma RefusesExactly(c: Setting, input: string, total: nat, chunks: seq<Chunk>)
    requires Accepted(c, chunks) && ReadFrame(input).Frame?
    requires ReadFrame(input).hasData && ReadFrame(input).data != "[DONE]" && total + |ReadFrame(input).raw| <= c.maxResponseBytes
    requires c.parse(ReadFrame(input).data).Some? ==> !Accepted(c, chunks + [c.parse(ReadFrame(input).data).value])
    ensures RefusesAs(c, RelayEnd(c, input, total, StandsAt(c, chunks)), chunks, ReadFrame(input).data, Writes(c.protocol, chunks))
  {
    hide ReadFrame, Rendering, AllAllowed, Accepted, Writes, DataTurn;
    ChunkTurn(c, chunks, ReadFrame(input).data);
  }

  lemma TooLong(c: Setting, input: string, total: nat, s: RelayState)
    requires ReadFrame(input).Frame? && total + |ReadFrame(input).raw| > c.maxResponseBytes
    ensures FailsWith(RelayEnd(c, input, total, s), Failed, "upstream_response_too_large", 502, false, s.committed)
  {
    hide ReadFrame;
  }

  // A streaming attempt ends exactly as the first frame it does not take, or the break, calls for.
  lemma EndsExactly(c: Setting, n: nat)
    requires c.world.upstream.Streaming? && TakesJust(c, n)
    ensures EndsAs(c, n, AttemptEnd(c))
  {
    hide RelayEnd, Frames, Accepted, Parsed, Raw, StandsAt, ReadFrame, BreaksAs, ConcludesAs, RefusesAs, FailsWith, Writes, Passed, Seen, Readable;
    var input, all := Seen(c), Frames(Seen(c));
    SeenIs(c);
    StartStands(c);
    Unrolled(c, input, n);
    UnreadFrames(input, n);
    var unread, total := Unread(input, n), |Raw(all[..n])|;
    PassedMeans(c, all[..n]);
    var chunks := Parsed(c.parse, all[..n]).value;
    StandsCommitted(c, chunks);
    if n == |all| {
      assert all[..n] == all;
      BreaksExactly(c, unread, total, StandsAt(c, chunks));
    } else if total + |all[n].raw| > c.maxResponseBytes {
      AreFrames(input, n);
      TooLong(c, unread, total, StandsAt(c, chunks));
    } else {
      AreFrames(input, n);
      assert all[..n + 1] == all[..n] + [all[n]];
      PassedStep(c, all[..n], all[n]);
      if all[n].data == "[DONE]" {
        ConcludesExactly(c, unread, total, chunks);
      } else {
        RefusesExactly(c, unread, total, chunks);
      }
    }
  }

  lemma PassedMeans(c: Setting, frames: seq<Reading>)
    requires Passed(c, frames)
    ensures Parsed(c.parse, frames).Some? && Accepted(c, Parsed(c.parse, frames).value) && AllAllowed(Parsed(c.parse, frames).value)
  {
  }

  lemma StandsCommitted(c: Setting, chunks: seq<Chunk>)
    requires AllAllowed(chunks)
    ensures StandsAt(c, chunks).committed <==> Writes(c.protocol, chunks) > 0
  {
  }

  lemma AreFrames(input: string, n: nat)
    requires n < |Frames(input)|
    ensures Frames(input)[n].Frame?
  {
    UnreadFrames(input, n);
    FirstFrame(Unread(input, n));
  }

  // Some number of frames is the most that are taken.
  lemma {:induction false} TakenUpTo(c: Setting, n: nat) returns (most: nat)
    requires c.world.upstream.Streaming? && n <= |Frames(Seen(c))| && Passed(c, Frames(Seen(c))[..n])
    ensures TakesJust(c, most)
    decreases |Frames(Seen(c))| - n
  {
    hide Frames, Passed, Seen;
    if n < |Frames(Seen(c))| && Passed(c, Frames(Seen(c))[..n + 1]) {
      most := TakenUpTo(c, n + 1);
    } else {
      most := n;
    }
  }

  lemma NonePassed(c: Setting)
    ensures Passed(c, [])
  {
  }

  lemma EndsSomewhere(c: Setting) returns (n: nat)
    requires c.world.upstream.Streaming?
    ensures TakesJust(c, n) && EndsAs(c, n, AttemptEnd(c))
  {
    NonePassed(c);
    assert Frames(Seen(c))[..0] == [];
    hide TakesJust, EndsAs, Frames, Passed, Seen;
    n := TakenUpTo(c, 0);
    EndsExactly(c, n);
  }

  // --- Success and repetition -------------------------------------------------------------

  // A success took every frame before the first [DONE].
  predicate SucceedsAt(c: Setting, n: nat)
    requires c.world.upstream.Streaming?
  {
    var all := Frames(Seen(c));
    && n < |all| && Passed(c, all[..n]) && all[n].Frame? && all[n].hasData && all[n].data == "[DONE]"
    && |Raw(all[..n])| + |all[n].raw| <= c.maxResponseBytes
    && var chunks := Parsed(c.parse, all[..n]).value;
       && ChoiceOffered(chunks) && ReasonStated(chunks) && Finishes(c, chunks)
       && c.writer(Writes(c.protocol, chunks)).Taken?
  }

  lemma DoneNotPassed(c: Setting, frames: seq<Reading>, frame: Reading)
    requires frame.Frame? && frame.hasData && frame.data == "[DONE]"
    ensures !Passed(c, frames + [frame])
  {
    hide Accepted, Parsed, Raw;
    assert frame in frames + [frame];
  }

  lemma SucceedsTakesJust(c: Setting, n: nat)
    requires c.world.upstream.Streaming? && SucceedsAt(c, n)
    ensures TakesJust(c, n)
  {
    hide Accepted, Parsed, Raw, Frames, Passed, Writes, Finishes;
    var all := Frames(Seen(c));
    assert all[..n + 1] == all[..n] + [all[n]];
    DoneNotPassed(c, all[..n], all[n]);
  }

  // An attempt succeeds exactly when its upstream sends a first [DONE] within the limit, behind frames that
  // were all taken, whose chunks list a choice, state a reason and translate; it then returns the counts of
  // their last report.
  lemma SucceedsExactly(c: Setting)
    requires c.world.upstream.Streaming?
    ensures AttemptEnd(c).result.success <==> exists n: nat :: SucceedsAt(c, n)
    ensures AttemptEnd(c).outcome == Succeeded <==> AttemptEnd(c).result.success
    ensures forall n: nat :: SucceedsAt(c, n) ==>
              AttemptEnd(c).result.usage == Reported(Parsed(c.parse, Frames(Seen(c))[..n]).value) && AttemptEnd(c).committed
  {
    hide Accepted, Parsed, Raw, Frames, Passed, Writes, Finishes, AttemptEnd, Seen, TakesJust, ReadFrame, Unread, ChoiceOffered, ReasonStated, Reported;
    forall n: nat | SucceedsAt(c, n)
      ensures AttemptEnd(c).result.success && AttemptEnd(c).committed
      ensures Parsed(c.parse, Frames(Seen(c))[..n]).Some?
      ensures AttemptEnd(c).result.usage == Reported(Parsed(c.parse, Frames(Seen(c))[..n]).value)
    {
      SucceedsTakesJust(c, n);
      EndsExactly(c, n);
      SucceedsParsed(c, n);
    }
    var n := EndsSomewhere(c);
    TakesMeans(c, n);
    if AttemptEnd(c).result.success {
      assert SucceedsAt(c, n);
    }
  }

  lemma TakesMeans(c: Setting, n: nat)
    requires c.world.upstream.Streaming? && TakesJust(c, n)
    ensures n <= |Frames(Seen(c))| && Passed(c, Frames(Seen(c))[..n])
  {
  }

  lemma SucceedsParsed(c: Setting, n: nat)
    requires c.world.upstream.Streaming? && SucceedsAt(c, n)
    ensures n <= |Frames(Seen(c))| && Parsed(c.parse, Frames(Seen(c))[..n]).Some?
  {
  }
}
