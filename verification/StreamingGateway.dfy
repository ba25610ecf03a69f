/**
 A streaming inference request: one attempt at the upstream, and the retry loop that shares one sink
 and one encoder among all attempts.
 */
module StreamingGateway {
  import opened Wrappers
  import opened StreamChunks
  import opened RawStreams
  import opened Attempts
  import opened Ledger
  import opened SseFrames
  import opened StreamRelay
  import opened StreamOutcome
  import opened BufferedGateway

  // --- One attempt ------------------------------------------------------------------------

  // The frames an attempt can read.
  function ReadableFrames(world: StreamWorld, maxResponseBytes: nat): seq<Reading> {
    Frames(Readable(world, maxResponseBytes))
  }

  // What an attempt returns once its end was recorded.
  function Final(world: StreamWorld, result: AttemptResult): AttemptResult {
    if world.finishOk then result else LEDGER_FAILURE
  }

  // The auditor while an attempt is open, and after it ended with a result.
  predicate Attempting(a: Option<Auditor>, number: nat) {
    && a.Some? && a.value.request.Open? && a.value.attemptOpen && a.value.attempts == number && !a.value.responded && number >= 1
  }

  predicate Attempted(a: Option<Auditor>, number: nat, result: AttemptResult) {
    && Between(a, number) && !a.value.responded
    && (result.success ==> a.value.won && !result.retryable)
    && (result.retryable ==> !a.value.halted)
    && (!result.success ==> ClientStatus(result) != 200)
  }

  // What an attempt's end records and returns; a completion that cannot be stored hides the rest.
  method End(ledger: CallLog, world: StreamWorld, number: nat, outcome: Outcome, result: AttemptResult) returns (final: AttemptResult)
    requires Attempting(Audit(ledger.log), number)
    requires result.success <==> outcome == Succeeded
    requires if result.success then !result.retryable else ClientStatus(result) != 200
    modifies ledger
    ensures final == Final(world, result)
    ensures ledger.log == old(ledger.log) + [CompleteAttempt(number, outcome, world.finishOk)]
    ensures Attempted(Audit(ledger.log), number, final)
  {
    hide Audit;
    assert LEDGER_FAILURE.clientStatus == 503 && !LEDGER_FAILURE.retryable && !LEDGER_FAILURE.success;
    ledger.Record(CompleteAttempt(number, outcome, world.finishOk));
    final := Final(world, result);
  }

  // The accumulator has accepted these chunks and knows what they say.
  predicate Consuming(providerId: string, chunks: seq<Chunk>, state: StreamState) {
    && ConsumeAll(providerId, chunks) == Some(state) && AllAllowed(chunks)
    && (state.sawChoice <==> ChoiceOffered(chunks)) && (state.sawFinish <==> ReasonStated(chunks))
    && state.usage == Reported(chunks)
  }

  // Where a relay stands: the frames read so far, what they said, and what went downstream.
  ghost predicate Standing(
    providerId: string, parse: string -> Option<Chunk>, sink: StreamSink, protocol: Protocol,
    state: StreamState, pending: string, frames: seq<Reading>, p: Progress)
    reads sink
  {
    && NoneDone(frames) && p.sent <= |frames| && !p.finished
    && Parsed(parse, frames) == Some(p.chunks)
    && Consuming(providerId, p.chunks, state)
    && sink.delivered == sink.handed
    && (!sink.committed ==> sink.Untouched() && p.chunks == [])
    && (if protocol.ChatCompletions? then sink.handed == Raw(frames[..p.sent]) && pending == Raw(frames[p.sent..])
        else pending == "" && p.sent == |frames| && Rendering(protocol, p.chunks) == Some(sink.handed))
  }

  ghost predicate Relaying(
    providerId: string, parse: string -> Option<Chunk>, sink: StreamSink, encoder: Encoder,
    state: StreamState, pending: string, frames: seq<Reading>, p: Progress)
    reads sink, Objects(encoder)
  {
    At(encoder, p.chunks) && Standing(providerId, parse, sink, ProtocolOf(encoder), state, pending, frames, p)
  }

  // What is left behind when a relay ends: everything handed on is accounted for.
  ghost predicate Left(
    parse: string -> Option<Chunk>, sink: StreamSink, encoder: Encoder,
    frames: seq<Reading>, p: Progress, result: AttemptResult)
    reads sink, Objects(encoder)
  {
    && Carried(p, ProtocolOf(encoder), parse, frames, sink.handed)
    && sink.delivered <= sink.handed
    && (!sink.committed ==> sink.Untouched())
    && (result.retryable ==> sink.Untouched() && Pristine(encoder))
    && (result.success ==>
          && Completed(p, parse, frames) && sink.committed && sink.delivered == sink.handed
          && result.usage == Reported(p.chunks))
  }

  // A relay that stops where it stands leaves nothing unaccounted for.
  lemma Stopped(
    providerId: string, parse: string -> Option<Chunk>, sink: StreamSink, encoder: Encoder,
    state: StreamState, pending: string, frames: seq<Reading>, p: Progress, result: AttemptResult)
    requires Relaying(providerId, parse, sink, encoder, state, pending, frames, p)
    requires !result.success && (result.retryable ==> !sink.committed)
    ensures Left(parse, sink, encoder, frames, p, result)
  {
    hide Rendering, FullRendering, Parsed, ConsumeAll, AllAllowed, ChoiceOffered, ReasonStated, Reported, Raw, At, Pristine;
    PristineIsAtNothing(encoder);
    assert frames[..|frames|] == frames;
  }

  lemma ParsedStep(parse: string -> Option<Chunk>, frames: seq<Reading>, frame: Reading)
    requires Parsed(parse, frames).Some? && frame.Frame?
    ensures var chunks := Parsed(parse, frames).value;
            Parsed(parse, frames + [frame])
            == if !frame.hasData || Done(frame) then Some(chunks)
               else if parse(frame.data).None? then None
               else Some(chunks + [parse(frame.data).value])
  {
    assert (frames + [frame])[..|frames + [frame]| - 1] == frames;
  }

  lemma RawSnoc(frames: seq<Reading>, frame: Reading)
    ensures Raw(frames + [frame]) == Raw(frames) + frame.raw
  {
    RawConcat(frames, [frame]);
    RawOne(frame);
  }

  lemma SliceSnoc(frames: seq<Reading>, frame: Reading, sent: nat)
    requires sent <= |frames|
    ensures (frames + [frame])[sent..] == frames[sent..] + [frame] && (frames + [frame])[..sent] == frames[..sent]
  {
  }

  lemma RawStep(frames: seq<Reading>, frame: Reading, sent: nat)
    requires sent <= |frames|
    ensures Raw((frames + [frame])[sent..]) == Raw(frames[sent..]) + frame.raw
    ensures (frames + [frame])[..sent] == frames[..sent]
    ensures Raw(frames + [frame]) == Raw(frames[..sent]) + (Raw(frames[sent..]) + frame.raw)
  {
    hide Raw;
    RawSnoc(frames[sent..], frame);
    RawSplit(frames + [frame], sent);
    SliceSnoc(frames, frame, sent);
  }

  lemma RawNone(frames: seq<Reading>)
    ensures Raw(frames[|frames|..]) == "" && frames[..|frames|] == frames
  {
    assert frames[|frames|..] == [];
  }

  lemma ConsumeStep(providerId: string, chunks: seq<Chunk>, state: StreamState, chunk: Chunk)
    requires Consuming(providerId, chunks, state) && Consumed(state, chunk).Some?
    ensures Consuming(providerId, chunks + [chunk], Consumed(state, chunk).value)
  {
    hide Consumed, AllAllowed, ChoiceOffered, ReasonStated, Reported;
    assert (chunks + [chunk])[..|chunks + [chunk]| - 1] == chunks;
    AcceptsExactly(providerId, chunks + [chunk]);
  }

  lemma NothingConsumed(providerId: string)
    ensures Consuming(providerId, [], StreamState("", providerId, NO_USAGE, Unknown, false, false))
  {
  }

  lemma PassthroughTakesAll(chunks: seq<Chunk>)
    ensures At(Passthrough, chunks)
  {
  }

  // A frame without data goes no further than the pending bytes.
  lemma SkipFrame(
    providerId: string, parse: string -> Option<Chunk>, sink: StreamSink, encoder: Encoder,
    state: StreamState, pending: string, frame: Reading, frames: seq<Reading>, p: Progress)
    returns (after: Progress)
    requires frame.Frame? && !frame.hasData
    requires Relaying(providerId, parse, sink, encoder, state, pending, frames, p)
    ensures Relaying(providerId, parse, sink, encoder, state, if encoder.Passthrough? then pending + frame.raw else pending,
              frames + [frame], after)
    ensures after.chunks == p.chunks
  {
    hide At, Raw, Rendering, Parsed, ConsumeAll, AllAllowed, ChoiceOffered, ReasonStated, Reported;
    ParsedStep(parse, frames, frame);
    RawStep(frames, frame, p.sent);
    after := p.(sent := if encoder.Passthrough? then p.sent else |frames| + 1);
  }

  lemma SaidPassthrough(chunks: seq<Chunk>, chunk: Chunk)
    ensures Said(ChatCompletions, chunks, chunk) == Some(true)
  {
  }

  // What an encoder returned is what the outcome functions say of it.
  lemma SaidEncoded(protocol: Protocol, chunks: seq<Chunk>, chunk: Chunk, body: Option<string>)
    requires !protocol.ChatCompletions? && Rendering(protocol, chunks).Some?
    requires if body.None? then Rendering(protocol, chunks + [chunk]).None?
             else Rendering(protocol, chunks + [chunk]) == Some(Rendering(protocol, chunks).value + body.value)
    ensures Said(protocol, chunks, chunk) == if body.None? then None else Some(body.value != "")
  {
    hide Rendering;
    if body.Some? {
      var before := Rendering(protocol, chunks).value;
      assert |before + body.value| == |before| + |body.value|;
      assert before + "" == before;
    }
  }

  // The bytes handed on are those of all these frames.
  ghost predicate HandedAll(
    parse: string -> Option<Chunk>, protocol: Protocol, frames: seq<Reading>, chunks: seq<Chunk>, handed: string)
  {
    && NoneDone(frames) && Parsed(parse, frames) == Some(chunks) && AllAllowed(chunks)
    && (if protocol.ChatCompletions? then handed == Raw(frames) else Rendering(protocol, chunks) == Some(handed))
  }

  // Writing what one more data frame calls for.
  lemma HandsOn(
    providerId: string, parse: string -> Option<Chunk>, sink: StreamSink, protocol: Protocol,
    state: StreamState, pending: string, frames: seq<Reading>, p: Progress, frame: Reading, chunk: Chunk, body: string)
    requires Standing(providerId, parse, sink, protocol, state, pending, frames, p)
    requires frame.Frame? && frame.hasData && !Done(frame) && parse(frame.data) == Some(chunk)
    requires Consumed(state, chunk).Some?
    requires if protocol.ChatCompletions? then body == pending + frame.raw
             else Rendering(protocol, p.chunks + [chunk]) == Some(Rendering(protocol, p.chunks).value + body)
    ensures HandedAll(parse, protocol, frames + [frame], p.chunks + [chunk], sink.handed + body)
    ensures Consuming(providerId, p.chunks + [chunk], Consumed(state, chunk).value)
  {
    hide Consumed, Rendering, Raw, Parsed, ConsumeAll, AllAllowed, ChoiceOffered, ReasonStated, Reported;
    ParsedStep(parse, frames, frame);
    ConsumeStep(providerId, p.chunks, state, chunk);
    if protocol.ChatCompletions? {
      RawStep(frames, frame, p.sent);
    }
  }

  // A translation that is refused leaves what was handed on before.
  lemma RefusedLeft(
    providerId: string, parse: string -> Option<Chunk>, sink: StreamSink, encoder: Encoder,
    state: StreamState, pending: string, frames: seq<Reading>, frame: Reading, p: Progress, result: AttemptResult)
    requires Standing(providerId, parse, sink, ProtocolOf(encoder), state, pending, frames, p) && !encoder.Passthrough?
    requires !result.success && !result.retryable
    ensures Left(parse, sink, encoder, frames + [frame], p, result)
  {
    hide Rendering, FullRendering, Raw, Parsed, ConsumeAll, AllAllowed, ChoiceOffered, ReasonStated, Reported, Pristine;
    assert (frames + [frame])[..|frames|] == frames;
  }

  lemma HandedRelays(
    providerId: string, parse: string -> Option<Chunk>, sink: StreamSink, encoder: Encoder,
    state: StreamState, frames: seq<Reading>, chunks: seq<Chunk>)
    requires HandedAll(parse, ProtocolOf(encoder), frames, chunks, sink.handed) && At(encoder, chunks)
    requires Consuming(providerId, chunks, state) && sink.delivered == sink.handed
    requires sink.committed || (sink.Untouched() && chunks == [])
    ensures Relaying(providerId, parse, sink, encoder, state, "", frames, Progress(|frames|, chunks, false))
  {
    hide Rendering, At, Raw, Parsed, ConsumeAll, AllAllowed, ChoiceOffered, ReasonStated, Reported;
    RawNone(frames);
  }

  lemma HandedLeft(
    parse: string -> Option<Chunk>, sink: StreamSink, encoder: Encoder,
    frames: seq<Reading>, chunks: seq<Chunk>, result: AttemptResult)
    requires HandedAll(parse, ProtocolOf(encoder), frames, chunks, sink.handed)
    requires sink.committed && sink.delivered <= sink.handed && !result.success && !result.retryable
    ensures Left(parse, sink, encoder, frames, Progress(|frames|, chunks, false), result)
  {
    hide Rendering, FullRendering, At, Raw, Parsed, ConsumeAll, AllAllowed, ChoiceOffered, ReasonStated, Reported, Pristine;
    RawNone(frames);
  }

  // One chunk of the relay: validated, translated and written; `ended` when the attempt ends there.
  method RelayData(
    ledger: CallLog, world: StreamWorld, parse: string -> Option<Chunk>, number: nat, sink: StreamSink, encoder: Encoder,
    state: StreamState, pending: string, frame: Reading, ghost frames: seq<Reading>, ghost p: Progress)
    returns (ended: Option<AttemptResult>, next: StreamState, ghost after: Progress)
    requires Attempting(Audit(ledger.log), number)
    requires Relaying(world.providerId, parse, sink, encoder, state, pending, frames, p)
    requires frame.Frame? && frame.hasData && !Done(frame) && frame.raw != ""
    requires ledger !in Objects(encoder) && sink !in Objects(encoder)
    modifies ledger, sink, Objects(encoder)
    ensures ended.None? ==> ledger.log == old(ledger.log)
    ensures ended.None? ==> Relaying(world.providerId, parse, sink, encoder, next, "", frames + [frame], after)
    // The turn is the one the outcome functions describe.
    ensures var turn := DataTurn(parse, ProtocolOf(encoder), sink.writer,
                                 RelayState(state, p.chunks, old(sink.committed), old(sink.writes)), frame.data);
            if ended.None? then turn == GoOn(RelayState(next, after.chunks, sink.committed, sink.writes))
            else && turn.Ends? && ended.value == Final(world, turn.close.result) && sink.committed == turn.close.committed
                 && ledger.log == old(ledger.log) + [CompleteAttempt(number, turn.close.outcome, world.finishOk)]
    ensures ended.Some? ==>
              && Attempted(Audit(ledger.log), number, ended.value)
              && Left(parse, sink, encoder, frames + [frame], after, ended.value)
  {
    hide Audit, Advance, Begun, Consumed, Rendering, At, Raw, Parsed, ConsumeAll, AllAllowed, ChoiceOffered, ReasonStated, Reported, Pristine, Said, Left, Attempted, HandedAll, Carried, Completed;
    next, after := state, p;
    var chunk := parse(frame.data);
    var consumed := if chunk.Some? then Consumed(state, chunk.value) else None;
    if consumed.None? {
      var result := End(ledger, world, number, Failed, INVALID);
      Stopped(world.providerId, parse, sink, encoder, state, pending, frames, p, result);
      LeftExtends(parse, sink, encoder, frames, [frame], p, result);
      return Some(result), next, after;
    }
    next := consumed.value;
    var body := pending;
    if encoder.Passthrough? {
      body := pending + frame.raw;
      PassthroughTakesAll(p.chunks + [chunk.value]);
      SaidPassthrough(p.chunks, chunk.value);
    } else {
      var translated := EncodeData(encoder, chunk.value, p.chunks);
      SaidEncoded(ProtocolOf(encoder), p.chunks, chunk.value, translated);
      if translated.None? {
        var result := End(ledger, world, number, Failed, INVALID);
        RefusedLeft(world.providerId, parse, sink, encoder, state, pending, frames, frame, p, result);
        return Some(result), next, after;
      }
      body := translated.value;
    }
    HandsOn(world.providerId, parse, sink, ProtocolOf(encoder), state, pending, frames, p, frame, chunk.value, body);
    var ok := sink.Write(body);
    after := Progress(|frames| + 1, p.chunks + [chunk.value], false);
    if !ok {
      var result := End(ledger, world, number, Cancelled, CLIENT_CANCELLED);
      HandedLeft(parse, sink, encoder, frames + [frame], p.chunks + [chunk.value], result);
      return Some(result), next, after;
    }
    ended := None;
    HandedRelays(world.providerId, parse, sink, encoder, next, frames + [frame], p.chunks + [chunk.value]);
  }

  // The end of a relay whose upstream sent [DONE].
  method FinishRelay(
    ledger: CallLog, world: StreamWorld, parse: string -> Option<Chunk>, number: nat, sink: StreamSink, encoder: Encoder,
    state: StreamState, pending: string, frame: Reading, ghost frames: seq<Reading>, ghost p: Progress)
    returns (result: AttemptResult, ghost after: Progress)
    requires Attempting(Audit(ledger.log), number)
    requires Relaying(world.providerId, parse, sink, encoder, state, pending, frames, p)
    requires Done(frame) && frame.raw != ""
    requires ledger !in Objects(encoder) && sink !in Objects(encoder)
    modifies ledger, sink, Objects(encoder)
    ensures Attempted(Audit(ledger.log), number, result) && !result.retryable
    ensures var end := FinishTurn(ProtocolOf(encoder), sink.writer, RelayState(state, p.chunks, old(sink.committed), old(sink.writes)));
            && result == Final(world, end.result) && sink.committed == end.committed
            && ledger.log == old(ledger.log) + [CompleteAttempt(number, end.outcome, world.finishOk)]
    ensures Left(parse, sink, encoder, frames + [frame], after, result)
  {
    hide Audit, Advance, Rendering, FullRendering, At, Raw, Parsed, ConsumeAll, AllAllowed, ChoiceOffered, ReasonStated, Reported, Pristine;
    ParsedStep(parse, frames, frame);
    RawStep(frames, frame, p.sent);
    RawNone(frames + [frame]);
    after := p;
    assert (frames + [frame])[..|frames|] == frames;
    if !state.sawChoice || !state.sawFinish {
      result := End(ledger, world, number, Failed, Failure("invalid_upstream_response", 502));
      return;
    }
    var body := pending;
    if encoder.Passthrough? {
      body := pending + frame.raw;
    } else {
      var translated := FinishEncoding(encoder, state.usage, p.chunks);
      if translated.None? {
        result := End(ledger, world, number, Failed, Failure("invalid_upstream_response", 502));
        return;
      }
      body := translated.value;
    }
    var ok := sink.Write(body);
    after := Progress(|frames| + 1, p.chunks, true);
    if !ok {
      result := End(ledger, world, number, Cancelled, CLIENT_CANCELLED);
      return;
    }
    result := End(ledger, world, number, Succeeded, Success("", state.usage));
  }

  // Reading one more frame moves on by one in the list of all frames.
  lemma NextFrame(all: seq<Reading>, frames: seq<Reading>, unread: string)
    requires all == frames + Frames(unread) && ReadFrame(unread).Frame?
    ensures all == (frames + [ReadFrame(unread)]) + Frames(ReadFrame(unread).rest)
  {
    ReadShrinks("", [], unread);
  }

  // What a relay left behind stays accounted for when further frames follow.
  lemma LeftExtends(
    parse: string -> Option<Chunk>, sink: StreamSink, encoder: Encoder,
    frames: seq<Reading>, more: seq<Reading>, p: Progress, result: AttemptResult)
    requires Left(parse, sink, encoder, frames, p, result)
    ensures Left(parse, sink, encoder, frames + more, p, result)
  {
    hide Rendering, FullRendering, Parsed, ConsumeAll, AllAllowed, ChoiceOffered, ReasonStated, Reported, Raw, At, Pristine;
    assert (frames + more)[..p.sent] == frames[..p.sent];
    if result.success {
      assert (frames + more)[..p.sent - 1] == frames[..p.sent - 1];
    }
  }

  // Nothing is outstanding before the first frame.
  lemma RelayingStart(providerId: string, parse: string -> Option<Chunk>, sink: StreamSink, encoder: Encoder)
    requires sink.Untouched() && Pristine(encoder)
    ensures Relaying(providerId, parse, sink, encoder, StreamState("", providerId, NO_USAGE, Unknown, false, false), "", [], Progress(0, [], false))
  {
    hide At, Pristine, Rendering, ConsumeAll, AllAllowed, ChoiceOffered, ReasonStated, Reported;
    PristineIsAtNothing(encoder);
    NothingConsumed(providerId);
    RawNone([]);
  }

  lemma RelayingWithin(
    providerId: string, parse: string -> Option<Chunk>, sink: StreamSink, encoder: Encoder,
    state: StreamState, pending: string, frames: seq<Reading>, p: Progress)
    requires Relaying(providerId, parse, sink, encoder, state, pending, frames, p)
    ensures encoder.Passthrough? ==> |sink.handed| <= |Raw(frames)|
  {
    hide At, Raw, Rendering, Parsed, ConsumeAll, AllAllowed, ChoiceOffered, ReasonStated, Reported;
    if encoder.Passthrough? {
      RawSplit(frames, p.sent);
    }
  }

  // One frame of the loop, as the outcome functions take it.
  lemma RelayEndStep(c: Setting, input: string, total: nat, s: RelayState)
    ensures var frame := ReadFrame(input);
            var read := total + |frame.raw|;
            RelayEnd(c, input, total, s)
            == if read > c.maxResponseBytes then Close(Failed, Failure("upstream_response_too_large", 502), s.committed)
               else if frame.Broken? then
                 Close(BrokenOutcome(c.world, c.maxResponseBytes, frame.fault, s.committed).0,
                       BrokenOutcome(c.world, c.maxResponseBytes, frame.fault, s.committed).1, s.committed)
               else if !frame.hasData then RelayEnd(c, frame.rest, read, s)
               else if frame.data == "[DONE]" then FinishTurn(c.protocol, c.writer, s)
               else
                 match DataTurn(c.parse, c.protocol, c.writer, s, frame.data)
                 case Ends(close) => close
                 case GoOn(next) => RelayEnd(c, frame.rest, read, next)
  {
    hide ReadFrame, BrokenOutcome, FinishTurn, DataTurn;
  }

  // The frame loop of an attempt whose upstream answered with an event stream.
  method RelayStream(
    ledger: CallLog, world: StreamWorld, parse: string -> Option<Chunk>, maxResponseBytes: nat,
    number: nat, sink: StreamSink, encoder: Encoder)
    returns (result: AttemptResult, ghost p: Progress)
    requires world.upstream.Streaming? && Attempting(Audit(ledger.log), number)
    requires sink.Untouched() && Pristine(encoder)
    requires ledger !in Objects(encoder) && sink !in Objects(encoder)
    modifies ledger, sink, Objects(encoder)
    ensures Attempted(Audit(ledger.log), number, result)
    ensures var end := AttemptEnd(Setting(world, parse, maxResponseBytes, ProtocolOf(encoder), sink.writer));
            && result == Final(world, end.result) && sink.committed == end.committed
            && ledger.log == old(ledger.log) + [CompleteAttempt(number, end.outcome, world.finishOk)]
    ensures Left(parse, sink, encoder, ReadableFrames(world, maxResponseBytes), p, result)
    ensures encoder.Passthrough? ==> |sink.handed| <= maxResponseBytes
  {
    hide Audit, Advance, At, Raw, ReadFrom, Rendering, BrokenOutcome, Attempted, Left, Pristine, DataTurn, FinishTurn, RelayEnd, Relaying, Frames;
    var input := world.upstream.bytes[..Limit(world.upstream.bytes, maxResponseBytes)];
    ghost var all := Frames(input);
    ghost var c := Setting(world, parse, maxResponseBytes, ProtocolOf(encoder), sink.writer);
    ghost var end := RelayEnd(c, input, 0, RelayStart(world));
    var reader := new ByteReader(input);
    var state := StreamState("", world.providerId, NO_USAGE, Unknown, false, false);
    var pending := "";
    var total := 0;
    ghost var frames: seq<Reading> := [];
    p := Progress(0, [], false);
    RelayingStart(world.providerId, parse, sink, encoder);
    RawNone([]);
    while true
      invariant fresh(reader)
      invariant all == frames + Frames(reader.unread)
      invariant total == |Raw(frames)| <= maxResponseBytes
      invariant Relaying(world.providerId, parse, sink, encoder, state, pending, frames, p)
      invariant encoder.Passthrough? ==> |sink.handed| <= maxResponseBytes
      invariant ledger.log == old(ledger.log)
      invariant RelayEnd(c, reader.unread, total, RelayState(state, p.chunks, sink.committed, sink.writes)) == end
      decreases |reader.unread|
    {
      ghost var unread := reader.unread;
      RelayEndStep(c, unread, total, RelayState(state, p.chunks, sink.committed, sink.writes));
      var frame := reader.ReadSSEFrame();
      ReadMoves(unread);
      total := total + |frame.raw|;
      if total > maxResponseBytes {
        result := End(ledger, world, number, Failed, Failure("upstream_response_too_large", 502));
        Stopped(world.providerId, parse, sink, encoder, state, pending, frames, p, result);
        LeftExtends(parse, sink, encoder, frames, Frames(unread), p, result);
        return;
      }
      if frame.Broken? {
        var broken := BrokenOutcome(world, maxResponseBytes, frame.fault, sink.committed);
        result := End(ledger, world, number, broken.0, broken.1);
        Stopped(world.providerId, parse, sink, encoder, state, pending, frames, p, result);
        LeftExtends(parse, sink, encoder, frames, Frames(unread), p, result);
        return;
      }
      NextFrame(all, frames, unread);
      RawSnoc(frames, frame);
      ghost var before := frames;
      frames := frames + [frame];
      if !frame.hasData {
        p := SkipFrame(world.providerId, parse, sink, encoder, state, pending, frame, before, p);
        if encoder.Passthrough? {
          pending := pending + frame.raw;
        }
        continue;
      }
      if frame.data == "[DONE]" {
        result, p := FinishRelay(ledger, world, parse, number, sink, encoder, state, pending, frame, before, p);
        LeftExtends(parse, sink, encoder, frames, Frames(reader.unread), p, result);
        HandedWithin(parse, sink, encoder, frames, p, result);
        return;
      }
      var ended;
      ended, state, p := RelayData(ledger, world, parse, number, sink, encoder, state, pending, frame, before, p);
      if ended.Some? {
        LeftExtends(parse, sink, encoder, frames, Frames(reader.unread), p, ended.value);
        HandedWithin(parse, sink, encoder, frames, p, ended.value);
        return ended.value, p;
      }
      pending := "";
      RelayingWithin(world.providerId, parse, sink, encoder, state, pending, frames, p);
    }
  }

  // A passed-through relay hands on no more than it read.
  lemma HandedWithin(
    parse: string -> Option<Chunk>, sink: StreamSink, encoder: Encoder,
    frames: seq<Reading>, p: Progress, result: AttemptResult)
    requires Left(parse, sink, encoder, frames, p, result)
    ensures encoder.Passthrough? ==> |sink.handed| <= |Raw(frames)|
  {
    hide Raw, Rendering, FullRendering, Parsed, ConsumeAll, AllAllowed, ChoiceOffered, ReasonStated, Reported;
    if encoder.Passthrough? {
      RawSplit(frames, p.sent);
    }
  }

  // An attempt that hands nothing on leaves everything as it was.
  lemma NothingLeft(
    parse: string -> Option<Chunk>, sink: StreamSink, encoder: Encoder,
    frames: seq<Reading>, result: AttemptResult)
    requires sink.Untouched() && Pristine(encoder) && !result.success
    ensures Left(parse, sink, encoder, frames, Progress(0, [], false), result)
  {
    PristineIsAtNothing(encoder);
  }

  method PerformStreamingAttempt(
    ledger: CallLog, world: StreamWorld, parse: string -> Option<Chunk>, maxResponseBytes: nat,
    number: nat, sink: StreamSink, encoder: Encoder)
    returns (result: AttemptResult, ghost p: Progress)
    requires number >= 1 && Ready(Audit(ledger.log), number - 1)
    // Every attempt, also a repeated one, starts with nothing written and an unused encoder.
    requires sink.Untouched() && Pristine(encoder)
    requires ledger !in Objects(encoder) && sink !in Objects(encoder)
    modifies ledger, sink, Objects(encoder)
    ensures if world.idOk && world.createOk then Attempted(Audit(ledger.log), number, result)
            else Between(Audit(ledger.log), number - 1) && !Audit(ledger.log).value.responded
    ensures var c := Setting(world, parse, maxResponseBytes, ProtocolOf(encoder), sink.writer);
            && result == AttemptReturns(c) && sink.committed == AttemptCommits(c)
            && ledger.log == old(ledger.log) + StreamAttemptLog(c, number)
    ensures Left(parse, sink, encoder, ReadableFrames(world, maxResponseBytes), p, result)
    ensures encoder.Passthrough? ==> |sink.handed| <= maxResponseBytes
  {
    hide Left, Attempting, Pristine, RelayEnd, ReadableFrames, Readable;
    p := Progress(0, [], false);
    assert ledger.log + [] == ledger.log;
    if !world.idOk {
      result := Failure("ledger_error", 500);
      NothingLeft(parse, sink, encoder, ReadableFrames(world, maxResponseBytes), result);
      return;
    }
    ledger.Record(CreateAttempt(number, world.createOk));
    if !world.createOk {
      NothingLeft(parse, sink, encoder, ReadableFrames(world, maxResponseBytes), LEDGER_FAILURE);
      return LEDGER_FAILURE, p;
    }
    Opened(ledger.log, number);
    hide Audit, Advance, Refusal, Attempted;
    if !world.upstream.Streaming? {
      var refusal := Refusal(world);
      RefusalSettled(world);
      result := End(ledger, world, number, refusal.0, refusal.1);
      NothingLeft(parse, sink, encoder, ReadableFrames(world, maxResponseBytes), result);
      return;
    }
    result, p := RelayStream(ledger, world, parse, maxResponseBytes, number, sink, encoder);
  }

  lemma Opened(log: seq<Entry>, number: nat)
    requires Audit(log).Some? && number >= 1
    requires var a := Audit(log).value; a.request.Open? && a.attemptOpen && a.attempts == number && !a.responded
    ensures Attempting(Audit(log), number)
  {
  }

  // A refusal is never a success.
  lemma RefusalSettled(world: StreamWorld)
    requires !world.upstream.Streaming?
    ensures Refusal(world).0 != Succeeded && !Refusal(world).1.success
  {
  }

  // --- The request ------------------------------------------------------------------------

  // One turn of the retry loop: whether it found sink and encoder unused, and what it came to.
  datatype Try = Try(unused: bool, result: AttemptResult)

  // Try n failed in a retryable way, and the client stayed through the pause it called for.
  predicate Repeats(pacing: Pacing, n: nat, t: Try)
    requires n >= 1
  {
    t.result.retryable && !t.result.success && Undisturbed(pacing, n, t.result)
  }

  // Attempts follow each other only after a retryable failure and an undisturbed pause, and each
  // begins with nothing written and an unused encoder.
  predicate Retried(tries: seq<Try>, pacing: Pacing) {
    && (forall t <- tries :: t.unused)
    && (forall i | 0 <= i < |tries| - 1 :: Repeats(pacing, i + 1, tries[i]))
  }

  lemma NoTries(pacing: Pacing)
    ensures Retried([], pacing)
  {
  }

  lemma OneMoreTry(tries: seq<Try>, pacing: Pacing, next: Try)
    requires Retried(tries, pacing) && next.unused
    requires tries != [] ==> Repeats(pacing, |tries|, tries[|tries| - 1])
    ensures Retried(tries + [next], pacing)
  {
    var longer := tries + [next];
    forall i | 0 <= i < |longer| - 1
      ensures Repeats(pacing, i + 1, longer[i])
    {
      assert longer[i] == tries[i];
    }
  }

  // The last try's account of the bytes handed on.
  predicate Accounted(request: StreamRequest, tries: seq<Try>, p: Progress, handed: string, delivered: string) {
    && tries != []
    && var world := request.attempts(|tries|);
       var frames := ReadableFrames(world, request.maxResponseBytes);
       && Carried(p, request.protocol, request.parse, frames, handed)
       && delivered <= handed
       && (tries[|tries| - 1].result.success ==>
             Completed(p, request.parse, frames) && delivered == handed)
  }

  // Where the log stands after one more attempt.
  lemma StreamLogGoesOn(request: StreamRequest, before: seq<Entry>, n: nat)
    requires 1 <= n <= request.maxAttempts
    ensures before + StreamAttemptLogs(request, n)
         == before + StreamAttemptLog(SettingAt(request, n), n)
            + if n < request.maxAttempts && GoesOn(request, n) then StreamAttemptLogs(request, n + 1) else []
  {
    hide StreamAttemptLog, GoesOn;
  }

  // An attempt that was never made fails for good.
  lemma UnmadeAttempt(c: Setting)
    ensures !c.world.idOk || !c.world.createOk ==>
              !AttemptReturns(c).success && !AttemptReturns(c).retryable && ClientStatus(AttemptReturns(c)) != 200
  {
    assert LEDGER_FAILURE.clientStatus == 503;
  }

  // The retry loop.
  method RunAttempts(ledger: CallLog, request: StreamRequest, sink: StreamSink, encoder: Encoder)
    returns (terminal: AttemptResult, ghost tries: seq<Try>, ghost p: Progress)
    requires Ready(Audit(ledger.log), 0)
    requires sink.Untouched() && Pristine(encoder) && ProtocolOf(encoder) == request.protocol && sink.writer == request.writer
    requires ledger !in Objects(encoder) && sink !in Objects(encoder)
    modifies ledger, sink, Objects(encoder)
    ensures terminal == LoopResult(request) && sink.committed == LoopCommits(request)
    ensures ledger.log == old(ledger.log) + StreamAttemptLogs(request, 1)
    ensures var a := Audit(ledger.log);
            && a.Some? && a.value.request.Open? && !a.value.attemptOpen && !a.value.responded && a.value.attempts <= |tries|
            && (terminal.success ==> a.value.won && sink.committed)
    ensures !terminal.success ==> ClientStatus(terminal) != 200
    ensures Retried(tries, request.pacing)
    ensures if request.maxAttempts < 1 then tries == [] else |tries| == LastAttempt(request, 1) && 1 <= |tries| <= request.maxAttempts
    ensures terminal.success <==> tries != [] && tries[|tries| - 1].result.success
    ensures if tries == [] then sink.Untouched() else Accounted(request, tries, p, sink.handed, sink.delivered)
    ensures request.protocol.ChatCompletions? ==> |sink.handed| <= request.maxResponseBytes
  {
    hide Audit, Advance, Carried, Completed, Pristine, ReadableFrames, AttemptReturns, AttemptCommits, StreamAttemptLog, Retried;
    tries, p := [], Progress(0, [], false);
    NoTries(request.pacing);
    terminal := NO_ATTEMPT;
    var number := 1;
    if request.maxAttempts < 1 {
      NoAttempts(request);
    }
    while number <= request.maxAttempts
      invariant 1 <= number && (number <= request.maxAttempts || (number == 1 && terminal == NO_ATTEMPT))
      invariant Ready(Audit(ledger.log), number - 1)
      invariant sink.Untouched() && Pristine(encoder)
      invariant |tries| == number - 1 && Retried(tries, request.pacing)
      invariant tries != [] ==> Repeats(request.pacing, |tries|, tries[|tries| - 1])
      invariant LastAttempt(request, number) == LastAttempt(request, 1)
      invariant ledger.log + StreamAttemptLogs(request, number) == old(ledger.log) + StreamAttemptLogs(request, 1)
      decreases request.maxAttempts - number
    {
      ghost var unused := sink.Untouched() && Pristine(encoder);
      ghost var before := ledger.log;
      terminal, p := PerformStreamingAttempt(
        ledger, request.attempts(number), request.parse, request.maxResponseBytes, number, sink, encoder);
      OneMoreTry(tries, request.pacing, Try(unused, terminal));
      tries := tries + [Try(unused, terminal)];
      UnmadeAttempt(SettingAt(request, number));
      StreamLogGoesOn(request, before, number);
      assert ledger.log + [] == ledger.log;
      if terminal.success || sink.committed || !terminal.retryable || number == request.maxAttempts {
        break;
      }
      var delay := RetryDelay(request.pacing.base, request.pacing.maximum, number, terminal.retryAfter);
      if !Waits(request.pacing, number, delay) {
        terminal := CLIENT_CANCELLED;
        break;
      }
      number := number + 1;
    }
  }

  method ServeStreaming(ledger: CallLog, request: StreamRequest) returns (sink: StreamSink, ghost tries: seq<Try>, ghost p: Progress)
    requires Ready(Audit(ledger.log), 0)
    modifies ledger
    ensures fresh(sink)
    // Every store call and the answer, in order; the client gets either a status or a stream.
    ensures request.flusherOk ==>
              && ledger.log == old(ledger.log) + StreamAttemptLogs(request, 1)
                               + StreamSettlement(LoopResult(request), LoopCommits(request), request.finishOk)
              && sink.committed == LoopCommits(request)
    ensures !request.flusherOk ==>
              && ledger.log == old(ledger.log) + [CompleteRequest(Failed, 500, NO_USAGE, request.finishOk),
                                                  Respond(if request.finishOk then 500 else 503)]
              && !sink.committed
    // The ledger: one completion, no attempt open, no more attempts than configured.
    ensures Audit(ledger.log).Some? && Audit(ledger.log).value.request.Closed? && !Audit(ledger.log).value.attemptOpen
    ensures Audit(ledger.log).value.attempts <= |tries| <= if request.maxAttempts > 0 then request.maxAttempts else 0
    ensures Audit(ledger.log).value.responded <==> !sink.committed
    // No replay after commit, and no stopping early.
    ensures Retried(tries, request.pacing)
    ensures |tries| == if !request.flusherOk || request.maxAttempts < 1 then 0 else LastAttempt(request, 1)
    // The stored outcome is that of the last attempt, and so are the bytes handed on.
    ensures Audit(ledger.log).value.request.outcome == Succeeded <==> tries != [] && tries[|tries| - 1].result.success
    ensures tries == [] ==> sink.Untouched()
    ensures tries != [] ==> Accounted(request, tries, p, sink.handed, sink.delivered)
    ensures request.protocol.ChatCompletions? ==> |sink.handed| <= request.maxResponseBytes
  {
    hide Audit, Advance, Accounted, Pristine, LoopResult, LoopCommits, LastAttempt, StreamAttemptLogs, StreamSettlement;
    sink := new StreamSink(request.writer);
    tries, p := [], Progress(0, [], false);
    NoTries(request.pacing);
    if !request.flusherOk {
      var answer := Finish(ledger, request.finishOk, Failed, NO_USAGE, Answer(500, ""));
      return;
    }
    var encoder := NewEncoder(request.protocol);
    var terminal;
    terminal, tries, p := RunAttempts(ledger, request, sink, encoder);
    Conclude(ledger, request.finishOk, sink, terminal);
  }

  lemma NoAttempts(request: StreamRequest)
    requires request.maxAttempts < 1
    ensures LoopResult(request) == NO_ATTEMPT && !LoopCommits(request) && StreamAttemptLogs(request, 1) == []
  {
  }

  // Completes the request after the loop; a client that got bytes gets no status.
  method Conclude(ledger: CallLog, finishOk: bool, sink: StreamSink, terminal: AttemptResult)
    requires Audit(ledger.log).Some?
    requires var a := Audit(ledger.log).value;
             && a.request.Open? && !a.attemptOpen && !a.responded
             && (terminal.success ==> a.won && sink.committed)
             && (!terminal.success ==> ClientStatus(terminal) != 200)
    modifies ledger
    ensures ledger.log == old(ledger.log) + StreamSettlement(terminal, sink.committed, finishOk)
    ensures Audit(ledger.log).Some? && !Audit(ledger.log).value.attemptOpen
    ensures Audit(ledger.log).value.attempts == Audit(old(ledger.log)).value.attempts
    ensures Audit(ledger.log).value.request == Closed(OutcomeOf(terminal), finishOk)
    ensures Audit(ledger.log).value.responded <==> !sink.committed
  {
    hide Audit;
    if terminal.success {
      // A relay that succeeded has written, so an unstored success ends the stream in silence.
      ledger.Record(CompleteRequest(Succeeded, 200, terminal.usage, finishOk));
      return;
    }
    ledger.Record(CompleteRequest(OutcomeOf(terminal), ClientStatus(terminal), NO_USAGE, finishOk));
    if !sink.committed {
      ledger.Record(Respond(if finishOk then ClientStatus(terminal) else 503));
    }
  }
}
