/**
 What a streaming attempt hands downstream: the sink with its commit boundary, the encoder all
 attempts share, and what the bytes handed on have to do with the frames read upstream.
 */
module StreamRelay {
  import opened Wrappers
  import opened StreamChunks
  import opened RawStreams
  import opened SseFrames
  import R = ResponsesStream
  import RE = ResponsesEncoder
  import A = AnthropicStream
  import AE = AnthropicEncoder

  // --- The sink ---------------------------------------------------------------------------

  // Torn: the writer failed or wrote short, after taking `count` bytes.
  datatype WriteOutcome = Taken | Torn(count: nat)

  // What a writer takes of a body it does not get through.
  function Begun(body: string, count: nat): (begun: string)
    ensures begun <= body && |begun| == if count < |body| then count else |body|
  {
    if count < |body| then body[..count] else body
  }

  // `handed` is every byte given to the writer, `delivered` what the writer reported taken.
  class StreamSink {
    const writer: nat -> WriteOutcome
    var committed: bool
    var writes: nat
    var handed: string
    var delivered: string

    constructor (writer: nat -> WriteOutcome)
      ensures this.writer == writer && !committed && writes == 0 && handed == delivered == ""
    {
      this.writer := writer;
      committed, writes, handed, delivered := false, 0, "", "";
    }

    predicate Untouched()
      reads this
    {
      !committed && writes == 0 && handed == delivered == ""
    }

    // The first attempted write is the commit boundary, whether or not it gets through.
    method Write(body: string) returns (ok: bool)
      modifies this
      ensures handed == old(handed) + body
      ensures committed == (old(committed) || body != "")
      ensures body == "" ==> ok && writes == old(writes)
      ensures body != "" ==> writes == old(writes) + 1 && (ok <==> writer(old(writes)).Taken?)
      ensures ok ==> delivered == old(delivered) + body
      ensures !ok ==> delivered == old(delivered) + Begun(body, writer(old(writes)).count)
      ensures !ok ==> old(delivered) <= delivered <= old(delivered) + body
    {
      if body == "" {
        return true;
      }
      committed := true;
      handed := handed + body;
      var outcome := writer(writes);
      writes := writes + 1;
      match outcome {
        case Taken =>
          delivered := delivered + body;
          ok := true;
        case Torn(count) =>
          var n := if count < |body| then count else |body|;
          assert delivered + body[..n] <= delivered + body by {
            assert delivered + body == (delivered + body[..n]) + body[n..];
          }
          delivered := delivered + body[..n];
          ok := false;
      }
    }
  }

  // --- Rendering events -------------------------------------------------------------------

  function ResponsesEventName(body: R.Body): string {
    match body
    case ResponseCreated(_) => "response.created"
    case ResponseInProgress(_) => "response.in_progress"
    case OutputItemAdded(_, _) => "response.output_item.added"
    case ContentPartAdded(_, _) => "response.content_part.added"
    case OutputTextDelta(_, _, _) => "response.output_text.delta"
    case ArgumentsDelta(_, _, _) => "response.function_call_arguments.delta"
    case OutputTextDone(_, _, _) => "response.output_text.done"
    case ContentPartDone(_, _, _) => "response.content_part.done"
    case ArgumentsDone(_, _, _) => "response.function_call_arguments.done"
    case OutputItemDone(_, _) => "response.output_item.done"
    case ResponseEnded(r) => if r.status == R.Incomplete then "response.incomplete" else "response.completed"
  }

  function AnthropicEventName(e: A.Event): string {
    match e
    case MessageStart(_, _) => "message_start"
    case BlockStart(_, _) => "content_block_start"
    case ContentDelta(_, _) => "content_block_delta"
    case BlockStop(_) => "content_block_stop"
    case MessageDelta(_, _) => "message_delta"
    case MessageStop => "message_stop"
  }

  function EventFrame(name: string, payload: string): (frame: string)
    ensures frame != ""
  {
    "event: " + name + "\ndata: " + payload + "\n\n"
  }

  function RenderResponses(json: R.Event -> string, events: seq<R.Event>): string {
    if events == [] then ""
    else EventFrame(ResponsesEventName(events[0].body), json(events[0])) + RenderResponses(json, events[1..])
  }

  function RenderAnthropic(json: A.Event -> string, events: seq<A.Event>): string {
    if events == [] then ""
    else EventFrame(AnthropicEventName(events[0]), json(events[0])) + RenderAnthropic(json, events[1..])
  }

  lemma {:induction false} RenderResponsesConcat(json: R.Event -> string, a: seq<R.Event>, b: seq<R.Event>)
    ensures RenderResponses(json, a + b) == RenderResponses(json, a) + RenderResponses(json, b)
  {
    hide EventFrame, ResponsesEventName;
    if a == [] {
      assert a + b == b && "" + RenderResponses(json, b) == RenderResponses(json, b);
    } else {
      RenderResponsesConcat(json, a[1..], b);
      assert (a + b)[1..] == a[1..] + b;
      var first := EventFrame(ResponsesEventName(a[0].body), json(a[0]));
      var rest, last := RenderResponses(json, a[1..]), RenderResponses(json, b);
      hide RenderResponses;
      assert first + (rest + last) == (first + rest) + last;
    }
  }

  lemma {:induction false} RenderAnthropicConcat(json: A.Event -> string, a: seq<A.Event>, b: seq<A.Event>)
    ensures RenderAnthropic(json, a + b) == RenderAnthropic(json, a) + RenderAnthropic(json, b)
  {
    hide EventFrame, AnthropicEventName;
    if a == [] {
      assert a + b == b && "" + RenderAnthropic(json, b) == RenderAnthropic(json, b);
    } else {
      RenderAnthropicConcat(json, a[1..], b);
      assert (a + b)[1..] == a[1..] + b;
      var first := EventFrame(AnthropicEventName(a[0]), json(a[0]));
      var rest, last := RenderAnthropic(json, a[1..]), RenderAnthropic(json, b);
      hide RenderAnthropic;
      assert first + (rest + last) == (first + rest) + last;
    }
  }

  // --- The encoder all attempts share -----------------------------------------------------

  // The caller's protocol with everything its encoder is configured with.
  datatype Protocol =
    | ChatCompletions
    | Responses(responsesConfig: R.Config, jsonObject: string -> bool, responsesJson: R.Event -> string)
    | Anthropic(anthropicConfig: A.Config, jsonObject: string -> bool, anthropicJson: A.Event -> string)

  // The text of all events once these chunks were accepted; None when one was not.
  function Rendering(protocol: Protocol, chunks: seq<Chunk>): Option<string> {
    match protocol
    case ChatCompletions => None
    case Responses(cfg, _, json) =>
      var step := R.EncodeAll(cfg, chunks);
      if step.result.Ok? then Some(RenderResponses(json, step.result.value)) else None
    case Anthropic(cfg, _, json) =>
      var step := A.EncodeAll(cfg, chunks);
      if step.result.Ok? then Some(RenderAnthropic(json, step.result.value)) else None
  }

  // The text of a whole translated stream.
  function FullRendering(protocol: Protocol, chunks: seq<Chunk>, usage: TokenUsage): Option<string> {
    match protocol
    case ChatCompletions => None
    case Responses(cfg, jsonObject, json) =>
      var step := R.Translate(cfg, jsonObject, chunks, usage);
      if step.result.Ok? then Some(RenderResponses(json, step.result.value)) else None
    case Anthropic(cfg, jsonObject, json) =>
      var step := A.Translate(cfg, jsonObject, chunks, usage);
      if step.result.Ok? then Some(RenderAnthropic(json, step.result.value)) else None
  }

  datatype Encoder =
    | Passthrough
    | ToResponses(responses: RE.ResponsesStreamEncoder, responsesJson: R.Event -> string)
    | ToAnthropic(anthropic: AE.AnthropicStreamEncoder, anthropicJson: A.Event -> string)

  function Objects(encoder: Encoder): set<object> {
    match encoder
    case Passthrough => {}
    case ToResponses(e, _) => {e}
    case ToAnthropic(e, _) => {e}
  }

  function ProtocolOf(encoder: Encoder): Protocol {
    match encoder
    case Passthrough => ChatCompletions
    case ToResponses(e, json) => Responses(e.cfg, e.jsonObject, json)
    case ToAnthropic(e, json) => Anthropic(e.cfg, e.jsonObject, json)
  }

  // The encoder accepted exactly these chunks.
  ghost predicate At(encoder: Encoder, chunks: seq<Chunk>)
    reads Objects(encoder)
  {
    match encoder
    case Passthrough => true
    case ToResponses(e, _) => R.EncodeAll(e.cfg, chunks).result.Ok? && e.Model() == R.EncodeAll(e.cfg, chunks).state
    case ToAnthropic(e, _) => A.EncodeAll(e.cfg, chunks).result.Ok? && e.Model() == A.EncodeAll(e.cfg, chunks).state
  }

  // The encoder has not taken anything yet.
  ghost predicate Pristine(encoder: Encoder)
    reads Objects(encoder)
  {
    match encoder
    case Passthrough => true
    case ToResponses(e, _) => e.Model() == R.INITIAL
    case ToAnthropic(e, _) => e.Model() == A.INITIAL
  }

  lemma PristineIsAtNothing(encoder: Encoder)
    ensures Pristine(encoder) <==> At(encoder, [])
    ensures !encoder.Passthrough? ==> Rendering(ProtocolOf(encoder), []) == Some("")
  {
  }

  method NewEncoder(protocol: Protocol) returns (encoder: Encoder)
    ensures ProtocolOf(encoder) == protocol && Pristine(encoder) && fresh(Objects(encoder))
  {
    match protocol {
      case ChatCompletions => encoder := Passthrough;
      case Responses(cfg, jsonObject, json) =>
        var e := new RE.ResponsesStreamEncoder(cfg, jsonObject);
        encoder := ToResponses(e, json);
      case Anthropic(cfg, jsonObject, json) =>
        var e := new AE.AnthropicStreamEncoder(cfg, jsonObject);
        encoder := ToAnthropic(e, json);
    }
  }

  // The first chunk an encoder accepts always speaks.
  lemma FirstChunkSpeaks(rc: R.Config, ac: A.Config, chunk: Chunk)
    ensures R.Encode(rc, R.INITIAL, chunk).result.Ok? ==> R.Encode(rc, R.INITIAL, chunk).result.value != []
    ensures A.Encode(ac, A.INITIAL, chunk).result.Ok? ==> A.Encode(ac, A.INITIAL, chunk).result.value != []
  {
    hide R.EncodeDelta, A.EncodeDelta;
  }

  lemma RenderSpeaks(rj: R.Event -> string, aj: A.Event -> string, rs: seq<R.Event>, as_: seq<A.Event>)
    ensures rs != [] ==> RenderResponses(rj, rs) != ""
    ensures as_ != [] ==> RenderAnthropic(aj, as_) != ""
  {
    hide EventFrame, ResponsesEventName, AnthropicEventName;
  }

  // One more chunk: the whole encoding goes on from where it was.
  lemma ResponsesGoesOn(cfg: R.Config, json: R.Event -> string, chunks: seq<Chunk>, chunk: Chunk)
    requires R.EncodeAll(cfg, chunks).result.Ok?
    ensures var before := R.EncodeAll(cfg, chunks);
            var step := R.Encode(cfg, before.state, chunk);
            var after := R.EncodeAll(cfg, chunks + [chunk]);
            && (after.result.Ok? <==> step.result.Ok?)
            && (step.result.Ok? ==>
                  && after.state == step.state
                  && RenderResponses(json, after.result.value)
                     == RenderResponses(json, before.result.value) + RenderResponses(json, step.result.value))
  {
    hide R.Encode, RenderResponses;
    assert (chunks + [chunk])[..|chunks|] == chunks;
    var before := R.EncodeAll(cfg, chunks);
    var step := R.Encode(cfg, before.state, chunk);
    if step.result.Ok? {
      RenderResponsesConcat(json, before.result.value, step.result.value);
    }
  }

  lemma AnthropicGoesOn(cfg: A.Config, json: A.Event -> string, chunks: seq<Chunk>, chunk: Chunk)
    requires A.EncodeAll(cfg, chunks).result.Ok?
    ensures var before := A.EncodeAll(cfg, chunks);
            var step := A.Encode(cfg, before.state, chunk);
            var after := A.EncodeAll(cfg, chunks + [chunk]);
            && (after.result.Ok? <==> step.result.Ok?)
            && (step.result.Ok? ==>
                  && after.state == step.state
                  && RenderAnthropic(json, after.result.value)
                     == RenderAnthropic(json, before.result.value) + RenderAnthropic(json, step.result.value))
  {
    hide A.Encode, RenderAnthropic;
    assert (chunks + [chunk])[..|chunks|] == chunks;
    var before := A.EncodeAll(cfg, chunks);
    var step := A.Encode(cfg, before.state, chunk);
    if step.result.Ok? {
      RenderAnthropicConcat(json, before.result.value, step.result.value);
    }
  }

  lemma NothingEncoded(rc: R.Config, ac: A.Config)
    ensures R.EncodeAll(rc, []).state == R.INITIAL && A.EncodeAll(ac, []).state == A.INITIAL
  {
  }

  method EncodeData(encoder: Encoder, chunk: Chunk, ghost chunks: seq<Chunk>) returns (body: Option<string>)
    requires !encoder.Passthrough? && At(encoder, chunks)
    modifies Objects(encoder)
    ensures body.Some? ==> At(encoder, chunks + [chunk])
    ensures body.Some? ==>
              Rendering(ProtocolOf(encoder), chunks + [chunk])
              == Some(Rendering(ProtocolOf(encoder), chunks).value + body.value)
    ensures body.None? ==> Rendering(ProtocolOf(encoder), chunks + [chunk]).None?
    ensures chunks == [] && body.Some? ==> body.value != ""
  {
    hide R.Encode, A.Encode, R.EncodeAll, A.EncodeAll, RenderResponses, RenderAnthropic;
    match encoder {
      case ToResponses(e, json) =>
        NothingEncoded(e.cfg, A.Config("", ""));
        FirstChunkSpeaks(e.cfg, A.Config("", ""), chunk);
        ResponsesGoesOn(e.cfg, json, chunks, chunk);
        var result := e.EncodeChunk(chunk);
        if result.Err? {
          return None;
        }
        RenderSpeaks(json, (x: A.Event) => "", result.value, []);
        body := Some(RenderResponses(json, result.value));
      case ToAnthropic(e, json) =>
        NothingEncoded(R.Config("", "", 0, map[]), e.cfg);
        FirstChunkSpeaks(R.Config("", "", 0, map[]), e.cfg, chunk);
        AnthropicGoesOn(e.cfg, json, chunks, chunk);
        var result := e.EncodeChunk(chunk);
        if result.Err? {
          return None;
        }
        RenderSpeaks((x: R.Event) => "", json, [], result.value);
        body := Some(RenderAnthropic(json, result.value));
    }
  }

  // A finished translation always ends with at least one event.
  lemma FinishSpeaks(rc: R.Config, jsonObject: string -> bool, rs: R.State, as_: A.State, usage: TokenUsage)
    ensures R.Finish(rc, jsonObject, rs, usage).result.Ok? ==> R.Finish(rc, jsonObject, rs, usage).result.value != []
    ensures A.Finish(jsonObject, as_, usage).result.Ok? ==> A.Finish(jsonObject, as_, usage).result.value != []
  {
    hide R.FinishText, R.FinishTools, R.FinishedItems, R.SortByIndex;
  }

  method FinishEncoding(encoder: Encoder, usage: TokenUsage, ghost chunks: seq<Chunk>) returns (body: Option<string>)
    requires !encoder.Passthrough? && At(encoder, chunks)
    modifies Objects(encoder)
    ensures body.Some? ==>
              && body.value != ""
              && FullRendering(ProtocolOf(encoder), chunks, usage)
                 == Some(Rendering(ProtocolOf(encoder), chunks).value + body.value)
    ensures body.None? ==> FullRendering(ProtocolOf(encoder), chunks, usage).None?
  {
    hide R.Finish, A.Finish, R.EncodeAll, A.EncodeAll, RenderResponses, RenderAnthropic;
    match encoder {
      case ToResponses(e, json) =>
        FinishSpeaks(e.cfg, e.jsonObject, e.Model(), A.INITIAL, usage);
        var result := e.FinishStream(usage);
        if result.Err? {
          return None;
        }
        RenderSpeaks(json, (x: A.Event) => "", result.value, []);
        RenderResponsesConcat(json, R.EncodeAll(e.cfg, chunks).result.value, result.value);
        body := Some(RenderResponses(json, result.value));
      case ToAnthropic(e, json) =>
        FinishSpeaks(R.Config("", "", 0, map[]), e.jsonObject, R.INITIAL, e.Model(), usage);
        var result := e.FinishStream(usage);
        if result.Err? {
          return None;
        }
        RenderSpeaks((x: R.Event) => "", json, [], result.value);
        RenderAnthropicConcat(json, A.EncodeAll(e.cfg, chunks).result.value, result.value);
        body := Some(RenderAnthropic(json, result.value));
    }
  }

  // --- Frames read and bytes handed on ----------------------------------------------------

  predicate Done(frame: Reading) {
    frame.Frame? && frame.hasData && frame.data == "[DONE]"
  }

  predicate NoneDone(frames: seq<Reading>) {
    forall frame <- frames :: !Done(frame)
  }

  // The chunks in these frames; None when one of them does not parse.
  function Parsed(parse: string -> Option<Chunk>, frames: seq<Reading>): Option<seq<Chunk>> {
    if frames == [] then Some([]) else
    var before := Parsed(parse, frames[..|frames| - 1]);
    var last := frames[|frames| - 1];
    if before.None? || last.Broken? || !last.hasData || Done(last) then before
    else if parse(last.data).None? then None
    else Some(before.value + [parse(last.data).value])
  }

  lemma {:induction false} RawConcat(a: seq<Reading>, b: seq<Reading>)
    ensures Raw(a + b) == Raw(a) + Raw(b)
  {
    if a == [] {
      assert a + b == b;
    } else {
      RawConcat(a[1..], b);
      assert (a + b)[1..] == a[1..] + b;
    }
  }

  lemma RawOne(frame: Reading)
    ensures Raw([frame]) == frame.raw
  {
    assert [frame][1..] == [];
  }

  lemma RawSplit(frames: seq<Reading>, sent: nat)
    requires sent <= |frames|
    ensures Raw(frames) == Raw(frames[..sent]) + Raw(frames[sent..])
  {
    hide Raw;
    RawConcat(frames[..sent], frames[sent..]);
    assert frames == frames[..sent] + frames[sent..];
  }

  // How far an attempt came: the frames it answers for, the chunks in them, and whether it ended.
  datatype Progress = Progress(sent: nat, chunks: seq<Chunk>, finished: bool)

  // What was handed on is exactly what the first `sent` frames call for.
  predicate Carried(p: Progress, protocol: Protocol, parse: string -> Option<Chunk>, frames: seq<Reading>, handed: string) {
    && p.sent <= |frames|
    && (if protocol.ChatCompletions? then handed == Raw(frames[..p.sent])
        else
          && Parsed(parse, frames[..p.sent]) == Some(p.chunks)
          && AllAllowed(p.chunks)
          && Some(handed) == if p.finished then FullRendering(protocol, p.chunks, Reported(p.chunks)) else Rendering(protocol, p.chunks))
  }

  // The frames up to the first [DONE] were answered for; every chunk in them is allowed, one lists a
  // choice and one states a finish reason.
  predicate Completed(p: Progress, parse: string -> Option<Chunk>, frames: seq<Reading>) {
    && p.finished && 0 < p.sent <= |frames|
    && Done(frames[p.sent - 1]) && NoneDone(frames[..p.sent - 1])
    && Parsed(parse, frames[..p.sent]) == Some(p.chunks)
    && AllAllowed(p.chunks) && ChoiceOffered(p.chunks) && ReasonStated(p.chunks)
  }

  // Reading a longer input first gives the same frames.
  lemma {:induction false} FramesExtend(input: string, later: string)
    ensures |Frames(input)| <= |Frames(input + later)|
    ensures forall i | 0 <= i < |Frames(input)| :: Frames(input + later)[i].(rest := "") == Frames(input)[i].(rest := "")
    decreases |input|
  {
    hide ReadFrom;
    var reading := ReadFrame(input);
    if reading.Frame? {
      ReadShrinks("", [], input);
      ReadPrefix("", [], input, reading.rest + later);
      assert reading.raw[|""|..] == reading.raw && "" + input == input;
      assert reading.raw + (reading.rest + later) == input + later;
      FramesExtend(reading.rest, later);
      var longer := Frame(reading.raw, reading.data, reading.hasData, reading.rest + later);
      assert ReadFrame(input + later) == longer;
      assert Frames(input + later) == [longer] + Frames(longer.rest);
      assert Frames(input) == [reading] + Frames(reading.rest);
    }
  }

  lemma {:induction false} SameRaw(a: seq<Reading>, b: seq<Reading>)
    requires |a| == |b| && forall i | 0 <= i < |a| :: a[i].(rest := "") == b[i].(rest := "")
    ensures Raw(a) == Raw(b)
  {
    if a != [] {
      assert a[0].(rest := "") == b[0].(rest := "");
      SameRaw(a[1..], b[1..]);
    }
  }

  // Bytes handed on from a cut-off input are a frame-aligned prefix of the whole upstream.
  lemma HandedIsUpstream(bytes: string, cut: nat, sent: nat)
    requires cut <= |bytes| && sent <= |Frames(bytes[..cut])|
    ensures sent <= |Frames(bytes)|
    ensures Raw(Frames(bytes[..cut])[..sent]) == Raw(Frames(bytes)[..sent]) <= bytes
    ensures forall i | 0 <= i < sent :: Done(Frames(bytes[..cut])[i]) <==> Done(Frames(bytes)[i])
  {
    hide Frames, Raw;
    assert bytes[..cut] + bytes[cut..] == bytes;
    FramesExtend(bytes[..cut], bytes[cut..]);
    var part, whole := Frames(bytes[..cut]), Frames(bytes);
    forall i | 0 <= i < sent
      ensures part[i].(rest := "") == whole[i].(rest := "")
    {
    }
    SameRaw(part[..sent], whole[..sent]);
    RawIsConsumed(bytes);
    RawSplit(whole, sent);
    assert Raw(whole) + Remaining(bytes) == Raw(whole[..sent]) + (Raw(whole[sent..]) + Remaining(bytes));
  }
}
