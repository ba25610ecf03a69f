/** What a client of the streaming gateway holds once a request was relayed, put together from its parts. */
module EndToEnd {
  import opened Wrappers
  import opened StreamChunks
  import opened RawStreams
  import opened Completions
  import opened SseFrames
  import opened StreamRelay
  import opened StreamOutcome
  import opened StreamingGateway
  import R = ResponsesStream
  import RC = ResponsesClient
  import RT = ResponsesTrace
  import RG = ResponsesGrammar
  import RB = ResponsesBuffered
  import A = AnthropicStream
  import AT = AnthropicTrace
  import AG = AnthropicGrammar
  import AB = AnthropicBuffered
  import RF = ResponsesFromChunks
  import AF = AnthropicFromChunks
  import T = ToolAliases
  import TR = ToolAliasRules

  // Without an encoder the bytes handed on are a frame-aligned prefix of the upstream's own bytes,
  // and a completed relay ends with the upstream's first [DONE] frame.
  lemma PassthroughLossless(
    p: Progress, parse: string -> Option<Chunk>, world: StreamWorld, maxResponseBytes: nat, handed: string)
    requires Carried(p, ChatCompletions, parse, ReadableFrames(world, maxResponseBytes), handed)
    ensures var all := Frames(UpstreamBytes(world));
            p.sent <= |all| && handed == Raw(all[..p.sent]) <= UpstreamBytes(world)
    ensures Completed(p, parse, ReadableFrames(world, maxResponseBytes)) ==>
              var all := Frames(UpstreamBytes(world));
              0 < p.sent && Done(all[p.sent - 1]) && NoneDone(all[..p.sent - 1])
  {
    hide Frames, Raw, Parsed, ConsumeAll, Limit, UpstreamBytes, Done;
    var bytes := UpstreamBytes(world);
    var part, all := ReadableFrames(world, maxResponseBytes), Frames(bytes);
    HandedIsUpstream(bytes, Limit(bytes, maxResponseBytes), p.sent);
    if Completed(p, parse, part) {
      assert part[..p.sent - 1] <= part;
      forall frame | frame in all[..p.sent - 1]
        ensures !Done(frame)
      {
        var k :| 0 <= k < p.sent - 1 && all[k] == frame;
        assert part[k] in part[..p.sent - 1];
      }
    }
  }

  // What the client of a Responses relay was told: a grammatical trace of exactly what the chunks carried,
  // whose terminal event agrees with the buffered answer to them under the known conditions.
  predicate TellsResponses(protocol: Protocol, chunks: seq<Chunk>, created: int, trace: seq<R.Event>)
    requires protocol.Responses?
  {
    var cfg := protocol.responsesConfig;
    var buffered := RB.EncodeResponse(cfg, protocol.jsonObject, Assemble(chunks, created));
    && RF.Told(cfg, chunks, Reported(chunks), trace) && buffered.Some?
    && var streamed := trace[|trace| - 1].body.response;
       && RG.Grammatical(trace, streamed.output)
       && streamed.id == buffered.value.id && streamed.model == buffered.value.model
       && streamed.status == buffered.value.status && streamed.incompleteReason == buffered.value.incompleteReason
       && (streamed.createdAt == buffered.value.createdAt <==> created <= 0 || created == cfg.createdAt)
       && (streamed.output == buffered.value.output <==> RB.Canonical(Appearances(Pieces(chunks))))
       && (streamed.usage == buffered.value.usage <==> RB.Unconflicted(LastUsage(chunks)))
  }

  // A completed Responses relay hands on exactly the rendering of such a trace.
  lemma ResponsesRelay(
    p: Progress, protocol: Protocol, parse: string -> Option<Chunk>, frames: seq<Reading>, handed: string,
    created: int)
    returns (trace: seq<R.Event>)
    requires protocol.Responses? && RB.NamedAliases(protocol.responsesConfig.aliases)
    requires Carried(p, protocol, parse, frames, handed) && Completed(p, parse, frames)
    ensures handed == RenderResponses(protocol.responsesJson, trace)
    ensures TellsResponses(protocol, p.chunks, created, trace)
  {
    hide RG.Grammatical, R.Translate, RB.EncodeResponse, Assemble, RB.Canonical, RB.Unconflicted, Parsed, ConsumeAll,
      RenderResponses, Raw, RB.NamedAliases, Appearances, Pieces;
    var cfg, jsonObject := protocol.responsesConfig, protocol.jsonObject;
    var usage := Reported(p.chunks);
    AcceptsExactly("", p.chunks);
    trace := R.Translate(cfg, jsonObject, p.chunks, usage).result.value;
    RG.FinishedStreamGrammatical(cfg, jsonObject, p.chunks, usage);
    RF.FinishedTells(cfg, jsonObject, p.chunks, usage);
    RB.StreamingRefinesBuffered(cfg, jsonObject, "", p.chunks, created);
  }

  // What the client of an Anthropic relay was told: a framed, strictly bracketed trace whose block
  // deltas rebuild what the upstream sent, compared with the buffered message.
  predicate TellsAnthropic<J(==)>(protocol: Protocol, input: string -> Option<J>, chunks: seq<Chunk>, created: int, trace: seq<A.Event>)
    requires protocol.Anthropic?
  {
    var pieces := Pieces(chunks);
    var order := Appearances(pieces);
    var streamed := AB.Streamed(input, trace);
    var buffered := AB.EncodeResponse(protocol.anthropicConfig, protocol.jsonObject, input, Assemble(chunks, created));
    && AF.Told(protocol.anthropicConfig, chunks, Reported(chunks), trace)
    && AT.ReceiveAll(AT.FRESH, trace).Some? && AF.OwedBlocks(chunks, order, AT.ReceiveAll(AT.FRESH, trace).value.blocks)
    && AG.Framed(trace) && AG.Marks(trace) == AG.Alternating(|order|)
    && (forall k | 0 <= k < |order| :: AG.Deltas(trace, k) == OwedPayload(chunks, order[k]))
    && (AG.DeltasNameOpenBlock(trace) <==> AT.SinglePass(pieces))
    && streamed.Some? && (buffered.Some? <==> order != [] && AB.Readable(input, Assemble(chunks, created).calls))
    && (buffered.Some? ==>
          && streamed.value.id == buffered.value.id && streamed.value.model == buffered.value.model
          && streamed.value.stopReason == buffered.value.stopReason
          && streamed.value.usage.output == buffered.value.usage.output
          && (streamed.value.content == buffered.value.content <==> AB.InPlace(input, pieces))
          && (streamed.value.usage == buffered.value.usage <==> AB.OnlyOutput(LastUsage(chunks))))
  }

  // A completed Anthropic relay hands on exactly the rendering of such a trace.
  lemma AnthropicRelay<J>(
    p: Progress, protocol: Protocol, parse: string -> Option<Chunk>, frames: seq<Reading>, handed: string,
    input: string -> Option<J>, created: int)
    returns (trace: seq<A.Event>)
    requires protocol.Anthropic?
    requires Carried(p, protocol, parse, frames, handed) && Completed(p, parse, frames)
    ensures handed == RenderAnthropic(protocol.anthropicJson, trace)
    ensures TellsAnthropic(protocol, input, p.chunks, created, trace)
  {
    hide A.Translate, AG.Framed, AG.Marks, AG.Deltas, AG.DeltasNameOpenBlock, Parsed, ConsumeAll, RenderAnthropic, Raw, Appearances, Pieces,
      AT.SinglePass, AB.EncodeResponse, AB.Readable, AB.Streamed, AB.InPlace, AB.OnlyOutput, AB.TextFirst, AB.ToolsAscend, AB.DistinctIds, Assemble,
      AF.Told, AF.OwedBlocks, AT.ReceiveAll, Payload, OwedPayload, AllAllowed, ChoiceOffered, ReasonStated, Reported, LastUsage;
    var cfg, jsonObject := protocol.anthropicConfig, protocol.jsonObject;
    var usage := Reported(p.chunks);
    AcceptsExactly("", p.chunks);
    trace := A.Translate(cfg, jsonObject, p.chunks, usage).result.value;
    AG.FinishedStreamGrammatical(cfg, jsonObject, p.chunks, usage);
    AF.FinishedTells(cfg, jsonObject, p.chunks, usage);
    AF.FinishedHolds(cfg, jsonObject, p.chunks, usage);
    AB.StreamingRefinesBuffered(cfg, jsonObject, input, "", p.chunks, created);
  }

  // --- Served requests --------------------------------------------------------------------

  // What the server guarantees of a stream whose last attempt succeeded.
  predicate Succeeds(request: StreamRequest, tries: seq<Try>, p: Progress, handed: string, delivered: string) {
    Accounted(request, tries, p, handed, delivered) && tries[|tries| - 1].result.success
  }

  // A served chat completion delivers the upstream's bytes up to its first [DONE] frame.
  lemma ServedPassthrough(request: StreamRequest, tries: seq<Try>, p: Progress, handed: string, delivered: string)
    requires request.protocol.ChatCompletions? && Succeeds(request, tries, p, handed, delivered)
    ensures var all := Frames(UpstreamBytes(request.attempts(|tries|)));
            && 0 < p.sent <= |all| && Done(all[p.sent - 1]) && NoneDone(all[..p.sent - 1])
            && delivered == Raw(all[..p.sent])
  {
    hide Frames, Raw, Carried, Completed, UpstreamBytes, Done;
    PassthroughLossless(p, request.parse, request.attempts(|tries|), request.maxResponseBytes, handed);
  }

  // A served Responses request, its aliases built from the declared tools whatever the hash: every byte
  // delivered belongs to a trace that agrees with the buffered answer.
  lemma ServedResponses(
    request: StreamRequest, tries: seq<Try>, p: Progress, handed: string, delivered: string,
    hash: string -> string, values: seq<T.Declared>, created: int)
    returns (trace: seq<R.Event>)
    requires request.protocol.Responses? && T.Hexadecimal(hash) && T.ToolsToChat(hash, values).Some?
    requires request.protocol.responsesConfig.aliases == T.ToolsToChat(hash, values).value.aliases
    requires Succeeds(request, tries, p, handed, delivered)
    ensures delivered == RenderResponses(request.protocol.responsesJson, trace)
    ensures TellsResponses(request.protocol, p.chunks, created, trace)
  {
    hide Carried, Completed, TellsResponses, RenderResponses, T.Hexadecimal, T.ToolsToChat, RB.NamedAliases, ReadableFrames;
    TR.AliasesAreNamed(hash, values);
    var world := request.attempts(|tries|);
    trace := ResponsesRelay(
      p, request.protocol, request.parse, ReadableFrames(world, request.maxResponseBytes), handed, created);
  }

  lemma ServedAnthropic<J>(
    request: StreamRequest, tries: seq<Try>, p: Progress, handed: string, delivered: string, input: string -> Option<J>, created: int)
    returns (trace: seq<A.Event>)
    requires request.protocol.Anthropic? && Succeeds(request, tries, p, handed, delivered)
    ensures delivered == RenderAnthropic(request.protocol.anthropicJson, trace)
    ensures TellsAnthropic(request.protocol, input, p.chunks, created, trace)
  {
    hide Carried, Completed, TellsAnthropic, RenderAnthropic, ReadableFrames;
    var world := request.attempts(|tries|);
    trace := AnthropicRelay(
      p, request.protocol, request.parse, ReadableFrames(world, request.maxResponseBytes), handed, input, created);
  }

  // --- However it ends --------------------------------------------------------------------

  // The client holds, item by item, what the chunks carried so far.
  predicate HoldsItems(c: RC.Client, requestId: string, slots: seq<Slot>, chunks: seq<Chunk>) {
    && OwedSlots(chunks, slots) && |c.items| == |slots|
    && forall k | 0 <= k < |slots| ::
         && c.items[k].received == OwedPayload(chunks, slots[k])
         && c.items[k].added.id == match slots[k]
                                   case TextSlot => R.MessageId(requestId)
                                   case ToolSlot(index) => R.CallId(requestId, index)
  }

  lemma StreamedItems(cfg: R.Config, chunks: seq<Chunk>)
    requires R.EncodeAll(cfg, chunks).result.Ok?
    ensures var c := RC.ReceiveAll(RC.FRESH, R.EncodeAll(cfg, chunks).result.value);
            c.Some? && HoldsItems(c.value, cfg.requestId, Appearances(Pieces(chunks)), chunks)
  {
    hide R.EncodeAll, Pieces, Payload, Opening, OwedSlots, OwedPayload, Translatable, RC.Receive, RT.ToolTracks, RF.FragmentsFit;
    RT.StreamAgrees(cfg, chunks);
    RF.EncodesWhen(cfg, chunks);
    SlotsOwed(chunks);
    var s, pieces := R.EncodeAll(cfg, chunks).state, Pieces(chunks);
    if chunks == [] {
      NothingSent();
    } else {
      ViewHolds(cfg, s, chunks);
    }
  }

  lemma NothingSent()
    ensures Pieces([]) == [] && Appearances([]) == []
    ensures RC.ReceiveAll(RC.FRESH, []) == Some(RC.FRESH)
    ensures AT.ReceiveAll(AT.FRESH, []) == Some(AT.FRESH)
  {
  }

  lemma ViewHolds(cfg: R.Config, s: R.State, chunks: seq<Chunk>)
    requires RT.Tracks(cfg, s, Pieces(chunks)) && OwedSlots(chunks, Appearances(Pieces(chunks)))
    requires forall slot :: Payload(Pieces(chunks), slot) == OwedPayload(chunks, slot)
    ensures HoldsItems(RT.View(cfg, s, Appearances(Pieces(chunks)), {}), cfg.requestId, Appearances(Pieces(chunks)), chunks)
  {
    hide Payload, OwedPayload, OwedSlots, Opening, Appearances, Pieces, RT.Ordered;
    var slots := Appearances(Pieces(chunks));
    var items := RT.SlotItems(cfg, s, slots, {});
    forall k | 0 <= k < |slots|
      ensures items[k].received == OwedPayload(chunks, slots[k])
      ensures items[k].added.id == match slots[k]
                                   case TextSlot => R.MessageId(cfg.requestId)
                                   case ToolSlot(index) => R.CallId(cfg.requestId, index)
    {
      assert items[k] == RT.SlotItem(cfg, s, slots[k], {});
    }
  }

  // However a Responses relay ends: what was delivered is a prefix of the rendering of events that a
  // strict client takes one and all, and it holds what the chunks relayed until then carried.
  lemma HandedResponses(request: StreamRequest, tries: seq<Try>, p: Progress, handed: string, delivered: string)
    returns (trace: seq<R.Event>)
    requires request.protocol.Responses? && Accounted(request, tries, p, handed, delivered)
    ensures delivered <= handed == RenderResponses(request.protocol.responsesJson, trace)
    ensures RC.ReceiveAll(RC.FRESH, trace).Some?
    ensures !p.finished ==> HoldsItems(RC.ReceiveAll(RC.FRESH, trace).value, request.protocol.responsesConfig.requestId, Appearances(Pieces(p.chunks)), p.chunks)
  {
    hide R.EncodeAll, R.Translate, RC.ReceiveAll, RenderResponses, HoldsItems, Parsed, ConsumeAll, ReadableFrames, Completed, Pieces;
    var cfg, jsonObject := request.protocol.responsesConfig, request.protocol.jsonObject;
    if p.finished {
      var usage := Reported(p.chunks);
      trace := R.Translate(cfg, jsonObject, p.chunks, usage).result.value;
      RT.FinishedStreamAccepted(cfg, jsonObject, p.chunks, usage);
    } else {
      trace := R.EncodeAll(cfg, p.chunks).result.value;
      StreamedItems(cfg, p.chunks);
    }
  }

  lemma StreamedBlocks(cfg: A.Config, chunks: seq<Chunk>)
    requires A.EncodeAll(cfg, chunks).result.Ok?
    ensures var c := AT.ReceiveAll(AT.FRESH, A.EncodeAll(cfg, chunks).result.value);
            c.Some? && AF.OwedBlocks(chunks, Appearances(Pieces(chunks)), c.value.blocks)
  {
    hide A.EncodeAll, Pieces, Payload, Opening, OwedSlots, Translatable, AT.Receive, AT.Tracks, AT.Carries, AT.Strays, AF.FragmentsFit, AF.OwedBlocks;
    AT.StreamAgrees(cfg, chunks);
    AF.EncodesWhen(cfg, chunks);
    var s, pieces := A.EncodeAll(cfg, chunks).state, Pieces(chunks);
    if chunks == [] {
      NothingSent();
      NothingOwed();
    } else {
      AT.BlocksCarry(s, pieces);
      AF.BlocksOwed(chunks, AT.SlotBlocks(s, Appearances(pieces)));
      AT.ViewFields(s, Appearances(pieces), AT.Strays(pieces));
    }
  }

  lemma NothingOwed()
    ensures AF.OwedBlocks([], [], [])
  {
  }

  // However an Anthropic relay ends.
  lemma HandedAnthropic(request: StreamRequest, tries: seq<Try>, p: Progress, handed: string, delivered: string)
    returns (trace: seq<A.Event>)
    requires request.protocol.Anthropic? && Accounted(request, tries, p, handed, delivered)
    ensures delivered <= handed == RenderAnthropic(request.protocol.anthropicJson, trace)
    ensures AT.ReceiveAll(AT.FRESH, trace).Some? && AF.OwedBlocks(p.chunks, Appearances(Pieces(p.chunks)), AT.ReceiveAll(AT.FRESH, trace).value.blocks)
  {
    hide A.EncodeAll, A.Translate, AT.ReceiveAll, RenderAnthropic, AF.OwedBlocks, Parsed, ConsumeAll, ReadableFrames, Completed, Pieces, AT.Carries, AT.SinglePass;
    var cfg, jsonObject := request.protocol.anthropicConfig, request.protocol.jsonObject;
    if p.finished {
      var usage := Reported(p.chunks);
      trace := A.Translate(cfg, jsonObject, p.chunks, usage).result.value;
      AF.FinishedHolds(cfg, jsonObject, p.chunks, usage);
    } else {
      trace := A.EncodeAll(cfg, p.chunks).result.value;
      StreamedBlocks(cfg, p.chunks);
    }
  }
}
