# Alzette gateway: verified model

Dafny model of the parts of Alzette, an inference gateway, whose behaviour spans many steps. Five
components are modelled in the source's own form: objects whose fields change are classes, loops are
loops, and each method is tied to a specification function or predicate about which the properties are
proved.

- **Streaming translator.** Chat Completions chunks become OpenAI Responses events (`ResponsesStream`,
  `ResponsesEncoder`, `ResponsesClient`, `ResponsesTrace`, `ResponsesGrammar`, `ResponsesBuffered`) or
  Anthropic Messages events (`AnthropicStream`, `AnthropicEncoder`, `AnthropicTrace`,
  `AnthropicGrammar`, `AnthropicBuffered`). `EncodableStreams`, `ResponsesEncodable` and
  `AnthropicEncodable` give the conditions of each piece. `RawStreams`, `ResponsesFromChunks`,
  `AnthropicFromChunks` and `ResponsesClosing` say of the raw chunks alone which streams are taken and
  what their clients are told; `FragmentedStream` follows one to its last event. `StreamChunks` holds
  the chunks and the accumulator, `EncoderSteps` the shape of an encoder's operation, `Completions` the
  completion a stream assembles to, `ExampleStreams` the short streams on which streaming and buffering
  part. Every trace is judged by a client that knows nothing of the encoder. `EndToEnd` puts the pieces
  together.
- **Streams on the wire and the request lifecycle.** The frame reader (`SseFrames`,
  `SseLines`, `SseCarriageReturns`), sink and relay (`StreamRelay`, `WireFormat`), attempts and retry
  loops (`Attempts`, `BufferedGateway`, `StreamOutcome`, `StreamVerdicts`, `StreamingGateway`, `Gateway`) and the ledger
  they write (`Ledger`, `RequestRecords`).
- **Agent credentials.** Grants, token generations and idempotent mints as transactions over tables
  (`AgentStore`, `AgentDatabase`), what each does row by row (`AgentStoreRules`), the invariants of
  every reachable state (`AgentStoreSafety`), whole runs (`AgentStoreRuns`, `AgentStoreRevival`), and
  the canonical request (`AgentService`).
- **Conversations and tools.** The message validator (`Messages`, `MessageRules`), the Anthropic
  conversion (`AnthropicConversion`, `AnthropicReading`, `AnthropicAccepted`, `AnthropicPairing`), tool
  definitions (`ToolDefinitions`) and the alias table of namespaced tools (`ToolAliases`, `ToolAliasRules`).
- **Usage analytics.** `UsageRecords`, `PeakConcurrency`, `Percentiles`, `TokenTotals`, `Breakdowns`,
  `RouteObservation`, with every figure said of the listed requests in `ReportFigures`, over `Ordering`
  and `StringOrder`.

Store answers, provider outcomes, writer faults, pauses, digests and the JSON decoder are parameters of
the methods and lemmas, so every result holds for all of them. A string holds one char a byte.

Where code and its comments disagree the model follows the code. `internal/store/postgres/agentauth.go:215-218`
calls policy revocations terminal; the trigger of migration 0014 keeps a revocation that is already
there, so a grant that was logged out before its owner was disabled can be renewed once the owner is
enabled again. `AgentStoreRevival.DisabledForGood` gives the exact condition and
`AgentStoreRevival.LogoutOutlivesDisabling` a run. Further places where two parts of the source, or the
source and a standard, differ have their exact conditions and a concrete input each: carriage returns
inside a line of an event stream (`SseCarriageReturns`), streamed against buffered responses
(`ResponsesBuffered`, `AnthropicBuffered`), and Anthropic deltas that name a stopped block
(`AnthropicGrammar`).

`dafny verify dfyconfig.toml` checks the whole project.

## Model

| member | source | states |
|---|---|---|
| ResponsesEncoder.ResponsesStreamEncoder.StartStream | internal/gateway/protocol_stream.go:93-109 | the first chunk announces the response twice under a safe id, a later one says nothing; the new state is the model's `Start` |
| ResponsesEncoder.ResponsesStreamEncoder.EncodeChunk | internal/gateway/protocol_stream.go:111-196 | one chunk changes the encoder's fields and emits events exactly as `ResponsesStream.Encode` says, errors and the half-done state behind them included |
| ResponsesEncoder.ResponsesStreamEncoder.TakeCalls | internal/gateway/protocol_stream.go:152-194 | the call fragments of a chunk, in order, open tools or extend their arguments until one is refused |
| ResponsesEncoder.ResponsesStreamEncoder.CloseTools | internal/gateway/protocol_stream.go:225-251 | tools are closed in ascending index order; the first whose arguments are no object ends the stream with an error |
| ResponsesEncoder.ResponsesStreamEncoder.FinishStream | internal/gateway/protocol_stream.go:198-276 | the end of a stream closes text, then tools, then the response, as `ResponsesStream.Finish` says |
| ResponsesTrace.FinishedStreamAccepted | internal/gateway/protocol_stream.go:86-276 | every finished stream satisfies a strict client that checks numbering, item lifecycles, repeated payloads and the terminal event, and its final output lists the finished items by first appearance |
| ResponsesTrace.StreamAgrees | internal/gateway/protocol_stream.go:111-196 | after any accepted chunks that client holds exactly the encoder's open items with the text and arguments so far |
| ResponsesTrace.OutputByIndex | internal/gateway/protocol_stream.go:255-259 | sorting the finished items by allocated index puts the item with index i at position i |
| ResponsesGrammar.AcceptedTraceGrammatical | internal/gateway/protocol_stream.go:86-276 | a trace that client accepts is created, in progress, item events, one terminal event; numbered 1 to n; output indices 0 to m-1; each item added once before its deltas and done once after; each done payload is its deltas joined |
| ResponsesGrammar.FinishedStreamGrammatical | internal/gateway/protocol_stream.go:86-276 | so every finished stream has that grammar, with position i of the final output holding item i |
| ResponsesBuffered.StreamingRefinesBuffered | internal/gateway/protocol_responses.go:331-405 | for every finished stream the terminal event equals the buffered answer to the assembled completion in id, model, status and incomplete details; in created_at if and only if the completion has no time of its own or the gateway's; in output if and only if text (if any) comes first and tools 0..n-1 in order; in usage if and only if the last report's nested and top-level details do not contradict |
| ResponsesBuffered.StreamingAcceptsBuffered | internal/gateway/protocol_stream.go:198-276 | a stream whose chunks were all encoded finishes if and only if the buffered encoder takes the assembled completion and its last finish reason is stop, length or tool_calls |
| ResponsesEncodable.EncodesExactly | internal/gateway/protocol_stream.go:111-196 | the encoder takes a stream if and only if every chunk decodes, every tool opens with a valid id and name, and later fragments name no other id and no other public name |
| ResponsesEncodable.FinishesExactly | internal/gateway/protocol_stream.go:111-276 | it finishes one if and only if, besides, there is a chunk, the buffered encoder takes the completion and the last finish reason is stop, length or tool_calls |
| ResponsesBuffered.UsageAgrees | internal/gateway/gateway.go:596-622 | the streaming usage (top level first) and the buffered usage (nested first) read a report alike if and only if it is not conflicted |
| ResponsesBuffered.GreetingFinishes | internal/gateway/protocol_stream.go:198-276 | a single chunk of text that stops is a whole finished stream, so the results above speak of something |
| ResponsesBuffered.ConflictingUsageParts | internal/gateway/protocol_responses.go:387-398 | a concrete report the two usage readings read differently, 1 and 2 cached tokens |
| ResponsesBuffered.PartingStream | internal/gateway/protocol_stream.go:111-276 | a concrete stream, a call, then text, then a conflicting report, that finishes and whose streamed response differs from the buffered one in output and in usage |
| RawStreams.AcceptsExactly | internal/gateway/stream.go:396-480 | the accumulator takes a stream if and only if no chunk reports an error, every chunk lists at most 128 choices or reports usage, usage comes only behind a listed choice and without negative counts, roles, indices, ids and names of every listed choice are allowed, and every stated reason is stop, length or tool_calls; it then knows whether a choice was listed, whether a reason was stated, the last report's counts and certainty, and the last id and model that may be shown |
| RawStreams.PiecesSay | internal/gateway/protocol_stream.go:46-75 | over translatable chunks the text slot carries the content of every chunk's one delta joined, and tool i the arguments of every fragment with index i joined, named or not; a slot is there if and only if something was said or fragmented for it, and its first fragment opens it |
| RawStreams.RefusedBecause | internal/gateway/protocol_stream.go:46-75 | which chunk is refused for want of a choice, for other than one choice numbered 0, and for a bad delta |
| ResponsesFromChunks.EncodesWhen | internal/gateway/protocol_stream.go:111-196 | the Responses encoder takes a stream if and only if every chunk is translatable, the first fragment of each tool brings a valid id and name, and a later one brings neither or the same id and a name shown alike |
| ResponsesFromChunks.FinishesWhen | internal/gateway/protocol_stream.go:198-276 | it finishes one if and only if, besides, there is a chunk, something was said or called, the joined arguments of every tool are an object, and the last stated reason is stop, length or tool_calls |
| ResponsesFromChunks.RefusedBecause | internal/gateway/protocol_stream.go:198-254 | which of the four errors a stream that does not finish ends with |
| ResponsesFromChunks.FinishedTells | internal/gateway/protocol_stream.go:86-276 | every finished stream opens with two announcements under the first chunk's id where it may be shown, else the request's; its last event says incomplete for length, completed for stop and tool_calls, counts the tokens of the report it was given, and lists exactly the text said and, for each tool, the call its first fragment names with the arguments of all its fragments |
| ResponsesFromChunks.BufferedTells | internal/gateway/protocol_responses.go:331-405 | which completions the buffered encoder refuses, and what the response says of the others, field by field |
| ResponsesClosing.ClosesInOrder | internal/gateway/protocol_stream.go:198-251 | the items of a finished stream are closed in one order: the text if there is any, then every tool by ascending index |
| FragmentedStream.ResponsesEvents | internal/gateway/protocol_stream.go:152-194 | a concrete finished stream whose call arrives in two fragments, the second without id or name, as all thirteen events its client receives |
| AnthropicEncoder.AnthropicStreamEncoder.EncodeChunk | internal/gateway/protocol_stream.go:334-405 | one chunk changes the encoder's fields and emits events exactly as `AnthropicStream.Encode` says |
| AnthropicEncoder.AnthropicStreamEncoder.CloseOpenBlock | internal/gateway/protocol_stream.go:325-332 | the open block, if any, is stopped once and none is open afterwards |
| AnthropicEncoder.AnthropicStreamEncoder.FinishStream | internal/gateway/protocol_stream.go:407-447 | the end of a stream as `AnthropicStream.Finish` says: every tool's arguments an object, the open block stopped, stop reason and usage, message stop |
| AnthropicTrace.FinishedStreamBracketed | internal/gateway/protocol_stream.go:307-447 | every finished stream leaves its client with no open block and, block by block, the text and arguments the upstream sent; no delta strays if and only if the upstream never returns to a slot it left |
| AnthropicGrammar.FinishedStreamGrammatical | internal/gateway/protocol_stream.go:307-447 | block starts and stops strictly alternate with indices 0,1,2,..., all before message_delta and message_stop; the deltas of block k are the joined payload of the k-th slot; every delta names the open block if and only if the upstream never returns to a slot it left |
| AnthropicGrammar.LateTextNamesClosedBlock | internal/gateway/protocol_stream.go:350-372 | a concrete finished stream, text after a tool call, whose last delta names a block that was stopped |
| AnthropicEncodable.EncodesExactly | internal/gateway/protocol_stream.go:334-405 | the encoder takes a stream if and only if every chunk decodes and every tool opens with a valid id and name |
| AnthropicEncodable.FinishesExactly | internal/gateway/protocol_stream.go:334-447 | it finishes one if and only if, besides, there is a chunk, all arguments are objects and the last finish reason is stop, length or tool_calls |
| AnthropicBuffered.StreamingRefinesBuffered | internal/gateway/protocol_anthropic.go:295-348 | for every finished stream the completion is taken by the buffered encoder if and only if it says anything and its arguments can be read; then the message a client puts together equals the buffered one in id, model, stop reason and output tokens; in content if and only if every block is in place, which for calls of distinct ids means text first and tools ascending by index; in usage if and only if no input and no cached tokens were reported |
| AnthropicBuffered.EachAccepts | internal/gateway/protocol_anthropic.go:295-327 | which of the two takes a stream whose chunks were all encoded: streaming if and only if all arguments are objects and the last finish reason is known; buffering if and only if all arguments are objects and readable by the second parse, there is content, and the reason is known or missing |
| AnthropicBuffered.ContentAgrees | internal/gateway/protocol_anthropic.go:304-316 | the client's blocks, read by any parser of tool input, are the buffered content if and only if each is, or is just like, the one that belongs in its place |
| AnthropicBuffered.SilenceParts | internal/gateway/protocol_stream.go:407-447 | a concrete message without content that is streamed to its end and refused when buffered |
| AnthropicBuffered.UnfinishedParts | internal/gateway/protocol_anthropic.go:317-327 | a concrete message without a finish reason that is refused when streamed and ends its turn when buffered |
| AnthropicBuffered.OverflowParts | internal/gateway/protocol_anthropic.go:307-311 | a concrete message whose arguments are an object with a number out of range, streamed to its end and refused when buffered |
| AnthropicBuffered.PartingStream | internal/gateway/protocol_stream.go:334-447 | a concrete stream that finishes and whose streamed message differs from the buffered one in content and in usage |
| AnthropicFromChunks.EncodesWhen | internal/gateway/protocol_stream.go:334-405 | the Anthropic encoder takes a stream if and only if every chunk is translatable and the first fragment of each tool brings a valid id and name |
| AnthropicFromChunks.FinishesWhen | internal/gateway/protocol_stream.go:407-447 | it finishes one if and only if, besides, there is a chunk, the joined arguments of every tool are an object, and the last stated reason is stop, length or tool_calls |
| AnthropicFromChunks.FinishedTells | internal/gateway/protocol_stream.go:407-447 | for every finished stream the client's stop reason is end_turn if and only if the last stated reason is stop, max_tokens if and only if it is length, tool_use if and only if it is tool_calls; it opens with the message's id and counts the output tokens of the report it was given |
| AnthropicFromChunks.FinishedHolds | internal/gateway/protocol_stream.go:334-405 | and the client holds one block of the text said, if any, and one for each tool, named by its first fragment and with the arguments of all |
| AnthropicFromChunks.BufferedTells | internal/gateway/protocol_anthropic.go:295-348 | the buffered message's stop reason is end_turn if and only if the reason is stop or missing, max_tokens for length, tool_use for tool_calls; which completions are refused, and the content and usage of the others |
| FragmentedStream.AnthropicEvents | internal/gateway/protocol_stream.go:377-405 | the same two-fragment stream as all nine Anthropic events |
| SseFrames.ByteReader.ReadLine | internal/gateway/stream.go:334-341 | reading up to and including the next line feed, or to the end |
| SseFrames.ByteReader.ReadSSEFrame | internal/gateway/stream.go:330-358 | the line loop reads exactly the frame `ReadFrame` describes: raw bytes, joined data lines, or a fault |
| SseFrames.RawIsConsumed | internal/gateway/stream.go:330-358 | the raw parts of all frames, put together, are the input that was consumed |
| SseFrames.FramesAgree | internal/gateway/stream.go:330-358 | on input without a bare carriage return, sections 9.2.5 and 9.2.6 of the WHATWG HTML standard dispatch exactly the data of the frames read; `SseCarriageReturns.FramesAgreeExactly` has the condition for every input |
| SseCarriageReturns.FramesAgreeExactly | internal/gateway/stream.go:330-358 | for every input the standard dispatches exactly the data of the frames read if and only if no data line holds a carriage return, no comment holds one that hides a data field behind it, and a comment hides an empty line behind one only before a frame's first data line or after its last |
| SseCarriageReturns.CleanCommentsAgree | internal/gateway/stream.go:330-358 | when no comment holds a carriage return the two agree if and only if no data read holds one |
| SseCarriageReturns.ReturnInDataParts | internal/gateway/stream.go:330-358 | a concrete input, `data: a`, a carriage return, `b`, an empty line, from which the reader takes both letters and the standard only the first |
| SseCarriageReturns.WrittenAgree | internal/gateway/stream.go:330-358 | whatever complete lines a server writes, the reader takes the data of its lines, the standard that of their pieces between carriage returns, and they agree if and only if the lines meet that condition |
| SseCarriageReturns.FieldInCommentParts | internal/gateway/stream.go:347-355 | a concrete input with a data field behind a carriage return in a comment: no data to the reader, an event to the standard |
| SseCarriageReturns.EndInCommentParts | internal/gateway/stream.go:347-355 | a concrete input with an empty line behind a carriage return in a comment between two data lines: one event to the reader, two to the standard |
| SseFrames.ReadPrefix | internal/gateway/stream.go:330-358 | a frame is decided by its raw part alone, whatever follows |
| SseLines.FrameExactly | internal/gateway/stream.go:330-358 | a frame is the lines up to the first blank one, all of them comments or data lines, with one leading space and one trailing carriage return dropped from each; an input that runs out first, or any other line, breaks it, each in its own way |
| StreamRelay.StreamSink.Write | internal/gateway/stream.go:28-50 | the first attempted non-empty write commits, whether or not it gets through; what was delivered is a prefix of what was handed on |
| StreamRelay.EncodeData | internal/gateway/stream.go:283-294 | an accepted chunk extends the rendered translation by exactly the bytes returned, and the first one always yields bytes |
| StreamRelay.FinishEncoding | internal/gateway/stream.go:254-265 | a finished translation is what was rendered before plus the bytes returned |
| WireFormat.ResponsesRead | internal/gateway/protocol_stream.go:86-91 | however events are written as JSON on one line, a reader that follows section 9.2.6 of the WHATWG HTML standard reads back from the rendered bytes exactly those events, by name and payload and in order |
| WireFormat.ResponsesNames | internal/gateway/protocol_stream.go:93-276 | a client tells every kind of Responses event, and a completed from an incomplete end, by its name |
| WireFormat.AnthropicRead | internal/gateway/protocol_anthropic.go:350-356 | the same for Anthropic events |
| WireFormat.AnthropicNames | internal/gateway/protocol_stream.go:307-447 | and for their names |
| StreamRelay.HandedIsUpstream | internal/gateway/stream.go:204-213 | the frames of a cut-off upstream are the first frames of the whole, and their bytes a prefix of its bytes |
| StreamingGateway.RelayData | internal/gateway/stream.go:277-301 | one data frame: parsed, consumed, translated, written, with exactly the turn `DataTurn` describes; afterwards either the relay goes on with every byte accounted for or the attempt ended without a retry |
| StreamingGateway.FinishRelay | internal/gateway/stream.go:247-276 | [DONE] succeeds only after a choice and a finish reason, and then everything was delivered |
| StreamingGateway.RelayStream | internal/gateway/stream.go:204-303 | whatever ends the frame loop, the bytes handed on are exactly those the frames read call for; without an encoder at most the limit; a retryable end leaves sink and encoder untouched |
| StreamOutcome.Refusal | internal/gateway/stream.go:151-203 | an upstream that gives no stream never counts as success and is never answered with 200 |
| StreamOutcome.BrokenOutcome | internal/gateway/stream.go:214-240 | a reading that breaks is never a success, never answered with 200, and retryable only while nothing was written |
| StreamOutcome.RetryableEndUncommitted | internal/gateway/stream.go:204-303 | an attempt whose end may be retried has written nothing, for every upstream, writer and encoder |
| StreamOutcome.OnlyLastCommits | internal/gateway/stream.go:67-83 | every attempt before the last failed in a retryable way, wrote nothing and was followed by an undisturbed pause; the loop stops at no other attempt |
| StreamVerdicts.EndsExactly | internal/gateway/stream.go:204-303 | a streaming attempt that takes just n frames ends exactly as the next one, or the break behind them, calls for: too large, cancelled, out of time, malformed, cut off, refused, torn, or concluded; with its class, status, retry and commit |
| StreamVerdicts.SucceedsExactly | internal/gateway/stream.go:247-276 | it succeeds if and only if a first [DONE] arrives within the limit behind frames that were all taken, whose chunks list a choice, state a finish reason and translate, and the last write gets through; it then returns the counts of their last report |
| StreamVerdicts.ParsedData | internal/gateway/stream.go:277-283 | the chunks of frames are what their data parse to, one by one |
| RequestRecords.RefusalVerdict | internal/gateway/stream.go:151-203 | what each upstream without a stream makes of an attempt: class, status, whether it may be repeated and when |
| StreamingGateway.PerformStreamingAttempt | internal/gateway/stream.go:129-303 | requires an untouched sink and an unused encoder; result, commit and ledger entries are exactly those of `StreamOutcome` |
| StreamingGateway.RunAttempts | internal/gateway/stream.go:65-83 | the retry loop ends with exactly the result, the commit and the ledger entries that follow from what the attempts meet |
| StreamingGateway.ServeStreaming | internal/gateway/stream.go:52-127 | every attempt of the loop, also a repeated one, starts with nothing written and an unused encoder; attempts follow only a retryable failure and an undisturbed pause; every store call and the answer in order; status or stream but never both; success means the frames through [DONE] were delivered |
| EndToEnd.PassthroughLossless | internal/gateway/stream.go:204-303 | without an encoder the client's bytes are a frame-aligned prefix of the upstream's, ending with the first [DONE] frame when completed |
| EndToEnd.ResponsesRelay | internal/gateway/stream.go:204-303 | a completed Responses relay, its chunks allowed, listing a choice and stating a reason, hands on the rendering of a grammatical trace that tells exactly what the chunks carried and agrees with the buffered answer under the known conditions |
| EndToEnd.AnthropicRelay | internal/gateway/stream.go:204-303 | a completed Anthropic relay hands on the rendering of a framed, strictly bracketed trace whose blocks hold exactly what the chunks carried, with the stop reason of their last reason, compared with the buffered message in every field under the known conditions |
| EndToEnd.ServedPassthrough | internal/gateway/stream.go:52-127 | a served chat completion whose last attempt succeeded delivered exactly the upstream's bytes through its first [DONE] frame |
| EndToEnd.ServedResponses | internal/gateway/stream.go:52-127 | a served Responses request whose last attempt succeeded, its aliases built from any declared tools by any hash, delivered exactly the rendering of such a trace |
| EndToEnd.ServedAnthropic | internal/gateway/stream.go:52-127 | a served Anthropic request whose last attempt succeeded delivered exactly the rendering of such a trace |
| EndToEnd.HandedResponses | internal/gateway/stream.go:52-127 | however a Responses request ends, what was delivered is a prefix of the rendering of events a strict client takes one and all; when it was cut short the client holds, item by item and under its id, the text and the joined arguments the chunks relayed until then carried |
| EndToEnd.HandedAnthropic | internal/gateway/stream.go:52-127 | however an Anthropic request ends, what was delivered is a prefix of the rendering of events its client takes one and all, and the client holds, block by block, what the chunks carried |
| Ledger.CallLog.Record | internal/gateway/gateway.go:157-166 | a store call is appended to the log, and the auditor of the longer log is one step further |
| Ledger.AuditedLogDisciplined | internal/gateway/gateway.go:152-291 | an accepted log completes each created request once and answers at most once; attempts are 1..k, each completed once before the next begins; a success is the last attempt; a 200 follows both stored completions; failures carry no token counts |
| Attempts.StopIsFirst | internal/gateway/gateway.go:228-267 | the retry loop stops at the first attempt that succeeds or is not retryable, at the limit, or at a pause the client cut short; the length of each pause follows from the attempt's number and the provider's Retry-After |
| Attempts.DelayDoubles | internal/gateway/gateway.go:256-262 | without a Retry-After the pause both retry loops take doubles after every attempt, up to the maximum |
| RequestRecords.PauseIs | internal/gateway/gateway.go:256-262 | the first pause is the base, a provider may ask for its own, and none is longer than the maximum |
| BufferedGateway.PerformAttempt | internal/gateway/gateway.go:428-498 | one attempt's result and exact ledger entries for every provider outcome and every store failure |
| BufferedGateway.ServeBuffered | internal/gateway/gateway.go:227-291 | the answer and the exact sequence of ledger entries; one request completion, no attempt left open, no more attempts than configured |
| BufferedGateway.Answered200 | internal/gateway/gateway.go:227-291 | a buffered request is answered with 200 if and only if its completion was stored, the attempt the loop stopped at succeeded, and its body could be encoded |
| BufferedGateway.AnsweredBody | internal/gateway/gateway.go:230-252 | the body of a 200 is the encoding of an attempt whose creation and success were stored |
| RequestRecords.AttemptVerdict | internal/gateway/gateway.go:428-498 | what every provider outcome and store failure makes of a buffered attempt: class, status, retry, Retry-After, body and counts |
| RequestRecords.BufferedAttempts | internal/gateway/gateway.go:228-267 | the log of a buffered loop is attempts 1, 2, ..., each stored as failed, and then the one it stopped at |
| RequestRecords.BufferedSettlement | internal/gateway/gateway.go:228-290 | what follows: a success is stored with the counts of the provider's answer, a body that cannot be encoded as failed with 502, a cut pause as cancelled with 499, any other end with its own status and no counts; a completion that was not stored is answered 503 |
| RequestRecords.BufferedUsageStored | internal/gateway/gateway.go:230-252 | when a buffered request is answered 200 its log holds one completion, a success with exactly the counts of the provider's answer at the attempt the loop stopped at |
| RequestRecords.StreamedAttempts | internal/gateway/stream.go:65-83 | the log of a streaming loop is attempts 1, 2, ..., each stored as failed, and then the last |
| RequestRecords.StreamedSettlement | internal/gateway/stream.go:84-127 | what follows: a success is stored with its counts and not answered, a failure with its status and without counts, and answered only while nothing was written |
| RequestRecords.StreamedUsageStored | internal/gateway/stream.go:84-127 | when a streamed request is stored as succeeded its log holds one completion, with exactly the counts of the last report its upstream sent before the first [DONE] |
| RequestRecords.TurnedAway | internal/gateway/gateway.go:152-226 | a request is turned away by the first thing that stands against it, with that thing's outcome and status; otherwise it goes to its loop |
| Gateway.ServeHTTP | internal/gateway/gateway.go:152-291 | the exact sequence of store calls and the answer of every request, and that it is disciplined whatever store, providers and client do: one completion, attempts 1..k each completed before the next begins, k at most the configured limit and none for a request that reaches no provider; a stream's client gets no status, its bytes are accounted for, and the stored outcome is a success if and only if its last attempt was |
| Gateway.Deliver | internal/gateway/gateway.go:222-291 | a request nothing hinders goes to the buffered loop or the streaming one, and its whole log is theirs |
| Gateway.Block | internal/gateway/gateway.go:163-220 | a request ended without an attempt is completed once and then answered with its status, or 503 when that could not be stored |
| AgentDatabase.AgentDatabase.MintAgentCredential | internal/store/postgres/agentauth.go:171-260 | the transaction changes the rows and answers exactly as `AgentStore.MintStep`, for every failure, and keeps every row invariant |
| AgentDatabase.AgentDatabase.EnrolGrant | internal/store/postgres/agentauth.go:208-239 | the grant of a binding is renewed after a logout or expiry, refused after any other revocation, created when absent |
| AgentDatabase.AgentDatabase.IssueToken | internal/store/postgres/agentauth.go:240-258 | the next generation replaces every earlier token of the grant, or nothing changes when a check or unique key fails |
| AgentDatabase.AgentDatabase.ReplayMint | internal/store/postgres/agentauth.go:181-200 | a used key: the same request loses its credential, another is refused |
| AgentDatabase.AgentDatabase.RevokeAgentGrant | internal/store/postgres/agentauth.go:275-297 | a logout revokes the live grant it names and all its tokens, or changes nothing |
| AgentDatabase.AgentDatabase.ChangeDirectory | migrations/0014_human_agent_access.up.sql:105-125 | disabling a user, person or identity revokes its grants and tokens, keeping revocations that are already there |
| AgentDatabase.AgentDatabase.AuthenticateHuman | internal/store/postgres/agentauth.go:299-359 | the token of a hash authenticates exactly when token, grant and directory rows are live and an alias is left |
| AgentDatabase.AliasSubset | internal/store/postgres/agentauth.go:262-273 | true if and only if the wanted list is not empty and every wanted alias is available |
| AgentStoreSafety.MintConsistent | internal/store/postgres/agentauth.go:171-260 | a mint keeps unique indexes, gapless generations, the fence around unrevoked tokens, mint records and dates, and only ever revokes tokens |
| AgentStoreSafety.LogoutConsistent | internal/store/postgres/agentauth.go:275-297 | so does a logout |
| AgentStoreSafety.DirectoryConsistent | migrations/0014_human_agent_access.up.sql:105-125 | and so does any change of the directory with its trigger |
| AgentStoreRules.AdmittedExactly | internal/store/postgres/agentauth.go:134-169 | a subject is admitted to a membership if and only if its identity, that identity's user, the membership and its person are enabled and belong together |
| AgentStoreRules.StandingIsAdmission | internal/store/postgres/agentauth.go:299-345 | for a subject that maps to a grant's identity, the rows behind the grant stand if and only if that subject would be admitted to the grant's membership as the grant's user and person |
| AgentStoreRules.AuthenticatesExactly | internal/store/postgres/agentauth.go:299-345 | a hash authenticates if and only if its token and grant are neither revoked nor expired, the identity, user, person and membership behind the grant are enabled and belong together, and a granted alias is effective; as whom and with which aliases |
| AgentStoreRules.OffMeansRejected | internal/store/postgres/agentauth.go:305-320 | whatever ran since a grant was made, while its membership, user, person or identity is disabled or they no longer belong together, no token of it authenticates |
| AgentStoreRules.MintExactly | internal/store/postgres/agentauth.go:171-230 | under an unused key a mint is forbidden if and only if the caller is not admitted, asks for nothing or too much, or its grant was ended by policy; it fails if and only if a row check or a unique key is violated; else it succeeds, for 600 seconds |
| AgentStoreRules.MintLeaves | internal/store/postgres/agentauth.go:208-256 | what a successful mint leaves in every table: the grant renewed for 3600 seconds or made, the next generation in it, its earlier tokens revoked, those revoked now naming their successor, and the key taken |
| AgentStoreRules.ReplayExactly | internal/store/postgres/agentauth.go:181-200 | what a used key leaves: nothing for another request, and for the same one its token revoked and its credential lost |
| AgentStoreRules.LogoutExactly | internal/store/postgres/agentauth.go:275-297 | a logout finds a grant if and only if an enabled identity has a live one under that client, instance and membership, and then revokes just that grant, as a logout, and its tokens |
| AgentStoreRules.DirectoryExactly | migrations/0014_human_agent_access.up.sql:105-125 | a change of the directory revokes just the grants whose user, person or identity it switches off, by policy, and their tokens; earlier revocations keep time and reason |
| AgentStoreRuns.GrantDiscipline | internal/store/postgres/agentauth.go:188-256 | in every reachable state a grant's generations are exactly 1..k, at most one token is unrevoked, and that one is the newest, expires no later than the grant and is not under a revoked grant |
| AgentStoreRuns.RejectedForever | internal/store/postgres/agentauth.go:171-359 | a token rejected because it or its grant is revoked or expired is rejected in every later state of every run, renewal included |
| AgentStoreRuns.RevocationTimeNeverChanges | internal/store/postgres/agentauth.go:244-246 | a token's revocation time never changes once set |
| AgentStoreRuns.AtMostOneCredential | internal/store/postgres/agentauth.go:181-230 | an idempotency key of one identity and client yields a credential at most once in any run, and never after it was used |
| AgentStoreRuns.RepeatedMint | internal/store/postgres/agentauth.go:181-200 | the same request under a used key yields none and revokes only that key's token; a different one changes nothing |
| AgentStoreRuns.MintReplacesActive | internal/store/postgres/agentauth.go:240-252 | a mint issues the next generation, revokes the active token at that time and names its successor; other grants' tokens stay as they are |
| AgentStoreRuns.BannedForever | internal/store/postgres/agentauth.go:214-230 | a grant revoked for any reason but a logout stays exactly as it is in every later state |
| AgentStoreRuns.AuthenticatedAliases | internal/store/postgres/agentauth.go:325-345 | the authenticated aliases are exactly those both granted and effective now, ascending |
| AgentStoreRuns.MintedCredentialAuthenticates | internal/store/postgres/agentauth.go:238-359 | a minted credential authenticates as its own grant and token with the requested aliases |
| AgentStoreRevival.DisabledForGood | migrations/0014_human_agent_access.up.sql:105-125 | no token of a grant whose user, person or identity is disabled is accepted again in any later run if and only if the grant had not been logged out before or all 16^16 token prefixes are taken |
| AgentStoreRevival.LoggedOutReturns | internal/store/postgres/agentauth.go:214-230 | a logged-out grant can always be brought back, as long as a token prefix is left: a run is constructed, minting at the later of the clock and the grant's creation with values that pass the row checks, after which a token of the grant authenticates |
| AgentStoreRevival.NoneReturns | migrations/0014_human_agent_access.up.sql:38-50 | once every token prefix is taken no revoked grant is ever accepted again |
| AgentStoreRevival.LogoutOutlivesDisabling | migrations/0014_human_agent_access.up.sql:108-111 | a concrete run, mint, logout, disable, after which some later run makes a token of the grant authenticate |
| AgentService.NormaliseAliases | internal/agentauth/agentauth.go:167-185 | the loop with its seen-set trims, checks, drops repetitions and sorts, or refuses |
| AgentService.NormalisedList | internal/agentauth/agentauth.go:167-185 | a normalised list is ascending, without repetition, and has exactly the trimmed aliases as members |
| AgentService.SameAliasesSameList | internal/agentauth/agentauth.go:167-185 | two accepted lists canonicalise identically if and only if their trimmed aliases are the same set |
| AgentService.SameRequestNeverConflicts | internal/agentauth/agentauth.go:116-158 | whatever runs after a mint, the same request, however spelled, is never taken for a different one under its key, for any digest, as long as the subject stands for the same identity |
| AgentService.StoreInputExactly | internal/agentauth/agentauth.go:116-158 | which requests reach the store: 1 to 64 aliases of 1 to 128 characters without blanks and slashes, well-formed ids and key; and as what |
| Messages.ValidateMessages | internal/gateway/request.go:175-237 | the loop over outstanding and seen calls accepts exactly what the pass `Scan` accepts |
| Messages.TextContent | internal/gateway/request.go:239-268 | whether content holds text, or is refused, by kind of content |
| MessageRules.AcceptedConversation | internal/gateway/request.go:175-237 | the validator accepts if and only if every message is allowed by itself (fields by role, 1 to 128 text parts, at most 128 calls with valid ids, names and object arguments, at most 262144 bytes of reasoning), all call ids are distinct, each assistant turn is followed at once by tool messages that are a permutation of its calls with fitting names, and there are no other tool messages |
| MessageRules.ScanTools | internal/gateway/request.go:177-180 | while calls are outstanding the pass takes exactly their answers, in any order, and nothing else |
| ToolDefinitions.ValidateTools | internal/gateway/request.go:270-291 | tools are accepted if and only if there are not too many, each is valid and their names are distinct; the result is the set of their names |
| ToolDefinitions.ValidateToolParameters | internal/gateway/request.go:293-326 | an object schema whose required names are distinct properties, nested within the limit |
| ToolDefinitions.ValidateJSONDepth | internal/gateway/request.go:328-350 | the recursive walk, visiting the fields of an object in any order, accepts exactly what `Walk` accepts |
| ToolDefinitions.WalkMeans | internal/gateway/request.go:328-350 | the walk accepts a value if and only if it nests no deeper than 32 and every key in it has 1 to 256 characters |
| ToolDefinitions.ToolsExactly | internal/gateway/request.go:270-326 | tools are accepted if and only if there are at most 128, no two of one name, each a function with a valid name, a description of at most 8192 characters and an object schema whose required names are distinct properties |
| ToolDefinitions.ValidateToolChoice | internal/gateway/request.go:352-374 | a choice is accepted if and only if it is absent, a known word with tools to speak of, or names a declared tool |
| ToolDefinitions.ChoiceExactly | internal/gateway/request.go:352-374 | which tool choices are accepted, word by word |
| ToolDefinitions.FlattenedToolsAccepted | internal/gateway/protocol_responses.go:170-250 | tools under the names of a built alias table pass the tool validator's count, name and uniqueness checks |
| AnthropicConversion.ConvertMessage | internal/gateway/protocol_anthropic.go:145-222 | one message is converted, or refused, as `Convert` says |
| AnthropicConversion.Decode | internal/gateway/protocol_anthropic.go:83-97 | the message loop appends the system prompt and every converted message in order |
| AnthropicConversion.ConversionKeeps | internal/gateway/protocol_anthropic.go:145-222 | all text, all calls and all results of a conversation are kept, each in its order |
| AnthropicConversion.ResultsFirst | internal/gateway/protocol_anthropic.go:190-221 | within one converted turn nothing spoken comes before a result |
| AnthropicReading.ConvertsExactly | internal/gateway/protocol_anthropic.go:145-222 | a message converts if and only if its role and every block are allowed; an assistant's blocks become one message with its texts and its calls in order, a user's results one tool message each and then its texts, if any |
| AnthropicReading.DecodesExactly | internal/gateway/protocol_anthropic.go:83-143 | a request decodes if and only if its system prompt and every message are allowed, into the system message, if any, and what each message becomes, in order |
| AnthropicPairing.ExchangeAccepted | internal/gateway/protocol_anthropic.go:83-97 | a convertible conversation becomes one the validator accepts if and only if its tool uses have distinct ids and every turn with uses is answered at once by consecutive user messages whose results are exactly its own and of which only the last also speaks |
| AnthropicPairing.ConversionAccepted | internal/gateway/protocol_anthropic.go:83-97 | so one in which the very next message answers each turn exactly is accepted |
| AnthropicPairing.AnswersApart | internal/gateway/protocol_anthropic.go:190-221 | a concrete conversation whose two results come in two messages is accepted too |
| ToolAliases.ResponsesToolsToChat | internal/gateway/protocol_responses.go:170-250 | the loops over declarations fill the three tables, or fail, exactly as `ToolsToChat` says |
| ToolAliasRules.DistinctNames | internal/gateway/protocol_responses.go:170-250 | emitted tools have pairwise distinct valid names, and a plain function keeps its name and is never restored as a namespaced one, for any hash |
| ToolAliasRules.DeclaredIdentities | internal/gateway/protocol_responses.go:151-168 | a pair has an alias on record if and only if it was declared |
| ToolAliasRules.RoundTrip | internal/gateway/protocol_responses.go:254-261 | rewriting a declared pair and restoring its alias gives the pair back |
| ToolAliasRules.Bounded | internal/gateway/protocol_responses.go:245-247 | no more than 128 tools are emitted |
| ToolAliasRules.AliasesAreNamed | internal/gateway/protocol_responses.go:218-223 | no alias stands for a function without a namespace |
| ToolAliasRules.RewriteHistory | internal/gateway/protocol_responses.go:151-168 | the history is rewritten in place if and only if every namespaced call names a declared tool |
| ToolAliasRules.HistoryRoundTrip | internal/gateway/protocol_responses.go:151-261 | a rewritten call is shown to the client as the pair it had before; exactly the calls to declared tools are rewritten |
| ToolAliasRules.AddsExactly | internal/gateway/protocol_responses.go:182-235 | a function is passed over, refused because its name is taken or its parameters cannot be written, or entered under `namespace__name`, or under a hashed name when that is too long or taken |
| ToolAliasRules.TableExactly | internal/gateway/protocol_responses.go:170-250 | declarations are entered in order, and more than 128 tools are refused |
| ToolAliasRules.DeclaresExactly | internal/gateway/protocol_responses.go:182-250 | which declarations declare a pair |
| ToolAliasRules.RewritesExactly | internal/gateway/protocol_responses.go:151-168 | which history items change, into what, and which are refused |
| PeakConcurrency.PeakRequests | internal/portal/site.go:1577-1606 | the sweep over sorted events computes the highest running sum |
| PeakConcurrency.PeakIsMaximum | internal/portal/site.go:1577-1606 | that is exactly the maximum, over all instants, of the requests whose half-open interval contains the instant |
| ReportFigures.PeakFigures | internal/portal/site.go:1577-1606 | the peak is the greatest number of listed requests that began by some instant and had not ended at it |
| Percentiles.PercentileIsLeast | internal/control/control.go:385-395 | the percentile is the least value with at least the stated fraction of the values at or below it |
| Percentiles.SameMedianRank | internal/portal/site.go:1510-1522 | the portal's median has the control plane's rank for lists of every size |
| Percentiles.NinetyFiveRanks | internal/portal/site.go:1510-1522 | the portal's 95th percentile has the same rank, or the next one exactly for lists longer than one whose size is 0 or 1 modulo 20 |
| Percentiles.ReportsAgree | internal/portal/site.go:1510-1522 | so both report the same median, and the portal's 95th percentile is never smaller |
| ReportFigures.PercentileFigures | internal/control/control.go:385-395 | half, and nineteen in twenty, of the values are at or below the reported ones, and fewer below any smaller value |
| TokenTotals.GroupTokens | internal/portal/site.go:1407-1424 | the portal's loop over a group: total, known and eligible counts, and finality |
| TokenTotals.MetricBuilder.Add | internal/control/control.go:367-372 | a known value is added and counted, an unknown one changes nothing |
| TokenTotals.ClientTokens | internal/control/client_dashboard.go:365-399 | the control plane's total from two metric builders |
| TokenTotals.TotalsAgree | internal/portal/site.go:1493-1508 | both computations give the same nullable total for every list of requests |
| TokenTotals.PeriodTokens | internal/portal/site.go:1288-1369 | the portal's running totals over a period: complete sums or none, zero when nothing was requested |
| TokenTotals.PeriodTotalsAgree | internal/portal/site.go:1349-1369 | over a whole period they agree if and only if there was a request: the portal reports zero for none, the control plane unknown |
| ReportFigures.TokenFigures | internal/portal/site.go:1407-1424 | a group's tokens are known if and only if some request succeeded and every one that did has both counts; they are then the sum of all of them, and final if and only if every usage is |
| Breakdowns.MakeModelBreakdowns | internal/portal/site.go:1429-1477 | the portal's rows, grouped by alias and then by model, in key order |
| Breakdowns.ClientModelBreakdown | internal/control/client_dashboard.go:443-470 | the control plane's rows, grouped by both at once, in key order |
| Breakdowns.ModelBreakdownsAgree | internal/control/client_dashboard.go:443-470 | the two lists of rows are equal: keys, order, counts, nullable totals and shares |
| Breakdowns.MakeBreakdowns | internal/portal/site.go:1392-1427 | rows by account in key order, adding up to every request |
| Breakdowns.PortalRowsConserve | internal/portal/site.go:1429-1477 | the portal's rows by model add up to every request |
| ReportFigures.ModelRowFigures | internal/portal/site.go:1429-1477 | a row counts the requests under its alias that ran its model, with their tokens and their share in percent |
| ReportFigures.RowsInOrder | internal/portal/site.go:1429-1477 | rows come by alias, and under one alias by model, in byte order |
| Breakdowns.CountStatuses | internal/portal/site.go:1290-1304 | the running counters by status |
| ReportFigures.StatusFigures | internal/portal/site.go:1290-1304 | each counter is the number of listed requests with its status, and all others are in progress |
| Breakdowns.BuildDirectTrend | internal/portal/site.go:1524-1576 | one point per hour that has requests, in order, each counting its own group |
| Breakdowns.TrendConserves | internal/portal/site.go:1524-1576 | the points add up to every request and, status by status, to the portal's totals |
| ReportFigures.PointFigures | internal/portal/site.go:1524-1576 | a point tells of the requests that began in its hour how many there are, how they ended, their tokens and the 95th percentile of their durations, and is final if and only if every one is settled |
| ReportFigures.TrendFigures | internal/portal/site.go:1524-1576 | the points are those of the hours in which requests began, earliest first |
| UsageRecords.Conserved | internal/portal/site.go:1392-1396 | any measure summed over groups that name every key once is the measure of the whole |
| RouteObservation.ScopedRouteObservation | internal/control/client_dashboard.go:305-337 | the loop finds what filter-then-maximum describes: status and time of the latest health-relevant completion (first in list order on ties), time of the latest success |
| RouteObservation.PermutedTimes | internal/control/client_dashboard.go:305-337 | permuting the list changes neither time |
| RouteObservation.PermutedStatus | internal/control/client_dashboard.go:319-330 | nor the status when the latest completions agree |
| RouteObservation.DisputedStatus | internal/control/client_dashboard.go:319-330 | and when they disagree some order of the same list gives another status |
| RouteObservation.ObservedExactly | internal/control/client_dashboard.go:305-337 | the status is what the first request at the latest telling time tells: operational for a success, degraded for a failed request with one of eight target failures, under exactly this binding |

## Left out

- JSON text, SQL text, HTTP headers and sockets: the model starts from parsed chunks, messages and rows; "is a JSON object" is a parameter.
- The normalising middle of the Responses request decoder and the buffered provider engine: their library is not part of this model; their outcomes are parameters.
- The attempt path that only tests use (`legacyHTTPForTests`), target health updates, response headers and error texts.
- AgentStore.MintStep: every violated row check or unique key is one outcome, a store failure that changes nothing; concurrent transactions are taken one after the other; last-used times and the listing of contexts are not stored.
- AgentDatabase.AgentDatabase.AuthenticateHuman: reads one snapshot; the two last-used updates of the source change nothing the model observes.
- AgentService.StoreInput: base64 checks of client instance and key, white-space trimming and digests are parameters.
- AnthropicBuffered.ContentAgrees: tool input is compared as one parser reads it; how the buffered encoder writes its numbers again is not modelled.
- Attempts.DelayDoubles: pauses are unbounded integers, so the overflow of a shifted duration is not modelled; the Retry-After header (section 10.2.3 of RFC 9110) arrives parsed.
- BufferedGateway.PerformAttempt: token counts billed for a failed attempt are not modelled; the ledger entry of an attempt holds its outcome only.
- StreamRelay.EncodeData: the JSON text of an event is a parameter, an event's name and framing are not.
- Percentiles.NinetyFiveRanks: fractions are exact, so the rounding of floating-point products is not modelled; shares are exact reals.
- PeakConcurrency.PeakRequests: library sorts are one insertion sort; times are integers.
- ToolAliases.ResponsesToolsToChat: descriptions, parameters and the strict flag of a tool pass through unseen.
- Stop sequences, sampling and token-limit ranges, stream options and the other single checks on request fields: they add easy members.
- The client trend and the project breakdown.
- Browser login, OIDC, billing, quotas, rollups, endpoint lifecycle and static assets.
