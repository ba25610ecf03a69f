/**
 How one streaming attempt ends, and what it leaves in the ledger, as functions of what it meets: the
 store's answers, the upstream's bytes and faults, and what the downstream writer does.
 */
module StreamOutcome {
  import opened Wrappers
  import opened StreamChunks
  import opened Attempts
  import opened Ledger
  import opened SseFrames
  import opened StreamRelay

  datatype Ending = EndOfInput | ReadFault

  datatype Upstream =
    | BadTarget
    | NoResponse
    | Rejected(status: int, readOk: bool, tooLarge: bool, retryAfter: Option<nat>)
    | NotEventStream
    | Streaming(bytes: string, ending: Ending)

  // Everything outside the gateway that one attempt meets.
  datatype StreamWorld = StreamWorld(
    idOk: bool, createOk: bool, finishOk: bool, parentCancelled: bool, deadlineExceeded: bool,
    providerId: string, upstream: Upstream)

  // What the limited reader lets through.
  function Limit(bytes: string, maxResponseBytes: nat): (cut: nat)
    ensures cut <= |bytes|
  {
    if |bytes| > maxResponseBytes + 1 then maxResponseBytes + 1 else |bytes|
  }

  function UpstreamBytes(world: StreamWorld): string {
    if world.upstream.Streaming? then world.upstream.bytes else ""
  }

  // How a broken reading ends the attempt.
  function BrokenOutcome(world: StreamWorld, maxResponseBytes: nat, fault: Fault, committed: bool): (broken: (Outcome, AttemptResult))
    ensures broken.0 != Succeeded && !broken.1.success && ClientStatus(broken.1) != 200
    ensures broken.1.retryable ==> !committed
  {
    var bytes := UpstreamBytes(world);
    var readFault := world.upstream.Streaming? && world.upstream.ending.ReadFault? && |bytes| <= maxResponseBytes;
    if world.parentCancelled then (Cancelled, CLIENT_CANCELLED)
    else if world.deadlineExceeded then (Failed, Failure("upstream_timeout", 504).(retryable := !committed))
    else if fault.UnsupportedField? || readFault then (Failed, Failure("invalid_upstream_response", 502))
    else (Failed, Failure("upstream_transport", 502).(retryable := !committed))
  }

  // An upstream that gives no stream to relay.
  function Refusal(world: StreamWorld): (refusal: (Outcome, AttemptResult))
    requires !world.upstream.Streaming?
    ensures refusal.0 != Succeeded && !refusal.1.success && ClientStatus(refusal.1) != 200
  {
    var unreachable :=
      if world.parentCancelled then (Cancelled, CLIENT_CANCELLED)
      else (Failed, if world.deadlineExceeded then Transient("upstream_timeout", 504) else Transient("upstream_transport", 502));
    match world.upstream
    case BadTarget => (Failed, Failure("target_configuration", 502))
    case NoResponse => unreachable
    case Rejected(status, readOk, tooLarge, retryAfter) =>
      if !readOk then unreachable
      else if tooLarge then (Failed, Failure("upstream_response_too_large", 502))
      else if status == 429 || status == 503 then (Failed, ClassifyProviderStatus(status).(retryAfter := retryAfter))
      else (Failed, ClassifyProviderStatus(status))
    case NotEventStream => (Failed, Failure("invalid_upstream_response", 502))
  }

  lemma ReadMoves(input: string)
    ensures ReadFrame(input).Frame? ==> ReadFrame(input).raw != "" && |ReadFrame(input).rest| < |input|
  {
    ReadShrinks("", [], input);
    assert |ReadFrame(input).raw + ReadFrame(input).rest| == |"" + input|;
  }

  // All that decides an attempt besides the order of its own steps.
  datatype Setting = Setting(
    world: StreamWorld, parse: string -> Option<Chunk>, maxResponseBytes: nat, protocol: Protocol, writer: nat -> WriteOutcome)

  // How an attempt ends: what is recorded, what it returns, and whether anything was written.
  datatype Close = Close(outcome: Outcome, result: AttemptResult, committed: bool)

  const INVALID := Failure("invalid_upstream_response", 502)

  // Where a relay stands between two frames.
  datatype RelayState = RelayState(state: StreamState, chunks: seq<Chunk>, committed: bool, writes: nat)

  function RelayStart(world: StreamWorld): RelayState {
    RelayState(StreamState("", world.providerId, NO_USAGE, Unknown, false, false), [], false, 0)
  }

  // Whether one more chunk yields bytes downstream; None when the encoder refuses it.
  function Said(protocol: Protocol, chunks: seq<Chunk>, chunk: Chunk): Option<bool> {
    if protocol.ChatCompletions? then Some(true)
    else if Rendering(protocol, chunks + [chunk]).None? then None
    else Some(Rendering(protocol, chunks + [chunk]) != Rendering(protocol, chunks))
  }

  datatype Turn = Ends(close: Close) | GoOn(next: RelayState)

  // A data frame: parsed, consumed, translated and written, in this order.
  function DataTurn(parse: string -> Option<Chunk>, protocol: Protocol, writer: nat -> WriteOutcome, s: RelayState, data: string): Turn {
    var refused := Ends(Close(Failed, INVALID, s.committed));
    var chunk := parse(data);
    if chunk.None? then refused else
    var next := Consumed(s.state, chunk.value);
    if next.None? then refused else
    match Said(protocol, s.chunks, chunk.value)
    case None => refused
    case Some(speaks) =>
      if speaks && writer(s.writes).Torn? then Ends(Close(Cancelled, CLIENT_CANCELLED, true))
      else GoOn(RelayState(next.value, s.chunks + [chunk.value], s.committed || speaks, if speaks then s.writes + 1 else s.writes))
  }

  // The [DONE] frame.
  function FinishTurn(protocol: Protocol, writer: nat -> WriteOutcome, s: RelayState): Close {
    if !s.state.sawChoice || !s.state.sawFinish then Close(Failed, INVALID, s.committed)
    else if !protocol.ChatCompletions? && FullRendering(protocol, s.chunks, s.state.usage).None? then Close(Failed, INVALID, s.committed)
    else if writer(s.writes).Torn? then Close(Cancelled, CLIENT_CANCELLED, true)
    else Close(Succeeded, Success("", s.state.usage), true)
  }

  // How the frame loop ends when it goes on from here.
  function RelayEnd(c: Setting, input: string, total: nat, s: RelayState): Close
    decreases |input|
  {
    ReadMoves(input);
    var frame := ReadFrame(input);
    var read := total + |frame.raw|;
    if read > c.maxResponseBytes then Close(Failed, Failure("upstream_response_too_large", 502), s.committed)
    else if frame.Broken? then
      var broken := BrokenOutcome(c.world, c.maxResponseBytes, frame.fault, s.committed);
      Close(broken.0, broken.1, s.committed)
    else if !frame.hasData then RelayEnd(c, frame.rest, read, s)
    else if frame.data == "[DONE]" then FinishTurn(c.protocol, c.writer, s)
    else
      match DataTurn(c.parse, c.protocol, c.writer, s, frame.data)
      case Ends(close) => close
      case GoOn(next) => RelayEnd(c, frame.rest, read, next)
  }

  function Readable(world: StreamWorld, maxResponseBytes: nat): string {
    UpstreamBytes(world)[..Limit(UpstreamBytes(world), maxResponseBytes)]
  }

  function AttemptEnd(c: Setting): Close {
    if c.world.upstream.Streaming? then RelayEnd(c, Readable(c.world, c.maxResponseBytes), 0, RelayStart(c.world))
    else Close(Refusal(c.world).0, Refusal(c.world).1, false)
  }

  // What the attempt returns: its end, unless the store hid it.
  function AttemptReturns(c: Setting): AttemptResult {
    if !c.world.idOk then Failure("ledger_error", 500)
    else if !c.world.createOk || !c.world.finishOk then LEDGER_FAILURE
    else AttemptEnd(c).result
  }

  predicate AttemptCommits(c: Setting) {
    c.world.idOk && c.world.createOk && AttemptEnd(c).committed
  }

  function StreamAttemptLog(c: Setting, number: nat): seq<Entry> {
    if !c.world.idOk then []
    else if !c.world.createOk then [CreateAttempt(number, false)]
    else [CreateAttempt(number, true), CompleteAttempt(number, AttemptEnd(c).outcome, c.world.finishOk)]
  }

  // A retryable end leaves nothing written.
  lemma {:induction false} RetryableEndUncommitted(c: Setting, input: string, total: nat, s: RelayState)
    ensures RelayEnd(c, input, total, s).result.retryable ==> !RelayEnd(c, input, total, s).committed
    decreases |input|
  {
    hide Consumed, Said, FullRendering, ReadFrom;
    ReadMoves(input);
    var frame := ReadFrame(input);
    if frame.Frame? {
      var read := total + |frame.raw|;
      if !frame.hasData {
        RetryableEndUncommitted(c, frame.rest, read, s);
      } else if frame.data != "[DONE]" && DataTurn(c.parse, c.protocol, c.writer, s, frame.data).GoOn? {
        RetryableEndUncommitted(c, frame.rest, read, DataTurn(c.parse, c.protocol, c.writer, s, frame.data).next);
      }
    }
  }

  // --- The request ------------------------------------------------------------------------

  datatype StreamRequest = StreamRequest(
    flusherOk: bool, finishOk: bool, maxAttempts: int, maxResponseBytes: nat, protocol: Protocol,
    parse: string -> Option<Chunk>, writer: nat -> WriteOutcome, attempts: nat -> StreamWorld, pacing: Pacing)

  function SettingAt(request: StreamRequest, n: nat): Setting {
    Setting(request.attempts(n), request.parse, request.maxResponseBytes, request.protocol, request.writer)
  }

  // The loop goes on after attempt n.
  predicate GoesOn(request: StreamRequest, n: nat)
    requires n >= 1
  {
    var c := SettingAt(request, n);
    && n < request.maxAttempts && !AttemptReturns(c).success && !AttemptCommits(c) && AttemptReturns(c).retryable
    && Undisturbed(request.pacing, n, AttemptReturns(c))
  }

  // The attempt the loop stops at when it goes on from attempt n.
  function LastAttempt(request: StreamRequest, n: nat): (last: nat)
    requires n >= 1
    ensures last >= n
    decreases request.maxAttempts - n
  {
    if n < request.maxAttempts && GoesOn(request, n) then LastAttempt(request, n + 1) else n
  }

  // Only the last attempt can have written anything: every one before it failed in a retryable way,
  // uncommitted, before an undisturbed pause.
  lemma {:induction false} OnlyLastCommits(request: StreamRequest, n: nat)
    requires 1 <= n <= request.maxAttempts
    ensures n <= LastAttempt(request, n) <= request.maxAttempts
    ensures forall i | n <= i < LastAttempt(request, n) ::
              var c := SettingAt(request, i);
              !AttemptCommits(c) && !AttemptReturns(c).success && AttemptReturns(c).retryable
              && Undisturbed(request.pacing, i, AttemptReturns(c))
    ensures var last := LastAttempt(request, n);
            var c := SettingAt(request, last);
            || last == request.maxAttempts || AttemptCommits(c) || AttemptReturns(c).success || !AttemptReturns(c).retryable
            || !Undisturbed(request.pacing, last, AttemptReturns(c))
    decreases request.maxAttempts - n
  {
    hide AttemptCommits, AttemptReturns;
    if n < request.maxAttempts && GoesOn(request, n) {
      OnlyLastCommits(request, n + 1);
    }
  }

  // What the loop ends with: the last attempt's result, or a cancelled pause.
  function LoopResult(request: StreamRequest): AttemptResult {
    if request.maxAttempts < 1 then NO_ATTEMPT else
    var n := LastAttempt(request, 1);
    var c := SettingAt(request, n);
    var result := AttemptReturns(c);
    if result.success || AttemptCommits(c) || !result.retryable || n >= request.maxAttempts then result else CLIENT_CANCELLED
  }

  predicate LoopCommits(request: StreamRequest) {
    request.maxAttempts >= 1 && AttemptCommits(SettingAt(request, LastAttempt(request, 1)))
  }

  function StreamAttemptLogs(request: StreamRequest, n: nat): seq<Entry>
    requires n >= 1
    decreases request.maxAttempts - n
  {
    if n > request.maxAttempts then [] else
    StreamAttemptLog(SettingAt(request, n), n)
    + if n < request.maxAttempts && GoesOn(request, n) then StreamAttemptLogs(request, n + 1) else []
  }

  function OutcomeOf(terminal: AttemptResult): Outcome {
    if terminal.success then Succeeded else if terminal.class_ == "client_cancelled" then Cancelled else Failed
  }

  // The completion, and an answer only to a client that got no bytes.
  function StreamSettlement(terminal: AttemptResult, committed: bool, finishOk: bool): seq<Entry> {
    if terminal.success then [CompleteRequest(Succeeded, 200, terminal.usage, finishOk)]
    else
      [CompleteRequest(OutcomeOf(terminal), ClientStatus(terminal), NO_USAGE, finishOk)]
      + if committed then [] else [Respond(if finishOk then ClientStatus(terminal) else 503)]
  }
}
