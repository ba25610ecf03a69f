/** A buffered inference request: admission, the retry loop over a provider, and the ledger around both. */
module BufferedGateway {
  import opened Wrappers
  import opened StreamChunks
  import opened Attempts
  import opened Ledger

  // --- One attempt ------------------------------------------------------------------------

  // `retryAfter` is the parsed header. NoResult: the engine returned neither result nor error.
  datatype ProviderOutcome =
    | ProviderError(statusCode: int, retryAfter: Option<nat>)
    | NoResult
    | Answered(body: string, usage: TokenUsage)

  // Everything outside the gateway that one attempt meets.
  datatype AttemptWorld = AttemptWorld(
    idOk: bool, createOk: bool, finishOk: bool, parentCancelled: bool, deadlineExceeded: bool, provider: ProviderOutcome)

  // The judgement of a provider's outcome, before it is recorded.
  function Judge(world: AttemptWorld, maxResponseBytes: nat): (Outcome, AttemptResult) {
    match world.provider
    case ProviderError(statusCode, retryAfter) =>
      if world.parentCancelled then (Cancelled, CLIENT_CANCELLED)
      else if world.deadlineExceeded then (Failed, Transient("upstream_timeout", 504))
      else
        var result := if statusCode == 0 then Transient("upstream_transport", 502) else ClassifyProviderStatus(statusCode);
        (Failed, result.(retryAfter := retryAfter))
    case NoResult => (Failed, Failure("invalid_upstream_response", 502))
    case Answered(body, usage) =>
      if |body| > maxResponseBytes then (Failed, Failure("upstream_response_too_large", 502))
      else (Succeeded, Success(body, usage))
  }

  function AttemptOutcome(world: AttemptWorld, maxResponseBytes: nat): AttemptResult {
    if !world.idOk then Failure("ledger_error", 500)
    else if !world.createOk || !world.finishOk then LEDGER_FAILURE
    else Judge(world, maxResponseBytes).1
  }

  // What one attempt leaves in the ledger.
  function AttemptLog(world: AttemptWorld, maxResponseBytes: nat, number: nat): seq<Entry> {
    if !world.idOk then []
    else if !world.createOk then [CreateAttempt(number, false)]
    else [CreateAttempt(number, true), CompleteAttempt(number, Judge(world, maxResponseBytes).0, world.finishOk)]
  }

  // The auditor between two attempts of an open request.
  predicate Between(a: Option<Auditor>, attempts: nat) {
    && a.Some? && a.value.request.Open? && !a.value.attemptOpen && a.value.attempts == attempts
  }

  predicate Ready(a: Option<Auditor>, attempts: nat) {
    Between(a, attempts) && !a.value.halted && !a.value.responded
  }

  method PerformAttempt(ledger: CallLog, world: AttemptWorld, maxResponseBytes: nat, number: nat) returns (result: AttemptResult)
    requires number >= 1 && Ready(Audit(ledger.log), number - 1)
    modifies ledger
    ensures result == AttemptOutcome(world, maxResponseBytes)
    ensures ledger.log == old(ledger.log) + AttemptLog(world, maxResponseBytes, number)
    ensures Between(Audit(ledger.log), number) || Between(Audit(ledger.log), number - 1)
    ensures result.success || result.retryable ==> Between(Audit(ledger.log), number)
    ensures !Audit(ledger.log).value.responded
    ensures result.success ==> Audit(ledger.log).value.won
    ensures result.retryable ==> !Audit(ledger.log).value.halted
  {
    hide Audit;
    assert ledger.log + [] == ledger.log;
    if !world.idOk {
      return Failure("ledger_error", 500);
    }
    ledger.Record(CreateAttempt(number, world.createOk));
    if !world.createOk {
      return LEDGER_FAILURE;
    }
    var outcome: Outcome;
    match world.provider {
      case ProviderError(statusCode, retryAfter) =>
        if world.parentCancelled {
          outcome, result := Cancelled, CLIENT_CANCELLED;
        } else if world.deadlineExceeded {
          outcome, result := Failed, Transient("upstream_timeout", 504);
        } else {
          outcome := Failed;
          result := if statusCode == 0 then Transient("upstream_transport", 502) else ClassifyProviderStatus(statusCode);
          result := result.(retryAfter := retryAfter);
        }
      case NoResult =>
        outcome, result := Failed, Failure("invalid_upstream_response", 502);
      case Answered(body, usage) =>
        if |body| > maxResponseBytes {
          outcome, result := Failed, Failure("upstream_response_too_large", 502);
        } else {
          outcome, result := Succeeded, Success(body, usage);
        }
    }
    ledger.Record(CompleteAttempt(number, outcome, world.finishOk));
    if !world.finishOk {
      return LEDGER_FAILURE;
    }
  }

  // --- The request ------------------------------------------------------------------------

  // `encode` puts a provider body into the caller's protocol; it can fail.
  datatype RequestWorld = RequestWorld(
    finishOk: bool, maxAttempts: int, maxResponseBytes: nat,
    attempts: nat -> AttemptWorld, pacing: Pacing, encode: string -> Option<string>)

  datatype Answer = Answer(status: int, body: string)

  function Results(world: RequestWorld): nat -> AttemptResult {
    (n: nat) => AttemptOutcome(world.attempts(n), world.maxResponseBytes)
  }

  // The request's completion and its answer, once the loop ended with this result.
  function Settle(world: RequestWorld, terminal: AttemptResult): (Outcome, Answer) {
    if terminal.success then
      match world.encode(terminal.body)
      case None => (Failed, Answer(502, ""))
      case Some(body) => (Succeeded, Answer(200, body))
    else
      (if terminal.class_ == "client_cancelled" then Cancelled else Failed, Answer(ClientStatus(terminal), ""))
  }

  // Everything the loop leaves in the ledger when it goes on from attempt n, up to its last attempt.
  function AttemptLogs(world: RequestWorld, n: nat): seq<Entry>
    requires n >= 1
    decreases world.maxAttempts - n
  {
    if n > world.maxAttempts then [] else
    var result := Results(world)(n);
    AttemptLog(world.attempts(n), world.maxResponseBytes, n)
    + if n < world.maxAttempts && !result.success && result.retryable && Undisturbed(world.pacing, n, result) then AttemptLogs(world, n + 1) else []
  }

  // The usage a request is stored with: that of the answered attempt.
  function SettledUsage(world: RequestWorld, terminal: AttemptResult): TokenUsage {
    if Settle(world, terminal).0 == Succeeded then terminal.usage else NO_USAGE
  }

  // What follows the last attempt.
  function Settlement(world: RequestWorld): seq<Entry> {
    var terminal := Terminal(Results(world), world.pacing, world.maxAttempts, 1);
    var settled := Settle(world, terminal);
    [CompleteRequest(settled.0, settled.1.status, SettledUsage(world, terminal), world.finishOk),
     Respond(ServedAnswer(world).status)]
  }

  function ServedAnswer(world: RequestWorld): Answer {
    var settled := Settle(world, Terminal(Results(world), world.pacing, world.maxAttempts, 1)).1;
    if world.finishOk then settled else Answer(503, "")
  }

  // Completes the request in the ledger and answers it.
  method Finish(ledger: CallLog, finishOk: bool, outcome: Outcome, usage: TokenUsage, answer: Answer) returns (given: Answer)
    requires Audit(ledger.log).Some?
    requires var a := Audit(ledger.log).value;
             && a.request.Open? && !a.attemptOpen && !a.responded
             && (if outcome == Succeeded then a.won && answer.status == 200 else usage == NO_USAGE && answer.status != 200)
    modifies ledger
    ensures given == if finishOk then answer else Answer(503, "")
    ensures ledger.log == old(ledger.log) + [CompleteRequest(outcome, answer.status, usage, finishOk), Respond(given.status)]
    ensures Audit(ledger.log).Some?
    ensures var a := Audit(ledger.log).value;
            && a.request == Closed(outcome, finishOk) && a.responded && !a.attemptOpen
            && a.attempts == Audit(old(ledger.log)).value.attempts
  {
    ledger.Record(CompleteRequest(outcome, answer.status, usage, finishOk));
    given := if finishOk then answer else Answer(503, "");
    ledger.Record(Respond(given.status));
  }

  lemma FailuresAreNot200(world: RequestWorld, n: nat)
    ensures !Results(world)(n).success ==> ClientStatus(Results(world)(n)) != 200
  {
    var w := world.attempts(n);
    assert Results(world)(n) == AttemptOutcome(w, world.maxResponseBytes);
    assert LEDGER_FAILURE.clientStatus == 503 && CLIENT_CANCELLED.clientStatus == 499;
    assert !Judge(w, world.maxResponseBytes).1.success ==> Judge(w, world.maxResponseBytes).1.clientStatus !in {0, 200};
  }

  // Where the log stands after one more attempt.
  lemma LogGoesOn(world: RequestWorld, before: seq<Entry>, n: nat)
    requires 1 <= n <= world.maxAttempts
    ensures var result := Results(world)(n);
            before + AttemptLogs(world, n)
            == before + AttemptLog(world.attempts(n), world.maxResponseBytes, n)
               + if n < world.maxAttempts && !result.success && result.retryable && Undisturbed(world.pacing, n, result) then AttemptLogs(world, n + 1) else []
  {
    hide AttemptLog;
  }

  method ServeBuffered(ledger: CallLog, world: RequestWorld) returns (answer: Answer)
    requires Ready(Audit(ledger.log), 0)
    modifies ledger
    ensures answer == ServedAnswer(world)
    ensures ledger.log == old(ledger.log) + AttemptLogs(world, 1) + Settlement(world)
    ensures Audit(ledger.log).Some? && Audit(ledger.log).value.request.Closed?
    ensures !Audit(ledger.log).value.attemptOpen && Audit(ledger.log).value.responded
    ensures Audit(ledger.log).value.attempts <= if world.maxAttempts > 0 then world.maxAttempts else 0
  {
    hide Audit, Advance, AttemptLog, Judge, AttemptOutcome;
    var terminal := NO_ATTEMPT;
    var number := 1;
    while number <= world.maxAttempts
      invariant ledger.log + AttemptLogs(world, number) == old(ledger.log) + AttemptLogs(world, 1)
      invariant 1 <= number
      invariant number <= world.maxAttempts || number == 1
      invariant Ready(Audit(ledger.log), number - 1)
      invariant terminal == NO_ATTEMPT || number > 1
      invariant number == 1 ==> terminal == NO_ATTEMPT
      invariant Terminal(Results(world), world.pacing, world.maxAttempts, number)
             == Terminal(Results(world), world.pacing, world.maxAttempts, 1)
      decreases world.maxAttempts - number
    {
      ghost var before := ledger.log;
      terminal := PerformAttempt(ledger, world.attempts(number), world.maxResponseBytes, number);
      assert terminal == Results(world)(number);
      LogGoesOn(world, before, number);
      assert ledger.log + [] == ledger.log;
      FailuresAreNot200(world, number);
      if terminal.success {
        var encoded := world.encode(terminal.body);
        if encoded.None? {
          answer := Finish(ledger, world.finishOk, Failed, NO_USAGE, Answer(502, ""));
          return;
        }
        answer := Finish(ledger, world.finishOk, Succeeded, terminal.usage, Answer(200, encoded.value));
        return;
      }
      if !terminal.retryable || number == world.maxAttempts {
        break;
      }
      var delay := RetryDelay(world.pacing.base, world.pacing.maximum, number, terminal.retryAfter);
      if !Waits(world.pacing, number, delay) {
        terminal := CLIENT_CANCELLED;
        break;
      }
      number := number + 1;
    }
    assert ledger.log + [] == ledger.log;
    var outcome := if terminal.class_ == "client_cancelled" then Cancelled else Failed;
    answer := Finish(ledger, world.finishOk, outcome, NO_USAGE, Answer(ClientStatus(terminal), ""));
  }

  // A buffered request is answered with 200 exactly when its completion was stored, the attempt
  // the loop stopped at succeeded, and its body could be put into the caller's protocol.
  lemma Answered200(world: RequestWorld)
    ensures var stop := Stop(Results(world), world.pacing, world.maxAttempts, 1);
            var result := Results(world)(stop);
            ServedAnswer(world).status == 200
            <==> world.finishOk && 1 <= world.maxAttempts && result.success && world.encode(result.body).Some?
  {
    var results := Results(world);
    if 1 <= world.maxAttempts {
      StopIsFirst(results, world.pacing, world.maxAttempts, 1);
      var stop := Stop(results, world.pacing, world.maxAttempts, 1);
      FailuresAreNot200(world, stop);
    }
  }

  // The body of a 200 is the encoded body of an attempt whose creation and success were stored.
  lemma AnsweredBody(world: RequestWorld)
    requires ServedAnswer(world).status == 200
    ensures var w := world.attempts(Stop(Results(world), world.pacing, world.maxAttempts, 1));
            && w.createOk && w.finishOk && w.provider.Answered? && |w.provider.body| <= world.maxResponseBytes
            && world.encode(w.provider.body) == Some(ServedAnswer(world).body)
  {
    Answered200(world);
    StopIsFirst(Results(world), world.pacing, world.maxAttempts, 1);
  }
}
