/** An inference request from its creation in the ledger to its answer, over both kinds of delivery. */
module Gateway {
  import opened Wrappers
  import opened StreamChunks
  import opened Ledger
  import opened BufferedGateway
  import opened StreamRelay
  import opened StreamOutcome
  import opened StreamingGateway

  datatype RouteOutcome = Routed | Unavailable | Forbidden | NotFound | Unresolved

  datatype Delivery = Buffered(request: RequestWorld) | Streamed(stream: StreamRequest)

  // An authenticated, decoded request and every answer the gateway gets while it serves it.
  datatype World = World(
    createOk: bool, finishOk: bool, hasScope: bool, route: RouteOutcome, setRouteOk: bool,
    targetOk: bool, secretOk: bool, marshalOk: bool, delivery: Delivery)

  function RouteStatus(route: RouteOutcome): int {
    match route
    case Forbidden => 403
    case NotFound => 404
    case _ => 503
  }

  // What keeps a created request from reaching a provider: its outcome and status.
  function Hindrance(world: World): Option<(Outcome, int)> {
    if !world.hasScope then Some((Blocked, 403))
    else if !world.route.Routed? then Some((Blocked, RouteStatus(world.route)))
    else if !world.setRouteOk then Some((Failed, 500))
    else if !world.targetOk then Some((Failed, 502))
    else if !world.secretOk then Some((Failed, 503))
    else if !world.marshalOk then Some((Failed, 500))
    else None
  }

  function BlockLog(world: World, outcome: Outcome, status: int): seq<Entry> {
    [CreateRequest(true), CompleteRequest(outcome, status, NO_USAGE, world.finishOk), Respond(if world.finishOk then status else 503)]
  }

  function StreamLog(request: StreamRequest): seq<Entry> {
    if request.flusherOk then
      StreamAttemptLogs(request, 1) + StreamSettlement(LoopResult(request), LoopCommits(request), request.finishOk)
    else [CompleteRequest(Failed, 500, NO_USAGE, request.finishOk), Respond(if request.finishOk then 500 else 503)]
  }

  // Every store call and the answer of a request, in order.
  function RequestLog(world: World): seq<Entry> {
    if !world.createOk then [CreateRequest(false), Respond(503)] else
    match Hindrance(world)
    case Some((outcome, status)) => BlockLog(world, outcome, status)
    case None =>
      match world.delivery
      case Buffered(request) =>
        var served := request.(finishOk := world.finishOk);
        [CreateRequest(true)] + AttemptLogs(served, 1) + Settlement(served)
      case Streamed(stream) => [CreateRequest(true)] + StreamLog(stream.(finishOk := world.finishOk))
  }

  // How many attempts a request may take: none unless it reaches a provider.
  function AttemptLimit(world: World): nat {
    if !world.createOk || Hindrance(world).Some? then 0 else
    var limit := match world.delivery case Buffered(request) => request.maxAttempts case Streamed(stream) => stream.maxAttempts;
    if limit > 0 then limit else 0
  }

  // A served request leaves a disciplined ledger, whatever the store, the providers and the client
  // do: one completion, attempts 1 to k each ended before the next begins, k within the limit.
  predicate Disciplined(log: seq<Entry>, limit: nat) {
    && Completions(log) == Creations(log) <= 1 && Answers(log) <= 1
    && (exists k: nat :: k <= limit && Marks(log) == Paired(k))
    && SuccessIsLast(log) && AnswersAreStored(log) && FailuresUnmetered(log)
  }

  lemma AcceptedIsDisciplined(log: seq<Entry>, limit: nat)
    requires Audit(log).Some? && !Audit(log).value.request.Open? && !Audit(log).value.attemptOpen
    requires Audit(log).value.attempts <= limit
    ensures Disciplined(log, limit)
  {
    hide Marks, Paired, SuccessIsLast, AnswersAreStored, FailuresUnmetered, Completions, Creations, Answers;
    AuditedLogDisciplined(log);
  }

  lemma Created(log: seq<Entry>)
    requires log == [CreateRequest(true)]
    ensures Audit(log) == Some(FRESH.(request := Open)) && Ready(Audit(log), 0)
  {
    assert log[..0] == [];
  }

  // The attempts of a streamed request, how far the last relay came, and the bytes it handed on and
  // delivered.
  datatype Relay = Relay(tries: seq<Try>, progress: Progress, handed: string, delivered: string)

  // The relay is what the server guarantees of this request, and it was a success if it was stored as one.
  predicate Relayed(world: World, relay: Relay, outcome: Outcome) {
    && world.delivery.Streamed?
    && Accounted(world.delivery.stream.(finishOk := world.finishOk), relay.tries, relay.progress, relay.handed, relay.delivered)
    && (outcome == Succeeded <==> relay.tries[|relay.tries| - 1].result.success)
  }

  // What a request leaves behind in the ledger and at its client.
  predicate Served(world: World, end: Auditor, committed: bool, relay: Option<Relay>) {
    && (end.responded <==> !committed)
    && (end.request == Refused <==> !world.createOk)
    && (committed ==> relay.Some?)
    && (relay.Some? ==> end.request.Closed? && Relayed(world, relay.value, end.request.outcome))
    && (end.request.Closed? && end.request.outcome == Succeeded && world.delivery.Streamed? ==> relay.Some?)
  }

  method ServeHTTP(ledger: CallLog, world: World) returns (ghost committed: bool, ghost relay: Option<Relay>)
    requires ledger.log == []
    modifies ledger
    ensures ledger.log == RequestLog(world)
    ensures Disciplined(ledger.log, AttemptLimit(world))
    ensures Audit(ledger.log).Some? && Served(world, Audit(ledger.log).value, committed, relay)
  {
    hide Audit, Advance, Disciplined, AttemptLogs, Settlement, StreamLog, BlockLog, Relayed;
    committed, relay := false, None;
    ledger.Record(CreateRequest(world.createOk));
    if !world.createOk {
      ledger.Record(Respond(503));
      RefusedLog(ledger.log);
      return;
    }
    if !world.hasScope {
      Block(ledger, world, Blocked, 403);
    } else if !world.route.Routed? {
      Block(ledger, world, Blocked, RouteStatus(world.route));
    } else if !world.setRouteOk {
      Block(ledger, world, Failed, 500);
    } else if !world.targetOk {
      Block(ledger, world, Failed, 502);
    } else if !world.secretOk {
      Block(ledger, world, Failed, 503);
    } else if !world.marshalOk {
      Block(ledger, world, Failed, 500);
    } else {
      committed, relay := Deliver(ledger, world);
    }
  }

  lemma RefusedLog(log: seq<Entry>)
    requires log == [CreateRequest(false), Respond(503)]
    ensures Audit(log) == Some(FRESH.(request := Refused, responded := true)) && Disciplined(log, 0)
  {
    hide Disciplined;
    var first := [CreateRequest(false)];
    assert log[..|log| - 1] == first && first[..|first| - 1] == [];
    assert Audit(first) == Some(FRESH.(request := Refused));
    assert Audit(log) == Some(FRESH.(request := Refused, responded := true));
    AcceptedIsDisciplined(log, 0);
  }

  // A created request nothing keeps from the providers.
  method Deliver(ledger: CallLog, world: World) returns (ghost committed: bool, ghost relay: Option<Relay>)
    requires ledger.log == [CreateRequest(true)] && world.createOk && Hindrance(world).None?
    modifies ledger
    ensures ledger.log == RequestLog(world) && Disciplined(ledger.log, AttemptLimit(world))
    ensures Audit(ledger.log).Some? && Audit(ledger.log).value.request.Closed?
    ensures Served(world, Audit(ledger.log).value, committed, relay)
  {
    hide Audit, Disciplined, AttemptLogs, Settlement, StreamAttemptLogs, StreamSettlement, LoopResult, LoopCommits, Hindrance, Accounted, Retried, LastAttempt;
    Created(ledger.log);
    committed, relay := false, None;
    match world.delivery {
      case Buffered(request) =>
        var answer := ServeBuffered(ledger, request.(finishOk := world.finishOk));
      case Streamed(stream) =>
        committed, relay := Stream(ledger, stream.(finishOk := world.finishOk));
    }
    AcceptedIsDisciplined(ledger.log, AttemptLimit(world));
  }

  method Stream(ledger: CallLog, request: StreamRequest) returns (ghost committed: bool, ghost relay: Option<Relay>)
    requires Ready(Audit(ledger.log), 0)
    modifies ledger
    ensures ledger.log == old(ledger.log) + StreamLog(request)
    ensures Audit(ledger.log).Some? && Audit(ledger.log).value.request.Closed? && !Audit(ledger.log).value.attemptOpen
    ensures Audit(ledger.log).value.responded <==> !committed
    ensures committed ==> relay.Some?
    ensures relay.Some? ==>
              && Accounted(request, relay.value.tries, relay.value.progress, relay.value.handed, relay.value.delivered)
              && (Audit(ledger.log).value.request.outcome == Succeeded
                  <==> relay.value.tries[|relay.value.tries| - 1].result.success)
    ensures relay.None? ==> Audit(ledger.log).value.request.outcome != Succeeded
    ensures Audit(ledger.log).value.attempts <= if request.maxAttempts > 0 then request.maxAttempts else 0
  {
    hide Audit, StreamAttemptLogs, StreamSettlement, LoopResult, LoopCommits, Accounted, Retried, LastAttempt;
    var sink;
    ghost var tries, progress;
    sink, tries, progress := ServeStreaming(ledger, request);
    committed := sink.committed;
    relay := if tries == [] then None else Some(Relay(tries, progress, sink.handed, sink.delivered));
    assert old(ledger.log) + (StreamAttemptLogs(request, 1) + StreamSettlement(LoopResult(request), LoopCommits(request), request.finishOk))
        == old(ledger.log) + StreamAttemptLogs(request, 1) + StreamSettlement(LoopResult(request), LoopCommits(request), request.finishOk);
  }

  // Ends a created request without an attempt.
  method Block(ledger: CallLog, world: World, outcome: Outcome, status: int)
    requires ledger.log == [CreateRequest(true)] && outcome != Succeeded && status != 200
    modifies ledger
    ensures ledger.log == BlockLog(world, outcome, status)
    ensures Disciplined(ledger.log, 0) && Audit(ledger.log).Some?
    ensures Audit(ledger.log).value.responded && Audit(ledger.log).value.request.Closed?
    ensures Audit(ledger.log).value.request.outcome != Succeeded
  {
    hide Disciplined, Audit;
    Created(ledger.log);
    ledger.Record(CompleteRequest(outcome, status, NO_USAGE, world.finishOk));
    ledger.Record(Respond(if world.finishOk then status else 503));
    AcceptedIsDisciplined(ledger.log, 0);
  }
}
