/**
 What the ledger holds of a request entry by entry, and the answer its client gets, said of what the
 request met: the providers' answers, the store's and the pauses.
 */
module RequestRecords {
  import opened Wrappers
  import opened StreamChunks
  import opened RawStreams
  import opened Attempts
  import opened Ledger
  import opened SseFrames
  import opened StreamRelay
  import opened StreamOutcome
  import opened StreamVerdicts
  import opened BufferedGateway
  import opened Gateway

  // --- What an attempt comes to -----------------------------------------------------------

  predicate Fails(r: AttemptResult, class_: string, status: int, retryable: bool, retryAfter: Option<nat>) {
    r == AttemptResult(false, retryable, class_, status, "", TokenUsage(None, None, None, None), retryAfter)
  }

  // A provider that answered with a status of its own.
  predicate StatusFails(status: int, r: AttemptResult, retryAfter: Option<nat>) {
    && (status == 400 || status == 422 ==> Fails(r, "upstream_rejected", 400, false, retryAfter))
    && (status == 429 ==> Fails(r, "upstream_rate_limited", 429, true, retryAfter))
    && (status == 503 ==> Fails(r, "upstream_unavailable", 503, true, retryAfter))
    && (status == 401 || status == 403 || status == 404 ==> Fails(r, "target_configuration", 502, false, retryAfter))
    && (status !in {400, 422, 429, 503, 401, 403, 404} ==> Fails(r, "upstream_error", 502, false, retryAfter))
  }

  // The provider answered, within the limit.
  predicate Delivers(w: AttemptWorld, maxResponseBytes: nat) {
    w.provider.Answered? && |w.provider.body| <= maxResponseBytes
  }

  // The attempt's beginning and end were both stored.
  predicate Kept(w: AttemptWorld) {
    w.idOk && w.createOk && w.finishOk
  }

  lemma AttemptVerdict(w: AttemptWorld, maxResponseBytes: nat)
    ensures var r := AttemptOutcome(w, maxResponseBytes);
            && (r.success <==> Kept(w) && Delivers(w, maxResponseBytes))
            && (r.success ==> r == AttemptResult(true, false, "", 0, w.provider.body, w.provider.usage, None))
            && (!w.idOk ==> Fails(r, "ledger_error", 500, false, None))
            && (w.idOk && !Kept(w) ==> Fails(r, "ledger_error", 503, false, None))
            && (Kept(w) ==>
                  match w.provider
                  case NoResult => Fails(r, "invalid_upstream_response", 502, false, None)
                  case Answered(body, _) => |body| <= maxResponseBytes || Fails(r, "upstream_response_too_large", 502, false, None)
                  case ProviderError(status, retryAfter) =>
                    if w.parentCancelled then Fails(r, "client_cancelled", 499, false, None)
                    else if w.deadlineExceeded then Fails(r, "upstream_timeout", 504, true, None)
                    else if status == 0 then Fails(r, "upstream_transport", 502, true, retryAfter)
                    else StatusFails(status, r, retryAfter))
  {
  }

  lemma AttemptEntries(w: AttemptWorld, maxResponseBytes: nat, number: nat)
    ensures AttemptLog(w, maxResponseBytes, number)
            == if !w.idOk then []
               else if !w.createOk then [CreateAttempt(number, false)]
               else [CreateAttempt(number, true),
                     CompleteAttempt(number,
                                     if Delivers(w, maxResponseBytes) then Succeeded
                                     else if w.provider.ProviderError? && w.parentCancelled then Cancelled
                                     else Failed,
                                     w.finishOk)]
  {
  }

  // An upstream without a stream.
  lemma RefusalVerdict(c: Setting)
    requires !c.world.upstream.Streaming?
    ensures var (w, end) := (c.world, AttemptEnd(c));
            && !end.committed
            && (end.outcome == if end.result.class_ == "client_cancelled" then Cancelled else Failed)
            && var unreachable := if w.parentCancelled then Fails(end.result, "client_cancelled", 499, false, None)
                                  else if w.deadlineExceeded then Fails(end.result, "upstream_timeout", 504, true, None)
                                  else Fails(end.result, "upstream_transport", 502, true, None);
               match w.upstream
               case BadTarget => Fails(end.result, "target_configuration", 502, false, None)
               case NoResponse => unreachable
               case NotEventStream => Fails(end.result, "invalid_upstream_response", 502, false, None)
               case Rejected(status, readOk, tooLarge, retryAfter) =>
                 if !readOk then unreachable
                 else if tooLarge then Fails(end.result, "upstream_response_too_large", 502, false, None)
                 else StatusFails(status, end.result, if status == 429 || status == 503 then retryAfter else None)
  {
  }

  lemma StreamVerdict(c: Setting)
    ensures var (w, r) := (c.world, AttemptReturns(c));
            && (!w.idOk ==> Fails(r, "ledger_error", 500, false, None))
            && (w.idOk && (!w.createOk || !w.finishOk) ==> Fails(r, "ledger_error", 503, false, None))
            && (w.idOk && w.createOk && w.finishOk ==> r == AttemptEnd(c).result)
            && (AttemptCommits(c) <==> w.idOk && w.createOk && AttemptEnd(c).committed)
  {
    hide AttemptEnd;
  }

  lemma StreamEntries(c: Setting, number: nat)
    ensures StreamAttemptLog(c, number)
            == if !c.world.idOk then []
               else if !c.world.createOk then [CreateAttempt(number, false)]
               else [CreateAttempt(number, true), CompleteAttempt(number, AttemptEnd(c).outcome, c.world.finishOk)]
  {
    hide AttemptEnd;
  }

  // --- Pauses -----------------------------------------------------------------------------

  // The first pause is the base, a provider may ask for its own, and none is longer than the maximum.
  lemma PauseIs(base: nat, maximum: nat, number: nat, asked: nat)
    requires number >= 1
    ensures RetryDelay(base, maximum, 1, None) == if base <= maximum then base else maximum
    ensures RetryDelay(base, maximum, number, Some(asked)) == if asked <= maximum then asked else maximum
  {
  }

  // A client is lost in a pause only if there is one and it does not stay through its whole length.
  lemma PauseCut(pacing: Pacing, number: nat, result: AttemptResult)
    requires number >= 1
    ensures var pause := RetryDelay(pacing.base, pacing.maximum, number, result.retryAfter);
            Undisturbed(pacing, number, result) <==> pause <= 0 || pacing.stays(number, pause)
  {
  }

  // --- The attempts of a request ----------------------------------------------------------

  // Attempts 1 to k, each stored as failed before the next begins.
  function Repeated(k: nat): seq<Entry> {
    if k == 0 then [] else Repeated(k - 1) + [CreateAttempt(k, true), CompleteAttempt(k, Failed, true)]
  }

  // A buffered loop leaves failures behind and its last attempt.
  lemma {:induction false} BufferedAttempts(request: RequestWorld, n: nat)
    requires 1 <= n <= request.maxAttempts
    ensures var stop := Stop(Results(request), request.pacing, request.maxAttempts, n);
            stop >= 1 && Repeated(n - 1) + AttemptLogs(request, n)
                         == Repeated(stop - 1) + AttemptLog(request.attempts(stop), request.maxResponseBytes, stop)
    decreases request.maxAttempts - n
  {
    hide AttemptOutcome, AttemptLog, Repeated;
    var (w, r) := (request.attempts(n), Results(request)(n));
    var entries := AttemptLog(w, request.maxResponseBytes, n);
    if n < request.maxAttempts && !r.success && r.retryable && Undisturbed(request.pacing, n, r) {
      BufferedAttempts(request, n + 1);
      RetriedEntries(w, request.maxResponseBytes, n);
      assert Repeated(n - 1) + (entries + AttemptLogs(request, n + 1)) == (Repeated(n - 1) + entries) + AttemptLogs(request, n + 1);
    } else {
      assert entries + [] == entries;
    }
  }

  lemma RetriedEntries(w: AttemptWorld, maxResponseBytes: nat, n: nat)
    requires n >= 1 && AttemptOutcome(w, maxResponseBytes).retryable
    ensures Repeated(n - 1) + AttemptLog(w, maxResponseBytes, n) == Repeated(n)
  {
    AttemptVerdict(w, maxResponseBytes);
    AttemptEntries(w, maxResponseBytes, n);
    hide AttemptOutcome, AttemptLog;
  }

  lemma {:induction false} StreamedAttempts(request: StreamRequest, n: nat)
    requires 1 <= n <= request.maxAttempts
    ensures var last := LastAttempt(request, n);
            Repeated(n - 1) + StreamAttemptLogs(request, n) == Repeated(last - 1) + StreamAttemptLog(SettingAt(request, last), last)
    decreases request.maxAttempts - n
  {
    hide AttemptReturns, AttemptCommits, StreamAttemptLog, Repeated;
    var c := SettingAt(request, n);
    var entries := StreamAttemptLog(c, n);
    if n < request.maxAttempts && GoesOn(request, n) {
      StreamedAttempts(request, n + 1);
      RetriedStream(c, n);
      assert Repeated(n - 1) + (entries + StreamAttemptLogs(request, n + 1)) == (Repeated(n - 1) + entries) + StreamAttemptLogs(request, n + 1);
    } else {
      assert entries + [] == entries;
    }
  }

  lemma RetriedStream(c: Setting, n: nat)
    requires n >= 1 && AttemptReturns(c).retryable
    ensures Repeated(n - 1) + StreamAttemptLog(c, n) == Repeated(n)
  {
    StreamVerdict(c);
    StreamEntries(c, n);
    RetryableFailed(c);
    hide AttemptEnd, AttemptReturns, StreamAttemptLog;
  }

  lemma RetryableFailed(c: Setting)
    ensures AttemptEnd(c).result.retryable ==> AttemptEnd(c).outcome == Failed
  {
    if c.world.upstream.Streaming? {
      hide AttemptEnd, EndsAs, TakesJust;
      var n := EndsSomewhere(c);
      EndFailed(c, n);
    } else {
      RefusalVerdict(c);
    }
  }

  lemma EndFailed(c: Setting, n: nat)
    requires c.world.upstream.Streaming? && TakesJust(c, n) && EndsAs(c, n, AttemptEnd(c))
    ensures AttemptEnd(c).result.retryable ==> AttemptEnd(c).outcome == Failed
  {
    hide AttemptEnd, Accepted, Parsed, Raw, Frames, Passed, Writes, Finishes, Seen, ReadFrame, Unread, ChoiceOffered, ReasonStated, Reported, Rendering, AllAllowed;
  }

  // --- Buffered requests ------------------------------------------------------------------

  // What follows the attempts: one completion and one answer, unless the completion was not stored.
  predicate SettledAs(entries: seq<Entry>, outcome: Outcome, status: int, usage: TokenUsage, finishOk: bool) {
    entries == [CompleteRequest(outcome, status, usage, finishOk), Respond(if finishOk then status else 503)]
  }

  // A buffered request is stored and answered by the attempt its loop stopped at; the counts are those of
  // the provider's answer, and only a success has any.
  lemma BufferedSettlement(request: RequestWorld)
    ensures var stop := Stop(Results(request), request.pacing, request.maxAttempts, 1);
            var (w, r) := (request.attempts(stop), Results(request)(stop));
            var none := TokenUsage(None, None, None, None);
            if request.maxAttempts < 1 then SettledAs(Settlement(request), Failed, 502, none, request.finishOk)
            else if Kept(w) && Delivers(w, request.maxResponseBytes) then
              if request.encode(w.provider.body).Some?
              then SettledAs(Settlement(request), Succeeded, 200, w.provider.usage, request.finishOk)
              else SettledAs(Settlement(request), Failed, 502, none, request.finishOk)
            else if r.retryable && stop < request.maxAttempts then SettledAs(Settlement(request), Cancelled, 499, none, request.finishOk)
            else SettledAs(Settlement(request), if r.class_ == "client_cancelled" then Cancelled else Failed, r.clientStatus, none, request.finishOk)
  {
    hide AttemptOutcome;
    if request.maxAttempts >= 1 {
      StopIsFirst(Results(request), request.pacing, request.maxAttempts, 1);
      var stop := Stop(Results(request), request.pacing, request.maxAttempts, 1);
      AttemptVerdict(request.attempts(stop), request.maxResponseBytes);
    }
  }

  // The client's answer is the one the log records; it has a body only when the provider's was encoded.
  lemma BufferedAnswer(request: RequestWorld)
    ensures Settlement(request)[1] == Respond(ServedAnswer(request).status)
    ensures ServedAnswer(request).status != 200 ==> ServedAnswer(request).body == ""
    ensures ServedAnswer(request).status == 200 ==>
              var provider := request.attempts(Stop(Results(request), request.pacing, request.maxAttempts, 1)).provider;
              provider.Answered? && request.encode(provider.body) == Some(ServedAnswer(request).body)
  {
    hide AttemptOutcome, Stop;
    BufferedSettlement(request);
    if ServedAnswer(request).status == 200 {
      AnsweredBody(request);
    }
  }

  // --- Streamed requests ------------------------------------------------------------------

  // A streamed request is stored by its last attempt, or as cancelled in the pause behind it; it is answered
  // with a status only when nothing was written.
  lemma StreamedSettlement(request: StreamRequest)
    ensures var last := LastAttempt(request, 1);
            var c := SettingAt(request, last);
            var r := AttemptReturns(c);
            var none := TokenUsage(None, None, None, None);
            var entries := StreamSettlement(LoopResult(request), LoopCommits(request), request.finishOk);
            if request.maxAttempts < 1 then SettledAs(entries, Failed, 502, none, request.finishOk)
            else if r.success then entries == [CompleteRequest(Succeeded, 200, r.usage, request.finishOk)]
            else
              var cut := r.retryable && !AttemptCommits(c) && last < request.maxAttempts;
              var outcome := if cut || r.class_ == "client_cancelled" then Cancelled else Failed;
              var status := if cut then 499 else if r.clientStatus == 0 then 502 else r.clientStatus;
              if AttemptCommits(c) then entries == [CompleteRequest(outcome, status, none, request.finishOk)]
              else SettledAs(entries, outcome, status, none, request.finishOk)
  {
    hide AttemptReturns, AttemptCommits, GoesOn;
    if request.maxAttempts >= 1 {
      OnlyLastCommits(request, 1);
    }
  }

  // --- The usage a request is stored with -------------------------------------------------

  // The request is completed once in this log, as a success with these counts.
  predicate StoredOnce(log: seq<Entry>, usage: TokenUsage, finishOk: bool) {
    && Ledger.Completions(log) == 1
    && forall entry <- log | entry.CompleteRequest? :: entry == CompleteRequest(Succeeded, 200, usage, finishOk)
  }

  // A log without completions and answers.
  predicate Attempting(log: seq<Entry>) {
    forall entry <- log :: !entry.CompleteRequest? && !entry.Respond?
  }

  lemma {:induction false} CompletedBehind(log: seq<Entry>, last: seq<Entry>, outcome: Outcome, status: int, usage: TokenUsage, ok: bool)
    requires Attempting(log)
    requires last == [CompleteRequest(outcome, status, usage, ok)] || exists answer :: last == [CompleteRequest(outcome, status, usage, ok), Respond(answer)]
    ensures Ledger.Completions(log + last) == 1
    ensures forall entry <- log + last | entry.CompleteRequest? :: entry == CompleteRequest(outcome, status, usage, ok)
  {
    NoCompletions(log);
    var e := CompleteRequest(outcome, status, usage, ok);
    assert (log + [e])[..|log|] == log;
    assert Ledger.Completions(log + [e]) == 1;
    if |last| == 2 {
      var longer := log + last;
      assert longer[..|longer| - 1] == log + [e] && longer[|longer| - 1] == last[1];
    }
  }

  lemma {:induction false} NoCompletions(log: seq<Entry>)
    requires Attempting(log)
    ensures Ledger.Completions(log) == 0
  {
    if log != [] {
      assert log[|log| - 1] in log;
      assert forall entry <- log[..|log| - 1] :: entry in log;
      NoCompletions(log[..|log| - 1]);
    }
  }

  lemma {:induction false} AttemptsOnly(request: RequestWorld, n: nat)
    requires n >= 1
    ensures Attempting(AttemptLogs(request, n))
    decreases request.maxAttempts - n
  {
    hide AttemptOutcome, Judge;
    if n < request.maxAttempts {
      AttemptsOnly(request, n + 1);
    }
  }

  lemma {:induction false} StreamAttemptsOnly(request: StreamRequest, n: nat)
    requires n >= 1
    ensures Attempting(StreamAttemptLogs(request, n))
    decreases request.maxAttempts - n
  {
    hide AttemptReturns, AttemptEnd, GoesOn;
    if n < request.maxAttempts {
      StreamAttemptsOnly(request, n + 1);
    }
  }

  // A 200 comes with the provider's own counts: the one completion in the log of a request answered 200
  // carries exactly the usage of the answer the loop stopped at.
  lemma BufferedUsageStored(world: World)
    requires world.delivery.Buffered? && Respond(200) in RequestLog(world)
    ensures var request := world.delivery.request.(finishOk := world.finishOk);
            var provider := request.attempts(Stop(Results(request), request.pacing, request.maxAttempts, 1)).provider;
            provider.Answered? && world.finishOk && StoredOnce(RequestLog(world), provider.usage, true)
  {
    hide AttemptLogs, Settlement, Stop, Ledger.Completions, AttemptOutcome, RequestLog;
    AnsweredNotHindered(world);
    var request := world.delivery.request.(finishOk := world.finishOk);
    AttemptsOnly(request, 1);
    var before := [CreateRequest(true)] + AttemptLogs(request, 1);
    assert RequestLog(world) == before + Settlement(request);
    assert Attempting(before);
    BufferedSettlement(request);
    var stop := Stop(Results(request), request.pacing, request.maxAttempts, 1);
    AttemptVerdict(request.attempts(stop), request.maxResponseBytes);
    assert Respond(200) in Settlement(request);
    CompletedBehind(before, Settlement(request), Succeeded, 200, request.attempts(stop).provider.usage, true);
  }

  lemma AnsweredNotHindered(world: World)
    requires world.delivery.Buffered? && Respond(200) in RequestLog(world)
    ensures var request := world.delivery.request.(finishOk := world.finishOk);
            RequestLog(world) == [CreateRequest(true)] + AttemptLogs(request, 1) + Settlement(request)
  {
    hide AttemptLogs, Settlement;
  }

  // A streamed success comes with the counts of the last report its upstream sent before [DONE].
  lemma StreamedUsageStored(world: World) returns (n: nat)
    requires world.delivery.Streamed?
    requires exists entry <- RequestLog(world) :: entry.CompleteRequest? && entry.outcome == Succeeded
    ensures var request := world.delivery.stream.(finishOk := world.finishOk);
            var c := SettingAt(request, LastAttempt(request, 1));
            && c.world.upstream.Streaming? && SucceedsAt(c, n)
            && Parsed(c.parse, Frames(Seen(c))[..n]).Some?
            && StoredOnce(RequestLog(world), Reported(Parsed(c.parse, Frames(Seen(c))[..n]).value), world.finishOk)
  {
    hide StreamAttemptLogs, StreamSettlement, LastAttempt, Ledger.Completions, AttemptReturns, RequestLog, LoopResult, LoopCommits, SucceedsAt,
      Frames, Parsed, Reported, Seen, AttemptEnd;
    var request := world.delivery.stream.(finishOk := world.finishOk);
    CompletedNotHindered(world);
    StreamAttemptsOnly(request, 1);
    var before := [CreateRequest(true)] + StreamAttemptLogs(request, 1);
    var settlement := StreamSettlement(LoopResult(request), LoopCommits(request), request.finishOk);
    assert RequestLog(world) == before + settlement;
    assert Attempting(before);
    StreamedSettlement(request);
    var c := SettingAt(request, LastAttempt(request, 1));
    assert AttemptReturns(c).success;
    n := SuccessAt(c);
    CompletedBehind(before, settlement, Succeeded, 200, AttemptReturns(c).usage, request.finishOk);
  }

  lemma CompletedNotHindered(world: World)
    requires world.delivery.Streamed?
    requires exists entry <- RequestLog(world) :: entry.CompleteRequest? && entry.outcome == Succeeded
    ensures var request := world.delivery.stream.(finishOk := world.finishOk);
            RequestLog(world)
            == [CreateRequest(true)] + StreamAttemptLogs(request, 1)
               + StreamSettlement(LoopResult(request), LoopCommits(request), request.finishOk)
  {
    hide StreamAttemptLogs, StreamSettlement, LoopResult, LoopCommits;
  }

  lemma SuccessAt(c: Setting) returns (n: nat)
    requires AttemptReturns(c).success
    ensures c.world.upstream.Streaming? && SucceedsAt(c, n)
    ensures Parsed(c.parse, Frames(Seen(c))[..n]).Some?
    ensures AttemptReturns(c).usage == Reported(Parsed(c.parse, Frames(Seen(c))[..n]).value)
  {
    hide AttemptEnd, SucceedsAt, Frames, Parsed, Reported, Seen;
    StreamVerdict(c);
    if !c.world.upstream.Streaming? {
      RefusalVerdict(c);
    }
    SucceedsExactly(c);
    n :| SucceedsAt(c, n);
    SucceedsParsed(c, n);
  }

  // --- Requests that reach no provider ----------------------------------------------------

  // A request is turned away by the first thing that stands against it.
  lemma TurnedAway(world: World)
    ensures var w, log := world, RequestLog(world);
            var turned := (outcome: Outcome, status: int) =>
              log == [CreateRequest(true), CompleteRequest(outcome, status, TokenUsage(None, None, None, None), w.finishOk),
                      Respond(if w.finishOk then status else 503)];
            && (!w.createOk ==> log == [CreateRequest(false), Respond(503)])
            && (w.createOk && !w.hasScope ==> turned(Blocked, 403))
            && (w.createOk && w.hasScope ==>
                  && (w.route == Forbidden ==> turned(Blocked, 403))
                  && (w.route == NotFound ==> turned(Blocked, 404))
                  && (w.route == Unavailable || w.route == Unresolved ==> turned(Blocked, 503))
                  && (w.route == Routed && !w.setRouteOk ==> turned(Failed, 500))
                  && (w.route == Routed && w.setRouteOk && !w.targetOk ==> turned(Failed, 502))
                  && (w.route == Routed && w.setRouteOk && w.targetOk && !w.secretOk ==> turned(Failed, 503))
                  && (w.route == Routed && w.setRouteOk && w.targetOk && w.secretOk && !w.marshalOk ==> turned(Failed, 500))
                  && (w.route == Routed && w.setRouteOk && w.targetOk && w.secretOk && w.marshalOk ==>
                        match w.delivery
                        case Buffered(request) =>
                          log == [CreateRequest(true)] + AttemptLogs(request.(finishOk := w.finishOk), 1) + Settlement(request.(finishOk := w.finishOk))
                        case Streamed(stream) =>
                          var request := stream.(finishOk := w.finishOk);
                          if !stream.flusherOk then turned(Failed, 500)
                          else log == [CreateRequest(true)] + StreamAttemptLogs(request, 1)
                                      + StreamSettlement(LoopResult(request), LoopCommits(request), request.finishOk)))
  {
    hide AttemptLogs, Settlement, StreamAttemptLogs, StreamSettlement, LoopResult, LoopCommits;
    if world.delivery.Streamed? {
      var request := world.delivery.stream.(finishOk := world.finishOk);
      assert [CreateRequest(true)] + (StreamAttemptLogs(request, 1) + StreamSettlement(LoopResult(request), LoopCommits(request), request.finishOk))
          == [CreateRequest(true)] + StreamAttemptLogs(request, 1) + StreamSettlement(LoopResult(request), LoopCommits(request), request.finishOk);
    }
  }
}
