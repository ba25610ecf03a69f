/**
 The ledger calls of one inference request, an auditor that accepts exactly the disciplined call
 logs, and what its acceptance means for the log.
 */
module Ledger {
  import opened Wrappers
  import opened StreamChunks

  datatype Outcome = Succeeded | Failed | Cancelled | Blocked

  // Every store call with its answer, and the one HTTP answer of a request.
  datatype Entry =
    | CreateRequest(ok: bool)
    | CompleteRequest(outcome: Outcome, httpStatus: int, usage: TokenUsage, ok: bool)
    | CreateAttempt(number: int, ok: bool)
    | CompleteAttempt(number: int, outcome: Outcome, ok: bool)
    | Respond(httpStatus: int)

  datatype RequestPhase = Absent | Refused | Open | Closed(outcome: Outcome, ok: bool)

  // `won`: an attempt was recorded succeeded. `halted`: no further attempt may be created.
  datatype Auditor = Auditor(request: RequestPhase, attempts: nat, attemptOpen: bool, won: bool, halted: bool, responded: bool)

  const FRESH := Auditor(Absent, 0, false, false, false, false)

  function Advance(a: Auditor, e: Entry): Option<Auditor> {
    match e
    case CreateRequest(ok) =>
      if a.request.Absent? then Some(a.(request := if ok then Open else Refused)) else None
    case CreateAttempt(number, ok) =>
      if a.request.Open? && !a.attemptOpen && !a.halted && number == a.attempts + 1
      then Some(if ok then a.(attempts := a.attempts + 1, attemptOpen := true) else a.(halted := true))
      else None
    case CompleteAttempt(number, outcome, ok) =>
      if a.request.Open? && a.attemptOpen && number == a.attempts
      then Some(a.(attemptOpen := false, won := outcome == Succeeded && ok, halted := outcome == Succeeded || !ok))
      else None
    case CompleteRequest(outcome, httpStatus, usage, ok) =>
      if && a.request.Open? && !a.attemptOpen
         && (if outcome == Succeeded then a.won && httpStatus == 200 else usage == NO_USAGE)
      then Some(a.(request := Closed(outcome, ok))) else None
    case Respond(httpStatus) =>
      if && !a.responded && (a.request.Closed? || a.request.Refused?)
         && (httpStatus == 200 ==> a.won && a.request == Closed(Succeeded, true))
      then Some(a.(responded := true)) else None
  }

  function Audit(log: seq<Entry>): Option<Auditor> {
    if log == [] then Some(FRESH) else
    match Audit(log[..|log| - 1])
    case None => None
    case Some(a) => Advance(a, log[|log| - 1])
  }

  class CallLog {
    var log: seq<Entry>

    constructor ()
      ensures log == []
    {
      log := [];
    }

    method Record(e: Entry)
      modifies this
      ensures log == old(log) + [e]
      ensures Audit(old(log)).Some? ==> Audit(log) == Advance(Audit(old(log)).value, e)
    {
      log := log + [e];
      assert log[..|log| - 1] == old(log);
    }
  }

  // --- What acceptance means --------------------------------------------------------------

  datatype Mark = Begin(number: int) | End(number: int)

  function MarkOf(e: Entry): seq<Mark> {
    match e
    case CreateAttempt(n, true) => [Begin(n)]
    case CompleteAttempt(n, _, _) => [End(n)]
    case _ => []
  }

  // The attempts that came to exist, and their completions, in order.
  function Marks(log: seq<Entry>): seq<Mark> {
    if log == [] then [] else Marks(log[..|log| - 1]) + MarkOf(log[|log| - 1])
  }

  // Begin 1, End 1, Begin 2, End 2, ...
  function Paired(k: nat): seq<Mark> {
    if k == 0 then [] else Paired(k - 1) + [Begin(k), End(k)]
  }

  function Completions(log: seq<Entry>): nat {
    if log == [] then 0 else Completions(log[..|log| - 1]) + if log[|log| - 1].CompleteRequest? then 1 else 0
  }

  function Creations(log: seq<Entry>): nat {
    if log == [] then 0 else Creations(log[..|log| - 1]) + if log[|log| - 1] == CreateRequest(true) then 1 else 0
  }

  function Answers(log: seq<Entry>): nat {
    if log == [] then 0 else Answers(log[..|log| - 1]) + if log[|log| - 1].Respond? then 1 else 0
  }

  // No attempt is created once one was reported succeeded.
  predicate SuccessIsLast(log: seq<Entry>) {
    forall i, j | 0 <= i < j < |log| && log[i].CompleteAttempt? && log[i].outcome == Succeeded :: !log[j].CreateAttempt?
  }

  predicate Stored(log: seq<Entry>, i: nat) {
    i < |log| && log[i].CompleteAttempt? && log[i].outcome == Succeeded && log[i].ok
  }

  predicate CompletedOk(e: Entry) {
    e.CompleteRequest? && e.outcome == Succeeded && e.httpStatus == 200 && e.ok
  }

  // Only a succeeded request is stored with token counts.
  predicate FailuresUnmetered(log: seq<Entry>) {
    forall i | 0 <= i < |log| && log[i].CompleteRequest? && log[i].outcome != Succeeded :: log[i].usage == NO_USAGE
  }

  // A 200 answer follows a stored successful attempt and a stored successful completion.
  predicate AnswersAreStored(log: seq<Entry>) {
    forall j | 0 <= j < |log| && log[j] == Respond(200) ::
      && (exists i :: 0 <= i < j && Stored(log, i))
      && (exists i :: 0 <= i < j && CompletedOk(log[i]))
  }

  // The marks of a log that led the auditor here.
  function Expected(a: Auditor): seq<Mark> {
    if a.attemptOpen && a.attempts > 0 then Paired(a.attempts - 1) + [Begin(a.attempts)] else Paired(a.attempts)
  }

  predicate Fits(log: seq<Entry>, a: Auditor) {
    && Marks(log) == Expected(a)
    && (a.attemptOpen ==> a.attempts > 0)
    && Creations(log) == (if a.request.Open? || a.request.Closed? then 1 else 0)
    && Completions(log) == (if a.request.Closed? then 1 else 0)
    && Answers(log) == (if a.responded then 1 else 0)
    && SuccessIsLast(log) && FailuresUnmetered(log)
    && (a.attemptOpen ==> !a.won && !a.halted)
    && (a.won ==> a.halted)
    && ((exists i :: 0 <= i < |log| && log[i].CompleteAttempt? && log[i].outcome == Succeeded) ==> a.halted)
    && (a.won ==> exists i :: 0 <= i < |log| && Stored(log, i))
    && (a.request == Closed(Succeeded, true) ==> exists i :: 0 <= i < |log| && CompletedOk(log[i]))
    && AnswersAreStored(log)
  }

  lemma MarksStep(log: seq<Entry>, e: Entry, a: Auditor, next: Auditor)
    requires Fits(log, a) && Advance(a, e) == Some(next)
    ensures Marks(log + [e]) == Expected(next)
  {
    assert (log + [e])[..|log + [e]| - 1] == log;
    var k := a.attempts;
    match e
    case CreateAttempt(_, ok) =>
      if !ok {
        assert Marks(log) + [] == Marks(log);
      }
    case CompleteAttempt(_, _, _) =>
      assert (Paired(k - 1) + [Begin(k)]) + [End(k)] == Paired(k);
    case _ =>
      assert Marks(log) + [] == Marks(log);
  }

  lemma Longer(log: seq<Entry>, e: Entry)
    ensures (log + [e])[..|log + [e]| - 1] == log
    ensures forall i | 0 <= i < |log| :: (log + [e])[i] == log[i]
    ensures (exists i :: 0 <= i < |log| && Stored(log, i)) ==> exists i :: 0 <= i < |log| && Stored(log + [e], i)
    ensures (exists i :: 0 <= i < |log| && CompletedOk(log[i])) ==>
              exists i :: 0 <= i < |log| && CompletedOk((log + [e])[i])
  {
    var longer := log + [e];
    if i :| 0 <= i < |log| && Stored(log, i) {
      assert Stored(longer, i);
    }
    if i :| 0 <= i < |log| && CompletedOk(log[i]) {
      assert CompletedOk(longer[i]);
    }
  }

  lemma AnswersStep(log: seq<Entry>, e: Entry, a: Auditor)
    requires Fits(log, a) && Advance(a, e).Some?
    ensures AnswersAreStored(log + [e])
  {
    var longer := log + [e];
    forall j | 0 <= j < |longer| && longer[j] == Respond(200)
      ensures exists i :: 0 <= i < j && Stored(longer, i)
      ensures exists i :: 0 <= i < j && CompletedOk(longer[i])
    {
      if j < |log| {
        assert log[j] == Respond(200);
        var i :| 0 <= i < j && Stored(log, i);
        assert Stored(longer, i);
        var k :| 0 <= k < j && CompletedOk(log[k]);
        assert CompletedOk(longer[k]);
      } else {
        Longer(log, e);
      }
    }
  }

  lemma FitsStep(log: seq<Entry>, e: Entry, a: Auditor, next: Auditor)
    requires Fits(log, a) && Advance(a, e) == Some(next)
    ensures Fits(log + [e], next)
  {
    var longer := log + [e];
    MarksStep(log, e, a, next);
    AnswersStep(log, e, a);
    Longer(log, e);
    hide Marks, Paired, AnswersAreStored;
    forall i, j | 0 <= i < j < |longer| && longer[i].CompleteAttempt? && longer[i].outcome == Succeeded
      ensures !longer[j].CreateAttempt?
    {
      assert log[i] == longer[i];
    }
    if i :| 0 <= i < |longer| && longer[i].CompleteAttempt? && longer[i].outcome == Succeeded {
      assert i < |log| ==> log[i] == longer[i];
    }
    if next.won && !a.won {
      assert Stored(longer, |log|);
    }
    if next.request == Closed(Succeeded, true) && a.request != next.request {
      assert CompletedOk(longer[|log|]);
    }
  }

  lemma {:induction false} FitsAll(log: seq<Entry>)
    requires Audit(log).Some?
    ensures Fits(log, Audit(log).value)
  {
    if log != [] {
      var before := log[..|log| - 1];
      FitsAll(before);
      FitsStep(before, log[|log| - 1], Audit(before).value, Audit(log).value);
      assert log == before + [log[|log| - 1]];
    }
  }

  // A log the auditor accepts with nothing left open: the request, if it was created, has exactly
  // one completion; attempts are 1..k, each completed exactly once before the next begins; a
  // success is never followed by another attempt; and no 200 goes out before both stores.
  lemma AuditedLogDisciplined(log: seq<Entry>)
    requires Audit(log).Some? && !Audit(log).value.request.Open? && !Audit(log).value.attemptOpen
    ensures Completions(log) == Creations(log) <= 1 && Answers(log) <= 1
    ensures Marks(log) == Paired(Audit(log).value.attempts)
    ensures SuccessIsLast(log) && AnswersAreStored(log) && FailuresUnmetered(log)
  {
    hide Marks, Paired, SuccessIsLast, AnswersAreStored, FailuresUnmetered;
    FitsAll(log);
  }
}
