/** What one attempt at a provider comes to, and how the retry loops judge it. */
module Attempts {
  import opened Wrappers
  import opened StreamChunks

  datatype AttemptResult = AttemptResult(
    success: bool, retryable: bool, class_: string, clientStatus: int,
    body: string, usage: TokenUsage, retryAfter: Option<nat>)

  function Failure(class_: string, clientStatus: int): AttemptResult {
    AttemptResult(false, false, class_, clientStatus, "", NO_USAGE, None)
  }

  function Transient(class_: string, clientStatus: int): AttemptResult {
    Failure(class_, clientStatus).(retryable := true)
  }

  function Success(body: string, usage: TokenUsage): AttemptResult {
    AttemptResult(true, false, "", 0, body, usage, None)
  }

  const LEDGER_FAILURE := Failure("ledger_error", 503)
  const CLIENT_CANCELLED := Failure("client_cancelled", 499)

  function ClassifyProviderStatus(status: int): AttemptResult {
    if status == 400 || status == 422 then Failure("upstream_rejected", 400)
    else if status == 429 then Transient("upstream_rate_limited", 429)
    else if status == 503 then Transient("upstream_unavailable", 503)
    else if status == 401 || status == 403 || status == 404 then Failure("target_configuration", 502)
    else Failure("upstream_error", 502)
  }

  // The status a request is answered with when its last attempt did not succeed.
  function ClientStatus(terminal: AttemptResult): int {
    if terminal.clientStatus == 0 then 502 else terminal.clientStatus
  }

  // The result of a retry loop that makes no attempt.
  const NO_ATTEMPT := Failure("", 0)

  function Pow2(n: nat): (p: nat)
    ensures p > 0
  {
    if n == 0 then 1 else 2 * Pow2(n - 1)
  }

  // The pause after attempt `number`: the provider's own, or doubling from the base; bounded.
  function RetryDelay(base: nat, maximum: nat, number: nat, retryAfter: Option<nat>): (delay: nat)
    requires number >= 1
    ensures delay <= maximum
  {
    var delay := if retryAfter.Some? then retryAfter.value else base * Pow2(number - 1);
    if delay > maximum then maximum else delay
  }

  // Left to itself the gateway doubles its pause after every attempt, up to the maximum.
  lemma DelayDoubles(base: nat, maximum: nat, number: nat)
    requires number >= 1
    ensures var next := 2 * RetryDelay(base, maximum, number, None);
            RetryDelay(base, maximum, number + 1, None) == if next > maximum then maximum else next
  {
    assert base * Pow2(number) == 2 * (base * Pow2(number - 1));
  }

  // How the gateway paces its attempts. `stays(n, delay)`: the client stays through a pause of this
  // length after attempt n.
  datatype Pacing = Pacing(base: nat, maximum: nat, stays: (nat, nat) -> bool)

  // No pause at all cannot be cut short.
  predicate Waits(pacing: Pacing, number: nat, delay: nat) {
    delay == 0 || pacing.stays(number, delay)
  }

  // The client stays through the pause that attempt n and its result call for.
  predicate Undisturbed(pacing: Pacing, n: nat, result: AttemptResult)
    requires n >= 1
  {
    Waits(pacing, n, RetryDelay(pacing.base, pacing.maximum, n, result.retryAfter))
  }

  // --- The retry loop, given each attempt's result and each pause's outcome ------------------

  // The result the loop ends with when it goes on from attempt n.
  function Terminal(results: nat -> AttemptResult, pacing: Pacing, maxAttempts: int, n: nat): AttemptResult
    requires n >= 1
    decreases maxAttempts - n
  {
    if n > maxAttempts then NO_ATTEMPT
    else if results(n).success || !results(n).retryable || n == maxAttempts then results(n)
    else if !Undisturbed(pacing, n, results(n)) then CLIENT_CANCELLED
    else Terminal(results, pacing, maxAttempts, n + 1)
  }

  // The attempt the loop stops at when it goes on from attempt n.
  function Stop(results: nat -> AttemptResult, pacing: Pacing, maxAttempts: int, n: nat): nat
    requires n >= 1
    decreases maxAttempts - n
  {
    if n >= maxAttempts || results(n).success || !results(n).retryable || !Undisturbed(pacing, n, results(n)) then n
    else Stop(results, pacing, maxAttempts, n + 1)
  }

  // The loop stops at the first attempt that is not worth retrying, at the limit, or at a pause
  // the client cut short; every attempt before it failed in a retryable way.
  lemma {:induction false} StopIsFirst(results: nat -> AttemptResult, pacing: Pacing, maxAttempts: int, n: nat)
    requires 1 <= n <= maxAttempts
    ensures var stop := Stop(results, pacing, maxAttempts, n);
            && n <= stop <= maxAttempts
            && (forall i | n <= i < stop :: !results(i).success && results(i).retryable && Undisturbed(pacing, i, results(i)))
            && (stop == maxAttempts || results(stop).success || !results(stop).retryable || !Undisturbed(pacing, stop, results(stop)))
            && Terminal(results, pacing, maxAttempts, n)
               == if results(stop).success || !results(stop).retryable || stop == maxAttempts then results(stop) else CLIENT_CANCELLED
    decreases maxAttempts - n
  {
    if n < maxAttempts && !results(n).success && results(n).retryable && Undisturbed(pacing, n, results(n)) {
      StopIsFirst(results, pacing, maxAttempts, n + 1);
    }
  }
}
