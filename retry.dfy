/** `scrape_product(url, term, max_retries=3)`: the retry loop around one
    attempt, with exponential backoff.

    The loop's counter `attempt` counts the failed attempts.  After a failure
    it is incremented; if it has reached `max_retries` the loop raises a
    composed error, otherwise it sleeps `2 ** attempt` seconds and tries
    again.  The first success returns at once.  With `max_retries <= 0` the
    loop body never runs and the function returns `None`.

    `asyncio.sleep` is not performed: the delays are returned in order. */
module Retry {
  import opened Common
  import opened Text
  import opened Attempt

  /** How `scrape_product` ends: returning the model's output, returning
      `None`, or raising an exception with the carried message. */
  datatype ScrapeOutcome = Returned(text: string) | ReturnedNone | Raised(msg: string)

  /** The outcome, how many attempts were started, and the backoff delays
      issued, in order. */
  datatype ScrapeRun = ScrapeRun(outcome: ScrapeOutcome, attempts: nat, sleeps: seq<nat>)

  function Pow2(n: nat): (r: nat)
    ensures r >= 1
  {
    if n == 0 then 1 else 2 * Pow2(n - 1)
  }

  /** The delays issued after the first `k` failures: 2, 4, ..., 2^k. */
  function Backoff(k: nat): (d: seq<nat>)
    ensures |d| == k
    ensures forall i :: 0 <= i < k ==> d[i] == Pow2(i + 1)
  {
    if k == 0 then [] else Backoff(k - 1) + [Pow2(k)]
  }

  /** The message of the exception raised once every attempt has failed: a
      fixed opening, and the last attempt's error at the end. */
  function FailureMessage(maxRetries: nat, lastError: string): (m: string)
    ensures "Scraping failed after " <= m
    ensures |lastError| <= |m| && m[|m| - |lastError|..] == lastError
  {
    "Scraping failed after " + NatToDecimal(maxRetries) + " attempts. Last error: " + lastError
  }

  /** The failure message carries the number of attempts right after its
      opening, as a decimal that reads back as that number, and ends with the
      last attempt's error. */
  lemma FailureMessageEmbeds(maxRetries: nat, lastError: string)
    ensures var m := FailureMessage(maxRetries, lastError);
            var d := NatToDecimal(maxRetries);
            22 + |d| <= |m| && IsDigits(m[22..22 + |d|]) && DecimalValue(m[22..22 + |d|]) == maxRetries
            && |lastError| <= |m| && m[|m| - |lastError|..] == lastError
  {
    var d := NatToDecimal(maxRetries);
    var p := "Scraping failed after ";
    var q := " attempts. Last error: ";
    var m := p + d + q + lastError;
    assert |p| == 22;
    assert m == FailureMessage(maxRetries, lastError);
    assert m[22..22 + |d|] == d;
    assert m[|m| - |lastError|..] == lastError;
    DecimalRoundTrip(maxRetries);
  }

  /** The index of the first successful attempt among the first `n`, or `n`
      when all of them fail. */
  function FirstSuccess(runs: nat -> AttemptRun, n: nat): (k: nat)
    ensures k <= n
    ensures forall i :: 0 <= i < k ==> runs(i).result.Failed?
    ensures k < n ==> runs(k).result.Succeeded?
  {
    if n == 0 then 0
    else
      var k := FirstSuccess(runs, n - 1);
      if k < n - 1 then k
      else if runs(n - 1).result.Succeeded? then n - 1
      else n
  }

  /** What `scrape_product` does when attempt `i` runs as `runs(i)`. */
  function Expected(runs: nat -> AttemptRun, maxRetries: int): (run: ScrapeRun)
    ensures run.outcome.ReturnedNone? <==> maxRetries <= 0
    ensures run.attempts == 0 <==> maxRetries <= 0
    ensures run.attempts <= if maxRetries <= 0 then 0 else maxRetries
    ensures run.attempts > 0 ==> |run.sleeps| == run.attempts - 1
    ensures run.attempts == 0 ==> run.sleeps == []
  {
    if maxRetries <= 0 then ScrapeRun(ReturnedNone, 0, [])
    else
      var k := FirstSuccess(runs, maxRetries);
      if k < maxRetries then ScrapeRun(Returned(runs(k).result.text), k + 1, Backoff(k))
      else
        ScrapeRun(Raised(FailureMessage(maxRetries, runs(maxRetries - 1).result.error)),
                  maxRetries, Backoff(maxRetries - 1))
  }

  /** No attempt, no sleep, and `None` when `max_retries <= 0`. */
  lemma NoRetriesReturnsNone(runs: nat -> AttemptRun, maxRetries: int)
    requires maxRetries <= 0
    ensures Expected(runs, maxRetries) == ScrapeRun(ReturnedNone, 0, [])
  {
  }

  /** When every attempt fails: exactly `max_retries` attempts, sleeps of
      2^1 .. 2^(n-1) in that order and none after the last attempt, and an
      error that names `max_retries` and the last attempt's error. */
  lemma PersistentFailure(runs: nat -> AttemptRun, n: nat)
    requires n >= 1
    requires forall i :: 0 <= i < n ==> runs(i).result.Failed?
    ensures var run := Expected(runs, n);
            run.attempts == n
            && run.sleeps == Backoff(n - 1)
            && run.outcome == Raised(FailureMessage(n, runs(n - 1).result.error))
  {
  }

  /** When attempt `k` is the first to succeed: its output is returned as it
      is, after `k + 1` attempts and the `k` sleeps between them. */
  lemma StopsAtFirstSuccess(runs: nat -> AttemptRun, maxRetries: int, k: nat)
    requires k < maxRetries
    requires forall i :: 0 <= i < k ==> runs(i).result.Failed?
    requires runs(k).result.Succeeded?
    ensures var run := Expected(runs, maxRetries);
            run == ScrapeRun(Returned(runs(k).result.text), k + 1, Backoff(k))
  {
  }

  /** Each backoff delay doubles the one before it. */
  lemma BackoffDoubles(k: nat, i: nat)
    requires 0 < i < k
    ensures Backoff(k)[i] == 2 * Backoff(k)[i - 1]
  {
  }

  /** With the default of three attempts and persistent failure, the delays
      are 2 and 4. */
  lemma ThreeAttemptsBackoff(runs: nat -> AttemptRun)
    requires forall i :: 0 <= i < 3 ==> runs(i).result.Failed?
    ensures Expected(runs, 3).attempts == 3
    ensures Expected(runs, 3).sleeps == [2, 4]
  {
    PersistentFailure(runs, 3);
    assert Backoff(2) == [Pow2(1), Pow2(2)];
  }

  /** The retry loop of `scrape_product`, when attempt `i` (counting from 0)
      runs as `runs(i)`.  Besides the run it returns the fate of each
      started attempt's browser session. */
  method ScrapeProduct(runs: nat -> AttemptRun, maxRetries: int)
    returns (outcome: ScrapeOutcome, attempts: nat, sleeps: seq<nat>, sessions: seq<Session>)
    ensures ScrapeRun(outcome, attempts, sleeps) == Expected(runs, maxRetries)
    ensures |sessions| == attempts
    ensures forall i :: 0 <= i < attempts ==> sessions[i] == runs(i).session
  {
    var attempt: nat := 0;
    outcome, attempts, sleeps, sessions := ReturnedNone, 0, [], [];
    while attempt < maxRetries
      invariant attempts == attempt
      invariant attempt == 0 || attempt < maxRetries
      invariant forall i :: 0 <= i < attempt ==> runs(i).result.Failed?
      invariant sleeps == Backoff(attempt)
      invariant |sessions| == attempt
      invariant forall i :: 0 <= i < attempt ==> sessions[i] == runs(i).session
      decreases maxRetries - attempt
    {
      var run := runs(attempt);
      attempts := attempts + 1;
      sessions := sessions + [run.session];
      match run.result {
        case Succeeded(text) =>
          StopsAtFirstSuccess(runs, maxRetries, attempt);
          outcome := Returned(text);
          return;
        case Failed(e) =>
          attempt := attempt + 1;
          if attempt >= maxRetries {
            PersistentFailure(runs, attempt);
            outcome := Raised(FailureMessage(maxRetries, e));
            return;
          }
          sleeps := sleeps + [Pow2(attempt)];
      }
    }
    NoRetriesReturnsNone(runs, maxRetries);
  }
}
