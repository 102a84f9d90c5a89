/**
 The crawler client `get_filtering_elements`: up to five POSTs of the URL to
 the crawler, with exponential backoff after transport failures.

 The network is replaced by `replies`: `replies[k]` is what the crawler would
 answer to the attempt numbered `k` (0-based, logged as `k + 1`). Sleeping is
 replaced by recording each delay, in seconds, in order.
 */
module ElementFetch {
  import opened Outcomes

  /** `for attempt in range(5)`. */
  const MaxAttempts: nat := 5

  /** `2 ** attempt`: the delay, in seconds, after failed attempt `attempt`. */
  function Backoff(attempt: nat): nat
  {
    if attempt == 0 then 1 else 2 * Backoff(attempt - 1)
  }

  /** The delays slept after the first `n` attempts, all of them transport failures. */
  function Schedule(n: nat): (s: seq<nat>)
    ensures |s| == n
    ensures forall i :: 0 <= i < n ==> s[i] == Backoff(i)
  {
    if n == 0 then [] else Schedule(n - 1) + [Backoff(n - 1)]
  }

  /** Attempts `0 .. n - 1` all failed in a way the retry clause catches. */
  predicate RetriedBefore(replies: seq<Reply>, n: nat)
    requires n <= |replies|
  {
    forall i :: 0 <= i < n ==> Retryable(replies[i])
  }

  /** One run of the client: what it returns or raises, how many POSTs it made, and what it slept. */
  datatype FetchRun = FetchRun(result: Result<string>, attempts: nat, sleeps: seq<nat>)

  /**
   The run from 0-based attempt `attempt` on. A transport failure before the
   last attempt sleeps `2 ** attempt` seconds and tries again; every other
   reply ends the run: the elements are returned, the status error is
   re-raised, the last transport error is re-raised, and a decode error is
   caught by neither clause.
   */
  function Run(replies: seq<Reply>, attempt: nat): (run: FetchRun)
    requires attempt < MaxAttempts <= |replies|
    ensures attempt < run.attempts <= MaxAttempts
    decreases MaxAttempts - attempt
  {
    var reply := replies[attempt];
    if Retryable(reply) && attempt < MaxAttempts - 1 then
      var rest := Run(replies, attempt + 1);
      rest.(sleeps := [Backoff(attempt)] + rest.sleeps)
    else
      FetchRun(Settle(reply), attempt + 1, [])
  }

  /** A run preceded by `before`: the same outcome and POST count, with the earlier sleeps first. */
  function After(before: seq<nat>, run: FetchRun): FetchRun
  {
    run.(sleeps := before + run.sleeps)
  }

  /** A retried transport failure adds its backoff to the sleeps already taken. */
  lemma AfterRetry(replies: seq<Reply>, attempt: nat, before: seq<nat>)
    requires attempt < MaxAttempts - 1 && MaxAttempts <= |replies|
    requires Retryable(replies[attempt])
    ensures After(before, Run(replies, attempt)) == After(before + [Backoff(attempt)], Run(replies, attempt + 1))
  {
    var rest := Run(replies, attempt + 1);
    assert before + ([Backoff(attempt)] + rest.sleeps) == (before + [Backoff(attempt)]) + rest.sleeps;
  }

  /** A reply the loop does not retry ends the run with what it settles to, after the sleeps already taken. */
  lemma Settled(replies: seq<Reply>, attempt: nat, before: seq<nat>)
    requires attempt < MaxAttempts <= |replies|
    requires !(Retryable(replies[attempt]) && attempt < MaxAttempts - 1)
    ensures After(before, Run(replies, attempt)) == FetchRun(Settle(replies[attempt]), attempt + 1, before)
  {
    assert before + [] == before;
  }

  /**
   The retry loop. The result, the number of POSTs and the sleeps are those of
   `Run(replies, 0)`.
   */
  method FetchElements(replies: seq<Reply>) returns (result: Result<string>, attempts: nat, sleeps: seq<nat>)
    requires MaxAttempts <= |replies|
    ensures FetchRun(result, attempts, sleeps) == Run(replies, 0)
    ensures 1 <= attempts <= MaxAttempts
    ensures RetriedBefore(replies, attempts - 1)
  {
    sleeps := [];
    var attempt := 0;
    while attempt < MaxAttempts
      invariant attempt < MaxAttempts
      invariant RetriedBefore(replies, attempt)
      invariant Run(replies, 0) == After(sleeps, Run(replies, attempt))
      decreases MaxAttempts - attempt
    {
      var reply := replies[attempt];
      match reply
      case Delivered(elements) =>
        Settled(replies, attempt, sleeps);
        return Ok(elements), attempt + 1, sleeps;
      case StatusFailure(code, body, message) =>
        Settled(replies, attempt, sleeps);
        return Err(HttpStatus(code, body, message)), attempt + 1, sleeps;
      case Malformed(message) =>
        Settled(replies, attempt, sleeps);
        return Err(Decode(message)), attempt + 1, sleeps;
      case TransportFailure(message) =>
        if attempt < MaxAttempts - 1 {
          AfterRetry(replies, attempt, sleeps);
          sleeps := sleeps + [Backoff(attempt)];
          attempt := attempt + 1;
        } else {
          Settled(replies, attempt, sleeps);
          return Err(Transport(message)), attempt + 1, sleeps;
        }
    }
  }

  /**
   The shape of every run from attempt `k`: it ends at the first reply the
   retry clause does not catch, or at the fifth attempt; the POSTs before the
   last one all failed in transport; it slept `2 ** i` after each of them and
   not after the last; and it returns or raises what the last reply settles to.
   */
  lemma {:induction false} RunShape(replies: seq<Reply>, k: nat)
    requires k < MaxAttempts <= |replies|
    ensures var run := Run(replies, k);
      && k < run.attempts <= MaxAttempts
      && (forall i :: k <= i < run.attempts - 1 ==> Retryable(replies[i]))
      && (run.attempts == MaxAttempts || !Retryable(replies[run.attempts - 1]))
      && run.result == Settle(replies[run.attempts - 1])
      && |run.sleeps| == run.attempts - 1 - k
      && (forall i :: 0 <= i < |run.sleeps| ==> run.sleeps[i] == Backoff(k + i))
    decreases MaxAttempts - k
  {
    if Retryable(replies[k]) && k < MaxAttempts - 1 {
      RunShape(replies, k + 1);
      var rest := Run(replies, k + 1);
      var run := Run(replies, k);
      assert run.sleeps == [Backoff(k)] + rest.sleeps;
      forall i | 0 <= i < |run.sleeps|
        ensures run.sleeps[i] == Backoff(k + i)
      {
        if i > 0 {
          assert run.sleeps[i] == rest.sleeps[i - 1];
        }
      }
    }
  }

  /** The crawler is POSTed at least once and at most five times, so the logged attempt numbers run from 1 to at most 5. */
  lemma AttemptsBounded(replies: seq<Reply>)
    requires MaxAttempts <= |replies|
    ensures 1 <= Run(replies, 0).attempts <= MaxAttempts
  {
    RunShape(replies, 0);
  }

  /** The sleeps are exactly 1, 2, 4, ... seconds, one after each attempt but the last. */
  lemma SleepsFollowSchedule(replies: seq<Reply>)
    requires MaxAttempts <= |replies|
    ensures Run(replies, 0).sleeps == Schedule(Run(replies, 0).attempts - 1)
  {
    RunShape(replies, 0);
  }

  /** The backoff schedule after four transport failures: 1, 2, 4 and 8 seconds. */
  lemma FullSchedule()
    ensures Schedule(MaxAttempts - 1) == [1, 2, 4, 8]
  {
  }

  /**
   Five transport failures: five POSTs, sleeps of 1, 2, 4 and 8 seconds and none
   after the fifth, whose error is re-raised.
   */
  lemma Exhausted(replies: seq<Reply>)
    requires MaxAttempts <= |replies|
    requires forall i :: 0 <= i < MaxAttempts ==> Retryable(replies[i])
    ensures Run(replies, 0) == FetchRun(Err(Transport(replies[4].message)), 5, [1, 2, 4, 8])
  {
    RunShape(replies, 0);
    FullSchedule();
  }

  /**
   The first reply that the retry clause does not catch ends the run at once:
   the elements are returned unchanged, or the exception propagates, with no
   sleep after it.
   */
  lemma StopsAtFirstUncaught(replies: seq<Reply>, k: nat)
    requires k < MaxAttempts <= |replies|
    requires forall i :: 0 <= i < k ==> Retryable(replies[i])
    requires !Retryable(replies[k])
    ensures Run(replies, 0) == FetchRun(Settle(replies[k]), k + 1, Schedule(k))
  {
    RunShape(replies, 0);
  }

  /** An HTTP status error is re-raised on the attempt where it occurs: no sleep, no further POST. */
  lemma StatusErrorNotRetried(replies: seq<Reply>, k: nat)
    requires k < MaxAttempts <= |replies|
    requires forall i :: 0 <= i < k ==> Retryable(replies[i])
    requires replies[k].StatusFailure?
    ensures Run(replies, 0).attempts == k + 1
    ensures Run(replies, 0).result == Err(HttpStatus(replies[k].code, replies[k].body, replies[k].message))
    ensures |Run(replies, 0).sleeps| == k
  {
    StopsAtFirstUncaught(replies, k);
  }

  /** A malformed body is caught by neither clause: it propagates on the attempt where it occurs. */
  lemma MalformedNotRetried(replies: seq<Reply>, k: nat)
    requires k < MaxAttempts <= |replies|
    requires forall i :: 0 <= i < k ==> Retryable(replies[i])
    requires replies[k].Malformed?
    ensures Run(replies, 0).attempts == k + 1
    ensures Run(replies, 0).result == Err(Decode(replies[k].message))
    ensures |Run(replies, 0).sleeps| == k
  {
    StopsAtFirstUncaught(replies, k);
  }

  /** The first successful attempt returns its elements unchanged and ends the loop. */
  lemma FirstSuccessReturned(replies: seq<Reply>, k: nat)
    requires k < MaxAttempts <= |replies|
    requires forall i :: 0 <= i < k ==> Retryable(replies[i])
    requires replies[k].Delivered?
    ensures Run(replies, 0).attempts == k + 1
    ensures Run(replies, 0).result == Ok(replies[k].payload)
  {
    StopsAtFirstUncaught(replies, k);
  }

  /** Replies to attempts that are never made have no effect on the run. */
  lemma {:induction false} LaterRepliesUnused(replies: seq<Reply>, others: seq<Reply>, k: nat)
    requires k < MaxAttempts <= |replies| && MaxAttempts <= |others|
    requires others[k..Run(replies, k).attempts] == replies[k..Run(replies, k).attempts]
    ensures Run(others, k) == Run(replies, k)
    decreases MaxAttempts - k
  {
    RunShape(replies, k);
    var n := Run(replies, k).attempts;
    assert k < n <= MaxAttempts;
    assert others[k] == others[k..n][0] == replies[k..n][0] == replies[k];
    if Retryable(replies[k]) && k < MaxAttempts - 1 {
      assert others[k + 1..n] == others[k..n][1..];
      assert replies[k + 1..n] == replies[k..n][1..];
      LaterRepliesUnused(replies, others, k + 1);
    }
  }
}
