/**
 * `useDecryption.js`: the hook that waits for a purchased query's result by reading
 * `getQuery` until the query completes, and the `status`/`progress`/`result`/`error`
 * state it shows while doing so. The successive reads are the input `obs`: read number `k`
 * (counting from 0) returns `obs(k)`.
 */
module Decryption {
  import opened Wrappers
  import opened Ledger
  import Fhevm

  /** The hook's `status`: `'idle'`, `'processing'`, `'completed'` or `'failed'`. */
  datatype Phase = Idle | Processing | Completed | Failed

  /** The `result` state set on completion: status, result and timestamp of the query. */
  datatype ResultView = ResultView(status: nat, result: nat, timestamp: nat)

  const ContractMissingMessage: string := "Contract not initialized"
  const QueryFailedMessage: string := "Query failed"
  const QueryRefundedMessage: string := "Query refunded"
  const TimeoutMessage: string := "Query timeout. Please try again or request refund."

  /** The default `maxAttempts`. */
  const DefaultMaxAttempts: int := 10

  /** The progress shown after a successful read on attempt `a` of `maxAttempts`. */
  function ProgressAt(a: nat, maxAttempts: int): (p: real)
    requires a < maxAttempts
    ensures 10.0 <= p < 90.0
    ensures p == 10.0 + (a as real / maxAttempts as real) * 80.0
  {
    var raw := 10.0 + (a as real / maxAttempts as real) * 80.0;
    if raw < 90.0 then raw else 90.0
  }

  /** The status a read shows, taken from slot 6 of the `getQuery` tuple. */
  function StatusOf(t: QueryTuple): nat {
    QuerySlot(t, 6)
  }

  /** A read that completes the wait: a tuple whose status slot holds COMPLETED. */
  predicate CompletedRead(read: QueryRead) {
    read.QueryRow? && StatusOf(read.tuple) == StatusCompleted
  }

  /** The view recorded for a completed read: status, result (slot 5) and timestamp (slot 8). */
  function ViewOf(t: QueryTuple): ResultView {
    ResultView(QuerySlot(t, 6), QuerySlot(t, 5), QuerySlot(t, 8))
  }

  /**
   * The error a read on the last attempt throws when it does not complete the wait: the read's
   * own error, the failed or refunded error, or, for a pending query, the timeout.
   */
  function LastAttemptError(read: QueryRead): string {
    match read
    case QueryReadError(m) => m
    case QueryRow(t) =>
      if StatusOf(t) == StatusFailed then QueryFailedMessage
      else if StatusOf(t) == StatusRefunded then QueryRefundedMessage
      else TimeoutMessage
  }

  /** How a wait ends: its value or error, the number of reads, and the progress last shown. */
  datatype WaitOutcome = WaitOutcome(outcome: Result<ResultView>, readCount: nat, progress: real)

  /**
   * The wait from attempt `a` on, with progress `p` showing. A completed read ends it. A failed
   * or refunded query throws inside the `try`, so it is caught like a failing read: both are
   * retried while another attempt remains and thrown on the last one. A pending read moves on.
   */
  function Poll(obs: nat -> QueryRead, a: nat, maxAttempts: int, p: real): (o: WaitOutcome)
    ensures a < maxAttempts ==> a < o.readCount <= maxAttempts
    ensures a >= maxAttempts ==> o == WaitOutcome(Err(TimeoutMessage), a, p)
    decreases maxAttempts - a
  {
    if a >= maxAttempts then WaitOutcome(Err(TimeoutMessage), a, p)
    else
      match obs(a)
      case QueryReadError(m) =>
        if a < maxAttempts - 1 then Poll(obs, a + 1, maxAttempts, p)
        else WaitOutcome(Err(m), a + 1, p)
      case QueryRow(t) =>
        var shown := ProgressAt(a, maxAttempts);
        if StatusOf(t) == StatusCompleted then WaitOutcome(Ok(ViewOf(t)), a + 1, 100.0)
        else if StatusOf(t) == StatusFailed || StatusOf(t) == StatusRefunded then
          var m := if StatusOf(t) == StatusFailed then QueryFailedMessage else QueryRefundedMessage;
          if a < maxAttempts - 1 then Poll(obs, a + 1, maxAttempts, shown)
          else WaitOutcome(Err(m), a + 1, shown)
        else Poll(obs, a + 1, maxAttempts, shown)
  }

  /** The state of the hook, updated in place by its callbacks. */
  class DecryptionTracker {
    var status: Phase
    var progress: real
    var result: Option<ResultView>
    var error: Option<string>

    /** The initial state, the same as after `reset`. */
    constructor()
      ensures status == Idle && progress == 0.0 && result == None && error == None
    {
      status, progress, result, error := Idle, 0.0, None, None;
    }

    /** `reset()`: idle, no progress, no result, no error. */
    method Reset()
      modifies this
      ensures status == Idle && progress == 0.0 && result == None && error == None
    {
      status := Idle;
      progress := 0.0;
      result := None;
      error := None;
    }

    /**
     * `waitForQueryResult(queryId, maxAttempts)`. Without a contract it throws before any read
     * and changes nothing. Otherwise it follows `Poll` from attempt 0 with progress 10: it
     * returns the completed query's result with status completed, or records the error it
     * throws with status failed; the result state is only set on success. `count` is the
     * number of reads made.
     */
    method WaitForQueryResult(contractPresent: bool, obs: nat -> QueryRead, maxAttempts: int)
      returns (r: Result<nat>, count: nat)
      modifies this
      ensures !contractPresent ==>
                r == Err(ContractMissingMessage) && count == 0 &&
                status == old(status) && progress == old(progress) && result == old(result) && error == old(error)
      ensures contractPresent ==>
                var o := Poll(obs, 0, maxAttempts, 10.0);
                count == o.readCount && progress == o.progress &&
                (o.outcome.Ok? ==> r == Ok(o.outcome.value.result) && status == Completed &&
                                   result == Some(o.outcome.value) && error == None) &&
                (o.outcome.Err? ==> r == Err(o.outcome.message) && status == Failed &&
                                    result == old(result) && error == Some(o.outcome.message))
    {
      if !contractPresent {
        return Err(ContractMissingMessage), 0;
      }
      status := Processing;
      progress := 10.0;
      error := None;
      var attempts: nat := 0;
      while attempts < maxAttempts
        invariant Poll(obs, attempts, maxAttempts, progress) == Poll(obs, 0, maxAttempts, 10.0)
        invariant status == Processing && error == None && result == old(result)
        decreases maxAttempts - attempts
      {
        var read := obs(attempts);
        if read.QueryReadError? {
          if attempts < maxAttempts - 1 {
            attempts := attempts + 1;
            continue;
          }
          status := Failed;
          error := Some(read.message);
          return Err(read.message), attempts + 1;
        }
        var queryStatus := QuerySlot(read.tuple, 6);
        var queryResult := QuerySlot(read.tuple, 5);
        progress := ProgressAt(attempts, maxAttempts);
        if queryStatus == StatusCompleted {
          progress := 100.0;
          status := Completed;
          result := Some(ResultView(queryStatus, queryResult, QuerySlot(read.tuple, 8)));
          return Ok(queryResult), attempts + 1;
        } else if queryStatus == StatusFailed || queryStatus == StatusRefunded {
          var m := if queryStatus == StatusFailed then QueryFailedMessage else QueryRefundedMessage;
          if attempts < maxAttempts - 1 {
            attempts := attempts + 1;
            continue;
          }
          status := Failed;
          error := Some(m);
          return Err(m), attempts + 1;
        }
        attempts := attempts + 1;
      }
      status := Failed;
      error := Some(TimeoutMessage);
      return Err(TimeoutMessage), attempts;
    }

    /** `requestDecryption(queryId)`: the wait with the default budget of ten attempts. */
    method RequestDecryption(contractPresent: bool, obs: nat -> QueryRead) returns (r: Result<nat>, count: nat)
      modifies this
      ensures !contractPresent ==>
                r == Err(ContractMissingMessage) && count == 0 &&
                status == old(status) && progress == old(progress) && result == old(result) && error == old(error)
      ensures contractPresent ==>
                var o := Poll(obs, 0, DefaultMaxAttempts, 10.0);
                count == o.readCount && progress == o.progress &&
                (o.outcome.Ok? ==> r == Ok(o.outcome.value.result) && status == Completed &&
                                   result == Some(o.outcome.value) && error == None) &&
                (o.outcome.Err? ==> r == Err(o.outcome.message) && status == Failed &&
                                    result == old(result) && error == Some(o.outcome.message))
    {
      r, count := WaitForQueryResult(contractPresent, obs, DefaultMaxAttempts);
    }
  }

  /** The first attempt from `a` on whose read completes the wait, or `maxAttempts` if none does. */
  function FirstCompleted(obs: nat -> QueryRead, a: nat, maxAttempts: nat): (k: nat)
    requires a <= maxAttempts
    ensures a <= k <= maxAttempts
    ensures k < maxAttempts ==> CompletedRead(obs(k))
    ensures forall j :: a <= j < k ==> !CompletedRead(obs(j))
    decreases maxAttempts - a
  {
    if a == maxAttempts || CompletedRead(obs(a)) then a else FirstCompleted(obs, a + 1, maxAttempts)
  }

  /**
   * Where the wait from attempt `a` ends. If some read completes the query, the first one does
   * so: errors and failed or refunded statuses before it were retried. If none does, every
   * attempt is used and the last read decides the error.
   */
  lemma {:induction false} PollEnds(obs: nat -> QueryRead, a: nat, maxAttempts: nat, p: real)
    requires a < maxAttempts
    ensures var k := FirstCompleted(obs, a, maxAttempts);
            var o := Poll(obs, a, maxAttempts, p);
            (k < maxAttempts ==> o.outcome == Ok(ViewOf(obs(k).tuple)) && o.readCount == k + 1 && o.progress == 100.0) &&
            (k == maxAttempts ==> o.outcome == Err(LastAttemptError(obs(maxAttempts - 1))) && o.readCount == maxAttempts)
    decreases maxAttempts - a
  {
    if !CompletedRead(obs(a)) && a + 1 < maxAttempts {
      var next := if obs(a).QueryReadError? then p else ProgressAt(a, maxAttempts);
      PollEnds(obs, a + 1, maxAttempts, next);
    }
  }

  /**
   * `waitForQueryResult` succeeds exactly when one of the first `maxAttempts` reads shows a
   * completed query, and returns the first such query's result after that many reads.
   */
  lemma WaitSucceedsIff(obs: nat -> QueryRead, maxAttempts: nat)
    ensures Poll(obs, 0, maxAttempts, 10.0).outcome.Ok? <==>
              exists k :: 0 <= k < maxAttempts && CompletedRead(obs(k))
    ensures var o := Poll(obs, 0, maxAttempts, 10.0);
            o.outcome.Ok? ==> var k := o.readCount - 1;
              0 <= k < maxAttempts && CompletedRead(obs(k)) && o.outcome.value == ViewOf(obs(k).tuple) &&
              (forall j :: 0 <= j < k ==> !CompletedRead(obs(j)))
  {
    if maxAttempts > 0 {
      PollEnds(obs, 0, maxAttempts, 10.0);
    }
  }

  /**
   * When no read completes the query, every attempt is used and the error is decided by the
   * last read alone: its read error, `Query failed`, `Query refunded`, or the timeout.
   */
  lemma WaitFailsOnLastAttempt(obs: nat -> QueryRead, maxAttempts: nat)
    requires maxAttempts > 0
    requires forall k :: 0 <= k < maxAttempts ==> !CompletedRead(obs(k))
    ensures var o := Poll(obs, 0, maxAttempts, 10.0);
            o.readCount == maxAttempts && o.outcome == Err(LastAttemptError(obs(maxAttempts - 1)))
  {
    PollEnds(obs, 0, maxAttempts, 10.0);
  }

  /** The progress shown is 100 after success, and always between 10 and 90 after a failure. */
  lemma {:induction false} PollProgress(obs: nat -> QueryRead, a: nat, maxAttempts: int, p: real)
    requires 10.0 <= p <= 90.0
    ensures var o := Poll(obs, a, maxAttempts, p);
            (o.outcome.Ok? ==> o.progress == 100.0) && (o.outcome.Err? ==> 10.0 <= o.progress <= 90.0)
    decreases maxAttempts - a
  {
    if a < maxAttempts && !CompletedRead(obs(a)) && a < maxAttempts - 1 {
      var next := if obs(a).QueryReadError? then p else ProgressAt(a, maxAttempts);
      PollProgress(obs, a + 1, maxAttempts, next);
    }
  }

  /**
   * The two waits differ: a query that reads FAILED once and then COMPLETED is a success for
   * `waitForQueryResult`, which catches its own failure and retries, and a `Query failed`
   * error for the `requestDecryption` of the FHEVM helpers, which does not.
   */
  lemma WaitRetriesWhereGatewayWaitStops(t: QueryTuple)
    requires t.status == StatusFailed
    ensures var obs := (k: nat) => if k == 0 then QueryRow(t) else QueryRow(t.(status := StatusCompleted));
            Poll(obs, 0, DefaultMaxAttempts, 10.0).outcome.Ok? &&
            Fhevm.DecryptionPoll(obs, 0).0 == Err(Fhevm.QueryFailedMessage)
  {
    var obs := (k: nat) => if k == 0 then QueryRow(t) else QueryRow(t.(status := StatusCompleted));
    WaitSucceedsIff(obs, DefaultMaxAttempts);
    assert CompletedRead(obs(1));
  }
}
