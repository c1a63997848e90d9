/** The bounded retry wrapper of src/lib/withRetry.ts. The operation is given by
    the outcomes of its successive calls, and the reconnect between two calls
    (`$disconnect()`, a one-second wait, `$connect()`) by whether it rejects. */
module Retry {
  import opened Common

  const MaxRetriesReached: string := "Max retries reached"
  const DefaultMaxRetries: int := 3

  /** Lines 17-23: the messages treated as a dropped database connection. */
  predicate IsConnectionError(m: string) {
    || Contains(m, "closed the connection")
    || Contains(m, "P1017")
    || Contains(m, "P1001")
    || Contains(m, "P1002")
    || Contains(m, "ECONNRESET")
    || Contains(m, "Connection terminated")
  }

  /** The outcome of one `withRetry` call: what it returns or throws, how many
      times it called the operation, and how many times it reconnected. */
  datatype Run<T> = Run(result: Result<T>, calls: nat, reconnects: nat)

  /** The loop of lines 13-34 from iteration `i` on, after `i` calls and `i`
      reconnects; `transient` says which errors are retried, and
      `reconnect(j)` is the error of the first of `$disconnect()` and
      `$connect()` to reject after call `j` (lines 27-29), if one does. Such a
      rejection escapes the `catch` block and ends the wrapper. */
  function Retried<T>(attempt: nat -> Result<T>, reconnect: nat -> Option<string>, maxRetries: int,
                      transient: string -> bool, i: nat): Run<T>
    decreases if i < maxRetries then maxRetries - i else 0
  {
    if i >= maxRetries then Run(Err(MaxRetriesReached), i, i)
    else match attempt(i)
      case Ok(v) => Run(Ok(v), i + 1, i)
      case Err(m) =>
        if transient(m) && i < maxRetries - 1 then
          if reconnect(i).Some? then Run(Err(reconnect(i).value), i + 1, i)
          else Retried(attempt, reconnect, maxRetries, transient, i + 1)
        else Run(Err(m), i + 1, i)
  }

  /** Call `j` failed with an error the loop retries, so a reconnect follows it. */
  predicate RetriesAfter<T>(attempt: nat -> Result<T>, maxRetries: int, transient: string -> bool, j: nat) {
    attempt(j).Err? && transient(attempt(j).msg) && j < maxRetries - 1
  }

  /** From an iteration that runs, the wrapper makes at most `maxRetries` calls
      and completes a reconnect before each but the first; every earlier call
      failed with a retried error and was followed by a reconnect that
      succeeded. After the last call, either a reconnect was due and rejected,
      and its error is thrown, or the wrapper returns or rethrows that call's
      outcome; so it stops before the last iteration only on success, on an
      error that is not retried, or on a rejected reconnect. */
  lemma {:induction false} RetriedFrom<T>(attempt: nat -> Result<T>, reconnect: nat -> Option<string>,
                                          maxRetries: int, transient: string -> bool, i: nat)
    requires i < maxRetries
    ensures var run := Retried(attempt, reconnect, maxRetries, transient, i);
      var last := run.calls - 1;
      && i < run.calls <= maxRetries
      && run.reconnects == last
      && (forall j :: i <= j < last ==> RetriesAfter(attempt, maxRetries, transient, j) && reconnect(j).None?)
      && (RetriesAfter(attempt, maxRetries, transient, last) ==>
            reconnect(last).Some? && run.result == Err(reconnect(last).value))
      && (!RetriesAfter(attempt, maxRetries, transient, last) ==> run.result == attempt(last))
    decreases maxRetries - i
  {
    if RetriesAfter(attempt, maxRetries, transient, i) && reconnect(i).None? {
      RetriedFrom(attempt, reconnect, maxRetries, transient, i + 1);
    }
  }

  /** Lines 13-35, for a whole call. With `maxRetries <= 0` the operation is
      never called and the wrapper throws "Max retries reached". Otherwise it
      makes between 1 and `maxRetries` calls, one completed reconnect fewer.
      Its outcome is the last call's (the first success, the first error that
      is not a connection error, or the connection error of the last allowed
      call) unless the reconnect after that call rejected, when it is the
      reconnect's error. When every reconnect succeeds, the outcome is the last
      call's. */
  lemma RetriedSpec<T>(attempt: nat -> Result<T>, reconnect: nat -> Option<string>, maxRetries: int,
                       transient: string -> bool)
    ensures maxRetries <= 0 ==>
      Retried(attempt, reconnect, maxRetries, transient, 0) == Run(Err(MaxRetriesReached), 0, 0)
    ensures maxRetries > 0 ==>
      var run := Retried(attempt, reconnect, maxRetries, transient, 0);
      var last := run.calls - 1;
      && 1 <= run.calls <= maxRetries
      && run.reconnects == last
      && (forall j :: 0 <= j < last ==> RetriesAfter(attempt, maxRetries, transient, j) && reconnect(j).None?)
      && (RetriesAfter(attempt, maxRetries, transient, last) ==>
            reconnect(last).Some? && run.result == Err(reconnect(last).value))
      && (!RetriesAfter(attempt, maxRetries, transient, last) ==> run.result == attempt(last))
      && ((forall j :: 0 <= j < maxRetries - 1 ==> reconnect(j).None?) ==> run.result == attempt(last))
  {
    if maxRetries > 0 {
      RetriedFrom(attempt, reconnect, maxRetries, transient, 0);
    }
  }

  /** Line 15 and lines 25-32 on the first call: a success is returned at once
      and an error that is not retried is rethrown at once. */
  lemma RetriedFirstCall<T>(attempt: nat -> Result<T>, reconnect: nat -> Option<string>, maxRetries: int,
                            transient: string -> bool)
    requires maxRetries > 0
    ensures attempt(0).Ok? ==> Retried(attempt, reconnect, maxRetries, transient, 0) == Run(attempt(0), 1, 0)
    ensures attempt(0).Err? && !transient(attempt(0).msg) ==>
      Retried(attempt, reconnect, maxRetries, transient, 0) == Run(attempt(0), 1, 0)
  {
  }

  /** `withRetry(operation, maxRetries)` (lines 9-36) with the retried errors
      chosen by `transient`. */
  method WithRetry<T>(attempt: nat -> Result<T>, reconnect: nat -> Option<string>, maxRetries: int,
                      transient: string -> bool)
    returns (run: Run<T>)
    ensures run == Retried(attempt, reconnect, maxRetries, transient, 0)
  {
    var i: nat := 0;
    var reconnects: nat := 0;
    while i < maxRetries
      invariant reconnects == i
      invariant i > 0 ==> i < maxRetries
      invariant Retried(attempt, reconnect, maxRetries, transient, i)
             == Retried(attempt, reconnect, maxRetries, transient, 0)
      decreases maxRetries - i
    {
      var outcome := attempt(i);
      if outcome.Ok? {
        return Run(outcome, i + 1, reconnects);
      }
      if transient(outcome.msg) && i < maxRetries - 1 {
        // prisma.$disconnect(), a one-second wait, prisma.$connect()
        var rejected := reconnect(i);
        if rejected.Some? {
          return Run(Err(rejected.value), i + 1, reconnects);
        }
        reconnects := reconnects + 1;
        i := i + 1;
        continue;
      }
      return Run(outcome, i + 1, reconnects);
    }
    run := Run(Err(MaxRetriesReached), i, reconnects);
  }

  function ConnectionErrors(): string -> bool { (m: string) => IsConnectionError(m) }

  /** The shared wrapper: `withRetry(operation)` with its default of 3 calls.
      It ends with the last call's outcome, or with a reconnect's error when
      that call failed with a connection error before the third call. */
  method WithDbRetry<T>(attempt: nat -> Result<T>, reconnect: nat -> Option<string>) returns (run: Run<T>)
    ensures 1 <= run.calls <= 3 && run.reconnects == run.calls - 1
    ensures var last := attempt(run.calls - 1);
      if run.calls < 3 && last.Err? && IsConnectionError(last.msg)
      then reconnect(run.calls - 1).Some? && run.result == Err(reconnect(run.calls - 1).value)
      else run.result == last
    ensures (forall j :: 0 <= j < 2 ==> reconnect(j).None?) ==>
      run.result == attempt(run.calls - 1) && (run.result.Err? && run.calls < 3 ==> !IsConnectionError(run.result.msg))
  {
    run := WithRetry(attempt, reconnect, DefaultMaxRetries, ConnectionErrors());
    RetriedSpec(attempt, reconnect, DefaultMaxRetries, ConnectionErrors());
  }
}
