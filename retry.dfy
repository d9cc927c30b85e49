/** The two bounded retry loops of the engine, as functions of the store's answers:
    `_commit_event_session_or_retry` and `_setup_recorder`. The i-th answer (from 0) is
    what the store does on attempt i + 1. */
module Retry {
  import opened RecorderTypes

  datatype CommitResult =
    | NothingToCommit                       // no pending writes: no attempt
    | Skipped                               // db_max_retries < 1: the loop body never runs
    | Committed(attempts: nat)              // the last attempt committed
    | Raised(err: StoreError, attempts: nat) // the error of the last attempt propagates

  function AttemptsOf(r: CommitResult): nat
  {
    match r
    case Committed(n) => n
    case Raised(_, n) => n
    case _ => 0
  }

  /** The retry loop entered with counter `tries`. */
  function RetryFrom(tries: nat, maxRetries: int, attempt: nat -> CommitOutcome): CommitResult
    requires tries >= 1
    decreases maxRetries - tries
  {
    if tries > maxRetries then Skipped
    else match attempt(tries - 1)
      case CommitOk => Committed(tries)
      case CommitFails(e) =>
        if !IsTransient(e) || tries == maxRetries then Raised(e, tries)
        else RetryFrom(tries + 1, maxRetries, attempt)
  }

  function CommitOrRetry(hasPendingWrites: bool, maxRetries: int, attempt: nat -> CommitOutcome): CommitResult
  {
    if !hasPendingWrites then NothingToCommit else RetryFrom(1, maxRetries, attempt)
  }

  predicate TransientFailures(attempt: nat -> CommitOutcome, k: nat)
  {
    forall i :: 0 <= i < k ==> attempt(i).CommitFails? && IsTransient(attempt(i).err)
  }

  /** What any run of the loop entered at `tries` looks like: it skips only when it cannot start,
      never exceeds `maxRetries` attempts, and every attempt before the last one was a transient
      failure; the last one committed, raised a non-transient error, or was the final try. */
  lemma {:induction false} RetryFromShape(tries: nat, maxRetries: int, attempt: nat -> CommitOutcome)
    requires 1 <= tries
    requires forall i :: 0 <= i < tries - 1 ==> attempt(i).CommitFails? && IsTransient(attempt(i).err)
    ensures var r := RetryFrom(tries, maxRetries, attempt);
      && (r.Skipped? <==> tries > maxRetries)
      && (r.Committed? ==> tries <= r.attempts <= maxRetries && attempt(r.attempts - 1) == CommitOk
                           && TransientFailures(attempt, r.attempts - 1))
      && (r.Raised? ==> tries <= r.attempts <= maxRetries && attempt(r.attempts - 1) == CommitFails(r.err)
                        && (!IsTransient(r.err) || r.attempts == maxRetries)
                        && TransientFailures(attempt, r.attempts - 1))
      && !r.NothingToCommit?
    decreases maxRetries - tries
  {
    if tries <= maxRetries && attempt(tries - 1).CommitFails? {
      var e := attempt(tries - 1).err;
      if IsTransient(e) && tries != maxRetries {
        RetryFromShape(tries + 1, maxRetries, attempt);
      }
    }
  }

  /** The loop's contract: no attempt without pending writes, none when db_max_retries < 1,
      at most db_max_retries attempts otherwise, and every attempt but the last a transient failure. */
  lemma CommitOrRetryShape(hasPendingWrites: bool, maxRetries: int, attempt: nat -> CommitOutcome)
    ensures var r := CommitOrRetry(hasPendingWrites, maxRetries, attempt);
      && (r.NothingToCommit? <==> !hasPendingWrites)
      && (r.Skipped? <==> hasPendingWrites && maxRetries < 1)
      && AttemptsOf(r) <= (if maxRetries < 0 then 0 else maxRetries)
      && (r.Committed? ==> r.attempts >= 1 && attempt(r.attempts - 1) == CommitOk && TransientFailures(attempt, r.attempts - 1))
      && (r.Raised? ==> r.attempts >= 1 && attempt(r.attempts - 1) == CommitFails(r.err) && TransientFailures(attempt, r.attempts - 1)
                        && (!IsTransient(r.err) || r.attempts == maxRetries))
  {
    if hasPendingWrites {
      RetryFromShape(1, maxRetries, attempt);
    }
  }

  /** k transient failures, k < db_max_retries, followed by a success commit on attempt k + 1. */
  lemma {:induction false} CommitsAfterTransientFailures(maxRetries: int, attempt: nat -> CommitOutcome, k: nat)
    requires k < maxRetries
    requires TransientFailures(attempt, k) && attempt(k) == CommitOk
    ensures CommitOrRetry(true, maxRetries, attempt) == Committed(k + 1)
  {
    RetryFromAfter(1, maxRetries, attempt, k);
  }

  /** db_max_retries consecutive transient failures re-raise the last error. */
  lemma {:induction false} ExhaustedRetriesRaiseLast(maxRetries: int, attempt: nat -> CommitOutcome)
    requires maxRetries >= 1
    requires TransientFailures(attempt, maxRetries)
    ensures CommitOrRetry(true, maxRetries, attempt) == Raised(attempt(maxRetries - 1).err, maxRetries)
  {
    RetryFromAfter(1, maxRetries, attempt, maxRetries - 1);
  }

  /** A non-transient error propagates on its first occurrence. */
  lemma {:induction false} OtherErrorPropagatesAtOnce(maxRetries: int, attempt: nat -> CommitOutcome, k: nat)
    requires k < maxRetries
    requires TransientFailures(attempt, k)
    requires attempt(k).CommitFails? && !IsTransient(attempt(k).err)
    ensures CommitOrRetry(true, maxRetries, attempt) == Raised(attempt(k).err, k + 1)
  {
    RetryFromAfter(1, maxRetries, attempt, k);
  }

  /** Transient failures up to attempt k hand the decision to attempt k + 1. */
  lemma {:induction false} RetryFromAfter(tries: nat, maxRetries: int, attempt: nat -> CommitOutcome, k: nat)
    requires 1 <= tries <= k + 1 && k < maxRetries
    requires TransientFailures(attempt, k)
    ensures RetryFrom(tries, maxRetries, attempt) == RetryFrom(k + 1, maxRetries, attempt)
    decreases k + 1 - tries
  {
    if tries < k + 1 {
      RetryFromAfter(tries + 1, maxRetries, attempt, k);
    }
  }

  datatype SetupResult = SetupResult(ok: bool, attempts: nat)

  /** The connection loop entered with counter `tries`: a connection returns initialize_database's
      answer, an unsupported dialect stops at once, anything else is retried. */
  function SetupFrom(tries: nat, maxRetries: int, outcome: nat -> SetupOutcome): SetupResult
    requires tries >= 1
    decreases maxRetries - tries
  {
    if tries > maxRetries then SetupResult(false, tries - 1)
    else match outcome(tries - 1)
      case Connected(_, initialized) => SetupResult(initialized, tries)
      case Unsupported => SetupResult(false, tries)
      case SetupFails => SetupFrom(tries + 1, maxRetries, outcome)
  }

  predicate SetupFailures(outcome: nat -> SetupOutcome, k: nat)
  {
    forall i :: 0 <= i < k ==> outcome(i) == SetupFails
  }

  /** Every run of the connection loop: bounded by db_max_retries, every attempt but the last failed,
      success only from a connection whose initialisation succeeded, and the loop stops at the first
      connection or unsupported dialect. */
  lemma {:induction false} SetupFromShape(tries: nat, maxRetries: int, outcome: nat -> SetupOutcome)
    requires 1 <= tries
    requires SetupFailures(outcome, tries - 1)
    ensures var r := SetupFrom(tries, maxRetries, outcome);
      && tries - 1 <= r.attempts
      && r.attempts <= (if maxRetries < tries - 1 then tries - 1 else maxRetries)
      && (r.ok ==> r.attempts >= 1 && outcome(r.attempts - 1).Connected? && outcome(r.attempts - 1).initialized)
      && (r.attempts >= tries && outcome(r.attempts - 1) != SetupFails ==> SetupFailures(outcome, r.attempts - 1))
      && (r.attempts < maxRetries ==> r.attempts >= tries && outcome(r.attempts - 1) != SetupFails)
      && SetupFailures(outcome, if r.attempts >= tries && outcome(r.attempts - 1) != SetupFails then r.attempts - 1 else r.attempts)
    decreases maxRetries - tries
  {
    if tries <= maxRetries && outcome(tries - 1) == SetupFails {
      SetupFromShape(tries + 1, maxRetries, outcome);
    }
  }

  /** An unsupported dialect on attempt k + 1 ends the loop there, without success. */
  lemma {:induction false} UnsupportedStopsEarly(maxRetries: int, outcome: nat -> SetupOutcome, k: nat)
    requires k < maxRetries
    requires SetupFailures(outcome, k) && outcome(k) == Unsupported
    ensures SetupFrom(1, maxRetries, outcome) == SetupResult(false, k + 1)
  {
    SetupFromAfter(1, maxRetries, outcome, k);
  }

  /** A failure on every attempt gives up after exactly db_max_retries attempts. */
  lemma {:induction false} SetupGivesUp(maxRetries: int, outcome: nat -> SetupOutcome)
    requires maxRetries >= 1
    requires SetupFailures(outcome, maxRetries)
    ensures SetupFrom(1, maxRetries, outcome) == SetupResult(false, maxRetries)
  {
    SetupFromAfter(1, maxRetries, outcome, maxRetries - 1);
  }

  lemma {:induction false} SetupFromAfter(tries: nat, maxRetries: int, outcome: nat -> SetupOutcome, k: nat)
    requires 1 <= tries <= k + 1 && k < maxRetries
    requires SetupFailures(outcome, k)
    ensures SetupFrom(tries, maxRetries, outcome) == SetupFrom(k + 1, maxRetries, outcome)
    decreases k + 1 - tries
  {
    if tries < k + 1 {
      SetupFromAfter(tries + 1, maxRetries, outcome, k);
    }
  }
}
