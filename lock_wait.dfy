/** The wait loop of `_lock_database`: while the backup holds the lock, the engine polls the
    unlock signal once per interval and gives up the lock when the queue grows too long. */
module LockWait {

  /** What one poll observes: whether the unlock signal arrived within the interval, and the
      queue length at that moment. */
  datatype Poll = Poll(unlockSignalled: bool, backlog: nat)

  datatype WaitEnd =
    | Unlocked(at: nat)     // the signal arrived on poll `at`
    | Overflowed(at: nat)   // poll `at` saw the backlog above 90% of the maximum
    | StillWaiting          // no poll ended the wait

  /** The float test `backlog > MAX_QUEUE_BACKLOG * 0.9`, in integers. */
  predicate AboveNinetyPercent(backlog: nat, maxBacklog: nat)
  {
    10 * backlog > 9 * maxBacklog
  }

  function WaitFrom(polls: seq<Poll>, i: nat, maxBacklog: nat): WaitEnd
    requires i <= |polls|
    decreases |polls| - i
  {
    if i == |polls| then StillWaiting
    else if polls[i].unlockSignalled then Unlocked(i)
    else if AboveNinetyPercent(polls[i].backlog, maxBacklog) then Overflowed(i)
    else WaitFrom(polls, i + 1, maxBacklog)
  }

  /** None of the polls before `k` ended the wait. */
  predicate Quiet(polls: seq<Poll>, k: nat, maxBacklog: nat)
    requires k <= |polls|
  {
    forall j :: 0 <= j < k ==> !polls[j].unlockSignalled && !AboveNinetyPercent(polls[j].backlog, maxBacklog)
  }

  /** The wait ends at the first poll that sees the signal or an overflowing backlog; overflow is
      flagged only when the backlog exceeded 90% before any unlock signal. */
  lemma {:induction false} WaitEndsAtFirstEvent(polls: seq<Poll>, i: nat, maxBacklog: nat)
    requires i <= |polls| && Quiet(polls, i, maxBacklog)
    ensures match WaitFrom(polls, i, maxBacklog)
      case Unlocked(k) => i <= k < |polls| && polls[k].unlockSignalled && Quiet(polls, k, maxBacklog)
      case Overflowed(k) => i <= k < |polls| && !polls[k].unlockSignalled
                            && AboveNinetyPercent(polls[k].backlog, maxBacklog) && Quiet(polls, k, maxBacklog)
      case StillWaiting => Quiet(polls, |polls|, maxBacklog)
    decreases |polls| - i
  {
    if i < |polls| && !polls[i].unlockSignalled && !AboveNinetyPercent(polls[i].backlog, maxBacklog) {
      WaitEndsAtFirstEvent(polls, i + 1, maxBacklog);
    }
  }

  /** A backlog that never exceeds 90% of the maximum never flags overflow. */
  lemma {:induction false} LowBacklogNeverOverflows(polls: seq<Poll>, i: nat, maxBacklog: nat)
    requires i <= |polls|
    requires forall j :: 0 <= j < |polls| ==> !AboveNinetyPercent(polls[j].backlog, maxBacklog)
    ensures !WaitFrom(polls, i, maxBacklog).Overflowed?
    decreases |polls| - i
  {
    if i < |polls| && !polls[i].unlockSignalled {
      LowBacklogNeverOverflows(polls, i + 1, maxBacklog);
    }
  }
}
