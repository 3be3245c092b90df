/** The SQL statements, one row at a time: the WHERE clause as a predicate and
    the SET clause as a function of the row. NULL follows SQL's three-valued
    logic: `=` never holds of it, `IS NOT DISTINCT FROM` treats it as a value. */
module Statements {
  import opened Types

  predicate SqlEquals(a: Option<WorkerId>, b: Option<WorkerId>) {
    a.Some? && b.Some? && a.value == b.value
  }

  predicate NotDistinct(a: Option<WorkerId>, b: Option<WorkerId>) {
    a == b
  }

  function InsertJob(c: Config, now: int, recipient: string, sendAt: int, priority: Priority): Job {
    Job(recipient, priority, sendAt, Pending, 0, c.maxAttempts,
        None, None, None, None, None, None, None, now)
  }

  predicate Due(c: Config, now: int, r: Job) {
    r.status == Pending && r.sendAt <= now + c.lookahead
  }

  function PromoteDueJob(now: int, r: Job): Job {
    r.(status := Queued, updatedAt := now)
  }

  predicate Stale(c: Config, now: int, r: Job) {
    r.status == Claimed && r.heartbeatAt.Some? && r.heartbeatAt.value < now - c.heartbeatTimeout
  }

  function RecoverStaleClaimed(now: int, r: Job): Job {
    r.(status := Pending, attempts := r.attempts + 1, error := Some(WorkerDied),
       workerId := None, claimedAt := None, heartbeatAt := None, updatedAt := now)
  }

  predicate StrandedInQueued(c: Config, now: int, r: Job) {
    r.status == Queued && r.updatedAt < now - c.requeueAfter
  }

  function ClaimQueuedJob(now: int, w: WorkerId, r: Job): Job {
    r.(status := Claimed, workerId := Some(w), claimedAt := Some(now), heartbeatAt := Some(now),
       updatedAt := now)
  }

  /** `worker_id = $n AND status = 'claimed'`, shared by five statements. */
  predicate OwnedBy(r: Job, who: Option<WorkerId>) {
    SqlEquals(r.workerId, who) && r.status == Claimed
  }

  function UpdateHeartbeat(now: int, r: Job): Job {
    r.(heartbeatAt := Some(now), updatedAt := now)
  }

  function MarkSent(now: int, r: Job): Job {
    r.(status := Sent, sentAt := Some(now), updatedAt := now)
  }

  function ScheduleRetry(now: int, attempt: nat, at: int, r: Job): Job {
    r.(status := Pending, attempts := attempt, nextRetryAt := Some(at), sendAt := at,
       error := Some(DeliveryFailed), workerId := None, claimedAt := None, heartbeatAt := None,
       updatedAt := now)
  }

  function DeferToNextWindow(now: int, at: int, r: Job): Job {
    r.(status := Pending, sendAt := at, workerId := None, claimedAt := None, heartbeatAt := None,
       updatedAt := now)
  }

  function MarkDeadLettered(now: int, attempt: nat, error: Error, r: Job): Job {
    r.(status := DeadLettered, error := Some(error), attempts := attempt, failedAt := Some(now),
       workerId := None, claimedAt := None, heartbeatAt := None, updatedAt := now)
  }

  function RetryDeadLettered(now: int, r: Job): Job {
    r.(status := Pending, attempts := 0, sendAt := now, nextRetryAt := None, error := None,
       failedAt := None, workerId := None, claimedAt := None, heartbeatAt := None,
       updatedAt := now)
  }

  /** `delay = base * 2 ** (attempt - 1)`. */
  function Backoff(c: Config, attempt: nat): nat
    requires attempt >= 1
  {
    c.baseDelay * Pow2(attempt - 1)
  }
}
