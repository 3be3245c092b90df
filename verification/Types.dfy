/** The tables, the settings and the vocabulary shared by every process. */
module Types {

  datatype Option<+T> = None | Some(value: T)

  type JobId = nat
  type WorkerId = nat
  type SchedulerId = nat
  type RequestId = nat

  // Instants are whole microseconds of one clock; POSTGRES `NOW()` and the
  // hosts' `datetime.now` read the same one.
  const SECOND: nat := 1_000_000
  const HOUR: nat := 3_600 * SECOND

  datatype Priority = High | Medium | Low

  /** `Failed` is declared by the schema; that no run reaches it is a theorem. */
  datatype Status = Pending | Queued | Claimed | Sent | Failed | DeadLettered

  datatype Error = DeliveryFailed | WorkerDied

  /** A row of `jobs`. Options are nullable columns. */
  datatype Job = Job(
    recipient: string,
    priority: Priority,
    sendAt: int,
    status: Status,
    attempts: nat,
    maxAttempts: int,
    nextRetryAt: Option<int>,
    workerId: Option<WorkerId>,
    claimedAt: Option<int>,
    heartbeatAt: Option<int>,
    sentAt: Option<int>,
    failedAt: Option<int>,
    error: Option<Error>,
    updatedAt: int)

  /** A row of `dead_letter_queue`. */
  datatype DeadLetter = DeadLetter(job: JobId, recipient: string, attempts: nat, error: Error)

  datatype EventKind = SentEvent | FailedEvent | DeadLetteredEvent

  /** One call of `fire_webhook`. */
  datatype Event = Event(job: JobId, kind: EventKind)

  /** How a worker's writes are fenced: by the `worker_id` column, as the code
      does, or by the number of the claim, the textbook fencing token. */
  datatype Fence = ByWorkerId | ByEpoch

  /** The settings; durations in microseconds. */
  datatype Config = Config(
    rateLimit: int,
    maxAttempts: int,
    baseDelay: nat,
    lookahead: nat,
    batchSize: nat,
    requeueAfter: nat,
    heartbeatTimeout: nat,
    lockTtl: nat,
    fence: Fence)

  function Min(a: int, b: int): int { if a <= b then a else b }

  function Max(a: int, b: int): int { if a <= b then b else a }

  function Pow2(n: nat): nat
    ensures Pow2(n) >= 1
  {
    if n == 0 then 1 else 2 * Pow2(n - 1)
  }
}
