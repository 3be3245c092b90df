/** The whole system as one interleaved transition system.

    Every SQL statement, every Redis command and the one transaction of
    `dead_letter` is an atomic step of one process; between any two steps any
    other process may act, time may pass, and the process itself may fail.
    What the code leaves to chance or to another machine (which tied entry a pop
    returns, whether a delivery fails, when a clock was read) is an argument of
    the step. */
module Protocol {
  import opened Types
  import opened Statements
  import opened Windows
  import opened Scores

  // ---------------------------------------------------------------- state

  /** What happened to a job so far. Nothing in the system reads it. The fields
      after `sends` count since the job was created or last replayed. */
  datatype History = History(
    promotions: nat,
    claims: nat,
    replays: nat,
    sends: nat,
    failures: nat,
    reclaims: nat,
    deferrals: nat,
    interruptions: nat,
    changes: nat,
    firstFailure: int,
    lastFailure: int)

  const FRESH := History(0, 0, 0, 0, 0, 0, 0, 0, 0, 0, 0)

  datatype Entry = Entry(row: Job, h: History)

  /** A member of one of the three sorted sets. */
  datatype Slot = Slot(tier: Priority, job: JobId)

  /** A rate-limit key. `value` and `expires` are Redis's; the rest is history:
      the checks counted since the key was created, the workers still to undo
      an overshoot, and the undos lost to failures. */
  datatype Counter = Counter(
    value: int,
    expires: Option<int>,
    checks: nat,
    undoing: set<WorkerId>,
    forgotten: nat)

  /** Where a worker's loop stands and what it remembers there: the entry it
      popped, then the claim it holds (`epoch` numbers the job's claims), then
      the row it fetched. `since` is when it got there. */
  datatype Worker =
    | Scanning(tier: Priority)
    | Popped(tier: Priority, job: JobId)
    | Locked(tier: Priority, job: JobId)
    | Rejected(tier: Priority, job: JobId)
    | Holding(job: JobId, epoch: nat, since: int)
    | Fetched(job: JobId, epoch: nat, since: int, view: Job)
    | Overshot(job: JobId, epoch: nat, since: int, view: Job, checkedAt: int)
    | Refused(job: JobId, epoch: nat, since: int, view: Job, retryAfter: int, checkedAt: int)
    | Allowed(job: JobId, epoch: nat, since: int, view: Job)
    | Releasing(job: JobId, epoch: nat, news: Option<EventKind>)
    | Announcing(job: JobId, epoch: nat, event: EventKind)
    | Finishing(job: JobId, epoch: nat)
    | Crashed
  {
    /** Inside `process_job`, where the heartbeat task runs. */
    predicate InHand() {
      Holding? || Fetched? || Overshot? || Refused? || Allowed? || Releasing? || Announcing? || Finishing?
    }

    /** Still to write the outcome of the claim. */
    predicate Undecided() {
      Holding? || HasView()
    }

    predicate HasView() {
      Fetched? || Overshot? || Refused? || Allowed?
    }
  }

  datatype Ticket = Ticket(priority: Priority, sendAt: int)

  datatype Reclaimed = Reclaimed(attempts: nat, maxAttempts: int)

  /** Where a scheduler's tick stands and the rows it still has to handle. */
  datatype Scheduler =
    | AtPromote
    | Promoted(batch: map<JobId, Ticket>)
    | AtRecover
    | Recovering(rows: map<JobId, Reclaimed>)
    | Burying(job: JobId, attempts: nat, rows: map<JobId, Reclaimed>)
    | Unlocking(job: JobId, rows: map<JobId, Reclaimed>)
    | Telling(job: JobId, rows: map<JobId, Reclaimed>)
    | AtRequeue
    | Requeueing(batch: map<JobId, Ticket>)
  {
    /** The jobs this tick's recovery still has to handle. */
    function Remembered(): set<JobId> {
      if Recovering? then rows.Keys
      else if Burying? || Unlocking? || Telling? then rows.Keys + {job}
      else {}
    }

    /** Among them, those at the attempt cap and not yet buried. */
    function Mourned(): set<JobId> {
      if Recovering? || Unlocking? || Telling? then AtCap(rows)
      else if Burying? then AtCap(rows) + {job}
      else {}
    }
  }

  function AtCap(rows: map<JobId, Reclaimed>): set<JobId> {
    set j | j in rows && rows[j].attempts >= rows[j].maxAttempts
  }

  /** A `POST /jobs` request: the conflict it ran into, or its answer. */
  datatype Reply = Losing(key: string) | Created(id: JobId) | Duplicate(existing: JobId)

  /** The last four fields are history: some fetch returned a row that did not
      name its own worker; some fetch came later than the heartbeat timeout after
      its claim; some rate-limit command found that its key had expired; Redis was
      altered from outside. */
  datatype State = State(
    now: int,
    jobs: map<JobId, Entry>,
    dlq: seq<DeadLetter>,
    keys: map<string, JobId>,
    queue: map<Slot, int>,
    locks: map<JobId, int>,
    counters: map<Window, Counter>,
    workers: map<WorkerId, Worker>,
    schedulers: map<SchedulerId, Scheduler>,
    replies: map<RequestId, Reply>,
    events: seq<Event>,
    foreignFetch: bool,
    lateFetch: bool,
    expiredKey: bool,
    tampered: bool)

  function Initial(now: int): State {
    State(now, map[], [], map[], map[], map[], map[], map[], map[], map[], [], false, false, false, false)
  }

  // --------------------------------------------------------------- actions

  datatype WorkerOp =
    | Pop(pick: Option<JobId>)
    | Lock
    | Claim
    | DropLock
    | Fetch
    | Check(at: int)
    | Undo
    | Defer(at: int)
    | Succeed
    | Fail(at: int)
    | Release
    | Announce
    | Finish
    | Beat
    | Abort
    | Crash

  datatype SchedulerOp =
    | Promote(skipped: set<JobId>, batch: set<JobId>)
    | Enqueue
    | Recover
    | Unlock(job: JobId)
    | Bury
    | ReleaseBuried
    | AnnounceBuried
    | Requeue(batch: set<JobId>)
    | AbortTick

  datatype ApiOp =
    | Submit(request: RequestId, id: JobId, recipient: string, sendAt: int, priority: Priority, key: Option<string>)
    | Lookup(request: RequestId)
    | Replay(job: JobId)

  datatype Action =
    | StartWorker(w: WorkerId)
    | StartScheduler(d: SchedulerId)
    | Work(w: WorkerId, op: WorkerOp)
    | Schedule(d: SchedulerId, sop: SchedulerOp)
    | Api(aop: ApiOp)
    | Tick(elapsed: nat)
    | Tamper(queue: map<Slot, int>, locks: map<JobId, int>)

  /** What a step does to PostgreSQL. */
  datatype Write =
    | NoWrite
    | Insert(id: JobId, row: Job, key: Option<string>)
    | PromoteRows(batch: set<JobId>)
    | ClaimRow(job: JobId, w: WorkerId)
    | BeatRow(job: JobId)
    | SendRow(job: JobId)
    | RetryRow(job: JobId, attempt: nat, failedAt: int, next: int)
    | DeferRow(job: JobId, next: int)
    | BuryFailed(job: JobId, recipient: string, attempt: nat, failedAt: int)
    | BuryReclaimed(job: JobId, recipient: string, attempt: nat)
    | ReclaimRows(stale: set<JobId>)
    | ReplayRow(job: JobId)
    | NoteInterruption(lost: set<JobId>)

  /** What a step does to Redis. `Forget` is an undo that will never come. */
  datatype Command =
    | NoCommand
    | Take(slot: Slot)
    | Add(members: map<Slot, int>)
    | SetLock(job: JobId, until: int)
    | DeleteLock(job: JobId)
    | Increment(key: Window, w: WorkerId, limit: int)
    | Decrement(key: Window, w: WorkerId)
    | Forget(key: Window, w: WorkerId)
    | Overwrite(queue: map<Slot, int>, locks: map<JobId, int>)

  datatype WorkerStep = WorkerStep(next: Worker, write: Write, command: Command, said: Option<Event>)

  datatype SchedulerStep = SchedulerStep(next: Scheduler, write: Write, command: Command, said: Option<Event>)

  function Goes(next: Worker): WorkerStep { WorkerStep(next, NoWrite, NoCommand, None) }

  function Writes(next: Worker, write: Write): WorkerStep { WorkerStep(next, write, NoCommand, None) }

  function Commands(next: Worker, command: Command): WorkerStep { WorkerStep(next, NoWrite, command, None) }

  function SGoes(next: Scheduler): SchedulerStep { SchedulerStep(next, NoWrite, NoCommand, None) }

  function SWrites(next: Scheduler, write: Write): SchedulerStep { SchedulerStep(next, write, NoCommand, None) }

  function SCommands(next: Scheduler, command: Command): SchedulerStep { SchedulerStep(next, NoWrite, command, None) }

  predicate Enabled(c: Config, s: State, a: Action) {
    match a
    case StartWorker(w) => w !in s.workers
    case StartScheduler(d) => d !in s.schedulers
    case Work(w, op) => w in s.workers && CanWork(s, s.workers[w], op)
    case Schedule(d, op) => d in s.schedulers && CanSchedule(c, s, s.schedulers[d], op)
    case Api(op) => CanServe(s, op)
    case Tick(_) => true
    case Tamper(_, _) => true
  }

  // ---------------------------------------------------------------- worker

  /** The rest of `for priority in PRIORITY_ORDER`; after the last queue the
      scan returns None and the loop starts over. */
  function NextScan(tier: Priority): Worker {
    Scanning(match tier case High => Medium case Medium => Low case Low => High)
  }

  predicate TierIsEmpty(queue: map<Slot, int>, tier: Priority) {
    forall slot | slot in queue :: slot.tier != tier
  }

  /** A member `ZPOPMIN` may return: minimal score, ties in any order. */
  predicate IsHead(queue: map<Slot, int>, slot: Slot) {
    && slot in queue
    && forall other | other in queue && other.tier == slot.tier :: queue[slot] <= queue[other]
  }

  /** Absent, or past its TTL. */
  predicate IsUnlocked(now: int, locks: map<JobId, int>, j: JobId) {
    j !in locks || locks[j] <= now
  }

  predicate LockIsFree(s: State, j: JobId) {
    IsUnlocked(s.now, s.locks, j)
  }

  /** The fence of the three fenced updates. */
  predicate Owns(c: Config, e: Entry, p: Worker)
    requires p.HasView()
  {
    match c.fence
    case ByWorkerId => OwnedBy(e.row, p.view.workerId)
    case ByEpoch => e.row.status == Claimed && e.h.claims == p.epoch
  }

  /** The fence of `MARK_DEAD_LETTERED`, which tests no status. */
  predicate OwnsForBurial(c: Config, e: Entry, p: Worker)
    requires p.HasView()
  {
    match c.fence
    case ByWorkerId => NotDistinct(e.row.workerId, p.view.workerId)
    case ByEpoch => e.row.status == Claimed && e.h.claims == p.epoch
  }

  predicate CanWork(s: State, p: Worker, op: WorkerOp) {
    && (p.InHand() ==> p.job in s.jobs)
    && match op
       case Pop(pick) =>
         p.Scanning? && (if pick.None? then TierIsEmpty(s.queue, p.tier) else IsHead(s.queue, Slot(p.tier, pick.value)))
       case Lock => p.Popped?
       case Claim => p.Locked?
       case DropLock => p.Rejected?
       case Fetch => p.Holding?
       case Check(at) => p.Fetched? && p.since <= at <= s.now
       case Undo => p.Overshot?
       case Defer(at) => p.Refused? && p.since <= at <= s.now
       case Succeed => p.Allowed?
       case Fail(at) => p.Allowed? && p.since <= at <= s.now
       case Release => p.Releasing?
       case Announce => p.Announcing?
       case Finish => p.Finishing?
       case Beat => p.InHand()
       case Abort => !p.Crashed?
       case Crash => !p.Crashed?
  }

  /** One step of `worker_loop`: where the worker goes, and what it asks of
      PostgreSQL and Redis on the way. */
  function WorkerDoes(c: Config, s: State, w: WorkerId, p: Worker, op: WorkerOp): WorkerStep
    requires CanWork(s, p, op)
  {
    match op
    case Pop(pick) =>
      if pick.None? then Goes(NextScan(p.tier))
      else Commands(Popped(p.tier, pick.value), Take(Slot(p.tier, pick.value)))
    case Lock =>
      if LockIsFree(s, p.job) then Commands(Locked(p.tier, p.job), SetLock(p.job, s.now + c.lockTtl))
      else Goes(NextScan(p.tier))
    case Claim =>
      if p.job in s.jobs && s.jobs[p.job].row.status == Queued then
        Writes(Holding(p.job, s.jobs[p.job].h.claims + 1, s.now), ClaimRow(p.job, w))
      else Goes(Rejected(p.tier, p.job))
    case DropLock => Commands(NextScan(p.tier), DeleteLock(p.job))
    case Fetch => Goes(Fetched(p.job, p.epoch, s.now, s.jobs[p.job].row))
    case Check(at) =>
      var key := Window(p.view.recipient, HourOf(at));
      if Current(s.now, s.counters, key).value + 1 > c.rateLimit then
        Commands(Overshot(p.job, p.epoch, s.now, p.view, at), Increment(key, w, c.rateLimit))
      else Commands(Allowed(p.job, p.epoch, s.now, p.view), Increment(key, w, c.rateLimit))
    case Undo =>
      Commands(Refused(p.job, p.epoch, s.now, p.view, SecondsUntilNextWindow(p.checkedAt), p.checkedAt),
               Decrement(CheckedKey(p), w))
    case Defer(at) =>
      if Owns(c, s.jobs[p.job], p) then
        Writes(Releasing(p.job, p.epoch, None), DeferRow(p.job, at + p.retryAfter * SECOND))
      else Goes(Finishing(p.job, p.epoch))
    case Succeed =>
      if Owns(c, s.jobs[p.job], p) then Writes(Releasing(p.job, p.epoch, Some(SentEvent)), SendRow(p.job))
      else Goes(Finishing(p.job, p.epoch))
    case Fail(at) => HandleFailure(c, s.jobs[p.job], p, at)
    case Release =>
      Commands(if p.news.Some? then Announcing(p.job, p.epoch, p.news.value) else Finishing(p.job, p.epoch),
               DeleteLock(p.job))
    case Announce => WorkerStep(Finishing(p.job, p.epoch), NoWrite, NoCommand, Some(Event(p.job, p.event)))
    case Finish => Goes(Scanning(High))
    case Beat => if OwnedBy(s.jobs[p.job].row, Some(w)) then Writes(p, BeatRow(p.job)) else Goes(p)
    case Abort =>
      Commands(AfterException(p), ForgottenUndo(w, p))
    case Crash => Commands(Crashed, ForgottenUndo(w, p))
  }

  /** An exception inside `process_job` still stops the heartbeat before it ends
      the iteration; the claim, if any, is abandoned. */
  function AfterException(p: Worker): Worker {
    if p.InHand() && !p.Finishing? then Finishing(p.job, p.epoch) else Scanning(High)
  }

  /** `handle_failure`: at the cap the job goes to the dead-letter queue, fenced
      on `worker_id` alone; below it a retry is scheduled. */
  function HandleFailure(c: Config, e: Entry, p: Worker, at: int): WorkerStep
    requires p.Allowed?
  {
    var attempt := p.view.attempts + 1;
    if attempt >= p.view.maxAttempts then
      if OwnsForBurial(c, e, p) then
        Writes(Releasing(p.job, p.epoch, Some(DeadLetteredEvent)), BuryFailed(p.job, p.view.recipient, attempt, at))
      else Goes(Finishing(p.job, p.epoch))
    else if Owns(c, e, p) then
      Writes(Releasing(p.job, p.epoch, Some(FailedEvent)), RetryRow(p.job, attempt, at, at + Backoff(c, attempt)))
    else Goes(Finishing(p.job, p.epoch))
  }

  function CheckedKey(p: Worker): Window
    requires p.Overshot?
  {
    Window(p.view.recipient, HourOf(p.checkedAt))
  }

  function ForgottenUndo(w: WorkerId, p: Worker): Command {
    if p.Overshot? then Forget(CheckedKey(p), w) else NoCommand
  }

  // ------------------------------------------------------------- scheduler

  function DueIn(c: Config, now: int, jobs: map<JobId, Entry>): set<JobId> {
    set j | j in jobs && Due(c, now, jobs[j].row)
  }

  /** The rows `FOR UPDATE SKIP LOCKED` can see. */
  function DueJobs(c: Config, s: State, skipped: set<JobId>): set<JobId> {
    DueIn(c, s.now, s.jobs) - skipped
  }

  function StaleIn(c: Config, now: int, jobs: map<JobId, Entry>): set<JobId> {
    set j | j in jobs && Stale(c, now, jobs[j].row)
  }

  function StaleJobs(c: Config, s: State): set<JobId> {
    StaleIn(c, s.now, s.jobs)
  }

  function StrandedIn(c: Config, now: int, jobs: map<JobId, Entry>): set<JobId> {
    set j | j in jobs && StrandedInQueued(c, now, jobs[j].row)
  }

  function StrandedJobs(c: Config, s: State): set<JobId> {
    StrandedIn(c, s.now, s.jobs)
  }

  /** `LIMIT n` over `pool`, with no order. */
  predicate IsLimited(n: nat, pool: set<JobId>, batch: set<JobId>) {
    batch <= pool && |batch| == Min(n, |pool|)
  }

  predicate DueBefore(jobs: map<JobId, Entry>, i: JobId, j: JobId)
    requires i in jobs && j in jobs
  {
    Before(jobs[i].row.priority, jobs[i].row.sendAt, jobs[j].row.priority, jobs[j].row.sendAt)
  }

  /** `ORDER BY priority ASC, send_at ASC LIMIT n`: nothing left out comes
      strictly before anything taken. */
  predicate IsPromotable(n: nat, jobs: map<JobId, Entry>, pool: set<JobId>, batch: set<JobId>)
    requires pool <= jobs.Keys
  {
    && IsLimited(n, pool, batch)
    && forall i, j | i in batch && j in pool - batch :: !DueBefore(jobs, j, i)
  }

  function Tickets(s: State, batch: set<JobId>): map<JobId, Ticket>
    requires batch <= s.jobs.Keys
  {
    map j | j in batch :: Ticket(s.jobs[j].row.priority, s.jobs[j].row.sendAt)
  }

  predicate CanSchedule(c: Config, s: State, p: Scheduler, op: SchedulerOp) {
    match op
    case Promote(skipped, batch) =>
      p.AtPromote? && IsPromotable(c.batchSize, s.jobs, DueJobs(c, s, skipped), batch)
    case Enqueue => p.Promoted? || p.Requeueing?
    case Recover => p.AtRecover?
    case Unlock(j) => p.Recovering? && j in p.rows
    case Bury => p.Burying? && p.job in s.jobs
    case ReleaseBuried => p.Unlocking?
    case AnnounceBuried => p.Telling?
    case Requeue(batch) => p.AtRequeue? && IsLimited(c.batchSize, StrandedJobs(c, s), batch)
    case AbortTick => true
  }

  /** The members one `_enqueue` adds, each with its score. */
  function Members(batch: map<JobId, Ticket>): map<Slot, int> {
    map slot | slot in (set j | j in batch :: Slot(batch[j].priority, j)) ::
      PriorityScore(slot.tier, batch[slot.job].sendAt)
  }

  function Handling(rows: map<JobId, Reclaimed>): Scheduler {
    if rows == map[] then AtRequeue else Recovering(rows)
  }

  /** What `RECOVER_STALE_CLAIMED` returns. */
  function RowsReset(c: Config, s: State): map<JobId, Reclaimed> {
    map j | j in StaleJobs(c, s) :: Reclaimed(s.jobs[j].row.attempts + 1, s.jobs[j].row.maxAttempts)
  }

  /** One step of the scheduler's tick. An empty batch is not enqueued; a failed
      tick, or a restart, loses what the tick still had to do. */
  function SchedulerDoes(c: Config, s: State, p: Scheduler, op: SchedulerOp): SchedulerStep
    requires CanSchedule(c, s, p, op)
  {
    match op
    case Promote(skipped, batch) =>
      SWrites(if batch == {} then AtRecover else Promoted(Tickets(s, batch)), PromoteRows(batch))
    case Enqueue => SCommands(if p.Promoted? then AtRecover else AtPromote, Add(Members(p.batch)))
    case Recover =>
      SWrites(Handling(RowsReset(c, s)), ReclaimRows(StaleJobs(c, s)))
    case Unlock(j) =>
      SCommands(if p.rows[j].attempts >= p.rows[j].maxAttempts then Burying(j, p.rows[j].attempts, p.rows - {j})
                else Handling(p.rows - {j}),
                DeleteLock(j))
    case Bury =>
      if NotDistinct(s.jobs[p.job].row.workerId, None) then
        SWrites(Unlocking(p.job, p.rows), BuryReclaimed(p.job, s.jobs[p.job].row.recipient, p.attempts))
      else SGoes(Handling(p.rows))
    case ReleaseBuried => SCommands(Telling(p.job, p.rows), DeleteLock(p.job))
    case AnnounceBuried =>
      SchedulerStep(Handling(p.rows), NoWrite, NoCommand, Some(Event(p.job, DeadLetteredEvent)))
    case Requeue(batch) => SGoes(if batch == {} then AtPromote else Requeueing(Tickets(s, batch)))
    case AbortTick => SWrites(AtPromote, NoteInterruption(p.Mourned()))
  }

  // -------------------------------------------------------------------- API

  predicate CanServe(s: State, op: ApiOp) {
    match op
    case Submit(r, id, _, _, _, _) => r !in s.replies && id !in s.jobs
    case Lookup(r) => r in s.replies && s.replies[r].Losing? && s.replies[r].key in s.keys
    case Replay(j) => true
  }

  /** `if body.idempotency_key` */
  predicate IsGiven(key: Option<string>) {
    key.Some? && key.value != ""
  }

  predicate IsTaken(s: State, key: Option<string>) {
    IsGiven(key) && key.value in s.keys
  }

  /** A duplicate key rolls the insert back; 404 and 409 change nothing. */
  function ApiWrites(c: Config, s: State, op: ApiOp): Write {
    match op
    case Submit(_, id, recipient, sendAt, priority, key) =>
      if IsTaken(s, key) then NoWrite
      else Insert(id, InsertJob(c, s.now, recipient, sendAt, priority), if IsGiven(key) then key else None)
    case Lookup(_) => NoWrite
    case Replay(j) => if j in s.jobs && s.jobs[j].row.status == DeadLettered then ReplayRow(j) else NoWrite
  }

  function RepliesAfter(s: State, op: ApiOp): map<RequestId, Reply>
    requires CanServe(s, op)
  {
    match op
    case Submit(r, id, _, _, _, key) => s.replies[r := if IsTaken(s, key) then Losing(key.value) else Created(id)]
    case Lookup(r) => s.replies[r := Duplicate(s.keys[s.replies[r].key])]
    case Replay(_) => s.replies
  }

  // ------------------------------------------------------------ the tables

  function WriteOf(c: Config, s: State, a: Action): Write
    requires Enabled(c, s, a)
  {
    match a
    case Work(w, op) => WorkerDoes(c, s, w, s.workers[w], op).write
    case Schedule(d, op) => SchedulerDoes(c, s, s.schedulers[d], op).write
    case Api(op) => ApiWrites(c, s, op)
    case _ => NoWrite
  }

  function CommandOf(c: Config, s: State, a: Action): Command
    requires Enabled(c, s, a)
  {
    match a
    case Work(w, op) => WorkerDoes(c, s, w, s.workers[w], op).command
    case Schedule(d, op) => SchedulerDoes(c, s, s.schedulers[d], op).command
    case Tamper(queue, locks) => Overwrite(queue, locks)
    case _ => NoCommand
  }

  function SaidBy(c: Config, s: State, a: Action): Option<Event>
    requires Enabled(c, s, a)
  {
    match a
    case Work(w, op) => WorkerDoes(c, s, w, s.workers[w], op).said
    case Schedule(d, op) => SchedulerDoes(c, s, s.schedulers[d], op).said
    case _ => None
  }

  function FailureRecorded(h: History, at: int): History {
    h.(failures := h.failures + 1, changes := h.changes + 1,
       firstFailure := if h.failures == 0 then at else h.firstFailure, lastFailure := at)
  }

  /** The row of `j`, and what is remembered of it, after a write at `now`. */
  function EntryAfter(now: int, write: Write, j: JobId, e: Entry): Entry {
    match write
    case NoWrite => e
    case Insert(_, _, _) => e
    case PromoteRows(batch) =>
      if j !in batch then e
      else Entry(PromoteDueJob(now, e.row), e.h.(promotions := e.h.promotions + 1, changes := e.h.changes + 1))
    case ClaimRow(i, w) =>
      if i != j then e
      else Entry(ClaimQueuedJob(now, w, e.row), e.h.(claims := e.h.claims + 1, changes := e.h.changes + 1))
    case BeatRow(i) =>
      if i != j then e else Entry(UpdateHeartbeat(now, e.row), e.h)
    case SendRow(i) =>
      if i != j then e
      else Entry(MarkSent(now, e.row), e.h.(sends := e.h.sends + 1, changes := e.h.changes + 1))
    case RetryRow(i, attempt, failedAt, next) =>
      if i != j then e else Entry(ScheduleRetry(now, attempt, next, e.row), FailureRecorded(e.h, failedAt))
    case DeferRow(i, next) =>
      if i != j then e
      else Entry(DeferToNextWindow(now, next, e.row), e.h.(deferrals := e.h.deferrals + 1, changes := e.h.changes + 1))
    case BuryFailed(i, _, attempt, failedAt) =>
      if i != j then e
      else Entry(MarkDeadLettered(now, attempt, DeliveryFailed, e.row), FailureRecorded(e.h, failedAt))
    case BuryReclaimed(i, _, attempt) =>
      if i != j then e
      else Entry(MarkDeadLettered(now, attempt, WorkerDied, e.row), e.h.(changes := e.h.changes + 1))
    case ReclaimRows(stale) =>
      if j !in stale then e
      else Entry(RecoverStaleClaimed(now, e.row), e.h.(reclaims := e.h.reclaims + 1, changes := e.h.changes + 1))
    case ReplayRow(i) =>
      if i != j then e
      else Entry(RetryDeadLettered(now, e.row),
                 FRESH.(promotions := e.h.promotions, claims := e.h.claims, replays := e.h.replays + 1,
                        sends := e.h.sends))
    case NoteInterruption(lost) =>
      if j !in lost then e else e.(h := e.h.(interruptions := e.h.interruptions + 1))
  }

  function JobsAfter(now: int, write: Write, jobs: map<JobId, Entry>): map<JobId, Entry> {
    var existing := map j | j in jobs :: EntryAfter(now, write, j, jobs[j]);
    if write.Insert? then existing[write.id := Entry(write.row, FRESH)] else existing
  }

  function DlqAfter(write: Write, dlq: seq<DeadLetter>): seq<DeadLetter> {
    match write
    case BuryFailed(j, recipient, attempt, _) => dlq + [DeadLetter(j, recipient, attempt, DeliveryFailed)]
    case BuryReclaimed(j, recipient, attempt) => dlq + [DeadLetter(j, recipient, attempt, WorkerDied)]
    case _ => dlq
  }

  function KeysAfter(write: Write, keys: map<string, JobId>): map<string, JobId> {
    if write.Insert? && write.key.Some? then keys[write.key.value := write.id] else keys
  }

  // ------------------------------------------------------------------ Redis

  function QueueAfter(command: Command, queue: map<Slot, int>): map<Slot, int> {
    match command
    case Take(slot) => queue - {slot}
    case Add(members) => queue + members
    case Overwrite(q, _) => q
    case _ => queue
  }

  function LocksAfter(command: Command, locks: map<JobId, int>): map<JobId, int> {
    match command
    case SetLock(j, until) => locks[j := until]
    case DeleteLock(j) => locks - {j}
    case Overwrite(_, l) => l
    case _ => locks
  }

  predicate IsAlive(now: int, counters: map<Window, Counter>, key: Window) {
    key in counters && (counters[key].expires.None? || now < counters[key].expires.value)
  }

  /** The key as the next command finds it. */
  function Current(now: int, counters: map<Window, Counter>, key: Window): Counter {
    if IsAlive(now, counters, key) then counters[key] else Counter(0, None, 0, {}, 0)
  }

  /** `INCR_WITH_TTL`, and who is now to undo it. */
  function Incremented(now: int, w: WorkerId, limit: int, k: Counter): Counter {
    Counter(k.value + 1,
            if k.value + 1 == 1 then Some(now + WINDOW_TTL) else k.expires,
            k.checks + 1,
            if k.value + 1 > limit then k.undoing + {w} else k.undoing,
            k.forgotten)
  }

  function Forgotten(w: WorkerId, k: Counter): Counter {
    if w in k.undoing then k.(undoing := k.undoing - {w}, forgotten := k.forgotten + 1) else k
  }

  function Decremented(w: WorkerId, k: Counter): Counter {
    k.(value := k.value - 1, undoing := k.undoing - {w})
  }

  function CountersAfter(now: int, command: Command, counters: map<Window, Counter>): map<Window, Counter> {
    match command
    case Increment(key, w, limit) => counters[key := Incremented(now, w, limit, Current(now, counters, key))]
    case Decrement(key, w) => counters[key := Decremented(w, Current(now, counters, key))]
    case Forget(key, w) => if key in counters then counters[key := Forgotten(w, counters[key])] else counters
    case _ => counters
  }

  // ------------------------------------------------------------------ steps

  predicate FetchesForeign(c: Config, s: State, a: Action)
    requires Enabled(c, s, a)
  {
    a.Work? && a.op.Fetch? && s.jobs[s.workers[a.w].job].row.workerId != Some(a.w)
  }

  predicate FetchesLate(c: Config, s: State, a: Action)
    requires Enabled(c, s, a)
  {
    a.Work? && a.op.Fetch? && s.now > s.workers[a.w].since + c.heartbeatTimeout
  }

  predicate IsExpired(s: State, key: Window) {
    key in s.counters && !IsAlive(s.now, s.counters, key)
  }

  predicate FindsKeyExpired(c: Config, s: State, a: Action)
    requires Enabled(c, s, a)
  {
    && a.Work?
    && ((a.op.Check? && IsExpired(s, Window(s.workers[a.w].view.recipient, HourOf(a.op.at))))
        || (a.op.Undo? && IsExpired(s, CheckedKey(s.workers[a.w]))))
  }

  function WorkersAfter(c: Config, s: State, a: Action): map<WorkerId, Worker>
    requires Enabled(c, s, a)
  {
    match a
    case StartWorker(w) => s.workers[w := Scanning(High)]
    case Work(w, op) => s.workers[w := WorkerDoes(c, s, w, s.workers[w], op).next]
    case _ => s.workers
  }

  function SchedulersAfter(c: Config, s: State, a: Action): map<SchedulerId, Scheduler>
    requires Enabled(c, s, a)
  {
    match a
    case StartScheduler(d) => s.schedulers[d := AtPromote]
    case Schedule(d, op) => s.schedulers[d := SchedulerDoes(c, s, s.schedulers[d], op).next]
    case _ => s.schedulers
  }

  function Apply(c: Config, s: State, a: Action): State
    requires Enabled(c, s, a)
  {
    State(
      if a.Tick? then s.now + a.elapsed else s.now,
      JobsAfter(s.now, WriteOf(c, s, a), s.jobs),
      DlqAfter(WriteOf(c, s, a), s.dlq),
      KeysAfter(WriteOf(c, s, a), s.keys),
      QueueAfter(CommandOf(c, s, a), s.queue),
      LocksAfter(CommandOf(c, s, a), s.locks),
      CountersAfter(s.now, CommandOf(c, s, a), s.counters),
      WorkersAfter(c, s, a),
      SchedulersAfter(c, s, a),
      if a.Api? then RepliesAfter(s, a.aop) else s.replies,
      if SaidBy(c, s, a).Some? then s.events + [SaidBy(c, s, a).value] else s.events,
      s.foreignFetch || FetchesForeign(c, s, a),
      s.lateFetch || FetchesLate(c, s, a),
      s.expiredKey || FindsKeyExpired(c, s, a),
      s.tampered || a.Tamper?)
  }

  // ------------------------------------------------------------------- runs

  /** `acts` can be taken one after the other from `s`. */
  predicate Valid(c: Config, s: State, acts: seq<Action>)
    decreases |acts|
  {
    acts == [] || (Enabled(c, s, acts[0]) && Valid(c, Apply(c, s, acts[0]), acts[1..]))
  }

  function After(c: Config, s: State, acts: seq<Action>): State
    requires Valid(c, s, acts)
    decreases |acts|
  {
    if acts == [] then s else After(c, Apply(c, s, acts[0]), acts[1..])
  }

  ghost predicate Leads(c: Config, s: State, acts: seq<Action>, t: State) {
    Valid(c, s, acts) && After(c, s, acts) == t
  }

  ghost predicate Reachable(c: Config, s: State) {
    exists start: int, acts: seq<Action> :: Leads(c, Initial(start), acts, s)
  }

  lemma {:induction false} RunsCompose(c: Config, s: State, first: seq<Action>, t: State, rest: seq<Action>, u: State)
    requires Leads(c, s, first, t) && Leads(c, t, rest, u)
    ensures Leads(c, s, first + rest, u)
    decreases |first|
  {
    hide Enabled, Apply;
    if first == [] {
      assert first + rest == rest;
    } else {
      RunsCompose(c, Apply(c, s, first[0]), first[1..], t, rest, u);
      assert (first + rest)[1..] == first[1..] + rest;
    }
  }

  lemma OneStep(c: Config, s: State, a: Action)
    requires Enabled(c, s, a)
    ensures Leads(c, s, [a], Apply(c, s, a))
  {
    assert [a][1..] == [];
  }

  lemma OneStepFurther(c: Config, s: State, a: Action)
    requires Reachable(c, s) && Enabled(c, s, a)
    ensures Reachable(c, Apply(c, s, a))
  {
    hide Enabled, Apply;
    var start: int, before :| Leads(c, Initial(start), before, s);
    OneStep(c, s, a);
    RunsCompose(c, Initial(start), before, s, [a], Apply(c, s, a));
  }

  lemma RunsGoOnReachable(c: Config, s: State, acts: seq<Action>, t: State)
    requires Reachable(c, s) && Leads(c, s, acts, t)
    ensures Reachable(c, t)
  {
    hide Valid, After;
    var start: int, before :| Leads(c, Initial(start), before, s);
    RunsCompose(c, Initial(start), before, s, acts, t);
  }
}
