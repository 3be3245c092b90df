/** What every reachable state satisfies, whatever fails, however late a worker
    fetches, however many schedulers run and whatever happens to Redis. */
module Columns {
  import opened Types
  import opened Statements
  import opened Windows
  import opened Protocol

  function DlqRows(dlq: seq<DeadLetter>, j: JobId): nat {
    if dlq == [] then 0
    else DlqRows(dlq[..|dlq| - 1], j) + (if dlq[|dlq| - 1].job == j then 1 else 0)
  }

  lemma DlqRowsAfter(dlq: seq<DeadLetter>, r: DeadLetter, j: JobId)
    ensures DlqRows(dlq + [r], j) == DlqRows(dlq, j) + (if r.job == j then 1 else 0)
  {
    assert (dlq + [r])[..|dlq|] == dlq;
  }

  lemma {:induction false} DlqRowsOnlyGrow(dlq: seq<DeadLetter>, more: seq<DeadLetter>, j: JobId)
    requires dlq <= more
    ensures DlqRows(dlq, j) <= DlqRows(more, j)
    decreases |more|
  {
    if |dlq| < |more| {
      DlqRowsOnlyGrow(dlq, more[..|more| - 1], j);
    } else {
      assert dlq == more;
    }
  }

  function One(b: bool): nat { if b then 1 else 0 }

  /** The columns agree with the status. */
  predicate RowSound(now: int, r: Job) {
    && r.status != Failed
    && (r.status == Claimed ==>
          && r.workerId.Some? && r.claimedAt.Some? && r.heartbeatAt.Some?
          && r.claimedAt.value <= r.heartbeatAt.value <= now)
    && (r.status in {Pending, Queued, DeadLettered} ==>
          r.workerId.None? && r.claimedAt.None? && r.heartbeatAt.None?)
    && (r.status == Sent ==> r.workerId.Some?)
    && (r.failedAt.Some? <==> r.status == DeadLettered)
    && r.updatedAt <= now
  }

  /** No claim without a promotion before it; no dead-lettering without its row. */
  predicate CountsSound(e: Entry, dlqRows: nat) {
    && e.h.claims + One(e.row.status == Queued) <= e.h.promotions
    && dlqRows >= e.h.replays + One(e.row.status == DeadLettered)
  }

  predicate EntrySound(now: int, dlq: seq<DeadLetter>, j: JobId, e: Entry) {
    RowSound(now, e.row) && CountsSound(e, DlqRows(dlq, j))
  }

  predicate WorkerSound(now: int, jobs: set<JobId>, p: Worker) {
    && (p.InHand() ==> p.job in jobs)
    && (p.Undecided() ==> p.since <= now)
    && (p.Overshot? || p.Refused? ==> p.checkedAt <= p.since)
    && (p.Refused? ==> p.retryAfter == SecondsUntilNextWindow(p.checkedAt))
  }

  predicate SchedulerSound(jobs: set<JobId>, p: Scheduler) {
    p.Remembered() <= jobs && (p.Recovering? ==> p.rows != map[])
  }

  predicate ProcessesSound(s: State) {
    && (forall w | w in s.workers :: WorkerSound(s.now, s.jobs.Keys, s.workers[w]))
    && (forall d | d in s.schedulers :: SchedulerSound(s.jobs.Keys, s.schedulers[d]))
    && (forall key | key in s.counters :: key.hour <= HourOf(s.now))
  }

  predicate EntriesSound(s: State) {
    forall j | j in s.jobs :: EntrySound(s.now, s.dlq, j, s.jobs[j])
  }

  predicate Sound(s: State) {
    ProcessesSound(s) && EntriesSound(s)
  }

  // ------------------------------------------------------------- the writes

  /** What the WHERE clauses guarantee of the rows written. */
  predicate Justified(s: State, write: Write) {
    match write
    case PromoteRows(batch) => forall j | j in batch :: j in s.jobs && s.jobs[j].row.status == Pending
    case ClaimRow(j, _) => j in s.jobs && s.jobs[j].row.status == Queued
    case BeatRow(j) => j in s.jobs && s.jobs[j].row.status == Claimed
    case SendRow(j) => j in s.jobs && s.jobs[j].row.status == Claimed
    case RetryRow(j, _, _, _) => j in s.jobs && s.jobs[j].row.status == Claimed
    case DeferRow(j, _) => j in s.jobs && s.jobs[j].row.status == Claimed
    case BuryFailed(j, _, _, _) => j in s.jobs
    case BuryReclaimed(j, _, _) => j in s.jobs
    case ReclaimRows(stale) => forall j | j in stale :: j in s.jobs && s.jobs[j].row.status == Claimed
    case ReplayRow(j) => j in s.jobs && s.jobs[j].row.status == DeadLettered
    case Insert(j, row, _) => j !in s.jobs && RowSound(s.now, row) && row.status == Pending
    case _ => true
  }

  lemma WritesAreJustified(c: Config, s: State, a: Action)
    requires Enabled(c, s, a)
    ensures Justified(s, WriteOf(c, s, a))
  {
  }

  lemma RowStaysSound(s: State, write: Write, j: JobId, e: Entry)
    requires Justified(s, write) && (j in s.jobs ==> e == s.jobs[j]) && (write.Insert? ==> j != write.id)
    requires RowSound(s.now, e.row)
    ensures RowSound(s.now, EntryAfter(s.now, write, j, e).row)
  {
  }

  lemma CountsStaySound(s: State, write: Write, j: JobId, e: Entry)
    requires Justified(s, write) && (j in s.jobs ==> e == s.jobs[j]) && (write.Insert? ==> j != write.id)
    requires CountsSound(e, DlqRows(s.dlq, j))
    ensures CountsSound(EntryAfter(s.now, write, j, e), DlqRows(DlqAfter(write, s.dlq), j))
  {
    hide RowSound, DlqRows;
    if write.BuryFailed? {
      DlqRowsAfter(s.dlq, DeadLetter(write.job, write.recipient, write.attempt, DeliveryFailed), j);
    } else if write.BuryReclaimed? {
      DlqRowsAfter(s.dlq, DeadLetter(write.job, write.recipient, write.attempt, WorkerDied), j);
    }
  }

  lemma EntryStaysSound(s: State, write: Write, j: JobId, e: Entry)
    requires Justified(s, write) && (j in s.jobs ==> e == s.jobs[j]) && (write.Insert? ==> j != write.id)
    requires EntrySound(s.now, s.dlq, j, e)
    ensures EntrySound(s.now, DlqAfter(write, s.dlq), j, EntryAfter(s.now, write, j, e))
  {
    hide Justified, RowSound, CountsSound, EntryAfter;
    RowStaysSound(s, write, j, e);
    CountsStaySound(s, write, j, e);
  }

  lemma AppliedEntry(c: Config, s: State, a: Action, j: JobId)
    requires Enabled(c, s, a) && j in s.jobs
    ensures j in Apply(c, s, a).jobs
    ensures Apply(c, s, a).jobs[j] == EntryAfter(s.now, WriteOf(c, s, a), j, s.jobs[j])
  {
  }

  lemma EntriesStaySound(c: Config, s: State, a: Action)
    requires EntriesSound(s) && Enabled(c, s, a)
    ensures EntriesSound(Apply(c, s, a))
  {
    var write, t := WriteOf(c, s, a), Apply(c, s, a);
    WritesAreJustified(c, s, a);
    forall j | j in t.jobs ensures EntrySound(t.now, t.dlq, j, t.jobs[j]) {
      if j in s.jobs {
        EntryStaysSound(s, write, j, s.jobs[j]);
      }
    }
  }

  lemma WorkerStaysSound(c: Config, s: State, w: WorkerId, op: WorkerOp)
    requires ProcessesSound(s) && Enabled(c, s, Work(w, op))
    ensures WorkerSound(s.now, s.jobs.Keys, WorkerDoes(c, s, w, s.workers[w], op).next)
  {
  }

  lemma SchedulerStaysSound(c: Config, s: State, d: SchedulerId, op: SchedulerOp)
    requires ProcessesSound(s) && Enabled(c, s, Schedule(d, op))
    ensures SchedulerSound(s.jobs.Keys, SchedulerDoes(c, s, s.schedulers[d], op).next)
  {
  }

  lemma CountersStayInThePast(c: Config, s: State, a: Action, key: Window)
    requires ProcessesSound(s) && Enabled(c, s, a) && key in CountersAfter(s.now, CommandOf(c, s, a), s.counters)
    ensures key.hour <= HourOf(s.now)
  {
  }

  lemma JobsOnlyGrow(c: Config, s: State, a: Action)
    requires Enabled(c, s, a)
    ensures s.jobs.Keys <= Apply(c, s, a).jobs.Keys && s.now <= Apply(c, s, a).now
  {
  }

  lemma ProcessesStaySound(c: Config, s: State, a: Action)
    requires ProcessesSound(s) && Enabled(c, s, a)
    ensures ProcessesSound(Apply(c, s, a))
  {
    var t := Apply(c, s, a);
    JobsOnlyGrow(c, s, a);
    if a.Work? { WorkerStaysSound(c, s, a.w, a.op); }
    if a.Schedule? { SchedulerStaysSound(c, s, a.d, a.sop); }
    forall key | key in t.counters ensures key.hour <= HourOf(t.now) {
      CountersStayInThePast(c, s, a, key);
    }
  }

  /** A job that was not there before has just been submitted. */
  lemma AddedJobsAreFresh(c: Config, s: State, a: Action, j: JobId)
    requires Enabled(c, s, a) && j in Apply(c, s, a).jobs && j !in s.jobs
    ensures a.Api? && a.aop.Submit? && a.aop.id == j && WriteOf(c, s, a).Insert?
    ensures Apply(c, s, a).jobs[j]
            == Entry(InsertJob(c, s.now, a.aop.recipient, a.aop.sendAt, a.aop.priority), FRESH)
  {
    assert WriteOf(c, s, a).Insert?;
  }

  // --------------------------------------------------------------- the runs

  lemma {:induction false} RunsStaySound(c: Config, s: State, acts: seq<Action>)
    requires Sound(s) && Valid(c, s, acts)
    ensures Sound(After(c, s, acts))
    decreases |acts|
  {
    if acts != [] {
      EntriesStaySound(c, s, acts[0]);
      ProcessesStaySound(c, s, acts[0]);
      RunsStaySound(c, Apply(c, s, acts[0]), acts[1..]);
    }
  }

  /** The columns agree with the status, a claim never outnumbers promotions and
      a dead-lettered job has its row, in every state any run can reach. */
  lemma ReachableIsSound(c: Config, s: State)
    requires Reachable(c, s)
    ensures Sound(s)
  {
    var start: int, acts :| Leads(c, Initial(start), acts, s);
    RunsStaySound(c, Initial(start), acts);
  }

  /** Who a job is for, how urgent it is and how often it may be attempted never
      changes, in any run. */
  lemma {:induction false} JobsKeepTheirTerms(c: Config, s: State, acts: seq<Action>, j: JobId)
    requires Valid(c, s, acts) && j in s.jobs
    ensures j in After(c, s, acts).jobs
    ensures var r, q := s.jobs[j].row, After(c, s, acts).jobs[j].row;
            q.recipient == r.recipient && q.priority == r.priority && q.maxAttempts == r.maxAttempts
    decreases |acts|
  {
    hide Enabled, Apply, EntryAfter;
    if acts != [] {
      AppliedEntry(c, s, acts[0], j);
      WritesKeepTerms(s.now, WriteOf(c, s, acts[0]), j, s.jobs[j]);
      JobsKeepTheirTerms(c, Apply(c, s, acts[0]), acts[1..], j);
    }
  }

  lemma WritesKeepTerms(now: int, write: Write, j: JobId, e: Entry)
    ensures var f := EntryAfter(now, write, j, e);
            && f.row.recipient == e.row.recipient && f.row.priority == e.row.priority
            && f.row.maxAttempts == e.row.maxAttempts
  {
  }
}
