/** Exact books under one scheduler. A restart or a failed tick may lose what the
    scheduler had in hand, but two schedulers never run side by side. */
module Accounting {
  import opened Types
  import opened Protocol
  import opened Columns
  import opened Fencing
  import opened Ledger

  predicate OneScheduler(s: State) {
    forall d, e | d in s.schedulers && e in s.schedulers :: d == e
  }

  lemma SchedulersOnlyGrow(c: Config, s: State, a: Action)
    requires Enabled(c, s, a)
    ensures s.schedulers.Keys <= Apply(c, s, a).schedulers.Keys
  {
  }

  lemma {:induction false} OneSchedulerAllAlong(c: Config, s: State, acts: seq<Action>)
    requires Valid(c, s, acts) && OneScheduler(After(c, s, acts))
    ensures OneScheduler(s)
    decreases |acts|
  {
    if acts != [] {
      var t := Apply(c, s, acts[0]);
      OneSchedulerAllAlong(c, t, acts[1..]);
      SchedulersOnlyGrow(c, s, acts[0]);
      assert forall d | d in s.schedulers :: d in t.schedulers;
    }
  }

  // ------------------------------------------------- the scheduler's memory

  /** What a tick remembers of the rows it has reset is still true of them. */
  predicate RemembersRightly(jobs: map<JobId, Entry>, p: Scheduler) {
    && (p.Recovering? || p.Burying? || p.Unlocking? || p.Telling? ==>
          forall j | j in p.rows ::
            && j in jobs && jobs[j].row.status == Pending
            && jobs[j].row.attempts == p.rows[j].attempts && jobs[j].row.maxAttempts == p.rows[j].maxAttempts)
    && (p.Burying? || p.Unlocking? || p.Telling? ==> p.job !in p.rows)
    && (p.Burying? ==>
          && p.job in jobs && jobs[p.job].row.status == Pending
          && jobs[p.job].row.attempts == p.attempts && p.attempts >= jobs[p.job].row.maxAttempts)
  }

  /** Reset at the cap, still to be dead-lettered by the tick in progress. */
  function AllMourned(s: State): set<JobId> {
    set d, j | d in s.schedulers && j in s.schedulers[d].Mourned() :: j
  }

  // ---------------------------------------------------------------- the books

  /** Status changes since the attempt in progress began. */
  function Phase(r: Job): nat {
    match r.status
    case Pending => 0
    case Queued => 1
    case Claimed => 2
    case Sent => 3
    case Failed => 0
    case DeadLettered => if r.error == Some(WorkerDied) then 1 else 0
  }

  predicate CapSound(e: Entry, mourned: bool) {
    e.row.maxAttempts >= 1 ==>
      if e.row.status == DeadLettered then
        e.row.maxAttempts <= e.row.attempts <= e.row.maxAttempts + e.h.interruptions
      else
        e.row.attempts <= e.row.maxAttempts - One(!mourned) + e.h.interruptions
  }

  predicate MourningSound(e: Entry, mourned: bool) {
    CapSound(e, mourned) && (mourned ==> e.row.status == Pending && e.row.attempts >= e.row.maxAttempts)
  }

  predicate BooksSound(e: Entry, mourned: bool) {
    && e.row.attempts == e.h.failures + e.h.reclaims
    && e.h.changes == 3 * e.row.attempts + 3 * e.h.deferrals + Phase(e.row)
    && MourningSound(e, mourned)
    && e.h.promotions == e.h.claims + One(e.row.status == Queued)
  }

  predicate AccountsSound(s: State) {
    && (forall d | d in s.schedulers :: RemembersRightly(s.jobs, s.schedulers[d]))
    && (forall j | j in s.jobs :: BooksSound(s.jobs[j], j in AllMourned(s)))
  }

  /** A worker's stale view is worth an atomic increment: what it writes is one
      more than what the row holds. */
  predicate CountsOnce(s: State, write: Write) {
    match write
    case RetryRow(j, attempt, _, _) =>
      j in s.jobs && s.jobs[j].row.status == Claimed
      && attempt == s.jobs[j].row.attempts + 1 && attempt < s.jobs[j].row.maxAttempts
    case BuryFailed(j, _, attempt, _) =>
      j in s.jobs && s.jobs[j].row.status == Claimed
      && attempt == s.jobs[j].row.attempts + 1 && attempt >= s.jobs[j].row.maxAttempts
    case _ => true
  }

  lemma FailuresCountOnce(c: Config, s: State, a: Action)
    requires HandsSound(c, s) && Enabled(c, s, a)
    ensures CountsOnce(s, WriteOf(c, s, a))
  {
    if a.Work? && s.workers[a.w].HasView() {
      FencesMatchTheClaim(c, s.now, s.jobs[s.workers[a.w].job], a.w, s.workers[a.w]);
    }
  }

  /** How a write moves the set of mourned jobs, from `before` to `after`. */
  predicate Mourns(s: State, write: Write, before: set<JobId>, after: set<JobId>) {
    match write
    case PromoteRows(_) => before == after == {}
    case ReclaimRows(stale) =>
      && before == {}
      && forall j | j in s.jobs ::
           j in after <==> j in stale && s.jobs[j].row.attempts + 1 >= s.jobs[j].row.maxAttempts
    case BuryReclaimed(j, _, attempt) =>
      && j in before && after == before - {j}
      && j in s.jobs && attempt == s.jobs[j].row.attempts
    case NoteInterruption(lost) => lost == before && after == {}
    case _ => before == after
  }

  lemma CapsWithout(rows: map<JobId, Reclaimed>, j: JobId)
    requires j in rows
    ensures AtCap(rows - {j}) == AtCap(rows) - {j}
    ensures j in AtCap(rows) <==> rows[j].attempts >= rows[j].maxAttempts
  {
  }

  lemma HandlingMourns(rows: map<JobId, Reclaimed>)
    ensures Handling(rows).Mourned() == AtCap(rows)
  {
  }

  lemma RecoveryMourns(c: Config, s: State, p: Scheduler)
    requires EntriesSound(s) && CanSchedule(c, s, p, Recover)
    ensures var step := SchedulerDoes(c, s, p, Recover);
            Mourns(s, step.write, p.Mourned(), step.next.Mourned())
  {
    HandlingMourns(RowsReset(c, s));
  }

  lemma RowsAreMournedInTurn(c: Config, s: State, p: Scheduler, op: SchedulerOp)
    requires EntriesSound(s) && CanSchedule(c, s, p, op) && RemembersRightly(s.jobs, p)
    requires op.Unlock? || op.Bury? || op.AnnounceBuried?
    ensures var step := SchedulerDoes(c, s, p, op);
            Mourns(s, step.write, p.Mourned(), step.next.Mourned())
  {
    if op.Unlock? {
      HandlingMourns(p.rows - {op.job});
      CapsWithout(p.rows, op.job);
    } else if op.Bury? {
      assert p.job !in AtCap(p.rows);
    } else {
      HandlingMourns(p.rows);
    }
  }

  lemma SchedulersMourn(c: Config, s: State, p: Scheduler, op: SchedulerOp)
    requires EntriesSound(s) && CanSchedule(c, s, p, op) && RemembersRightly(s.jobs, p)
    ensures var step := SchedulerDoes(c, s, p, op);
            Mourns(s, step.write, p.Mourned(), step.next.Mourned())
  {
    hide SchedulerDoes, Mourns, EntriesSound, RemembersRightly;
    if op.Recover? {
      RecoveryMourns(c, s, p);
    } else if op.Unlock? || op.Bury? || op.AnnounceBuried? {
      RowsAreMournedInTurn(c, s, p, op);
    } else {
      OtherPhasesMourn(c, s, p, op);
    }
  }

  lemma OtherPhasesMourn(c: Config, s: State, p: Scheduler, op: SchedulerOp)
    requires CanSchedule(c, s, p, op)
    requires op.Promote? || op.Enqueue? || op.ReleaseBuried? || op.Requeue? || op.AbortTick?
    ensures var step := SchedulerDoes(c, s, p, op);
            Mourns(s, step.write, p.Mourned(), step.next.Mourned())
  {
    hide DueIn, StaleIn, StrandedIn, IsPromotable, IsLimited, Tickets, Members, RowsReset;
    if op.ReleaseBuried? {
      assert SchedulerDoes(c, s, p, op).next.Mourned() == p.Mourned();
    }
  }

  lemma CountsStayExact(s: State, write: Write, j: JobId)
    requires Justified(s, write) && CountsOnce(s, write) && j in s.jobs
    requires write.BuryReclaimed? ==>
               s.jobs[write.job].row.status == Pending && write.attempt == s.jobs[write.job].row.attempts
    ensures var e, e' := s.jobs[j], EntryAfter(s.now, write, j, s.jobs[j]);
            && (e.row.attempts == e.h.failures + e.h.reclaims ==> e'.row.attempts == e'.h.failures + e'.h.reclaims)
            && (e.h.changes == 3 * e.row.attempts + 3 * e.h.deferrals + Phase(e.row)
                ==> e'.h.changes == 3 * e'.row.attempts + 3 * e'.h.deferrals + Phase(e'.row))
            && (e.h.promotions == e.h.claims + One(e.row.status == Queued)
                ==> e'.h.promotions == e'.h.claims + One(e'.row.status == Queued))
  {
  }

  lemma CapsStaySound(s: State, write: Write, j: JobId, before: set<JobId>, after: set<JobId>)
    requires Justified(s, write) && CountsOnce(s, write) && Mourns(s, write, before, after) && j in s.jobs
    requires MourningSound(s.jobs[j], j in before)
    ensures MourningSound(EntryAfter(s.now, write, j, s.jobs[j]), j in after)
  {
  }

  /** Nothing but a scheduler touches a pending row. */
  lemma PendingRowsWait(c: Config, s: State, a: Action, j: JobId)
    requires HandsSound(c, s) && Enabled(c, s, a) && !a.Schedule?
    requires j in s.jobs && s.jobs[j].row.status == Pending
    ensures EntryAfter(s.now, WriteOf(c, s, a), j, s.jobs[j]) == s.jobs[j]
  {
    WritesAreJustified(c, s, a);
    FailuresCountOnce(c, s, a);
    var write := WriteOf(c, s, a);
    assert write.PromoteRows? || write.ReclaimRows? || write.BuryReclaimed? || write.NoteInterruption? ==> a.Schedule?;
  }

  lemma RecoveryRemembers(c: Config, s: State)
    requires EntriesSound(s)
    ensures RemembersRightly(JobsAfter(s.now, ReclaimRows(StaleJobs(c, s)), s.jobs), Handling(RowsReset(c, s)))
  {
  }

  lemma SchedulersRemember(c: Config, s: State, d: SchedulerId, op: SchedulerOp)
    requires EntriesSound(s) && Enabled(c, s, Schedule(d, op)) && RemembersRightly(s.jobs, s.schedulers[d])
    ensures var step := SchedulerDoes(c, s, s.schedulers[d], op);
            RemembersRightly(JobsAfter(s.now, step.write, s.jobs), step.next)
  {
    hide EntriesSound, RemembersRightly, JobsAfter;
    if op.Recover? {
      RecoveryRemembers(c, s);
    } else if op.Bury? {
      BuriersRemember(c, s, d);
    } else if op.Unlock? || op.ReleaseBuried? || op.AnnounceBuried? {
      NoWriteKeepsRows(s.now, s.jobs);
      HandlersRemember(c, s, d, op);
    } else {
      NothingToRemember(JobsAfter(s.now, SchedulerDoes(c, s, s.schedulers[d], op).write, s.jobs),
                        SchedulerDoes(c, s, s.schedulers[d], op).next);
    }
  }

  lemma NothingToRemember(jobs: map<JobId, Entry>, p: Scheduler)
    requires !p.Recovering? && !p.Burying? && !p.Unlocking? && !p.Telling?
    ensures RemembersRightly(jobs, p)
  {
  }

  lemma NoWriteKeepsRows(now: int, jobs: map<JobId, Entry>)
    ensures JobsAfter(now, NoWrite, jobs) == jobs
  {
  }

  lemma BuriersRemember(c: Config, s: State, d: SchedulerId)
    requires Enabled(c, s, Schedule(d, Bury)) && RemembersRightly(s.jobs, s.schedulers[d])
    ensures var step := SchedulerDoes(c, s, s.schedulers[d], Bury);
            RemembersRightly(JobsAfter(s.now, step.write, s.jobs), step.next)
  {
    var p, step := s.schedulers[d], SchedulerDoes(c, s, s.schedulers[d], Bury);
    assert forall j | j in p.rows :: EntryAfter(s.now, step.write, j, s.jobs[j]) == s.jobs[j];
  }

  lemma HandlersRemember(c: Config, s: State, d: SchedulerId, op: SchedulerOp)
    requires Enabled(c, s, Schedule(d, op)) && RemembersRightly(s.jobs, s.schedulers[d])
    requires op.Unlock? || op.ReleaseBuried? || op.AnnounceBuried?
    ensures var step := SchedulerDoes(c, s, s.schedulers[d], op);
            step.write == NoWrite && RemembersRightly(s.jobs, step.next)
  {
    hide JobsAfter, EntryAfter;
  }

  lemma MemoriesStayRight(c: Config, s: State, a: Action, d: SchedulerId)
    requires Fenced(c, s) && AccountsSound(s) && Enabled(c, s, a) && OneScheduler(Apply(c, s, a))
    requires d in Apply(c, s, a).schedulers
    ensures RemembersRightly(Apply(c, s, a).jobs, Apply(c, s, a).schedulers[d])
  {
    var t := Apply(c, s, a);
    if a.Schedule? {
      assert a.d in t.schedulers;
      SchedulersRemember(c, s, d, a.sop);
    } else if d in s.schedulers {
      var p := t.schedulers[d];
      assert p == s.schedulers[d];
      forall j | j in s.jobs && s.jobs[j].row.status == Pending ensures j in t.jobs && t.jobs[j] == s.jobs[j] {
        PendingRowsWait(c, s, a, j);
        AppliedEntry(c, s, a, j);
      }
    }
  }

  lemma TheOneMourns(s: State, d: SchedulerId)
    requires OneScheduler(s) && d in s.schedulers
    ensures AllMourned(s) == s.schedulers[d].Mourned()
  {
  }

  lemma OthersMournAlike(c: Config, s: State, a: Action)
    requires Enabled(c, s, a) && !a.Schedule?
    ensures AllMourned(Apply(c, s, a)) == AllMourned(s)
    ensures !WriteOf(c, s, a).PromoteRows? && !WriteOf(c, s, a).ReclaimRows?
    ensures !WriteOf(c, s, a).BuryReclaimed? && !WriteOf(c, s, a).NoteInterruption?
  {
    var t := Apply(c, s, a);
    assert forall d | d in t.schedulers ::
        t.schedulers[d].AtPromote? || (d in s.schedulers && t.schedulers[d] == s.schedulers[d]);
    assert forall d | d in s.schedulers :: d in t.schedulers && t.schedulers[d] == s.schedulers[d];
  }

  lemma MourningMoves(c: Config, s: State, a: Action)
    requires EntriesSound(s) && AccountsSound(s) && Enabled(c, s, a) && OneScheduler(Apply(c, s, a))
    ensures Mourns(s, WriteOf(c, s, a), AllMourned(s), AllMourned(Apply(c, s, a)))
  {
    if a.Schedule? {
      SchedulersMourn(c, s, s.schedulers[a.d], a.sop);
      SchedulersOnlyGrow(c, s, a);
      assert forall d | d in s.schedulers :: d in Apply(c, s, a).schedulers;
      TheOneMourns(s, a.d);
      TheOneMourns(Apply(c, s, a), a.d);
    } else {
      OthersMournAlike(c, s, a);
    }
  }

  lemma BooksStaySound(c: Config, s: State, a: Action, j: JobId)
    requires Fenced(c, s) && AccountsSound(s) && Enabled(c, s, a) && OneScheduler(Apply(c, s, a)) && j in s.jobs
    ensures j in Apply(c, s, a).jobs
    ensures BooksSound(Apply(c, s, a).jobs[j], j in AllMourned(Apply(c, s, a)))
  {
    var write := WriteOf(c, s, a);
    var before, after := AllMourned(s), AllMourned(Apply(c, s, a));
    MourningMoves(c, s, a);
    WritesAreJustified(c, s, a);
    FailuresCountOnce(c, s, a);
    assert BooksSound(s.jobs[j], j in before);
    if write.BuryReclaimed? { assert BooksSound(s.jobs[write.job], write.job in before); }
    CountsStayExact(s, write, j);
    CapsStaySound(s, write, j, before, after);
    AppliedEntry(c, s, a, j);
  }

  lemma AccountsStaySound(c: Config, s: State, a: Action)
    requires Fenced(c, s) && AccountsSound(s) && Enabled(c, s, a)
    requires !Apply(c, s, a).foreignFetch && OneScheduler(Apply(c, s, a))
    ensures AccountsSound(Apply(c, s, a))
  {
    hide Sound, HandsSound, BooksSound, RemembersRightly, EntryAfter, DlqAfter, WorkerDoes, SchedulerDoes;
    var t := Apply(c, s, a);
    FencedStep(c, s, a);
    JobsOnlyGrow(c, s, a);
    WritesAreJustified(c, s, a);
    forall d | d in t.schedulers ensures RemembersRightly(t.jobs, t.schedulers[d]) {
      MemoriesStayRight(c, s, a, d);
    }
    forall j | j in t.jobs ensures BooksSound(t.jobs[j], j in AllMourned(t)) {
      if j in s.jobs {
        BooksStaySound(c, s, a, j);
      } else {
        NewJobsHaveCleanBooks(c, s, a, j);
      }
    }
  }

  lemma NewJobsHaveCleanBooks(c: Config, s: State, a: Action, j: JobId)
    requires Sound(s) && AccountsSound(s) && Enabled(c, s, a) && j in Apply(c, s, a).jobs && j !in s.jobs
    ensures BooksSound(Apply(c, s, a).jobs[j], j in AllMourned(Apply(c, s, a)))
  {
    var t := Apply(c, s, a);
    AddedJobsAreFresh(c, s, a, j);
    assert t.schedulers == s.schedulers;
    assert forall d | d in s.schedulers :: s.schedulers[d].Mourned() <= s.schedulers[d].Remembered() <= s.jobs.Keys;
  }

  lemma {:induction false} RunsKeepAccounts(c: Config, s: State, acts: seq<Action>)
    requires Fenced(c, s) && AccountsSound(s) && Valid(c, s, acts)
    requires !After(c, s, acts).foreignFetch && OneScheduler(After(c, s, acts))
    ensures AccountsSound(After(c, s, acts))
    decreases |acts|
  {
    if acts != [] {
      ForeignnessSticks(c, Apply(c, s, acts[0]), acts[1..]);
      OneSchedulerAllAlong(c, Apply(c, s, acts[0]), acts[1..]);
      FencedStep(c, s, acts[0]);
      AccountsStaySound(c, s, acts[0]);
      RunsKeepAccounts(c, Apply(c, s, acts[0]), acts[1..]);
    }
  }

  lemma AccountsHold(c: Config, s: State)
    requires Reachable(c, s) && !s.foreignFetch && OneScheduler(s)
    ensures Fenced(c, s) && AccountsSound(s)
  {
    FencedIsReached(c, s);
    var start: int, acts :| Leads(c, Initial(start), acts, s);
    RunsKeepAccounts(c, Initial(start), acts);
  }

  lemma AccountsAreSound(c: Config, s: State, j: JobId)
    requires Reachable(c, s) && !s.foreignFetch && OneScheduler(s) && j in s.jobs
    ensures BooksSound(s.jobs[j], j in AllMourned(s))
  {
    AccountsHold(c, s);
  }

  // ------------------------------------------------------ nobody reburies

  lemma BurialsAreExact(c: Config, s: State, a: Action)
    requires Fenced(c, s) && AccountsSound(s) && OneScheduler(s) && Enabled(c, s, a) && WriteOf(c, s, a).BuryReclaimed?
    ensures var write := WriteOf(c, s, a);
            && write.job in s.jobs && s.jobs[write.job].row.status == Pending
            && write.attempt == s.jobs[write.job].row.attempts
  {
    assert a.Schedule? && a.sop.Bury?;
  }

  lemma NoStepReburies(c: Config, s: State, a: Action, j: JobId)
    requires Fenced(c, s) && AccountsSound(s) && OneScheduler(s) && Enabled(c, s, a)
    ensures !Reburies(c, s, a, j)
  {
    hide HandsSound, BooksSound, RemembersRightly, Enabled, WriteOf;
    FailuresCountOnce(c, s, a);
    if WriteOf(c, s, a).BuryReclaimed? { BurialsAreExact(c, s, a); }
  }

  lemma {:induction false} RunsNeverRebury(c: Config, s: State, acts: seq<Action>, j: JobId)
    requires Fenced(c, s) && AccountsSound(s) && Valid(c, s, acts)
    requires !After(c, s, acts).foreignFetch && OneScheduler(After(c, s, acts))
    ensures NeverReburied(c, s, acts, j)
    decreases |acts|
  {
    hide Fenced, AccountsSound, Enabled, Apply, Reburies;
    if acts != [] {
      OneSchedulerAllAlong(c, s, acts);
      ForeignnessSticks(c, Apply(c, s, acts[0]), acts[1..]);
      OneSchedulerAllAlong(c, Apply(c, s, acts[0]), acts[1..]);
      NoStepReburies(c, s, acts[0], j);
      FencedStep(c, s, acts[0]);
      AccountsStaySound(c, s, acts[0]);
      RunsNeverRebury(c, Apply(c, s, acts[0]), acts[1..], j);
    }
  }

  // -------------------------------------- attempts under several schedulers

  /** Dead-lettered by recovery, which writes an attempt count it remembers. */
  predicate BuriedByRecovery(r: Job) {
    r.status == DeadLettered && r.error == Some(WorkerDied)
  }

  predicate AttemptsAddUp(s: State) {
    forall j | j in s.jobs && !BuriedByRecovery(s.jobs[j].row) ::
      s.jobs[j].row.attempts == s.jobs[j].h.failures + s.jobs[j].h.reclaims
  }

  lemma WritesAddUp(s: State, write: Write, j: JobId)
    requires Justified(s, write) && CountsOnce(s, write) && j in s.jobs
    requires !BuriedByRecovery(s.jobs[j].row) ==>
               s.jobs[j].row.attempts == s.jobs[j].h.failures + s.jobs[j].h.reclaims
    ensures var e := EntryAfter(s.now, write, j, s.jobs[j]);
            BuriedByRecovery(e.row) || e.row.attempts == e.h.failures + e.h.reclaims
  {
  }

  lemma AttemptsStillAddUp(c: Config, s: State, a: Action)
    requires Fenced(c, s) && AttemptsAddUp(s) && Enabled(c, s, a)
    ensures AttemptsAddUp(Apply(c, s, a))
  {
    hide Sound, HandsSound, Enabled, Apply, WriteOf, EntryAfter, CountsOnce, Justified;
    var t := Apply(c, s, a);
    FailuresCountOnce(c, s, a);
    WritesAreJustified(c, s, a);
    forall j | j in t.jobs && !BuriedByRecovery(t.jobs[j].row)
      ensures t.jobs[j].row.attempts == t.jobs[j].h.failures + t.jobs[j].h.reclaims
    {
      if j in s.jobs {
        AppliedEntry(c, s, a, j);
        WritesAddUp(s, WriteOf(c, s, a), j);
      } else {
        AddedJobsAreFresh(c, s, a, j);
      }
    }
  }

  lemma {:induction false} RunsAddUp(c: Config, s: State, acts: seq<Action>)
    requires Fenced(c, s) && AttemptsAddUp(s) && Valid(c, s, acts) && !After(c, s, acts).foreignFetch
    ensures AttemptsAddUp(After(c, s, acts))
    decreases |acts|
  {
    hide Fenced, AttemptsAddUp, Enabled, Apply;
    if acts != [] {
      ForeignnessSticks(c, Apply(c, s, acts[0]), acts[1..]);
      FencedStep(c, s, acts[0]);
      AttemptsStillAddUp(c, s, acts[0]);
      RunsAddUp(c, Apply(c, s, acts[0]), acts[1..]);
    }
  }

  // ------------------------------------------------------------ the theorems

  /** `attempt_count` counts each failure a worker reported and each reclaim
      exactly once since creation or replay, and no deferral, although
      `handle_failure` writes a value computed from an earlier read. Of a job that
      recovery has dead-lettered this asks for a single scheduler, of any other
      not. */
  lemma AttemptsAreFailuresPlusReclaims(c: Config, s: State, j: JobId)
    requires Reachable(c, s) && !s.foreignFetch && j in s.jobs
    requires OneScheduler(s) || !BuriedByRecovery(s.jobs[j].row)
    ensures s.jobs[j].row.attempts == s.jobs[j].h.failures + s.jobs[j].h.reclaims
  {
    hide Enabled, Apply;
    if OneScheduler(s) {
      AccountsAreSound(c, s, j);
    } else {
      var start: int, acts :| Leads(c, Initial(start), acts, s);
      RunsAddUp(c, Initial(start), acts);
    }
  }

  /** The cap holds up to the recovery ticks interrupted before they could bury
      the job; without interruption a dead-lettered job has spent exactly its
      attempts. */
  lemma AttemptsAreCapped(c: Config, s: State, j: JobId)
    requires Reachable(c, s) && !s.foreignFetch && OneScheduler(s) && j in s.jobs
    requires s.jobs[j].row.maxAttempts >= 1
    ensures var r, k := s.jobs[j].row, s.jobs[j].h.interruptions;
            && (r.status == DeadLettered ==> r.maxAttempts <= r.attempts <= r.maxAttempts + k)
            && (r.status != DeadLettered && j !in AllMourned(s) ==> r.attempts <= r.maxAttempts - 1 + k)
            && (j in AllMourned(s) ==> r.status == Pending && r.maxAttempts <= r.attempts <= r.maxAttempts + k)
            && (k == 0 && r.status == DeadLettered ==> r.attempts == r.maxAttempts)
  {
    AccountsAreSound(c, s, j);
  }

  /** Every dead-lettering left one row, and every replay one more: with own
      fetches and one scheduler no step buries a job twice. */
  lemma DlqIsConserved(c: Config, s: State, j: JobId)
    requires Reachable(c, s) && !s.foreignFetch && OneScheduler(s) && j in s.jobs
    ensures DlqRows(s.dlq, j) == s.jobs[j].h.replays + One(s.jobs[j].row.status == DeadLettered)
  {
    hide Enabled, Apply, DlqRows, NeverReburied, Reburials;
    var start: int, acts :| Leads(c, Initial(start), acts, s);
    RunsNeverRebury(c, Initial(start), acts, j);
    DeadLettersAreConservedIff(c, start, acts, s, j);
  }

  /** Each promotion is claimed once, or still waits to be. */
  lemma PromotionsAreClaimedOnce(c: Config, s: State, j: JobId)
    requires Reachable(c, s) && !s.foreignFetch && OneScheduler(s) && j in s.jobs
    ensures s.jobs[j].h.promotions == s.jobs[j].h.claims + One(s.jobs[j].row.status == Queued)
  {
    AccountsAreSound(c, s, j);
  }

  /** The number of status changes is settled by the attempts and the deferrals,
      and so bounded: a poison message reaches its end however workers crash and
      recovery is interrupted. */
  lemma StatusChangesAreBounded(c: Config, s: State, j: JobId)
    requires Reachable(c, s) && !s.foreignFetch && OneScheduler(s) && j in s.jobs
    ensures var e := s.jobs[j];
            var most := 3 * (e.row.maxAttempts + e.h.interruptions) + 1 + 3 * e.h.deferrals;
            && e.h.changes == 3 * e.row.attempts + 3 * e.h.deferrals + Phase(e.row)
            && (e.row.maxAttempts >= 1 ==>
                  e.h.changes <= most && (e.h.changes == most ==> e.row.status == DeadLettered))
  {
    AccountsAreSound(c, s, j);
  }

  function Rank(status: Status): nat {
    match status
    case Pending => 3
    case Queued => 2
    case Claimed => 1
    case _ => 0
  }

  predicate Progresses(r: Job, q: Job) {
    q.status != r.status ==>
      q.attempts > r.attempts || (q.attempts == r.attempts && Rank(q.status) < Rank(r.status))
  }

  lemma DetoursAreNamed(c: Config, s: State, a: Action, j: JobId)
    requires Enabled(c, s, a)
    ensures WriteOf(c, s, a).DeferRow? ==> a.Work? && a.op.Defer?
    ensures WriteOf(c, s, a) == ReplayRow(j) ==> a == Api(Replay(j))
  {
  }

  lemma WritesMakeProgress(s: State, write: Write, j: JobId)
    requires Justified(s, write) && CountsOnce(s, write) && j in s.jobs
    requires write.BuryReclaimed? ==>
               s.jobs[write.job].row.status == Pending && write.attempt == s.jobs[write.job].row.attempts
    requires !write.DeferRow? && write != ReplayRow(j)
    ensures Progresses(s.jobs[j].row, EntryAfter(s.now, write, j, s.jobs[j]).row)
  {
  }

  /** Each status change but a deferral or a replay brings the job nearer its
      end: attempts left first, then the way through the attempt. */
  lemma StatusChangesMakeProgress(c: Config, s: State, a: Action, j: JobId)
    requires Reachable(c, s) && !s.foreignFetch && OneScheduler(s) && Enabled(c, s, a) && j in s.jobs
    requires !(a.Work? && a.op.Defer?) && a != Api(Replay(j))
    ensures j in Apply(c, s, a).jobs && Progresses(s.jobs[j].row, Apply(c, s, a).jobs[j].row)
  {
    var write := WriteOf(c, s, a);
    AccountsHold(c, s);
    AppliedEntry(c, s, a, j);
    WritesAreJustified(c, s, a);
    FailuresCountOnce(c, s, a);
    if write.BuryReclaimed? { BurialsAreExact(c, s, a); }
    DetoursAreNamed(c, s, a, j);
    WritesMakeProgress(s, write, j);
  }
}
