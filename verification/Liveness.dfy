/** No job is ever stranded: whatever has happened, one live worker and one live
    scheduler can bring any job to its end by taking their ordinary steps and
    letting time pass. */
module Liveness {
  import opened Types
  import opened Statements
  import opened Windows
  import opened Scores
  import opened Protocol
  import opened Steps
  import opened Columns
  import opened Batches

  predicate IsDone(s: State, j: JobId)
    requires j in s.jobs
  {
    s.jobs[j].row.status in {Sent, DeadLettered}
  }

  /** A step of worker `w` or scheduler `d` that is neither a failure nor a lucky
      skip of locked rows, or time passing. */
  predicate Ordinary(w: WorkerId, d: SchedulerId, a: Action) {
    || (a.Work? && a.w == w && !a.op.Abort? && !a.op.Crash?)
    || (a.Schedule? && a.d == d && !a.sop.AbortTick? && (a.sop.Promote? ==> a.sop.skipped == {}))
    || a.Tick?
  }

  ghost predicate Path(c: Config, w: WorkerId, d: SchedulerId, s: State, acts: seq<Action>, t: State) {
    && Leads(c, s, acts, t)
    && Sound(s) && Sound(t) && s.jobs.Keys <= t.jobs.Keys
    && forall i | 0 <= i < |acts| :: Ordinary(w, d, acts[i])
  }

  /** A path on which every delivery fails. */
  ghost predicate HardPath(c: Config, w: WorkerId, d: SchedulerId, s: State, acts: seq<Action>, t: State) {
    Path(c, w, d, s, acts, t) && forall i | 0 <= i < |acts| :: IsHard(acts[i])
  }

  predicate IsHard(a: Action) {
    !(a.Work? && a.op.Succeed?)
  }

  lemma PathsGoOn(
      c: Config, w: WorkerId, d: SchedulerId, s: State, first: seq<Action>, t: State, rest: seq<Action>, u: State)
    requires HardPath(c, w, d, s, first, t) && Path(c, w, d, t, rest, u)
    ensures Path(c, w, d, s, first + rest, u)
  {
    RunsCompose(c, s, first, t, rest, u);
  }

  lemma NoPath(c: Config, w: WorkerId, d: SchedulerId, s: State)
    requires Sound(s)
    ensures HardPath(c, w, d, s, [], s)
  {
  }

  lemma PathsJoin(
      c: Config, w: WorkerId, d: SchedulerId, s: State, first: seq<Action>, t: State, rest: seq<Action>, u: State)
    requires HardPath(c, w, d, s, first, t) && HardPath(c, w, d, t, rest, u)
    ensures HardPath(c, w, d, s, first + rest, u)
  {
    RunsCompose(c, s, first, t, rest, u);
  }

  lemma PathOfOne(c: Config, w: WorkerId, d: SchedulerId, s: State, a: Action)
    requires Sound(s) && Enabled(c, s, a) && Ordinary(w, d, a)
    ensures Path(c, w, d, s, [a], Apply(c, s, a))
    ensures IsHard(a) ==> HardPath(c, w, d, s, [a], Apply(c, s, a))
  {
    OneStep(c, s, a);
    EntriesStaySound(c, s, a);
    ProcessesStaySound(c, s, a);
    JobsOnlyGrow(c, s, a);
  }

  // ------------------------------------------------------------ the worker

  /** Steps until the worker scans again. */
  function WorkLeft(p: Worker): nat {
    match p
    case Scanning(_) => 0
    case Crashed => 0
    case Rejected(_, _) => 1
    case Finishing(_, _) => 1
    case Announcing(_, _, _) => 2
    case Releasing(_, _, _) => 3
    case Allowed(_, _, _, _) => 4
    case Refused(_, _, _, _, _, _) => 4
    case Overshot(_, _, _, _, _) => 5
    case Fetched(_, _, _, _) => 6
    case Holding(_, _, _) => 7
    case Locked(_, _) => 8
    case Popped(_, _) => 9
  }

  /** What an undisturbed worker does next; its deliveries fail. */
  function NextOp(now: int, p: Worker): WorkerOp {
    match p
    case Popped(_, _) => Lock
    case Locked(_, _) => Claim
    case Rejected(_, _) => DropLock
    case Holding(_, _, _) => Fetch
    case Fetched(_, _, _, _) => Check(now)
    case Overshot(_, _, _, _, _) => Undo
    case Refused(_, _, _, _, _, _) => Defer(now)
    case Allowed(_, _, _, _) => Fail(now)
    case Releasing(_, _, _) => Release
    case Announcing(_, _, _) => Announce
    case Finishing(_, _) => Finish
    case _ => Crash
  }

  /** Everything about job `i` that another job's handling leaves alone. */
  predicate Untouched(s: State, t: State, i: JobId) {
    && (i in s.jobs <==> i in t.jobs)
    && (i in s.jobs ==> t.jobs[i] == s.jobs[i])
    && (LockIsFree(s, i) ==> LockIsFree(t, i))
  }

  lemma WorkerProceeds(c: Config, s: State, w: WorkerId)
    requires Sound(s) && w in s.workers && WorkLeft(s.workers[w]) > 0
    ensures var p := s.workers[w];
            var op := NextOp(s.now, p);
            && !op.Abort? && !op.Crash? && !op.Succeed? && Enabled(c, s, Work(w, op))
            && var next := WorkerDoes(c, s, w, p, op).next;
               WorkLeft(next) < WorkLeft(p) && !next.Crashed? && (WorkLeft(next) > 0 ==> next.job == p.job)
  {
  }

  lemma WorkerAsksAboutItsJob(c: Config, s: State, w: WorkerId)
    requires w in s.workers && WorkLeft(s.workers[w]) > 0 && Enabled(c, s, Work(w, NextOp(s.now, s.workers[w])))
    ensures var p := s.workers[w];
            var step := WorkerDoes(c, s, w, p, NextOp(s.now, p));
            && !step.write.Insert?
            && (forall i, e | i != p.job :: EntryAfter(s.now, step.write, i, e) == e)
            && (step.command.SetLock? || step.command.DeleteLock? ==> step.command.job == p.job)
            && !step.command.Take? && !step.command.Add? && !step.command.Overwrite?
  {
  }

  lemma WorkerTouchesOnlyItsJob(c: Config, s: State, w: WorkerId)
    requires w in s.workers && WorkLeft(s.workers[w]) > 0 && Enabled(c, s, Work(w, NextOp(s.now, s.workers[w])))
    ensures var t := Apply(c, s, Work(w, NextOp(s.now, s.workers[w])));
            && t.queue == s.queue && t.schedulers == s.schedulers && t.now == s.now
            && (WorkLeft(s.workers[w]) <= 3 ==> t.jobs == s.jobs)
            && forall i | i != s.workers[w].job :: Untouched(s, t, i)
  {
    WorkerAsksAboutItsJob(c, s, w);
  }

  /** Whatever it is doing, the worker comes back to scanning, having touched no
      job but the one it had in hand. */
  lemma WorkerSettles(c: Config, s: State, w: WorkerId, d: SchedulerId) returns (acts: seq<Action>, t: State)
    requires Sound(s) && w in s.workers && !s.workers[w].Crashed?
    ensures HardPath(c, w, d, s, acts, t)
    ensures w in t.workers && t.workers[w].Scanning?
    ensures t.queue == s.queue && t.schedulers == s.schedulers
    ensures forall i | WorkLeft(s.workers[w]) == 0 || i != s.workers[w].job :: Untouched(s, t, i)
    ensures WorkLeft(s.workers[w]) <= 3 ==> t.jobs == s.jobs
    decreases WorkLeft(s.workers[w])
  {
    if WorkLeft(s.workers[w]) == 0 {
      NoPath(c, w, d, s);
      acts, t := [], s;
    } else {
      var a := Work(w, NextOp(s.now, s.workers[w]));
      WorkerProceeds(c, s, w);
      WorkerTouchesOnlyItsJob(c, s, w);
      PathOfOne(c, w, d, s, a);
      var u := Apply(c, s, a);
      var rest;
      rest, t := WorkerSettles(c, u, w, d);
      PathsJoin(c, w, d, s, [a], u, rest, t);
      acts := [a] + rest;
      forall i | i != s.workers[w].job ensures Untouched(s, t, i) {
        assert Untouched(s, u, i) && Untouched(u, t, i);
      }
    }
  }

  // --------------------------------------------------------- the scheduler

  /** Steps until the tick reaches its requeue sweep. */
  function TickLeft(p: Scheduler, jobs: nat): nat {
    match p
    case AtRequeue => 0
    case Recovering(rows) => 4 * |rows|
    case Telling(_, rows) => 4 * |rows| + 1
    case Unlocking(_, rows) => 4 * |rows| + 2
    case Burying(_, _, rows) => 4 * |rows| + 3
    case AtRecover => 4 * jobs + 1
    case Promoted(_) => 4 * jobs + 2
    case AtPromote => 4 * jobs + 3
    case Requeueing(_) => 4 * jobs + 4
  }

  /** Where a job may be found after a scheduler's steps. */
  predicate Later(r: Job, q: Job) {
    match r.status
    case Pending => q == r || q.status in {Queued, DeadLettered}
    case Queued => q == r || q.status == DeadLettered
    case Claimed => q == r || q.status in {Pending, Queued, DeadLettered}
    case DeadLettered => q.status == DeadLettered
    case _ => q == r
  }

  ghost predicate Scheduled(s: State, t: State) {
    && t.now == s.now && t.workers == s.workers && t.counters == s.counters && t.jobs.Keys == s.jobs.Keys
    && (forall slot | slot in s.queue :: slot in t.queue)
    && (forall i | LockIsFree(s, i) :: LockIsFree(t, i))
    && (forall j | j in s.jobs :: Later(s.jobs[j].row, t.jobs[j].row))
  }

  /** The writes a tick consists of. */
  predicate IsTicks(s: State, write: Write) {
    || write.NoWrite? || write.PromoteRows? || write.ReclaimRows?
    || (write.BuryReclaimed? && write.job in s.jobs && s.jobs[write.job].row.workerId.None?)
  }

  lemma TicksMoveJobsOn(s: State, write: Write, j: JobId)
    requires EntriesSound(s) && Justified(s, write) && IsTicks(s, write) && j in s.jobs
    ensures Later(s.jobs[j].row, EntryAfter(s.now, write, j, s.jobs[j]).row)
  {
  }

  lemma SchedulersAsk(c: Config, s: State, d: SchedulerId, op: SchedulerOp)
    requires Enabled(c, s, Schedule(d, op)) && !op.AbortTick?
    ensures var step := SchedulerDoes(c, s, s.schedulers[d], op);
            IsTicks(s, step.write) && (step.command.NoCommand? || step.command.Add? || step.command.DeleteLock?)
  {
  }

  lemma SchedulersOnlyEnqueue(c: Config, s: State, d: SchedulerId, op: SchedulerOp)
    requires Enabled(c, s, Schedule(d, op)) && !op.AbortTick?
    ensures var t := Apply(c, s, Schedule(d, op));
            && (forall slot | slot in s.queue :: slot in t.queue)
            && (forall i | LockIsFree(s, i) :: LockIsFree(t, i))
            && t.now == s.now && t.workers == s.workers && t.counters == s.counters && t.jobs.Keys == s.jobs.Keys
  {
    SchedulersAsk(c, s, d, op);
  }

  lemma SchedulersMoveJobsOn(c: Config, s: State, d: SchedulerId, op: SchedulerOp)
    requires EntriesSound(s) && Enabled(c, s, Schedule(d, op)) && !op.AbortTick?
    ensures Scheduled(s, Apply(c, s, Schedule(d, op)))
  {
    var a := Schedule(d, op);
    SchedulersOnlyEnqueue(c, s, d, op);
    WritesAreJustified(c, s, a);
    SchedulersAsk(c, s, d, op);
    forall j | j in s.jobs ensures Later(s.jobs[j].row, Apply(c, s, a).jobs[j].row) {
      TicksMoveJobsOn(s, WriteOf(c, s, a), j);
      AppliedEntry(c, s, a, j);
    }
  }

  lemma ScheduledTwice(s: State, t: State, u: State)
    requires Scheduled(s, t) && Scheduled(t, u)
    ensures Scheduled(s, u)
  {
    forall j | j in s.jobs ensures Later(s.jobs[j].row, u.jobs[j].row) {
      assert Later(s.jobs[j].row, t.jobs[j].row) && Later(t.jobs[j].row, u.jobs[j].row);
    }
  }

  lemma SmallerSets(a: set<JobId>, b: set<JobId>)
    requires a <= b
    ensures |a| <= |b|
  {
    assert |b - a| == |b| - |a|;
  }

  lemma RowsShrink(rows: map<JobId, Reclaimed>, j: JobId)
    requires j in rows
    ensures |rows - {j}| == |rows| - 1
  {
    assert (rows - {j}).Keys == rows.Keys - {j};
  }

  lemma HandlingIsShort(rows: map<JobId, Reclaimed>, jobs: nat)
    ensures TickLeft(Handling(rows), jobs) <= 4 * |rows|
  {
  }

  lemma RecoveryProceeds(c: Config, s: State, p: Scheduler)
    requires p.AtRecover?
    ensures TickLeft(SchedulerDoes(c, s, p, Recover).next, |s.jobs.Keys|) < TickLeft(p, |s.jobs.Keys|)
  {
    var rows := map j | j in StaleJobs(c, s) :: Reclaimed(s.jobs[j].row.attempts + 1, s.jobs[j].row.maxAttempts);
    assert SchedulerDoes(c, s, p, Recover).next == Handling(rows);
    HandlingIsShort(rows, |s.jobs.Keys|);
    assert rows.Keys == StaleJobs(c, s);
    assert |rows| == |rows.Keys|;
    SmallerSets(StaleJobs(c, s), s.jobs.Keys);
  }

  lemma UnlockProceeds(c: Config, s: State, p: Scheduler, j: JobId)
    requires p.Recovering? && j in p.rows
    ensures TickLeft(SchedulerDoes(c, s, p, Unlock(j)).next, |s.jobs.Keys|) < TickLeft(p, |s.jobs.Keys|)
  {
    RowsShrink(p.rows, j);
    HandlingIsShort(p.rows - {j}, |s.jobs.Keys|);
  }

  /** What an undisturbed scheduler does next; any order of the reset rows and any
      choice among tied batches will do. */
  lemma SchedulerProceeds(c: Config, s: State, p: Scheduler) returns (op: SchedulerOp)
    requires SchedulerSound(s.jobs.Keys, p) && !p.AtRequeue?
    ensures CanSchedule(c, s, p, op) && !op.AbortTick? && !op.Requeue? && (op.Promote? ==> op.skipped == {})
    ensures p.AtRecover? ==> op.Recover?
    ensures TickLeft(SchedulerDoes(c, s, p, op).next, |s.jobs.Keys|) < TickLeft(p, |s.jobs.Keys|)
  {
    if p.AtPromote? {
      var batch := PromotableBatch(c.batchSize, s.jobs, DueJobs(c, s, {}));
      op := Promote({}, batch);
    } else if p.AtRecover? {
      op := Recover;
      RecoveryProceeds(c, s, p);
    } else if p.Recovering? {
      var j :| j in p.rows;
      op := Unlock(j);
      UnlockProceeds(c, s, p, j);
    } else if p.Promoted? || p.Requeueing? {
      op := Enqueue;
    } else {
      op := BurialProceeds(c, s, p);
    }
  }

  lemma BurialProceeds(c: Config, s: State, p: Scheduler) returns (op: SchedulerOp)
    requires SchedulerSound(s.jobs.Keys, p) && (p.Burying? || p.Unlocking? || p.Telling?)
    ensures CanSchedule(c, s, p, op) && (op.Bury? || op.ReleaseBuried? || op.AnnounceBuried?)
    ensures TickLeft(SchedulerDoes(c, s, p, op).next, |s.jobs.Keys|) < TickLeft(p, |s.jobs.Keys|)
  {
    HandlingIsShort(p.rows, |s.jobs.Keys|);
    op := if p.Burying? then Bury else if p.Unlocking? then ReleaseBuried else AnnounceBuried;
  }

  /** Before this tick's recovery. */
  predicate IsEarly(p: Scheduler) {
    p.Requeueing? || p.AtPromote? || p.Promoted? || p.AtRecover?
  }

  lemma EarlyUntilRecovery(c: Config, s: State, p: Scheduler, op: SchedulerOp)
    requires CanSchedule(c, s, p, op) && IsEarly(p) && !p.AtRecover? && !op.AbortTick?
    ensures IsEarly(SchedulerDoes(c, s, p, op).next)
  {
  }

  lemma SilentJobsAreReset(c: Config, s: State, d: SchedulerId, j: JobId)
    requires Enabled(c, s, Schedule(d, Recover)) && j in s.jobs && Stale(c, s.now, s.jobs[j].row)
    ensures j in Apply(c, s, Schedule(d, Recover)).jobs
    ensures Apply(c, s, Schedule(d, Recover)).jobs[j].row.status == Pending
  {
    AppliedEntry(c, s, Schedule(d, Recover), j);
  }

  lemma TickProceeds(c: Config, s: State, w: WorkerId, d: SchedulerId, j: JobId) returns (acts: seq<Action>, u: State)
    requires Sound(s) && d in s.schedulers && !s.schedulers[d].AtRequeue? && j in s.jobs
    ensures HardPath(c, w, d, s, acts, u) && Scheduled(s, u) && d in u.schedulers && j in u.jobs
    ensures TickLeft(u.schedulers[d], |u.jobs.Keys|) < TickLeft(s.schedulers[d], |s.jobs.Keys|)
    ensures Later(s.jobs[j].row, u.jobs[j].row)
    ensures IsEarly(s.schedulers[d]) && Stale(c, s.now, s.jobs[j].row) ==>
              u.jobs[j].row.status != Claimed || (IsEarly(u.schedulers[d]) && Stale(c, u.now, u.jobs[j].row))
  {
    var p := s.schedulers[d];
    var op := SchedulerProceeds(c, s, p);
    var a := Schedule(d, op);
    acts, u := [a], Apply(c, s, a);
    PathOfOne(c, w, d, s, a);
    SchedulersMoveJobsOn(c, s, d, op);
    if p.AtRecover? {
      if Stale(c, s.now, s.jobs[j].row) { SilentJobsAreReset(c, s, d, j); }
    } else if IsEarly(p) {
      EarlyUntilRecovery(c, s, p, op);
    }
  }

  /** A tick goes on to its requeue sweep; one that had its recovery ahead leaves
      no silent claim behind. */
  lemma TickReachesRequeue(c: Config, s: State, w: WorkerId, d: SchedulerId, j: JobId)
    returns (acts: seq<Action>, t: State)
    requires Sound(s) && d in s.schedulers && j in s.jobs
    ensures HardPath(c, w, d, s, acts, t) && Scheduled(s, t)
    ensures d in t.schedulers && t.schedulers[d].AtRequeue?
    ensures IsEarly(s.schedulers[d]) && Stale(c, s.now, s.jobs[j].row) ==> t.jobs[j].row.status != Claimed
    decreases TickLeft(s.schedulers[d], |s.jobs.Keys|)
  {
    hide Apply, Enabled, RowSound, CountsSound, Stale, TickLeft;
    if s.schedulers[d].AtRequeue? {
      NoPath(c, w, d, s);
      acts, t := [], s;
    } else {
      var first, u := TickProceeds(c, s, w, d, j);
      var rest;
      rest, t := TickReachesRequeue(c, u, w, d, j);
      PathsJoin(c, w, d, s, first, u, rest, t);
      ScheduledTwice(s, u, t);
      assert Later(u.jobs[j].row, t.jobs[j].row);
      acts := first + rest;
    }
  }

  lemma RequeueStep(c: Config, s: State, w: WorkerId, d: SchedulerId, batch: set<JobId>)
    returns (acts: seq<Action>, t: State)
    requires Sound(s) && Enabled(c, s, Schedule(d, Requeue(batch)))
    ensures HardPath(c, w, d, s, acts, t) && Scheduled(s, t) && t.jobs == s.jobs && d in t.schedulers
    ensures t.schedulers[d] == if batch == {} then AtPromote else Requeueing(Tickets(s, batch))
  {
    var a := Schedule(d, Requeue(batch));
    acts, t := [a], Apply(c, s, a);
    PathOfOne(c, w, d, s, a);
    SchedulersMoveJobsOn(c, s, d, Requeue(batch));
  }

  lemma MembersHoldTheBatch(batch: map<JobId, Ticket>, j: JobId)
    requires j in batch
    ensures Slot(batch[j].priority, j) in Members(batch)
  {
  }

  lemma EnqueueStep(c: Config, s: State, w: WorkerId, d: SchedulerId, j: JobId) returns (acts: seq<Action>, t: State)
    requires Sound(s) && Enabled(c, s, Schedule(d, Enqueue)) && s.schedulers[d].Requeueing?
    ensures HardPath(c, w, d, s, acts, t) && Scheduled(s, t) && t.jobs == s.jobs && d in t.schedulers
    ensures t.schedulers[d].AtPromote?
    ensures j in s.schedulers[d].batch ==> Slot(s.schedulers[d].batch[j].priority, j) in t.queue
  {
    hide RowSound, CountsSound, WorkerSound;
    var a := Schedule(d, Enqueue);
    acts, t := [a], Apply(c, s, a);
    PathOfOne(c, w, d, s, a);
    SchedulersMoveJobsOn(c, s, d, Enqueue);
    if j in s.schedulers[d].batch { MembersHoldTheBatch(s.schedulers[d].batch, j); }
  }

  /** The sweep puts a stranded job back into its queue and ends the tick. */
  lemma SweepRescues(c: Config, s: State, w: WorkerId, d: SchedulerId, j: JobId) returns (acts: seq<Action>, t: State)
    requires Sound(s) && d in s.schedulers && s.schedulers[d].AtRequeue? && j in s.jobs && c.batchSize >= 1
    ensures HardPath(c, w, d, s, acts, t) && Scheduled(s, t) && t.jobs == s.jobs
    ensures d in t.schedulers && t.schedulers[d].AtPromote?
    ensures StrandedInQueued(c, s.now, s.jobs[j].row) ==> Slot(s.jobs[j].row.priority, j) in t.queue
  {
    var pool := StrandedJobs(c, s);
    var batch := LimitedBatch(c.batchSize, pool, if j in pool then {j} else {});
    acts, t := RequeueStep(c, s, w, d, batch);
    if batch != {} {
      var rest, u := EnqueueStep(c, t, w, d, j);
      PathsJoin(c, w, d, s, acts, t, rest, u);
      ScheduledTwice(s, t, u);
      acts, t := acts + rest, u;
    }
  }

  // -------------------------------------------------------------- promotion

  lemma WaitStep(c: Config, s: State, w: WorkerId, d: SchedulerId, elapsed: nat) returns (acts: seq<Action>, t: State)
    requires Sound(s)
    ensures HardPath(c, w, d, s, acts, t)
    ensures t == s.(now := s.now + elapsed)
  {
    var a := Tick(elapsed);
    acts, t := [a], Apply(c, s, a);
    PathOfOne(c, w, d, s, a);
    assert t.jobs == s.jobs;
  }

  function Unqueued(s: State): set<JobId> {
    set k | k in s.jobs && s.jobs[k].row.status in {Pending, Claimed}
  }

  lemma TicksOnlyQueue(s: State, t: State)
    requires Scheduled(s, t)
    ensures Unqueued(t) <= Unqueued(s)
  {
    forall k | k in Unqueued(t) ensures k in Unqueued(s) {
      assert Later(s.jobs[k].row, t.jobs[k].row);
    }
  }

  lemma PromotionQueues(c: Config, s: State, d: SchedulerId, batch: set<JobId>, k: JobId)
    requires Enabled(c, s, Schedule(d, Promote({}, batch))) && k in batch && k in s.jobs
    ensures k in Apply(c, s, Schedule(d, Promote({}, batch))).jobs
    ensures Apply(c, s, Schedule(d, Promote({}, batch))).jobs[k].row.status == Queued
  {
    AppliedEntry(c, s, Schedule(d, Promote({}, batch)), k);
  }

  lemma PromoteStep(c: Config, s: State, w: WorkerId, d: SchedulerId, batch: set<JobId>)
    returns (acts: seq<Action>, t: State)
    requires Sound(s) && Enabled(c, s, Schedule(d, Promote({}, batch)))
    ensures HardPath(c, w, d, s, acts, t) && Scheduled(s, t) && d in t.schedulers
    ensures forall k | k in batch :: k in t.jobs && t.jobs[k].row.status == Queued
  {
    var a := Schedule(d, Promote({}, batch));
    acts, t := [a], Apply(c, s, a);
    PathOfOne(c, w, d, s, a);
    SchedulersMoveJobsOn(c, s, d, Promote({}, batch));
    forall k | k in batch ensures k in t.jobs && t.jobs[k].row.status == Queued {
      PromotionQueues(c, s, d, batch, k);
    }
  }

  lemma ChooseBatch(c: Config, s: State) returns (batch: set<JobId>, k: JobId)
    requires c.batchSize >= 1 && DueJobs(c, s, {}) != {}
    ensures IsPromotable(c.batchSize, s.jobs, DueJobs(c, s, {}), batch)
    ensures k in batch && k in s.jobs && s.jobs[k].row.status == Pending
  {
    batch := PromotableBatch(c.batchSize, s.jobs, DueJobs(c, s, {}));
    assert |batch| > 0;
    k :| k in batch;
  }

  lemma OneFewer(a: set<JobId>, b: set<JobId>, k: JobId)
    requires b <= a && k in a && k !in b
    ensures |b| < |a|
  {
    SmallerSets(b, a - {k});
  }

  lemma PromotionStep(c: Config, s: State, w: WorkerId, d: SchedulerId) returns (acts: seq<Action>, t: State)
    requires Sound(s) && d in s.schedulers && s.schedulers[d].AtPromote?
    requires c.batchSize >= 1 && DueJobs(c, s, {}) != {}
    ensures HardPath(c, w, d, s, acts, t) && Scheduled(s, t) && d in t.schedulers
    ensures |Unqueued(t)| < |Unqueued(s)|
  {
    var batch, k := ChooseBatch(c, s);
    acts, t := PromoteStep(c, s, w, d, batch);
    TicksOnlyQueue(s, t);
    OneFewer(Unqueued(s), Unqueued(t), k);
  }

  /** A due job leaves `pending`: every tick promotes the jobs before it first. */
  lemma DueJobsArePromoted(c: Config, s: State, w: WorkerId, d: SchedulerId, j: JobId)
    returns (acts: seq<Action>, t: State)
    requires Sound(s) && d in s.schedulers && s.schedulers[d].AtPromote? && c.batchSize >= 1
    requires j in s.jobs && Due(c, s.now, s.jobs[j].row)
    ensures HardPath(c, w, d, s, acts, t) && Scheduled(s, t) && d in t.schedulers
    ensures t.jobs[j].row.status in {Queued, DeadLettered}
    decreases |Unqueued(s)|
  {
    assert j in DueJobs(c, s, {});
    acts, t := PromotionStep(c, s, w, d);
    assert Later(s.jobs[j].row, t.jobs[j].row);
    if t.jobs[j].row.status == Pending {
      acts, t := AnotherTick(c, s, w, d, j, acts, t);
      assert Later(s.jobs[j].row, t.jobs[j].row);
      if t.jobs[j].row.status == Pending {
        var rest, u := DueJobsArePromoted(c, t, w, d, j);
        PathsJoin(c, w, d, s, acts, t, rest, u);
        ScheduledTwice(s, t, u);
        acts, t := acts + rest, u;
      }
    }
  }

  lemma AnotherTick(c: Config, s: State, w: WorkerId, d: SchedulerId, j: JobId, first: seq<Action>, u: State)
    returns (acts: seq<Action>, t: State)
    requires HardPath(c, w, d, s, first, u) && Scheduled(s, u) && d in u.schedulers && j in u.jobs && c.batchSize >= 1
    ensures HardPath(c, w, d, s, acts, t) && Scheduled(s, t)
    ensures d in t.schedulers && t.schedulers[d].AtPromote? && |Unqueued(t)| <= |Unqueued(u)|
  {
    var second, v := TickReachesRequeue(c, u, w, d, j);
    PathsJoin(c, w, d, s, first, u, second, v);
    ScheduledTwice(s, u, v);
    var third;
    third, t := SweepRescues(c, v, w, d, j);
    PathsJoin(c, w, d, s, first + second, v, third, t);
    ScheduledTwice(s, v, t);
    acts := first + second + third;
    TicksOnlyQueue(u, v);
    TicksOnlyQueue(v, t);
    SmallerSets(Unqueued(t), Unqueued(u));
  }

  // ----------------------------------------------- from any status to a queue

  lemma TickComesRound(c: Config, s: State, w: WorkerId, d: SchedulerId, j: JobId) returns (acts: seq<Action>, t: State)
    requires Sound(s) && d in s.schedulers && j in s.jobs && c.batchSize >= 1
    ensures HardPath(c, w, d, s, acts, t) && Scheduled(s, t)
    ensures d in t.schedulers && t.schedulers[d].AtPromote?
    ensures IsEarly(s.schedulers[d]) && Stale(c, s.now, s.jobs[j].row) ==> t.jobs[j].row.status != Claimed
  {
    var first, u := TickReachesRequeue(c, s, w, d, j);
    var second;
    second, t := SweepRescues(c, u, w, d, j);
    PathsJoin(c, w, d, s, first, u, second, t);
    ScheduledTwice(s, u, t);
    acts := first + second;
  }

  /** A claim whose owner keeps silent is reset, whoever holds it. */
  lemma ClaimsRunOut(c: Config, s: State, w: WorkerId, d: SchedulerId, j: JobId) returns (acts: seq<Action>, t: State)
    requires Sound(s) && d in s.schedulers && j in s.jobs && c.batchSize >= 1 && s.jobs[j].row.status != Sent
    ensures HardPath(c, w, d, s, acts, t) && t.workers == s.workers
    ensures d in t.schedulers && t.schedulers[d].AtPromote?
    ensures t.jobs[j].row.status in {Pending, Queued, DeadLettered}
  {
    acts, t := TickComesRound(c, s, w, d, j);
    assert Later(s.jobs[j].row, t.jobs[j].row) && EntrySound(t.now, t.dlq, j, t.jobs[j]);
    if t.jobs[j].row.status == Claimed {
      var second, u := WaitStep(c, t, w, d, c.heartbeatTimeout + 1);
      var third, v := TickComesRound(c, u, w, d, j);
      assert Later(u.jobs[j].row, v.jobs[j].row);
      PathsJoin(c, w, d, s, acts, t, second, u);
      PathsJoin(c, w, d, s, acts + second, u, third, v);
      acts, t := acts + second + third, v;
    }
  }

  lemma PendingRunsOut(c: Config, s: State, w: WorkerId, d: SchedulerId, j: JobId) returns (acts: seq<Action>, t: State)
    requires Sound(s) && d in s.schedulers && s.schedulers[d].AtPromote? && j in s.jobs && c.batchSize >= 1
    requires s.jobs[j].row.status == Pending
    ensures HardPath(c, w, d, s, acts, t) && t.workers == s.workers && d in t.schedulers
    ensures t.jobs[j].row.status in {Queued, DeadLettered}
  {
    var first, u := WaitStep(c, s, w, d, Max(0, s.jobs[j].row.sendAt - s.now));
    var second;
    second, t := DueJobsArePromoted(c, u, w, d, j);
    PathsJoin(c, w, d, s, first, u, second, t);
    acts := first + second;
  }

  /** A queued job missing from Redis is put back. */
  lemma QueuedJobsAreRescued(c: Config, s: State, w: WorkerId, d: SchedulerId, j: JobId)
    returns (acts: seq<Action>, t: State)
    requires Sound(s) && d in s.schedulers && j in s.jobs && c.batchSize >= 1
    requires s.jobs[j].row.status == Queued
    ensures HardPath(c, w, d, s, acts, t) && t.workers == s.workers && d in t.schedulers
    ensures t.jobs[j].row.status == DeadLettered
            || (t.jobs[j].row.status == Queued && Slot(t.jobs[j].row.priority, j) in t.queue)
  {
    acts, t := TickReachesRequeue(c, s, w, d, j);
    assert Later(s.jobs[j].row, t.jobs[j].row) && EntrySound(t.now, t.dlq, j, t.jobs[j]);
    if t.jobs[j].row.status == Queued {
      var second, u := WaitStep(c, t, w, d, c.requeueAfter + 1);
      var third, v := SweepRescues(c, u, w, d, j);
      PathsJoin(c, w, d, s, acts, t, second, u);
      PathsJoin(c, w, d, s, acts + second, u, third, v);
      acts, t := acts + second + third, v;
    }
  }

  lemma EveryJobIsQueued(c: Config, s: State, w: WorkerId, d: SchedulerId, j: JobId)
    returns (acts: seq<Action>, t: State)
    requires Sound(s) && d in s.schedulers && j in s.jobs && c.batchSize >= 1 && s.jobs[j].row.status != Sent
    ensures HardPath(c, w, d, s, acts, t) && t.workers == s.workers && d in t.schedulers
    ensures t.jobs[j].row.status == DeadLettered
            || (t.jobs[j].row.status == Queued && Slot(t.jobs[j].row.priority, j) in t.queue)
  {
    acts, t := ClaimsRunOut(c, s, w, d, j);
    if t.jobs[j].row.status == Pending {
      var second, u := PendingRunsOut(c, t, w, d, j);
      PathsJoin(c, w, d, s, acts, t, second, u);
      acts, t := acts + second, u;
    }
    if t.jobs[j].row.status == Queued {
      var third, v := QueuedJobsAreRescued(c, t, w, d, j);
      PathsJoin(c, w, d, s, acts, t, third, v);
      acts, t := acts + third, v;
    }
  }

  // --------------------------------------------------------- from the queue

  /** Waiting in Redis, behind no lock. */
  predicate IsWaiting(s: State, j: JobId) {
    && j in s.jobs && s.jobs[j].row.status == Queued
    && Slot(s.jobs[j].row.priority, j) in s.queue
    && LockIsFree(s, j)
  }

  function Distance(tier: Priority, goal: Priority): nat {
    (Rank(goal) + 3 - Rank(tier)) % 3
  }

  lemma PopStep(c: Config, s: State, w: WorkerId, d: SchedulerId, pick: Option<JobId>)
    returns (acts: seq<Action>, t: State)
    requires Sound(s) && Enabled(c, s, Work(w, Pop(pick)))
    ensures HardPath(c, w, d, s, acts, t) && t.jobs == s.jobs && t.locks == s.locks && t.now == s.now && w in t.workers
    ensures var tier := s.workers[w].tier;
            if pick.None? then t.workers[w] == NextScan(tier) && t.queue == s.queue
            else t.workers[w] == Popped(tier, pick.value) && t.queue == s.queue - {Slot(tier, pick.value)}
  {
    var a := Work(w, Pop(pick));
    acts, t := [a], Apply(c, s, a);
    PathOfOne(c, w, d, s, a);
    assert t.jobs == s.jobs;
  }

  lemma TakenAway(queue: map<Slot, int>, slot: Slot)
    requires slot in queue
    ensures |queue - {slot}| == |queue| - 1
  {
    assert (queue - {slot}).Keys == queue.Keys - {slot};
  }

  lemma ChoosePick(c: Config, s: State, w: WorkerId) returns (pick: Option<JobId>)
    requires w in s.workers && s.workers[w].Scanning?
    ensures Enabled(c, s, Work(w, Pop(pick)))
    ensures pick.Some? ==> Slot(s.workers[w].tier, pick.value) in s.queue
  {
    var tier := s.workers[w].tier;
    var among := set slot | slot in s.queue && slot.tier == tier;
    assert forall slot | slot in s.queue && slot.tier == tier :: slot in among;
    if among == {} {
      pick := None;
    } else {
      var head := HeadOf(s.queue, tier, among);
      pick := Some(head.job);
      assert head == Slot(tier, head.job);
    }
  }

  lemma EntriesAheadAreHandled(c: Config, s: State, w: WorkerId, d: SchedulerId, j: JobId, k: JobId)
    returns (acts: seq<Action>, t: State)
    requires Sound(s) && Enabled(c, s, Work(w, Pop(Some(k)))) && k != j && IsWaiting(s, j)
    ensures HardPath(c, w, d, s, acts, t)
    ensures w in t.workers && t.workers[w].Scanning? && IsWaiting(t, j) && t.jobs[j] == s.jobs[j]
    ensures |t.queue| < |s.queue|
  {
    TakenAway(s.queue, Slot(s.workers[w].tier, k));
    var first, u := PopStep(c, s, w, d, Some(k));
    var second;
    second, t := WorkerSettles(c, u, w, d);
    assert Untouched(u, t, j);
    PathsJoin(c, w, d, s, first, u, second, t);
    acts := first + second;
  }

  lemma NextTierIsNearer(tier: Priority, goal: Priority)
    requires tier != goal
    ensures Distance(NextScan(tier).tier, goal) < Distance(tier, goal)
  {
  }

  /** Scanning on, the worker comes upon the job; it deals with whatever is ahead
      of it, in its queue or in others. */
  lemma ScanFinds(c: Config, s: State, w: WorkerId, d: SchedulerId, j: JobId) returns (acts: seq<Action>, t: State)
    requires Sound(s) && w in s.workers && s.workers[w].Scanning? && IsWaiting(s, j)
    ensures HardPath(c, w, d, s, acts, t)
    ensures w in t.workers && t.workers[w].Popped? && t.workers[w].job == j
    ensures t.jobs[j] == s.jobs[j] && LockIsFree(t, j)
    decreases |s.queue|, Distance(s.workers[w].tier, s.jobs[j].row.priority)
  {
    var pick := ChoosePick(c, s, w);
    if pick == Some(j) {
      acts, t := PopStep(c, s, w, d, pick);
    } else {
      if pick.None? {
        acts, t := PopStep(c, s, w, d, pick);
        NextTierIsNearer(s.workers[w].tier, s.jobs[j].row.priority);
      } else {
        acts, t := EntriesAheadAreHandled(c, s, w, d, j, pick.value);
      }
      var rest, u := ScanFinds(c, t, w, d, j);
      PathsJoin(c, w, d, s, acts, t, rest, u);
      acts, t := acts + rest, u;
    }
  }

  // --------------------------------------------------------------- delivery

  lemma LockStep(c: Config, s: State, w: WorkerId, d: SchedulerId) returns (acts: seq<Action>, t: State)
    requires Sound(s) && w in s.workers && s.workers[w].Popped? && LockIsFree(s, s.workers[w].job)
    ensures HardPath(c, w, d, s, acts, t) && t.jobs == s.jobs
    ensures w in t.workers && t.workers[w] == Locked(s.workers[w].tier, s.workers[w].job)
  {
    var a := Work(w, Lock);
    acts, t := [a], Apply(c, s, a);
    PathOfOne(c, w, d, s, a);
    assert t.jobs == s.jobs;
  }

  lemma ClaimStep(c: Config, s: State, w: WorkerId, d: SchedulerId, j: JobId) returns (acts: seq<Action>, t: State)
    requires Sound(s) && w in s.workers && s.workers[w].Locked? && s.workers[w].job == j
    requires j in s.jobs && s.jobs[j].row.status == Queued
    ensures HardPath(c, w, d, s, acts, t)
    ensures t.jobs[j].row.status == Claimed && t.jobs[j].row.workerId == Some(w)
    ensures t.jobs[j].row.attempts == s.jobs[j].row.attempts && t.jobs[j].row.maxAttempts == s.jobs[j].row.maxAttempts
    ensures w in t.workers && t.workers[w] == Holding(j, t.jobs[j].h.claims, t.now)
  {
    hide Sound;
    var a := Work(w, Claim);
    acts, t := [a], Apply(c, s, a);
    PathOfOne(c, w, d, s, a);
    AppliedEntry(c, s, a, j);
  }

  lemma FetchStep(c: Config, s: State, w: WorkerId, d: SchedulerId) returns (acts: seq<Action>, t: State)
    requires Sound(s) && w in s.workers && s.workers[w].Holding?
    ensures HardPath(c, w, d, s, acts, t) && t.jobs == s.jobs && s.workers[w].job in s.jobs
    ensures w in t.workers
    ensures t.workers[w] == Fetched(s.workers[w].job, s.workers[w].epoch, s.now, s.jobs[s.workers[w].job].row)
  {
    var a := Work(w, Fetch);
    acts, t := [a], Apply(c, s, a);
    PathOfOne(c, w, d, s, a);
    assert t.jobs == s.jobs;
  }

  lemma CheckStep(c: Config, s: State, w: WorkerId, d: SchedulerId) returns (acts: seq<Action>, t: State)
    requires Sound(s) && w in s.workers && s.workers[w].Fetched? && c.rateLimit >= 1
    requires Window(s.workers[w].view.recipient, HourOf(s.now)) !in s.counters
    ensures HardPath(c, w, d, s, acts, t) && t.jobs == s.jobs
    ensures var p := s.workers[w];
            w in t.workers && t.workers[w] == Allowed(p.job, p.epoch, s.now, p.view)
  {
    var a := Work(w, Check(s.now));
    acts, t := [a], Apply(c, s, a);
    PathOfOne(c, w, d, s, a);
    assert t.jobs == s.jobs;
  }

  lemma SucceedStep(c: Config, s: State, w: WorkerId, d: SchedulerId, j: JobId) returns (acts: seq<Action>, t: State)
    requires Sound(s) && w in s.workers && s.workers[w].Allowed? && s.workers[w].job == j && j in s.jobs
    requires Owns(c, s.jobs[j], s.workers[w])
    ensures Path(c, w, d, s, acts, t)
    ensures t.jobs[j].row.status == Sent
  {
    hide Sound;
    var a := Work(w, Succeed);
    acts, t := [a], Apply(c, s, a);
    PathOfOne(c, w, d, s, a);
    AppliedEntry(c, s, a, j);
  }

  lemma PoppedJobsAreFetched(c: Config, s: State, w: WorkerId, d: SchedulerId, j: JobId)
    returns (acts: seq<Action>, t: State)
    requires Sound(s) && w in s.workers && s.workers[w].Popped? && s.workers[w].job == j
    requires j in s.jobs && s.jobs[j].row.status == Queued && LockIsFree(s, j)
    ensures HardPath(c, w, d, s, acts, t)
    ensures w in t.workers && t.workers[w].Fetched? && t.workers[w].job == j && t.workers[w].epoch == t.jobs[j].h.claims
    ensures t.workers[w].view == t.jobs[j].row && t.jobs[j].row.status == Claimed && t.jobs[j].row.workerId == Some(w)
    ensures t.jobs[j].row.attempts == s.jobs[j].row.attempts && t.jobs[j].row.maxAttempts == s.jobs[j].row.maxAttempts
  {
    var a1, s1 := LockStep(c, s, w, d);
    var a2, s2 := ClaimStep(c, s1, w, d, j);
    var a3, s3 := FetchStep(c, s2, w, d);
    PathsJoin(c, w, d, s, a1, s1, a2, s2);
    PathsJoin(c, w, d, s, a1 + a2, s2, a3, s3);
    acts, t := a1 + a2 + a3, s3;
  }

  lemma FreshHours(s: State, recipient: string)
    requires ProcessesSound(s)
    ensures Window(recipient, HourOf(s.now + HOUR)) !in s.counters
  {
    assert HourOf(s.now + HOUR) == HourOf(s.now) + 1;
  }

  /** Once fetched by its owner, the job can be delivered: in a fresh hour no
      budget is spent. */
  lemma FetchedJobsAreSent(c: Config, s: State, w: WorkerId, d: SchedulerId, j: JobId)
    returns (acts: seq<Action>, t: State)
    requires Sound(s) && w in s.workers && s.workers[w].Fetched? && s.workers[w].job == j && c.rateLimit >= 1
    requires j in s.jobs && s.workers[w].epoch == s.jobs[j].h.claims && s.workers[w].view == s.jobs[j].row
    requires s.jobs[j].row.status == Claimed && s.jobs[j].row.workerId == Some(w)
    ensures Path(c, w, d, s, acts, t)
    ensures t.jobs[j].row.status == Sent
  {
    FreshHours(s, s.workers[w].view.recipient);
    var a4, s4 := WaitStep(c, s, w, d, HOUR);
    var a5, s5 := CheckStep(c, s4, w, d);
    var a6, s6 := SucceedStep(c, s5, w, d, j);
    PathsJoin(c, w, d, s, a4, s4, a5, s5);
    PathsGoOn(c, w, d, s, a4 + a5, s5, a6, s6);
    acts, t := a4 + a5 + a6, s6;
  }

  /** A queued job in Redis reaches `sent`. */
  lemma QueuedJobsAreSent(c: Config, s: State, w: WorkerId, d: SchedulerId, j: JobId)
    returns (acts: seq<Action>, t: State)
    requires Sound(s) && w in s.workers && s.workers[w].Scanning? && c.rateLimit >= 1
    requires j in s.jobs && s.jobs[j].row.status == Queued && Slot(s.jobs[j].row.priority, j) in s.queue
    ensures Path(c, w, d, s, acts, t)
    ensures t.jobs[j].row.status == Sent
  {
    var a1, s1 := WaitStep(c, s, w, d, if j in s.locks then Max(0, s.locks[j] - s.now) else 0);
    var a2, s2 := ScanFinds(c, s1, w, d, j);
    var a3, s3 := PoppedJobsAreFetched(c, s2, w, d, j);
    var a4, s4 := FetchedJobsAreSent(c, s3, w, d, j);
    PathsJoin(c, w, d, s, a1, s1, a2, s2);
    PathsJoin(c, w, d, s, a1 + a2, s2, a3, s3);
    PathsGoOn(c, w, d, s, a1 + a2 + a3, s3, a4, s4);
    acts, t := a1 + a2 + a3 + a4, s4;
  }

  lemma EveryJobEnds(c: Config, s: State, w: WorkerId, d: SchedulerId, j: JobId) returns (acts: seq<Action>, t: State)
    requires Sound(s) && c.rateLimit >= 1 && c.batchSize >= 1
    requires w in s.workers && !s.workers[w].Crashed? && d in s.schedulers && j in s.jobs
    ensures Path(c, w, d, s, acts, t) && IsDone(t, j)
  {
    acts, t := WorkerSettles(c, s, w, d);
    if !IsDone(t, j) {
      var second, u := EveryJobIsQueued(c, t, w, d, j);
      PathsJoin(c, w, d, s, acts, t, second, u);
      acts, t := acts + second, u;
      if !IsDone(t, j) {
        var third, v := QueuedJobsAreSent(c, t, w, d, j);
        PathsGoOn(c, w, d, s, acts, t, third, v);
        acts, t := acts + third, v;
      }
    }
  }

  /** From every state any run can reach, through crashes, lost queue entries,
      leftover locks, late fetches, several schedulers and interrupted ticks, a
      finite run of ordinary steps of any one live worker and any one scheduler,
      with time passing, brings any given job to `sent` or `dead_lettered`. */
  lemma NoJobIsStranded(c: Config, s: State, w: WorkerId, d: SchedulerId, j: JobId)
    requires Reachable(c, s) && c.rateLimit >= 1 && c.batchSize >= 1
    requires w in s.workers && !s.workers[w].Crashed? && d in s.schedulers && j in s.jobs
    ensures exists acts, t :: Path(c, w, d, s, acts, t) && IsDone(t, j)
  {
    ReachableIsSound(c, s);
    var acts, t := EveryJobEnds(c, s, w, d, j);
  }

  // ------------------------------------------------ when every delivery fails

  lemma FailStep(c: Config, s: State, w: WorkerId, d: SchedulerId, j: JobId) returns (acts: seq<Action>, t: State)
    requires Sound(s) && w in s.workers && s.workers[w].Allowed? && s.workers[w].job == j && j in s.jobs
    requires s.workers[w].since <= s.now && s.workers[w].view == s.jobs[j].row
    requires Owns(c, s.jobs[j], s.workers[w]) && OwnsForBurial(c, s.jobs[j], s.workers[w])
    ensures HardPath(c, w, d, s, acts, t) && w in t.workers && WorkLeft(t.workers[w]) <= 3 && !t.workers[w].Crashed?
    ensures var r, q := s.jobs[j].row, t.jobs[j].row;
            if r.attempts + 1 >= r.maxAttempts then q.status == DeadLettered
            else q.status == Pending && q.attempts == r.attempts + 1 && q.maxAttempts == r.maxAttempts
  {
    hide Sound;
    var a := Work(w, Fail(s.now));
    acts, t := [a], Apply(c, s, a);
    PathOfOne(c, w, d, s, a);
    AppliedEntry(c, s, a, j);
  }

  lemma FetchedJobsFail(c: Config, s: State, w: WorkerId, d: SchedulerId, j: JobId)
    returns (acts: seq<Action>, t: State)
    requires Sound(s) && w in s.workers && s.workers[w].Fetched? && s.workers[w].job == j && c.rateLimit >= 1
    requires j in s.jobs && s.workers[w].epoch == s.jobs[j].h.claims && s.workers[w].view == s.jobs[j].row
    requires s.jobs[j].row.status == Claimed && s.jobs[j].row.workerId == Some(w)
    ensures HardPath(c, w, d, s, acts, t) && w in t.workers && WorkLeft(t.workers[w]) <= 3 && !t.workers[w].Crashed?
    ensures var r, q := s.jobs[j].row, t.jobs[j].row;
            if r.attempts + 1 >= r.maxAttempts then q.status == DeadLettered
            else q.status == Pending && q.attempts == r.attempts + 1 && q.maxAttempts == r.maxAttempts
  {
    FreshHours(s, s.workers[w].view.recipient);
    var a1, s1 := WaitStep(c, s, w, d, HOUR);
    var a2, s2 := CheckStep(c, s1, w, d);
    var a3, s3 := FailStep(c, s2, w, d, j);
    PathsJoin(c, w, d, s, a1, s1, a2, s2);
    PathsJoin(c, w, d, s, a1 + a2, s2, a3, s3);
    acts, t := a1 + a2 + a3, s3;
  }

  /** A queued job in Redis is delivered in vain, and the worker scans again. */
  lemma QueuedJobsFail(c: Config, s: State, w: WorkerId, d: SchedulerId, j: JobId) returns (acts: seq<Action>, t: State)
    requires Sound(s) && w in s.workers && s.workers[w].Scanning? && c.rateLimit >= 1 && d in s.schedulers
    requires j in s.jobs && s.jobs[j].row.status == Queued && Slot(s.jobs[j].row.priority, j) in s.queue
    ensures HardPath(c, w, d, s, acts, t) && w in t.workers && t.workers[w].Scanning?
    ensures var r, q := s.jobs[j].row, t.jobs[j].row;
            if r.attempts + 1 >= r.maxAttempts then q.status == DeadLettered
            else q.status == Pending && q.attempts == r.attempts + 1 && q.maxAttempts == r.maxAttempts
  {
    hide Enabled, Apply, Sound;
    var a1, s1 := WaitStep(c, s, w, d, if j in s.locks then Max(0, s.locks[j] - s.now) else 0);
    var a2, s2 := ScanFinds(c, s1, w, d, j);
    var a3, s3 := PoppedJobsAreFetched(c, s2, w, d, j);
    var a4, s4 := FetchedJobsFail(c, s3, w, d, j);
    var a5, s5 := WorkerSettles(c, s4, w, d);
    PathsJoin(c, w, d, s, a1, s1, a2, s2);
    PathsJoin(c, w, d, s, a1 + a2, s2, a3, s3);
    PathsJoin(c, w, d, s, a1 + a2 + a3, s3, a4, s4);
    PathsJoin(c, w, d, s, a1 + a2 + a3 + a4, s4, a5, s5);
    acts, t := a1 + a2 + a3 + a4 + a5, s5;
  }

  /** What no scheduler undoes: attempts only grow, until the job is buried. */
  predicate SpentOn(r: Job, q: Job) {
    q.status == DeadLettered || (r.status != DeadLettered && q.attempts >= r.attempts && q.maxAttempts == r.maxAttempts)
  }

  lemma SchedulersSpendOn(c: Config, s: State, a: Action, j: JobId)
    requires Enabled(c, s, a) && (a.Schedule? || a.Tick?) && j in s.jobs
    ensures j in Apply(c, s, a).jobs && SpentOn(s.jobs[j].row, Apply(c, s, a).jobs[j].row)
  {
    hide Apply;
    WritesAreJustified(c, s, a);
    AppliedEntry(c, s, a, j);
  }

  /** A path of a worker that does not exist is one of the scheduler alone, so of
      any worker as well. */
  lemma {:induction false} PathsOfNobody(
      c: Config, v: WorkerId, w: WorkerId, d: SchedulerId, s: State, acts: seq<Action>, t: State, j: JobId)
    requires Leads(c, s, acts, t) && v !in s.workers && j in s.jobs
    requires forall i | 0 <= i < |acts| :: Ordinary(v, d, acts[i])
    ensures forall i | 0 <= i < |acts| :: Ordinary(w, d, acts[i]) && IsHard(acts[i])
    ensures j in t.jobs && SpentOn(s.jobs[j].row, t.jobs[j].row)
    decreases |acts|
  {
    if acts == [] {
    } else {
      var u := Apply(c, s, acts[0]);
      assert acts[0].Schedule? || acts[0].Tick?;
      assert u.workers == s.workers;
      SchedulersSpendOn(c, s, acts[0], j);
      PathsOfNobody(c, v, w, d, u, acts[1..], t, j);
      assert forall i | 0 < i < |acts| :: acts[i] == acts[1..][i - 1];
    }
  }

  lemma {:induction false} HardPathsNeverSend(c: Config, s: State, acts: seq<Action>, t: State, j: JobId)
    requires Leads(c, s, acts, t) && j in s.jobs && s.jobs[j].row.status != Sent
    requires forall i | 0 <= i < |acts| :: IsHard(acts[i])
    ensures j in t.jobs && t.jobs[j].row.status != Sent
    decreases |acts|
  {
    if acts != [] {
      HardStepsNeverSend(c, s, acts[0], j);
      HardPathsNeverSend(c, Apply(c, s, acts[0]), acts[1..], t, j);
    }
  }

  lemma HardStepsNeverSend(c: Config, s: State, a: Action, j: JobId)
    requires Enabled(c, s, a) && IsHard(a) && j in s.jobs && s.jobs[j].row.status != Sent
    ensures j in Apply(c, s, a).jobs && Apply(c, s, a).jobs[j].row.status != Sent
  {
    AppliedEntry(c, s, a, j);
    assert !WriteOf(c, s, a).SendRow?;
  }

  /** Each delivery in vain spends an attempt, until they are spent. */
  lemma FailuresRunOut(c: Config, s: State, w: WorkerId, d: SchedulerId, j: JobId) returns (acts: seq<Action>, t: State)
    requires Sound(s) && c.rateLimit >= 1 && c.batchSize >= 1
    requires w in s.workers && s.workers[w].Scanning? && d in s.schedulers
    requires j in s.jobs && s.jobs[j].row.status != Sent
    ensures HardPath(c, w, d, s, acts, t) && t.jobs[j].row.status == DeadLettered
    decreases Max(0, s.jobs[j].row.maxAttempts - s.jobs[j].row.attempts)
  {
    hide Enabled, Apply, Sound;
    var v := FreshIdsExist(s.workers.Keys);
    assert v !in s.workers;
    acts, t := EveryJobIsQueued(c, s, v, d, j);
    PathsOfNobody(c, v, w, d, s, acts, t, j);
    if t.jobs[j].row.status != DeadLettered {
      var second, u := QueuedJobsFail(c, t, w, d, j);
      PathsJoin(c, w, d, s, acts, t, second, u);
      SchedulersStay(c, w, d, t, second, u);
      acts := acts + second;
      if u.jobs[j].row.status != DeadLettered {
        var third, x := FailuresRunOut(c, u, w, d, j);
        PathsJoin(c, w, d, s, acts, u, third, x);
        acts, u := acts + third, x;
      }
      t := u;
    }
  }

  lemma {:induction false} SchedulersStay(c: Config, w: WorkerId, d: SchedulerId, s: State, acts: seq<Action>, t: State)
    requires Leads(c, s, acts, t) && d in s.schedulers
    ensures d in t.schedulers
    decreases |acts|
  {
    if acts != [] {
      SchedulersStay(c, w, d, Apply(c, s, acts[0]), acts[1..], t);
    }
  }

  /** The poison message. From every state any run can reach, if every delivery
      fails from now on, ordinary steps of one live worker and one scheduler bring
      any job not yet sent to the dead-letter queue. */
  lemma FailingJobsAreBuried(c: Config, s: State, w: WorkerId, d: SchedulerId, j: JobId)
    requires Reachable(c, s) && c.rateLimit >= 1 && c.batchSize >= 1
    requires w in s.workers && !s.workers[w].Crashed? && d in s.schedulers
    requires j in s.jobs && s.jobs[j].row.status != Sent
    ensures exists acts, t :: HardPath(c, w, d, s, acts, t) && t.jobs[j].row.status == DeadLettered
  {
    hide Enabled, Apply, Sound, Reachable;
    ReachableIsSound(c, s);
    var first, t := WorkerSettles(c, s, w, d);
    HardPathsNeverSend(c, s, first, t, j);
    var second, u := FailuresRunOut(c, t, w, d, j);
    PathsJoin(c, w, d, s, first, t, second, u);
  }
}
