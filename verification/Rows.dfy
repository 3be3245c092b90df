/** What each statement finds and what it leaves, column by column. Every theorem
    here is about one step of the protocol, with the WHERE clause and the SET
    clause written out. */
module Rows {
  import opened Types
  import opened Scores
  import opened Protocol
  import opened Columns

  /** No job comes or goes, and the rows of the others stay as they are. */
  predicate OnlyTouches(s: State, t: State, written: set<JobId>) {
    && t.jobs.Keys == s.jobs.Keys
    && forall i | i in s.jobs && i !in written :: t.jobs[i] == s.jobs[i]
  }

  /** The job a write is about, if it is about one that exists. */
  function Written(write: Write): set<JobId> {
    match write
    case NoWrite => {}
    case Insert(_, _, _) => {}
    case PromoteRows(batch) => batch
    case ReclaimRows(stale) => stale
    case NoteInterruption(lost) => lost
    case _ => {write.job}
  }

  lemma WritesTouchTheirOwn(c: Config, s: State, a: Action)
    requires Enabled(c, s, a) && !WriteOf(c, s, a).Insert?
    ensures OnlyTouches(s, Apply(c, s, a), Written(WriteOf(c, s, a)))
    ensures forall j | j in s.jobs ::
              Apply(c, s, a).jobs[j] == EntryAfter(s.now, WriteOf(c, s, a), j, s.jobs[j])
    ensures Apply(c, s, a).dlq == DlqAfter(WriteOf(c, s, a), s.dlq)
    ensures !a.Tick? ==> Apply(c, s, a).now == s.now
  {
    hide Enabled, WriteOf;
  }

  /** The SET clauses, and what goes into the dead-letter queue. */
  predicate LeftBy(s: State, write: Write, t: State) {
    match write
    case ClaimRow(j, w) =>
      && j in s.jobs && j in t.jobs
      && t.jobs[j].row == s.jobs[j].row.(status := Claimed, workerId := Some(w), claimedAt := Some(s.now),
                                         heartbeatAt := Some(s.now), updatedAt := s.now)
    case SendRow(j) =>
      && j in s.jobs && j in t.jobs
      && t.jobs[j].row == s.jobs[j].row.(status := Sent, sentAt := Some(s.now), updatedAt := s.now)
    case RetryRow(j, attempt, _, due) =>
      && j in s.jobs && j in t.jobs
      && t.jobs[j].row == s.jobs[j].row.(status := Pending, attempts := attempt, nextRetryAt := Some(due),
                                         sendAt := due, error := Some(DeliveryFailed), workerId := None,
                                         claimedAt := None, heartbeatAt := None, updatedAt := s.now)
    case DeferRow(j, due) =>
      && j in s.jobs && j in t.jobs
      && t.jobs[j].row == s.jobs[j].row.(status := Pending, sendAt := due, workerId := None, claimedAt := None,
                                         heartbeatAt := None, updatedAt := s.now)
    case BuryFailed(j, recipient, attempt, _) =>
      && j in s.jobs && j in t.jobs && t.dlq == s.dlq + [DeadLetter(j, recipient, attempt, DeliveryFailed)]
      && t.jobs[j].row == s.jobs[j].row.(status := DeadLettered, error := Some(DeliveryFailed), attempts := attempt,
                                         failedAt := Some(s.now), workerId := None, claimedAt := None,
                                         heartbeatAt := None, updatedAt := s.now)
    case ReplayRow(j) =>
      && j in s.jobs && j in t.jobs && s.jobs[j].row.status == DeadLettered && t.dlq == s.dlq
      && t.jobs[j].row == s.jobs[j].row.(status := Pending, attempts := 0, sendAt := s.now, nextRetryAt := None,
                                         error := None, failedAt := None, workerId := None, claimedAt := None,
                                         heartbeatAt := None, updatedAt := s.now)
    case _ => true
  }

  lemma WhatWritesLeave(c: Config, s: State, a: Action)
    requires Enabled(c, s, a)
    ensures LeftBy(s, WriteOf(c, s, a), Apply(c, s, a))
  {
    hide Enabled, Apply, WriteOf;
    WritesAreJustified(c, s, a);
    if !WriteOf(c, s, a).Insert? { WritesTouchTheirOwn(c, s, a); }
  }

  // ------------------------------------------------------------ submissions

  /** `INSERT_JOB` and `INSERT_IDEMPOTENCY_KEY`: what is stored is what was asked
      for, unless a key was given and is taken; an empty key is none. */
  lemma SubmissionsStoreWhatWasAsked(
      c: Config, s: State, r: RequestId, id: JobId, recipient: string, sendAt: int, priority: Priority,
      key: Option<string>)
    requires Enabled(c, s, Api(Submit(r, id, recipient, sendAt, priority, key)))
    ensures var t := Apply(c, s, Api(Submit(r, id, recipient, sendAt, priority, key)));
            var given := key.Some? && key.value != "";
            if given && key.value in s.keys then
              t.jobs == s.jobs && t.keys == s.keys && t.replies == s.replies[r := Losing(key.value)]
            else
              && t.jobs == s.jobs[id := Entry(
                   Job(recipient, priority, sendAt, Pending, 0, c.maxAttempts,
                       None, None, None, None, None, None, None, s.now),
                   History(0, 0, 0, 0, 0, 0, 0, 0, 0, 0, 0))]
              && t.keys == (if given then s.keys[key.value := id] else s.keys)
              && t.replies == s.replies[r := Created(id)]
  {
    hide DlqAfter, QueueAfter, LocksAfter, CountersAfter;
    var t := Apply(c, s, Api(Submit(r, id, recipient, sendAt, priority, key)));
    assert forall j | j in s.jobs && j != id :: t.jobs[j] == s.jobs[j];
  }

  // -------------------------------------------------------------- promotion

  lemma SmallBatchesTakeAll(n: nat, pool: set<JobId>, batch: set<JobId>)
    requires IsLimited(n, pool, batch) && |batch| < n
    ensures batch == pool
  {
    assert pool == batch + (pool - batch);
    assert |pool| == |batch| + |pool - batch|;
  }

  /** The WHERE and the LIMIT of `PROMOTE_DUE_JOBS`, written out: the rows taken are
      pending, not locked and due within the lookahead, none of them behind one
      left; and if they are fewer than the limit, none such is left. */
  predicate TakesTheDue(c: Config, s: State, skipped: set<JobId>, batch: set<JobId>) {
    && batch <= s.jobs.Keys && batch !! skipped && |batch| <= c.batchSize
    && (forall j | j in batch :: s.jobs[j].row.status == Pending && s.jobs[j].row.sendAt <= s.now + c.lookahead)
    && (forall i, j | i in batch && j in s.jobs && j !in batch && j !in skipped
                      && s.jobs[j].row.status == Pending && s.jobs[j].row.sendAt <= s.now + c.lookahead ::
          var r, q := s.jobs[i].row, s.jobs[j].row;
          Rank(r.priority) < Rank(q.priority) || (r.priority == q.priority && r.sendAt <= q.sendAt))
    && (|batch| < c.batchSize ==>
          forall j | j in s.jobs && j !in batch && j !in skipped && s.jobs[j].row.status == Pending ::
            s.jobs[j].row.sendAt > s.now + c.lookahead)
  }

  lemma PromotionsTakeTheDue(c: Config, s: State, skipped: set<JobId>, batch: set<JobId>)
    requires IsPromotable(c.batchSize, s.jobs, DueJobs(c, s, skipped), batch)
    ensures TakesTheDue(c, s, skipped, batch)
  {
    if |batch| < c.batchSize { SmallBatchesTakeAll(c.batchSize, DueJobs(c, s, skipped), batch); }
    forall i, j | i in batch && j in s.jobs && j !in batch && j !in skipped
                  && s.jobs[j].row.status == Pending && s.jobs[j].row.sendAt <= s.now + c.lookahead
      ensures var r, q := s.jobs[i].row, s.jobs[j].row;
              Rank(r.priority) < Rank(q.priority) || (r.priority == q.priority && r.sendAt <= q.sendAt)
    {
      assert !DueBefore(s.jobs, j, i);
    }
  }

  /** The SET and the RETURNING: the rows taken become queued, with priority and due
      date as they were, and nothing else changes; if the statement locked no row
      out and took fewer than its limit, no pending row is left that is due. */
  predicate QueuesTheTaken(c: Config, s: State, t: State, d: SchedulerId, skipped: set<JobId>, batch: set<JobId>)
    requires batch <= s.jobs.Keys
  {
    && OnlyTouches(s, t, batch) && t.now == s.now && t.dlq == s.dlq
    && (forall j | j in batch ::
          var r, h := s.jobs[j].row, s.jobs[j].h;
          t.jobs[j] == Entry(r.(status := Queued, updatedAt := s.now),
                             h.(promotions := h.promotions + 1, changes := h.changes + 1)))
    && (skipped == {} && |batch| < c.batchSize ==>
          forall j | j in t.jobs && t.jobs[j].row.status == Pending :: t.jobs[j].row.sendAt > t.now + c.lookahead)
    && d in t.schedulers
    && t.schedulers[d] == if batch == {} then AtRecover
                          else Promoted(map j | j in batch :: Ticket(s.jobs[j].row.priority, s.jobs[j].row.sendAt))
  }

  lemma PromotionsMoveOn(c: Config, s: State, d: SchedulerId, skipped: set<JobId>, batch: set<JobId>)
    requires Enabled(c, s, Schedule(d, Promote(skipped, batch)))
    ensures IsPromotable(c.batchSize, s.jobs, DueJobs(c, s, skipped), batch)
    ensures WriteOf(c, s, Schedule(d, Promote(skipped, batch))) == PromoteRows(batch)
    ensures var t := Apply(c, s, Schedule(d, Promote(skipped, batch)));
            && d in t.schedulers
            && t.schedulers[d] == if batch == {} then AtRecover else Promoted(Tickets(s, batch))
  {
    hide JobsAfter, DlqAfter, KeysAfter, QueueAfter, LocksAfter, CountersAfter, IsPromotable, Tickets;
  }

  /** `PROMOTE_DUE_JOBS`, as the step it is. */
  lemma PromotionTakesExactlyTheDue(c: Config, s: State, d: SchedulerId, skipped: set<JobId>, batch: set<JobId>)
    requires Enabled(c, s, Schedule(d, Promote(skipped, batch)))
    ensures TakesTheDue(c, s, skipped, batch)
    ensures QueuesTheTaken(c, s, Apply(c, s, Schedule(d, Promote(skipped, batch))), d, skipped, batch)
  {
    hide Enabled, Apply, IsPromotable, DueIn;
    PromotionsMoveOn(c, s, d, skipped, batch);
    PromotionsTakeTheDue(c, s, skipped, batch);
    WritesTouchTheirOwn(c, s, Schedule(d, Promote(skipped, batch)));
  }

  /** A promotion may take a job, others being locked or not, if and only if it is
      pending and due within the lookahead. */
  lemma PromotableIffDue(c: Config, s: State, d: SchedulerId, j: JobId)
    requires c.batchSize >= 1 && d in s.schedulers && s.schedulers[d].AtPromote? && j in s.jobs
    ensures (exists skipped, batch :: j in batch && Enabled(c, s, Schedule(d, Promote(skipped, batch))))
            <==> s.jobs[j].row.status == Pending && s.jobs[j].row.sendAt <= s.now + c.lookahead
  {
    if s.jobs[j].row.status == Pending && s.jobs[j].row.sendAt <= s.now + c.lookahead {
      var skipped := DueIn(c, s.now, s.jobs) - {j};
      assert DueJobs(c, s, skipped) == {j};
      assert j in {j} && Enabled(c, s, Schedule(d, Promote(skipped, {j})));
    }
  }

  // ---------------------------------------------------------------- recovery

  /** `RECOVER_STALE_CLAIMED`, every column. */
  lemma RecoveryResetsTheSilent(c: Config, s: State, d: SchedulerId, j: JobId)
    requires Enabled(c, s, Schedule(d, Recover)) && j in s.jobs
    ensures j in Apply(c, s, Schedule(d, Recover)).jobs
    ensures var e := s.jobs[j];
            Apply(c, s, Schedule(d, Recover)).jobs[j]
            == if e.row.status == Claimed && e.row.heartbeatAt.Some?
                  && e.row.heartbeatAt.value < s.now - c.heartbeatTimeout then
                 Entry(e.row.(status := Pending, attempts := e.row.attempts + 1, error := Some(WorkerDied),
                              workerId := None, claimedAt := None, heartbeatAt := None, updatedAt := s.now),
                       e.h.(reclaims := e.h.reclaims + 1, changes := e.h.changes + 1))
               else e
  {
    hide Apply;
    AppliedEntry(c, s, Schedule(d, Recover), j);
  }

  // ------------------------------------------------------------------- sweep

  /** `REQUEUE_STALE_QUEUED` writes nothing. The rows selected have been queued
      for longer than the limit of age; if they are fewer than the limit of
      number, no such row is left out. */
  lemma SweepsTakeTheStranded(c: Config, s: State, d: SchedulerId, batch: set<JobId>)
    requires Enabled(c, s, Schedule(d, Requeue(batch)))
    ensures batch <= s.jobs.Keys && |batch| <= c.batchSize
    ensures forall j | j in batch ::
              s.jobs[j].row.status == Queued && s.jobs[j].row.updatedAt < s.now - c.requeueAfter
    ensures |batch| < c.batchSize ==>
              forall j | j in s.jobs && j !in batch && s.jobs[j].row.status == Queued ::
                s.jobs[j].row.updatedAt >= s.now - c.requeueAfter
    ensures OnlyTouches(s, Apply(c, s, Schedule(d, Requeue(batch))), {})
    ensures Apply(c, s, Schedule(d, Requeue(batch))).schedulers[d]
            == if batch == {} then AtPromote
               else Requeueing(map j | j in batch :: Ticket(s.jobs[j].row.priority, s.jobs[j].row.sendAt))
  {
    hide JobsAfter, DlqAfter, KeysAfter, QueueAfter, LocksAfter, CountersAfter;
    WritesTouchTheirOwn(c, s, Schedule(d, Requeue(batch)));
    if |batch| < c.batchSize { SmallBatchesTakeAll(c.batchSize, StrandedJobs(c, s), batch); }
  }

  // ------------------------------------------------------------------ claims

  /** `CLAIM_QUEUED_JOB`, whoever else holds an entry or a lock. */
  lemma ClaimsTakeTheQueued(c: Config, s: State, w: WorkerId)
    requires Enabled(c, s, Work(w, Claim))
    ensures var j, t := s.workers[w].job, Apply(c, s, Work(w, Claim));
            if j in s.jobs && s.jobs[j].row.status == Queued then
              && OnlyTouches(s, t, {j}) && j in t.jobs
              && t.jobs[j] == Entry(
                   s.jobs[j].row.(status := Claimed, workerId := Some(w), claimedAt := Some(s.now),
                                  heartbeatAt := Some(s.now), updatedAt := s.now),
                   s.jobs[j].h.(claims := s.jobs[j].h.claims + 1, changes := s.jobs[j].h.changes + 1))
            else OnlyTouches(s, t, {})
  {
    hide Apply;
    WritesTouchTheirOwn(c, s, Work(w, Claim));
  }

  /** `worker_id = $n AND status = 'claimed'`, the WHERE clause of four statements. */
  predicate IsHeldBy(r: Job, who: Option<WorkerId>) {
    r.status == Claimed && who.Some? && r.workerId == who
  }

  /** `UPDATE_HEARTBEAT`, of a row that names this worker. */
  lemma HeartbeatsRefreshTheRow(c: Config, s: State, w: WorkerId)
    requires Enabled(c, s, Work(w, Beat))
    ensures var j, t := s.workers[w].job, Apply(c, s, Work(w, Beat));
            && OnlyTouches(s, t, {j}) && j in t.jobs && t.workers == s.workers
            && t.jobs[j] == if IsHeldBy(s.jobs[j].row, Some(w)) then
                              Entry(s.jobs[j].row.(heartbeatAt := Some(s.now), updatedAt := s.now), s.jobs[j].h)
                            else s.jobs[j]
  {
    hide JobsAfter, DlqAfter, QueueAfter, LocksAfter, CountersAfter, EntryAfter;
    WritesTouchTheirOwn(c, s, Work(w, Beat));
    BeatsWrite(c, s, w);
  }

  lemma BeatsWrite(c: Config, s: State, w: WorkerId)
    requires Enabled(c, s, Work(w, Beat))
    ensures var j := s.workers[w].job;
            && WriteOf(c, s, Work(w, Beat)) == (if IsHeldBy(s.jobs[j].row, Some(w)) then BeatRow(j) else NoWrite)
            && EntryAfter(s.now, BeatRow(j), j, s.jobs[j])
               == Entry(s.jobs[j].row.(heartbeatAt := Some(s.now), updatedAt := s.now), s.jobs[j].h)
            && EntryAfter(s.now, NoWrite, j, s.jobs[j]) == s.jobs[j]
  {
  }

  // ---------------------------------------------------------------- outcomes

  /** `MARK_SENT` */
  lemma SendsMarkTheRow(c: Config, s: State, w: WorkerId)
    requires c.fence == ByWorkerId && Enabled(c, s, Work(w, Succeed))
    ensures var p, t := s.workers[w], Apply(c, s, Work(w, Succeed));
            var e := s.jobs[p.job];
            && OnlyTouches(s, t, {p.job}) && t.dlq == s.dlq && p.job in t.jobs
            && t.jobs[p.job] == if IsHeldBy(e.row, p.view.workerId) then
                                  Entry(e.row.(status := Sent, sentAt := Some(s.now), updatedAt := s.now),
                                        e.h.(sends := e.h.sends + 1, changes := e.h.changes + 1))
                                else e
  {
    hide Apply;
    WritesTouchTheirOwn(c, s, Work(w, Succeed));
  }

  /** `SCHEDULE_RETRY`: below the cap the job becomes pending, due after the backoff
      of the attempt that failed, counted from the worker's reading of the clock. */
  lemma RetriesComeDueAfterTheBackoff(c: Config, s: State, w: WorkerId, at: int)
    requires c.fence == ByWorkerId && Enabled(c, s, Work(w, Fail(at)))
    requires s.workers[w].view.attempts + 1 < s.workers[w].view.maxAttempts
    ensures var p, t := s.workers[w], Apply(c, s, Work(w, Fail(at)));
            var e, due := s.jobs[p.job], at + c.baseDelay * Pow2(p.view.attempts);
            && OnlyTouches(s, t, {p.job}) && t.dlq == s.dlq && p.job in t.jobs
            && t.jobs[p.job] == if IsHeldBy(e.row, p.view.workerId) then
                                  Entry(e.row.(status := Pending, attempts := p.view.attempts + 1,
                                               nextRetryAt := Some(due), sendAt := due,
                                               error := Some(DeliveryFailed), workerId := None,
                                               claimedAt := None, heartbeatAt := None, updatedAt := s.now),
                                        e.h.(failures := e.h.failures + 1, changes := e.h.changes + 1,
                                             firstFailure := if e.h.failures == 0 then at else e.h.firstFailure,
                                             lastFailure := at))
                                else e
  {
    hide Apply;
    WritesTouchTheirOwn(c, s, Work(w, Fail(at)));
  }

  /** `DEFER_TO_NEXT_WINDOW`: the job becomes pending, due `retryAfter` seconds after
      the worker's second reading of the clock; no attempt is charged. */
  lemma DeferralsComeDueLater(c: Config, s: State, w: WorkerId, at: int)
    requires c.fence == ByWorkerId && Enabled(c, s, Work(w, Defer(at)))
    ensures var p, t := s.workers[w], Apply(c, s, Work(w, Defer(at)));
            var e := s.jobs[p.job];
            && OnlyTouches(s, t, {p.job}) && t.dlq == s.dlq && p.job in t.jobs
            && t.jobs[p.job] == if IsHeldBy(e.row, p.view.workerId) then
                                  Entry(e.row.(status := Pending, sendAt := at + p.retryAfter * SECOND,
                                               workerId := None, claimedAt := None, heartbeatAt := None,
                                               updatedAt := s.now),
                                        e.h.(deferrals := e.h.deferrals + 1, changes := e.h.changes + 1))
                                else e
  {
    hide Apply;
    WritesTouchTheirOwn(c, s, Work(w, Defer(at)));
  }

  /** The transaction of `dead_letter` after a failure at the cap: the row and the
      dead letter carry the same attempt, and the letter the recipient fetched. */
  lemma FailuresAtTheCapLeaveALetter(c: Config, s: State, w: WorkerId, at: int)
    requires c.fence == ByWorkerId && Enabled(c, s, Work(w, Fail(at)))
    requires s.workers[w].view.attempts + 1 >= s.workers[w].view.maxAttempts
    ensures var p, t := s.workers[w], Apply(c, s, Work(w, Fail(at)));
            var e, attempt := s.jobs[p.job], p.view.attempts + 1;
            && OnlyTouches(s, t, {p.job}) && p.job in t.jobs
            && if e.row.workerId == p.view.workerId then
                 && t.dlq == s.dlq + [DeadLetter(p.job, p.view.recipient, attempt, DeliveryFailed)]
                 && t.jobs[p.job] == Entry(
                      e.row.(status := DeadLettered, error := Some(DeliveryFailed), attempts := attempt,
                             failedAt := Some(s.now), workerId := None, claimedAt := None, heartbeatAt := None,
                             updatedAt := s.now),
                      e.h.(failures := e.h.failures + 1, changes := e.h.changes + 1,
                           firstFailure := if e.h.failures == 0 then at else e.h.firstFailure, lastFailure := at))
               else t.dlq == s.dlq && t.jobs[p.job] == e
  {
    hide Apply;
    WritesTouchTheirOwn(c, s, Work(w, Fail(at)));
  }

  /** The same from recovery, for a row it has reset: the attempts it remembers. */
  lemma BurialsAfterRecoveryLeaveALetter(c: Config, s: State, d: SchedulerId)
    requires Enabled(c, s, Schedule(d, Bury))
    ensures var p, t := s.schedulers[d], Apply(c, s, Schedule(d, Bury));
            var e := s.jobs[p.job];
            && OnlyTouches(s, t, {p.job}) && p.job in t.jobs
            && if e.row.workerId.None? then
                 && t.dlq == s.dlq + [DeadLetter(p.job, e.row.recipient, p.attempts, WorkerDied)]
                 && t.jobs[p.job] == Entry(
                      e.row.(status := DeadLettered, error := Some(WorkerDied), attempts := p.attempts,
                             failedAt := Some(s.now), workerId := None, claimedAt := None, heartbeatAt := None,
                             updatedAt := s.now),
                      e.h.(changes := e.h.changes + 1))
               else t.dlq == s.dlq && t.jobs[p.job] == e
  {
    hide Apply;
    WritesTouchTheirOwn(c, s, Schedule(d, Bury));
  }

  // ----------------------------------------------------------------- replays

  /** `RETRY_DEAD_LETTERED_JOB`: a dead-lettered job starts afresh, due at once; of
      any other nothing changes. */
  lemma ReplaysComeDueAtOnce(c: Config, s: State, j: JobId)
    requires Enabled(c, s, Api(Replay(j)))
    ensures var t := Apply(c, s, Api(Replay(j)));
            && OnlyTouches(s, t, {j}) && t.dlq == s.dlq
            && (j in s.jobs ==>
                  var e := s.jobs[j];
                  && j in t.jobs
                  && t.jobs[j] == if e.row.status == DeadLettered then
                                    Entry(e.row.(status := Pending, attempts := 0, sendAt := s.now,
                                                 nextRetryAt := None, error := None, failedAt := None,
                                                 workerId := None, claimedAt := None, heartbeatAt := None,
                                                 updatedAt := s.now),
                                          History(e.h.promotions, e.h.claims, e.h.replays + 1, e.h.sends,
                                                  0, 0, 0, 0, 0, 0, 0))
                                  else e)
  {
    hide Apply;
    WritesTouchTheirOwn(c, s, Api(Replay(j)));
  }
}
