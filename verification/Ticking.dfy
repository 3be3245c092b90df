/** The scheduler: its three phases and the loop around them, running among
    everybody else. */
module Ticking {
  import opened Types
  import opened Scores
  import opened Protocol
  import opened Steps
  import opened Columns
  import opened Accounting
  import opened Rows
  import opened Store
  import opened Cluster

  // ------------------------------------------------------------- the tick

  /** A tick was lost: its last step, and no other, is an abort. */
  predicate LostSince(before: seq<SchedulerOp>, after: seq<SchedulerOp>) {
    && |before| < |after| && before <= after && after[|after| - 1] == AbortTick
    && forall i | |before| <= i < |after| - 1 :: after[i] != AbortTick
  }

  predicate Unbroken(before: seq<SchedulerOp>, after: seq<SchedulerOp>) {
    before <= after && forall i | |before| <= i < |after| :: after[i] != AbortTick
  }

  lemma LossesCarry(before: seq<SchedulerOp>, middle: seq<SchedulerOp>)
    requires Unbroken(before, middle)
    ensures forall after | LostSince(middle, after) :: LostSince(before, after)
  {
    forall after | LostSince(middle, after) ensures LostSince(before, after) {
      assert forall i | 0 <= i < |middle| :: after[i] == middle[i];
    }
  }

  function PromotionSteps(skipped: set<JobId>, batch: set<JobId>): seq<SchedulerOp> {
    if batch == {} then [Promote(skipped, batch)] else [Promote(skipped, batch), SchedulerOp.Enqueue]
  }

  function SweepSteps(batch: set<JobId>): seq<SchedulerOp> {
    if batch == {} then [Requeue(batch)] else [Requeue(batch), SchedulerOp.Enqueue]
  }

  /** One recovery, then the locks of exactly these rows, with burials in between. */
  ghost predicate RecoverySteps(ops: seq<SchedulerOp>, rows: set<JobId>) {
    && ops != [] && ops[0] == Recover
    && (forall i | 1 <= i < |ops| :: ops[i].Unlock? || ops[i].Bury? || ops[i].ReleaseBuried? || ops[i].AnnounceBuried?)
    && (forall j :: Unlock(j) in ops <==> j in rows)
  }

  /** A whole tick: the three phases, in order. */
  ghost predicate CompleteTick(ops: seq<SchedulerOp>) {
    exists skipped, promoted, recovery, reset, requeued ::
      && ops == PromotionSteps(skipped, promoted) + recovery + SweepSteps(requeued)
      && RecoverySteps(recovery, reset)
  }

  /** The loop of `_enqueue`: one `ZADD` for each row, sent together. */
  method BuildPipeline(rows: map<JobId, Ticket>) returns (pipe: map<Slot, int>)
    ensures pipe == Members(rows)
  {
    hide Members;
    pipe := map[];
    MembersOfNone(rows);
    var rest := rows.Keys;
    while rest != {}
      invariant rest <= rows.Keys
      invariant pipe == Members(rows - rest)
      decreases |rest|
    {
      var j :| j in rest;
      var row := rows[j];
      OneMoreMember(rows, rest, j);
      pipe := pipe[Slot(row.priority, j) := PriorityScore(row.priority, row.sendAt)];
      rest := rest - {j};
    }
    assert rows - {} == rows;
  }

  lemma MembersOfNone(rows: map<JobId, Ticket>)
    ensures Members(rows - rows.Keys) == map[]
  {
  }

  lemma OneMoreMember(rows: map<JobId, Ticket>, rest: set<JobId>, j: JobId)
    requires rest <= rows.Keys && j in rest
    ensures Members(rows - (rest - {j}))
            == Members(rows - rest)[Slot(rows[j].priority, j) := PriorityScore(rows[j].priority, rows[j].sendAt)]
  {
    hide Members;
    var fewer, more := rows - rest, rows - (rest - {j});
    var slot := Slot(rows[j].priority, j);
    forall other: Slot
      ensures other in Members(more) <==> other in Members(fewer) || other == slot
      ensures other in Members(fewer) ==> Members(more)[other] == Members(fewer)[other]
    {
      IsMember(more, other);
      IsMember(fewer, other);
    }
    IsMember(more, slot);
    IsMember(fewer, slot);
  }

  /** `_enqueue`, for the batch of a promotion or of a sweep */
  method Enqueue(cl: Cluster, d: SchedulerId, rows: map<JobId, Ticket>) returns (r: Outcome<()>)
    requires cl.Valid() && d in cl.schedulers && cl.schedulers[d] in {Promoted(rows), Requeueing(rows)}
    modifies cl, cl.db, cl.redis
    ensures cl.Valid() && cl.Continues() && d in cl.schedulers
    ensures cl.schedulers[d] == if r.Ok? && old(cl.schedulers[d].Promoted?) then AtRecover else AtPromote
    ensures r.Ok? ==> forall j | j in rows ::
              var slot := Slot(rows[j].priority, j);
              slot in cl.redis.queue && cl.redis.queue[slot] == PriorityScore(rows[j].priority, rows[j].sendAt)
    ensures r.Ok? ==> cl.Log(d) == old(cl.Log(d)) + [SchedulerOp.Enqueue]
    ensures r.Raised? ==> LostSince(old(cl.Log(d)), cl.Log(d))
  {
    hide cl.RanTo, Apply, JobsAfter, Members, OpsOf, DidStep;
    var pipe := BuildPipeline(rows);
    var _ :- cl.AwaitTick(d);
    var before := cl.Snapshot();
    cl.redis.AddAll(pipe);
    NoRowWrite(cl.now, cl.db.jobs);
    cl.Scheduled(d, Protocol.Enqueue, before);
    MembersHold(rows);
    r := Ok(());
  }

  lemma MembersHold(rows: map<JobId, Ticket>)
    ensures forall j | j in rows ::
              var slot := Slot(rows[j].priority, j);
              slot in Members(rows) && Members(rows)[slot] == PriorityScore(rows[j].priority, rows[j].sendAt)
  {
  }

  /** Each of these jobs has been promoted since `s`. */
  predicate PromotedSince(s: State, t: State, rows: set<JobId>) {
    forall j | j in rows :: j in s.jobs ==> j in t.jobs && t.jobs[j].h.promotions > s.jobs[j].h.promotions
  }

  lemma PromotesRows(now: int, jobs: map<JobId, Entry>, rows: set<JobId>)
    requires rows <= jobs.Keys
    ensures forall j | j in rows :: JobsAfter(now, PromoteRows(rows), jobs)[j].h.promotions == jobs[j].h.promotions + 1
  {
  }

  /** `PROMOTE_DUE_JOBS` */
  method MarkQueued(cl: Cluster, d: SchedulerId) returns (r: Outcome<map<JobId, Ticket>>, ghost skipped: set<JobId>)
    requires cl.Valid() && d in cl.schedulers && cl.schedulers[d] == AtPromote
    modifies cl, cl.db, cl.redis
    ensures cl.Valid() && cl.Continues() && d in cl.schedulers
    ensures cl.schedulers[d]
            == if r.Raised? then AtPromote else if r.value == map[] then AtRecover else Promoted(r.value)
    ensures r.Ok? ==> PromotedSince(old(cl.Snapshot()), cl.Snapshot(), r.value.Keys)
    ensures r.Ok? ==>
              cl.Did(old(|cl.trace|), Schedule(d, Promote(skipped, r.value.Keys)), PromoteRows(r.value.Keys))
    ensures r.Ok? ==> cl.Log(d) == old(cl.Log(d)) + [Promote(skipped, r.value.Keys)]
    ensures r.Raised? ==> LostSince(old(cl.Log(d)), cl.Log(d))
  {
    hide cl.RanTo, Apply, JobsAfter, IsPromotable, Evolves, PromotedSince, OpsOf, TookStep;
    skipped := {};
    var _ :- cl.AwaitTick(d);
    cl.WentOn();
    var before := cl.Snapshot();
    var locked: set<JobId> := *;
    skipped := locked;
    var rows := cl.db.PromoteDue(cl.c, cl.now, locked);
    assert rows == Tickets(before, rows.Keys);
    cl.Scheduled(d, Promote(locked, rows.Keys), before);
    PromotesSince(old(cl.Snapshot()), before, cl.Snapshot(), rows.Keys);
    r := Ok(rows);
  }

  lemma PromotesSince(s: State, t: State, u: State, rows: set<JobId>)
    requires Evolves(s, t) && rows <= t.jobs.Keys && u.jobs == JobsAfter(t.now, PromoteRows(rows), t.jobs)
    ensures PromotedSince(s, u, rows)
  {
    PromotesRows(t.now, t.jobs, rows);
  }

  /** Among the steps from number `from` on, a promotion that skipped these took
      exactly `batch`, by the letter of its WHERE, and queued it. */
  ghost predicate PromotionOnRecord(
      c: Config, start: int, trace: seq<Action>, from: nat, d: SchedulerId, skipped: set<JobId>, batch: set<JobId>)
  {
    exists s, t ::
      && MovedStep(c, start, trace, from, Schedule(d, Promote(skipped, batch)), s, t)
      && TakesTheDue(c, s, skipped, batch) && QueuesTheTaken(c, s, t, d, skipped, batch)
  }

  lemma PromotionsAreOnRecord(
      c: Config, start: int, trace: seq<Action>, from: nat, d: SchedulerId, skipped: set<JobId>, batch: set<JobId>)
    requires DidStep(c, start, trace, from, Schedule(d, Promote(skipped, batch)), PromoteRows(batch))
    ensures PromotionOnRecord(c, start, trace, from, d, skipped, batch)
  {
    hide DidStep, MovedStep, Enabled, Apply, WriteOf, TakesTheDue, QueuesTheTaken;
    var s, t := StepTaken(c, start, trace, from, Schedule(d, Promote(skipped, batch)), PromoteRows(batch));
    PromotionTakesExactlyTheDue(c, s, d, skipped, batch);
  }

  /** `promote_due_jobs`: the jobs returned are those this call's promotion took, the
      due ones it could see, up to the limit; each has been promoted since the call
      began. */
  method PromoteDueJobs(cl: Cluster, d: SchedulerId) returns (r: Outcome<set<JobId>>, ghost skipped: set<JobId>)
    requires cl.Valid() && d in cl.schedulers && cl.schedulers[d] == AtPromote
    modifies cl, cl.db, cl.redis
    ensures cl.Valid() && cl.Continues() && d in cl.schedulers
    ensures cl.schedulers[d] == if r.Ok? then AtRecover else AtPromote
    ensures r.Ok? ==> PromotedSince(old(cl.Snapshot()), cl.Snapshot(), r.value)
    ensures r.Ok? ==> PromotionOnRecord(cl.c, cl.start, cl.trace, old(|cl.trace|), d, skipped, r.value)
    ensures r.Ok? ==> cl.Log(d) == old(cl.Log(d)) + PromotionSteps(skipped, r.value)
    ensures r.Raised? ==> LostSince(old(cl.Log(d)), cl.Log(d))
  {
    hide cl.Valid, cl.Snapshot, cl.Claims, Evolves, PromotedSince, OpsOf, DidStep, PromotionOnRecord, LostSince;
    var rows;
    rows, skipped :- MarkQueued(cl, d);
    LossesCarry(old(cl.Log(d)), cl.Log(d));
    ghost var marked, promoted, from := cl.Snapshot(), cl.trace, |old(cl.trace)|;
    label marked:
    if rows != map[] {
      var _ :- Enqueue(cl, d, rows);
    }
    cl.WentOn@marked();
    StillPromoted(old(cl.Snapshot()), marked, cl.Snapshot(), rows.Keys);
    WhatIsDoneIsDone(cl.c, cl.start, promoted, cl.trace, from,
                     Schedule(d, Promote(skipped, rows.Keys)), PromoteRows(rows.Keys));
    PromotionsAreOnRecord(cl.c, cl.start, cl.trace, from, d, skipped, rows.Keys);
    r := Ok(rows.Keys);
  }

  lemma StillPromoted(s: State, t: State, u: State, rows: set<JobId>)
    requires PromotedSince(s, t, rows) && Evolves(t, u)
    ensures PromotedSince(s, u, rows)
  {
  }

  // -------------------------------------------------------------- recovery

  lemma Recovers(c: Config, s: State, rows: map<JobId, Reclaimed>)
    requires rows.Keys == StaleIn(c, s.now, s.jobs)
    requires forall j | j in rows :: rows[j] == Reclaimed(s.jobs[j].row.attempts + 1, s.jobs[j].row.maxAttempts)
    ensures CanSchedule(c, s, AtRecover, Recover)
    ensures SchedulerDoes(c, s, AtRecover, Recover) == SWrites(Handling(rows), ReclaimRows(rows.Keys))
  {
    assert rows == RowsReset(c, s);
  }

  /** `RECOVER_STALE_CLAIMED` */
  method ResetSilent(cl: Cluster, d: SchedulerId) returns (r: Outcome<map<JobId, Reclaimed>>)
    requires cl.Valid() && d in cl.schedulers && cl.schedulers[d] == AtRecover
    modifies cl, cl.db, cl.redis
    ensures cl.Valid() && cl.Continues() && d in cl.schedulers
    ensures cl.schedulers[d] == if r.Ok? then Handling(r.value) else AtPromote
    ensures r.Ok? ==> cl.Did(old(|cl.trace|), Schedule(d, Recover), ReclaimRows(r.value.Keys))
    ensures r.Ok? ==> cl.Log(d) == old(cl.Log(d)) + [Recover]
    ensures r.Raised? ==> LostSince(old(cl.Log(d)), cl.Log(d))
  {
    hide cl.RanTo, Apply, JobsAfter, StaleIn, SchedulerDoes, CanSchedule, OpsOf, TookStep;
    var _ :- cl.AwaitTick(d);
    var before := cl.Snapshot();
    var rows := cl.db.RecoverStale(cl.c, cl.now);
    Recovers(cl.c, before, rows);
    cl.Scheduled(d, Recover, before);
    r := Ok(rows);
  }

  /** `redis_client.delete(f"job:lock:{job['id']}")` in the loop over the rows */
  method DeleteStaleLock(cl: Cluster, d: SchedulerId, j: JobId, rows: map<JobId, Reclaimed>) returns (r: Outcome<()>)
    requires cl.Valid() && d in cl.schedulers && cl.schedulers[d] == Recovering(rows) && j in rows
    modifies cl, cl.db, cl.redis
    ensures cl.Valid() && cl.Continues() && d in cl.schedulers
    ensures cl.schedulers[d]
            == if r.Raised? then AtPromote
               else if rows[j].attempts >= rows[j].maxAttempts then Burying(j, rows[j].attempts, rows - {j})
               else Handling(rows - {j})
    ensures r.Ok? ==> cl.Log(d) == old(cl.Log(d)) + [Unlock(j)]
    ensures r.Raised? ==> LostSince(old(cl.Log(d)), cl.Log(d))
  {
    hide cl.RanTo, Apply, JobsAfter, OpsOf, DidStep;
    var _ :- cl.AwaitTick(d);
    var before := cl.Snapshot();
    cl.redis.Unlock(j);
    NoRowWrite(cl.now, cl.db.jobs);
    cl.Scheduled(d, Unlock(j), before);
    r := Ok(());
  }

  lemma BuriesReset(c: Config, s: State, d: SchedulerId, marked: bool)
    requires d in s.schedulers && s.schedulers[d].Burying? && s.schedulers[d].job in s.jobs
    requires marked == s.jobs[s.schedulers[d].job].row.workerId.None?
    ensures CanSchedule(c, s, s.schedulers[d], Bury)
    ensures var p := s.schedulers[d];
            SchedulerDoes(c, s, p, Bury)
            == if marked then
                 SWrites(Unlocking(p.job, p.rows), BuryReclaimed(p.job, s.jobs[p.job].row.recipient, p.attempts))
               else SGoes(Handling(p.rows))
  {
  }

  /** The transaction of `dead_letter`, called with `expected_worker_id=None` */
  method BuryReset(cl: Cluster, d: SchedulerId, j: JobId, attempts: nat, rows: map<JobId, Reclaimed>)
    returns (r: Outcome<bool>)
    requires cl.Valid() && d in cl.schedulers && cl.schedulers[d] == Burying(j, attempts, rows)
    modifies cl, cl.db, cl.redis
    ensures cl.Valid() && cl.Continues() && d in cl.schedulers
    ensures cl.schedulers[d] == if r.Raised? then AtPromote else if r.value then Unlocking(j, rows) else Handling(rows)
    ensures r.Ok? && r.value ==> DlqRows(cl.db.dlq, j) > 0
    ensures r.Ok? ==> cl.Log(d) == old(cl.Log(d)) + [Bury]
    ensures r.Raised? ==> LostSince(old(cl.Log(d)), cl.Log(d))
  {
    hide cl.RanTo, Apply, JobsAfter, Reachable, EntriesSound, SchedulerDoes, CanSchedule, DlqRows, EntryAfter;
    hide OpsOf, DidStep;
    var _ :- cl.AwaitTick(d);
    var before := cl.Snapshot();
    cl.IsReachable();
    assert SchedulerSound(before.jobs.Keys, before.schedulers[d]);
    var recipient := cl.db.jobs[j].row.recipient;
    var marked := cl.db.DeadLetterJob(cl.now, BuryReclaimed(j, recipient, attempts), None);
    DlqRowsAfter(before.dlq, DeadLetter(j, recipient, attempts, WorkerDied), j);
    BuriesReset(cl.c, before, d, marked);
    cl.Scheduled(d, Bury, before);
    r := Ok(marked);
  }

  method ReleaseBuriedLock(cl: Cluster, d: SchedulerId, j: JobId, rows: map<JobId, Reclaimed>) returns (r: Outcome<()>)
    requires cl.Valid() && d in cl.schedulers && cl.schedulers[d] == Unlocking(j, rows)
    modifies cl, cl.db, cl.redis
    ensures cl.Valid() && cl.Continues() && d in cl.schedulers
    ensures cl.schedulers[d] == if r.Ok? then Telling(j, rows) else AtPromote
    ensures r.Ok? ==> cl.Log(d) == old(cl.Log(d)) + [ReleaseBuried]
    ensures r.Raised? ==> LostSince(old(cl.Log(d)), cl.Log(d))
  {
    hide cl.RanTo, Apply, JobsAfter, OpsOf, DidStep;
    var _ :- cl.AwaitTick(d);
    var before := cl.Snapshot();
    cl.redis.Unlock(j);
    NoRowWrite(cl.now, cl.db.jobs);
    cl.Scheduled(d, ReleaseBuried, before);
    r := Ok(());
  }

  method AnnounceBurial(cl: Cluster, d: SchedulerId, j: JobId, rows: map<JobId, Reclaimed>) returns (r: Outcome<()>)
    requires cl.Valid() && d in cl.schedulers && cl.schedulers[d] == Telling(j, rows)
    modifies cl, cl.db, cl.redis
    ensures cl.Valid() && cl.Continues() && d in cl.schedulers
    ensures cl.schedulers[d] == if r.Ok? then Handling(rows) else AtPromote
    ensures r.Ok? ==> cl.Log(d) == old(cl.Log(d)) + [AnnounceBuried]
    ensures r.Raised? ==> LostSince(old(cl.Log(d)), cl.Log(d))
  {
    hide cl.RanTo, Apply, JobsAfter, OpsOf, DidStep;
    var _ :- cl.AwaitTick(d);
    var before := cl.Snapshot();
    NoRowWrite(cl.now, cl.db.jobs);
    cl.Scheduled(d, AnnounceBuried, before);
    r := Ok(());
  }

  /** `dead_letter`, from recovery */
  method DeadLetterReset(cl: Cluster, d: SchedulerId, j: JobId, attempts: nat, rows: map<JobId, Reclaimed>)
    returns (r: Outcome<()>)
    requires cl.Valid() && d in cl.schedulers && cl.schedulers[d] == Burying(j, attempts, rows)
    modifies cl, cl.db, cl.redis
    ensures cl.Valid() && cl.Continues() && d in cl.schedulers
    ensures cl.schedulers[d] == if r.Ok? then Handling(rows) else AtPromote
    ensures r.Ok? ==>
              || cl.Log(d) == old(cl.Log(d)) + [Bury]
              || cl.Log(d) == old(cl.Log(d)) + [Bury, ReleaseBuried, AnnounceBuried]
    ensures r.Raised? ==> LostSince(old(cl.Log(d)), cl.Log(d))
  {
    hide cl.Valid, OpsOf, LostSince;
    var marked :- BuryReset(cl, d, j, attempts, rows);
    if !marked {
      return Ok(());
    }
    LossesCarry(old(cl.Log(d)), cl.Log(d));
    var _ :- ReleaseBuriedLock(cl, d, j, rows);
    LossesCarry(old(cl.Log(d)), cl.Log(d));
    r := AnnounceBurial(cl, d, j, rows);
    assert old(cl.Log(d)) + [Bury] + [ReleaseBuried] + [AnnounceBuried]
           == old(cl.Log(d)) + [Bury, ReleaseBuried, AnnounceBuried];
  }

  /** With one scheduler, own fetches and no recovery ever interrupted, no live
      job has spent its attempts. */
  predicate NoPoisonLeft(s: State) {
    !s.foreignFetch && OneScheduler(s) ==>
      forall j | j in s.jobs && s.jobs[j].row.status != DeadLettered && s.jobs[j].row.maxAttempts >= 1 ::
        s.jobs[j].row.attempts < s.jobs[j].row.maxAttempts + s.jobs[j].h.interruptions
  }

  lemma RecoveryLeavesNoPoison(c: Config, s: State, d: SchedulerId)
    requires Reachable(c, s) && d in s.schedulers && s.schedulers[d].AtRequeue?
    ensures NoPoisonLeft(s)
  {
    if !s.foreignFetch && OneScheduler(s) {
      forall j | j in s.jobs && s.jobs[j].row.status != DeadLettered && s.jobs[j].row.maxAttempts >= 1
        ensures s.jobs[j].row.attempts < s.jobs[j].row.maxAttempts + s.jobs[j].h.interruptions
      {
        AttemptsAreCapped(c, s, j);
        assert forall e | e in s.schedulers :: e == d && s.schedulers[e].Mourned() == {};
        assert j !in AllMourned(s);
      }
    }
  }

  /** The locks deleted so far are those of the rows handled so far. */
  ghost predicate RecoverySoFar(before: seq<SchedulerOp>, after: seq<SchedulerOp>, handled: set<JobId>) {
    before <= after && RecoverySteps(after[|before|..], handled)
  }

  predicate HandlesRow(before: seq<SchedulerOp>, after: seq<SchedulerOp>, j: JobId) {
    || after == before + [Unlock(j)]
    || after == before + [Unlock(j), Bury]
    || after == before + [Unlock(j), Bury, ReleaseBuried, AnnounceBuried]
  }

  lemma RecoveryBegins(before: seq<SchedulerOp>, rows: map<JobId, Reclaimed>)
    ensures RecoverySoFar(before, before + [Recover], rows.Keys - rows.Keys)
  {
    assert (before + [Recover])[|before|..] == [Recover];
  }

  lemma OneMoreHandled(before: seq<SchedulerOp>, middle: seq<SchedulerOp>, after: seq<SchedulerOp>,
                       rows: map<JobId, Reclaimed>, rest: map<JobId, Reclaimed>, j: JobId)
    requires RecoverySoFar(before, middle, rows.Keys - rest.Keys) && j in rest && rest.Keys <= rows.Keys
    requires HandlesRow(middle, after, j)
    ensures RecoverySoFar(before, after, rows.Keys - (rest - {j}).Keys)
  {
    var more := after[|middle|..];
    SliceOf(before, middle, more);
    StepsOfRow(middle, after, j);
    assert rows.Keys - (rest - {j}).Keys == rows.Keys - rest.Keys + {j};
    OneMoreRow(middle[|before|..], more, rows.Keys - rest.Keys, j);
  }

  lemma SliceOf(before: seq<SchedulerOp>, middle: seq<SchedulerOp>, more: seq<SchedulerOp>)
    requires before <= middle
    ensures before <= middle + more
    ensures (middle + more)[|before|..] == middle[|before|..] + more
  {
  }

  lemma StepsOfRow(before: seq<SchedulerOp>, after: seq<SchedulerOp>, j: JobId)
    requires HandlesRow(before, after, j)
    ensures before <= after && HandlesRow([], after[|before|..], j) && after == before + after[|before|..]
  {
  }

  lemma OneMoreRow(ops: seq<SchedulerOp>, more: seq<SchedulerOp>, handled: set<JobId>, j: JobId)
    requires RecoverySteps(ops, handled) && HandlesRow([], more, j)
    ensures RecoverySteps(ops + more, handled + {j})
  {
    assert Unlock(j) in more;
  }

  lemma RecoveriesAreUnbroken(before: seq<SchedulerOp>, after: seq<SchedulerOp>, handled: set<JobId>)
    requires RecoverySoFar(before, after, handled)
    ensures Unbroken(before, after)
  {
    var ops := after[|before|..];
    assert forall i | |before| <= i < |after| :: after[i] == ops[i - |before|];
  }

  /** The body of the loop over the rows */
  method HandleRow(cl: Cluster, d: SchedulerId, j: JobId, rows: map<JobId, Reclaimed>) returns (r: Outcome<()>)
    requires cl.Valid() && d in cl.schedulers && cl.schedulers[d] == Recovering(rows) && j in rows
    modifies cl, cl.db, cl.redis
    ensures cl.Valid() && cl.Continues() && d in cl.schedulers
    ensures cl.schedulers[d] == if r.Ok? then Handling(rows - {j}) else AtPromote
    ensures r.Ok? ==> HandlesRow(old(cl.Log(d)), cl.Log(d), j)
    ensures r.Raised? ==> LostSince(old(cl.Log(d)), cl.Log(d))
  {
    hide cl.Valid, OpsOf, Handling, LostSince;
    var row := rows[j];
    var _ :- DeleteStaleLock(cl, d, j, rows);
    ghost var log := cl.Log(d);
    LossesCarry(old(cl.Log(d)), log);
    if row.attempts >= row.maxAttempts {
      var _ :- DeadLetterReset(cl, d, j, row.attempts, rows - {j});
      assert log + [Bury] == old(cl.Log(d)) + [Unlock(j), Bury];
      assert log + [Bury, ReleaseBuried, AnnounceBuried]
             == old(cl.Log(d)) + [Unlock(j), Bury, ReleaseBuried, AnnounceBuried];
    }
    r := Ok(());
  }

  /** The loop itself, after the reset that `log` ended with */
  method HandleRows(cl: Cluster, d: SchedulerId, rows: map<JobId, Reclaimed>, ghost log: seq<SchedulerOp>)
    returns (r: Outcome<()>)
    requires cl.Valid() && d in cl.schedulers && cl.schedulers[d] == Handling(rows)
    requires cl.Log(d) == log + [Recover]
    modifies cl, cl.db, cl.redis
    ensures cl.Valid() && cl.Continues() && d in cl.schedulers
    ensures cl.schedulers[d] == if r.Ok? then AtRequeue else AtPromote
    ensures r.Ok? ==> RecoverySoFar(log, cl.Log(d), rows.Keys)
    ensures r.Raised? ==> LostSince(log, cl.Log(d))
  {
    hide cl.Valid, cl.Snapshot, cl.Claims, OpsOf, RecoverySoFar, LostSince, HandlesRow, Unbroken;
    var rest := rows;
    RecoveryBegins(log, rows);
    while rest != map[]
      invariant cl.Valid() && cl.Continues() && d in cl.schedulers && cl.schedulers[d] == Handling(rest)
      invariant rest.Keys <= rows.Keys && RecoverySoFar(log, cl.Log(d), rows.Keys - rest.Keys)
      decreases |rest|
    {
      ghost var before := cl.Log(d);
      var j :| j in rest;
      RecoveriesAreUnbroken(log, before, rows.Keys - rest.Keys);
      LossesCarry(log, before);
      var _ :- HandleRow(cl, d, j, rest);
      OneMoreHandled(log, before, cl.Log(d), rows, rest, j);
      FewerRows(rest, j);
      rest := rest - {j};
    }
    assert rows.Keys - rest.Keys == rows.Keys;
    r := Ok(());
  }

  /** Among the steps from number `from` on, a recovery reset exactly `reset`, the
      claims silent for longer than the timeout, charging each an attempt. */
  ghost predicate RecoveryOnRecord(
      c: Config, start: int, trace: seq<Action>, from: nat, d: SchedulerId, reset: set<JobId>)
  {
    exists s, t ::
      && MovedStep(c, start, trace, from, Schedule(d, Recover), s, t)
      && reset <= s.jobs.Keys && OnlyTouches(s, t, reset)
      && (forall j | j in s.jobs ::
            var r := s.jobs[j].row;
            j in reset
            <==> r.status == Claimed && r.heartbeatAt.Some? && r.heartbeatAt.value < s.now - c.heartbeatTimeout)
      && (forall j | j in reset ::
            var r := s.jobs[j].row;
            t.jobs[j].row == r.(status := Pending, attempts := r.attempts + 1, error := Some(WorkerDied),
                                workerId := None, claimedAt := None, heartbeatAt := None, updatedAt := s.now))
  }

  lemma RecoveriesAreOnRecord(
      c: Config, start: int, trace: seq<Action>, from: nat, d: SchedulerId, reset: set<JobId>)
    requires DidStep(c, start, trace, from, Schedule(d, Recover), ReclaimRows(reset))
    ensures RecoveryOnRecord(c, start, trace, from, d, reset)
  {
    hide DidStep, MovedStep, Apply, EntryAfter;
    var s, t := StepTaken(c, start, trace, from, Schedule(d, Recover), ReclaimRows(reset));
    assert reset == StaleJobs(c, s);
    WritesTouchTheirOwn(c, s, Schedule(d, Recover));
    forall j | j in s.jobs ensures j in t.jobs && (j in reset ==>
        var r := s.jobs[j].row;
        t.jobs[j].row == r.(status := Pending, attempts := r.attempts + 1, error := Some(WorkerDied),
                            workerId := None, claimedAt := None, heartbeatAt := None, updatedAt := s.now))
    {
      RecoveryResetsTheSilent(c, s, d, j);
    }
  }

  /** `recover_stale_claimed_jobs`: the jobs returned are those this call reset; the
      call has deleted the lock of each of them, and buried those at their cap. */
  method RecoverStaleClaimedJobs(cl: Cluster, d: SchedulerId) returns (r: Outcome<set<JobId>>)
    requires cl.Valid() && d in cl.schedulers && cl.schedulers[d] == AtRecover
    modifies cl, cl.db, cl.redis
    ensures cl.Valid() && cl.Continues() && d in cl.schedulers
    ensures cl.schedulers[d] == if r.Ok? then AtRequeue else AtPromote
    ensures r.Ok? ==> NoPoisonLeft(cl.Snapshot())
    ensures r.Ok? ==> RecoveryOnRecord(cl.c, cl.start, cl.trace, old(|cl.trace|), d, r.value)
    ensures r.Ok? ==> RecoverySoFar(old(cl.Log(d)), cl.Log(d), r.value)
    ensures r.Raised? ==> LostSince(old(cl.Log(d)), cl.Log(d))
  {
    hide cl.Valid, cl.Claims, NoPoisonLeft, Reachable, Sound, OpsOf, DidStep, RecoverySoFar, LostSince;
    hide RecoveryOnRecord;
    var rows :- ResetSilent(cl, d);
    ghost var reset, from := cl.trace, |old(cl.trace)|;
    var _ :- HandleRows(cl, d, rows, old(cl.Log(d)));
    cl.IsReachable();
    RecoveryLeavesNoPoison(cl.c, cl.Snapshot(), d);
    WhatIsDoneIsDone(cl.c, cl.start, reset, cl.trace, from, Schedule(d, Recover), ReclaimRows(rows.Keys));
    RecoveriesAreOnRecord(cl.c, cl.start, cl.trace, from, d, rows.Keys);
    r := Ok(rows.Keys);
  }

  lemma FewerRows(rows: map<JobId, Reclaimed>, j: JobId)
    requires j in rows
    ensures |rows - {j}| < |rows|
  {
    assert (rows - {j}).Keys == rows.Keys - {j};
    assert |rows - {j}| == |(rows - {j}).Keys| && |rows| == |rows.Keys|;
  }

  // ----------------------------------------------------------------- sweep

  /** `REQUEUE_STALE_QUEUED` */
  method SelectStrandedRows(cl: Cluster, d: SchedulerId) returns (r: Outcome<map<JobId, Ticket>>)
    requires cl.Valid() && d in cl.schedulers && cl.schedulers[d] == AtRequeue
    modifies cl, cl.db, cl.redis
    ensures cl.Valid() && cl.Continues() && d in cl.schedulers
    ensures cl.schedulers[d] == if r.Raised? || r.value == map[] then AtPromote else Requeueing(r.value)
    ensures r.Ok? ==> cl.Did(old(|cl.trace|), Schedule(d, Requeue(r.value.Keys)), NoWrite)
    ensures r.Ok? ==> cl.Log(d) == old(cl.Log(d)) + [Requeue(r.value.Keys)]
    ensures r.Raised? ==> LostSince(old(cl.Log(d)), cl.Log(d))
  {
    hide cl.RanTo, Apply, JobsAfter, StrandedIn, IsLimited, OpsOf, TookStep;
    var _ :- cl.AwaitTick(d);
    var before := cl.Snapshot();
    var rows := cl.db.SelectStranded(cl.c, cl.now);
    assert rows == Tickets(before, rows.Keys);
    NoRowWrite(cl.now, cl.db.jobs);
    cl.Scheduled(d, Protocol.Requeue(rows.Keys), before);
    r := Ok(rows);
  }

  /** Among the steps from number `from` on, a sweep selected exactly `batch`, jobs
      queued for longer than the limit of age, and all of them if it took fewer
      than its limit of number. */
  ghost predicate SweepOnRecord(
      c: Config, start: int, trace: seq<Action>, from: nat, d: SchedulerId, batch: set<JobId>)
  {
    exists s, t ::
      && MovedStep(c, start, trace, from, Schedule(d, Requeue(batch)), s, t)
      && batch <= s.jobs.Keys && |batch| <= c.batchSize
      && (forall j | j in batch ::
            s.jobs[j].row.status == Queued && s.jobs[j].row.updatedAt < s.now - c.requeueAfter)
      && (|batch| < c.batchSize ==>
            forall j | j in s.jobs && j !in batch && s.jobs[j].row.status == Queued ::
              s.jobs[j].row.updatedAt >= s.now - c.requeueAfter)
  }

  lemma SweepsAreOnRecord(c: Config, start: int, trace: seq<Action>, from: nat, d: SchedulerId, batch: set<JobId>)
    requires DidStep(c, start, trace, from, Schedule(d, Requeue(batch)), NoWrite)
    ensures SweepOnRecord(c, start, trace, from, d, batch)
  {
    hide DidStep, MovedStep, Enabled, Apply, WriteOf;
    var s, t := StepTaken(c, start, trace, from, Schedule(d, Requeue(batch)), NoWrite);
    SweepsTakeTheStranded(c, s, d, batch);
  }

  /** `requeue_stale_queued_jobs`: the jobs returned are those this call found
      stranded; each is in a queue again. */
  method RequeueStaleQueuedJobs(cl: Cluster, d: SchedulerId) returns (r: Outcome<set<JobId>>)
    requires cl.Valid() && d in cl.schedulers && cl.schedulers[d] == AtRequeue
    modifies cl, cl.db, cl.redis
    ensures cl.Valid() && cl.Continues() && d in cl.schedulers && cl.schedulers[d] == AtPromote
    ensures r.Ok? ==> forall j | j in r.value :: exists tier :: Slot(tier, j) in cl.redis.queue
    ensures r.Ok? ==> SweepOnRecord(cl.c, cl.start, cl.trace, old(|cl.trace|), d, r.value)
    ensures r.Ok? ==> cl.Log(d) == old(cl.Log(d)) + SweepSteps(r.value)
    ensures r.Raised? ==> LostSince(old(cl.Log(d)), cl.Log(d))
  {
    hide cl.Valid, OpsOf, DidStep, SweepOnRecord, LostSince;
    var rows :- SelectStrandedRows(cl, d);
    LossesCarry(old(cl.Log(d)), cl.Log(d));
    ghost var selected, from := cl.trace, |old(cl.trace)|;
    if rows != map[] {
      var _ :- Enqueue(cl, d, rows);
      assert forall j | j in rows :: Slot(rows[j].priority, j) in cl.redis.queue;
    }
    WhatIsDoneIsDone(cl.c, cl.start, selected, cl.trace, from, Schedule(d, Requeue(rows.Keys)), NoWrite);
    SweepsAreOnRecord(cl.c, cl.start, cl.trace, from, d, rows.Keys);
    r := Ok(rows.Keys);
  }

  // ------------------------------------------------------------------ loop

  lemma ThreePhases(before: seq<SchedulerOp>, skipped: set<JobId>, promoted: set<JobId>, recovery: seq<SchedulerOp>,
                    reset: set<JobId>, requeued: set<JobId>, after: seq<SchedulerOp>)
    requires RecoverySteps(recovery, reset)
    requires after == before + PromotionSteps(skipped, promoted) + recovery + SweepSteps(requeued)
    ensures before <= after && CompleteTick(after[|before|..])
  {
    assert after[|before|..] == PromotionSteps(skipped, promoted) + recovery + SweepSteps(requeued);
  }

  /** One turn of `main`: promote, recover, requeue; what raises ends the tick. */
  method RunTick(cl: Cluster, d: SchedulerId) returns (r: Outcome<()>)
    requires cl.Valid() && d in cl.schedulers && cl.schedulers[d] == AtPromote
    modifies cl, cl.db, cl.redis
    ensures cl.Valid() && cl.Continues() && d in cl.schedulers && cl.schedulers[d] == AtPromote
    ensures r.Ok? ==> old(cl.Log(d)) <= cl.Log(d) && CompleteTick(cl.Log(d)[|old(cl.Log(d))|..])
    ensures r.Raised? ==> LostSince(old(cl.Log(d)), cl.Log(d))
  {
    hide cl.Valid, OpsOf, DidStep, CompleteTick, PromotedSince, NoPoisonLeft, LostSince, RecoverySteps;
    hide PromotionOnRecord, RecoveryOnRecord, SweepOnRecord;
    var promoted, skipped :- PromoteDueJobs(cl, d);
    ghost var log := cl.Log(d);
    LossesCarry(old(cl.Log(d)), log);
    var recovered :- RecoverStaleClaimedJobs(cl, d);
    RecoveriesAreUnbroken(log, cl.Log(d), recovered);
    LossesCarry(log, cl.Log(d));
    ghost var recovery := cl.Log(d)[|log|..];
    var requeued :- RequeueStaleQueuedJobs(cl, d);
    ThreePhases(old(cl.Log(d)), skipped, promoted, recovery, recovered, requeued, cl.Log(d));
    r := Ok(());
  }

  lemma StartsAtPromote(c: Config, s: State, d: SchedulerId)
    requires d !in s.schedulers
    ensures Enabled(c, s, StartScheduler(d))
    ensures Apply(c, s, StartScheduler(d)) == s.(schedulers := s.schedulers[d := AtPromote])
  {
    NoRowWrite(s.now, s.jobs);
  }

  method StartTicking(cl: Cluster, d: SchedulerId)
    requires cl.Valid() && d !in cl.schedulers
    modifies cl
    ensures cl.Valid() && cl.Continues() && d in cl.schedulers && cl.schedulers[d] == AtPromote
    ensures cl.Log(d) == old(cl.Log(d))
  {
    hide cl.RanTo, cl.Claims, Enabled, Apply, WriteOf, OpsOf;
    var before := cl.Snapshot();
    OpsGrow(cl.trace, StartScheduler(d), d);
    StartsAtPromote(cl.c, before, d);
    cl.Commit(StartScheduler(d), before);
  }

  function Concat(turns: seq<seq<SchedulerOp>>): seq<SchedulerOp> {
    if turns == [] then [] else Concat(turns[..|turns| - 1]) + turns[|turns| - 1]
  }

  function LostAmong(turns: seq<seq<SchedulerOp>>): nat {
    if turns == [] then 0 else LostAmong(turns[..|turns| - 1]) + One(LostSince([], turns[|turns| - 1]))
  }

  /** What the scheduler did between two logs is these turns, one after the other,
      each a whole tick or one that ends where it was aborted, `failed` of them. */
  ghost predicate Ticked(before: seq<SchedulerOp>, turns: seq<seq<SchedulerOp>>, failed: nat, after: seq<SchedulerOp>) {
    && after == before + Concat(turns) && failed == LostAmong(turns)
    && forall turn | turn in turns :: CompleteTick(turn) || LostSince([], turn)
  }

  lemma NoTurnYet(log: seq<SchedulerOp>)
    ensures Ticked(log, [], 0, log)
  {
  }

  lemma TicksAreEither(before: seq<SchedulerOp>, after: seq<SchedulerOp>, lost: bool)
    requires if lost then LostSince(before, after) else before <= after && CompleteTick(after[|before|..])
    ensures before <= after
    ensures lost <==> LostSince([], after[|before|..])
  {
  }

  lemma TurnsAddUp(turns: seq<seq<SchedulerOp>>, turn: seq<SchedulerOp>)
    ensures Concat(turns + [turn]) == Concat(turns) + turn
    ensures LostAmong(turns + [turn]) == LostAmong(turns) + One(LostSince([], turn))
  {
    hide LostSince;
    assert (turns + [turn])[..|turns|] == turns;
  }

  lemma OneMoreTurn(before: seq<SchedulerOp>, turns: seq<seq<SchedulerOp>>, failed: nat,
                    middle: seq<SchedulerOp>, after: seq<SchedulerOp>, lost: bool)
    returns (turn: seq<SchedulerOp>)
    requires Ticked(before, turns, failed, middle)
    requires if lost then LostSince(middle, after) else middle <= after && CompleteTick(after[|middle|..])
    ensures Ticked(before, turns + [turn], failed + One(lost), after)
  {
    hide CompleteTick, LostSince, Concat, LostAmong;
    TicksAreEither(middle, after, lost);
    turn := after[|middle|..];
    TurnsAddUp(turns, turn);
    assert after == middle + turn;
  }

  /** `main`, for `ticks` ticks: what the scheduler did is that many turns, and
      `failed` says how many of them were lost. */
  method SchedulerLoop(cl: Cluster, d: SchedulerId, ticks: nat)
    returns (failed: nat, ghost turns: seq<seq<SchedulerOp>>)
    requires cl.Valid() && d !in cl.schedulers
    modifies cl, cl.db, cl.redis
    ensures cl.Valid() && cl.Continues() && d in cl.schedulers && cl.schedulers[d] == AtPromote
    ensures |turns| == ticks && Ticked(old(cl.Log(d)), turns, failed, cl.Log(d))
  {
    hide cl.Valid, cl.Claims, OpsOf, CompleteTick, LostSince, Ticked;
    StartTicking(cl, d);
    failed, turns := 0, [];
    NoTurnYet(cl.Log(d));
    var i := 0;
    while i < ticks
      invariant i == |turns| <= ticks
      invariant cl.Valid() && cl.Continues() && d in cl.schedulers && cl.schedulers[d] == AtPromote
      invariant Ticked(old(cl.Log(d)), turns, failed, cl.Log(d))
    {
      ghost var log := cl.Log(d);
      var r := RunTick(cl, d);
      ghost var turn := OneMoreTurn(old(cl.Log(d)), turns, failed, log, cl.Log(d), r.Raised?);
      turns := turns + [turn];
      if r.Raised? {
        failed := failed + 1;
      }
      cl.Interleave(TheScheduler(d));
      i := i + 1;
    }
  }
}
