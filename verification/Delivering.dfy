/** `process_job` and everything under it, running among everybody else. */
module Delivering {
  import opened Types
  import opened Windows
  import opened Statements
  import opened Protocol
  import opened Columns
  import opened Fencing
  import opened Ownership
  import opened Rows
  import opened Store
  import opened Steps
  import opened Cluster

  /** The worker is past its fetch, with this claim and this row in hand. */
  predicate Carries(p: Worker, id: JobId, epoch: nat, job: Job) {
    p.HasView() && p.job == id && p.epoch == epoch && p.view == job
  }

  /** `pool.fetchrow(FETCH_JOB, job_id)` */
  method Fetch(cl: Cluster, w: WorkerId, id: JobId, ghost epoch: nat) returns (r: Outcome<Job>)
    requires cl.Valid() && w in cl.workers && cl.workers[w].Holding? && SameClaim(Finishing(id, epoch), cl.workers[w])
    modifies cl, cl.db, cl.redis
    ensures cl.Valid() && cl.Continues() && w in cl.workers && cl.Claims(w) == old(cl.Claims(w))
    ensures r.Ok? ==> cl.workers[w].Fetched? && Carries(cl.workers[w], id, epoch, r.value)
    ensures r.Raised? ==> cl.workers[w] == Finishing(id, epoch)
    ensures r.Raised? ==> cl.Took(|old(cl.trace)|, Work(w, Abort))
  {
    hide cl.RanTo, cl.Claims, DidStep, Apply;
    var _ :- cl.Await(w);
    var before := cl.Snapshot();
    cl.HoldsAJob(w);
    var job := cl.db.FetchJob(id);
    NoRowWrite(cl.now, cl.db.jobs);
    cl.Worked(w, Protocol.Fetch, before);
    r := Ok(job);
  }

  /** `EVAL INCR_WITH_TTL` on the window of `at` */
  method Increment(cl: Cluster, w: WorkerId, at: int, id: JobId, ghost epoch: nat, job: Job) returns (r: Outcome<int>)
    requires cl.Valid() && w in cl.workers && cl.workers[w].Fetched? && Carries(cl.workers[w], id, epoch, job)
    requires cl.workers[w].since <= at <= cl.now
    modifies cl, cl.db, cl.redis
    ensures cl.Valid() && cl.Continues() && w in cl.workers && cl.Claims(w) == old(cl.Claims(w))
    ensures r.Ok? && r.value > cl.c.rateLimit ==> cl.workers[w] == Overshot(id, epoch, cl.now, job, at)
    ensures r.Ok? && r.value <= cl.c.rateLimit ==> cl.workers[w] == Allowed(id, epoch, cl.now, job)
    ensures r.Raised? ==> cl.workers[w] == Finishing(id, epoch)
    ensures r.Raised? ==> cl.Took(|old(cl.trace)|, Work(w, Abort))
  {
    hide cl.RanTo, cl.Claims, DidStep, Apply, JobsAfter, Incremented, Current, CountersAfter;
    var _ :- cl.Await(w);
    var before := cl.Snapshot();
    cl.HoldsAJob(w);
    var count := cl.redis.Increment(cl.now, Window(job.recipient, HourOf(at)), w, cl.c.rateLimit);
    NoRowWrite(cl.now, cl.db.jobs);
    cl.Worked(w, Check(at), before);
    r := Ok(count);
  }

  /** `check_rate_limit`: the clock is read once, before anything else happens. */
  method CheckRateLimit(cl: Cluster, w: WorkerId, id: JobId, ghost epoch: nat, job: Job)
    returns (r: Outcome<(bool, int)>)
    requires cl.Valid() && w in cl.workers && cl.workers[w].Fetched? && Carries(cl.workers[w], id, epoch, job)
    modifies cl, cl.db, cl.redis
    ensures cl.Valid() && cl.Continues() && w in cl.workers && cl.Claims(w) == old(cl.Claims(w))
    ensures r.Ok? ==> Carries(cl.workers[w], id, epoch, job)
    ensures r.Ok? && r.value.0 ==> cl.workers[w].Allowed?
    ensures r.Ok? && !r.value.0 ==> cl.workers[w].Refused? && r.value.1 == cl.workers[w].retryAfter
    ensures r.Ok? && !r.value.0 ==> r.value.1 == SecondsUntilNextWindow(old(cl.now))
    ensures r.Raised? ==> cl.workers[w] == Finishing(id, epoch)
    ensures r.Raised? ==> cl.Took(|old(cl.trace)|, Work(w, Abort))
  {
    hide cl.RanTo, cl.Claims;
    var now := cl.now;
    cl.HoldsAJob(w);
    var count :- Increment(cl, w, now, id, epoch, job);
    if count > cl.c.rateLimit {
      var _ :- Decrement(cl, w, now, id, epoch, job);
      return Ok((false, SecondsUntilNextWindow(now)));
    }
    return Ok((true, 0));
  }

  /** `DECR`, undoing an overshoot */
  method Decrement(cl: Cluster, w: WorkerId, at: int, id: JobId, ghost epoch: nat, job: Job) returns (r: Outcome<()>)
    requires cl.Valid() && w in cl.workers && cl.workers[w].Overshot? && Carries(cl.workers[w], id, epoch, job)
    requires cl.workers[w].checkedAt == at
    modifies cl, cl.db, cl.redis
    ensures cl.Valid() && cl.Continues() && w in cl.workers && cl.Claims(w) == old(cl.Claims(w))
    ensures r.Ok? ==> cl.workers[w].Refused? && Carries(cl.workers[w], id, epoch, job)
    ensures r.Ok? ==> cl.workers[w].retryAfter == SecondsUntilNextWindow(at)
    ensures r.Raised? ==> cl.workers[w] == Finishing(id, epoch)
    ensures r.Raised? ==> cl.Took(|old(cl.trace)|, Work(w, Abort))
  {
    hide cl.RanTo, cl.Claims, DidStep, Apply, JobsAfter, Decremented, Current, CountersAfter;
    var _ :- cl.Await(w);
    var before := cl.Snapshot();
    cl.HoldsAJob(w);
    cl.redis.Decrement(cl.now, Window(job.recipient, HourOf(at)), w);
    NoRowWrite(cl.now, cl.db.jobs);
    cl.Worked(w, Undo, before);
    r := Ok(());
  }

  /** `redis_client.delete(f"job:lock:{id}")` */
  method ReleaseLock(cl: Cluster, w: WorkerId, id: JobId, ghost epoch: nat, ghost news: Option<EventKind>)
    returns (r: Outcome<()>)
    requires cl.Valid() && w in cl.workers && cl.workers[w] == Releasing(id, epoch, news)
    modifies cl, cl.db, cl.redis
    ensures cl.Valid() && cl.Continues() && w in cl.workers && cl.Claims(w) == old(cl.Claims(w))
    ensures cl.workers[w] == if r.Ok? && news.Some? then Announcing(id, epoch, news.value) else Finishing(id, epoch)
    ensures r.Raised? ==> cl.Took(|old(cl.trace)|, Work(w, Abort))
  {
    hide cl.RanTo, cl.Claims, DidStep, Apply, JobsAfter;
    var _ :- cl.Await(w);
    var before := cl.Snapshot();
    cl.HoldsAJob(w);
    cl.redis.Unlock(id);
    NoRowWrite(cl.now, cl.db.jobs);
    cl.Worked(w, Release, before);
    r := Ok(());
  }

  /** `fire_webhook`, as far as the job is concerned */
  method FireWebhook(cl: Cluster, w: WorkerId, id: JobId, ghost epoch: nat, kind: EventKind) returns (r: Outcome<()>)
    requires cl.Valid() && w in cl.workers && cl.workers[w] == Announcing(id, epoch, kind)
    modifies cl, cl.db, cl.redis
    ensures cl.Valid() && cl.Continues() && w in cl.workers && cl.Claims(w) == old(cl.Claims(w))
    ensures cl.workers[w] == Finishing(id, epoch)
    ensures r.Ok? ==> cl.Told(old(|cl.events|), Event(id, kind))
    ensures r.Raised? ==> cl.Took(|old(cl.trace)|, Work(w, Abort))
  {
    hide cl.RanTo, cl.Claims, DidStep, Apply, JobsAfter;
    var _ :- cl.Await(w);
    var before := cl.Snapshot();
    cl.HoldsAJob(w);
    NoRowWrite(cl.now, cl.db.jobs);
    cl.Worked(w, Announce, before);
    assert cl.events[|before.events|] == Event(id, kind);
    r := Ok(());
  }

  // ------------------------------------------------------------- outcomes

  /** The claim is over for good. */
  predicate Settled(s: State, id: JobId, epoch: nat) {
    id in s.jobs && IsOver(s.jobs[id], epoch)
  }

  /** Unless some fetched row did not name its worker, the job is sent for good. */
  predicate IsSent(s: State, id: JobId) {
    !s.foreignFetch ==> id in s.jobs && s.jobs[id].row.status == Sent
  }

  lemma SettlesForGood(s: State, t: State, id: JobId, epoch: nat)
    requires Evolves(s, t)
    ensures Settled(s, id, epoch) ==> Settled(t, id, epoch)
    ensures IsSent(s, id) ==> IsSent(t, id)
  {
  }

  /** A failure of the job has been recorded: it was replayed since, or has failed
      more often. */
  predicate FailedSince(s: State, t: State, id: JobId) {
    && id in s.jobs && id in t.jobs
    && (t.jobs[id].h.replays > s.jobs[id].h.replays
        || (t.jobs[id].h.replays == s.jobs[id].h.replays && t.jobs[id].h.failures > s.jobs[id].h.failures))
  }

  /** The job has more rows in the dead-letter queue. */
  predicate BuriedSince(s: State, t: State, id: JobId) {
    DlqRows(t.dlq, id) > DlqRows(s.dlq, id)
  }

  lemma FailuresAreRecorded(s: State, t: State, u: State, write: Write, id: JobId)
    requires Evolves(s, t) && id in s.jobs && u.jobs == JobsAfter(t.now, write, t.jobs)
    requires (write.RetryRow? || write.BuryFailed?) && write.job == id
    ensures FailedSince(s, u, id)
  {
  }

  lemma BurialsAreRecorded(s: State, t: State, u: State, write: Write, id: JobId)
    requires Evolves(s, t) && u.dlq == DlqAfter(write, t.dlq) && write.BuryFailed? && write.job == id
    ensures BuriedSince(s, u, id)
  {
    DlqRowsOnlyGrow(s.dlq, t.dlq, id);
    DlqRowsAfter(t.dlq, DeadLetter(id, write.recipient, write.attempt, DeliveryFailed), id);
  }

  lemma RecordsAreKept(s: State, t: State, u: State, id: JobId)
    requires Evolves(t, u)
    ensures FailedSince(s, t, id) ==> FailedSince(s, u, id)
    ensures BuriedSince(s, t, id) ==> BuriedSince(s, u, id)
  {
    DlqRowsOnlyGrow(t.dlq, u.dlq, id);
  }

  /** Nothing is left to do but tell. */
  method ReleaseAndTell(cl: Cluster, w: WorkerId, id: JobId, ghost epoch: nat, kind: EventKind) returns (r: Outcome<()>)
    requires cl.Valid() && w in cl.workers && cl.workers[w] == Releasing(id, epoch, Some(kind))
    modifies cl, cl.db, cl.redis
    ensures cl.Valid() && cl.Continues() && w in cl.workers && cl.Claims(w) == old(cl.Claims(w))
    ensures cl.workers[w] == Finishing(id, epoch)
    ensures r.Ok? ==> cl.Told(old(|cl.events|), Event(id, kind))
    ensures old(Settled(cl.Snapshot(), id, epoch)) ==> Settled(cl.Snapshot(), id, epoch)
    ensures old(IsSent(cl.Snapshot(), id)) ==> IsSent(cl.Snapshot(), id)
    ensures r.Raised? ==> cl.Took(|old(cl.trace)|, Work(w, Abort))
  {
    hide cl.RanTo, cl.Claims, Settled, IsSent;
    r := ReleaseLock(cl, w, id, epoch, Some(kind));
    if r.Ok? {
      r := FireWebhook(cl, w, id, epoch, kind);
    }
    cl.WentOn();
    SettlesForGood(old(cl.Snapshot()), cl.Snapshot(), id, epoch);
  }

  /** `MARK_SENT` */
  method WriteSent(cl: Cluster, w: WorkerId, id: JobId, ghost epoch: nat, job: Job) returns (r: Outcome<bool>)
    requires cl.Valid() && w in cl.workers && cl.workers[w].Allowed? && Carries(cl.workers[w], id, epoch, job)
    modifies cl, cl.db, cl.redis
    ensures cl.Valid() && cl.Continues() && w in cl.workers && cl.Claims(w) == old(cl.Claims(w))
    ensures cl.workers[w] == if r.Ok? && r.value then Releasing(id, epoch, Some(SentEvent)) else Finishing(id, epoch)
    ensures r.Ok? ==> Settled(cl.Snapshot(), id, epoch)
    ensures r.Ok? && r.value ==> IsSent(cl.Snapshot(), id)
    ensures r.Ok? ==> cl.Did(old(|cl.trace|), Work(w, Succeed), if r.value then SendRow(id) else NoWrite)
    ensures r.Raised? ==> cl.Took(|old(cl.trace)|, Work(w, Abort))
  {
    hide cl.RanTo, cl.Claims, TookStep, Apply, Reachable, Sound, IsOver, WorkerDoes, CanWork, JobsAfter;
    var _ :- cl.Await(w);
    var before := cl.Snapshot();
    cl.IsReachable();
    cl.HoldsAJob(w);
    var updated := cl.db.MarkAsSent(cl.now, id, job.workerId);
    Succeeds(cl.c, before, w, updated);
    Outcomes(cl.c, before, w, Succeed);
    cl.Worked(w, Succeed, before);
    r := Ok(updated);
  }

  lemma Outcomes(c: Config, s: State, w: WorkerId, op: WorkerOp)
    requires w in s.workers && CanWork(s, s.workers[w], op) && (op.Succeed? || op.Fail? || op.Defer?)
    ensures Enabled(c, s, Work(w, op))
    ensures Reachable(c, s) ==>
              s.workers[w].job in Apply(c, s, Work(w, op)).jobs
              && IsOver(Apply(c, s, Work(w, op)).jobs[s.workers[w].job], s.workers[w].epoch)
  {
    hide Reachable, Apply, IsOver;
    WorkerSteps(c, s, w, op);
    if Reachable(c, s) { OutcomesEndClaims(c, s, w, op); }
  }

  lemma Succeeds(c: Config, s: State, w: WorkerId, updated: bool)
    requires c.fence == ByWorkerId && w in s.workers && s.workers[w].Allowed? && s.workers[w].job in s.jobs
    requires updated == OwnedBy(s.jobs[s.workers[w].job].row, s.workers[w].view.workerId)
    ensures CanWork(s, s.workers[w], Succeed)
    ensures var p := s.workers[w];
            WorkerDoes(c, s, w, p, Succeed)
            == if updated then Writes(Releasing(p.job, p.epoch, Some(SentEvent)), SendRow(p.job))
               else Goes(Finishing(p.job, p.epoch))
    ensures var j, after := s.workers[w].job, JobsAfter(s.now, SendRow(s.workers[w].job), s.jobs);
            updated ==> j in after && after[j].row.status == Sent
  {
  }

  lemma Defers(c: Config, s: State, w: WorkerId, at: int, updated: bool)
    requires c.fence == ByWorkerId && w in s.workers && s.workers[w].Refused? && s.workers[w].job in s.jobs
    requires s.workers[w].since <= at <= s.now
    requires updated == OwnedBy(s.jobs[s.workers[w].job].row, s.workers[w].view.workerId)
    ensures CanWork(s, s.workers[w], Protocol.Defer(at))
    ensures var p := s.workers[w];
            WorkerDoes(c, s, w, p, Protocol.Defer(at))
            == if updated then Writes(Releasing(p.job, p.epoch, None), DeferRow(p.job, at + p.retryAfter * SECOND))
               else Goes(Finishing(p.job, p.epoch))
  {
  }

  lemma Retries(c: Config, s: State, w: WorkerId, at: int, updated: bool)
    requires c.fence == ByWorkerId && w in s.workers && s.workers[w].Allowed? && s.workers[w].job in s.jobs
    requires s.workers[w].since <= at <= s.now && s.workers[w].view.attempts + 1 < s.workers[w].view.maxAttempts
    requires updated == OwnedBy(s.jobs[s.workers[w].job].row, s.workers[w].view.workerId)
    ensures CanWork(s, s.workers[w], Fail(at))
    ensures var p := s.workers[w];
            var attempt := p.view.attempts + 1;
            WorkerDoes(c, s, w, p, Fail(at))
            == if updated then
                 Writes(Releasing(p.job, p.epoch, Some(FailedEvent)),
                        RetryRow(p.job, attempt, at, at + Backoff(c, attempt)))
               else Goes(Finishing(p.job, p.epoch))
  {
  }

  lemma Buries(c: Config, s: State, w: WorkerId, at: int, marked: bool)
    requires c.fence == ByWorkerId && w in s.workers && s.workers[w].Allowed? && s.workers[w].job in s.jobs
    requires s.workers[w].since <= at <= s.now && s.workers[w].view.attempts + 1 >= s.workers[w].view.maxAttempts
    requires marked == NotDistinct(s.jobs[s.workers[w].job].row.workerId, s.workers[w].view.workerId)
    ensures CanWork(s, s.workers[w], Fail(at))
    ensures var p := s.workers[w];
            WorkerDoes(c, s, w, p, Fail(at))
            == if marked then
                 Writes(Releasing(p.job, p.epoch, Some(DeadLetteredEvent)),
                        BuryFailed(p.job, p.view.recipient, p.view.attempts + 1, at))
               else Goes(Finishing(p.job, p.epoch))
  {
  }

  /** What `handle_failure` writes for the row it was given. */
  function FailureWrite(c: Config, id: JobId, job: Job, at: int): Write {
    var attempt := job.attempts + 1;
    if attempt >= job.maxAttempts then BuryFailed(id, job.recipient, attempt, at)
    else Write.RetryRow(id, attempt, at, at + Backoff(c, attempt))
  }

  /** `DEFER_TO_NEXT_WINDOW` */
  method WriteDeferral(cl: Cluster, w: WorkerId, at: int, id: JobId, ghost epoch: nat, job: Job, retryAfter: int)
    returns (r: Outcome<bool>)
    requires cl.Valid() && w in cl.workers && cl.workers[w].Refused? && Carries(cl.workers[w], id, epoch, job)
    requires cl.workers[w].retryAfter == retryAfter && cl.workers[w].since <= at <= cl.now
    modifies cl, cl.db, cl.redis
    ensures cl.Valid() && cl.Continues() && w in cl.workers && cl.Claims(w) == old(cl.Claims(w))
    ensures cl.workers[w] == if r.Ok? && r.value then Releasing(id, epoch, None) else Finishing(id, epoch)
    ensures r.Ok? ==> Settled(cl.Snapshot(), id, epoch)
    ensures r.Ok? ==>
              cl.Did(old(|cl.trace|), Work(w, Protocol.Defer(at)),
                     if r.value then Write.DeferRow(id, at + retryAfter * SECOND) else NoWrite)
    ensures r.Raised? ==> cl.Took(|old(cl.trace)|, Work(w, Abort))
  {
    hide cl.RanTo, cl.Claims, TookStep, Apply, Reachable, Sound, IsOver, WorkerDoes, CanWork, JobsAfter;
    var _ :- cl.Await(w);
    var before := cl.Snapshot();
    cl.IsReachable();
    cl.HoldsAJob(w);
    var updated := cl.db.Defer(cl.now, at + retryAfter * SECOND, id, job.workerId);
    Defers(cl.c, before, w, at, updated);
    Outcomes(cl.c, before, w, Protocol.Defer(at));
    cl.Worked(w, Protocol.Defer(at), before);
    r := Ok(updated);
  }

  /** `SCHEDULE_RETRY` */
  method WriteRetry(cl: Cluster, w: WorkerId, at: int, id: JobId, ghost epoch: nat, job: Job, attempt: nat)
    returns (r: Outcome<bool>)
    requires cl.Valid() && w in cl.workers && cl.workers[w].Allowed? && Carries(cl.workers[w], id, epoch, job)
    requires attempt == job.attempts + 1 < job.maxAttempts && cl.workers[w].since <= at <= cl.now
    modifies cl, cl.db, cl.redis
    ensures cl.Valid() && cl.Continues() && w in cl.workers && cl.Claims(w) == old(cl.Claims(w))
    ensures cl.workers[w] == if r.Ok? && r.value then Releasing(id, epoch, Some(FailedEvent)) else Finishing(id, epoch)
    ensures r.Ok? ==> Settled(cl.Snapshot(), id, epoch)
    ensures r.Ok? ==>
              cl.Did(old(|cl.trace|), Work(w, Fail(at)), if r.value then FailureWrite(cl.c, id, job, at) else NoWrite)
    ensures r.Ok? && r.value ==> FailedSince(old(cl.Snapshot()), cl.Snapshot(), id)
    ensures r.Raised? ==> cl.Took(|old(cl.trace)|, Work(w, Abort))
  {
    hide cl.RanTo, cl.Claims, TookStep, Evolves, FailedSince, Apply;
    hide Reachable, Sound, IsOver, WorkerDoes, CanWork, JobsAfter;
    cl.HoldsAJob(w);
    var _ :- cl.Await(w);
    cl.WentOn();
    var before := cl.Snapshot();
    cl.IsReachable();
    cl.HoldsAJob(w);
    var updated := cl.db.Retry(cl.now, attempt, at, at + Backoff(cl.c, attempt), id, job.workerId);
    Retries(cl.c, before, w, at, updated);
    Outcomes(cl.c, before, w, Fail(at));
    cl.Worked(w, Fail(at), before);
    if updated {
      FailuresAreRecorded(old(cl.Snapshot()), before, cl.Snapshot(), FailureWrite(cl.c, id, job, at), id);
    }
    r := Ok(updated);
  }

  /** The transaction of `dead_letter`, fenced on the worker the fetched row names */
  method WriteBurial(cl: Cluster, w: WorkerId, at: int, id: JobId, ghost epoch: nat, job: Job, attempt: nat)
    returns (r: Outcome<bool>)
    requires cl.Valid() && w in cl.workers && cl.workers[w].Allowed? && Carries(cl.workers[w], id, epoch, job)
    requires attempt == job.attempts + 1 >= job.maxAttempts && cl.workers[w].since <= at <= cl.now
    modifies cl, cl.db, cl.redis
    ensures cl.Valid() && cl.Continues() && w in cl.workers && cl.Claims(w) == old(cl.Claims(w))
    ensures cl.workers[w]
            == if r.Ok? && r.value then Releasing(id, epoch, Some(DeadLetteredEvent)) else Finishing(id, epoch)
    ensures r.Ok? ==> Settled(cl.Snapshot(), id, epoch)
    ensures r.Ok? ==>
              cl.Did(old(|cl.trace|), Work(w, Fail(at)), if r.value then FailureWrite(cl.c, id, job, at) else NoWrite)
    ensures r.Ok? && r.value ==> FailedSince(old(cl.Snapshot()), cl.Snapshot(), id)
    ensures r.Ok? && r.value ==> BuriedSince(old(cl.Snapshot()), cl.Snapshot(), id)
    ensures r.Raised? ==> cl.Took(|old(cl.trace)|, Work(w, Abort))
  {
    hide cl.RanTo, cl.Claims, TookStep, Evolves, FailedSince, BuriedSince;
    hide Apply, Reachable, Sound, IsOver, WorkerDoes, CanWork, JobsAfter;
    cl.HoldsAJob(w);
    var _ :- cl.Await(w);
    cl.WentOn();
    var before := cl.Snapshot();
    cl.IsReachable();
    cl.HoldsAJob(w);
    var marked := cl.db.DeadLetterJob(cl.now, BuryFailed(id, job.recipient, attempt, at), job.workerId);
    Buries(cl.c, before, w, at, marked);
    Outcomes(cl.c, before, w, Fail(at));
    cl.Worked(w, Fail(at), before);
    if marked {
      FailuresAreRecorded(old(cl.Snapshot()), before, cl.Snapshot(), FailureWrite(cl.c, id, job, at), id);
      BurialsAreRecorded(old(cl.Snapshot()), before, cl.Snapshot(), FailureWrite(cl.c, id, job, at), id);
    }
    r := Ok(marked);
  }

  // --------------------------------------------- what is on record of a write

  /** Among the steps from number `from` on, `a` marked job `id` sent. */
  ghost predicate SendOnRecord(c: Config, start: int, trace: seq<Action>, from: nat, a: Action, id: JobId) {
    exists s, t ::
      && MovedStep(c, start, trace, from, a, s, t) && id in s.jobs && id in t.jobs
      && t.jobs[id].row == s.jobs[id].row.(status := Sent, sentAt := Some(s.now), updatedAt := s.now)
  }

  /** ... made it pending again, due at `due`, with this attempt spent. */
  ghost predicate RetryOnRecord(
      c: Config, start: int, trace: seq<Action>, from: nat, a: Action, id: JobId, attempt: nat, due: int)
  {
    exists s, t ::
      && MovedStep(c, start, trace, from, a, s, t) && id in s.jobs && id in t.jobs
      && t.jobs[id].row == s.jobs[id].row.(status := Pending, attempts := attempt, nextRetryAt := Some(due),
                                           sendAt := due, error := Some(DeliveryFailed), workerId := None,
                                           claimedAt := None, heartbeatAt := None, updatedAt := s.now)
  }

  /** ... dead-lettered it, and added this letter. */
  ghost predicate BurialOnRecord(
      c: Config, start: int, trace: seq<Action>, from: nat, a: Action, id: JobId, recipient: string, attempt: nat)
  {
    exists s, t ::
      && MovedStep(c, start, trace, from, a, s, t) && id in s.jobs && id in t.jobs
      && t.dlq == s.dlq + [DeadLetter(id, recipient, attempt, DeliveryFailed)]
      && t.jobs[id].row == s.jobs[id].row.(status := DeadLettered, error := Some(DeliveryFailed),
                                           attempts := attempt, failedAt := Some(s.now), workerId := None,
                                           claimedAt := None, heartbeatAt := None, updatedAt := s.now)
  }

  /** ... made it pending again, due at `due`, at no charge. */
  ghost predicate DeferralOnRecord(
      c: Config, start: int, trace: seq<Action>, from: nat, a: Action, id: JobId, due: int)
  {
    exists s, t ::
      && MovedStep(c, start, trace, from, a, s, t) && id in s.jobs && id in t.jobs
      && t.jobs[id].row == s.jobs[id].row.(status := Pending, sendAt := due, workerId := None,
                                           claimedAt := None, heartbeatAt := None, updatedAt := s.now)
  }

  lemma WritesAreOnRecord(
      c: Config, start: int, trace: seq<Action>, from: nat, a: Action, write: Write)
    requires DidStep(c, start, trace, from, a, write)
    ensures write.SendRow? ==> SendOnRecord(c, start, trace, from, a, write.job)
    ensures write.RetryRow? ==> RetryOnRecord(c, start, trace, from, a, write.job, write.attempt, write.next)
    ensures write.BuryFailed? ==>
              BurialOnRecord(c, start, trace, from, a, write.job, write.recipient, write.attempt)
    ensures write.DeferRow? ==> DeferralOnRecord(c, start, trace, from, a, write.job, write.next)
  {
    hide DidStep, MovedStep, Enabled, Apply, WriteOf;
    var s, t := StepTaken(c, start, trace, from, a, write);
    WhatWritesLeave(c, s, a);
  }

  lemma FailuresAreOnRecord(
      c: Config, start: int, trace: seq<Action>, from: nat, a: Action, id: JobId, job: Job, at: int)
    requires DidStep(c, start, trace, from, a, FailureWrite(c, id, job, at))
    ensures var attempt := job.attempts + 1;
            if attempt < job.maxAttempts then
              RetryOnRecord(c, start, trace, from, a, id, attempt, at + c.baseDelay * Pow2(attempt - 1))
            else BurialOnRecord(c, start, trace, from, a, id, job.recipient, attempt)
  {
    hide DidStep, RetryOnRecord, BurialOnRecord, Pow2;
    WritesAreOnRecord(c, start, trace, from, a, FailureWrite(c, id, job, at));
  }

  // -------------------------------------------------------------- handlers

  /** `handle_success`. A call that returns has tried to mark the job sent; the
      result says whether it did. If so the job is sent, for good, and announced
      by this call; either way its claim is over. */
  method HandleSuccess(cl: Cluster, w: WorkerId, id: JobId, ghost epoch: nat, job: Job) returns (r: Outcome<bool>)
    requires cl.Valid() && w in cl.workers && cl.workers[w].Allowed? && Carries(cl.workers[w], id, epoch, job)
    modifies cl, cl.db, cl.redis
    ensures cl.Valid() && cl.Continues() && w in cl.workers && cl.Claims(w) == old(cl.Claims(w))
    ensures cl.workers[w] == Finishing(id, epoch)
    ensures r.Ok? ==> cl.Did(old(|cl.trace|), Work(w, Succeed), if r.value then SendRow(id) else NoWrite)
    ensures r.Ok? && r.value ==> SendOnRecord(cl.c, cl.start, cl.trace, old(|cl.trace|), Work(w, Succeed), id)
    ensures r.Ok? ==> Settled(cl.Snapshot(), id, epoch)
    ensures r.Ok? && r.value ==> IsSent(cl.Snapshot(), id) && cl.Told(old(|cl.events|), Event(id, SentEvent))
    ensures r.Raised? ==> cl.Took(|old(cl.trace)|, Work(w, Abort))
  {
    hide cl.Valid, cl.Snapshot, cl.Claims, IsOver, SaidAfter, DidStep, SendOnRecord;
    var updated :- WriteSent(cl, w, id, epoch, job);
    ghost var decided, from := cl.trace, |old(cl.trace)|;
    if !updated {
      return Ok(false);
    }
    var _ :- ReleaseAndTell(cl, w, id, epoch, SentEvent);
    WhatIsDoneIsDone(cl.c, cl.start, decided, cl.trace, from, Work(w, Succeed), SendRow(id));
    WritesAreOnRecord(cl.c, cl.start, cl.trace, from, Work(w, Succeed), SendRow(id));
    r := Ok(true);
  }

  /** `dead_letter`, called by `handle_failure` */
  method DeadLetterFailed(cl: Cluster, w: WorkerId, at: int, id: JobId, ghost epoch: nat, job: Job, attempt: nat)
    returns (r: Outcome<bool>)
    requires cl.Valid() && w in cl.workers && cl.workers[w].Allowed? && Carries(cl.workers[w], id, epoch, job)
    requires attempt == job.attempts + 1 >= job.maxAttempts && cl.workers[w].since <= at <= cl.now
    modifies cl, cl.db, cl.redis
    ensures cl.Valid() && cl.Continues() && w in cl.workers && cl.Claims(w) == old(cl.Claims(w))
    ensures cl.workers[w] == Finishing(id, epoch)
    ensures r.Ok? ==>
              cl.Did(old(|cl.trace|), Work(w, Fail(at)), if r.value then FailureWrite(cl.c, id, job, at) else NoWrite)
    ensures r.Ok? ==> Settled(cl.Snapshot(), id, epoch)
    ensures r.Ok? && r.value ==> FailedSince(old(cl.Snapshot()), cl.Snapshot(), id)
    ensures r.Ok? && r.value ==> BuriedSince(old(cl.Snapshot()), cl.Snapshot(), id)
    ensures r.Ok? && r.value ==> cl.Told(old(|cl.events|), Event(id, DeadLetteredEvent))
    ensures r.Raised? ==> cl.Took(|old(cl.trace)|, Work(w, Abort))
  {
    hide cl.Valid, cl.Snapshot, cl.Claims, IsOver, SaidAfter, DidStep, Evolves, FailedSince, BuriedSince, FailureWrite;
    var marked :- WriteBurial(cl, w, at, id, epoch, job, attempt);
    ghost var decided, from, since := cl.trace, |old(cl.trace)|, cl.Snapshot();
    label decided:
    if !marked {
      return Ok(false);
    }
    var _ :- ReleaseAndTell(cl, w, id, epoch, DeadLetteredEvent);
    cl.WentOn@decided();
    WhatIsDoneIsDone(cl.c, cl.start, decided, cl.trace, from, Work(w, Fail(at)), FailureWrite(cl.c, id, job, at));
    RecordsAreKept(old(cl.Snapshot()), since, cl.Snapshot(), id);
    r := Ok(true);
  }

  /** `handle_failure`. A call that returns has tried to write the failure: a burial
      at the cap, a retry after the backoff below it; the result says whether it
      did. If so the failure is on record, at the cap with a dead letter, and
      announced by this call; either way its claim is over. */
  method HandleFailure(cl: Cluster, w: WorkerId, id: JobId, ghost epoch: nat, job: Job) returns (r: Outcome<bool>)
    requires cl.Valid() && w in cl.workers && cl.workers[w].Allowed? && Carries(cl.workers[w], id, epoch, job)
    modifies cl, cl.db, cl.redis
    ensures cl.Valid() && cl.Continues() && w in cl.workers && cl.Claims(w) == old(cl.Claims(w))
    ensures cl.workers[w] == Finishing(id, epoch)
    ensures r.Ok? ==>
              cl.Did(old(|cl.trace|), Work(w, Fail(old(cl.now))),
                     if r.value then FailureWrite(cl.c, id, job, old(cl.now)) else NoWrite)
    ensures r.Ok? && r.value ==>
              var a, attempt := Work(w, Fail(old(cl.now))), job.attempts + 1;
              var due := old(cl.now) + cl.c.baseDelay * Pow2(attempt - 1);
              if attempt < job.maxAttempts then
                RetryOnRecord(cl.c, cl.start, cl.trace, old(|cl.trace|), a, id, attempt, due)
              else BurialOnRecord(cl.c, cl.start, cl.trace, old(|cl.trace|), a, id, job.recipient, attempt)
    ensures r.Ok? ==> Settled(cl.Snapshot(), id, epoch)
    ensures r.Ok? && r.value ==> FailedSince(old(cl.Snapshot()), cl.Snapshot(), id)
    ensures r.Ok? && r.value && job.attempts + 1 >= job.maxAttempts ==>
              && BuriedSince(old(cl.Snapshot()), cl.Snapshot(), id)
              && cl.Told(old(|cl.events|), Event(id, DeadLetteredEvent))
    ensures r.Ok? && r.value && job.attempts + 1 < job.maxAttempts ==>
              cl.Told(old(|cl.events|), Event(id, FailedEvent))
    ensures r.Raised? ==> cl.Took(|old(cl.trace)|, Work(w, Abort))
  {
    hide cl.Valid, cl.Snapshot, cl.Claims, IsOver, SaidAfter, DidStep, Evolves, FailedSince, BuriedSince, FailureWrite;
    hide RetryOnRecord, BurialOnRecord, Pow2, Settled;
    cl.HoldsAJob(w);
    var now := cl.now;
    var attempt := job.attempts + 1;
    ghost var from := |old(cl.trace)|;
    if attempt >= job.maxAttempts {
      r := DeadLetterFailed(cl, w, now, id, epoch, job, attempt);
      if r.Ok? && r.value {
        FailuresAreOnRecord(cl.c, cl.start, cl.trace, from, Work(w, Fail(now)), id, job, now);
      }
      return;
    }
    var updated :- WriteRetry(cl, w, now, id, epoch, job, attempt);
    ghost var decided, since := cl.trace, cl.Snapshot();
    label decided:
    if !updated {
      return Ok(false);
    }
    var _ :- ReleaseAndTell(cl, w, id, epoch, FailedEvent);
    cl.WentOn@decided();
    WhatIsDoneIsDone(cl.c, cl.start, decided, cl.trace, from, Work(w, Fail(now)), FailureWrite(cl.c, id, job, now));
    RecordsAreKept(old(cl.Snapshot()), since, cl.Snapshot(), id);
    FailuresAreOnRecord(cl.c, cl.start, cl.trace, from, Work(w, Fail(now)), id, job, now);
    r := Ok(true);
  }

  /** `defer_job`. A call that returns has tried to put the job off by `retryAfter`
      from its own reading of the clock; the result says whether it did; either
      way its claim is over. */
  method DeferJob(cl: Cluster, w: WorkerId, id: JobId, ghost epoch: nat, job: Job, retryAfter: int)
    returns (r: Outcome<bool>)
    requires cl.Valid() && w in cl.workers && cl.workers[w].Refused? && Carries(cl.workers[w], id, epoch, job)
    requires cl.workers[w].retryAfter == retryAfter
    modifies cl, cl.db, cl.redis
    ensures cl.Valid() && cl.Continues() && w in cl.workers && cl.Claims(w) == old(cl.Claims(w))
    ensures cl.workers[w] == Finishing(id, epoch)
    ensures r.Ok? ==>
              cl.Did(old(|cl.trace|), Work(w, Protocol.Defer(old(cl.now))),
                     if r.value then Write.DeferRow(id, old(cl.now) + retryAfter * SECOND) else NoWrite)
    ensures r.Ok? && r.value ==>
              DeferralOnRecord(cl.c, cl.start, cl.trace, old(|cl.trace|), Work(w, Protocol.Defer(old(cl.now))), id,
                               old(cl.now) + retryAfter * SECOND)
    ensures r.Ok? ==> Settled(cl.Snapshot(), id, epoch)
    ensures r.Raised? ==> cl.Took(|old(cl.trace)|, Work(w, Abort))
  {
    hide cl.Valid, cl.Snapshot, cl.Claims, IsOver, SaidAfter, DidStep, Evolves, DeferralOnRecord;
    cl.HoldsAJob(w);
    var now := cl.now;
    var updated :- WriteDeferral(cl, w, now, id, epoch, job, retryAfter);
    ghost var decided, from, since := cl.trace, |old(cl.trace)|, cl.Snapshot();
    label decided:
    if !updated {
      return Ok(false);
    }
    var _ :- ReleaseLock(cl, w, id, epoch, None);
    cl.WentOn@decided();
    WhatIsDoneIsDone(cl.c, cl.start, decided, cl.trace, from, Work(w, Protocol.Defer(now)),
                     Write.DeferRow(id, now + retryAfter * SECOND));
    WritesAreOnRecord(cl.c, cl.start, cl.trace, from, Work(w, Protocol.Defer(now)),
                      Write.DeferRow(id, now + retryAfter * SECOND));
    SettlesForGood(since, cl.Snapshot(), id, epoch);
    r := Ok(true);
  }

  /** Since step number `from`, `w` has tried to write the outcome of a delivery: a
      deferral, or else what came of the attempt. */
  ghost predicate Delivered(trace: seq<Action>, from: nat, w: WorkerId, fails: bool) {
    || (exists n, at :: from <= n < |trace| && trace[n] == Work(w, Protocol.Defer(at)))
    || (fails && exists n, at :: from <= n < |trace| && trace[n] == Work(w, Fail(at)))
    || (!fails && exists n :: from <= n < |trace| && trace[n] == Work(w, Succeed))
  }

  lemma DeliveredForGood(trace: seq<Action>, more: seq<Action>, from: nat, later: nat, w: WorkerId, fails: bool)
    requires Delivered(trace, later, w, fails) && from <= later && trace <= more
    ensures Delivered(more, from, w, fails)
  {
    if n, at :| later <= n < |trace| && trace[n] == Work(w, Protocol.Defer(at)) {
      assert more[n] == Work(w, Protocol.Defer(at));
    } else if fails {
      var n, at :| later <= n < |trace| && trace[n] == Work(w, Fail(at));
      assert more[n] == Work(w, Fail(at));
    } else {
      var n :| later <= n < |trace| && trace[n] == Work(w, Succeed);
      assert more[n] == Work(w, Succeed);
    }
  }

  lemma OutcomesAreDeliveries(
      c: Config, start: int, trace: seq<Action>, from: nat, later: nat, w: WorkerId, a: Action, write: Write,
      fails: bool)
    requires DidStep(c, start, trace, later, a, write) && from <= later && a.Work? && a.w == w
    requires a.op.Defer? || (if fails then a.op.Fail? else a.op.Succeed?)
    ensures Delivered(trace, from, w, fails)
  {
    hide DidStep;
    WhatIsDoneWasTaken(c, start, trace, later, a, write);
    var n :| later <= n < |trace| && trace[n] == a;
    assert a == Work(w, a.op);
    if a.op.Defer? {
      assert trace[n] == Work(w, Protocol.Defer(a.op.at));
    } else if fails {
      assert trace[n] == Work(w, Fail(a.op.at));
    }
  }

  /** `execute_delivery`: `fails` is whether the channel does. */
  method ExecuteDelivery(cl: Cluster, w: WorkerId, id: JobId, ghost epoch: nat, fails: bool) returns (r: Outcome<()>)
    requires cl.Valid() && w in cl.workers && cl.workers[w].Holding? && SameClaim(Finishing(id, epoch), cl.workers[w])
    modifies cl, cl.db, cl.redis
    ensures cl.Valid() && cl.Continues() && w in cl.workers && cl.Claims(w) == old(cl.Claims(w))
    ensures cl.workers[w] == Finishing(id, epoch)
    ensures r.Ok? ==> Settled(cl.Snapshot(), id, epoch)
    ensures r.Ok? ==> Delivered(cl.trace, |old(cl.trace)|, w, fails)
    ensures r.Raised? ==> cl.Took(|old(cl.trace)|, Work(w, Abort))
  {
    hide cl.Valid, cl.Snapshot, cl.Claims, cl.Told, IsSent, FailedSince, BuriedSince, Settled;
    hide Delivered, DidStep, FailureWrite, SendOnRecord, RetryOnRecord, BurialOnRecord, DeferralOnRecord, Pow2;
    var job :- Fetch(cl, w, id, epoch);
    var verdict :- CheckRateLimit(cl, w, id, epoch, job);
    ghost var from, later, now := |old(cl.trace)|, |cl.trace|, cl.now;
    if !verdict.0 {
      var put :- DeferJob(cl, w, id, epoch, job, verdict.1);
      ghost var write := if put then Write.DeferRow(id, now + verdict.1 * SECOND) else NoWrite;
      OutcomesAreDeliveries(cl.c, cl.start, cl.trace, from, later, w, Work(w, Protocol.Defer(now)), write, fails);
      return Ok(());
    }
    if fails {
      var kept :- HandleFailure(cl, w, id, epoch, job);
      ghost var write := if kept then FailureWrite(cl.c, id, job, now) else NoWrite;
      OutcomesAreDeliveries(cl.c, cl.start, cl.trace, from, later, w, Work(w, Fail(now)), write, fails);
    } else {
      var sent :- HandleSuccess(cl, w, id, epoch, job);
      ghost var write := if sent then SendRow(id) else NoWrite;
      OutcomesAreDeliveries(cl.c, cl.start, cl.trace, from, later, w, Work(w, Succeed), write, fails);
    }
    r := Ok(());
  }

  /** `finally: stop.set(); await heartbeat` */
  method StopHeartbeat(cl: Cluster, w: WorkerId, id: JobId, ghost epoch: nat) returns (r: Outcome<()>)
    requires cl.Valid() && w in cl.workers && cl.workers[w] == Finishing(id, epoch)
    modifies cl, cl.db, cl.redis
    ensures cl.Valid() && cl.Continues() && w in cl.workers && cl.Claims(w) == old(cl.Claims(w))
    ensures cl.workers[w] == Scanning(High)
    ensures r.Raised? ==> cl.Took(|old(cl.trace)|, Work(w, Abort))
  {
    hide cl.RanTo, cl.Claims, DidStep, Apply, JobsAfter;
    var _ :- cl.Await(w);
    var before := cl.Snapshot();
    cl.HoldsAJob(w);
    NoRowWrite(cl.now, cl.db.jobs);
    cl.Worked(w, Finish, before);
    r := Ok(());
  }

  /** `process_job`: a delivery that returns has tried to write a deferral, or what
      came of the attempt, and its claim is over; a delivery that raises leaves it to recovery. */
  method ProcessJob(cl: Cluster, w: WorkerId, id: JobId, ghost epoch: nat, fails: bool) returns (r: Outcome<()>)
    requires cl.Valid() && w in cl.workers && cl.workers[w].Holding? && SameClaim(Finishing(id, epoch), cl.workers[w])
    modifies cl, cl.db, cl.redis
    ensures cl.Valid() && cl.Continues() && w in cl.workers && cl.Claims(w) == old(cl.Claims(w))
    ensures cl.workers[w] == Scanning(High)
    ensures r.Ok? ==> Settled(cl.Snapshot(), id, epoch)
    ensures r.Ok? ==> Delivered(cl.trace, |old(cl.trace)|, w, fails)
    ensures r.Raised? ==> cl.Took(|old(cl.trace)|, Work(w, Abort))
  {
    hide cl.Valid, cl.Claims, IsOver, Settled, Delivered;
    var delivered := ExecuteDelivery(cl, w, id, epoch, fails);
    label delivery:
    ghost var before, trace := cl.Snapshot(), cl.trace;
    var stopped := StopHeartbeat(cl, w, id, epoch);
    if delivered.Raised? || stopped.Raised? {
      return Raised;
    }
    cl.WentOn@delivery();
    SettlesForGood(before, cl.Snapshot(), id, epoch);
    DeliveredForGood(trace, cl.trace, |old(cl.trace)|, |old(cl.trace)|, w, fails);
    r := Ok(());
  }
}
