/** PostgreSQL and Redis as the processes see them: mutable stores with one atomic
    method per statement, transaction or command. */
module Store {
  import opened Types
  import opened Statements
  import opened Windows
  import opened Protocol
  import opened Batches
  import opened Rows

  /** A write to one row changes that row alone. */
  lemma OneRowWrite(now: int, write: Write, jobs: map<JobId, Entry>, j: JobId)
    requires j in jobs && !write.Insert?
    requires forall i, e | i != j :: EntryAfter(now, write, i, e) == e
    ensures JobsAfter(now, write, jobs) == jobs[j := EntryAfter(now, write, j, jobs[j])]
  {
  }

  lemma NoRowWrite(now: int, jobs: map<JobId, Entry>)
    ensures JobsAfter(now, NoWrite, jobs) == jobs
  {
  }

  lemma OneByOne(now: int, jobs: map<JobId, Entry>, batch: set<JobId>)
    ensures (map j | j in jobs ::
               if j !in batch then jobs[j]
               else Entry(PromoteDueJob(now, jobs[j].row),
                          jobs[j].h.(promotions := jobs[j].h.promotions + 1, changes := jobs[j].h.changes + 1)))
            == JobsAfter(now, PromoteRows(batch), jobs)
  {
  }

  lemma PromotionsInPlace(c: Config, now: int, jobs: map<JobId, Entry>, skipped: set<JobId>, batch: set<JobId>)
    requires IsPromotable(c.batchSize, jobs, DueIn(c, now, jobs) - skipped, batch)
    ensures batch <= jobs.Keys
    ensures var after := JobsAfter(now, PromoteRows(batch), jobs);
            && (forall j | j in batch ::
                  var r := jobs[j].row;
                  && j !in skipped && r.status == Pending && r.sendAt <= now + c.lookahead
                  && after[j].row == r.(status := Queued, updatedAt := now))
            && (|batch| < c.batchSize ==>
                  forall j | j in after && j !in skipped && after[j].row.status == Pending ::
                    after[j].row.sendAt > now + c.lookahead)
  {
    if |batch| < c.batchSize { SmallBatchesTakeAll(c.batchSize, DueIn(c, now, jobs) - skipped, batch); }
  }

  class Database {
    var jobs: map<JobId, Entry>
    var dlq: seq<DeadLetter>
    var keys: map<string, JobId>

    constructor ()
      ensures jobs == map[] && dlq == [] && keys == map[]
    {
      jobs, dlq, keys := map[], [], map[];
    }

    /** `FETCH_JOB` */
    method FetchJob(id: JobId) returns (row: Job)
      requires id in jobs
      ensures row == jobs[id].row
    {
      row := jobs[id].row;
    }

    /** `CLAIM_QUEUED_JOB`, the third gate */
    method ClaimQueued(now: int, w: WorkerId, id: JobId) returns (claimed: bool)
      modifies this`jobs
      ensures claimed <==> id in old(jobs) && old(jobs)[id].row.status == Queued
      ensures jobs == JobsAfter(now, if claimed then ClaimRow(id, w) else NoWrite, old(jobs))
    {
      NoRowWrite(now, jobs);
      claimed := id in jobs && jobs[id].row.status == Queued;
      if claimed {
        OneRowWrite(now, ClaimRow(id, w), jobs, id);
        var e := jobs[id];
        var h := e.h.(claims := e.h.claims + 1, changes := e.h.changes + 1);
        jobs := jobs[id := Entry(ClaimQueuedJob(now, w, e.row), h)];
      }
    }

    /** `UPDATE_HEARTBEAT` */
    method Heartbeat(now: int, id: JobId, w: WorkerId) returns (updated: bool)
      modifies this`jobs
      ensures updated <==> id in old(jobs) && IsHeldBy(old(jobs)[id].row, Some(w))
      ensures jobs == JobsAfter(now, if updated then BeatRow(id) else NoWrite, old(jobs))
    {
      NoRowWrite(now, jobs);
      updated := id in jobs && OwnedBy(jobs[id].row, Some(w));
      if updated {
        OneRowWrite(now, BeatRow(id), jobs, id);
        jobs := jobs[id := Entry(UpdateHeartbeat(now, jobs[id].row), jobs[id].h)];
      }
    }

    /** `MARK_SENT` */
    method MarkAsSent(now: int, id: JobId, who: Option<WorkerId>) returns (updated: bool)
      modifies this`jobs
      ensures updated <==> id in old(jobs) && IsHeldBy(old(jobs)[id].row, who)
      ensures jobs == JobsAfter(now, if updated then SendRow(id) else NoWrite, old(jobs))
    {
      NoRowWrite(now, jobs);
      updated := id in jobs && OwnedBy(jobs[id].row, who);
      if updated {
        OneRowWrite(now, SendRow(id), jobs, id);
        var e := jobs[id];
        jobs := jobs[id := Entry(MarkSent(now, e.row), e.h.(sends := e.h.sends + 1, changes := e.h.changes + 1))];
      }
    }

    /** `SCHEDULE_RETRY` */
    method Retry(now: int, attempt: nat, failedAt: int, next: int, id: JobId, who: Option<WorkerId>)
      returns (updated: bool)
      modifies this`jobs
      ensures updated <==> id in old(jobs) && IsHeldBy(old(jobs)[id].row, who)
      ensures jobs == JobsAfter(now, if updated then RetryRow(id, attempt, failedAt, next) else NoWrite, old(jobs))
    {
      NoRowWrite(now, jobs);
      updated := id in jobs && OwnedBy(jobs[id].row, who);
      if updated {
        OneRowWrite(now, RetryRow(id, attempt, failedAt, next), jobs, id);
        var e := jobs[id];
        jobs := jobs[id := Entry(ScheduleRetry(now, attempt, next, e.row), FailureRecorded(e.h, failedAt))];
      }
    }

    /** `DEFER_TO_NEXT_WINDOW` */
    method Defer(now: int, next: int, id: JobId, who: Option<WorkerId>) returns (updated: bool)
      modifies this`jobs
      ensures updated <==> id in old(jobs) && IsHeldBy(old(jobs)[id].row, who)
      ensures jobs == JobsAfter(now, if updated then DeferRow(id, next) else NoWrite, old(jobs))
    {
      NoRowWrite(now, jobs);
      updated := id in jobs && OwnedBy(jobs[id].row, who);
      if updated {
        OneRowWrite(now, DeferRow(id, next), jobs, id);
        var e := jobs[id];
        jobs := jobs[id := Entry(DeferToNextWindow(now, next, e.row),
                                 e.h.(deferrals := e.h.deferrals + 1, changes := e.h.changes + 1))];
      }
    }

    /** The transaction of `dead_letter`: `MARK_DEAD_LETTERED`, and
        `INSERT_DEAD_LETTER` if it matched; both or neither. `write` names the
        caller: a worker that failed, or the recovery of a dead one's job. */
    method DeadLetterJob(now: int, write: Write, who: Option<WorkerId>) returns (marked: bool)
      requires write.BuryFailed? || write.BuryReclaimed?
      modifies this`jobs, this`dlq
      ensures marked <==> write.job in old(jobs) && old(jobs)[write.job].row.workerId == who
      ensures jobs == JobsAfter(now, if marked then write else NoWrite, old(jobs))
      ensures dlq == DlqAfter(if marked then write else NoWrite, old(dlq))
    {
      NoRowWrite(now, jobs);
      marked := write.job in jobs && NotDistinct(jobs[write.job].row.workerId, who);
      if marked {
        OneRowWrite(now, write, jobs, write.job);
        var e, error := jobs[write.job], if write.BuryFailed? then DeliveryFailed else WorkerDied;
        var h := if write.BuryFailed? then FailureRecorded(e.h, write.failedAt) else e.h.(changes := e.h.changes + 1);
        jobs := jobs[write.job := Entry(MarkDeadLettered(now, write.attempt, error, e.row), h)];
        dlq := dlq + [DeadLetter(write.job, write.recipient, write.attempt, error)];
      }
    }

    /** Its subselect */
    method SelectDue(c: Config, now: int, skipped: set<JobId>) returns (batch: set<JobId>)
      ensures IsPromotable(c.batchSize, jobs, DueIn(c, now, jobs) - skipped, batch)
    {
      var due := DueIn(c, now, jobs) - skipped;
      ghost var some := PromotableBatch(c.batchSize, jobs, due);
      batch :| batch <= due && IsPromotable(c.batchSize, jobs, due, batch);
    }

    /** `PROMOTE_DUE_JOBS`: rows other transactions hold locked are skipped, ties
        go either way. */
    method PromoteDue(c: Config, now: int, skipped: set<JobId>) returns (rows: map<JobId, Ticket>)
      modifies this`jobs
      ensures rows.Keys <= old(jobs).Keys
      ensures IsPromotable(c.batchSize, old(jobs), DueIn(c, now, old(jobs)) - skipped, rows.Keys)
      ensures jobs == JobsAfter(now, PromoteRows(rows.Keys), old(jobs))
      ensures forall j | j in rows ::
                var r := old(jobs)[j].row;
                && j !in skipped && r.status == Pending && r.sendAt <= now + c.lookahead
                && rows[j] == Ticket(r.priority, r.sendAt) && jobs[j].row == r.(status := Queued, updatedAt := now)
      ensures |rows.Keys| < c.batchSize ==>
                forall j | j in jobs && j !in skipped && jobs[j].row.status == Pending ::
                  jobs[j].row.sendAt > now + c.lookahead
    {
      hide IsPromotable, DueIn, EntryAfter, JobsAfter, PromoteDueJob;
      var batch := SelectDue(c, now, skipped);
      PromotionsInPlace(c, now, jobs, skipped, batch);
      OneByOne(now, jobs, batch);
      rows := map j | j in batch :: Ticket(jobs[j].row.priority, jobs[j].row.sendAt);
      assert rows.Keys == batch;
      jobs := map j | j in jobs ::
        if j !in batch then jobs[j]
        else Entry(PromoteDueJob(now, jobs[j].row),
                   jobs[j].h.(promotions := jobs[j].h.promotions + 1, changes := jobs[j].h.changes + 1));
    }

    /** `RECOVER_STALE_CLAIMED` */
    method RecoverStale(c: Config, now: int) returns (rows: map<JobId, Reclaimed>)
      modifies this`jobs
      ensures rows.Keys == StaleIn(c, now, old(jobs))
      ensures forall j | j in old(jobs) ::
                var r := old(jobs)[j].row;
                j in rows
                <==> r.status == Claimed && r.heartbeatAt.Some? && r.heartbeatAt.value < now - c.heartbeatTimeout
      ensures jobs == JobsAfter(now, ReclaimRows(rows.Keys), old(jobs))
      ensures forall j | j in rows :: rows[j] == Reclaimed(old(jobs)[j].row.attempts + 1, old(jobs)[j].row.maxAttempts)
    {
      var stale := StaleIn(c, now, jobs);
      rows := map j | j in stale :: Reclaimed(jobs[j].row.attempts + 1, jobs[j].row.maxAttempts);
      assert rows.Keys == stale;
      jobs := map j | j in jobs ::
        if j !in stale then jobs[j]
        else Entry(RecoverStaleClaimed(now, jobs[j].row),
                   jobs[j].h.(reclaims := jobs[j].h.reclaims + 1, changes := jobs[j].h.changes + 1));
    }

    /** `REQUEUE_STALE_QUEUED`: a limit, and no order. */
    method SelectStranded(c: Config, now: int) returns (rows: map<JobId, Ticket>)
      ensures rows.Keys <= jobs.Keys && IsLimited(c.batchSize, StrandedIn(c, now, jobs), rows.Keys)
      ensures forall j | j in rows ::
                && jobs[j].row.status == Queued && jobs[j].row.updatedAt < now - c.requeueAfter
                && rows[j] == Ticket(jobs[j].row.priority, jobs[j].row.sendAt)
      ensures |rows.Keys| < c.batchSize ==>
                forall j | j in jobs && j !in rows && jobs[j].row.status == Queued ::
                  jobs[j].row.updatedAt >= now - c.requeueAfter
    {
      var pool := StrandedIn(c, now, jobs);
      ghost var some := LimitedBatch(c.batchSize, pool, {});
      var batch :| batch <= pool && IsLimited(c.batchSize, pool, batch);
      rows := map j | j in batch :: Ticket(jobs[j].row.priority, jobs[j].row.sendAt);
      assert rows.Keys == batch;
      if |batch| < c.batchSize { SmallBatchesTakeAll(c.batchSize, pool, batch); }
    }

    /** The transaction of `create_job`: `INSERT_JOB`, and `INSERT_IDEMPOTENCY_KEY`
        if a key is given; a key already there rolls both back. */
    method InsertUnlessTaken(id: JobId, row: Job, key: Option<string>) returns (created: bool)
      requires id !in jobs
      modifies this`jobs, this`keys
      ensures created <==> !(IsGiven(key) && key.value in old(keys))
      ensures created ==> jobs == old(jobs)[id := Entry(row, FRESH)]
      ensures created ==> keys == if IsGiven(key) then old(keys)[key.value := id] else old(keys)
      ensures !created ==> jobs == old(jobs) && keys == old(keys)
    {
      var savedJobs := jobs;
      jobs := jobs[id := Entry(row, FRESH)];
      created := true;
      if IsGiven(key) {
        if key.value in keys {
          jobs, created := savedJobs, false;
        } else {
          keys := keys[key.value := id];
        }
      }
    }

    /** `RETRY_DEAD_LETTERED_JOB` */
    method ReplayJob(now: int, id: JobId) returns (replayed: bool)
      modifies this`jobs
      ensures replayed <==> id in old(jobs) && old(jobs)[id].row.status == DeadLettered
      ensures jobs == JobsAfter(now, if replayed then ReplayRow(id) else NoWrite, old(jobs))
    {
      NoRowWrite(now, jobs);
      replayed := id in jobs && jobs[id].row.status == DeadLettered;
      if replayed {
        OneRowWrite(now, ReplayRow(id), jobs, id);
        var h := jobs[id].h;
        jobs := jobs[id := Entry(RetryDeadLettered(now, jobs[id].row),
          FRESH.(promotions := h.promotions, claims := h.claims, replays := h.replays + 1, sends := h.sends))];
      }
    }
  }

  class Redis {
    var queue: map<Slot, int>
    var locks: map<JobId, int>
    var counters: map<Window, Counter>

    constructor ()
      ensures queue == map[] && locks == map[] && counters == map[]
    {
      queue, locks, counters := map[], map[], map[];
    }

    /** `ZPOPMIN queue:{tier} 1`, the first gate */
    method PopMin(tier: Priority) returns (popped: Option<JobId>)
      modifies this`queue
      ensures if popped.None? then TierIsEmpty(old(queue), tier) else IsHead(old(queue), Slot(tier, popped.value))
      ensures queue == if popped.None? then old(queue) else old(queue) - {Slot(tier, popped.value)}
    {
      var members := set slot | slot in queue && slot.tier == tier;
      if members == {} {
        assert forall slot | slot in queue && slot.tier == tier :: slot in members;
        popped := None;
      } else {
        ghost var least := HeadOf(queue, tier, members);
        assert IsHead(queue, least);
        var head :| head in members && IsHead(queue, head);
        popped := Some(head.job);
        queue := queue - {head};
        assert head == Slot(tier, head.job);
      }
    }

    /** `ZADD`s in one MULTI/EXEC */
    method AddAll(members: map<Slot, int>)
      modifies this`queue
      ensures queue == old(queue) + members
    {
      queue := queue + members;
    }

    /** `SET job:lock:{id} NX EX ttl`, the second gate */
    method Acquire(now: int, id: JobId, ttl: nat) returns (acquired: bool)
      modifies this`locks
      ensures acquired <==> id !in old(locks) || old(locks)[id] <= now
      ensures locks == if acquired then old(locks)[id := now + ttl] else old(locks)
    {
      acquired := IsUnlocked(now, locks, id);
      if acquired {
        locks := locks[id := now + ttl];
      }
    }

    /** `DEL job:lock:{id}`, whoever holds it */
    method Unlock(id: JobId)
      modifies this`locks
      ensures locks == old(locks) - {id}
    {
      locks := locks - {id};
    }

    /** `EVAL INCR_WITH_TTL`: `w` and `limit` only feed the history. */
    method Increment(now: int, key: Window, w: WorkerId, limit: int) returns (count: int)
      modifies this`counters
      ensures counters == CountersAfter(now, Command.Increment(key, w, limit), old(counters))
      ensures count == Current(now, old(counters), key).value + 1
      ensures key in counters && counters[key].value == count && IsAlive(now, counters, key)
      ensures IsAlive(now, old(counters), key) ==> count == old(counters)[key].value + 1
      ensures !IsAlive(now, old(counters), key) ==> count == 1
      ensures count == 1 ==> counters[key].expires == Some(now + 7_200_000_000)
      ensures count != 1 ==> counters[key].expires == old(counters)[key].expires
    {
      var k := Current(now, counters, key);
      count := k.value + 1;
      var expires := k.expires;
      if count == 1 {
        expires := Some(now + WINDOW_TTL);
      }
      var undoing := if count > limit then k.undoing + {w} else k.undoing;
      counters := counters[key := Counter(count, expires, k.checks + 1, undoing, k.forgotten)];
    }

    /** `DECR` */
    method Decrement(now: int, key: Window, w: WorkerId)
      modifies this`counters
      ensures counters == CountersAfter(now, Command.Decrement(key, w), old(counters))
    {
      var k := Current(now, counters, key);
      counters := counters[key := k.(value := k.value - 1, undoing := k.undoing - {w})];
    }
  }
}
