/** The API's handlers that change something, and `metrics`, running among
    everybody else. */
module Serving {
  import opened Types
  import opened Statements
  import opened Protocol
  import opened Steps
  import opened Columns
  import opened Requests
  import opened Rows
  import opened Store
  import opened Cluster

  /** A request has had its answer, or its conflict. */
  method Served(cl: Cluster, op: ApiOp, before: State)
    requires cl.RanTo(before) && CanServe(before, op)
    requires cl.db.jobs == JobsAfter(before.now, ApiWrites(cl.c, before, op), before.jobs)
    requires cl.db.keys == KeysAfter(ApiWrites(cl.c, before, op), before.keys) && cl.db.dlq == before.dlq
    requires cl.redis.queue == before.queue && cl.redis.locks == before.locks && cl.redis.counters == before.counters
    modifies cl
    ensures cl.Valid() && cl.start == old(cl.start) && cl.trace == old(cl.trace) + [Api(op)] && cl.now == before.now
    ensures cl.replies == RepliesAfter(before, op) && |before.events| <= |cl.events|
    ensures cl.Did(|old(cl.trace)|, Api(op), ApiWrites(cl.c, before, op))
    ensures CanServe(before, op) && cl.Moved(|old(cl.trace)|, Api(op), before, Apply(cl.c, before, Api(op)))
  {
    hide cl.RanTo, cl.Claims, TookStep, MovedStep, Apply, Enabled, CanServe;
    hide ApiWrites, JobsAfter, KeysAfter, RepliesAfter;
    ApiSteps(cl.c, before, op);
    cl.Commit(Api(op), before);
  }

  lemma InsertsOneJob(now: int, jobs: map<JobId, Entry>, id: JobId, row: Job, key: Option<string>)
    ensures JobsAfter(now, Insert(id, row, key), jobs) == jobs[id := Entry(row, FRESH)]
  {
  }

  /** Among the steps from number `from` on, request `r` stored a new job `id`, with
      what was asked for in its columns. */
  ghost predicate CreationOnRecord(
      c: Config, start: int, trace: seq<Action>, from: nat, r: RequestId, id: JobId, recipient: string, sendAt: int,
      priority: Priority, key: Option<string>)
  {
    exists s, t ::
      && MovedStep(c, start, trace, from, Api(Submit(r, id, recipient, sendAt, priority, key)), s, t)
      && id !in s.jobs && id in t.jobs
      && t.jobs[id].row == Job(recipient, priority, sendAt, Pending, 0, c.maxAttempts,
                               None, None, None, None, None, None, None, s.now)
  }

  lemma CreationsAreOnRecord(
      c: Config, start: int, trace: seq<Action>, from: nat, later: nat, r: RequestId, id: JobId, recipient: string,
      sendAt: int, priority: Priority, key: Option<string>, s: State)
    requires CanServe(s, Submit(r, id, recipient, sendAt, priority, key)) && from <= later
    requires !(key.Some? && key.value != "" && key.value in s.keys)
    requires var a := Api(Submit(r, id, recipient, sendAt, priority, key));
             MovedStep(c, start, trace, later, a, s, Apply(c, s, a))
    ensures CreationOnRecord(c, start, trace, from, r, id, recipient, sendAt, priority, key)
  {
    hide Apply, Leads;
    SubmissionsStoreWhatWasAsked(c, s, r, id, recipient, sendAt, priority, key);
    var a := Api(Submit(r, id, recipient, sendAt, priority, key));
    assert MovedStep(c, start, trace, from, a, s, Apply(c, s, a));
  }

  /** The transaction of `create_job` */
  method InsertJobAndKey(
      cl: Cluster, r: RequestId, recipient: string, sendAt: int, priority: Priority, key: Option<string>)
    returns (created: Option<JobId>)
    requires cl.Valid() && r !in cl.replies
    modifies cl, cl.db, cl.redis
    ensures cl.Valid() && cl.Continues() && r in cl.replies
    ensures cl.replies[r]
            == if created.Some? then Created(created.value) else Losing(if key.Some? then key.value else "")
    ensures created.Some? ==> created.value in cl.db.jobs && created.value !in old(cl.db.jobs)
    ensures created.Some? ==>
              CreationOnRecord(cl.c, cl.start, cl.trace, old(|cl.trace|), r, created.value, recipient, sendAt, priority,
                               key)
    ensures created.Some? && IsGiven(key) ==>
              key.value !in old(cl.db.keys) && key.value in cl.db.keys && cl.db.keys[key.value] == created.value
    ensures created.None? ==> IsGiven(key) && key.value in cl.db.keys
    ensures IsGiven(key) && key.value in old(cl.db.keys) ==>
              created.None? && cl.db.keys[key.value] == old(cl.db.keys)[key.value]
  {
    hide cl.RanTo, DidStep, MovedStep, CreationOnRecord, JobsAfter, Apply, HistoryGoesOn, cl.Claims, cl.Told;
    cl.Interleave(TheRequest(r));
    cl.WentOn();
    var before := cl.Snapshot();
    ghost var bound := FreshIdsExist(cl.db.jobs.Keys);
    assert bound !in cl.db.jobs;
    var id: JobId :| id !in cl.db.jobs;
    var row := InsertJob(cl.c, cl.now, recipient, sendAt, priority);
    var inserted := cl.db.InsertUnlessTaken(id, row, key);
    InsertsOneJob(cl.now, before.jobs, id, row, if IsGiven(key) then key else None);
    NoRowWrite(cl.now, before.jobs);
    ghost var later := |cl.trace|;
    Served(cl, Submit(r, id, recipient, sendAt, priority, key), before);
    if inserted {
      CreationsAreOnRecord(cl.c, cl.start, cl.trace, old(|cl.trace|), later, r, id, recipient, sendAt, priority, key,
                           before);
    }
    created := if inserted then Some(id) else None;
  }

  /** `SELECT_EXISTING_JOB_ID`, after the rollback */
  method FindExisting(cl: Cluster, r: RequestId, key: string) returns (existing: JobId)
    requires cl.Valid() && r in cl.replies && cl.replies[r] == Losing(key) && key in cl.db.keys
    modifies cl, cl.db, cl.redis
    ensures cl.Valid() && cl.Continues()
    ensures r in cl.replies && cl.replies[r] == Duplicate(existing)
    ensures existing == old(cl.db.keys)[key] && key in cl.db.keys && cl.db.keys[key] == existing
  {
    hide cl.RanTo, DidStep, JobsAfter, Apply, HistoryGoesOn, cl.Claims, cl.Told;
    cl.Interleave(TheRequest(r));
    cl.WentOn();
    var before := cl.Snapshot();
    existing := cl.db.keys[key];
    NoRowWrite(cl.now, before.jobs);
    Served(cl, Lookup(r), before);
  }

  /** `create_job`: a 201 names a job that was not there before, whose row this call
      stored as it was asked to, and which, with a key, is the first with it; a 409
      names the job the key belongs to, the same however often and however late
      one asks. */
  method CreateJob(cl: Cluster, r: RequestId, recipient: string, sendAt: int, priority: Priority, key: Option<string>)
    returns (reply: Reply)
    requires cl.Valid() && r !in cl.replies
    modifies cl, cl.db, cl.redis
    ensures cl.Valid() && cl.Continues() && r in cl.replies && cl.replies[r] == reply
    ensures reply.Created? || reply.Duplicate?
    ensures reply.Created? ==> reply.id in cl.db.jobs && reply.id !in old(cl.db.jobs)
    ensures reply.Created? ==>
              exists s, t ::
                && cl.Moved(old(|cl.trace|), Api(Submit(r, reply.id, recipient, sendAt, priority, key)), s, t)
                && reply.id !in s.jobs && reply.id in t.jobs
                && t.jobs[reply.id].row == Job(recipient, priority, sendAt, Pending, 0, cl.c.maxAttempts,
                                               None, None, None, None, None, None, None, s.now)
    ensures reply.Created? && IsGiven(key) ==>
              key.value !in old(cl.db.keys) && key.value in cl.db.keys && cl.db.keys[key.value] == reply.id
    ensures reply.Duplicate? ==> IsGiven(key) && key.value in cl.db.keys && cl.db.keys[key.value] == reply.existing
    ensures IsGiven(key) && key.value in old(cl.db.keys) ==> reply == Duplicate(old(cl.db.keys)[key.value])
  {
    hide cl.Valid, MovedStep;
    var created := InsertJobAndKey(cl, r, recipient, sendAt, priority, key);
    if created.None? {
      var existing := FindExisting(cl, r, key.value);
      return Duplicate(existing);
    }
    return Created(created.value);
  }

  // ---------------------------------------------------------------- replay

  datatype RetryAnswer = Accepted | NotFound | Conflict

  lemma ReplaysOneJob(now: int, jobs: map<JobId, Entry>, id: JobId)
    requires id in jobs
    ensures var after := JobsAfter(now, ReplayRow(id), jobs);
            && id in after && after[id].h.replays == jobs[id].h.replays + 1
            && after[id].row.status == Pending && after[id].row.attempts == 0
  {
  }

  /** A replay of the job is on record. */
  predicate ReplayedSince(s: State, t: State, id: JobId) {
    id in t.jobs && t.jobs[id].h.replays > (if id in s.jobs then s.jobs[id].h.replays else 0)
  }

  lemma ReplaysAreRecorded(s: State, t: State, u: State, id: JobId)
    requires Evolves(s, t) && id in t.jobs && u.jobs == JobsAfter(t.now, ReplayRow(id), t.jobs)
    ensures ReplayedSince(s, u, id)
  {
  }

  /** `RETRY_DEAD_LETTERED_JOB` */
  method ReplayRowOf(cl: Cluster, me: RequestId, id: JobId) returns (replayed: bool)
    requires cl.Valid()
    modifies cl, cl.db, cl.redis
    ensures cl.Valid() && cl.Continues()
    ensures cl.Did(old(|cl.trace|), Api(Replay(id)), if replayed then ReplayRow(id) else NoWrite)
    ensures replayed ==> id in cl.db.jobs && cl.db.jobs[id].row.status == Pending && cl.db.jobs[id].row.attempts == 0
    ensures replayed ==> ReplayedSince(old(cl.Snapshot()), cl.Snapshot(), id) && DlqRows(cl.db.dlq, id) > 0
    ensures !replayed ==> (id in cl.db.jobs ==> cl.db.jobs[id].row.status != DeadLettered)
  {
    hide cl.RanTo, TookStep, JobsAfter, Apply, cl.Claims, Reachable, ProcessesSound, Evolves, ReplayedSince;
    cl.Interleave(TheRequest(me));
    cl.WentOn();
    var before := cl.Snapshot();
    cl.IsReachable();
    replayed := cl.db.ReplayJob(cl.now, id);
    if replayed {
      ReplaysOneJob(cl.now, before.jobs, id);
      assert EntrySound(before.now, before.dlq, id, before.jobs[id]);
    }
    NoRowWrite(cl.now, before.jobs);
    Served(cl, Replay(id), before);
    if replayed {
      ReplaysAreRecorded(old(cl.Snapshot()), before, cl.Snapshot(), id);
    }
  }

  predicate IsDeadLettered(s: State, id: JobId) {
    id in s.jobs && s.jobs[id].row.status == DeadLettered
  }

  /** Among the steps from number `from` on, a replay of `id` found it dead-lettered,
      and made it due at once with its attempts unspent; or found it otherwise, and
      changed nothing. */
  ghost predicate ReplayOnRecord(c: Config, start: int, trace: seq<Action>, from: nat, id: JobId, accepted: bool) {
    exists s, t ::
      && MovedStep(c, start, trace, from, Api(Replay(id)), s, t)
      && (accepted <==> IsDeadLettered(s, id))
      && t.dlq == s.dlq
      && if !accepted then t.jobs == s.jobs
         else
           && id in t.jobs
           && t.jobs[id].row == s.jobs[id].row.(status := Pending, attempts := 0, sendAt := s.now,
                                                nextRetryAt := None, error := None, failedAt := None,
                                                workerId := None, claimedAt := None, heartbeatAt := None,
                                                updatedAt := s.now)
  }

  lemma ReplaysAreOnRecord(c: Config, start: int, trace: seq<Action>, from: nat, id: JobId, accepted: bool)
    requires DidStep(c, start, trace, from, Api(Replay(id)), if accepted then ReplayRow(id) else NoWrite)
    ensures ReplayOnRecord(c, start, trace, from, id, accepted)
  {
    hide DidStep, MovedStep, Apply, EntryAfter;
    var a, write := Api(Replay(id)), if accepted then ReplayRow(id) else NoWrite;
    var s, t := StepTaken(c, start, trace, from, a, write);
    WhatWritesLeave(c, s, a);
    WritesTouchTheirOwn(c, s, a);
    assert !accepted ==> t.jobs == s.jobs;
  }

  /** `retry_dead_lettered_job`: the call tries one replay, and accepts if and only
      if that found the job dead-lettered; if so the replay is on record, the job
      starts afresh and its dead letter stays; the two refusals tell a missing job
      from any other. */
  method RetryDeadLetteredJob(cl: Cluster, me: RequestId, id: JobId) returns (answer: RetryAnswer)
    requires cl.Valid()
    modifies cl, cl.db, cl.redis
    ensures cl.Valid() && cl.Continues()
    ensures cl.Did(old(|cl.trace|), Api(Replay(id)), if answer.Accepted? then ReplayRow(id) else NoWrite)
    ensures ReplayOnRecord(cl.c, cl.start, cl.trace, |old(cl.trace)|, id, answer.Accepted?)
    ensures answer.Accepted? ==> ReplayedSince(old(cl.Snapshot()), cl.Snapshot(), id)
    ensures answer.Accepted? ==> cl.db.jobs[id].row.status == Pending && cl.db.jobs[id].row.attempts == 0
    ensures answer.Accepted? ==> DlqRows(cl.db.dlq, id) > 0
    ensures answer.NotFound? ==> id !in cl.db.jobs && id !in old(cl.db.jobs)
    ensures answer.Conflict? ==> id in cl.db.jobs
  {
    hide cl.RanTo, HistoryGoesOn, DidStep, cl.Claims, ReplayOnRecord;
    var replayed := ReplayRowOf(cl, me, id);
    ghost var tried, from := cl.trace, |old(cl.trace)|;
    if replayed {
      ReplaysAreOnRecord(cl.c, cl.start, cl.trace, from, id, true);
      return Accepted;
    }
    cl.Interleave(TheRequest(me));
    cl.WentOn();
    WhatIsDoneIsDone(cl.c, cl.start, tried, cl.trace, from, Api(Replay(id)), NoWrite);
    ReplaysAreOnRecord(cl.c, cl.start, cl.trace, from, id, false);
    return if id in cl.db.jobs then Conflict else NotFound;
  }

  // --------------------------------------------------------------- metrics

  const JOB_STATUSES := [Pending, Queued, Claimed, Sent, Failed, DeadLettered]

  /** `metrics`: every status is there, absent ones as zero, and the counts add up
      to the number of 201 responses. */
  method GetMetrics(cl: Cluster) returns (counts: map<Status, nat>)
    requires cl.Valid()
    ensures counts == Metrics(cl.db.jobs)
    ensures forall status: Status ::
              status in counts && counts[status] == |set j | j in cl.db.jobs && cl.db.jobs[j].row.status == status|
    ensures counts[Pending] + counts[Queued] + counts[Claimed] + counts[Sent] + counts[Failed] + counts[DeadLettered]
            == |Winners(cl.replies)|
  {
    hide cl.RanTo, Reachable, Sound, WithStatus;
    var rows := GroupedByStatus(cl.db.jobs);
    counts := map[];
    var i := 0;
    while i < |JOB_STATUSES|
      invariant 0 <= i <= |JOB_STATUSES|
      invariant counts.Keys == set k | 0 <= k < i :: JOB_STATUSES[k]
      invariant forall status | status in counts :: counts[status] == 0
    {
      counts := counts[JOB_STATUSES[i] := 0];
      i := i + 1;
    }
    assert counts == map[Pending := 0, Queued := 0, Claimed := 0, Sent := 0, Failed := 0, DeadLettered := 0] by {
      AllStatuses();
    }
    counts := counts + rows;
    cl.IsReachable();
    MetricsAddUp(cl.c, cl.Snapshot());
  }

  lemma AllStatuses()
    ensures (set k | 0 <= k < |JOB_STATUSES| :: JOB_STATUSES[k])
            == {Pending, Queued, Claimed, Sent, Failed, DeadLettered}
  {
    assert JOB_STATUSES[0] == Pending && JOB_STATUSES[1] == Queued && JOB_STATUSES[2] == Claimed;
    assert JOB_STATUSES[3] == Sent && JOB_STATUSES[4] == Failed && JOB_STATUSES[5] == DeadLettered;
  }
}
