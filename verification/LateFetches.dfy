/** Why the fence's guarantees ask that a fetched row name its own worker: two runs
    in which a worker stalls between its claim and its fetch. One job, two
    workers, one scheduler; nothing crashes, nothing raises, and Redis is left
    alone. */
module LateFetches {
  import opened Types
  import opened Statements
  import opened Scores
  import opened Protocol
  import opened Steps
  import opened Columns
  import opened Accounting
  import opened Fencing
  import opened Announcing
  import opened Delivery
  import opened Liveness

  /** The parts of a state the runs are about. */
  datatype Scene = Scene(
    now: int,
    e: Entry,
    dlq: seq<DeadLetter>,
    queue: map<Slot, int>,
    locks: map<JobId, int>,
    ws: map<WorkerId, Worker>,
    q: Scheduler,
    events: seq<Event>)

  predicate Shows(s: State, x: Scene) {
    && s.now == x.now && s.jobs == map[0 := x.e] && s.dlq == x.dlq && s.queue == x.queue && s.locks == x.locks
    && s.workers == x.ws && s.schedulers == map[0 := x.q] && s.events == x.events
  }

  /** The state is reachable, and this is what it shows. */
  ghost predicate At(c: Config, s: State, x: Scene) {
    Reachable(c, s) && Shows(s, x)
  }

  function Said(events: seq<Event>, said: Option<Event>): seq<Event> {
    if said.Some? then events + [said.value] else events
  }

  function AfterWorker(x: Scene, w: WorkerId, step: WorkerStep): Scene {
    Scene(x.now, EntryAfter(x.now, step.write, 0, x.e), DlqAfter(step.write, x.dlq), QueueAfter(step.command, x.queue),
          LocksAfter(step.command, x.locks), x.ws[w := step.next], x.q, Said(x.events, step.said))
  }

  function AfterScheduler(x: Scene, step: SchedulerStep): Scene {
    Scene(x.now, EntryAfter(x.now, step.write, 0, x.e), DlqAfter(step.write, x.dlq), QueueAfter(step.command, x.queue),
          LocksAfter(step.command, x.locks), x.ws, step.next, Said(x.events, step.said))
  }

  lemma TheOneRow(now: int, write: Write, e: Entry)
    requires !write.Insert?
    ensures JobsAfter(now, write, map[0 := e]) == map[0 := EntryAfter(now, write, 0, e)]
  {
    hide EntryAfter;
  }

  lemma WorkerTurn(c: Config, s: State, x: Scene, w: WorkerId, op: WorkerOp, step: WorkerStep)
    returns (t: State, y: Scene)
    requires At(c, s, x) && w in x.ws && CanWork(s, x.ws[w], op)
    requires step == WorkerDoes(c, s, w, x.ws[w], op) && !step.write.Insert?
    ensures At(c, t, y) && y == AfterWorker(x, w, step)
    ensures Enabled(c, s, Work(w, op)) && t == Apply(c, s, Work(w, op))
    ensures s.foreignFetch || (op.Fetch? && x.ws[w].job == 0 && x.e.row.workerId != Some(w)) ==> t.foreignFetch
  {
    hide Apply, Reachable, CanWork, WorkerDoes, EntryAfter, JobsAfter;
    hide DlqAfter, KeysAfter, QueueAfter, LocksAfter, CountersAfter;
    WorkerSteps(c, s, w, op);
    TheOneRow(s.now, step.write, x.e);
    OneStepFurther(c, s, Work(w, op));
    t, y := Apply(c, s, Work(w, op)), AfterWorker(x, w, step);
  }

  lemma SchedulerTurn(c: Config, s: State, x: Scene, op: SchedulerOp, step: SchedulerStep) returns (t: State, y: Scene)
    requires At(c, s, x) && CanSchedule(c, s, x.q, op)
    requires step == SchedulerDoes(c, s, x.q, op) && !step.write.Insert?
    ensures At(c, t, y) && y == AfterScheduler(x, step) && t.foreignFetch == s.foreignFetch
  {
    hide Apply, Reachable, CanSchedule, SchedulerDoes, EntryAfter, JobsAfter;
    hide DlqAfter, KeysAfter, QueueAfter, LocksAfter, CountersAfter;
    SchedulerSteps(c, s, 0, op);
    TheOneRow(s.now, step.write, x.e);
    OneStepFurther(c, s, Schedule(0, op));
    t, y := Apply(c, s, Schedule(0, op)), AfterScheduler(x, step);
  }

  predicate IsOrdinary(c: Config) {
    c.fence == ByWorkerId && c.batchSize >= 1 && c.rateLimit >= 1
  }

  const RECIPIENT := "a"
  const SLOT := Slot(High, 0)
  const IDLE: map<WorkerId, Worker> := map[0 := Scanning(High), 1 := Scanning(High)]

  function Submitted(c: Config): Entry { Entry(InsertJob(c, 0, RECIPIENT, 0, High), FRESH) }

  // ---------------------------------------------------------- single steps

  lemma NoStep(c: Config, s: State)
    ensures Leads(c, s, [], s)
  {
    hide Enabled, Apply;
  }

  lemma Starts(c: Config) returns (s: State)
    ensures Reachable(c, s) && s == Initial(0).(workers := IDLE, schedulers := map[0 := AtPromote])
  {
    hide Protocol.Valid, After;
    var s0 := Initial(0);
    assert Leads(c, Initial(0), [], s0) by { NoStep(c, s0); }
    OneStepFurther(c, s0, StartWorker(0));
    var s1 := Apply(c, s0, StartWorker(0));
    OneStepFurther(c, s1, StartWorker(1));
    var s2 := Apply(c, s1, StartWorker(1));
    OneStepFurther(c, s2, StartScheduler(0));
    s := Apply(c, s2, StartScheduler(0));
  }

  lemma Submits(c: Config, s: State) returns (t: State, y: Scene)
    requires Reachable(c, s) && s == Initial(0).(workers := IDLE, schedulers := map[0 := AtPromote])
    ensures At(c, t, y) && y == Scene(0, Submitted(c), [], map[], map[], IDLE, AtPromote, [])
  {
    hide Reachable;
    var submit := Api(Submit(0, 0, RECIPIENT, 0, High, None));
    OneStepFurther(c, s, submit);
    t := Apply(c, s, submit);
    y := Scene(0, Submitted(c), [], map[], map[], IDLE, AtPromote, []);
  }

  lemma Waits(c: Config, s: State, x: Scene, elapsed: nat) returns (t: State, y: Scene)
    requires At(c, s, x)
    ensures At(c, t, y) && y == x.(now := x.now + elapsed) && t.foreignFetch == s.foreignFetch
    ensures t.counters == s.counters
  {
    hide Reachable;
    OneStepFurther(c, s, Tick(elapsed));
    t := Apply(c, s, Tick(elapsed));
    TheOneRow(s.now, NoWrite, x.e);
    y := x.(now := x.now + elapsed);
  }

  lemma Promotes(c: Config, s: State, x: Scene) returns (t: State, y: Scene)
    requires IsOrdinary(c) && At(c, s, x) && x.q == AtPromote && Due(c, x.now, x.e.row)
    ensures At(c, t, y) && t.foreignFetch == s.foreignFetch
    ensures y == x.(e := EntryAfter(x.now, PromoteRows({0}), 0, x.e),
                    q := Protocol.Promoted(map[0 := Ticket(x.e.row.priority, x.e.row.sendAt)]))
  {
    hide Reachable, Due;
    assert DueJobs(c, s, {}) == {0};
    assert |{0 as JobId}| == 1;
    assert Tickets(s, {0}) == map[0 := Ticket(x.e.row.priority, x.e.row.sendAt)];
    t, y := SchedulerTurn(c, s, x, Promote({}, {0}), SchedulerDoes(c, s, x.q, Promote({}, {0})));
  }

  lemma Enqueues(c: Config, s: State, x: Scene, sendAt: int) returns (t: State, y: Scene)
    requires At(c, s, x) && x.q == Protocol.Promoted(map[0 := Ticket(High, sendAt)]) && x.queue == map[]
    ensures At(c, t, y) && t.foreignFetch == s.foreignFetch
    ensures y == x.(q := AtRecover, queue := map[SLOT := PriorityScore(High, sendAt)])
  {
    hide Reachable;
    forall slot ensures slot in Members(x.q.batch) <==> slot == SLOT {
      IsMember(x.q.batch, slot);
    }
    IsMember(x.q.batch, SLOT);
    assert Members(x.q.batch) == map[SLOT := PriorityScore(High, sendAt)];
    t, y := SchedulerTurn(c, s, x, Enqueue, SchedulerDoes(c, s, x.q, Enqueue));
  }

  lemma Pops(c: Config, s: State, x: Scene, w: WorkerId) returns (t: State, y: Scene)
    requires At(c, s, x) && w in x.ws && x.ws[w] == Scanning(High) && x.queue.Keys == {SLOT}
    ensures At(c, t, y) && (s.foreignFetch ==> t.foreignFetch)
    ensures y == x.(ws := x.ws[w := Popped(High, 0)], queue := map[])
  {
    hide Reachable;
    t, y := WorkerTurn(c, s, x, w, Pop(Some(0)), WorkerDoes(c, s, w, x.ws[w], Pop(Some(0))));
  }

  lemma Locks(c: Config, s: State, x: Scene, w: WorkerId) returns (t: State, y: Scene)
    requires At(c, s, x) && w in x.ws && x.ws[w] == Popped(High, 0) && x.locks == map[]
    ensures At(c, t, y) && (s.foreignFetch ==> t.foreignFetch)
    ensures y == x.(ws := x.ws[w := Locked(High, 0)], locks := y.locks) && y.locks.Keys == {0}
  {
    hide Reachable;
    t, y := WorkerTurn(c, s, x, w, Lock, WorkerDoes(c, s, w, x.ws[w], Lock));
  }

  lemma Claims(c: Config, s: State, x: Scene, w: WorkerId) returns (t: State, y: Scene)
    requires At(c, s, x) && w in x.ws && x.ws[w] == Locked(High, 0) && x.e.row.status == Queued
    ensures At(c, t, y) && (s.foreignFetch ==> t.foreignFetch)
    ensures y == x.(ws := x.ws[w := Holding(0, x.e.h.claims + 1, x.now)],
                    e := EntryAfter(x.now, ClaimRow(0, w), 0, x.e))
  {
    hide Reachable;
    t, y := WorkerTurn(c, s, x, w, Claim, WorkerDoes(c, s, w, x.ws[w], Claim));
  }

  /** Recovery takes the silent claim. */
  lemma Recovers(c: Config, s: State, x: Scene) returns (t: State, y: Scene)
    requires At(c, s, x) && x.q == AtRecover && Stale(c, x.now, x.e.row)
    ensures At(c, t, y) && t.foreignFetch == s.foreignFetch
    ensures y == x.(q := Recovering(map[0 := Reclaimed(x.e.row.attempts + 1, x.e.row.maxAttempts)]),
                    e := EntryAfter(x.now, ReclaimRows({0}), 0, x.e))
  {
    hide Reachable, Stale;
    assert StaleJobs(c, s) == {0};
    assert RowsReset(c, s) == map[0 := Reclaimed(x.e.row.attempts + 1, x.e.row.maxAttempts)];
    assert RowsReset(c, s) != map[] by { assert 0 in RowsReset(c, s); }
    t, y := SchedulerTurn(c, s, x, Recover, SchedulerDoes(c, s, x.q, Recover));
  }

  lemma RecoversNothing(c: Config, s: State, x: Scene) returns (t: State, y: Scene)
    requires At(c, s, x) && x.q == AtRecover && x.e.row.status != Claimed
    ensures At(c, t, y) && t.foreignFetch == s.foreignFetch
    ensures y == x.(q := AtRequeue)
  {
    hide Reachable;
    assert StaleJobs(c, s) == {};
    assert RowsReset(c, s) == map[];
    t, y := SchedulerTurn(c, s, x, Recover, SchedulerDoes(c, s, x.q, Recover));
  }

  lemma Unlocks(c: Config, s: State, x: Scene, attempts: nat, cap: int) returns (t: State, y: Scene)
    requires At(c, s, x) && x.q == Recovering(map[0 := Reclaimed(attempts, cap)]) && x.locks.Keys == {0}
    ensures At(c, t, y) && t.foreignFetch == s.foreignFetch
    ensures y == x.(q := if attempts >= cap then Burying(0, attempts, map[]) else AtRequeue, locks := map[])
  {
    hide Reachable;
    assert map[0 as JobId := Reclaimed(attempts, cap)] - {0} == map[];
    assert x.locks - {0} == map[];
    t, y := SchedulerTurn(c, s, x, Unlock(0), SchedulerDoes(c, s, x.q, Unlock(0)));
  }

  lemma RequeuesNothing(c: Config, s: State, x: Scene) returns (t: State, y: Scene)
    requires At(c, s, x) && x.q == AtRequeue && x.e.row.status != Queued
    ensures At(c, t, y) && t.foreignFetch == s.foreignFetch
    ensures y == x.(q := AtPromote)
  {
    hide Reachable;
    assert StrandedJobs(c, s) == {};
    t, y := SchedulerTurn(c, s, x, Requeue({}), SchedulerDoes(c, s, x.q, Requeue({})));
  }

  lemma Buries(c: Config, s: State, x: Scene) returns (t: State, y: Scene)
    requires At(c, s, x) && x.q.Burying? && x.q.job == 0 && x.e.row.workerId.None?
    ensures At(c, t, y) && t.foreignFetch == s.foreignFetch
    ensures var write := BuryReclaimed(0, x.e.row.recipient, x.q.attempts);
            y == x.(q := Unlocking(0, x.q.rows), e := EntryAfter(x.now, write, 0, x.e), dlq := DlqAfter(write, x.dlq))
  {
    hide Reachable;
    t, y := SchedulerTurn(c, s, x, Bury, SchedulerDoes(c, s, x.q, Bury));
  }

  lemma Fetches(c: Config, s: State, x: Scene, w: WorkerId) returns (t: State, y: Scene)
    requires At(c, s, x) && w in x.ws && x.ws[w].Holding? && x.ws[w].job == 0
    ensures At(c, t, y) && (s.foreignFetch || x.e.row.workerId != Some(w) ==> t.foreignFetch)
    ensures y == x.(ws := x.ws[w := Fetched(0, x.ws[w].epoch, x.now, x.e.row)])
  {
    hide Reachable;
    t, y := WorkerTurn(c, s, x, w, Fetch, WorkerDoes(c, s, w, x.ws[w], Fetch));
  }

  /** In a fresh hour the budget is whole. */
  lemma Checks(c: Config, s: State, x: Scene, w: WorkerId) returns (t: State, y: Scene)
    requires IsOrdinary(c) && At(c, s, x) && w in x.ws && x.ws[w].Fetched? && x.ws[w].job == 0 && x.ws[w].since <= x.now
    ensures At(c, t, y) && (s.foreignFetch ==> t.foreignFetch)
    ensures var p := x.ws[w];
            y == x.(now := x.now + HOUR, ws := x.ws[w := Allowed(0, p.epoch, x.now + HOUR, p.view)])
  {
    hide Reachable, EntriesSound;
    ReachableIsSound(c, s);
    FreshHours(s, x.ws[w].view.recipient);
    t, y := Waits(c, s, x, HOUR);
    t, y := WorkerTurn(c, t, y, w, Check(y.now), WorkerDoes(c, t, w, y.ws[w], Check(y.now)));
  }

  lemma Succeeds(c: Config, s: State, x: Scene, w: WorkerId) returns (t: State, y: Scene)
    requires IsOrdinary(c) && At(c, s, x) && w in x.ws && x.ws[w].Allowed? && x.ws[w].job == 0
    requires OwnedBy(x.e.row, x.ws[w].view.workerId)
    ensures At(c, t, y) && (s.foreignFetch ==> t.foreignFetch)
    ensures y == x.(ws := x.ws[w := Releasing(0, x.ws[w].epoch, Some(SentEvent))],
                    e := EntryAfter(x.now, SendRow(0), 0, x.e))
  {
    hide Reachable;
    t, y := WorkerTurn(c, s, x, w, Succeed, WorkerDoes(c, s, w, x.ws[w], Succeed));
  }

  /** At the cap the fence compares the id in the fetched row, NULL included, with
      the one in the row, whatever its status. */
  lemma Fails(c: Config, s: State, x: Scene, w: WorkerId) returns (t: State, y: Scene)
    requires IsOrdinary(c) && At(c, s, x) && w in x.ws && x.ws[w].Allowed? && x.ws[w].job == 0 && x.ws[w].since == x.now
    requires x.ws[w].view.attempts + 1 >= x.ws[w].view.maxAttempts && x.ws[w].view.workerId == x.e.row.workerId
    ensures At(c, t, y) && (s.foreignFetch ==> t.foreignFetch)
    ensures var p := x.ws[w];
            var write := BuryFailed(0, p.view.recipient, p.view.attempts + 1, x.now);
            y == x.(ws := x.ws[w := Releasing(0, p.epoch, Some(DeadLetteredEvent))],
                    e := EntryAfter(x.now, write, 0, x.e), dlq := DlqAfter(write, x.dlq))
    ensures Enabled(c, s, Work(w, Fail(s.now))) && t == Apply(c, s, Work(w, Fail(s.now)))
  {
    hide Reachable;
    t, y := WorkerTurn(c, s, x, w, Fail(x.now), WorkerDoes(c, s, w, x.ws[w], Fail(x.now)));
  }

  lemma Releases(c: Config, s: State, x: Scene, w: WorkerId) returns (t: State, y: Scene)
    requires At(c, s, x) && w in x.ws && x.ws[w].Releasing? && x.ws[w].job == 0 && x.ws[w].news == Some(SentEvent)
    requires x.locks.Keys <= {0}
    ensures At(c, t, y) && (s.foreignFetch ==> t.foreignFetch)
    ensures y == x.(ws := x.ws[w := Announcing(0, x.ws[w].epoch, SentEvent)], locks := map[])
  {
    hide Reachable;
    assert x.locks - {0} == map[];
    t, y := WorkerTurn(c, s, x, w, Release, WorkerDoes(c, s, w, x.ws[w], Release));
  }

  lemma Announces(c: Config, s: State, x: Scene, w: WorkerId) returns (t: State, y: Scene)
    requires At(c, s, x) && w in x.ws && x.ws[w].Announcing? && x.ws[w].job == 0 && x.ws[w].event == SentEvent
    ensures At(c, t, y) && (s.foreignFetch ==> t.foreignFetch)
    ensures y == x.(ws := x.ws[w := Finishing(0, x.ws[w].epoch)], events := x.events + [Event(0, SentEvent)])
  {
    hide Reachable;
    t, y := WorkerTurn(c, s, x, w, Announce, WorkerDoes(c, s, w, x.ws[w], Announce));
  }

  lemma Finishes(c: Config, s: State, x: Scene, w: WorkerId) returns (t: State, y: Scene)
    requires At(c, s, x) && w in x.ws && x.ws[w].Finishing? && x.ws[w].job == 0
    ensures At(c, t, y) && (s.foreignFetch ==> t.foreignFetch)
    ensures y == x.(ws := x.ws[w := Scanning(High)])
  {
    hide Reachable;
    t, y := WorkerTurn(c, s, x, w, Finish, WorkerDoes(c, s, w, x.ws[w], Finish));
  }

  lemma Replays(c: Config, s: State, x: Scene) returns (t: State, y: Scene)
    requires At(c, s, x) && x.e.row.status == DeadLettered
    ensures At(c, t, y) && t.foreignFetch == s.foreignFetch
    ensures y == x.(e := EntryAfter(x.now, ReplayRow(0), 0, x.e))
  {
    hide Reachable, Apply, EntryAfter, JobsAfter;
    ApiSteps(c, s, Replay(0));
    OneStepFurther(c, s, Api(Replay(0)));
    TheOneRow(s.now, ReplayRow(0), x.e);
    t := Apply(c, s, Api(Replay(0)));
    y := x.(e := EntryAfter(x.now, ReplayRow(0), 0, x.e));
  }

  // ---------------------------------------------------------------- stretches

  /** From pending and due to claimed by `w`. */
  lemma Reaches(c: Config, s: State, x: Scene, w: WorkerId) returns (t: State, y: Scene)
    requires IsOrdinary(c) && At(c, s, x) && x.q == AtPromote && Due(c, x.now, x.e.row) && x.e.row.priority == High
    requires x.queue == map[] && x.locks == map[] && w in x.ws && x.ws[w] == Scanning(High)
    ensures At(c, t, y) && (s.foreignFetch ==> t.foreignFetch)
    ensures y == x.(ws := x.ws[w := Holding(0, x.e.h.claims + 1, x.now)], q := AtRecover, locks := y.locks,
                    e := EntryAfter(x.now, ClaimRow(0, w), 0, EntryAfter(x.now, PromoteRows({0}), 0, x.e)))
    ensures y.locks.Keys == {0}
  {
    hide At;
    t, y := Promotes(c, s, x);
    t, y := Enqueues(c, t, y, x.e.row.sendAt);
    t, y := Pops(c, t, y, w);
    t, y := Locks(c, t, y, w);
    t, y := Claims(c, t, y, w);
  }

  /** The first worker claims the job and stalls. */
  lemma ReachesTheClaim(c: Config) returns (t: State, y: Scene)
    requires IsOrdinary(c)
    ensures At(c, t, y) && y.now == 0 && y.dlq == [] && y.q == AtRecover && y.queue == map[] && y.locks.Keys == {0}
    ensures y.ws == map[0 := Holding(0, 1, 0), 1 := Scanning(High)] && y.events == []
    ensures y.e.row == ClaimQueuedJob(0, 0, PromoteDueJob(0, Submitted(c).row))
    ensures y.e.h == FRESH.(promotions := 1, claims := 1, changes := 2)
  {
    hide At;
    var s0 := Starts(c);
    t, y := Submits(c, s0);
    t, y := Reaches(c, t, y, 0);
  }

  /** Recovery ends its claim. */
  lemma ReachesTheReset(c: Config) returns (t: State, y: Scene)
    requires IsOrdinary(c)
    ensures At(c, t, y) && y.now == c.heartbeatTimeout + 1 && y.dlq == [] && y.queue == map[] && y.locks == map[]
    ensures y.ws == map[0 := Holding(0, 1, 0), 1 := Scanning(High)] && y.events == []
    ensures y.q == if 1 >= c.maxAttempts then Burying(0, 1, map[]) else AtRequeue
    ensures y.e.row == RecoverStaleClaimed(y.now, ClaimQueuedJob(0, 0, PromoteDueJob(0, Submitted(c).row)))
    ensures y.e.h == FRESH.(promotions := 1, claims := 1, reclaims := 1, changes := 3)
  {
    hide At;
    t, y := ReachesTheClaim(c);
    t, y := Waits(c, t, y, c.heartbeatTimeout + 1);
    t, y := Recovers(c, t, y);
    t, y := Unlocks(c, t, y, 1, c.maxAttempts);
  }

  // ------------------------------------------------ one worker, one attempt

  lemma TwoRows(a: DeadLetter, b: DeadLetter)
    requires a.job == 0 && b.job == 0
    ensures DlqRows([a] + [b], 0) == 2
    ensures [] + [a] == [a]
  {
    DlqRowsAfter([], a, 0);
    assert [] + [a] == [a];
    DlqRowsAfter([a], b, 0);
  }

  lemma ReachesTheZombie(c: Config) returns (t: State, y: Scene)
    requires IsOrdinary(c) && c.maxAttempts == 1
    ensures At(c, t, y) && t.foreignFetch && y.dlq == [] && y.q == Burying(0, 1, map[])
    ensures y.e.row.status == Pending && y.e.row.workerId.None? && y.e.row.attempts == 1 && y.e.row.maxAttempts == 1
    ensures y.e.h == FRESH.(promotions := 1, claims := 1, reclaims := 1, changes := 3)
    ensures y.ws == map[0 := Allowed(0, 1, y.now, y.e.row), 1 := Scanning(High)]
  {
    hide At;
    t, y := ReachesTheReset(c);
    t, y := Fetches(c, t, y, 0);
    t, y := Checks(c, t, y, 0);
  }

  /** Under a cap of one attempt, a worker stalls before its fetch until recovery
      has ended its claim. Then `s`, `t`, `u`: its delivery fails and it writes
      the row all the same (`s` to `t`), so a job never interrupted has spent two
      attempts; recovery, for its part, buries the job again (`u`), so a job never
      replayed has two rows in the dead-letter queue. */
  lemma LateFetchesBreakTheBooks(c: Config) returns (s: State, t: State, u: State)
    requires IsOrdinary(c) && c.maxAttempts == 1
    ensures Reachable(c, s) && s.foreignFetch && OneScheduler(s)
    ensures 0 in s.workers && s.workers[0].InHand() && s.workers[0].job == 0 && 0 in s.jobs
    ensures !IsLive(s.jobs[0], s.workers[0].epoch)
    ensures Enabled(c, s, Work(0, Fail(s.now))) && t == Apply(c, s, Work(0, Fail(s.now)))
    ensures Reachable(c, t) && OneScheduler(t) && 0 in t.jobs && t.jobs[0].row != s.jobs[0].row
    ensures t.jobs[0].row.status == DeadLettered && t.jobs[0].row.attempts > t.jobs[0].row.maxAttempts
    ensures t.jobs[0].h.interruptions == 0
    ensures Reachable(c, u) && OneScheduler(u) && 0 in u.jobs && DlqRows(u.dlq, 0) == 2 && u.jobs[0].h.replays == 0
  {
    hide Reachable, Enabled, Apply, DlqRows;
    var x, y, z;
    s, x := ReachesTheZombie(c);
    t, y := Fails(c, s, x, 0);
    u, z := Buries(c, t, y);
    TwoRows(DeadLetter(0, x.ws[0].view.recipient, 2, DeliveryFailed), DeadLetter(0, y.e.row.recipient, 1, WorkerDied));
  }

  // --------------------------------------------- two workers, two attempts

  /** While the first worker still stalls, the second claims the job. */
  lemma ReachesTheSecondClaim(c: Config) returns (t: State, y: Scene)
    requires IsOrdinary(c) && c.maxAttempts == 2
    ensures At(c, t, y) && y.queue == map[] && y.locks.Keys == {0} && y.events == [] && y.q == AtRecover
    ensures y.ws == map[0 := Holding(0, 1, 0), 1 := Holding(0, 2, y.now)] && y.now >= 0
    ensures y.e.row.status == Claimed && y.e.row.workerId == Some(1) && y.e.row.attempts == 1
    ensures y.e.row.maxAttempts == 2
    ensures y.e.row.priority == High && y.e.h.claims == 2 && y.e.h.sends == 0 && y.e.h.replays == 0
  {
    hide At;
    t, y := ReachesTheReset(c);
    t, y := RequeuesNothing(c, t, y);
    t, y := Reaches(c, t, y, 1);
  }

  /** Both fetch the row, which names the second; the second sends the job; the
      first, too, has checked its budget and may go on. */
  lemma ReachesTheSent(c: Config) returns (t: State, y: Scene)
    requires IsOrdinary(c) && c.maxAttempts == 2
    ensures At(c, t, y) && t.foreignFetch && y.queue == map[] && y.locks.Keys == {0} && y.events == []
    ensures y.q == AtRecover
    ensures y.ws.Keys == {0, 1} && y.ws[1] == Releasing(0, 2, Some(SentEvent))
    ensures y.ws[0].Allowed? && y.ws[0].job == 0 && y.ws[0].since == y.now
    ensures y.ws[0].view.workerId == Some(1) && y.ws[0].view.attempts == 1 && y.ws[0].view.maxAttempts == 2
    ensures y.e.row.status == Sent && y.e.row.workerId == Some(1) && y.e.row.priority == High && y.e.h.sends == 1
    ensures y.e.h.replays == 0
    ensures y.now >= 0
  {
    hide At;
    t, y := ReachesTheSecondClaim(c);
    t, y := Fetches(c, t, y, 0);
    t, y := Fetches(c, t, y, 1);
    t, y := Checks(c, t, y, 1);
    t, y := Succeeds(c, t, y, 1);
    t, y := Checks(c, t, y, 0);
  }

  /** The second worker tells, and goes back to its queues. */
  lemma Tells(c: Config, s: State, x: Scene) returns (t: State, y: Scene)
    requires At(c, s, x) && 1 in x.ws && x.ws[1].Releasing? && x.ws[1].job == 0 && x.ws[1].news == Some(SentEvent)
    requires x.locks.Keys <= {0}
    ensures At(c, t, y)
    ensures y == x.(ws := x.ws[1 := Scanning(High)], locks := map[], events := x.events + [Event(0, SentEvent)])
  {
    hide At;
    t, y := Releases(c, s, x, 1);
    t, y := Announces(c, t, y, 1);
    t, y := Finishes(c, t, y, 1);
  }

  /** A dead-lettered job, replayed, is sent by the second worker. */
  lemma SendsAgain(c: Config, s: State, x: Scene) returns (t: State, y: Scene)
    requires IsOrdinary(c) && At(c, s, x) && x.e.row.status == DeadLettered && x.e.row.priority == High
    requires x.q == AtRecover
    requires x.queue == map[] && x.locks == map[] && 1 in x.ws && x.ws[1] == Scanning(High)
    ensures At(c, t, y) && y.e.h.sends == x.e.h.sends + 1 && y.e.h.replays == x.e.h.replays + 1 && y.events == x.events
    ensures 1 in y.ws && y.ws[1].Releasing? && y.ws[1].job == 0 && y.ws[1].news == Some(SentEvent)
    ensures y.locks.Keys == {0}
  {
    hide At;
    t, y := Replays(c, s, x);
    t, y := RecoversNothing(c, t, y);
    t, y := RequeuesNothing(c, t, y);
    t, y := Reaches(c, t, y, 1);
    t, y := Fetches(c, t, y, 1);
    t, y := Checks(c, t, y, 1);
    t, y := Succeeds(c, t, y, 1);
  }

  lemma TwoNotices(e: Event)
    ensures Notices([] + [e] + [e], e) == 2
  {
    NoticesAfter([], e, e);
    NoticesAfter([] + [e], e, e);
  }

  /** Under a cap of two attempts, a worker stalls before its fetch while another
      reclaims the job and sends it. Then `s`, `t`, `u`: its own delivery fails,
      and the sent row becomes dead-lettered (`s` to `t`); replayed, the job is
      marked sent a second time, and announced a second time (`u`). */
  lemma LateFetchesUndoTheSent(c: Config) returns (s: State, t: State, u: State)
    requires IsOrdinary(c) && c.maxAttempts == 2
    ensures Reachable(c, s) && 0 in s.jobs && s.jobs[0].row.status == Sent && s.jobs[0].h.sends == 1
    ensures Enabled(c, s, Work(0, Fail(s.now))) && UndoesTheSent(c, s, Work(0, Fail(s.now)), 0)
    ensures t == Apply(c, s, Work(0, Fail(s.now))) && Reachable(c, t) && 0 in t.jobs
    ensures t.jobs[0].row.status == DeadLettered
    ensures Reachable(c, u) && 0 in u.jobs && u.jobs[0].h.replays == 1 && u.jobs[0].h.sends == 2
    ensures Notices(u.events, Event(0, SentEvent)) == 2
  {
    hide Reachable, Enabled, Apply, Notices;
    var x, y, z;
    s, x := ReachesTheSent(c);
    t, y := Fails(c, s, x, 0);
    u, z := Tells(c, t, y);
    u, z := SendsAgain(c, u, z);
    u, z := Tells(c, u, z);
    TwoNotices(Event(0, SentEvent));
  }
}
