/** The running system: the two stores, the clock, and the memory of every
    process, all mutable. A process acts through the stores' methods and then
    commits the step it took; between its steps anybody else may act. */
module Cluster {
  import opened Types
  import opened Protocol
  import opened Steps
  import opened Columns
  import opened Fencing
  import opened Delivery
  import opened Requests
  import opened Store

  datatype Actor =
    | TheWorker(w: WorkerId)
    | TheHeartbeat(w: WorkerId)
    | TheScheduler(d: SchedulerId)
    | TheRequest(r: RequestId)

  /** What a call returns: `await` may raise. */
  datatype Outcome<+T> = Ok(value: T) | Raised {
    predicate IsFailure() { Raised? }

    function PropagateFailure<U>(): Outcome<U>
      requires Raised?
    {
      Raised
    }

    function Extract(): T
      requires Ok?
    {
      value
    }
  }

  /** The steps only `me` can take. A worker's heartbeat is a task of its own,
      which the worker waits for before it finishes a job. */
  predicate IsMine(me: Actor, s: State, a: Action) {
    match me
    case TheWorker(w) => (a.Work? && a.w == w && !a.op.Beat?) || a == StartWorker(w)
    case TheHeartbeat(w) =>
      a.Work? && a.w == w && (a.op.Beat? || a.op.Crash? || (w in s.workers && s.workers[w].Finishing?))
    case TheScheduler(d) => (a.Schedule? && a.d == d) || a == StartScheduler(d)
    case TheRequest(r) => a.Api? && (a.aop.Lookup? || a.aop.Submit?) && a.aop.request == r
  }

  /** What `me` relies on is still there. */
  predicate Undisturbed(me: Actor, s: State, t: State) {
    match me
    case TheWorker(w) => if w in s.workers then w in t.workers && t.workers[w] == s.workers[w] else w !in t.workers
    case TheHeartbeat(w) =>
      w in s.workers && s.workers[w].InHand() ==> w in t.workers && SameClaim(s.workers[w], t.workers[w])
    case TheScheduler(d) =>
      if d in s.schedulers then d in t.schedulers && t.schedulers[d] == s.schedulers[d] else d !in t.schedulers
    case TheRequest(r) => if r in s.replies then r in t.replies && t.replies[r] == s.replies[r] else r !in t.replies
  }

  predicate SameClaim(p: Worker, q: Worker)
    requires p.InHand()
  {
    q.InHand() && q.job == p.job && q.epoch == p.epoch
  }

  lemma OthersDoNotDisturb(c: Config, me: Actor, s: State, a: Action)
    requires Enabled(c, s, a) && !IsMine(me, s, a)
    ensures Undisturbed(me, s, Apply(c, s, a))
  {
    hide JobsAfter, DlqAfter, KeysAfter, QueueAfter, LocksAfter, CountersAfter, SchedulerDoes;
    if a.Work? && a.op.Beat? {
      assert WorkerDoes(c, s, a.w, s.workers[a.w], Beat).next == s.workers[a.w];
    }
  }

  /** Promotions, claims, replays and, between replays, failures are only ever
      added, and a claim that is over stays over. */
  predicate HistoryGoesOn(e: Entry, f: Entry) {
    && e.h.claims <= f.h.claims && e.h.promotions <= f.h.promotions && e.h.replays <= f.h.replays
    && (e.h.replays == f.h.replays ==> e.h.failures <= f.h.failures)
    && (e.h.claims == f.h.claims && e.row.status != Claimed ==> f.row.status != Claimed)
  }

  /** What no step undoes: time, jobs, keys, events, dead letters, history and, as
      long as every fetched row names its own worker, sent rows. */
  predicate Evolves(s: State, t: State) {
    && s.now <= t.now
    && s.jobs.Keys <= t.jobs.Keys
    && s.events <= t.events && s.dlq <= t.dlq
    && (forall j | j in s.jobs :: HistoryGoesOn(s.jobs[j], t.jobs[j]))
    && (forall key | key in s.keys :: key in t.keys && t.keys[key] == s.keys[key])
    && (!t.foreignFetch ==> !s.foreignFetch)
    && (!t.foreignFetch ==> forall j | j in s.jobs && s.jobs[j].row.status == Sent :: t.jobs[j].row == s.jobs[j].row)
  }

  /** Step `n` of the run was `a`, and what it did to PostgreSQL was `write`. */
  ghost predicate TookStep(c: Config, start: int, trace: seq<Action>, n: nat, a: Action, write: Write) {
    && n < |trace| && trace[n] == a && Valid(c, Initial(start), trace[..n])
    && Enabled(c, After(c, Initial(start), trace[..n]), a)
    && WriteOf(c, After(c, Initial(start), trace[..n]), a) == write
  }

  lemma StepsAreTaken(c: Config, start: int, trace: seq<Action>, s: State, a: Action)
    requires Leads(c, Initial(start), trace, s) && Enabled(c, s, a)
    ensures TookStep(c, start, trace + [a], |trace|, a, WriteOf(c, s, a))
    ensures MovedStep(c, start, trace + [a], |trace|, a, s, Apply(c, s, a))
  {
    hide Protocol.Valid, After, Enabled, WriteOf, Apply;
    assert (trace + [a])[..|trace|] == trace;
  }

  /** Among the steps from number `from` on. */
  ghost predicate DidStep(c: Config, start: int, trace: seq<Action>, from: nat, a: Action, write: Write) {
    exists n :: from <= n && TookStep(c, start, trace, n, a, write)
  }

  /** Among the steps from number `from` on, `a` took the system from `s` to `t`. */
  ghost predicate MovedStep(c: Config, start: int, trace: seq<Action>, from: nat, a: Action, s: State, t: State) {
    exists n :: from <= n < |trace| && trace[n] == a && Leads(c, Initial(start), trace[..n], s)
                && Enabled(c, s, a) && t == Apply(c, s, a)
  }

  lemma StepTaken(c: Config, start: int, trace: seq<Action>, from: nat, a: Action, write: Write)
    returns (s: State, t: State)
    requires DidStep(c, start, trace, from, a, write)
    ensures MovedStep(c, start, trace, from, a, s, t) && Enabled(c, s, a)
    ensures t == Apply(c, s, a) && WriteOf(c, s, a) == write && Reachable(c, s)
  {
    hide Protocol.Valid, After, Enabled, WriteOf, Apply;
    var n :| from <= n && TookStep(c, start, trace, n, a, write);
    s := After(c, Initial(start), trace[..n]);
    t := Apply(c, s, a);
    assert Leads(c, Initial(start), trace[..n], s);
  }

  lemma WhatIsDoneWasTaken(c: Config, start: int, trace: seq<Action>, from: nat, a: Action, write: Write)
    requires DidStep(c, start, trace, from, a, write)
    ensures exists n :: from <= n < |trace| && trace[n] == a
  {
    hide Protocol.Valid, After, Enabled, WriteOf;
    var n :| from <= n && TookStep(c, start, trace, n, a, write);
    assert trace[n] == a;
  }

  lemma MovesStay(
      c: Config, start: int, trace: seq<Action>, more: seq<Action>, from: nat, later: nat, a: Action, s: State,
      t: State)
    requires MovedStep(c, start, trace, later, a, s, t) && from <= later && trace <= more
    ensures MovedStep(c, start, more, from, a, s, t)
  {
    hide Leads, Enabled, Apply;
    var n :| later <= n < |trace| && trace[n] == a && Leads(c, Initial(start), trace[..n], s);
    assert more[..n] == trace[..n];
  }

  lemma DoneSince(c: Config, start: int, trace: seq<Action>, from: nat, later: nat, a: Action, write: Write)
    requires DidStep(c, start, trace, later, a, write) && from <= later
    ensures DidStep(c, start, trace, from, a, write)
  {
  }

  lemma WhatIsDoneIsDone(
      c: Config, start: int, trace: seq<Action>, more: seq<Action>, from: nat, a: Action, write: Write)
    requires DidStep(c, start, trace, from, a, write) && trace <= more
    ensures DidStep(c, start, more, from, a, write)
  {
    hide Protocol.Valid, After, Enabled, WriteOf;
    var n :| from <= n && TookStep(c, start, trace, n, a, write);
    assert more[..n] == trace[..n];
    assert TookStep(c, start, more, n, a, write);
  }

  /** The steps scheduler `d` has taken, in order. */
  function OpsOf(trace: seq<Action>, d: SchedulerId): seq<SchedulerOp> {
    if trace == [] then []
    else
      var last := trace[|trace| - 1];
      var before := OpsOf(trace[..|trace| - 1], d);
      if last.Schedule? && last.d == d then before + [last.sop] else before
  }

  lemma OpsGrow(trace: seq<Action>, a: Action, d: SchedulerId)
    ensures OpsOf(trace + [a], d) == if a.Schedule? && a.d == d then OpsOf(trace, d) + [a.sop] else OpsOf(trace, d)
  {
    assert (trace + [a])[..|trace|] == trace;
  }

  /** How often worker `w` has popped, or asked an empty queue. */
  function PopsOf(trace: seq<Action>, w: WorkerId): nat {
    if trace == [] then 0
    else
      var last := trace[|trace| - 1];
      PopsOf(trace[..|trace| - 1], w) + One(last.Work? && last.w == w && last.op.Pop?)
  }

  lemma PopsGrow(trace: seq<Action>, a: Action, w: WorkerId)
    ensures PopsOf(trace + [a], w) == PopsOf(trace, w) + One(a.Work? && a.w == w && a.op.Pop?)
  {
    assert (trace + [a])[..|trace|] == trace;
  }

  lemma {:induction false} PopsOnlyGrow(trace: seq<Action>, more: seq<Action>, w: WorkerId)
    requires trace <= more
    ensures PopsOf(trace, w) <= PopsOf(more, w)
    decreases |more|
  {
    if |trace| < |more| {
      PopsOnlyGrow(trace, more[..|more| - 1], w);
    } else {
      assert trace == more;
    }
  }

  /** How often `a` was taken. */
  function Times(trace: seq<Action>, a: Action): nat {
    multiset(trace)[a]
  }

  lemma TimesOnlyGrow(trace: seq<Action>, more: seq<Action>, a: Action)
    requires trace <= more
    ensures Times(more, a) == Times(trace, a) + Times(more[|trace|..], a)
  {
    assert more == trace + more[|trace|..];
  }

  lemma EvolvesOn(s: State, t: State, u: State)
    requires Evolves(s, t) && Evolves(t, u)
    ensures Evolves(s, u)
  {
  }

  lemma EventsOnlyGrow(c: Config, s: State, a: Action)
    requires Enabled(c, s, a)
    ensures s.events <= Apply(c, s, a).events && s.dlq <= Apply(c, s, a).dlq
  {
  }

  lemma HistoryOnlyGoesOn(c: Config, s: State, a: Action, j: JobId)
    requires EntriesSound(s) && Enabled(c, s, a) && j in s.jobs
    ensures HistoryGoesOn(s.jobs[j], EntryAfter(s.now, WriteOf(c, s, a), j, s.jobs[j]))
  {
    WritesAreJustified(c, s, a);
  }

  lemma EveryStepEvolves(c: Config, s: State, a: Action)
    requires Reachable(c, s) && Enabled(c, s, a)
    ensures Evolves(s, Apply(c, s, a))
  {
    var t := Apply(c, s, a);
    ReachableIsSound(c, s);
    JobsOnlyGrow(c, s, a);
    EventsOnlyGrow(c, s, a);
    forall j | j in s.jobs ensures HistoryGoesOn(s.jobs[j], t.jobs[j]) {
      HistoryOnlyGoesOn(c, s, a, j);
      AppliedEntry(c, s, a, j);
    }
    forall key | key in s.keys ensures key in t.keys && t.keys[key] == s.keys[key] {
      KeysStay(c, s, a, key);
    }
    if !t.foreignFetch {
      FencedIsReached(c, s);
      forall j | j in s.jobs && s.jobs[j].row.status == Sent ensures t.jobs[j].row == s.jobs[j].row {
        SentRowsStay(c, s, a, j);
        AppliedEntry(c, s, a, j);
      }
    }
  }

  lemma {:induction false} RunsEvolve(c: Config, s: State, acts: seq<Action>, t: State)
    requires Reachable(c, s) && Leads(c, s, acts, t)
    ensures Evolves(s, t) && Reachable(c, t)
    decreases |acts|
  {
    hide Enabled, Apply, Evolves;
    if acts == [] {
      ItselfEvolves(s);
    } else {
      var u := Apply(c, s, acts[0]);
      EveryStepEvolves(c, s, acts[0]);
      OneStepFurther(c, s, acts[0]);
      RunsEvolve(c, u, acts[1..], t);
      EvolvesOn(s, u, t);
    }
  }

  lemma ItselfEvolves(s: State)
    ensures Evolves(s, s)
  {
  }

  /** A run that begins like another goes on from where that one led. */
  lemma {:induction false} RunsGoOn(c: Config, s: State, earlier: seq<Action>, t: State, acts: seq<Action>, u: State)
    requires Leads(c, s, earlier, t) && Leads(c, s, acts, u) && earlier <= acts
    ensures Leads(c, t, acts[|earlier|..], u)
    decreases |earlier|
  {
    hide Enabled, Apply;
    if earlier == [] {
      assert acts[0..] == acts;
    } else {
      assert earlier[0] == acts[0] && earlier[1..] <= acts[1..];
      assert acts[1..][|earlier[1..]|..] == acts[|earlier|..];
      RunsGoOn(c, Apply(c, s, acts[0]), earlier[1..], t, acts[1..], u);
    }
  }

  /** How many claims of its own `w` has committed along the run. */
  function ClaimsBy(c: Config, s: State, acts: seq<Action>, w: WorkerId): nat
    requires Valid(c, s, acts)
    decreases |acts|
  {
    if acts == [] then 0
    else
      One(acts[0] == Work(w, Claim) && WriteOf(c, s, acts[0]).ClaimRow?)
      + ClaimsBy(c, Apply(c, s, acts[0]), acts[1..], w)
  }

  lemma {:induction false} ClaimsAddUp(c: Config, s: State, first: seq<Action>, t: State, a: Action, w: WorkerId)
    requires Leads(c, s, first, t) && Enabled(c, t, a)
    ensures Leads(c, s, first + [a], Apply(c, t, a))
    ensures ClaimsBy(c, s, first + [a], w)
            == ClaimsBy(c, s, first, w) + One(a == Work(w, Claim) && WriteOf(c, t, a).ClaimRow?)
    decreases |first|
  {
    hide Enabled, Apply, WriteOf;
    var all := first + [a];
    if first == [] {
      assert all == [a];
      OneStep(c, s, a);
      assert ClaimsBy(c, Apply(c, s, a), [a][1..], w) == 0;
    } else {
      assert all[0] == first[0] && all[1..] == first[1..] + [a];
      ClaimsAddUp(c, Apply(c, s, first[0]), first[1..], t, a, w);
    }
  }

  class Cluster {
    const c: Config
    const db: Database
    const redis: Redis
    var now: int
    var workers: map<WorkerId, Worker>
    var schedulers: map<SchedulerId, Scheduler>
    var replies: map<RequestId, Reply>
    var events: seq<Event>
    var foreignFetch: bool
    var lateFetch: bool
    var expiredKey: bool
    var tampered: bool
    ghost var start: int
    ghost var trace: seq<Action>

    function Snapshot(): State
      reads this, db, redis
    {
      State(now, db.jobs, db.dlq, db.keys, redis.queue, redis.locks, redis.counters,
            workers, schedulers, replies, events, foreignFetch, lateFetch, expiredKey, tampered)
    }

    /** The steps committed so far are a run of the protocol that led to `s`. */
    ghost predicate RanTo(s: State)
      reads this
    {
      c.fence == ByWorkerId && Leads(c, Initial(start), trace, s)
    }

    ghost predicate Valid()
      reads this, db, redis
    {
      RanTo(Snapshot())
    }

    /** The claims `w` has committed so far. */
    ghost function Claims(w: WorkerId): nat
      reads this
    {
      if Protocol.Valid(c, Initial(start), trace) then ClaimsBy(c, Initial(start), trace, w) else 0
    }

    /** Since step number `from`, step `a` was taken, and wrote `write`. */
    ghost predicate Did(from: nat, a: Action, write: Write)
      reads this
    {
      DidStep(c, start, trace, from, a, write)
    }

    /** Since step number `from`, step `a` took the system from `s` to `t`. */
    ghost predicate Moved(from: nat, a: Action, s: State, t: State)
      reads this
    {
      MovedStep(c, start, trace, from, a, s, t)
    }

    /** Since step number `from`, step `a` was taken. */
    ghost predicate Took(from: nat, a: Action)
      reads this
    {
      exists n :: from <= n < |trace| && trace[n] == a
    }

    /** What scheduler `d` has done so far. */
    ghost function Log(d: SchedulerId): seq<SchedulerOp>
      reads this
    {
      OpsOf(trace, d)
    }

    /** Since event number `from`, `e` was announced. */
    predicate Told(from: nat, e: Event)
      reads this
    {
      exists i :: from <= i < |events| && events[i] == e
    }

    /** The run went on from where it was. */
    twostate predicate Continues()
      reads this, db, redis
    {
      start == old(start) && old(trace) <= trace && old(now) <= now && |old(events)| <= |events|
    }

    /** What happened in between is a run from there to here. */
    twostate lemma WentOn()
      requires old(Valid()) && Valid() && old(trace) <= trace && start == old(start)
      ensures Reachable(c, old(Snapshot()))
      ensures Leads(c, old(Snapshot()), trace[|old(trace)|..], Snapshot())
      ensures Evolves(old(Snapshot()), Snapshot())
    {
      hide Protocol.Valid, After, Enabled, Apply, Evolves;
      RunsGoOn(c, Initial(start), old(trace), old(Snapshot()), trace, Snapshot());
      RunsEvolve(c, old(Snapshot()), trace[|old(trace)|..], Snapshot());
    }

    lemma IsReachable()
      requires Valid()
      ensures Reachable(c, Snapshot()) && Sound(Snapshot()) && c.fence == ByWorkerId
    {
      hide Protocol.Valid, After, Sound;
      ReachableIsSound(c, Snapshot());
    }

    lemma HoldsAJob(w: WorkerId)
      requires Valid() && w in workers && workers[w].InHand()
      ensures workers[w].job in db.jobs && c.fence == ByWorkerId
      ensures workers[w].Undecided() ==> workers[w].since <= now
    {
      hide Protocol.Valid, After, EntriesSound;
      IsReachable();
    }

    constructor (c: Config, now: int)
      requires c.fence == ByWorkerId
      ensures Valid() && Snapshot() == Initial(now) && this.c == c && fresh(db) && fresh(redis)
    {
      this.c, this.now, start := c, now, now;
      db := new Database();
      redis := new Redis();
      workers, schedulers, replies, events := map[], map[], map[], [];
      foreignFetch, lateFetch, expiredKey, tampered := false, false, false, false;
      trace := [];
    }

    ghost predicate StoresMatch(s: State)
      reads this, db, redis
    {
      && db.jobs == s.jobs && db.dlq == s.dlq && db.keys == s.keys
      && redis.queue == s.queue && redis.locks == s.locks && redis.counters == s.counters
    }

    /** What the stores hold is what this step makes of `before`. */
    ghost predicate StoresTook(before: State, write: Write, command: Command)
      reads this, db, redis
    {
      && db.jobs == JobsAfter(before.now, write, before.jobs)
      && db.dlq == DlqAfter(write, before.dlq) && db.keys == KeysAfter(write, before.keys)
      && redis.queue == QueueAfter(command, before.queue) && redis.locks == LocksAfter(command, before.locks)
      && redis.counters == CountersAfter(before.now, command, before.counters)
    }

    method Remember(after: State)
      requires StoresMatch(after)
      modifies this
      ensures Snapshot() == after
      ensures trace == old(trace) && start == old(start)
    {
      now, workers, schedulers, replies := after.now, after.workers, after.schedulers, after.replies;
      events, foreignFetch, lateFetch := after.events, after.foreignFetch, after.lateFetch;
      expiredKey, tampered := after.expiredKey, after.tampered;
    }

    /** Ends a step whose effect on the stores has just been had: the process
        moves on, and the step joins the trace. */
    method Commit(a: Action, before: State)
      requires RanTo(before) && Enabled(c, before, a) && StoresMatch(Apply(c, before, a))
      modifies this
      ensures Valid() && Snapshot() == Apply(c, before, a)
      ensures start == old(start) && trace == old(trace) + [a] && before.now <= now && |before.events| <= |events|
      ensures Did(|old(trace)|, a, WriteOf(c, before, a)) && Moved(|old(trace)|, a, before, Apply(c, before, a))
      ensures forall w :: Claims(w) == old(Claims(w)) + One(a == Work(w, Claim) && WriteOf(c, before, a).ClaimRow?)
    {
      hide Protocol.Valid, After, ClaimsBy, Enabled, Apply, WriteOf, TookStep, MovedStep;
      forall w
        ensures Leads(c, Initial(start), trace + [a], Apply(c, before, a))
        ensures ClaimsBy(c, Initial(start), trace + [a], w)
                == ClaimsBy(c, Initial(start), trace, w) + One(a == Work(w, Claim) && WriteOf(c, before, a).ClaimRow?)
      {
        ClaimsAddUp(c, Initial(start), trace, before, a, w);
      }
      ClaimsAddUp(c, Initial(start), trace, before, a, 0);
      JobsOnlyGrow(c, before, a);
      EventsOnlyGrow(c, before, a);
      StepsAreTaken(c, start, trace, before, a);
      Remember(Apply(c, before, a));
      trace := trace + [a];
    }

    /** Worker `w` has taken step `op`. */
    method Worked(w: WorkerId, op: WorkerOp, before: State)
      requires RanTo(before) && w in before.workers && CanWork(before, before.workers[w], op)
      requires var step := WorkerDoes(c, before, w, before.workers[w], op);
               StoresTook(before, step.write, step.command)
      modifies this
      ensures Valid() && start == old(start) && trace == old(trace) + [Work(w, op)] && now == before.now
      ensures |before.events| <= |events|
      ensures Snapshot() == Apply(c, before, Work(w, op))
      ensures var step := WorkerDoes(c, before, w, before.workers[w], op);
              && workers == before.workers[w := step.next]
              && SaidAfter(before.events, step.said, events)
              && (!op.Fetch? ==> foreignFetch == before.foreignFetch)
              && Did(|old(trace)|, Work(w, op), step.write)
              && Claims(w) == old(Claims(w)) + One(op.Claim? && step.write.ClaimRow?)
    {
      hide RanTo, Did, Moved, Apply, WorkerDoes, CanWork, WriteOf, Claims;
      hide JobsAfter, DlqAfter, KeysAfter, QueueAfter, LocksAfter, CountersAfter;
      WorkerSteps(c, before, w, op);
      Commit(Work(w, op), before);
    }

    /** Scheduler `d` has taken step `op`. */
    method Scheduled(d: SchedulerId, op: SchedulerOp, before: State)
      requires RanTo(before) && d in before.schedulers && CanSchedule(c, before, before.schedulers[d], op)
      requires var step := SchedulerDoes(c, before, before.schedulers[d], op);
               StoresTook(before, step.write, step.command)
      modifies this
      ensures Valid() && start == old(start) && trace == old(trace) + [Schedule(d, op)] && now == before.now
      ensures |before.events| <= |events|
      ensures var step := SchedulerDoes(c, before, before.schedulers[d], op);
              && schedulers == before.schedulers[d := step.next] && SaidAfter(before.events, step.said, events)
              && Did(|old(trace)|, Schedule(d, op), step.write)
      ensures Log(d) == old(Log(d)) + [op]
    {
      hide RanTo, Did, Moved, Apply, SchedulerDoes, CanSchedule, WriteOf, Claims, OpsOf;
      hide JobsAfter, DlqAfter, KeysAfter, QueueAfter, LocksAfter, CountersAfter;
      SchedulerSteps(c, before, d, op);
      OpsGrow(trace, Schedule(d, op), d);
      Commit(Schedule(d, op), before);
    }

    /** A whole step of somebody else. */
    method LetAct(me: Actor, a: Action)
      requires Valid() && Enabled(c, Snapshot(), a) && !IsMine(me, Snapshot(), a)
      modifies this, db, redis
      ensures Valid() && Continues() && Undisturbed(me, old(Snapshot()), Snapshot())
      ensures me.TheWorker? ==> Claims(me.w) == old(Claims(me.w))
      ensures me.TheScheduler? ==> Log(me.d) == old(Log(me.d))
    {
      hide RanTo, Claims, Enabled, Apply, Undisturbed, OpsOf;
      var before := Snapshot();
      var after := Apply(c, before, a);
      if me.TheScheduler? { OpsGrow(trace, a, me.d); }
      OthersDoNotDisturb(c, me, before, a);
      db.jobs, db.dlq, db.keys := after.jobs, after.dlq, after.keys;
      redis.queue, redis.locks, redis.counters := after.queue, after.locks, after.counters;
      Commit(a, before);
    }

    /** Everybody else takes any number of steps, and time passes. */
    method Interleave(me: Actor)
      requires Valid()
      modifies this, db, redis
      ensures Valid() && Continues() && Undisturbed(me, old(Snapshot()), Snapshot())
      ensures me.TheWorker? ==> Claims(me.w) == old(Claims(me.w))
      ensures me.TheScheduler? ==> Log(me.d) == old(Log(me.d))
    {
      hide RanTo, Claims, Enabled, OpsOf;
      var n: nat := *;
      while n > 0
        invariant Valid() && Continues() && Undisturbed(me, old(Snapshot()), Snapshot())
        invariant me.TheWorker? ==> Claims(me.w) == old(Claims(me.w))
        invariant me.TheScheduler? ==> Log(me.d) == old(Log(me.d))
      {
        var a: Action := *;
        if Enabled(c, Snapshot(), a) && !IsMine(me, Snapshot(), a) {
          LetAct(me, a);
        }
        n := n - 1;
      }
    }

    /** An `await` of worker `w`: others act, and the call may raise. */
    method Await(w: WorkerId) returns (r: Outcome<()>)
      requires Valid() && w in workers && !workers[w].Crashed?
      modifies this, db, redis
      ensures Valid() && Continues() && w in workers && Claims(w) == old(Claims(w))
      ensures workers[w] == if r.Ok? then old(workers[w]) else AfterException(old(workers[w]))
      ensures r.Raised? ==> Took(|old(trace)|, Work(w, Abort))
    {
      hide RanTo, Claims;
      Interleave(TheWorker(w));
      var raises: bool := *;
      if raises {
        Raise(w);
        return Raised;
      }
      return Ok(());
    }

    method Raise(w: WorkerId)
      requires Valid() && w in workers && !workers[w].Crashed?
      modifies this, db, redis
      ensures Valid() && Continues() && w in workers && Claims(w) == old(Claims(w))
      ensures workers[w] == AfterException(old(workers[w]))
      ensures Took(|old(trace)|, Work(w, Abort))
    {
      hide RanTo, Claims, DidStep, Apply, JobsAfter, CountersAfter;
      var before := Snapshot();
      if workers[w].InHand() { HoldsAJob(w); }
      redis.counters := CountersAfter(now, ForgottenUndo(w, workers[w]), redis.counters);
      NoRowWrite(now, db.jobs);
      Worked(w, Abort, before);
      assert trace[|old(trace)|] == Work(w, Abort);
    }

    /** An `await` of scheduler `d`; when it raises, the tick is lost. */
    method AwaitTick(d: SchedulerId) returns (r: Outcome<()>)
      requires Valid() && d in schedulers
      modifies this, db, redis
      ensures Valid() && Continues() && d in schedulers
      ensures schedulers[d] == if r.Ok? then old(schedulers[d]) else AtPromote
      ensures Log(d) == if r.Ok? then old(Log(d)) else old(Log(d)) + [AbortTick]
    {
      hide RanTo, Claims, OpsOf;
      Interleave(TheScheduler(d));
      var raises: bool := *;
      if raises {
        LoseTick(d);
        return Raised;
      }
      return Ok(());
    }

    method LoseTick(d: SchedulerId)
      requires Valid() && d in schedulers
      modifies this, db, redis
      ensures Valid() && Continues() && d in schedulers && schedulers[d] == AtPromote
      ensures Log(d) == old(Log(d)) + [AbortTick]
    {
      hide RanTo, Claims, Apply, OpsOf, DidStep;
      var before := Snapshot();
      db.jobs := JobsAfter(now, NoteInterruption(schedulers[d].Mourned()), db.jobs);
      Scheduled(d, AbortTick, before);
    }
  }
}
