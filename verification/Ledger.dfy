/** Laws of every run, whatever was fetched and however many schedulers run: what
    the dead-letter queue holds, and which steps take a job past its cap. */
module Ledger {
  import opened Types
  import opened Statements
  import opened Protocol
  import opened Columns
  import opened Fencing

  // ----------------------------------------------------------- dead letters

  /** The job a write buries. */
  function Buried(write: Write): Option<JobId> {
    match write
    case BuryFailed(j, _, _, _) => Some(j)
    case BuryReclaimed(j, _, _) => Some(j)
    case _ => None
  }

  /** The step buries `j` although its row is already dead-lettered: what a status
      test in `MARK_DEAD_LETTERED` would refuse. */
  predicate Reburies(c: Config, s: State, a: Action, j: JobId)
    requires Enabled(c, s, a)
  {
    j in s.jobs && s.jobs[j].row.status == DeadLettered && Buried(WriteOf(c, s, a)) == Some(j)
  }

  function Reburials(c: Config, s: State, acts: seq<Action>, j: JobId): nat
    requires Valid(c, s, acts)
    decreases |acts|
  {
    if acts == [] then 0
    else One(Reburies(c, s, acts[0], j)) + Reburials(c, Apply(c, s, acts[0]), acts[1..], j)
  }

  predicate NeverReburied(c: Config, s: State, acts: seq<Action>, j: JobId)
    requires Valid(c, s, acts)
    decreases |acts|
  {
    acts == [] || (!Reburies(c, s, acts[0], j) && NeverReburied(c, Apply(c, s, acts[0]), acts[1..], j))
  }

  /** The dead letters of `j` that neither a replay nor its status accounts for. */
  function Surplus(s: State, j: JobId): int {
    DlqRows(s.dlq, j) - if j in s.jobs then s.jobs[j].h.replays + One(s.jobs[j].row.status == DeadLettered) else 0
  }

  lemma BurialsAddOneRow(write: Write, dlq: seq<DeadLetter>, j: JobId)
    ensures DlqRows(DlqAfter(write, dlq), j) == DlqRows(dlq, j) + One(Buried(write) == Some(j))
  {
    hide DlqRows;
    if write.BuryFailed? {
      DlqRowsAfter(dlq, DeadLetter(write.job, write.recipient, write.attempt, DeliveryFailed), j);
    } else if write.BuryReclaimed? {
      DlqRowsAfter(dlq, DeadLetter(write.job, write.recipient, write.attempt, WorkerDied), j);
    }
  }

  lemma EntriesKeepTheLedger(now: int, write: Write, j: JobId, e: Entry)
    requires write == ReplayRow(j) ==> e.row.status == DeadLettered
    requires write.PromoteRows? && j in write.batch ==> e.row.status == Pending
    requires write.ReclaimRows? && j in write.stale ==> e.row.status == Claimed
    requires write.ClaimRow? && write.job == j ==> e.row.status == Queued
    requires (write.SendRow? || write.RetryRow? || write.DeferRow?) && write.job == j ==> e.row.status == Claimed
    ensures var f := EntryAfter(now, write, j, e);
            f.h.replays + One(f.row.status == DeadLettered)
            + One(e.row.status == DeadLettered && Buried(write) == Some(j))
            == e.h.replays + One(e.row.status == DeadLettered) + One(Buried(write) == Some(j))
  {
  }

  lemma SurplusMoves(c: Config, s: State, a: Action, j: JobId)
    requires Enabled(c, s, a)
    ensures Surplus(Apply(c, s, a), j) == Surplus(s, j) + One(Reburies(c, s, a, j))
  {
    hide DlqRows, EntryAfter;
    WritesAreJustified(c, s, a);
    BurialsAddOneRow(WriteOf(c, s, a), s.dlq, j);
    if j in s.jobs {
      AppliedEntry(c, s, a, j);
      EntriesKeepTheLedger(s.now, WriteOf(c, s, a), j, s.jobs[j]);
    } else if j in Apply(c, s, a).jobs {
      AddedJobsAreFresh(c, s, a, j);
    }
  }

  lemma {:induction false} RunsMoveSurplus(c: Config, s: State, acts: seq<Action>, j: JobId)
    requires Valid(c, s, acts)
    ensures Surplus(After(c, s, acts), j) == Surplus(s, j) + Reburials(c, s, acts, j)
    ensures Reburials(c, s, acts, j) == 0 <==> NeverReburied(c, s, acts, j)
    decreases |acts|
  {
    hide Enabled, Apply, Surplus, Reburies;
    if acts != [] {
      SurplusMoves(c, s, acts[0], j);
      RunsMoveSurplus(c, Apply(c, s, acts[0]), acts[1..], j);
    }
  }

  /** Every run: the dead letters of a job are its replays, one if it is
      dead-lettered now, and one for each step that buried it a second time. So
      they are conserved if and only if no step did. */
  lemma DeadLettersAreConservedIff(c: Config, start: int, acts: seq<Action>, s: State, j: JobId)
    requires Leads(c, Initial(start), acts, s) && j in s.jobs
    ensures DlqRows(s.dlq, j)
            == s.jobs[j].h.replays + One(s.jobs[j].row.status == DeadLettered) + Reburials(c, Initial(start), acts, j)
    ensures DlqRows(s.dlq, j) == s.jobs[j].h.replays + One(s.jobs[j].row.status == DeadLettered)
            <==> NeverReburied(c, Initial(start), acts, j)
  {
    RunsMoveSurplus(c, Initial(start), acts, j);
    assert Surplus(Initial(start), j) == 0;
  }

  // ---------------------------------------------------------------- the cap

  predicate WithinCap(r: Job) {
    r.attempts <= r.maxAttempts
  }

  /** The three ways past the cap: recovery of a claim that had already spent the
      last attempt; a failure whose fence matches although the row it fetched had
      spent it, which the worker could test after its fetch; the burial of a reset
      row by a scheduler that remembers more attempts than the cap. */
  predicate TakesPastTheCap(c: Config, s: State, a: Action, j: JobId)
    requires Enabled(c, s, a) && j in s.jobs
  {
    || (&& a.Schedule? && a.sop.Recover?
        && Stale(c, s.now, s.jobs[j].row) && s.jobs[j].row.attempts >= s.jobs[j].row.maxAttempts)
    || (&& a.Work? && a.op.Fail? && s.workers[a.w].job == j
        && s.workers[a.w].view.attempts >= s.workers[a.w].view.maxAttempts
        && OwnsForBurial(c, s.jobs[j], s.workers[a.w]))
    || (&& a.Schedule? && a.sop.Bury? && s.schedulers[a.d].job == j
        && s.jobs[j].row.workerId.None? && s.schedulers[a.d].attempts > s.jobs[j].row.maxAttempts)
  }

  lemma FailuresPassTheCapIff(c: Config, e: Entry, p: Worker, at: int, now: int)
    requires p.Allowed? && p.view.maxAttempts == e.row.maxAttempts && WithinCap(e.row)
    ensures var f := EntryAfter(now, HandleFailure(c, e, p, at).write, p.job, e);
            && f.row.maxAttempts == e.row.maxAttempts
            && (!WithinCap(f.row) <==> p.view.attempts >= p.view.maxAttempts && OwnsForBurial(c, e, p))
  {
  }

  lemma OtherStepsPassTheCapIff(c: Config, s: State, a: Action, j: JobId)
    requires Enabled(c, s, a) && !(a.Work? && a.op.Fail?) && j in s.jobs && WithinCap(s.jobs[j].row)
    ensures var f := EntryAfter(s.now, WriteOf(c, s, a), j, s.jobs[j]);
            && f.row.maxAttempts == s.jobs[j].row.maxAttempts
            && (!WithinCap(f.row) <==> TakesPastTheCap(c, s, a, j))
  {
    WritesAreJustified(c, s, a);
  }

  /** In every reachable state: exactly these steps take a job past its cap. */
  lemma CapIsPassedIff(c: Config, s: State, a: Action, j: JobId)
    requires Reachable(c, s) && Enabled(c, s, a) && j in s.jobs && WithinCap(s.jobs[j].row)
    ensures j in Apply(c, s, a).jobs && Apply(c, s, a).jobs[j].row.maxAttempts == s.jobs[j].row.maxAttempts
    ensures !WithinCap(Apply(c, s, a).jobs[j].row) <==> TakesPastTheCap(c, s, a, j)
  {
    hide Apply, Reachable, EntryAfter, WithinCap;
    CoreIsReached(c, s);
    AppliedEntry(c, s, a, j);
    if a.Work? && a.op.Fail? {
      var p := s.workers[a.w];
      assert HandCore(s.jobs[p.job], a.w, p);
      if p.job == j {
        FailuresPassTheCapIff(c, s.jobs[j], p, a.op.at, s.now);
      } else {
        FailuresSpareTheRest(c, s, a, j);
      }
    } else {
      OtherStepsPassTheCapIff(c, s, a, j);
    }
  }

  lemma FailuresSpareTheRest(c: Config, s: State, a: Action, j: JobId)
    requires Enabled(c, s, a) && a.Work? && a.op.Fail? && s.workers[a.w].job != j && j in s.jobs
    ensures EntryAfter(s.now, WriteOf(c, s, a), j, s.jobs[j]) == s.jobs[j]
  {
  }

  /** `j` is within its cap in every state the run passes through. */
  predicate StaysWithinCap(c: Config, s: State, acts: seq<Action>, j: JobId)
    requires Valid(c, s, acts) && j in s.jobs
    decreases |acts|
  {
    && WithinCap(s.jobs[j].row)
    && (acts == [] ||
        (j in Apply(c, s, acts[0]).jobs && StaysWithinCap(c, Apply(c, s, acts[0]), acts[1..], j)))
  }

  /** No step of the run takes it past. */
  predicate NeverTakenPast(c: Config, s: State, acts: seq<Action>, j: JobId)
    requires Valid(c, s, acts)
    decreases |acts|
  {
    acts == []
    || (&& (j in s.jobs ==> !TakesPastTheCap(c, s, acts[0], j))
        && NeverTakenPast(c, Apply(c, s, acts[0]), acts[1..], j))
  }

  /** Over every run: a job within its cap stays within it if and only if no such
      step is taken. */
  lemma {:induction false} RunsStayWithinCapIff(c: Config, s: State, acts: seq<Action>, j: JobId)
    requires Reachable(c, s) && Valid(c, s, acts) && j in s.jobs && WithinCap(s.jobs[j].row)
    ensures StaysWithinCap(c, s, acts, j) <==> NeverTakenPast(c, s, acts, j)
    decreases |acts|
  {
    hide Enabled, Apply, Reachable, WithinCap, TakesPastTheCap;
    if acts != [] {
      var t := Apply(c, s, acts[0]);
      CapIsPassedIff(c, s, acts[0], j);
      OneStepFurther(c, s, acts[0]);
      if WithinCap(t.jobs[j].row) {
        RunsStayWithinCapIff(c, t, acts[1..], j);
      } else {
        assert !StaysWithinCap(c, t, acts[1..], j);
      }
    }
  }
}
