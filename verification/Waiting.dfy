/** When a job may be promoted: not before it is due, and from then on. */
module Waiting {
  import opened Types
  import opened Windows
  import opened Protocol
  import opened Columns
  import opened Rows

  // ----------------------------------------------------------- never early

  /** Still waiting for `due`, unless replayed more than `replays` times; a
      dead-lettered job waits for a replay. */
  predicate WaitsUntil(c: Config, now: int, e: Entry, due: int, replays: nat) {
    e.h.replays > replays
    || (e.h.replays == replays
        && (now + c.lookahead >= due
            || e.row.status == DeadLettered
            || (e.row.status == Pending && e.row.sendAt >= due)))
  }

  lemma PromotionsAreDue(c: Config, s: State, a: Action)
    requires Enabled(c, s, a) && WriteOf(c, s, a).PromoteRows?
    ensures forall j | j in WriteOf(c, s, a).batch :: j in s.jobs && s.jobs[j].row.sendAt <= s.now + c.lookahead
  {
    assert a.Schedule? && a.sop.Promote?;
  }

  lemma StepsWait(c: Config, s: State, a: Action, j: JobId, due: int, replays: nat)
    requires Enabled(c, s, a) && j in s.jobs && WaitsUntil(c, s.now, s.jobs[j], due, replays)
    ensures j in Apply(c, s, a).jobs && WaitsUntil(c, Apply(c, s, a).now, Apply(c, s, a).jobs[j], due, replays)
  {
    hide Enabled, Apply, WriteOf;
    WritesAreJustified(c, s, a);
    AppliedEntry(c, s, a, j);
    JobsOnlyGrow(c, s, a);
    if WriteOf(c, s, a).PromoteRows? { PromotionsAreDue(c, s, a); }
  }

  lemma {:induction false} RunsWait(c: Config, s: State, acts: seq<Action>, j: JobId, due: int, replays: nat)
    requires Valid(c, s, acts) && j in s.jobs && WaitsUntil(c, s.now, s.jobs[j], due, replays)
    ensures j in After(c, s, acts).jobs
    ensures WaitsUntil(c, After(c, s, acts).now, After(c, s, acts).jobs[j], due, replays)
    decreases |acts|
  {
    hide Enabled, Apply, WaitsUntil;
    if acts != [] {
      StepsWait(c, s, acts[0], j, due, replays);
      RunsWait(c, Apply(c, s, acts[0]), acts[1..], j, due, replays);
    }
  }

  /** Whatever was fetched, however many schedulers run and whatever happens to
      Redis: a pending job is not promoted before its due date, less the lookahead,
      in any later state in which it has not been replayed. */
  lemma NothingIsPromotedEarly(
      c: Config, s: State, acts: seq<Action>, t: State, d: SchedulerId, skipped: set<JobId>, batch: set<JobId>,
      j: JobId)
    requires j in s.jobs && s.jobs[j].row.status == Pending
    requires Leads(c, s, acts, t) && Enabled(c, t, Schedule(d, Promote(skipped, batch))) && j in batch
    requires j in t.jobs && t.jobs[j].h.replays == s.jobs[j].h.replays
    ensures t.now >= s.jobs[j].row.sendAt - c.lookahead
  {
    hide Enabled, Apply, Valid, After;
    RunsWait(c, s, acts, j, s.jobs[j].row.sendAt, s.jobs[j].h.replays);
    PromotionTakesExactlyTheDue(c, t, d, skipped, batch);
  }

  // ------------------------------------------------------------- deferrals

  /** A deferral that is written makes the row due after the refused hour, by at most
      a second and the time between the two readings of the clock, and charges and
      changes nothing else; and no promotion takes the job before the top of the
      next hour, less the lookahead, unless it has been replayed. */
  lemma DeferredJobsArePutOff(
      c: Config, s: State, w: WorkerId, at: int, u: State, acts: seq<Action>, t: State, d: SchedulerId,
      skipped: set<JobId>, batch: set<JobId>)
    requires c.fence == ByWorkerId && Reachable(c, s) && Enabled(c, s, Work(w, Defer(at)))
    requires u == Apply(c, s, Work(w, Defer(at)))
    requires IsHeldBy(s.jobs[s.workers[w].job].row, s.workers[w].view.workerId)
    ensures var p := s.workers[w];
            var top, r := (HourOf(p.checkedAt) + 1) * HOUR, s.jobs[p.job].row;
            && p.job in u.jobs && u.jobs[p.job].row.status == Pending
            && top < u.jobs[p.job].row.sendAt <= top + SECOND + (at - p.checkedAt)
            && u.jobs[p.job].row.attempts == r.attempts && u.jobs[p.job].row.error == r.error
            && u.jobs[p.job].row.recipient == r.recipient && u.jobs[p.job].row.priority == r.priority
    ensures var j, top := s.workers[w].job, (HourOf(s.workers[w].checkedAt) + 1) * HOUR;
            Leads(c, u, acts, t) && Enabled(c, t, Schedule(d, Promote(skipped, batch))) && j in batch
            && j in t.jobs && t.jobs[j].h.replays == u.jobs[j].h.replays ==>
              t.now > top - c.lookahead
  {
    hide Apply, Reachable, EntriesSound, Leads;
    var p := s.workers[w];
    ReachableIsSound(c, s);
    assert WorkerSound(s.now, s.jobs.Keys, p);
    DelaysEndInTheNextWindow(p.checkedAt);
    DeferralsComeDueLater(c, s, w, at);
    if Leads(c, u, acts, t) && Enabled(c, t, Schedule(d, Promote(skipped, batch))) && p.job in batch
       && p.job in t.jobs && t.jobs[p.job].h.replays == u.jobs[p.job].h.replays {
      NothingIsPromotedEarly(c, u, acts, t, d, skipped, batch, p.job);
    }
  }

  // --------------------------------------------------------------- retries

  /** Promotion by `d` may take the job now, with others locked or not. */
  ghost predicate MayBePromoted(c: Config, t: State, d: SchedulerId, j: JobId) {
    exists skipped, batch :: j in batch && Enabled(c, t, Schedule(d, Promote(skipped, batch)))
  }

  /** A failure below the cap that is written: while the job's row is not written
      again, a promotion may take it exactly from the end of the backoff on, less
      the lookahead. */
  lemma RetriedJobsComeBackOnTime(
      c: Config, s: State, w: WorkerId, at: int, u: State, acts: seq<Action>, t: State, d: SchedulerId)
    requires c.fence == ByWorkerId && c.batchSize >= 1 && Enabled(c, s, Work(w, Fail(at)))
    requires s.workers[w].view.attempts + 1 < s.workers[w].view.maxAttempts
    requires IsHeldBy(s.jobs[s.workers[w].job].row, s.workers[w].view.workerId)
    requires u == Apply(c, s, Work(w, Fail(at))) && Leads(c, u, acts, t)
    requires d in t.schedulers && t.schedulers[d].AtPromote?
    ensures var j := s.workers[w].job;
            j in u.jobs && u.jobs[j].row.sendAt == at + c.baseDelay * Pow2(u.jobs[j].row.attempts - 1)
            && u.jobs[j].row.nextRetryAt == Some(u.jobs[j].row.sendAt)
    ensures var j := s.workers[w].job;
            j in t.jobs && t.jobs[j].row == u.jobs[j].row ==>
              (MayBePromoted(c, t, d, j)
               <==> t.now >= at + c.baseDelay * Pow2(s.workers[w].view.attempts) - c.lookahead)
  {
    hide Apply, Leads;
    var j := s.workers[w].job;
    RetriesComeDueAfterTheBackoff(c, s, w, at);
    if j in t.jobs && t.jobs[j].row == u.jobs[j].row {
      PromotableIffDue(c, t, d, j);
    }
  }

  /** And any promotion before a replay comes that late. */
  lemma RetriedJobsWait(
      c: Config, s: State, w: WorkerId, at: int, u: State, acts: seq<Action>, t: State, d: SchedulerId,
      skipped: set<JobId>, batch: set<JobId>)
    requires c.fence == ByWorkerId && Enabled(c, s, Work(w, Fail(at)))
    requires s.workers[w].view.attempts + 1 < s.workers[w].view.maxAttempts
    requires IsHeldBy(s.jobs[s.workers[w].job].row, s.workers[w].view.workerId)
    requires u == Apply(c, s, Work(w, Fail(at))) && Leads(c, u, acts, t)
    requires Enabled(c, t, Schedule(d, Promote(skipped, batch))) && s.workers[w].job in batch
    requires var j := s.workers[w].job; j in t.jobs && j in u.jobs && t.jobs[j].h.replays == u.jobs[j].h.replays
    ensures t.now >= at + c.baseDelay * Pow2(s.workers[w].view.attempts) - c.lookahead
  {
    hide Apply, Leads;
    RetriesComeDueAfterTheBackoff(c, s, w, at);
    NothingIsPromotedEarly(c, u, acts, t, d, skipped, batch, s.workers[w].job);
  }

  // --------------------------------------------------------------- replays

  /** A replay that is written makes the job due at that very instant: any scheduler
      about to promote may take it, whatever the lookahead. */
  lemma ReplayedJobsMayGoAtOnce(c: Config, s: State, j: JobId, d: SchedulerId)
    requires c.batchSize >= 1 && Enabled(c, s, Api(Replay(j)))
    requires j in s.jobs && s.jobs[j].row.status == DeadLettered
    requires d in s.schedulers && s.schedulers[d].AtPromote?
    ensures MayBePromoted(c, Apply(c, s, Api(Replay(j))), d, j)
  {
    ReplaysComeDueAtOnce(c, s, j);
    PromotableIffDue(c, Apply(c, s, Api(Replay(j))), d, j);
  }

  // ----------------------------------------------------------- submissions

  /** Nobody has a job in hand or in mind that was never claimed, and what was never
      claimed has not come further than a queue. */
  predicate UnclaimedAreUntouched(s: State) {
    && (forall j | j in s.jobs && s.jobs[j].h.claims == 0 :: s.jobs[j].row.status in {Pending, Queued})
    && (forall w | w in s.workers && s.workers[w].InHand() ::
          s.workers[w].job in s.jobs && s.jobs[s.workers[w].job].h.claims >= 1)
    && (forall d, j | d in s.schedulers && j in s.schedulers[d].Remembered() :: j in s.jobs && s.jobs[j].h.claims >= 1)
  }

  /** The jobs a write presupposes a claim of. */
  predicate OnlyAfterClaims(s: State, write: Write) {
    match write
    case BuryFailed(j, _, _, _) => j in s.jobs && s.jobs[j].h.claims >= 1
    case BuryReclaimed(j, _, _) => j in s.jobs && s.jobs[j].h.claims >= 1
    case NoteInterruption(lost) => forall j | j in lost :: j in s.jobs && s.jobs[j].h.claims >= 1
    case _ => true
  }

  lemma BurialsAreNamed(c: Config, s: State, a: Action)
    requires Enabled(c, s, a)
    ensures var write := WriteOf(c, s, a);
            && (write.BuryFailed? ==>
                  a.Work? && a.w in s.workers && s.workers[a.w].InHand() && s.workers[a.w].job == write.job)
            && (write.BuryReclaimed? ==>
                  a.Schedule? && a.d in s.schedulers && write.job in s.schedulers[a.d].Remembered())
            && (write.NoteInterruption? ==>
                  a.Schedule? && a.d in s.schedulers && write.lost <= s.schedulers[a.d].Remembered())
  {
    hide DueIn, StaleIn, StrandedIn, IsPromotable, IsLimited, Tickets, Members, RowsReset;
  }

  lemma BurialsComeAfterClaims(c: Config, s: State, a: Action)
    requires UnclaimedAreUntouched(s) && Enabled(c, s, a)
    ensures OnlyAfterClaims(s, WriteOf(c, s, a))
  {
    hide Enabled, WriteOf;
    BurialsAreNamed(c, s, a);
  }

  lemma EntriesStayUntouched(s: State, write: Write, j: JobId)
    requires j in s.jobs && Justified(s, write) && OnlyAfterClaims(s, write)
    requires s.jobs[j].h.claims == 0 ==> s.jobs[j].row.status in {Pending, Queued}
    ensures var e, f := s.jobs[j], EntryAfter(s.now, write, j, s.jobs[j]);
            && f.h.claims >= e.h.claims
            && (f.h.claims == 0 ==> f.row.status in {Pending, Queued})
            && (f.h.promotions == 0 && e.h.claims == 0 && e.row.status == Pending ==> f == e)
            && (write.ClaimRow? && write.job == j ==> f.h.claims >= 1)
            && f.h.promotions >= e.h.promotions
  {
  }

  lemma NewHandsAreClaims(c: Config, s: State, w: WorkerId, op: WorkerOp)
    requires Enabled(c, s, Work(w, op))
    ensures var p, step := s.workers[w], WorkerDoes(c, s, w, s.workers[w], op);
            step.next.InHand() ==>
              || (p.InHand() && step.next.job == p.job)
              || (step.write.ClaimRow? && step.write.job == step.next.job && step.next.job in s.jobs)
  {
  }

  lemma NewMemoriesAreClaims(c: Config, s: State, d: SchedulerId, op: SchedulerOp)
    requires Enabled(c, s, Schedule(d, op))
    ensures forall j | j in SchedulerDoes(c, s, s.schedulers[d], op).next.Remembered() ::
              j in s.schedulers[d].Remembered() || (j in s.jobs && s.jobs[j].row.status == Claimed)
  {
    hide DueIn, StrandedIn, IsPromotable, IsLimited, Tickets, Members;
  }

  lemma UnclaimedStayUntouched(c: Config, s: State, a: Action)
    requires UnclaimedAreUntouched(s) && Enabled(c, s, a)
    ensures UnclaimedAreUntouched(Apply(c, s, a))
  {
    hide EntryAfter, JobsAfter, DlqAfter, QueueAfter, LocksAfter, CountersAfter, WorkerDoes, SchedulerDoes, Justified;
    hide OnlyAfterClaims;
    var t, write := Apply(c, s, a), WriteOf(c, s, a);
    WritesAreJustified(c, s, a);
    BurialsComeAfterClaims(c, s, a);
    forall j | j in t.jobs
      ensures t.jobs[j].h.claims == 0 ==> t.jobs[j].row.status in {Pending, Queued}
      ensures j in s.jobs ==> t.jobs[j].h.claims >= s.jobs[j].h.claims
      ensures j in s.jobs && write.ClaimRow? && write.job == j ==> t.jobs[j].h.claims >= 1
    {
      if j in s.jobs {
        AppliedEntry(c, s, a, j);
        EntriesStayUntouched(s, write, j);
      } else {
        AddedJobsAreFresh(c, s, a, j);
      }
    }
    JobsOnlyGrow(c, s, a);
    if a.Work? { NewHandsAreClaims(c, s, a.w, a.op); }
    if a.Schedule? { NewMemoriesAreClaims(c, s, a.d, a.sop); }
  }

  lemma {:induction false} RunsSpareTheUnpromoted(c: Config, s: State, acts: seq<Action>, j: JobId)
    requires UnclaimedAreUntouched(s) && EntriesSound(s) && Valid(c, s, acts)
    ensures UnclaimedAreUntouched(After(c, s, acts))
    ensures j in s.jobs ==> j in After(c, s, acts).jobs
    ensures j in s.jobs && After(c, s, acts).jobs[j].h.promotions == 0 ==> After(c, s, acts).jobs[j] == s.jobs[j]
    decreases |acts|
  {
    hide Enabled, Apply, UnclaimedAreUntouched, EntriesSound;
    if acts != [] {
      UnclaimedStayUntouched(c, s, acts[0]);
      EntriesStaySound(c, s, acts[0]);
      if j in s.jobs { StepsSpareTheUnpromoted(c, s, acts[0], j); }
      RunsSpareTheUnpromoted(c, Apply(c, s, acts[0]), acts[1..], j);
    }
  }

  lemma StepsSpareTheUnpromoted(c: Config, s: State, a: Action, j: JobId)
    requires UnclaimedAreUntouched(s) && EntriesSound(s) && Enabled(c, s, a) && j in s.jobs
    ensures j in Apply(c, s, a).jobs
    ensures Apply(c, s, a).jobs[j].h.promotions == 0 ==> Apply(c, s, a).jobs[j] == s.jobs[j]
  {
    hide Enabled, Apply, WriteOf, EntryAfter, Justified, OnlyAfterClaims, RowSound;
    WritesAreJustified(c, s, a);
    BurialsComeAfterClaims(c, s, a);
    AppliedEntry(c, s, a, j);
    EntriesStayUntouched(s, WriteOf(c, s, a), j);
    assert EntrySound(s.now, s.dlq, j, s.jobs[j]);
  }

  /** From the submission of a job to its first promotion nothing at all happens to
      it, whatever runs and whatever fails: its row is what the request asked for,
      to the letter; and the first promotion may come exactly from the `send_at`
      of the request on, less the lookahead. */
  lemma JobsWaitAsRequested(
      c: Config, s: State, r: RequestId, id: JobId, recipient: string, sendAt: int, priority: Priority,
      key: Option<string>, u: State, acts: seq<Action>, t: State, d: SchedulerId)
    requires Reachable(c, s) && Enabled(c, s, Api(Submit(r, id, recipient, sendAt, priority, key)))
    requires !(key.Some? && key.value != "" && key.value in s.keys)
    requires u == Apply(c, s, Api(Submit(r, id, recipient, sendAt, priority, key))) && Leads(c, u, acts, t)
    ensures id in t.jobs
    ensures t.jobs[id].h.promotions == 0 ==>
              t.jobs[id].row == Job(recipient, priority, sendAt, Pending, 0, c.maxAttempts,
                                    None, None, None, None, None, None, None, s.now)
    ensures t.jobs[id].h.promotions == 0 && c.batchSize >= 1 && d in t.schedulers && t.schedulers[d].AtPromote? ==>
              (MayBePromoted(c, t, d, id) <==> t.now >= sendAt - c.lookahead)
  {
    hide Enabled, Apply, Reachable, UnclaimedAreUntouched, EntriesSound, ProcessesSound;
    var a := Api(Submit(r, id, recipient, sendAt, priority, key));
    SubmissionsStoreWhatWasAsked(c, s, r, id, recipient, sendAt, priority, key);
    UnclaimedAreAlwaysUntouched(c, s);
    UnclaimedStayUntouched(c, s, a);
    ReachableIsSound(c, s);
    EntriesStaySound(c, s, a);
    RunsSpareTheUnpromoted(c, u, acts, id);
    if c.batchSize >= 1 && d in t.schedulers && t.schedulers[d].AtPromote? {
      PromotableIffDue(c, t, d, id);
    }
  }

  lemma UnclaimedAreAlwaysUntouched(c: Config, s: State)
    requires Reachable(c, s)
    ensures UnclaimedAreUntouched(s)
  {
    hide Enabled, Apply;
    var start: int, acts :| Leads(c, Initial(start), acts, s);
    RunsSpareTheUnpromoted(c, Initial(start), acts, 0);
  }
}
