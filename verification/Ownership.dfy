/** What the fence buys: zombies are harmless, the column is as good as a token,
    and exactly when it is not. */
module Ownership {
  import opened Types
  import opened Protocol
  import opened Columns
  import opened Fencing

  /** A worker whose claim is no longer in force changes no row by any step,
      heartbeats included. */
  lemma ZombiesChangeNothing(c: Config, s: State, w: WorkerId, op: WorkerOp)
    requires Reachable(c, s) && !s.foreignFetch && Enabled(c, s, Work(w, op))
    requires s.workers[w].InHand() && !IsLive(s.jobs[s.workers[w].job], s.workers[w].epoch)
    ensures Apply(c, s, Work(w, op)).jobs == s.jobs
    ensures Apply(c, s, Work(w, op)).dlq == s.dlq
  {
    FencedIsReached(c, s);
    ZombiesWriteNothing(c, s, w, op);
  }

  lemma ZombiesWriteNothing(c: Config, s: State, w: WorkerId, op: WorkerOp)
    requires Fenced(c, s) && Enabled(c, s, Work(w, op))
    requires s.workers[w].InHand() && !IsLive(s.jobs[s.workers[w].job], s.workers[w].epoch)
    ensures WriteOf(c, s, Work(w, op)).NoWrite?
  {
    hide Sound;
    var p := s.workers[w];
    assert HandSound(c, s.now, s.jobs[p.job], w, p);
    if p.HasView() {
      FencesMatchTheClaim(c, s.now, s.jobs[p.job], w, p);
    }
  }

  lemma OwnersPassBothFences(c: Config, e: Entry, w: WorkerId, p: Worker)
    requires p.HasView() && HandCore(e, w, p) && IsLive(e, p.epoch)
    ensures Owns(c, e, p) && OwnsForBurial(c, e, p)
  {
  }

  lemma PassedFencesDecide(c: Config, s: State, w: WorkerId, op: WorkerOp)
    requires Enabled(c, s, Work(w, op)) && (op.Succeed? || op.Fail? || op.Defer?)
    ensures var p, write := s.workers[w], WriteOf(c, s, Work(w, op));
            && p.HasView() && p.job in s.jobs
            && (Decided(write) == Some(p.job) || write.NoWrite?)
            && (Owns(c, s.jobs[p.job], p) && OwnsForBurial(c, s.jobs[p.job], p) ==> Decided(write) == Some(p.job))
  {
  }

  /** In every reachable state, under either fence: while its claim is in force,
      each of a worker's outcomes is written. */
  lemma OwnersAlwaysDecide(c: Config, s: State, w: WorkerId, op: WorkerOp)
    requires Reachable(c, s) && Enabled(c, s, Work(w, op))
    requires op.Succeed? || op.Fail? || op.Defer?
    requires IsLive(s.jobs[s.workers[w].job], s.workers[w].epoch)
    ensures Decided(WriteOf(c, s, Work(w, op))) == Some(s.workers[w].job)
  {
    hide Reachable, HandCore, Owns, OwnsForBurial, WriteOf;
    CoreIsReached(c, s);
    PassedFencesDecide(c, s, w, op);
    OwnersPassBothFences(c, s.jobs[s.workers[w].job], w, s.workers[w]);
  }

  /** In every reachable state, under either fence, whether or not it matched: an
      outcome leaves its claim over. */
  lemma OutcomesEndClaims(c: Config, s: State, w: WorkerId, op: WorkerOp)
    requires Reachable(c, s) && Enabled(c, s, Work(w, op))
    requires op.Succeed? || op.Fail? || op.Defer?
    ensures var p, t := s.workers[w], Apply(c, s, Work(w, op));
            p.job in t.jobs && IsOver(t.jobs[p.job], p.epoch)
  {
    hide Reachable, Apply, WriteOf, EntryAfter, Owns, OwnsForBurial;
    CoreIsReached(c, s);
    PassedFencesDecide(c, s, w, op);
    var p := s.workers[w];
    assert HandCore(s.jobs[p.job], w, p);
    if IsLive(s.jobs[p.job], p.epoch) {
      OwnersAlwaysDecide(c, s, w, op);
    }
    DecisionsEndClaims(s.now, WriteOf(c, s, Work(w, op)), p.job, s.jobs[p.job]);
    AppliedEntry(c, s, Work(w, op), p.job);
  }

  lemma DecisionsEndClaims(now: int, write: Write, j: JobId, e: Entry)
    ensures Decided(write) == Some(j) ==> EntryAfter(now, write, j, e).row.status != Claimed
    ensures Decided(write) == Some(j) || write.NoWrite? ==> EntryAfter(now, write, j, e).h.claims == e.h.claims
    ensures write.NoWrite? ==> EntryAfter(now, write, j, e) == e
  {
  }

  // ------------------------------------------------ a column, or a token

  lemma FenceKindMattersToNoWorker(c: Config, f: Fence, s: State, w: WorkerId, op: WorkerOp)
    requires HandsSound(c, s) && Enabled(c, s, Work(w, op))
    ensures WorkerDoes(c.(fence := f), s, w, s.workers[w], op) == WorkerDoes(c, s, w, s.workers[w], op)
  {
    var p := s.workers[w];
    if p.HasView() {
      FencesMatchTheClaim(c, s.now, s.jobs[p.job], w, p);
      FencesMatchTheClaim(c.(fence := f), s.now, s.jobs[p.job], w, p);
    }
  }

  lemma FenceKindMattersToNoScheduler(c: Config, f: Fence, s: State, p: Scheduler, op: SchedulerOp)
    requires CanSchedule(c, s, p, op)
    ensures CanSchedule(c.(fence := f), s, p, op)
    ensures SchedulerDoes(c.(fence := f), s, p, op) == SchedulerDoes(c, s, p, op)
  {
    if op.Promote? { assert DueJobs(c.(fence := f), s, op.skipped) == DueJobs(c, s, op.skipped); }
    assert StaleJobs(c.(fence := f), s) == StaleJobs(c, s);
    assert StrandedJobs(c.(fence := f), s) == StrandedJobs(c, s);
  }

  lemma FenceKindMattersToNoStep(c: Config, f: Fence, s: State, a: Action)
    requires HandsSound(c, s) && Enabled(c, s, a)
    ensures Enabled(c.(fence := f), s, a) && Apply(c.(fence := f), s, a) == Apply(c, s, a)
  {
    if a.Work? { FenceKindMattersToNoWorker(c, f, s, a.w, a.op); }
    if a.Schedule? { FenceKindMattersToNoScheduler(c, f, s, s.schedulers[a.d], a.sop); }
  }

  /** The `worker_id` column refines a fencing token: whichever of the two guards
      the writes, the runs whose fetched rows name their own workers, and the states
      they pass through, are the same. */
  lemma {:induction false} ColumnAndTokenHaveTheSameRuns(c: Config, f: Fence, s: State, acts: seq<Action>, t: State)
    requires Fenced(c, s)
    requires Leads(c, s, acts, t) && !t.foreignFetch
    ensures Leads(c.(fence := f), s, acts, t)
    decreases |acts|
  {
    if acts != [] {
      var u := Apply(c, s, acts[0]);
      FenceKindMattersToNoStep(c, f, s, acts[0]);
      ForeignnessSticks(c, u, acts[1..]);
      FencedStep(c, s, acts[0]);
      ColumnAndTokenHaveTheSameRuns(c, f, u, acts[1..], t);
    }
  }

  // --------------------------------------------------- when the column fails

  /** Every fence a worker in this state would apply matches exactly its claim. */
  predicate FencesAgree(c: Config, s: State) {
    forall w | w in s.workers && s.workers[w].HasView() ::
      && s.workers[w].job in s.jobs
      && (Owns(c, s.jobs[s.workers[w].job], s.workers[w]) <==> IsLive(s.jobs[s.workers[w].job], s.workers[w].epoch))
      && (OwnsForBurial(c, s.jobs[s.workers[w].job], s.workers[w])
          <==> IsLive(s.jobs[s.workers[w].job], s.workers[w].epoch))
  }

  /** ... in every state the run passes through. */
  predicate AgreeThroughout(c: Config, s: State, acts: seq<Action>)
    requires Valid(c, s, acts)
    decreases |acts|
  {
    FencesAgree(c, s) && (acts == [] || AgreeThroughout(c, Apply(c, s, acts[0]), acts[1..]))
  }

  lemma FencedStatesAgree(c: Config, s: State)
    requires Fenced(c, s)
    ensures FencesAgree(c, s)
  {
    hide Sound, HandSound, Owns, OwnsForBurial, IsLive;
    forall w | w in s.workers && s.workers[w].HasView()
      ensures var p, e := s.workers[w], s.jobs[s.workers[w].job];
              (Owns(c, e, p) <==> IsLive(e, p.epoch)) && (OwnsForBurial(c, e, p) <==> IsLive(e, p.epoch))
    {
      FencesMatchTheClaim(c, s.now, s.jobs[s.workers[w].job], w, s.workers[w]);
    }
  }

  /** A row that does not name the worker that fetches it is no longer its job, yet
      the dead-letter fence, comparing the row with itself, matches at once. */
  lemma ForeignFetchesBreakTheFence(c: Config, s: State, a: Action)
    requires c.fence == ByWorkerId && CoresSound(s) && Enabled(c, s, a) && FetchesForeign(c, s, a)
    ensures !FencesAgree(c, Apply(c, s, a))
  {
    var t := Apply(c, s, a);
    var p := t.workers[a.w];
    AppliedEntry(c, s, a, p.job);
    assert HandCore(s.jobs[p.job], a.w, s.workers[a.w]);
    assert p.HasView() && OwnsForBurial(c, t.jobs[p.job], p) && !IsLive(t.jobs[p.job], p.epoch);
  }

  /** Exactly when the fence is sound. Along any run from a state no foreign fetch
      has led to: every fence of every worker agrees with its claim in every state
      passed if and only if every row fetched names the worker that fetches it, a
      test the code could make but does not. */
  lemma {:induction false} FenceHoldsIffFetchesAreOwn(c: Config, s: State, acts: seq<Action>)
    requires c.fence == ByWorkerId
    requires Reachable(c, s) && !s.foreignFetch && Valid(c, s, acts)
    ensures AgreeThroughout(c, s, acts) <==> !After(c, s, acts).foreignFetch
    decreases |acts|
  {
    hide Reachable, Sound, HandsSound, FencesAgree, Enabled, Apply;
    FencedIsReached(c, s);
    FencedStatesAgree(c, s);
    if acts != [] {
      var t := Apply(c, s, acts[0]);
      OneStepFurther(c, s, acts[0]);
      ForeignnessIsOneFetch(c, s, acts[0]);
      if t.foreignFetch {
        CoreIsReached(c, s);
        ForeignFetchesBreakTheFence(c, s, acts[0]);
        if !After(c, s, acts).foreignFetch { ForeignnessSticks(c, t, acts[1..]); }
      } else {
        FenceHoldsIffFetchesAreOwn(c, t, acts[1..]);
      }
    }
  }

  lemma ForeignnessIsOneFetch(c: Config, s: State, a: Action)
    requires Enabled(c, s, a)
    ensures Apply(c, s, a).foreignFetch <==> s.foreignFetch || FetchesForeign(c, s, a)
  {
  }
}
