/** The ownership fence. `execute_delivery` is never told its worker's own id: it
    fences on the `worker_id` of the row it fetched. As long as every fetched row
    names the worker that fetched it, that column does the work of a fencing
    token; the history field `foreignFetch` says whether one did not. */
module Fencing {
  import opened Types
  import opened Statements
  import opened Protocol
  import opened Columns

  /** Claim number `epoch` of the job is still the one in force. */
  predicate IsLive(e: Entry, epoch: nat) {
    e.row.status == Claimed && e.h.claims == epoch
  }

  /** Claim `epoch` is over: it will never be in force again. */
  predicate IsOver(e: Entry, epoch: nat) {
    e.h.claims >= epoch && !IsLive(e, epoch)
  }

  // ------------------------------------------- what holds of any hand at all

  /** Whoever fetched what and when: the row names a worker while, and only while,
      the worker's latest claim is in force, a live worker's view names it, and
      what never changes is in the view as in the row. */
  predicate HandCore(e: Entry, w: WorkerId, p: Worker)
    requires p.InHand()
  {
    && p.epoch <= e.h.claims
    && (e.row.status == Claimed ==> (e.row.workerId == Some(w) <==> e.h.claims == p.epoch))
    && (p.HasView() && IsLive(e, p.epoch) ==> p.view.workerId == Some(w))
    && (p.HasView() ==> p.view.maxAttempts == e.row.maxAttempts && p.view.recipient == e.row.recipient)
  }

  predicate CoresSound(s: State) {
    forall w | w in s.workers && s.workers[w].InHand() ::
      s.workers[w].job in s.jobs && HandCore(s.jobs[s.workers[w].job], w, s.workers[w])
  }

  /** Only a claim names a worker, and only a claim makes a row claimed. */
  lemma CoreSurvivesWrites(now: int, write: Write, e: Entry, w: WorkerId, p: Worker)
    requires p.InHand() && HandCore(e, w, p)
    requires write.ClaimRow? && write.job == p.job ==> write.w != w && e.row.status == Queued
    ensures HandCore(EntryAfter(now, write, p.job, e), w, p)
  {
  }

  lemma CoreIsCarried(e: Entry, w: WorkerId, p: Worker, next: Worker)
    requires p.InHand() && HandCore(e, w, p) && next.InHand() && next.epoch == p.epoch
    requires next.HasView() ==> p.HasView() && next.view == p.view
    ensures HandCore(e, w, next)
  {
  }

  lemma ClaimsComeFromTheIdle(c: Config, s: State, a: Action)
    requires Enabled(c, s, a)
    ensures var write := WriteOf(c, s, a);
            write.ClaimRow? ==>
              && a.Work? && a.w == write.w && a.w in s.workers && !s.workers[a.w].InHand()
              && write.job in s.jobs && s.jobs[write.job].row.status == Queued
  {
  }

  lemma NewCoresAreSound(c: Config, s: State, w: WorkerId, op: WorkerOp)
    requires CoresSound(s) && Enabled(c, s, Work(w, op)) && (op.Claim? || op.Fetch?)
    ensures var step := WorkerDoes(c, s, w, s.workers[w], op);
            step.next.InHand() ==>
              && step.next.job in s.jobs
              && HandCore(EntryAfter(s.now, step.write, step.next.job, s.jobs[step.next.job]), w, step.next)
  {
  }

  lemma AuthorsCoreIsSound(c: Config, s: State, w: WorkerId, op: WorkerOp)
    requires CoresSound(s) && Enabled(c, s, Work(w, op))
    ensures var step := WorkerDoes(c, s, w, s.workers[w], op);
            step.next.InHand() ==>
              && step.next.job in s.jobs
              && HandCore(EntryAfter(s.now, step.write, step.next.job, s.jobs[step.next.job]), w, step.next)
  {
    hide HandCore, EntryAfter, WorkerDoes;
    if op.Claim? || op.Fetch? {
      NewCoresAreSound(c, s, w, op);
    } else {
      var p, step := s.workers[w], WorkerDoes(c, s, w, s.workers[w], op);
      ViewsAreCarriedAlong(c, s, w, op);
      ClaimsComeFromTheIdle(c, s, Work(w, op));
      if step.next.InHand() {
        CoreSurvivesWrites(s.now, step.write, s.jobs[p.job], w, p);
        CoreIsCarried(EntryAfter(s.now, step.write, p.job, s.jobs[p.job]), w, p, step.next);
      }
    }
  }

  lemma CoresStaySound(c: Config, s: State, a: Action)
    requires CoresSound(s) && Enabled(c, s, a)
    ensures CoresSound(Apply(c, s, a))
  {
    hide HandCore, EntryAfter, JobsAfter, DlqAfter, QueueAfter, LocksAfter;
    var t, write := Apply(c, s, a), WriteOf(c, s, a);
    ClaimsComeFromTheIdle(c, s, a);
    forall w | w in t.workers && t.workers[w].InHand()
      ensures t.workers[w].job in t.jobs && HandCore(t.jobs[t.workers[w].job], w, t.workers[w])
    {
      if a.Work? && a.w == w {
        AuthorsCoreIsSound(c, s, w, a.op);
      } else {
        assert t.workers[w] == s.workers[w];
        CoreSurvivesWrites(s.now, write, s.jobs[s.workers[w].job], w, s.workers[w]);
      }
      AppliedEntry(c, s, a, t.workers[w].job);
    }
  }

  lemma {:induction false} RunsKeepCores(c: Config, s: State, acts: seq<Action>)
    requires CoresSound(s) && Valid(c, s, acts)
    ensures CoresSound(After(c, s, acts))
    decreases |acts|
  {
    hide Enabled, Apply, CoresSound;
    if acts != [] {
      CoresStaySound(c, s, acts[0]);
      RunsKeepCores(c, Apply(c, s, acts[0]), acts[1..]);
    }
  }

  /** In every reachable state, late and foreign fetches included. */
  lemma CoreIsReached(c: Config, s: State)
    requires Reachable(c, s)
    ensures CoresSound(s)
  {
    var start: int, acts :| Leads(c, Initial(start), acts, s);
    RunsKeepCores(c, Initial(start), acts);
  }

  // -------------------------------------- what own fetches add: a sound fence

  predicate HandSound(c: Config, now: int, e: Entry, w: WorkerId, p: Worker)
    requires p.InHand()
  {
    && p.epoch <= e.h.claims
    && (e.row.status == Claimed ==> (e.row.workerId == Some(w) <==> e.h.claims == p.epoch))
    && (p.Undecided() ==> e.row.workerId == Some(w) ==> e.row.status == Claimed)
    && (p.Holding? ==>
          && (now <= p.since + c.heartbeatTimeout ==> IsLive(e, p.epoch))
          && (IsLive(e, p.epoch) ==> e.row.heartbeatAt.Some? && e.row.heartbeatAt.value >= p.since))
    && (p.HasView() ==>
          && p.view.workerId == Some(w)
          && p.view.maxAttempts == e.row.maxAttempts
          && p.view.recipient == e.row.recipient
          && (IsLive(e, p.epoch) ==> p.view.attempts == e.row.attempts))
  }

  predicate HandsSound(c: Config, s: State) {
    forall w | w in s.workers && s.workers[w].InHand() ::
      s.workers[w].job in s.jobs && HandSound(c, s.now, s.jobs[s.workers[w].job], w, s.workers[w])
  }

  /** With its own id in its view, a worker's fences match exactly the claim. */
  lemma FencesMatchTheClaim(c: Config, now: int, e: Entry, w: WorkerId, p: Worker)
    requires p.HasView() && HandSound(c, now, e, w, p)
    ensures Owns(c, e, p) <==> IsLive(e, p.epoch)
    ensures OwnsForBurial(c, e, p) <==> IsLive(e, p.epoch)
  {
  }

  /** The job whose claim a worker's outcome ends, if the write is one. */
  function Decided(write: Write): Option<JobId> {
    match write
    case SendRow(j) => Some(j)
    case RetryRow(j, _, _, _) => Some(j)
    case DeferRow(j, _) => Some(j)
    case BuryFailed(j, _, _, _) => Some(j)
    case _ => None
  }

  /** Every outcome is written by the live owner, from an up-to-date view. */
  predicate WrittenByOwner(s: State, a: Action, write: Write) {
    Decided(write).Some? ==>
      && a.Work? && a.w in s.workers && s.workers[a.w].HasView()
      && var j := Decided(write).value;
         && s.workers[a.w].job == j && j in s.jobs && IsLive(s.jobs[j], s.workers[a.w].epoch)
         && s.jobs[j].row.workerId == Some(a.w)
  }

  lemma OutcomesAreWrittenByOwners(c: Config, s: State, a: Action)
    requires HandsSound(c, s) && Enabled(c, s, a)
    ensures WrittenByOwner(s, a, WriteOf(c, s, a))
  {
    if a.Work? && s.workers[a.w].HasView() {
      var p := s.workers[a.w];
      FencesMatchTheClaim(c, s.now, s.jobs[p.job], a.w, p);
    }
  }

  /** What the other writes find: a claim is taken by a worker with nothing in
      hand, a reclaim finds a silent heartbeat, a scheduler's burial no owner. */
  predicate OthersJustified(c: Config, s: State, a: Action, write: Write) {
    match write
    case ClaimRow(_, w) => a.Work? && a.w == w && w in s.workers && !s.workers[w].InHand()
    case ReclaimRows(stale) => forall j | j in stale :: j in s.jobs && Stale(c, s.now, s.jobs[j].row)
    case BuryReclaimed(j, _, _) => j in s.jobs && s.jobs[j].row.workerId.None?
    case _ => true
  }

  lemma OthersAreJustified(c: Config, s: State, a: Action)
    requires Enabled(c, s, a)
    ensures OthersJustified(c, s, a, WriteOf(c, s, a))
  {
  }

  lemma AnotherOwnerIsNobodysConcern(
      c: Config, now: int, write: Write, j: JobId, e: Entry, author: WorkerId, w: WorkerId, p: Worker)
    requires p.InHand() && HandSound(c, now, e, w, p) && author != w
    requires Decided(write) == Some(j) && e.row.status == Claimed && e.row.workerId == Some(author)
    ensures HandSound(c, now, EntryAfter(now, write, j, e), w, p)
  {
  }

  lemma BatchesSpareHands(c: Config, now: int, write: Write, j: JobId, e: Entry, w: WorkerId, p: Worker)
    requires p.InHand() && HandSound(c, now, e, w, p) && RowSound(now, e.row)
    requires write.PromoteRows? || write.ReclaimRows?
    requires write.PromoteRows? && j in write.batch ==> e.row.status == Pending
    requires write.ReclaimRows? && j in write.stale ==> Stale(c, now, e.row)
    ensures HandSound(c, now, EntryAfter(now, write, j, e), w, p)
  {
  }

  lemma RowsSpareHands(c: Config, now: int, write: Write, j: JobId, e: Entry, w: WorkerId, p: Worker)
    requires p.InHand() && HandSound(c, now, e, w, p) && RowSound(now, e.row)
    requires Decided(write) != Some(j) && !write.PromoteRows? && !write.ReclaimRows?
    requires write.ClaimRow? && write.job == j ==> write.w != w && e.row.status == Queued
    requires write.BeatRow? && write.job == j ==> e.row.status == Claimed
    requires write.BuryReclaimed? && write.job == j ==> e.row.workerId.None?
    requires write.ReplayRow? && write.job == j ==> e.row.status == DeadLettered
    ensures HandSound(c, now, EntryAfter(now, write, j, e), w, p)
  {
  }

  /** A write spares the hands of every worker but its author. */
  lemma OtherHandsSurvive(c: Config, s: State, a: Action, write: Write, w: WorkerId)
    requires EntriesSound(s) && HandsSound(c, s) && w in s.workers && s.workers[w].InHand()
    requires Justified(s, write) && WrittenByOwner(s, a, write) && OthersJustified(c, s, a, write)
    requires a.Work? && a.w == w ==> write.BeatRow? || write.NoWrite?
    ensures var p := s.workers[w];
            HandSound(c, s.now, EntryAfter(s.now, write, p.job, s.jobs[p.job]), w, p)
  {
    var p := s.workers[w];
    var e := s.jobs[p.job];
    assert EntrySound(s.now, s.dlq, p.job, e);
    if Decided(write) == Some(p.job) {
      AnotherOwnerIsNobodysConcern(c, s.now, write, p.job, e, a.w, w, p);
    } else if write.PromoteRows? || write.ReclaimRows? {
      BatchesSpareHands(c, s.now, write, p.job, e, w, p);
    } else {
      RowsSpareHands(c, s.now, write, p.job, e, w, p);
    }
  }

  lemma TimeSparesHands(c: Config, now: int, later: int, e: Entry, w: WorkerId, p: Worker)
    requires p.InHand() && HandSound(c, now, e, w, p) && now <= later
    ensures HandSound(c, later, e, w, p)
  {
  }

  /** Past the fetch a worker carries the same claim and the same view, until it
      has written the outcome. */
  lemma ViewsAreCarriedAlong(c: Config, s: State, w: WorkerId, op: WorkerOp)
    requires Enabled(c, s, Work(w, op)) && !op.Claim? && !op.Fetch?
    ensures var p, step := s.workers[w], WorkerDoes(c, s, w, s.workers[w], op);
            step.next.InHand() ==>
              && p.InHand() && step.next.job == p.job && step.next.epoch == p.epoch
              && (step.next.Holding? ==> step.next == p)
              && (step.next.HasView() ==> p.HasView() && step.next.view == p.view)
              && (step.next.Undecided() ==> step.write.NoWrite? || step.write.BeatRow?)
  {
  }

  /** A claim just taken, or a row just fetched that names its worker, is remembered
      rightly. */
  lemma NewHandsAreSound(c: Config, s: State, w: WorkerId, op: WorkerOp)
    requires Sound(s) && HandsSound(c, s) && Enabled(c, s, Work(w, op)) && !FetchesForeign(c, s, Work(w, op))
    requires op.Claim? || op.Fetch?
    ensures HandAfter(c, s, w, op)
  {
    var p := s.workers[w];
    if op.Fetch? {
      assert EntrySound(s.now, s.dlq, p.job, s.jobs[p.job]);
    }
  }

  predicate HandAfter(c: Config, s: State, w: WorkerId, op: WorkerOp)
    requires Enabled(c, s, Work(w, op))
  {
    var step := WorkerDoes(c, s, w, s.workers[w], op);
    step.next.InHand() ==>
      && step.next.job in s.jobs
      && HandSound(c, s.now, EntryAfter(s.now, step.write, step.next.job, s.jobs[step.next.job]), w, step.next)
  }

  lemma CarriedHandsAreSound(c: Config, now: int, write: Write, e: Entry, w: WorkerId, p: Worker, next: Worker)
    requires p.InHand() && HandSound(c, now, e, w, p) && next.InHand() && next.job == p.job && next.epoch == p.epoch
    requires next.Holding? ==> next == p
    requires next.HasView() ==> p.HasView() && next.view == p.view
    requires next.Undecided() ==> write.NoWrite?
    requires Decided(write) == Some(p.job) ==> IsLive(e, p.epoch) && e.row.workerId == Some(w)
    requires write.NoWrite? || Decided(write).Some?
    ensures HandSound(c, now, EntryAfter(now, write, p.job, e), w, next)
  {
  }

  /** Nor does its author, moving on, misremember what it holds. */
  lemma AuthorsHandIsSound(c: Config, s: State, w: WorkerId, op: WorkerOp)
    requires Sound(s) && HandsSound(c, s) && Enabled(c, s, Work(w, op)) && !FetchesForeign(c, s, Work(w, op))
    requires !op.Beat?
    ensures HandAfter(c, s, w, op)
  {
    if op.Claim? || op.Fetch? {
      NewHandsAreSound(c, s, w, op);
    } else {
      OldHandIsSound(c, s, w, op);
    }
  }

  lemma OldHandIsSound(c: Config, s: State, w: WorkerId, op: WorkerOp)
    requires HandsSound(c, s) && Enabled(c, s, Work(w, op)) && !op.Beat? && !op.Claim? && !op.Fetch?
    ensures HandAfter(c, s, w, op)
  {
    hide HandSound, EntryAfter, WorkerDoes;
    var p, step := s.workers[w], WorkerDoes(c, s, w, s.workers[w], op);
    ViewsAreCarriedAlong(c, s, w, op);
    if step.next.InHand() {
      OutcomesAreWrittenByOwners(c, s, Work(w, op));
      OwnWritesDecide(c, s, w, op);
      CarriedHandsAreSound(c, s.now, step.write, s.jobs[p.job], w, p, step.next);
    }
  }

  lemma OwnWritesDecide(c: Config, s: State, w: WorkerId, op: WorkerOp)
    requires Enabled(c, s, Work(w, op)) && !op.Beat? && !op.Claim?
    ensures var write := WorkerDoes(c, s, w, s.workers[w], op).write;
            write.NoWrite? || Decided(write).Some?
  {
  }

  lemma HandsStaySound(c: Config, s: State, a: Action)
    requires Sound(s) && HandsSound(c, s) && Enabled(c, s, a) && !Apply(c, s, a).foreignFetch
    ensures HandsSound(c, Apply(c, s, a))
  {
    hide HandSound, Justified, WrittenByOwner, OthersJustified, EntryAfter;
    hide RowSound, JobsAfter, DlqAfter, QueueAfter, LocksAfter;
    var t, write := Apply(c, s, a), WriteOf(c, s, a);
    WritesAreJustified(c, s, a);
    OutcomesAreWrittenByOwners(c, s, a);
    OthersAreJustified(c, s, a);
    forall w | w in t.workers && t.workers[w].InHand()
      ensures t.workers[w].job in t.jobs && HandSound(c, t.now, t.jobs[t.workers[w].job], w, t.workers[w])
    {
      if a.Work? && a.w == w && !a.op.Beat? {
        AuthorsHandIsSound(c, s, w, a.op);
        AppliedEntry(c, s, a, t.workers[w].job);
      } else {
        assert t.workers[w] == s.workers[w];
        OtherHandsSurvive(c, s, a, write, w);
        AppliedEntry(c, s, a, s.workers[w].job);
        TimeSparesHands(c, s.now, t.now, t.jobs[t.workers[w].job], w, t.workers[w]);
      }
    }
  }

  // --------------------------------------------------------------- the runs

  /** What holds while every fetched row has named its own worker. */
  predicate Fenced(c: Config, s: State) {
    Sound(s) && HandsSound(c, s)
  }

  lemma FencedStep(c: Config, s: State, a: Action)
    requires Fenced(c, s) && Enabled(c, s, a) && !Apply(c, s, a).foreignFetch
    ensures Fenced(c, Apply(c, s, a))
  {
    HandsStaySound(c, s, a);
    EntriesStaySound(c, s, a);
    ProcessesStaySound(c, s, a);
  }

  lemma {:induction false} ForeignnessSticks(c: Config, s: State, acts: seq<Action>)
    requires Valid(c, s, acts) && !After(c, s, acts).foreignFetch
    ensures !s.foreignFetch
    decreases |acts|
  {
    if acts != [] {
      ForeignnessSticks(c, Apply(c, s, acts[0]), acts[1..]);
    }
  }

  lemma {:induction false} FencedRuns(c: Config, s: State, acts: seq<Action>)
    requires Fenced(c, s) && Valid(c, s, acts) && !After(c, s, acts).foreignFetch
    ensures Fenced(c, After(c, s, acts))
    decreases |acts|
  {
    if acts != [] {
      ForeignnessSticks(c, Apply(c, s, acts[0]), acts[1..]);
      FencedStep(c, s, acts[0]);
      FencedRuns(c, Apply(c, s, acts[0]), acts[1..]);
    }
  }

  /** A fetch within the heartbeat timeout of its claim finds the claim in force. */
  lemma PromptFetchesAreOwn(c: Config, s: State, a: Action)
    requires Fenced(c, s) && Enabled(c, s, a) && !FetchesLate(c, s, a)
    ensures !FetchesForeign(c, s, a)
  {
    hide Sound;
    if a.Work? && a.op.Fetch? {
      assert HandSound(c, s.now, s.jobs[s.workers[a.w].job], a.w, s.workers[a.w]);
    }
  }

  lemma {:induction false} PromptRunsStayOwn(c: Config, s: State, acts: seq<Action>)
    requires Fenced(c, s) && !s.foreignFetch && Valid(c, s, acts) && !After(c, s, acts).lateFetch
    ensures !s.lateFetch && !After(c, s, acts).foreignFetch
    decreases |acts|
  {
    if acts != [] {
      var t := Apply(c, s, acts[0]);
      LatenessSticks(c, t, acts[1..]);
      PromptFetchesAreOwn(c, s, acts[0]);
      FencedStep(c, s, acts[0]);
      PromptRunsStayOwn(c, t, acts[1..]);
    }
  }

  lemma {:induction false} LatenessSticks(c: Config, s: State, acts: seq<Action>)
    requires Valid(c, s, acts) && !After(c, s, acts).lateFetch
    ensures !s.lateFetch
    decreases |acts|
  {
    if acts != [] {
      LatenessSticks(c, Apply(c, s, acts[0]), acts[1..]);
    }
  }

  /** What a caller can see to: if every fetch comes within the heartbeat timeout of
      its claim, every fetched row names its own worker. */
  lemma PromptRunsFetchTheirOwn(c: Config, s: State)
    requires Reachable(c, s) && !s.lateFetch
    ensures !s.foreignFetch
  {
    var start: int, acts :| Leads(c, Initial(start), acts, s);
    PromptRunsStayOwn(c, Initial(start), acts);
  }

  lemma FencedIsReached(c: Config, s: State)
    requires Reachable(c, s) && !s.foreignFetch
    ensures Fenced(c, s)
  {
    var start: int, acts :| Leads(c, Initial(start), acts, s);
    FencedRuns(c, Initial(start), acts);
  }
}
