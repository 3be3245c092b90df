/** Exponential backoff over a whole run. */
module Pacing {
  import opened Types
  import opened Statements
  import opened Protocol
  import opened Columns
  import opened Fencing

  /** The delays before the retries numbered 1 to m, added up. */
  function Waits(c: Config, m: nat): nat {
    if m == 0 then 0 else Waits(c, m - 1) + Backoff(c, m)
  }

  lemma {:induction false} WaitsInClosedForm(c: Config, m: nat)
    ensures Waits(c, m) == c.baseDelay * (Pow2(m) - 1)
  {
    if m > 0 {
      WaitsInClosedForm(c, m - 1);
    }
  }

  /** No attempt after m failures starts before this. */
  function Ready(c: Config, h: History, m: nat): int {
    h.firstFailure + Waits(c, m) - m * c.lookahead
  }

  /** A reclaim between failures only makes the next backoff longer. */
  lemma {:induction false} BackoffGrows(c: Config, m: nat, n: nat)
    requires 1 <= m <= n
    ensures Backoff(c, m) <= Backoff(c, n)
    decreases n
  {
    if m < n {
      BackoffGrows(c, m, n - 1);
      assert Pow2(n - 1) == 2 * Pow2(n - 2);
      assert c.baseDelay * Pow2(n - 1) == 2 * (c.baseDelay * Pow2(n - 2));
    }
  }

  lemma ReadyMovesOn(c: Config, h: History, m: nat)
    ensures Ready(c, h, m + 1) == Ready(c, h, m) + Backoff(c, m + 1) - c.lookahead
    ensures Ready(c, h, 0) == h.firstFailure
  {
    assert (m + 1) * c.lookahead == m * c.lookahead + c.lookahead;
  }

  lemma ReadyIsAboutTheFirst(c: Config, g: History, h: History, m: nat)
    requires g.firstFailure == h.firstFailure
    ensures Ready(c, g, m) == Ready(c, h, m)
  {
  }

  predicate PaceSound(c: Config, now: int, e: Entry) {
    && (e.row.status != DeadLettered ==> e.row.attempts >= e.h.failures)
    && (e.h.failures >= 1 ==>
          && e.h.lastFailure >= Ready(c, e.h, e.h.failures - 1)
          && var ready := Ready(c, e.h, e.h.failures);
             && (e.row.status == Pending ==> e.row.sendAt >= ready + c.lookahead || now >= ready)
             && (e.row.status == Queued ==> now >= ready)
             && (e.row.status == Claimed ==> e.row.claimedAt.Some? && e.row.claimedAt.value >= ready))
  }

  /** Work on a claim begins no earlier than the claim. */
  predicate HandPaced(e: Entry, p: Worker) {
    p.Undecided() && IsLive(e, p.epoch) ==> e.row.claimedAt.Some? && e.row.claimedAt.value <= p.since
  }

  predicate PacesSound(c: Config, s: State) {
    && (forall j | j in s.jobs :: PaceSound(c, s.now, s.jobs[j]))
    && (forall w | w in s.workers && s.workers[w].InHand() ::
          s.workers[w].job in s.jobs && HandPaced(s.jobs[s.workers[w].job], s.workers[w]))
  }

  /** What a reported failure finds, and what it writes. */
  predicate FailsInTime(c: Config, s: State, write: Write) {
    match write
    case RetryRow(j, attempt, failedAt, next) =>
      && j in s.jobs && s.jobs[j].row.status == Claimed && s.jobs[j].row.claimedAt.Some?
      && s.jobs[j].row.claimedAt.value <= failedAt
      && attempt == s.jobs[j].row.attempts + 1 && next == failedAt + Backoff(c, attempt)
    case BuryFailed(j, _, attempt, failedAt) =>
      && j in s.jobs && s.jobs[j].row.status == Claimed && s.jobs[j].row.claimedAt.Some?
      && s.jobs[j].row.claimedAt.value <= failedAt
    case PromoteRows(batch) => forall j | j in batch :: j in s.jobs && Due(c, s.now, s.jobs[j].row)
    case _ => true
  }

  lemma FailuresComeInTime(c: Config, s: State, w: WorkerId, at: int)
    requires Fenced(c, s) && PacesSound(c, s) && Enabled(c, s, Work(w, Fail(at)))
    ensures FailsInTime(c, s, HandleFailure(c, s.jobs[s.workers[w].job], s.workers[w], at).write)
  {
    FencesMatchTheClaim(c, s.now, s.jobs[s.workers[w].job], w, s.workers[w]);
  }

  lemma WritesComeInTime(c: Config, s: State, a: Action)
    requires Fenced(c, s) && PacesSound(c, s) && Enabled(c, s, a)
    ensures FailsInTime(c, s, WriteOf(c, s, a))
  {
    hide Fenced, PacesSound, FailsInTime, HandleFailure;
    if a.Work? && a.op.Fail? {
      FailuresComeInTime(c, s, a.w, a.op.at);
    } else {
      OthersReportNoFailure(c, s, a);
    }
  }

  lemma OthersReportNoFailure(c: Config, s: State, a: Action)
    requires Enabled(c, s, a) && !(a.Work? && a.op.Fail?)
    ensures FailsInTime(c, s, WriteOf(c, s, a))
  {
    assert !WriteOf(c, s, a).RetryRow? && !WriteOf(c, s, a).BuryFailed?;
  }

  lemma EntriesStayPaced(c: Config, s: State, write: Write, j: JobId)
    requires EntriesSound(s) && Justified(s, write) && FailsInTime(c, s, write) && j in s.jobs
    requires PaceSound(c, s.now, s.jobs[j])
    ensures PaceSound(c, s.now, EntryAfter(s.now, write, j, s.jobs[j]))
  {
    hide CountsSound;
    assert EntrySound(s.now, s.dlq, j, s.jobs[j]);
    if write.RetryRow? || write.BuryFailed? {
      FailuresStayPaced(c, s, write, j);
    } else {
      OthersStayPaced(c, s, write, j);
    }
  }

  lemma FailuresStayPaced(c: Config, s: State, write: Write, j: JobId)
    requires write.RetryRow? || write.BuryFailed?
    requires FailsInTime(c, s, write) && j in s.jobs && PaceSound(c, s.now, s.jobs[j])
    ensures PaceSound(c, s.now, EntryAfter(s.now, write, j, s.jobs[j]))
  {
    hide Ready, Backoff;
    var h, g := s.jobs[j].h, EntryAfter(s.now, write, j, s.jobs[j]).h;
    ReadyMovesOn(c, g, h.failures);
    if h.failures >= 1 { ReadyIsAboutTheFirst(c, h, g, h.failures); }
    if write.RetryRow? && write.job == j { BackoffGrows(c, h.failures + 1, write.attempt); }
  }

  lemma OthersStayPaced(c: Config, s: State, write: Write, j: JobId)
    requires !write.RetryRow? && !write.BuryFailed?
    requires Justified(s, write) && FailsInTime(c, s, write) && j in s.jobs
    requires RowSound(s.now, s.jobs[j].row) && PaceSound(c, s.now, s.jobs[j])
    ensures PaceSound(c, s.now, EntryAfter(s.now, write, j, s.jobs[j]))
  {
    hide Waits, Backoff;
  }

  lemma WorkersMoveNow(c: Config, s: State, w: WorkerId, op: WorkerOp)
    requires Enabled(c, s, Work(w, op))
    ensures var next := WorkerDoes(c, s, w, s.workers[w], op).next;
            next.Undecided() ==> next == s.workers[w] || next.since == s.now
  {
  }

  lemma ClaimTimesStay(s: State, write: Write, j: JobId, epoch: nat)
    requires Justified(s, write) && j in s.jobs && epoch <= s.jobs[j].h.claims
    ensures var e, e' := s.jobs[j], EntryAfter(s.now, write, j, s.jobs[j]);
            IsLive(e', epoch) ==> IsLive(e, epoch) && e'.row.claimedAt == e.row.claimedAt
  {
  }

  lemma HandsStayPaced(c: Config, s: State, a: Action, w: WorkerId)
    requires Fenced(c, s) && PacesSound(c, s) && Enabled(c, s, a) && !Apply(c, s, a).foreignFetch
    requires w in Apply(c, s, a).workers && Apply(c, s, a).workers[w].InHand()
    ensures var p := Apply(c, s, a).workers[w];
            p.job in s.jobs && HandPaced(EntryAfter(s.now, WriteOf(c, s, a), p.job, s.jobs[p.job]), p)
  {
    hide JobsAfter, DlqAfter, KeysAfter, QueueAfter, LocksAfter, CountersAfter, PaceSound;
    var p := Apply(c, s, a).workers[w];
    if a.Work? && a.w == w {
      WorkersMoveNow(c, s, w, a.op);
      WorkerStaysSound(c, s, w, a.op);
    }
    WritesAreJustified(c, s, a);
    EntryStaysSound(s, WriteOf(c, s, a), p.job, s.jobs[p.job]);
    if w in s.workers && p == s.workers[w] {
      ClaimTimesStay(s, WriteOf(c, s, a), p.job, p.epoch);
    }
  }

  lemma PacesStaySound(c: Config, s: State, a: Action)
    requires Fenced(c, s) && PacesSound(c, s) && Enabled(c, s, a) && !Apply(c, s, a).foreignFetch
    ensures PacesSound(c, Apply(c, s, a))
  {
    var t := Apply(c, s, a);
    JobsOnlyGrow(c, s, a);
    WritesAreJustified(c, s, a);
    WritesComeInTime(c, s, a);
    forall j | j in t.jobs ensures PaceSound(c, t.now, t.jobs[j]) {
      if j in s.jobs {
        AppliedEntry(c, s, a, j);
        EntriesStayPaced(c, s, WriteOf(c, s, a), j);
      } else {
        AddedJobsAreFresh(c, s, a, j);
      }
    }
    forall w | w in t.workers && t.workers[w].InHand()
      ensures t.workers[w].job in t.jobs && HandPaced(t.jobs[t.workers[w].job], t.workers[w])
    {
      HandsStayPaced(c, s, a, w);
      AppliedEntry(c, s, a, t.workers[w].job);
    }
  }

  lemma {:induction false} RunsStayPaced(c: Config, s: State, acts: seq<Action>)
    requires Fenced(c, s) && PacesSound(c, s) && Valid(c, s, acts) && !After(c, s, acts).foreignFetch
    ensures PacesSound(c, After(c, s, acts))
    decreases |acts|
  {
    if acts != [] {
      ForeignnessSticks(c, Apply(c, s, acts[0]), acts[1..]);
      FencedStep(c, s, acts[0]);
      PacesStaySound(c, s, acts[0]);
      RunsStayPaced(c, Apply(c, s, acts[0]), acts[1..]);
    }
  }

  lemma PaceHolds(c: Config, s: State, j: JobId)
    requires Reachable(c, s) && !s.foreignFetch && j in s.jobs
    ensures PaceSound(c, s.now, s.jobs[j])
  {
    hide Enabled, Apply, PaceSound, HandPaced, HandSound, EntrySound;
    var start: int, acts :| Leads(c, Initial(start), acts, s);
    RunsStayPaced(c, Initial(start), acts);
  }

  /** A job that has failed m times spread its failures over at least
      base * (2^(m-1) - 1), less the lookahead each retry may be early by, with
      any deferrals and reclaims in between. */
  lemma RetriesArePaced(c: Config, s: State, j: JobId, m: nat)
    requires Reachable(c, s) && !s.foreignFetch && j in s.jobs
    requires s.jobs[j].h.failures == m >= 1
    ensures s.jobs[j].h.lastFailure - s.jobs[j].h.firstFailure
            >= c.baseDelay * (Pow2(m - 1) - 1) - (m - 1) * c.lookahead
  {
    hide Reachable, Pow2;
    PaceHolds(c, s, j);
    WaitsInClosedForm(c, m - 1);
  }
}
