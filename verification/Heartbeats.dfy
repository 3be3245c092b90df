/** Recovery takes the silent, and only them. */
module Heartbeats {
  import opened Types
  import opened Statements
  import opened Protocol
  import opened Columns
  import opened Fencing

  lemma RecoveryResets(c: Config, t: State, d: SchedulerId, j: JobId)
    requires Enabled(c, t, Schedule(d, Recover)) && j in t.jobs
    ensures j in Apply(c, t, Schedule(d, Recover)).jobs
    ensures Apply(c, t, Schedule(d, Recover)).jobs[j]
            == if Stale(c, t.now, t.jobs[j].row) then EntryAfter(t.now, ReclaimRows({j}), j, t.jobs[j]) else t.jobs[j]
  {
    hide Apply;
    AppliedEntry(c, t, Schedule(d, Recover), j);
  }

  /** One recovery step resets every claim silent for longer than the timeout,
      charging it an attempt, and touches nothing else. */
  lemma RecoveryTakesExactlyTheSilent(c: Config, s: State, d: SchedulerId, j: JobId)
    requires Reachable(c, s) && Enabled(c, s, Schedule(d, Recover)) && j in s.jobs
    ensures s.jobs[j].row.status == Claimed ==> s.jobs[j].row.heartbeatAt.Some?
    ensures j in Apply(c, s, Schedule(d, Recover)).jobs
    ensures var r, q := s.jobs[j].row, Apply(c, s, Schedule(d, Recover)).jobs[j].row;
            if r.status == Claimed && r.heartbeatAt.value < s.now - c.heartbeatTimeout then
              q.status == Pending && q.attempts == r.attempts + 1 && q.workerId.None? && q.sendAt == r.sendAt
            else q == r
  {
    hide Apply, Reachable, ProcessesSound;
    ReachableIsSound(c, s);
    RecoveryResets(c, s, d, j);
  }

  predicate BeatenSince(e: Entry, epoch: nat, t: int) {
    IsOver(e, epoch) || (IsLive(e, epoch) && e.row.heartbeatAt.Some? && e.row.heartbeatAt.value >= t)
  }

  lemma BeatsAreNotForgotten(c: Config, s: State, a: Action, j: JobId, epoch: nat, t: int)
    requires EntriesSound(s) && Enabled(c, s, a) && j in s.jobs && t <= s.now
    requires BeatenSince(s.jobs[j], epoch, t)
    ensures j in Apply(c, s, a).jobs && BeatenSince(Apply(c, s, a).jobs[j], epoch, t)
  {
    WritesAreJustified(c, s, a);
    AppliedEntry(c, s, a, j);
  }

  lemma {:induction false} RunsRememberBeats(c: Config, s: State, acts: seq<Action>, j: JobId, epoch: nat, t: int)
    requires EntriesSound(s) && Valid(c, s, acts) && j in s.jobs && t <= s.now
    requires BeatenSince(s.jobs[j], epoch, t)
    ensures EntriesSound(After(c, s, acts)) && j in After(c, s, acts).jobs
    ensures BeatenSince(After(c, s, acts).jobs[j], epoch, t)
    decreases |acts|
  {
    if acts != [] {
      EntriesStaySound(c, s, acts[0]);
      JobsOnlyGrow(c, s, acts[0]);
      BeatsAreNotForgotten(c, s, acts[0], j, epoch, t);
      RunsRememberBeats(c, Apply(c, s, acts[0]), acts[1..], j, epoch, t);
    }
  }

  /** A step that commits a claim of `j`, or a heartbeat on it. */
  predicate Beats(c: Config, s: State, a: Action, j: JobId)
    requires Enabled(c, s, a)
  {
    WriteOf(c, s, a) == BeatRow(j) || (WriteOf(c, s, a).ClaimRow? && WriteOf(c, s, a).job == j)
  }

  lemma BeatsBeginNow(c: Config, s: State, a: Action, j: JobId)
    requires EntriesSound(s) && Enabled(c, s, a) && Beats(c, s, a, j)
    ensures j in s.jobs && j in Apply(c, s, a).jobs && s.now == Apply(c, s, a).now
    ensures BeatenSince(Apply(c, s, a).jobs[j], Apply(c, s, a).jobs[j].h.claims, s.now)
  {
    WritesAreJustified(c, s, a);
    AppliedEntry(c, s, a, j);
  }

  lemma RecoverySparesTheBeaten(c: Config, t: State, d: SchedulerId, j: JobId, epoch: nat, at: int)
    requires Enabled(c, t, Schedule(d, Recover)) && j in t.jobs && t.now <= at + c.heartbeatTimeout
    requires BeatenSince(t.jobs[j], epoch, at) && IsLive(t.jobs[j], epoch)
    ensures j in Apply(c, t, Schedule(d, Recover)).jobs && Apply(c, t, Schedule(d, Recover)).jobs[j] == t.jobs[j]
  {
    AppliedEntry(c, t, Schedule(d, Recover), j);
  }

  /** Whoever committed its claim or a heartbeat at some instant is not reclaimed
      within the timeout of it, in any run; so a worker whose write gaps never
      exceed the timeout never loses its job. */
  lemma TheLivelyAreSpared(
      c: Config, s: State, a: Action, u: State, acts: seq<Action>, t: State, d: SchedulerId, j: JobId)
    requires Reachable(c, s) && Enabled(c, s, a) && Beats(c, s, a, j) && u == Apply(c, s, a)
    requires Leads(c, u, acts, t) && Enabled(c, t, Schedule(d, Recover))
    requires t.now <= s.now + c.heartbeatTimeout
    requires j in u.jobs && j in t.jobs && IsLive(t.jobs[j], u.jobs[j].h.claims)
    ensures j in Apply(c, t, Schedule(d, Recover)).jobs && Apply(c, t, Schedule(d, Recover)).jobs[j] == t.jobs[j]
  {
    ReachableIsSound(c, s);
    BeatsBeginNow(c, s, a, j);
    EntriesStaySound(c, s, a);
    RunsRememberBeats(c, u, acts, j, u.jobs[j].h.claims, s.now);
    RecoverySparesTheBeaten(c, t, d, j, u.jobs[j].h.claims, s.now);
  }

  /** No step of the run claims `j` or refreshes it. */
  predicate IsQuiet(c: Config, s: State, acts: seq<Action>, j: JobId)
    requires Valid(c, s, acts)
    decreases |acts|
  {
    acts == [] || (!Beats(c, s, acts[0], j) && IsQuiet(c, Apply(c, s, acts[0]), acts[1..], j))
  }

  /** Claim `epoch` is the last there was; if it is in force, it was last heard of
      at `t`. */
  predicate LastHeard(e: Entry, epoch: nat, t: int) {
    e.h.claims == epoch && (e.row.status == Claimed ==> e.row.heartbeatAt == Some(t))
  }

  lemma SilenceIsKept(c: Config, s: State, a: Action, j: JobId, epoch: nat, t: int)
    requires EntriesSound(s) && Enabled(c, s, a) && j in s.jobs && LastHeard(s.jobs[j], epoch, t) && !Beats(c, s, a, j)
    ensures j in Apply(c, s, a).jobs && LastHeard(Apply(c, s, a).jobs[j], epoch, t)
  {
    hide Apply;
    WritesAreJustified(c, s, a);
    AppliedEntry(c, s, a, j);
  }

  lemma {:induction false} QuietRunsKeepSilence(c: Config, s: State, acts: seq<Action>, j: JobId, epoch: nat, t: int)
    requires EntriesSound(s) && Valid(c, s, acts) && IsQuiet(c, s, acts, j)
    requires j in s.jobs && LastHeard(s.jobs[j], epoch, t)
    ensures j in After(c, s, acts).jobs && LastHeard(After(c, s, acts).jobs[j], epoch, t)
    decreases |acts|
  {
    hide Enabled, Apply, EntriesSound, LastHeard;
    if acts != [] {
      EntriesStaySound(c, s, acts[0]);
      SilenceIsKept(c, s, acts[0], j, epoch, t);
      QuietRunsKeepSilence(c, Apply(c, s, acts[0]), acts[1..], j, epoch, t);
    }
  }

  lemma BeatsAreHeard(c: Config, s: State, a: Action, j: JobId)
    requires EntriesSound(s) && Enabled(c, s, a) && Beats(c, s, a, j)
    ensures j in s.jobs && j in Apply(c, s, a).jobs
    ensures LastHeard(Apply(c, s, a).jobs[j], Apply(c, s, a).jobs[j].h.claims, s.now)
  {
    hide Apply;
    WritesAreJustified(c, s, a);
    AppliedEntry(c, s, a, j);
  }

  /** The whole law. After the last step of a run to claim a job or refresh it, the
      next recovery resets the claim, and charges an attempt, if and only if more
      than the timeout has passed since that step. */
  lemma SilenceIsReclaimedIffTooLong(
      c: Config, s: State, a: Action, u: State, acts: seq<Action>, t: State, d: SchedulerId, j: JobId)
    requires Reachable(c, s) && Enabled(c, s, a) && Beats(c, s, a, j) && u == Apply(c, s, a)
    requires Leads(c, u, acts, t) && IsQuiet(c, u, acts, j) && Enabled(c, t, Schedule(d, Recover))
    requires j in t.jobs && t.jobs[j].row.status == Claimed
    ensures j in Apply(c, t, Schedule(d, Recover)).jobs
    ensures var e, f := t.jobs[j], Apply(c, t, Schedule(d, Recover)).jobs[j];
            && (f.row.status != Claimed <==> t.now > s.now + c.heartbeatTimeout)
            && (f.row.status != Claimed ==>
                  f.row.status == Pending && f.row.attempts == e.row.attempts + 1 && f.h.reclaims == e.h.reclaims + 1)
            && (f.row.status == Claimed ==> f == e)
  {
    hide Apply, Enabled, Reachable, ProcessesSound, RowSound, CountsSound, Beats, IsQuiet;
    ReachableIsSound(c, s);
    BeatsAreHeard(c, s, a, j);
    EntriesStaySound(c, s, a);
    QuietRunsKeepSilence(c, u, acts, j, u.jobs[j].h.claims, s.now);
    RecoveryResets(c, t, d, j);
  }

  /** A heartbeat never refreshes anyone else's claim, nor an earlier or later
      claim of the same worker. */
  lemma HeartbeatsAreOnesOwn(c: Config, s: State, w: WorkerId)
    requires Reachable(c, s) && Enabled(c, s, Work(w, Beat))
    ensures var p := s.workers[w];
            && (WriteOf(c, s, Work(w, Beat)).BeatRow? <==> IsLive(s.jobs[p.job], p.epoch))
            && (IsLive(s.jobs[p.job], p.epoch) ==> s.jobs[p.job].row.workerId == Some(w))
  {
    hide Reachable;
    CoreIsReached(c, s);
    assert HandCore(s.jobs[s.workers[w].job], w, s.workers[w]);
  }
}
