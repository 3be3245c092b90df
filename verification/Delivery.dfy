/** `sent` happens once, is final, and is announced at most once; and what undoes
    it otherwise. */
module Delivery {
  import opened Types
  import opened Protocol
  import opened Columns
  import opened Fencing
  import opened Announcing

  // ----------------------------------------------------------- sent is final

  /** One step leaves the row of a sent job as it is, burials included, although
      the dead-letter update tests no status. */
  lemma SentRowsStay(c: Config, s: State, a: Action, j: JobId)
    requires Fenced(c, s) && Enabled(c, s, a) && j in s.jobs
    requires s.jobs[j].row.status == Sent
    ensures EntryAfter(s.now, WriteOf(c, s, a), j, s.jobs[j]).row == s.jobs[j].row
    ensures EntryAfter(s.now, WriteOf(c, s, a), j, s.jobs[j]).h.sends == s.jobs[j].h.sends
  {
    WritesAreJustified(c, s, a);
    OutcomesAreWrittenByOwners(c, s, a);
    OthersAreJustified(c, s, a);
  }

  lemma {:induction false} SentStays(c: Config, s: State, acts: seq<Action>, j: JobId)
    requires Fenced(c, s) && Valid(c, s, acts) && !After(c, s, acts).foreignFetch
    requires j in s.jobs && s.jobs[j].row.status == Sent
    ensures j in After(c, s, acts).jobs && After(c, s, acts).jobs[j].row == s.jobs[j].row
    decreases |acts|
  {
    if acts != [] {
      var t := Apply(c, s, acts[0]);
      ForeignnessSticks(c, t, acts[1..]);
      SentRowsStay(c, s, acts[0], j);
      AppliedEntry(c, s, acts[0], j);
      FencedStep(c, s, acts[0]);
      SentStays(c, t, acts[1..], j);
    }
  }

  /** In every run whose fetched rows name their own workers, whatever else happens,
      a job once sent keeps its row for ever. */
  lemma SentIsFinal(c: Config, s: State, acts: seq<Action>, j: JobId)
    requires Reachable(c, s) && Valid(c, s, acts) && !After(c, s, acts).foreignFetch
    requires j in s.jobs && s.jobs[j].row.status == Sent
    ensures j in After(c, s, acts).jobs && After(c, s, acts).jobs[j].row == s.jobs[j].row
  {
    ForeignnessSticks(c, s, acts);
    FencedIsReached(c, s);
    SentStays(c, s, acts, j);
  }

  /** A failure at the cap, reported by a worker that fetched a row naming the
      very worker that has sent the job. */
  predicate UndoesTheSent(c: Config, s: State, a: Action, j: JobId)
    requires j in s.jobs
  {
    && c.fence == ByWorkerId && a.Work? && a.op.Fail? && a.w in s.workers && s.workers[a.w].Allowed?
    && var p := s.workers[a.w];
       && p.job == j && p.view.attempts + 1 >= p.view.maxAttempts
       && p.view.workerId == s.jobs[j].row.workerId
  }

  /** Whatever was fetched, in every reachable state: exactly one kind of step touches a
      sent row, since the dead-letter update alone tests no status. */
  lemma SentRowsChangeIff(c: Config, s: State, a: Action, j: JobId)
    requires Reachable(c, s) && Enabled(c, s, a)
    requires j in s.jobs && s.jobs[j].row.status == Sent
    ensures j in Apply(c, s, a).jobs
    ensures Apply(c, s, a).jobs[j].row != s.jobs[j].row <==> UndoesTheSent(c, s, a, j)
  {
    hide Apply, Reachable, ProcessesSound;
    ReachableIsSound(c, s);
    AppliedEntry(c, s, a, j);
    assert EntrySound(s.now, s.dlq, j, s.jobs[j]);
    WritesToTheSent(c, s, a, j);
  }

  lemma WritesToTheSent(c: Config, s: State, a: Action, j: JobId)
    requires Enabled(c, s, a)
    requires j in s.jobs && s.jobs[j].row.status == Sent && s.jobs[j].row.workerId.Some?
    ensures EntryAfter(s.now, WriteOf(c, s, a), j, s.jobs[j]).row != s.jobs[j].row <==> UndoesTheSent(c, s, a, j)
  {
    WritesAreJustified(c, s, a);
    if a.Work? && a.op.Fail? && s.workers[a.w].job == j {
      assert WriteOf(c, s, a) == HandleFailure(c, s.jobs[j], s.workers[a.w], a.op.at).write;
    }
  }

  // --------------------------------------- how often, whatever was fetched

  predicate Undoing(c: Config, s: State, a: Action, j: JobId) {
    j in s.jobs && s.jobs[j].row.status == Sent && UndoesTheSent(c, s, a, j)
  }

  /** The steps of the run that undid `sent`. */
  function Undoings(c: Config, s: State, acts: seq<Action>, j: JobId): nat
    requires Valid(c, s, acts)
    decreases |acts|
  {
    if acts == [] then 0 else One(Undoing(c, s, acts[0], j)) + Undoings(c, Apply(c, s, acts[0]), acts[1..], j)
  }

  predicate IsSentNow(s: State, j: JobId) {
    j in s.jobs && s.jobs[j].row.status == Sent
  }

  lemma WritesSendOnce(s: State, write: Write, j: JobId)
    requires Justified(s, write) && j in s.jobs
    ensures var e, f := s.jobs[j], EntryAfter(s.now, write, j, s.jobs[j]);
            && f.h.sends == e.h.sends + One(write == SendRow(j))
            && (f.row.status == Sent <==> write == SendRow(j) || (e.row.status == Sent && f.row == e.row))
            && (write == SendRow(j) ==> e.row.status == Claimed)
            && (f.row.sentAt.Some? <==> e.row.sentAt.Some? || write == SendRow(j))
  {
  }

  lemma SendsMove(c: Config, s: State, a: Action, j: JobId)
    requires Reachable(c, s) && Enabled(c, s, a)
    ensures var t := Apply(c, s, a);
            Sends(t, j) + One(IsSentNow(s, j)) == Sends(s, j) + One(IsSentNow(t, j)) + One(Undoing(c, s, a, j))
  {
    hide Reachable, Enabled, Apply, WriteOf, EntryAfter, UndoesTheSent, Justified;
    WritesAreJustified(c, s, a);
    if j in s.jobs {
      AppliedEntry(c, s, a, j);
      WritesSendOnce(s, WriteOf(c, s, a), j);
      if s.jobs[j].row.status == Sent { SentRowsChangeIff(c, s, a, j); }
    } else if j in Apply(c, s, a).jobs {
      AddedJobsAreFresh(c, s, a, j);
    }
  }

  lemma {:induction false} RunsMoveSends(c: Config, s: State, acts: seq<Action>, j: JobId)
    requires Reachable(c, s) && Valid(c, s, acts)
    ensures var t := After(c, s, acts);
            Sends(t, j) + One(IsSentNow(s, j)) == Sends(s, j) + One(IsSentNow(t, j)) + Undoings(c, s, acts, j)
    decreases |acts|
  {
    hide Reachable, Enabled, Apply, Undoing, Sends, IsSentNow;
    if acts != [] {
      SendsMove(c, s, acts[0], j);
      OneStepFurther(c, s, acts[0]);
      RunsMoveSends(c, Apply(c, s, acts[0]), acts[1..], j);
    }
  }

  /** Every run, whatever was fetched: a job was marked sent once if it is sent now,
      and once more for each step that undid it. */
  lemma SendsAreCounted(c: Config, start: int, acts: seq<Action>, s: State, j: JobId)
    requires Leads(c, Initial(start), acts, s) && j in s.jobs
    ensures s.jobs[j].h.sends == One(s.jobs[j].row.status == Sent) + Undoings(c, Initial(start), acts, j)
  {
    hide Enabled, Apply, Undoings;
    assert Leads(c, Initial(start), [], Initial(start));
    RunsMoveSends(c, Initial(start), acts, j);
  }

  // ------------------------------------------- and how often it is announced

  /** `sent_at` remembers whether the job was ever marked sent. */
  predicate SentAtSound(e: Entry) {
    e.row.sentAt.Some? <==> e.h.sends >= 1
  }

  lemma {:induction false} RunsKeepSentAt(c: Config, s: State, acts: seq<Action>)
    requires Valid(c, s, acts) && forall j | j in s.jobs :: SentAtSound(s.jobs[j])
    ensures forall j | j in After(c, s, acts).jobs :: SentAtSound(After(c, s, acts).jobs[j])
    decreases |acts|
  {
    hide Enabled, Apply, WriteOf, EntryAfter, SentAtSound;
    if acts != [] {
      var t := Apply(c, s, acts[0]);
      forall j | j in t.jobs ensures SentAtSound(t.jobs[j]) {
        SentAtStaysSound(c, s, acts[0], j);
      }
      RunsKeepSentAt(c, t, acts[1..]);
    }
  }

  lemma SentAtStaysSound(c: Config, s: State, a: Action, j: JobId)
    requires Enabled(c, s, a) && j in Apply(c, s, a).jobs && (j in s.jobs ==> SentAtSound(s.jobs[j]))
    ensures SentAtSound(Apply(c, s, a).jobs[j])
  {
    hide Enabled, Apply, WriteOf, EntryAfter;
    WritesAreJustified(c, s, a);
    if j in s.jobs {
      AppliedEntry(c, s, a, j);
      WritesSendOnce(s, WriteOf(c, s, a), j);
    } else {
      AddedJobsAreFresh(c, s, a, j);
    }
  }

  /** In every reachable state, whatever was fetched: `sent` is announced at most as
      often as the job was marked sent, counting those about to announce it, and
      `sent_at` is set if and only if it ever was. */
  lemma NoticesNeverOutnumberSends(c: Config, s: State, j: JobId)
    requires Reachable(c, s) && j in s.jobs
    ensures Notices(s.events, Event(j, SentEvent)) + |Tellers(s.workers, Event(j, SentEvent))| <= s.jobs[j].h.sends
    ensures s.jobs[j].row.sentAt.Some? <==> s.jobs[j].h.sends >= 1
  {
    hide Enabled, Apply, Losses, Notices, Tellers, BurialTellers;
    var start: int, acts :| Leads(c, Initial(start), acts, s);
    RecordsMatchTheirNotices(c, start, acts, s, j);
    RunsKeepSentAt(c, Initial(start), acts);
    assert SentAtSound(s.jobs[j]);
  }

  // --------------------------------------------- with own fetches, just once

  lemma NothingIsUndone(c: Config, s: State, a: Action, j: JobId)
    requires Fenced(c, s) && Reachable(c, s) && Enabled(c, s, a)
    ensures !Undoing(c, s, a, j)
  {
    hide Reachable, Fenced, Enabled, Apply, WriteOf, EntryAfter, UndoesTheSent;
    if j in s.jobs && s.jobs[j].row.status == Sent {
      SentRowsChangeIff(c, s, a, j);
      SentRowsStay(c, s, a, j);
      AppliedEntry(c, s, a, j);
    }
  }

  lemma {:induction false} RunsUndoNothing(c: Config, s: State, acts: seq<Action>, j: JobId)
    requires Fenced(c, s) && Reachable(c, s) && Valid(c, s, acts) && !After(c, s, acts).foreignFetch
    ensures Undoings(c, s, acts, j) == 0
    decreases |acts|
  {
    hide Fenced, Reachable, Enabled, Apply, Undoing;
    if acts != [] {
      ForeignnessSticks(c, Apply(c, s, acts[0]), acts[1..]);
      NothingIsUndone(c, s, acts[0], j);
      FencedStep(c, s, acts[0]);
      OneStepFurther(c, s, acts[0]);
      RunsUndoNothing(c, Apply(c, s, acts[0]), acts[1..], j);
    }
  }

  /** However many workers and schedulers run: a job is marked sent at most once
      in its life, replays included, and `sent` is announced at most once, only
      of a job that is sent. */
  lemma SentAtMostOnce(c: Config, s: State, j: JobId)
    requires Reachable(c, s) && !s.foreignFetch && j in s.jobs
    ensures s.jobs[j].h.sends == One(s.jobs[j].row.status == Sent)
    ensures s.jobs[j].row.sentAt.Some? <==> s.jobs[j].row.status == Sent
    ensures Notices(s.events, Event(j, SentEvent)) <= One(s.jobs[j].row.status == Sent)
  {
    hide Enabled, Apply, Undoings, Tellers;
    var start: int, acts :| Leads(c, Initial(start), acts, s);
    assert Leads(c, Initial(start), [], Initial(start));
    RunsUndoNothing(c, Initial(start), acts, j);
    SendsAreCounted(c, start, acts, s, j);
    NoticesNeverOutnumberSends(c, s, j);
  }
}
