/** `fire_webhook`: every outcome is announced once, unless the process that is to
    announce it fails first. */
module Announcing {
  import opened Types
  import opened Protocol
  import opened Columns
  import opened Ledger

  function Notices(events: seq<Event>, e: Event): nat {
    if events == [] then 0
    else Notices(events[..|events| - 1], e) + (if events[|events| - 1] == e then 1 else 0)
  }

  lemma NoticesAfter(events: seq<Event>, more: Event, e: Event)
    ensures Notices(events + [more], e) == Notices(events, e) + (if more == e then 1 else 0)
  {
    assert (events + [more])[..|events|] == events;
  }

  /** What a write gives occasion to announce. */
  function NewsOf(write: Write): Option<Event> {
    match write
    case SendRow(j) => Some(Event(j, SentEvent))
    case RetryRow(j, _, _, _) => Some(Event(j, FailedEvent))
    case BuryFailed(j, _, _, _) => Some(Event(j, DeadLetteredEvent))
    case BuryReclaimed(j, _, _) => Some(Event(j, DeadLetteredEvent))
    case _ => None
  }

  /** About to announce `e`. */
  predicate Tells(p: Worker, e: Event) {
    || (p.Releasing? && p.job == e.job && p.news == Some(e.kind))
    || (p.Announcing? && p.job == e.job && p.event == e.kind)
  }

  predicate TellsOfBurial(p: Scheduler, e: Event) {
    (p.Unlocking? || p.Telling?) && p.job == e.job && e.kind == DeadLetteredEvent
  }

  function Tellers(workers: map<WorkerId, Worker>, e: Event): set<WorkerId> {
    set w | w in workers && Tells(workers[w], e)
  }

  function BurialTellers(schedulers: map<SchedulerId, Scheduler>, e: Event): set<SchedulerId> {
    set d | d in schedulers && TellsOfBurial(schedulers[d], e)
  }

  /** The step is the failure of a process that was about to announce `e`. */
  predicate LosesNews(s: State, a: Action, e: Event) {
    || (a.Work? && (a.op.Abort? || a.op.Crash?) && a.w in s.workers && Tells(s.workers[a.w], e))
    || (a.Schedule? && a.sop.AbortTick? && a.d in s.schedulers && TellsOfBurial(s.schedulers[a.d], e))
  }

  /** The steps of the run with something like `e` to announce. */
  function Occasions(c: Config, s: State, acts: seq<Action>, e: Event): nat
    requires Valid(c, s, acts)
    decreases |acts|
  {
    if acts == [] then 0
    else One(NewsOf(WriteOf(c, s, acts[0])) == Some(e)) + Occasions(c, Apply(c, s, acts[0]), acts[1..], e)
  }

  function Losses(c: Config, s: State, acts: seq<Action>, e: Event): nat
    requires Valid(c, s, acts)
    decreases |acts|
  {
    if acts == [] then 0 else One(LosesNews(s, acts[0], e)) + Losses(c, Apply(c, s, acts[0]), acts[1..], e)
  }

  /** Announced, or about to be. */
  function Told(s: State, e: Event): nat {
    Notices(s.events, e) + |Tellers(s.workers, e)| + |BurialTellers(s.schedulers, e)|
  }

  lemma TellersMove(workers: map<WorkerId, Worker>, w: WorkerId, next: Worker, e: Event)
    requires w in workers
    ensures |Tellers(workers[w := next], e)| + One(Tells(workers[w], e)) == |Tellers(workers, e)| + One(Tells(next, e))
  {
    hide Tells;
    var before, after := Tellers(workers, e), Tellers(workers[w := next], e);
    var others := before - {w};
    assert after == if Tells(next, e) then others + {w} else others;
    assert |before| == |others| + One(w in before);
    assert |after| == |others| + One(Tells(next, e));
  }

  lemma BurialTellersMove(schedulers: map<SchedulerId, Scheduler>, d: SchedulerId, next: Scheduler, e: Event)
    requires d in schedulers
    ensures |BurialTellers(schedulers[d := next], e)| + One(TellsOfBurial(schedulers[d], e))
            == |BurialTellers(schedulers, e)| + One(TellsOfBurial(next, e))
  {
    hide TellsOfBurial;
    var before, after := BurialTellers(schedulers, e), BurialTellers(schedulers[d := next], e);
    var others := before - {d};
    assert after == if TellsOfBurial(next, e) then others + {d} else others;
    assert |before| == |others| + One(d in before);
    assert |after| == |others| + One(TellsOfBurial(next, e));
  }

  /** Who begins to tell has just written; who ends has just said so, or failed. */
  lemma WorkersTellWhatTheyWrote(c: Config, s: State, w: WorkerId, op: WorkerOp, e: Event)
    requires Enabled(c, s, Work(w, op))
    ensures var p, step := s.workers[w], WorkerDoes(c, s, w, s.workers[w], op);
            One(Tells(step.next, e)) + One(step.said == Some(e)) + One(LosesNews(s, Work(w, op), e))
            == One(Tells(p, e)) + One(NewsOf(step.write) == Some(e))
  {
  }

  lemma SchedulersTellWhatTheyWrote(c: Config, s: State, d: SchedulerId, op: SchedulerOp, e: Event)
    requires Enabled(c, s, Schedule(d, op))
    ensures var p, step := s.schedulers[d], SchedulerDoes(c, s, s.schedulers[d], op);
            One(TellsOfBurial(step.next, e)) + One(step.said == Some(e)) + One(LosesNews(s, Schedule(d, op), e))
            == One(TellsOfBurial(p, e)) + One(NewsOf(step.write) == Some(e))
  {
    hide DueIn, StaleIn, StrandedIn, IsPromotable, IsLimited, Tickets, Members, RowsReset;
  }

  lemma OthersTellNothing(c: Config, s: State, a: Action, e: Event)
    requires Enabled(c, s, a) && !a.Work? && !a.Schedule?
    ensures SaidBy(c, s, a).None? && NewsOf(WriteOf(c, s, a)).None?
    ensures Tellers(Apply(c, s, a).workers, e) == Tellers(s.workers, e)
    ensures BurialTellers(Apply(c, s, a).schedulers, e) == BurialTellers(s.schedulers, e)
  {
  }

  lemma EventsFollow(c: Config, s: State, a: Action, e: Event)
    requires Enabled(c, s, a)
    ensures Notices(Apply(c, s, a).events, e) == Notices(s.events, e) + One(SaidBy(c, s, a) == Some(e))
    ensures a.Work? ==>
              && Apply(c, s, a).workers == s.workers[a.w := WorkerDoes(c, s, a.w, s.workers[a.w], a.op).next]
              && Apply(c, s, a).schedulers == s.schedulers
    ensures a.Schedule? ==>
              && Apply(c, s, a).schedulers == s.schedulers[a.d := SchedulerDoes(c, s, s.schedulers[a.d], a.sop).next]
              && Apply(c, s, a).workers == s.workers
  {
    hide Notices, WorkerDoes, SchedulerDoes, JobsAfter, DlqAfter, QueueAfter, LocksAfter;
    if SaidBy(c, s, a).Some? { NoticesAfter(s.events, SaidBy(c, s, a).value, e); }
  }

  lemma ToldMoves(c: Config, s: State, a: Action, e: Event)
    requires Enabled(c, s, a)
    ensures Told(Apply(c, s, a), e) + One(LosesNews(s, a, e)) == Told(s, e) + One(NewsOf(WriteOf(c, s, a)) == Some(e))
  {
    hide Apply, Notices, Tellers, BurialTellers, Tells, TellsOfBurial, WorkerDoes, SchedulerDoes, NewsOf;
    EventsFollow(c, s, a, e);
    match a
    case Work(w, op) =>
      WorkersTellWhatTheyWrote(c, s, w, op, e);
      TellersMove(s.workers, w, WorkerDoes(c, s, w, s.workers[w], op).next, e);
    case Schedule(d, op) =>
      SchedulersTellWhatTheyWrote(c, s, d, op, e);
      BurialTellersMove(s.schedulers, d, SchedulerDoes(c, s, s.schedulers[d], op).next, e);
    case _ => OthersTellNothing(c, s, a, e);
  }

  lemma {:induction false} RunsTell(c: Config, s: State, acts: seq<Action>, e: Event)
    requires Valid(c, s, acts)
    ensures Told(After(c, s, acts), e) + Losses(c, s, acts, e) == Told(s, e) + Occasions(c, s, acts, e)
    decreases |acts|
  {
    hide Enabled, Apply, WriteOf, Told, LosesNews, NewsOf;
    if acts != [] {
      ToldMoves(c, s, acts[0], e);
      RunsTell(c, Apply(c, s, acts[0]), acts[1..], e);
    }
  }

  /** Every run, whatever was fetched: each send, each retry and each burial of a job
      is announced exactly once, is about to be, or was lost with the process that
      was to announce it. */
  lemma OutcomesAreAnnouncedOnce(c: Config, start: int, acts: seq<Action>, s: State, e: Event)
    requires Leads(c, Initial(start), acts, s)
    ensures Occasions(c, Initial(start), acts, e)
            == Notices(s.events, e) + |Tellers(s.workers, e)| + |BurialTellers(s.schedulers, e)|
               + Losses(c, Initial(start), acts, e)
  {
    hide Enabled, Apply, Occasions, Losses;
    assert Tellers(map[], e) == {} && BurialTellers(map[], e) == {};
    RunsTell(c, Initial(start), acts, e);
  }

  // ------------------------------------------- the occasions are on record

  lemma LettersFollowNews(write: Write, dlq: seq<DeadLetter>, j: JobId)
    ensures DlqRows(DlqAfter(write, dlq), j)
            == DlqRows(dlq, j) + One(NewsOf(write) == Some(Event(j, DeadLetteredEvent)))
  {
    hide DlqRows, DlqAfter;
    BurialsAddOneRow(write, dlq, j);
  }

  lemma {:induction false} LettersAreOccasions(c: Config, s: State, acts: seq<Action>, j: JobId)
    requires Valid(c, s, acts)
    ensures DlqRows(After(c, s, acts).dlq, j)
            == DlqRows(s.dlq, j) + Occasions(c, s, acts, Event(j, DeadLetteredEvent))
    decreases |acts|
  {
    hide Enabled, WriteOf, NewsOf, DlqRows;
    if acts != [] {
      LettersFollowNews(WriteOf(c, s, acts[0]), s.dlq, j);
      LettersAreOccasions(c, Apply(c, s, acts[0]), acts[1..], j);
    }
  }

  function Sends(s: State, j: JobId): nat {
    if j in s.jobs then s.jobs[j].h.sends else 0
  }

  lemma SendsFollowNews(c: Config, s: State, a: Action, j: JobId)
    requires Enabled(c, s, a)
    ensures Sends(Apply(c, s, a), j) == Sends(s, j) + One(NewsOf(WriteOf(c, s, a)) == Some(Event(j, SentEvent)))
  {
    hide Enabled, Apply, WriteOf;
    WritesAreJustified(c, s, a);
    if j in s.jobs {
      AppliedEntry(c, s, a, j);
    } else if j in Apply(c, s, a).jobs {
      AddedJobsAreFresh(c, s, a, j);
    }
  }

  lemma {:induction false} SendsAreOccasions(c: Config, s: State, acts: seq<Action>, j: JobId)
    requires Valid(c, s, acts)
    ensures Sends(After(c, s, acts), j) == Sends(s, j) + Occasions(c, s, acts, Event(j, SentEvent))
    decreases |acts|
  {
    hide Enabled, Apply, WriteOf, NewsOf, Sends;
    if acts != [] {
      SendsFollowNews(c, s, acts[0], j);
      SendsAreOccasions(c, Apply(c, s, acts[0]), acts[1..], j);
    }
  }

  /** So the dead-letter rows of a job are its `dead_lettered` webhooks, fired, about
      to be fired or lost; and the times it was marked sent its `sent` webhooks. */
  lemma RecordsMatchTheirNotices(c: Config, start: int, acts: seq<Action>, s: State, j: JobId)
    requires Leads(c, Initial(start), acts, s) && j in s.jobs
    ensures var e := Event(j, DeadLetteredEvent);
            DlqRows(s.dlq, j)
            == Notices(s.events, e) + |Tellers(s.workers, e)| + |BurialTellers(s.schedulers, e)|
               + Losses(c, Initial(start), acts, e)
    ensures var e := Event(j, SentEvent);
            s.jobs[j].h.sends
            == Notices(s.events, e) + |Tellers(s.workers, e)| + Losses(c, Initial(start), acts, e)
  {
    hide Enabled, Apply, Occasions, Losses, DlqAfter;
    LettersAreOccasions(c, Initial(start), acts, j);
    SendsAreOccasions(c, Initial(start), acts, j);
    OutcomesAreAnnouncedOnce(c, start, acts, s, Event(j, DeadLetteredEvent));
    OutcomesAreAnnouncedOnce(c, start, acts, s, Event(j, SentEvent));
    assert BurialTellers(s.schedulers, Event(j, SentEvent)) == {};
  }
}
