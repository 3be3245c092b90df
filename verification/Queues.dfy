/** Three sorted sets, scanned from high to low, against one ordered by score. */
module Queues {
  import opened Types
  import opened Statements
  import opened Scores
  import opened Protocol
  import opened Columns

  /** The instant a queue entry's score stands for. */
  function Instant(slot: Slot, score: int): int {
    score - Weight(slot.tier) * SECOND
  }

  /** `floor` bounds every instant from below; the upper bound is the protocol's
      own doing: only due jobs are ever enqueued. */
  predicate InstantsSound(c: Config, floor: int, s: State) {
    && floor <= s.now
    && (forall slot | slot in s.queue :: floor <= Instant(slot, s.queue[slot]) <= s.now + c.lookahead)
    && (forall j | j in s.jobs :: floor <= s.jobs[j].row.sendAt)
    && (forall j | j in s.jobs && s.jobs[j].row.status == Queued :: s.jobs[j].row.sendAt <= s.now + c.lookahead)
    && (forall w | w in s.workers && (s.workers[w].Undecided()) :: floor <= s.workers[w].since)
    && (forall w | w in s.workers && s.workers[w].Refused? :: s.workers[w].retryAfter >= 0)
    && (forall d | d in s.schedulers && (s.schedulers[d].Promoted? || s.schedulers[d].Requeueing?) ::
          TicketsSound(c, floor, s.now, s.schedulers[d].batch))
  }

  predicate TicketsSound(c: Config, floor: int, now: int, batch: map<JobId, Ticket>) {
    forall j | j in batch :: floor <= batch[j].sendAt <= now + c.lookahead
  }

  /** No job is submitted for an instant before `floor`. */
  predicate SubmitsAfter(floor: int, a: Action) {
    a.Api? && a.aop.Submit? ==> a.aop.sendAt >= floor
  }

  /** What a write can put into `send_at`. */
  predicate InstantsWritten(c: Config, floor: int, s: State, write: Write) {
    match write
    case Insert(_, row, _) => row.sendAt >= floor && row.status == Pending
    case RetryRow(_, _, _, next) => next >= floor
    case DeferRow(_, next) => next >= floor
    case PromoteRows(batch) => forall j | j in batch :: j in s.jobs && Due(c, s.now, s.jobs[j].row)
    case _ => true
  }

  lemma WorkersWriteInstants(c: Config, floor: int, s: State, w: WorkerId, op: WorkerOp)
    requires InstantsSound(c, floor, s) && Enabled(c, s, Work(w, op))
    ensures InstantsWritten(c, floor, s, WorkerDoes(c, s, w, s.workers[w], op).write)
  {
  }

  lemma WorkersMoveInstants(c: Config, floor: int, s: State, w: WorkerId, op: WorkerOp)
    requires InstantsSound(c, floor, s) && Enabled(c, s, Work(w, op))
    ensures var next := WorkerDoes(c, s, w, s.workers[w], op).next;
            && (next.Undecided() ==> floor <= next.since)
            && (next.Refused? ==> next.retryAfter >= 0)
  {
  }

  lemma WritesHaveInstants(c: Config, floor: int, s: State, a: Action)
    requires InstantsSound(c, floor, s) && Enabled(c, s, a) && SubmitsAfter(floor, a)
    ensures InstantsWritten(c, floor, s, WriteOf(c, s, a))
  {
    if a.Work? { WorkersWriteInstants(c, floor, s, a.w, a.op); }
  }

  lemma EntriesKeepInstants(c: Config, floor: int, s: State, write: Write, j: JobId)
    requires InstantsSound(c, floor, s) && InstantsWritten(c, floor, s, write) && j in s.jobs
    ensures var r := EntryAfter(s.now, write, j, s.jobs[j]).row;
            floor <= r.sendAt && (r.status == Queued ==> r.sendAt <= s.now + c.lookahead)
  {
  }

  lemma SchedulersKeepInstants(c: Config, floor: int, s: State, d: SchedulerId, op: SchedulerOp)
    requires InstantsSound(c, floor, s) && Enabled(c, s, Schedule(d, op))
    ensures var next := SchedulerDoes(c, s, s.schedulers[d], op).next;
            next.Promoted? || next.Requeueing? ==> TicketsSound(c, floor, s.now, next.batch)
  {
  }

  lemma QueueKeepsInstants(c: Config, floor: int, s: State, a: Action, slot: Slot)
    requires InstantsSound(c, floor, s) && Enabled(c, s, a) && !a.Tamper?
    requires slot in QueueAfter(CommandOf(c, s, a), s.queue)
    ensures floor <= Instant(slot, QueueAfter(CommandOf(c, s, a), s.queue)[slot]) <= s.now + c.lookahead
  {
    if CommandOf(c, s, a).Add? && slot in CommandOf(c, s, a).members {
      assert TicketsSound(c, floor, s.now, s.schedulers[a.d].batch);
    }
  }

  lemma QueuesKeepInstants(c: Config, floor: int, s: State, a: Action)
    requires InstantsSound(c, floor, s) && Enabled(c, s, a) && !a.Tamper?
    ensures var t := Apply(c, s, a);
            forall slot | slot in t.queue :: floor <= Instant(slot, t.queue[slot]) <= t.now + c.lookahead
  {
    hide InstantsSound, QueueAfter;
    var t := Apply(c, s, a);
    forall slot | slot in t.queue ensures floor <= Instant(slot, t.queue[slot]) <= t.now + c.lookahead {
      QueueKeepsInstants(c, floor, s, a, slot);
    }
  }

  lemma RowsKeepInstants(c: Config, floor: int, s: State, a: Action)
    requires InstantsSound(c, floor, s) && Enabled(c, s, a) && SubmitsAfter(floor, a)
    ensures var t := Apply(c, s, a);
            && (forall j | j in t.jobs :: floor <= t.jobs[j].row.sendAt)
            && (forall j | j in t.jobs && t.jobs[j].row.status == Queued :: t.jobs[j].row.sendAt <= t.now + c.lookahead)
  {
    hide InstantsSound, InstantsWritten, EntryAfter;
    var t := Apply(c, s, a);
    WritesHaveInstants(c, floor, s, a);
    forall j | j in t.jobs
      ensures floor <= t.jobs[j].row.sendAt
      ensures t.jobs[j].row.status == Queued ==> t.jobs[j].row.sendAt <= t.now + c.lookahead
    {
      if j in s.jobs {
        AppliedEntry(c, s, a, j);
        EntriesKeepInstants(c, floor, s, WriteOf(c, s, a), j);
      } else {
        AddedJobsAreFresh(c, s, a, j);
      }
    }
  }

  lemma InstantsStaySound(c: Config, floor: int, s: State, a: Action)
    requires InstantsSound(c, floor, s) && Enabled(c, s, a) && SubmitsAfter(floor, a) && !a.Tamper?
    ensures InstantsSound(c, floor, Apply(c, s, a))
  {
    hide InstantsWritten, WorkerDoes, SchedulerDoes, CanWork, CanSchedule, JobsAfter, QueueAfter;
    QueuesKeepInstants(c, floor, s, a);
    RowsKeepInstants(c, floor, s, a);
    if a.Work? { WorkersMoveInstants(c, floor, s, a.w, a.op); }
    if a.Schedule? { SchedulersKeepInstants(c, floor, s, a.d, a.sop); }
  }

  lemma {:induction false} RunsKeepInstants(c: Config, floor: int, s: State, acts: seq<Action>)
    requires InstantsSound(c, floor, s) && Valid(c, s, acts)
    requires forall i | 0 <= i < |acts| :: SubmitsAfter(floor, acts[i]) && !acts[i].Tamper?
    ensures InstantsSound(c, floor, After(c, s, acts))
    decreases |acts|
  {
    if acts != [] {
      InstantsStaySound(c, floor, s, acts[0]);
      RunsKeepInstants(c, floor, Apply(c, s, acts[0]), acts[1..]);
    }
  }

  /** What a scan of the three queues, high to low, comes upon first. */
  predicate IsScanned(queue: map<Slot, int>, slot: Slot) {
    && (forall other | other in queue :: Rank(other.tier) >= Rank(slot.tier))
    && IsHead(queue, slot)
  }

  /** What one sorted set holding all the entries would pop. */
  predicate IsLeast(queue: map<Slot, int>, slot: Slot) {
    slot in queue && forall other | other in queue :: queue[slot] <= queue[other]
  }

  /** In a run nobody interfered with, scanning three queues picks just what one
      queue ordered by the composite score would, ties included: the instants
      behind the scores stay under the weight between two priorities although
      the API accepts any later date. */
  lemma ThreeQueuesAreOne(c: Config, start: int, acts: seq<Action>, s: State, slot: Slot)
    requires Leads(c, Initial(start), acts, s) && start >= 0
    requires forall i | 0 <= i < |acts| :: SubmitsAfter(0, acts[i]) && !acts[i].Tamper?
    requires s.now + c.lookahead < HORIZON
    ensures IsScanned(s.queue, slot) <==> IsLeast(s.queue, slot)
  {
    hide Enabled, Apply;
    RunsKeepInstants(c, 0, Initial(start), acts);
    forall other | other in s.queue && slot in s.queue
      ensures s.queue[slot] < s.queue[other]
              <==> Before(slot.tier, Instant(slot, s.queue[slot]), other.tier, Instant(other, s.queue[other]))
    {
      ScoreOrdersLikeThePair(slot.tier, Instant(slot, s.queue[slot]), other.tier, Instant(other, s.queue[other]));
    }
    if IsScanned(s.queue, slot) {
      assert forall other | other in s.queue ::
          !Before(other.tier, Instant(other, s.queue[other]), slot.tier, Instant(slot, s.queue[slot]));
    }
  }

  // ------------------------------------------------ as steps of the protocol

  /** Worker `w` scans on, finding queues empty, while nobody touches them. */
  predicate ScansOn(c: Config, s: State, acts: seq<Action>, w: WorkerId)
    requires Valid(c, s, acts)
    decreases |acts|
  {
    acts == []
    || (&& (acts[0] == Work(w, Pop(None)) || IsByOthers(c, s, acts[0], w))
        && Apply(c, s, acts[0]).queue == s.queue
        && ScansOn(c, Apply(c, s, acts[0]), acts[1..], w))
  }

  predicate IsByOthers(c: Config, s: State, a: Action, w: WorkerId)
    requires Enabled(c, s, a)
  {
    w in s.workers && w in Apply(c, s, a).workers && Apply(c, s, a).workers[w] == s.workers[w]
  }

  /** The queues before the one the scan stands at are empty. */
  predicate HasScanned(s: State, w: WorkerId) {
    && w in s.workers && s.workers[w].Scanning?
    && forall slot | slot in s.queue :: Rank(slot.tier) >= Rank(s.workers[w].tier)
  }

  lemma EmptyQueuesArePassed(c: Config, s: State, w: WorkerId)
    requires HasScanned(s, w) && Enabled(c, s, Work(w, Pop(None)))
    ensures HasScanned(Apply(c, s, Work(w, Pop(None))), w)
  {
  }

  lemma {:induction false} ScansComeUponTheFirst(c: Config, s: State, acts: seq<Action>, t: State, w: WorkerId)
    requires HasScanned(s, w) && Leads(c, s, acts, t) && ScansOn(c, s, acts, w)
    ensures HasScanned(t, w) && t.queue == s.queue
    decreases |acts|
  {
    hide Enabled, Apply;
    if acts != [] {
      if acts[0] == Work(w, Pop(None)) { EmptyQueuesArePassed(c, s, w); }
      ScansComeUponTheFirst(c, Apply(c, s, acts[0]), acts[1..], t, w);
    }
  }

  /** What a scan that nobody disturbs pops is what comes first across the three
      queues, and all it takes. */
  lemma ScansPopTheFirst(c: Config, s: State, acts: seq<Action>, t: State, w: WorkerId, j: JobId)
    requires w in s.workers && s.workers[w] == Scanning(High)
    requires Leads(c, s, acts, t) && ScansOn(c, s, acts, w) && Enabled(c, t, Work(w, Pop(Some(j))))
    ensures var slot := Slot(t.workers[w].tier, j);
            IsScanned(s.queue, slot) && Apply(c, t, Work(w, Pop(Some(j)))).queue == s.queue - {slot}
  {
    ScansComeUponTheFirst(c, s, acts, t, w);
  }

  /** So, in a run with Redis left alone, a worker's undisturbed scan pops what one
      queue ordered by score would. */
  lemma ScansPopTheLeast(
      c: Config, start: int, before: seq<Action>, s: State, acts: seq<Action>, t: State, w: WorkerId, j: JobId)
    requires Leads(c, Initial(start), before, s) && start >= 0
    requires forall i | 0 <= i < |before| :: SubmitsAfter(0, before[i]) && !before[i].Tamper?
    requires s.now + c.lookahead < HORIZON
    requires w in s.workers && s.workers[w] == Scanning(High)
    requires Leads(c, s, acts, t) && ScansOn(c, s, acts, w) && Enabled(c, t, Work(w, Pop(Some(j))))
    ensures IsLeast(s.queue, Slot(t.workers[w].tier, j))
  {
    hide Apply, Leads, ScansOn, IsScanned, IsLeast;
    ScansPopTheFirst(c, s, acts, t, w, j);
    ThreeQueuesAreOne(c, start, before, s, Slot(t.workers[w].tier, j));
  }
}
