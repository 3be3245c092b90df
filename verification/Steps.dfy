/** The steps of workers and schedulers, seen component by component. */
module Steps {
  import opened Types
  import opened Scores
  import opened Protocol

  /** A worker's step, seen store by store. */
  predicate StoresAfter(s: State, write: Write, command: Command, t: State) {
    && t.jobs == JobsAfter(s.now, write, s.jobs)
    && t.dlq == DlqAfter(write, s.dlq) && t.keys == KeysAfter(write, s.keys)
    && t.queue == QueueAfter(command, s.queue) && t.locks == LocksAfter(command, s.locks)
    && t.counters == CountersAfter(s.now, command, s.counters)
  }

  predicate SaidAfter(events: seq<Event>, said: Option<Event>, after: seq<Event>) {
    after == if said.Some? then events + [said.value] else events
  }

  lemma WorkerSteps(c: Config, s: State, w: WorkerId, op: WorkerOp)
    requires w in s.workers && CanWork(s, s.workers[w], op)
    ensures Enabled(c, s, Work(w, op))
    ensures var step, t := WorkerDoes(c, s, w, s.workers[w], op), Apply(c, s, Work(w, op));
            && StoresAfter(s, step.write, step.command, t) && SaidAfter(s.events, step.said, t.events)
            && WriteOf(c, s, Work(w, op)) == step.write && t.now == s.now
            && t.workers == s.workers[w := step.next] && t.schedulers == s.schedulers && t.replies == s.replies
            && t.tampered == s.tampered
            && t.foreignFetch == (s.foreignFetch || (op.Fetch? && s.jobs[s.workers[w].job].row.workerId != Some(w)))
            && t.lateFetch == (s.lateFetch || (op.Fetch? && s.now > s.workers[w].since + c.heartbeatTimeout))
  {
    hide WorkerDoes, CanWork, JobsAfter, DlqAfter, KeysAfter, QueueAfter, LocksAfter, CountersAfter;
  }

  lemma SchedulerSteps(c: Config, s: State, d: SchedulerId, op: SchedulerOp)
    requires d in s.schedulers && CanSchedule(c, s, s.schedulers[d], op)
    ensures Enabled(c, s, Schedule(d, op))
    ensures var step, t := SchedulerDoes(c, s, s.schedulers[d], op), Apply(c, s, Schedule(d, op));
            && StoresAfter(s, step.write, step.command, t) && SaidAfter(s.events, step.said, t.events)
            && WriteOf(c, s, Schedule(d, op)) == step.write && t.now == s.now
            && t.workers == s.workers && t.schedulers == s.schedulers[d := step.next]
            && t.replies == s.replies && t.foreignFetch == s.foreignFetch && t.lateFetch == s.lateFetch
            && t.expiredKey == s.expiredKey && t.tampered == s.tampered
  {
    hide SchedulerDoes, CanSchedule, JobsAfter, DlqAfter, KeysAfter, QueueAfter, LocksAfter, CountersAfter;
  }

  lemma ApiSteps(c: Config, s: State, op: ApiOp)
    requires CanServe(s, op)
    ensures Enabled(c, s, Api(op))
    ensures var write, t := ApiWrites(c, s, op), Apply(c, s, Api(op));
            && t.jobs == JobsAfter(s.now, write, s.jobs) && t.keys == KeysAfter(write, s.keys) && t.dlq == s.dlq
            && t.queue == s.queue && t.locks == s.locks && t.counters == s.counters
            && t.replies == RepliesAfter(s, op) && t.now == s.now && t.events == s.events
            && t.workers == s.workers && t.schedulers == s.schedulers && t.foreignFetch == s.foreignFetch
  {
    hide CanServe, JobsAfter, KeysAfter;
  }

  lemma IsMember(rows: map<JobId, Ticket>, slot: Slot)
    ensures slot in Members(rows) <==> slot.job in rows && rows[slot.job].priority == slot.tier
    ensures slot in Members(rows) ==> Members(rows)[slot] == PriorityScore(slot.tier, rows[slot.job].sendAt)
  {
    if slot.job in rows && rows[slot.job].priority == slot.tier {
      assert slot == Slot(rows[slot.job].priority, slot.job);
    }
  }

  lemma {:induction false} FreshIdsExist(used: set<nat>) returns (bound: nat)
    ensures forall id | id in used :: id < bound
    decreases |used|
  {
    if used == {} {
      bound := 0;
    } else {
      var id :| id in used;
      assert |used - {id}| == |used| - 1;
      bound := FreshIdsExist(used - {id});
      bound := if id < bound then bound else id + 1;
      assert used == (used - {id}) + {id};
    }
  }
}
