/** `worker_loop` and the heartbeat task that runs beside each delivery. */
module Working {
  import opened Types
  import opened Statements
  import opened Protocol
  import opened Columns
  import opened Fencing
  import opened Heartbeats
  import opened Store
  import opened Steps
  import opened Cluster
  import opened Claiming
  import opened Delivering

  // ------------------------------------------------------------- heartbeat

  /** If the claim is still in force, its heartbeat is no older than `at`. */
  predicate Beaten(s: State, id: JobId, epoch: nat, at: int) {
    id in s.jobs && at <= s.now && BeatenSince(s.jobs[id], epoch, at)
  }

  lemma BeatenForGood(c: Config, s: State, acts: seq<Action>, t: State, id: JobId, epoch: nat, at: int)
    requires Reachable(c, s) && Leads(c, s, acts, t) && Beaten(s, id, epoch, at)
    ensures Beaten(t, id, epoch, at)
  {
    hide Enabled, Apply, RowSound, CountsSound, BeatenSince;
    ReachableIsSound(c, s);
    RunsRememberBeats(c, s, acts, id, epoch, at);
    RunsEvolve(c, s, acts, t);
  }

  /** A heartbeat finds its claim in force and refreshes it, or finds it over. */
  lemma BeatsLand(c: Config, s: State, w: WorkerId)
    requires Reachable(c, s) && Enabled(c, s, Work(w, Beat))
    ensures var p, t := s.workers[w], Apply(c, s, Work(w, Beat));
            p.job in t.jobs && BeatenSince(t.jobs[p.job], p.epoch, s.now)
  {
    hide Apply, EntryAfter, BeatenSince;
    CoreIsReached(c, s);
    var p := s.workers[w];
    assert HandCore(s.jobs[p.job], w, p);
    BeatsRefresh(s.now, s.jobs[p.job], w, p);
    AppliedEntry(c, s, Work(w, Beat), p.job);
  }

  lemma BeatsRefresh(now: int, e: Entry, w: WorkerId, p: Worker)
    requires p.InHand() && HandCore(e, w, p)
    ensures var write := if OwnedBy(e.row, Some(w)) then BeatRow(p.job) else NoWrite;
            BeatenSince(EntryAfter(now, write, p.job, e), p.epoch, now)
  {
  }

  lemma BeatsDo(c: Config, s: State, w: WorkerId, updated: bool)
    requires w in s.workers && s.workers[w].InHand() && s.workers[w].job in s.jobs
    requires updated == OwnedBy(s.jobs[s.workers[w].job].row, Some(w))
    ensures CanWork(s, s.workers[w], Beat)
    ensures WorkerDoes(c, s, w, s.workers[w], Beat)
            == if updated then Writes(s.workers[w], BeatRow(s.workers[w].job)) else Goes(s.workers[w])
  {
  }

  /** `pool.execute(UPDATE_HEARTBEAT, ...)`: others act before it, and it may raise. */
  method BeatOnce(cl: Cluster, w: WorkerId, id: JobId, ghost epoch: nat) returns (r: Outcome<()>)
    requires cl.Valid() && w in cl.workers && SameClaim(Finishing(id, epoch), cl.workers[w])
    modifies cl, cl.db, cl.redis
    ensures cl.Valid() && cl.Continues()
    ensures w in cl.workers && SameClaim(Finishing(id, epoch), cl.workers[w])
    ensures r.Ok? ==> Beaten(cl.Snapshot(), id, epoch, cl.now)
    ensures r.Ok? ==> Times(cl.trace, Work(w, Beat)) > Times(old(cl.trace), Work(w, Beat))
    ensures r.Raised? ==>
              forall at :: old(Beaten(cl.Snapshot(), id, epoch, at)) ==> Beaten(cl.Snapshot(), id, epoch, at)
  {
    hide cl.RanTo, cl.Claims, TookStep, Apply, Sound, Reachable, WorkerDoes, CanWork, JobsAfter, Beaten, Times;
    Rest(cl, w, id, epoch);
    TimesOnlyGrow(old(cl.trace), cl.trace, Work(w, Beat));
    var raises: bool := *;
    if raises {
      return Raised;
    }
    var before := cl.Snapshot();
    cl.IsReachable();
    cl.HoldsAJob(w);
    var updated := cl.db.Heartbeat(cl.now, id, w);
    BeatsDo(cl.c, before, w, updated);
    WorkerSteps(cl.c, before, w, Beat);
    BeatsLand(cl.c, before, w);
    OnceMore(cl.trace, Work(w, Beat));
    cl.Worked(w, Beat, before);
    BeatenNow(cl.Snapshot(), id, epoch);
    r := Ok(());
  }

  lemma OnceMore(trace: seq<Action>, a: Action)
    ensures Times(trace + [a], a) == Times(trace, a) + 1
  {
  }

  lemma BeatenNow(s: State, id: JobId, epoch: nat)
    requires id in s.jobs && BeatenSince(s.jobs[id], epoch, s.now)
    ensures Beaten(s, id, epoch, s.now)
  {
  }

  /** `asyncio.wait_for(stop.wait(), timeout=interval)`, and any other await of this
      task: what has been beaten stays so. */
  method Rest(cl: Cluster, w: WorkerId, id: JobId, ghost epoch: nat)
    requires cl.Valid() && w in cl.workers && SameClaim(Finishing(id, epoch), cl.workers[w])
    modifies cl, cl.db, cl.redis
    ensures cl.Valid() && cl.Continues()
    ensures w in cl.workers && SameClaim(Finishing(id, epoch), cl.workers[w])
    ensures forall at :: old(Beaten(cl.Snapshot(), id, epoch, at)) ==> Beaten(cl.Snapshot(), id, epoch, at)
  {
    hide cl.RanTo, cl.Claims, Reachable, Leads, Evolves, Beaten;
    cl.Interleave(TheHeartbeat(w));
    cl.WentOn();
    forall at | old(Beaten(cl.Snapshot(), id, epoch, at)) ensures Beaten(cl.Snapshot(), id, epoch, at) {
      BeatenForGood(cl.c, old(cl.Snapshot()), cl.trace[|old(cl.trace)|..], cl.Snapshot(), id, epoch, at);
    }
  }

  /** `heartbeat_loop`, for `rounds` rounds, until `stop` is set or until an update
      raises, which ends the task and leaves the claim to fall silent. `last` is
      the instant of the last round completed: the claim served has either ended
      or been refreshed no earlier. A loop that ends before the delivery does has
      beaten in every round. */
  method HeartbeatLoop(cl: Cluster, w: WorkerId, id: JobId, ghost epoch: nat, rounds: nat)
    returns (r: Outcome<()>, last: Option<int>)
    requires cl.Valid() && w in cl.workers && SameClaim(Finishing(id, epoch), cl.workers[w])
    modifies cl, cl.db, cl.redis
    ensures cl.Valid() && cl.Continues()
    ensures w in cl.workers && SameClaim(Finishing(id, epoch), cl.workers[w])
    ensures last.Some? ==> old(cl.now) <= last.value && Beaten(cl.Snapshot(), id, epoch, last.value)
    ensures r.Ok? && last.None? ==> rounds == 0 || old(cl.workers[w].Finishing?)
    ensures r.Ok? && !cl.workers[w].Finishing? ==>
              Times(cl.trace, Work(w, Beat)) >= Times(old(cl.trace), Work(w, Beat)) + rounds
  {
    hide cl.Valid, Beaten, Times;
    last := None;
    var i := 0;
    while !cl.workers[w].Finishing? && i < rounds
      invariant cl.Valid() && cl.Continues()
      invariant w in cl.workers && SameClaim(Finishing(id, epoch), cl.workers[w])
      invariant last.Some? ==> old(cl.now) <= last.value && Beaten(cl.Snapshot(), id, epoch, last.value)
      invariant last.None? ==> i == 0 && cl.workers[w] == old(cl.workers[w])
      invariant i <= rounds && Times(cl.trace, Work(w, Beat)) >= Times(old(cl.trace), Work(w, Beat)) + i
      decreases rounds - i
    {
      r := BeatOnce(cl, w, id, epoch);
      if r.Raised? {
        return;
      }
      last := Some(cl.now);
      ghost var trace := cl.trace;
      Rest(cl, w, id, epoch);
      TimesOnlyGrow(trace, cl.trace, Work(w, Beat));
      i := i + 1;
    }
    r := Ok(());
  }

  // ----------------------------------------------------------- worker loop

  lemma StartsScanning(c: Config, s: State, w: WorkerId)
    requires w !in s.workers
    ensures Enabled(c, s, StartWorker(w))
    ensures Apply(c, s, StartWorker(w)) == s.(workers := s.workers[w := Scanning(High)])
  {
    NoRowWrite(s.now, s.jobs);
  }

  method Start(cl: Cluster, w: WorkerId)
    requires cl.Valid() && w !in cl.workers
    modifies cl
    ensures cl.Valid() && cl.Continues()
    ensures w in cl.workers && cl.workers[w] == Scanning(High) && cl.Claims(w) == old(cl.Claims(w))
  {
    hide cl.RanTo, cl.Claims, Enabled, Apply, WriteOf;
    var before := cl.Snapshot();
    StartsScanning(cl.c, before, w);
    cl.Commit(StartWorker(w), before);
  }

  /** A claim: the job, and which claim of the job. */
  type Claim = (JobId, nat)

  ghost predicate AllSettled(s: State, done: seq<Claim>) {
    forall k | k in done :: Settled(s, k.0, k.1)
  }

  lemma AllSettleForGood(s: State, t: State, done: seq<Claim>)
    requires Evolves(s, t) && AllSettled(s, done)
    ensures AllSettled(t, done)
  {
    hide Evolves, Settled;
    forall k | k in done ensures Settled(t, k.0, k.1) {
      SettlesForGood(s, t, k.0, k.1);
    }
  }

  /** Since step number `from`, `w` has claimed each of these jobs. */
  ghost predicate ClaimedEach(c: Config, start: int, trace: seq<Action>, from: nat, w: WorkerId, dealt: seq<JobId>) {
    forall id | id in dealt :: ClaimOnRecord(c, start, trace, from, w, id)
  }

  lemma ClaimedForGood(
      c: Config, start: int, trace: seq<Action>, more: seq<Action>, from: nat, w: WorkerId, dealt: seq<JobId>)
    requires ClaimedEach(c, start, trace, from, w, dealt) && trace <= more
    ensures ClaimedEach(c, start, more, from, w, dealt)
  {
    hide ClaimOnRecord;
    forall id | id in dealt ensures ClaimOnRecord(c, start, more, from, w, id) {
      ClaimsStayOnRecord(c, start, trace, more, from, from, w, id);
    }
  }

  lemma OneMoreClaimed(c: Config, start: int, trace: seq<Action>, from: nat, later: nat, w: WorkerId,
                       dealt: seq<JobId>, id: JobId)
    requires ClaimedEach(c, start, trace, from, w, dealt) && from <= later
    requires ClaimOnRecord(c, start, trace, later, w, id)
    ensures ClaimedEach(c, start, trace, from, w, dealt + [id])
  {
    hide ClaimOnRecord;
    ClaimsStayOnRecord(c, start, trace, trace, from, later, w, id);
  }

  predicate DealtWith(done: seq<Claim>, id: JobId, done': seq<Claim>) {
    |done'| == |done| + 1 && done <= done' && done'[|done|].0 == id
  }

  /** One iteration: the job it dealt with, if there was one to claim; an exception
      is logged and ends it. The claims dealt with are over. */
  method Iterate(cl: Cluster, w: WorkerId, ghost done: seq<Claim>)
    returns (r: Outcome<Option<JobId>>, ghost done': seq<Claim>)
    requires cl.Valid() && w in cl.workers && cl.workers[w] == Scanning(High) && AllSettled(cl.Snapshot(), done)
    modifies cl, cl.db, cl.redis
    ensures cl.Valid() && cl.Continues() && w in cl.workers && cl.workers[w] == Scanning(High)
    ensures r.Ok? ==> cl.Claims(w) == old(cl.Claims(w)) + One(r.value.Some?)
    ensures r.Raised? ==> old(cl.Claims(w)) <= cl.Claims(w) <= old(cl.Claims(w)) + 1
    ensures AllSettled(cl.Snapshot(), done')
    ensures if r.Ok? && r.value.Some? then DealtWith(done, r.value.value, done') else done' == done
    ensures r.Ok? && r.value.Some? ==>
              ClaimOnRecord(cl.c, cl.start, cl.trace, |old(cl.trace)|, w, r.value.value)
    ensures r.Ok? && r.value.None? ==> PopsOf(cl.trace, w) >= PopsOf(old(cl.trace), w) + 3
    ensures r.Raised? ==> cl.Took(|old(cl.trace)|, Work(w, Abort))
  {
    hide cl.RanTo, cl.Claims, Evolves, Settled, Delivered, Leads, Reachable, DidStep, ClaimOnRecord, PopsOf;
    done' := done;
    r := ClaimNextJob(cl, w);
    ghost var scanned := cl.trace;
    if r.Ok? && r.value.Some? {
      var id := r.value.value;
      ghost var epoch := cl.workers[w].epoch;
      var fails: bool := *;
      var processed := ProcessJob(cl, w, id, epoch, fails);
      if processed.Raised? {
        r := Raised;
      } else {
        done' := done + [(id, epoch)];
        ClaimsStayOnRecord(cl.c, cl.start, scanned, cl.trace, |old(cl.trace)|, |old(cl.trace)|, w, id);
      }
    } else {
      cl.Interleave(TheWorker(w));
      PopsOnlyGrow(scanned, cl.trace, w);
    }
    cl.WentOn();
    AllSettleForGood(old(cl.Snapshot()), cl.Snapshot(), done);
  }

  /** `worker_loop`, for `rounds` iterations: in each it claims a job and deals with
      it, or pops three times and finds none, or is aborted; and every job it says it
      has dealt with stands for a claim that is over, whatever everybody else did
      meanwhile. */
  method WorkerLoop(cl: Cluster, w: WorkerId, rounds: nat)
    returns (dealt: seq<JobId>, idle: nat, failed: nat, ghost done: seq<Claim>)
    requires cl.Valid() && w !in cl.workers
    modifies cl, cl.db, cl.redis
    ensures cl.Valid() && cl.Continues() && w in cl.workers && cl.workers[w] == Scanning(High)
    ensures |dealt| + idle + failed == rounds
    ensures old(cl.Claims(w)) + |dealt| <= cl.Claims(w) <= old(cl.Claims(w)) + |dealt| + failed
    ensures ClaimedEach(cl.c, cl.start, cl.trace, |old(cl.trace)|, w, dealt)
    ensures PopsOf(cl.trace, w) >= PopsOf(old(cl.trace), w) + 3 * idle
    ensures Times(cl.trace, Work(w, Abort)) >= Times(old(cl.trace), Work(w, Abort)) + failed
    ensures AllSettled(cl.Snapshot(), done)
    ensures |done| == |dealt| && forall i | 0 <= i < |dealt| :: done[i].0 == dealt[i]
  {
    hide cl.Valid, cl.Snapshot, cl.Claims, Settled, PopsOf, Times, ClaimOnRecord;
    Start(cl, w);
    PopsOnlyGrow(old(cl.trace), cl.trace, w);
    TimesOnlyGrow(old(cl.trace), cl.trace, Work(w, Abort));
    dealt, idle, failed, done := [], 0, 0, [];
    assert ClaimedEach(cl.c, cl.start, cl.trace, |old(cl.trace)|, w, dealt);
    hide ClaimedEach;
    var i := 0;
    while i < rounds
      invariant i == |dealt| + idle + failed <= rounds
      invariant cl.Valid() && cl.Continues() && w in cl.workers && cl.workers[w] == Scanning(High)
      invariant old(cl.Claims(w)) + |dealt| <= cl.Claims(w) <= old(cl.Claims(w)) + |dealt| + failed
      invariant ClaimedEach(cl.c, cl.start, cl.trace, |old(cl.trace)|, w, dealt)
      invariant PopsOf(cl.trace, w) >= PopsOf(old(cl.trace), w) + 3 * idle
      invariant Times(cl.trace, Work(w, Abort)) >= Times(old(cl.trace), Work(w, Abort)) + failed
      invariant AllSettled(cl.Snapshot(), done)
      invariant |done| == |dealt| && forall i | 0 <= i < |dealt| :: done[i].0 == dealt[i]
    {
      ghost var trace := cl.trace;
      var r;
      r, done := Iterate(cl, w, done);
      PopsOnlyGrow(trace, cl.trace, w);
      AbortsAdd(trace, cl.trace, w, r.Raised?);
      ClaimedForGood(cl.c, cl.start, trace, cl.trace, |old(cl.trace)|, w, dealt);
      if r.Raised? {
        failed := failed + 1;
      } else if r.value.None? {
        idle := idle + 1;
      } else {
        OneMoreClaimed(cl.c, cl.start, cl.trace, |old(cl.trace)|, |trace|, w, dealt, r.value.value);
        dealt := dealt + [r.value.value];
      }
      i := i + 1;
    }
  }

  lemma AbortsAdd(trace: seq<Action>, more: seq<Action>, w: WorkerId, aborted: bool)
    requires trace <= more
    requires aborted ==> exists n :: |trace| <= n < |more| && more[n] == Work(w, Abort)
    ensures Times(more, Work(w, Abort)) >= Times(trace, Work(w, Abort)) + One(aborted)
  {
    TimesOnlyGrow(trace, more, Work(w, Abort));
    if aborted {
      var n :| |trace| <= n < |more| && more[n] == Work(w, Abort);
      assert more[|trace|..][n - |trace|] == Work(w, Abort);
    }
  }
}
