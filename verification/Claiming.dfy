/** `claim_next_job`, running among everybody else. */
module Claiming {
  import opened Types
  import opened Protocol
  import opened Columns
  import opened Rows
  import opened Store
  import opened Cluster

  const PRIORITY_ORDER := [High, Medium, Low]

  /** Where the scan stands before queue `i`; after the last it starts over. */
  function ScanAt(i: nat): Worker
    requires i <= 3
  {
    Scanning(if i < 3 then PRIORITY_ORDER[i] else High)
  }

  method Pop(cl: Cluster, w: WorkerId, tier: Priority) returns (r: Outcome<Option<JobId>>)
    requires cl.Valid() && w in cl.workers && cl.workers[w] == Scanning(tier)
    modifies cl, cl.db, cl.redis
    ensures cl.Valid() && cl.Continues() && w in cl.workers && cl.Claims(w) == old(cl.Claims(w))
    ensures r.Raised? ==> cl.workers[w] == Scanning(High)
    ensures r.Ok? ==> cl.workers[w] == if r.value.None? then NextScan(tier) else Popped(tier, r.value.value)
    ensures r.Ok? ==> PopsOf(cl.trace, w) > PopsOf(old(cl.trace), w)
    ensures r.Raised? ==> cl.Took(|old(cl.trace)|, Work(w, Abort))
  {
    hide cl.RanTo, cl.Claims, TookStep, Apply, PopsOf;
    var _ :- cl.Await(w);
    PopsOnlyGrow(old(cl.trace), cl.trace, w);
    var before := cl.Snapshot();
    var popped := cl.redis.PopMin(tier);
    NoRowWrite(cl.now, cl.db.jobs);
    PopsGrow(cl.trace, Work(w, Protocol.Pop(popped)), w);
    cl.Worked(w, Protocol.Pop(popped), before);
    r := Ok(popped);
  }

  method Acquire(cl: Cluster, w: WorkerId, tier: Priority, j: JobId) returns (r: Outcome<bool>)
    requires cl.Valid() && w in cl.workers && cl.workers[w] == Popped(tier, j)
    modifies cl, cl.db, cl.redis
    ensures cl.Valid() && cl.Continues() && w in cl.workers && cl.Claims(w) == old(cl.Claims(w))
    ensures r.Raised? ==> cl.workers[w] == Scanning(High)
    ensures r.Ok? ==> cl.workers[w] == if r.value then Locked(tier, j) else NextScan(tier)
    ensures r.Raised? ==> cl.Took(|old(cl.trace)|, Work(w, Abort))
  {
    hide cl.RanTo, cl.Claims, TookStep, Apply;
    var _ :- cl.Await(w);
    var before := cl.Snapshot();
    var acquired := cl.redis.Acquire(cl.now, j, cl.c.lockTtl);
    NoRowWrite(cl.now, cl.db.jobs);
    cl.Worked(w, Lock, before);
    r := Ok(acquired);
  }

  method ClaimRow(cl: Cluster, w: WorkerId, tier: Priority, j: JobId) returns (r: Outcome<bool>)
    requires cl.Valid() && w in cl.workers && cl.workers[w] == Locked(tier, j)
    modifies cl, cl.db, cl.redis
    ensures cl.Valid() && cl.Continues() && w in cl.workers
    ensures r.Raised? ==> cl.workers[w] == Scanning(High) && cl.Claims(w) == old(cl.Claims(w))
    ensures r.Ok? && r.value ==> cl.workers[w].Holding? && cl.workers[w].job == j
    ensures r.Ok? && !r.value ==> cl.workers[w] == Rejected(tier, j)
    ensures r.Ok? ==> cl.Claims(w) == old(cl.Claims(w)) + One(r.value)
    ensures r.Ok? ==> cl.Did(old(|cl.trace|), Work(w, Claim), if r.value then Write.ClaimRow(j, w) else NoWrite)
    ensures r.Raised? ==> cl.Took(|old(cl.trace)|, Work(w, Abort))
  {
    hide cl.RanTo, cl.Claims, TookStep, Apply;
    var _ :- cl.Await(w);
    var before := cl.Snapshot();
    var claimed := cl.db.ClaimQueued(cl.now, w, j);
    cl.Worked(w, Claim, before);
    r := Ok(claimed);
  }

  method DropLock(cl: Cluster, w: WorkerId, tier: Priority, j: JobId) returns (r: Outcome<()>)
    requires cl.Valid() && w in cl.workers && cl.workers[w] == Rejected(tier, j)
    modifies cl, cl.db, cl.redis
    ensures cl.Valid() && cl.Continues() && w in cl.workers && cl.Claims(w) == old(cl.Claims(w))
    ensures cl.workers[w] == if r.Ok? then NextScan(tier) else Scanning(High)
    ensures r.Raised? ==> cl.Took(|old(cl.trace)|, Work(w, Abort))
  {
    hide cl.RanTo, cl.Claims, TookStep, Apply;
    var _ :- cl.Await(w);
    var before := cl.Snapshot();
    cl.redis.Unlock(j);
    NoRowWrite(cl.now, cl.db.jobs);
    cl.Worked(w, Protocol.DropLock, before);
    r := Ok(());
  }

  /** Among the steps from number `from` on, `w` found job `id` queued and made it
      its own. */
  ghost predicate ClaimOnRecord(c: Config, start: int, trace: seq<Action>, from: nat, w: WorkerId, id: JobId) {
    exists s, t ::
      && MovedStep(c, start, trace, from, Work(w, Claim), s, t)
      && id in s.jobs && s.jobs[id].row.status == Queued && OnlyTouches(s, t, {id}) && id in t.jobs
      && t.jobs[id].row == s.jobs[id].row.(status := Claimed, workerId := Some(w), claimedAt := Some(s.now),
                                           heartbeatAt := Some(s.now), updatedAt := s.now)
  }

  lemma ClaimsAreOnRecord(
      c: Config, start: int, trace: seq<Action>, from: nat, later: nat, w: WorkerId, id: JobId)
    requires DidStep(c, start, trace, later, Work(w, Claim), Write.ClaimRow(id, w)) && from <= later
    ensures ClaimOnRecord(c, start, trace, from, w, id)
  {
    hide DidStep, MovedStep, Apply, EntryAfter;
    DoneSince(c, start, trace, from, later, Work(w, Claim), Write.ClaimRow(id, w));
    var s, t := StepTaken(c, start, trace, from, Work(w, Claim), Write.ClaimRow(id, w));
    WhatWritesLeave(c, s, Work(w, Claim));
    WritesTouchTheirOwn(c, s, Work(w, Claim));
  }

  lemma ClaimsStayOnRecord(
      c: Config, start: int, trace: seq<Action>, more: seq<Action>, from: nat, later: nat, w: WorkerId, id: JobId)
    requires ClaimOnRecord(c, start, trace, later, w, id) && from <= later && trace <= more
    ensures ClaimOnRecord(c, start, more, from, w, id)
  {
    hide MovedStep, OnlyTouches;
    var s, t :| && MovedStep(c, start, trace, later, Work(w, Claim), s, t)
                && id in s.jobs && s.jobs[id].row.status == Queued && OnlyTouches(s, t, {id}) && id in t.jobs
                && t.jobs[id].row == s.jobs[id].row.(status := Claimed, workerId := Some(w), claimedAt := Some(s.now),
                                                     heartbeatAt := Some(s.now), updatedAt := s.now);
    MovesStay(c, start, trace, more, from, later, Work(w, Claim), s, t);
  }

  /** However the others interleave, duplicate entries and drop locks: a call that
      returns a job has claimed exactly once, that job for this worker, and a call
      that returns None has popped three times and claimed nothing. A call that
      raises has left at most one claim behind. */
  method ClaimNextJob(cl: Cluster, w: WorkerId) returns (r: Outcome<Option<JobId>>)
    requires cl.Valid() && w in cl.workers && cl.workers[w] == Scanning(High)
    modifies cl, cl.db, cl.redis
    ensures cl.Valid() && cl.Continues() && w in cl.workers
    ensures r.Ok? ==> cl.Claims(w) == old(cl.Claims(w)) + One(r.value.Some?)
    ensures r.Ok? && r.value.Some? ==> cl.workers[w].Holding? && cl.workers[w].job == r.value.value
    ensures r.Ok? && r.value.Some? ==>
              ClaimOnRecord(cl.c, cl.start, cl.trace, old(|cl.trace|), w, r.value.value)
    ensures r.Ok? && r.value.None? ==> cl.workers[w] == Scanning(High)
    ensures r.Ok? && r.value.None? ==> PopsOf(cl.trace, w) >= PopsOf(old(cl.trace), w) + 3
    ensures r.Raised? ==> cl.workers[w] == Scanning(High) && old(cl.Claims(w)) <= cl.Claims(w) <= old(cl.Claims(w)) + 1
    ensures r.Raised? ==> cl.Took(|old(cl.trace)|, Work(w, Abort))
  {
    hide cl.Valid, cl.Snapshot, cl.Claims, DidStep, ClaimOnRecord, PopsOf;
    ghost var scanned := cl.trace;
    var i := 0;
    while i < 3
      invariant 0 <= i <= 3
      invariant cl.Valid() && cl.Continues() && w in cl.workers && cl.workers[w] == ScanAt(i)
      invariant cl.Claims(w) == old(cl.Claims(w))
      invariant scanned <= cl.trace && PopsOf(scanned, w) >= PopsOf(old(cl.trace), w) + i
    {
      var tier := PRIORITY_ORDER[i];
      i := i + 1;
      PopsOnlyGrow(scanned, cl.trace, w);
      var popped :- Pop(cl, w, tier);
      scanned := cl.trace;
      if popped.None? {
        continue;
      }
      var jobId := popped.value;
      var acquired :- Acquire(cl, w, tier, jobId);
      if !acquired {
        continue;
      }
      ghost var before := |cl.trace|;
      var claimed :- ClaimRow(cl, w, tier, jobId);
      if !claimed {
        var _ :- DropLock(cl, w, tier, jobId);
        continue;
      }
      ClaimsAreOnRecord(cl.c, cl.start, cl.trace, |old(cl.trace)|, before, w, jobId);
      return Ok(Some(jobId));
    }
    PopsOnlyGrow(scanned, cl.trace, w);
    r := Ok(None);
  }
}
