/** Promotion in batches. */
module Batches {
  import opened Types
  import opened Statements
  import opened Scores
  import opened Protocol

  function Promoting(now: int, jobs: map<JobId, Entry>, batch: set<JobId>): map<JobId, Entry> {
    JobsAfter(now, PromoteRows(batch), jobs)
  }

  /** Promotion statements run one after the other at one instant, by one
      scheduler or by several, until nothing is due. */
  ghost predicate Drains(c: Config, now: int, jobs: map<JobId, Entry>, batches: seq<set<JobId>>)
    decreases |batches|
  {
    var due := DueIn(c, now, jobs);
    if batches == [] then due == {}
    else
      && due != {}
      && IsPromotable(c.batchSize, jobs, due, batches[0])
      && Drains(c, now, Promoting(now, jobs, batches[0]), batches[1..])
  }

  /** What one batch takes is gone from the next statement's pool, and nothing
      else changes. */
  lemma BatchesLeaveThePool(c: Config, now: int, jobs: map<JobId, Entry>, batch: set<JobId>)
    requires batch <= DueIn(c, now, jobs)
    ensures DueIn(c, now, Promoting(now, jobs, batch)) == DueIn(c, now, jobs) - batch
    ensures Promoting(now, jobs, batch).Keys == jobs.Keys
    ensures forall j | j in jobs && j !in batch :: Promoting(now, jobs, batch)[j] == jobs[j]
  {
  }

  /** The same, seen from the first table: a pool that only shrinks. */
  predicate Shrinks(n: nat, jobs: map<JobId, Entry>, pool: set<JobId>, batches: seq<set<JobId>>)
    requires pool <= jobs.Keys
    decreases |batches|
  {
    if batches == [] then pool == {}
    else
      && pool != {}
      && IsPromotable(n, jobs, pool, batches[0])
      && Shrinks(n, jobs, pool - batches[0], batches[1..])
  }

  lemma {:induction false} DrainingShrinks(
      c: Config, now: int, first: map<JobId, Entry>, jobs: map<JobId, Entry>, batches: seq<set<JobId>>)
    requires first.Keys == jobs.Keys && Drains(c, now, jobs, batches)
    requires forall j | j in DueIn(c, now, jobs) :: first[j] == jobs[j]
    ensures Shrinks(c.batchSize, first, DueIn(c, now, jobs), batches)
    decreases |batches|
  {
    hide JobsAfter, Due, Before;
    if batches != [] {
      BatchesLeaveThePool(c, now, jobs, batches[0]);
      DrainingShrinks(c, now, first, Promoting(now, jobs, batches[0]), batches[1..]);
    }
  }

  function Union(batches: seq<set<JobId>>): set<JobId> {
    if batches == [] then {} else batches[0] + Union(batches[1..])
  }

  lemma {:induction false} PartOfUnion(batches: seq<set<JobId>>, k: nat)
    requires k < |batches|
    ensures batches[k] <= Union(batches)
  {
    if k > 0 {
      PartOfUnion(batches[1..], k - 1);
    }
  }

  lemma FirstBatch(n: nat, pool: set<JobId>, batch: set<JobId>)
    requires n >= 1 && pool != {} && IsLimited(n, pool, batch)
    ensures |pool - batch| == |pool| - |batch|
    ensures |batch| <= n && (|pool - batch| > 0 ==> |batch| == n) && |batch| >= 1
    ensures batch + (pool - batch) == pool
  {
  }

  lemma OneMore(n: nat, k: nat)
    ensures (k + 1) * n == k * n + n
  {
  }

  lemma {:induction false} ShrinkingTakesThePool(
      n: nat, jobs: map<JobId, Entry>, pool: set<JobId>, batches: seq<set<JobId>>)
    requires n >= 1 && pool <= jobs.Keys && Shrinks(n, jobs, pool, batches)
    ensures Union(batches) == pool
    ensures |pool| <= |batches| * n < |pool| + n
    decreases |batches|
  {
    hide DueBefore;
    if batches != [] {
      var rest := pool - batches[0];
      ShrinkingTakesThePool(n, jobs, rest, batches[1..]);
      FirstBatch(n, pool, batches[0]);
      OneMore(n, |batches[1..]|);
    }
  }

  lemma {:induction false} ShrinkingSorts(
      n: nat, jobs: map<JobId, Entry>, pool: set<JobId>, batches: seq<set<JobId>>, i: nat, k: nat)
    requires n >= 1 && pool <= jobs.Keys && Shrinks(n, jobs, pool, batches) && i < k < |batches|
    ensures batches[i] <= pool && batches[k] <= pool && batches[i] !! batches[k]
    ensures forall x, y | x in batches[i] && y in batches[k] :: !DueBefore(jobs, y, x)
    decreases |batches|
  {
    var rest := batches[1..];
    if i > 0 {
      ShrinkingSorts(n, jobs, pool - batches[0], rest, i - 1, k - 1);
    } else {
      ShrinkingTakesThePool(n, jobs, pool - batches[0], rest);
      PartOfUnion(rest, k - 1);
      assert batches[k] == rest[k - 1];
    }
  }

  /** Repeated ticks sort. They promote exactly the due jobs, in as few statements
      as the batch size allows (the quotient, rounded up); their batches are
      disjoint; and no job of a later batch comes before a job of an earlier one
      in (priority, send_at). */
  lemma BatchesSort(c: Config, now: int, jobs: map<JobId, Entry>, batches: seq<set<JobId>>)
    requires c.batchSize >= 1 && Drains(c, now, jobs, batches)
    ensures Union(batches) == DueIn(c, now, jobs)
    ensures |DueIn(c, now, jobs)| <= |batches| * c.batchSize < |DueIn(c, now, jobs)| + c.batchSize
    ensures forall i, k | 0 <= i < k < |batches| ::
              && batches[i] <= jobs.Keys && batches[k] <= jobs.Keys && batches[i] !! batches[k]
              && forall x, y | x in batches[i] && y in batches[k] :: !DueBefore(jobs, y, x)
  {
    DrainingShrinks(c, now, jobs, jobs, batches);
    ShrinkingTakesThePool(c.batchSize, jobs, DueIn(c, now, jobs), batches);
    forall i, k | 0 <= i < k < |batches|
      ensures batches[i] <= jobs.Keys && batches[k] <= jobs.Keys && batches[i] !! batches[k]
      ensures forall x, y | x in batches[i] && y in batches[k] :: !DueBefore(jobs, y, x)
    {
      ShrinkingSorts(c.batchSize, jobs, DueIn(c, now, jobs), batches, i, k);
    }
  }

  // ------------------------------------------------ as steps of the protocol

  predicate IsPromotion(a: Action) {
    a.Schedule? && a.sop.Promote?
  }

  /** No promotion of the run found a row locked. */
  predicate SkipsNothing(acts: seq<Action>) {
    forall a | a in acts && IsPromotion(a) :: a.sop.skipped == {}
  }

  /** A stretch of a run at one instant, of any number of schedulers: promotions,
      each skipping whatever is locked, and steps that leave the jobs as they are. */
  predicate OnlyPromotes(c: Config, s: State, acts: seq<Action>)
    requires Valid(c, s, acts)
    decreases |acts|
  {
    acts == []
    || (&& (IsPromotion(acts[0]) || Apply(c, s, acts[0]).jobs == s.jobs)
        && Apply(c, s, acts[0]).now == s.now
        && OnlyPromotes(c, Apply(c, s, acts[0]), acts[1..]))
  }

  /** The batches it promoted, in order. */
  function BatchesOf(acts: seq<Action>): seq<set<JobId>> {
    if acts == [] then []
    else if IsPromotion(acts[0]) && acts[0].sop.batch != {} then [acts[0].sop.batch] + BatchesOf(acts[1..])
    else BatchesOf(acts[1..])
  }

  lemma APromotionPromotes(c: Config, s: State, a: Action)
    requires Enabled(c, s, a) && IsPromotion(a)
    ensures a.sop.batch <= DueIn(c, s.now, s.jobs)
    ensures Apply(c, s, a).jobs == Promoting(s.now, s.jobs, a.sop.batch)
    ensures a.sop.skipped == {} ==> IsPromotable(c.batchSize, s.jobs, DueIn(c, s.now, s.jobs), a.sop.batch)
    ensures a.sop.skipped == {} && c.batchSize >= 1 ==> (a.sop.batch == {} <==> DueIn(c, s.now, s.jobs) == {})
  {
    assert DueIn(c, s.now, s.jobs) - {} == DueIn(c, s.now, s.jobs);
  }

  /** SKIP LOCKED is safe: of promotions at one instant, by however many schedulers
      and whatever each of them skips, no two take the same job, and together they
      take exactly the due jobs that are due no longer. */
  lemma {:induction false} PromotersNeverShare(c: Config, s: State, acts: seq<Action>, t: State)
    requires Leads(c, s, acts, t) && OnlyPromotes(c, s, acts)
    ensures DueIn(c, t.now, t.jobs) <= DueIn(c, s.now, s.jobs)
    ensures Union(BatchesOf(acts)) == DueIn(c, s.now, s.jobs) - DueIn(c, t.now, t.jobs)
    ensures forall i, k | 0 <= i < k < |BatchesOf(acts)| :: BatchesOf(acts)[i] !! BatchesOf(acts)[k]
    decreases |acts|
  {
    hide Enabled, Apply, DueIn, Promoting, IsPromotable;
    if acts != [] {
      var u, batches, rest := Apply(c, s, acts[0]), BatchesOf(acts), BatchesOf(acts[1..]);
      PromotersNeverShare(c, u, acts[1..], t);
      if IsPromotion(acts[0]) {
        var batch := acts[0].sop.batch;
        APromotionPromotes(c, s, acts[0]);
        BatchesLeaveThePool(c, s.now, s.jobs, batch);
        assert batches == if batch != {} then [batch] + rest else rest;
        assert batch != {} ==> batches[1..] == rest;
        forall k | 0 <= k < |rest| ensures batch !! rest[k] {
          PartOfUnion(rest, k);
        }
      }
    }
  }

  lemma NothingPromoted(now: int, jobs: map<JobId, Entry>)
    ensures Promoting(now, jobs, {}) == jobs
  {
  }

  lemma {:induction false} RunsDrain(c: Config, s: State, acts: seq<Action>, t: State)
    requires c.batchSize >= 1 && Leads(c, s, acts, t) && OnlyPromotes(c, s, acts) && SkipsNothing(acts)
    requires DueIn(c, t.now, t.jobs) == {}
    ensures Drains(c, s.now, s.jobs, BatchesOf(acts))
    decreases |acts|
  {
    hide Enabled, Apply, DueIn, Promoting, IsPromotable;
    if acts != [] {
      var u := Apply(c, s, acts[0]);
      RunsDrain(c, u, acts[1..], t);
      if IsPromotion(acts[0]) {
        APromotionPromotes(c, s, acts[0]);
        NothingPromoted(s.now, s.jobs);
        assert acts[0].sop.batch != {} ==> BatchesOf(acts)[1..] == BatchesOf(acts[1..]);
      }
    }
  }

  /** Ticks of the protocol sort: promoting at one instant, no row being locked,
      until nothing is due, whichever schedulers do it and whatever else they do meanwhile to Redis,
      takes exactly the jobs due at the start, in as few statements as the batch
      size allows, in disjoint batches ordered by (priority, send_at). */
  lemma TicksSort(c: Config, s: State, acts: seq<Action>, t: State)
    requires c.batchSize >= 1 && Leads(c, s, acts, t) && OnlyPromotes(c, s, acts) && SkipsNothing(acts)
    requires DueIn(c, t.now, t.jobs) == {}
    ensures var batches, due := BatchesOf(acts), DueIn(c, s.now, s.jobs);
            && Union(batches) == due && |due| <= |batches| * c.batchSize < |due| + c.batchSize
            && forall i, k | 0 <= i < k < |batches| ::
                 && batches[i] <= s.jobs.Keys && batches[k] <= s.jobs.Keys && batches[i] !! batches[k]
                 && forall x, y | x in batches[i] && y in batches[k] :: !DueBefore(s.jobs, y, x)
  {
    hide Drains, DueIn, DueBefore, Leads, OnlyPromotes;
    RunsDrain(c, s, acts, t);
    BatchesSort(c, s.now, s.jobs, BatchesOf(acts));
  }

  // --------------------------------------------------- batches always exist

  lemma LimitedBatch(n: nat, pool: set<JobId>, keep: set<JobId>) returns (batch: set<JobId>)
    requires keep <= pool && |keep| <= n
    ensures IsLimited(n, pool, batch) && keep <= batch
    decreases |pool|
  {
    if |pool| <= n {
      batch := pool;
    } else {
      assert |pool - keep| == |pool| - |keep|;
      var k :| k in pool - keep;
      assert |pool - {k}| == |pool| - 1;
      batch := LimitedBatch(n, pool - {k}, keep);
    }
  }

  lemma Earliest(jobs: map<JobId, Entry>, pool: set<JobId>) returns (m: JobId)
    requires pool != {} && pool <= jobs.Keys
    ensures m in pool && forall k | k in pool :: !DueBefore(jobs, k, m)
    decreases |pool|
  {
    var x :| x in pool;
    var rest := pool - {x};
    assert pool == rest + {x};
    if rest == {} {
      m := x;
    } else {
      assert |rest| == |pool| - 1;
      m := Earliest(jobs, rest);
      if DueBefore(jobs, x, m) { m := x; }
    }
  }

  lemma PromotableBatch(n: nat, jobs: map<JobId, Entry>, pool: set<JobId>) returns (batch: set<JobId>)
    requires pool <= jobs.Keys
    ensures IsPromotable(n, jobs, pool, batch)
    decreases |pool|
  {
    if n == 0 || pool == {} {
      batch := {};
    } else {
      var m := Earliest(jobs, pool);
      assert |pool - {m}| == |pool| - 1;
      var rest := PromotableBatch(n - 1, jobs, pool - {m});
      batch := rest + {m};
      assert |batch| == |rest| + 1;
      assert pool - batch == (pool - {m}) - rest;
    }
  }

  lemma HeadOf(queue: map<Slot, int>, tier: Priority, among: set<Slot>) returns (head: Slot)
    requires among != {} && among <= queue.Keys
    ensures head in among && forall other | other in among :: queue[head] <= queue[other]
    decreases |among|
  {
    head :| head in among;
    var rest := among - {head};
    assert among == rest + {head};
    if rest != {} {
      assert |rest| == |among| - 1;
      var best := HeadOf(queue, tier, rest);
      if queue[best] < queue[head] { head := best; }
    }
  }
}
