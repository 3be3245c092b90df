/** The rate limiter. Checks of all workers interleave with each other's undos;
    an undo may come at any time, or never. The history field `expiredKey` says
    whether some command came so late that its key had expired. */
module Budget {
  import opened Types
  import opened Windows
  import opened Protocol
  import opened Columns
  import opened Fencing

  /** The increments that stay: one per check up to the limit, and one for each
      overshoot not undone. */
  predicate CounterSound(limit: int, key: Window, k: Counter) {
    && k.value == Min(k.checks, Max(limit, 0)) + |k.undoing| + k.forgotten
    && (k.checks <= limit ==> k.undoing == {} && k.forgotten == 0)
    && k.expires.Some? && k.expires.value >= (key.hour + 2) * HOUR
  }

  predicate UndoersSound(counters: map<Window, Counter>, workers: map<WorkerId, Worker>) {
    && (forall w | w in workers && workers[w].Overshot? ::
          CheckedKey(workers[w]) in counters && w in counters[CheckedKey(workers[w])].undoing)
    && (forall key, w | key in counters && w in counters[key].undoing ::
          w in workers && workers[w].Overshot? && CheckedKey(workers[w]) == key)
  }

  predicate LimiterSound(c: Config, s: State) {
    && (forall key | key in s.counters :: CounterSound(c.rateLimit, key, s.counters[key]))
    && UndoersSound(s.counters, s.workers)
  }

  /** The window a step checks. */
  function Checking(s: State, a: Action): Option<Window> {
    if a.Work? && a.op.Check? && a.w in s.workers && s.workers[a.w].Fetched? then
      Some(Window(s.workers[a.w].view.recipient, HourOf(a.op.at)))
    else None
  }

  function ChecksOf(s: State, key: Window): nat {
    if key in s.counters then s.counters[key].checks else 0
  }

  lemma HoursContain(at: int)
    ensures HourOf(at) * HOUR <= at < (HourOf(at) + 1) * HOUR
  {
  }

  lemma IncrementsStaySound(c: Config, s: State, w: WorkerId, key: Window, at: int)
    requires LimiterSound(c, s) && w in s.workers && s.workers[w].Fetched?
    requires key.hour == HourOf(at) && at <= s.now && !IsExpired(s, key)
    ensures Current(s.now, s.counters, key).checks == ChecksOf(s, key)
    ensures CounterSound(c.rateLimit, key, Incremented(s.now, w, c.rateLimit, Current(s.now, s.counters, key)))
    ensures Current(s.now, s.counters, key).value + 1 > c.rateLimit <==> ChecksOf(s, key) + 1 > c.rateLimit
  {
    HoursContain(at);
    if key in s.counters {
      var k := s.counters[key];
      assert w !in k.undoing;
      assert |k.undoing + {w}| == |k.undoing| + 1;
    } else {
      assert |{} + {w}| == 1;
    }
  }

  lemma UndosStaySound(c: Config, s: State, w: WorkerId)
    requires LimiterSound(c, s) && w in s.workers && s.workers[w].Overshot?
    ensures var key := CheckedKey(s.workers[w]);
            var k := s.counters[key];
            && CounterSound(c.rateLimit, key, Decremented(w, k))
            && CounterSound(c.rateLimit, key, Forgotten(w, k))
  {
    var k := s.counters[CheckedKey(s.workers[w])];
    assert |k.undoing - {w}| == |k.undoing| - 1;
  }

  lemma JoiningUndoers(counters: map<Window, Counter>, workers: map<WorkerId, Worker>, w: WorkerId,
                       key: Window, k: Counter, next: Worker)
    requires UndoersSound(counters, workers) && w in workers && !workers[w].Overshot?
    requires next.Overshot? ==> CheckedKey(next) == key
    requires k.undoing == (if key in counters then counters[key].undoing else {}) + (if next.Overshot? then {w} else {})
    ensures UndoersSound(counters[key := k], workers[w := next])
  {
  }

  lemma LeavingUndoers(
      counters: map<Window, Counter>, workers: map<WorkerId, Worker>, w: WorkerId, k: Counter, next: Worker)
    requires UndoersSound(counters, workers) && w in workers && workers[w].Overshot? && !next.Overshot?
    requires k.undoing == counters[CheckedKey(workers[w])].undoing - {w}
    ensures UndoersSound(counters[CheckedKey(workers[w]) := k], workers[w := next])
  {
  }

  lemma ChecksAreVerdicts(c: Config, s: State, w: WorkerId, at: int)
    requires Enabled(c, s, Work(w, Check(at)))
    ensures Checking(s, Work(w, Check(at))) == Some(Window(s.workers[w].view.recipient, HourOf(at)))
    ensures var key, t := Window(s.workers[w].view.recipient, HourOf(at)), Apply(c, s, Work(w, Check(at)));
            && t.counters == s.counters[key := Incremented(s.now, w, c.rateLimit, Current(s.now, s.counters, key))]
            && (t.workers[w].Allowed? <==> Current(s.now, s.counters, key).value + 1 <= c.rateLimit)
            && (t.workers[w].Overshot? <==> !t.workers[w].Allowed?)
            && (t.workers[w].Overshot? ==> t.workers[w].job == s.workers[w].job && CheckedKey(t.workers[w]) == key)
            && t.workers == s.workers[w := t.workers[w]]
  {
    hide JobsAfter, DlqAfter, KeysAfter, QueueAfter, LocksAfter, WriteOf, Current, Incremented;
  }

  lemma ChecksKeepTheLimiter(c: Config, s: State, w: WorkerId, at: int)
    requires LimiterSound(c, s) && Enabled(c, s, Work(w, Check(at))) && !FindsKeyExpired(c, s, Work(w, Check(at)))
    ensures LimiterSound(c, Apply(c, s, Work(w, Check(at))))
  {
    hide Apply, CounterSound, Current;
    var key := Window(s.workers[w].view.recipient, HourOf(at));
    var k := Incremented(s.now, w, c.rateLimit, Current(s.now, s.counters, key));
    ChecksAreVerdicts(c, s, w, at);
    IncrementsStaySound(c, s, w, key, at);
    UndoersAtCheck(c, s, key);
    JoiningUndoers(s.counters, s.workers, w, key, k, Apply(c, s, Work(w, Check(at))).workers[w]);
  }

  lemma UndoersAtCheck(c: Config, s: State, key: Window)
    requires LimiterSound(c, s) && !IsExpired(s, key)
    ensures Current(s.now, s.counters, key).undoing == if key in s.counters then s.counters[key].undoing else {}
  {
  }

  lemma UndosKeepTheLimiter(c: Config, s: State, w: WorkerId, op: WorkerOp)
    requires LimiterSound(c, s) && Enabled(c, s, Work(w, op)) && s.workers[w].Overshot?
    requires op.Undo? || op.Abort? || op.Crash?
    requires !FindsKeyExpired(c, s, Work(w, op))
    ensures LimiterSound(c, Apply(c, s, Work(w, op)))
  {
    hide JobsAfter, DlqAfter, KeysAfter, QueueAfter, LocksAfter, WriteOf;
    var p := s.workers[w];
    var key := CheckedKey(p);
    var k := s.counters[key];
    UndosStaySound(c, s, w);
    if op.Undo? {
      LeavingUndoers(s.counters, s.workers, w, Decremented(w, k),
                     WorkerDoes(c, s, w, p, op).next);
    } else {
      LeavingUndoers(s.counters, s.workers, w, Forgotten(w, k), WorkerDoes(c, s, w, p, op).next);
    }
  }

  /** No other step has to do with the limiter. */
  predicate LimiterStep(s: State, a: Action) {
    a.Work? && a.w in s.workers && (a.op.Check? || s.workers[a.w].Overshot?) && !a.op.Beat?
  }

  lemma OtherStepsSpareTheCounters(c: Config, s: State, a: Action)
    requires Enabled(c, s, a) && !LimiterStep(s, a)
    ensures Apply(c, s, a).counters == s.counters
  {
    var command := CommandOf(c, s, a);
    assert !command.Increment? && !command.Decrement? && !command.Forget?;
  }

  lemma OtherStepsSpareTheUndoers(c: Config, s: State, a: Action)
    requires Enabled(c, s, a) && !LimiterStep(s, a)
    ensures var workers := WorkersAfter(c, s, a);
            && (forall w | w in s.workers :: w in workers)
            && (forall w | w in workers && workers[w].Overshot? :: w in s.workers && workers[w] == s.workers[w])
            && (forall w | w in s.workers && s.workers[w].Overshot? :: workers[w] == s.workers[w])
  {
    if a.Work? {
      var step := WorkerDoes(c, s, a.w, s.workers[a.w], a.op);
      assert step.next.Overshot? || s.workers[a.w].Overshot? ==> step.next == s.workers[a.w];
    }
  }

  lemma LimiterStaysSound(c: Config, s: State, a: Action)
    requires LimiterSound(c, s) && Enabled(c, s, a) && !Apply(c, s, a).expiredKey
    ensures LimiterSound(c, Apply(c, s, a))
  {
    if !LimiterStep(s, a) {
      OtherStepsSpareTheCounters(c, s, a);
      OtherStepsSpareTheUndoers(c, s, a);
    } else if a.op.Check? {
      ChecksKeepTheLimiter(c, s, a.w, a.op.at);
    } else {
      UndosKeepTheLimiter(c, s, a.w, a.op);
    }
  }

  // --------------------------------------------------------------- the runs

  /** How many steps of the run check `key`. */
  function ChecksIn(c: Config, s: State, acts: seq<Action>, key: Window): nat
    requires Valid(c, s, acts)
    decreases |acts|
  {
    if acts == [] then 0
    else One(Checking(s, acts[0]) == Some(key)) + ChecksIn(c, Apply(c, s, acts[0]), acts[1..], key)
  }

  /** How many of them are told to go ahead. */
  function AllowedIn(c: Config, s: State, acts: seq<Action>, key: Window): nat
    requires Valid(c, s, acts)
    decreases |acts|
  {
    if acts == [] then 0
    else One(Checking(s, acts[0]) == Some(key) && Apply(c, s, acts[0]).workers[acts[0].w].Allowed?)
         + AllowedIn(c, Apply(c, s, acts[0]), acts[1..], key)
  }

  lemma UndosCountNothing(c: Config, s: State, a: Action, key: Window)
    requires LimiterSound(c, s) && Enabled(c, s, a) && !Apply(c, s, a).expiredKey
    requires LimiterStep(s, a) && !a.op.Check?
    ensures ChecksOf(Apply(c, s, a), key) == ChecksOf(s, key)
  {
    var checked := CheckedKey(s.workers[a.w]);
    assert checked in s.counters;
    assert a.op.Undo? ==> IsAlive(s.now, s.counters, checked);
    UndoCommands(c, s, a);
    hide Apply, Enabled, LimiterSound, CounterSound, UndoersSound, IsAlive, WriteOf, CommandOf, LimiterStep;
  }

  lemma UndoCommands(c: Config, s: State, a: Action)
    requires Enabled(c, s, a) && LimiterStep(s, a) && !a.op.Check?
    ensures var key, counters := CheckedKey(s.workers[a.w]), Apply(c, s, a).counters;
            || (a.op.Undo? && counters == CountersAfter(s.now, Decrement(key, a.w), s.counters))
            || (!a.op.Undo? && counters == CountersAfter(s.now, Forget(key, a.w), s.counters))
  {
    hide JobsAfter, DlqAfter, KeysAfter, QueueAfter, LocksAfter, CountersAfter, WriteOf;
  }

  lemma VerdictsFollowTheCount(c: Config, s: State, a: Action, key: Window)
    requires LimiterSound(c, s) && Enabled(c, s, a) && !Apply(c, s, a).expiredKey
    ensures Checking(s, a) == Some(key) ==>
              && (Apply(c, s, a).workers[a.w].Allowed? <==> ChecksOf(s, key) + 1 <= c.rateLimit)
              && ChecksOf(Apply(c, s, a), key) == ChecksOf(s, key) + 1
    ensures Checking(s, a) != Some(key) ==> ChecksOf(Apply(c, s, a), key) == ChecksOf(s, key)
  {
    hide JobsAfter, DlqAfter, KeysAfter, QueueAfter, LocksAfter, WriteOf, CountersAfter, CounterSound;
    if !LimiterStep(s, a) {
      OtherStepsSpareTheCounters(c, s, a);
    } else if a.op.Check? {
      ChecksAreVerdicts(c, s, a.w, a.op.at);
      IncrementsStaySound(c, s, a.w, Checking(s, a).value, a.op.at);
    } else {
      UndosCountNothing(c, s, a, key);
    }
  }

  lemma ExpiriesEndure(c: Config, s: State, a: Action)
    requires Enabled(c, s, a) && !Apply(c, s, a).expiredKey
    ensures !s.expiredKey
  {
  }

  lemma {:induction false} ExpiriesStick(c: Config, s: State, acts: seq<Action>)
    requires Valid(c, s, acts) && !After(c, s, acts).expiredKey
    ensures !s.expiredKey
    decreases |acts|
  {
    if acts != [] {
      ExpiriesStick(c, Apply(c, s, acts[0]), acts[1..]);
    }
  }

  lemma {:induction false} RunsKeepTheBudget(c: Config, s: State, acts: seq<Action>, key: Window)
    requires LimiterSound(c, s) && Valid(c, s, acts) && !After(c, s, acts).expiredKey
    ensures LimiterSound(c, After(c, s, acts))
    ensures ChecksOf(After(c, s, acts), key) == ChecksOf(s, key) + ChecksIn(c, s, acts, key)
    ensures AllowedIn(c, s, acts, key)
            == Min(ChecksOf(After(c, s, acts), key), Max(c.rateLimit, 0)) - Min(ChecksOf(s, key), Max(c.rateLimit, 0))
    decreases |acts|
  {
    if acts != [] {
      var t := Apply(c, s, acts[0]);
      ExpiriesStick(c, t, acts[1..]);
      LimiterStaysSound(c, s, acts[0]);
      VerdictsFollowTheCount(c, s, acts[0], key);
      RunsKeepTheBudget(c, t, acts[1..], key);
    }
  }

  /** Incrementing first and undoing later, at any time or never, is as good as
      one atomic budget: of the checks a run makes of a window exactly the first
      `limit` are allowed. */
  lemma LimiterIsAnAtomicBudget(c: Config, start: int, acts: seq<Action>, key: Window)
    requires Valid(c, Initial(start), acts) && !After(c, Initial(start), acts).expiredKey
    ensures AllowedIn(c, Initial(start), acts, key)
            == Min(ChecksIn(c, Initial(start), acts, key), Max(c.rateLimit, 0))
  {
    RunsKeepTheBudget(c, Initial(start), acts, key);
  }

  lemma NothingIsCounted(c: Config, start: int)
    ensures LimiterSound(c, Initial(start))
  {
  }

  /** The k-th check of a window is allowed exactly when k is within the limit. */
  lemma KthCheckIsAllowedIffWithinLimit(c: Config, s: State, w: WorkerId, at: int)
    requires Reachable(c, s) && Enabled(c, s, Work(w, Check(at))) && !Apply(c, s, Work(w, Check(at))).expiredKey
    ensures var key, t := Window(s.workers[w].view.recipient, HourOf(at)), Apply(c, s, Work(w, Check(at)));
            && ChecksOf(t, key) == ChecksOf(s, key) + 1
            && (t.workers[w].Allowed? <==> ChecksOf(t, key) <= c.rateLimit)
  {
    hide Apply, LimiterSound, ChecksOf;
    var start: int, acts :| Leads(c, Initial(start), acts, s);
    var key := Window(s.workers[w].view.recipient, HourOf(at));
    NothingIsCounted(c, start);
    ExpiriesEndure(c, s, Work(w, Check(at)));
    RunsKeepTheBudget(c, Initial(start), acts, key);
    ChecksAreVerdicts(c, s, w, at);
    VerdictsFollowTheCount(c, s, Work(w, Check(at)), key);
  }

  // -------------------------------------------------- keys that have expired

  /** A rate-limit command that runs when two hours have passed since the hour it
      is about began. */
  predicate RunsLate(s: State, a: Action) {
    && a.Work? && a.w in s.workers
    && ((a.op.Check? && s.now >= (HourOf(a.op.at) + 2) * HOUR)
        || (a.op.Undo? && s.workers[a.w].Overshot? && s.now >= (HourOf(s.workers[a.w].checkedAt) + 2) * HOUR))
  }

  predicate NoneRunsLate(c: Config, s: State, acts: seq<Action>)
    requires Valid(c, s, acts)
    decreases |acts|
  {
    acts == [] || (!RunsLate(s, acts[0]) && NoneRunsLate(c, Apply(c, s, acts[0]), acts[1..]))
  }

  /** A key is alive until two hours after its window began, whenever in the window
      it was created. */
  lemma KeysOutliveTheirChecks(c: Config, s: State, a: Action)
    requires LimiterSound(c, s) && Enabled(c, s, a) && !RunsLate(s, a)
    ensures !FindsKeyExpired(c, s, a)
  {
  }

  lemma ExpiryIsOneCommand(c: Config, s: State, a: Action)
    requires Enabled(c, s, a)
    ensures Apply(c, s, a).expiredKey <==> s.expiredKey || FindsKeyExpired(c, s, a)
  {
  }

  lemma {:induction false} PromptRunsKeepTheirKeys(c: Config, s: State, acts: seq<Action>)
    requires LimiterSound(c, s) && !s.expiredKey && Valid(c, s, acts) && NoneRunsLate(c, s, acts)
    ensures !After(c, s, acts).expiredKey
    decreases |acts|
  {
    hide Enabled, Apply, LimiterSound, FindsKeyExpired, RunsLate;
    if acts != [] {
      KeysOutliveTheirChecks(c, s, acts[0]);
      ExpiryIsOneCommand(c, s, acts[0]);
      LimiterStaysSound(c, s, acts[0]);
      PromptRunsKeepTheirKeys(c, Apply(c, s, acts[0]), acts[1..]);
    }
  }

  /** What a caller can see to: if each command runs before two hours have passed
      since the hour of its clock reading began, none finds its key expired. */
  lemma PromptCommandsFindTheirKeys(c: Config, start: int, acts: seq<Action>)
    requires Valid(c, Initial(start), acts) && NoneRunsLate(c, Initial(start), acts)
    ensures !After(c, Initial(start), acts).expiredKey
  {
    NothingIsCounted(c, start);
    PromptRunsKeepTheirKeys(c, Initial(start), acts);
  }

  // ---------------------------------------------------- deferred is deferred

  /** A check refused in some hour is refused again in that hour, whichever worker
      repeats it for whichever run of the same job, early re-promotion by the
      scheduler's lookahead included. */
  lemma DeferredJobsWaitForTheNextWindow(
      c: Config, s: State, w: WorkerId, at: int, u: State, acts: seq<Action>, t: State, v: WorkerId, later: int)
    requires Reachable(c, s) && Enabled(c, s, Work(w, Check(at)))
    requires u == Apply(c, s, Work(w, Check(at))) && u.workers[w].Overshot?
    requires Leads(c, u, acts, t) && Enabled(c, t, Work(v, Check(later)))
    requires t.workers[v].job == u.workers[w].job && HourOf(later) == HourOf(at)
    requires !Apply(c, t, Work(v, Check(later))).expiredKey
    ensures Apply(c, t, Work(v, Check(later))).workers[v].Overshot?
  {
    hide LimiterSound, Apply, ChecksOf, ChecksIn, AllowedIn;
    var start: int, before :| Leads(c, Initial(start), before, s);
    ChecksAreVerdicts(c, s, w, at);
    ChecksAreVerdicts(c, t, v, later);
    NothingIsCounted(c, start);
    ExpiriesEndure(c, t, Work(v, Check(later)));
    ExpiriesStick(c, u, acts);
    ExpiriesEndure(c, s, Work(w, Check(at)));
    var key := Checking(s, Work(w, Check(at))).value;
    SameJobSameWindow(c, start, before, s, w, at, u, acts, t, v, later);
    RunsKeepTheBudget(c, Initial(start), before, key);
    VerdictsFollowTheCount(c, s, Work(w, Check(at)), key);
    LimiterStaysSound(c, s, Work(w, Check(at)));
    RunsKeepTheBudget(c, u, acts, key);
    VerdictsFollowTheCount(c, t, Work(v, Check(later)), key);
  }

  /** Where a deferral lands. `at` is the second reading of the clock: the delay was
      computed from an earlier one, `checkedAt`. If the fence matches, the row
      becomes due after the refused window, by no more than a second and the time
      between the readings, and in the very next window exactly when the readings
      are near enough; if not, the row is as it was. */
  lemma DeferralsLandPastTheRefusedWindow(c: Config, s: State, w: WorkerId, at: int)
    requires Reachable(c, s) && Enabled(c, s, Work(w, Defer(at)))
    ensures var p, t := s.workers[w], Apply(c, s, Work(w, Defer(at)));
            var top := (HourOf(p.checkedAt) + 1) * HOUR;
            && p.job in t.jobs && p.checkedAt <= at
            && (!Owns(c, s.jobs[p.job], p) ==> t.jobs[p.job] == s.jobs[p.job])
            && (Owns(c, s.jobs[p.job], p) ==>
                  var due := t.jobs[p.job].row.sendAt;
                  && t.jobs[p.job].row.status == Pending
                  && top < due <= top + SECOND + (at - p.checkedAt)
                  && (HourOf(due) == HourOf(p.checkedAt) + 1 <==> at - p.checkedAt < HOUR - Overrun(p.checkedAt)))
  {
    hide Reachable, EntriesSound, Apply;
    ReachableIsSound(c, s);
    AppliedEntry(c, s, Work(w, Defer(at)), s.workers[w].job);
    DelaysEndInTheNextWindow(s.workers[w].checkedAt);
    HoursHold(HourOf(s.workers[w].checkedAt) + 1, at + s.workers[w].retryAfter * SECOND);
  }

  lemma HoursHold(hour: int, t: int)
    requires hour * HOUR <= t
    ensures HourOf(t) == hour <==> t < (hour + 1) * HOUR
  {
  }

  lemma SameJobSameWindow(
      c: Config, start: int, before: seq<Action>, s: State, w: WorkerId, at: int, u: State, acts: seq<Action>, t: State,
      v: WorkerId, later: int)
    requires Leads(c, Initial(start), before, s) && Enabled(c, s, Work(w, Check(at)))
    requires u == Apply(c, s, Work(w, Check(at)))
    requires Leads(c, u, acts, t) && Enabled(c, t, Work(v, Check(later)))
    requires t.workers[v].job == s.workers[w].job && HourOf(later) == HourOf(at)
    ensures Checking(t, Work(v, Check(later))) == Checking(s, Work(w, Check(at)))
  {
    hide Apply;
    var j := s.workers[w].job;
    CoreIsReached(c, s);
    OneStepFurther(c, s, Work(w, Check(at)));
    RunsGoOnReachable(c, u, acts, t);
    CoreIsReached(c, t);
    assert HandCore(s.jobs[j], w, s.workers[w]) && HandCore(t.jobs[j], v, t.workers[v]);
    AppliedEntry(c, s, Work(w, Check(at)), j);
    WritesKeepTerms(s.now, WriteOf(c, s, Work(w, Check(at))), j, s.jobs[j]);
    JobsKeepTheirTerms(c, u, acts, j);
  }
}
