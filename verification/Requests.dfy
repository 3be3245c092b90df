/** `POST /jobs` under concurrency, and `GET /metrics`. */
module Requests {
  import opened Types
  import opened Protocol
  import opened Columns

  /** The requests answered 201. */
  function Winners(replies: map<RequestId, Reply>): set<RequestId> {
    set r | r in replies && replies[r].Created?
  }

  /** The jobs some request was told it created. */
  function Won(replies: map<RequestId, Reply>): set<JobId> {
    set r | r in replies && replies[r].Created? :: replies[r].id
  }

  /** Each 201 created one job, and every other answer names a job some 201 did. */
  predicate AnswersSound(replies: map<RequestId, Reply>, jobs: set<JobId>, keys: map<string, JobId>) {
    && Won(replies) == jobs
    && |Winners(replies)| == |jobs|
    && (forall r | r in replies && replies[r].Losing? :: replies[r].key in keys)
    && (forall r | r in replies && replies[r].Duplicate? :: replies[r].existing in jobs)
  }

  predicate KeysSound(jobs: set<JobId>, keys: map<string, JobId>) {
    && (forall key | key in keys :: keys[key] in jobs)
    && (forall k, l | k in keys && l in keys && keys[k] == keys[l] :: k == l)
  }

  predicate RequestsSound(s: State) {
    AnswersSound(s.replies, s.jobs.Keys, s.keys) && KeysSound(s.jobs.Keys, s.keys)
  }

  lemma WinnersGrow(replies: map<RequestId, Reply>, r: RequestId, id: JobId)
    requires r !in replies
    ensures |Winners(replies[r := Created(id)])| == |Winners(replies)| + 1
    ensures Won(replies[r := Created(id)]) == Won(replies) + {id}
  {
    var after := replies[r := Created(id)];
    assert Winners(after) == Winners(replies) + {r};
    forall j | j in Won(replies) ensures j in Won(after) {
      var q :| q in replies && replies[q].Created? && replies[q].id == j;
      assert q in after && after[q] == replies[q];
    }
    assert after[r].Created? && after[r].id == id;
  }

  lemma WinnersAreCounted(
      replies: map<RequestId, Reply>, jobs: set<JobId>, keys: map<string, JobId>, r: RequestId, id: JobId,
      keys': map<string, JobId>)
    requires AnswersSound(replies, jobs, keys) && r !in replies && id !in jobs && keys.Keys <= keys'.Keys
    ensures AnswersSound(replies[r := Created(id)], jobs + {id}, keys')
  {
    WinnersGrow(replies, r, id);
  }

  lemma LosersAreNotCounted(
      replies: map<RequestId, Reply>, jobs: set<JobId>, keys: map<string, JobId>, r: RequestId, reply: Reply)
    requires AnswersSound(replies, jobs, keys) && (r in replies ==> replies[r].Losing?)
    requires reply.Losing? ==> reply.key in keys
    requires reply.Duplicate? ==> reply.existing in jobs
    requires !reply.Created?
    ensures AnswersSound(replies[r := reply], jobs, keys)
  {
    var after := replies[r := reply];
    assert Winners(after) == Winners(replies);
    forall j | j in Won(replies) ensures j in Won(after) {
      var q :| q in replies && replies[q].Created? && replies[q].id == j;
      assert q in after && after[q] == replies[q];
    }
    assert Won(after) == Won(replies);
  }

  lemma OthersAnswerNobody(c: Config, s: State, a: Action)
    requires Enabled(c, s, a) && !a.Api?
    ensures Apply(c, s, a).replies == s.replies && Apply(c, s, a).keys == s.keys
    ensures Apply(c, s, a).jobs.Keys == s.jobs.Keys
  {
    assert !WriteOf(c, s, a).Insert?;
  }

  lemma SubmissionsAnswer(c: Config, s: State, op: ApiOp)
    requires Enabled(c, s, Api(op)) && op.Submit? && !IsTaken(s, op.key)
    ensures var t := Apply(c, s, Api(op));
            && t.replies == s.replies[op.request := Created(op.id)]
            && t.jobs.Keys == s.jobs.Keys + {op.id}
            && t.keys == (if IsGiven(op.key) then s.keys[op.key.value := op.id] else s.keys)
  {
  }

  lemma OtherAnswers(c: Config, s: State, op: ApiOp)
    requires Enabled(c, s, Api(op)) && !(op.Submit? && !IsTaken(s, op.key))
    ensures var t := Apply(c, s, Api(op));
            t.jobs.Keys == s.jobs.Keys && t.keys == s.keys && t.replies == RepliesAfter(s, op)
  {
    assert !ApiWrites(c, s, op).Insert?;
  }

  lemma KeysStaySound(jobs: set<JobId>, keys: map<string, JobId>, key: Option<string>, id: JobId)
    requires KeysSound(jobs, keys) && id !in jobs
    ensures KeysSound(jobs + {id}, if IsGiven(key) then keys[key.value := id] else keys)
  {
  }

  lemma SubmissionsKeepRequests(c: Config, s: State, op: ApiOp)
    requires RequestsSound(s) && Enabled(c, s, Api(op)) && op.Submit? && !IsTaken(s, op.key)
    ensures RequestsSound(Apply(c, s, Api(op)))
  {
    SubmissionsAnswer(c, s, op);
    var keys := if IsGiven(op.key) then s.keys[op.key.value := op.id] else s.keys;
    assert s.keys.Keys <= keys.Keys;
    KeysStaySound(s.jobs.Keys, s.keys, op.key, op.id);
    WinnersAreCounted(s.replies, s.jobs.Keys, s.keys, op.request, op.id, keys);
  }

  lemma OtherAnswersKeepRequests(c: Config, s: State, op: ApiOp)
    requires RequestsSound(s) && Enabled(c, s, Api(op)) && !(op.Submit? && !IsTaken(s, op.key))
    ensures RequestsSound(Apply(c, s, Api(op)))
  {
    OtherAnswers(c, s, op);
    match op
    case Submit(r, _, _, _, _, key) => LosersAreNotCounted(s.replies, s.jobs.Keys, s.keys, r, Losing(key.value));
    case Lookup(r) =>
      LosersAreNotCounted(s.replies, s.jobs.Keys, s.keys, r, Duplicate(s.keys[s.replies[r].key]));
    case Replay(_) =>
  }

  lemma RequestsStaySound(c: Config, s: State, a: Action)
    requires RequestsSound(s) && Enabled(c, s, a)
    ensures RequestsSound(Apply(c, s, a))
  {
    if !a.Api? {
      OthersAnswerNobody(c, s, a);
    } else if a.aop.Submit? && !IsTaken(s, a.aop.key) {
      SubmissionsKeepRequests(c, s, a.aop);
    } else {
      OtherAnswersKeepRequests(c, s, a.aop);
    }
  }

  lemma KeysStay(c: Config, s: State, a: Action, key: string)
    requires Enabled(c, s, a) && key in s.keys
    ensures key in Apply(c, s, a).keys && Apply(c, s, a).keys[key] == s.keys[key]
  {
    if a.Api? {
      if a.aop.Submit? && !IsTaken(s, a.aop.key) {
        SubmissionsAnswer(c, s, a.aop);
      } else {
        OtherAnswers(c, s, a.aop);
      }
    } else {
      OthersAnswerNobody(c, s, a);
    }
  }

  /** A key, once taken, belongs to one job for ever. */
  lemma {:induction false} KeysAreForever(c: Config, s: State, acts: seq<Action>, key: string)
    requires Valid(c, s, acts) && key in s.keys
    ensures key in After(c, s, acts).keys && After(c, s, acts).keys[key] == s.keys[key]
    decreases |acts|
  {
    if acts != [] {
      KeysStay(c, s, acts[0], key);
      KeysAreForever(c, Apply(c, s, acts[0]), acts[1..], key);
    }
  }

  lemma {:induction false} RunsKeepRequests(c: Config, s: State, acts: seq<Action>)
    requires RequestsSound(s) && Valid(c, s, acts)
    ensures RequestsSound(After(c, s, acts))
    decreases |acts|
  {
    if acts != [] {
      RequestsStaySound(c, s, acts[0]);
      RunsKeepRequests(c, Apply(c, s, acts[0]), acts[1..]);
    }
  }

  /** However requests interleave: every 201 created its own job and no job came
      otherwise, different keys have different jobs, and a request turned away
      names the job of a request that was not. */
  lemma CreationIsIdempotent(c: Config, s: State)
    requires Reachable(c, s)
    ensures |Winners(s.replies)| == |s.jobs| && Won(s.replies) == s.jobs.Keys
    ensures forall k, l | k in s.keys && l in s.keys && k != l :: s.keys[k] != s.keys[l]
    ensures forall r | r in s.replies && s.replies[r].Duplicate? :: s.replies[r].existing in Won(s.replies)
    ensures forall r | r in s.replies && s.replies[r].Losing? ::
              s.replies[r].key in s.keys && s.keys[s.replies[r].key] in Won(s.replies)
  {
    var start: int, acts :| Leads(c, Initial(start), acts, s);
    assert Winners(Initial(start).replies) == {};
    RunsKeepRequests(c, Initial(start), acts);
  }

  /** Turned away over `key`, and perhaps answered since. */
  predicate LostOver(replies: map<RequestId, Reply>, r: RequestId, key: string) {
    r in replies && (replies[r] == Losing(key) || replies[r].Duplicate?)
  }

  lemma LossesStay(c: Config, s: State, a: Action, r: RequestId, key: string)
    requires LostOver(s.replies, r, key) && Enabled(c, s, a)
    ensures LostOver(Apply(c, s, a).replies, r, key)
  {
  }

  lemma {:induction false} LossesAreForever(c: Config, s: State, acts: seq<Action>, r: RequestId, key: string)
    requires LostOver(s.replies, r, key) && Valid(c, s, acts)
    ensures LostOver(After(c, s, acts).replies, r, key)
    decreases |acts|
  {
    hide Enabled, Apply, LostOver;
    if acts != [] {
      LossesStay(c, s, acts[0], r, key);
      LossesAreForever(c, Apply(c, s, acts[0]), acts[1..], r, key);
    }
  }

  /** A request that loses the race for a key leaves no row behind, and whenever
      it looks, however late, it finds the winner. */
  lemma LosersFindTheWinner(c: Config, s: State, op: ApiOp, acts: seq<Action>, t: State)
    requires op.Submit? && Enabled(c, s, Api(op)) && IsTaken(s, op.key)
    requires Leads(c, Apply(c, s, Api(op)), acts, t) && Enabled(c, t, Api(Lookup(op.request)))
    ensures Apply(c, s, Api(op)).jobs.Keys == s.jobs.Keys
    ensures Apply(c, t, Api(Lookup(op.request))).replies[op.request] == Duplicate(s.keys[op.key.value])
  {
    OtherAnswers(c, s, op);
    KeysAreForever(c, Apply(c, s, Api(op)), acts, op.key.value);
    LossesAreForever(c, Apply(c, s, Api(op)), acts, op.request, op.key.value);
  }

  // ---------------------------------------------------------------- metrics

  function WithStatus(jobs: map<JobId, Entry>, status: Status): set<JobId> {
    set j | j in jobs && jobs[j].row.status == status
  }

  /** `SELECT status, COUNT(*) ... GROUP BY status`: no row for an absent status. */
  function GroupedByStatus(jobs: map<JobId, Entry>): map<Status, nat> {
    map status | status in {Pending, Queued, Claimed, Sent, Failed, DeadLettered} && WithStatus(jobs, status) != {} ::
      |WithStatus(jobs, status)|
  }

  /** `counts = dict.fromkeys(JOB_STATUSES, 0)`, updated with the groups. */
  function Metrics(jobs: map<JobId, Entry>): map<Status, nat> {
    map[Pending := 0, Queued := 0, Claimed := 0, Sent := 0, Failed := 0, DeadLettered := 0] + GroupedByStatus(jobs)
  }

  lemma MetricsCount(jobs: map<JobId, Entry>, status: Status)
    ensures status in Metrics(jobs) && Metrics(jobs)[status] == |WithStatus(jobs, status)|
    ensures Metrics(jobs)[status] == |set j | j in jobs && jobs[j].row.status == status|
  {
    assert WithStatus(jobs, status) == set j | j in jobs && jobs[j].row.status == status;
  }

  lemma FiveParts(whole: set<JobId>, p: set<JobId>, q: set<JobId>, l: set<JobId>, m: set<JobId>, d: set<JobId>)
    requires whole == p + q + l + m + d
    requires p !! q !! l !! m !! d
    ensures |whole| == |p| + |q| + |l| + |m| + |d|
  {
    assert |p + q| == |p| + |q|;
    assert |p + q + l| == |p + q| + |l|;
    assert |p + q + l + m| == |p + q + l| + |m|;
  }

  lemma EveryJobHasOneStatus(jobs: map<JobId, Entry>)
    requires forall j | j in jobs :: jobs[j].row.status != Failed
    ensures jobs.Keys == WithStatus(jobs, Pending) + WithStatus(jobs, Queued) + WithStatus(jobs, Claimed)
                         + WithStatus(jobs, Sent) + WithStatus(jobs, DeadLettered)
  {
    forall j | j in jobs
      ensures j in WithStatus(jobs, Pending) + WithStatus(jobs, Queued) + WithStatus(jobs, Claimed)
                   + WithStatus(jobs, Sent) + WithStatus(jobs, DeadLettered)
    {
      assert j in WithStatus(jobs, jobs[j].row.status);
    }
  }

  lemma CountsAddUp(jobs: map<JobId, Entry>)
    requires forall j | j in jobs :: jobs[j].row.status != Failed
    ensures |WithStatus(jobs, Pending)| + |WithStatus(jobs, Queued)| + |WithStatus(jobs, Claimed)|
            + |WithStatus(jobs, Sent)| + |WithStatus(jobs, DeadLettered)| == |jobs|
    ensures |WithStatus(jobs, Failed)| == 0
  {
    assert WithStatus(jobs, Failed) == {};
    EveryJobHasOneStatus(jobs);
    FiveParts(jobs.Keys, WithStatus(jobs, Pending), WithStatus(jobs, Queued), WithStatus(jobs, Claimed),
              WithStatus(jobs, Sent), WithStatus(jobs, DeadLettered));
  }

  /** The zero-filled counts add up to the number of 201 responses, and `failed`
      is always zero. */
  lemma MetricsAddUp(c: Config, s: State)
    requires Reachable(c, s)
    ensures forall status: Status ::
              && status in Metrics(s.jobs)
              && Metrics(s.jobs)[status] == |set j | j in s.jobs && s.jobs[j].row.status == status|
    ensures Metrics(s.jobs)[Pending] + Metrics(s.jobs)[Queued] + Metrics(s.jobs)[Claimed]
            + Metrics(s.jobs)[Sent] + Metrics(s.jobs)[DeadLettered] == |Winners(s.replies)|
    ensures Metrics(s.jobs)[Failed] == 0
  {
    hide Reachable, Metrics, WithStatus, Winners, ProcessesSound;
    ReachableIsSound(c, s);
    CreationIsIdempotent(c, s);
    NothingFails(s);
    CountsAddUp(s.jobs);
    forall status: Status
      ensures status in Metrics(s.jobs) && Metrics(s.jobs)[status] == |WithStatus(s.jobs, status)|
      ensures Metrics(s.jobs)[status] == |set j | j in s.jobs && s.jobs[j].row.status == status|
    {
      MetricsCount(s.jobs, status);
    }
  }

  lemma NothingFails(s: State)
    requires EntriesSound(s)
    ensures forall j | j in s.jobs :: s.jobs[j].row.status != Failed
  {
    forall j | j in s.jobs ensures s.jobs[j].row.status != Failed {
      assert EntrySound(s.now, s.dlq, j, s.jobs[j]);
    }
  }
}
