# The job lifecycle of notify_queue, proved

notify_queue sends notifications through three kinds of processes: an API that
inserts jobs into PostgreSQL, a scheduler that promotes due jobs into three Redis
sorted sets and recovers what workers leave behind, and workers that claim,
deliver, retry, defer or dead-letter. Its guarantees (a job is never lost, never
marked sent twice, never attempted past its cap, never counted past the hourly
budget) are spread over all of them; no single statement establishes any.

This project models that lifecycle as one interleaved transition system and proves
the guarantees over every run of it.

## How the model is built

**The protocol** (`Protocol.dfy`, with `Types`, `Statements`, `Windows`,
`Scores`). A state holds the tables, the sorted sets, the locks, the rate-limit
counters, the clock, and what each worker and scheduler remembers between two
awaits. Each SQL statement, each Redis command and the transaction of
`dead_letter` is one atomic step; between any two of them anybody else may act,
time may pass, a process may fail, and Redis may be altered from outside
(`Tamper`: entries duplicated or lost, locks left over or deleted). Instants are
whole microseconds of one clock. `Statements.dfy` has each WHERE clause as a
predicate and each SET clause as a function of the row, NULL included.

**History.** Each job carries counts of what happened to it (promotions, claims,
failures, reclaims, deferrals, replays, interruptions), and the state remembers
whether a fetch ever returned a row that did not name its own worker
(`foreignFetch`), whether one came later than the heartbeat timeout after its
claim (`lateFetch`), whether a rate-limit command ever came so late that its key
had expired (`expiredKey`), and whether Redis was altered (`tampered`). No step
reads any of it; theorems use it to say what happened and what they ask for.

**The theorems** (`Columns` to `Liveness`) are invariants and statements over whole
runs. `Rows` says of each statement, column by column, what it finds and what it
leaves; the others say what comes of that. What each asks for is in its `requires`, and "own
fetches" below says that it asks for `!foreignFetch`: the fence compares the worker
id of the row a worker fetched, so it can be no better than that row. Of the fence
the condition is exact (`Ownership.FenceHoldsIffFetchesAreOwn`); the code could
test it, and fetching within the heartbeat timeout of the claim ensures it
(`Fencing.PromptRunsFetchTheirOwn`). What rests on the fence can survive a
foreign fetch or a second scheduler, so the dead letters, the cap and the sends have
laws of every run that say exactly which steps upset them:
`Ledger.DeadLettersAreConservedIff`, `Ledger.RunsStayWithinCapIff` and
`Delivery.SendsAreCounted`. `LateFetches` has two runs in which such steps are
taken. The budget wants `!expiredKey`, which prompt
commands ensure (`Budget.PromptCommandsFindTheirKeys`).

**The program** (`Store`, `Cluster`, `Claiming`, `Delivering`, `Working`,
`Ticking`, `Serving`). PostgreSQL and Redis are mutable objects with a method for
each statement or command, and the handlers are methods written as the source
writes them: loops, early returns, `await` as a call after which anybody may have
acted and which may raise. `Cluster.Valid()` says that everything done so far is a
run of the protocol; every handler keeps it, so every theorem about runs holds of
the handlers, and their contracts say what a call achieves in the midst of
everybody else's steps.

## Model

| member | source | states |
|---|---|---|
| Windows.DelaysEndInTheNextWindow | src/notify_queue/ratelimit.py:25-28 | For every microsecond, the computed delay, counted from that microsecond, ends in the next hour and no later than one second into it. |
| Windows.WindowsNeverShareAKey | src/notify_queue/ratelimit.py:20-22 | Two windows have the same Redis key only if recipient and hour are the same, colons in recipients included. |
| Scores.ScoreOrdersLikeThePair | src/notify_queue/scheduler/scheduler.py:50-57 | The one-number score orders jobs exactly as the pair (priority, send_at), ties included, for instants within 10^10 seconds. |
| Scores.WhenTheWeightDominates | src/notify_queue/scheduler/scheduler.py:12-14 | A higher priority scores below a lower one if and only if it is not due later by the weights between them: 10^10 seconds a step, two steps from high to low. |
| Scores.AncientLowJobsScoreBelowHighOnes | src/notify_queue/scheduler/scheduler.py:50-57 | Two dates the API accepts for which it does not: a low-priority job for the year 1000 scores below every present high-priority one. |
| Columns.ReachableIsSound | src/notify_queue/worker/delivery.py:27-48 | In every reachable state, whatever fails: worker_id, claimed_at and heartbeat_at are set with claimed_at <= heartbeat_at <= now when claimed and null when pending, queued or dead-lettered; failed_at is set iff dead-lettered; `failed` is never reached; claims never outnumber promotions; a dead-lettered job has its row. |
| Columns.JobsKeepTheirTerms | src/notify_queue/api/routes.py:16-20 | Recipient, priority and max_attempts of a job never change, in any run. |
| Rows.SubmissionsStoreWhatWasAsked | src/notify_queue/api/routes.py:57-87 | A submission stores one pending row with the recipient, priority and send_at asked for, the max_attempts of the settings, no attempts and every other column null, and the key with it; unless a non-empty key is given and taken: then nothing is stored. |
| Rows.PromotionTakesExactlyTheDue | src/notify_queue/scheduler/scheduler.py:16-28 | The rows taken are pending, not locked and due within the lookahead, at most as many as the limit and none behind one left; they become queued with priority and send_at as they were, and no other row changes; a statement that finds none locked and takes fewer than its limit leaves no pending row that is due. |
| Rows.PromotableIffDue | src/notify_queue/scheduler/scheduler.py:16-28 | A promotion may take a given job, others being locked or not, if and only if it is pending and due within the lookahead. |
| Rows.SweepsTakeTheStranded | src/notify_queue/scheduler/scheduler.py:42-47 | The sweep writes nothing; it selects rows queued for longer than the limit of age, and all of them if it selects fewer than its limit of number. |
| Rows.ClaimsTakeTheQueued | src/notify_queue/worker/claim.py:12-18 | CLAIM_QUEUED_JOB, every column: written iff the row is queued; worker_id is the claimer's and claimed_at and heartbeat_at are the time of the statement. |
| Rows.HeartbeatsRefreshTheRow | src/notify_queue/worker/heartbeat.py:9-12 | UPDATE_HEARTBEAT, every column: written iff the row is claimed by the worker that sends it, with the time of the statement. |
| Rows.SendsMarkTheRow | src/notify_queue/worker/delivery.py:27-31 | MARK_SENT, every column: written iff the row is claimed by the worker the fetched row names; sent_at is the time of the statement. |
| Rows.RetriesComeDueAfterTheBackoff | src/notify_queue/worker/delivery.py:33-40 | SCHEDULE_RETRY, every column: send_at and next_retry_at are the reading of the clock plus base * 2^(attempt - 1), the attempt is one more than the one fetched, and no other row changes. |
| Rows.DeferralsComeDueLater | src/notify_queue/worker/delivery.py:42-48 | DEFER_TO_NEXT_WINDOW, every column: send_at is the second reading of the clock plus the delay, and no attempt is charged. |
| Rows.FailuresAtTheCapLeaveALetter | src/notify_queue/dlq.py:15-60 | The transaction of dead_letter after a failure, every column of both tables: one letter with the job, the recipient fetched, the attempt the row now has and the error. |
| Rows.BurialsAfterRecoveryLeaveALetter | src/notify_queue/dlq.py:15-60 | The same from recovery, which passes no worker id: the letter and the row have the attempts the recovery returned. |
| Rows.ReplaysComeDueAtOnce | src/notify_queue/api/routes.py:47-54 | RETRY_DEAD_LETTERED_JOB, every column: a dead-lettered job becomes pending, due now, with no attempts, error or failure left; any other job is as it was. |
| Waiting.NothingIsPromotedEarly | src/notify_queue/scheduler/scheduler.py:16-28 | Over every run, whatever was fetched, however many schedulers: a pending job is not promoted before its send_at, less the lookahead, unless it has been replayed since. |
| Waiting.JobsWaitAsRequested | src/notify_queue/api/routes.py:57-76 | Over every run, until its first promotion the row of a job is to the letter what the request asked for, and a promotion may take it exactly from the send_at of the request on, less the lookahead. |
| Waiting.DeferredJobsArePutOff | src/notify_queue/worker/delivery.py:162-175 | A deferral that is written makes the row due after the refused hour, by at most a second and the time between the readings of the clock, at no charge; and over every run no promotion takes the job before the top of the next hour, less the lookahead, unless it has been replayed. |
| Waiting.RetriedJobsComeBackOnTime | src/notify_queue/worker/delivery.py:143-147 | After a retry is written, and until the row is written again, a promotion may take the job exactly from the end of the backoff on, less the lookahead. |
| Waiting.RetriedJobsWait | src/notify_queue/worker/delivery.py:143-147 | Over every run no promotion takes a retried job earlier than that, unless it has been replayed. |
| Waiting.ReplayedJobsMayGoAtOnce | src/notify_queue/api/routes.py:122-131 | A promotion may take a replayed job at the very instant of the replay. |
| Fencing.FencesMatchTheClaim | src/notify_queue/worker/delivery.py:24-48 | With its own id in the fetched row, a worker's fences (dead-letter fence included) match exactly when its claim is the one in force. |
| Fencing.CoreIsReached | src/notify_queue/worker/claim.py:12-18 | In every reachable state, whatever was fetched and when: a claimed row names a worker if and only if the worker's latest claim is the one in force, and a worker whose claim is in force holds a row that names it. |
| Fencing.HandsStaySound | src/notify_queue/worker/delivery.py:75-96 | Every step of every process but a foreign fetch keeps, for every worker at once, what ties the row it fetched to the row as it is now. |
| Fencing.PromptRunsFetchTheirOwn | src/notify_queue/worker/delivery.py:83-83 | If every fetch of a run comes within the heartbeat timeout of its claim, every fetched row names the worker that fetched it. |
| Ownership.ZombiesChangeNothing | src/notify_queue/worker/delivery.py:24-26 | With own fetches, a worker whose claim is over changes no job row and adds no dead-letter row by any step, heartbeats included, in any interleaving. |
| Ownership.OwnersAlwaysDecide | src/notify_queue/worker/delivery.py:99-179 | In every reachable state, foreign fetches included: while its claim is in force, none of a worker's outcomes is refused. |
| Ownership.OutcomesEndClaims | src/notify_queue/worker/delivery.py:99-179 | In every reachable state, foreign fetches included: whether or not its fence matched, an outcome leaves its claim over for good. |
| Ownership.ColumnAndTokenHaveTheSameRuns | src/notify_queue/worker/delivery.py:27-48 | The worker_id fence refines a fencing token: with either one, the system has the same runs with own fetches, through the same states. |
| Ownership.FenceHoldsIffFetchesAreOwn | src/notify_queue/worker/delivery.py:83-103 | Along any run, every fence of every worker agrees with its claim in every state passed if and only if every fetched row names the worker that fetched it, which the code does not test. |
| Fencing.PromptFetchesAreOwn | src/notify_queue/worker/delivery.py:83-83 | After own fetches only, a fetch within the heartbeat timeout of the claim finds a row that names the fetching worker. |
| LateFetches.LateFetchesBreakTheBooks | src/notify_queue/dlq.py:13-21 | One concrete run, for every ordinary setting with a cap of one attempt: a worker that stalls before its fetch writes a row it no longer owns, an uninterrupted job spends two attempts under a cap of one, and a job never replayed gets two dead-letter rows. |
| LateFetches.LateFetchesUndoTheSent | src/notify_queue/worker/delivery.py:118-142 | Another, for every ordinary setting with a cap of two: a worker that stalls before its fetch turns the row another worker has sent into a dead-lettered one, and the job is then marked sent twice and announced twice. |
| Announcing.OutcomesAreAnnouncedOnce | src/notify_queue/dlq.py:61-69 | Every run, whatever was fetched: each send, retry and burial of a job is announced by exactly one webhook, or is about to be, or its announcement was lost with the worker or the tick that was to make it. |
| Announcing.RecordsMatchTheirNotices | src/notify_queue/worker/delivery.py:99-159 | So the dead-letter rows of a job number its dead_lettered webhooks, and the times it was marked sent its sent webhooks, fired, about to be fired or lost. |
| Delivery.SentRowsChangeIff | src/notify_queue/dlq.py:15-21 | In any reachable state, foreign fetches included, a step changes a sent row if and only if it is a failure at the cap reported by a worker whose fetched row names the worker that sent the job. |
| Delivery.SentIsFinal | src/notify_queue/worker/delivery.py:27-31 | In every run with own fetches a sent row never changes again, although the dead-letter update tests no status. |
| Delivery.SendsAreCounted | src/notify_queue/dlq.py:15-21 | Every run, whatever was fetched: the times a job was marked sent number one if it is sent now, plus the steps that undid `sent`. |
| Delivery.NoticesNeverOutnumberSends | src/notify_queue/worker/delivery.py:99-115 | In every reachable state, whatever was fetched: the "sent" webhooks fired and still to be fired for a job never outnumber the times it was marked sent, and sent_at is set iff it ever was. |
| Delivery.SentAtMostOnce | src/notify_queue/worker/delivery.py:99-115 | With own fetches, a job has been marked sent once if it is sent and never otherwise, sent_at is set iff it is sent, and the "sent" webhook fires at most once and only of a sent job, for any number of workers and schedulers. |
| Accounting.AttemptsAreFailuresPlusReclaims | src/notify_queue/worker/delivery.py:118-150 | With own fetches, attempt_count equals reported failures plus reclaims since creation or replay, though failures write a value computed from an earlier read; deferrals never count. Any number of schedulers, unless recovery has dead-lettered the job: then one. |
| Ledger.CapIsPassedIff | src/notify_queue/dlq.py:15-21 | In every reachable state, whatever was fetched: a step takes a job past its cap if and only if it recovers a claim that had spent the last attempt, or reports a failure of a fetched row that had spent it through a fence that matches, or buries a reset row with more attempts remembered than the cap. |
| Ledger.RunsStayWithinCapIff | src/notify_queue/dlq.py:15-21 | Along every run a job within its cap stays within it if and only if no such step is taken. |
| Accounting.AttemptsAreCapped | src/notify_queue/scheduler/scheduler.py:85-106 | With own fetches and one scheduler, a live job is below its cap and a dead-lettered one at it, up to the number of recovery ticks interrupted before they buried it. |
| Ledger.DeadLettersAreConservedIff | src/notify_queue/dlq.py:15-60 | Every run, any fetches and any number of schedulers: the dead-letter rows of a job are its replays + 1 if it is dead-lettered now + the steps that buried it while it already was; so they are conserved if and only if no step did, which MARK_DEAD_LETTERED does not test. |
| Accounting.DlqIsConserved | src/notify_queue/dlq.py:29-60 | With own fetches and one scheduler no step does, so dead-letter rows of a job = its replays + 1 if it is dead-lettered now. |
| Accounting.PromotionsAreClaimedOnce | src/notify_queue/worker/claim.py:21-49 | With own fetches and one scheduler, promotions = claims + 1 if the job is queued now, whatever happens to queues and locks. |
| Accounting.StatusChangesAreBounded | src/notify_queue/scheduler/scheduler.py:85-106 | With own fetches and one scheduler, the number of status changes is 3 * attempts + 3 * deferrals + the phase of the attempt in progress; with a cap of at least 1 that is at most 3 * (max_attempts + interrupted recoveries) + 1 + 3 * deferrals, reached only when dead-lettered, however workers crash. |
| Accounting.StatusChangesMakeProgress | src/notify_queue/scheduler/scheduler.py:85-106 | With own fetches and one scheduler, every status change but a deferral or a replay moves the job on in the lexicographic order of attempts and phase. |
| Budget.PromptCommandsFindTheirKeys | src/notify_queue/ratelimit.py:9-15 | If every increment and undo of a run comes before two hours have passed since the hour of its clock reading began, none finds its key expired. |
| Budget.KthCheckIsAllowedIffWithinLimit | src/notify_queue/ratelimit.py:31-47 | In every state reached with no key found expired, the k-th increment of a window is allowed exactly when k is within the limit, however late undos run or if they never do. |
| Budget.LimiterIsAnAtomicBudget | src/notify_queue/ratelimit.py:9-15 | Over any run with no key found expired, the checks allowed in a window number min(checks made, limit): the budget is never exceeded and nobody is turned away while it lasts. |
| Budget.DeferredJobsWaitForTheNextWindow | src/notify_queue/worker/delivery.py:85-90 | In such a run, a job refused in an hour is refused again in that hour at every later check, early re-promotion by the lookahead included. |
| Budget.DeferralsLandPastTheRefusedWindow | src/notify_queue/worker/delivery.py:162-175 | Every deferral of every run whose fence matches leaves a row due after the refused hour, by at most a second and the time between the two readings of the clock, and in the very next hour exactly when the readings are near enough; any other leaves the row as it was. |
| Heartbeats.RecoveryTakesExactlyTheSilent | src/notify_queue/scheduler/scheduler.py:30-40 | One recovery step resets every claim silent for longer than the timeout, charging an attempt, and touches no other row. |
| Heartbeats.TheLivelyAreSpared | src/notify_queue/worker/heartbeat.py:23-30 | Over any run, a claim whose owner committed it or a heartbeat within the timeout is not reclaimed. |
| Heartbeats.SilenceIsReclaimedIffTooLong | src/notify_queue/scheduler/scheduler.py:30-40 | After the last step of a run to claim a job or refresh it, the next recovery resets the claim, and charges an attempt, if and only if more than the timeout has passed since that step. |
| Heartbeats.HeartbeatsAreOnesOwn | src/notify_queue/worker/heartbeat.py:9-12 | In every reachable state, foreign fetches included: a heartbeat lands if and only if the worker's own claim is in force, so it never refreshes anybody else's. |
| Pacing.WaitsInClosedForm | src/notify_queue/worker/delivery.py:143-144 | The backoffs of the first m retries add up to base * (2^m - 1). |
| Pacing.RetriesArePaced | src/notify_queue/worker/delivery.py:130-147 | Over any run with own fetches, m reported failures of a job spread over at least base * (2^(m-1) - 1), less the lookahead each retry may be early by, whatever deferrals and reclaims come between. |
| Batches.BatchesSort | src/notify_queue/scheduler/scheduler.py:16-28 | Repeated promotion statements at one instant take exactly the due jobs in ceil(n / batch size) statements, in disjoint batches, none containing a job that comes before one of an earlier batch. |
| Batches.TicksSort | src/notify_queue/scheduler/scheduler.py:69-82 | The same of the protocol's own steps: of any stretch of a run that promotes at one instant until nothing is due, whichever schedulers do it, no row being locked. |
| Batches.PromotersNeverShare | src/notify_queue/scheduler/scheduler.py:16-28 | SKIP LOCKED: of the promotions at one instant, by however many schedulers and whatever each skips, no two take the same job, and together they take exactly the jobs that were due and are no longer. |
| Queues.ThreeQueuesAreOne | src/notify_queue/worker/claim.py:30-34 | In every run with Redis left alone and no job submitted for before 1970, what comes first across three queues scanned high to low is exactly what comes first in one queue ordered by score, ties included, while now plus lookahead is below 10^10 seconds. |
| Queues.ScansPopTheFirst | src/notify_queue/worker/claim.py:30-34 | The protocol's own pops: a worker's scan that finds queues empty and then pops, while nobody touches the queues, takes what comes first across the three, and that alone. |
| Queues.ScansPopTheLeast | src/notify_queue/worker/claim.py:30-34 | So, in such a run, it takes what one queue ordered by score would pop. |
| Requests.CreationIsIdempotent | src/notify_queue/api/routes.py:57-87 | However requests interleave: the 201s and the jobs correspond one to one, different keys have different jobs, and every 409 names a job some 201 created. |
| Requests.KeysAreForever | src/notify_queue/api/routes.py:22-24 | A key, once taken, maps to the same job in every later state of every run. |
| Requests.LosersFindTheWinner | src/notify_queue/api/routes.py:77-82 | A request that loses the race for a key leaves no row behind and, however late it looks, returns the winner's id. |
| Requests.MetricsAddUp | src/notify_queue/api/routes.py:104-109 | Each status has the number of jobs in it, zero included; the counts sum to the number of 201 responses in every reachable state, and `failed` is zero. |
| Liveness.NoJobIsStranded | src/notify_queue/scheduler/scheduler.py:109-123 | From every reachable state (crashes, lost entries, left-over locks, late fetches, several schedulers, interrupted ticks) a finite run of one live worker and one scheduler brings any given job to sent or dead-lettered. |
| Liveness.FailingJobsAreBuried | src/notify_queue/worker/delivery.py:118-142 | From every reachable state, if every delivery fails from then on, such a run brings any job not yet sent to the dead-letter queue. |
| Store.Database.ClaimQueued | src/notify_queue/worker/claim.py:12-18 | The conditional claim: it succeeds iff the row is queued, and then changes that row alone. |
| Store.Database.MarkAsSent | src/notify_queue/worker/delivery.py:27-31 | The fenced update: it matches iff the row is claimed by the given id, NULL matching nothing. |
| Store.Database.DeadLetterJob | src/notify_queue/dlq.py:45-60 | Status change and dead-letter row in one transaction, both iff worker_id is not distinct from the given id, whatever the status. |
| Store.Database.PromoteDue | src/notify_queue/scheduler/scheduler.py:16-28 | The rows taken were pending, not skipped and due within the lookahead, as many as the limit allows and none of them behind one left; they become queued and no other row changes; if they are fewer than the limit, no pending row but the skipped is left that is due. |
| Store.Database.RecoverStale | src/notify_queue/scheduler/scheduler.py:30-40 | Exactly the silent claims are reset, and the rows returned carry the attempt count after the increment. |
| Store.Database.InsertUnlessTaken | src/notify_queue/api/routes.py:63-76 | Job and key are inserted together, or the tables are as they were. |
| Store.Redis.PopMin | src/notify_queue/worker/claim.py:31-34 | A member of least score leaves its sorted set, or the set is empty. |
| Store.Redis.Increment | src/notify_queue/ratelimit.py:9-15 | INCR, and on a fresh or expired key, and on no other, EXPIRE in 7200 seconds, as one command; the value returned is the value stored. |
| Cluster.EveryStepEvolves | src/notify_queue/worker/delivery.py:24-26 | No step undoes time, jobs, keys, events, promotions or claims, revives a claim that is over or, with own fetches, touches a sent row. |
| Claiming.ClaimNextJob | src/notify_queue/worker/claim.py:21-49 | Among arbitrary interference: a call that returns a job has committed exactly one claim, which found that job queued and left it claimed by this worker as of then; one that returns None has popped three times and committed none, one that raises at most one. |
| Delivering.CheckRateLimit | src/notify_queue/ratelimit.py:31-47 | The verdict is what the protocol's atomic budget says, and the delay is computed from the clock read on entry, whatever happened since. |
| Delivering.HandleSuccess | src/notify_queue/worker/delivery.py:99-115 | A call that returns has run MARK_SENT, and its result says whether that wrote the row, with the time of the statement as sent_at. If so the job is sent when it returns (with own fetches), though others acted meanwhile, and the webhook fired during the call; either way the claim is over. |
| Delivering.HandleFailure | src/notify_queue/worker/delivery.py:118-159 | A call that returns has tried to write the failure, and its result says whether it did: below the cap the row is then pending and due base * 2^(attempt - 1) after the reading of the clock on entry, at the cap it is dead-lettered with a letter of the same attempt, and the right webhook fired during the call; either way the claim is over. |
| Delivering.DeferJob | src/notify_queue/worker/delivery.py:162-179 | A call that returns has tried to write the deferral, and its result says whether it did: the row is then pending and due the delay after the call's own reading of the clock, all else as it was; either way the claim is over. |
| Delivering.ProcessJob | src/notify_queue/worker/delivery.py:51-96 | A delivery that returns has tried to write a deferral, or a failure if the channel failed and a success if not, and its claim is over; one that raises has stopped its heartbeat all the same. |
| Working.HeartbeatLoop | src/notify_queue/worker/heartbeat.py:15-30 | The claim the loop serves is over, or its heartbeat is no older than the last round completed; a loop that ends before the delivery does has beaten in every round; an update that raises ends it. |
| Working.WorkerLoop | src/notify_queue/worker/__main__.py:24-50 | Of its iterations each claims a job and deals with it, or pops all three queues and finds nothing, or is aborted, and the results count them; the worker's claims, pops and aborts in the run bear the counts out, and each job reported dealt with was claimed by this worker during the call and its claim is over. |
| Ticking.BuildPipeline | src/notify_queue/scheduler/scheduler.py:60-66 | The loop of ZADDs adds one member a row, in the row's own queue and with its score, and nothing else. |
| Ticking.PromoteDueJobs | src/notify_queue/scheduler/scheduler.py:69-82 | A call that returns has run one promotion, which took exactly the jobs returned: pending, not locked, due within the lookahead, up to the limit, and all such if fewer; it has enqueued them unless there were none, and each has been promoted since the call began, whatever became of it meanwhile. A call that raises has lost the tick. |
| Ticking.RecoverStaleClaimedJobs | src/notify_queue/scheduler/scheduler.py:85-106 | A call that returns has run one recovery, which reset exactly the jobs returned, the claims silent for longer than the timeout, with an attempt charged to each, and has deleted the lock of each of them and of no other; with own fetches and one scheduler no live job is then left at its cap, up to earlier interruptions. |
| Ticking.RequeueStaleQueuedJobs | src/notify_queue/scheduler/scheduler.py:109-123 | A call that returns has run one sweep, which selected exactly the jobs returned, queued for longer than the limit of age and all such if fewer than the limit, and each of them is a member of a queue again. |
| Ticking.SchedulerLoop | src/notify_queue/scheduler/__main__.py:21-60 | What the scheduler does in the run is exactly its ticks one after the other, each the three phases whole and in order or a tick that ends where it was aborted, and the result counts those lost; each ends where the next begins. |
| Serving.CreateJob | src/notify_queue/api/routes.py:57-87 | A 201 names a job not there before, whose row this call stored with the recipient, send_at and priority of the call, pending and with no attempts, and, with a key, is the first with it; a 409 names the job the key belongs to; a key taken before the call always gives that job. |
| Serving.RetryDeadLetteredJob | src/notify_queue/api/routes.py:122-131 | The call runs one replay and accepts if and only if that found the job dead-lettered: the row is then pending and due at once, attempts zero, error and failure gone, and the dead-letter row is kept; if not, nothing changed, and 404 and 409 tell a missing job from any other. |
| Serving.GetMetrics | src/notify_queue/api/routes.py:104-109 | Every status is there with the number of jobs in it, and the counts add up to the number of 201 responses. |

## Where the code and its documentation differ

The model follows the code.

- DESIGN.md says every terminal transition tests that the caller owns a claimed
  row. The dead-letter update tests no status (`src/notify_queue/dlq.py:19`), and
  the id it compares is the one in the row the worker fetched, not the worker's
  own (`src/notify_queue/worker/delivery.py:103`). While every fetched row names
  its own worker that comes to the same, and only then
  (`Ownership.FenceHoldsIffFetchesAreOwn`); `LateFetches` has the runs in which it
  does not, `Delivery.SentRowsChangeIff` the one kind of step that can undo `sent`,
  and `Ledger.DeadLettersAreConservedIff` counts the steps that bury a job twice.
- A deferral is said to land at the top of the next window. The delay is computed
  from one reading of the clock (`src/notify_queue/ratelimit.py:41`) and added to
  a later one (`src/notify_queue/worker/delivery.py:174`), so it lands up to one
  second and the time between the two after that, and an hour or more late if the
  worker is held up long enough (`Budget.DeferralsLandPastTheRefusedWindow`).
- The weights are said to put a high-priority job first regardless of send_at. The
  score does so while the dates are less than the weights apart
  (`Scores.WhenTheWeightDominates`), and the API accepts dates that are not
  (`Scores.AncientLowJobsScoreBelowHighOnes`). Of the jobs in the queues it does
  so in every run with Redis left alone and no date before 1970, until 10^10
  seconds of Unix time (`Queues.ThreeQueuesAreOne`): jobs dated far ahead are not
  queued before they are due.
- The requeue sweep has a limit and no order, so which jobs it takes is left open.

## Left out

- The delivery itself: a worker that dies after delivering and before `MARK_SENT` may deliver twice; what is proved is about the recorded transition.
- The webhook's HTTP call, its retries and its log: a call of `fire_webhook` is one event.
- HTTP status codes other than the three answers named, request validation, logging, connection pools, signal handling, the dashboard and the scripts.
- `job_status` and `list_jobs`: they only read and format rows.
- `JobCreate.resolved_send_at`: a submission names the instant that `send_at`, `delay_seconds` or neither resolves to.
- Payload, channel and callback: carried unchanged by every statement.
- Floating point: scores are whole microseconds, so ties below the resolution of a double are not modelled.
- Clock skew between hosts and calendar arithmetic: one clock, hours of fixed length, dates printed with fixed-width digits.
- Rate-limit keys after their two-hour TTL: the protocol models them, but the budget theorems ask that no command finds its key expired.
- Unhandled exceptions in API requests: a request may stop halfway in the protocol, but the methods of `Serving` do not raise.
- Database and Redis failures that lose committed data, except for what `Tamper` does to queues and locks.
- Unending loops: `WorkerLoop`, `HeartbeatLoop` and `SchedulerLoop` take the number of rounds until their stop flag is set.
- HeartbeatLoop: how long a round takes is not bounded here; that gaps within the timeout suffice, and longer ones do not, is `Heartbeats.SilenceIsReclaimedIffTooLong`.
- NoJobIsStranded: says that a way to the end exists from everywhere, not that an unfair scheduler must take it.
