# Tasch master: a verified model

This project models the master of the Tasch cluster scheduler and proves what its
operators rely on: no job is lost or duplicated, the per-node ledger is exact, a
distributed job starts as a whole or not at all, a lost dispatch is noticed,
retries are counted, the database never misses an update, and a restart brings
back exactly the waiting jobs. The Go code modelled is `pkg/scheduler/queue.go`
and the scheduling part of `internal/daemon/master.go`.

`dafny verify dfyconfig.toml` checks the whole project.

## How it is built

The code updates shared objects in place, so the model does too. Three layers:

* **Classes.** `JobQueue` (the index-tracked heap), `GlobalScheduler` (job
  objects shared by the job table, the heap and the writer's channel),
  `GpuTracker`, `CircuitBreaker`, `FairshareCalculator` and `SchedulerServer`
  (handlers, dispatch loop, enforcers, gossip hook, database writer, restore).
  Every method is proved equal to a function of the old state.
* **Steps.** Those functions: `HeapOrder`, `Scheduling`, `Ledger`,
  `CircuitBreaker`, `Fairshare` and `MasterSteps`. One handler call, one enforcer
  sweep or one dispatch tick is one step.
* **Runs.** `Events` says when each of fourteen events can happen and what it
  does; `Runs` makes sequences of them. The theorems speak about every state of
  every run (`IsRun`) from any initial state (`Initial`), which includes the
  state after a restart.

| theorem group | modules |
|---|---|
| heap | `HeapOrder`, `JobQueue` |
| placement and ledger | `Placement`, `CoreSteps`, `Safety` |
| single events, in plain fields | `Admission`, `Outcomes` |
| gangs | `GangScheduling`, `GangOutcome`, `Groups`, `GroupLifecycle`, `Submission` |
| dispatch | `DispatchTick`, `Starts`, `Safety`, `IdleCluster`, `StuckRanks` |
| messages to workers | `Messages` |
| handshake | `Handshake` |
| retries | `RetryAccounting` |
| breaker and fairshare | `CircuitBreaker`, `Fairshare`, `ReportHistory` |
| persistence and restart | `WriteBehind`, `Restart`, `Lives`, `Rebirth`, `StragglerCrash` |
| reports as written | `ReportDelivery`, `RankReports`, `LateReports` |
| device variables | `Devices` |

`Continuity` and `ContinuitySteps` hold the one transitive relation (`Steady`)
that lets sweeps inherit what their pieces keep.

## Modelling decisions

* **Granularity.** The code takes its locks more finely than one step per
  handler. Between `Dequeue` and `MarkRunning` a job is QUEUED but outside the
  heap, and `MarkRunning` (pkg/scheduler/queue.go:294) is unconditional; such
  interleavings are not modelled.
* **Reports, two ways.** Nothing in `ReportResult` checks that the job is still
  RUNNING. *As written* (`MasterSteps.ReportAsWritten`, the one the class
  implements) it is sound for reports that find their job RUNNING:
  `ReportDelivery.AsWrittenRuns` shows that such runs are runs of the *guarded*
  report (`MasterSteps.ReportGuarded`), in which the record, the ledger, billing,
  retries and dead letters change only if the job is RUNNING while the breaker and
  group completion see every report. Guarded reports may be delayed and repeated at
  will, about any job, also about one that was started in an earlier life of the
  master. What the code does with reports that do not find their job RUNNING is
  `RankReports.WholeReport`: the whole invariant survives exactly the reports that
  `Survives` describes, group completion included, and `CodeRunsExact` says the same
  of whole runs of the code as written. Three inputs show the three ways it goes
  wrong, and `LateReports` reaches each by a run of four or six events: a repeated
  success gives away a running job's GPU, a repeated failure puts a job into the heap
  twice, and the report by which a worker confirms a cancellation queues the cancelled
  job again.
* **Stuck ranks.** A rank on top of the heap stops phases 1 and 2
  (internal/daemon/master.go:649-651), and phase 0 starts ranks of PENDING groups
  only. A rank whose gang was refused half way (internal/daemon/master.go:300-302),
  that the handshake timeout puts back, or that a restart brings back, therefore waits
  until it is cancelled, and holds up the single jobs behind it: `StuckRanks`.
* **Walltime.** `walltimeEnforcer` ignores what `Cancel` answers
  (internal/daemon/master.go:890); so does the model, where it is harmless because
  the sweep is one step.
* **Inputs.** Job and group ids are fresh (also to the database) and group ids not
  empty; demands are non-negative; member names are unique and not empty, and a
  member's advertised totals are fixed while it is a member. CEL matching is an
  arbitrary predicate over requirement and member, and CPU and memory demands are
  arbitrary non-negative numbers instead of what the regular expressions extract.
* **Time.** Integers in nanoseconds from Go's zero instant. A handler reads the
  clock once where the code may read it several times in a row.
* **Iteration order.** Go maps are ranged over in no particular order: a sweep
  takes a listing, and the theorems hold for every listing.
* **container/heap.** Written out as the library does it; `Remove` swaps with the
  last element, sifts down, and sifts up if nothing moved. A job object's index
  starts at -1 here and at 0 in Go, where it is never read before the first push.
* **The writer's channel** never blocks and carries the identity of the object, not
  its contents: the writer saves the object as it is when it takes the write, as
  the code does.
* **Groups** are values in the scheduler's table, since nothing else in the master
  holds on to a group object; jobs are objects.

## Where code and documentation differ

The model follows the code.

* docs/ARCHITECTURE.md:124 says that groups are marked FAILED on restart; only
  PENDING and RUNNING ones are (internal/daemon/master.go:1087).
* docs/ARCHITECTURE.md:130 gives the backoff as the retry count squared times ten
  seconds; it is the number of the coming retry that is squared
  (internal/daemon/master.go:496-497).
* docs/ARCHITECTURE.md:131 saves the dead letter before the job is marked FAILED;
  the code marks it first.
* docs/ARCHITECTURE.md:134 says that one rank failure cancels all siblings; a rank
  that fails because its node left does not (internal/daemon/master.go:1113-1117).
* docs/ARCHITECTURE.md:50 describes backfill as taking lower-priority jobs;
  `Backfill` takes the first match in the order of the heap's array, which need
  not be the best-priority match (pkg/scheduler/queue.go:200).

## Model

| member | source | states |
|---|---|---|
| HeapOrder.UpRestoresOrder | pkg/scheduler/queue.go:98-109 | sifting up repairs a heap whose only misfit is above one position |
| HeapOrder.DownRestoresOrder | pkg/scheduler/queue.go:98-109 | sifting down repairs a heap whose only misfit is below one position |
| HeapOrder.PushCorrect | pkg/scheduler/queue.go:111-116 | a push keeps heap order under (priority, submit time) and adds exactly the new job |
| HeapOrder.PopCorrect | pkg/scheduler/queue.go:169-176 | a pop keeps heap order and takes away exactly the root |
| HeapOrder.RemoveCorrect | pkg/scheduler/queue.go:197-221 | removal at any index keeps heap order and takes away exactly the job that sat there |
| HeapOrder.RootIsMinimal | pkg/scheduler/queue.go:179-186 | the job that Peek shows has the smallest priority number of all, and was the first submitted of those that have it |
| HeapOrder.DrainSorts | pkg/scheduler/queue.go:169-176 | dequeuing until empty yields a permutation of the heap sorted by priority number, and among equal numbers by submit time |
| HeapOrder.SmallerPriorityFirst | pkg/scheduler/queue.go:98-103 | of two queued jobs the one with the smaller priority number comes out first |
| HeapOrder.EarlierSubmissionFirst | pkg/scheduler/queue.go:98-103 | of two queued jobs of equal priority the strictly earlier submitted one comes out first |
| JobQueue.JobQueue.Swap | pkg/scheduler/queue.go:105-109 | exchanges two slots and keeps every job knowing its own slot |
| JobQueue.JobQueue.SiftUp | pkg/scheduler/queue.go:105-109 | the library loop computes the functional sift-up; slots after the start are untouched |
| JobQueue.JobQueue.SiftDown | pkg/scheduler/queue.go:105-109 | the library loop computes the functional sift-down on the first n slots and reports whether anything moved |
| JobQueue.JobQueue.Append | pkg/scheduler/queue.go:111-116 | appends a job and sets its index to its slot |
| JobQueue.JobQueue.RemoveLast | pkg/scheduler/queue.go:118-126 | cuts off the last job and sets its index to -1 |
| JobQueue.JobQueue.Push | pkg/scheduler/queue.go:154-166 | heap.Push: the slice becomes the functional push; all indices exact unless the job was there already |
| JobQueue.JobQueue.Pop | pkg/scheduler/queue.go:169-176 | heap.Pop: returns the old root with index -1, all other indices exact |
| JobQueue.JobQueue.Remove | pkg/scheduler/queue.go:197-221 | heap.Remove at any index: exactly that job leaves with index -1, all other indices exact |
| GlobalScheduler.GlobalScheduler.constructor | pkg/scheduler/queue.go:142-150 | a new scheduler tracks nothing |
| GlobalScheduler.GlobalScheduler.Unqueue | pkg/scheduler/queue.go:217-219 | removing by the stored index removes the job that carries it and no other |
| GlobalScheduler.GlobalScheduler.Enqueue | pkg/scheduler/queue.go:154-166 | refuses exactly when a positive bound is reached, leaving no trace; otherwise tracks, queues and announces the job |
| GlobalScheduler.GlobalScheduler.Dequeue | pkg/scheduler/queue.go:169-176 | returns and unqueues the top job, or nothing from an empty heap |
| GlobalScheduler.GlobalScheduler.Peek | pkg/scheduler/queue.go:179-186 | returns the top job and changes nothing |
| GlobalScheduler.GlobalScheduler.Backfill | pkg/scheduler/queue.go:197-207 | unqueues the first match in array order, or changes nothing |
| GlobalScheduler.GlobalScheduler.RemoveById | pkg/scheduler/queue.go:210-221 | unqueues the named job iff it is QUEUED |
| GlobalScheduler.GlobalScheduler.Cancel | pkg/scheduler/queue.go:224-253 | succeeds iff the job is QUEUED or RUNNING; the cancelled record is stored and announced, and leaves the heap if queued |
| GlobalScheduler.GlobalScheduler.Requeue | pkg/scheduler/queue.go:256-279 | resets the runtime fields, counts the retry if asked to, pushes without looking and announces; an unknown id changes nothing; the back pointers stay exact if the job was outside the heap |
| GlobalScheduler.GlobalScheduler.MarkRunning | pkg/scheduler/queue.go:294-306 | sets state, node and start time of a known job, whatever its state |
| GlobalScheduler.GlobalScheduler.RequeueRunningJob | pkg/scheduler/queue.go:309-323 | pushes a RUNNING job without looking; any other job is left alone; the back pointers stay exact if the job was outside the heap |
| GlobalScheduler.GlobalScheduler.MarkCompleted | pkg/scheduler/queue.go:326-347 | settles a known job unless it is CANCELLED |
| GlobalScheduler.GlobalScheduler.GetJob | pkg/scheduler/queue.go:350-358 | looks a job up |
| GlobalScheduler.GlobalScheduler.ListJobs | pkg/scheduler/queue.go:361-388 | lists exactly the jobs that pass the filter, each once, in some order |
| GlobalScheduler.GlobalScheduler.RegisterGroup | pkg/scheduler/queue.go:394-399 | stores and announces a group |
| GlobalScheduler.GlobalScheduler.GetGroup | pkg/scheduler/queue.go:402-410 | looks a group up |
| GlobalScheduler.GlobalScheduler.PendingGroups | pkg/scheduler/queue.go:413-423 | lists exactly the PENDING groups, each once, in some order |
| GlobalScheduler.GlobalScheduler.SetGroupState | pkg/scheduler/queue.go:426-436 | changes the state of a known group and announces it |
| Scheduling.Position | pkg/scheduler/queue.go:217-219 | the slot that holds the job, or the length of the heap if none does |
| Scheduling.FirstMatch | pkg/scheduler/queue.go:197-207 | the first slot whose job matches, or the length of the heap if none does |
| Ledger.GpuTracker.Allocate | internal/daemon/master.go:143-149 | adds the demand to the node in all three tables |
| Ledger.GpuTracker.Release | internal/daemon/master.go:151-166 | subtracts the demand in all three tables and deletes entries at or below zero |
| Ledger.Deduct | internal/daemon/master.go:154-157 | one table: subtraction with the clamp |
| Ledger.AllocateAdds | internal/daemon/master.go:143-149 | charging changes what one node holds, by exactly the demand |
| Ledger.ReleaseSubtracts | internal/daemon/master.go:151-166 | the clamp discards nothing exactly when the node holds at least the demand; other nodes are untouched |
| Ledger.ReleaseUndoesAllocate | internal/daemon/master.go:143-166 | releasing what was allocated restores what every node holds |
| Ledger.DispatchFits | internal/daemon/master.go:707-747 | the capacity check admits a job exactly when charging it keeps the node within its advertised totals |
| Ledger.LoadSplits | internal/daemon/master.go:143-166 | the sum over RUNNING jobs that the ledger has to equal does not depend on the order of summation |
| Ledger.LoadUpdated | internal/daemon/master.go:143-166 | how that sum follows a change of one job |
| Ledger.LoadCoversJob | internal/daemon/master.go:151-166 | a RUNNING job's demand is part of its node's sum |
| CircuitBreaker.CircuitBreaker.RecordFailure | internal/daemon/master.go:85-100 | counts a failure unless the same job failed last on the node; the third one blocks the node for five minutes |
| CircuitBreaker.CircuitBreaker.RecordSuccess | internal/daemon/master.go:102-108 | forgets all about the node |
| CircuitBreaker.CircuitBreaker.IsBlocked | internal/daemon/master.go:110-124 | answers whether the deadline has not passed, and forgets a node whose deadline has |
| CircuitBreaker.QueryKeepsAnswers | internal/daemon/master.go:110-124 | asking about one node never changes the answer for any node |
| CircuitBreaker.RefinesHistory | internal/daemon/master.go:85-124 | after any history the three tables say of a node exactly: the failures since its last reset with repeats of one job collapsed, blocked iff three of them, until the last plus five minutes |
| CircuitBreaker.BlockedMeansThreeFaults | internal/daemon/master.go:110-124 | what a caller of IsBlocked learns, in terms of the history alone |
| CircuitBreaker.RepeatsCountOnce | internal/daemon/master.go:89-93 | a job that keeps failing on a node counts once |
| Fairshare.FairshareCalculator.RecordUsage | pkg/scheduler/queue.go:454-458 | adds to one user's usage |
| Fairshare.FairshareCalculator.CalculatePenalty | pkg/scheduler/queue.go:461-469 | usage over a hundred, truncated; zero for unknown users |
| Fairshare.FairshareCalculator.DecayUsage | pkg/scheduler/queue.go:472-478 | scales every user's usage, in any order |
| Fairshare.UsageBound | pkg/scheduler/queue.go:454-478 | from at most 19 caps, usage stays non-negative and at most 19 caps plus what was recorded since the last decay |
| Fairshare.PenaltyBound | pkg/scheduler/queue.go:461-469 | hence never above 20 caps, and the penalty never above a fifth of the cap |
| Fairshare.PenaltyIsHundredth | pkg/scheduler/queue.go:461-469 | the penalty is one point for every full hundred of usage |
| Fairshare.UsageIsOwed | pkg/scheduler/queue.go:454-478 | after any history a user's usage is what that user owes: the own units added, a twentieth taken by each decay, nobody else's units |
| Fairshare.DecayShrinks | internal/daemon/master.go:1158-1170 | after k decays usage times (19 + k) is at most 19 times what it was |
| Fairshare.PenaltyVanishes | internal/daemon/master.go:1158-1170 | without new usage the penalty is zero after any k > 19u/100 decays |
| SchedulerServer.SchedulerServer.constructor | internal/daemon/master.go:1145-1151 | the master starts empty |
| SchedulerServer.SchedulerServer.SubmitJob | internal/daemon/master.go:219-253 | takes the state through the submission step; refuses when draining or full |
| SchedulerServer.SchedulerServer.EnqueueRanks | internal/daemon/master.go:279-305 | the rank loop: ranks are enqueued in order with their environment until the queue is full |
| SchedulerServer.SchedulerServer.SubmitDistributedJob | internal/daemon/master.go:255-315 | takes the state through the gang submission step, registering the group only if every rank was accepted |
| SchedulerServer.SchedulerServer.CancelJob | internal/daemon/master.go:317-336 | cancels, releases and tells the worker, in one step; reports whether it could |
| SchedulerServer.SchedulerServer.JudgeNode | internal/daemon/master.go:475-486 | what a report tells the breaker |
| SchedulerServer.SchedulerServer.RetryOrBury | internal/daemon/master.go:494-518 | starts the timer of the next retry, or files the dead letter of an exhausted job |
| SchedulerServer.SchedulerServer.Settle | internal/daemon/master.go:462-518 | a report up to group completion |
| SchedulerServer.SchedulerServer.ReportResult | internal/daemon/master.go:462-540 | the whole report, as written |
| SchedulerServer.SchedulerServer.CancelOthers | internal/daemon/master.go:549-564 | the loop that cancels every sibling |
| SchedulerServer.SchedulerServer.AllRanksDone | internal/daemon/master.go:568-578 | the loop that looks for a rank still queued or running |
| SchedulerServer.SchedulerServer.HandleGroupCompletion | internal/daemon/master.go:542-583 | takes the state through the group completion step |
| SchedulerServer.SchedulerServer.AcknowledgeStart | internal/daemon/master.go:961-987 | takes the job off the handshake list; answers whether it was on it |
| SchedulerServer.SchedulerServer.CanDispatchResources | internal/daemon/master.go:707-747 | true exactly when every demanded dimension fits what is left of the member |
| SchedulerServer.SchedulerServer.FirstFit | internal/daemon/master.go:655-667 | the member loop finds what first fit finds, with the breaker asked as often |
| SchedulerServer.SchedulerServer.QueuedRanks | internal/daemon/master.go:750-756 | collects the queued ranks in order |
| SchedulerServer.SchedulerServer.MatchRanks | internal/daemon/master.go:761-785 | the nested loops find what greedy matching finds, or give up |
| SchedulerServer.SchedulerServer.VendorOf | internal/daemon/master.go:818-828 | the loop that looks for the vendor the node advertises |
| SchedulerServer.SchedulerServer.DeviceList | internal/daemon/master.go:856-860 | the loop that lists the devices |
| SchedulerServer.SchedulerServer.DeviceEnv | internal/daemon/master.go:815-863 | the device variables, by vendor, where the user set none |
| SchedulerServer.SchedulerServer.DispatchJob | internal/daemon/master.go:799-870 | marks, lists for the handshake, charges and sends, with the device variables |
| Devices.DevicesListed | internal/daemon/master.go:856-860 | read back, the list names the devices 0 to n - 1, each once and in order |
| Devices.UserWins | internal/daemon/master.go:815-863 | what the user set stays as it is; a job without GPUs gets nothing new; one with GPUs gets exactly its vendor's variables |
| Devices.OrderCarries | internal/daemon/master.go:810-870 | the worker is sent the job with its command and walltime, and at least the variables it was started with |
| Devices.DevicesTold | internal/daemon/master.go:815-870 | the worker of a job with GPUs is told devices 0 to gpus - 1 in every variable of its own vendor that the user left alone |
| SchedulerServer.SchedulerServer.DispatchRanks | internal/daemon/master.go:790-795 | the loop that starts every rank on its node |
| SchedulerServer.SchedulerServer.TryDispatchGroup | internal/daemon/master.go:749-797 | takes the state through one attempt to dispatch a group |
| SchedulerServer.SchedulerServer.FailGang | internal/daemon/master.go:632-640 | the loop that cancels every rank of a gang that timed out, and fails the group |
| SchedulerServer.SchedulerServer.DispatchGangs | internal/daemon/master.go:630-642 | phase 0 over the pending groups in the order the table yields them |
| SchedulerServer.SchedulerServer.DispatchBackfill | internal/daemon/master.go:676-699 | phase 2 |
| SchedulerServer.SchedulerServer.DispatchSingles | internal/daemon/master.go:644-699 | phases 1 and 2 |
| SchedulerServer.SchedulerServer.DispatchTick | internal/daemon/master.go:630-699 | a whole tick of the dispatch loop |
| SchedulerServer.SchedulerServer.EnforceWalltime | internal/daemon/master.go:883-899 | a walltime sweep over a listing of the running jobs |
| SchedulerServer.SchedulerServer.TimedOutHandshakes | internal/daemon/master.go:912-919 | collects exactly the entries older than ten seconds, each once |
| SchedulerServer.SchedulerServer.EnforceHandshake | internal/daemon/master.go:911-937 | a handshake sweep |
| SchedulerServer.SchedulerServer.FireRetry | internal/daemon/master.go:500-510 | a retry timer fires, whatever became of its job; under the invariant of placement and timers all objects stay consistent |
| SchedulerServer.SchedulerServer.OnLeave | internal/daemon/master.go:1103-1119 | a member leaves and its jobs fail |
| SchedulerServer.SchedulerServer.WriteBack | internal/daemon/master.go:1037-1048 | the writer takes one operation and saves the object as it is now |
| SchedulerServer.SchedulerServer.RestoreJobs | internal/daemon/master.go:1066-1084 | the job loop of the restore |
| SchedulerServer.SchedulerServer.RestoreGroups | internal/daemon/master.go:1085-1093 | the group loop of the restore |
| Submission.ItoaInjective | internal/daemon/master.go:281-287 | different ranks are written differently |
| Submission.RankIdInjective | internal/daemon/master.go:281 | ranks of one group have distinct ids |
| Submission.RankEnvCarries | internal/daemon/master.go:282-290 | the five variables of a rank have their values whatever the user's environment says, and every other variable is the user's |
| Submission.AdmissionAdds | internal/daemon/master.go:279-305 | admission adds ranks of the group only, in order, and touches nobody else |
| Submission.GangRecShaped | internal/daemon/master.go:307-311 | a registered group lists as many distinct ranks as it has nodes, at least one |
| Submission.SubmitJobKeeps | internal/daemon/master.go:219-253 | submitting a job keeps the invariant |
| Submission.SubmitGangKeeps | internal/daemon/master.go:255-315 | submitting a gang keeps the invariant, also when the queue fills half way |
| Admission.SubmittedJobWaits | internal/daemon/master.go:219-253 | a job is refused, without a trace, exactly when the heap has reached a positive bound; an accepted one waits in the heap with everything as requested, priority 10 and user anonymous by default and the priority raised by the penalty |
| Admission.ItoaReads | internal/daemon/master.go:281-290 | numbers are written in decimal, without leading zeros |
| Admission.NewIsRank | internal/daemon/master.go:281-298 | every rank asks for what the request asks for, with its own id and variables, without penalty and without retries |
| Admission.AdmittedIfRoom | internal/daemon/master.go:279-305 | the ranks are all accepted exactly when they fit under the bound |
| Admission.SubmittedGangWaits | internal/daemon/master.go:255-315 | a gang of max(nodes, 1) ranks is accepted exactly when all of them fit: then each of them waits and the group is PENDING since now, listing them in order; otherwise exactly the first ranks that fit wait and no group is registered; no other job changes |
| Placement.CoreFollows | internal/daemon/master.go:143-166 | one job changes state, heap and ledger follow: the invariant of placement holds again |
| Placement.ReleaseFollows | internal/daemon/master.go:151-166 | releasing a running job's demand is exact |
| Placement.WithoutTakesJob | pkg/scheduler/queue.go:210-221 | removing by id takes out exactly the named job |
| CoreSteps.CancelJobCore | internal/daemon/master.go:317-336 | cancelling keeps heap, placement and ledger |
| CoreSteps.CancelRanksCore | internal/daemon/master.go:632-640 | the gang timeout may cancel without releasing, because no rank runs |
| CoreSteps.ReportCore | internal/daemon/master.go:462-540 | a guarded report keeps heap, placement and ledger |
| CoreSteps.RequeueAllCore | internal/daemon/master.go:925-937 | a handshake sweep moves heap and ledger together |
| CoreSteps.RetryCore | internal/daemon/master.go:500-510 | a retry puts a failed job back into the heap once |
| CoreSteps.StartCore | internal/daemon/master.go:799-808 | dispatching a queued job to a member with capacity keeps the invariant |
| CoreSteps.WalltimeCore | internal/daemon/master.go:883-896 | a walltime sweep keeps the invariant although Cancel's answer is ignored |
| CoreSteps.LeaveCore | internal/daemon/master.go:1103-1119 | a node leaving keeps the invariant |
| Outcomes.CancelExact | internal/daemon/master.go:317-336 | cancelling a RUNNING job marks it CANCELLED, gives exactly its demand back to its node and orders its worker to stop it; a QUEUED one leaves the heap; any other stays as it is; nobody else changes |
| Outcomes.ReportSettles | internal/daemon/master.go:462-518 | the first report about a run settles the record with the reported outcome, starts a timer of (retries + 1) squared times ten seconds iff a single job failed with retries left, and files a dead letter iff a failed job had retries and used them up |
| Outcomes.SingleReportExact | internal/daemon/master.go:462-518 | for a single job it also gives exactly the demand back to the node, and touches nobody else; a guarded report about a single job that is not RUNNING changes nothing but the breaker |
| Outcomes.RetryExact | internal/daemon/master.go:500-510 | a due retry puts its FAILED job back into the heap as if new, one retry older, and its timer is gone |
| Outcomes.WalltimeKillsOverruns | internal/daemon/master.go:883-899 | a sweep cancels exactly the RUNNING jobs with a positive walltime that started more than that many seconds ago, orders exactly their workers to stop them, and says nothing else; every other record is unchanged |
| Outcomes.NodeLossFailsItsJobs | internal/daemon/master.go:1103-1119 | exactly the jobs running on the lost node fail, and nothing is held there any more |
| Outcomes.NodeLossFailsItsGangs | internal/daemon/master.go:1113-1117 | exactly the RUNNING groups that had a rank running there fail |
| Events.EventKeeps | internal/daemon/master.go:462-942 | every event keeps the invariant and has its stated effect on jobs, groups, timers, dead letters and database |
| Events.ReportEffect | internal/daemon/master.go:462-540 | what a report does to its job, to the timers and to the dead letters, and that everything else is only ever announced |
| Events.ReportTimerBook | internal/daemon/master.go:495-511 | a report starts at most one retry timer, due after the quadratic backoff |
| Runs.EventInv | internal/daemon/master.go:462-942 | every event keeps the invariant of runs |
| Runs.Reachable | internal/daemon/master.go:219-942 | every state of every run satisfies the invariant |
| Safety.LedgerIsExact | internal/daemon/master.go:143-166 | in every reachable state the tracker equals the sum over RUNNING jobs of every node, is not negative and never above a member's advertised totals |
| Safety.NoReleaseIsClamped | internal/daemon/master.go:151-166 | in every reachable state releasing a running job subtracts exactly its demand |
| Safety.NoJobLostOrDuplicated | pkg/scheduler/queue.go:154-347 | in every reachable state a job is in the heap exactly once iff QUEUED, on a named member iff RUNNING, and otherwise finished with at most one pending retry; the heap holds nothing else and is ordered |
| Safety.NobodyForgotten | pkg/scheduler/queue.go:128-139 | a tracked job is never forgotten and never changes identity |
| Safety.NobodyLosesTurn | pkg/scheduler/queue.go:98-103 | of two jobs the one with the smaller priority number gets its turn first in every later state in which both wait, whatever happened to them in between; of two with equal numbers the strictly earlier submitted one |
| Safety.QueuedTakesOneTurn | pkg/scheduler/queue.go:154-323 | in every reachable state a job has a turn exactly when it is QUEUED, and then only one |
| DispatchTick.FillCorrect | internal/daemon/master.go:676-699 | backfill gives the first member that can take any single job the first one in the heap array that it can take, or no member can take any |
| DispatchTick.WorkConserving | internal/daemon/master.go:644-699 | with a single job on top of the heap: it starts, on the first member that can take it, whenever there is one; else the first member that can take any single job starts the first that it can; else nothing happens |
| DispatchTick.TopIsMinimal | pkg/scheduler/queue.go:179-186 | the job tried first has the smallest priority number of all queued jobs, and was the first submitted of those |
| Safety.TickConserves | internal/daemon/master.go:630-699 | the same for a whole tick, after the gangs had their turn |
| IdleCluster.IdleClusterRunsJob | internal/daemon/master.go:644-674 | the premises of the theorems about runs can be met: a job submitted to a new master runs on the first fitting member at the next tick |
| GangScheduling.FirstFitCorrect | internal/daemon/master.go:655-672 | the member loop finds the first unused member that advertises something, satisfies the requirement, is not blocked and has the demand left, and finds none only if there is none; it changes no answer of the breaker |
| GangScheduling.MatchSound | internal/daemon/master.go:761-785 | what greedy matching returns assigns to all ranks distinct members that can take them |
| GangScheduling.MatchGreedy | internal/daemon/master.go:761-785 | each rank goes to the first member that can take it and that no rank before it was given |
| GangScheduling.MatchCounts | internal/daemon/master.go:761-785 | greedy matching succeeds iff enough unused candidates exist |
| GangScheduling.GreedyComplete | internal/daemon/master.go:749-785 | greedy matching succeeds iff any injective assignment of the ranks to members that can take them exists |
| GangScheduling.DispatchRanksCore | internal/daemon/master.go:790-795 | starting every rank of an assignment keeps heap, placement and ledger |
| GangOutcome.AllOrNothing | internal/daemon/master.go:749-797 | a pending group whose ranks are all queued and assignable goes as a whole, each rank on the first free node that can take it, charged once, out of the heap, told so; otherwise only expired blocks are forgotten |
| GangOutcome.ReadyCounts | internal/daemon/master.go:749-785 | in terms of capacity: with all ranks queued the gang goes iff at least as many distinct members can take a rank |
| GangOutcome.NoEmptyGang | internal/daemon/master.go:787 | indexing the first matched member is safe: no pending group is empty |
| GangOutcome.GangEnvironment | internal/daemon/master.go:787-795 | payload i goes to node i and carries rank i of n and the address of the node that was given rank 0 |
| GangOutcome.RanksDistinct | internal/daemon/master.go:286 | different payloads of a gang carry different ranks |
| Starts.TickStarts | internal/daemon/master.go:630-699 | in a tick every job either starts, QUEUED before and on a member that could take it, and is put on the handshake list, or is left alone, or is a waiting rank of a gang that timed out; members stay, and no node gets anything back |
| Starts.JobStarts | internal/daemon/master.go:644-808 | over every run: a job that RUNS after a step and did not before was QUEUED, the step was a tick, and the job sits on a member that advertises something, satisfies its requirement, is not blocked and had the demand left |
| Starts.NewEntry | internal/daemon/master.go:801-805 | over every run: a new entry of the handshake list, or a new time in one, belongs to a job that a tick started at that time |
| Starts.EveryGangTurns | internal/daemon/master.go:630-642 | phase 0 gives every pending group its turn, in the order of the listing: pending for more than five minutes it is FAILED and its waiting ranks CANCELLED, else it starts as a whole if it can, else nothing happens |
| Groups.ReportOk | internal/daemon/master.go:542-583 | guarded reports about any job keep group states and rank states consistent |
| Groups.PendingHasNoRunning | internal/daemon/master.go:632-640 | a PENDING group has no RUNNING rank |
| Groups.GangPhaseKeeps | internal/daemon/master.go:630-642 | phase 0 keeps the invariant, whatever the order of the groups |
| GroupLifecycle.GroupsMoveForward | pkg/scheduler/queue.go:426-436 | along every run a group moves PENDING to RUNNING or FAILED, and RUNNING to COMPLETED or FAILED, and never otherwise but by a stray report, a success for a rank of a PENDING group whose ranks were all cancelled, which always completes it |
| GroupLifecycle.OnlyReportsComplete | internal/daemon/master.go:579-582 | no event but a report completes a group |
| GroupLifecycle.RanksMatchGroup | internal/daemon/master.go:542-583 | in every reachable state ranks of a PENDING group are queued or cancelled, of a COMPLETED one completed or cancelled, of a RUNNING one not failed |
| GroupLifecycle.RankFailureStopsGang | internal/daemon/master.go:547-567 | one reported rank failure leaves no rank waiting or running, and the group FAILED |
| GroupLifecycle.LastRankCompletesGang | internal/daemon/master.go:568-582 | a rank's success completes the running group exactly when no other rank waits or runs |
| GroupLifecycle.TimeoutStopsGang | internal/daemon/master.go:631-640 | a group pending for more than five minutes is FAILED with no rank waiting or running |
| GroupLifecycle.StrayReportCompletes | internal/daemon/master.go:568-582 | the unguarded report: a success for a rank of a PENDING group, whatever the rank's state, completes the group exactly when no other rank waits or runs |
| Messages.CancelHeard | internal/daemon/master.go:329-333 | a job cancelled while it held a node is ordered to stop there |
| Messages.KillHeard | internal/daemon/master.go:887-896 | so is a job killed for its walltime |
| Messages.WorkersAreTold | internal/daemon/master.go:865-870 | in every reachable state the last message about a RUNNING job started it on its node, and the last about a job cancelled while placed was the order to stop |
| Handshake.EventAccounts | internal/daemon/master.go:801-808 | every event keeps running jobs accounted for |
| Handshake.NoSilentLoss | internal/daemon/master.go:801-937 | in every reachable state a RUNNING job is on the handshake list with its latest dispatch time, or was acknowledged since |
| Handshake.SweepLeavesRecent | internal/daemon/master.go:912-937 | after a sweep every RUNNING job was acknowledged or dispatched at most ten seconds ago |
| Handshake.SweepRequeues | internal/daemon/master.go:925-937 | an expired RUNNING job is back in the heap without a trace, and the ledger holds exactly what still runs |
| Handshake.SweepExact | internal/daemon/master.go:912-937 | a sweep takes exactly the entries older than ten seconds off the list, puts exactly the RUNNING jobs among them back, and leaves every other record and entry as it is |
| Handshake.AcknowledgementIsExact | internal/daemon/master.go:961-987 | over every run: an acknowledgement takes its job off the list and changes nothing else |
| Handshake.AcknowledgedIsOff | internal/daemon/master.go:974-979 | in every reachable state a job acknowledged since its last dispatch is not on the list |
| Handshake.AcknowledgedIsSpared | internal/daemon/master.go:912-979 | over every run: a sweep leaves the record of every acknowledged job unchanged, and of every job dispatched at most ten seconds ago |
| RetryAccounting.TotalBackoffClosed | internal/daemon/master.go:496-497 | m retries wait 10 m (m + 1) (2 m + 1) / 6 seconds together |
| RetryAccounting.OneMoreFailure | internal/daemon/master.go:495-518 | a failure either schedules the next retry or leaves a dead letter |
| RetryAccounting.OneMoreRetry | pkg/scheduler/queue.go:256-279 | a pending retry becomes a retry done |
| RetryAccounting.RetriesAccounted | internal/daemon/master.go:494-518 | in every reachable state, for a single job with retries: reported failures = retries done + pending + dead letter; the count never exceeds the limit, and a dead-lettered job has reached it |
| RetryAccounting.BackoffOfBalanced | internal/daemon/master.go:496-497 | the backoff scheduled for a job so far, in closed form |
| ReportDelivery.AsWrittenRuns | internal/daemon/master.go:462-540 | under reports that find their job RUNNING, runs of the code as written are runs of the guarded master |
| ReportDelivery.UnguardedPlacement | internal/daemon/master.go:462-473 | the unguarded report keeps heap, placement and ledger iff the job is unknown or RUNNING, or finished with nothing of its demand held on its node |
| ReportDelivery.UnguardedTimers | internal/daemon/master.go:494-512 | the unguarded report keeps at most one timer per job, of a FAILED job with retries left, iff the job is unknown or RUNNING, or has no timer and is not CANCELLED with retries left to a reported failure |
| ReportDelivery.UnguardedReport | internal/daemon/master.go:462-512 | the unguarded report keeps heap, placement, ledger and retry timers iff the job is unknown, or RUNNING, or finished with nothing of its demand held on its node, without a pending timer, and not CANCELLED with retries left to a reported failure |
| ReportDelivery.UnguardedSingleReport | internal/daemon/master.go:462-540 | for single jobs the same, of the whole report and the whole invariant |
| ReportDelivery.UnguardedRankReport | internal/daemon/master.go:462-583 | a report about a finished rank keeps group and rank states consistent unless it fails a COMPLETED rank of a COMPLETED group |
| RankReports.AlwaysSpread | internal/daemon/master.go:761-795 | in every reachable state the ranks of a group that hold or held a node last are on distinct nodes |
| RankReports.WholePlacement | internal/daemon/master.go:462-583 | the whole unguarded report, group completion included, keeps heap, placement and ledger iff the job is unknown or RUNNING, or finished with nothing of its demand held on its node: cancelling siblings never repairs a ledger |
| RankReports.WholeReport | internal/daemon/master.go:462-583 | the whole unguarded report keeps the whole invariant iff it is harmless and does not fail a COMPLETED rank of a COMPLETED group |
| RankReports.CodeRunsExact | internal/daemon/master.go:462-583 | a run of the code as written, with reports at any time, keeps the invariant up to a state iff every report so far was such a one |
| LateReports.OvercommitReached | internal/daemon/master.go:470-473 | a run of six events leads to a state in which a repeated success leaves the ledger with fewer GPUs than the jobs on the node use |
| LateReports.SecondRetryReached | internal/daemon/master.go:495-512 | a run of four events leads to a state in which a repeated failure starts a second timer, and both firings put the job into the heap twice |
| LateReports.RevivalReached | internal/daemon/master.go:495-512 | a run of four events leads to a state in which the worker's confirmation of a cancellation starts a timer that queues the cancelled job |
| ReportDelivery.DuplicateReportOvercommits | internal/daemon/master.go:470-473 | a concrete repeated report that gives away a running job's GPU |
| ReportDelivery.DuplicateFailureRetriesTwice | internal/daemon/master.go:495-512 | a concrete repeated failure report that starts a second timer; when both have fired the heap holds the job twice |
| ReportDelivery.CancelledJobRunsAgain | internal/daemon/master.go:495-512 | a failure reported by the worker of a cancelled job starts a timer, and the timer puts the cancelled job back into the heap |
| CircuitBreaker.FreshFaultsBlock | internal/daemon/master.go:85-124 | with clocks that never go back three counted failures since the last success, all within five minutes, block the node: no block is forgotten early |
| CircuitBreaker.BlockedHasFailed | internal/daemon/master.go:85-124 | conversely a blocked node failed three times since its last success, one of them in the last five minutes |
| ReportHistory.BreakerIsHistory | internal/daemon/master.go:475-486 | in every reachable state the breaker is what its history makes of it: the failures and successes reported about tracked jobs, user errors left out, and the members each tick asked about at its time, in order |
| ReportHistory.OwnFaultIsTold | internal/daemon/master.go:479-484 | a failure is not held against the node iff its error begins with "exit status", is "cancelled" or contains "walltime exceeded" |
| ReportHistory.BlockedExactly | internal/daemon/master.go:110-124 | in every reachable state a node is out of service exactly while that history holds three counted failures since its last reset, until five minutes after the last |
| ReportHistory.SinceReports | internal/daemon/master.go:475-486 | which failures stand since the last success depends on the reports alone |
| ReportHistory.BlockedNodeFailed | internal/daemon/master.go:475-486 | a node is only ever out of service after three reported failures since its last reported success, one of them in the last five minutes |
| ReportHistory.FreshFailuresBlock | internal/daemon/master.go:475-486 | along runs whose clocks never go back, three counted failures reported since the last success and within five minutes put the node out of service |
| ReportHistory.UsageAccounted | internal/daemon/master.go:488-492 | in every reachable state every user's usage is what the user owes for the time that the reported runs took, decayed |
| ReportHistory.PenaltyNeverHelps | internal/daemon/master.go:233-234 | usage never gets negative, so a penalty never improves a priority |
| StuckRanks.GangPhaseSpares | internal/daemon/master.go:630-642 | phase 0 leaves every job as it is but the ranks of PENDING groups |
| StuckRanks.TickHeldUp | internal/daemon/master.go:644-651 | a tick that finds a stuck rank ahead of all single jobs changes none of them |
| StuckRanks.OnlyTicksStart | internal/daemon/master.go:462-942 | no event but a tick starts a job |
| StuckRanks.EventLetsRest | internal/daemon/master.go:462-942 | whatever happens, a stuck rank stays as it is or is cancelled |
| StuckRanks.StuckUntilCancelled | internal/daemon/master.go:630-651 | along every run a QUEUED rank whose group is not PENDING stays exactly as it is until it is cancelled, and then stays cancelled |
| StuckRanks.StuckRankHoldsUp | internal/daemon/master.go:649-651 | along every run, as long as such a rank is ahead of all waiting single jobs and not cancelled, no single job starts |
| StuckRanks.RefusedSticksRanks | internal/daemon/master.go:279-305 | every rank that a gang refused half way leaves behind is such a rank |
| StuckRanks.RestartSticksRanks | internal/daemon/master.go:1066-1093 | so is every rank that waits after a restart |
| StuckRanks.HandshakeSticksRank | internal/daemon/master.go:925-937 | and so is every rank that a handshake timeout puts back |
| WriteBehind.EventAgrees | internal/daemon/master.go:1057-1063 | every event announces what it changes |
| WriteBehind.NoUpdateLost | internal/daemon/master.go:1027-1063 | in every reachable state every tracked job and group is stored as it is, or its write is in the channel |
| WriteBehind.FlushSynchronises | internal/daemon/master.go:1051-1055 | draining the channel makes database and memory equal |
| Restart.StoreAfterRestart | internal/daemon/master.go:1066-1093 | afterwards the database holds the same jobs, the running ones failed and all others as they were, and no group in mid-flight |
| Restart.MemoryAfterRestart | internal/daemon/master.go:1069-1073 | from any image the heap is valid and holds persisted QUEUED jobs only; all of them exactly when they fit the bound |
| Restart.GroupsAfterRestart | internal/daemon/master.go:1085-1093 | exactly the stored groups are registered |
| Restart.NothingInFlight | internal/daemon/master.go:1073-1091 | no RUNNING job and no PENDING or RUNNING group is left, in memory or database |
| Restart.RestartTwice | internal/daemon/master.go:1065-1093 | restarting again, at any later time, gives the very same master |
| Lives.AlwaysArchived | internal/daemon/master.go:1031-1063 | at every moment of every run the database agrees with memory on everything but states |
| Lives.ArchiveIsSane | internal/daemon/master.go:1031-1063 | so it always holds an image that can be restored |
| Rebirth.CrashIsRecoverable | internal/daemon/master.go:1065-1093 | restoring what a crash at any moment left gives a well-formed heap, ledger and groups that database and memory agree on; and an initial state of runs if no queued rank is stored with a COMPLETED group |
| StragglerCrash.CompletionOvertakes | internal/daemon/master.go:1037-1048 | the writer saves a group as it is when the write is taken: a last success before an old group write leaves a COMPLETED group with a QUEUED rank in the database |
| StragglerCrash.CrashLeavesStraggler | internal/daemon/master.go:1031-1063 | a run of six events from an empty database that leaves such an image: submit a gang of one, a member joins, one write, a tick, the success, one write |
| Rebirth.RestoredRanks | internal/daemon/master.go:1065-1093 | that condition is also necessary when every queued job was restored |
| Rebirth.CleanRestart | internal/daemon/master.go:1051-1093 | after a clean shutdown the next life starts in an initial state again, with database and memory in agreement |
| Rebirth.QueuedSurvive | internal/daemon/master.go:1069-1072 | every job QUEUED at a clean shutdown is in the new heap with its record unchanged, if they fit |
| Rebirth.OnlyQueuedReturn | internal/daemon/master.go:1069-1079 | no other job comes back |

## Left out

- gRPC, HTTP, ZMQ, gossip, metrics, logs, TLS, configuration and the command line: plumbing. Messages to workers are values in a log, members are a sequence of name, address, totals and GPU vendor.
- Workers: they are an environment that reports, acknowledges, joins and leaves as it likes within the hypotheses above; process execution and reconnecting are not modelled.
- CEL evaluation and the regular expressions of `parseCELRequirement`: library behaviour.
- Output truncation, the read-only status and listing handlers: string building and reporting.
- BoltDB and JSON: saving and loading is lossless and never fails here; corrupt entries are not modelled. When usage is saved is not modelled either: a restart starts from any usage.
- Finer interleavings than one step per handler, sweep or tick; a full channel that blocks the scheduler; integer overflow.
- Exactly-once execution, eventual dispatch, the queue bound as a global bound (requeueing bypasses it), all-or-nothing admission of a distributed job, and FAILED groups having finished ranks only: the code does not promise them.
- Fairshare.PenaltyBound: over exact reals; rounding of floating-point numbers is not modelled.
- RetryAccounting.RetriesAccounted: one life of the master; retry timers do not survive a restart, and a job whose dead letter is filed may come back if its last writes had not reached the database.
- ReportDelivery.UnguardedReport: the report up to group completion; RankReports.WholeReport states all of it. A report that survives may still change the record of a finished job, and a failure reported for a COMPLETED job with retries left runs it again.
- ReportHistory.FreshFailuresBlock: the job ids reported are not empty, since the breaker takes an empty id for no failure at all.
- SchedulerServer.SchedulerServer.FireRetry: after a push of a job that is in the heap already, which the invariant of timers rules out, only the state is promised, not that every job knows its slot; the same holds of GlobalScheduler.GlobalScheduler.Requeue and GlobalScheduler.GlobalScheduler.RequeueRunningJob.
- Rebirth.CrashIsRecoverable: a crash may leave a queued rank stored with a COMPLETED group, because a group write that waited in the channel saves the group as it is by then, ahead of its ranks' own writes; StragglerCrash.CrashLeavesStraggler is such a run. Then the restored state is well-formed but not an initial state of runs, and the theorems about runs are not claimed for that life.
- Messages.WorkersAreTold: nothing is said about a job that was requeued by the handshake timeout; its old worker may still run it.
