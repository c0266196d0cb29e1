# Orchestrate: scheduler, admission cap and attempt loop

A Dafny model of the parts of the job orchestrator that decide what runs, when, and against whose quota,
with proofs about them.

* **Workflow scheduler** (`shared/src/chain/chain.service.ts`). A submission is checked (keys, root, cycles),
  stored as job and dependency rows, and run one job at a time: whenever a job ends, or fails an attempt, the
  scheduler counts the active jobs, searches the whole job table again, marks the job found QUEUED and submits it.
* **Per-tenant cap** (`shared/src/scaling/tenant-cap.service.ts`). At most five slots a tenant; what finds no
  slot waits in a first-in first-out staging list and is drained when a slot is released. The reconcile counters
  and the report built from them hang on the same operations.
* **Attempt loop** (`workers/src/base-worker/base.processor.ts`). It decides when a job has ended, gives the slot
  back and calls the scheduler; it ties the other two together.
* Around them: single and batch submission, retry of failed jobs, the two job-type tables, the autoscaler and its
  worker registry.

## How the project is laid out

| file | what it holds |
|---|---|
| `Graphs`, `CycleDetector` | dependency graphs; the colouring depth-first search as an object with its two sets |
| `Sorting`, `Workflow` | the stable sort; stored workflows and the search for the next job |
| `SchedulerMachine`, `WorkflowRuns` | one workflow as a state machine whose steps are single database or queue commands; what holds along every run on any acyclic graph |
| `Forests`, `RunOrder` | run order, progress and stopping where jobs name at most one parent |
| `SearchReads`, `ArrayDependencies`, `MultiParent` | which rows a search reads; what holds, and what fails, with several parents |
| `Queues`, `TenantCap` | job types and queues; the cap, its collector and its queue as objects |
| `CapAccounting`, `CapProgress` | exact accounting when operations are not interleaved; when staged work moves and when it is stuck |
| `CapInterleaving`, `CapWitnesses` | the cap with each Redis command its own step, and concrete runs showing the bounds are sharp |
| `ChainService`, `AttemptLoop` | the scheduler and the processor as objects over the stored rows |
| `ExecuteRuns`, `JobLifecycle`, `FlowLifecycle` | the objects' methods refine the state machine and the accounting |
| `Submissions` | from an accepted submission to the end of its run |
| `BatchJobs`, `AutoScaler` | batches, single submissions and retries; the autoscaler and the registry |

Methods of classes are specified by functions (`Schedule`, `UnlockAll`, `SkipAll`, `Submit`, `Drain`, `Release`,
`Tick`, `SubmitFirst`, ...), and the promised behaviour is proved of those functions and of runs built from them.

## Assumptions

* `process(job)` is the only step of the state machine that throws; database and Redis commands do not. An unreachable
  queue is modelled wherever the cap, the scheduler or a batch enqueues (the parameters named `up...`).
* In the state machine every job type is known to both job-type tables.
* Jobs are numbered in creation order, and this number stands for `createdAt`; tenants are numbered too.
* BullMQ redelivers a failed job while fewer attempts have been made than its `attempts` option, an option of 0
  counting as 1, and raises `attemptsMade` before it fires the failed event. A job it has accepted stays "live"
  until its last delivery ends.
* A delivered job's `attempts` option is the retry count of its payload (`shared/src/queue/queue.service.ts:70`).
* The cap's Redis keys do not expire. In the interleaved model `release`'s decrement and its reset of a negative
  counter are one step.
* The autoscaler has its worker registry attached.

## What the proofs turned up

* The run-order promise holds exactly: in every reachable state, the jobs queued so far followed by what remains are
  the priority preorder of the forest, cut below failed jobs and STRICT children of a parent that failed any attempt,
  including one that later succeeds (`handleParentFailure` runs on every failed attempt).
* With several parents, which an array `dependsOn` allows, a run can come to rest while a READY job is left
  (`MultiParent.StalledRun`). `SearchReads.PicksIff` says exactly when the search finds one: a READY job must hang
  below COMPLETED jobs with no half-waiting sibling before any job of that chain.
* The cycle check looks an array up as one joined name, so it can miss a cycle through an array of several names and
  can report one that the rows would not have (`ArrayDependencies.HiddenCycle`, `InventedCycle`). Where no job is called
  like a joined array it finds exactly the cycles all of whose jobs name one parent (`Chain.CheckFinds`), so its verdict
  is right about the rows whenever no array names several (`Chain.CyclesAgree`).
* Under interleaving a tenant can have more than five jobs admitted, but never more than five plus the most releases
  in progress at once; the bound is reached for every number (`CapInterleaving.AdmittedBound`,
  `CapWitnesses.BoundIsReached`), and `PassesCapIff` names the one command that goes beyond five.
* The negative-counter reset is unreachable by whole operations (`CapAccounting.ResetNeverFires`) but not under
  interleaving: `CapWitnesses.ResetRun` reaches it and leaves one slot taken for good; `ResetFiresIff` says exactly when.
* A direct submission whose enqueue throws keeps its slot for good; the accounting carries such payloads as `lost`.
  Five of them, such as jobs submitted as `media-jobs`, lock their tenant out with every queue up: its next job is
  staged with nothing running (`CapProgress.LockoutHistory`, `CapWitnesses.LockoutRun`).
* Staged work can also be stranded by a late `RPUSH` (`CapWitnesses.StrandedRun`), a failed drain or a reset.
  `CapWitnesses.CoverageLostIff` says exactly which commands strand it, `CapProgress.StrandsIff` which operations.
* A staged payload whose type no queue knows blocks its tenant's list for good (`CapProgress.ListMovesIff`).
* The reconcile report is off by the dead-letter depth less the lost submissions (`CapAccounting.ReportMatchesIff`),
  since a finally failed job is counted under both `failed` and `dlq`.
* A queue whose workers are all gone is never given one again (`AutoScaling.StaysStaffedIff`).
* `resolveQueueName` and `getQueueName` disagree on `"media-jobs"` and on nothing else
  (`Queues.TablesAgreeExceptOnce`).
* A workflow refused for a missing key or type, or for an unknown parent, leaves rows behind that no scheduler call
  will look at; one whose first submission throws leaves a job QUEUED (`Chain.ChainService.CreateWorkFlow`).

## Model

| member | source | states |
|---|---|---|
| Graphs.AcyclicIffOrdered | shared/src/chain/chain.service.ts:80-106 | a graph of any size, self-loops and dangling references included, has no cycle exactly when its nodes can be listed dependencies first; the criterion the search's finishing order is judged by |
| CycleDetection.CycleDetector.Dfs | shared/src/chain/chain.service.ts:89-101 | finding reported only if a cycle exists; otherwise the two sets are left as the caller needs them and everything left behind is finished in dependency order |
| CycleDetection.CycleDetector.Check | shared/src/chain/chain.service.ts:86-106 | restarted from every key, the search answers true if and only if the graph it walks has a cycle; its nodes are names and array objects |
| CycleDetection.NamesDecide | shared/src/chain/chain.service.ts:83-104 | array objects, each visited as an object of its own but looked up by its joined elements, make a cycle exactly when those names do |
| Chain.HasCircularDependency | shared/src/chain/chain.service.ts:80-106 | for every submission, true exactly when the submitted names have a cycle, an array counting as the one name its elements spell joined by commas |
| Chain.CyclesAgree | shared/src/chain/chain.service.ts:80-167 | where no array names several parents, that is exactly when the rows to be stored have a cycle |
| Chain.CheckFinds | shared/src/chain/chain.service.ts:80-106 | where no job is called like a joined array, the check finds exactly the cycles all of whose jobs name one parent |
| ArrayDependencies.HiddenCycle | shared/src/chain/chain.service.ts:84-112 | otherwise the verdict can miss one: an accepted submission whose rows are stored with a cycle |
| ArrayDependencies.InventedCycle | shared/src/chain/chain.service.ts:84-112 | or invent one: a rejected submission whose rows would be acyclic |
| Chain.Validate | shared/src/chain/chain.service.ts:56-112 | the first failing check, in the source's order, and none if all pass |
| Chain.RefusedIff | shared/src/chain/chain.service.ts:56-112 | for each of the four checks, exactly the submissions it refuses, in terms of the submitted jobs |
| Chain.StoppedIff | shared/src/chain/chain.service.ts:118-166 | exactly the submissions stopped later: a job without key or type, a named parent that was not submitted |
| Chain.AcceptedIsForest | shared/src/chain/chain.service.ts:108-167 | what passes the checks with at most one parent each is stored as an acyclic forest |
| Chain.ChainService.SaveJobs | shared/src/chain/chain.service.ts:118-145 | rows and statuses of all jobs up to the first incomplete one, and a map from each key to its row |
| Chain.ChainService.SaveDependencies | shared/src/chain/chain.service.ts:146-167 | dependency rows up to the first unknown parent, the earlier ones kept, those of the same job included |
| Chain.ChainService.SaveParents | shared/src/chain/chain.service.ts:154-166 | the inner loop over one job's parents, single name or array |
| Chain.ChainService.Store | shared/src/chain/chain.service.ts:118-167 | the stored workflow on each of the two error paths and on success |
| Chain.ChainService.CreateWorkFlow | shared/src/chain/chain.service.ts:55-169 | an iff for every error and for success: stored and scheduled exactly if keys differ, some job gives no `dependsOn`, the check sees no cycle, every job has key and type, and every named parent was submitted; what each refusal leaves behind |
| Chain.StoredRowMeans | shared/src/chain/chain.service.ts:118-166 | the stored row of each job in the submission's terms: type, priority, retries, strategy, status, and the rows of exactly the parents it names |
| Chain.LeftoverRows | shared/src/chain/chain.service.ts:147-166 | which dependency rows an unknown parent leaves behind |
| Chain.ChainService.CountActive | shared/src/chain/chain.service.ts:292-298 | positive exactly when a job of the workflow is QUEUED or PROCESSING |
| Chain.ChainService.ScheduleNextJob | shared/src/chain/chain.service.ts:292-339 | rows, cap and thrown error after one call are `Schedule`'s: nothing while a job is active, else the searched job marked and submitted; no other workflow changes |
| Chain.QueuesHighest | shared/src/chain/chain.service.ts:310-322 | the job a scheduler call marks was READY, and no READY job beside it has a higher priority, or the same and an earlier creation |
| Chain.FirstQueued | shared/src/chain/chain.service.ts:169-322 | with nothing started, the job queued is exactly the first root by priority and creation |
| Chain.ChainService.UnlockChildren | shared/src/chain/chain.service.ts:215-254 | exactly the WAITING children all of whose parents are COMPLETED become READY |
| Chain.ChainService.SkipStrictChildren | shared/src/chain/chain.service.ts:595-616 | exactly the STRICT children become SKIPPED, whatever their status |
| Chain.ChainService.OnJobCompleted | shared/src/chain/chain.service.ts:203-213 | unlocking followed by one scheduler call |
| Chain.ChainService.HandleParentFailure | shared/src/chain/chain.service.ts:586-621 | skipping followed by one scheduler call |
| Sorting.StableSortSorts | shared/src/chain/chain.service.ts:486-493 | the comparator sort yields a permutation ordered by rank, ties in creation order |
| Sorting.OnlyOneOrder | shared/src/chain/chain.service.ts:486-493 | that order is the only one, so the sort's algorithm does not matter |
| Workflows.Siblings | shared/src/chain/chain.service.ts:479-493 | roots or children of a job: exactly those, each once |
| Workflows.SiblingsOrder | shared/src/chain/chain.service.ts:542-550 | siblings come by priority rank, then creation |
| Workflows.SiblingsByPriority | shared/src/chain/chain.service.ts:36-44 | of two siblings the later is never HIGH before a lower one, nor MEDIUM before LOW or NONE, nor anything before NONE; equal priorities keep their creation order |
| Workflows.Search | shared/src/chain/chain.service.ts:495-584 | the scan returns only READY jobs, and ends whenever no cycle runs through jobs it looks below alone, hence on every acyclic workflow |
| Workflows.SearchBlocksIff | shared/src/chain/chain.service.ts:495-511 | exactly a QUEUED, PROCESSING or WAITING sibling hides what lies behind it |
| Workflows.PickedIsHighest | shared/src/chain/chain.service.ts:486-499 | on any rows, the job picked has no READY job of higher priority beside it, nor an older one of the same |
| SchedulerMachine.StepKeepsInv | shared/src/chain/chain.service.ts:292-334 | every single command keeps one thread of control, dependency safety, queued-once and explained skips, and moves rows forward only |
| WorkflowRuns.MutualExclusion | shared/src/chain/chain.service.ts:292-334 | in every reachable state at most one job is QUEUED or PROCESSING, though count, search and update are separate steps |
| WorkflowRuns.HandedIsUnfinished | workers/src/base-worker/base.processor.ts:63-84 | a job handed over is QUEUED or PROCESSING, so no delivery of it is taken for a completed job's |
| WorkflowRuns.DependenciesRespected | shared/src/chain/chain.service.ts:215-254 | on any acyclic graph, a READY, started or finished job has all its parents COMPLETED |
| WorkflowRuns.StartOrderExtendsDependencies | shared/src/chain/chain.service.ts:310-334 | the queued order is a linear extension of the dependencies and queues no job twice |
| WorkflowRuns.StatusesOnlyRise | shared/src/chain/chain.service.ts:600-616 | along a run statuses rise; final ones are never left, and the unconditional SKIPPED update never hits a started job |
| WorkflowRuns.StepUsesWork | workers/src/base-worker/base.processor.ts:142-309 | each step lowers a measure of the work left |
| WorkflowRuns.RunsAreFinite | workers/src/base-worker/base.processor.ts:142-309 | no run is longer than the work its workflow starts with |
| WorkflowRuns.NeverStuck | shared/src/chain/chain.service.ts:292-339 | while a payload or call is under way some step is possible, so a run ends only at rest |
| WorkflowRuns.RunsExtend | shared/src/chain/chain.service.ts:292-339 | every run starts with the scheduler's count and goes on by any step; nothing else restricts runs |
| Forests.PlanDistinct | shared/src/chain/chain.service.ts:464-467 | the reference order names no job twice |
| Forests.PlanIsEligible | shared/src/chain/chain.service.ts:464-584 | the reference order contains exactly the jobs whose ancestors all succeed and that are not skipped on the way |
| RunOrder.SearchFindsHead | shared/src/chain/chain.service.ts:469-584 | on settled rows (no job active, no unlock due) the search from scratch returns the first job remaining of the reference order, and none if none remains |
| RunOrder.SettledWhenIdle | shared/src/chain/chain.service.ts:292-316 | rows are settled whenever a run reaches the search or comes to rest |
| RunOrder.HeadRuns | workers/src/base-worker/base.processor.ts:155-271 | running that job to its end, whatever its attempts do, removes just it and what it cuts off from what remains |
| RunOrder.StepKeepsProjection | shared/src/chain/chain.service.ts:203-334 | no intermediate step changes what the run will have done |
| RunOrder.RunFollowsPlan | shared/src/chain/chain.service.ts:292-584 | in every reachable state, queued so far plus remaining is the reference order |
| RunOrder.FinishedRunIsPlan | shared/src/chain/chain.service.ts:292-584 | a run at rest has queued exactly the reference order |
| RunOrder.PickIffReady | shared/src/chain/chain.service.ts:469-584 | on settled rows the search succeeds if and only if a job is READY |
| RunOrder.RunPickIffReady | shared/src/chain/chain.service.ts:292-316 | so it does in every reachable state in which the scheduler searches or the run is at rest |
| RunOrder.StopsOnlyWhenDone | shared/src/chain/chain.service.ts:313-316 | when it finds nothing on settled rows, every job is final or waits below a FAILED or SKIPPED one |
| RunOrder.RunEndsDone | shared/src/chain/chain.service.ts:292-339 | at rest after any run every job is COMPLETED, FAILED or SKIPPED, or WAITING below a FAILED or SKIPPED ancestor, and exactly the eligible jobs were queued |
| Submissions.AcceptedRunsAsPlanned | shared/src/chain/chain.service.ts:55-584 | end to end: for an accepted submission with single parents, any run at rest has queued the reference order, whatever failed and however steps interleaved |
| Submissions.NamedParentFirst | shared/src/chain/chain.service.ts:147-254 | when a job is queued, the job it names as parent has been queued and has completed |
| SearchReads.ReadsDistinct | shared/src/chain/chain.service.ts:532-584 | one search visits no row twice |
| SearchReads.SearchReadsOnly | shared/src/chain/chain.service.ts:532-584 | and those rows alone decide what it finds |
| SearchReads.PicksIff | shared/src/chain/chain.service.ts:495-584 | on any acyclic graph and settled rows, the search succeeds exactly when some READY job hangs below COMPLETED ones with no half-waiting sibling (one parent COMPLETED, another not) before any job of the chain |
| SearchReads.RunPicksIff | shared/src/chain/chain.service.ts:292-316 | so it does wherever a run searches, and a run at rest has left no such chain |
| SearchReads.StallNeedsHalfWaiting | shared/src/chain/chain.service.ts:561-567 | a missed READY job therefore implies a half-waiting one |
| ArrayDependencies.TwoParentsStored | shared/src/chain/chain.service.ts:118-167 | a submission with an array of two parents that passes the checks, and the rows stored for it |
| MultiParent.StalledRun | shared/src/chain/chain.service.ts:561-567 | for that submission, a concrete run that comes to rest with a READY job |
| ExecuteRuns.DeliveryIsRun | workers/src/base-worker/base.processor.ts:141-271 | one uninterrupted delivery is a run of machine steps up to the scheduler's count |
| ExecuteRuns.ExecuteIsRun | workers/src/base-worker/base.processor.ts:141-271 | the rows the processor's contract promises are those a run of machine steps reaches |
| TenantCap.QueueReconcileCollector.DecrementStaged | shared/src/metrics/queueReconcileCollector.ts:34-36 | lowers it by one, not below zero |
| TenantCap.QueueService.EnqueueJob | shared/src/queue/queue.service.ts:51-107 | appends to the queue, or fails on an unknown type or an unreachable queue and changes nothing |
| TenantCap.TenantCapService.SubmitJob | shared/src/scaling/tenant-cap.service.ts:67-118 | new state and verdict are `Submit`'s: a slot and an append, a kept slot on failure, or an unchanged counter and a staged payload |
| TenantCap.TenantCapService.ReleaseSlot | shared/src/scaling/tenant-cap.service.ts:125-140 | new state is `Release`'s: reset without a drain below zero, else one drain |
| TenantCap.TenantCapService.DrainOne | shared/src/scaling/tenant-cap.service.ts:162-192 | new state is `Drain`'s; a failed enqueue leaves the list as it was |
| CapAccounting.OpKeepsInv | shared/src/scaling/tenant-cap.service.ts:67-192 | submit, complete and final failure keep all tenants' and all queues' accounts exact |
| CapAccounting.SlotsAreExact | shared/src/scaling/tenant-cap.service.ts:67-140 | after any history a tenant's counter is its admitted unfinished jobs plus lost submissions, and at most five |
| CapAccounting.ResetNeverFires | shared/src/scaling/tenant-cap.service.ts:128-136 | whenever a live job ends, the counter it decrements is positive |
| CapAccounting.OthersUntouched | shared/src/scaling/tenant-cap.service.ts:67-192 | an operation of one tenant leaves every other's counter, list, live and lost payloads and drain history as they were, order included |
| CapAccounting.StagingIsFifo | shared/src/scaling/tenant-cap.service.ts:101-106 | drained so far followed by the list is everything ever staged, in order |
| CapAccounting.NothingStranded | shared/src/scaling/tenant-cap.service.ts:125-192 | staged payloads mean that live jobs, lost submissions and failed drains reach the cap together, so a live job is left while the last two are fewer |
| CapProgress.StrandsIff | shared/src/scaling/tenant-cap.service.ts:91-106 | the exact operations that leave a tenant with staged payloads and no live job: a submission behind five lost slots, or its last live job's failed drain |
| CapProgress.LockoutHistory | shared/src/scaling/tenant-cap.service.ts:91-106 | with every queue up, five `media-jobs` submissions lose their slots and the tenant's next job is staged with nothing running |
| CapProgress.DrainMovesIff | shared/src/scaling/tenant-cap.service.ts:162-191 | an ended job's drain moves the list exactly when the queue is up and knows the type at its head |
| CapProgress.ListMovesIff | shared/src/scaling/tenant-cap.service.ts:162-191 | while a job is live, some history drains the list exactly when its head is not a `media-jobs` payload; such a head blocks it for good |
| CapAccounting.EachReleaseShrinks | shared/src/scaling/tenant-cap.service.ts:125-179 | while drains succeed, each ended job lowers in-flight plus staged by exactly one |
| CapProgress.EndsShrink | shared/src/scaling/tenant-cap.service.ts:125-179 | n ended jobs in a row lower it by exactly n |
| CapProgress.LiveWhileWork | shared/src/scaling/tenant-cap.service.ts:125-179 | while fewer slots are lost and drains failed than the cap, any work left has a live job to end |
| CapProgress.DrainsToZero | shared/src/scaling/tenant-cap.service.ts:125-179 | so the list and the live jobs reach zero after exactly as many ends as there are live and staged payloads |
| CapAccounting.CountersConserved | shared/src/metrics/queueReconcileCollector.ts:27-87 | per queue, submitted is staged, pending, live, completed, failed and lost together; `staged` is exact over all tenants |
| CapAccounting.FloorNeverFires | shared/src/metrics/queueReconcileCollector.ts:83-87 | the counters a drain lowers are positive, so the floor hides nothing |
| CapAccounting.ReportMatchesIff | shared/src/metrics/metrics.controller.ts:164-208 | the report matches exactly when dead letters equal lost submissions, and is otherwise off by the difference |
| CapAccounting.SnapshotReport | shared/src/metrics/metrics.controller.ts:158-180 | that report is what a snapshot of the queue's depths yields |
| CapAccounting.MetricsController.ReconcileQueues | shared/src/metrics/metrics.controller.ts:154-209 | one entry for each queue of the snapshot and no other; the gap goes to unknown or overcount, never both |
| CapInterleaving.EnabledIff | shared/src/scaling/tenant-cap.service.ts:67-192 | no command waits for another call: each is possible exactly while some call has reached it |
| CapInterleaving.NextKeepsInv | shared/src/scaling/tenant-cap.service.ts:67-192 | every Redis or queue command keeps the counter's identity, the bound and conservation |
| CapInterleaving.AdmittedBound | shared/src/scaling/tenant-cap.service.ts:162-176 | under any interleaving at most five plus the most simultaneous releases are admitted |
| CapInterleaving.PeakIsLargest | shared/src/scaling/tenant-cap.service.ts:125-192 | the recorded peak is exactly the largest number of releases in progress after any prefix |
| CapInterleaving.AdmittedBoundAt | shared/src/scaling/tenant-cap.service.ts:162-176 | so some moment of the run has as many releases in progress as the excess over five |
| CapInterleaving.PayloadsConserved | shared/src/scaling/tenant-cap.service.ts:101-191 | under any interleaving every submitted payload is in exactly one place |
| CapWitnesses.BoundIsReached | shared/src/scaling/tenant-cap.service.ts:162-176 | for every m a run with at most m simultaneous releases admits five plus m |
| CapWitnesses.PassesCapIff | shared/src/scaling/tenant-cap.service.ts:91-93 | the one command that takes admitted and committed jobs beyond five, and exactly when: a claim made while they are five or more |
| CapWitnesses.ResetFiresIff | shared/src/scaling/tenant-cap.service.ts:128-136 | the reset fires exactly when drains not yet counted outweigh the slots the counter stands for |
| CapWitnesses.NoResetWithoutSettlingDrain | shared/src/scaling/tenant-cap.service.ts:128-136 | it needs a drain between its enqueue and its increment |
| CapWitnesses.ResetRun | shared/src/scaling/tenant-cap.service.ts:129-136 | a concrete run that fires it and leaves a slot taken for good |
| CapWitnesses.CoverageLostIff | shared/src/scaling/tenant-cap.service.ts:91-106 | staged work stops having n jobs or releases that will look for it exactly at a late push, a failed drain, a throwing enqueue or a resetting release; for n = 1, the exact moment it is stranded |
| CapWitnesses.NothingStrandedWhenQuiet | shared/src/scaling/tenant-cap.service.ts:125-192 | runs without those leave n admitted jobs behind whatever is staged once all calls have returned |
| CapWitnesses.StrandedRun | shared/src/scaling/tenant-cap.service.ts:101-106 | a concrete run that ends with one payload staged and nothing running, after a late push |
| CapWitnesses.LockoutRun | shared/src/scaling/tenant-cap.service.ts:91-106 | another, after five throwing enqueues and without a single release |
| CapWitnesses.SubmitIsRun | shared/src/scaling/tenant-cap.service.ts:67-118 | one uninterrupted `submitJob` is a run of commands with the same effect |
| CapWitnesses.ReleaseIsRun | shared/src/scaling/tenant-cap.service.ts:125-192 | so is one uninterrupted `release`, resetting or not |
| Queues.TablesAgreeExceptOnce | shared/src/queue/resolvedQueueName.ts:5-50 | the two job-type tables agree on every string but `media-jobs`, and whatever one maps the other maps alike |
| Queues.QueueOfType | shared/src/queue/resolvedQueueName.ts:5-50 | for each queue, exactly the job types that go to it |
| AttemptLoop.OneReleasePerJob | workers/src/base-worker/base.processor.ts:132-304 | over all deliveries of a job, attempts are numbered in order, all but the last failed, the release guard holds at the last only, and FAILED there exactly when it goes to the dead-letter queue; how many there are, five at most without an `attempts` option |
| AttemptLoop.BaseProcessor.Begin | workers/src/base-worker/base.processor.ts:93-147 | one attempt row, the queue's next sequence number, PROCESSING on the first attempt only |
| AttemptLoop.BaseProcessor.Succeed | workers/src/base-worker/base.processor.ts:158-212 | attempt and job COMPLETED, children unlocked, one scheduler call, completed counted once |
| AttemptLoop.BaseProcessor.Fail | workers/src/base-worker/base.processor.ts:213-271 | attempt FAILED; the job FAILED and counted only on the last attempt; STRICT children skipped and the scheduler called on every one |
| AttemptLoop.BaseProcessor.Execute | workers/src/base-worker/base.processor.ts:32-309 | whole new state of one delivery for workflow and single jobs; it is skipped, with its slot released, exactly if the delivered job's own row is COMPLETED |
| AttemptLoop.FailedHandler.OnFailed | workers/src/base-worker/base.worker.ts:146-164 | appends to the dead-letter queue exactly when all attempts are used |
| JobLifecycle.DeliveriesReleaseOnce | workers/src/base-worker/base.processor.ts:234-304 | all deliveries of a job outside workflows together count one end and release once |
| JobLifecycle.JobIsOneOperation | workers/src/base-worker/base.processor.ts:234-304 | such a job's whole life after admission is one complete or final-fail operation of the accounting |
| JobLifecycle.DeadLettersAgree | workers/src/base-worker/base.worker.ts:146-164 | that operation's dead letter is the one the failed handler adds at the last delivery |
| FlowLifecycle.RetryKeepsCap | workers/src/base-worker/base.processor.ts:213-304 | a workflow job's failed delivery that is not its last leaves the cap alone |
| FlowLifecycle.LastDelivery | workers/src/base-worker/base.processor.ts:155-304 | its last delivery is the submission of the job picked next, if any, followed by one end |
| FlowLifecycle.FlowJobIsOneOperation | workers/src/base-worker/base.processor.ts:141-304 | so all deliveries of a workflow job release once: together they are that submission and one complete or final-fail operation, and leave the rows stated |
| FlowLifecycle.HandedOnIsReceived | shared/src/chain/chain.service.ts:310-334 | what the state machine hands on is what the cap receives: queued, staged, or lost with its slot if the queue is down |
| BatchJobs.BatchOrderIsStable | shared/src/batch-job/batch-job.service.ts:95-100 | batch order is the stable priority permutation of the items |
| BatchJobs.BatchByPriority | shared/src/batch-job/batch-job.service.ts:45-100 | HIGH before MEDIUM before LOW before NONE or no level, equal levels as submitted |
| BatchJobs.AdmissionFollowsPriority | shared/src/batch-job/batch-job.service.ts:95-151 | the free slots go to the first items in batch order, the rest are staged behind the list in that order |
| BatchJobs.AdmittedBeforeStaged | shared/src/batch-job/batch-job.service.ts:95-151 | an item is admitted exactly while a slot is left, and no staged item has a higher priority than an admitted one |
| BatchJobs.BatchPayloads | shared/src/batch-job/batch-job.service.ts:109-151 | each admitted and each staged payload, by position: its item's job, type, retries, priority and queue |
| BatchJobs.BatchJobService.SubmitBatch | shared/src/batch-job/batch-job.service.ts:56-171 | refusals save nothing; results in batch order; a failing item is marked FAILED, ends the batch and leaves the earlier ones submitted |
| BatchJobs.BatchJobService.Validate | shared/src/batch-job/batch-job.service.ts:71-92 | the first failing check in order |
| BatchJobs.RefusedIff | shared/src/batch-job/batch-job.service.ts:71-92 | for each check, exactly the batches it refuses |
| BatchJobs.NewRowMeans | shared/src/batch-job/batch-job.service.ts:111-127 | the row of an item: no level is NONE, three attempts by default, SCHEDULED exactly with a delay |
| BatchJobs.SubmittedPayload | shared/src/batch-job/batch-job.service.ts:130-141 | what a row's submission puts into the queue or at the end of its tenant's list: that job, with the row's type, retries, priority and queue |
| BatchJobs.BatchJobService.SubmitAll | shared/src/batch-job/batch-job.service.ts:93-171 | rows, cap and results after the loop, stopped early or not |
| BatchJobs.JobsService.CreateAndEnqueue | shared/src/jobs/jobs.service.ts:31-117 | one row saved and submitted; a failed submission is rethrown and the row stays |
| BatchJobs.JobsService.RetryFailedJob | shared/src/jobs/jobs.service.ts:257-282 | only FAILED jobs of the caller's tenant go back to QUEUED and take a slot like a new one; otherwise nothing changes |
| AutoScaling.AutoScaler.EvaluateQueue | shared/src/scaling/autoScaler.service.ts:212-251 | the queue's pool after a tick is `Tick`'s; no other queue's pool changes |
| AutoScaling.TickIff | shared/src/scaling/autoScaler.service.ts:212-251 | in the queue's own numbers, exactly when a tick adds one worker, removes one or does neither, and when it restarts the cooldown |
| AutoScaling.AutoScaler.ScaleDown | shared/src/scaling/autoScaler.service.ts:266-279 | the youngest worker goes unless only the minimum is left |
| AutoScaling.AutoScaler.TickQueues | shared/src/scaling/autoScaler.service.ts:154-165 | a whole tick moves each queue by one `Tick` on its own counts |
| AutoScaling.Thresholds | shared/src/scaling/autoScaler.service.ts:226-246 | what the two utilization thresholds mean for whole numbers of jobs and workers, no workers included |
| AutoScaling.PoolStaysInBounds | shared/src/scaling/autoScaler.service.ts:212-279 | over any run a pool within 1..50 stays there and keeps its base worker at index 0 |
| AutoScaling.StaysStaffedIff | shared/src/scaling/autoScaler.service.ts:226-246 | a pool is within bounds after a run exactly when it had a worker before |
| AutoScaling.EventsRespectCooldown | shared/src/scaling/autoScaler.service.ts:231-234 | any two scale events of a queue are at least the cooldown apart |
| AutoScaling.IdleEventsShrink | shared/src/scaling/autoScaler.service.ts:242-250 | while idle each scale event removes exactly one worker, youngest first |
| AutoScaling.IdleReachesBase | shared/src/scaling/autoScaler.service.ts:242-250 | with ticks a cooldown apart, n idle ticks leave count less n workers, and never fewer than one |
| AutoScaling.PressureReachesMax | shared/src/scaling/autoScaler.service.ts:231-240 | n ticks a cooldown apart that find every worker busy and jobs waiting take k workers to min(50, k + n) |
| AutoScaling.WorkerRegistry.RegisterProcessor | shared/src/scaling/workerRegistry.service.ts:56-62 | adds the queue's processor and touches no worker |
| AutoScaling.WorkerRegistry.SpawnWorker | shared/src/scaling/workerRegistry.service.ts:65-81 | appends a new worker if a processor is registered, else nothing |
| AutoScaling.WorkerRegistry.TerminateWorker | shared/src/scaling/workerRegistry.service.ts:82-98 | removes the last worker of that queue, if there is one |
| AutoScaling.WorkerRegistry.RegisterExistingWorker | shared/src/scaling/workerRegistry.service.ts:174-181 | appends a worker created elsewhere |

## Left out

- Key expiry (`shared/src/scaling/tenant-cap.service.ts:83-85`): it erases the counter while jobs may run; every claim about the cap assumes it does not fire.
- Recurring jobs and cron: they submit once but release on every run.
- Stalled-job redelivery, crashes between steps, and the worker rate limit of `workers/src/base-worker/base.worker.ts:89-100`.
- `retryFailedJob` on workflow jobs: it queues outside the scheduler and breaks the one-active-job property; the model retries single jobs only.
- Run order for multi-parent graphs: the reference order is a forest's; progress there has its exact condition instead.
- Runs of workflows whose rows are cyclic, which an array of several names can slip past the check: nothing is claimed of them beyond the first scheduler call.
- Chain.ChainService.SaveParents: a parent repeated within one array is stored twice but listed once among the siblings; array elements are strings.
- Workflows.Search: one function stands for both search methods, since their loops treat every status alike; the rows they re-read are those of the table at the time of the call, as one step.
- TenantCap.QueueReconcileCollector.DecrementStaged: the separate read and write of the floored decrement are one step, so lost updates between workers are not modelled.
- TenantCap.TenantCapService.SubmitJob: BullMQ's de-duplication by `jobId` for repeated idempotency keys is not modelled.
- Autoscaler ticks overlapping each other: ticks are atomic.
- Object keys such as `__proto__` in the key and type tables.
- BullMQ's own order among the jobs of one queue, and the priority number and backoff it is given: deliveries happen in any order.
- The band promoter: its effect depends on BullMQ ordering that the repository does not show.
- The design described in `shared/src/chain/chain.service.ts:256-290` and the commented-out code after it: an older scheme; the live code is followed.
- Media, ML, email, report and ETL processors, storage, authentication, metrics gauges, HTTP controllers apart from the reconcile arithmetic, the dashboard and the deployment files: input/output and presentation.
- Logs, timestamps, metadata, worker delays and identifiers carried along without influence on the control flow.
