# Verification of the coworker runtime

A Dafny model of the parts of coworker where correctness needs an invariant across several functions: the
pull-dispatch queue with its worker registry and watchdog, the plan manifest and the resumable plan loop, the
dispatcher's retry loop and the phase fix loop, the cost ledger, the golden-file diff with its id normaliser, the
server-sent-event printer and readers, and the phase-index expression. `dafny verify dfyconfig.toml` checks all of it.

## How it is laid out

| file | models |
|---|---|
| `Store.dfy` | the event log, per-run sequence numbers, and a transaction that commits event and projection together |
| `Dispatches.dfy` | the dispatches table: one pure function per transaction, the store class proved against them, and the history each dispatch leaves in the log |
| `Workers.dfy` | the workers table in the same shape, and the router |
| `Lease.dfy` | every interleaving of those transactions, with the select-then-write loops keeping their selection as local state |
| `Watchdog.dfy` | configuration, one undisturbed tick, and the timing of two undisturbed ticks |
| `LeaseTiming.dfy` | the timing of ticks in every interleaved run, and evictions of workers that were heard from |
| `CostLedger.dfy` | rows, totals and cumulative figures |
| `Supervisor.dfy`, `Dispatcher.dfy` | rule verdicts, attempts, jobs and runs |
| `DispatchCut.dfy` | a dispatch whose context is cancelled after any write |
| `FanIn.dfy`, `PhaseLoop.dfy` | fan-out, aggregation, de-duplication, the fix loop, the phases of a plan |
| `PhaseJobs.dfy` | the two joined: phases whose agents are dispatches, and the jobs behind them |
| `Manifest.dfy`, `PlanLoop.dfy` | validation with Kahn's algorithm, the scheduler, and the plan loop with crashes after any write |
| `LineDiff.dfy`, `IdTokens.dfy`, `IdSnapshot.dfy`, `IdOrder.dfy` | the golden-file diff and the id normaliser |
| `Sse.dfy`, `PhaseIndex.dfy` | the two small parsers |
| `Text.dfy`, `Options.dfy` | string and option helpers |

Every SQL transaction is one atomic step and transactions are serialisable; a query that promises no order may return
its rows in any order; ids are fresh; time is in whole seconds and does not run backwards; costs are exact reals.
In the plan loop, the dispatcher and the phase loop, writes to the store succeed, because the code there only logs
their failure; `DispatchCut.dfy` is about a dispatch whose writes stop. What agents, git, predicates, JSON decoding and hashing do is a function or value parameter.
A transaction whose run id is looked up just before it is treated as one step, since no row is deleted and a row's run
never changes.

## Where the code and its comments part

The model follows the code.

- `RequeueByWorker` (store/dispatch_store.go:384-393) is described as resetting all dispatches of a worker. A claim
  does not write `worker_handle`, so leases taken on untargeted work stay with the gone worker
  (`Lease.RequeueMissesUntargeted`, `Lease.RequeueMisses`).
- `Deregister` (store/worker_store.go:120-123) says the watchdog treats deregistered workers like evicted ones. It
  never looks at them (`Lease.LeaversAreNotRequeued`).
- `ExpireLeases` (store/dispatch_store.go:312-313) is described as resetting leases older than the timeout. Its guard
  asks only for some lease, so it can end one taken after its own selection (`Lease.ExpiryOfFreshLease`,
  `Lease.FreshLeaseLost`).
- The watchdog (mcp/watchdog.go:52-61) promises a full interval to recover. With one watchdog that holds in every run
  exactly while the eviction age leaves room for the time between two ticks (`LeaseTiming.GivesSecondChanceIff`).
- With two watchdogs a worker that was just heard from can be evicted (`Lease.TwoWatchdogsEvictTheHeard`): an eviction
  takes one exactly when it was heard from after it was selected (`LeaseTiming.EvictionOfTheHeard`).
- Worker events are said to store their run id as NULL (store/worker_store.go:54); they store the empty string
  (store/event_store.go:48-62), so they are numbered together like the events of one run.
- A run created by `Orchestrate` stays active for good when its prompt cannot be rendered or its context is cancelled
  before an attempt (coding/dispatch.go:190-207, 219-224); see `Dispatcher.Orchestrate`.
- The writes that settle a job use the context they react to (coding/dispatch.go:455-468). Cancelled at the wrong
  moment a dispatch leaves its job `dispatched` and its own run active; `DispatchCut.OpenIffCutInside` and
  `DispatchCut.RunOpenIffCutInside` say exactly when.
- Fan-in asks only exit codes and findings (coding/phaseloop/fanin.go:34-44), and a dispatch whose last verdict failed
  returns no error (coding/dispatch.go:287-329). So a phase comes out clean and its plan ships although the supervisor
  failed its jobs (`PhaseJobs.CleanPhaseJobs`, `PhaseJobs.ShippedOnFailedJobs`).
- When only the tests fail, the developer's next round gets an empty `fix_feedback`
  (coding/phaseloop/executor.go:315-319); see `FanIn.FeedbackMeaning`.
- A crash between the two writes that offer a plan (cli/run.go:625-645) leaves the plan active with no item to
  approve, for good (`PlanLoop.StrandedIffCut`, `PlanLoop.StrandedForever`, `PlanLoop.FirstResumeCanStrand`).
- A dirty phase tells the operator to resume from the phase loop's own item (cli/run.go:556-569); resuming from it
  answers "unknown checkpoint question" and changes nothing (`PlanLoop.PlanRunner.Resume`).
- Approving a completed plan again runs and ships it again, and any sound manifest has such a history
  (`PlanLoop.ReapprovalRunsAgain`, `PlanLoop.SecondApprovalShipsAgain`).
- `normalizeValue` walks Go maps in random order (internal/testutil/snapshot.go:105-110), so tokens can differ between
  two runs over the same log; `IdOrder.OrderShowsIff` says exactly when one order can be told from another.
- Both stream readers deliver pending data at the end of the stream, where section 9.2.6 of the WHATWG HTML Living
  Standard discards it. That is what makes reconnecting invisible (`Sse.ReconnectInvisible`).

## Model

| member | source | states |
|---|---|---|
| Store.NumberedInOrder | store/event_store.go:24-43 | a run's events carry exactly the numbers 1..n in commit order |
| Store.CommitSequenced | store/event_store.go:29-83 | a transaction either leaves the log alone or adds one event, and keeps the numbering gapless; a rollback leaves nothing |
| Store.ListingIsCommitOrder | store/event_store.go:113-121 | whatever order rows are stored in, ordering by sequence gives back the commit order |
| Store.Database.WriteEventThenRow | store/event_store.go:29-83 | event and projection are committed together, or neither when the projection fails |
| Store.Database.ListEvents | store/event_store.go:113-147 | returns the run's events in commit order |
| Dispatches.DispatchStore.EnqueueDispatch | store/dispatch_store.go:26-82 | inserts one pending row and its event, unless the id is taken or the run unknown |
| Dispatches.DispatchStore.SelectOldest | store/dispatch_store.go:119-164 | finds an eligible row no other eligible row is older than, or none when nothing is eligible |
| Dispatches.DispatchStore.ClaimNextDispatch | store/dispatch_store.go:100-251 | claims in one transaction a pending row of the caller's role, untargeted or aimed at the caller, no such row being older; returns nothing, changing nothing, exactly when there is no such row |
| Dispatches.DispatchStore.CompleteDispatch | store/dispatch_store.go:254-310 | completes exactly the rows that are leased, whoever asks; otherwise nothing changes |
| Dispatches.DispatchStore.ExpireLeases | store/dispatch_store.go:314-384 | undisturbed, puts every overdue lease back as pending and untargeted, logs one expiry each, and touches nothing else |
| Dispatches.DispatchStore.ReleaseRows | store/dispatch_store.go:342-381 | the release loop equals releasing the selected rows one after another |
| Dispatches.ReleaseEachMeaning | store/dispatch_store.go:363-381 | releasing a selection resets exactly its leased rows and logs one expiry per selected row, leased or not |
| Dispatches.DispatchStore.RequeueByWorker | store/dispatch_store.go:394-463 | undisturbed, frees every pending or leased row of the handle, logs one expiry per lease, and leaves all others as they were |
| Dispatches.ReplayIsWellShaped | store/dispatch_store.go:65-80 | a history that replays starts with its only queued event, keeps leases apart by expiries, and has at most one completion, right after a lease, with only expiries after it |
| Dispatches.WellShapedReplays | store/dispatch_store.go:65-80 | conversely every history of that shape replays |
| Dispatches.EnqueueKeeps | store/dispatch_store.go:65-80 | enqueueing keeps every row equal to the replay of its history |
| Dispatches.ClaimKeeps | store/dispatch_store.go:185-242 | so does claiming |
| Dispatches.CompleteKeeps | store/dispatch_store.go:293-309 | so does completing |
| Dispatches.ReleaseKeeps | store/dispatch_store.go:363-378 | so does expiring, whether or not the update finds a lease |
| Dispatches.UntargetKeeps | store/dispatch_store.go:455-460 | so does the bulk update that clears targets without an event |
| Workers.WorkerStore.RegisterWorker | store/worker_store.go:33-77 | a new handle gets a live row and an event; a known one changes nothing |
| Workers.WorkerStore.Heartbeat | store/worker_store.go:80-118 | revives and stamps any worker not evicted; otherwise an error and no event |
| Workers.WorkerStore.Deregister | store/worker_store.go:124-162 | evicts any worker not yet evicted; otherwise an error and no event |
| Workers.WorkerStore.LiveWorkersForRole | store/worker_store.go:166-195 | lists each live worker of the role once, oldest registration first |
| Workers.WorkerStore.MarkStale | store/worker_store.go:199-240 | marks exactly the silent live workers, without an event, and returns them |
| Workers.WorkerStore.MarkEvicted | store/worker_store.go:246-317 | undisturbed, evicts exactly the silent stale workers and returns them |
| Workers.EvictEachMeaning | store/worker_store.go:283-314 | evicting a list changes exactly its stale members |
| Workers.CareerShape | store/worker_store.go:64-76 | a worker's events are one registration, then heartbeats, then at most one departure that ends them |
| Workers.RegisterKeeps | store/worker_store.go:64-76 | registering keeps every standing equal to the replay of the log |
| Workers.BeatKeeps | store/worker_store.go:100-117 | so do heartbeats |
| Workers.LeaveKeeps | store/worker_store.go:144-161 | so do departures, clean or by eviction |
| Workers.AgeKeeps | store/worker_store.go:230-237 | so does marking workers stale, which logs nothing |
| Workers.DispatchRouter.Route | coding/router.go:68-151 | one row for an oldest live worker, one per live worker, or one for anybody; unknown concurrency or run changes nothing |
| Workers.EnqueueEachMeaning | coding/router.go:129-150 | routing adds exactly the given rows, pending and aimed at the given handles, and touches no other |
| Workers.OnlyTheTarget | coding/router.go:59-67 | a routed row can be claimed by its target and, when it has none, by every caller of the role; by nobody else |
| Lease.AlwaysInv | store/dispatch_store.go:100-251 | the invariant (numbering, replay of both tables, sane rows, holders, selections, leavers) holds in every world of every interleaved run |
| Lease.InvKept | store/dispatch_store.go:342-381 | each step of any actor keeps it |
| Lease.Footprint | store/event_store.go:29-83 | a transaction logs at most one event, about its own kind of subject, and leaves the other table alone |
| Lease.EveryHistory | store/dispatch_store.go:65-80 | in every run, a dispatch's row is the replay of its history, which is well shaped; it is completed exactly when a completion is logged |
| Lease.EverySequence | store/event_store.go:37-46 | in every run, each run id's events are numbered 1, 2, 3, ... |
| Lease.TargetsHoldTheirWork | store/dispatch_store.go:119-150 | whenever a lease has a target, the target holds it, and it is no ephemeral caller |
| Lease.HoldersClaimed | store/dispatch_store.go:119-242 | in every run, whoever holds a lease took it by a claim under the dispatch's own role, when it was pending and untargeted or aimed at the claimer, and has held it since |
| Lease.EvictedIffLogged | store/worker_store.go:100-117 | in every run a worker is evicted exactly when its departure is logged, which is its last event and the only departure |
| Lease.LostRaceLeavesNoEvent | store/worker_store.go:285-313 | passing over a worker that is no longer stale changes neither table nor log |
| Lease.ExpiryOfFreshLease | store/dispatch_store.go:363-378 | an expiry ends a lease younger than its cutoff exactly when something was logged about the dispatch since the selection; without a lease it changes no row |
| Lease.FreshLeaseLost | store/dispatch_store.go:318-378 | a run in which that happens |
| Lease.LeaversAreNotRequeued | store/worker_store.go:120-123 | a worker that deregistered is on no watchdog's list, so nothing of its is requeued |
| Lease.RequeueMissesUntargeted | store/dispatch_store.go:222-227 | after an uninterrupted requeue the worker still holds exactly its leases on untargeted work |
| Lease.RequeueMisses | store/dispatch_store.go:398-402 | a run in which it does |
| Lease.SoleWatchdogEvictsTheSilent | store/worker_store.go:246-313 | with one watchdog and heartbeats anywhere inside its tick, whoever is evicted was last heard from before the cutoff |
| Lease.TwoWatchdogsEvictTheHeard | store/worker_store.go:285-291 | a run with two watchdogs that evicts a worker heard from after the cutoff; `LeaseTiming.EvictionOfTheHeard` says exactly when that happens |
| LeaseTiming.EvictionOfTheHeard | store/worker_store.go:252-313 | in any run with any number of watchdogs, an eviction takes a worker with a heartbeat past the cutoff exactly when that worker was heard from, past the cutoff, after it was selected |
| LeaseTiming.HeardSince | store/worker_store.go:252-313 | until a selected worker is evicted, its heartbeat is past the cutoff exactly when it was heard from since the selection |
| LeaseTiming.TickLeavesTheRecent | mcp/watchdog.go:104-114 | whatever steps in during a tick, after it every live worker was heard from since the tick's stale cutoff |
| LeaseTiming.SparedInRuns | mcp/watchdog.go:104-130 | with one watchdog and everybody else stepping inside and between its ticks, a worker live after a tick is not evicted by a later tick that starts soon enough; it is out only if it left |
| LeaseTiming.GivesSecondChanceIff | mcp/watchdog.go:42-50 | every worker live after a tick survives the next in every interleaved run, exactly when the eviction age is at least the stale age plus the time between ticks |
| LeaseTiming.DefaultGivesSecondChance | mcp/watchdog.go:28-61 | with the default eviction age that is exactly while ticks are at most an interval apart |
| LeaseTiming.TightEvicts | mcp/watchdog.go:104-130 | for any configuration with too little room, a run in which the next tick evicts |
| Watchdog.HeartbeatWatchdog.Tick | mcp/watchdog.go:104-130 | an undisturbed tick ages and evicts each worker by its silence alone, requeues exactly the work aimed at the evicted, and logs one eviction per evicted worker followed by one expiry per lease it takes from them |
| Watchdog.BeatIsBeaten | store/worker_store.go:100-117 | any sequence of heartbeats in the timing statements is the same sequence of heartbeat transactions |
| Watchdog.SecondChanceIff | mcp/watchdog.go:42-50 | for two undisturbed ticks with heartbeats between them: a worker live after one always survives the next exactly when the eviction age is at least the stale age plus the time between them |
| Watchdog.DefaultSecondChance | mcp/watchdog.go:28-50 | for two undisturbed ticks with the default eviction age, exactly while they are at most an interval apart |
| CostLedger.CostEventStore.RecordCost | store/cost_event_store.go:44-146 | the row, the job total, the run total and the event with its cumulative figure and budget are written together, or nothing when run or job is unknown |
| CostLedger.CostEventStore.SumByRun | store/cost_event_store.go:162-171 | sums the run's rows |
| CostLedger.CostEventStore.SumByJob | store/cost_event_store.go:174-183 | sums the job's rows |
| CostLedger.BooksBalance | store/cost_event_store.go:26-43 | in every reachable state each run's and job's cost is its opening balance plus its rows, and the k-th cumulative figure is the opening balance plus the first k rows |
| CostLedger.BalancedKept | store/cost_event_store.go:101-125 | every entry keeps the totals balanced |
| CostLedger.ReportedKept | store/cost_event_store.go:52-82 | every entry keeps the cumulative figures equal to prefix sums |
| CostLedger.Attribution | store/cost_event_store.go:110-120 | a run's jobs add up to the run's rows less what leaked to jobs of other runs plus what was borrowed from other runs |
| CostLedger.JobsAddUp | store/cost_event_store.go:110-120 | in every reachable state the stored totals of a run's jobs have grown by what the run's has, less what leaked and plus what was borrowed; by exactly that when every sample names its job's own run |
| CostLedger.GainedIsRows | store/cost_event_store.go:101-125 | what the stored totals of some jobs have gained is what the rows charged to them |
| Supervisor.RulesForRole | coding/supervisor/loader.go:103-111 | selects exactly the rules one of whose patterns matches the role, in order |
| Supervisor.ApplicableInOrder | coding/supervisor/loader.go:103-111 | the rules one of whose patterns matches the role, each once and in order |
| Supervisor.Evaluate | coding/supervisor/engine.go:42-128 | one result per applicable rule in order, skipped and passed by that rule's evidence; the verdict passes exactly when every result does; no role is an error |
| Supervisor.Judge | coding/supervisor/engine.go:60-124 | a rule is skipped when its clause says no, passed when all of its evaluation says yes, and failed otherwise, errors included |
| Supervisor.FailedMessages | core/supervisor.go:20-28 | collects the messages of failing results in order |
| Supervisor.FailedInOrder | core/supervisor.go:20-28 | the messages of the results that neither passed nor were skipped, each once and in order |
| Supervisor.SkippedRuleNames | core/supervisor.go:35-43 | collects the names of skipped rules in order |
| Supervisor.SkippedInOrder | core/supervisor.go:35-43 | the names of the skipped results, each once and in order |
| Supervisor.FailedAre | core/supervisor.go:20-28 | a message is reported exactly when some failing result carries it |
| Supervisor.FailsIffSaysSo | core/supervisor.go:20-28 | a verdict fails exactly when it has a message |
| Supervisor.EngineSpeaks | coding/supervisor/engine.go:54-127 | with validated rules a verdict passes exactly when every concerned rule is skipped or satisfied, and every failure has words |
| Supervisor.BuildRetryFeedback | coding/dispatch.go:601-610 | numbers the failed messages between a fixed head and tail |
| Supervisor.RetryPromptSays | coding/dispatch.go:534-544 | a retry prompt opens with the standing head, gives each complaint a numbered line, and ends with the original prompt after a blank line |
| Dispatcher.ExecuteAttempt | coding/dispatch.go:394-572 | an attempt's fate, its job's state, the exact events it writes in every branch, and the prompt of a retry: the numbered complaints, a blank line, the original prompt |
| Dispatcher.RunAttempts | coding/dispatch.go:211-252 | the loop tells a story: each attempt but the last was failed by the supervisor, each retry answers the verdict before it, at most one more attempt than retries allowed |
| Dispatcher.DispatchJobs | coding/dispatch.go:219-303 | what the dispatch reports, the jobs it leaves and the events it writes agree with the story |
| Dispatcher.Orchestrate | coding/dispatch.go:142-329 | every way a dispatch can end, with the jobs and the run it leaves: the last job completes exactly when the agent exits with 0 and no verdict objects, and its own run with it; the exact events it logs, which for a delivered dispatch are one creation per attempt, one retry event per retry and one breach exactly when the last verdict fails; no created job is left open; its own run stays active exactly after a prompt failure or a cancellation |
| Dispatcher.DispatchAndClose | coding/dispatch.go:219-329 | the jobs of a dispatch and the end of its own run, with their events |
| Dispatcher.DeliveredAccounted | coding/dispatch.go:219-329 | the account of everything a delivered dispatch logs: creations, retries, breaches |
| Dispatcher.Account | coding/dispatch.go:219-252 | one job per attempt, one retry event per attempt but the last, one breach exactly when the last allowed attempt was failed by the supervisor |
| Dispatcher.NoJobLeftOpen | coding/dispatch.go:295-303 | when its writes succeed, every job a dispatch created ends complete or failed |
| DispatchCut.OpenIffCutInside | coding/dispatch.go:219-303 | cancelled after any number of writes, a job is left open exactly when the cancellation fell between its creation and its settlement |
| DispatchCut.RunOpenIffCutInside | coding/dispatch.go:173-329 | and the dispatch's own run is left active exactly when it fell between creation and completion, or the run is never completed |
| DispatchCut.TableIsReplay | coding/dispatch.go:407-468 | undisturbed, the jobs table is what the logged events say |
| Dispatcher.JobSettled | coding/dispatch.go:507-512 | all but the last job are failed, and each says who dispatched it |
| Dispatcher.RetriesExplain | coding/dispatch.go:509-544 | every retry prompt gives each complaint of the verdict before it a numbered line, of which there is at least one, and ends with the original prompt after a blank line |
| Dispatcher.EndingMeaning | coding/dispatch.go:219-252 | which of the ways to end it is, read off the last attempt: denied, not dispatched, not waited for, not judged, cancelled, or delivered |
| Dispatcher.RetryLogged | coding/dispatch.go:407-544 | a retried attempt logs creation, start, failure and retry in that order, the retry with its number, its complaints and the feedback the next prompt quotes |
| Dispatcher.LastLogged | coding/dispatch.go:407-572 | the last attempt logs its creation, its start, and a breach with the complaints exactly when the verdict failed |
| FanIn.AggregateResults | coding/phaseloop/fanin.go:34-44 | concatenates findings and artifacts in order |
| FanIn.AggregateMeaning | coding/phaseloop/fanin.go:34-44 | tests pass exactly when every job exited with 0, and no finding is lost or invented |
| FanIn.AggregateJoins | coding/phaseloop/fanin.go:34-44 | findings and artifacts come in the order of the results |
| FanIn.DedupeFindings | coding/phaseloop/fanin.go:56-106 | the loop over groups computes the canonical findings |
| FanIn.DedupeMeaning | coding/phaseloop/fanin.go:46-55 | keeps for each fingerprint exactly its first finding, in input order, crediting every job that reported it |
| FanIn.FirstsMeaning | coding/phaseloop/fanin.go:46-55 | the positions kept are exactly the first occurrences, in increasing order |
| FanIn.ReportersInOrder | coding/phaseloop/fanin.go:56-105 | a group is credited with the job ids of exactly its findings that have one, in input order |
| FanIn.BuildFindingFeedback | coding/phaseloop/fixloop.go:19-50 | numbers the findings between a fixed head and tail |
| FanIn.FeedbackMeaning | coding/phaseloop/fixloop.go:14-50 | the text is empty exactly when there is no finding, and otherwise gives each one, under its number, its severity, body, place and number of reporters |
| PhaseLoop.MaxFixCycles | coding/phaseloop/fixloop.go:54-62 | is always positive |
| PhaseLoop.FanOut | coding/phaseloop/executor.go:349-418 | for any completion order the results come out in role order; one failed dispatch fails the fan-out |
| PhaseLoop.RunCycle | coding/phaseloop/executor.go:213-259 | one turn of the loop: developer, fan-out, fan-in |
| PhaseLoop.RoundAsks | coding/phaseloop/executor.go:213-418 | a round has a result exactly when the developer, every reviewer and every tester of the configuration report, and it is made of those reports, each in its slot |
| PhaseLoop.RunLoop | coding/phaseloop/executor.go:199-325 | runs the rounds of a phase and reports the last |
| PhaseLoop.RoundsMeaning | coding/phaseloop/executor.go:261-320 | every round but the last neither failed nor came out clean and told the next developer its findings |
| PhaseLoop.PhaseMeaning | coding/phaseloop/executor.go:199-325 | the developer runs once more than it fixes, a phase is dirty only after the whole budget, clean exactly with no findings and passing tests |
| PhaseLoop.CleanPhaseAsked | coding/phaseloop/executor.go:213-259 | in the last round of a clean phase everybody the configuration names, testers included, was skipped or done with exit code 0 and nothing found |
| PhaseLoop.RunPhasesForPlan | coding/workflow/build_from_prd.go:282-355 | phases run in order until one fails or stays dirty; only a wholly clean plan is shipped, once; the plan's states |
| PhaseLoop.RunsPhasesMeaning | coding/workflow/build_from_prd.go:282-355 | how a plan ends is decided by its first phase that fails or stays dirty, and without one by its shipper |
| PhaseLoop.RunIsDetermined | coding/workflow/build_from_prd.go:282-355 | that account leaves no choice |
| PhaseLoop.SomeCleanRun | coding/workflow/build_from_prd.go:282-355 | under any configuration some agents make a plan of any number of phases come out clean and ship |
| PhaseJobs.CleanIff | coding/phaseloop/executor.go:213-259 | a round has a result exactly when all its dispatches were delivered, and is clean exactly when each exited with 0 and found nothing, whatever the verdicts |
| PhaseJobs.CleanPhaseJobs | coding/phaseloop/fanin.go:34-44 | which jobs of a clean phase are left failed, over all its rounds |
| PhaseJobs.ShippedOnFailedJobs | coding/phaseloop/fanin.go:34-44 | under any configuration there are dispatches that leave every job of a plan failed and yet the plan comes out clean and ships |
| PhaseJobs.JobsBounded | coding/phaseloop/executor.go:207-325 | however it ends, a phase creates at most (fix budget + 1) * (roles + 1) * (retries + 1) jobs |
| PhaseJobs.BoundReached | coding/phaseloop/executor.go:207-325 | and under any configuration some phase creates exactly that many |
| PhaseJobs.StateLeftInTable | coding/dispatch.go:295-303 | the states those statements speak of are those of the jobs table |
| Manifest.CheckEntries | coding/manifest/schema.go:95-107 | ids are positive and distinct and titles present, or the first entry that is not is named |
| Manifest.CheckReferences | coding/manifest/schema.go:110-119 | every reference is to a known id, or the first that is not is named |
| Manifest.CountDegrees | coding/manifest/schema.go:123-135 | in-degrees count references with repetition and dependents mirror them |
| Manifest.Drain | coding/manifest/schema.go:138-157 | for any initial queue order each id is dequeued at most once, in a topological order |
| Manifest.Validate | coding/manifest/schema.go:87-163 | accepts exactly the well-formed manifests without a cycle; a rejection names the first problem |
| Manifest.AcceptedIs | coding/manifest/schema.go:87-163 | what is accepted, field by field: a path, plans with positive distinct ids and titles, known references, and a numbering in which every plan waits for smaller numbers only |
| Manifest.StuckHasCycle | coding/manifest/schema.go:159-161 | ids left over imply a cycle, self-references and repeated references included |
| Manifest.OrderedIsAcyclic | coding/manifest/schema.go:121-157 | a topological order of all ids excludes a cycle |
| Manifest.AcyclicIffRanked | coding/manifest/schema.go:121-163 | there is no cycle exactly when the plans can be numbered so |
| Manifest.MaxParallelPlans | coding/manifest/scheduler.go:27-32 | is always positive |
| Manifest.AllCompleted | coding/manifest/scheduler.go:74-81 | true exactly when every dependency is completed |
| Manifest.ReadyPlans | coding/manifest/scheduler.go:46-71 | the early-exit loop returns what `Manifest.ReadyIsFirstFree` describes |
| Manifest.ReadyIsFirstFree | coding/manifest/scheduler.go:34-71 | in manifest order, the first plans neither completed nor active whose dependencies are all completed: nobody passed over, and as many as there are or the free slots hold |
| Manifest.ReadyIsSafe | coding/manifest/scheduler.go:34-45 | whatever is returned is eligible and fits the cap |
| Manifest.FirstIsForemost | coding/manifest/scheduler.go:46-71 | a plan comes first exactly when a slot is free, it may start, and no earlier plan may |
| Manifest.FreePlan | coding/manifest/schema.go:121-159 | without a cycle some unfinished plan waits only for finished ones |
| Manifest.Progress | coding/manifest/scheduler.go:46-71 | with work left and a free slot, a plan is ready or an unfinished one is active |
| PlanLoop.ReconstructPlanState | cli/run.go:969-994 | computes the replay of the log |
| PlanLoop.ReplayMeaning | cli/run.go:969-994 | completed are the plans ever shipped, active those started and never shipped |
| PlanLoop.FindPlan | cli/run.go:686-693 | finds a plan with the id exactly when there is one |
| PlanLoop.PlanRunner.CreateNextCheckpoint | cli/run.go:611-673 | offers the foremost plan that may start, or says all are complete, or none is ready |
| PlanLoop.PlanRunner.TakeTurn | cli/run.go:484-593 | an approved plan's turn: what it writes, and exactly which failure it ends in |
| PlanLoop.PlanRunner.Resume | cli/run.go:448-601 | what each kind of item does, the exact writes, the sets in memory, and exactly which message is printed; the plan offered is the foremost that may start |
| PlanLoop.ResumeAccount | cli/run.go:484-645 | how often an undisturbed resume writes what: announcements, items, shippings, and the one offer |
| PlanLoop.ShippedLast | cli/run.go:552-590 | once a turn has logged the plan as shipped it does nothing but log that again |
| PlanLoop.MemoryIsReplay | cli/run.go:571-599 | after an undisturbed resume, replaying the log gives the completed and active sets held in memory |
| PlanLoop.ResumeContinues | cli/run.go:361-377 | in any history a resume that ran to its end leaves the next one exactly the sets it had in memory |
| PlanLoop.WaitingMeansActive | cli/run.go:658-672 | in any history, when no plan is ready although some are unfinished, an unfinished plan is active |
| PlanLoop.CutAnywhere | cli/run.go:623-645 | cut after any write the invariant holds, and a plan is newly stranded exactly when the cut falls between announcing and offering it |
| PlanLoop.DependenciesFirst | cli/run.go:484-552 | over any stops, resumes and crashes, a plan's turn finds all its dependencies completed |
| PlanLoop.CompletedConverged | cli/run.go:548-573 | a plan is completed only by a turn in which every one of its phases converged |
| PlanLoop.NeverStuck | cli/run.go:658-672 | a resume that chooses the next plan leaves nothing to do or an unfinished plan whose approval can be given |
| PlanLoop.UnfinishedFalls | cli/run.go:571-573 | the number of unfinished plans falls by one on a plan's first success and never otherwise |
| PlanLoop.StrandedForever | cli/run.go:623-645 | a stranded plan is never offered, run or completed |
| PlanLoop.StrandedIffCut | cli/run.go:623-645 | every active plan can be approved exactly when no resume was cut between announcing and offering |
| PlanLoop.FirstResumeCanStrand | cli/run.go:475-477 | for every valid manifest the very first resume can strand a plan |
| PlanLoop.CompletedIffShipped | cli/run.go:969-994 | over any history a plan is completed exactly when an earlier move shipped it |
| PlanLoop.MoveCompletes | cli/run.go:552-590 | a move adds to the completed plans exactly those it ships |
| PlanLoop.ReapprovalRunsAgain | cli/run.go:484-590 | in any history, a finishing move with a working shipper ships once more; it repeats an earlier shipping exactly when the plan was completed, and then leaves the completed set alone |
| PlanLoop.SecondApprovalShipsAgain | cli/run.go:484-590 | every sound manifest has a history of three moves that ships one plan twice |
| LineDiff.FillTable | internal/testutil/snapshot.go:219-236 | fills the table with the recurrence, bottom-up |
| LineDiff.DiffLines | internal/testutil/snapshot.go:216-276 | writes the header and the walk's script |
| LineDiff.DiffLooks | internal/testutil/snapshot.go:238-275 | two headers, then one line per edit behind a blank, a minus or a plus |
| LineDiff.DiffIsExact | internal/testutil/snapshot.go:238-275 | reading the text back and erasing + lines gives want, erasing - lines gives got |
| LineDiff.DiffIsMinimal | internal/testutil/snapshot.go:216-276 | no common subsequence is longer than what the diff keeps, and no script has fewer + and - lines |
| LineDiff.DropsFirst | internal/testutil/snapshot.go:249-262 | where lines differ, the wanted line is dropped first exactly when that leaves as long a common subsequence as adding the other |
| LineDiff.CellBounds | internal/testutil/snapshot.go:224-236 | no common subsequence of the suffixes is longer than the table entry |
| LineDiff.WalkSides | internal/testutil/snapshot.go:241-273 | the walk turns want into got and keeps as many lines as the table says |
| LineDiff.KeptIsCommon | internal/testutil/snapshot.go:242-250 | what any script keeps is a common subsequence |
| IdTokens.TokenInjective | internal/testutil/snapshot.go:48-50 | no two mappers and no two numbers share a token |
| IdTokens.TokenWords | internal/testutil/snapshot.go:62-100 | which word each field's identifiers get, an underscore and a decimal number behind it |
| IdTokens.LookupInjective | internal/testutil/snapshot.go:72-79 | two ids never share a token, and no token is empty |
| IdTokens.StepKeeps | internal/testutil/snapshot.go:81-101 | one step keeps each id in at most one mapper, forgets nothing and answers from the new tables |
| IdTokens.TokensAreFinal | internal/testutil/snapshot.go:81-101 | a token once given never changes |
| IdTokens.TokensTellApart | internal/testutil/snapshot.go:81-101 | tokens are equal exactly when ids are, empty exactly for the empty id |
| IdTokens.SameTokensIffRenamed | internal/testutil/snapshot.go:28-101 | two traces over the same fields get the same tokens exactly when one is an injective renaming of the other |
| IdTokens.OrderMatters | internal/testutil/snapshot.go:105-110 | swapping two neighbouring ids changes a token exactly when both are new, different and of one mapper, or the two are one id whose fields belong to different mappers |
| IdOrder.ClosedForm | internal/testutil/snapshot.go:81-101 | after a trace, each mapper has numbered the identifiers first met in a field of its kind, in the order they were met |
| IdOrder.TokenIsRank | internal/testutil/snapshot.go:48-50 | an identifier's token is its mapper's prefix and its rank in that order |
| IdOrder.SameTokensIffSameRanks | internal/testutil/snapshot.go:81-101 | two traces give every identifier the same token exactly when those orders agree, mapper by mapper |
| IdOrder.OrderShowsIff | internal/testutil/snapshot.go:105-110 | any reordering of a trace leaves every field's token alone exactly when, mapper by mapper, the identifiers are first met in the same order |
| IdSnapshot.WalkIsTrace | internal/testutil/snapshot.go:103-125 | the walk over a JSON value is the trace of its id fields and touches nothing else |
| IdSnapshot.PartsWalked | internal/testutil/snapshot.go:103-125 | at the end of every path an identifier has become the token the final tables hold for it, and everything else is unchanged |
| IdSnapshot.SameSnapshotIffRenamed | internal/testutil/snapshot.go:103-125 | two values normalise alike exactly when one is the other with ids injectively renamed |
| IdSnapshot.SnapshotIsWalked | internal/testutil/snapshot.go:136-157 | an event list is normalised like the JSON list of its identifier fields and payloads |
| IdSnapshot.EventTrace | internal/testutil/snapshot.go:136-157 | an event's identifiers are met in the order run, payload, cause, correlation; its other fields stay |
| IdSnapshot.SnapshotInOrder | internal/testutil/snapshot.go:136-157 | each event is normalised by the tables the earlier ones left |
| IdSnapshot.GoldenEqualIffRenamed | internal/testutil/snapshot.go:127-160 | two logs give the same golden snapshot exactly when one is the other with ids injectively renamed |
| IdSnapshot.TokenMapper.Normalize | internal/testutil/snapshot.go:41-52 | the mapper's new state and token |
| IdSnapshot.SnapshotNormalizers.Lookup | internal/testutil/snapshot.go:72-79 | the first mapper that knows the id answers |
| IdSnapshot.SnapshotNormalizers.NormalizeId | internal/testutil/snapshot.go:81-101 | the five mappers' new state and the token |
| IdSnapshot.SnapshotNormalizers.WalkValue | internal/testutil/snapshot.go:103-125 | the in-place walk computes the normalised value |
| IdSnapshot.LoadEventSnapshot | internal/testutil/snapshot.go:127-160 | the loader computes the snapshot |
| Sse.Serve | coding/eventbus/sse.go:37-60 | writes one frame per event that passes the filters, in order |
| Sse.SentInOrder | coding/eventbus/sse.go:37-60 | what is sent is each event of the wanted run and kind that can be marshalled, once and in order |
| Sse.WatchStream | cli/watch.go:142-186 | prints the delivered events up to the first that cannot be decoded, and fails exactly when there is one |
| Sse.DecodableMeaning | cli/watch.go:142-186 | what is printed is everything up to the first event that cannot be decoded |
| Sse.LinesMeaning | cli/watch.go:142-162 | every line that ended in a newline is looked at, what follows the last newline is not |
| Sse.LineMeaning | cli/watch.go:164-185 | less its trailing carriage returns a line is blank, data behind "data:" and at most one space, or ignored |
| Sse.ProcessSseEvent | agent/opencode_http_agent.go:502-553 | what one payload adds to the session |
| Sse.SessionMeaning | agent/opencode_http_agent.go:353-553 | up to the first idle event of the session: its texts, in order, whose message id was known or announced before; every id announced; the last error with words; done exactly when there is an idle event |
| Sse.SseStream | agent/opencode_http_agent.go:409-489 | one connection gathers what its delivered events say, up to the idle event |
| Sse.SseLoop | agent/opencode_http_agent.go:353-398 | merging connection by connection equals gathering all delivered events at once |
| Sse.RoundTrip | coding/eventbus/sse.go:53-57 | printed payloads without newline and not ending in a carriage return are read back in order |
| Sse.RoundTripIff | cli/watch.go:164-185 | a printed stream is read back unchanged exactly when every payload is of that kind |
| Sse.ReconnectInvisible | agent/opencode_http_agent.go:364-393 | cutting such a stream at any line ends into any connections changes neither parts, ids, last error nor completion |
| Sse.ServedIsWatched | cli/watch.go:117-187 | what passes the server's filters is what the watcher prints |
| PhaseIndex.PhaseIndexIn | internal/predicates/phase_index.go:12-50 | the first part that is wrong or holds n decides; without one the answer is no; the empty expression is an error |
| PhaseIndex.Consider | internal/predicates/phase_index.go:18-47 | one part of the list: wrong, holding n, or neither |
| PhaseIndex.PartMeaning | internal/predicates/phase_index.go:18-47 | a blank part is nothing, a part without an inner dash must be a number, any other must have a number on each side of its first dash, in order; anything else is wrong |
| PhaseIndex.ItemReads | internal/predicates/phase_index.go:19-45 | a printed number or range, with any white space around its pieces, reads back as what it stands for |
| PhaseIndex.PrintedListsRead | internal/predicates/phase_index.go:9-50 | a printed list is never an error and holds n exactly when one of its items does |

## Left out

- The TUI, cobra commands, flags, printing and tabwriter output, HTTP and MCP handlers, and thin getters: user
  interface and wrappers.
- Subprocesses, git, gh, worktrees and file tailing: input and output.
- SQL text, JSON and YAML encoding, SHA-256 and random ids: rows, events and fingerprints are values, ids are fresh.
- Permission matching, policy overlays, the stage registry, the quality evaluator and `populateCost`: one-branch facts.
  The permission check is a yes or no in `Dispatcher.Happening`.
- `filepath.Match`, role globs, regular expressions and templates: what they answer is a parameter.
- `WriteEventIdempotent`: its check is outside the transaction.
- Attention answers and checkpoint rows: an item in the plan loop is approved when it is resumed; rejecting one only
  aborts the run.
- A dispatch's job id, prompt, inputs and mode are one opaque `work` string; a worker's pid, session and CLI are left
  out.
- Findings persisted by the dispatcher, `supervisor.verdict`, cost and `job.skipped` events of a dispatch: the
  dispatcher is modelled without its optional writers.
- Dispatcher.Orchestrate: takes store writes to succeed; what a cancelled context leaves is in
  `DispatchCut.OpenIffCutInside`.
- Dispatcher.NoJobLeftOpen: likewise; cancelled at the wrong moment a job does stay open.
- PhaseJobs.JobsBounded: counts the jobs of the phase's own dispatches; the architect's, planner's and shipper's are
  not in it.
- Dispatches.DispatchStore.ExpireLeases: stated for an undisturbed call; what interleaving changes is in
  `Lease.ExpiryOfFreshLease`.
- Workers.WorkerStore.MarkEvicted: stated for an undisturbed call; the interleaved one is in `Lease`.
- Watchdog.SecondChanceIff: stated for two undisturbed ticks; every run is in `LeaseTiming.GivesSecondChanceIff`.
- Watchdog.DefaultSecondChance: likewise; every run is in `LeaseTiming.DefaultGivesSecondChance`.
- Lease.TwoWatchdogsEvictTheHeard: one run; the exact condition is in `LeaseTiming.EvictionOfTheHeard`.
- Watchdog.HeartbeatWatchdog.Tick: stated for an undisturbed tick; the database errors that would end one early are
  not modelled.
- IdSnapshot.SnapshotNormalizers.WalkValue: walks an object's fields in a given order, because the code's own order is
  random.
- IdSnapshot.LoadEventSnapshot: a payload that is not JSON is the string value the loader falls back to.
- Sse.SseLoop: the backoff between connections, and a cancelled context dropping pending data, are not modelled; a
  server that replays or drops events on reconnect is not either.
- PlanLoop.PlanRunner.Resume: the manifest file is the same at every resume, and the events a phase logs besides its
  announcement are one `Other` each.
- PhaseLoop.FanOut: cancellation of the remaining jobs after a failure is not modelled; the fan-out fails either way.
- Strings are sequences of characters; bytes and UTF-8 are not modelled.
