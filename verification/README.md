# PMC control plane: a verified model

PMC advances durable tables (jobs, attempts, leases, reservations, features) by small
transactions, while controllers and supervisors may die between any two of them. This project
models that control plane in Dafny and proves what it is meant to keep: over every run of the
program supervisor, over every interleaving and crash, and over every operation sequence of the
reservation pools, the kanban board and the Telegram queue.

Each module follows one component of the program. Operations that update tables are methods of a
class with those tables as fields, and each equates its effect with a function on the old tables
or states its whole result; the laws about those functions, and about whole runs built from them,
are lemmas.

| file | component |
|---|---|
| `Graph.dfy`, `Plan.dfy` | dependency graphs, the depth-first cycle search, validation of feature and program plans |
| `Program.dfy`, `GitOps.dfy`, `Chaining.dfy` | the program tables and their transactions, idempotent commits, the chain of prerequisite commits |
| `RunInvariant.dfy`, `RunLog.dfy`, `ProgramRunner.dfy` | one call of the supervisor: loop, pool, promotion, what it starts and collects, the ways it ends |
| `ProgramMachine.dfy`, `Acceptance.dfy`, `ProgramRuns.dfy` | supervisors, workers, operators, crashes and recovery as interleaved atomic steps; how long an acceptance lasts; runs that end badly |
| `Leases.dfy`, `Recovery.dfy`, `AttemptLoop.dfy` | timed job leases, crash recovery, the attempt loop with replayed decisions |
| `Ledger.dfy`, `BashExecutor.dfy`, `Gateway.dfy` | request budget and tickets, the shell-tool executor, the failover gateway |
| `Credentials.dfy`, `Resources.dfy` | credential lanes and quota scopes, resource leases |
| `Kanban.dfy`, `Telegram.dfy` | the single-writer board, the durable update queue |

Choices the program does not make (what a job run or a provider call comes to, when a process
dies, how long a poll takes) are arbitrary: a nondeterministic choice, an argument, or an
environment function. Clocks are arguments that only grow. Time is `real` where the program uses
seconds, commits are numbers that git hands out in increasing order, and identifiers are wrapped
strings.

`dafny verify dfyconfig.toml` checks the whole project.

## Where the code does not keep a promise

These are proved with a concrete run or an exact condition, next to the property that does hold.

- A job can be run without its prerequisites. `ensure_worktree` adopts a clean worktree found on
  disk before it looks at dependency commits, and a refused first attempt leaves such a worktree
  behind (`DirectRunSkipsPrerequisites`). `EntryIsSafeIff` is the exact condition.
- "program cannot advance" is unreachable when a supervisor iteration is atomic, but can be seen
  when a job run outside the pool becomes ready between the promotion pass and the query for
  ready jobs (`CanLookStuckInsideAnIteration`). `NothingReadyIff` says exactly when the query finds
  nothing, and `StuckOnlyBeforePromotion` that the program then only waits for a promotion.
- A human acceptance can be overwritten with BLOCKED by a worker that raises after it reported
  READY, while a dependent is already at work (`AcceptanceCanBeOverwritten`). The accepted commit
  stays recorded, so dependency safety holds over recorded commits in every run
  (`DependencySafety`). An acceptance lasts exactly when, as it is recorded, no controller is inside
  the job, no supervisor still has to collect it, and nobody is rejecting or cancelling it
  (`AcceptanceLastsIff`); over runs whose acceptances meet that condition every prerequisite of a
  started job is accepted or promoted (`CarefulRunsSettle`).
- Two supervisors overlap when the first one stalls while the program is paused and resumed; the
  promotion of the first one can then fail (`StalledSupervisorIsRefused`), which it otherwise does
  only for a job that is no longer ready (`DependencySafety`).
- Lease exclusion depends on the configured lease: `ExclusionIff` and `PunctualHeartbeat` show
  that a lease of five seconds or less is never safe, and `SecondControllerEnters` what happens.
- Recovery makes a job READY because of any ready attempt, even one rejected before the attempt
  that died (`RecoveryRevivesRejectedWork`).
- The executor drops its token counts on a malformed tool call and when an exception escapes it;
  the controller's mismatch check then fires exactly if there was usage (`Executor.Run`), and a
  failure that would have been retried blocks the job (`DroppedUsageBlocks`).
- A request with declared amounts is granted beside an exclusive resource lease
  (`MixedRequestsOverlap`, `SecondLeaseIff`); `ExclusivityIff` says which kinds of requests may
  share a resource without that.
- `start` and `smoke` on the board read and write in two transactions, so two tasks of a project
  can be working (`TwoStartersRace`; `SmokeRevivesWorker`, where no two starts race).
  `SingleWriterIff` is the exact condition.
- The comment at `pmc/telegram_control.py:247-248` promises redelivery after a death; an update
  recorded but not handled is skipped instead (`RedeliveryIffUnrecorded`, `PollOnce`).

## Model

| member | source | states |
|---|---|---|
| Graph.AcyclicIffRanked | pmc/foreman.py:64-79 | over closed graphs, having no dependency cycle is the same as admitting a rank that falls along every dependency; the ground for the validator's search and for every recursion over dependencies |
| Graph.CycleSearch.Visit | pmc/foreman.py:67-76 | the recursive visit terminates, reports a cycle only if there is one, and otherwise has visited the key with `visiting` restored |
| Graph.CycleSearch.VisitAll | pmc/foreman.py:73-79 | visiting a list of keys reports a cycle only if there is one, and otherwise leaves every key of the list visited |
| Graph.SoleSinkFedByAll | pmc/foreman.py:80-85 | in an acyclic graph with a single unreferenced task, every other task transitively feeds it |
| Plan.CheckTasks | pmc/foreman.py:14-55 | the field checks succeed exactly on non-empty plans with valid, distinct identifiers, non-blank requests and allowed enumerations; the error names the first bad task and the first check it fails |
| Plan.CheckEdges | pmc/foreman.py:58-63 | the edge checks succeed exactly when every dependency names another task of the plan; the error names the first task with a bad dependency, and an unknown one before one on itself |
| Plan.HasCycle | pmc/foreman.py:64-79 | the search from every task reports a cycle exactly when the graph has one |
| Plan.FindSinks | pmc/foreman.py:80-81 | the tasks no other task depends on, each listed once and in plan order |
| Plan.ValidatePlan | pmc/foreman.py:13-86 | a plan is accepted exactly when its fields and edges are valid, its graph is acyclic and one task is the only one that no other depends on; the cycle error is raised exactly for cyclic graphs that pass the earlier checks, the terminal error exactly for acyclic ones without such a task, and it lists the unreferenced tasks once each in plan order |
| Plan.TerminalFedByAll | docs/PROGRAMS.md:55-57 | an accepted plan has one terminal task, and every other task is a transitive dependency of it |
| Plan.TwoTaskPlanIsValid | pmc/foreman.py:13-86 | any two tasks with good fields, the second depending on the first, are an accepted plan |
| Plan.CheckCoverage | pmc/foreman.py:107-136 | checklist validation succeeds exactly when the items are distinct and non-blank, every task claims known items, and no item is left uncovered; each error names what is wrong, in the order of the checks, and the last lists exactly the uncovered items |
| Plan.ValidateProgramPlan | pmc/foreman.py:89-142 | a program is accepted exactly when its plan is valid, has 2 to 50 tasks, each with acceptance, and its checklist, if any, is covered; each error says what is wrong |
| Program.ApprovedPlanHasShape | pmc/db.py:2004-2036 | what approval stores for an accepted plan: position order, dependencies, and exactly the unreferenced task marked terminal |
| Program.ReadyJobsAreFirst | pmc/db.py:2092-2111 | an eligible job left out of the released ones comes after all of them in (priority, position) order, and is left out only because the limit is used up |
| Program.SomethingIsReady | pmc/db.py:2085-2111 | no deadlock in any table state: if nothing is in flight, dead or still to promote and the terminal task is unfinished, some job is released |
| Program.ProgramStore.PromoteProgramTask | pmc/db.py:2123-2167 | promotion records the commit of a ready milestone once, refuses terminal, unready and differently promoted tasks, and keeps every earlier promotion |
| Program.ProgramStore.ClaimProgramRun | pmc/db.py:2169-2179 | a run is claimed exactly when it is approved or running and its lease is free, lapsed or the claimant's own; the claimant then owns it until now plus the lease |
| Program.ClaimLastsUntilLapse | pmc/db.py:2169-2179 | a claimed run stays with its owner exactly until the lease lapses: no rival can claim it before, any can after |
| Program.ProgramStore.HeartbeatProgramRun | pmc/db.py:2181-2190 | the heartbeat extends the lease exactly for the owner of a running program |
| Program.ProgramStore.ReleaseProgramRun | pmc/db.py:2192-2207 | only the owner's release sets the final state and frees the lease |
| Program.ProgramStore.SetProgramState | pmc/db.py:2209-2221 | pause, resume and cancel set the state and take the run away from its owner |
| Program.ProgramStore.SetState | pmc/db.py:2407-2412 | a job state is written without any check, and promotions are not touched |
| Program.ProgramStore.CompleteAcceptance | pmc/db.py:2434-2462 | acceptance records the commit and delivers the feature exactly for the terminal task |
| GitOps.Worktrees.CommitIdempotently | pmc/gitops.py:179-196 | the controller's own clean commit is returned as it is; otherwise a new commit is made if there is anything to commit, and nothing changes if not |
| GitOps.Worktrees.MakeCommit | pmc/gitops.py:153-177 | a commit is made exactly when the tree has changes or may be empty |
| GitOps.Worktrees.NormalizeWorkerCommits | pmc/gitops.py:117-121 | worker commits are dropped back to the baseline, their content kept as uncommitted edits |
| Chaining.ChainWalk.Visit | pmc/db.py:2276-2290 | the nested visit terminates on validated plans, adds only the visited task and its prerequisites with the commit each contributes, and reports a task only if it has none |
| Chaining.DependencyCommits | pmc/db.py:2251-2295 | raises exactly when some transitive prerequisite has no commit; otherwise every one of them contributes its accepted commit, or its promoted one if it has no accepted one, nothing else is returned, prerequisites come first and each commit once |
| RunInvariant.TerminalReadyMeansAll | pmc/program.py:82-89 | when the terminal task is finished and collected, every job was good, every milestone is settled, nothing is active and nothing is left over |
| RunInvariant.NotStuck | pmc/program.py:135-201 | if nothing was released in a consistent state with nothing left to promote, some task is dead or in flight |
| RunInvariant.PromotionsKept | pmc/program.py:59-80 | a run keeps every recorded promotion, promotes milestones only, and each commit it records is the clean head of that job's worktree |
| RunInvariant.FreshProgramCounts | pmc/program.py:104-106 | a fresh program of n tasks has n jobs to complete and n - 1 to promote |
| RunInvariant.FreshRunCompletes | pmc/program.py:113-201 | from an all-queued program of n tasks an undisturbed run returns READY_FOR_REVIEW with n completed and n - 1 promoted exactly when every job run ends ready and every milestone has changes |
| ProgramRunner.Runner.RecoverExpired | pmc/program.py:114-114 | recovery at the top of the loop changes only jobs in flight outside the pool, to the states recovery gives |
| ProgramRunner.Runner.PromoteTask | pmc/program.py:62-79 | one row of the promotion pass: skipped, promoted at the clean head of its worktree, or failing because there is nothing to commit |
| ProgramRunner.Runner.PromoteReady | pmc/program.py:59-80 | the pass promotes exactly the promotable tasks outside the excluded ones, counts them, leaves none, and stops at a task with nothing to commit |
| ProgramRunner.Runner.TerminalResult | pmc/program.py:82-89 | the final state the terminal task stands for, if it is finished |
| ProgramRunner.Runner.CheckIn | pmc/program.py:114-122 | repair, the pause check and the heartbeat keep the loop's invariant, and end the run only when it was interrupted |
| ProgramRunner.Runner.PromoteAndLook | pmc/program.py:126-133 | promotion and the terminal check keep the invariant and end the run only with a finished terminal task or an uncommittable one |
| ProgramRunner.Runner.Dispatch | pmc/program.py:135-146 | dispatching starts exactly the released jobs that fit the free workers, and nothing once an error was collected; it never exceeds the workers, never doubles a job, and starts only eligible jobs |
| ProgramRunner.Runner.Submit | pmc/program.py:138-146 | exactly the ready jobs that are not running are added to the pool |
| ProgramRunner.Runner.Collect | pmc/program.py:154-168 | every finished future is collected once; a job that raised is set to BLOCKED; the error is the last job that raised, or else the first that did not end ready, or none |
| ProgramRunner.Runner.Wait | pmc/program.py:148-153 | while workers run and others may intervene, the invariant holds with the finished jobs still to be collected |
| ProgramRunner.Runner.WaitAndCollect | pmc/program.py:148-176 | waiting and collecting keep the invariant and end the run only on an error with nothing left running |
| ProgramRunner.Runner.CheckIdle | pmc/program.py:178-201 | with nothing running, dead tasks end the run and jobs of an earlier supervisor are waited for; the deadlock exit is unreachable |
| ProgramRunner.Runner.Survey | pmc/program.py:114-133 | the upper half of an iteration keeps the invariant, and ends the run only interrupted, at an uncommittable task, or with a finished terminal task |
| ProgramRunner.Runner.Advance | pmc/program.py:135-201 | the lower half keeps the invariant and the log of what was started and collected, makes progress unless a job of an earlier supervisor is waited for, and ends the run only halted |
| ProgramRunner.Runner.Supervise | pmc/program.py:113-201 | the loop terminates and ends in one of the justified ways, with every invariant kept and a log that explains the result |
| ProgramRunner.Runner.SuperviseAndDrain | pmc/program.py:110-204 | leaving the pool waits for its workers: what the loop established about outcome, promotions, log and untouched jobs holds of the tables left behind |
| ProgramRunner.Runner.Run | pmc/program.py:91-223 | a claimed run never reports that the program cannot advance; undisturbed, it succeeds exactly when all jobs are good and halts otherwise; on success the counts are exactly the unfinished and unpromoted tasks and all tasks are done; no job is started after the first collected failure, a run that halts has collected all it started, the reported error is the job that caused it, and jobs never started are untouched; promotions are kept and the terminal task is never promoted |
| ProgramMachine.DependencySafety | pmc/program.py:126-176 | over every interleaving of supervisors, workers, operators, crashes and recovery: a started job has a commit for every transitive prerequisite, no pool is exceeded or holds a job twice, the terminal task is never promoted, and while no two supervisors overlapped promotion only ever fails on a job that is no longer ready |
| ProgramMachine.ReleasedIsChainable | pmc/db.py:2085-2111 | every job released in a reachable state has a commit for each transitive prerequisite, so `dependency_commits` does not raise for it |
| ProgramMachine.ChainHasNoDuplicates | pmc/db.py:2289-2295 | in a reachable state the returned chain holds one distinct commit per transitive prerequisite |
| ProgramMachine.CommitsAreDistinct | pmc/db.py:2290-2291 | in a reachable state two tasks never contribute the same commit |
| ProgramMachine.PromotionIsWriteOnce | pmc/db.py:2140-2156 | over every run whatsoever a recorded promotion is neither rewritten nor retracted, and an accepted commit never disappears |
| ProgramMachine.CrashesMakeNoSecondCommit | pmc/gitops.py:179-196 | however often the supervisor dies between committing and recording, without a new worker pass a job gets at most one more commit, and none once everything is committed |
| ProgramMachine.TakeoverAfterCrash | pmc/db.py:2169-2179 | after a supervisor died another one can claim the run once the lease lapsed, with tables and worktrees as they were, and what was in flight can be recovered |
| ProgramMachine.EntryIsSafeIff | pmc/controller.py:147-176 | entering a job keeps dependency safety exactly when it was dispatched, is being worked on, has its prerequisites, or is turned away |
| ProgramRuns.DirectRunSkipsPrerequisites | pmc/controller.py:165-174 | two direct runs of a job whose prerequisite never ran let the second one in |
| ProgramMachine.NothingReadyIff | pmc/db.py:2085-2111 | in every reachable state the query for ready jobs finds nothing exactly when every waiting task whose prerequisites are all finished has one still to be promoted |
| ProgramMachine.StuckOnlyBeforePromotion | pmc/program.py:197-201 | in every reachable state that looks stuck, some finished milestone is still to be promoted |
| ProgramRuns.CanLookStuckInsideAnIteration | pmc/program.py:126-142 | a run in which the query for ready jobs finds nothing although nothing is dead or in flight and the terminal task is unfinished |
| ProgramRuns.AcceptanceCanBeOverwritten | pmc/program.py:157-162 | a run from an approved program in which collecting a worker that raised sets an accepted job to BLOCKED after its dependent was dispatched |
| ProgramRuns.StalledSupervisorIsRefused | pmc/db.py:2140-2150 | a run in which a supervisor that stalled while another one claimed the run is refused because the task was promoted with another commit; the recorded promotion stays |
| Acceptance.AcceptanceLastsIff | pmc/controller.py:1269-1305 | an acceptance about to be recorded stays in every continuation exactly when the job is quiet: nobody inside it, nobody to collect it, nobody rejecting or cancelling it |
| Acceptance.CarefulRunsSettle | pmc/db.py:2085-2111 | over every run whose acceptances were quiet when recorded, each transitive prerequisite of a started job is accepted or promoted with a commit, and acceptances last |
| Acceptance.AcceptedCommitIsChained | pmc/db.py:2281-2283 | in a reachable state the chain of every dependent of an accepted task has its accepted commit, and not a commit it was promoted with before |
| Acceptance.AcceptanceReachesDependents | pmc/db.py:2281-2283 | once an acceptance is recorded, and until the task is accepted again, the chain of every dependent has that commit and none it superseded |
| Leases.LeaseStore.AcquireLease | pmc/db.py:1775-1798 | a lease is refused exactly while a rival's lease is unexpired |
| Leases.LeaseStore.RenewLease | pmc/db.py:1800-1808 | renewal extends the lease exactly for its owner, lapsed or not |
| Leases.LeaseStore.PurgeLapsed | pmc/db.py:1874-1876 | exactly the leases that expired before now are deleted |
| Leases.ExclusionIff | pmc/controller.py:53-79 | over every timed run each controller inside a job holds its unexpired lease, so no job is run twice, exactly when the heartbeat interval plus its delay is below the lease |
| Leases.OneRunPerJob | pmc/controller.py:320-322 | holding unexpired leases means that two controllers are never inside the same job |
| Leases.SecondControllerEnters | pmc/db.py:1786-1790 | when the condition fails, a second controller is let into the same job while the first still runs |
| Leases.PunctualHeartbeat | pmc/controller.py:62-67 | with no delay at all, exclusion holds exactly for leases longer than five seconds |
| Leases.HolderIsUndisturbed | pmc/db.py:1786-1827 | while a run holds its lease no rival acquires it, its renewal succeeds and recovery keeps it |
| Leases.LeaseLastsUntilLapse | pmc/db.py:1775-1815 | a granted lease keeps rivals out exactly until it lapses; only its holder can renew or release it, and a released one is free at once |
| Leases.ExitFreesJob | pmc/controller.py:75-79 | a controller that leaves gives up its lease, the others keep theirs, and a rival gets in at once |
| Recovery.Store.RecoverExpiredLeases | pmc/db.py:1816-1893 | one pass repairs exactly the lapsed jobs, returns each of them once, and leaves the tables in the specified state |
| Recovery.LapsedIsRepaired | pmc/db.py:1829-1872 | a recovered job is READY if an attempt was ready, else FAILED at the limit, else RETRY; none of its attempts, quotas, resources or requests of an interrupted attempt stays open; no attempt is added and credential reservations stay |
| Recovery.EachRowAfterRecovery | pmc/db.py:1829-1893 | attempts, quotas, leases and resources after one pass, row by row: started attempts of lapsed jobs are closed as RESOURCE_FAILURE with their earlier error kept, their quotas are freed, lapsed leases are gone, all else is as before |
| Recovery.EachRequestAfterRecovery | pmc/db.py:1867-1874 | an open request of an interrupted attempt of a lapsed job fails with its earlier error kept; every other request is as before |
| Recovery.OthersAreKept | pmc/db.py:1822-1828 | a job with a live lease, or not in flight, keeps its state, attempts, requests, quotas, lease and unexpired resources |
| Recovery.RecoveryIsIdempotent | pmc/db.py:1816-1893 | a second pass at the same time finds nothing and changes nothing |
| Recovery.RecoveryRevivesRejectedWork | pmc/db.py:1831-1849 | a job whose last attempt died becomes READY because of an older ready attempt |
| AttemptLoop.ReplayIsDeterministic | pmc/controller.py:435-467 | looking up the decision of an attempt's number always gives the candidate that attempt ran |
| AttemptLoop.NextNumberIsFree | pmc/db.py:90-90 | the next attempt number is unused, so the unique constraint never fails |
| AttemptLoop.OutcomesKeepReplayable | pmc/db.py:1850-1856 | recovery and later outcomes never disturb the correspondence of attempts and decisions |
| AttemptLoop.JobRun.Decide | pmc/controller.py:435-540 | a persisted decision is replayed, otherwise one decision is recorded for the number, with the forced or planned candidate if there is one; the planned repeats stay within bounds |
| AttemptLoop.JobRun.Choose | pmc/controller.py:435-523 | a persisted decision wins; without one a forced candidate opens a fresh cycle and a planned repeat comes next, or the run raises; the scheduler takes an excluded candidate only when no other is usable, and the job is blocked only when none is |
| AttemptLoop.JobRun.Execute | pmc/controller.py:839-1240 | what the attempt met fixes its row, the job state and the way on: closed as failed, blocked, or to be retried by policy; ready only if verified and rejected by no review |
| AttemptLoop.JobRun.Attempt | pmc/controller.py:612-838 | one attempt adds one row with the decided candidate, whose number is free, and closes it unless the process dies or raises |
| AttemptLoop.JobRun.RunJob | pmc/controller.py:388-1244 | the loop terminates within the remaining allowance; at any death or exception numbers are still 1..n with one decision each; all but the last begun attempt are closed, and all of them on return; READY means the last attempt is verified and unrejected; the last turn, or a used-up allowance, decides the state; no candidate is repeated through retry_same more often than configured |
| AttemptLoop.ForcedComesFirst | pmc/controller.py:465-490 | the first new decision of a fresh cycle is the forced candidate, and its attempt runs it |
| AttemptLoop.FailureDecidesNext | pmc/controller.py:941-980 | a failure to be retried with the same candidate makes it the very next decision; one charged to the candidate keeps the scheduler from it, unless nothing else can be had |
| AttemptLoop.OutcomeDecides | pmc/retry.py:21-48 | what an executor's failure leads to in every explained run without a fixed order: security and policy failures end the job BLOCKED, a cancellation FAILED, eight kinds are repeated until the candidate was used too often, six bar the candidate at once, a resource failure neither unless the request did not fit |
| AttemptLoop.SinceCountsCycle | pmc/db.py:2530-2543 | the count the loop starts from is the number of attempts started after the latest feedback, or of all attempts |
| AttemptLoop.CycleStaysBounded | pmc/controller.py:413-431 | attempts in the feedback cycle never exceed max(initial, min(max_attempts, 1 + max_repairs)) |
| Ledger.JobLedger.Reserve | pmc/accounting.py:73-118 | a request is refused for its size exactly when it exceeds the limit of its lane, and otherwise for budget exactly when it does not fit; a granted one keeps requests, tokens and cost within the ceilings |
| Ledger.JobLedger.Finish | pmc/db.py:1405-1470 | finishing a ticket replaces its estimate by actual usage; the ceilings hold up to the excess of requests finished since the last grant |
| Ledger.JobLedger.AddFeedback | pmc/db.py:1522-1539 | human feedback starts a new cycle with nothing committed |
| BashExecutor.Executor.Ask | pmc/executors/bash.py:184-206 | each ticket is settled exactly once: a reply succeeds with its usage, a 429 as rate-limited and any other failure as failed, without usage |
| BashExecutor.Executor.Turn | pmc/executors/bash.py:179-277 | one turn ends within its three retry allowances, a status ends it exactly when its allowance is used up, each way it ends goes with its last answer, and a failed turn adds no usage |
| BashExecutor.Executor.Count | pmc/executors/bash.py:406-422 | a command is counted, and refused exactly when it was run as often as the repeat limit |
| BashExecutor.Executor.Observe | pmc/executors/bash.py:423-514 | unsafe, timed out, oversized and forbidden commands end the run each in its way; otherwise it ends exactly when too many commands in a row changed nothing and enough tokens were used |
| BashExecutor.Executor.RunCommand | pmc/executors/bash.py:405-514 | a command is refused exactly when it was run as often as the repeat limit; what running it comes to decides whether and how the run ends |
| BashExecutor.Executor.Run | pmc/executors/bash.py:154-547 | every ticket is settled once, calls never exceed max_turns * (1 + the three retry limits); each kind of exit goes with one kind of last event and no other, completion exactly with a reply that asks to finish, and turns are exhausted exactly when the last event leaves the conversation open, which is after max_turns replies; the controller's mismatch check fires exactly when the exit drops its usage and there was some |
| BashExecutor.DroppedUsageBlocks | pmc/controller.py:896-914 | a malformed tool call or a crash, which would be retried, blocks the job exactly when the attempt had used something |
| Gateway.Handler.DoPost | pmc/provider_gateway.py:126-291 | the loop, with its counters and the single wait, computes the recursive specification for every upstream |
| Gateway.FailoverIsBounded | pmc/provider_gateway.py:126-291 | for every upstream the loop ends, makes at most 2 * (max_failovers + 1) requests, waits at most once, and settles every ticket exactly once unless an exception escapes |
| Gateway.ResponseHasCause | pmc/provider_gateway.py:126-291 | for every upstream the response is decided by the first turn that ends the loop, or is the last HTTP error after every attempt was used up; a delay that fits is waited for once before giving up |
| Gateway.BoundIsTight | pmc/provider_gateway.py:222-242 | a provider that always answers 429 is asked exactly 2 * (max_failovers + 1) times |
| Credentials.Store.ReserveProviderCredential | pmc/db.py:527-588 | the granted lane is grantable and preferred to every other grantable lane: fewer open reservations, then better health, then less use, then order; nothing is granted exactly when no lane is grantable |
| Credentials.Store.ReconcileProviderCredential | pmc/db.py:669-771 | a reconciliation closes its reservation, updates its lane, and spreads a rate limit to the enabled lanes of a known scope |
| Credentials.NeverOversubscribed | pmc/db.py:527-634 | over every interleaving of grants, probes and reconciliations, working reservations per lane stay within its limit, and a scope with only known lanes within its largest lane limit |
| Credentials.CooldownHolds | pmc/db.py:756-771 | after a 429 in a known scope no enabled lane of it is granted before the cooldown, until that lane is reconciled itself or another rate limit spreads |
| Credentials.EachLaneAfterAnswer | pmc/db.py:669-771 | health, cooldown and token budget of the lane that was answered, by status; other lanes change only by a 429 in a known scope they share |
| Credentials.RefusedKeyRetiresLane | pmc/db.py:527-588 | after a 401 or 403 the lane is never granted, until it is reconciled itself or a rate limit spreads to it |
| Resources.Store.ReserveResource | pmc/db.py:1662-1713 | the decision and the new table, including the lapsed leases purged first |
| Resources.WithinCapacity | pmc/db.py:1671-1692 | over every run, declared non-negative amounts against one capacity never exceed it in any dimension |
| Resources.ReleaseAndExpiryAreExact | pmc/db.py:1734-1739 | release takes exactly the lease of its job on its resource, expiry exactly the lapsed ones |
| Resources.RenewalLastsUntilLapse | pmc/db.py:1741-1752 | a renewed lease outlives expiry exactly until the renewal lapses, and no other owner's lease is renewed |
| Resources.ExclusiveWithoutAmounts | pmc/db.py:1693-1694 | a resource whose requests declare no amounts never has two leases |
| Resources.MixedRequestsOverlap | pmc/db.py:1682-1694 | from the empty table, a request whose amounts fit is granted beside the lease of a request that declared none, for any such pair |
| Resources.SecondLeaseIff | pmc/db.py:1682-1694 | beside the only live lease of a resource a request is granted exactly when it declares amounts and a capacity, these fit beside that lease, and its job is another one |
| Resources.ExclusivityIff | pmc/db.py:1676-1694 | every run drawing its requests from given kinds keeps each undeclared lease the only one of its resource exactly when no counted kind fits beside a kind that is not counted |
| Kanban.KanbanStore.StartTask | pmc/kanban.py:181-196 | a task is started exactly when, on the board that was read, the writer slot is free or its own and its state allows it, and the worktree is usable; the write goes to whatever board others have left by then |
| Kanban.KanbanStore.CheckpointTask | pmc/kanban.py:222-250 | a checkpoint is recorded exactly when a working task was pushed; a failed push blocks it and records nothing, anything else changes nothing |
| Kanban.KanbanStore.SmokeTest | pmc/kanban.py:252-263 | the evidence and the state written are computed from the task as it was before the command ran, and written over whatever others have left by then |
| Kanban.KanbanStore.DiagnoseWorking | pmc/kanban.py:292-310 | exactly the working tasks of the project that are not alive are released and reported |
| Kanban.KanbanStore.NextReady | pmc/kanban.py:285-290 | nothing while a task works, else the first queued task by state and age, which can be started |
| Kanban.KanbanStore.AddNewTask | pmc/kanban.py:154-164 | a new task is ready; an existing identifier is refused and nothing changes |
| Kanban.KanbanStore.FinishTask | pmc/kanban.py:277-283 | a task is done exactly with passing or warning smoke evidence |
| Kanban.SmokeDecidesFinish | pmc/kanban.py:252-283 | right after a smoke run a task can be finished exactly if the run passed |
| Kanban.KanbanStore.MarkTask | pmc/kanban.py:265-275 | a warning only records evidence; a block only sets the state |
| Kanban.AlwaysSingleWriter | pmc/kanban.py:181-310 | every board reached by operations that are not disturbed between their reads and writes has at most one working task per project |
| Kanban.UndisturbedIsOneStep | pmc/kanban.py:181-310 | an operation that is not disturbed between its reads and its writes has exactly the effect of its one-step form |
| Kanban.StepIsSafeIff | pmc/kanban.py:181-310 | over all interleavings of reads and writes, a step breaks the single writer exactly when it writes WORKING to a slot that is taken by then |
| Kanban.SingleWriterIff | pmc/kanban.py:181-310 | a run of interleaved reads and writes has a single writer throughout exactly when no write in it clashes |
| Kanban.CheckpointsOnlyByPush | pmc/kanban.py:222-250 | over all interleavings, only the write of a checkpoint that was pushed changes the recorded commit of a task |
| Kanban.TransitionsHaveCauses | pmc/kanban.py:181-310 | every change of a task's state by an undisturbed operation has its cause: working only by an allowed start, done only with evidence, checkpointed only by a push or a smoke run over a recorded checkpoint, blocked only by a block or a failed push |
| Kanban.DiagnosisFreesTheSlot | pmc/kanban.py:292-310 | after an undisturbed diagnosis only alive tasks work, and with none alive a queued task can be started |
| Kanban.WriteIsSafeIff | pmc/kanban.py:190-263 | the write of a pending operation keeps the single writer exactly when it writes no WORKING, or the slot is still free at that moment; a passing smoke run of a task it read as working writes WORKING too |
| Kanban.TwoStartersRace | pmc/kanban.py:183-195 | from the empty board, two starters that both checked first both get in |
| Kanban.SmokeRevivesWorker | pmc/kanban.py:252-263 | from the empty board, a smoke run that outlasts a diagnosis and an undisturbed start of another task leaves two working tasks |
| Telegram.Controller.Register | pmc/telegram_control.py:81-94 | registration fails exactly on a taken alias, keeps every other conversation and its alias, and at most one conversation is active |
| Telegram.Controller.Select | pmc/telegram_control.py:108-113 | selecting a known conversation makes it the only active one and changes nothing else |
| Telegram.Controller.PollOnce | pmc/telegram_control.py:226-252 | whatever the redelivery and wherever the process dies, no update is handled twice and at most one is dropped; without a death each new owner text update is handled exactly once, in order; the offset never falls for ascending batches at or above it |
| Telegram.RedeliveryIffUnrecorded | pmc/telegram_control.py:238-250 | a redelivered update is handled exactly if it was not recorded before |

## Left out

- Git (worktree creation, cherry-picks, diffs, pushes), HTTP, SDK calls, sandboxes, model replies: arbitrary outcomes.
- SQLite, JSON, hashing: tables are maps and sequences, each transaction is atomic, identifiers are fresh.
- JSON shapes of a plan: types, the list checks on acceptance and dependencies, and `candidate_order`; plans are decoded records.
- Graph.CycleSearch.Visit: a report of no cycle is turned into acyclicity by the caller, after all keys were visited.
- ProgramRunner.Runner.Run: a supervisor iteration is atomic towards other processes, and others intervene only while it waits; the finer interleavings are in `ProgramMachine`. `idle` and `horizon` are arbitrary bounds on empty-handed polls, the fairness a terminating run needs.
- ProgramRunner.Runner.Run: starts with every task queued, retryable, in flight, ready, accepted or dead; a promoted task that was rejected again is covered by `ProgramMachine` only.
- ProgramRunner.Runner.Run: while it waits, others pause, cancel, resume or claim the program; jobs that are accepted, rejected or cancelled meanwhile, and a claim during a promotion pass, are covered by `ProgramMachine` and `Acceptance` only.
- ProgramRunner.Runner.RecoverExpired: a job of the pool keeps its own lease renewed, so recovery never touches it (`Leases.ExclusionIff` says when that holds); for the others the repaired state is one of the three that recovery gives, fixed in advance (see `Recovery`).
- ProgramRunner.Runner.Collect: futures are identified with their jobs, which are distinct; their order is arbitrary.
- Chaining.DependencyCommits: only autonomous programs; for other features the same walk demands accepted prerequisites. `queued_jobs` repeats the release query over all features.
- ProgramMachine.DependencySafety: `reverify_job`, `cleanup` and direct edits of the tables are excluded; a conflict while integrating prerequisites is a job run that raises.
- Leases.ExclusionIff: owners are distinct, one run per owner and job; the same owner may acquire its own lease again.
- Leases.ExclusionIff: the lease is a positive number of seconds; the clock is shared and only advances.
- AttemptLoop.JobRun.RunJob: which usable candidate the scheduler scores highest, planners, the challenger, quota and credential reservations around an attempt are not modelled; a failure in any of them is an exception.
- AttemptLoop.JobRun.Execute: the executor and the verifier yield any outcome; the worktree is not part of this module.
- Ledger.JobLedger.Reserve: one runner per job, so reading the totals and inserting the row are one step; a row reserved but never started is not modelled.
- BashExecutor.Executor.Run: the conversation, warnings and command output are not modelled, nor the outcome attached to an exit except where its usage is dropped, and a database failure while settling a ticket is excluded.
- Gateway.Handler.DoPost: request parsing and authorization precede the loop and are not modelled; `TransportEscapes` stands for an exception of the client that is no HTTP error, `NotObject` stands for a body, or a usage entry in it, that is no object.
- Credentials.NeverOversubscribed: configuration is fixed, and health probes come on top of the limits as in the program.
- Resources.Store.ReserveResource: a second lease of the same job on the same resource violates the primary key and rolls the purge back.
- Kanban.AlwaysSingleWriter: operations that are disturbed may leave two working tasks; `SingleWriterIff` covers them.
- Kanban.TransitionsHaveCauses: a disturbed smoke run may write back whatever state it read (`SmokeRevivesWorker`).
- Kanban.KanbanStore.StartTask: the reads of one operation are one step. `start` looks at the oldest working task only, which on a board with a single writer is the only one.
- Kanban.KanbanStore.CheckpointTask, FinishTask and DiagnoseWorking are given undisturbed; `Begin` and `Written` split them too.
- Telegram.Controller.PollOnce: message texts, replies and their delivery; an update counts as handled once its handler was called.
- Scheduler scoring, verifier rules, secret scanning, prompts, reporting, configuration, command line, Jules and OpenHands executors.
