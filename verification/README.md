# Verified model of the agent harness

The harness runs a team of coding agents over one SQLite file. This project models its coordination
core in Dafny and proves what the core is built to guarantee.

- **The queue** (`TaskTable`, `ClaimOrder`, `Routing`, `QueueEvents`). The tables are one value, `State`;
  each transaction is an `Event` with a guard and an effect; `Next` applies an event and leaves the state
  alone when its guard fails, which is what an UPDATE that matches no row does. So every sequence of events is
  a possible interleaving of workers, tool servers and operators, and theorems about `Replay` are theorems
  about all runs.
- **What every run keeps** (`QueueRuns`, `QueueTree`, `QueueFoundation`, `QueueDiscipline`, `QueueRecovery`,
  `QueueFairness`, `QueueCapacity`, `QueueOrigins`, `QueueDelegation`, `QueueNotes`): fencing, attempt
  accounting, the shape of the delegation tree, when exactly a wait is left with nothing to wait for, deadlock
  freedom, bounded bypass, the capacity limit, uniqueness of delegated and automatic work.
- **What the operations promise** (`Promises`): second definitions of the main outcomes, made from the columns
  before and after alone, with lemmas that connect them to the transactions. The contracts of the store and of
  the worker state these, so a wrong rank, lease test or status shows even where it is defined twice.
- **The store** (`Store`, `StoreDelegation`, `StoreInsertion`, `AgentStates`). A class whose fields are the
  tables, with one method per transaction, loops where SQL scans or updates in bulk, and a ghost log. `Valid`
  says the fields are exactly what replaying the log yields, so everything proved about runs holds of it.
- **The worker** (`Worker`): what happens to a claim from the budget check to the verdict, with anything at
  all happening to the queue between any two statements and while the agent runs.
- **The release outbox** (`Outbox`, `Release`): a crash-step machine, and the methods that carry out its steps.
- **Incremental scan and session prompts** (`TurnScan`, `SessionPrompt`): two fast forms and the simple forms
  they must agree with.
- **Work map and JSON repair** (`WorkMap`, `ControlEscape`).

Where the code falls short of a property its comments or tests suggest, an if-and-only-if says when it holds,
and a small input shows how it fails:

- **Waits.** A transaction leaves every waiting task with an open child exactly when
  `QueueFoundation.KeepsFoundation` says so (`QueueFoundation.FoundationIsKept`); `QueueStrands` has one failing
  queue for each way out.
- **Capacity.** Between policy and roster changes the active work items stay within the limit exactly when none is
  filed on a leader replica by name while no slot is free (`QueueCapacity.CapacityHoldsExactlyWhen`); two such
  filings exceed a limit of one (`QueueCapacity.DirectReplicaWorkExceedsTheLimit`). A policy change gets within
  its limit exactly when the work already started fits (`QueueCapacity.RebalanceKeepsLimitExactlyWhen`).
- **Repeated delegation.** The same call is answered with its child exactly when the child is open and the request
  still resolves to it (`QueueDelegation.RepeatedCallReturnsItsChild`); after the child's replica has lost its
  eligibility it is refused as a conflict (`QueueDelegation.RetiredReplicaMakesAConflict`).
- **Releases, twice.** No task is ever both pending and published exactly when no backfill inserts a task that was
  published after the backfill had selected it (`Outbox.OutboxIsConservedExactlyWhen`). Most commands bootstrap in
  a process of their own (src/main.rs:91-131), and the insertion tests the pending table only
  (src/release_finalization_store.rs:22-31), so two bootstraps at once can do that
  (`Outbox.TwoBootstrapsDouble`). The task is then published once more, and from its next acknowledgement on it
  is no longer pending (`Outbox.DoubledExactlyWhen`).
- **Releases, never.** Between two backfills every completed root with something to release is pending or published
  exactly when none was completed by a process without publication enabled (or under a copy that misstates the
  row, which no issued assignment does) and the backfill was not cut short (`Outbox.NoReleaseIsForgotten`). Only the orchestrator enables publication (src/orchestrator.rs:66-68). The
  tool servers open their own store with publication off (src/mcp_server.rs:19, src/store.rs:21-35), so a task an
  agent completes through its tool is the failing case: it is recorded nowhere until the next bootstrap
  (`Outbox.ToolCompletionIsForgotten`).
- **Work map.** A child is resolved wrongly exactly when its links come back to its own id and the row last listed
  under that id gets away (`WorkMap.ResolutionIsExact`, `WorkMap.WrongExactlyWhenAnotherRowEscapes`,
  `WorkMap.DuplicateIdHidesARoot`). Every child is shown once exactly when none resolves to an id two roots share
  (`WorkMap.AppearsOnceExactlyWhen`, `WorkMap.SharedRootIdShowsTwice`).

The 30 s cap on release retries is never reached (`Outbox.RetryDelayDoubles`).

Run `dafny verify dfyconfig.toml` in this directory to check the project.

## Model

| member | source | states |
|---|---|---|
| Basics.TrimmingIsExact | src/task_create.rs:104-104 | trimming cuts blanks at both ends, all of them and nothing else |
| Basics.TopicsMatchExactlyWhen | src/task_delegate.rs:74-76 | topics match exactly when their trimmed texts are equal but for case |
| ClaimOrder.PeerWorkIsFifo | src/task_claim.rs:44-69 | agent-sourced rows without an operator-priority note are selected oldest first, because being overdue is monotone in age |
| ClaimOrder.OverdueBeatsDirect | src/task_claim.rs:49-54 | no direct row is selected while a pending agent row of the same agent has been overtaken three times |
| Routing.RouteIsUnique | src/replica.rs:42-111 | the routing specification determines the target |
| Routing.RoutedWorkBuffersOnlyUnderLoad | src/task_delegate.rs:158-167 | the chosen replica is unpaused, eligible and able, and is only found busy when no able replica is idle and free |
| QueueRuns.EveryEventMovesRows | src/task_claim.rs:40-168 | every transaction moves each row along one of three edges: it rests, is claimed under a new token, or its claim ends with at most one refund |
| QueueRuns.RunsKeepRowsOk | src/task_claim.rs:45-46 | in every run a claimed row has an attempt on the books, and only completed rows have a result |
| QueueRuns.SpentForever | src/task_claim.rs:94-168 | a token that is no longer held is never held again |
| QueueRuns.HeldOrSpent | src/task_claim.rs:94-168 | a token once held is at any later point still held or used up for good |
| QueueRuns.ClaimIsOneStretch | src/task_claim.rs:44-69 | the positions at which a row is claimed under one generation are contiguous |
| QueueRuns.SettledTokenIsStale | src/task_recovery.rs:39-59 | after one of complete, finish, retry, unstarted retry or defer was applied under a token, each of them and every renewal under it is stale at every later point |
| QueueRuns.AwaitingIsIdempotent | src/task_recovery.rs:113-129 | waiting for children under one token changes nothing the second time, whatever happened in between |
| QueueRuns.TerminalIsFinal | src/task_recovery.rs:70-111 | completed, failed and cancelled rows keep status, result and completion time |
| QueueRuns.AttemptsAreClaimsLessRefunds | src/task_claim_transitions.rs:31-78 | the attempts column is exactly the number of claims less those refunded |
| QueueRuns.EachClaimIsRefundedOnce | src/task_delegate.rs:183-193 | two refunds of one row belong to different tokens |
| QueueRuns.JobIsForever | src/task_query.rs:49-59 | the identifying columns of a row never change |
| QueueRuns.IssuedCopyIsAccurate | src/task_claim.rs:180-193 | while its token is current, a worker's copy of the row agrees with the row |
| QueueRuns.ReadCopyWasIssued | src/task_query.rs:24-40 | in every run an assignment read off a claimed row is the one its claim issued |
| QueueRuns.RetriesAreBounded | src/worker_runtime.rs:11-51 | a task is retried after a failure at most max_attempts - 1 times |
| QueueTree.RunsKeepTreesSound | src/task_delegate.rs:154-195 | in every run the parent of an open child is waiting, parents are older than their children, and generators have none |
| QueueTree.OnlyWaitingWorkHasOpenChildren | src/task_create.rs:89-99 | a completed, failed, pending or claimed task never has an open child |
| QueueFoundation.FoundationIsKept | src/task_create.rs:139-149 | a step leaves every waiting task an open child if and only if it closes no waiting task's last open children without waking it and enters no wait from a claim |
| QueueFoundation.WakingParentsRestoresFoundation | src/task_recovery.rs:95-102 | the sweep's waiting-parent rule restores an open child to every wait, from any sound state |
| QueueStrands.FailingOrphansStrands | src/task_recovery.rs:14-37 | failing an orphaned delegation leaves its parent waiting for nothing |
| QueueStrands.CancellingStrands | ui/src/server/task-tree.ts:10-18 | cancelling an only child leaves its parent waiting for nothing until the next statement |
| QueueStrands.SuccessVerdictStrands | src/task_claim.rs:152-163 | a success verdict on a delegated task leaves its parent waiting for nothing |
| QueueStrands.WrongCopyStrands | src/task_create.rs:139-149 | a completion under a copy that names no parent does so too |
| QueueStrands.UnguardedWaitStrands | src/task_recovery.rs:113-129 | waiting under a claim without children does so too |
| QueueDiscipline.WaitingWorkStaysFounded | src/worker_result.rs:58-97 | while completions use issued assignments and waits start from no claim, every waiting task has an open child until failing orphans or cancelling strands one, and again from the next sweep on |
| QueueDiscipline.GoneForGood | src/task_claim.rs:94-168 | an issued token that is not current never is again |
| QueueTree.OpenWorkLeadsToRunnableWork | src/task_recovery.rs:70-111 | from a waiting task or open delegation of a recovered queue a chain of open children leads to pending or claimed work, or to a delegation buffered behind such work of its agent |
| QueueTree.RecoveredQueuesAreNotDeadlocked | src/task_recovery.rs:70-111 | no run reaches a recovered state with open delegated work and nothing to run |
| QueueRecovery.SweepLeavesOrder | src/task_recovery.rs:71-102 | the sweep's statements leave no row deferred, no delegation backlogged and no wait without an open child |
| QueueRecovery.PromotionCompletesRecovery | src/task_recovery.rs:103-109 | promoting each agent's oldest buffered delegation leaves every buffered delegation behind a busy agent |
| QueueFairness.BypassIsBounded | src/task_claim.rs:6-6 | while an agent task stays pending from its creation on, attempts of newer direct tasks never sum to more than three |
| QueueFairness.AgentWorkIsFifo | src/task_claim.rs:44-69 | in every run agent work without a priority note is claimed in creation order |
| QueueCapacity.CapacityOverAStep | src/task_insert.rs:110-150 | no single transaction takes the active counted roots above the limit |
| QueueCapacity.CapacityIsExceededExactlyWhen | src/task_insert.rs:81-150 | from any state, a transaction that changes neither policy nor roster takes the active counted roots above the limit, or further above it, if and only if it files a work item on a replica by name while no slot is free |
| QueueCapacity.CapacityHoldsExactlyWhen | src/task_insert.rs:81-150 | through any stretch of a run without policy or roster changes that starts within the limit, every position keeps it if and only if no position makes such a filing |
| QueueCapacity.CapacityHolds | src/task_policy.rs:8-16 | in particular from the empty queue on when nothing is filed on a replica by name |
| QueueCapacity.DirectReplicaWorkIsAdmitted | src/task_insert.rs:81-107 | a work item filed on a leader replica by name adds an active counted root whatever the limit |
| QueueCapacity.DirectReplicaWorkExceedsTheLimit | src/task_insert.rs:81-107 | two of them, filed on a new queue with a limit of one, are both active |
| QueueCapacity.StartedWorkIsUntouched | src/task_policy.rs:19-65 | a rebalance loses no row and changes only the status of pending and backlogged rows |
| QueueCapacity.RebalanceKeepsLimitExactlyWhen | src/task_policy.rs:19-65 | after a rebalance the limit is kept if and only if the counted work already started fits into it |
| QueueCapacity.RebalanceIsIdempotent | src/task_policy.rs:19-65 | rebalancing twice is rebalancing once |
| QueueOrigins.RunsKeepDelegationsUnique | src/task_delegate.rs:119-136 | no parent ever has two children with the same assignee and normalised topic |
| QueueOrigins.RunsKeepAutomaticWorkUnique | src/task_automatic.rs:39-71 | open automatic roots differ in topic or body, and no two automatic roots share a generator |
| QueueOrigins.RetryCooldownIsKept | src/producer_store.rs:136-150 | no automatic root is created within the cooldown after an equivalent one failed or was cancelled |
| QueueDelegation.RepeatedRequestFindsItsChild | src/task_delegate.rs:71-136 | a request whose child is open is answered with that child |
| QueueDelegation.TemplateChildStaysFirst | src/task_delegate.rs:71-80 | a child filed through a template stays the first on its topic in every continuation |
| QueueDelegation.RepeatedCallReturnsItsChild | src/task_delegate.rs:66-153 | repeating a call under its parent at any later point of a run returns its child if and only if the child is open and the route, whatever it has become, reaches it |
| QueueDelegation.SameRouteReturnsItsChild | src/task_delegate.rs:66-153 | the route does when it goes by name as before, or through the template as before with the child's agent still able |
| QueueDelegation.RetiredReplicaMakesAConflict | src/task_delegate.rs:71-115 | when the child's replica has lost its eligibility the repeated call is refused as a conflict with its own open child |
| QueueDelegation.NextDelegationHasTheSameParent | src/task_query.rs:61-79 | after a delegation the agent's next one hangs under the same parent |
| QueueNotes.NoteInterruptsOnce | src/coordination.rs:75-115 | a note on a running turn refunds the attempt and spends the token, and the same note never interrupts again |
| Store.Store.AlwaysSound | src/task_delegate.rs:154-195 | the run invariants hold of the store's tables at every moment |
| Store.Store.SelectClaim | src/task_claim.rs:44-69 | the row selected is in turn: overdue agent work before the operator's, that before turns that gave way to a queued message, those before other agent work, that before the rest, the oldest first within each; none exactly when the agent is paused or unknown or has nothing pending |
| Store.Store.Claim | src/task_claim.rs:40-77 | the row in turn is claimed under the next generation with one more attempt and nothing else changes; the copy returned is current and counts as issued |
| Promises.FirstIsInTurn | src/task_claim.rs:48-66 | the claim query's first row is in turn by the columns alone |
| Promises.OperatorsGoFirst | src/task_claim.rs:34-39 | operator work that has not given way is kept waiting by overdue agent work and older such work only; a turn that gave way is not claimed before the message it gave way to, unless overdue; agent work goes before automatic |
| Store.Store.RenewClaim | src/task_claim.rs:94-119 | applied exactly under a current token |
| Store.Store.CompleteClaim | src/task_create.rs:82-154 | refused with open children, stale without a current token; else in one transaction the row with its trimmed text, the release to be published, and the parent pending if nothing unfinished is left below it; then, others acting before each refill, roots let in oldest first so that at the last admission the backlog is empty or the limit reached, and one buffered delegation promoted |
| Store.Store.FinishClaim | src/task_claim.rs:128-168 | applied exactly under a current token: the verdict, and on failure the parent pending if nothing unfinished is left below it; the slots refilled as above |
| Store.Store.RetryClaim | src/task_recovery.rs:39-59 | applied exactly under a current token: the row is pending again with the error and its attempt |
| Store.Store.RetryUnstartedClaim | src/task_claim_transitions.rs:58-78 | applied exactly under a current token: the row is pending again with the error and one attempt less: the attempts test never fails |
| Store.Store.DeferUnstartedClaim | src/task_claim_transitions.rs:31-49 | applied exactly under a current token: the row is deferred with one attempt less: the attempts test never fails |
| Store.Store.WaitForChildrenClaim | src/task_recovery.rs:113-129 | applied exactly to a claimed or waiting row under the token |
| Store.Store.PromoteBufferedForAgent | src/task_claim_transitions.rs:5-29 | exactly the oldest buffered delegation of an agent without pending, claimed or deferred work is promoted |
| Store.Store.PromoteBacklogRoots | src/task_policy.rs:67-113 | governed backlogged rows are let in oldest first up to the limit, stopping only there, and no other row changes |
| Store.Store.DemoteExcessRoots | src/task_policy.rs:39-58 | pending roots are demoted newest first, no more than the excess |
| Store.Store.SetMaxActiveTasks | src/task_policy.rs:19-65 | under the new limit and leader, row by row: pending governed work is held back newest first while there is too much, backlogged work let in oldest first while there is room, what is not governed leaves the backlog, and nothing else changes |
| Promises.RebalanceInColumns | src/task_policy.rs:19-65 | what the statements do is that outcome by the columns alone |
| Store.Store.FailOrphanedDelegations | src/task_recovery.rs:14-37 | exactly the pending and buffered delegations to agents off the roster fail, with the reason, and none for an empty roster |
| Store.Store.IdleStaleAgents | src/task_recovery.rs:79-85 | exactly the agents working past the lease are set idle |
| Store.Store.Recover | src/task_recovery.rs:70-111 | row by row: a claim older than the lease is taken away and its token spent, every later claim stays, what was deferred, left in the backlog or done waiting becomes pending, and so does the oldest buffered task of each agent with nothing else to do; agents past the lease are idle; the queue is recovered and the expired claims are counted |
| Promises.SweepRowByRow | src/task_recovery.rs:71-102 | the four statements give each row exactly this outcome |
| Promises.RecoveryRowByRow | src/task_recovery.rs:71-109 | so do statements and promotions together |
| StoreDelegation.ResolveDelegationTarget | src/replica.rs:42-135 | a name that is no template's goes to the agent itself if it is not paused and able; a template's to its able replica that is free, else has the least work, else is named first; errors included |
| StoreDelegation.LatestClaim | src/task_query.rs:49-59 | finds the agent's most recently claimed row |
| StoreDelegation.FreshestCoordination | src/task_query.rs:61-79 | finds the handed-on task with the newest child, then the newest task |
| StoreDelegation.CoordinationAssignment | src/task_query.rs:42-79 | the agent's latest claim, else the handed-on task with the newest child; none only if there is neither |
| StoreDelegation.DelegateCurrent | src/task_delegate.rs:17-197 | every answer is the one of the decision table; a new child is filed for the target under the task the agent acts for, buffered exactly when the target has something pending, claimed or deferred or is not idle, its parent waits with the attempt given back, and nothing else changes |
| Promises.PendingChildIsAlone | src/task_delegate.rs:154-168 | in every run a child filed pending is at that point the only pending, claimed or deferred row of its agent |
| StoreInsertion.InsertTask | src/task_insert.rs:69-152 | a work item for the leader goes to the idlest able member of its pool, into the backlog exactly when no slot is free; any other row is filed pending as asked; otherwise nothing changes |
| StoreInsertion.CreateAutomaticRootOnce | src/task_automatic.rs:28-90 | a root is created exactly when the generator is unused, no root with its topic and body is unfinished or failed too recently, and the id is free; otherwise the newest in the way tells why |
| StoreInsertion.ChooseTarget | src/task_create.rs:20-31 | a named agent must exist and be unpaused; else the leader's pool decides |
| StoreInsertion.CreateFromGenerator | src/task_create.rs:6-72 | which of the refusals, the conversation root or the automatic root a call ends in, and what it files |
| StoreInsertion.MessageTarget | src/coordination.rs:119-156 | a note lands on the sender's parent, else its origin, else the assignee's claimed, waiting or pending task in this order, the newest of a kind |
| StoreInsertion.SendPeerMessage | src/coordination.rs:37-117 | exactly one note on the target, which interrupts a running turn and gives its attempt back, or one queued message row with the given contents when there is no target, or the message queued before |
| AgentStates.SetWorkingForClaim | src/task_queue_state.rs:52-73 | marks the agent working exactly under a current token |
| AgentStates.SetStateAfterClaim | src/task_queue_state.rs:75-99 | changes the agent's row exactly when the generation is current and the agent holds nothing |
| Worker.InterruptedClaimIsGone | src/worker_lease.rs:46-80 | when the lease loop reports a context interruption the token can never be current again |
| Worker.PauseReportMeans | src/task_queue_state.rs:126-146 | a pause reported during a run means that the agent was paused then, or that the token is gone |
| Worker.WorkerContext.TakeBudget | src/worker_runtime.rs:186-192 | takes one unit exactly when there is one |
| Worker.WorkerContext.HandleFailure | src/worker_runtime.rs:11-51 | whatever others do in between, the token is not current afterwards; left alone, a current claim becomes pending below the attempt limit and failed at it, with the agent told, and a stale one changes no row |
| Worker.WorkerContext.FinishResult | src/worker_result.rs:10-119 | whatever others do in between, the token is not current afterwards, and it fails only with a completion refused for open children. Left alone it never fails, and a current claim is completed exactly when the run finished and the job is a message, or a generator whose root exists, or the output is complete, with the trimmed text unless its root exists; else retried below the attempt limit and failed at it with the error; the agent is told; a stale claim changes no row |
| Worker.WorkerContext.AcceptCommitted | src/worker_runtime.rs:57-101 | left alone, accepts exactly a task completed under this generation and changes no row; accepts no current claim in any case |
| Worker.WorkerContext.AcceptDelegatedFailure | src/worker_runtime.rs:103-145 | left alone, accepts exactly a crashed run whose row has open children, or is pending and has children, and changes no row; accepts no current claim in any case |
| Worker.WorkerContext.AfterRun | src/worker.rs:110-186 | whatever others do in between, the claim is given up unless the agent was away, by transactions within the discipline the tree theorems ask of workers and the retry policy; left alone, a current claim ends as `FinishResult` says, unless the agent is paused |
| Worker.WorkerContext.Process | src/worker.rs:37-187 | with others acting between any two statements and during the run: no claim is leaked unless the agent was paused or removed meanwhile; the worker completes the task only with the output of a finished run, and real work only when that output says it is complete; it retries only below the attempt limit and fails only at it; and its transactions are disciplined. Left alone but for the run: the claim is deferred and refunded without budget or configuration, and else ends in exactly the row prescribed |
| Worker.WorkerContext.Turn | src/worker.rs:15-35 | whatever others do meanwhile, the task claimed is the first claimable one, it is given up again unless the agent was paused or removed since, and nothing is made of it but what the result allows |
| Outbox.RunsKeepOutboxSound | src/release.rs:34-117 | in every run, with any number of processes and a failure or crash between any two steps, pending and published hashes are those of the stored results, a published task has its release row, and there is one release row per content |
| Outbox.DoublingOverAStep | src/release_finalization_store.rs:22-31 | after a step a task is both pending and published if and only if the step is a backfill inserting it although it is published, or it was so before and the step does not acknowledge it |
| Outbox.OutboxIsConservedExactlyWhen | src/release_finalization_store.rs:7-35 | over every run no task is ever both pending and published if and only if no backfill makes such an insertion |
| Outbox.DoubledExactlyWhen | src/release_finalization_store.rs:101-123 | over every run a task is both pending and published exactly from such an insertion to its next acknowledgement |
| Outbox.OutboxIsConserved | src/release.rs:34-117 | in particular none ever is when one process at a time backfills and publishes, the backfill first |
| Outbox.TwoBootstrapsDouble | src/release_finalization_store.rs:7-35 | eleven steps of two bootstraps at once leave a published task pending |
| Outbox.CompletionIsRecordedIffPublishing | src/task_create.rs:116-138 | a completion is recorded for release in its own transaction if and only if the process has publication enabled |
| Outbox.CoverageIsKeptExactlyWhen | src/task_create.rs:116-138 | a step leaves every release remembered if and only if it is no completion by a process that does not publish and ends no backfill that alone still knows of a task |
| Outbox.NoReleaseIsForgotten | src/release_finalization_store.rs:7-35 | from a backfill's selection to the next one, whenever no backfill is under way, every completed root with something to release is in exactly one of the two tables if and only if no step since has lost one and every doubled one has been acknowledged |
| Outbox.StaysForgotten | src/release_finalization_store.rs:7-35 | a release that was lost stays so until the next backfill |
| Outbox.ToolCompletionIsForgotten | src/store.rs:21-35 | a root completed in a process without publication, like the tool servers, is in neither table |
| Outbox.PublishedFilesExist | src/release.rs:70-117 | every published task's file has the published content, whatever the directory held at first |
| Outbox.AcknowledgementFollowsTheFileCheck | src/release.rs:102-116 | a publication is acknowledged only after its file was seen to match and while its row matches |
| Outbox.OutboxRunsAreQueueRuns | src/release_finalization_store.rs:82-123 | the outbox machine refines the queue, so the queue's theorems hold of it |
| Outbox.RetryDelayDoubles | src/release.rs:48-48 | the wait doubles from 100 ms up to 25.6 s |
| Release.BackfillReleaseFinalizations | src/release_finalization_store.rs:7-35 | whatever others do before each insertion, in the end every task that awaited its release at the selection is pending or published; left alone, exactly these get a row with the hash of their result |
| Release.DueReleaseFinalizations | src/release_finalization_store.rs:37-52 | up to the batch limit of the rows whose time has come, with hash, attempts and result, distinct and longest due first, none left out that precedes one listed |
| Release.AcknowledgeRelease | src/release_finalization_store.rs:101-123 | inserts the published row unless there is one and deletes the pending row of that hash |
| Release.RecordFailure | src/release_finalization_store.rs:82-99 | counts one more attempt and sets the next one |
| Release.ReleaseWriter.Write | src/release.rs:70-117 | the lines that succeed are the machine's steps; no check fails on its own account |
| Release.ReleaseWriter.ReconcileOne | src/release.rs:34-68 | the task moves from pending to published with file and row in place, or stays pending with one more attempt and the doubled wait, and no other task moves |
| Release.ReleaseWriter.Reconcile | src/release.rs:20-32 | all due rows, or the sixteen longest due, are worked off: each whose I/O comes through ends published under its hash and no longer pending, the others are put off by the doubled wait, every other row keeps its entry, and the count returned is exact |
| Release.RecordedIsPublished | src/release.rs:20-68 | a completion recorded at some time is published, left alone, by the next pass from then on for which its I/O comes through and no more than sixteen rows are due |
| TurnScan.LinesKeepEveryByte | src/turn_signal.rs:180-189 | every byte of the file is in exactly one line or in the tail, and neither holds a newline |
| TurnScan.LinesOfParts | src/turn_signal.rs:180-189 | cutting a file after a newline cuts its lines there |
| TurnScan.TurnScan.Absorb | src/turn_signal.rs:205-253 | one line changes the findings as specified, and exactly a session error reports its error |
| TurnScan.TurnScan.Advance | src/turn_signal.rs:169-194 | absorbs a growing prefix of whole lines, each once, even across session errors; without one the findings are those of the one-shot scan, and the error reported is the first of the turn |
| TurnScan.TurnSignal.WaitFor | src/turn_signal.rs:86-113 | returns at the first wake at which the turn so far has a session error, or a stop, or with a marker an allowed stop after it; with the first error or the findings of the one-shot scan; and keeps the running shells of a finished turn |
| TurnScan.OutputIsWhatWasSaid | src/turn_signal.rs:212-237 | the findings hold every message but ready signals, and every tool started, in order |
| TurnScan.MarkerIsSeenExactlyWhen | src/turn_signal.rs:212-219 | the marker is seen exactly when some message contains it |
| TurnScan.LastStopDecides | src/turn_signal.rs:276-297 | the last stop of the turn decides: taken back by a subagent's, blocked with its reason or a reminder, allowed exactly when no shell is running then |
| TurnScan.WithoutStopNothingIsDecided | src/turn_signal.rs:238-243 | without a stop in the lines the one before them stands |
| TurnScan.LatestStartIsKnown | src/turn_signal.rs:220-236 | a call is known by the tool and shell of its latest start |
| TurnScan.ToolNameIsTheLastPart | src/turn_signal.rs:300-302 | a tool's name is what follows its last dot or slash |
| TurnScan.ShellRunsExactlyWhen | src/turn_signal.rs:255-274 | a shell is running exactly when a command left it running, or it was at the start, and since then it was neither stopped nor read to its end |
| TurnScan.WakeThrough | src/turn_signal.rs:169-194 | for any schedule of appends and scans, also past session errors, a scan without one agrees with the one-shot scan of the file |
| SessionPrompt.BuildSections | src/prompt.rs:99-135 | the composed sections have distinct keys |
| SessionPrompt.DeltaTeachesTheSame | src/persistent_runner.rs:219-230 | after the changed sections alone the session knows what it would know after all of them |
| SessionPrompt.EverySectionIsTold | src/persistent_runner.rs:219-230 | with distinct keys the text last told under each key is the current one |
| SessionPrompt.Runner.PromptForSession | src/persistent_runner.rs:191-238 | sent are exactly the sections whose text is not the one delivered last, the body unless the live session holds it word for word, and the history exactly for a fresh session; the session ends up informed as by the full prompt |
| SessionPrompt.DeltaSendsTheChanged | src/persistent_runner.rs:219-230 | the delta holds exactly the sections whose text is not the one known under their key |
| SessionPrompt.Runner.Execute | src/persistent_runner.rs:111-188 | a try is repeated exactly when it broke in a way that needs a fresh session, at most three times; how it ends is how the last try went; a turn that reached its session leaves it informed, a failure leaves no entry |
| WorkMap.ResolveRoot | ui/src/lib/work-map.ts:145-157 | terminates with the outcome of the walk along parent links |
| WorkMap.ResolutionIsExact | ui/src/lib/work-map.ts:145-157 | for every child, root set and table: the answer is the first root on the chain, and a cycle exactly when the chain never ends nor meets a root, if and only if a walk that comes back to the child's own id goes round forever |
| WorkMap.WrongExactlyWhenAnotherRowEscapes | ui/src/lib/work-map.ts:36-39 | a child is resolved wrongly exactly when the walk comes back to its id and the row last listed under that id is not itself resolved as a cycle; that row has another parent |
| WorkMap.SameParentIsExact | ui/src/lib/work-map.ts:36-39 | a child whose id is last listed with the same parent is resolved exactly |
| WorkMap.DistinctChildrenAreListed | ui/src/lib/work-map.ts:36-36 | with distinct child ids the table holds each child under its own id |
| WorkMap.DistinctChildrenAreExact | ui/src/lib/work-map.ts:36-39 | with distinct child ids every child is resolved exactly |
| WorkMap.DuplicateIdHidesARoot | ui/src/lib/work-map.ts:36-36 | with a repeated child id a reachable root can be reported as a cycle |
| WorkMap.ShownCount | ui/src/lib/work-map.ts:48-56 | each occurrence of a child that resolves to a root id is shown once per root that bears the id |
| WorkMap.AppearsOnceExactlyWhen | ui/src/lib/work-map.ts:38-61 | every child is shown exactly once if and only if none resolves to an id that two roots share |
| WorkMap.EveryChildAppearsOnce | ui/src/lib/work-map.ts:38-61 | in particular when the root ids are distinct |
| WorkMap.SharedRootIdShowsTwice | ui/src/lib/work-map.ts:48-56 | two roots with one id both show the child that resolves to it |
| WorkMap.AssembleWorkMap | ui/src/lib/work-map.ts:33-62 | each root shows exactly the children that resolve to it and the rest are orphans with their reason, both the more urgent first, then the one updated last, then by id; every child is in the map exactly once if and only if none resolves to an id two roots share |
| WorkMap.SortedIsAPermutationInOrder | ui/src/lib/work-map.ts:159-168 | sorting loses nothing and puts every pair in order of urgency, then latest update, then id |
| ControlEscape.LexerStateIsKept | src/protocol.rs:66-98 | the lexer ends in the same state on output and input |
| ControlEscape.OutputIsClean | src/protocol.rs:66-98 | no raw newline, return or tab remains inside a string |
| ControlEscape.CleanByPosition | src/protocol.rs:66-98 | in clean text such a character inside a string stands right after an escaping backslash |
| ControlEscape.CleanIffUnchanged | src/protocol.rs:66-98 | a text is left as it is if and only if it is clean |
| ControlEscape.RepairIsIdempotent | src/protocol.rs:66-98 | repairing twice is repairing once |
| ControlEscape.MeaningIsKept | src/protocol.rs:66-98 | the repaired text is what a tolerant reader makes of the original |
| ControlEscape.LexerCounts | src/protocol.rs:66-98 | a position is inside a string exactly after an odd number of quotes with an even run of backslashes before each, and escaped exactly after an odd run of backslashes |
| ControlEscape.RepairIsByPosition | src/protocol.rs:66-98 | the repair replaces exactly the newlines, returns and tabs at unescaped positions inside strings |
| ControlEscape.EscapeStringControls | src/protocol.rs:66-98 | the loop computes that repair |

## Left out

- SQLite, sqlx, WAL, migrations: a transaction is one atomic step. A read that precedes its transaction (the
  parent of a delegation, the recipient of a message, the counts of an insertion) is one step with it.
- Identifiers and agent names are numbers, compared for equality and order only; blake3 is a free constructor.
- Timestamps are integers, and a new row is created later than every row before it.
- Text: `str::trim` strips ASCII whitespace only, and collation of ids is the order of their numbers.
- StoreInsertion.InsertTask: does not take a parent or the kind 'delegation', which `insert_task` would accept
  but no caller passes; delegations are filed by `DelegateCurrent`.
- `finish_claim` is modelled for the two statuses it is called with, 'completed' and 'failed'.
- Operators and the UI: pausing and the release of claims by a context reset are `OperatorHold`, cancelling is
  `CancelTree`. Retrying a failed task, deleting a finished tree, and the rest of a context reset, which deletes
  the agent's finished rows and takes the parent off their children (ui/src/server/context-reset.ts:28-48), are
  not modelled; theorems about what stays forever hold between such deletions.
- Store.Store.Recover: does not model the other bootstrap calls; capacity rebalancing after it may demote a root again.
- Worker.WorkerContext.Process: does not model turn records, runtime events, or errors of the database itself; a
  completion refused for open children is modelled, and fails the turn.
- Worker.WorkerContext.AcceptCommitted: does not model the turn record and the publication it starts; the
  publication's steps are `ReleaseWriter.ReconcileOne`.
- Release.ReleaseWriter.Reconcile: does not model what others do between its lines; the machine in `Outbox` does.
- `schedule_release_finalizations_now` only brings retry times forward and is not modelled.
- TurnScan.TurnScan.Advance: does not model I/O errors and truncated files; decoding a line is an abstract function.
- The message of a stop blocked by running shells lists them in hash order; the model keeps the set.
- SessionPrompt.Runner.Execute: assumes that a job which ends well or is cleanly cancelled had reached its session.
- Prompt wording other than the resume and history lines, and the text of the composed body.
- WorkMap.AssembleWorkMap: does not model progress and health of a root; times and ids are compared as numbers.
- `promote_buffered_automatic_roots`, counters and topic lists of the producer, registration of agents and
  profiles (the tables may change arbitrarily by `AgentsChange` and `RosterChange`), snapshots for prompts.
- ACP client, process launch, watchers, MCP plumbing, CLI, configuration, telemetry, dashboards.
