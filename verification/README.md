# A verified model of the friday agent runtime

friday runs agents durably: almost every use case is one guarded transaction over shared rows, executed by
several workers whose leases can expire at any moment.  This project models those transactions in Dafny and
proves what every interleaving of them keeps.

One transaction is one function from a database to a commit or an abort.  A step of the system is one such
transaction by any worker or API call, one move of a tool action in flight, or a crash; a run of the system is a
sequence of steps, and the main theorems hold for all runs.  The code that changes rows one after another is
also written as it runs, as classes whose methods are proved equal to those functions (`DeliveryStore`,
`RuntimeStore`, `EventLog`, `ScheduleFiring`), and the algorithmic parts as methods with loops.  What those functions
decide and write is stated over the rows before and after (`DeliveryRows`, `DelegationRows`, `ToolAnswers`), and the
status a row ends with over the steps that led to it (`StatusIsHistory`, `OutcomeIsHistory`, `GrantIsHistory`).

* `RetryPolicy`, `Delivery*`: outbound deliveries, their leases, generations, dispatch boundary and attempt ledger, and
  the migration that introduced the ledger.
* `Runtime*`, `CalmSteps`, `AttemptHistory`, `DelegationForest`, `AgentMoves`, `AgentIdentity`, `FrozenAgents`,
  `IdentityDrift`, `WorkerLeases`, `RunOutcomes`, `DelegationRows`, `ToolExecution`, `ToolAnswers`, `ToolEffects`, `ToolReplay`,
  `ApprovalHistory`, `ScheduleFiring`: one state machine of tasks, runs, work items, approvals, steps, invocations,
  delegations and frozen agents, the external effects of tools, and schedules on top of it.
* `AuthorityClosure`, `ResultScrubbing`, `ParentProjection`: what a parent may see of a delegated result.
* `ContextBuilder`, `ConversationSection`, `ConversationWindow`, `CandidateComparison`, `EventLog`, `Pagination`,
  `CursorCodec`, `ServerCursors`.

Modelling choices.  Every step carries its own reading of the clock, and no theorem about runs, deliveries or
effects needs the readings to be ordered, except that leases end after they begin, that a lapsed claim is compared
at two ordered readings, and that the scheduler's clock does not go back.  Identifiers are numbers, times and scores
are reals (times are integer microseconds where a cursor carries them).  Fingerprints are injective.  The recurrence
rule, the labelled-text pattern, the sensitive-key test, JSON, the text forms of times and ids, and the rendering of the
core document and of memories are function parameters.  Repository calls follow the contracts in
`src/friday/application/ports.py` and their implementations; "latest" is latest by (created_at, id), as they order
attempts.

Three promises do not hold of the code as it stands, and the model keeps the code:

* Cancelling a task does not settle the delegation its run works for, delete its work item or withdraw its pending
  approval.  The wake-up and deadlock theorems hold in every run and name the delegations cut off in this way;
  `AttemptHistory.WorkedIffNotCut` says that exactly those lack their worker, `RuntimeEdges.StrandingIsReachable`
  gives a run with one, and `RuntimeEdges.StrandedForever` what follows.  `RuntimeSafety.LifecycleClosure` confines
  leftover rows to the same executions, `RuntimeTasks.CancelTaskTidyIff` says when there are none, and
  `RuntimeEdges.OrphanIsReachable` gives a run with a leftover approval.
* Two attempts of an execution created at the same instant are ordered by their random ids, so the "latest" attempt
  need not be the last one.  `RuntimeEdges.WrongOutcomeIsReachable` and `IdentityDrift.DriftIsReachable` are runs in
  which a delegation settles with the wrong outcome and an execution changes its frozen agent.
  `RuntimeEdges.SettlesWithOutcomeIff` gives the exact condition for the first.  For the second it is that an
  unresolved attempt is retried although another one of its execution is resolved (`FrozenAgents.StaysFrozenIff`).
  Theorems that speak of later attempts assume that a retry is newer than the attempts it follows
  (`AgentIdentity.Ordered`).
* RequestToolInvocation may link a second invocation to an approval a protected call was made under, and a repeated
  proposal may then report the second one's outcome.  The call itself still happens once.
  `ToolReplay.RivalReplayIsReachable` is such a run, and `ToolReplay.ReplaysOwnCallIff` gives the exact condition.

## Model

| member | source | states |
|---|---|---|
| RetryPolicy.DelaysGrowWithinBounds | src/friday/application/retry_policy.py:28-47 | for every valid policy the delay never shrinks from one attempt to a later one and lies between base and maximum delay from the second attempt on |
| RetryPolicy.FirstAttemptDelay | src/friday/application/retry_policy.py:38-47 | asked for the delay before attempt one, which no caller does, the policy keeps the base delay as lower bound iff the multiplier is one |
| RetryPolicy.DelaysMultiply | src/friday/application/retry_policy.py:38-47 | the delay before attempt two is the base delay, and each further one is the multiplier times the last, up to the maximum |
| DeliveryProtocol.AtMostOneSend | src/friday/application/delivery_lifecycle.py:222-251 | over every interleaving of workers, crashes and lease expiries at most one message leaves per delivery, and only after its durable boundary |
| DeliveryProtocol.BoundaryCrossedOnce | src/friday/application/delivery_lifecycle.py:222-251 | the number of successful BeginDeliveryAttempt calls is the change of the boundary marker, hence at most one |
| DeliveryProtocol.BudgetKept | src/friday/application/delivery_lifecycle.py:222-251 | messages sent plus messages still permitted never exceed the one the boundary allows |
| DeliveryProtocol.NeverQueuedAgain | src/friday/application/delivery_lifecycle.py:94-127 | once the boundary is crossed the delivery is never QUEUED again |
| DeliveryProtocol.RowsOnlyAdvance | src/friday/application/delivery_lifecycle.py:305-343 | terminal rows never change, the boundary time never moves and generations and attempt counts only grow |
| DeliveryProtocol.LedgerAlwaysAgrees | src/friday/application/delivery_lifecycle.py:232-247 | in every reachable state a delivery has crossed the boundary iff it has its one attempt row, started at the boundary, IN_PROGRESS iff SENDING and otherwise with the outcome of the same name |
| DeliveryProtocol.LeasesAlwaysWellFormed | src/friday/application/delivery_lifecycle.py:159-182 | in every reachable state a SENDING row holds a complete lease that ends after its boundary, a QUEUED row has attempts left and no boundary, and no row exceeds the attempt limit |
| DeliveryProtocol.RecoveryNeverFails | src/friday/application/delivery_lifecycle.py:94-127 | neither error recovery can raise is reachable |
| DeliveryProtocol.RecoveryRefusesExactly | src/friday/application/delivery_lifecycle.py:94-127 | from any agreeing ledger recovery never finds it inconsistent and refuses exactly the expired rows whose boundary lies in the future of the clock |
| DeliveryProtocol.StaleWorkerWritesNothing | src/friday/application/delivery_lifecycle.py:305-343 | a worker whose claim is not active changes neither the delivery nor the ledger |
| DeliveryProtocol.FencedForever | src/friday/application/delivery_lifecycle.py:159-182 | a claim that has expired or been superseded is never active again, whatever happens later |
| DeliveryProtocol.ClaimsAreCounted | src/friday/application/ports.py:734-749 | the attempt count of a row is the number of claims that succeeded on it |
| DeliveryProtocol.ClaimsBounded | src/friday/application/delivery_lifecycle.py:114-127 | a delivery is claimed at most max_attempts times in its whole life |
| DeliveryProtocol.RequeueDelayIs | src/friday/application/delivery_lifecycle.py:114-127 | a requeue makes the delivery available exactly the policy's delay after the recovery |
| DeliveryProtocol.BackoffNeverShrinks | src/friday/application/delivery_lifecycle.py:114-127 | successive requeue delays of one delivery are non-decreasing and lie between base and maximum delay |
| DeliveryStore.Select | src/friday/application/ports.py:726-733 | the candidate query returns the first rows by (time, id), in order |
| DeliveryStore.SelectionIsUnique | src/friday/application/ports.py:726-733 | rows and limit determine the selection: two selections of the same rows with the same limit are equal |
| DeliveryStore.RecoverAllIsARun | src/friday/application/delivery_lifecycle.py:86-92 | a recovery batch is a run of single recoveries, so every trace theorem covers it |
| DeliveryStore.RecoverAllCommits | src/friday/application/delivery_lifecycle.py:86-92 | under the ledger and lease invariants a whole batch commits |
| DeliveryStore.Store.RecoverRow | src/friday/application/delivery_lifecycle.py:94-127 | one expired row ends AMBIGUOUS iff its boundary was crossed, QUEUED with the policy's delay iff not and attempts are left, FAILED iff neither; its open ledger row is closed as ambiguous with the same code |
| DeliveryStore.Store.RecoverExpired | src/friday/application/delivery_lifecycle.py:86-92 | the loop over expired rows is the batch recovery of the selected ids; if one row cannot be recovered the tables are as they were |
| DeliveryStore.Store.ClaimFirstDue | src/friday/application/delivery_lifecycle.py:159-182 | the loop claims the first due candidate, and none only if no candidate is due |
| DeliveryStore.Store.ClaimNext | src/friday/application/delivery_lifecycle.py:159-182 | recovery and claim in one transaction, equal to the batch followed by one claim |
| DeliveryStore.Store.BeginForClaim | src/friday/application/ports.py:851-870 | the ledger row is inserted iff the claim is active, the boundary equals the given start and the key is new; with an inactive claim nothing is written, and no other row changes |
| DeliveryStore.Store.BeginDeliveryAttempt | src/friday/application/delivery_lifecycle.py:222-251 | crossing the boundary writes the marker and the attempt row, or nothing; with an agreeing ledger it succeeds iff the claim is active and the boundary not crossed |
| DeliveryStore.Store.PersistOutcome | src/friday/application/delivery_lifecycle.py:272-343 | the delivery becomes DELIVERED exactly for deliver, FAILED exactly for fail, AMBIGUOUS exactly for the two ambiguous reports, with the given code, and a dispatched attempt row takes the outcome of that name; with an agreeing ledger it commits iff the claim is active, the texts are valid, a boundary was crossed where one is required, and a report on a crossed boundary is not earlier than it and carries a stable code |
| DeliveryRows.PersistReports | src/friday/application/delivery_lifecycle.py:305-343 | a report that commits leaves status, code and attempt outcome under the name the worker gave, and every other row as it was |
| DeliveryRows.PersistCommitsIff | src/friday/application/delivery_lifecycle.py:305-343 | exactly which reports commit, in terms of claim, texts and boundary |
| DeliveryRows.RecoverySends | src/friday/application/delivery_lifecycle.py:94-127 | where recovery sends an expired lease, column by column; a lease that has not expired is left alone |
| DeliveryRows.BeginCommitsIff | src/friday/application/delivery_lifecycle.py:222-251 | exactly who crosses the boundary, and both rows written |
| DeliveryRows.StatusIsHistory | src/friday/application/delivery_lifecycle.py:254-343 | over every interleaving a delivery stands DELIVERED, FAILED or AMBIGUOUS iff some step was an effective report of that name, or an expiry that boundary and budget send there |
| DeliveryStore.BatchThenClaim | src/friday/application/delivery_lifecycle.py:159-182 | recovery followed by a claim is a run of the protocol |
| DeliveryMigration.FindOffending | migrations/versions/0014_delivery_attempts.py:77-91 | a guard reports an offending row iff there is one |
| DeliveryMigration.Backfill | migrations/versions/0014_delivery_attempts.py:94-145 | the backfill writes one attempt per dispatched delivery and nothing else |
| DeliveryMigration.GuardsLeaveATruth | migrations/versions/0014_delivery_attempts.py:52-91 | a row no guard rejects has a truthful ledger entry |
| DeliveryMigration.MatchLeavesNoTruth | migrations/versions/0014_delivery_attempts.py:52-91 | a row a guard rejects has none |
| DeliveryMigration.TruthIsUnique | migrations/versions/0014_delivery_attempts.py:94-145 | at most one ledger agrees with a set of deliveries |
| DeliveryMigration.Upgrade | migrations/versions/0014_delivery_attempts.py:148-189 | the upgrade is accepted iff an agreeing ledger exists, and then writes that one |
| RuntimeProtocol.RunKeeps | src/friday/application/run_lifecycle.py:43-252 | every run of the system keeps the core invariants of all tables and, outside the executions cancelled with their task, an open attempt behind every DISPATCHED delegation and no leftover work item or pending approval |
| RuntimeProtocol.FreshHolds | migrations/versions/0035_workflow_execution_and_scheduler.py:76-96 | the invariants hold of a database without runs |
| RuntimeSafety.LifecycleClosure | src/friday/application/run_lifecycle.py:167-252 | in every state of every run: a work item exists iff the run is QUEUED or RUNNING, a run waits for approval iff it has a pending approval and that one is its marker, and an ended run has no open step or invocation; a work item or approval left over belongs to a cancelled run of an execution whose task an earlier step cancelled |
| RuntimeSafety.RunningWaitsForNothing | src/friday/application/run_lifecycle.py:167-199 | a RUNNING run has a work item, no pending approval and no dispatched delegation, so CompleteRun's delegation conflict cannot arise |
| RuntimeSafety.EndedForever | src/friday/application/run_lifecycle.py:217-252 | an ended run keeps its status for ever; a cancelled parent is never revived |
| RuntimeSafety.EndedStepHasNoOpenTool | src/friday/application/run_step_lifecycle.py:136-202 | failing or cancelling a step ends its invocations and touches nothing else |
| RuntimeSafety.StartThenClaim | src/friday/application/start_run.py:44-73 | a started run is claimable at once by any worker, under generation 1 |
| WorkerLeases.ClaimsIff | src/friday/application/worker_coordination.py:59-114 | a claim succeeds iff the item is due and no lease on it still runs; a live run then runs under the next generation, the item of any other is deleted |
| WorkerLeases.HolderMoves | src/friday/application/worker_coordination.py:117-176 | renewing and giving back succeed iff the claim is active; the first moves the end of the lease, the second frees the item from the given time on |
| WorkerLeases.RecoveryClears | src/friday/application/worker_maintenance.py:166-187 | recovery clears exactly the expired leases, and deletes the item of a run that cannot proceed |
| WorkerLeases.HeldSinceIssued | src/friday/application/worker_coordination.py:59-114 | in every run whoever holds a run got it from a claim step that found it free and has held it without a break since |
| WorkerLeases.LostIsLostForGood | src/friday/application/worker_coordination.py:59-114 | with tokens never reused, a worker that has lost its run never has an active claim on it again, in any continuation |
| RuntimeSafety.ParkThenResolve | src/friday/application/approval_workflow.py:104-296 | parking a run on an approval and resolving it gives back every table as it was, up to the approval itself, the marker of the parked step and a new unleased work item |
| RuntimeTasks.CancelTaskKeepsCore | src/friday/application/task_lifecycle.py:51-108 | cancelling a task keeps the core invariants |
| RuntimeTasks.CancelTaskTidyIff | src/friday/application/task_lifecycle.py:51-108 | it leaves no work item and no pending approval behind iff every open run of the task waits for a delegation |
| RuntimeTasks.QueueCleanIff | src/friday/application/task_lifecycle.py:51-108 | no work item is left behind iff no open run of the task is QUEUED or RUNNING |
| RuntimeTasks.ApprovalsCleanIff | src/friday/application/task_lifecycle.py:51-108 | no pending approval is left behind iff no open run of the task waits for one |
| RuntimeTasks.StaffedIff | src/friday/application/task_lifecycle.py:51-108 | no DISPATCHED delegation loses its worker iff no open run of the task works for one |
| RuntimeEvolution.RunEvolves | src/friday/application/ports.py:363-381 | between any two moments of a run: ended attempts keep their status, delegations move once from DISPATCHED to settled, resolved approvals keep their verdict, consumed ones never change, ended invocations stay ended |
| RuntimeStore.Runtime.CreateOrderedStep | src/friday/application/run_step_lifecycle.py:24-56 | the step gets the position one past the run's largest |
| RuntimeStore.Runtime.EndStep | src/friday/application/run_step_lifecycle.py:117-202 | complete, fail, skip or cancel a step, with the cascade to its invocations |
| RuntimeStore.Runtime.CancelTools | src/friday/application/lifecycle_events.py:71-86 | the loop cancels exactly the open invocations it is given |
| RuntimeStore.Runtime.CancelOpenChildren | src/friday/application/run_lifecycle.py:43-63 | the nested loops cancel exactly the run's open steps, their invocations and the run's own |
| RuntimeStore.Runtime.WithdrawApprovals | src/friday/application/run_lifecycle.py:75-90 | the loop withdraws exactly the run's pending approvals |
| RuntimeStore.Runtime.LatestAttempt | src/friday/infrastructure/persistence/repositories.py:1731-1776 | the attempt found is the latest of the execution by (created_at, id) |
| RuntimeStore.Runtime.FindIncoming | src/friday/application/ports.py:363-380 | the delegation found is the one dispatched to the execution |
| RuntimeStore.Runtime.Reconcile | src/friday/application/delegation_reconciliation.py:15-113 | a dispatched delegation whose latest child attempt has ended becomes SUCCEEDED, FAILED or CANCELLED exactly as that attempt did, and its parent, if it still waits for it, runs and is queued; otherwise nothing changes |
| DelegationRows.ReconcileBears | src/friday/application/delegation_reconciliation.py:24-113 | the same of the transaction function, by name and over the rows before and after |
| DelegationRows.DispatchDecides | src/friday/application/delegation.py:164-271 | a dispatch commits iff the claim is live, the parent RUNNING, the target active, the ids free, the run has fewer than max_per_run requests with a child and, when nested, the depth is below the maximum, the root exists and its tree has fewer than max_per_tree; which error a refusal reports; and every row a commit writes |
| RuntimeStore.Runtime.CompleteRun | src/friday/application/run_lifecycle.py:167-199 | success of a run without open children, with reconciliation |
| RuntimeStore.Runtime.FailRun | src/friday/application/run_lifecycle.py:202-224 | failure with the cascade and reconciliation |
| RuntimeStore.Runtime.CancelAttempt | src/friday/application/run_lifecycle.py:91-110 | cancellation of one attempt with everything that hangs on it, with reconciliation |
| RuntimeStore.Runtime.CancelRun | src/friday/application/run_lifecycle.py:227-252 | cancel a run, or the latest attempt of an ended one |
| RuntimeStore.Runtime.RetryFailedRun | src/friday/application/run_lifecycle.py:274-319 | manual retry: only the task's latest, failed, non-delegated run, with its frozen agent inherited |
| RunOutcomes.RetriesIff | src/friday/application/run_lifecycle.py:274-319 | a manual retry commits iff the run failed, is its task's latest with nothing open, is not delegated and the task is active; the retry is queued at once with the frozen agent |
| RunOutcomes.FailureRetriesIff | src/friday/application/worker_coordination.py:246-284 | a failed k-th attempt is retried iff the failure is retryable and k is below the limit, available after the policy's delay for attempt k + 1 |
| RunOutcomes.OutcomeIsHistory | src/friday/application/run_lifecycle.py:167-252 | in every run an attempt stands SUCCEEDED, FAILED or CANCELLED iff some step completed, failed or cancelled it while the rows allowed that |
| RunOutcomes.FailureTakesDown | src/friday/application/run_lifecycle.py:43-63 | failing a run cancels exactly its open steps and invocations and leaves its approvals |
| RunOutcomes.CancelTakesDown | src/friday/application/run_lifecycle.py:75-110 | cancelling an open run also withdraws exactly its pending approvals |
| RunOutcomes.TaskTakesDown | src/friday/application/task_lifecycle.py:73-108 | cancelling a task cancels the open steps and invocations of its open runs and leaves their approvals |
| RuntimeStore.Runtime.CancelTask | src/friday/application/task_lifecycle.py:73-108 | the loop over the task's open runs equals cancelling them all at once |
| RuntimeStore.Runtime.DispatchDelegation | src/friday/application/delegation.py:151-271 | the same of the method: it succeeds exactly then, and leaves the queued child with task, binding and work item, the request one level below the parent's own, and the parent asleep on it; otherwise an error and no change |
| RuntimeStore.Runtime.AuthorizeTool | src/friday/application/claim_aware_tool_execution.py:140-212 | over the rows: approval is required iff the action is protected, no consumed approval of it has a linked invocation and no unconsumed one carries its exact fingerprint; it proceeds iff no replay applies, a grant exists where one is needed and the id is free; a replay is the stored outcome of the linked invocation or ambiguity |
| ToolAnswers.ProposalAnswers | src/friday/application/claim_aware_tool_execution.py:140-178 | the same of the transaction function, whichever rows the scans meet first |
| ToolAnswers.ApprovalUnblocks | src/friday/application/agent_run_processor.py:530-560 | an action that needs approval: parking on its fingerprint, approving and claiming again all commit, and the same proposal then proceeds under exactly that approval |
| ToolAnswers.ApprovedActionIsCarriedOut | src/friday/application/agent_run_processor.py:485-560 | in every run, from an answer that approval is required, six steps (park, approve, claim, propose, check, call) make the call once and under that approval |
| ApprovalHistory.GrantIsHistory | src/friday/application/approval_workflow.py:299-311 | in every run an approval stands APPROVED iff some step approved it while it was pending |
| ApprovalHistory.EffectsWereApproved | src/friday/application/claim_aware_tool_execution.py:164-172 | when the gateway has received a protected call, some step has approved a pending approval of the same run with exactly its fingerprint |
| RuntimeStore.Runtime.ResolveAgent | src/friday/application/agent_registry.py:231-376 | a claimed run gets its agent iff the frozen one, or else the bound and available one, is the target of every request it works for, or it is unbound and works for none; what was frozen stands, otherwise the bound agent is frozen at its active revision |
| DelegationRows.ResolvesIff | src/friday/application/agent_registry.py:231-376 | the same of the transaction function |
| RuntimeService.ServeQueue | src/friday/application/worker_coordination.py:42-176 | serving a queue request is exactly one step of the protocol and keeps the core invariants; an error changes nothing |
| RuntimeService.ServeWait | src/friday/application/approval_workflow.py:104-296 | the same for approvals and delegations |
| RuntimeService.Execute | src/friday/application/claim_aware_tool_execution.py:119-274 | executing an action is a run of the protocol: authorize, check the claim, call, store; what the caller is told is justified by the rows, and the gateway is called iff the proposal proceeded and the claim still held |
| RuntimeSafety.NoLostWakeup | src/friday/application/delegation_reconciliation.py:24-97 | in every state of every run, a run that waits for a delegation waits for a DISPATCHED one of its own on which exactly one open attempt is working, unless an earlier step cancelled the task of an open attempt of its child |
| RuntimeSafety.CutMeans | src/friday/application/task_lifecycle.py:51-108 | an execution is cut off only by a committed CancelTask of a task with an open attempt of it |
| AttemptHistory.WorkedIffNotCut | src/friday/application/delegation_reconciliation.py:24-97 | in every state of every run a DISPATCHED delegation has its one worker iff no earlier step cancelled the task of an open attempt of its child |
| AttemptHistory.RetriedAttemptsFailed | src/friday/application/delegation_reconciliation.py:30-41 | in every state of every run the attempts of a delegated execution before its open one all failed |
| AttemptHistory.NextArrivals | src/friday/application/run_lifecycle.py:274-319 | every step accounts for each new run: the first of an execution, a manual retry of an undelegated one, or the follower of an attempt that fails in that step |
| AttemptHistory.ClosedForGood | src/friday/application/run_lifecycle.py:292-305 | no step but a manual retry reopens an execution, and no step at all a delegated one |
| RuntimeSafety.WokenAtMostOnce | src/friday/application/delegation_reconciliation.py:68-97 | a parent stops waiting for a given delegation at most once in a run |
| RuntimeSafety.SettledForever | src/friday/application/delegation_reconciliation.py:68-75 | a settled delegation keeps its outcome for ever |
| DelegationForest.NoDeadlock | src/friday/application/delegation.py:238-271 | in every state of every run, following the waits of any open run reaches, within the maximum depth, a run with a work item or a pending approval, or one whose delegated child was cancelled with its task |
| DelegationForest.BoundedForest | src/friday/application/delegation.py:172-204 | in every state of every run: depths between one and the maximum, nested requests continue the tree above them, at most max_per_run materialized requests per run and max_per_tree per tree |
| DelegationForest.ClimbsToRoot | src/friday/application/delegation.py:172-180 | from depth k exactly k - 1 incoming links lead to the root |
| DelegationForest.TreesAreRooted | src/friday/application/delegation.py:172-204 | the same in every state of every run |
| RuntimeEdges.CancelTaskStrands | src/friday/application/task_lifecycle.py:51-108 | cancelling the task of a delegated child always strands a waiting parent of another task |
| RuntimeEdges.StrandingIsReachable | src/friday/application/task_lifecycle.py:51-108 | a run of four steps (start, claim, delegate, cancel the child's task) that strands the parent and leaves the work item of the cancelled child behind |
| RuntimeEdges.OrphanIsReachable | src/friday/application/task_lifecycle.py:51-108 | a run of four steps (start, claim, ask for approval, cancel the task) that leaves a pending approval of a cancelled run |
| RuntimeEdges.StrandedForever | src/friday/application/delegation_reconciliation.py:24-41 | whatever is done afterwards a stranded parent never runs again; it can only be cancelled |
| RuntimeEdges.NextSettles | src/friday/application/delegation_reconciliation.py:15-113 | no step changes a delegation's status but by ending the open attempt that works for it |
| RuntimeEdges.SettlesWithOutcomeIff | src/friday/application/delegation_reconciliation.py:30-66 | in every run a delegation is settled by the step that ends the one attempt open for it: SUCCEEDED, FAILED and CANCELLED each iff that attempt ended so, iff it is the newest by (created_at, id) or it failed; otherwise as FAILED |
| RuntimeEdges.OrderedSettlesRight | src/friday/application/delegation_reconciliation.py:43-66 | in runs with ordered retries the settled delegation is SUCCEEDED iff the attempt that ends is, FAILED iff it is, CANCELLED iff it is |
| RuntimeEdges.EveryOutcomeIsReachable | src/friday/application/delegation_reconciliation.py:43-113 | each outcome is reached in five steps: the delegated child completes, fails or is cancelled, the delegation bears that name and the parent is awake |
| RuntimeEdges.WrongOutcomeIsReachable | src/friday/application/delegation_reconciliation.py:30-41 | a run of seven steps in which a delegated retry succeeds and its delegation is recorded as FAILED, because the failed attempt of the same instant has the larger id |
| RuntimeEdges.LatestChildIsOpen | src/friday/application/delegation_reconciliation.py:30-41 | in runs with ordered retries the latest attempt of a DISPATCHED delegation's child is open iff no earlier step cancelled its task |
| ToolExecution.FindReplay | src/friday/application/claim_aware_tool_execution.py:290-336 | the nested scan finds a consumed approval with a linked invocation iff there is one |
| ToolExecution.FindAuthorizing | src/friday/application/tool_authorization.py:87-101 | the scan finds an approved, unconsumed approval with exactly this fingerprint iff there is one |
| ToolExecution.FinishMeetsRunningRun | src/friday/application/claim_aware_tool_execution.py:222-231 | what the second transaction relies on without checking: an invocation still running belongs to a RUNNING run that waits for nothing |
| ToolEffects.ProtectedEffectsOnce | src/friday/application/claim_aware_tool_execution.py:140-272 | from any database in which only approvals of the older kind were consumed, over every interleaving of workers, re-claims and crashes, the gateway is called at most once per run and exact fingerprint of a protected action |
| ToolEffects.EffectsAreAuthorized | src/friday/application/claim_aware_tool_execution.py:164-172 | every such call was made under a consumed approval of its run with exactly its fingerprint, linked to its invocation |
| ToolEffects.CallsAreFenced | src/friday/application/claim_aware_tool_execution.py:203-209 | every gateway call is preceded by a fresh check that found the worker's claim active after the invocation was recorded |
| ToolEffects.LaterProposalsReplay | src/friday/application/claim_aware_tool_execution.py:290-336 | afterwards a proposal of the same action returns a stored outcome or fails, with a live claim as ambiguous; it never proceeds, and unless older approvals were consumed the outcome was stored under the same grant |
| ToolEffects.ConsumedBefore | src/friday/application/claim_aware_tool_execution.py:290-336 | an action with a consumed approval, of either kind, and an invocation that approval vouches for is never called again in any run |
| ToolReplay.ReplaysOwnCallIff | src/friday/application/claim_aware_tool_execution.py:290-336 | in every run, whichever linked row the scan meets first, a repeated proposal answers from the invocation of the call that was made iff no other invocation of the run linked to its grant differs from it by being finished |
| ToolReplay.UnlinkedReplaysOwnCall | src/friday/application/claim_aware_tool_execution.py:290-336 | when no step links a further invocation to the approval, it returns that call's stored outcome, or ambiguity while there is none |
| ToolReplay.RivalReplayIsReachable | src/friday/application/tool_invocation_lifecycle.py:116-150 | a run of eleven steps in which a repeated proposal reports the success of a second invocation requested under the same approval while the call itself is still running |
| AgentIdentity.ResolverCallsAgree | src/friday/application/agent_registry.py:231-414 | all resolver calls that return a resolution for a run return the same one, despite races, rebinding and re-activation |
| AgentIdentity.FrozenIdentity | src/friday/application/retry_inheritance.py:12-48 | with ordered retries every attempt later than a resolved one is resolved, and all resolved attempts of an execution agree |
| FrozenAgents.StaysFrozen | src/friday/application/retry_inheritance.py:12-48 | in every run without a forgetful retry (one of an unresolved attempt whose execution has a resolved one), ordered or not, all resolved attempts of an execution agree |
| FrozenAgents.ForgetfulDrifts | src/friday/application/retry_inheritance.py:12-48 | after a forgetful retry some continuation freezes two attempts of the execution to different agents or revisions |
| FrozenAgents.StaysFrozenIff | src/friday/application/retry_inheritance.py:12-48 | the exact condition: a step after a run without forgetful retries leaves every execution its frozen agent in all further such runs iff it is not a forgetful retry |
| FrozenAgents.RunsAsTarget | src/friday/application/agent_registry.py:231-376 | in every run a delegated execution only ever runs as its target |
| AgentMoves.NextMove | src/friday/application/agent_registry.py:231-414 | every step starts a run, retries one with its resolution inherited, freezes one, or leaves runs and resolutions as they are |
| IdentityDrift.DriftIsReachable | src/friday/application/retry_inheritance.py:12-48 | a run of eleven steps with a forgetful retry that freezes two attempts of one execution to different revisions |
| AgentIdentity.CarriedRetry | src/friday/application/retry_inheritance.py:12-48 | a retry of the newest attempt carries whatever any earlier attempt was frozen to |
| AuthorityClosure.CollectAuthority | src/friday/application/agent_run_processor.py:885-965 | the worklist ends and collects exactly the values of all executions reachable through nested delegations, and the request's own print |
| ResultScrubbing.ScrubText | src/friday/application/delegation_result_safety.py:138-149 | the replacement loops compute the scrubbed text |
| ResultScrubbing.ScrubRemoves | src/friday/application/delegation_result_safety.py:138-149 | whatever the text and the order of replacement, a known value that stays apart from the marker is gone |
| ResultScrubbing.ScrubRemovesNumbers | src/friday/application/delegation_result_safety.py:138-149 | whatever the text and the order of replacement, a known number stands alone nowhere in the scrubbed text |
| ResultScrubbing.PlainValuesAreApart | src/friday/application/delegation_result_safety.py:26-27 | values without brackets that are not part of the marker's word stay apart from it |
| ResultScrubbing.RemovedIffApart | src/friday/application/delegation_result_safety.py:138-149 | a value is removed from every text, whatever else is known, iff it shares no character position with the marker |
| ResultScrubbing.Normalize | src/friday/application/delegation_result_safety.py:120-135 | exactly the non-empty strings, longest first, and the positive integers are kept |
| ResultScrubbing.SanitizedIsFree | src/friday/application/delegation_result_safety.py:171-196 | no known value is in any key or string of the sanitized JSON |
| ResultScrubbing.SanitizedIsNumberFree | src/friday/application/delegation_result_safety.py:176-194 | no known number is left in the sanitized JSON, as a number or standing alone in a key or string |
| ResultScrubbing.SanitizedIsCleaned | src/friday/application/delegation_result_safety.py:176-196 | at every depth: exactly the marker under a sensitive key, unless a later field with the same scrubbed key replaces it; the marker for a known number; every other string relabelled and scrubbed; the scrubbed keys and no others; the rest as it was |
| ResultScrubbing.UntouchedSurvives | src/friday/application/delegation_result_safety.py:171-196 | data without labels, sensitive keys, known strings and known numbers standing alone survives intact |
| ResultScrubbing.Project | src/friday/application/delegation_result_safety.py:199-219 | the summary is relabelled and scrubbed and the details are cleaned part by part as above; neither contains a known string that stays apart from the marker, nor a known number as a number or standing alone |
| ParentProjection.ProjectForParent | src/friday/application/agent_run_processor.py:676-697 | exactly the values held anywhere in a delegated subtree when its result is projected are looked for, the details are cleaned of them part by part, and none reaches the parent if it stays apart from the marker |
| ContextBuilder.DropsInOrder | src/friday/application/runtime_context.py:409-425 | k drops omit the k least relevant items, each kind in full before the next, and the sequence ends with the description |
| ContextBuilder.Shrink | src/friday/application/runtime_context.py:495-504 | the drop loop ends with the first state whose rendering fits, cut to the budget only if none does |
| ContextBuilder.CoreKeepsItsRoom | src/friday/application/runtime_context.py:456-494 | the reservations always leave the core at least 998 characters |
| ContextBuilder.RemovalRestoresIff | src/friday/application/runtime_context.py:525-529 | removing an over-long memory section restores the rest exactly iff the rest contains no memory header |
| ContextBuilder.PrefixSurvives | src/friday/application/runtime_context.py:525-529 | whatever follows, a part of the document without a memory header survives the removal of an over-long memory section |
| ContextBuilder.Build | src/friday/application/runtime_context.py:428-532 | the document never exceeds the budget; agent text and delegated input are in the core, and core, skills and conversation each survive verbatim if they and what stands before them contain no memory header; each error has exactly one cause and the last one is unreachable |
| ConversationSection.BuildSection | src/friday/application/conversation_context.py:50-86 | the two loops and the last resort compute the section, which never exceeds the characters it is given |
| ConversationSection.SectionIsWhole | src/friday/application/conversation_context.py:50-86 | a conversation that fits is shown whole, with its count of omitted turns |
| ConversationSection.SectionShows | src/friday/application/conversation_context.py:50-86 | every section is the header, the count of the lines it does not show whole, and lines of the conversation in order, ending with the newest one if that fits; only one that is still too long falls back to one clipped line or the header |
| ConversationWindow.MessagesFor | src/friday/application/conversation_context.py:138-159 | the loop lists question and answer of every turn in order |
| ConversationWindow.Assemble | src/friday/application/conversation_context.py:110-129 | the messages are those of the longest suffix of whole turns that fits, they start with a question, and omitted plus kept turns make up the window |
| ScheduleFiring.FiresIncrease | src/friday/application/materialize_due_schedule.py:50-151 | over every interleaving a later fire's occurrence lies after the moment the earlier one fired, and a one-shot never fires twice |
| ScheduleFiring.FiresAreFirst | src/friday/application/schedule_recurrence.py:37-44 | over every interleaving the occurrence fired after a fire is the first one after the moment of that fire, or after a later resume |
| ScheduleFiring.OneOpenExecution | src/friday/application/materialize_due_schedule.py:70-75 | at most one scheduled execution is open, retries included |
| ScheduleFiring.RetryReopensAlone | src/friday/application/run_lifecycle.py:292-305 | a manual retry reopens one execution only while its task has no other open one |
| ScheduleFiring.Scheduler.FindOpenFire | src/friday/infrastructure/persistence/repositories.py:1977-1989 | the query answers whether a fire's execution, retries included, is open |
| ScheduleFiring.Scheduler.FireOne | src/friday/application/materialize_due_schedule.py:50-147 | a schedule fires iff it is due, its task open, no earlier execution open and the run id free; then one fire of the due occurrence with its queued run, and the next occurrence is the first one after now; otherwise it is completed with its task or left due |
| CandidateComparison.Evaluate | src/friday/application/skill_evaluation.py:499-530 | every case is graded in order with 0 or 1, and the score is their mean |
| CandidateComparison.Compare | src/friday/application/skill_evaluation.py:754-825 | the counters are the cases by the sign of their difference; incomplete runs are inconclusive |
| CandidateComparison.CompareGraded | src/friday/application/skill_evaluation.py:754-825 | for runs of the same frozen suite: never inconclusive, the counts partition the n cases, n times the score difference is improvements minus regressions, MIXED, WORSE, BETTER and EQUIVALENT iff some case got worse and better, only worse, only better, neither; eligible iff better, not eligible iff some case got worse, and an eligible score is higher |
| EventLog.EventStore.AppendBatch | src/friday/application/lifecycle_events.py:42-53 | a batch is numbered consecutively behind the run's log, and every log stays gap-free |
| EventLog.QueryIsPage | src/friday/infrastructure/persistence/repositories.py:3015-3022 | on a gap-free log the rows above a sequence, in order and limited, are the next page of the log |
| EventLog.Poll | apps/api/routes/events.py:109-132 | one poll emits the first 100 rows with a sequence above the last one seen and remembers the sequence of the last, which are exactly the rows between the two |
| EventLog.StreamIsExact | apps/api/routes/events.py:109-132 | for every interleaving of appends and polls the stream has emitted exactly the rows with Last-Event-ID < sequence <= the last one seen, once each and in order |
| EventLog.StreamCatchesUp | apps/api/routes/events.py:109-132 | as many polls as pages in the backlog deliver all of it |
| Pagination.PageFrom | apps/api/pagination.py:72-88 | a page holds the rows with keys above its cursor, in order, and carries the cursor of its last row iff rows are left |
| Pagination.Paginate | packages/sdk-ts/src/pagination.ts:2-21 | the client loop yields the whole sorted collection exactly once and never trips its repeated-cursor guard |
| Pagination.AboveIsSuffix | src/friday/infrastructure/persistence/repositories.py:1664-1688 | any key, of a row or not, splits an ascending listing into what is not above it and what the query returns |
| Pagination.UnderIsPrefix | src/friday/infrastructure/persistence/repositories.py:1908-1938 | the same for the query below a key |
| Pagination.RecentFrom | apps/api/routes/conversations.py:104-144 | a backward page holds the newest rows with keys below its cursor, oldest first, and carries the cursor of its first row iff older rows are left |
| Pagination.Transcript | apps/api/routes/conversations.py:104-144 | backward pages put together in reverse are the whole transcript |
| CursorCodec.PaddingRestored | apps/api/pagination.py:23-48 | stripped base64url padding is restored exactly from the length modulo four |
| CursorCodec.Base64RoundTrip | apps/api/pagination.py:33-48 | decoding an encoded byte string returns it |
| CursorCodec.CursorRoundTrip | apps/api/pagination.py:23-69 | in its own scope a cursor decodes to its key parts as strings; in any other scope or for another number of parts it is refused |
| ServerCursors.CodecRoundTrips | apps/api/pagination.py:23-105 | the opaque cursors of a collection are a codec for its (created_at, id) keys, so the page theorems hold of them |
| ServerCursors.DecimalRoundTrips | apps/api/pagination.py:89-105 | decimal texts of microsecond times and ids meet the law the cursors need |

## Left out

- Workflows and WAITING_FOR_WORKFLOW: the wait of a run for a workflow, its scheduler and its guards in CancelRun and CancelTask.
- Worker plumbing: lease renewal threads, child processes, logging, settings, HTTP routes, schemas, the user interface and the SDK's HTTP client.
- CompleteRunWorkItem (worker_coordination.py): no caller uses it, and on a live run it would delete a work item the run still needs.
- Skills frozen with an agent, their usage ledger, and the promotion of improved skills.
- Artifacts, event payloads and failure records; the failure that FailRun compares on a repeated call.
- Input validation of delegation payloads, evaluation suites and schedules (sizes, shapes, JSON Schema, time zones, cron syntax).
- Evaluator rules: which outputs pass a case is a parameter of `CandidateComparison.Evaluate`.
- Delivery plans of schedule fires, and schedules completed by other processes at the same instant: the unique (schedule, occurrence) fence is not modelled.
- ParentProjection.ProjectForParent: covers the values held when the result is projected; claim tokens of work items that were deleted before are outside.
- AgentIdentity.FrozenIdentity: does not cover the target a workflow node fixes for its child, because workflows are left out.
- RuntimeStore.Runtime.ResolveAgent: leaves out the workflow branch and the reload after a lost insertion race; the race itself is covered, as each call is one atomic step.
- ToolReplay.ReplaysOwnCallIff: the order (requested_at, id) in which invocations are listed is left open, so the condition is the one for all orders.
- ResultScrubbing.Normalize: leaves open the order among strings of equal length and among integers; the theorems hold for every order.
- ResultScrubbing.RemovedIffApart: takes a character the value does not use, so a value containing every character is not covered in the direction that shows survival.
- ResultScrubbing.ScrubRemovesNumbers: an integer may survive inside a longer word, as the word-boundary pattern intends.
- CursorCodec.Base64RoundTrip: the model refuses characters outside the alphabet, where Python's decoder skips them; only cursors that were encoded are spoken of.
- EventLog.EventStore.AppendBatch: batches are not empty, as the port demands.
- Idempotence of labelled-text redaction and contiguity of the lines kept by build_conversation_section, neither of which the code provides.
