/**
 CancelTask keeps `Core`.  It keeps rows tidy exactly when no open run of the task is queued, running or waiting for
 an approval, and delegations staffed exactly when none works for a delegation.
 */
module RuntimeTasks {
  import opened Common
  import opened RuntimeModel
  import opened RuntimeInvariants
  import opened RuntimeFrames

  lemma ExecutionsTask(runs: Runs, task: TaskId)
    requires Executions(runs)
    ensures Executions(CancelRunsOfTask(runs, task))
  {
    var runs' := CancelRunsOfTask(runs, task);
    forall x | x in runs' ensures Rooted(runs', x) {
      assert Rooted(runs, x);
    }
    forall x, y | x in runs' && Active(runs', y, runs'[x].execution) && !Terminal(runs'[x].status) ensures x == y {
      assert Active(runs, y, runs[x].execution);
    }
  }

  lemma ApprovalsTask(runs: Runs, approvals: map<ApprovalId, Approval>, task: TaskId)
    requires ApprovalsCover(runs, approvals)
    ensures ApprovalsCover(CancelRunsOfTask(runs, task), approvals)
  {
    var runs' := CancelRunsOfTask(runs, task);
    forall x | x in runs' ensures MarkerPending(runs', approvals, x) {
      assert MarkerPending(runs, approvals, x);
    }
  }

  lemma DelegationsTask(runs: Runs, delegations: map<DelegationId, Delegation>, task: TaskId)
    requires Delegations(runs, delegations)
    ensures Delegations(CancelRunsOfTask(runs, task), delegations)
  {
    var runs' := CancelRunsOfTask(runs, task);
    forall d | d in delegations ensures Linked(runs', delegations[d]) && ParentWaits(runs', d, delegations[d]) {
      assert Linked(runs, delegations[d]) && ParentWaits(runs, d, delegations[d]);
    }
    forall r | r in runs' ensures WaitIsDispatched(delegations, r, runs'[r]) {
      assert WaitIsDispatched(delegations, r, runs[r]);
    }
    forall d, x | d in delegations && x in runs' ensures OpenChildIsDispatched(delegations, d, runs'[x]) {
      assert OpenChildIsDispatched(delegations, d, runs[x]);
    }
  }

  lemma QueueTask(runs: Runs, queue: map<RunId, WorkItem>, task: TaskId)
    requires Markers(runs) && QueueCovers(runs, queue)
    ensures Markers(CancelRunsOfTask(runs, task)) && QueueCovers(CancelRunsOfTask(runs, task), queue)
  {
  }

  lemma StepsTask(runs: Runs, steps: map<StepId, RunStep>, task: TaskId)
    requires StepsClosed(runs, steps)
    ensures StepsClosed(CancelRunsOfTask(runs, task), CancelStepsOfTask(runs, steps, task))
  {
  }

  lemma ToolsTask(runs: Runs, steps: map<StepId, RunStep>, tools: map<ToolId, Tool>, task: TaskId)
    requires ToolsClosed(runs, tools)
    ensures ToolsClosed(CancelRunsOfTask(runs, task), CancelToolsOfTask(runs, steps, tools, task))
  {
  }

  lemma CancelTaskKeepsCore(db: Db, task: TaskId)
    requires Core(db)
    ensures Core(After(db, CancelTask(db, task)))
  {
    if CancelTask(db, task).Commit? {
      QueueTask(db.runs, db.queue, task);
      StepsTask(db.runs, db.steps, task);
      ToolsTask(db.runs, db.steps, db.tools, task);
      ExecutionsTask(db.runs, task);
      ApprovalsTask(db.runs, db.approvals, task);
      DelegationsTask(db.runs, db.delegations, task);
    }
  }

  // ---- what it leaves behind -------------------------------------------------------------

  lemma QueueCleanIff(runs: Runs, queue: map<RunId, WorkItem>, task: TaskId)
    requires QueueCovers(runs, queue) && QueueClean(runs, queue, iset{})
    ensures QueueClean(CancelRunsOfTask(runs, task), queue, iset{}) <==>
            forall r :: OpenRunOf(runs, r, task) ==> !Live(runs[r].status)
  {
    var runs' := CancelRunsOfTask(runs, task);
    if r :| OpenRunOf(runs, r, task) && Live(runs[r].status) {
      assert r in queue && !Live(runs'[r].status);
    }
  }

  lemma ApprovalsCleanIff(runs: Runs, approvals: map<ApprovalId, Approval>, task: TaskId)
    requires Markers(runs) && ApprovalsCover(runs, approvals) && ApprovalsClean(runs, approvals, iset{})
    ensures ApprovalsClean(CancelRunsOfTask(runs, task), approvals, iset{}) <==>
            forall r :: OpenRunOf(runs, r, task) ==> !runs[r].status.WaitingForApproval?
  {
    var runs' := CancelRunsOfTask(runs, task);
    if r :| OpenRunOf(runs, r, task) && runs[r].status.WaitingForApproval? {
      assert MarkerPending(runs, approvals, r);
      assert runs'[r].approval.None?;
    }
  }

  predicate WorksForDelegation(runs: Runs, delegations: map<DelegationId, Delegation>, r: RunId)
    requires r in runs
  {
    exists d :: d in delegations && delegations[d].child == Some(runs[r].execution)
  }

  ghost predicate OpenExecutionOf(runs: Runs, e: RunId, task: TaskId) {
    exists r :: OpenRunOf(runs, r, task) && runs[r].execution == e
  }

  /** The executions whose open attempt a cancelled task takes along. */
  ghost function CutBy(runs: Runs, task: TaskId): iset<RunId> {
    iset e: RunId | OpenExecutionOf(runs, e, task)
  }

  lemma CutHasNoOne(runs: Runs, task: TaskId, e: RunId)
    requires Executions(runs) && e in CutBy(runs, task)
    ensures !HasActive(CancelRunsOfTask(runs, task), e)
  {
    var runs' := CancelRunsOfTask(runs, task);
    var r :| OpenRunOf(runs, r, task) && runs[r].execution == e;
    forall x ensures !Active(runs', x, e) {
      if x != r {
        assert !Active(runs, x, e);
      }
    }
  }

  /** Cancelling a task cuts off exactly those executions. */
  lemma CancelTaskCuts(runs: Runs, delegations: map<DelegationId, Delegation>, task: TaskId, cut: iset<RunId>)
    requires Staffed(runs, delegations, cut)
    ensures Staffed(CancelRunsOfTask(runs, task), delegations, cut + CutBy(runs, task))
  {
    var runs' := CancelRunsOfTask(runs, task);
    var cut' := cut + CutBy(runs, task);
    forall d | d in delegations && delegations[d].status.Dispatched? && delegations[d].child.Some?
      && delegations[d].child.value !in cut'
      ensures HasActive(runs', delegations[d].child.value)
    {
      var a :| Active(runs, a, delegations[d].child.value);
      assert !OpenExecutionOf(runs, delegations[d].child.value, task);
      assert !OpenRunOf(runs, a, task);
      assert Active(runs', a, delegations[d].child.value);
    }
  }

  /** No dispatched delegation loses its worker exactly when no open run of the task works for one. */
  lemma StaffedIff(runs: Runs, delegations: map<DelegationId, Delegation>, task: TaskId)
    requires Executions(runs) && Delegations(runs, delegations) && Staffed(runs, delegations, iset{})
    ensures Staffed(CancelRunsOfTask(runs, task), delegations, iset{}) <==>
            forall r :: OpenRunOf(runs, r, task) ==> !WorksForDelegation(runs, delegations, r)
  {
    var runs' := CancelRunsOfTask(runs, task);
    if r :| OpenRunOf(runs, r, task) && WorksForDelegation(runs, delegations, r) {
      var d :| d in delegations && delegations[d].child == Some(runs[r].execution);
      assert OpenChildIsDispatched(delegations, d, runs[r]);
      CutHasNoOne(runs, task, runs[r].execution);
    } else {
      CancelTaskCuts(runs, delegations, task, iset{});
      assert forall d :: d in delegations && delegations[d].child.Some? ==>
        delegations[d].child.value !in CutBy(runs, task);
    }
  }

  /** What a caller can check before cancelling a task: whether its open runs only wait for delegations. */
  ghost predicate LeavesNoRows(db: Db, task: TaskId) {
    forall r :: OpenRunOf(db.runs, r, task) ==> db.runs[r].status.WaitingForDelegation?
  }

  /**
   Cancelling a task leaves no work item and no pending approval behind exactly when its open runs only wait for
   delegations.
   */
  lemma CancelTaskTidyIff(db: Db, task: TaskId)
    requires Core(db) && Tidy(db, iset{}) && CancelTask(db, task).Commit?
    ensures Tidy(CancelTask(db, task).db, iset{}) <==> LeavesNoRows(db, task)
  {
    QueueCleanIff(db.runs, db.queue, task);
    ApprovalsCleanIff(db.runs, db.approvals, task);
  }

  /** Whatever it leaves behind belongs to the executions it cut off. */
  lemma CancelTaskLeavesCut(db: Db, task: TaskId, cut: iset<RunId>)
    requires Markers(db.runs) && Tidy(db, cut)
    ensures var runs', cut' := CancelRunsOfTask(db.runs, task), cut + CutBy(db.runs, task);
            QueueClean(runs', db.queue, cut') && ApprovalsClean(runs', db.approvals, cut')
  {
    var runs' := CancelRunsOfTask(db.runs, task);
    forall r | OpenRunOf(db.runs, r, task) ensures db.runs[r].execution in CutBy(db.runs, task) {
      assert OpenExecutionOf(db.runs, db.runs[r].execution, task);
    }
  }

  /** In every scope, leftover rows and missing workers grow by the executions taken along. */
  lemma CancelTaskKeeps(db: Db, scope: Scope, task: TaskId)
    requires Inv(db, scope)
    ensures CancelTask(db, task).Commit? ==>
            Inv(CancelTask(db, task).db, Scope(scope.rows + CutBy(db.runs, task), scope.cut + CutBy(db.runs, task)))
  {
    if CancelTask(db, task).Commit? {
      CancelTaskKeepsCore(db, task);
      CancelTaskCuts(db.runs, db.delegations, task, scope.cut);
      CancelTaskLeavesCut(db, task, scope.rows);
    }
  }
}
