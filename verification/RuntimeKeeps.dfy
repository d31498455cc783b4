/** Use cases that neither end a run nor move a delegation keep both invariants. */
module RuntimeKeeps {
  import opened Common
  import opened RuntimeModel
  import opened RuntimeInvariants
  import opened RuntimeFrames

  // ---- runs and work items ---------------------------------------------------------------

  /** An open run that waits for nothing stays open and waits for nothing. */
  lemma OpenUpdateKeeps(db: Db, scope: Scope, r: RunId, row: Run, queue': map<RunId, WorkItem>)
    requires Inv(db, scope) && r in db.runs && SameAttempt(db.runs[r], row) && WellMarked(row)
    requires Live(db.runs[r].status) && row.status.Running?
    requires QueueCovers(db.runs[r := row], queue')
    requires QueueClean(db.runs[r := row], queue', scope.rows)
    ensures Inv(db.(runs := db.runs[r := row], queue := queue'), scope)
  {
    MarkersUpdate(db.runs, r, row);
    ExecutionsUpdate(db.runs, r, row);
    ApprovalsSame(db.runs, db.approvals, r, row, scope.rows);
    StepsUpdate(db.runs, db.steps, r, row);
    ToolsUpdate(db.runs, db.tools, r, row);
    DelegationsUpdate(db.runs, db.delegations, r, row);
    StaffedUpdate(db.runs, db.delegations, r, row, scope.cut);
  }

  lemma QueueOnlyKeeps(db: Db, scope: Scope, queue': map<RunId, WorkItem>)
    requires Inv(db, scope) && QueueCovers(db.runs, queue')
    requires QueueClean(db.runs, queue', scope.rows)
    ensures Inv(db.(queue := queue'), scope)
  {
  }

  /** A new attempt with its work item. */
  lemma AddAttemptKeeps(db: Db, scope: Scope, r: RunId, task: TaskId, execution: RunId, now: Time, availableAt: Time)
    requires Inv(db, scope) && r !in db.runs
    requires execution == r
             || (execution in db.runs && db.runs[execution].execution == execution && db.runs[execution].task == task)
    requires !HasActive(db.runs, execution)
    requires forall d :: d in db.delegations && db.delegations[d].child == Some(execution) ==>
             db.delegations[d].status.Dispatched?
    ensures Inv(AddAttempt(db, r, task, execution, now, availableAt), scope)
  {
    var row := Run(task, execution, now, Queued, None, None);
    assert r !in db.queue;
    MarkersUpdate(db.runs, r, row);
    ExecutionsAdd(db.runs, r, row);
    QueueUpdate(db.runs, db.queue, r, row, Enqueue(db.queue, r, availableAt), scope.rows);
    ApprovalsSame(db.runs, db.approvals, r, row, scope.rows);
    StepsUpdate(db.runs, db.steps, r, row);
    ToolsUpdate(db.runs, db.tools, r, row);
    DelegationsAdd(db.runs, db.delegations, r, row);
    StaffedAdd(db.runs, db.delegations, r, row, scope.cut);
  }

  lemma NoActiveWhenFresh(runs: Runs, delegations: map<DelegationId, Delegation>, r: RunId)
    requires Executions(runs) && Delegations(runs, delegations) && r !in runs
    ensures !HasActive(runs, r)
    ensures forall d :: d in delegations ==> delegations[d].child != Some(r)
  {
    forall x ensures !Active(runs, x, r) {
      if x in runs {
        assert Rooted(runs, x);
      }
    }
    forall d | d in delegations ensures delegations[d].child != Some(r) {
      assert Linked(runs, delegations[d]);
    }
  }

  lemma StartRunKeeps(db: Db, scope: Scope, task: TaskId, r: RunId, now: Time)
    requires Inv(db, scope)
    ensures Inv(After(db, StartRun(db, task, r, now)), scope)
  {
    if StartRun(db, task, r, now).Commit? {
      NoActiveWhenFresh(db.runs, db.delegations, r);
      AddAttemptKeeps(db.(tasks := db.tasks[task := TaskActive]), scope, r, task, r, now, now);
    }
  }

  lemma StartQueuedRunKeeps(db: Db, scope: Scope, r: RunId)
    requires Inv(db, scope)
    ensures Inv(After(db, StartQueuedRun(db, r)), scope)
  {
    if r in db.runs && db.runs[r].status.Queued? {
      var row := db.runs[r].(status := Running);
      QueueUpdate(db.runs, db.queue, r, row, db.queue, scope.rows);
      OpenUpdateKeeps(db, scope, r, row, db.queue);
    }
  }

  lemma ClaimRunKeeps(db: Db, scope: Scope, r: RunId, worker: string, token: string, now: Time, expires: Time)
    requires Inv(db, scope)
    ensures Inv(After(db, ClaimRun(db, r, worker, token, now, expires)), scope)
  {
    var t := ClaimRun(db, r, worker, token, now, expires);
    if t.Commit? {
      if r in db.runs && Live(db.runs[r].status) {
        var row := db.runs[r].(status := Running);
        QueueUpdate(db.runs, db.queue, r, row, t.db.queue, scope.rows);
        OpenUpdateKeeps(db, scope, r, row, t.db.queue);
      } else {
        QueueShrinks(db.runs, db.queue, r, scope.rows);
        QueueOnlyKeeps(db, scope, db.queue - {r});
      }
    }
  }

  lemma QueueShrinks(runs: Runs, queue: map<RunId, WorkItem>, r: RunId, cut: iset<RunId>)
    requires QueueCovers(runs, queue) && (r in runs ==> !Live(runs[r].status))
    ensures QueueCovers(runs, queue - {r})
    ensures QueueClean(runs, queue, cut) ==> QueueClean(runs, queue - {r}, cut)
  {
  }

  lemma QueueItem(runs: Runs, queue: map<RunId, WorkItem>, r: RunId, item: WorkItem, cut: iset<RunId>)
    requires QueueCovers(runs, queue) && r in queue && (item.lease.Some? ==> queue[r].lease.Some?)
    ensures QueueCovers(runs, queue[r := item])
    ensures QueueClean(runs, queue, cut) ==> QueueClean(runs, queue[r := item], cut)
  {
  }

  lemma RenewLeaseKeeps(db: Db, scope: Scope, r: RunId, c: Claim, now: Time, expires: Time)
    requires Inv(db, scope)
    ensures Inv(After(db, RenewLease(db, r, c, now, expires)), scope)
  {
    var t := RenewLease(db, r, c, now, expires);
    if t.Commit? {
      QueueItem(db.runs, db.queue, r, t.db.queue[r], scope.rows);
      QueueOnlyKeeps(db, scope, t.db.queue);
    }
  }

  lemma GiveBackKeeps(db: Db, scope: Scope, r: RunId, c: Claim, now: Time, availableAt: Option<Time>)
    requires Inv(db, scope)
    ensures Inv(After(db, GiveBack(db, r, c, now, availableAt)), scope)
  {
    var t := GiveBack(db, r, c, now, availableAt);
    if t.Commit? {
      QueueItem(db.runs, db.queue, r, t.db.queue[r], scope.rows);
      QueueOnlyKeeps(db, scope, t.db.queue);
    }
  }

  lemma RecoverLeaseKeeps(db: Db, scope: Scope, r: RunId, now: Time)
    requires Inv(db, scope)
    ensures Inv(After(db, RecoverLease(db, r, now)), scope)
  {
    if r in db.queue {
      if r in db.runs && Live(db.runs[r].status) {
        var item := db.queue[r].(lease := None);
        QueueItem(db.runs, db.queue, r, item, scope.rows);
        QueueOnlyKeeps(db, scope, db.queue[r := item]);
      } else {
        QueueShrinks(db.runs, db.queue, r, scope.rows);
        QueueOnlyKeeps(db, scope, db.queue - {r});
      }
    }
  }

  // ---- approvals -------------------------------------------------------------------------

  lemma ParkKeeps(db: Db, scope: Scope, r: RunId, a: ApprovalId, approval: Approval)
    requires Inv(db, scope) && r in db.runs && db.runs[r].status.Running? && a !in db.approvals
    requires approval.run == r && approval.status.Pending? && !approval.consumed
    ensures Inv(ParkRun(db, r, a, approval), scope)
  {
    var row := db.runs[r].(status := WaitingForApproval, approval := Some(a));
    MarkersUpdate(db.runs, r, row);
    ExecutionsUpdate(db.runs, r, row);
    QueueUpdate(db.runs, db.queue, r, row, db.queue - {r}, scope.rows);
    ApprovalsPark(db.runs, db.approvals, r, row, a, approval, scope.rows);
    StepsUpdate(db.runs, db.steps, r, row);
    ToolsUpdate(db.runs, db.tools, r, row);
    DelegationsUpdate(db.runs, db.delegations, r, row);
    StaffedUpdate(db.runs, db.delegations, r, row, scope.cut);
  }

  lemma ParkStepKeeps(db: Db, scope: Scope, r: RunId, step: Option<StepId>, a: ApprovalId)
    requires Inv(db, scope) && r in db.runs && db.runs[r].status.Running? && StepMayWait(db, r, step)
    ensures Inv(ParkStep(db, step, a), scope)
  {
    if step.Some? {
      StepOnlyKeeps(db, scope, step.value, db.steps[step.value].(status := StepWaiting, approval := Some(a)));
    }
  }

  lemma RequestApprovalKeeps(db: Db, scope: Scope, r: RunId, claim: Option<Claim>, a: ApprovalId, step: Option<StepId>,
                             fingerprint: Option<Fingerprint>, expiresAt: Option<Time>, now: Time)
    requires Inv(db, scope)
    ensures Inv(After(db, RequestApproval(db, r, claim, a, step, fingerprint, expiresAt, now)), scope)
  {
    if RequestApproval(db, r, claim, a, step, fingerprint, expiresAt, now).Commit? {
      ParkStepKeeps(db, scope, r, step, a);
      ParkKeeps(ParkStep(db, step, a), scope, r, a, Approval(r, step, Pending, fingerprint, expiresAt, false));
    }
  }

  lemma ResumeKeeps(db: Db, scope: Scope, a: ApprovalId, approval: Approval, now: Time)
    requires Inv(db, scope) && a in db.approvals && db.approvals[a].status.Pending?
    requires db.runs[db.approvals[a].run].approval == Some(a)
    requires approval.run == db.approvals[a].run && !approval.status.Pending? && !approval.consumed
    ensures Inv(Resolve(db, a, approval, now), scope)
  {
    var r := approval.run;
    var row := db.runs[r].(status := Running, approval := None);
    MarkersUpdate(db.runs, r, row);
    ExecutionsUpdate(db.runs, r, row);
    QueueUpdate(db.runs, db.queue, r, row, Enqueue(db.queue, r, now), scope.rows);
    ApprovalsResume(db.runs, db.approvals, a, row, approval, scope.rows);
    StepsUpdate(db.runs, db.steps, r, row);
    ToolsUpdate(db.runs, db.tools, r, row);
    DelegationsUpdate(db.runs, db.delegations, r, row);
    StaffedUpdate(db.runs, db.delegations, r, row, scope.cut);
  }

  lemma StepOnlyKeeps(db: Db, scope: Scope, s: StepId, row: RunStep)
    requires Inv(db, scope) && row.run in db.runs && (StepTerminal(row.status) || !Terminal(db.runs[row.run].status))
    ensures Inv(db.(steps := db.steps[s := row]), scope)
  {
    StepRow(db.runs, db.steps, s, row);
  }

  lemma PendingIsFresh(db: Db, a: ApprovalId)
    requires Core(db) && a in db.approvals && db.approvals[a].status.Pending?
    ensures !db.approvals[a].consumed && db.approvals[a].run in db.runs
  {
  }

  lemma ResumeStepKeeps(db: Db, scope: Scope, a: ApprovalId)
    requires Inv(db, scope) && a in db.approvals
    ensures Inv(ResumeStep(db, a), scope)
  {
    var step := db.approvals[a].step;
    if ResumeStep(db, a) != db {
      StepOnlyKeeps(db, scope, step.value, db.steps[step.value].(status := StepRunning, approval := None));
    }
  }

  lemma OrphanKeeps(db: Db, scope: Scope, a: ApprovalId, approval: Approval)
    requires Inv(db, scope) && a in db.approvals && !WaitsForApproval(db.runs, db.approvals[a].run, a)
    requires approval.run == db.approvals[a].run && !approval.status.Pending?
    requires (approval.consumed ==> approval.status.Approved?)
    ensures Inv(db.(approvals := db.approvals[a := approval]), scope)
  {
    ApprovalsRow(db.runs, db.approvals, a, approval, scope.rows);
  }

  lemma ResolveKeeps(db: Db, scope: Scope, a: ApprovalId, approval: Approval, now: Time)
    requires Inv(db, scope) && a in db.approvals && db.approvals[a].status.Pending?
    requires approval.run == db.approvals[a].run && !approval.status.Pending? && !approval.consumed
    ensures Inv(Resolve(db, a, approval, now), scope)
  {
    if WaitsForApproval(db.runs, approval.run, a) {
      ResumeKeeps(db, scope, a, approval, now);
    } else {
      OrphanKeeps(db, scope, a, approval);
    }
  }

  lemma ResolveApprovalShape(db: Db, a: ApprovalId, target: ApprovalStatus, now: Time)
    requires !target.Pending?
    ensures var db' := After(db, ResolveApproval(db, a, target, now));
            || db' == db
            || (a in db.approvals && db.approvals[a].status.Pending?
               && db' == Resolve(ResumeStep(db, a), a, db.approvals[a].(status := target), now))
  {
  }

  lemma ResolveApprovalKeeps(db: Db, scope: Scope, a: ApprovalId, target: ApprovalStatus, now: Time)
    requires Inv(db, scope) && !target.Pending?
    ensures Inv(After(db, ResolveApproval(db, a, target, now)), scope)
  {
    ResolveApprovalShape(db, a, target, now);
    var db' := After(db, ResolveApproval(db, a, target, now));
    if db' != db {
      PendingIsFresh(db, a);
      ResumeStepKeeps(db, scope, a);
      ResolveKeeps(ResumeStep(db, a), scope, a, db.approvals[a].(status := target), now);
    }
  }

  // ---- steps, tools, contracts -----------------------------------------------------------

  lemma CreateStepKeeps(db: Db, scope: Scope, r: RunId, s: StepId, position: nat)
    requires Inv(db, scope)
    ensures Inv(After(db, CreateStep(db, r, s, position)), scope)
  {
    if CreateStep(db, r, s, position).Commit? {
      StepOnlyKeeps(db, scope, s, RunStep(r, position, StepPending, None));
    }
  }

  lemma StartStepKeeps(db: Db, scope: Scope, s: StepId)
    requires Inv(db, scope)
    ensures Inv(After(db, StartStep(db, s)), scope)
  {
    if StartStep(db, s).Commit? && !db.steps[s].status.StepRunning? {
      StepOnlyKeeps(db, scope, s, db.steps[s].(status := StepRunning));
    }
  }

  lemma EndStepKeeps(db: Db, scope: Scope, s: StepId, target: StepStatus)
    requires Inv(db, scope) && StepTerminal(target)
    ensures Inv(After(db, EndStep(db, s, target)), scope)
  {
    var t := EndStep(db, s, target);
    if t.Commit? && db.steps[s].status != target {
      StepOnlyKeeps(db, scope, s, t.db.steps[s]);
      ToolsOnStepCancelled(db.runs, db.tools, s);
    }
  }

  lemma ToolOnlyKeeps(db: Db, scope: Scope, t: ToolId, row: Tool)
    requires Inv(db, scope) && row.run in db.runs && !db.runs[row.run].status.Queued?
    requires ToolTerminal(row.status) || !Terminal(db.runs[row.run].status)
    ensures Inv(db.(tools := db.tools[t := row]), scope)
  {
    ToolRow(db.runs, db.tools, t, row);
  }

  lemma RequestToolKeeps(db: Db, scope: Scope, r: RunId, t: ToolId, step: Option<StepId>, approval: Option<ApprovalId>)
    requires Inv(db, scope)
    ensures Inv(After(db, RequestTool(db, r, t, step, approval)), scope)
  {
    if RequestTool(db, r, t, step, approval).Commit? {
      ToolOnlyKeeps(db, scope, t, Tool(r, step, approval, ToolRequested, false));
    }
  }

  lemma MoveToolKeeps(db: Db, scope: Scope, t: ToolId, target: ToolStatus)
    requires Inv(db, scope) && !target.ToolRequested?
    ensures Inv(After(db, MoveTool(db, t, target)), scope)
  {
    if MoveTool(db, t, target).Commit? && db.tools[t].status != target {
      ToolOnlyKeeps(db, scope, t, db.tools[t].(status := target));
    }
  }

  lemma CreateDelegationKeeps(db: Db, scope: Scope, d: DelegationId, parent: RunId, target: AgentId)
    requires Inv(db, scope)
    ensures Inv(After(db, CreateDelegation(db, d, parent, target)), scope)
  {
    if CreateDelegation(db, d, parent, target).Commit? {
      DelegationsContract(db.runs, db.delegations, d, Delegation(parent, None, Requested, d, 1, target), scope.cut);
    }
  }
}
