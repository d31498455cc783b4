/** One table at a time: how each clause of the invariants survives a change of the rows it mentions. */
module RuntimeFrames {
  import opened Common
  import opened RuntimeModel
  import opened RuntimeInvariants

  type Runs = map<RunId, Run>

  /** A row update that keeps identity and never reopens a terminal attempt. */
  predicate SameAttempt(before: Run, now: Run) {
    && now.task == before.task && now.execution == before.execution && now.createdAt == before.createdAt
    && (Terminal(before.status) ==> now.status == before.status)
  }

  predicate WellMarked(row: Run) {
    && (row.approval.Some? <==> row.status.WaitingForApproval?)
    && (row.delegation.Some? <==> row.status.WaitingForDelegation?)
  }

  // ---- a run row changes -----------------------------------------------------------------

  lemma MarkersUpdate(runs: Runs, r: RunId, row: Run)
    requires Markers(runs) && WellMarked(row)
    ensures Markers(runs[r := row])
  {
  }

  lemma ExecutionsUpdate(runs: Runs, r: RunId, row: Run)
    requires Executions(runs) && r in runs && SameAttempt(runs[r], row)
    ensures Executions(runs[r := row])
  {
    var runs' := runs[r := row];
    forall x | x in runs' ensures Rooted(runs', x) {
      assert Rooted(runs, x);
    }
    forall x, y | x in runs' && Active(runs', y, runs'[x].execution) && !Terminal(runs'[x].status) ensures x == y {
      assert Active(runs, y, runs[x].execution);
    }
  }

  lemma ExecutionsAdd(runs: Runs, r: RunId, row: Run)
    requires Executions(runs) && r !in runs
    requires row.execution == r
             || (row.execution in runs && runs[row.execution].execution == row.execution
                && runs[row.execution].task == row.task)
    requires !HasActive(runs, row.execution)
    ensures Executions(runs[r := row])
  {
    var runs' := runs[r := row];
    forall x | x in runs' ensures Rooted(runs', x) {
      if x != r {
        assert Rooted(runs, x);
      }
    }
    forall x, y | x in runs' && Active(runs', y, runs'[x].execution) && !Terminal(runs'[x].status) ensures x == y {
      if x != r && y != r {
        assert Active(runs, y, runs[x].execution);
      } else if x == r && y != r {
        assert Active(runs, y, row.execution);
      } else if x != r && y == r {
        assert Active(runs, x, row.execution);
      }
    }
  }

  lemma QueueUpdate(runs: Runs, queue: map<RunId, WorkItem>, r: RunId, row: Run, queue': map<RunId, WorkItem>,
                    cut: iset<RunId>)
    requires QueueCovers(runs, queue)
    requires r in queue' ==> ItemFits(queue'[r], row)
    requires Live(row.status) ==> r in queue'
    requires forall x :: x != r ==> (x in queue' <==> x in queue) && (x in queue ==> queue'[x] == queue[x])
    ensures QueueCovers(runs[r := row], queue')
    ensures QueueClean(runs, queue, cut) && (r in queue' ==> Live(row.status)) ==>
              QueueClean(runs[r := row], queue', cut)
  {
  }

  lemma ApprovalsSame(runs: Runs, approvals: map<ApprovalId, Approval>, r: RunId, row: Run, cut: iset<RunId>)
    requires ApprovalsCover(runs, approvals)
    requires r in runs ==> row.approval == runs[r].approval && (runs[r].status.Cancelled? ==> row.status.Cancelled?)
    requires r in runs ==> row.execution == runs[r].execution
    requires r !in runs ==> row.approval.None?
    ensures ApprovalsCover(runs[r := row], approvals)
    ensures ApprovalsClean(runs, approvals, cut) ==> ApprovalsClean(runs[r := row], approvals, cut)
  {
    var runs' := runs[r := row];
    forall x | x in runs' ensures MarkerPending(runs', approvals, x) {
      if x != r || r in runs {
        assert MarkerPending(runs, approvals, x);
      }
    }
  }

  lemma ApprovalsPark(runs: Runs, approvals: map<ApprovalId, Approval>, r: RunId, row: Run, a: ApprovalId,
                      approval: Approval, cut: iset<RunId>)
    requires ApprovalsCover(runs, approvals) && r in runs && a !in approvals && row.execution == runs[r].execution
    requires runs[r].approval.None? && row.approval == Some(a) && !runs[r].status.Cancelled?
    requires approval.run == r && approval.status.Pending? && !approval.consumed
    ensures ApprovalsCover(runs[r := row], approvals[a := approval])
    ensures ApprovalsClean(runs, approvals, cut) ==> ApprovalsClean(runs[r := row], approvals[a := approval], cut)
  {
    var runs', approvals' := runs[r := row], approvals[a := approval];
    forall x | x in runs' ensures MarkerPending(runs', approvals', x) {
      if x != r {
        assert MarkerPending(runs, approvals, x);
      }
    }
  }

  lemma ApprovalsResume(runs: Runs, approvals: map<ApprovalId, Approval>, a: ApprovalId, row: Run, approval: Approval,
                        cut: iset<RunId>)
    requires ApprovalsCover(runs, approvals) && a in approvals && approvals[a].status.Pending?
    requires runs[approvals[a].run].approval == Some(a) && !runs[approvals[a].run].status.Cancelled?
    requires row.approval.None? && row.execution == runs[approvals[a].run].execution
    requires approval.run == approvals[a].run && !approval.status.Pending? && !approval.consumed
    ensures ApprovalsCover(runs[approvals[a].run := row], approvals[a := approval])
    ensures ApprovalsClean(runs, approvals, cut) ==>
              ApprovalsClean(runs[approvals[a].run := row], approvals[a := approval], cut)
  {
    var r := approvals[a].run;
    var runs', approvals' := runs[r := row], approvals[a := approval];
    forall x | x in runs' ensures MarkerPending(runs', approvals', x) {
      assert MarkerPending(runs, approvals, x);
    }
  }

  /** A resolved approval nobody waits for, or a consumed one. */
  lemma ApprovalsRow(runs: Runs, approvals: map<ApprovalId, Approval>, a: ApprovalId, approval: Approval,
                     cut: iset<RunId>)
    requires ApprovalsCover(runs, approvals) && a in approvals
    requires runs[approvals[a].run].approval != Some(a) || approval.status == approvals[a].status
    requires approval.run == approvals[a].run && !approval.status.Pending?
    requires (approval.consumed ==> approval.status.Approved?)
    ensures ApprovalsCover(runs, approvals[a := approval])
    ensures ApprovalsClean(runs, approvals, cut) ==> ApprovalsClean(runs, approvals[a := approval], cut)
  {
    var approvals' := approvals[a := approval];
    forall x | x in runs ensures MarkerPending(runs, approvals', x) {
      assert MarkerPending(runs, approvals, x);
    }
  }

  /** The run is cancelled and all its pending approvals are withdrawn. */
  lemma ApprovalsWithdraw(runs: Runs, approvals: map<ApprovalId, Approval>, r: RunId, row: Run, cut: iset<RunId>)
    requires ApprovalsCover(runs, approvals) && r in runs && row.approval.None?
    ensures ApprovalsCover(runs[r := row], WithdrawPending(approvals, r))
    ensures ApprovalsClean(runs, approvals, cut) ==> ApprovalsClean(runs[r := row], WithdrawPending(approvals, r), cut)
  {
    var runs', approvals' := runs[r := row], WithdrawPending(approvals, r);
    forall x | x in runs' ensures MarkerPending(runs', approvals', x) {
      assert MarkerPending(runs, approvals, x);
    }
  }

  lemma StepsUpdate(runs: Runs, steps: map<StepId, RunStep>, r: RunId, row: Run)
    requires StepsClosed(runs, steps)
    requires Terminal(row.status) ==> forall s :: s in steps && steps[s].run == r ==> StepTerminal(steps[s].status)
    ensures StepsClosed(runs[r := row], steps)
  {
  }

  lemma ToolsUpdate(runs: Runs, tools: map<ToolId, Tool>, r: RunId, row: Run)
    requires ToolsClosed(runs, tools)
    requires row.status.Queued? ==> r !in runs
    requires Terminal(row.status) ==> forall t :: t in tools && tools[t].run == r ==> ToolTerminal(tools[t].status)
    ensures ToolsClosed(runs[r := row], tools)
  {
  }

  // ---- steps and tools are cancelled -----------------------------------------------------

  lemma StepsCancelled(runs: Runs, steps: map<StepId, RunStep>, r: RunId)
    requires StepsClosed(runs, steps)
    ensures StepsClosed(runs, CancelStepsOf(steps, r))
    ensures forall s :: s in CancelStepsOf(steps, r) && steps[s].run == r ==>
            StepTerminal(CancelStepsOf(steps, r)[s].status)
  {
  }

  lemma ToolsCancelled(runs: Runs, tools: map<ToolId, Tool>, steps: map<StepId, RunStep>, r: RunId)
    requires ToolsClosed(runs, tools)
    ensures ToolsClosed(runs, CancelToolsOf(tools, steps, r))
    ensures forall t :: t in CancelToolsOf(tools, steps, r) && tools[t].run == r ==>
            ToolTerminal(CancelToolsOf(tools, steps, r)[t].status)
  {
  }

  lemma ToolsOnStepCancelled(runs: Runs, tools: map<ToolId, Tool>, s: StepId)
    requires ToolsClosed(runs, tools)
    ensures ToolsClosed(runs, CancelToolsOnStep(tools, s))
  {
  }

  lemma StepRow(runs: Runs, steps: map<StepId, RunStep>, s: StepId, row: RunStep)
    requires StepsClosed(runs, steps) && row.run in runs
    requires StepTerminal(row.status) || !Terminal(runs[row.run].status)
    ensures StepsClosed(runs, steps[s := row])
  {
  }

  lemma ToolRow(runs: Runs, tools: map<ToolId, Tool>, t: ToolId, row: Tool)
    requires ToolsClosed(runs, tools) && row.run in runs && !runs[row.run].status.Queued?
    requires ToolTerminal(row.status) || !Terminal(runs[row.run].status)
    ensures ToolsClosed(runs, tools[t := row])
  {
  }

  // ---- delegations -----------------------------------------------------------------------

  lemma ActiveSurvives(runs: Runs, delegations: map<DelegationId, Delegation>, runs': Runs, cut: iset<RunId>)
    requires Staffed(runs, delegations, cut)
    requires forall x, e :: Active(runs, x, e) ==> Active(runs', x, e)
    ensures Staffed(runs', delegations, cut)
  {
    forall d | d in delegations && delegations[d].status.Dispatched? && delegations[d].child.Some?
      && delegations[d].child.value !in cut
      ensures HasActive(runs', delegations[d].child.value)
    {
      var a :| Active(runs, a, delegations[d].child.value);
      assert Active(runs', a, delegations[d].child.value);
    }
  }

  /** A run that does not wait for a delegation changes, without becoming such a waiter. */
  lemma DelegationsUpdate(runs: Runs, delegations: map<DelegationId, Delegation>, r: RunId, row: Run)
    requires Delegations(runs, delegations) && r in runs && SameAttempt(runs[r], row)
    requires runs[r].delegation.None? && row.delegation.None?
    requires runs[r].status.Cancelled? ==> row.status.Cancelled?
    ensures Delegations(runs[r := row], delegations)
  {
    var runs' := runs[r := row];
    forall d | d in delegations ensures Linked(runs', delegations[d]) && ParentWaits(runs', d, delegations[d]) {
      assert Linked(runs, delegations[d]) && ParentWaits(runs, d, delegations[d]);
    }
    forall d, x | d in delegations && x in runs' ensures OpenChildIsDispatched(delegations, d, runs'[x]) {
      assert OpenChildIsDispatched(delegations, d, runs[x]);
    }
  }

  lemma StaffedUpdate(runs: Runs, delegations: map<DelegationId, Delegation>, r: RunId, row: Run, cut: iset<RunId>)
    requires Staffed(runs, delegations, cut) && r in runs && row.execution == runs[r].execution
    requires Terminal(row.status) ==> Terminal(runs[r].status)
    ensures Staffed(runs[r := row], delegations, cut)
  {
    ActiveSurvives(runs, delegations, runs[r := row], cut);
  }

  /** Any run is cancelled. */
  lemma DelegationsCancel(runs: Runs, delegations: map<DelegationId, Delegation>, r: RunId, row: Run)
    requires Delegations(runs, delegations) && r in runs && row.execution == runs[r].execution
    requires row.status.Cancelled? && row.delegation.None?
    ensures Delegations(runs[r := row], delegations)
  {
    var runs' := runs[r := row];
    forall d | d in delegations ensures Linked(runs', delegations[d]) && ParentWaits(runs', d, delegations[d]) {
      assert Linked(runs, delegations[d]) && ParentWaits(runs, d, delegations[d]);
    }
    forall d, x | d in delegations && x in runs' ensures OpenChildIsDispatched(delegations, d, runs'[x]) {
      assert OpenChildIsDispatched(delegations, d, runs[x]);
    }
  }

  /** A fresh attempt joins the table. */
  lemma DelegationsAdd(runs: Runs, delegations: map<DelegationId, Delegation>, r: RunId, row: Run)
    requires Delegations(runs, delegations) && r !in runs && row.delegation.None?
    requires forall d :: d in delegations && delegations[d].child == Some(row.execution) ==>
             delegations[d].status.Dispatched?
    ensures Delegations(runs[r := row], delegations)
  {
    var runs' := runs[r := row];
    forall d | d in delegations ensures Linked(runs', delegations[d]) && ParentWaits(runs', d, delegations[d]) {
      assert Linked(runs, delegations[d]) && ParentWaits(runs, d, delegations[d]);
    }
    forall d, x | d in delegations && x in runs' ensures OpenChildIsDispatched(delegations, d, runs'[x]) {
      if x != r {
        assert OpenChildIsDispatched(delegations, d, runs[x]);
      }
    }
  }

  lemma StaffedAdd(runs: Runs, delegations: map<DelegationId, Delegation>, r: RunId, row: Run, cut: iset<RunId>)
    requires Staffed(runs, delegations, cut) && r !in runs
    ensures Staffed(runs[r := row], delegations, cut)
  {
    ActiveSurvives(runs, delegations, runs[r := row], cut);
  }

  /** A contract row without a child. */
  lemma DelegationsContract(runs: Runs, delegations: map<DelegationId, Delegation>, d: DelegationId, row: Delegation,
                            cut: iset<RunId>)
    requires Delegations(runs, delegations) && d !in delegations && row.parent in runs && row.child.None?
    requires row.status.Requested?
    ensures Delegations(runs, delegations[d := row])
    ensures Staffed(runs, delegations, cut) ==> Staffed(runs, delegations[d := row], cut)
  {
    var delegations' := delegations[d := row];
    forall x | x in delegations' ensures Linked(runs, delegations'[x]) && ParentWaits(runs, x, delegations'[x]) {
      if x != d {
        assert Linked(runs, delegations[x]) && ParentWaits(runs, x, delegations[x]);
      }
    }
    forall x, r | x in delegations' && r in runs ensures OpenChildIsDispatched(delegations', x, runs[r]) {
      if x != d {
        assert OpenChildIsDispatched(delegations, x, runs[r]);
      }
    }
    forall r | r in runs ensures WaitIsDispatched(delegations', r, runs[r]) {
      assert WaitIsDispatched(delegations, r, runs[r]);
    }
  }
}
