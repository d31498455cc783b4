/**
 What every state of the runtime satisfies.

 `Core` holds after every use case.  `Tidy` and `Staffed` add what the cascade of CancelRun provides and CancelTask
 does not: no leftover work items or pending approvals, and no dispatched delegation without an open child, outside the
 executions that were cut off.
 */
module RuntimeInvariants {
  import opened Common
  import opened RuntimeModel

  /** A wait marker is set exactly while the run waits for that kind of thing. */
  ghost predicate Markers(runs: map<RunId, Run>) {
    forall r :: r in runs ==>
      && (runs[r].approval.Some? <==> runs[r].status.WaitingForApproval?)
      && (runs[r].delegation.Some? <==> runs[r].status.WaitingForDelegation?)
  }

  predicate Rooted(runs: map<RunId, Run>, r: RunId)
    requires r in runs
  {
    var e := runs[r].execution;
    e in runs && runs[e].execution == e && runs[e].task == runs[r].task
  }

  ghost predicate OneActive(runs: map<RunId, Run>) {
    forall x, y :: x in runs && Active(runs, y, runs[x].execution) && !Terminal(runs[x].status) ==> x == y
  }

  /** Attempts of an execution share its root and task, and at most one of them is open. */
  ghost predicate Executions(runs: map<RunId, Run>) {
    (forall r :: r in runs ==> Rooted(runs, r)) && OneActive(runs)
  }

  /** The run of a work item is live, or was cancelled with its task; only started runs are leased. */
  predicate ItemFits(item: WorkItem, run: Run) {
    (Live(run.status) || run.status.Cancelled?) && (item.lease.Some? ==> !run.status.Queued?)
  }

  /** No live run lacks a work item. */
  ghost predicate QueueCovers(runs: map<RunId, Run>, queue: map<RunId, WorkItem>) {
    && (forall r :: r in runs && Live(runs[r].status) ==> r in queue)
    && (forall r :: r in queue ==> r in runs && ItemFits(queue[r], runs[r]))
  }

  /** A work item belongs to a live run, unless its execution was cut off. */
  ghost predicate QueueClean(runs: map<RunId, Run>, queue: map<RunId, WorkItem>, cut: iset<RunId>) {
    forall r :: r in queue ==> r in runs && (Live(runs[r].status) || runs[r].execution in cut)
  }

  predicate MarkerPending(runs: map<RunId, Run>, approvals: map<ApprovalId, Approval>, r: RunId)
    requires r in runs
  {
    runs[r].approval.Some? ==>
      var a := runs[r].approval.value;
      a in approvals && approvals[a].run == r && approvals[a].status.Pending?
  }

  /**
   A waiting run's marker is a pending approval of that run; a pending approval is waited for or orphaned by a cancelled
   run.
   */
  ghost predicate ApprovalsCover(runs: map<RunId, Run>, approvals: map<ApprovalId, Approval>) {
    && (forall r :: r in runs ==> MarkerPending(runs, approvals, r))
    && (forall a :: a in approvals ==>
          && approvals[a].run in runs
          && (approvals[a].consumed ==> approvals[a].status.Approved?)
          && (approvals[a].status.Pending? ==>
               runs[approvals[a].run].approval == Some(a) || runs[approvals[a].run].status.Cancelled?))
  }

  /** A pending approval is waited for, unless the execution of its run was cut off. */
  ghost predicate ApprovalsClean(runs: map<RunId, Run>, approvals: map<ApprovalId, Approval>, cut: iset<RunId>) {
    forall a :: a in approvals && approvals[a].status.Pending? ==>
      && approvals[a].run in runs
      && (runs[approvals[a].run].approval == Some(a) || runs[approvals[a].run].execution in cut)
  }

  /** A terminal run has no open step. */
  ghost predicate StepsClosed(runs: map<RunId, Run>, steps: map<StepId, RunStep>) {
    forall s :: s in steps ==>
      steps[s].run in runs && (Terminal(runs[steps[s].run].status) ==> StepTerminal(steps[s].status))
  }

  /** A terminal run has no open tool invocation, and invocations belong to started runs. */
  ghost predicate ToolsClosed(runs: map<RunId, Run>, tools: map<ToolId, Tool>) {
    forall t :: t in tools ==>
      && tools[t].run in runs && !runs[tools[t].run].status.Queued?
      && (Terminal(runs[tools[t].run].status) ==> ToolTerminal(tools[t].status))
  }

  /** One row: its parent exists, and exactly a materialized request has a child, the root of its own execution. */
  predicate Linked(runs: map<RunId, Run>, d: Delegation) {
    && d.parent in runs
    && (d.child.None? <==> d.status.Requested?)
    && (d.child.Some? ==> d.child.value in runs && runs[d.child.value].execution == d.child.value)
  }

  ghost predicate DistinctChildren(delegations: map<DelegationId, Delegation>) {
    forall x, y ::
      x in delegations && y in delegations && delegations[x].child.Some?
      && delegations[x].child == delegations[y].child ==>
        x == y
  }

  predicate WaitIsDispatched(delegations: map<DelegationId, Delegation>, r: RunId, run: Run) {
    run.delegation.Some? ==>
      var d := run.delegation.value;
      d in delegations && delegations[d].parent == r && delegations[d].status.Dispatched?
  }

  predicate OpenChildIsDispatched(delegations: map<DelegationId, Delegation>, d: DelegationId, run: Run)
    requires d in delegations
  {
    delegations[d].child == Some(run.execution) && !Terminal(run.status) ==> delegations[d].status.Dispatched?
  }

  predicate ParentWaits(runs: map<RunId, Run>, d: DelegationId, row: Delegation) {
    row.status.Dispatched? ==>
      WaitsOn(runs, row.parent, d) || (row.parent in runs && runs[row.parent].status.Cancelled?)
  }

  ghost predicate Delegations(runs: map<RunId, Run>, delegations: map<DelegationId, Delegation>) {
    && (forall d :: d in delegations ==> Linked(runs, delegations[d]) && ParentWaits(runs, d, delegations[d]))
    && DistinctChildren(delegations)
    && (forall r :: r in runs ==> WaitIsDispatched(delegations, r, runs[r]))
    && (forall d, r :: d in delegations && r in runs ==> OpenChildIsDispatched(delegations, d, runs[r]))
  }

  ghost predicate HasActive(runs: map<RunId, Run>, execution: RunId) {
    exists r :: Active(runs, r, execution)
  }

  /** A dispatched delegation has an open attempt working for it, unless its child's execution was cut off. */
  ghost predicate Staffed(runs: map<RunId, Run>, delegations: map<DelegationId, Delegation>, cut: iset<RunId>) {
    forall d :: d in delegations && delegations[d].status.Dispatched? && delegations[d].child.Some? ==>
      delegations[d].child.value in cut || HasActive(runs, delegations[d].child.value)
  }

  ghost predicate Core(db: Db) {
    && Markers(db.runs)
    && Executions(db.runs)
    && QueueCovers(db.runs, db.queue)
    && ApprovalsCover(db.runs, db.approvals)
    && StepsClosed(db.runs, db.steps)
    && ToolsClosed(db.runs, db.tools)
    && Delegations(db.runs, db.delegations)
  }

  /** No work item or pending approval of a run that cannot use it, outside the cut. */
  ghost predicate Tidy(db: Db, cut: iset<RunId>) {
    QueueClean(db.runs, db.queue, cut) && ApprovalsClean(db.runs, db.approvals, cut)
  }

  /** What is claimed beside the core: the executions whose rows may be left over, and those that may lack a worker. */
  datatype Scope = Scope(rows: iset<RunId>, cut: iset<RunId>)

  predicate AnyRun(e: RunId) {
    true
  }

  /** Nothing beside the core. */
  ghost function CoreOnly(): Scope {
    var all := iset e: RunId | AnyRun(e);
    Scope(all, all)
  }

  ghost predicate Inv(db: Db, scope: Scope) {
    Core(db) && Tidy(db, scope.rows) && Staffed(db.runs, db.delegations, scope.cut)
  }

  lemma CoreIsInv(db: Db)
    ensures Core(db) <==> Inv(db, CoreOnly())
  {
  }

  // ---- the latest attempt ----------------------------------------------------------------

  lemma {:induction false} LatestOfSet(runs: map<RunId, Run>, attempts: set<RunId>) returns (m: RunId)
    requires attempts != {} && attempts <= runs.Keys
    ensures m in attempts && forall x :: x in attempts && x != m ==> Later(runs, m, x)
    decreases attempts
  {
    var c :| c in attempts;
    var rest := attempts - {c};
    m := c;
    if rest != {} {
      var n := LatestOfSet(runs, rest);
      assert forall x :: x in attempts ==> x == c || x in rest;
      if Later(runs, n, c) {
        m := n;
      }
    } else {
      assert attempts == {c};
    }
  }

  lemma LatestExists(runs: map<RunId, Run>, r: RunId)
    requires r in runs
    ensures var latest := Latest(runs, runs[r].execution);
            latest.Some? && IsLatest(runs, runs[r].execution, latest.value)
  {
    var e := runs[r].execution;
    var attempts := set x | x in runs && runs[x].execution == e;
    assert r in attempts;
    var m := LatestOfSet(runs, attempts);
    assert IsLatest(runs, e, m);
  }

  lemma LatestUnique(runs: map<RunId, Run>, execution: RunId, x: RunId, y: RunId)
    requires IsLatest(runs, execution, x) && IsLatest(runs, execution, y)
    ensures x == y
  {
  }

  /** Under `Linked` and distinct children, the incoming delegation is the one whose child roots the execution. */
  lemma IncomingIs(db: Db, d: DelegationId, execution: RunId)
    requires Delegations(db.runs, db.delegations)
    requires d in db.delegations && db.delegations[d].child == Some(execution)
    ensures IncomingDelegation(db, execution) == Some(d)
  {
    assert DelegatesTo(db, d, execution);
    var i := IncomingDelegation(db, execution).value;
    assert DelegatesTo(db, i, execution);
    assert Linked(db.runs, db.delegations[i]);
  }

  lemma IncomingSome(db: Db, execution: RunId)
    requires Delegations(db.runs, db.delegations)
    ensures var i := IncomingDelegation(db, execution);
            && (i.Some? ==> i.value in db.delegations && db.delegations[i.value].child == Some(execution))
            && (i.None? ==> forall d :: d in db.delegations ==> db.delegations[d].child != Some(execution))
  {
    var i := IncomingDelegation(db, execution);
    if i.Some? {
      assert DelegatesTo(db, i.value, execution);
      assert Linked(db.runs, db.delegations[i.value]);
    } else {
      forall d | d in db.delegations ensures db.delegations[d].child != Some(execution) {
        assert !DelegatesTo(db, d, execution);
        assert Linked(db.runs, db.delegations[d]);
      }
    }
  }
}
