/** Use cases that end a run or move a delegation keep both invariants. */
module RuntimeEndings {
  import opened Common
  import opened RetryPolicy
  import opened RuntimeModel
  import opened RuntimeInvariants
  import opened RuntimeFrames
  import opened RuntimeKeeps

  // ---- between the end of an attempt and the settlement of its delegation ----------------

  /** The invariant, except that the delegation of the execution that has just ended lacks its worker. */
  ghost predicate InvBut(db: Db, scope: Scope, execution: RunId) {
    && Core(db)
    && !HasActive(db.runs, execution)
    && Tidy(db, scope.rows)
    && Staffed(db.runs, db.delegations, scope.cut + iset{execution})
  }

  lemma NoneActive(runs: Runs, r: RunId, row: Run)
    requires Executions(runs) && r in runs && !Terminal(runs[r].status)
    requires SameAttempt(runs[r], row) && Terminal(row.status)
    ensures !HasActive(runs[r := row], row.execution)
  {
    var runs' := runs[r := row];
    forall x ensures !Active(runs', x, row.execution) {
      if x != r {
        assert !Active(runs, x, runs[r].execution);
      }
    }
  }

  lemma StaffedButUpdate(runs: Runs, delegations: map<DelegationId, Delegation>, r: RunId, row: Run, cut: iset<RunId>)
    requires Staffed(runs, delegations, cut) && r in runs && row.execution == runs[r].execution
    ensures Staffed(runs[r := row], delegations, cut + iset{row.execution})
  {
    var cut' := cut + iset{row.execution};
    forall d | d in delegations && delegations[d].status.Dispatched? && delegations[d].child.Some?
      && delegations[d].child.value !in cut'
      ensures HasActive(runs[r := row], delegations[d].child.value)
    {
      var a :| Active(runs, a, delegations[d].child.value);
      assert Active(runs[r := row], a, delegations[d].child.value);
    }
  }

  // ---- an attempt ends -------------------------------------------------------------------

  /** A running attempt without open steps and tools succeeds or fails. */
  lemma EndRunKeeps(db: Db, scope: Scope, r: RunId, s: RunStatus)
    requires Inv(db, scope) && r in db.runs && db.runs[r].status.Running? && (s.Succeeded? || s.Failed?)
    requires forall x :: x in db.steps && db.steps[x].run == r ==> StepTerminal(db.steps[x].status)
    requires forall x :: x in db.tools && db.tools[x].run == r ==> ToolTerminal(db.tools[x].status)
    ensures InvBut(EndRun(db, r, s), scope, db.runs[r].execution)
  {
    var row := db.runs[r].(status := s);
    MarkersUpdate(db.runs, r, row);
    ExecutionsUpdate(db.runs, r, row);
    QueueUpdate(db.runs, db.queue, r, row, db.queue - {r}, scope.rows);
    ApprovalsSame(db.runs, db.approvals, r, row, scope.rows);
    StepsUpdate(db.runs, db.steps, r, row);
    ToolsUpdate(db.runs, db.tools, r, row);
    DelegationsUpdate(db.runs, db.delegations, r, row);
    NoneActive(db.runs, r, row);
    StaffedButUpdate(db.runs, db.delegations, r, row, scope.cut);
  }

  lemma CancelChildrenKeeps(db: Db, scope: Scope, r: RunId)
    requires Inv(db, scope)
    ensures Inv(CancelChildren(db, r), scope)
    ensures var db' := CancelChildren(db, r);
            && (forall x :: x in db'.steps && db'.steps[x].run == r ==> StepTerminal(db'.steps[x].status))
            && (forall x :: x in db'.tools && db'.tools[x].run == r ==> ToolTerminal(db'.tools[x].status))
  {
    StepsCancelled(db.runs, db.steps, r);
    ToolsCancelled(db.runs, db.tools, db.steps, r);
  }

  lemma CancelRowKeeps(db: Db, scope: Scope, r: RunId)
    requires Inv(db, scope) && r in db.runs && !Terminal(db.runs[r].status)
    requires forall x :: x in db.steps && db.steps[x].run == r ==> StepTerminal(db.steps[x].status)
    requires forall x :: x in db.tools && db.tools[x].run == r ==> ToolTerminal(db.tools[x].status)
    ensures InvBut(CancelRow(db, r).(queue := db.queue - {r}, approvals := WithdrawPending(db.approvals, r)), scope,
            db.runs[r].execution)
  {
    var row := db.runs[r].(status := Cancelled, approval := None, delegation := None);
    MarkersUpdate(db.runs, r, row);
    ExecutionsUpdate(db.runs, r, row);
    QueueUpdate(db.runs, db.queue, r, row, db.queue - {r}, scope.rows);
    ApprovalsWithdraw(db.runs, db.approvals, r, row, scope.rows);
    StepsUpdate(db.runs, db.steps, r, row);
    ToolsUpdate(db.runs, db.tools, r, row);
    DelegationsCancel(db.runs, db.delegations, r, row);
    NoneActive(db.runs, r, row);
    StaffedButUpdate(db.runs, db.delegations, r, row, scope.cut);
  }

  lemma CancelOnlyKeeps(db: Db, scope: Scope, r: RunId)
    requires Inv(db, scope) && r in db.runs && !Terminal(db.runs[r].status)
    ensures InvBut(CancelOnly(db, r), scope, db.runs[r].execution)
  {
    CancelChildrenKeeps(db, scope, r);
    CancelRowKeeps(CancelChildren(db, r), scope, r);
  }

  // ---- its delegation settles ------------------------------------------------------------

  lemma DelegationsSettle(runs: Runs, delegations: map<DelegationId, Delegation>, d: DelegationId, s: DelegationStatus)
    requires Markers(runs) && Delegations(runs, delegations) && d in delegations && delegations[d].status.Dispatched?
    requires Settled(s)
    requires delegations[d].child.Some? ==> !HasActive(runs, delegations[d].child.value)
    ensures Delegations(Woken(runs, delegations[d].parent, d), delegations[d := delegations[d].(status := s)])
  {
    var p := delegations[d].parent;
    var runs', delegations' := Woken(runs, p, d), delegations[d := delegations[d].(status := s)];
    forall x | x in delegations' ensures Linked(runs', delegations'[x]) && ParentWaits(runs', x, delegations'[x]) {
      assert Linked(runs, delegations[x]) && ParentWaits(runs, x, delegations[x]);
    }
    forall r | r in runs' ensures WaitIsDispatched(delegations', r, runs'[r]) {
      assert WaitIsDispatched(delegations, r, runs[r]);
      assert ParentWaits(runs, d, delegations[d]);
    }
    forall x, r | x in delegations' && r in runs' ensures OpenChildIsDispatched(delegations', x, runs'[r]) {
      assert OpenChildIsDispatched(delegations, x, runs[r]);
      assert delegations[d].child.Some? ==> !Active(runs, r, delegations[d].child.value);
    }
  }

  lemma StaffedSettle(runs: Runs, delegations: map<DelegationId, Delegation>, d: DelegationId, s: DelegationStatus,
                      execution: RunId, cut: iset<RunId>)
    requires DistinctChildren(delegations) && Staffed(runs, delegations, cut + iset{execution})
    requires d in delegations && delegations[d].child == Some(execution) && Settled(s)
    ensures Staffed(Woken(runs, delegations[d].parent, d), delegations[d := delegations[d].(status := s)], cut)
  {
    var runs', delegations' := Woken(runs, delegations[d].parent, d), delegations[d := delegations[d].(status := s)];
    forall x | x in delegations' && delegations'[x].status.Dispatched? && delegations'[x].child.Some?
      && delegations'[x].child.value !in cut
      ensures HasActive(runs', delegations'[x].child.value)
    {
      assert delegations[x].child.value != execution;
      var a :| Active(runs, a, delegations[x].child.value);
      assert Active(runs', a, delegations[x].child.value);
    }
  }

  /** The parent, if it still waits, goes back to RUNNING with a work item. */
  lemma WakeKeeps(db: Db, scope: Scope, p: RunId, d: DelegationId, delegations': map<DelegationId, Delegation>,
                  now: Time)
    requires Core(db) && WaitsOn(db.runs, p, d)
    requires Tidy(db, scope.rows)
    requires Delegations(Woken(db.runs, p, d), delegations')
    requires Staffed(Woken(db.runs, p, d), delegations', scope.cut)
    ensures Inv(db.(delegations := delegations', runs := Woken(db.runs, p, d), queue := Enqueue(db.queue, p, now)),
            scope)
  {
    var row := db.runs[p].(status := Running, delegation := None);
    MarkersUpdate(db.runs, p, row);
    ExecutionsUpdate(db.runs, p, row);
    QueueUpdate(db.runs, db.queue, p, row, Enqueue(db.queue, p, now), scope.rows);
    ApprovalsSame(db.runs, db.approvals, p, row, scope.rows);
    StepsUpdate(db.runs, db.steps, p, row);
    ToolsUpdate(db.runs, db.tools, p, row);
  }

  lemma NobodyWakes(db: Db, scope: Scope, delegations': map<DelegationId, Delegation>)
    requires Core(db) && Delegations(db.runs, delegations')
    requires Tidy(db, scope.rows) && Staffed(db.runs, delegations', scope.cut)
    ensures Inv(db.(delegations := delegations'), scope)
  {
  }

  lemma SettleFrames(db: Db, scope: Scope, d: DelegationId, s: DelegationStatus, execution: RunId)
    requires InvBut(db, scope, execution) && d in db.delegations && db.delegations[d].status.Dispatched?
    requires db.delegations[d].child == Some(execution) && Settled(s)
    ensures var runs', delegations' :=
            Woken(db.runs, db.delegations[d].parent, d), db.delegations[d := db.delegations[d].(status := s)];
            Delegations(runs', delegations') && Staffed(runs', delegations', scope.cut)
  {
    DelegationsSettle(db.runs, db.delegations, d, s);
    StaffedSettle(db.runs, db.delegations, d, s, execution, scope.cut);
  }

  lemma SettleKeeps(db: Db, scope: Scope, d: DelegationId, s: DelegationStatus, execution: RunId, now: Time)
    requires InvBut(db, scope, execution) && d in db.delegations && db.delegations[d].status.Dispatched?
    requires db.delegations[d].child == Some(execution) && Settled(s)
    ensures Inv(Settle(db, d, s, now), scope)
  {
    SettleFrames(db, scope, d, s, execution);
    var p, delegations' := db.delegations[d].parent, db.delegations[d := db.delegations[d].(status := s)];
    if WaitsOn(db.runs, p, d) {
      WakeKeeps(db, scope, p, d, delegations', now);
    } else {
      NobodyWakes(db, scope, delegations');
    }
  }

  /** What reconciliation does once no attempt of the execution is open. */
  lemma ReconcileIs(db: Db, r: RunId, now: Time)
    requires Delegations(db.runs, db.delegations) && r in db.runs && !HasActive(db.runs, db.runs[r].execution)
    ensures var execution := db.runs[r].execution;
            var incoming := IncomingDelegation(db, execution);
            var latest := Latest(db.runs, execution);
            && latest.Some? && IsLatest(db.runs, execution, latest.value) && Terminal(db.runs[latest.value].status)
            && (incoming.None? ==> forall d :: d in db.delegations ==> db.delegations[d].child != Some(execution))
            && (incoming.Some? ==>
                 incoming.value in db.delegations && db.delegations[incoming.value].child == Some(execution))
            && Reconcile(db, execution, now) ==
                 if incoming.Some? && db.delegations[incoming.value].status.Dispatched?
                 then Settle(db, incoming.value, SettledAs(db.runs[latest.value].status), now) else db
  {
    var execution := db.runs[r].execution;
    LatestExists(db.runs, r);
    IncomingSome(db, execution);
    assert !Active(db.runs, Latest(db.runs, execution).value, execution);
  }

  lemma ReconcileKeeps(db: Db, scope: Scope, r: RunId, now: Time)
    requires r in db.runs && InvBut(db, scope, db.runs[r].execution)
    ensures Inv(Reconcile(db, db.runs[r].execution, now), scope)
  {
    var execution := db.runs[r].execution;
    ReconcileIs(db, r, now);
    var incoming := IncomingDelegation(db, execution);
    if incoming.Some? && db.delegations[incoming.value].status.Dispatched? {
      SettleKeeps(db, scope, incoming.value, SettledAs(db.runs[Latest(db.runs, execution).value].status), execution,
        now);
    } else {
      NothingToSettle(db.runs, db.delegations, incoming, execution, scope.cut);
    }
  }

  lemma NothingToSettle(runs: Runs, delegations: map<DelegationId, Delegation>, incoming: Option<DelegationId>,
                        execution: RunId, cut: iset<RunId>)
    requires Staffed(runs, delegations, cut + iset{execution}) && DistinctChildren(delegations)
    requires incoming.None? ==> forall d :: d in delegations ==> delegations[d].child != Some(execution)
    requires incoming.Some? ==> incoming.value in delegations && delegations[incoming.value].child == Some(execution)
    requires incoming.Some? ==> !delegations[incoming.value].status.Dispatched?
    ensures Staffed(runs, delegations, cut)
  {
  }

  // ---- use cases -------------------------------------------------------------------------

  lemma CompleteRunKeeps(db: Db, scope: Scope, r: RunId, now: Time)
    requires Inv(db, scope)
    ensures Inv(After(db, CompleteRun(db, r, now)), scope)
  {
    if r in db.runs && db.runs[r].status.Running? && CompleteRun(db, r, now).Commit? {
      EndRunKeeps(db, scope, r, Succeeded);
      ReconcileKeeps(EndRun(db, r, Succeeded), scope, r, now);
    }
  }

  lemma FailKeeps(db: Db, scope: Scope, r: RunId)
    requires Inv(db, scope) && r in db.runs && db.runs[r].status.Running?
    ensures InvBut(EndRun(CancelChildren(db, r), r, Failed), scope, db.runs[r].execution)
  {
    CancelChildrenKeeps(db, scope, r);
    EndRunKeeps(CancelChildren(db, r), scope, r, Failed);
  }

  /** No further attempt: fail and settle. */
  lemma FailForGoodKeeps(db: Db, scope: Scope, r: RunId, now: Time)
    requires Inv(db, scope) && r in db.runs && db.runs[r].status.Running?
    ensures Inv(Reconcile(EndRun(CancelChildren(db, r), r, Failed), db.runs[r].execution, now), scope)
  {
    FailKeeps(db, scope, r);
    ReconcileKeeps(EndRun(CancelChildren(db, r), r, Failed), scope, r, now);
  }

  lemma FailRunKeeps(db: Db, scope: Scope, r: RunId, now: Time)
    requires Inv(db, scope)
    ensures Inv(After(db, FailRun(db, r, now)), scope)
  {
    if r in db.runs && db.runs[r].status.Running? {
      FailForGoodKeeps(db, scope, r, now);
    }
  }

  lemma CancelAttemptKeeps(db: Db, scope: Scope, r: RunId, now: Time)
    requires Inv(db, scope) && r in db.runs && !Terminal(db.runs[r].status)
    ensures Inv(Reconcile(CancelOnly(db, r), db.runs[r].execution, now), scope)
  {
    CancelOnlyKeeps(db, scope, r);
    ReconcileKeeps(CancelOnly(db, r), scope, r, now);
  }

  lemma CancelRunKeeps(db: Db, scope: Scope, r: RunId, now: Time)
    requires Inv(db, scope)
    ensures Inv(After(db, CancelRun(db, r, now)), scope)
  {
    if r in db.runs && !db.runs[r].status.Cancelled? {
      if Terminal(db.runs[r].status) {
        LatestExists(db.runs, r);
        var latest := Latest(db.runs, db.runs[r].execution).value;
        if !Terminal(db.runs[latest].status) {
          CancelAttemptKeeps(db, scope, latest, now);
        }
      } else {
        CancelAttemptKeeps(db, scope, r, now);
      }
    }
  }

  lemma ApplySucceededKeeps(db: Db, scope: Scope, r: RunId, c: Claim, now: Time)
    requires Inv(db, scope)
    ensures Inv(After(db, ApplySucceeded(db, r, c, now)), scope)
  {
    if ApplySucceeded(db, r, c, now).Commit? {
      EndRunKeeps(db, scope, r, Succeeded);
      ReconcileKeeps(EndRun(db, r, Succeeded), scope, r, now);
    }
  }

  /** The next attempt takes the place of the one that has just ended. */
  lemma AddRetryKeeps(db: Db, scope: Scope, source: RunId, retry: RunId, now: Time, availableAt: Time)
    requires source in db.runs && retry !in db.runs && InvBut(db, scope, db.runs[source].execution)
    requires forall d :: d in db.delegations && db.delegations[d].child == Some(db.runs[source].execution) ==>
             db.delegations[d].status.Dispatched?
    ensures Inv(AddRetry(db, source, retry, now, availableAt), scope)
  {
    var task, execution := db.runs[source].task, db.runs[source].execution;
    assert Rooted(db.runs, source);
    AddAttemptKeeps(db, Scope(scope.rows, scope.cut + iset{execution}), retry, task, execution, now, availableAt);
    StaffedRetry(db.runs, db.delegations, retry, Run(task, execution, now, Queued, None, None), scope.cut);
  }

  lemma StaffedRetry(runs: Runs, delegations: map<DelegationId, Delegation>, retry: RunId, row: Run, cut: iset<RunId>)
    requires Staffed(runs, delegations, cut + iset{row.execution}) && retry !in runs && !Terminal(row.status)
    ensures Staffed(runs[retry := row], delegations, cut)
  {
    var runs' := runs[retry := row];
    forall d | d in delegations && delegations[d].status.Dispatched? && delegations[d].child.Some?
      && delegations[d].child.value !in cut
      ensures HasActive(runs', delegations[d].child.value)
    {
      if delegations[d].child.value == row.execution {
        assert Active(runs', retry, row.execution);
      } else {
        var a :| Active(runs, a, delegations[d].child.value);
        assert Active(runs', a, delegations[d].child.value);
      }
    }
  }

  /** An attempt that fails was open, so a delegation it worked for was still dispatched. */
  lemma RetryKeeps(db: Db, scope: Scope, r: RunId, retry: RunId, now: Time, availableAt: Time)
    requires Inv(db, scope) && r in db.runs && db.runs[r].status.Running? && retry !in db.runs
    ensures Inv(AddRetry(EndRun(CancelChildren(db, r), r, Failed), r, retry, now, availableAt), scope)
  {
    FailKeeps(db, scope, r);
    forall d | d in db.delegations && db.delegations[d].child == Some(db.runs[r].execution)
      ensures db.delegations[d].status.Dispatched?
    {
      assert OpenChildIsDispatched(db.delegations, d, db.runs[r]);
    }
    AddRetryKeeps(EndRun(CancelChildren(db, r), r, Failed), scope, r, retry, now, availableAt);
  }

  lemma ApplyFailedShape(db: Db, policy: Policy, r: RunId, c: Claim, retryable: bool, retry: RunId, now: Time)
    requires policy.Valid()
    ensures var t := ApplyFailed(db, policy, r, c, retryable, retry, now);
            t.Commit? ==>
              && r in db.runs && db.runs[r].status.Running?
              && var failed := EndRun(CancelChildren(db, r), r, Failed);
              && var attempt := Ordinal(db.runs, r);
              && if policy.IsRetryAllowed(attempt, retryable)
                 then retry !in db.runs
                   && t.db == AddRetry(failed, r, retry, now, now + policy.ComputeDelay(attempt + 1))
                 else t.db == Reconcile(failed, db.runs[r].execution, now)
  {
  }

  lemma ApplyFailedKeeps(db: Db, scope: Scope, policy: Policy, r: RunId, c: Claim, retryable: bool, retry: RunId,
                         now: Time)
    requires Inv(db, scope) && policy.Valid()
    ensures Inv(After(db, ApplyFailed(db, policy, r, c, retryable, retry, now)), scope)
  {
    var t := ApplyFailed(db, policy, r, c, retryable, retry, now);
    ApplyFailedShape(db, policy, r, c, retryable, retry, now);
    if t.Commit? {
      var attempt := Ordinal(db.runs, r);
      if policy.IsRetryAllowed(attempt, retryable) {
        RetryKeeps(db, scope, r, retry, now, now + policy.ComputeDelay(attempt + 1));
      } else {
        FailForGoodKeeps(db, scope, r, now);
      }
    }
  }

  lemma RetryFailedRunKeeps(db: Db, scope: Scope, r: RunId, retry: RunId, now: Time)
    requires Inv(db, scope)
    ensures Inv(After(db, RetryFailedRun(db, r, retry, now)), scope)
  {
    if RetryFailedRun(db, r, retry, now).Commit? {
      var execution := db.runs[r].execution;
      IncomingSome(db, execution);
      forall x ensures !Active(db.runs, x, execution) {
        if x in db.runs && db.runs[x].execution == execution {
          assert Rooted(db.runs, x) && Rooted(db.runs, r);
        }
      }
      AddRetryKeeps(db, scope, r, retry, now, now);
    }
  }

  // ---- dispatch --------------------------------------------------------------------------

  lemma DelegationsDispatch(runs: Runs, delegations: map<DelegationId, Delegation>, d: DelegationId, row: Delegation)
    requires Delegations(runs, delegations) && d !in delegations
    requires row.parent in runs && runs[row.parent].status.Running? && runs[row.parent].delegation.None?
    requires row.status.Dispatched? && row.child.Some? && Active(runs, row.child.value, row.child.value)
    requires forall x :: x in delegations ==> delegations[x].child != row.child
    ensures Delegations(runs[row.parent := runs[row.parent].(status := WaitingForDelegation, delegation := Some(d))],
            delegations[d := row])
  {
    var p := row.parent;
    var runs', delegations' :=
      runs[p := runs[p].(status := WaitingForDelegation, delegation := Some(d))], delegations[d := row];
    forall x | x in delegations' ensures Linked(runs', delegations'[x]) && ParentWaits(runs', x, delegations'[x]) {
      if x != d {
        assert Linked(runs, delegations[x]) && ParentWaits(runs, x, delegations[x]);
      }
    }
    forall r | r in runs' ensures WaitIsDispatched(delegations', r, runs'[r]) {
      assert WaitIsDispatched(delegations, r, runs[r]);
    }
    forall x, r | x in delegations' && r in runs' ensures OpenChildIsDispatched(delegations', x, runs'[r]) {
      if x != d {
        assert OpenChildIsDispatched(delegations, x, runs[r]);
      }
    }
  }

  lemma StaffedDispatch(runs: Runs, delegations: map<DelegationId, Delegation>, d: DelegationId, row: Delegation,
                        cut: iset<RunId>)
    requires Staffed(runs, delegations, cut) && row.parent in runs && !Terminal(runs[row.parent].status)
    requires row.child.Some? && Active(runs, row.child.value, row.child.value)
    ensures Staffed(runs[row.parent := runs[row.parent].(status := WaitingForDelegation, delegation := Some(d))],
            delegations[d := row], cut)
  {
    var p := row.parent;
    var runs', delegations' :=
      runs[p := runs[p].(status := WaitingForDelegation, delegation := Some(d))], delegations[d := row];
    forall x | x in delegations' && delegations'[x].status.Dispatched? && delegations'[x].child.Some?
      && delegations'[x].child.value !in cut
      ensures HasActive(runs', delegations'[x].child.value)
    {
      if x == d {
        assert Active(runs', row.child.value, row.child.value);
      } else {
        var a :| Active(runs, a, delegations[x].child.value);
        assert Active(runs', a, delegations[x].child.value);
      }
    }
  }

  lemma ParkOnChildKeeps(db: Db, scope: Scope, d: DelegationId, row: Delegation)
    requires Inv(db, scope) && d !in db.delegations
    requires row.parent in db.runs && db.runs[row.parent].status.Running?
    requires row.status.Dispatched? && row.child.Some? && Active(db.runs, row.child.value, row.child.value)
    requires forall x :: x in db.delegations ==> db.delegations[x].child != row.child
    ensures Inv(ParkOnChild(db, d, row), scope)
  {
    var p := row.parent;
    var parked := db.runs[p].(status := WaitingForDelegation, delegation := Some(d));
    MarkersUpdate(db.runs, p, parked);
    ExecutionsUpdate(db.runs, p, parked);
    QueueUpdate(db.runs, db.queue, p, parked, db.queue - {p}, scope.rows);
    ApprovalsSame(db.runs, db.approvals, p, parked, scope.rows);
    StepsUpdate(db.runs, db.steps, p, parked);
    ToolsUpdate(db.runs, db.tools, p, parked);
    DelegationsDispatch(db.runs, db.delegations, d, row);
    StaffedDispatch(db.runs, db.delegations, d, row, scope.cut);
  }

  lemma DispatchDelegationKeeps(db: Db, scope: Scope, limits: Limits, parent: RunId, c: Claim, target: AgentId,
                                d: DelegationId, task: TaskId, child: RunId, now: Time)
    requires Inv(db, scope) && limits.Valid()
    ensures Inv(After(db, DispatchDelegation(db, limits, parent, c, target, d, task, child, now)), scope)
  {
    var t := DispatchDelegation(db, limits, parent, c, target, d, task, child, now);
    if t.Commit? {
      NoActiveWhenFresh(db.runs, db.delegations, child);
      var bound := db.(tasks := db.tasks[task := TaskActive], bindings := db.bindings[task := target]);
      AddAttemptKeeps(bound, scope, child, task, child, now, now);
      ParkOnChildKeeps(AddAttempt(bound, child, task, child, now, now), scope, d, t.db.delegations[d]);
    }
  }
}
