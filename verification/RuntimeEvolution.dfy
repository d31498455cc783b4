/**
 What no step of any run undoes: ended attempts, settled delegations, resolved and consumed approvals, ended
 invocations.
 */
module RuntimeEvolution {
  import opened Common
  import opened RuntimeModel
  import opened RuntimeInvariants
  import opened RuntimeFrames
  import opened RuntimeKeeps
  import opened RuntimeProtocol
  import opened ToolExecution

  ghost predicate RunsEvolve(runs: Runs, runs': Runs) {
    forall r :: r in runs ==> r in runs' && SameAttempt(runs[r], runs'[r])
  }

  /** Everything but the status is fixed, and the status moves once, from dispatched to settled. */
  predicate SameRequest(before: Delegation, now: Delegation) {
    && now.parent == before.parent && now.child == before.child
    && now.root == before.root && now.depth == before.depth && now.target == before.target
    && (now.status == before.status || (before.status.Dispatched? && Settled(now.status)))
  }

  ghost predicate DelegationsEvolve(delegations: map<DelegationId, Delegation>,
                                    delegations': map<DelegationId, Delegation>)
  {
    forall d :: d in delegations ==> d in delegations' && SameRequest(delegations[d], delegations'[d])
  }

  /** A resolved approval keeps its verdict, and a consumed one never changes at all. */
  predicate SameApproval(before: Approval, now: Approval) {
    && now.run == before.run && now.step == before.step && now.fingerprint == before.fingerprint
    && (before.status.Pending? || now.status == before.status)
    && (before.consumed ==> now == before)
  }

  ghost predicate ApprovalsEvolve(approvals: map<ApprovalId, Approval>, approvals': map<ApprovalId, Approval>) {
    forall a :: a in approvals ==> a in approvals' && SameApproval(approvals[a], approvals'[a])
  }

  predicate SameTool(before: Tool, now: Tool) {
    && now.run == before.run && now.step == before.step && now.approval == before.approval
    && now.external == before.external
    && (ToolTerminal(before.status) ==> now.status == before.status)
  }

  ghost predicate ToolsEvolve(tools: map<ToolId, Tool>, tools': map<ToolId, Tool>) {
    forall t :: t in tools ==> t in tools' && SameTool(tools[t], tools'[t])
  }

  ghost predicate Evolves(db: Db, db': Db) {
    && RunsEvolve(db.runs, db'.runs)
    && DelegationsEvolve(db.delegations, db'.delegations)
    && ApprovalsEvolve(db.approvals, db'.approvals)
    && ToolsEvolve(db.tools, db'.tools)
  }

  ghost predicate Unspent(approvals: map<ApprovalId, Approval>, approvals': map<ApprovalId, Approval>) {
    forall a :: a in approvals' && approvals'[a].consumed ==> a in approvals && approvals[a].consumed
  }

  /** Rows evolve and no approval is consumed. */
  ghost predicate Follows(db: Db, db': Db) {
    Evolves(db, db') && Unspent(db.approvals, db'.approvals)
  }

  lemma EvolvesChain(x: Db, y: Db, z: Db)
    requires Evolves(x, y) && Evolves(y, z)
    ensures Evolves(x, z)
  {
  }

  lemma FollowsChain(x: Db, y: Db, z: Db)
    requires Follows(x, y) && Follows(y, z)
    ensures Follows(x, z)
  {
  }

  /** A consumed approval is an approved one: what makes withdrawing pending approvals harmless to it. */
  ghost predicate ConsumedApproved(db: Db) {
    forall a :: a in db.approvals && db.approvals[a].consumed ==> db.approvals[a].status.Approved?
  }

  lemma Still(db: Db)
    ensures Follows(db, db)
  {
  }

  lemma RunRowEvolves(runs: Runs, r: RunId, row: Run)
    requires r in runs ==> SameAttempt(runs[r], row)
    ensures RunsEvolve(runs, runs[r := row])
  {
  }

  lemma DelegationRowEvolves(delegations: map<DelegationId, Delegation>, d: DelegationId, row: Delegation)
    requires d in delegations ==> SameRequest(delegations[d], row)
    ensures DelegationsEvolve(delegations, delegations[d := row])
  {
  }

  lemma ApprovalRowEvolves(approvals: map<ApprovalId, Approval>, a: ApprovalId, row: Approval)
    requires a in approvals ==> SameApproval(approvals[a], row)
    ensures ApprovalsEvolve(approvals, approvals[a := row])
    ensures (row.consumed ==> a in approvals && approvals[a].consumed) ==> Unspent(approvals, approvals[a := row])
  {
  }

  lemma ToolRowEvolves(tools: map<ToolId, Tool>, t: ToolId, row: Tool)
    requires t in tools ==> SameTool(tools[t], row)
    ensures ToolsEvolve(tools, tools[t := row])
  {
  }

  lemma SettleEvolves(db: Db, d: DelegationId, s: DelegationStatus, now: Time)
    requires d in db.delegations && db.delegations[d].status.Dispatched? && Settled(s)
    ensures Follows(db, Settle(db, d, s, now))
  {
    Still(db);
    DelegationRowEvolves(db.delegations, d, db.delegations[d].(status := s));
    var p := db.delegations[d].parent;
    if WaitsOn(db.runs, p, d) {
      RunRowEvolves(db.runs, p, db.runs[p].(status := Running, delegation := None));
    }
  }

  lemma ReconcileEvolves(db: Db, execution: RunId, now: Time)
    ensures Follows(db, Reconcile(db, execution, now))
  {
    var d := IncomingDelegation(db, execution);
    if d.Some? {
      assert DelegatesTo(db, d.value, execution);
      var latest := Latest(db.runs, execution);
      if db.delegations[d.value].status.Dispatched? && latest.Some? && Terminal(db.runs[latest.value].status) {
        SettleEvolves(db, d.value, SettledAs(db.runs[latest.value].status), now);
      }
    }
  }

  lemma EndRunEvolves(db: Db, r: RunId, s: RunStatus)
    requires r in db.runs && !Terminal(db.runs[r].status)
    ensures Follows(db, EndRun(db, r, s))
    ensures Follows(db, EndRun(CancelChildren(db, r), r, s))
  {
  }

  lemma CancelOnlyEvolves(db: Db, r: RunId)
    requires ConsumedApproved(db) && r in db.runs && !Terminal(db.runs[r].status)
    ensures Follows(db, CancelOnly(db, r))
  {
  }

  lemma FailEvolves(db: Db, r: RunId, now: Time)
    requires r in db.runs && !Terminal(db.runs[r].status)
    ensures Follows(db, Reconcile(EndRun(CancelChildren(db, r), r, Failed), db.runs[r].execution, now))
  {
    EndRunEvolves(db, r, Failed);
    var failed := EndRun(CancelChildren(db, r), r, Failed);
    ReconcileEvolves(failed, db.runs[r].execution, now);
    FollowsChain(db, failed, Reconcile(failed, db.runs[r].execution, now));
  }

  lemma SucceedEvolves(db: Db, r: RunId, now: Time)
    requires r in db.runs && !Terminal(db.runs[r].status)
    ensures Follows(db, Reconcile(EndRun(db, r, Succeeded), db.runs[r].execution, now))
  {
    EndRunEvolves(db, r, Succeeded);
    var ended := EndRun(db, r, Succeeded);
    ReconcileEvolves(ended, db.runs[r].execution, now);
    FollowsChain(db, ended, Reconcile(ended, db.runs[r].execution, now));
  }

  lemma CancelEvolves(db: Db, r: RunId, now: Time)
    requires ConsumedApproved(db) && r in db.runs && !Terminal(db.runs[r].status)
    ensures Follows(db, Reconcile(CancelOnly(db, r), db.runs[r].execution, now))
  {
    CancelOnlyEvolves(db, r);
    ReconcileEvolves(CancelOnly(db, r), db.runs[r].execution, now);
    FollowsChain(db, CancelOnly(db, r), Reconcile(CancelOnly(db, r), db.runs[r].execution, now));
  }

  lemma CancelRunEvolves(db: Db, r: RunId, now: Time)
    requires ConsumedApproved(db)
    ensures Follows(db, After(db, CancelRun(db, r, now)))
  {
    if r in db.runs {
      if !Terminal(db.runs[r].status) {
        CancelEvolves(db, r, now);
      } else {
        LatestExists(db.runs, r);
        var latest := Latest(db.runs, db.runs[r].execution).value;
        if !Terminal(db.runs[latest].status) {
          CancelEvolves(db, latest, now);
        }
      }
    }
  }

  lemma ApplyFailedEvolves(cfg: Config, db: Db, r: RunId, c: Claim, retryable: bool, retry: RunId, now: Time)
    requires cfg.Valid()
    ensures Follows(db, After(db, ApplyFailed(db, cfg.policy, r, c, retryable, retry, now)))
  {
    var t := ApplyFailed(db, cfg.policy, r, c, retryable, retry, now);
    if t.Commit? {
      EndRunEvolves(db, r, Failed);
      if !cfg.policy.IsRetryAllowed(Ordinal(db.runs, r), retryable) {
        FailEvolves(db, r, now);
      }
    }
  }

  lemma AddAttemptEvolves(db: Db, r: RunId, task: TaskId, execution: RunId, now: Time, availableAt: Time)
    requires r !in db.runs
    ensures Follows(db, AddAttempt(db, r, task, execution, now, availableAt))
  {
    RunRowEvolves(db.runs, r, Run(task, execution, now, Queued, None, None));
  }

  lemma StatusEvolves(db: Db, r: RunId, s: RunStatus)
    requires r in db.runs && !Terminal(db.runs[r].status)
    ensures Follows(db, SetStatus(db, r, s))
  {
    RunRowEvolves(db.runs, r, db.runs[r].(status := s));
  }

  /** Tables the relation does not mention may change freely. */
  lemma OthersEvolve(db: Db, db': Db)
    requires db'.runs == db.runs && db'.delegations == db.delegations && db'.approvals == db.approvals
    requires db'.tools == db.tools
    ensures Follows(db, db')
  {
  }

  lemma StartRunEvolves(db: Db, task: TaskId, r: RunId, now: Time)
    ensures Follows(db, After(db, StartRun(db, task, r, now)))
  {
    Still(db);
    if r !in db.runs {
      AddAttemptEvolves(db, r, task, r, now, now);
    }
  }

  lemma StartQueuedEvolves(db: Db, r: RunId)
    ensures Follows(db, After(db, StartQueuedRun(db, r)))
  {
    Still(db);
    if r in db.runs && Live(db.runs[r].status) {
      StatusEvolves(db, r, Running);
    }
  }

  lemma ClaimEvolves(db: Db, r: RunId, worker: string, token: string, now: Time, expires: Time)
    ensures Follows(db, After(db, ClaimRun(db, r, worker, token, now, expires)))
  {
    Still(db);
    if r in db.runs && Live(db.runs[r].status) {
      StatusEvolves(db, r, Running);
    }
  }

  lemma QueueTxnEvolves(db: Db, q: QueueRequest)
    ensures Follows(db, QueueTxn(db, q))
  {
    match q
    case DoStartRun(task, r, now) => StartRunEvolves(db, task, r, now);
    case DoStartQueued(r) => StartQueuedEvolves(db, r);
    case DoClaim(r, worker, token, now, expires) => ClaimEvolves(db, r, worker, token, now, expires);
    case DoRenew(r, c, now, expires) => OthersEvolve(db, After(db, RenewLease(db, r, c, now, expires)));
    case DoGiveBack(r, c, now, at) => OthersEvolve(db, After(db, GiveBack(db, r, c, now, at)));
    case DoRecover(r, now) => OthersEvolve(db, After(db, RecoverLease(db, r, now)));
  }

  lemma TaskRunsEvolve(db: Db, task: TaskId)
    ensures RunsEvolve(db.runs, CancelRunsOfTask(db.runs, task))
    ensures ToolsEvolve(db.tools, CancelToolsOfTask(db.runs, db.steps, db.tools, task))
  {
  }

  lemma CancelTaskEvolves(db: Db, task: TaskId)
    ensures Follows(db, After(db, CancelTask(db, task)))
  {
    TaskRunsEvolve(db, task);
  }

  lemma RetryFailedRunEvolves(db: Db, r: RunId, retry: RunId, now: Time)
    ensures Follows(db, After(db, RetryFailedRun(db, r, retry, now)))
  {
    if r in db.runs && retry !in db.runs {
      AddAttemptEvolves(db, retry, db.runs[r].task, db.runs[r].execution, now, now);
    }
  }

  lemma EndTxnEvolves(cfg: Config, db: Db, e: EndRequest)
    requires cfg.Valid() && ConsumedApproved(db)
    ensures Follows(db, EndTxn(cfg, db, e))
  {
    match e
    case DoComplete(r, now) => CompleteEvolves(db, r, now);
    case DoFail(r, now) => FailRunEvolves(db, r, now);
    case DoCancel(r, now) => CancelRunEvolves(db, r, now);
    case DoRetry(r, retry, now) => RetryFailedRunEvolves(db, r, retry, now);
    case DoSucceeded(r, c, now) => ApplySucceededEvolves(db, r, c, now);
    case DoFailed(r, c, retryable, retry, now) => ApplyFailedEvolves(cfg, db, r, c, retryable, retry, now);
    case DoCancelTask(task) => CancelTaskEvolves(db, task);
  }

  lemma CompleteEvolves(db: Db, r: RunId, now: Time)
    ensures Follows(db, After(db, CompleteRun(db, r, now)))
  {
    if r in db.runs && db.runs[r].status.Running? {
      SucceedEvolves(db, r, now);
    }
  }

  lemma FailRunEvolves(db: Db, r: RunId, now: Time)
    ensures Follows(db, After(db, FailRun(db, r, now)))
  {
    if r in db.runs && db.runs[r].status.Running? {
      FailEvolves(db, r, now);
    }
  }

  lemma ApplySucceededEvolves(db: Db, r: RunId, c: Claim, now: Time)
    ensures Follows(db, After(db, ApplySucceeded(db, r, c, now)))
  {
    if r in db.runs && db.runs[r].status.Running? {
      SucceedEvolves(db, r, now);
    }
  }

  lemma ParkEvolves(db: Db, r: RunId, a: ApprovalId, approval: Approval)
    requires r in db.runs && !Terminal(db.runs[r].status) && a !in db.approvals && !approval.consumed
    ensures Follows(db, ParkRun(db, r, a, approval))
  {
    Still(db);
    RunRowEvolves(db.runs, r, db.runs[r].(status := WaitingForApproval, approval := Some(a)));
    ApprovalRowEvolves(db.approvals, a, approval);
  }

  lemma RequestApprovalEvolves(db: Db, r: RunId, claim: Option<Claim>, a: ApprovalId, step: Option<StepId>,
                               fingerprint: Option<Fingerprint>, expiresAt: Option<Time>, now: Time)
    ensures Follows(db, After(db, RequestApproval(db, r, claim, a, step, fingerprint, expiresAt, now)))
  {
    Still(db);
    if RequestApproval(db, r, claim, a, step, fingerprint, expiresAt, now).Commit? {
      ParkEvolves(ParkStep(db, step, a), r, a, Approval(r, step, Pending, fingerprint, expiresAt, false));
    }
  }

  lemma ResolveEvolves(db: Db, a: ApprovalId, approval: Approval, now: Time)
    requires a in db.approvals && SameApproval(db.approvals[a], approval)
    requires approval.consumed == db.approvals[a].consumed
    ensures Follows(db, Resolve(db, a, approval, now))
  {
    Still(db);
    ApprovalRowEvolves(db.approvals, a, approval);
    if WaitsForApproval(db.runs, approval.run, a) {
      RunRowEvolves(db.runs, approval.run, db.runs[approval.run].(status := Running, approval := None));
    }
  }

  lemma ResolveApprovalEvolves(db: Db, a: ApprovalId, target: ApprovalStatus, now: Time)
    requires ConsumedApproved(db) && !target.Pending?
    ensures Follows(db, After(db, ResolveApproval(db, a, target, now)))
  {
    Still(db);
    ResolveApprovalShape(db, a, target, now);
    if After(db, ResolveApproval(db, a, target, now)) != db {
      ResolveEvolves(ResumeStep(db, a), a, db.approvals[a].(status := target), now);
    }
  }

  lemma ContractEvolves(db: Db, d: DelegationId, parent: RunId, target: AgentId)
    ensures Follows(db, After(db, CreateDelegation(db, d, parent, target)))
  {
    if d !in db.delegations {
      DelegationRowEvolves(db.delegations, d, Delegation(parent, None, Requested, d, 1, target));
    }
  }

  lemma DispatchEvolves(db: Db, limits: Limits, parent: RunId, c: Claim, target: AgentId,
                        d: DelegationId, task: TaskId, child: RunId, now: Time)
    requires limits.Valid()
    ensures Follows(db, After(db, DispatchDelegation(db, limits, parent, c, target, d, task, child, now)))
  {
    var t := DispatchDelegation(db, limits, parent, c, target, d, task, child, now);
    if t.Commit? {
      DelegationRowEvolves(db.delegations, d, t.db.delegations[d]);
      var added := db.runs[child := Run(task, child, now, Queued, None, None)];
      assert t.db.runs == added[parent := added[parent].(status := WaitingForDelegation, delegation := Some(d))];
    }
  }

  lemma WaitTxnEvolves(cfg: Config, db: Db, w: WaitRequest)
    requires cfg.Valid() && ConsumedApproved(db)
    ensures Follows(db, WaitTxn(cfg, db, w))
  {
    match w
    case DoPark(r, fence, a, step, fingerprint, expiresAt, now) =>
      RequestApprovalEvolves(db, r, fence, a, step, fingerprint, expiresAt, now);
    case DoResolve(a, verdict, now) => ResolveApprovalEvolves(db, a, verdict, now);
    case DoContract(d, parent, target) => ContractEvolves(db, d, parent, target);
    case DoDispatch(parent, c, target, d, task, child, now) =>
      DispatchEvolves(db, cfg.limits, parent, c, target, d, task, child, now);
  }

  lemma EndStepEvolves(db: Db, s: StepId, target: StepStatus)
    requires StepTerminal(target)
    ensures Follows(db, After(db, EndStep(db, s, target)))
  {
    assert ToolsEvolve(db.tools, CancelToolsOnStep(db.tools, s));
  }

  lemma RequestToolEvolves(db: Db, r: RunId, t: ToolId, step: Option<StepId>, approval: Option<ApprovalId>)
    ensures Follows(db, After(db, RequestTool(db, r, t, step, approval)))
  {
    Still(db);
    if t !in db.tools {
      ToolRowEvolves(db.tools, t, Tool(r, step, approval, ToolRequested, false));
    }
  }

  lemma MoveToolEvolves(db: Db, t: ToolId, target: ToolStatus)
    requires !target.ToolRequested?
    ensures Follows(db, After(db, MoveTool(db, t, target)))
  {
    Still(db);
    if t in db.tools && !ToolTerminal(db.tools[t].status) {
      ToolRowEvolves(db.tools, t, db.tools[t].(status := target));
    }
  }

  lemma WorkTxnEvolves(db: Db, k: WorkRequest)
    ensures Follows(db, WorkTxn(db, k))
  {
    match k
    case DoEndStep(s, end) => EndStepEvolves(db, s, end);
    case DoRequestTool(r, t, step, approval) => RequestToolEvolves(db, r, t, step, approval);
    case DoMoveTool(t, move) => MoveToolEvolves(db, t, move);
    case _ => OthersEvolve(db, WorkTxn(db, k));
  }

  lemma AgentTxnEvolves(db: Db, a: AgentRequest)
    ensures Follows(db, AgentTxn(db, a))
  {
    OthersEvolve(db, AgentTxn(db, a));
  }

  lemma AskEvolves(w: World, action: Action, c: Claim, t: ToolId, evidence: Evidence, grant: ApprovalId, now: Time)
    requires Scanned(w.db, action, evidence, grant)
    ensures var p := Propose(w.db, action, c, t, evidence, grant, now);
            p.Proceed? ==> Evolves(w.db, p.db)
  {
    var p := Propose(w.db, action, c, t, evidence, grant, now);
    if p.Proceed? {
      ToolRowEvolves(w.db.tools, t, Invocation(action, p.approval));
      if action.protected {
        ApprovalRowEvolves(w.db.approvals, grant, w.db.approvals[grant].(consumed := true));
      }
    }
  }

  lemma StoreEvolves(db: Db, action: Action, c: Claim, t: ToolId, succeeded: bool, now: Time)
    ensures Follows(db, After(db, Finish(db, action, c, t, succeeded, now)))
  {
    if Finish(db, action, c, t, succeeded, now).Commit? {
      ToolRowEvolves(db.tools, t, db.tools[t].(status := if succeeded then ToolSucceeded else ToolFailed));
    }
  }

  lemma TransactEvolves(cfg: Config, db: Db, request: Request)
    requires cfg.Valid() && ConsumedApproved(db)
    ensures Follows(db, Transact(cfg, db, request))
  {
    match request
    case OnQueue(q) => QueueTxnEvolves(db, q);
    case OnEnd(e) => EndTxnEvolves(cfg, db, e);
    case OnWait(x) => WaitTxnEvolves(cfg, db, x);
    case OnWork(k) => WorkTxnEvolves(db, k);
    case OnAgent(a) => AgentTxnEvolves(db, a);
  }

  lemma NextEvolves(cfg: Config, w: World, step: Step)
    requires cfg.Valid() && ConsumedApproved(w.db)
    ensures Evolves(w.db, Next(cfg, w, step).db)
  {
    match step
    case Use(request) => TransactEvolves(cfg, w.db, request);
    case Ask(action, c, t, evidence, grant, now) =>
      if Scanned(w.db, action, evidence, grant) {
        AskEvolves(w, action, c, t, evidence, grant, now);
      }
    case Store(t, succeeded, now) =>
      if t in w.flights {
        StoreEvolves(w.db, w.flights[t].action, w.flights[t].claim, t, succeeded, now);
      }
    case _ =>
  }

  /** Whatever happens between two moments of a run, rows only evolve. */
  lemma {:induction false} RunEvolves(cfg: Config, w: World, steps: seq<Step>, i: nat)
    requires cfg.Valid() && Core(w.db) && i <= |steps|
    ensures Evolves(Exec(cfg, w, steps[..i]).db, Exec(cfg, w, steps).db)
    decreases |steps|
  {
    if i == |steps| {
      assert steps[..i] == steps;
    } else {
      var front := steps[..|steps| - 1];
      var before := Exec(cfg, w, front);
      assert front[..i] == steps[..i];
      RunEvolves(cfg, w, front, i);
      RunKeepsCore(cfg, w, front);
      NextEvolves(cfg, before, steps[|steps| - 1]);
      EvolvesChain(Exec(cfg, w, steps[..i]).db, before.db, Exec(cfg, w, steps).db);
    }
  }
}
