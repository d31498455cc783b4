/**
 How a run ended is what happened to it: in every interleaving, an attempt is SUCCEEDED, FAILED or CANCELLED exactly
 when some step completed, failed or cancelled it while the rows allowed that.
 */
module RunOutcomes {
  import opened Common
  import opened RetryPolicy
  import opened RuntimeModel
  import opened RuntimeInvariants
  import opened RuntimeEndings
  import opened RuntimeProtocol
  import opened ToolExecution

  /** The attempt stands ended under this status. */
  predicate EndedAs(runs: map<RunId, Run>, r: RunId, s: RunStatus) {
    r in runs && runs[r].status == s && Terminal(s)
  }

  predicate Runs(db: Db, r: RunId) {
    r in db.runs && db.runs[r].status.Running?
  }

  /** A running attempt with nothing open below it. */
  predicate Finishable(db: Db, r: RunId) {
    && Runs(db, r)
    && (forall x :: x in db.steps && db.steps[x].run == r ==> StepTerminal(db.steps[x].status))
    && (forall x :: x in db.tools && db.tools[x].run == r ==> ToolTerminal(db.tools[x].status))
  }

  /** Cancelling an attempt cancels it while it is open, and the open latest attempt when it already ended otherwise. */
  ghost predicate CancelReaches(db: Db, x: RunId, r: RunId) {
    && x in db.runs && r in db.runs && !Terminal(db.runs[r].status)
    && (x == r
        || ((db.runs[x].status.Succeeded? || db.runs[x].status.Failed?)
            && IsLatest(db.runs, db.runs[x].execution, r)))
  }

  /** A failed attempt that is to be retried needs a free id for the retry. */
  predicate RetryBlocked(cfg: Config, db: Db, r: RunId, retryable: bool, retry: RunId)
    requires r in db.runs
  {
    retryable && Ordinal(db.runs, r) < cfg.policy.maxAttempts && retry in db.runs
  }

  /** The request brings the attempt to an end under this status. */
  ghost predicate Brings(cfg: Config, db: Db, x: EndRequest, r: RunId, s: RunStatus) {
    match x
    case DoComplete(run, _) => s.Succeeded? && run == r && Finishable(db, r)
    case DoSucceeded(run, c, now) => s.Succeeded? && run == r && Finishable(db, r) && ActiveClaim(db.queue, r, c, now)
    case DoFail(run, _) => s.Failed? && run == r && Runs(db, r)
    case DoFailed(run, c, retryable, retry, now) =>
      && s.Failed? && run == r && Runs(db, r) && ActiveClaim(db.queue, r, c, now)
      && !RetryBlocked(cfg, db, r, retryable, retry)
    case DoCancel(run, _) => s.Cancelled? && CancelReaches(db, run, r)
    case DoCancelTask(task) =>
      && s.Cancelled? && task in db.tasks && !db.tasks[task].TaskEnded?
      && r in db.runs && db.runs[r].task == task && !Terminal(db.runs[r].status)
    case DoRetry(_, _, _) => false
  }

  ghost predicate BroughtBy(cfg: Config, db: Db, step: Step, r: RunId, s: RunStatus) {
    step.Use? && step.request.OnEnd? && Brings(cfg, db, step.request.end, r, s)
  }

  // ---- one step --------------------------------------------------------------------------

  /** The end of every attempt is as before. */
  ghost predicate EndsKept(runs: map<RunId, Run>, runs': map<RunId, Run>) {
    forall r, s :: EndedAs(runs', r, s) <==> EndedAs(runs, r, s)
  }

  /** Attempt r ended so, and nothing else did. */
  ghost predicate OneEnds(runs: map<RunId, Run>, runs': map<RunId, Run>, r: RunId, end: RunStatus) {
    && Terminal(end)
    && forall x, s :: EndedAs(runs', x, s) <==> EndedAs(runs, x, s) || (x == r && s == end)
  }

  lemma ReconcileKeepsEnds(db: Db, execution: RunId, now: Time)
    ensures EndsKept(db.runs, Reconcile(db, execution, now).runs)
  {
  }

  lemma RowEnds(runs: map<RunId, Run>, runs': map<RunId, Run>, r: RunId, row: Run)
    requires r in runs && !Terminal(runs[r].status) && Terminal(row.status) && runs' == runs[r := row]
    ensures OneEnds(runs, runs', r, row.status)
  {
  }

  lemma EndThenReconcile(db: Db, ended: Db, r: RunId, row: Run, execution: RunId, now: Time)
    requires r in db.runs && !Terminal(db.runs[r].status) && Terminal(row.status) && ended.runs == db.runs[r := row]
    ensures OneEnds(db.runs, Reconcile(ended, execution, now).runs, r, row.status)
  {
    RowEnds(db.runs, ended.runs, r, row);
    ReconcileKeepsEnds(ended, execution, now);
  }

  lemma NothingOpen(db: Db, r: RunId)
    requires Core(db) && r in db.runs && db.runs[r].status.Running?
    ensures !HasDispatched(db, r) && !HasPendingApproval(db, r)
    ensures Finishable(db, r) <==> !HasOpenStep(db, r) && !HasOpenTool(db, r)
  {
    forall d | d in db.delegations && db.delegations[d].parent == r ensures !db.delegations[d].status.Dispatched? {
      assert ParentWaits(db.runs, d, db.delegations[d]);
    }
  }

  /** What an end request does to the ends of all attempts. */
  ghost predicate EndsBy(cfg: Config, db: Db, db': Db, x: EndRequest) {
    forall r, s :: EndedAs(db'.runs, r, s) <==> EndedAs(db.runs, r, s) || Brings(cfg, db, x, r, s)
  }

  lemma CompleteBrings(cfg: Config, db: Db, r: RunId, now: Time)
    requires Core(db)
    ensures EndsBy(cfg, db, After(db, CompleteRun(db, r, now)), DoComplete(r, now))
  {
    if Runs(db, r) {
      NothingOpen(db, r);
      EndThenReconcile(db, EndRun(db, r, Succeeded), r, db.runs[r].(status := Succeeded), db.runs[r].execution, now);
    }
  }

  lemma SucceededBrings(cfg: Config, db: Db, r: RunId, c: Claim, now: Time)
    requires Core(db)
    ensures EndsBy(cfg, db, After(db, ApplySucceeded(db, r, c, now)), DoSucceeded(r, c, now))
  {
    if Runs(db, r) {
      NothingOpen(db, r);
      EndThenReconcile(db, EndRun(db, r, Succeeded), r, db.runs[r].(status := Succeeded), db.runs[r].execution, now);
    }
  }

  lemma FailBrings(cfg: Config, db: Db, r: RunId, now: Time)
    ensures EndsBy(cfg, db, After(db, FailRun(db, r, now)), DoFail(r, now))
  {
    if Runs(db, r) {
      var ended := EndRun(CancelChildren(db, r), r, Failed);
      EndThenReconcile(db, ended, r, db.runs[r].(status := Failed), db.runs[r].execution, now);
    }
  }

  lemma NewRowKeepsEnds(runs: map<RunId, Run>, r: RunId, row: Run)
    requires r !in runs && !Terminal(row.status)
    ensures EndsKept(runs, runs[r := row])
  {
  }

  lemma OpenRowKeepsEnds(runs: map<RunId, Run>, r: RunId, row: Run)
    requires r in runs && !Terminal(runs[r].status) && !Terminal(row.status)
    ensures EndsKept(runs, runs[r := row])
  {
  }

  lemma FailedEnds(cfg: Config, db: Db, r: RunId, c: Claim, retryable: bool, retry: RunId, now: Time)
    requires cfg.Valid() && Runs(db, r) && ActiveClaim(db.queue, r, c, now)
    requires !RetryBlocked(cfg, db, r, retryable, retry)
    ensures OneEnds(db.runs, After(db, ApplyFailed(db, cfg.policy, r, c, retryable, retry, now)).runs, r, Failed)
  {
    var ended := EndRun(CancelChildren(db, r), r, Failed);
    var row := db.runs[r].(status := Failed);
    assert ended.runs == db.runs[r := row];
    if retryable && Ordinal(db.runs, r) < cfg.policy.maxAttempts {
      RowEnds(db.runs, ended.runs, r, row);
      NewRowKeepsEnds(ended.runs, retry, Run(row.task, row.execution, now, Queued, None, None));
    } else {
      EndThenReconcile(db, ended, r, row, row.execution, now);
    }
  }

  lemma FailedBrings(cfg: Config, db: Db, r: RunId, c: Claim, retryable: bool, retry: RunId, now: Time)
    requires cfg.Valid()
    ensures EndsBy(cfg, db, After(db, ApplyFailed(db, cfg.policy, r, c, retryable, retry, now)),
            DoFailed(r, c, retryable, retry, now))
  {
    if Runs(db, r) && ActiveClaim(db.queue, r, c, now) && !RetryBlocked(cfg, db, r, retryable, retry) {
      FailedEnds(cfg, db, r, c, retryable, retry, now);
    } else {
      assert After(db, ApplyFailed(db, cfg.policy, r, c, retryable, retry, now)) == db;
    }
  }

  lemma CancelEnds(db: Db, x: RunId, execution: RunId, now: Time)
    requires x in db.runs && !Terminal(db.runs[x].status)
    ensures OneEnds(db.runs, Reconcile(CancelOnly(db, x), execution, now).runs, x, Cancelled)
  {
    var row := db.runs[x].(status := Cancelled, approval := None, delegation := None);
    EndThenReconcile(db, CancelOnly(db, x), x, row, execution, now);
  }

  /** The attempt a cancellation reaches, if any. */
  lemma CancelReachesOne(db: Db, r: RunId) returns (x: RunId)
    requires r in db.runs
    ensures forall y :: CancelReaches(db, r, y) ==> y == x
    ensures x in db.runs && (!Terminal(db.runs[r].status) ==> x == r)
    ensures Terminal(db.runs[r].status) ==> Latest(db.runs, db.runs[r].execution) == Some(x)
    ensures CancelReaches(db, r, x) <==> !Terminal(db.runs[x].status) && !db.runs[r].status.Cancelled?
  {
    var e := db.runs[r].execution;
    LatestExists(db.runs, r);
    var latest := Latest(db.runs, e).value;
    x := if Terminal(db.runs[r].status) then latest else r;
    forall y | CancelReaches(db, r, y) ensures y == x {
      if y != r {
        LatestUnique(db.runs, e, y, latest);
      }
    }
  }

  lemma CancelBrings(cfg: Config, db: Db, r: RunId, now: Time)
    ensures EndsBy(cfg, db, After(db, CancelRun(db, r, now)), DoCancel(r, now))
  {
    if r in db.runs {
      var x := CancelReachesOne(db, r);
      if CancelReaches(db, r, x) {
        CancelEnds(db, x, db.runs[r].execution, now);
        assert After(db, CancelRun(db, r, now)) == Reconcile(CancelOnly(db, x), db.runs[r].execution, now);
      } else {
        assert After(db, CancelRun(db, r, now)) == db;
      }
    }
  }

  lemma CancelTaskBrings(cfg: Config, db: Db, task: TaskId)
    ensures EndsBy(cfg, db, After(db, CancelTask(db, task)), DoCancelTask(task))
  {
    var t := CancelTask(db, task);
    if t.Commit? {
      assert t.db.runs == CancelRunsOfTask(db.runs, task);
      TaskEnds(db.runs, task);
    }
  }

  lemma TaskEnds(runs: map<RunId, Run>, task: TaskId)
    ensures forall r, s :: EndedAs(CancelRunsOfTask(runs, task), r, s) <==>
            EndedAs(runs, r, s) || (s.Cancelled? && OpenRunOf(runs, r, task))
  {
  }

  lemma EndRequestBrings(cfg: Config, db: Db, x: EndRequest)
    requires cfg.Valid() && Core(db)
    ensures EndsBy(cfg, db, EndTxn(cfg, db, x), x)
  {
    match x
    case DoComplete(r, now) => CompleteBrings(cfg, db, r, now);
    case DoSucceeded(r, c, now) => SucceededBrings(cfg, db, r, c, now);
    case DoFail(r, now) => FailBrings(cfg, db, r, now);
    case DoFailed(r, c, retryable, retry, now) => FailedBrings(cfg, db, r, c, retryable, retry, now);
    case DoCancel(r, now) => CancelBrings(cfg, db, r, now);
    case DoCancelTask(task) => CancelTaskBrings(cfg, db, task);
    case DoRetry(r, retry, now) =>
  }

  lemma ClaimKeepsEnds(db: Db, r: RunId, worker: string, token: string, now: Time, expires: Time)
    ensures EndsKept(db.runs, After(db, ClaimRun(db, r, worker, token, now, expires)).runs)
  {
    var t := ClaimRun(db, r, worker, token, now, expires);
    if t.Commit? {
      if r in db.runs && Live(db.runs[r].status) {
        var row := db.runs[r].(status := Running);
        assert t.db.runs == db.runs[r := row];
        OpenRowKeepsEnds(db.runs, r, row);
      } else {
        assert t.db.runs == db.runs;
      }
    }
  }

  lemma QueueKeepsEnds(db: Db, q: QueueRequest)
    ensures EndsKept(db.runs, QueueTxn(db, q).runs)
  {
    match q
    case DoClaim(r, worker, token, now, expires) => ClaimKeepsEnds(db, r, worker, token, now, expires);
    case DoStartRun(task, r, now) => assert EndsKept(db.runs, After(db, StartRun(db, task, r, now)).runs);
    case DoStartQueued(r) => assert EndsKept(db.runs, After(db, StartQueuedRun(db, r)).runs);
    case _ =>
  }

  lemma ParkKeepsEnds(db: Db, r: RunId, fence: Option<Claim>, a: ApprovalId, step: Option<StepId>,
                      fingerprint: Option<Fingerprint>, expiresAt: Option<Time>, now: Time)
    ensures EndsKept(db.runs, After(db, RequestApproval(db, r, fence, a, step, fingerprint, expiresAt, now)).runs)
  {
  }

  lemma ResolveKeepsEnds(db: Db, a: ApprovalId, verdict: Verdict, now: Time)
    ensures EndsKept(db.runs, After(db, ResolveApproval(db, a, verdict, now)).runs)
  {
  }

  lemma DispatchKeepsEnds(db: Db, limits: Limits, parent: RunId, c: Claim, target: AgentId,
                          d: DelegationId, task: TaskId, child: RunId, now: Time)
    requires limits.Valid()
    ensures EndsKept(db.runs, After(db, DispatchDelegation(db, limits, parent, c, target, d, task, child, now)).runs)
  {
  }

  lemma WaitKeepsEnds(cfg: Config, db: Db, x: WaitRequest)
    requires cfg.Valid()
    ensures EndsKept(db.runs, WaitTxn(cfg, db, x).runs)
  {
    match x
    case DoPark(r, fence, a, step, fp, expiresAt, now) => ParkKeepsEnds(db, r, fence, a, step, fp, expiresAt, now);
    case DoResolve(a, verdict, now) => ResolveKeepsEnds(db, a, verdict, now);
    case DoContract(d, parent, target) =>
    case DoDispatch(parent, c, target, d, task, child, now) =>
      DispatchKeepsEnds(db, cfg.limits, parent, c, target, d, task, child, now);
  }

  lemma WorkKeepsRuns(db: Db, k: WorkRequest)
    ensures WorkTxn(db, k).runs == db.runs
  {
  }

  lemma AgentKeepsRuns(db: Db, g: AgentRequest)
    ensures AgentTxn(db, g).runs == db.runs
  {
  }

  lemma RequestBrings(cfg: Config, db: Db, request: Request, r: RunId, s: RunStatus)
    requires cfg.Valid() && Core(db)
    ensures EndedAs(Transact(cfg, db, request).runs, r, s) <==>
            EndedAs(db.runs, r, s) || BroughtBy(cfg, db, Use(request), r, s)
  {
    match request
    case OnQueue(q) => QueueKeepsEnds(db, q);
    case OnEnd(x) => EndRequestBrings(cfg, db, x);
    case OnWait(x) => WaitKeepsEnds(cfg, db, x);
    case OnWork(k) => WorkKeepsRuns(db, k);
    case OnAgent(g) => AgentKeepsRuns(db, g);
  }

  lemma FlightKeepsRuns(cfg: Config, w: World, step: Step)
    requires cfg.Valid() && !step.Use?
    ensures Next(cfg, w, step).db.runs == w.db.runs
  {
    match step
    case Ask(action, c, t, evidence, grant, now) =>
      if Scanned(w.db, action, evidence, grant) {
        var p := Propose(w.db, action, c, t, evidence, grant, now);
        assert p.Proceed? ==> p.db.runs == w.db.runs;
      }
    case Store(t, succeeded, now) =>
      if t in w.flights {
        var f := w.flights[t];
        assert After(w.db, Finish(w.db, f.action, f.claim, t, succeeded, now)).runs == w.db.runs;
      }
    case _ =>
  }

  /** One step ends an attempt exactly when it brings it there. */
  lemma StepBrings(cfg: Config, w: World, step: Step, r: RunId, s: RunStatus)
    requires cfg.Valid() && Core(w.db)
    ensures EndedAs(Next(cfg, w, step).db.runs, r, s) <==>
            EndedAs(w.db.runs, r, s) || BroughtBy(cfg, w.db, step, r, s)
  {
    if step.Use? {
      RequestBrings(cfg, w.db, step.request, r, s);
    } else {
      FlightKeepsRuns(cfg, w, step);
    }
  }

  // ---- what goes down with a run ---------------------------------------------------------

  /** Every open step and invocation of the run is cancelled, and what had ended is as it was. */
  ghost predicate CancelledBelow(db: Db, db': Db, r: RunId) {
    && (forall x :: x in db.steps && db.steps[x].run == r ==>
          && x in db'.steps
          && if StepTerminal(db.steps[x].status) then db'.steps[x] == db.steps[x]
             else db'.steps[x] == db.steps[x].(status := StepCancelled, approval := None))
    && (forall x :: x in db.tools && db.tools[x].run == r ==>
          && x in db'.tools
          && if ToolTerminal(db.tools[x].status) then db'.tools[x] == db.tools[x]
             else db'.tools[x] == db.tools[x].(status := ToolCancelled))
  }

  /** Exactly the run's pending approvals are withdrawn. */
  ghost predicate Withdraws(approvals: map<ApprovalId, Approval>, approvals': map<ApprovalId, Approval>, r: RunId) {
    && approvals'.Keys == approvals.Keys
    && forall a :: a in approvals ==>
         if approvals[a].run == r && approvals[a].status.Pending?
         then approvals'[a] == approvals[a].(status := Withdrawn) else approvals'[a] == approvals[a]
  }

  lemma ReconcileKeepsBelow(db: Db, execution: RunId, now: Time)
    ensures var db' := Reconcile(db, execution, now);
            db'.steps == db.steps && db'.tools == db.tools && db'.approvals == db.approvals
  {
    var d := IncomingDelegation(db, execution);
    if d.Some? {
      assert DelegatesTo(db, d.value, execution);
    }
  }

  lemma ChildrenGoDown(db: Db, r: RunId)
    ensures CancelledBelow(db, CancelChildren(db, r), r)
  {
  }

  /** Failing a run, by hand or by its worker, takes its open children down; its approvals are not touched. */
  lemma FailureTakesDown(db: Db, policy: Policy, r: RunId, c: Claim, retryable: bool, retry: RunId, now: Time)
    requires policy.Valid() && Runs(db, r)
    ensures var t := FailRun(db, r, now); t.Commit? && CancelledBelow(db, t.db, r) && t.db.approvals == db.approvals
    ensures var t := ApplyFailed(db, policy, r, c, retryable, retry, now);
            t.Commit? ==> CancelledBelow(db, t.db, r) && t.db.approvals == db.approvals
  {
    var ended := EndRun(CancelChildren(db, r), r, Failed);
    ChildrenGoDown(db, r);
    ReconcileKeepsBelow(ended, db.runs[r].execution, now);
    ApplyFailedShape(db, policy, r, c, retryable, retry, now);
  }

  /** Cancelling an open run takes its open children down and withdraws its pending approvals. */
  lemma CancelTakesDown(db: Db, r: RunId, now: Time)
    requires r in db.runs && !Terminal(db.runs[r].status)
    ensures var t := CancelRun(db, r, now);
            && t.Commit? && CancelledBelow(db, t.db, r) && Withdraws(db.approvals, t.db.approvals, r)
            && (r in t.db.runs && t.db.runs[r].status.Cancelled?)
  {
    var ended := CancelOnly(db, r);
    ChildrenGoDown(db, r);
    ReconcileKeepsBelow(ended, db.runs[r].execution, now);
    CancelEnds(db, r, db.runs[r].execution, now);
    assert EndedAs(CancelRun(db, r, now).db.runs, r, Cancelled);
  }

  /** Cancelling a task takes down the open children of each of its open runs; approvals are not touched. */
  lemma TaskTakesDown(db: Db, task: TaskId, r: RunId)
    requires CancelTask(db, task).Commit? && OpenRunOf(db.runs, r, task)
    ensures CancelledBelow(db, CancelTask(db, task).db, r) && CancelTask(db, task).db.approvals == db.approvals
  {
  }

  // ---- retries ---------------------------------------------------------------------------

  /** A queued attempt of the same execution and task, free for a worker from an instant on. */
  predicate RetryRow(db: Db, db': Db, r: RunId, retry: RunId, now: Time, availableAt: Time)
    requires r in db.runs
  {
    && retry in db'.runs && retry in db'.queue
    && db'.runs[retry] == Run(db.runs[r].task, db.runs[r].execution, now, Queued, None, None)
    && db'.queue[retry] == WorkItem(availableAt, None, 0)
    && (r in db.resolutions ==> retry in db'.resolutions && db'.resolutions[retry] == db.resolutions[r])
  }

  /** The k-th attempt is retried exactly if it may be and k is below the limit, after the policy's delay for k + 1. */
  lemma FailureRetriesIff(db: Db, policy: Policy, r: RunId, c: Claim, retryable: bool, retry: RunId, now: Time)
    requires policy.Valid() && Core(db) && retry !in db.runs
    requires Runs(db, r) && ActiveClaim(db.queue, r, c, now)
    ensures var t := ApplyFailed(db, policy, r, c, retryable, retry, now);
            var k := Ordinal(db.runs, r);
            && t.Commit?
            && (retryable && k < policy.maxAttempts ==>
                 RetryRow(db, t.db, r, retry, now, now + policy.ComputeDelay(k + 1)))
            && (!retryable || policy.maxAttempts <= k ==> retry !in t.db.runs)
  {
    if retryable && Ordinal(db.runs, r) < policy.maxAttempts {
      RetriesAfterDelay(db, policy, r, c, retry, now);
    } else {
      EndsUnretried(db, policy, r, c, retryable, retry, now);
    }
  }

  lemma RetriesAfterDelay(db: Db, policy: Policy, r: RunId, c: Claim, retry: RunId, now: Time)
    requires policy.Valid() && QueueCovers(db.runs, db.queue) && retry !in db.runs
    requires Runs(db, r) && ActiveClaim(db.queue, r, c, now) && Ordinal(db.runs, r) < policy.maxAttempts
    ensures var t := ApplyFailed(db, policy, r, c, true, retry, now);
            && t.Commit?
            && RetryRow(db, t.db, r, retry, now, now + policy.ComputeDelay(Ordinal(db.runs, r) + 1))
  {
    var ended := EndRun(CancelChildren(db, r), r, Failed);
    var at := now + policy.ComputeDelay(Ordinal(db.runs, r) + 1);
    assert ApplyFailed(db, policy, r, c, true, retry, now) == Commit(AddRetry(ended, r, retry, now, at));
    AddsRetryRow(db, ended, r, retry, now, at);
  }

  lemma EndsUnretried(db: Db, policy: Policy, r: RunId, c: Claim, retryable: bool, retry: RunId, now: Time)
    requires policy.Valid() && retry !in db.runs && Runs(db, r) && ActiveClaim(db.queue, r, c, now)
    requires !retryable || policy.maxAttempts <= Ordinal(db.runs, r)
    ensures var t := ApplyFailed(db, policy, r, c, retryable, retry, now); t.Commit? && retry !in t.db.runs
  {
    var ended := EndRun(CancelChildren(db, r), r, Failed);
    var e := db.runs[r].execution;
    assert ApplyFailed(db, policy, r, c, retryable, retry, now) == Commit(Reconcile(ended, e, now));
    ReconcileKeepsKeys(ended, e, now);
    assert retry !in ended.runs;
  }

  lemma AddsRetryRow(db: Db, ended: Db, r: RunId, retry: RunId, now: Time, at: Time)
    requires r in db.runs && retry !in db.runs && retry !in db.queue && ended.queue == db.queue - {r}
    requires ended.runs == db.runs[r := db.runs[r].(status := Failed)] && ended.resolutions == db.resolutions
    ensures RetryRow(db, AddRetry(ended, r, retry, now, at), r, retry, now, at)
  {
  }

  lemma ReconcileKeepsKeys(db: Db, execution: RunId, now: Time)
    ensures Reconcile(db, execution, now).runs.Keys == db.runs.Keys
  {
    var d := IncomingDelegation(db, execution);
    if d.Some? {
      assert DelegatesTo(db, d.value, execution);
    }
  }

  /** A failed attempt of its task's latest making, undelegated, with nothing of the task open. */
  ghost predicate Retryable(db: Db, r: RunId, retry: RunId) {
    && r in db.runs && db.runs[r].status.Failed? && retry !in db.runs
    && (forall d :: d in db.delegations ==> db.delegations[d].child != Some(db.runs[r].execution))
    && db.runs[r].task in db.tasks && db.tasks[db.runs[r].task].TaskActive?
    && forall x :: x in db.runs && db.runs[x].task == db.runs[r].task && x != r ==>
         Later(db.runs, r, x) && Terminal(db.runs[x].status)
  }

  /** A manual retry commits exactly then, and is free at once. */
  lemma RetriesIff(db: Db, r: RunId, retry: RunId, now: Time)
    requires Core(db)
    ensures var t := RetryFailedRun(db, r, retry, now);
            && (t.Commit? <==> Retryable(db, r, retry))
            && (t.Commit? ==> RetryRow(db, t.db, r, retry, now, now))
            && (t.Commit? ==> t.db.runs == db.runs[retry := t.db.runs[retry]])
  {
    if r in db.runs {
      IncomingSome(db, db.runs[r].execution);
      assert retry !in db.runs ==> retry !in db.queue;
    }
  }

  // ---- whole runs ------------------------------------------------------------------------

  /** Some step of the run brought the attempt to this end. */
  ghost predicate Happened(cfg: Config, w: World, steps: seq<Step>, r: RunId, s: RunStatus)
    requires cfg.Valid()
  {
    exists i :: 0 <= i < |steps| && BroughtBy(cfg, Exec(cfg, w, steps[..i]).db, steps[i], r, s)
  }

  lemma HappenedLast(cfg: Config, w: World, steps: seq<Step>, r: RunId, s: RunStatus)
    requires cfg.Valid() && steps != []
    ensures var front := steps[..|steps| - 1];
            Happened(cfg, w, steps, r, s) <==>
            Happened(cfg, w, front, r, s) || BroughtBy(cfg, Exec(cfg, w, front).db, steps[|steps| - 1], r, s)
  {
    var n := |steps| - 1;
    var front := steps[..n];
    forall i | 0 <= i < n ensures front[..i] == steps[..i] && front[i] == steps[i] {
    }
    if Happened(cfg, w, front, r, s) {
      var i :| 0 <= i < n && BroughtBy(cfg, Exec(cfg, w, front[..i]).db, front[i], r, s);
      assert BroughtBy(cfg, Exec(cfg, w, steps[..i]).db, steps[i], r, s);
    }
    if Happened(cfg, w, steps, r, s) {
      var i :| 0 <= i <= n && BroughtBy(cfg, Exec(cfg, w, steps[..i]).db, steps[i], r, s);
      if i < n {
        assert BroughtBy(cfg, Exec(cfg, w, front[..i]).db, front[i], r, s);
      }
    }
  }

  /** In every run: an attempt stands ended under a status if and only if some step brought it there. */
  lemma {:induction false} OutcomeIsHistory(cfg: Config, w: World, steps: seq<Step>, r: RunId, s: RunStatus)
    requires cfg.Valid() && Fresh(w)
    ensures EndedAs(Exec(cfg, w, steps).db.runs, r, s) <==> Happened(cfg, w, steps, r, s)
  {
    if steps != [] {
      var front := steps[..|steps| - 1];
      OutcomeIsHistory(cfg, w, front, r, s);
      FreshHolds(w);
      RunKeepsCore(cfg, w, front);
      StepBrings(cfg, Exec(cfg, w, front), steps[|steps| - 1], r, s);
      HappenedLast(cfg, w, steps, r, s);
    }
  }
}
