/**
 Every protected call was approved: an approval stands APPROVED exactly when some step of the run approved it while it
 was pending, so behind every protected effect there is a step that approved exactly its action.
 */
module ApprovalHistory {
  import opened Common
  import opened RuntimeModel
  import opened RuntimeInvariants
  import opened RuntimeProtocol
  import opened RuntimeEvolution
  import opened ToolExecution
  import opened ToolEffects

  predicate Granted(approvals: map<ApprovalId, Approval>, a: ApprovalId) {
    a in approvals && approvals[a].status.Approved?
  }

  /** Nothing is approved that was not. */
  ghost predicate NoGrant(db: Db, db': Db) {
    forall a :: Granted(db'.approvals, a) ==> Granted(db.approvals, a)
  }

  /** The approval is pending, and its run and step are there. */
  predicate Resolvable(db: Db, a: ApprovalId) {
    && a in db.approvals && db.approvals[a].status.Pending?
    && db.approvals[a].run in db.runs
    && (db.approvals[a].step.Some? ==>
         && db.approvals[a].step.value in db.steps
         && db.steps[db.approvals[a].step.value].run == db.approvals[a].run)
  }

  /** The step approves the pending approval a. */
  predicate Approves(db: Db, step: Step, a: ApprovalId) {
    && step.Use? && step.request.OnWait? && step.request.wait.DoResolve?
    && step.request.wait.approval == a && step.request.wait.verdict.Approved? && Resolvable(db, a)
  }

  // ---- one step --------------------------------------------------------------------------

  lemma ResolvesOne(db: Db, x: ApprovalId, verdict: Verdict, now: Time)
    requires x in db.approvals
    ensures var t := ResolveApproval(db, x, verdict, now);
            && (t.Commit? ==> x in t.db.approvals && t.db.approvals == db.approvals[x := t.db.approvals[x]])
            && (t.Commit? && db.approvals[x].status != verdict ==>
                 Resolvable(db, x) && t.db.approvals[x] == db.approvals[x].(status := verdict))
            && (t.Commit? && db.approvals[x].status == verdict ==> t.db == db)
            && (Resolvable(db, x) && !verdict.Expired? ==> t.Commit?)
  {
  }

  lemma ResolveGrants(db: Db, x: ApprovalId, verdict: Verdict, now: Time, a: ApprovalId)
    ensures Granted(After(db, ResolveApproval(db, x, verdict, now)).approvals, a) <==>
            Granted(db.approvals, a) || (x == a && verdict.Approved? && Resolvable(db, a))
  {
    if x in db.approvals {
      ResolvesOne(db, x, verdict, now);
    }
  }

  lemma ReconcileApproves(db: Db, execution: RunId, now: Time)
    ensures Reconcile(db, execution, now).approvals == db.approvals
  {
    var d := IncomingDelegation(db, execution);
    if d.Some? {
      assert DelegatesTo(db, d.value, execution);
    }
  }

  lemma CancelOnlyGrants(db: Db, r: RunId, execution: RunId, now: Time)
    requires r in db.runs
    ensures NoGrant(db, Reconcile(CancelOnly(db, r), execution, now))
  {
    ReconcileApproves(CancelOnly(db, r), execution, now);
  }

  lemma CancelGrants(db: Db, r: RunId, now: Time)
    ensures NoGrant(db, After(db, CancelRun(db, r, now)))
  {
    if r in db.runs {
      var e := db.runs[r].execution;
      LatestExists(db.runs, r);
      CancelOnlyGrants(db, r, e, now);
      CancelOnlyGrants(db, Latest(db.runs, e).value, e, now);
    }
  }

  lemma FailGrants(cfg: Config, db: Db, r: RunId, c: Claim, retryable: bool, retry: RunId, now: Time)
    requires cfg.Valid()
    ensures After(db, FailRun(db, r, now)).approvals == db.approvals
    ensures After(db, ApplyFailed(db, cfg.policy, r, c, retryable, retry, now)).approvals == db.approvals
  {
    if r in db.runs {
      ReconcileApproves(EndRun(CancelChildren(db, r), r, Failed), db.runs[r].execution, now);
    }
  }

  lemma SucceedGrants(db: Db, r: RunId, c: Claim, now: Time)
    ensures After(db, CompleteRun(db, r, now)).approvals == db.approvals
    ensures After(db, ApplySucceeded(db, r, c, now)).approvals == db.approvals
  {
    if r in db.runs {
      ReconcileApproves(EndRun(db, r, Succeeded), db.runs[r].execution, now);
    }
  }

  lemma EndGrants(cfg: Config, db: Db, x: EndRequest)
    requires cfg.Valid()
    ensures NoGrant(db, EndTxn(cfg, db, x))
  {
    match x
    case DoCancel(r, now) => CancelGrants(db, r, now);
    case DoCancelTask(task) => assert After(db, CancelTask(db, task)).approvals == db.approvals;
    case DoRetry(r, retry, now) => assert After(db, RetryFailedRun(db, r, retry, now)).approvals == db.approvals;
    case DoFail(r, now) => FailGrants(cfg, db, r, Claim("", "", 0), false, r, now);
    case DoFailed(r, c, retryable, retry, now) => FailGrants(cfg, db, r, c, retryable, retry, now);
    case DoComplete(r, now) => SucceedGrants(db, r, Claim("", "", 0), now);
    case DoSucceeded(r, c, now) => SucceedGrants(db, r, c, now);
  }

  lemma ClaimGrants(db: Db, r: RunId, worker: string, token: string, now: Time, expires: Time)
    ensures var t := ClaimRun(db, r, worker, token, now, expires);
            t.Commit? ==> t.db == db.(runs := t.db.runs, queue := t.db.queue)
  {
  }

  lemma QueueGrants(db: Db, q: QueueRequest)
    ensures QueueTxn(db, q).approvals == db.approvals
  {
    match q
    case DoClaim(r, worker, token, now, expires) => ClaimGrants(db, r, worker, token, now, expires);
    case DoStartRun(task, r, now) => assert After(db, StartRun(db, task, r, now)).approvals == db.approvals;
    case DoStartQueued(r) => assert After(db, StartQueuedRun(db, r)).approvals == db.approvals;
    case _ =>
  }

  lemma ParkGrants(db: Db, r: RunId, fence: Option<Claim>, x: ApprovalId, step: Option<StepId>,
                   fingerprint: Option<Fingerprint>, expiresAt: Option<Time>, now: Time)
    ensures NoGrant(db, After(db, RequestApproval(db, r, fence, x, step, fingerprint, expiresAt, now)))
  {
  }

  lemma WaitGrants(cfg: Config, db: Db, x: WaitRequest, a: ApprovalId)
    requires cfg.Valid()
    ensures Granted(WaitTxn(cfg, db, x).approvals, a) ==>
            Granted(db.approvals, a) || Approves(db, Use(OnWait(x)), a)
  {
    match x
    case DoPark(r, fence, y, step, fp, expiresAt, now) => ParkGrants(db, r, fence, y, step, fp, expiresAt, now);
    case DoResolve(y, verdict, now) => ResolveGrants(db, y, verdict, now, a);
    case DoContract(d, parent, target) =>
    case DoDispatch(parent, c, target, d, task, child, now) =>
      var t := DispatchDelegation(db, cfg.limits, parent, c, target, d, task, child, now);
      assert After(db, t).approvals == db.approvals;
  }

  lemma WorkGrants(db: Db, k: WorkRequest)
    ensures WorkTxn(db, k).approvals == db.approvals
  {
  }

  lemma AgentGrants(db: Db, g: AgentRequest)
    ensures AgentTxn(db, g).approvals == db.approvals
  {
  }

  lemma RequestGrants(cfg: Config, db: Db, request: Request, a: ApprovalId)
    requires cfg.Valid()
    ensures Granted(Transact(cfg, db, request).approvals, a) ==>
            Granted(db.approvals, a) || Approves(db, Use(request), a)
  {
    match request
    case OnQueue(q) => QueueGrants(db, q);
    case OnEnd(x) => EndGrants(cfg, db, x);
    case OnWait(x) => WaitGrants(cfg, db, x, a);
    case OnWork(k) => WorkGrants(db, k);
    case OnAgent(g) => AgentGrants(db, g);
  }

  lemma FlightGrants(cfg: Config, w: World, step: Step)
    requires cfg.Valid() && !step.Use?
    ensures NoGrant(w.db, Next(cfg, w, step).db)
  {
    match step
    case Ask(action, c, t, evidence, grant, now) =>
      if Scanned(w.db, action, evidence, grant) {
        var p := Propose(w.db, action, c, t, evidence, grant, now);
        assert p.Proceed? ==> NoGrant(w.db, p.db);
      }
    case Store(t, succeeded, now) =>
      if t in w.flights {
        var f := w.flights[t];
        assert After(w.db, Finish(w.db, f.action, f.claim, t, succeeded, now)).approvals == w.db.approvals;
      }
    case _ =>
  }

  lemma GrantStays(cfg: Config, w: World, step: Step, a: ApprovalId)
    requires cfg.Valid() && Core(w.db) && Granted(w.db.approvals, a)
    ensures Granted(Next(cfg, w, step).db.approvals, a)
  {
    NextEvolves(cfg, w, step);
    assert SameApproval(w.db.approvals[a], Next(cfg, w, step).db.approvals[a]);
  }

  lemma NewGrant(cfg: Config, w: World, step: Step, a: ApprovalId)
    requires cfg.Valid() && !Granted(w.db.approvals, a)
    ensures Granted(Next(cfg, w, step).db.approvals, a) <==> Approves(w.db, step, a)
  {
    if step.Use? {
      RequestGrants(cfg, w.db, step.request, a);
      if Approves(w.db, step, a) {
        ResolveGrants(w.db, a, Approved, step.request.wait.now, a);
      }
    } else {
      FlightGrants(cfg, w, step);
    }
  }

  /** One step leaves an approval granted exactly when it was, or when the step approves it. */
  lemma StepGrants(cfg: Config, w: World, step: Step, a: ApprovalId)
    requires cfg.Valid() && Core(w.db)
    ensures Granted(Next(cfg, w, step).db.approvals, a) <==> Granted(w.db.approvals, a) || Approves(w.db, step, a)
  {
    if Granted(w.db.approvals, a) {
      GrantStays(cfg, w, step, a);
    } else {
      NewGrant(cfg, w, step, a);
    }
  }

  // ---- whole runs ------------------------------------------------------------------------

  /** Step i of the run approved it. */
  ghost predicate ApprovedAt(cfg: Config, w: World, steps: seq<Step>, i: nat, a: ApprovalId)
    requires cfg.Valid()
  {
    i < |steps| && Approves(Exec(cfg, w, steps[..i]).db, steps[i], a)
  }

  lemma EarlierApproval(cfg: Config, w: World, steps: seq<Step>, i: nat, a: ApprovalId)
    requires cfg.Valid() && i < |steps| - 1
    ensures ApprovedAt(cfg, w, steps, i, a) <==> ApprovedAt(cfg, w, steps[..|steps| - 1], i, a)
  {
    assert steps[..|steps| - 1][..i] == steps[..i];
  }

  ghost predicate WasApproved(cfg: Config, w: World, steps: seq<Step>, a: ApprovalId)
    requires cfg.Valid()
  {
    exists i :: ApprovedAt(cfg, w, steps, i, a)
  }

  lemma ApprovedLast(cfg: Config, w: World, steps: seq<Step>, a: ApprovalId)
    requires cfg.Valid() && steps != []
    ensures var front := steps[..|steps| - 1];
            WasApproved(cfg, w, steps, a) <==>
            WasApproved(cfg, w, front, a) || Approves(Exec(cfg, w, front).db, steps[|steps| - 1], a)
  {
    var n := |steps| - 1;
    if i: nat :| ApprovedAt(cfg, w, steps[..n], i, a) {
      EarlierApproval(cfg, w, steps, i, a);
    }
    if i: nat :| ApprovedAt(cfg, w, steps, i, a) {
      if i < n {
        EarlierApproval(cfg, w, steps, i, a);
      }
    }
    if Approves(Exec(cfg, w, steps[..n]).db, steps[n], a) {
      assert ApprovedAt(cfg, w, steps, n, a);
    }
  }

  /** In every run: an approval stands approved if and only if some step approved it while it was pending. */
  lemma {:induction false} GrantIsHistory(cfg: Config, w: World, steps: seq<Step>, a: ApprovalId)
    requires cfg.Valid() && Fresh(w)
    ensures Granted(Exec(cfg, w, steps).db.approvals, a) <==> WasApproved(cfg, w, steps, a)
  {
    if steps != [] {
      var front := steps[..|steps| - 1];
      GrantIsHistory(cfg, w, front, a);
      FreshHolds(w);
      RunKeepsCore(cfg, w, front);
      StepGrants(cfg, Exec(cfg, w, front), steps[|steps| - 1], a);
      ApprovedLast(cfg, w, steps, a);
    }
  }

  lemma {:induction false} EvolvesFrom(cfg: Config, w: World, steps: seq<Step>, i: nat, a: ApprovalId)
    requires cfg.Valid() && Fresh(w) && i <= |steps| && a in Exec(cfg, w, steps[..i]).db.approvals
    ensures var before, after := Exec(cfg, w, steps[..i]).db.approvals[a], Exec(cfg, w, steps).db.approvals;
            a in after && after[a].run == before.run && after[a].fingerprint == before.fingerprint
    decreases |steps| - i, |steps|
  {
    if i < |steps| {
      var front := steps[..|steps| - 1];
      assert front[..i] == steps[..i];
      EvolvesFrom(cfg, w, front, i, a);
      FreshHolds(w);
      RunKeepsCore(cfg, w, front);
      NextEvolves(cfg, Exec(cfg, w, front), steps[|steps| - 1]);
      var was := Exec(cfg, w, front).db.approvals;
      assert SameApproval(was[a], Exec(cfg, w, steps).db.approvals[a]);
    } else {
      assert steps[..i] == steps;
    }
  }

  /**
   Over every interleaving of workers, crashes and re-claims: when the gateway has received a protected call, some step
   has approved, while it was pending, an approval of the same run for exactly this action.
   */
  lemma EffectsWereApproved(cfg: Config, w: World, steps: seq<Step>, k: nat) returns (i: nat, a: ApprovalId)
    requires cfg.Valid() && Fresh(w) && k < |Exec(cfg, w, steps).effects|
    requires Exec(cfg, w, steps).effects[k].action.protected
    ensures Exec(cfg, w, steps).effects[k].approval == Some(a) && ApprovedAt(cfg, w, steps, i, a)
    ensures var approvals, action := Exec(cfg, w, steps[..i]).db.approvals, Exec(cfg, w, steps).effects[k].action;
            && approvals[a].status.Pending? && approvals[a].run == action.run
            && approvals[a].fingerprint == Some(Fingerprint.Exact(action.run, action.step, action.call, action.scope))
  {
    FreshIsUpgraded(w);
    EffectsAreAuthorized(cfg, w, steps, k);
    a := Exec(cfg, w, steps).effects[k].approval.value;
    GrantIsHistory(cfg, w, steps, a);
    i :| ApprovedAt(cfg, w, steps, i, a);
    EvolvesFrom(cfg, w, steps, i, a);
  }
}
