/** The steps that add no attempt and freeze no agent; all but StartRun, DispatchDelegation and the two retries. */
module CalmSteps {
  import opened Common
  import opened RuntimeModel
  import opened RuntimeInvariants
  import opened RuntimeFrames
  import opened RuntimeProtocol
  import opened ToolExecution

  /** Whoever enters the queue is open. */
  predicate OpenIn(runs: Runs, r: RunId) {
    r in runs && !Terminal(runs[r].status)
  }

  ghost predicate Enqueued(queue: map<RunId, WorkItem>, runs': Runs, queue': map<RunId, WorkItem>) {
    forall r :: r in queue' ==> r in queue || OpenIn(runs', r)
  }

  ghost predicate EndedStay(tasks: map<TaskId, TaskStatus>, tasks': map<TaskId, TaskStatus>) {
    forall t :: t in tasks && tasks[t].TaskEnded? ==> t in tasks' && tasks'[t].TaskEnded?
  }

  ghost predicate Calm(db: Db, db': Db) {
    && EndedStay(db.tasks, db'.tasks)
    && db'.runs.Keys == db.runs.Keys
    && db'.delegations.Keys == db.delegations.Keys
    && db'.resolutions == db.resolutions
    && Enqueued(db.queue, db'.runs, db'.queue)
  }

  lemma StartQueuedCalm(db: Db, r: RunId)
    ensures Calm(db, After(db, StartQueuedRun(db, r)))
  {
  }

  lemma QueueOnlyCalm(db: Db, queue': map<RunId, WorkItem>)
    requires forall r :: r in queue' ==> r in db.queue
    ensures Calm(db, db.(queue := queue')) && Calm(db, db)
  {
  }

  lemma ClaimCalm(db: Db, r: RunId, worker: string, token: string, now: Time, expires: Time)
    ensures Calm(db, After(db, ClaimRun(db, r, worker, token, now, expires)))
  {
    QueueOnlyCalm(db, db.queue - {r});
    var t := ClaimRun(db, r, worker, token, now, expires);
    if t.Commit? && r in db.runs && Live(db.runs[r].status) {
      assert t.db == SetStatus(db, r, Running).(queue := t.db.queue);
      assert Enqueued(db.queue, t.db.runs, t.db.queue);
    }
  }

  lemma RenewCalm(db: Db, r: RunId, c: Claim, now: Time, expires: Time)
    ensures Calm(db, After(db, RenewLease(db, r, c, now, expires)))
  {
    var t := RenewLease(db, r, c, now, expires);
    QueueOnlyCalm(db, if t.Commit? then t.db.queue else db.queue);
  }

  lemma GiveBackCalm(db: Db, r: RunId, c: Claim, now: Time, availableAt: Option<Time>)
    ensures Calm(db, After(db, GiveBack(db, r, c, now, availableAt)))
  {
    var t := GiveBack(db, r, c, now, availableAt);
    QueueOnlyCalm(db, if t.Commit? then t.db.queue else db.queue);
  }

  lemma RecoverCalm(db: Db, r: RunId, now: Time)
    ensures Calm(db, After(db, RecoverLease(db, r, now)))
  {
  }

  lemma QueueCalm(db: Db, q: QueueRequest)
    requires !q.DoStartRun?
    ensures Calm(db, QueueTxn(db, q))
  {
    match q
    case DoStartQueued(r) => StartQueuedCalm(db, r);
    case DoClaim(r, worker, token, now, expires) => ClaimCalm(db, r, worker, token, now, expires);
    case DoRenew(r, c, now, expires) => RenewCalm(db, r, c, now, expires);
    case DoGiveBack(r, c, now, at) => GiveBackCalm(db, r, c, now, at);
    case DoRecover(r, now) => RecoverCalm(db, r, now);
  }

  lemma SettleCalm(db: Db, d: DelegationId, s: DelegationStatus, now: Time)
    requires d in db.delegations
    ensures Calm(db, Settle(db, d, s, now))
  {
  }

  lemma ReconcileCalm(db: Db, ended: Db, execution: RunId, now: Time)
    requires ended.runs.Keys == db.runs.Keys && ended.resolutions == db.resolutions
    requires ended.delegations == db.delegations && ended.tasks == db.tasks
    requires forall r :: r in ended.queue ==> r in db.queue
    ensures Calm(db, Reconcile(ended, execution, now))
  {
    var d := IncomingDelegation(ended, execution);
    if d.Some? {
      assert DelegatesTo(ended, d.value, execution);
      var latest := Latest(ended.runs, execution);
      if ended.delegations[d.value].status.Dispatched? && latest.Some? && Terminal(ended.runs[latest.value].status) {
        SettleCalm(ended, d.value, SettledAs(ended.runs[latest.value].status), now);
      }
    }
  }

  lemma CancelCalm(db: Db, r: RunId, now: Time)
    ensures Calm(db, After(db, CancelRun(db, r, now)))
  {
    if r in db.runs {
      LatestExists(db.runs, r);
      var e := db.runs[r].execution;
      var latest := Latest(db.runs, e).value;
      ReconcileCalm(db, CancelOnly(db, r), e, now);
      ReconcileCalm(db, CancelOnly(db, latest), e, now);
    }
  }

  /** An attempt that fails for good. */
  lemma FailCalm(db: Db, r: RunId, now: Time)
    requires r in db.runs
    ensures Calm(db, Reconcile(EndRun(CancelChildren(db, r), r, Failed), db.runs[r].execution, now))
  {
    ReconcileCalm(db, EndRun(CancelChildren(db, r), r, Failed), db.runs[r].execution, now);
  }

  lemma SucceedCalm(db: Db, r: RunId, now: Time)
    requires r in db.runs
    ensures Calm(db, Reconcile(EndRun(db, r, Succeeded), db.runs[r].execution, now))
  {
    ReconcileCalm(db, EndRun(db, r, Succeeded), db.runs[r].execution, now);
  }

  lemma CompleteCalm(db: Db, r: RunId, now: Time)
    ensures Calm(db, After(db, CompleteRun(db, r, now)))
  {
    if r in db.runs {
      SucceedCalm(db, r, now);
    }
  }

  lemma FailRunCalm(db: Db, r: RunId, now: Time)
    ensures Calm(db, After(db, FailRun(db, r, now)))
  {
    if r in db.runs {
      FailCalm(db, r, now);
    }
  }

  lemma ApplySucceededCalm(db: Db, r: RunId, c: Claim, now: Time)
    ensures Calm(db, After(db, ApplySucceeded(db, r, c, now)))
  {
    if r in db.runs {
      SucceedCalm(db, r, now);
    }
  }

  lemma CancelTaskCalm(db: Db, task: TaskId)
    ensures Calm(db, After(db, CancelTask(db, task)))
  {
  }

  lemma EndCalm(cfg: Config, db: Db, e: EndRequest)
    requires cfg.Valid() && !e.DoRetry? && !e.DoFailed?
    ensures Calm(db, EndTxn(cfg, db, e))
  {
    match e
    case DoComplete(r, now) => CompleteCalm(db, r, now);
    case DoFail(r, now) => FailRunCalm(db, r, now);
    case DoCancel(r, now) => CancelCalm(db, r, now);
    case DoSucceeded(r, c, now) => ApplySucceededCalm(db, r, c, now);
    case DoCancelTask(task) => CancelTaskCalm(db, task);
  }

  lemma ParkCalm(db: Db, r: RunId, claim: Option<Claim>, a: ApprovalId, step: Option<StepId>,
                 fingerprint: Option<Fingerprint>, expiresAt: Option<Time>, now: Time)
    ensures Calm(db, After(db, RequestApproval(db, r, claim, a, step, fingerprint, expiresAt, now)))
  {
  }

  lemma ResolveCalm(db: Db, a: ApprovalId, target: ApprovalStatus, now: Time)
    requires !target.Pending?
    ensures Calm(db, After(db, ResolveApproval(db, a, target, now)))
  {
  }

  lemma TablesCalm(db: Db, steps': map<StepId, RunStep>, tools': map<ToolId, Tool>)
    ensures Calm(db, db.(steps := steps', tools := tools'))
  {
  }

  lemma WorkShape(db: Db, k: WorkRequest)
    ensures WorkTxn(db, k) == db.(steps := WorkTxn(db, k).steps, tools := WorkTxn(db, k).tools)
  {
    match k
    case DoCreateStep(r, s, position) =>
      var db' := After(db, CreateStep(db, r, s, position));
      assert db' == db.(steps := db'.steps, tools := db'.tools);
    case DoStartStep(s) =>
      var db' := After(db, StartStep(db, s));
      assert db' == db.(steps := db'.steps, tools := db'.tools);
    case DoEndStep(s, end) =>
      var db' := After(db, EndStep(db, s, end));
      assert db' == db.(steps := db'.steps, tools := db'.tools);
    case DoRequestTool(r, t, step, approval) =>
      var db' := After(db, RequestTool(db, r, t, step, approval));
      assert db' == db.(steps := db'.steps, tools := db'.tools);
    case DoMoveTool(t, move) =>
      var db' := After(db, MoveTool(db, t, move));
      assert db' == db.(steps := db'.steps, tools := db'.tools);
  }

  lemma WorkCalm(db: Db, k: WorkRequest)
    ensures Calm(db, WorkTxn(db, k))
  {
    WorkShape(db, k);
    TablesCalm(db, WorkTxn(db, k).steps, WorkTxn(db, k).tools);
  }

  lemma AskCalm(db: Db, action: Action, c: Claim, t: ToolId, evidence: Evidence, grant: ApprovalId, now: Time)
    requires Scanned(db, action, evidence, grant)
    ensures var p := Propose(db, action, c, t, evidence, grant, now); p.Proceed? ==> Calm(db, p.db)
  {
  }
}
