/** What a step does to the rows that decide which agent a run executes as: nothing, a new run, a retry or a freeze. */
module AgentMoves {
  import opened Common
  import opened RuntimeModel
  import opened RuntimeInvariants
  import opened RuntimeFrames
  import opened RuntimeEndings
  import opened RuntimeProtocol
  import opened RuntimeEvolution
  import opened ToolExecution
  import opened DelegationForest
  import opened CalmSteps

  type Resolutions = map<RunId, Resolution>

  datatype Move = Stays
                | Starts(run: RunId)
                | Retries(source: RunId, run: RunId)
                | Freezes(run: RunId, resolution: Resolution)

  ghost predicate Added(runs: Runs, runs': Runs, r: RunId, e: RunId) {
    r !in runs && runs'.Keys == runs.Keys + {r} && runs'[r].execution == e && !Terminal(runs'[r].status)
  }

  /** A new request has no child, or the run that starts now. */
  ghost predicate NewRequests(delegations: Requests, delegations': Requests, child: Option<RunId>) {
    forall d :: d in delegations' && d !in delegations && delegations'[d].child.Some? ==> delegations'[d].child == child
  }

  /** The task has no open run and takes new ones, and this attempt is its latest. */
  ghost predicate Retriable(db: Db, r: RunId)
    requires r in db.runs
  {
    && LatestOfTask(db.runs, r)
    && (forall x :: x in db.runs && db.runs[x].task == db.runs[r].task ==> Terminal(db.runs[x].status))
    && db.runs[r].task in db.tasks && db.tasks[db.runs[r].task].TaskActive?
  }

  /** The retried attempt was open or retriable; it has ended and left the queue. */
  ghost predicate Retired(db: Db, db': Db, source: RunId) {
    && source in db.runs && (OpenIn(db.runs, source) || Retriable(db, source))
    && source in db'.runs && Terminal(db'.runs[source].status) && source !in db'.queue
  }

  /** The agent is the target of whatever was delegated to the execution. */
  ghost predicate FitsRequests(delegations: Requests, e: RunId, agent: AgentId) {
    forall d :: d in delegations && delegations[d].child == Some(e) ==> agent == delegations[d].target
  }

  ghost predicate Made(db: Db, db': Db, m: Move) {
    && RunsEvolve(db.runs, db'.runs) && DelegationsEvolve(db.delegations, db'.delegations)
    && Enqueued(db.queue, db'.runs, db'.queue) && EndedStay(db.tasks, db'.tasks)
    && NewRequests(db.delegations, db'.delegations, if m.Starts? then Some(m.run) else None)
    && match m
       case Stays => db'.runs.Keys == db.runs.Keys && db'.resolutions == db.resolutions
       case Starts(r) => Added(db.runs, db'.runs, r, r) && db'.resolutions == db.resolutions
       case Retries(source, r) =>
         && Retired(db, db', source) && Added(db.runs, db'.runs, r, db.runs[source].execution)
         && db'.resolutions == Inherit(db.resolutions, source, r)
       case Freezes(r, resolution) =>
         && r in db.runs && r in db.queue && r !in db.resolutions
         && FitsRequests(db.delegations, db.runs[r].execution, resolution.agent)
         && db' == db.(resolutions := db.resolutions[r := resolution])
  }

  // ---- every step makes one --------------------------------------------------------------

  lemma CalmMove(db: Db, db': Db)
    requires Calm(db, db') && RunsEvolve(db.runs, db'.runs) && DelegationsEvolve(db.delegations, db'.delegations)
    ensures Made(db, db', Stays)
  {
  }

  lemma StartMove(db: Db, task: TaskId, r: RunId, now: Time)
    requires StartRun(db, task, r, now).Commit?
    ensures Made(db, StartRun(db, task, r, now).db, Starts(r))
  {
    StartRunEvolves(db, task, r, now);
  }

  lemma QueueMove(db: Db, q: QueueRequest) returns (m: Move)
    ensures Made(db, QueueTxn(db, q), m) && !m.Retries?
  {
    if q.DoStartRun? && StartRun(db, q.task, q.run, q.now).Commit? {
      StartMove(db, q.task, q.run, q.now);
      m := Starts(q.run);
    } else {
      if !q.DoStartRun? {
        QueueCalm(db, q);
      }
      QueueTxnEvolves(db, q);
      CalmMove(db, QueueTxn(db, q));
      m := Stays;
    }
  }

  lemma AddRetryMove(db: Db, db': Db, failed: Db, source: RunId, retry: RunId, now: Time, availableAt: Time)
    requires source in db.runs && (OpenIn(db.runs, source) || Retriable(db, source)) && retry !in db.runs
    requires failed.runs.Keys == db.runs.Keys && RunsEvolve(db.runs, failed.runs)
    requires failed.delegations == db.delegations && failed.resolutions == db.resolutions && failed.tasks == db.tasks
    requires Terminal(failed.runs[source].status) && source !in failed.queue
    requires forall r :: r in failed.queue ==> r in db.queue
    requires db' == AddRetry(failed, source, retry, now, availableAt)
    ensures Made(db, db', Retries(source, retry)) && db'.runs[retry].createdAt == now
  {
    RunRowEvolves(failed.runs, retry, db'.runs[retry]);
  }

  lemma RetryMove(db: Db, r: RunId, retry: RunId, now: Time)
    requires QueueCovers(db.runs, db.queue) && RetryFailedRun(db, r, retry, now).Commit?
    ensures var db' := RetryFailedRun(db, r, retry, now).db;
            Made(db, db', Retries(r, retry)) && db'.runs[retry].createdAt == now
  {
    assert r in db.queue ==> ItemFits(db.queue[r], db.runs[r]);
    AddRetryMove(db, RetryFailedRun(db, r, retry, now).db, db, r, retry, now, now);
  }

  lemma FailedMove(cfg: Config, db: Db, r: RunId, c: Claim, retryable: bool, retry: RunId, now: Time) returns (m: Move)
    requires cfg.Valid()
    ensures var db' := After(db, ApplyFailed(db, cfg.policy, r, c, retryable, retry, now));
            && Made(db, db', m)
            && (m.Stays? || (m == Retries(r, retry) && db'.runs[retry].createdAt == now))
  {
    var t := ApplyFailed(db, cfg.policy, r, c, retryable, retry, now);
    ApplyFailedShape(db, cfg.policy, r, c, retryable, retry, now);
    m := Stays;
    if t.Commit? {
      var failed, attempt := EndRun(CancelChildren(db, r), r, Failed), Ordinal(db.runs, r);
      EndRunEvolves(db, r, Failed);
      if cfg.policy.IsRetryAllowed(attempt, retryable) {
        AddRetryMove(db, t.db, failed, r, retry, now, now + cfg.policy.ComputeDelay(attempt + 1));
        m := Retries(r, retry);
      } else {
        FailCalm(db, r, now);
        FailEvolves(db, r, now);
        CalmMove(db, t.db);
      }
    }
  }

  predicate AddsRetry(e: EndRequest) {
    e.DoRetry? || e.DoFailed?
  }

  lemma EndMove(cfg: Config, db: Db, e: EndRequest) returns (m: Move)
    requires cfg.Valid() && Core(db)
    ensures Made(db, EndTxn(cfg, db, e), m)
    ensures m.Stays? || (AddsRetry(e) && m == Retries(e.run, e.retry)
                         && EndTxn(cfg, db, e).runs[e.retry].createdAt == e.now)
  {
    m := Stays;
    if e.DoFailed? {
      m := FailedMove(cfg, db, e.run, e.claim, e.retryable, e.retry, e.now);
    } else if e.DoRetry? && RetryFailedRun(db, e.run, e.retry, e.now).Commit? {
      RetryMove(db, e.run, e.retry, e.now);
      m := Retries(e.run, e.retry);
    } else {
      if !e.DoRetry? {
        EndCalm(cfg, db, e);
      }
      EndTxnEvolves(cfg, db, e);
      CalmMove(db, EndTxn(cfg, db, e));
    }
  }

  lemma DispatchMove(db: Db, limits: Limits, parent: RunId, c: Claim, target: AgentId, d: DelegationId, task: TaskId,
                     child: RunId, now: Time)
    requires limits.Valid() && DispatchDelegation(db, limits, parent, c, target, d, task, child, now).Commit?
    ensures Made(db, DispatchDelegation(db, limits, parent, c, target, d, task, child, now).db, Starts(child))
  {
    DispatchEvolves(db, limits, parent, c, target, d, task, child, now);
  }

  lemma WaitMove(cfg: Config, db: Db, x: WaitRequest) returns (m: Move)
    requires cfg.Valid() && Core(db)
    ensures Made(db, WaitTxn(cfg, db, x), m) && !m.Retries?
  {
    WaitTxnEvolves(cfg, db, x);
    m := Stays;
    match x
    case DoPark(r, fence, a, step, fingerprint, expiresAt, now) =>
      ParkCalm(db, r, fence, a, step, fingerprint, expiresAt, now);
      CalmMove(db, WaitTxn(cfg, db, x));
    case DoResolve(a, verdict, now) =>
      ResolveCalm(db, a, verdict, now);
      CalmMove(db, WaitTxn(cfg, db, x));
    case DoContract(d, parent, target) =>
    case DoDispatch(parent, c, target, d, task, child, now) =>
      if DispatchDelegation(db, cfg.limits, parent, c, target, d, task, child, now).Commit? {
        DispatchMove(db, cfg.limits, parent, c, target, d, task, child, now);
        m := Starts(child);
      }
  }

  lemma FreezeMove(db: Db, r: RunId, c: Claim, now: Time) returns (m: Move)
    requires Delegations(db.runs, db.delegations)
    ensures Made(db, AgentTxn(db, DoResolveAgent(r, c, now)), m) && !m.Retries?
  {
    var resolved := ResolveAgent(db, r, c, now);
    m := Stays;
    if resolved.Frozen? && resolved.db != db {
      m := Freezes(r, resolved.resolution.value);
      var e := db.runs[r].execution;
      forall d | d in db.delegations && db.delegations[d].child == Some(e)
        ensures resolved.resolution.value.agent == db.delegations[d].target
      {
        IncomingIs(db, d, e);
      }
    }
  }

  lemma TableMove(db: Db, db': Db)
    requires db'.runs == db.runs && db'.queue == db.queue && db'.delegations == db.delegations
    requires db'.resolutions == db.resolutions && EndedStay(db.tasks, db'.tasks)
    ensures Made(db, db', Stays)
  {
  }

  lemma EndedUpdate(tasks: map<TaskId, TaskStatus>, task: TaskId, s: TaskStatus)
    requires task in tasks ==> !tasks[task].TaskEnded?
    ensures EndedStay(tasks, tasks[task := s])
  {
  }

  lemma SetTaskStays(db: Db, task: TaskId, s: TaskStatus)
    ensures EndedStay(db.tasks, After(db, SetTask(db, task, s)).tasks)
  {
    if !(task in db.tasks && db.tasks[task].TaskEnded?) {
      EndedUpdate(db.tasks, task, s);
    }
  }

  lemma RegistryShape(db: Db, a: AgentRequest)
    requires !a.DoResolveAgent?
    ensures var db' := AgentTxn(db, a);
            db' == db.(tasks := db'.tasks, bindings := db'.bindings, agents := db'.agents)
  {
  }

  lemma RegistryTasks(db: Db, a: AgentRequest)
    requires !a.DoResolveAgent?
    ensures EndedStay(db.tasks, AgentTxn(db, a).tasks)
  {
    if a.DoSetTask? {
      SetTaskStays(db, a.task, a.status);
    } else {
      assert AgentTxn(db, a).tasks == db.tasks;
    }
  }

  lemma RegistryMove(db: Db, a: AgentRequest)
    requires !a.DoResolveAgent?
    ensures Made(db, AgentTxn(db, a), Stays)
  {
    RegistryShape(db, a);
    RegistryTasks(db, a);
    TableMove(db, AgentTxn(db, a));
  }

  lemma AgentMove(db: Db, a: AgentRequest) returns (m: Move)
    requires Delegations(db.runs, db.delegations)
    ensures Made(db, AgentTxn(db, a), m) && !m.Retries?
  {
    m := Stays;
    if a.DoResolveAgent? {
      m := FreezeMove(db, a.run, a.claim, a.now);
    } else {
      RegistryMove(db, a);
    }
  }

  lemma WorkMove(db: Db, k: WorkRequest)
    ensures Made(db, WorkTxn(db, k), Stays)
  {
    WorkCalm(db, k);
    WorkTxnEvolves(db, k);
    CalmMove(db, WorkTxn(db, k));
  }

  predicate RetryStep(step: Step) {
    step.Use? && step.request.OnEnd? && AddsRetry(step.request.end)
  }

  lemma TransactMove(cfg: Config, db: Db, request: Request) returns (m: Move)
    requires cfg.Valid() && Core(db)
    ensures Made(db, Transact(cfg, db, request), m)
    ensures RetryStep(Use(request)) ==> m.Stays? || m.Retries?
    ensures m.Retries? ==>
              && RetryStep(Use(request)) && m == Retries(request.end.run, request.end.retry)
              && Transact(cfg, db, request).runs[m.run].createdAt == request.end.now
  {
    match request
    case OnQueue(q) => m := QueueMove(db, q);
    case OnEnd(e) => m := EndMove(cfg, db, e);
    case OnWait(x) => m := WaitMove(cfg, db, x);
    case OnWork(k) =>
      WorkMove(db, k);
      m := Stays;
    case OnAgent(a) => m := AgentMove(db, a);
  }

  lemma AskMove(w: World, action: Action, c: Claim, t: ToolId, evidence: Evidence, grant: ApprovalId, now: Time)
    requires Scanned(w.db, action, evidence, grant)
    ensures var p := Propose(w.db, action, c, t, evidence, grant, now);
            p.Proceed? ==> Made(w.db, p.db, Stays)
  {
    if Propose(w.db, action, c, t, evidence, grant, now).Proceed? {
      AskEvolves(w, action, c, t, evidence, grant, now);
      AskCalm(w.db, action, c, t, evidence, grant, now);
      CalmMove(w.db, Propose(w.db, action, c, t, evidence, grant, now).db);
    }
  }

  lemma StoreMove(db: Db, action: Action, c: Claim, t: ToolId, succeeded: bool, now: Time)
    ensures Made(db, After(db, Finish(db, action, c, t, succeeded, now)), Stays)
  {
    TableMove(db, After(db, Finish(db, action, c, t, succeeded, now)));
  }

  /** Every step makes a move, and only the two retry requests make a retry. */
  lemma NextMove(cfg: Config, w: World, step: Step) returns (m: Move)
    requires cfg.Valid() && Core(w.db)
    ensures Made(w.db, Next(cfg, w, step).db, m)
    ensures RetryStep(step) ==> m.Stays? || m.Retries?
    ensures m.Retries? ==>
              && RetryStep(step) && m == Retries(step.request.end.run, step.request.end.retry)
              && Next(cfg, w, step).db.runs[m.run].createdAt == step.request.end.now
  {
    m := Stays;
    TableMove(w.db, w.db);
    match step
    case Use(request) => m := TransactMove(cfg, w.db, request);
    case Ask(action, c, t, evidence, grant, now) =>
      if Scanned(w.db, action, evidence, grant) {
        AskMove(w, action, c, t, evidence, grant, now);
      }
    case Store(t, succeeded, now) =>
      if t in w.flights {
        StoreMove(w.db, w.flights[t].action, w.flights[t].claim, t, succeeded, now);
      }
    case _ =>
  }
}
