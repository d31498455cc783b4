/**
 Every interleaving of the runtime's transactions.  A step is one transaction of any worker or API call, one
 move of an action in flight, or a crash that forgets it; a run of the system is a sequence of steps.  Every
 step carries its own reading of the clock, and no theorem here assumes that the readings are ordered.
 */
module RuntimeProtocol {
  import opened Common
  import opened RetryPolicy
  import opened RuntimeModel
  import opened RuntimeInvariants
  import opened RuntimeKeeps
  import opened RuntimeEndings
  import opened RuntimeTasks
  import opened ToolExecution

  datatype Config = Config(limits: Limits, policy: Policy) {
    predicate Valid() {
      limits.Valid() && policy.Valid()
    }
  }

  type Verdict = s: ApprovalStatus | !s.Pending? witness Approved
  type StepEnd = s: StepStatus | StepTerminal(s) witness StepSucceeded
  type ToolMove = s: ToolStatus | !s.ToolRequested? witness ToolRunning

  datatype QueueRequest = DoStartRun(task: TaskId, run: RunId, now: Time)
                        | DoStartQueued(run: RunId)
                        | DoClaim(run: RunId, worker: string, token: string, now: Time, expires: Time)
                        | DoRenew(run: RunId, claim: Claim, now: Time, expires: Time)
                        | DoGiveBack(run: RunId, claim: Claim, now: Time, availableAt: Option<Time>)
                        | DoRecover(run: RunId, now: Time)

  datatype EndRequest = DoComplete(run: RunId, now: Time)
                      | DoFail(run: RunId, now: Time)
                      | DoCancel(run: RunId, now: Time)
                      | DoRetry(run: RunId, retry: RunId, now: Time)
                      | DoSucceeded(run: RunId, claim: Claim, now: Time)
                      | DoFailed(run: RunId, claim: Claim, retryable: bool, retry: RunId, now: Time)
                      | DoCancelTask(task: TaskId)

  datatype WaitRequest = DoPark(run: RunId, fence: Option<Claim>, approval: ApprovalId, step: Option<StepId>,
                                fingerprint: Option<Fingerprint>, expiresAt: Option<Time>, now: Time)
                       | DoResolve(approval: ApprovalId, verdict: Verdict, now: Time)
                       | DoContract(delegation: DelegationId, run: RunId, target: AgentId)
                       | DoDispatch(run: RunId, claim: Claim, target: AgentId, delegation: DelegationId, task: TaskId,
                         child: RunId, now: Time)

  datatype WorkRequest = DoCreateStep(run: RunId, step: StepId, position: nat)
                       | DoStartStep(step: StepId)
                       | DoEndStep(step: StepId, end: StepEnd)
                       | DoRequestTool(run: RunId, tool: ToolId, onStep: Option<StepId>, approval: Option<ApprovalId>)
                       | DoMoveTool(tool: ToolId, move: ToolMove)

  datatype AgentRequest = DoSetTask(task: TaskId, status: TaskStatus)
                        | DoBind(task: TaskId, binding: Option<AgentId>)
                        | DoActivate(agent: AgentId, revision: Option<RevisionId>)
                        | DoResolveAgent(run: RunId, claim: Claim, now: Time)

  datatype Request = OnQueue(queue: QueueRequest)
                   | OnEnd(end: EndRequest)
                   | OnWait(wait: WaitRequest)
                   | OnWork(work: WorkRequest)
                   | OnAgent(agent: AgentRequest)

  ghost function QueueTxn(db: Db, q: QueueRequest): Db {
    match q
    case DoStartRun(task, r, now) => After(db, StartRun(db, task, r, now))
    case DoStartQueued(r) => After(db, StartQueuedRun(db, r))
    case DoClaim(r, worker, token, now, expires) => After(db, ClaimRun(db, r, worker, token, now, expires))
    case DoRenew(r, c, now, expires) => After(db, RenewLease(db, r, c, now, expires))
    case DoGiveBack(r, c, now, at) => After(db, GiveBack(db, r, c, now, at))
    case DoRecover(r, now) => After(db, RecoverLease(db, r, now))
  }

  ghost function EndTxn(cfg: Config, db: Db, e: EndRequest): Db
    requires cfg.Valid()
  {
    match e
    case DoComplete(r, now) => After(db, CompleteRun(db, r, now))
    case DoFail(r, now) => After(db, FailRun(db, r, now))
    case DoCancel(r, now) => After(db, CancelRun(db, r, now))
    case DoRetry(r, retry, now) => After(db, RetryFailedRun(db, r, retry, now))
    case DoSucceeded(r, c, now) => After(db, ApplySucceeded(db, r, c, now))
    case DoFailed(r, c, retryable, retry, now) => After(db, ApplyFailed(db, cfg.policy, r, c, retryable, retry, now))
    case DoCancelTask(task) => After(db, CancelTask(db, task))
  }

  ghost function WaitTxn(cfg: Config, db: Db, w: WaitRequest): Db
    requires cfg.Valid()
  {
    match w
    case DoPark(r, fence, a, step, fingerprint, expiresAt, now) =>
      After(db, RequestApproval(db, r, fence, a, step, fingerprint, expiresAt, now))
    case DoResolve(a, verdict, now) => After(db, ResolveApproval(db, a, verdict, now))
    case DoContract(d, parent, target) => After(db, CreateDelegation(db, d, parent, target))
    case DoDispatch(parent, c, target, d, task, child, now) =>
      After(db, DispatchDelegation(db, cfg.limits, parent, c, target, d, task, child, now))
  }

  ghost function WorkTxn(db: Db, k: WorkRequest): Db {
    match k
    case DoCreateStep(r, s, position) => After(db, CreateStep(db, r, s, position))
    case DoStartStep(s) => After(db, StartStep(db, s))
    case DoEndStep(s, end) => After(db, EndStep(db, s, end))
    case DoRequestTool(r, t, step, approval) => After(db, RequestTool(db, r, t, step, approval))
    case DoMoveTool(t, move) => After(db, MoveTool(db, t, move))
  }

  ghost function AgentTxn(db: Db, a: AgentRequest): Db {
    match a
    case DoSetTask(task, s) => After(db, SetTask(db, task, s))
    case DoBind(task, agent) => After(db, BindAgent(db, task, agent))
    case DoActivate(agent, revision) => After(db, ActivateRevision(db, agent, revision))
    case DoResolveAgent(r, c, now) =>
      var resolved := ResolveAgent(db, r, c, now);
      if resolved.Frozen? then resolved.db else db
  }

  ghost function Transact(cfg: Config, db: Db, request: Request): Db
    requires cfg.Valid()
  {
    match request
    case OnQueue(q) => QueueTxn(db, q)
    case OnEnd(e) => EndTxn(cfg, db, e)
    case OnWait(w) => WaitTxn(cfg, db, w)
    case OnWork(k) => WorkTxn(db, k)
    case OnAgent(a) => AgentTxn(db, a)
  }

  // ---- actions in flight -----------------------------------------------------------------

  /** Where a worker's execution of an action stands: recorded, claim re-checked, or gateway called. */
  datatype Phase = Recorded | Cleared | Called

  datatype Flight = Flight(action: Action, claim: Claim, approval: Option<ApprovalId>, phase: Phase)

  /** One call of the tool gateway. */
  datatype Effect = Effect(action: Action, tool: ToolId, approval: Option<ApprovalId>)

  datatype World = World(db: Db, flights: map<ToolId, Flight>, effects: seq<Effect>)

  datatype Step = Use(request: Request)
                | Ask(action: Action, claim: Claim, tool: ToolId, evidence: Evidence, grant: ApprovalId, now: Time)
                | Check(tool: ToolId, now: Time)
                | Call(tool: ToolId)
                | Store(tool: ToolId, succeeded: bool, now: Time)
                | Crash(tool: ToolId)

  ghost function Next(cfg: Config, w: World, step: Step): World
    requires cfg.Valid()
  {
    match step
    case Use(request) => w.(db := Transact(cfg, w.db, request))
    case Ask(action, c, t, evidence, grant, now) =>
      if !Scanned(w.db, action, evidence, grant) then w
      else
        var p := Propose(w.db, action, c, t, evidence, grant, now);
        if p.Proceed? then World(p.db, w.flights[t := Flight(action, c, p.approval, Recorded)], w.effects) else w
    case Check(t, now) =>
      if t !in w.flights || !w.flights[t].phase.Recorded? then w
      else if ActiveClaim(w.db.queue, w.flights[t].action.run, w.flights[t].claim, now)
        then w.(flights := w.flights[t := w.flights[t].(phase := Cleared)])
      else w.(flights := w.flights - {t})
    case Call(t) =>
      if t !in w.flights || !w.flights[t].phase.Cleared? then w
      else w.(flights := w.flights[t := w.flights[t].(phase := Called)],
              effects := w.effects + [Effect(w.flights[t].action, t, w.flights[t].approval)])
    case Store(t, succeeded, now) =>
      if t !in w.flights || !w.flights[t].phase.Called? then w
      else w.(db := After(w.db, Finish(w.db, w.flights[t].action, w.flights[t].claim, t, succeeded, now)),
              flights := w.flights - {t})
    case Crash(t) => w.(flights := w.flights - {t})
  }

  ghost function Exec(cfg: Config, w: World, steps: seq<Step>): World
    requires cfg.Valid()
  {
    if steps == [] then w else Next(cfg, Exec(cfg, w, steps[..|steps| - 1]), steps[|steps| - 1])
  }

  predicate CancelsTask(step: Step) {
    step.Use? && step.request.OnEnd? && step.request.end.DoCancelTask?
  }

  /** The executions whose open attempt this step cancels along with its task. */
  ghost function CutOf(db: Db, step: Step): iset<RunId> {
    if CancelsTask(step) && CancelTask(db, step.request.end.task).Commit? then CutBy(db.runs, step.request.end.task)
       else iset{}
  }

  /** The executions cut off by the task cancellations of a run so far. */
  ghost function Cut(cfg: Config, w: World, steps: seq<Step>): iset<RunId>
    requires cfg.Valid()
  {
    if steps == [] then iset{}
    else
      var front := steps[..|steps| - 1];
      Cut(cfg, w, front) + CutOf(Exec(cfg, w, front).db, steps[|steps| - 1])
  }

  /** A database without runs; tasks, agents and bindings may exist already. */
  predicate Fresh(w: World) {
    && w.db.runs == map[] && w.db.queue == map[] && w.db.approvals == map[] && w.db.steps == map[]
    && w.db.tools == map[]
    && w.db.delegations == map[] && w.db.resolutions == map[] && w.flights == map[] && w.effects == []
  }

  // ---- the invariants over whole runs ----------------------------------------------------

  lemma QueueTxnKeeps(db: Db, scope: Scope, q: QueueRequest)
    requires Inv(db, scope)
    ensures Inv(QueueTxn(db, q), scope)
  {
    match q
    case DoStartRun(task, r, now) => StartRunKeeps(db, scope, task, r, now);
    case DoStartQueued(r) => StartQueuedRunKeeps(db, scope, r);
    case DoClaim(r, worker, token, now, expires) => ClaimRunKeeps(db, scope, r, worker, token, now, expires);
    case DoRenew(r, c, now, expires) => RenewLeaseKeeps(db, scope, r, c, now, expires);
    case DoGiveBack(r, c, now, at) => GiveBackKeeps(db, scope, r, c, now, at);
    case DoRecover(r, now) => RecoverLeaseKeeps(db, scope, r, now);
  }

  lemma EndTxnKeeps(cfg: Config, db: Db, scope: Scope, e: EndRequest)
    requires cfg.Valid() && Inv(db, scope) && !e.DoCancelTask?
    ensures Inv(EndTxn(cfg, db, e), scope)
  {
    match e
    case DoComplete(r, now) => CompleteRunKeeps(db, scope, r, now);
    case DoFail(r, now) => FailRunKeeps(db, scope, r, now);
    case DoCancel(r, now) => CancelRunKeeps(db, scope, r, now);
    case DoRetry(r, retry, now) => RetryFailedRunKeeps(db, scope, r, retry, now);
    case DoSucceeded(r, c, now) => ApplySucceededKeeps(db, scope, r, c, now);
    case DoFailed(r, c, retryable, retry, now) => ApplyFailedKeeps(db, scope, cfg.policy, r, c, retryable, retry, now);
  }

  lemma WaitTxnKeeps(cfg: Config, db: Db, scope: Scope, w: WaitRequest)
    requires cfg.Valid() && Inv(db, scope)
    ensures Inv(WaitTxn(cfg, db, w), scope)
  {
    match w
    case DoPark(r, fence, a, step, fingerprint, expiresAt, now) =>
      RequestApprovalKeeps(db, scope, r, fence, a, step, fingerprint, expiresAt, now);
    case DoResolve(a, verdict, now) => ResolveApprovalKeeps(db, scope, a, verdict, now);
    case DoContract(d, parent, target) => CreateDelegationKeeps(db, scope, d, parent, target);
    case DoDispatch(parent, c, target, d, task, child, now) =>
      DispatchDelegationKeeps(db, scope, cfg.limits, parent, c, target, d, task, child, now);
  }

  lemma WorkTxnKeeps(db: Db, scope: Scope, k: WorkRequest)
    requires Inv(db, scope)
    ensures Inv(WorkTxn(db, k), scope)
  {
    match k
    case DoCreateStep(r, s, position) => CreateStepKeeps(db, scope, r, s, position);
    case DoStartStep(s) => StartStepKeeps(db, scope, s);
    case DoEndStep(s, end) => EndStepKeeps(db, scope, s, end);
    case DoRequestTool(r, t, step, approval) => RequestToolKeeps(db, scope, r, t, step, approval);
    case DoMoveTool(t, move) => MoveToolKeeps(db, scope, t, move);
  }

  lemma AgentTxnKeeps(db: Db, scope: Scope, a: AgentRequest)
    requires Inv(db, scope)
    ensures Inv(AgentTxn(db, a), scope)
  {
  }

  lemma TransactKeeps(cfg: Config, db: Db, scope: Scope, request: Request)
    requires cfg.Valid() && Inv(db, scope) && !CancelsTask(Use(request))
    ensures Inv(Transact(cfg, db, request), scope)
  {
    match request
    case OnQueue(q) => QueueTxnKeeps(db, scope, q);
    case OnEnd(e) => EndTxnKeeps(cfg, db, scope, e);
    case OnWait(w) => WaitTxnKeeps(cfg, db, scope, w);
    case OnWork(k) => WorkTxnKeeps(db, scope, k);
    case OnAgent(a) => AgentTxnKeeps(db, scope, a);
  }

  lemma OtherStepKeeps(cfg: Config, w: World, scope: Scope, step: Step)
    requires cfg.Valid() && Inv(w.db, scope) && !CancelsTask(step)
    ensures Inv(Next(cfg, w, step).db, scope)
  {
    match step
    case Use(request) => TransactKeeps(cfg, w.db, scope, request);
    case Ask(action, c, t, evidence, grant, now) =>
      if Scanned(w.db, action, evidence, grant) {
        ProposeKeeps(w.db, scope, action, c, t, evidence, grant, now);
      }
    case Store(t, succeeded, now) =>
      if t in w.flights {
        FinishKeeps(w.db, scope, w.flights[t].action, w.flights[t].claim, t, succeeded, now);
      }
    case _ =>
  }

  lemma CutNothing(scope: Scope)
    ensures Scope(scope.rows + iset{}, scope.cut + iset{}) == scope
  {
    assert scope.rows + iset{} == scope.rows && scope.cut + iset{} == scope.cut;
  }

  lemma NextKeeps(cfg: Config, w: World, scope: Scope, step: Step)
    requires cfg.Valid() && Inv(w.db, scope)
    ensures Inv(Next(cfg, w, step).db, Scope(scope.rows + CutOf(w.db, step), scope.cut + CutOf(w.db, step)))
  {
    CutNothing(scope);
    if CancelsTask(step) {
      CancelTaskKeeps(w.db, scope, step.request.end.task);
    } else {
      OtherStepKeeps(cfg, w, scope, step);
    }
  }

  /**
   From any state satisfying them, every run keeps the core invariants and, outside the cut, a worker for every
   dispatched delegation and no leftover row.
   */
  lemma {:induction false} RunKeeps(cfg: Config, w: World, steps: seq<Step>)
    requires cfg.Valid() && Inv(w.db, Scope(iset{}, iset{}))
    ensures Inv(Exec(cfg, w, steps).db, Scope(Cut(cfg, w, steps), Cut(cfg, w, steps)))
  {
    if steps != [] {
      var front := steps[..|steps| - 1];
      RunKeeps(cfg, w, front);
      NextKeeps(cfg, Exec(cfg, w, front), Scope(Cut(cfg, w, front), Cut(cfg, w, front)), steps[|steps| - 1]);
    }
  }

  lemma NextKeepsCore(cfg: Config, w: World, step: Step)
    requires cfg.Valid() && Core(w.db)
    ensures Core(Next(cfg, w, step).db)
  {
    CoreIsInv(w.db);
    NextKeeps(cfg, w, CoreOnly(), step);
  }

  /** From any state satisfying them, every run keeps the core invariants. */
  lemma {:induction false} RunKeepsCore(cfg: Config, w: World, steps: seq<Step>)
    requires cfg.Valid() && Core(w.db)
    ensures Core(Exec(cfg, w, steps).db)
  {
    if steps != [] {
      RunKeepsCore(cfg, w, steps[..|steps| - 1]);
      NextKeepsCore(cfg, Exec(cfg, w, steps[..|steps| - 1]), steps[|steps| - 1]);
    }
  }

  lemma FreshHolds(w: World)
    requires Fresh(w)
    ensures Inv(w.db, Scope(iset{}, iset{}))
  {
  }
}
