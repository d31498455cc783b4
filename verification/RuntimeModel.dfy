/**
 The durable rows of the agent runtime and its use cases as functions of the database.  One transaction
 is one function: it commits a new database or says why nothing was written.

 Runs are attempts.  Attempts that retry one another share an execution, whose id is the id of its first
 attempt; "latest" means latest by (created_at, id), as the repository orders them.
 */
module RuntimeModel {
  import opened Common
  import opened RetryPolicy

  type RunId = nat
  type TaskId = nat
  type ApprovalId = nat
  type StepId = nat
  type ToolId = nat
  type DelegationId = nat
  type AgentId = nat
  type RevisionId = nat

  datatype TaskStatus = TaskPending | TaskActive | TaskEnded

  datatype RunStatus = Queued | Running | WaitingForApproval | WaitingForDelegation | Succeeded | Failed | Cancelled

  datatype Run = Run(
    task: TaskId,
    execution: RunId,
    createdAt: Time,
    status: RunStatus,
    approval: Option<ApprovalId>,
    delegation: Option<DelegationId>)

  datatype Lease = Lease(worker: string, token: string, expires: Time)

  datatype WorkItem = WorkItem(availableAt: Time, lease: Option<Lease>, generation: nat)

  /** A worker's proof of ownership of a work item. */
  datatype Claim = Claim(worker: string, token: string, generation: nat)

  /**
   What an approval authorizes: SHA-256 of the exact action, here an injective constructor.  The older form
   does not bind the external scope.
   */
  datatype Fingerprint = Exact(run: RunId, step: Option<StepId>, call: string, scope: string)
                       | Legacy(run: RunId, step: Option<StepId>, call: string)

  datatype ApprovalStatus = Pending | Approved | Rejected | Withdrawn | Expired

  datatype Approval = Approval(
    run: RunId,
    step: Option<StepId>,
    status: ApprovalStatus,
    fingerprint: Option<Fingerprint>,
    expiresAt: Option<Time>,
    consumed: bool)

  datatype StepStatus = StepPending | StepRunning | StepWaiting
                      | StepSucceeded | StepFailed | StepSkipped | StepCancelled

  datatype RunStep = RunStep(run: RunId, position: nat, status: StepStatus, approval: Option<ApprovalId>)

  datatype ToolStatus = ToolRequested | ToolRunning | ToolSucceeded | ToolFailed | ToolCancelled

  datatype Tool = Tool(run: RunId, step: Option<StepId>, approval: Option<ApprovalId>, status: ToolStatus,
    external: bool)

  datatype DelegationStatus = Requested | Dispatched | DelegationSucceeded | DelegationFailed | DelegationCancelled

  datatype Delegation = Delegation(
    parent: RunId,
    child: Option<RunId>,
    status: DelegationStatus,
    root: DelegationId,
    depth: int,
    target: AgentId)

  datatype Resolution = Resolution(agent: AgentId, revision: RevisionId)

  datatype Db = Db(
    tasks: map<TaskId, TaskStatus>,
    runs: map<RunId, Run>,
    queue: map<RunId, WorkItem>,
    approvals: map<ApprovalId, Approval>,
    steps: map<StepId, RunStep>,
    tools: map<ToolId, Tool>,
    delegations: map<DelegationId, Delegation>,
    bindings: map<TaskId, AgentId>,
    agents: map<AgentId, Option<RevisionId>>,
    resolutions: map<RunId, Resolution>)

  datatype Error = NotFound | Conflict | ClaimLost | ExecutionAmbiguous

  datatype Txn = Commit(db: Db) | Abort(error: Error)

  function After(db: Db, t: Txn): Db {
    if t.Commit? then t.db else db
  }

  /** Friday-owned delegation budgets; the domain defaults are 3, 4 and 16. */
  datatype Limits = Limits(depth: int, perRun: int, perTree: int) {
    predicate Valid() {
      depth >= 1 && perRun >= 1 && perTree >= 1
    }
  }

  // ---- status classes --------------------------------------------------------------------

  predicate Terminal(s: RunStatus) {
    s.Succeeded? || s.Failed? || s.Cancelled?
  }

  /** QUEUED or RUNNING: the states in which a run needs a work item. */
  predicate Live(s: RunStatus) {
    s.Queued? || s.Running?
  }

  predicate StepTerminal(s: StepStatus) {
    s.StepSucceeded? || s.StepFailed? || s.StepSkipped? || s.StepCancelled?
  }

  predicate ToolTerminal(s: ToolStatus) {
    s.ToolSucceeded? || s.ToolFailed? || s.ToolCancelled?
  }

  predicate Settled(s: DelegationStatus) {
    s.DelegationSucceeded? || s.DelegationFailed? || s.DelegationCancelled?
  }

  // ---- queries ---------------------------------------------------------------------------

  /** A non-terminal attempt of an execution. */
  predicate Active(runs: map<RunId, Run>, r: RunId, execution: RunId) {
    r in runs && runs[r].execution == execution && !Terminal(runs[r].status)
  }

  predicate Attempt(runs: map<RunId, Run>, r: RunId, execution: RunId) {
    r in runs && runs[r].execution == execution
  }

  /** (created_at, id) order. */
  predicate Later(runs: map<RunId, Run>, a: RunId, b: RunId)
    requires a in runs && b in runs
  {
    runs[a].createdAt > runs[b].createdAt || (runs[a].createdAt == runs[b].createdAt && a > b)
  }

  ghost predicate IsLatest(runs: map<RunId, Run>, execution: RunId, r: RunId) {
    Attempt(runs, r, execution) && forall x :: Attempt(runs, x, execution) && x != r ==> Later(runs, r, x)
  }

  ghost function Latest(runs: map<RunId, Run>, execution: RunId): Option<RunId> {
    if exists r :: IsLatest(runs, execution, r) then
      var r :| IsLatest(runs, execution, r);
      Some(r)
    else None
  }

  /** The ordinal of an attempt in its execution, counted from one. */
  function Ordinal(runs: map<RunId, Run>, r: RunId): nat
    requires r in runs
  {
    |set x | x in runs && runs[x].execution == runs[r].execution && (x == r || Later(runs, r, x))|
  }

  predicate ActiveClaim(queue: map<RunId, WorkItem>, r: RunId, c: Claim, now: Time) {
    && r in queue
    && queue[r].lease.Some?
    && queue[r].lease.value.worker == c.worker
    && queue[r].lease.value.token == c.token
    && queue[r].generation == c.generation
    && queue[r].lease.value.expires > now
  }

  /** Delegation d was dispatched to this execution. */
  predicate DelegatesTo(db: Db, d: DelegationId, execution: RunId) {
    && d in db.delegations
    && db.delegations[d].child.Some?
    && db.delegations[d].child.value in db.runs
    && db.runs[db.delegations[d].child.value].execution == execution
  }

  ghost function IncomingDelegation(db: Db, execution: RunId): Option<DelegationId> {
    if exists d :: DelegatesTo(db, d, execution) then
      var d :| DelegatesTo(db, d, execution);
      Some(d)
    else None
  }

  predicate HasPendingApproval(db: Db, r: RunId) {
    exists a :: a in db.approvals && db.approvals[a].run == r && db.approvals[a].status.Pending?
  }

  predicate HasOpenStep(db: Db, r: RunId) {
    exists s :: s in db.steps && db.steps[s].run == r && !StepTerminal(db.steps[s].status)
  }

  predicate HasOpenTool(db: Db, r: RunId) {
    exists t :: t in db.tools && db.tools[t].run == r && !ToolTerminal(db.tools[t].status)
  }

  predicate HasDispatched(db: Db, r: RunId) {
    exists d :: d in db.delegations && db.delegations[d].parent == r && db.delegations[d].status.Dispatched?
  }

  function MaterializedForRun(delegations: map<DelegationId, Delegation>, r: RunId): set<DelegationId> {
    set d | d in delegations && delegations[d].parent == r && delegations[d].child.Some?
  }

  function MaterializedForTree(delegations: map<DelegationId, Delegation>, root: DelegationId): set<DelegationId> {
    set d | d in delegations && delegations[d].root == root && delegations[d].child.Some?
  }

  // ---- row updates -----------------------------------------------------------------------

  function Enqueue(queue: map<RunId, WorkItem>, r: RunId, availableAt: Time): map<RunId, WorkItem> {
    if r in queue then queue[r := queue[r].(availableAt := availableAt)]
    else queue[r := WorkItem(availableAt, None, 0)]
  }

  /** A new QUEUED attempt and its work item. */
  function AddAttempt(db: Db, r: RunId, task: TaskId, execution: RunId, now: Time, availableAt: Time): Db {
    db.(runs := db.runs[r := Run(task, execution, now, Queued, None, None)], queue := Enqueue(db.queue, r, availableAt))
  }

  function SetStatus(db: Db, r: RunId, s: RunStatus): Db
    requires r in db.runs
  {
    db.(runs := db.runs[r := db.runs[r].(status := s)])
  }

  function CancelStepsOf(steps: map<StepId, RunStep>, r: RunId): map<StepId, RunStep> {
    map s | s in steps ::
      if steps[s].run == r && !StepTerminal(steps[s].status) then steps[s].(status := StepCancelled, approval := None)
         else steps[s]
  }

  /** Cancelling a run's open steps cancels the tools of those steps, then the run's own tools. */
  function CancelToolsOf(tools: map<ToolId, Tool>, steps: map<StepId, RunStep>, r: RunId): map<ToolId, Tool> {
    map t | t in tools ::
      if !ToolTerminal(tools[t].status) && (tools[t].run == r || OnOpenStep(tools[t], steps, r))
      then tools[t].(status := ToolCancelled) else tools[t]
  }

  predicate OnOpenStep(t: Tool, steps: map<StepId, RunStep>, r: RunId) {
    t.step.Some? && t.step.value in steps && steps[t.step.value].run == r && !StepTerminal(steps[t.step.value].status)
  }

  function CancelToolsOnStep(tools: map<ToolId, Tool>, s: StepId): map<ToolId, Tool> {
    map t | t in tools ::
      if !ToolTerminal(tools[t].status) && tools[t].step == Some(s) then tools[t].(status := ToolCancelled)
         else tools[t]
  }

  function WithdrawPending(approvals: map<ApprovalId, Approval>, r: RunId): map<ApprovalId, Approval> {
    map a | a in approvals ::
      if approvals[a].run == r && approvals[a].status.Pending? then approvals[a].(status := Withdrawn) else approvals[a]
  }

  function CancelChildren(db: Db, r: RunId): Db {
    db.(steps := CancelStepsOf(db.steps, r), tools := CancelToolsOf(db.tools, db.steps, r))
  }

  /** A run ends: its row becomes terminal and its work item is deleted. */
  function EndRun(db: Db, r: RunId, s: RunStatus): Db
    requires r in db.runs
  {
    SetStatus(db, r, s).(queue := db.queue - {r})
  }

  /** The same, clearing both wait markers. */
  function CancelRow(db: Db, r: RunId): Db
    requires r in db.runs
  {
    db.(runs := db.runs[r := db.runs[r].(status := Cancelled, approval := None, delegation := None)])
  }

  // ---- delegation settlement (delegation_reconciliation.py) ------------------------------

  function SettledAs(s: RunStatus): DelegationStatus
    requires Terminal(s)
  {
    match s
    case Succeeded => DelegationSucceeded
    case Failed => DelegationFailed
    case Cancelled => DelegationCancelled
  }

  predicate WaitsOn(runs: map<RunId, Run>, r: RunId, d: DelegationId) {
    r in runs && runs[r].status.WaitingForDelegation? && runs[r].delegation == Some(d)
  }

  function Woken(runs: map<RunId, Run>, p: RunId, d: DelegationId): map<RunId, Run> {
    if WaitsOn(runs, p, d) then runs[p := runs[p].(status := Running, delegation := None)] else runs
  }

  /** Close a dispatched delegation and, if its parent still waits for it, resume and enqueue the parent. */
  function Settle(db: Db, d: DelegationId, s: DelegationStatus, now: Time): Db
    requires d in db.delegations
  {
    var p := db.delegations[d].parent;
    db.(
      delegations := db.delegations[d := db.delegations[d].(status := s)],
      runs := Woken(db.runs, p, d),
      queue := if WaitsOn(db.runs, p, d) then Enqueue(db.queue, p, now) else db.queue)
  }

  ghost function Reconcile(db: Db, execution: RunId, now: Time): Db {
    var d := IncomingDelegation(db, execution);
    if d.None? || !db.delegations[d.value].status.Dispatched? then db
    else
      var latest := Latest(db.runs, execution);
      if latest.None? || !Terminal(db.runs[latest.value].status) then db
      else Settle(db, d.value, SettledAs(db.runs[latest.value].status), now)
  }

  // ---- runs and work items ---------------------------------------------------------------

  function StartRun(db: Db, task: TaskId, r: RunId, now: Time): Txn {
    if task !in db.tasks then Abort(NotFound)
    else if db.tasks[task].TaskEnded? || r in db.runs then Abort(Conflict)
    else Commit(AddAttempt(db.(tasks := db.tasks[task := TaskActive]), r, task, r, now, now))
  }

  function StartQueuedRun(db: Db, r: RunId): Txn {
    if r !in db.runs then Abort(NotFound)
    else if db.runs[r].status.Running? then Commit(db)
    else if !db.runs[r].status.Queued? then Abort(Conflict)
    else if db.runs[r].task !in db.tasks then Abort(NotFound)
    else if !db.tasks[db.runs[r].task].TaskActive? then Abort(Conflict)
    else Commit(SetStatus(db, r, Running))
  }

  /** Claim a due work item; a leftover item of a run that cannot proceed is deleted instead. */
  function ClaimRun(db: Db, r: RunId, worker: string, token: string, now: Time, expires: Time): Txn {
    if r !in db.queue || db.queue[r].availableAt > now
       || (db.queue[r].lease.Some? && db.queue[r].lease.value.expires > now) then
      Abort(ClaimLost)
    else if r !in db.runs || !Live(db.runs[r].status) then Commit(db.(queue := db.queue - {r}))
    else
      var item := db.queue[r].(lease := Some(Lease(worker, token, expires)), generation := db.queue[r].generation + 1);
      Commit(SetStatus(db, r, Running).(queue := db.queue[r := item]))
  }

  function RenewLease(db: Db, r: RunId, c: Claim, now: Time, expires: Time): Txn {
    if !ActiveClaim(db.queue, r, c, now) then Abort(ClaimLost)
    else Commit(db.(queue := db.queue[r := db.queue[r].(lease := Some(Lease(c.worker, c.token, expires)))]))
  }

  /** Release (availableAt unchanged) and requeue (rescheduled) differ only in the availability written. */
  function GiveBack(db: Db, r: RunId, c: Claim, now: Time, availableAt: Option<Time>): Txn {
    if !ActiveClaim(db.queue, r, c, now) then Abort(ClaimLost)
    else
      var at := if availableAt.Some? then availableAt.value else db.queue[r].availableAt;
      Commit(db.(queue := db.queue[r := db.queue[r].(lease := None, availableAt := at)]))
  }

  /** An expired lease is cleared, or its item deleted if the run cannot proceed. */
  function Recovered(runs: map<RunId, Run>, queue: map<RunId, WorkItem>, r: RunId, now: Time): map<RunId, WorkItem> {
    if r !in queue || queue[r].lease.None? || queue[r].lease.value.expires > now then queue
    else if r !in runs || !Live(runs[r].status) then queue - {r}
    else queue[r := queue[r].(lease := None)]
  }

  function RecoverLease(db: Db, r: RunId, now: Time): Txn {
    Commit(db.(queue := Recovered(db.runs, db.queue, r, now)))
  }

  ghost function CompleteRun(db: Db, r: RunId, now: Time): Txn {
    if r !in db.runs then Abort(NotFound)
    else if db.runs[r].status.Succeeded? then Commit(db)
    else if !db.runs[r].status.Running? then Abort(Conflict)
    else if HasOpenStep(db, r) || HasOpenTool(db, r) || HasDispatched(db, r) then Abort(Conflict)
    else Commit(Reconcile(EndRun(db, r, Succeeded), db.runs[r].execution, now))
  }

  ghost function FailRun(db: Db, r: RunId, now: Time): Txn {
    if r !in db.runs then Abort(NotFound)
    else if db.runs[r].status.Failed? then Commit(db)
    else if !db.runs[r].status.Running? then Abort(Conflict)
    else Commit(Reconcile(EndRun(CancelChildren(db, r), r, Failed), db.runs[r].execution, now))
  }

  function CancelOnly(db: Db, r: RunId): Db
    requires r in db.runs
  {
    var children := CancelChildren(db, r);
    CancelRow(children, r).(queue := db.queue - {r}, approvals := WithdrawPending(db.approvals, r))
  }

  ghost function CancelRun(db: Db, r: RunId, now: Time): Txn {
    if r !in db.runs then Abort(NotFound)
    else if db.runs[r].status.Cancelled? then Commit(db)
    else if Terminal(db.runs[r].status) then
      var latest := Latest(db.runs, db.runs[r].execution);
      if latest.Some? && !Terminal(db.runs[latest.value].status)
      then Commit(Reconcile(CancelOnly(db, latest.value), db.runs[r].execution, now))
      else Abort(Conflict)
    else Commit(Reconcile(CancelOnly(db, r), db.runs[r].execution, now))
  }

  predicate LatestOfTask(runs: map<RunId, Run>, r: RunId)
    requires r in runs
  {
    forall x :: x in runs && runs[x].task == runs[r].task && x != r ==> Later(runs, r, x)
  }

  /** Copy the source attempt's frozen agent, if it has one. */
  function Inherit(resolutions: map<RunId, Resolution>, source: RunId, retry: RunId): map<RunId, Resolution> {
    if source in resolutions then resolutions[retry := resolutions[source]] else resolutions
  }

  function AddRetry(db: Db, source: RunId, retry: RunId, now: Time, availableAt: Time): Db
    requires source in db.runs
  {
    AddAttempt(db, retry, db.runs[source].task, db.runs[source].execution, now, availableAt)
      .(resolutions := Inherit(db.resolutions, source, retry))
  }

  ghost function RetryFailedRun(db: Db, r: RunId, retry: RunId, now: Time): Txn {
    if r !in db.runs then Abort(NotFound)
    else if !db.runs[r].status.Failed? then Abort(Conflict)
    else if IncomingDelegation(db, db.runs[r].execution).Some? then Abort(Conflict)
    else if db.runs[r].task !in db.tasks then Abort(NotFound)
    else if !LatestOfTask(db.runs, r) then Abort(Conflict)
    else if exists x :: x in db.runs && db.runs[x].task == db.runs[r].task && !Terminal(db.runs[x].status)
      then Abort(Conflict)
    else if !db.tasks[db.runs[r].task].TaskActive? || retry in db.runs then Abort(Conflict)
    else Commit(AddRetry(db, r, retry, now, now))
  }

  ghost function ApplySucceeded(db: Db, r: RunId, c: Claim, now: Time): Txn {
    if r !in db.runs then Abort(NotFound)
    else if HasOpenStep(db, r) || HasOpenTool(db, r) || HasPendingApproval(db, r) || HasDispatched(db, r)
      then Abort(Conflict)
    else if !ActiveClaim(db.queue, r, c, now) then Abort(ClaimLost)
    else if !db.runs[r].status.Running? then Abort(Conflict)
    else Commit(Reconcile(EndRun(db, r, Succeeded), db.runs[r].execution, now))
  }

  /** Fail an attempt and either add the next one or settle the delegation, in one transaction. */
  ghost function ApplyFailed(db: Db, policy: Policy, r: RunId, c: Claim, retryable: bool, retry: RunId, now: Time): Txn
    requires policy.Valid()
  {
    if r !in db.runs then Abort(NotFound)
    else if !ActiveClaim(db.queue, r, c, now) then Abort(ClaimLost)
    else if !db.runs[r].status.Running? then Abort(Conflict)
    else
      var failed := EndRun(CancelChildren(db, r), r, Failed);
      var attempt := Ordinal(db.runs, r);
      if policy.IsRetryAllowed(attempt, retryable) then
        if retry in db.runs then Abort(Conflict)
        else Commit(AddRetry(failed, r, retry, now, now + policy.ComputeDelay(attempt + 1)))
      else Commit(Reconcile(failed, db.runs[r].execution, now))
  }

  // ---- tasks -----------------------------------------------------------------------------

  /** Creation, activation, completion and failure of a task change no run; an ended task stays ended. */
  function SetTask(db: Db, task: TaskId, s: TaskStatus): Txn {
    if task in db.tasks && db.tasks[task].TaskEnded? then Abort(Conflict)
    else Commit(db.(tasks := db.tasks[task := s]))
  }

  predicate OpenRunOf(runs: map<RunId, Run>, r: RunId, task: TaskId) {
    r in runs && runs[r].task == task && !Terminal(runs[r].status)
  }

  function CancelRunsOfTask(runs: map<RunId, Run>, task: TaskId): map<RunId, Run> {
    map r | r in runs ::
      if OpenRunOf(runs, r, task) then runs[r].(status := Cancelled, approval := None, delegation := None) else runs[r]
  }

  predicate OpenStepOf(runs: map<RunId, Run>, steps: map<StepId, RunStep>, s: StepId, task: TaskId) {
    s in steps && OpenRunOf(runs, steps[s].run, task) && !StepTerminal(steps[s].status)
  }

  function CancelStepsOfTask(runs: map<RunId, Run>, steps: map<StepId, RunStep>, task: TaskId): map<StepId, RunStep> {
    map s | s in steps ::
      if OpenStepOf(runs, steps, s, task) then steps[s].(status := StepCancelled, approval := None) else steps[s]
  }

  function CancelToolsOfTask(runs: map<RunId, Run>, steps: map<StepId, RunStep>, tools: map<ToolId, Tool>,
                             task: TaskId): map<ToolId, Tool>
  {
    map t | t in tools ::
      if !ToolTerminal(tools[t].status)
         && (OpenRunOf(runs, tools[t].run, task)
              || (tools[t].step.Some? && OpenStepOf(runs, steps, tools[t].step.value, task)))
      then tools[t].(status := ToolCancelled) else tools[t]
  }

  /**
   Cancelling a task cancels its open runs with their steps and tools.  Unlike CancelRun it neither deletes
   work items, nor withdraws pending approvals, nor settles a delegation the run was working for.
   */
  function CancelTask(db: Db, task: TaskId): Txn {
    if task !in db.tasks then Abort(NotFound)
    else if db.tasks[task].TaskEnded? then Abort(Conflict)
    else Commit(db.(
      tasks := db.tasks[task := TaskEnded],
      runs := CancelRunsOfTask(db.runs, task),
      steps := CancelStepsOfTask(db.runs, db.steps, task),
      tools := CancelToolsOfTask(db.runs, db.steps, db.tools, task)))
  }

  // ---- approvals -------------------------------------------------------------------------

  predicate StepMayWait(db: Db, r: RunId, step: Option<StepId>) {
    step.Some? ==> step.value in db.steps && db.steps[step.value].run == r && db.steps[step.value].status.StepRunning?
  }

  /** Park a running run on a new approval; with a claim the parking is fenced. */
  function RequestApproval(db: Db, r: RunId, claim: Option<Claim>, a: ApprovalId, step: Option<StepId>,
                           fingerprint: Option<Fingerprint>, expiresAt: Option<Time>, now: Time): Txn
  {
    if claim.Some? && !ActiveClaim(db.queue, r, claim.value, now) then Abort(ClaimLost)
    else if r !in db.runs then Abort(NotFound)
    else if !db.runs[r].status.Running? then Abort(Conflict)
    else if step.Some? && step.value !in db.steps then Abort(NotFound)
    else if !StepMayWait(db, r, step) || HasPendingApproval(db, r) || a in db.approvals then Abort(Conflict)
    else if expiresAt.Some? && expiresAt.value <= now then Abort(Conflict)
    else Commit(ParkRun(ParkStep(db, step, a), r, a, Approval(r, step, Pending, fingerprint, expiresAt, false)))
  }

  function ParkStep(db: Db, step: Option<StepId>, a: ApprovalId): Db
    requires step.Some? ==> step.value in db.steps
  {
    if step.None? then db
    else db.(steps := db.steps[step.value := db.steps[step.value].(status := StepWaiting, approval := Some(a))])
  }

  function ParkRun(db: Db, r: RunId, a: ApprovalId, approval: Approval): Db
    requires r in db.runs
  {
    db.(
      approvals := db.approvals[a := approval],
      runs := db.runs[r := db.runs[r].(status := WaitingForApproval, approval := Some(a))],
      queue := db.queue - {r})
  }

  predicate WaitsForApproval(runs: map<RunId, Run>, r: RunId, a: ApprovalId) {
    r in runs && runs[r].status.WaitingForApproval? && runs[r].approval == Some(a)
  }

  /** The step of the approval goes back to RUNNING if it still waits for exactly this approval. */
  function ResumeStep(db: Db, a: ApprovalId): Db
    requires a in db.approvals
  {
    var step := db.approvals[a].step;
    if step.Some? && step.value in db.steps && db.steps[step.value].status.StepWaiting?
       && db.steps[step.value].approval == Some(a)
    then db.(steps := db.steps[step.value := db.steps[step.value].(status := StepRunning, approval := None)])
    else db
  }

  function Resumed(runs: map<RunId, Run>, r: RunId, a: ApprovalId): map<RunId, Run> {
    if WaitsForApproval(runs, r, a) then runs[r := runs[r].(status := Running, approval := None)] else runs
  }

  /** Resolve an approval and resume whatever still waits for exactly this approval. */
  function ResolveApproval(db: Db, a: ApprovalId, target: ApprovalStatus, now: Time): Txn
    requires !target.Pending?
  {
    if a !in db.approvals then Abort(NotFound)
    else
      var approval := db.approvals[a];
      if target.Expired? && approval.status.Pending? && (approval.expiresAt.None? || now < approval.expiresAt.value)
         then Abort(Conflict)
      else if approval.status == target then Commit(db)
      else if !approval.status.Pending? then Abort(Conflict)
      else if approval.run !in db.runs then Abort(NotFound)
      else if approval.step.Some? && approval.step.value !in db.steps then Abort(NotFound)
      else if approval.step.Some? && db.steps[approval.step.value].run != approval.run then Abort(Conflict)
      else Commit(Resolve(ResumeStep(db, a), a, approval.(status := target), now))
  }

  /** Write the resolved approval and wake its run if it waits for exactly this approval. */
  function Resolve(db: Db, a: ApprovalId, approval: Approval, now: Time): Db {
    db.(
      approvals := db.approvals[a := approval],
      runs := Resumed(db.runs, approval.run, a),
      queue := if WaitsForApproval(db.runs, approval.run, a) then Enqueue(db.queue, approval.run, now) else db.queue)
  }

  // ---- steps and tools -------------------------------------------------------------------

  predicate NextPosition(steps: map<StepId, RunStep>, r: RunId, position: nat) {
    && (forall s :: s in steps && steps[s].run == r ==> steps[s].position < position)
    && (position > 0 ==> exists s :: s in steps && steps[s].run == r && steps[s].position == position - 1)
  }

  /** `position` is the one the code computes: one past the largest of the run. */
  function CreateStep(db: Db, r: RunId, s: StepId, position: nat): Txn {
    if r !in db.runs then Abort(NotFound)
    else if !Live(db.runs[r].status) || s in db.steps || !NextPosition(db.steps, r, position) then Abort(Conflict)
    else Commit(db.(steps := db.steps[s := RunStep(r, position, StepPending, None)]))
  }

  function StartStep(db: Db, s: StepId): Txn {
    if s !in db.steps || db.steps[s].run !in db.runs then Abort(NotFound)
    else if db.steps[s].status.StepRunning? then Commit(db)
    else if !db.steps[s].status.StepPending? || !db.runs[db.steps[s].run].status.Running? then Abort(Conflict)
    else Commit(db.(steps := db.steps[s := db.steps[s].(status := StepRunning)]))
  }

  /** Complete, fail, skip or cancel a step; failing and cancelling also cancel its tools. */
  function EndStep(db: Db, s: StepId, target: StepStatus): Txn
    requires StepTerminal(target)
  {
    if s !in db.steps || db.steps[s].run !in db.runs then Abort(NotFound)
    else if db.steps[s].status == target then Commit(db)
    else if (target.StepSucceeded? || target.StepFailed?) && !db.steps[s].status.StepRunning? then Abort(Conflict)
    else if target.StepSkipped? && !db.steps[s].status.StepPending? then Abort(Conflict)
    else if StepTerminal(db.steps[s].status) then Abort(Conflict)
    else
      var ended := db.steps[s].(status := target, approval := if target.StepCancelled? then None
        else db.steps[s].approval);
      Commit(db.(
        steps := db.steps[s := ended],
        tools := if target.StepFailed? || target.StepCancelled? then CancelToolsOnStep(db.tools, s) else db.tools))
  }

  /** Record an invocation without executing it. */
  function RequestTool(db: Db, r: RunId, t: ToolId, step: Option<StepId>, approval: Option<ApprovalId>): Txn {
    if r !in db.runs then Abort(NotFound)
    else if !db.runs[r].status.Running? then Abort(Conflict)
    else if step.Some? && step.value !in db.steps then Abort(NotFound)
    else if !StepMayWait(db, r, step) then Abort(Conflict)
    else if approval.Some? && !ApprovalCovers(db, r, step, approval.value) then Abort(Conflict)
    else if t in db.tools then Abort(Conflict)
    else Commit(db.(tools := db.tools[t := Tool(r, step, approval, ToolRequested, false)]))
  }

  predicate ApprovalCovers(db: Db, r: RunId, step: Option<StepId>, a: ApprovalId) {
    && a in db.approvals && db.approvals[a].run == r && db.approvals[a].status.Approved?
    && (db.approvals[a].step.Some? ==> db.approvals[a].step == step)
  }

  function MoveTool(db: Db, t: ToolId, target: ToolStatus): Txn
    requires !target.ToolRequested?
  {
    if t !in db.tools || db.tools[t].run !in db.runs then Abort(NotFound)
    else if db.tools[t].status == target then Commit(db)
    else if target.ToolRunning? && !db.tools[t].status.ToolRequested? then Abort(Conflict)
    else if (target.ToolSucceeded? || target.ToolFailed?) && !db.tools[t].status.ToolRunning? then Abort(Conflict)
    else if ToolTerminal(db.tools[t].status) then Abort(Conflict)
    else Commit(db.(tools := db.tools[t := db.tools[t].(status := target)]))
  }

  // ---- delegation (delegation.py) --------------------------------------------------------

  /** A contract row without a child. */
  function CreateDelegation(db: Db, d: DelegationId, parent: RunId, target: AgentId): Txn {
    if parent !in db.runs || target !in db.agents then Abort(NotFound)
    else if db.agents[target].None? || d in db.delegations then Abort(Conflict)
    else Commit(db.(delegations := db.delegations[d := Delegation(parent, None, Requested, d, 1, target)]))
  }

  /** Materialize a child for a running, claimed parent and park the parent on it. */
  ghost function DispatchDelegation(db: Db, limits: Limits, parent: RunId, c: Claim, target: AgentId,
                                    d: DelegationId, task: TaskId, child: RunId, now: Time): Txn
    requires limits.Valid()
  {
    if !ActiveClaim(db.queue, parent, c, now) then Abort(ClaimLost)
    else if parent !in db.runs then Abort(NotFound)
    else if !db.runs[parent].status.Running? then Abort(Conflict)
    else
      var incoming := IncomingDelegation(db, db.runs[parent].execution);
      var depth := if incoming.Some? then db.delegations[incoming.value].depth + 1 else 1;
      var root := if incoming.Some? then db.delegations[incoming.value].root else d;
      if incoming.Some? && depth > limits.depth then Abort(Conflict)
      else if incoming.Some? && root !in db.delegations then Abort(Conflict)
      else if |MaterializedForRun(db.delegations, parent)| >= limits.perRun then Abort(Conflict)
      else if incoming.Some? && |MaterializedForTree(db.delegations, root)| >= limits.perTree then Abort(Conflict)
      else if target !in db.agents || db.agents[target].None? then Abort(Conflict)
      else if d in db.delegations || task in db.tasks || child in db.runs then Abort(Conflict)
      else
        var started := AddAttempt(db.(tasks := db.tasks[task := TaskActive], bindings := db.bindings[task := target]),
          child, task, child, now, now);
        Commit(ParkOnChild(started, d, Delegation(parent, Some(child), Dispatched, root, depth, target)))
  }

  /** Record the delegation and put its parent to sleep on it. */
  function ParkOnChild(db: Db, d: DelegationId, row: Delegation): Db
    requires row.parent in db.runs
  {
    db.(
      delegations := db.delegations[d := row],
      runs := db.runs[row.parent := db.runs[row.parent].(status := WaitingForDelegation, delegation := Some(d))],
      queue := db.queue - {row.parent})
  }

  // ---- agents (agent_registry.py) --------------------------------------------------------

  /** Rebinding a task and moving an agent's active revision are always allowed to race with runs. */
  function BindAgent(db: Db, task: TaskId, agent: Option<AgentId>): Txn {
    Commit(db.(bindings := if agent.Some? then db.bindings[task := agent.value] else db.bindings - {task}))
  }

  function ActivateRevision(db: Db, agent: AgentId, revision: Option<RevisionId>): Txn {
    Commit(db.(agents := db.agents[agent := revision]))
  }

  datatype Resolved = Frozen(db: Db, resolution: Option<Resolution>) | Refused(error: Error)

  /** Freeze, or read back, the agent a claimed run executes as. */
  ghost function ResolveAgent(db: Db, r: RunId, c: Claim, now: Time): Resolved {
    if r !in db.runs then Refused(NotFound)
    else if !ActiveClaim(db.queue, r, c, now) then Refused(ClaimLost)
    else
      var run := db.runs[r];
      var incoming := IncomingDelegation(db, run.execution);
      if r in db.resolutions then
        if incoming.Some? && db.resolutions[r].agent != db.delegations[incoming.value].target then Refused(Conflict)
        else Frozen(db, Some(db.resolutions[r]))
      else if run.task !in db.bindings then
        if incoming.Some? then Refused(Conflict) else Frozen(db, None)
      else
        var agent := db.bindings[run.task];
        if incoming.Some? && agent != db.delegations[incoming.value].target then Refused(Conflict)
        else if agent !in db.agents || db.agents[agent].None? then Refused(Conflict)
        else
          var resolution := Resolution(agent, db.agents[agent].value);
          Frozen(db.(resolutions := db.resolutions[r := resolution]), Some(resolution))
  }
}
