/** The use cases as they run: rows changed in place, one call after another, inside one transaction. */
module RuntimeStore {
  import opened Common
  import opened RuntimeModel
  import opened RuntimeInvariants
  import opened DelegationRows
  import opened RuntimeFrames
  import opened RuntimeKeeps
  import opened RuntimeEndings
  import opened RuntimeTasks
  import opened ToolExecution
  import opened ToolAnswers
  import M = RuntimeModel

  function ErrorOf(t: Txn): Option<Error> {
    if t.Commit? then None else Some(t.error)
  }

  function CancelledTools(tools: map<ToolId, Tool>, ids: set<ToolId>): map<ToolId, Tool> {
    map t | t in tools :: if t in ids && !ToolTerminal(tools[t].status) then tools[t].(status := ToolCancelled)
      else tools[t]
  }

  /** The steps of a run, cancelled up to those still pending. */
  function StepsDone(steps: map<StepId, RunStep>, r: RunId, pending: set<StepId>): map<StepId, RunStep> {
    map s | s in steps ::
      if steps[s].run == r && !StepTerminal(steps[s].status) && s !in pending
         then steps[s].(status := StepCancelled, approval := None) else steps[s]
  }

  function ToolsDone(tools: map<ToolId, Tool>, steps: map<StepId, RunStep>, r: RunId,
                     pending: set<StepId>): map<ToolId, Tool>
  {
    map t | t in tools ::
      if !ToolTerminal(tools[t].status) && OnOpenStep(tools[t], steps, r) && tools[t].step.value !in pending
      then tools[t].(status := ToolCancelled) else tools[t]
  }

  /** Cancelling one more open step and the tools on it. */
  lemma OneStepDone(steps: map<StepId, RunStep>, tools: map<ToolId, Tool>, r: RunId, pending: set<StepId>, s: StepId)
    requires s in pending && s in steps && steps[s].run == r
    ensures var before, now := StepsDone(steps, r, pending), ToolsDone(tools, steps, r, pending);
            var on := set t | t in now && now[t].step == Some(s);
            if StepTerminal(steps[s].status)
            then StepsDone(steps, r, pending - {s}) == before && ToolsDone(tools, steps, r, pending - {s}) == now
            else
              && StepsDone(steps, r, pending - {s}) == before[s := steps[s].(status := StepCancelled, approval := None)]
              && ToolsDone(tools, steps, r, pending - {s}) == CancelledTools(now, on)
  {
  }

  lemma AllStepsDone(steps: map<StepId, RunStep>, tools: map<ToolId, Tool>, r: RunId)
    ensures StepsDone(steps, r, {}) == CancelStepsOf(steps, r)
    ensures var now := ToolsDone(tools, steps, r, {});
            CancelledTools(now, set t | t in now && now[t].run == r) == CancelToolsOf(tools, steps, r)
  {
  }

  /** The runs, steps and tools of a task, cancelled up to the runs still pending. */
  function TaskRunsDone(runs: Runs, task: TaskId, pending: set<RunId>): Runs {
    map r | r in runs ::
      if OpenRunOf(runs, r, task) && r !in pending
         then runs[r].(status := Cancelled, approval := None, delegation := None) else runs[r]
  }

  function TaskStepsDone(runs: Runs, steps: map<StepId, RunStep>, task: TaskId,
                         pending: set<RunId>): map<StepId, RunStep>
  {
    map s | s in steps ::
      if OpenStepOf(runs, steps, s, task) && steps[s].run !in pending
         then steps[s].(status := StepCancelled, approval := None) else steps[s]
  }

  predicate ToolDone(runs: Runs, steps: map<StepId, RunStep>, tool: Tool, task: TaskId, pending: set<RunId>) {
    || (OpenRunOf(runs, tool.run, task) && tool.run !in pending)
    || (tool.step.Some? && OpenStepOf(runs, steps, tool.step.value, task) && steps[tool.step.value].run !in pending)
  }

  function TaskToolsDone(runs: Runs, steps: map<StepId, RunStep>, tools: map<ToolId, Tool>, task: TaskId,
                         pending: set<RunId>): map<ToolId, Tool>
  {
    map t | t in tools ::
      if !ToolTerminal(tools[t].status) && ToolDone(runs, steps, tools[t], task, pending)
         then tools[t].(status := ToolCancelled) else tools[t]
  }

  lemma OneRunDone(runs: Runs, steps: map<StepId, RunStep>, task: TaskId, pending: set<RunId>, r: RunId)
    requires r in pending && OpenRunOf(runs, r, task)
    ensures TaskRunsDone(runs, task, pending - {r}) ==
            TaskRunsDone(runs, task, pending)[r := runs[r].(status := Cancelled, approval := None, delegation := None)]
    ensures TaskStepsDone(runs, steps, task, pending - {r}) ==
            CancelStepsOf(TaskStepsDone(runs, steps, task, pending), r)
  {
  }

  lemma OneRunToolsDone(runs: Runs, steps: map<StepId, RunStep>, tools: map<ToolId, Tool>, task: TaskId,
                        pending: set<RunId>, r: RunId)
    requires r in pending && OpenRunOf(runs, r, task)
    ensures TaskToolsDone(runs, steps, tools, task, pending - {r}) ==
            CancelToolsOf(TaskToolsDone(runs, steps, tools, task, pending), TaskStepsDone(runs, steps, task, pending),
              r)
  {
  }

  lemma AllRunsDone(runs: Runs, steps: map<StepId, RunStep>, tools: map<ToolId, Tool>, task: TaskId)
    ensures TaskRunsDone(runs, task, {}) == CancelRunsOfTask(runs, task)
    ensures TaskStepsDone(runs, steps, task, {}) == CancelStepsOfTask(runs, steps, task)
    ensures TaskToolsDone(runs, steps, tools, task, {}) == CancelToolsOfTask(runs, steps, tools, task)
  {
  }

  class Runtime {
    var tasks: map<TaskId, TaskStatus>
    var runs: map<RunId, Run>
    var queue: map<RunId, WorkItem>
    var approvals: map<ApprovalId, Approval>
    var steps: map<StepId, RunStep>
    var tools: map<ToolId, Tool>
    var delegations: map<DelegationId, Delegation>
    var bindings: map<TaskId, AgentId>
    var agents: map<AgentId, Option<RevisionId>>
    var resolutions: map<RunId, Resolution>

    function Contents(): Db
      reads this
    {
      Db(tasks, runs, queue, approvals, steps, tools, delegations, bindings, agents, resolutions)
    }

    /** What looking up a delegation by its child relies on; part of the invariant that every use case keeps. */
    ghost predicate Consistent()
      reads this
    {
      Markers(runs) && Delegations(runs, delegations)
    }

    // ---- cascades ------------------------------------------------------------------------

    method CancelTools(ids: set<ToolId>)
      modifies this`tools
      ensures tools == CancelledTools(old(tools), ids)
    {
      var pending := set t | t in ids && t in tools;
      while pending != {}
        invariant forall t :: t in pending ==> t in ids
        invariant tools == CancelledTools(old(tools), set t | t in ids && t !in pending)
        invariant forall t :: t in ids && t in old(tools) && t !in pending ==> t in (set x | x in ids && x !in pending)
        decreases pending
      {
        var t :| t in pending;
        if t in tools && !ToolTerminal(tools[t].status) {
          tools := tools[t := tools[t].(status := ToolCancelled)];
        }
        pending := pending - {t};
      }
    }

    /** Cancel the open steps of a run with their tools, then the run's remaining tools. */
    method CancelOpenChildren(r: RunId)
      modifies this`steps, this`tools
      ensures steps == CancelStepsOf(old(steps), r) && tools == CancelToolsOf(old(tools), old(steps), r)
    {
      ghost var steps0, tools0 := steps, tools;
      var pending := set s | s in steps && steps[s].run == r;
      while pending != {}
        invariant forall s :: s in pending ==> s in steps && s in steps0 && steps[s] == steps0[s] && steps0[s].run == r
        invariant steps == StepsDone(steps0, r, pending)
        invariant tools == ToolsDone(tools0, steps0, r, pending)
        decreases pending
      {
        var s :| s in pending;
        if !StepTerminal(steps[s].status) {
          steps := steps[s := steps[s].(status := StepCancelled, approval := None)];
          CancelTools(set t | t in tools && tools[t].step == Some(s));
        }
        OneStepDone(steps0, tools0, r, pending, s);
        pending := pending - {s};
      }
      CancelTools(set t | t in tools && tools[t].run == r);
      AllStepsDone(steps0, tools0, r);
    }

    method WithdrawApprovals(r: RunId)
      modifies this`approvals
      ensures approvals == WithdrawPending(old(approvals), r)
    {
      var pending := set a | a in approvals && approvals[a].run == r && approvals[a].status.Pending?;
      while pending != {}
        invariant approvals.Keys == old(approvals).Keys
        invariant forall a :: a in pending ==>
                  a in old(approvals) && old(approvals)[a].run == r && old(approvals)[a].status.Pending?
        invariant forall a :: a in approvals ==>
          approvals[a] == if a !in pending && old(approvals)[a].run == r && old(approvals)[a].status.Pending?
                          then old(approvals)[a].(status := Withdrawn) else old(approvals)[a]
        decreases pending
      {
        var a :| a in pending;
        approvals := approvals[a := approvals[a].(status := Withdrawn)];
        pending := pending - {a};
      }
    }

    // ---- lookups -------------------------------------------------------------------------

    method LatestAttempt(execution: RunId) returns (latest: Option<RunId>)
      ensures latest == Latest(runs, execution)
    {
      var attempts := set x | x in runs && runs[x].execution == execution;
      var pending := attempts;
      latest := None;
      while pending != {}
        invariant pending <= attempts
        invariant latest.None? ==> pending == attempts
        invariant latest.Some? ==> latest.value in attempts
        invariant latest.Some? ==> forall x :: x in attempts && x !in pending && x != latest.value ==>
                  Later(runs, latest.value, x)
        decreases pending
      {
        var x :| x in pending;
        if latest.None? || Later(runs, x, latest.value) {
          latest := Some(x);
        }
        pending := pending - {x};
      }
      if latest.Some? {
        assert IsLatest(runs, execution, latest.value);
      } else {
        assert forall x :: Attempt(runs, x, execution) ==> x in attempts;
      }
    }

    method FindIncoming(execution: RunId) returns (found: Option<DelegationId>)
      requires Delegations(runs, delegations)
      ensures found == IncomingDelegation(Contents(), execution)
    {
      var pending := delegations.Keys;
      while pending != {}
        invariant pending <= delegations.Keys
        invariant forall d :: d in delegations && d !in pending ==> !DelegatesTo(Contents(), d, execution)
        decreases pending
      {
        var d :| d in pending;
        if DelegatesTo(Contents(), d, execution) {
          assert Linked(runs, delegations[d]);
          IncomingIs(Contents(), d, execution);
          return Some(d);
        }
        pending := pending - {d};
      }
      return None;
    }

    // ---- reconciliation ------------------------------------------------------------------

    /** The delegation of an ended execution takes the name of its latest attempt's outcome and wakes its parent. */
    method Reconcile(execution: RunId, now: Time)
      requires Delegations(runs, delegations)
      modifies this
      ensures Contents() == M.Reconcile(old(Contents()), execution, now)
      ensures Reconciled(old(Contents()), Contents(), execution, now)
    {
      ReconcileBears(Contents(), execution, now);
      SettleLatest(execution, now);
    }

    method SettleLatest(execution: RunId, now: Time)
      requires Delegations(runs, delegations)
      modifies this
      ensures Contents() == M.Reconcile(old(Contents()), execution, now)
    {
      var d := FindIncoming(execution);
      if d.None? || !delegations[d.value].status.Dispatched? {
        return;
      }
      var latest := LatestAttempt(execution);
      if latest.None? || !Terminal(runs[latest.value].status) {
        return;
      }
      delegations := delegations[d.value := delegations[d.value].(status := SettledAs(runs[latest.value].status))];
      var p := delegations[d.value].parent;
      if WaitsOn(runs, p, d.value) {
        runs := runs[p := runs[p].(status := Running, delegation := None)];
        queue := Enqueue(queue, p, now);
      }
    }

    // ---- runs and steps begin ------------------------------------------------------------

    method StartRun(task: TaskId, r: RunId, now: Time) returns (error: Option<Error>)
      modifies this`tasks, this`runs, this`queue
      ensures var t := M.StartRun(old(Contents()), task, r, now);
              Contents() == After(old(Contents()), t) && error == ErrorOf(t)
    {
      if task !in tasks {
        return Some(NotFound);
      }
      if tasks[task].TaskEnded? || r in runs {
        return Some(Conflict);
      }
      tasks := tasks[task := TaskActive];
      runs := runs[r := Run(task, r, now, Queued, None, None)];
      queue := Enqueue(queue, r, now);
      return None;
    }

    /** One past the largest position among the run's steps. */
    method FreePosition(r: RunId) returns (position: nat)
      ensures NextPosition(steps, r, position)
    {
      position := 0;
      var pending := set s | s in steps && steps[s].run == r;
      while pending != {}
        invariant forall s :: s in pending ==> s in steps && steps[s].run == r
        invariant forall s :: s in steps && steps[s].run == r && s !in pending ==> steps[s].position < position
        invariant position > 0 ==> exists s :: s in steps && steps[s].run == r && steps[s].position == position - 1
        decreases pending
      {
        var s :| s in pending;
        if steps[s].position >= position {
          position := steps[s].position + 1;
        }
        pending := pending - {s};
      }
    }

    /** Steps of a run are numbered in the order of their creation. */
    method CreateOrderedStep(r: RunId, s: StepId) returns (position: nat, error: Option<Error>)
      modifies this`steps
      ensures var t := CreateStep(old(Contents()), r, s, position);
              Contents() == After(old(Contents()), t) && error == ErrorOf(t)
      ensures NextPosition(old(steps), r, position)
    {
      position := FreePosition(r);
      if r !in runs {
        return position, Some(NotFound);
      }
      if !Live(runs[r].status) || s in steps {
        return position, Some(Conflict);
      }
      steps := steps[s := RunStep(r, position, StepPending, None)];
      return position, None;
    }

    // ---- runs end ------------------------------------------------------------------------

    method CompleteRun(r: RunId, now: Time) returns (error: Option<Error>)
      requires Consistent()
      modifies this
      ensures var t := M.CompleteRun(old(Contents()), r, now);
              Contents() == After(old(Contents()), t) && error == ErrorOf(t)
    {
      ghost var db := Contents();
      if r !in runs {
        return Some(NotFound);
      }
      if runs[r].status.Succeeded? {
        return None;
      }
      if !runs[r].status.Running? || HasOpenStep(Contents(), r) || HasOpenTool(Contents(), r)
         || HasDispatched(Contents(), r) {
        return Some(Conflict);
      }
      DelegationsUpdate(runs, delegations, r, runs[r].(status := Succeeded));
      runs := runs[r := runs[r].(status := Succeeded)];
      queue := queue - {r};
      assert Contents() == EndRun(db, r, Succeeded);
      Reconcile(runs[r].execution, now);
      return None;
    }

    method FailRun(r: RunId, now: Time) returns (error: Option<Error>)
      requires Consistent()
      modifies this
      ensures var t := M.FailRun(old(Contents()), r, now);
              Contents() == After(old(Contents()), t) && error == ErrorOf(t)
    {
      ghost var db := Contents();
      if r !in runs {
        return Some(NotFound);
      }
      if runs[r].status.Failed? {
        return None;
      }
      if !runs[r].status.Running? {
        return Some(Conflict);
      }
      DelegationsUpdate(runs, delegations, r, runs[r].(status := Failed));
      runs := runs[r := runs[r].(status := Failed)];
      CancelOpenChildren(r);
      queue := queue - {r};
      assert Contents() == EndRun(CancelChildren(db, r), r, Failed);
      Reconcile(runs[r].execution, now);
      return None;
    }

    /** Cancel one open attempt with everything that hangs on it. */
    method CancelAttempt(r: RunId, now: Time)
      requires Consistent() && r in runs && !Terminal(runs[r].status)
      modifies this
      ensures Contents() == M.Reconcile(CancelOnly(old(Contents()), r), old(runs)[r].execution, now)
    {
      ghost var db := Contents();
      DelegationsCancel(runs, delegations, r, runs[r].(status := Cancelled, approval := None, delegation := None));
      runs := runs[r := runs[r].(status := Cancelled, approval := None, delegation := None)];
      WithdrawApprovals(r);
      queue := queue - {r};
      CancelOpenChildren(r);
      assert Contents() == CancelOnly(db, r);
      Reconcile(runs[r].execution, now);
    }

    /** Cancelling an ended attempt cancels the latest one of its execution, if that is open. */
    method CancelRun(r: RunId, now: Time) returns (error: Option<Error>)
      requires Consistent()
      modifies this
      ensures var t := M.CancelRun(old(Contents()), r, now);
              Contents() == After(old(Contents()), t) && error == ErrorOf(t)
    {
      if r !in runs {
        return Some(NotFound);
      }
      if runs[r].status.Cancelled? {
        return None;
      }
      if Terminal(runs[r].status) {
        var latest := LatestAttempt(runs[r].execution);
        LatestExists(runs, r);
        if Terminal(runs[latest.value].status) {
          return Some(Conflict);
        }
        CancelAttempt(latest.value, now);
        return None;
      }
      CancelAttempt(r, now);
      return None;
    }

    method RetryFailedRun(r: RunId, retry: RunId, now: Time) returns (error: Option<Error>)
      requires Consistent()
      modifies this
      ensures var t := M.RetryFailedRun(old(Contents()), r, retry, now);
              Contents() == After(old(Contents()), t) && error == ErrorOf(t)
    {
      if r !in runs {
        return Some(NotFound);
      }
      if !runs[r].status.Failed? {
        return Some(Conflict);
      }
      var incoming := FindIncoming(runs[r].execution);
      if incoming.Some? {
        return Some(Conflict);
      }
      var task := runs[r].task;
      if task !in tasks {
        return Some(NotFound);
      }
      if !LatestOfTask(runs, r) || exists x :: x in runs && runs[x].task == task && !Terminal(runs[x].status) {
        return Some(Conflict);
      }
      if !tasks[task].TaskActive? || retry in runs {
        return Some(Conflict);
      }
      runs := runs[retry := Run(task, runs[r].execution, now, Queued, None, None)];
      if r in resolutions {
        resolutions := resolutions[retry := resolutions[r]];
      }
      queue := Enqueue(queue, retry, now);
      return None;
    }

    /** Cancel the open runs of a task, one after another, with their steps and tools. */
    method CancelTask(task: TaskId) returns (error: Option<Error>)
      modifies this`tasks, this`runs, this`steps, this`tools
      ensures var t := M.CancelTask(old(Contents()), task);
              Contents() == After(old(Contents()), t) && error == ErrorOf(t)
    {
      if task !in tasks {
        return Some(NotFound);
      }
      if tasks[task].TaskEnded? {
        return Some(Conflict);
      }
      tasks := tasks[task := TaskEnded];
      ghost var runs0, steps0, tools0 := runs, steps, tools;
      var pending := set r | r in runs && OpenRunOf(runs, r, task);
      while pending != {}
        invariant tasks == old(tasks)[task := TaskEnded]
        invariant forall r :: r in pending ==> OpenRunOf(runs0, r, task)
        invariant runs == TaskRunsDone(runs0, task, pending)
        invariant steps == TaskStepsDone(runs0, steps0, task, pending)
        invariant tools == TaskToolsDone(runs0, steps0, tools0, task, pending)
        decreases pending
      {
        var r :| r in pending;
        OneRunDone(runs0, steps0, task, pending, r);
        OneRunToolsDone(runs0, steps0, tools0, task, pending, r);
        runs := runs[r := runs[r].(status := Cancelled, approval := None, delegation := None)];
        CancelOpenChildren(r);
        pending := pending - {r};
      }
      AllRunsDone(runs0, steps0, tools0, task);
      return None;
    }

    /** Complete, fail, skip or cancel a step. */
    method EndStep(s: StepId, target: StepStatus) returns (error: Option<Error>)
      requires StepTerminal(target)
      modifies this`steps, this`tools
      ensures var t := M.EndStep(old(Contents()), s, target);
              Contents() == After(old(Contents()), t) && error == ErrorOf(t)
    {
      if s !in steps || steps[s].run !in runs {
        return Some(NotFound);
      }
      if steps[s].status == target {
        return None;
      }
      if StepTerminal(steps[s].status) || (target.StepSkipped? && !steps[s].status.StepPending?) {
        return Some(Conflict);
      }
      if (target.StepSucceeded? || target.StepFailed?) && !steps[s].status.StepRunning? {
        return Some(Conflict);
      }
      steps := steps[s :=
        steps[s].(status := target, approval := if target.StepCancelled? then None else steps[s].approval)];
      if target.StepFailed? || target.StepCancelled? {
        ghost var tools0 := tools;
        CancelTools(set t | t in tools && tools[t].step == Some(s));
        assert tools == CancelToolsOnStep(tools0, s);
      }
      return None;
    }

    // ---- waiting -------------------------------------------------------------------------

    method RequestApproval(r: RunId, claim: Option<Claim>, a: ApprovalId, step: Option<StepId>,
                           fingerprint: Option<Fingerprint>, expiresAt: Option<Time>,
                             now: Time) returns (error: Option<Error>)
      modifies this
      ensures var t := M.RequestApproval(old(Contents()), r, claim, a, step, fingerprint, expiresAt, now);
              Contents() == After(old(Contents()), t) && error == ErrorOf(t)
    {
      if claim.Some? && !ActiveClaim(queue, r, claim.value, now) {
        return Some(ClaimLost);
      }
      if r !in runs {
        return Some(NotFound);
      }
      if !runs[r].status.Running? {
        return Some(Conflict);
      }
      if step.Some? && step.value !in steps {
        return Some(NotFound);
      }
      if !StepMayWait(Contents(), r, step) || HasPendingApproval(Contents(), r) || a in approvals
         || (expiresAt.Some? && expiresAt.value <= now) {
        return Some(Conflict);
      }
      approvals := approvals[a := Approval(r, step, Pending, fingerprint, expiresAt, false)];
      runs := runs[r := runs[r].(status := WaitingForApproval, approval := Some(a))];
      queue := queue - {r};
      if step.Some? {
        steps := steps[step.value := steps[step.value].(status := StepWaiting, approval := Some(a))];
      }
      return None;
    }

    /** Resolve an approval; the run and the step resume only if they still wait for exactly this approval. */
    method ResolveApproval(a: ApprovalId, target: ApprovalStatus, now: Time) returns (error: Option<Error>)
      requires !target.Pending?
      modifies this
      ensures var t := M.ResolveApproval(old(Contents()), a, target, now);
              Contents() == After(old(Contents()), t) && error == ErrorOf(t)
    {
      if a !in approvals {
        return Some(NotFound);
      }
      var approval := approvals[a];
      if target.Expired? && approval.status.Pending? && (approval.expiresAt.None? || now < approval.expiresAt.value) {
        return Some(Conflict);
      }
      if approval.status == target {
        return None;
      }
      if !approval.status.Pending? {
        return Some(Conflict);
      }
      if approval.run !in runs || (approval.step.Some? && approval.step.value !in steps) {
        return Some(NotFound);
      }
      if approval.step.Some? && steps[approval.step.value].run != approval.run {
        return Some(Conflict);
      }
      approvals := approvals[a := approval.(status := target)];
      if WaitsForApproval(runs, approval.run, a) {
        runs := runs[approval.run := runs[approval.run].(status := Running, approval := None)];
        queue := Enqueue(queue, approval.run, now);
      }
      if approval.step.Some? && steps[approval.step.value].status.StepWaiting?
         && steps[approval.step.value].approval == Some(a) {
        steps := steps[approval.step.value := steps[approval.step.value].(status := StepRunning, approval := None)];
      }
      return None;
    }

    /** Child task, binding, run and work item, then the request, then the parent's sleep. */
    method Materialize(d: DelegationId, row: Delegation, task: TaskId, child: RunId, now: Time)
      requires row.parent in runs && child !in runs
      modifies this
      ensures var bound :=
              old(Contents()).(tasks := old(tasks)[task := TaskActive], bindings := old(bindings)[task := row.target]);
              Contents() == ParkOnChild(AddAttempt(bound, child, task, child, now, now), d, row)
    {
      tasks := tasks[task := TaskActive];
      bindings := bindings[task := row.target];
      runs := runs[child := Run(task, child, now, Queued, None, None)];
      queue := Enqueue(queue, child, now);
      delegations := delegations[d := row];
      runs := runs[row.parent := runs[row.parent].(status := WaitingForDelegation, delegation := Some(d))];
      queue := queue - {row.parent};
    }

    /** Materialize a child within the budgets and put the parent to sleep on it. */
    method DispatchDelegation(limits: Limits, parent: RunId, c: Claim, target: AgentId,
                              d: DelegationId, task: TaskId, child: RunId, now: Time) returns (error: Option<Error>)
      requires Consistent() && limits.Valid()
      modifies this
      ensures var t := M.DispatchDelegation(old(Contents()), limits, parent, c, target, d, task, child, now);
              Contents() == After(old(Contents()), t) && error == ErrorOf(t)
      ensures Core(old(Contents())) ==>
              (error.None? <==> Dispatchable(old(Contents()), limits, parent, c, target, d, task, child, now))
      ensures Core(old(Contents())) && error.None? ==>
              Handed(old(Contents()), Contents(), parent, target, d, task, child, now)
    {
      if Core(Contents()) {
        DispatchDecides(Contents(), limits, parent, c, target, d, task, child, now);
      }
      error := DispatchWithin(limits, parent, c, target, d, task, child, now);
    }

    /** Claim, parent, depth, run budget, tree budget, target and ids, in this order. */
    method DispatchWithin(limits: Limits, parent: RunId, c: Claim, target: AgentId,
                          d: DelegationId, task: TaskId, child: RunId, now: Time) returns (error: Option<Error>)
      requires Consistent() && limits.Valid()
      modifies this
      ensures var t := M.DispatchDelegation(old(Contents()), limits, parent, c, target, d, task, child, now);
              Contents() == After(old(Contents()), t) && error == ErrorOf(t)
    {
      if !ActiveClaim(queue, parent, c, now) {
        return Some(ClaimLost);
      }
      if parent !in runs {
        return Some(NotFound);
      }
      if !runs[parent].status.Running? {
        return Some(Conflict);
      }
      var depth, root := 1, d;
      var incoming := FindIncoming(runs[parent].execution);
      if incoming.Some? {
        depth, root := delegations[incoming.value].depth + 1, delegations[incoming.value].root;
        if depth > limits.depth || root !in delegations {
          return Some(Conflict);
        }
      }
      if |MaterializedForRun(delegations, parent)| >= limits.perRun {
        return Some(Conflict);
      }
      if incoming.Some? && |MaterializedForTree(delegations, root)| >= limits.perTree {
        return Some(Conflict);
      }
      if target !in agents || agents[target].None? || d in delegations || task in tasks || child in runs {
        return Some(Conflict);
      }
      Materialize(d, Delegation(parent, Some(child), Dispatched, root, depth, target), task, child, now);
      return None;
    }

    // ---- tool execution ------------------------------------------------------------------

    /** Both scans of a run's rows, in the order they are listed. */
    method Scan(action: Action, approvalIds: seq<ApprovalId>, toolIds: seq<ToolId>)
      returns (replay: Option<Evidence>, authorizing: Option<ApprovalId>, ghost evidence: Evidence,
        ghost grant: ApprovalId)
      requires Lists(Contents(), action.run, approvalIds, toolIds)
      ensures Scanned(Contents(), action, evidence, grant)
      ensures replay == if HasReplay(Contents(), action) then Some(evidence) else None
      ensures authorizing == if HasGrant(Contents(), action) then Some(grant) else None
    {
      replay := FindReplay(Contents(), action, approvalIds, toolIds);
      authorizing := FindAuthorizing(Contents(), action, approvalIds);
      evidence := if replay.Some? then replay.value else Evidence(0, 0);
      grant := if authorizing.Some? then authorizing.value else 0;
    }

    /** The first transaction around a tool's effect. */
    method AuthorizeTool(action: Action, c: Claim, t: ToolId, now: Time, approvalIds: seq<ApprovalId>,
                         toolIds: seq<ToolId>)
      returns (outcome: Proposal, ghost evidence: Evidence, ghost grant: ApprovalId)
      requires Lists(Contents(), action.run, approvalIds, toolIds)
      modifies this`approvals, this`tools
      ensures Scanned(old(Contents()), action, evidence, grant)
      ensures outcome == Propose(old(Contents()), action, c, t, evidence, grant, now)
      ensures Answers(old(Contents()), action, c, t, now, evidence, outcome)
      ensures Contents() == if outcome.Proceed? then outcome.db else old(Contents())
    {
      var replay, authorizing;
      replay, authorizing, evidence, grant := Scan(action, approvalIds, toolIds);
      ProposalAnswers(Contents(), action, c, t, evidence, grant, now);
      if !ActiveClaim(queue, action.run, c, now) {
        return Declined(ClaimLost), evidence, grant;
      }
      if action.run !in runs {
        return Declined(NotFound), evidence, grant;
      }
      if !runs[action.run].status.Running? {
        return Declined(Conflict), evidence, grant;
      }
      if action.protected {
        if replay.Some? {
          return Replay(Contents(), replay.value.tool), evidence, grant;
        }
        if authorizing.None? {
          return NeedsApproval, evidence, grant;
        }
      }
      if t in tools {
        return Declined(Conflict), evidence, grant;
      }
      if action.protected {
        approvals := Consume(approvals, authorizing.value);
        tools := tools[t := Invocation(action, authorizing)];
        return Proceed(Contents(), authorizing), evidence, grant;
      }
      tools := tools[t := Invocation(action, None)];
      return Proceed(Contents(), None), evidence, grant;
    }

    /** The second transaction: store the outcome of an invocation that is still running. */
    method StoreOutcome(action: Action, c: Claim, t: ToolId, succeeded: bool, now: Time) returns (error: Option<Error>)
      modifies this`tools
      ensures var txn := Finish(old(Contents()), action, c, t, succeeded, now);
              Contents() == After(old(Contents()), txn) && error == ErrorOf(txn)
    {
      if !ActiveClaim(queue, action.run, c, now) {
        return Some(ClaimLost);
      }
      if action.run !in runs {
        return Some(NotFound);
      }
      if t !in tools || !tools[t].status.ToolRunning? {
        return Some(Conflict);
      }
      tools := tools[t := tools[t].(status := if succeeded then ToolSucceeded else ToolFailed)];
      return None;
    }

    // ---- agents --------------------------------------------------------------------------

    /** Freeze, or read back, the agent a claimed run executes as. */
    method ResolveAgent(r: RunId, c: Claim, now: Time) returns (resolution: Option<Resolution>, error: Option<Error>)
      requires Consistent()
      modifies this`resolutions
      ensures var resolved := M.ResolveAgent(old(Contents()), r, c, now);
              match resolved
              case Frozen(db, x) => Contents() == db && resolution == x && error == None
              case Refused(e) => Contents() == old(Contents()) && resolution == None && error == Some(e)
      ensures error.None? <==> r in runs && ActiveClaim(queue, r, c, now) && HasAgent(old(Contents()), r)
      ensures error.None? ==> Froze(old(Contents()), Contents(), r, resolution)
    {
      ResolvesIff(Contents(), r, c, now);
      resolution, error := FreezeAgent(r, c, now);
    }

    method FreezeAgent(r: RunId, c: Claim, now: Time) returns (resolution: Option<Resolution>, error: Option<Error>)
      requires Consistent()
      modifies this`resolutions
      ensures var resolved := M.ResolveAgent(old(Contents()), r, c, now);
              match resolved
              case Frozen(db, x) => Contents() == db && resolution == x && error == None
              case Refused(e) => Contents() == old(Contents()) && resolution == None && error == Some(e)
    {
      if r !in runs {
        return None, Some(NotFound);
      }
      if !ActiveClaim(queue, r, c, now) {
        return None, Some(ClaimLost);
      }
      var incoming := FindIncoming(runs[r].execution);
      if r in resolutions {
        if incoming.Some? && resolutions[r].agent != delegations[incoming.value].target {
          return None, Some(Conflict);
        }
        return Some(resolutions[r]), None;
      }
      if runs[r].task !in bindings {
        return None, if incoming.Some? then Some(Conflict) else None;
      }
      var agent := bindings[runs[r].task];
      if incoming.Some? && agent != delegations[incoming.value].target {
        return None, Some(Conflict);
      }
      if agent !in agents || agents[agent].None? {
        return None, Some(Conflict);
      }
      resolutions := resolutions[r := Resolution(agent, agents[agent].value)];
      return Some(resolutions[r]), None;
    }
  }
}
