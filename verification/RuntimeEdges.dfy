/**
 Where the promises end.  Cancelling the task of a delegated child strands its waiting parent for ever, and two
 attempts created at the same instant can settle a delegation with the outcome of the wrong one.
 */
module RuntimeEdges {
  import opened Common
  import opened RuntimeModel
  import opened RuntimeInvariants
  import opened RuntimeFrames
  import opened RuntimeEndings
  import opened RuntimeProtocol
  import opened RuntimeEvolution
  import opened RuntimeSafety
  import opened ToolExecution
  import opened DelegationForest
  import opened AgentIdentity
  import opened AttemptHistory
  import opened DelegationRows

  // ---- a lost wake-up --------------------------------------------------------------------

  /** A parent sleeps on a delegation that nobody works for. */
  ghost predicate Stranded(db: Db, p: RunId, d: DelegationId) {
    && WaitsOn(db.runs, p, d)
    && d in db.delegations && db.delegations[d].parent == p && db.delegations[d].status.Dispatched?
    && db.delegations[d].child.Some?
    && !HasActive(db.runs, db.delegations[d].child.value)
  }

  /**
   Cancelling a task with an open run that works for a delegation strands the parent, unless it belongs to the task
   itself.
   */
  lemma CancelTaskStrands(db: Db, task: TaskId, r: RunId, d: DelegationId)
    requires Core(db) && CancelTask(db, task).Commit? && OpenRunOf(db.runs, r, task)
    requires d in db.delegations && db.delegations[d].child == Some(db.runs[r].execution)
    requires WaitsOn(db.runs, db.delegations[d].parent, d) && db.runs[db.delegations[d].parent].task != task
    ensures Stranded(CancelTask(db, task).db, db.delegations[d].parent, d)
  {
    var runs' := CancelRunsOfTask(db.runs, task);
    assert OpenChildIsDispatched(db.delegations, d, db.runs[r]);
    forall x ensures !Active(runs', x, db.runs[r].execution) {
      if x != r {
        assert !Active(db.runs, x, db.runs[r].execution);
      }
    }
  }

  function Start(): World {
    World(Db(map[0 := TaskActive], map[], map[], map[], map[], map[], map[], map[], map[0 := Some(0)], map[]), map[],
      [])
  }

  function Claimed(): Db {
    Start().db.(
      runs := map[0 := Run(0, 0, 0.0, Running, None, None)],
      queue := map[0 := WorkItem(0.0, Some(Lease("worker", "token", 1.0)), 1)])
  }

  // ---- reaching a state -------------------------------------------------------------------

  ghost predicate Reaches(cfg: Config, n: nat, w: World)
    requires cfg.Valid()
  {
    exists steps :: |steps| == n && Exec(cfg, Start(), steps) == w
  }

  lemma OneStep(cfg: Config, n: nat, w: World, step: Step)
    requires cfg.Valid() && Reaches(cfg, n, w)
    ensures Reaches(cfg, n + 1, Next(cfg, w, step))
  {
    var steps :| |steps| == n && Exec(cfg, Start(), steps) == w;
    var more := steps + [step];
    assert more[..|more| - 1] == steps;
    assert |more| == n + 1 && Exec(cfg, Start(), more) == Next(cfg, w, step);
  }

  /** Nothing in flight and no effect yet. */
  function Quiet(db: Db): World {
    World(db, map[], [])
  }

  lemma OneMore(cfg: Config, n: nat, db: Db, request: Request)
    requires cfg.Valid() && Reaches(cfg, n, Quiet(db))
    ensures Reaches(cfg, n + 1, Quiet(Transact(cfg, db, request)))
  {
    OneStep(cfg, n, Quiet(db), Use(request));
  }

  /** Start a run and claim it. */
  lemma ReachClaimed(cfg: Config)
    requires cfg.Valid()
    ensures Reaches(cfg, 2, Quiet(Claimed()))
  {
    assert Exec(cfg, Start(), []) == Quiet(Start().db);
    var started := After(Start().db, StartRun(Start().db, 0, 0, 0.0));
    assert started.runs == map[0 := Run(0, 0, 0.0, Queued, None, None)];
    assert started.queue == map[0 := WorkItem(0.0, None, 0)];
    OneMore(cfg, 0, Start().db, OnQueue(DoStartRun(0, 0, 0.0)));
    OneMore(cfg, 1, started, OnQueue(DoClaim(0, "worker", "token", 0.0, 1.0)));
    assert After(started, ClaimRun(started, 0, "worker", "token", 0.0, 1.0)) == Claimed();
  }

  /** Run 0 waits for a delegation to this child. */
  predicate Delegating(db: Db, child: RunId) {
    && child != 0
    && db.delegations == map[0 := Delegation(0, Some(child), Dispatched, 0, 1, 0)]
    && db.tasks == map[0 := TaskActive, 1 := TaskActive]
    && db.runs ==
       map[0 := Run(0, 0, 0.0, WaitingForDelegation, None, Some(0)), child := Run(1, child, 0.0, Queued, None, None)]
    && db.queue == map[child := WorkItem(0.0, None, 0)] && db.steps == map[] && db.tools == map[]
  }

  lemma Delegates(cfg: Config, claim: Claim, child: RunId)
    requires cfg.Valid() && claim == Claim("worker", "token", 1) && child != 0
    ensures Delegating(After(Claimed(), DispatchDelegation(Claimed(), cfg.limits, 0, claim, 0, 0, 1, child, 0.0)),
            child)
  {
    assert forall d :: !DelegatesTo(Claimed(), d, 0);
    assert MaterializedForRun(Claimed().delegations, 0) == {};
  }

  lemma ReachDelegating(cfg: Config, child: RunId) returns (db: Db)
    requires cfg.Valid() && child != 0
    ensures Reaches(cfg, 3, Quiet(db)) && Delegating(db, child)
  {
    var claim := Claim("worker", "token", 1);
    ReachClaimed(cfg);
    Delegates(cfg, claim, child);
    OneMore(cfg, 2, Claimed(), OnWait(DoDispatch(0, claim, 0, 0, 1, child, 0.0)));
    db := After(Claimed(), DispatchDelegation(Claimed(), cfg.limits, 0, claim, 0, 0, 1, child, 0.0));
  }

  /** Start, claim, delegate, cancel the child's task: it strands the parent and leaves a work item behind. */
  lemma StrandingIsReachable(cfg: Config) returns (db: Db)
    requires cfg.Valid()
    ensures Reaches(cfg, 4, Quiet(db)) && Stranded(db, 0, 0)
    ensures 1 in db.queue && 1 in db.runs && db.runs[1].status.Cancelled?
  {
    var before := ReachDelegating(cfg, 1);
    OneMore(cfg, 3, before, OnEnd(DoCancelTask(1)));
    db := After(before, CancelTask(before, 1));
  }

  /** A pending approval of a cancelled run. */
  predicate Orphaned(db: Db, a: ApprovalId) {
    && a in db.approvals && db.approvals[a].status.Pending?
    && db.approvals[a].run in db.runs && db.runs[db.approvals[a].run].status.Cancelled?
  }

  function Asking(): Db {
    Claimed().(
      runs := map[0 := Run(0, 0, 0.0, WaitingForApproval, Some(0), None)],
      queue := map[],
      approvals := map[0 := Approval(0, None, Pending, None, None, false)])
  }

  lemma ReachAsking(cfg: Config)
    requires cfg.Valid()
    ensures Reaches(cfg, 3, Quiet(Asking()))
  {
    ReachClaimed(cfg);
    OneMore(cfg, 2, Claimed(), OnWait(DoPark(0, None, 0, None, None, None, 0.0)));
    assert After(Claimed(), RequestApproval(Claimed(), 0, None, 0, None, None, None, 0.0)) == Asking();
  }

  /** Start, claim, ask for approval, cancel the task: the approval stays pending. */
  lemma OrphanIsReachable(cfg: Config) returns (db: Db)
    requires cfg.Valid()
    ensures Reaches(cfg, 4, Quiet(db)) && Orphaned(db, 0)
  {
    ReachAsking(cfg);
    OneMore(cfg, 3, Asking(), OnEnd(DoCancelTask(0)));
    db := After(Asking(), CancelTask(Asking(), 0));
  }

  // ---- what settles a delegation ---------------------------------------------------------

  /**
   The open attempt r ends and settles its delegation, under the name of r's own outcome exactly when r is the newest
   attempt or failed; otherwise as failed.
   */
  ghost predicate SettledBy(db: Db, db': Db, d: DelegationId, r: RunId) {
    && d in db.delegations && d in db'.delegations && db.delegations[d].child.Some?
    && Active(db.runs, r, db.delegations[d].child.value) && r in db'.runs && Terminal(db'.runs[r].status)
    && Settled(db'.delegations[d].status)
    && (Bears(db'.delegations[d].status, db'.runs[r].status) <==> Head(db.runs, r) || db'.runs[r].status.Failed?)
    && (Bears(db'.delegations[d].status, db'.runs[r].status) || db'.delegations[d].status.DelegationFailed?)
  }

  ghost predicate Settlement(db: Db, db': Db, d: DelegationId) {
    && d in db.delegations && d in db'.delegations
    && (db'.delegations[d].status == db.delegations[d].status || exists r :: SettledBy(db, db', d, r))
  }

  /** A delegation whose earlier attempts failed. */
  ghost predicate Settling(db: Db, d: DelegationId) {
    && d in db.delegations && Linked(db.runs, db.delegations[d])
    && (db.delegations[d].child.Some? ==> OthersFailed(db.runs, db.delegations[d].child.value))
  }

  lemma NotSettled(db: Db, db': Db, d: DelegationId)
    requires d in db.delegations && db'.delegations == db.delegations
    ensures Settlement(db, db', d)
  {
  }

  lemma ReconcileSettles(db: Db, ended: Db, r: RunId, row: Run, d: DelegationId, now: Time)
    requires Settling(db, d) && r in db.runs && !Terminal(db.runs[r].status) && SameAttempt(db.runs[r], row)
    requires Terminal(row.status)
    requires ended.delegations == db.delegations && ended.runs == db.runs[r := row]
    ensures Settlement(db, Reconcile(ended, row.execution, now), d)
  {
    var e := row.execution;
    var i := IncomingDelegation(ended, e);
    LatestExists(ended.runs, r);
    var latest := Latest(ended.runs, e).value;
    if i.Some? {
      assert DelegatesTo(ended, i.value, e);
      if i.value == d && Terminal(ended.runs[latest].status) {
        LatestSettles(db, ended, r, row, d, latest, now);
      }
    }
  }

  lemma LatestSettles(db: Db, ended: Db, r: RunId, row: Run, d: DelegationId, latest: RunId, now: Time)
    requires Settling(db, d) && r in db.runs && !Terminal(db.runs[r].status) && SameAttempt(db.runs[r], row)
    requires Terminal(row.status)
    requires ended.delegations == db.delegations && ended.runs == db.runs[r := row]
    requires DelegatesTo(ended, d, row.execution)
    requires IsLatest(ended.runs, row.execution, latest) && Terminal(ended.runs[latest].status)
    ensures SettledBy(db, Settle(ended, d, SettledAs(ended.runs[latest].status), now), d, r)
  {
    assert Active(db.runs, r, row.execution);
    LatestOutcome(db, ended.runs, r, row, latest);
  }

  lemma LatestOutcome(db: Db, runs': Runs, r: RunId, row: Run, latest: RunId)
    requires r in db.runs && Active(db.runs, r, row.execution) && OthersFailed(db.runs, row.execution)
    requires SameAttempt(db.runs[r], row)
    requires runs' == db.runs[r := row] && Terminal(row.status) && IsLatest(runs', row.execution, latest)
    requires Terminal(runs'[latest].status)
    ensures Bears(SettledAs(runs'[latest].status), row.status) <==> Head(db.runs, r) || row.status.Failed?
    ensures Bears(SettledAs(runs'[latest].status), row.status) || SettledAs(runs'[latest].status).DelegationFailed?
  {
    if latest == r {
      forall x | x in db.runs && db.runs[x].execution == db.runs[r].execution && x != r ensures Later(db.runs, r, x) {
        assert Attempt(runs', x, row.execution);
      }
    } else {
      assert Attempt(db.runs, latest, row.execution);
      assert Later(runs', latest, r);
    }
  }

  lemma SucceedSettles(db: Db, r: RunId, now: Time, d: DelegationId)
    requires Settling(db, d) && r in db.runs && !Terminal(db.runs[r].status)
    ensures Settlement(db, Reconcile(EndRun(db, r, Succeeded), db.runs[r].execution, now), d)
  {
    ReconcileSettles(db, EndRun(db, r, Succeeded), r, db.runs[r].(status := Succeeded), d, now);
  }

  lemma FailSettles(db: Db, r: RunId, now: Time, d: DelegationId)
    requires Settling(db, d) && r in db.runs && !Terminal(db.runs[r].status)
    ensures Settlement(db, Reconcile(EndRun(CancelChildren(db, r), r, Failed), db.runs[r].execution, now), d)
  {
    ReconcileSettles(db, EndRun(CancelChildren(db, r), r, Failed), r, db.runs[r].(status := Failed), d, now);
  }

  lemma CancelOnlySettles(db: Db, r: RunId, now: Time, d: DelegationId)
    requires Settling(db, d) && r in db.runs && !Terminal(db.runs[r].status)
    ensures Settlement(db, Reconcile(CancelOnly(db, r), db.runs[r].execution, now), d)
  {
    ReconcileSettles(db, CancelOnly(db, r), r, db.runs[r].(status := Cancelled, approval := None, delegation := None),
      d, now);
  }

  lemma CancelSettles(db: Db, r: RunId, now: Time, d: DelegationId)
    requires Settling(db, d)
    ensures Settlement(db, After(db, CancelRun(db, r, now)), d)
  {
    if r in db.runs {
      LatestExists(db.runs, r);
      var latest := Latest(db.runs, db.runs[r].execution).value;
      if !Terminal(db.runs[r].status) {
        CancelOnlySettles(db, r, now, d);
      } else if !Terminal(db.runs[latest].status) {
        CancelOnlySettles(db, latest, now, d);
      }
    }
  }

  lemma FailedSettles(cfg: Config, db: Db, r: RunId, c: Claim, retryable: bool, retry: RunId, now: Time,
                      d: DelegationId)
    requires cfg.Valid() && Settling(db, d)
    ensures Settlement(db, After(db, ApplyFailed(db, cfg.policy, r, c, retryable, retry, now)), d)
  {
    ApplyFailedShape(db, cfg.policy, r, c, retryable, retry, now);
    if ApplyFailed(db, cfg.policy, r, c, retryable, retry, now).Commit? {
      FailSettles(db, r, now, d);
    }
  }

  lemma CompleteSettles(db: Db, r: RunId, now: Time, d: DelegationId)
    requires Settling(db, d)
    ensures Settlement(db, After(db, CompleteRun(db, r, now)), d)
  {
    if r in db.runs && db.runs[r].status.Running? {
      SucceedSettles(db, r, now, d);
    }
  }

  lemma FailRunSettles(db: Db, r: RunId, now: Time, d: DelegationId)
    requires Settling(db, d)
    ensures Settlement(db, After(db, FailRun(db, r, now)), d)
  {
    if r in db.runs && db.runs[r].status.Running? {
      FailSettles(db, r, now, d);
    }
  }

  lemma ApplySucceededSettles(db: Db, r: RunId, c: Claim, now: Time, d: DelegationId)
    requires Settling(db, d)
    ensures Settlement(db, After(db, ApplySucceeded(db, r, c, now)), d)
  {
    if r in db.runs && db.runs[r].status.Running? {
      SucceedSettles(db, r, now, d);
    }
  }

  lemma EndSettles(cfg: Config, db: Db, x: EndRequest, d: DelegationId)
    requires cfg.Valid() && Settling(db, d)
    ensures Settlement(db, EndTxn(cfg, db, x), d)
  {
    match x
    case DoComplete(r, now) => CompleteSettles(db, r, now, d);
    case DoFail(r, now) => FailRunSettles(db, r, now, d);
    case DoCancel(r, now) => CancelSettles(db, r, now, d);
    case DoRetry(r, retry, now) => NotSettled(db, After(db, RetryFailedRun(db, r, retry, now)), d);
    case DoSucceeded(r, c, now) => ApplySucceededSettles(db, r, c, now, d);
    case DoFailed(r, c, retryable, retry, now) => FailedSettles(cfg, db, r, c, retryable, retry, now, d);
    case DoCancelTask(task) => NotSettled(db, After(db, CancelTask(db, task)), d);
  }

  lemma WaitSettles(cfg: Config, db: Db, x: WaitRequest, d: DelegationId)
    requires cfg.Valid() && d in db.delegations
    ensures Settlement(db, WaitTxn(cfg, db, x), d)
  {
    match x
    case DoContract(_, parent, target) =>
    case DoDispatch(parent, c, target, dispatched, task, child, now) =>
      DispatchSettles(db, cfg.limits, parent, c, target, dispatched, task, child, now, d);
    case _ =>
      WaitKeys(cfg, db, x);
      NotSettled(db, WaitTxn(cfg, db, x), d);
  }

  lemma DispatchSettles(db: Db, limits: Limits, parent: RunId, c: Claim, target: AgentId,
                        dispatched: DelegationId, task: TaskId, child: RunId, now: Time, d: DelegationId)
    requires limits.Valid() && d in db.delegations
    ensures Settlement(db, After(db, DispatchDelegation(db, limits, parent, c, target, dispatched, task, child, now)),
            d)
  {
  }

  lemma TransactSettles(cfg: Config, db: Db, request: Request, d: DelegationId)
    requires cfg.Valid() && Settling(db, d)
    ensures Settlement(db, Transact(cfg, db, request), d)
  {
    match request
    case OnQueue(q) =>
      QueueKeys(db, q);
      NotSettled(db, QueueTxn(db, q), d);
    case OnEnd(x) => EndSettles(cfg, db, x, d);
    case OnWait(x) => WaitSettles(cfg, db, x, d);
    case OnWork(k) =>
      WorkKeys(db, k);
      NotSettled(db, WorkTxn(db, k), d);
    case OnAgent(a) =>
      AgentKeys(db, a);
      NotSettled(db, AgentTxn(db, a), d);
  }

  /** A step changes a delegation's status only by ending the open attempt that works for it. */
  lemma NextSettles(cfg: Config, w: World, step: Step, d: DelegationId)
    requires cfg.Valid() && Settling(w.db, d)
    ensures Settlement(w.db, Next(cfg, w, step).db, d)
  {
    match step
    case Use(request) => TransactSettles(cfg, w.db, request, d);
    case Ask(action, c, t, evidence, grant, now) =>
      if Scanned(w.db, action, evidence, grant) {
        AskKeys(w.db, action, c, t, evidence, grant, now);
      }
      NotSettled(w.db, Next(cfg, w, step).db, d);
    case _ => NotSettled(w.db, Next(cfg, w, step).db, d);
  }

  // ---- a stranded parent stays asleep ------------------------------------------------------

  lemma StaysStranded(cfg: Config, w: World, step: Step, p: RunId, d: DelegationId)
    requires cfg.Valid() && Core(w.db) && Stranded(w.db, p, d)
    ensures var db' := Next(cfg, w, step).db;
            d in db'.delegations && db'.delegations[d] == w.db.delegations[d]
              && !HasActive(db'.runs, db'.delegations[d].child.value)
  {
    var e := w.db.delegations[d].child.value;
    ChildIsDelegated(w.db, d, e);
    ClosedForGood(cfg, w, step, e);
    NextSettles(cfg, w, step, d);
    NextEvolves(cfg, w, step);
    assert SameRequest(w.db.delegations[d], Next(cfg, w, step).db.delegations[d]);
  }

  /** Asleep on a delegation nobody works for, or cancelled. */
  ghost predicate Lost(db: Db, p: RunId, d: DelegationId) {
    p in db.runs && (Stranded(db, p, d) || db.runs[p].status.Cancelled?)
  }

  lemma LostNext(cfg: Config, w: World, step: Step, p: RunId, d: DelegationId)
    requires cfg.Valid() && Core(w.db) && Lost(w.db, p, d)
    ensures Lost(Next(cfg, w, step).db, p, d)
  {
    NextEvolves(cfg, w, step);
    NextKeepsCore(cfg, w, step);
    if Stranded(w.db, p, d) {
      StaysStranded(cfg, w, step, p, d);
      if !WaitsOn(Next(cfg, w, step).db.runs, p, d) {
        WakeSettles(w.db, Next(cfg, w, step).db, p, d);
      }
    }
  }

  /** Whatever is done afterwards, a stranded parent never runs again: it waits until it is cancelled itself. */
  lemma {:induction false} StrandedForever(cfg: Config, w: World, steps: seq<Step>, p: RunId, d: DelegationId)
    requires cfg.Valid() && Core(w.db) && Stranded(w.db, p, d)
    ensures Lost(Exec(cfg, w, steps).db, p, d)
  {
    if steps != [] {
      var front := steps[..|steps| - 1];
      StrandedForever(cfg, w, front, p, d);
      RunKeepsCore(cfg, w, front);
      LostNext(cfg, Exec(cfg, w, front), steps[|steps| - 1], p, d);
    }
  }

  // ---- the outcome a delegation settles with ---------------------------------------------

  ghost predicate SettledByWorker(db: Db, db': Db, d: DelegationId, r: RunId) {
    WorksAlone(db, d, r) && SettledBy(db, db', d, r)
  }

  /**
   In every run, a delegation is settled by the step that ends the one attempt open for it, and with that attempt's
   outcome if and only if it is the newest by (created_at, id) or it failed.
   */
  lemma SettlesWithOutcomeIff(cfg: Config, w: World, steps: seq<Step>, step: Step, d: DelegationId) returns (r: RunId)
    requires cfg.Valid() && Fresh(w)
    requires var before := Exec(cfg, w, steps);
             && d in before.db.delegations && before.db.delegations[d].status.Dispatched?
             && d in Next(cfg, before, step).db.delegations
             && !Next(cfg, before, step).db.delegations[d].status.Dispatched?
    ensures SettledByWorker(Exec(cfg, w, steps).db, Next(cfg, Exec(cfg, w, steps), step).db, d, r)
  {
    var before := Exec(cfg, w, steps);
    FreshHolds(w);
    RunKeepsCore(cfg, w, steps);
    RunKeepsHistory(cfg, w, steps);
    assert Linked(before.db.runs, before.db.delegations[d]);
    NextSettles(cfg, before, step, d);
    r :| SettledBy(before.db, Next(cfg, before, step).db, d, r);
    WorkerIsAlone(before.db, d, r);
  }

  lemma WorkerIsAlone(db: Db, d: DelegationId, r: RunId)
    requires OneActive(db.runs) && d in db.delegations && db.delegations[d].child.Some?
    requires Active(db.runs, r, db.delegations[d].child.value)
    ensures WorksAlone(db, d, r)
  {
  }

  /** With retries newer than what they retry, it is always that attempt's outcome. */
  lemma OrderedSettlesRight(cfg: Config, w: World, steps: seq<Step>, step: Step, d: DelegationId) returns (r: RunId)
    requires cfg.Valid() && Fresh(w) && Ordered(cfg, w, steps)
    requires var before := Exec(cfg, w, steps);
             && d in before.db.delegations && before.db.delegations[d].status.Dispatched?
             && d in Next(cfg, before, step).db.delegations
             && !Next(cfg, before, step).db.delegations[d].status.Dispatched?
    ensures var db' := Next(cfg, Exec(cfg, w, steps), step).db;
            && WorksAlone(Exec(cfg, w, steps).db, d, r)
            && r in db'.runs && Terminal(db'.runs[r].status)
            && (db'.delegations[d].status.DelegationSucceeded? <==> db'.runs[r].status.Succeeded?)
            && (db'.delegations[d].status.DelegationFailed? <==> db'.runs[r].status.Failed?)
            && (db'.delegations[d].status.DelegationCancelled? <==> db'.runs[r].status.Cancelled?)
  {
    r := SettlesWithOutcomeIff(cfg, w, steps, step, d);
    RunKeepsAgents(cfg, w, steps);
    assert Head(Exec(cfg, w, steps).db.runs, r);
  }

  // ---- and a run in which it is not --------------------------------------------------------

  /** Attempt 1 of execution 2 succeeded and its delegation is recorded as failed. */
  predicate Missettled(db: Db) {
    && 1 in db.runs && db.runs[1].execution == 2 && db.runs[1].status.Succeeded?
    && 0 in db.delegations && db.delegations[0].child == Some(2) && db.delegations[0].status.DelegationFailed?
  }

  /** Attempt 2 works for the delegation. */
  predicate Working(db: Db) {
    && db.delegations == map[0 := Delegation(0, Some(2), Dispatched, 0, 1, 0)]
    && db.runs ==
       map[0 := Run(0, 0, 0.0, WaitingForDelegation, None, Some(0)), 2 := Run(1, 2, 0.0, Running, None, None)]
    && db.queue == map[2 := WorkItem(0.0, Some(Lease("worker", "token", 1.0)), 1)] && db.steps == map[]
    && db.tools == map[]
  }

  /** Attempt 2 failed; its retry, created at the same instant, got the smaller id 1. */
  predicate Tie(db: Db, s: RunStatus) {
    && db.runs ==
       map[0 := Run(0, 0, 0.0, WaitingForDelegation, None, Some(0)),
           1 := Run(1, 2, 0.0, s, None, None),
           2 := Run(1, 2, 0.0, Failed, None, None)]
    && db.delegations == map[0 := Delegation(0, Some(2), Dispatched, 0, 1, 0)] && db.steps == map[] && db.tools == map[]
  }

  lemma FailsAtOnce(cfg: Config, db: Db, claim: Claim)
    requires cfg.Valid() && cfg.policy.maxAttempts >= 2 && Working(db) && claim == Claim("worker", "token", 1)
    ensures var t := ApplyFailed(db, cfg.policy, 2, claim, true, 1, 0.0);
            t.Commit? && Tie(t.db, Queued) && t.db.queue == map[1 := WorkItem(cfg.policy.ComputeDelay(2), None, 0)]
  {
    assert (set x | x in db.runs && db.runs[x].execution == db.runs[2].execution
      && (x == 2 || Later(db.runs, 2, x))) == {2};
    assert Ordinal(db.runs, 2) == 1;
    ApplyFailedShape(db, cfg.policy, 2, claim, true, 1, 0.0);
  }

  lemma ClaimsRetry(db: Db, at: Time)
    requires Tie(db, Queued) && db.queue == map[1 := WorkItem(at, None, 0)]
    ensures Tie(After(db, ClaimRun(db, 1, "worker", "token", at, at + 1.0)), Running)
  {
    var item := WorkItem(at, Some(Lease("worker", "token", at + 1.0)), 1);
    assert ClaimRun(db, 1, "worker", "token", at, at + 1.0) ==
      Commit(SetStatus(db, 1, Running).(queue := db.queue[1 := item]));
  }

  lemma TieEnds(ended: Db, now: Time)
    requires Tie(ended, Succeeded)
    ensures Missettled(Reconcile(ended, 2, now))
  {
    assert IsLatest(ended.runs, 2, 2);
    LatestExists(ended.runs, 1);
    LatestUnique(ended.runs, 2, 2, Latest(ended.runs, 2).value);
    assert DelegatesTo(ended, 0, 2);
    assert IncomingDelegation(ended, 2) == Some(0);
  }

  lemma TieSettlesWrong(db: Db, now: Time)
    requires Tie(db, Running)
    ensures Missettled(After(db, CompleteRun(db, 1, now)))
  {
    assert CompleteRun(db, 1, now) == Commit(Reconcile(EndRun(db, 1, Succeeded), 2, now));
    TieEnds(EndRun(db, 1, Succeeded), now);
  }

  lemma MoreClaim(cfg: Config, n: nat, db: Db, r: RunId, at: Time)
    requires cfg.Valid() && Reaches(cfg, n, Quiet(db))
    ensures Reaches(cfg, n + 1, Quiet(After(db, ClaimRun(db, r, "worker", "token", at, at + 1.0))))
  {
    OneMore(cfg, n, db, OnQueue(DoClaim(r, "worker", "token", at, at + 1.0)));
  }

  lemma ClaimsFirst(db: Db)
    requires Delegating(db, 2)
    ensures Working(After(db, ClaimRun(db, 2, "worker", "token", 0.0, 0.0 + 1.0)))
  {
    var item := WorkItem(0.0, Some(Lease("worker", "token", 1.0)), 1);
    assert ClaimRun(db, 2, "worker", "token", 0.0, 0.0 + 1.0) ==
      Commit(SetStatus(db, 2, Running).(queue := db.queue[2 := item]));
  }

  lemma ReachWorking(cfg: Config) returns (db: Db)
    requires cfg.Valid()
    ensures Reaches(cfg, 4, Quiet(db)) && Working(db)
  {
    var before := ReachDelegating(cfg, 2);
    MoreClaim(cfg, 3, before, 2, 0.0);
    ClaimsFirst(before);
    db := After(before, ClaimRun(before, 2, "worker", "token", 0.0, 0.0 + 1.0));
  }

  lemma ReachFailed(cfg: Config) returns (db: Db)
    requires cfg.Valid() && cfg.policy.maxAttempts >= 2
    ensures Reaches(cfg, 5, Quiet(db)) && Tie(db, Queued)
    ensures db.queue == map[1 := WorkItem(cfg.policy.ComputeDelay(2), None, 0)]
  {
    var claim := Claim("worker", "token", 1);
    var before := ReachWorking(cfg);
    OneMore(cfg, 4, before, OnEnd(DoFailed(2, claim, true, 1, 0.0)));
    FailsAtOnce(cfg, before, claim);
    db := After(before, ApplyFailed(before, cfg.policy, 2, claim, true, 1, 0.0));
  }

  lemma ReachTie(cfg: Config) returns (db: Db)
    requires cfg.Valid() && cfg.policy.maxAttempts >= 2
    ensures Reaches(cfg, 6, Quiet(db)) && Tie(db, Running)
  {
    var at := cfg.policy.ComputeDelay(2);
    var before := ReachFailed(cfg);
    MoreClaim(cfg, 5, before, 1, at);
    ClaimsRetry(before, at);
    db := After(before, ClaimRun(before, 1, "worker", "token", at, at + 1.0));
  }

  /** Attempt 2, alone in its execution, ended so. */
  predicate Ended(db: Db, s: RunStatus) {
    && db.delegations == map[0 := Delegation(0, Some(2), Dispatched, 0, 1, 0)]
    && db.runs ==
       map[0 := Run(0, 0, 0.0, WaitingForDelegation, None, Some(0)), 2 := Run(1, 2, 0.0, s, None, None)]
  }

  lemma SoleEnds(ended: Db, s: RunStatus, now: Time)
    requires Terminal(s) && Ended(ended, s)
    ensures Answered(Reconcile(ended, 2, now), s)
  {
    assert IsLatest(ended.runs, 2, 2);
    LatestExists(ended.runs, 2);
    assert DelegatesTo(ended, 0, 2);
    assert IncomingDelegation(ended, 2) == Some(0);
    SettleBears(ended, 0, 2, now);
  }

  /** Attempt 2 ended so, and the parent is awake. */
  predicate Answered(db: Db, s: RunStatus) {
    && 2 in db.runs && db.runs[2].status == s && 0 in db.runs && db.runs[0].status.Running? && 0 in db.queue
    && 0 in db.delegations && db.delegations[0].child == Some(2) && Settled(db.delegations[0].status)
    && Bears(db.delegations[0].status, s)
  }

  /** Five steps to each outcome: the delegated child completes, fails or is cancelled, and its parent is told which. */
  lemma EveryOutcomeIsReachable(cfg: Config, s: RunStatus) returns (db: Db)
    requires cfg.Valid() && Terminal(s)
    ensures Reaches(cfg, 5, Quiet(db)) && Answered(db, s)
    ensures s.Succeeded? ==> db.delegations[0].status.DelegationSucceeded?
  {
    var before := ReachWorking(cfg);
    var end := EndAs(s);
    OneMore(cfg, 4, before, OnEnd(end));
    db := EndTxn(cfg, before, end);
    EndsAs(cfg, before, s);
  }

  function EndAs(s: RunStatus): EndRequest
    requires Terminal(s)
  {
    match s
    case Succeeded => DoComplete(2, 0.0)
    case Failed => DoFail(2, 0.0)
    case Cancelled => DoCancel(2, 0.0)
  }

  lemma EndsAs(cfg: Config, before: Db, s: RunStatus)
    requires cfg.Valid() && Terminal(s) && Working(before)
    ensures Answered(EndTxn(cfg, before, EndAs(s)), s)
  {
    match s
    case Succeeded => Completes(before);
    case Failed => Fails(before);
    case Cancelled => Cancels(before);
  }

  lemma Completes(db: Db)
    requires Working(db)
    ensures Answered(After(db, CompleteRun(db, 2, 0.0)), Succeeded)
  {
    var ended := EndRun(db, 2, Succeeded);
    assert Ended(ended, Succeeded);
    SoleEnds(ended, Succeeded, 0.0);
    assert CompleteRun(db, 2, 0.0) == Commit(Reconcile(ended, 2, 0.0));
  }

  lemma Fails(db: Db)
    requires Working(db)
    ensures Answered(After(db, FailRun(db, 2, 0.0)), Failed)
  {
    var ended := EndRun(CancelChildren(db, 2), 2, Failed);
    assert Ended(ended, Failed);
    SoleEnds(ended, Failed, 0.0);
    assert FailRun(db, 2, 0.0) == Commit(Reconcile(ended, 2, 0.0));
  }

  lemma Cancels(db: Db)
    requires Working(db)
    ensures Answered(After(db, CancelRun(db, 2, 0.0)), Cancelled)
  {
    var ended := CancelOnly(db, 2);
    assert Ended(ended, Cancelled);
    SoleEnds(ended, Cancelled, 0.0);
    assert CancelRun(db, 2, 0.0) == Commit(Reconcile(ended, 2, 0.0));
  }

  /** Seven steps: the first attempt of a delegated child fails, and its retry of the same instant succeeds. */
  lemma WrongOutcomeIsReachable(cfg: Config) returns (db: Db)
    requires cfg.Valid() && cfg.policy.maxAttempts >= 2
    ensures Reaches(cfg, 7, Quiet(db)) && Missettled(db)
  {
    var tie := ReachTie(cfg);
    TieSettlesWrong(tie, 1.0);
    OneMore(cfg, 6, tie, OnEnd(DoComplete(1, 1.0)));
    db := After(tie, CompleteRun(tie, 1, 1.0));
  }

  /**
   In ordered runs the attempt working for a dispatched delegation is the latest of its execution, unless it was cut
   off.
   */
  lemma LatestChildIsOpen(cfg: Config, w: World, steps: seq<Step>, d: DelegationId)
    requires cfg.Valid() && Fresh(w) && Ordered(cfg, w, steps)
    requires var db := Exec(cfg, w, steps).db;
             d in db.delegations && db.delegations[d].status.Dispatched? && db.delegations[d].child.Some?
    ensures var db := Exec(cfg, w, steps).db;
            var e := db.delegations[d].child.value;
            var latest := Latest(db.runs, e);
            && latest.Some? && IsLatest(db.runs, e, latest.value)
            && (Terminal(db.runs[latest.value].status) <==> e in Cut(cfg, w, steps))
  {
    WorkedIffNotCut(cfg, w, steps, d);
    FreshHolds(w);
    RunKeepsCore(cfg, w, steps);
    RunKeepsAgents(cfg, w, steps);
    var db := Exec(cfg, w, steps).db;
    assert Linked(db.runs, db.delegations[d]);
    LatestIsOpenIff(db, d);
  }

  lemma LatestIsOpenIff(db: Db, d: DelegationId)
    requires OneActive(db.runs) && Heads(db.runs, db.queue) && d in db.delegations && Linked(db.runs, db.delegations[d])
    requires db.delegations[d].child.Some?
    ensures var e := db.delegations[d].child.value;
            var latest := Latest(db.runs, e);
            latest.Some? && IsLatest(db.runs, e, latest.value)
              && (!Terminal(db.runs[latest.value].status) <==> SomeoneWorks(db, d))
  {
    var e := db.delegations[d].child.value;
    LatestExists(db.runs, e);
    var latest := Latest(db.runs, e).value;
    if worker :| WorksAlone(db, d, worker) {
      assert Head(db.runs, worker);
      assert IsLatest(db.runs, e, worker);
      LatestUnique(db.runs, e, worker, latest);
    } else if !Terminal(db.runs[latest].status) {
      WorkerIsAlone(db, d, latest);
    }
  }
}
