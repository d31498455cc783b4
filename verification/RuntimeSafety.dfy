/** What every run of the system guarantees, stated on the rows a reader of the database sees. */
module RuntimeSafety {
  import opened Common
  import opened RuntimeModel
  import opened RuntimeInvariants
  import opened RuntimeFrames
  import opened RuntimeProtocol
  import opened RuntimeEvolution

  predicate PendingFor(db: Db, a: ApprovalId, r: RunId) {
    a in db.approvals && db.approvals[a].run == r && db.approvals[a].status.Pending?
  }

  /** Work items, waits and children agree with the status of every run. */
  ghost predicate Closed(db: Db, r: RunId)
    requires r in db.runs
  {
    && (r in db.queue <==> Live(db.runs[r].status))
    && (db.runs[r].status.WaitingForApproval? <==> HasPendingApproval(db, r))
    && (forall a: ApprovalId :: PendingFor(db, a, r) ==> db.runs[r].approval == Some(a))
    && (Terminal(db.runs[r].status) ==> !HasOpenStep(db, r) && !HasOpenTool(db, r))
  }

  /** A cancelled run, which may have kept its work item and its pending approvals but no open step or invocation. */
  ghost predicate LeftBehind(db: Db, r: RunId)
    requires r in db.runs
  {
    db.runs[r].status.Cancelled? && !HasOpenStep(db, r) && !HasOpenTool(db, r)
  }

  /**
   In every state of every run of the system, no work item lacks its run, and every run is closed unless it was
   cancelled and an earlier step cancelled the task of an open attempt of its execution.
   */
  lemma LifecycleClosure(cfg: Config, w: World, steps: seq<Step>)
    requires cfg.Valid() && Fresh(w)
    ensures var db := Exec(cfg, w, steps).db;
            && (forall r :: r in db.queue ==> r in db.runs)
            && (forall r :: r in db.runs ==>
                  Closed(db, r) || (LeftBehind(db, r) && db.runs[r].execution in Cut(cfg, w, steps)))
  {
    FreshHolds(w);
    RunKeeps(cfg, w, steps);
    var db := Exec(cfg, w, steps).db;
    forall r | r in db.runs ensures Closed(db, r) || (LeftBehind(db, r) && db.runs[r].execution in Cut(cfg, w, steps)) {
      ClosedOrLeft(db, Cut(cfg, w, steps), r);
    }
  }

  lemma ClosedOrLeft(db: Db, cut: iset<RunId>, r: RunId)
    requires Core(db) && Tidy(db, cut) && r in db.runs
    ensures Closed(db, r) || (LeftBehind(db, r) && db.runs[r].execution in cut)
  {
    assert MarkerPending(db.runs, db.approvals, r);
    assert r in db.queue ==> ItemFits(db.queue[r], db.runs[r]);
    if db.runs[r].status.Cancelled? && db.runs[r].execution in cut {
      assert LeftBehind(db, r);
    }
  }

  // ---- wake-ups --------------------------------------------------------------------------

  /** The one open attempt of a delegated execution. */
  ghost predicate WorksAlone(db: Db, d: DelegationId, worker: RunId) {
    && d in db.delegations && db.delegations[d].child.Some?
    && Active(db.runs, worker, db.delegations[d].child.value)
    && forall x :: Active(db.runs, x, db.delegations[d].child.value) ==> x == worker
  }

  ghost predicate SomeoneWorks(db: Db, d: DelegationId) {
    exists worker :: WorksAlone(db, d, worker)
  }

  /** A worker is at it, or its execution was cut off by the cancellation of its task. */
  ghost predicate WorkedOrCut(db: Db, d: DelegationId, cut: iset<RunId>) {
    d in db.delegations && db.delegations[d].child.Some?
      && (SomeoneWorks(db, d) || db.delegations[d].child.value in cut)
  }

  /**
   No lost wake-up, in every state of every run: a run that waits for a delegation waits for a dispatched one of its own
   on which exactly one open attempt is working, unless an earlier step cancelled the task of that attempt.
   */
  lemma NoLostWakeup(cfg: Config, w: World, steps: seq<Step>, r: RunId)
    requires cfg.Valid() && Fresh(w)
    requires var db := Exec(cfg, w, steps).db; r in db.runs && db.runs[r].status.WaitingForDelegation?
    ensures var db := Exec(cfg, w, steps).db;
            && db.runs[r].delegation.Some?
            && var d := db.runs[r].delegation.value;
            && d in db.delegations && db.delegations[d].parent == r && db.delegations[d].status.Dispatched?
            && WorkedOrCut(db, d, Cut(cfg, w, steps))
  {
    FreshHolds(w);
    RunKeeps(cfg, w, steps);
    WaiterHasWorker(Exec(cfg, w, steps).db, r, Cut(cfg, w, steps));
  }

  lemma WaiterHasWorker(db: Db, r: RunId, cut: iset<RunId>)
    requires Core(db) && Staffed(db.runs, db.delegations, cut) && r in db.runs
    requires db.runs[r].status.WaitingForDelegation?
    ensures db.runs[r].delegation.Some?
    ensures var d := db.runs[r].delegation.value;
            && d in db.delegations && db.delegations[d].parent == r && db.delegations[d].status.Dispatched?
            && WorkedOrCut(db, d, cut)
  {
    assert WaitIsDispatched(db.delegations, r, db.runs[r]);
    DispatchedHasWorker(db, db.runs[r].delegation.value, cut);
  }

  lemma DispatchedHasWorker(db: Db, d: DelegationId, cut: iset<RunId>)
    requires Core(db) && Staffed(db.runs, db.delegations, cut) && d in db.delegations
    requires db.delegations[d].status.Dispatched?
    ensures WorkedOrCut(db, d, cut)
  {
    assert Linked(db.runs, db.delegations[d]);
    var e := db.delegations[d].child.value;
    if e !in cut {
      var worker :| Active(db.runs, worker, e);
      assert OneActive(db.runs);
      assert WorksAlone(db, d, worker);
    }
  }

  /** An execution is cut off only by a step that cancels a task with an open attempt of it. */
  lemma {:induction false} CutMeans(cfg: Config, w: World, steps: seq<Step>, e: RunId)
    requires cfg.Valid() && e in Cut(cfg, w, steps)
    ensures exists i :: 0 <= i < |steps| && CutsAt(cfg, w, steps, i, e)
  {
    var front := steps[..|steps| - 1];
    if e in Cut(cfg, w, front) {
      CutMeans(cfg, w, front, e);
      var i :| 0 <= i < |front| && CutsAt(cfg, w, front, i, e);
      assert front[..i] == steps[..i];
      assert CutsAt(cfg, w, steps, i, e);
    } else {
      assert CutsAt(cfg, w, steps, |steps| - 1, e);
    }
  }

  ghost predicate CutsAt(cfg: Config, w: World, steps: seq<Step>, i: nat, e: RunId)
    requires cfg.Valid() && i < |steps|
  {
    e in CutOf(Exec(cfg, w, steps[..i]).db, steps[i])
  }

  /** Step i of the run resumes p from its wait for d. */
  ghost predicate WakesAt(cfg: Config, w: World, steps: seq<Step>, i: nat, p: RunId, d: DelegationId)
    requires cfg.Valid() && i < |steps|
  {
    WaitsOn(Exec(cfg, w, steps[..i]).db.runs, p, d) && !WaitsOn(Exec(cfg, w, steps[..i + 1]).db.runs, p, d)
  }

  /** A step that resumes a waiting parent settles the delegation, unless it cancels the parent. */
  lemma WakeSettles(db: Db, db': Db, p: RunId, d: DelegationId)
    requires Core(db) && Core(db') && Evolves(db, db') && WaitsOn(db.runs, p, d) && !WaitsOn(db'.runs, p, d)
    ensures d in db'.delegations && (Settled(db'.delegations[d].status) || db'.runs[p].status.Cancelled?)
  {
    assert WaitIsDispatched(db.delegations, p, db.runs[p]);
    assert SameRequest(db.delegations[d], db'.delegations[d]);
    assert ParentWaits(db'.runs, d, db'.delegations[d]);
  }

  /** A delegation leaves DISPATCHED at most once, and its parent stops waiting for it at most once. */
  lemma WokenAtMostOnce(cfg: Config, w: World, steps: seq<Step>, i: nat, j: nat, p: RunId, d: DelegationId)
    requires cfg.Valid() && Fresh(w) && i < |steps| && j < |steps|
    requires WakesAt(cfg, w, steps, i, p, d) && WakesAt(cfg, w, steps, j, p, d)
    ensures i == j
  {
    if i < j {
      NeverWaitsAgain(cfg, w, steps, i, j, p, d);
    } else if j < i {
      NeverWaitsAgain(cfg, w, steps, j, i, p, d);
    }
  }

  lemma NeverWaitsAgain(cfg: Config, w: World, steps: seq<Step>, i: nat, j: nat, p: RunId, d: DelegationId)
    requires cfg.Valid() && Fresh(w) && i < j <= |steps| && WakesAt(cfg, w, steps, i, p, d)
    ensures !WaitsOn(Exec(cfg, w, steps[..j]).db.runs, p, d)
  {
    FreshHolds(w);
    var early, woken, late := Exec(cfg, w, steps[..i]).db, Exec(cfg, w, steps[..i + 1]).db, Exec(cfg, w, steps[..j]).db;
    RunKeepsCore(cfg, w, steps[..i]);
    RunKeepsCore(cfg, w, steps[..i + 1]);
    RunKeepsCore(cfg, w, steps[..j]);
    assert steps[..i + 1][..i] == steps[..i] && steps[..j][..i + 1] == steps[..i + 1];
    RunEvolves(cfg, w, steps[..i + 1], i);
    RunEvolves(cfg, w, steps[..j], i + 1);
    WakeIsFinal(early, woken, late, p, d);
  }

  lemma WakeIsFinal(early: Db, woken: Db, late: Db, p: RunId, d: DelegationId)
    requires Core(early) && Core(woken) && Core(late) && Evolves(early, woken) && Evolves(woken, late)
    requires WaitsOn(early.runs, p, d) && !WaitsOn(woken.runs, p, d)
    ensures !WaitsOn(late.runs, p, d)
  {
    WakeSettles(early, woken, p, d);
    assert WaitIsDispatched(late.delegations, p, late.runs[p]);
  }

  /** A run that has ended keeps its status for ever; in particular a cancelled parent is never revived. */
  lemma EndedForever(cfg: Config, w: World, steps: seq<Step>, i: nat, r: RunId)
    requires cfg.Valid() && Fresh(w) && i <= |steps|
    requires var db := Exec(cfg, w, steps[..i]).db; r in db.runs && Terminal(db.runs[r].status)
    ensures var db := Exec(cfg, w, steps).db;
            r in db.runs && db.runs[r].status == Exec(cfg, w, steps[..i]).db.runs[r].status
  {
    FreshHolds(w);
    RunEvolves(cfg, w, steps, i);
  }

  /** A settled delegation keeps its outcome for ever. */
  lemma SettledForever(cfg: Config, w: World, steps: seq<Step>, i: nat, d: DelegationId)
    requires cfg.Valid() && Fresh(w) && i <= |steps|
    requires var db := Exec(cfg, w, steps[..i]).db; d in db.delegations && Settled(db.delegations[d].status)
    ensures var db := Exec(cfg, w, steps).db;
            d in db.delegations && db.delegations[d] == Exec(cfg, w, steps[..i]).db.delegations[d]
  {
    FreshHolds(w);
    RunEvolves(cfg, w, steps, i);
    assert SameRequest(Exec(cfg, w, steps[..i]).db.delegations[d], Exec(cfg, w, steps).db.delegations[d]);
  }

  /**
   CompleteRun's "active delegation" conflict cannot arise: a running run has no dispatched delegation and no pending
   approval.
   */
  lemma RunningWaitsForNothing(db: Db, r: RunId)
    requires Core(db) && r in db.runs && db.runs[r].status.Running?
    ensures !HasDispatched(db, r) && !HasPendingApproval(db, r) && r in db.queue
  {
    forall d | d in db.delegations && db.delegations[d].parent == r ensures !db.delegations[d].status.Dispatched? {
      assert ParentWaits(db.runs, d, db.delegations[d]);
    }
  }

  /** Failing or cancelling a step leaves no open invocation on it, and touches no other step. */
  lemma EndedStepHasNoOpenTool(db: Db, s: StepId, target: StepStatus)
    requires (target.StepFailed? || target.StepCancelled?) && EndStep(db, s, target).Commit?
    requires db.steps[s].status != target
    ensures var db' := EndStep(db, s, target).db;
            && db'.steps[s].status == target
            && (forall t :: t in db'.tools && db'.tools[t].step == Some(s) ==> ToolTerminal(db'.tools[t].status))
            && (forall x :: x in db.steps && x != s ==> x in db'.steps && db'.steps[x] == db.steps[x])
            && (forall t :: t in db.tools && db.tools[t].step != Some(s) ==>
                 t in db'.tools && db'.tools[t] == db.tools[t])
  {
  }

  // ---- one call and its counterpart ------------------------------------------------------

  /** A started run can be claimed at once, by any worker, under generation 1. */
  lemma StartThenClaim(db: Db, task: TaskId, r: RunId, now: Time, worker: string, token: string, later: Time,
                       expires: Time)
    requires Core(db) && StartRun(db, task, r, now).Commit? && now <= later < expires
    ensures var t := ClaimRun(StartRun(db, task, r, now).db, r, worker, token, later, expires);
            && t.Commit? && ActiveClaim(t.db.queue, r, Claim(worker, token, 1), later)
            && t.db.runs == db.runs[r := Run(task, r, now, Running, None, None)]
  {
    assert r !in db.queue;
  }

  function StepFreed(steps: map<StepId, RunStep>, step: Option<StepId>): map<StepId, RunStep>
    requires step.Some? ==> step.value in steps
  {
    if step.None? then steps else steps[step.value := steps[step.value].(approval := None)]
  }

  /**
   Parking a run on an approval and resolving it gives back the database before, up to the approval itself and a new,
   unleased work item: runs and steps are as they were, and the claim that parked the run no longer counts.
   */
  lemma ParkThenResolve(db: Db, r: RunId, claim: Option<Claim>, a: ApprovalId, step: Option<StepId>,
                        fingerprint: Option<Fingerprint>, expiresAt: Option<Time>, now: Time, verdict: Verdict,
                        later: Time)
    requires Core(db) && RequestApproval(db, r, claim, a, step, fingerprint, expiresAt, now).Commit?
    requires verdict.Expired? ==> expiresAt.Some? && expiresAt.value <= later
    ensures step.Some? ==> step.value in db.steps
    ensures ResolveApproval(RequestApproval(db, r, claim, a, step, fingerprint, expiresAt, now).db, a, verdict, later)
         == Commit(db.(
              approvals := db.approvals[a := Approval(r, step, verdict, fingerprint, expiresAt, false)],
              queue := db.queue[r := WorkItem(later, None, 0)],
              steps := StepFreed(db.steps, step)))
  {
    var parked := RequestApproval(db, r, claim, a, step, fingerprint, expiresAt, now).db;
    Parks(db, r, claim, a, step, fingerprint, expiresAt, now);
    Unparks(db, parked, r, a, Approval(r, step, Pending, fingerprint, expiresAt, false), verdict, later);
  }

  predicate CanPark(db: Db, r: RunId, a: ApprovalId, step: Option<StepId>) {
    && r in db.runs && db.runs[r].status.Running? && db.runs[r].approval.None? && a !in db.approvals
    && (step.Some? ==> step.value in db.steps) && StepMayWait(db, r, step)
  }

  lemma Parks(db: Db, r: RunId, claim: Option<Claim>, a: ApprovalId, step: Option<StepId>,
              fingerprint: Option<Fingerprint>, expiresAt: Option<Time>, now: Time)
    requires Markers(db.runs) && RequestApproval(db, r, claim, a, step, fingerprint, expiresAt, now).Commit?
    ensures IsParked(db, RequestApproval(db, r, claim, a, step, fingerprint, expiresAt, now).db, r, a,
            Approval(r, step, Pending, fingerprint, expiresAt, false))
  {
  }

  /** The parked database, table by table. */
  ghost predicate IsParked(db: Db, parked: Db, r: RunId, a: ApprovalId, pending: Approval) {
    && CanPark(db, r, a, pending.step) && pending.run == r && pending.status.Pending?
    && parked == db.(
         approvals := db.approvals[a := pending],
         runs := db.runs[r := db.runs[r].(status := WaitingForApproval, approval := Some(a))],
         queue := db.queue - {r},
         steps := ParkStep(db, pending.step, a).steps)
  }

  lemma Unparks(db: Db, parked: Db, r: RunId, a: ApprovalId, pending: Approval, verdict: Verdict, later: Time)
    requires IsParked(db, parked, r, a, pending)
    requires verdict.Expired? ==> pending.expiresAt.Some? && pending.expiresAt.value <= later
    ensures ResolveApproval(parked, a, verdict, later)
         == Commit(db.(
              approvals := db.approvals[a := pending.(status := verdict)],
              queue := db.queue[r := WorkItem(later, None, 0)],
              steps := StepFreed(db.steps, pending.step)))
  {
    ResolvesTo(parked, a, verdict, later);
    RunRestored(db.runs, r, a);
    WorkItemRestored(db.queue, r, later);
    StepRestored(db, parked, a);
    ApprovalRestored(db.approvals, a, pending, pending.(status := verdict));
  }

  lemma ResolvesTo(db: Db, a: ApprovalId, verdict: Verdict, now: Time)
    requires a in db.approvals && db.approvals[a].status.Pending? && WaitsForApproval(db.runs, db.approvals[a].run, a)
    requires verdict.Expired? ==> db.approvals[a].expiresAt.Some? && db.approvals[a].expiresAt.value <= now
    requires var step := db.approvals[a].step;
             step.Some? ==> step.value in db.steps && db.steps[step.value].run == db.approvals[a].run
    ensures ResolveApproval(db, a, verdict, now)
         == Commit(db.(
              approvals := db.approvals[a := db.approvals[a].(status := verdict)],
              runs := Resumed(db.runs, db.approvals[a].run, a),
              queue := Enqueue(db.queue, db.approvals[a].run, now),
              steps := ResumeStep(db, a).steps))
  {
  }

  lemma RunRestored(runs: Runs, r: RunId, a: ApprovalId)
    requires r in runs && runs[r].status.Running? && runs[r].approval.None?
    ensures Resumed(runs[r := runs[r].(status := WaitingForApproval, approval := Some(a))], r, a) == runs
  {
    var parked := runs[r].(status := WaitingForApproval, approval := Some(a));
    assert parked.(status := Running, approval := None) == runs[r];
  }

  lemma WorkItemRestored(queue: map<RunId, WorkItem>, r: RunId, later: Time)
    ensures Enqueue(queue - {r}, r, later) == queue[r := WorkItem(later, None, 0)]
  {
  }

  lemma ApprovalRestored(approvals: map<ApprovalId, Approval>, a: ApprovalId, pending: Approval, resolved: Approval)
    ensures approvals[a := pending][a := resolved] == approvals[a := resolved]
  {
  }

  lemma StepRestored(db: Db, parked: Db, a: ApprovalId)
    requires a in parked.approvals
    requires var step := parked.approvals[a].step;
             && (step.Some? ==> step.value in db.steps && db.steps[step.value].status.StepRunning?)
             && parked.steps == ParkStep(db, step, a).steps
    ensures ResumeStep(parked, a).steps == StepFreed(db.steps, parked.approvals[a].step)
  {
    var step := parked.approvals[a].step;
    if step.Some? {
      var row := db.steps[step.value];
      assert row.(status := StepWaiting, approval := Some(a)).(status := StepRunning, approval := None) ==
        row.(approval := None);
      assert ResumeStep(parked, a).steps == parked.steps[step.value := row.(approval := None)];
    }
  }
}
