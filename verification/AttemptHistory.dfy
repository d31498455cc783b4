/**
 Which steps create attempts, and what that means for a delegated execution: its earlier attempts all failed, and once
 it has no open attempt it never has one again.
 */
module AttemptHistory {
  import opened Common
  import opened RuntimeModel
  import opened RuntimeInvariants
  import opened RuntimeFrames
  import opened RuntimeEndings
  import opened RuntimeTasks
  import opened RuntimeProtocol
  import opened RuntimeEvolution
  import opened RuntimeSafety
  import opened ToolExecution
  import opened DelegationForest
  import opened CalmSteps
  import opened AgentIdentity

  // ---- new attempts ----------------------------------------------------------------------

  predicate ManualRetry(step: Step) {
    step.Use? && step.request.OnEnd? && step.request.end.DoRetry?
  }

  ghost predicate Exists(runs: Runs, e: RunId) {
    exists r :: Attempt(runs, r, e)
  }

  ghost predicate IsDelegated(db: Db, e: RunId) {
    exists d :: DelegatesTo(db, d, e)
  }

  ghost predicate FailsOne(runs: Runs, runs': Runs, e: RunId) {
    exists r :: Active(runs, r, e) && r in runs' && runs'[r].status.Failed?
  }

  /**
   A new run starts an execution, retries an undelegated one by hand, or follows an attempt that fails in the same step.
   */
  ghost predicate Arrival(db: Db, db': Db, manual: bool, x: RunId)
    requires x in db'.runs
  {
    var e := db'.runs[x].execution;
    && db'.runs[x].status.Queued?
    && (e == x || (manual && Exists(db.runs, e) && !IsDelegated(db, e)) || FailsOne(db.runs, db'.runs, e))
  }

  ghost predicate Arrivals(db: Db, db': Db, manual: bool) {
    forall x :: x in db'.runs && x !in db.runs ==> Arrival(db, db', manual, x)
  }

  lemma NobodyArrives(db: Db, db': Db, manual: bool)
    requires db'.runs.Keys == db.runs.Keys
    ensures Arrivals(db, db', manual)
  {
  }

  lemma QueueArrivals(db: Db, q: QueueRequest)
    ensures Arrivals(db, QueueTxn(db, q), false)
  {
    if !q.DoStartRun? {
      QueueCalm(db, q);
      NobodyArrives(db, QueueTxn(db, q), false);
    }
  }

  lemma RetryArrivals(db: Db, r: RunId, retry: RunId, now: Time)
    ensures Arrivals(db, After(db, RetryFailedRun(db, r, retry, now)), true)
  {
    if r in db.runs {
      assert Attempt(db.runs, r, db.runs[r].execution);
    }
  }

  lemma FailedArrivals(cfg: Config, db: Db, r: RunId, c: Claim, retryable: bool, retry: RunId, now: Time)
    requires cfg.Valid()
    ensures Arrivals(db, After(db, ApplyFailed(db, cfg.policy, r, c, retryable, retry, now)), false)
  {
    ApplyFailedShape(db, cfg.policy, r, c, retryable, retry, now);
    if ApplyFailed(db, cfg.policy, r, c, retryable, retry, now).Commit? {
      FailCalm(db, r, now);
      assert Active(db.runs, r, db.runs[r].execution);
    }
  }

  lemma EndArrivals(cfg: Config, db: Db, x: EndRequest)
    requires cfg.Valid()
    ensures Arrivals(db, EndTxn(cfg, db, x), x.DoRetry?)
  {
    match x
    case DoRetry(r, retry, now) => RetryArrivals(db, r, retry, now);
    case DoFailed(r, c, retryable, retry, now) => FailedArrivals(cfg, db, r, c, retryable, retry, now);
    case _ =>
      EndCalm(cfg, db, x);
      NobodyArrives(db, EndTxn(cfg, db, x), false);
  }

  lemma DispatchArrivals(db: Db, limits: Limits, parent: RunId, c: Claim, target: AgentId, d: DelegationId,
                         task: TaskId, child: RunId, now: Time)
    requires limits.Valid()
    ensures Arrivals(db, After(db, DispatchDelegation(db, limits, parent, c, target, d, task, child, now)), false)
    ensures FreshChildren(db, After(db, DispatchDelegation(db, limits, parent, c, target, d, task, child, now)))
  {
  }

  lemma WaitArrivals(cfg: Config, db: Db, x: WaitRequest)
    requires cfg.Valid()
    ensures Arrivals(db, WaitTxn(cfg, db, x), false)
  {
    match x
    case DoPark(r, fence, a, step, fingerprint, expiresAt, now) =>
      ParkCalm(db, r, fence, a, step, fingerprint, expiresAt, now);
      NobodyArrives(db, WaitTxn(cfg, db, x), false);
    case DoResolve(a, verdict, now) =>
      ResolveCalm(db, a, verdict, now);
      NobodyArrives(db, WaitTxn(cfg, db, x), false);
    case DoContract(d, parent, target) =>
    case DoDispatch(parent, c, target, d, task, child, now) =>
      DispatchArrivals(db, cfg.limits, parent, c, target, d, task, child, now);
  }

  lemma WorkArrivals(db: Db, k: WorkRequest)
    ensures Arrivals(db, WorkTxn(db, k), false)
  {
    WorkCalm(db, k);
    NobodyArrives(db, WorkTxn(db, k), false);
  }

  lemma AgentArrivals(db: Db, a: AgentRequest)
    ensures Arrivals(db, AgentTxn(db, a), false)
  {
    assert AgentTxn(db, a).runs == db.runs;
  }

  lemma TransactArrivals(cfg: Config, db: Db, request: Request)
    requires cfg.Valid()
    ensures Arrivals(db, Transact(cfg, db, request), ManualRetry(Use(request)))
  {
    match request
    case OnQueue(q) => QueueArrivals(db, q);
    case OnEnd(x) => EndArrivals(cfg, db, x);
    case OnWait(x) => WaitArrivals(cfg, db, x);
    case OnWork(k) => WorkArrivals(db, k);
    case OnAgent(a) => AgentArrivals(db, a);
  }

  /** Every step accounts for the attempts it creates. */
  lemma NextArrivals(cfg: Config, w: World, step: Step)
    requires cfg.Valid()
    ensures Arrivals(w.db, Next(cfg, w, step).db, ManualRetry(step))
  {
    match step
    case Use(request) => TransactArrivals(cfg, w.db, request);
    case Ask(action, c, t, evidence, grant, now) =>
      if Scanned(w.db, action, evidence, grant) && Propose(w.db, action, c, t, evidence, grant, now).Proceed? {
        AskCalm(w.db, action, c, t, evidence, grant, now);
      }
    case _ =>
  }

  /** A new delegation has no child or a child that is new itself. */
  ghost predicate FreshChildren(db: Db, db': Db) {
    forall d :: d in db'.delegations && d !in db.delegations && db'.delegations[d].child.Some? ==>
      db'.delegations[d].child.value !in db.runs
  }

  lemma NextFreshChildren(cfg: Config, w: World, step: Step)
    requires cfg.Valid()
    ensures FreshChildren(w.db, Next(cfg, w, step).db)
  {
    if !AddsRequest(step) {
      QuietKeys(cfg, w, step);
    } else if step.request.wait.DoDispatch? {
      var x := step.request.wait;
      DispatchArrivals(w.db, cfg.limits, x.run, x.claim, x.target, x.delegation, x.task, x.child, x.now);
    }
  }

  // ---- closed executions -----------------------------------------------------------------

  /** No new attempt of this execution. */
  ghost predicate NoNewAttempt(runs: Runs, runs': Runs, e: RunId) {
    forall r :: r in runs' && r !in runs ==> runs'[r].execution != e
  }

  lemma StaysClosed(runs: Runs, runs': Runs, e: RunId)
    requires RunsEvolve(runs, runs') && NoNewAttempt(runs, runs', e) && !HasActive(runs, e)
    ensures !HasActive(runs', e)
  {
    forall x ensures !Active(runs', x, e) {
      if x in runs {
        assert SameAttempt(runs[x], runs'[x]);
        assert !Active(runs, x, e);
      }
    }
  }

  lemma NoneForClosed(db: Db, db': Db, manual: bool, e: RunId)
    requires Arrivals(db, db', manual) && e in db.runs && !HasActive(db.runs, e) && (manual ==> IsDelegated(db, e))
    ensures NoNewAttempt(db.runs, db'.runs, e)
  {
    forall x | x in db'.runs && x !in db.runs ensures db'.runs[x].execution != e {
      assert Arrival(db, db', manual, x);
    }
  }

  /** Except for a manual retry, no step reopens an execution, and no step at all reopens a delegated one. */
  lemma ClosedForGood(cfg: Config, w: World, step: Step, e: RunId)
    requires cfg.Valid() && Core(w.db) && e in w.db.runs && !HasActive(w.db.runs, e)
    requires ManualRetry(step) ==> IsDelegated(w.db, e)
    ensures NoNewAttempt(w.db.runs, Next(cfg, w, step).db.runs, e) && !HasActive(Next(cfg, w, step).db.runs, e)
  {
    NextArrivals(cfg, w, step);
    NoneForClosed(w.db, Next(cfg, w, step).db, ManualRetry(step), e);
    NextEvolves(cfg, w, step);
    StaysClosed(w.db.runs, Next(cfg, w, step).db.runs, e);
  }

  // ---- delegated executions --------------------------------------------------------------

  /** While an attempt is open, those before it failed. */
  ghost predicate OthersFailed(runs: Runs, e: RunId) {
    HasActive(runs, e) ==> forall r :: Attempt(runs, r, e) && Terminal(runs[r].status) ==> runs[r].status.Failed?
  }

  /** An execution that was cut off has no open attempt. */
  ghost predicate History(runs: Runs, delegations: Requests, cut: iset<RunId>) {
    && (forall e :: e in cut ==> e in runs)
    && forall d :: d in delegations && delegations[d].child.Some? ==>
         && OthersFailed(runs, delegations[d].child.value)
         && (delegations[d].child.value in cut ==> !HasActive(runs, delegations[d].child.value))
  }

  lemma NewOthersFailed(db: Db, db': Db, manual: bool, e: RunId)
    requires Executions(db.runs) && RunsEvolve(db.runs, db'.runs) && Arrivals(db, db', manual) && e !in db.runs
    ensures OthersFailed(db'.runs, e)
  {
    NobodyYet(db.runs, e);
    forall x | Attempt(db'.runs, x, e) ensures x == e {
      assert x !in db.runs ==> Arrival(db, db', manual, x);
    }
  }

  lemma OldOthersFailed(db: Db, db': Db, manual: bool, e: RunId)
    requires Executions(db.runs) && RunsEvolve(db.runs, db'.runs) && Arrivals(db, db', manual)
    requires e in db.runs && OthersFailed(db.runs, e) && IsDelegated(db, e)
    ensures OthersFailed(db'.runs, e)
  {
    if a :| Active(db'.runs, a, e) {
      forall r | Attempt(db'.runs, r, e) && Terminal(db'.runs[r].status) ensures db'.runs[r].status.Failed? {
        WasFailed(db, db', manual, e, a, r);
      }
    }
  }

  lemma WasFailed(db: Db, db': Db, manual: bool, e: RunId, a: RunId, r: RunId)
    requires Executions(db.runs) && RunsEvolve(db.runs, db'.runs) && Arrivals(db, db', manual)
    requires e in db.runs && OthersFailed(db.runs, e) && IsDelegated(db, e)
    requires Active(db'.runs, a, e) && Attempt(db'.runs, r, e) && Terminal(db'.runs[r].status)
    ensures db'.runs[r].status.Failed?
  {
    assert r !in db.runs ==> Arrival(db, db', manual, r);
    assert SameAttempt(db.runs[r], db'.runs[r]);
    if !Terminal(db.runs[r].status) {
      if a in db.runs {
        assert SameAttempt(db.runs[a], db'.runs[a]);
        assert Active(db.runs, a, e) && Active(db.runs, r, e);
      } else {
        assert Arrival(db, db', manual, a);
        var last :| Active(db.runs, last, e) && db'.runs[last].status.Failed?;
        assert last == r;
      }
    } else {
      WasOpen(db, db', manual, e, a);
    }
  }

  lemma WasOpen(db: Db, db': Db, manual: bool, e: RunId, a: RunId)
    requires RunsEvolve(db.runs, db'.runs) && Arrivals(db, db', manual) && e in db.runs && IsDelegated(db, e)
    requires Active(db'.runs, a, e)
    ensures HasActive(db.runs, e)
  {
    if a in db.runs {
      assert SameAttempt(db.runs[a], db'.runs[a]);
      assert Active(db.runs, a, e);
    } else {
      assert Arrival(db, db', manual, a);
    }
  }

  lemma NewDelegationHistory(db: Db, db': Db, manual: bool, d: DelegationId, cut: iset<RunId>)
    requires Executions(db.runs) && RunsEvolve(db.runs, db'.runs) && Arrivals(db, db', manual) && FreshChildren(db, db')
    requires d in db'.delegations && d !in db.delegations && db'.delegations[d].child.Some? && forall e :: e in cut ==>
             e in db.runs
    ensures OthersFailed(db'.runs, db'.delegations[d].child.value) && db'.delegations[d].child.value !in cut
  {
    NewOthersFailed(db, db', manual, db'.delegations[d].child.value);
  }

  lemma CutExists(w: World, step: Step, e: RunId)
    requires Executions(w.db.runs) && e in CutOf(w.db, step)
    ensures e in w.db.runs
  {
    var r :| OpenRunOf(w.db.runs, r, step.request.end.task) && w.db.runs[r].execution == e;
    assert Rooted(w.db.runs, r);
  }

  lemma CancelTaskNext(cfg: Config, w: World, step: Step)
    requires cfg.Valid() && CancelsTask(step) && CancelTask(w.db, step.request.end.task).Commit?
    ensures Next(cfg, w, step).db.runs == CancelRunsOfTask(w.db.runs, step.request.end.task)
  {
  }

  lemma CutNow(cfg: Config, w: World, step: Step, e: RunId)
    requires cfg.Valid() && Executions(w.db.runs) && e in CutOf(w.db, step)
    ensures !HasActive(Next(cfg, w, step).db.runs, e)
  {
    CancelTaskNext(cfg, w, step);
    CutHasNoOne(w.db.runs, step.request.end.task, e);
  }

  lemma ChildIsDelegated(db: Db, d: DelegationId, e: RunId)
    requires Delegations(db.runs, db.delegations) && d in db.delegations && db.delegations[d].child == Some(e)
    ensures e in db.runs && DelegatesTo(db, d, e)
  {
    assert Linked(db.runs, db.delegations[d]);
  }

  lemma OldDelegationHistory(cfg: Config, w: World, step: Step, d: DelegationId, cut: iset<RunId>)
    requires cfg.Valid() && Core(w.db) && History(w.db.runs, w.db.delegations, cut) && d in w.db.delegations
    requires w.db.delegations[d].child.Some?
    ensures var e := w.db.delegations[d].child.value;
            && OthersFailed(Next(cfg, w, step).db.runs, e)
            && (e in cut + CutOf(w.db, step) ==> !HasActive(Next(cfg, w, step).db.runs, e))
  {
    var e := w.db.delegations[d].child.value;
    ChildIsDelegated(w.db, d, e);
    StillOthersFailed(cfg, w, step, e);
    if e in CutOf(w.db, step) {
      CutNow(cfg, w, step, e);
    } else if e in cut {
      ClosedForGood(cfg, w, step, e);
    }
  }

  lemma StillOthersFailed(cfg: Config, w: World, step: Step, e: RunId)
    requires cfg.Valid() && Core(w.db) && e in w.db.runs && IsDelegated(w.db, e) && OthersFailed(w.db.runs, e)
    ensures OthersFailed(Next(cfg, w, step).db.runs, e)
  {
    NextEvolves(cfg, w, step);
    NextArrivals(cfg, w, step);
    OldOthersFailed(w.db, Next(cfg, w, step).db, ManualRetry(step), e);
  }

  lemma NextHistory(cfg: Config, w: World, step: Step, cut: iset<RunId>)
    requires cfg.Valid() && Core(w.db) && History(w.db.runs, w.db.delegations, cut)
    ensures var db' := Next(cfg, w, step).db; History(db'.runs, db'.delegations, cut + CutOf(w.db, step))
  {
    var db', cut' := Next(cfg, w, step).db, cut + CutOf(w.db, step);
    NextEvolves(cfg, w, step);
    NextArrivals(cfg, w, step);
    NextFreshChildren(cfg, w, step);
    forall e | e in cut' ensures e in w.db.runs && e in db'.runs {
      if e in CutOf(w.db, step) {
        CutExists(w, step, e);
      }
    }
    forall d | d in db'.delegations && db'.delegations[d].child.Some?
      ensures OthersFailed(db'.runs, db'.delegations[d].child.value)
      ensures db'.delegations[d].child.value in cut' ==> !HasActive(db'.runs, db'.delegations[d].child.value)
    {
      if d in w.db.delegations {
        assert SameRequest(w.db.delegations[d], db'.delegations[d]);
        OldDelegationHistory(cfg, w, step, d, cut);
      } else {
        NewDelegationHistory(w.db, db', ManualRetry(step), d, cut');
      }
    }
  }

  lemma {:induction false} RunKeepsHistory(cfg: Config, w: World, steps: seq<Step>)
    requires cfg.Valid() && Fresh(w)
    ensures var db := Exec(cfg, w, steps).db; History(db.runs, db.delegations, Cut(cfg, w, steps))
  {
    if steps != [] {
      var front := steps[..|steps| - 1];
      RunKeepsHistory(cfg, w, front);
      FreshHolds(w);
      RunKeepsCore(cfg, w, front);
      NextHistory(cfg, Exec(cfg, w, front), steps[|steps| - 1], Cut(cfg, w, front));
    }
  }

  /**
   In every state of every run, a dispatched delegation has its one worker if and only if no earlier step cancelled the
   task of an open attempt of its child.
   */
  lemma WorkedIffNotCut(cfg: Config, w: World, steps: seq<Step>, d: DelegationId)
    requires cfg.Valid() && Fresh(w)
    requires var db := Exec(cfg, w, steps).db;
             d in db.delegations && db.delegations[d].status.Dispatched? && db.delegations[d].child.Some?
    ensures var db := Exec(cfg, w, steps).db;
            SomeoneWorks(db, d) <==> db.delegations[d].child.value !in Cut(cfg, w, steps)
  {
    FreshHolds(w);
    RunKeeps(cfg, w, steps);
    RunKeepsHistory(cfg, w, steps);
    DispatchedHasWorker(Exec(cfg, w, steps).db, d, Cut(cfg, w, steps));
  }

  /** The attempts of a delegated execution before its open one all failed. */
  lemma RetriedAttemptsFailed(cfg: Config, w: World, steps: seq<Step>, d: DelegationId, open: RunId, r: RunId)
    requires cfg.Valid() && Fresh(w)
    requires var db := Exec(cfg, w, steps).db;
             && d in db.delegations && open in db.runs && db.delegations[d].child == Some(db.runs[open].execution)
             && !Terminal(db.runs[open].status) && Attempt(db.runs, r, db.runs[open].execution) && r != open
    ensures Exec(cfg, w, steps).db.runs[r].status.Failed?
  {
    FreshHolds(w);
    RunKeepsCore(cfg, w, steps);
    RunKeepsHistory(cfg, w, steps);
    var runs := Exec(cfg, w, steps).db.runs;
    assert Active(runs, open, runs[open].execution);
    assert !Active(runs, r, runs[open].execution);
  }
}
