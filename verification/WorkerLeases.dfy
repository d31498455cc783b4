/**
 Leases of the work queue over whole runs: a worker holds a run only by a claim step that found it free, without a break
 since, and with tokens that are never reused a lease once lost is lost for good.
 */
module WorkerLeases {
  import opened Common
  import opened RuntimeModel
  import opened RuntimeInvariants
  import opened RuntimeProtocol
  import opened ToolExecution

  type Queue = map<RunId, WorkItem>

  /** The work item is leased under this claim, expired or not. */
  predicate Holds(queue: Queue, r: RunId, c: Claim) {
    && r in queue && queue[r].lease.Some? && queue[r].generation == c.generation
    && queue[r].lease.value.worker == c.worker && queue[r].lease.value.token == c.token
  }

  /** Due, and not under a lease that still runs. */
  predicate Free(queue: Queue, r: RunId, now: Time) {
    && r in queue && queue[r].availableAt <= now
    && (queue[r].lease.Some? ==> queue[r].lease.value.expires <= now)
  }

  /** The step finds the run free and issues this claim. */
  predicate Issues(db: Db, step: Step, r: RunId, c: Claim) {
    && step.Use? && step.request.OnQueue? && step.request.queue.DoClaim?
    && var q := step.request.queue;
       && q.run == r && q.worker == c.worker && q.token == c.token && Free(db.queue, r, q.now)
       && r in db.runs && Live(db.runs[r].status) && c.generation == db.queue[r].generation + 1
  }

  // ---- single transactions ---------------------------------------------------------------

  predicate Claimable(db: Db, r: RunId) {
    r in db.runs && Live(db.runs[r].status)
  }

  /** The run is running, and its item leased under the next generation. */
  predicate ClaimedRow(db: Db, db': Db, r: RunId, worker: string, token: string, expires: Time)
    requires r in db.queue && r in db.runs
  {
    && db'.runs == db.runs[r := db.runs[r].(status := Running)]
    && db'.queue == db.queue[r := WorkItem(db.queue[r].availableAt, Some(Lease(worker, token, expires)),
                                           db.queue[r].generation + 1)]
  }

  /** A claim succeeds exactly on a free item: a live run is taken, the item of any other run is deleted. */
  lemma ClaimsIff(db: Db, r: RunId, worker: string, token: string, now: Time, expires: Time)
    ensures var t := ClaimRun(db, r, worker, token, now, expires);
            && (t.Commit? <==> Free(db.queue, r, now))
            && (t.Commit? && Claimable(db, r) ==> ClaimedRow(db, t.db, r, worker, token, expires))
            && (t.Commit? && !Claimable(db, r) ==> t.db.runs == db.runs && t.db.queue == db.queue - {r})
  {
    if Free(db.queue, r, now) {
      if Claimable(db, r) {
        Takes(db, r, worker, token, now, expires);
      } else {
        assert ClaimRun(db, r, worker, token, now, expires) == Commit(db.(queue := db.queue - {r}));
      }
    }
  }

  lemma Takes(db: Db, r: RunId, worker: string, token: string, now: Time, expires: Time)
    requires Free(db.queue, r, now) && Claimable(db, r)
    ensures var t := ClaimRun(db, r, worker, token, now, expires);
            t.Commit? && ClaimedRow(db, t.db, r, worker, token, expires)
  {
  }

  /** Renewing moves the end of the lease, giving back frees the item from the given time on; both need the lease. */
  lemma HolderMoves(db: Db, r: RunId, c: Claim, now: Time, expires: Time, at: Option<Time>)
    ensures var renewed, given := RenewLease(db, r, c, now, expires), GiveBack(db, r, c, now, at);
            && (renewed.Commit? <==> ActiveClaim(db.queue, r, c, now))
            && (given.Commit? <==> ActiveClaim(db.queue, r, c, now))
            && (renewed.Commit? ==>
                 Holds(renewed.db.queue, r, c) && renewed.db.queue[r].lease.value.expires == expires)
            && (given.Commit? ==>
                 var from := if at.Some? then at.value else db.queue[r].availableAt;
                 given.db.queue == db.queue[r := WorkItem(from, None, c.generation)])
  {
  }

  /** Recovery clears exactly the expired leases: of a live run the item is kept, of any other it is deleted. */
  lemma RecoveryClears(db: Db, r: RunId, now: Time)
    ensures var queue' := RecoverLease(db, r, now).db.queue;
            && queue' - {r} == db.queue - {r}
            && (r in db.queue && db.queue[r].lease.Some? && db.queue[r].lease.value.expires <= now ==>
                 if r in db.runs && Live(db.runs[r].status)
                 then r in queue' && queue'[r] == db.queue[r].(lease := None) else r !in queue')
            && (r in db.queue && !(db.queue[r].lease.Some? && db.queue[r].lease.value.expires <= now) ==>
                 queue' == db.queue)
  {
  }

  // ---- who gets a lease ------------------------------------------------------------------

  /** Nobody holds what they did not hold before. */
  ghost predicate NoLease(queue: Queue, queue': Queue) {
    forall r, c :: Holds(queue', r, c) ==> Holds(queue, r, c)
  }

  lemma EnqueueLeases(queue: Queue, r: RunId, at: Time)
    ensures NoLease(queue, Enqueue(queue, r, at)) && NoLease(queue, queue - {r})
    ensures NoLease(queue, Enqueue(queue - {r}, r, at))
  {
  }

  lemma TwoLeases(queue: Queue, between: Queue, queue': Queue)
    requires NoLease(queue, between) && NoLease(between, queue')
    ensures NoLease(queue, queue')
  {
  }

  lemma ReconcileLeases(db: Db, execution: RunId, now: Time)
    ensures NoLease(db.queue, Reconcile(db, execution, now).queue)
  {
    var d := IncomingDelegation(db, execution);
    if d.Some? {
      assert DelegatesTo(db, d.value, execution);
      EnqueueLeases(db.queue, db.delegations[d.value].parent, now);
    }
  }

  lemma EndedLeases(db: Db, ended: Db, r: RunId, execution: RunId, now: Time)
    requires ended.queue == db.queue - {r}
    ensures NoLease(db.queue, Reconcile(ended, execution, now).queue)
  {
    EnqueueLeases(db.queue, r, now);
    ReconcileLeases(ended, execution, now);
    TwoLeases(db.queue, ended.queue, Reconcile(ended, execution, now).queue);
  }

  lemma CancelLeases(db: Db, r: RunId, now: Time)
    ensures NoLease(db.queue, After(db, CancelRun(db, r, now)).queue)
  {
    if r in db.runs {
      var e := db.runs[r].execution;
      LatestExists(db.runs, r);
      var latest := Latest(db.runs, e).value;
      EndedLeases(db, CancelOnly(db, r), r, e, now);
      EndedLeases(db, CancelOnly(db, latest), latest, e, now);
    }
  }

  lemma FailedLeases(cfg: Config, db: Db, r: RunId, c: Claim, retryable: bool, retry: RunId, now: Time)
    requires cfg.Valid()
    ensures NoLease(db.queue, After(db, ApplyFailed(db, cfg.policy, r, c, retryable, retry, now)).queue)
  {
    if r in db.runs {
      var ended := EndRun(CancelChildren(db, r), r, Failed);
      var k := Ordinal(db.runs, r);
      EndedLeases(db, ended, r, db.runs[r].execution, now);
      EnqueueLeases(db.queue, r, now);
      EnqueueLeases(ended.queue, retry, now + cfg.policy.ComputeDelay(k + 1));
      TwoLeases(db.queue, ended.queue, Enqueue(ended.queue, retry, now + cfg.policy.ComputeDelay(k + 1)));
    }
  }

  lemma EndLeases(cfg: Config, db: Db, x: EndRequest)
    requires cfg.Valid()
    ensures NoLease(db.queue, EndTxn(cfg, db, x).queue)
  {
    match x
    case DoCancel(r, now) => CancelLeases(db, r, now);
    case DoFailed(r, c, retryable, retry, now) => FailedLeases(cfg, db, r, c, retryable, retry, now);
    case DoCancelTask(task) => assert After(db, CancelTask(db, task)).queue == db.queue;
    case DoRetry(r, retry, now) => EnqueueLeases(db.queue, retry, now);
    case DoFail(r, now) =>
      if r in db.runs {
        EndedLeases(db, EndRun(CancelChildren(db, r), r, Failed), r, db.runs[r].execution, now);
      }
    case DoComplete(r, now) =>
      if r in db.runs {
        EndedLeases(db, EndRun(db, r, Succeeded), r, db.runs[r].execution, now);
      }
    case DoSucceeded(r, c, now) =>
      if r in db.runs {
        EndedLeases(db, EndRun(db, r, Succeeded), r, db.runs[r].execution, now);
      }
  }

  lemma ClaimLeases(db: Db, x: RunId, worker: string, token: string, now: Time, expires: Time, r: RunId, c: Claim)
    ensures Holds(After(db, ClaimRun(db, x, worker, token, now, expires)).queue, r, c) ==>
            Holds(db.queue, r, c) || Issues(db, Use(OnQueue(DoClaim(x, worker, token, now, expires))), r, c)
    ensures Issues(db, Use(OnQueue(DoClaim(x, worker, token, now, expires))), r, c) ==>
            Holds(After(db, ClaimRun(db, x, worker, token, now, expires)).queue, r, c)
  {
    ClaimsIff(db, x, worker, token, now, expires);
  }

  lemma QueueLeases(db: Db, q: QueueRequest, r: RunId, c: Claim)
    ensures Holds(QueueTxn(db, q).queue, r, c) ==> Holds(db.queue, r, c) || Issues(db, Use(OnQueue(q)), r, c)
    ensures Issues(db, Use(OnQueue(q)), r, c) ==> Holds(QueueTxn(db, q).queue, r, c)
  {
    match q
    case DoClaim(x, worker, token, now, expires) => ClaimLeases(db, x, worker, token, now, expires, r, c);
    case DoStartRun(task, x, now) => EnqueueLeases(db.queue, x, now);
    case DoStartQueued(x) => assert After(db, StartQueuedRun(db, x)).queue == db.queue;
    case DoRenew(x, h, now, expires) => assert NoLease(db.queue, After(db, RenewLease(db, x, h, now, expires)).queue);
    case DoGiveBack(x, h, now, at) => assert NoLease(db.queue, After(db, GiveBack(db, x, h, now, at)).queue);
    case DoRecover(x, now) => assert NoLease(db.queue, Recovered(db.runs, db.queue, x, now));
  }

  lemma ParkLeases(db: Db, r: RunId, fence: Option<Claim>, a: ApprovalId, step: Option<StepId>,
                   fingerprint: Option<Fingerprint>, expiresAt: Option<Time>, now: Time)
    ensures NoLease(db.queue, After(db, RequestApproval(db, r, fence, a, step, fingerprint, expiresAt, now)).queue)
  {
  }

  lemma ResolveLeases(db: Db, a: ApprovalId, verdict: Verdict, now: Time)
    ensures NoLease(db.queue, After(db, ResolveApproval(db, a, verdict, now)).queue)
  {
    if a in db.approvals {
      EnqueueLeases(db.queue, db.approvals[a].run, now);
    }
  }

  lemma DispatchLeases(db: Db, limits: Limits, parent: RunId, c: Claim, target: AgentId,
                       d: DelegationId, task: TaskId, child: RunId, now: Time)
    requires limits.Valid()
    ensures NoLease(db.queue,
            After(db, DispatchDelegation(db, limits, parent, c, target, d, task, child, now)).queue)
  {
    var t := DispatchDelegation(db, limits, parent, c, target, d, task, child, now);
    if t.Commit? {
      EnqueueLeases(db.queue, child, now);
      EnqueueLeases(Enqueue(db.queue, child, now), parent, now);
      TwoLeases(db.queue, Enqueue(db.queue, child, now), t.db.queue);
    }
  }

  lemma WaitLeases(cfg: Config, db: Db, x: WaitRequest)
    requires cfg.Valid()
    ensures NoLease(db.queue, WaitTxn(cfg, db, x).queue)
  {
    match x
    case DoPark(r, fence, a, step, fp, expiresAt, now) => ParkLeases(db, r, fence, a, step, fp, expiresAt, now);
    case DoResolve(a, verdict, now) => ResolveLeases(db, a, verdict, now);
    case DoContract(d, parent, target) =>
    case DoDispatch(parent, c, target, d, task, child, now) =>
      DispatchLeases(db, cfg.limits, parent, c, target, d, task, child, now);
  }

  lemma WorkLeases(db: Db, k: WorkRequest)
    ensures WorkTxn(db, k).queue == db.queue
  {
  }

  lemma AgentLeases(db: Db, g: AgentRequest)
    ensures AgentTxn(db, g).queue == db.queue
  {
  }

  lemma FlightLeases(cfg: Config, w: World, step: Step)
    requires cfg.Valid() && !step.Use?
    ensures Next(cfg, w, step).db.queue == w.db.queue
  {
    match step
    case Ask(action, c, t, evidence, grant, now) =>
      if Scanned(w.db, action, evidence, grant) {
        var p := Propose(w.db, action, c, t, evidence, grant, now);
        assert p.Proceed? ==> p.db.queue == w.db.queue;
      }
    case Store(t, succeeded, now) =>
      if t in w.flights {
        var f := w.flights[t];
        assert After(w.db, Finish(w.db, f.action, f.claim, t, succeeded, now)).queue == w.db.queue;
      }
    case _ =>
  }

  lemma RequestLeases(cfg: Config, db: Db, request: Request, r: RunId, c: Claim)
    requires cfg.Valid()
    ensures Holds(Transact(cfg, db, request).queue, r, c) ==> Holds(db.queue, r, c) || Issues(db, Use(request), r, c)
    ensures Issues(db, Use(request), r, c) ==> Holds(Transact(cfg, db, request).queue, r, c)
  {
    match request
    case OnQueue(q) => QueueLeases(db, q, r, c);
    case OnEnd(x) => EndLeases(cfg, db, x);
    case OnWait(x) => WaitLeases(cfg, db, x);
    case OnWork(k) => WorkLeases(db, k);
    case OnAgent(g) => AgentLeases(db, g);
  }

  /** A step leaves a claim held only if it was held or the step issues it, and a step that issues it leaves it held. */
  lemma StepLeases(cfg: Config, w: World, step: Step, r: RunId, c: Claim)
    requires cfg.Valid()
    ensures Holds(Next(cfg, w, step).db.queue, r, c) ==> Holds(w.db.queue, r, c) || Issues(w.db, step, r, c)
    ensures Issues(w.db, step, r, c) ==> Holds(Next(cfg, w, step).db.queue, r, c)
  {
    if step.Use? {
      RequestLeases(cfg, w.db, step.request, r, c);
    } else {
      FlightLeases(cfg, w, step);
    }
  }

  // ---- whole runs ------------------------------------------------------------------------

  ghost predicate HeldAt(cfg: Config, w: World, steps: seq<Step>, m: nat, r: RunId, c: Claim)
    requires cfg.Valid()
  {
    m <= |steps| && Holds(Exec(cfg, w, steps[..m]).db.queue, r, c)
  }

  ghost predicate IssuedAt(cfg: Config, w: World, steps: seq<Step>, i: nat, r: RunId, c: Claim)
    requires cfg.Valid()
  {
    i < |steps| && Issues(Exec(cfg, w, steps[..i]).db, steps[i], r, c)
  }

  /** In every run: whoever holds a run got it from a claim step that found it free, and has held it ever since. */
  lemma {:induction false} HeldSinceIssued(cfg: Config, w: World, steps: seq<Step>, n: nat, r: RunId, c: Claim)
    returns (i: nat)
    requires cfg.Valid() && Fresh(w) && HeldAt(cfg, w, steps, n, r, c)
    ensures i < n && IssuedAt(cfg, w, steps, i, r, c)
    ensures forall m :: i < m <= n ==> HeldAt(cfg, w, steps, m, r, c)
    decreases n
  {
    assert n > 0;
    assert steps[..n][..n - 1] == steps[..n - 1];
    StepLeases(cfg, Exec(cfg, w, steps[..n - 1]), steps[n - 1], r, c);
    if Holds(Exec(cfg, w, steps[..n - 1]).db.queue, r, c) {
      i := HeldSinceIssued(cfg, w, steps, n - 1, r, c);
    } else {
      i := n - 1;
    }
  }

  predicate ClaimsWith(step: Step, token: string) {
    step.Use? && step.request.OnQueue? && step.request.queue.DoClaim? && step.request.queue.token == token
  }

  /** Tokens are random: no two claim steps use the same. */
  ghost predicate TokensDiffer(steps: seq<Step>) {
    forall i, j, token ::
      0 <= i < |steps| && 0 <= j < |steps| && ClaimsWith(steps[i], token) && ClaimsWith(steps[j], token) ==> i == j
  }

  /**
   A worker that has lost its run, by expiry and recovery, by another worker's claim, by giving it back or by the end of
   the run, never holds it again under the same claim: its late writes stay fenced in every continuation.
   */
  lemma LostIsLostForGood(cfg: Config, w: World, steps: seq<Step>, i: nat, j: nat, n: nat, r: RunId, c: Claim,
                          now: Time)
    requires cfg.Valid() && Fresh(w) && TokensDiffer(steps) && i < j <= n <= |steps|
    requires IssuedAt(cfg, w, steps, i, r, c) && !HeldAt(cfg, w, steps, j, r, c)
    ensures !ActiveClaim(Exec(cfg, w, steps[..n]).db.queue, r, c, now)
  {
    if HeldAt(cfg, w, steps, n, r, c) {
      var k := HeldSinceIssued(cfg, w, steps, n, r, c);
      assert ClaimsWith(steps[i], c.token) && ClaimsWith(steps[k], c.token);
      assert false;
    }
  }
}
