/**
 Delegations form a forest of bounded depth and width, and a run asleep on a delegation is at most that depth
 away from a run that can be picked up by a worker or is waiting for a person.
 */
module DelegationForest {
  import opened Common
  import opened RuntimeModel
  import opened RuntimeInvariants
  import opened RuntimeFrames
  import opened RuntimeProtocol
  import opened RuntimeEvolution
  import opened RuntimeSafety
  import opened ToolExecution

  type Requests = map<DelegationId, Delegation>

  /** Delegation i is the one whose child made request d. */
  predicate Above(runs: Runs, delegations: Requests, i: DelegationId, d: DelegationId) {
    && d in delegations && i in delegations && delegations[d].parent in runs
    && delegations[i].child == Some(runs[delegations[d].parent].execution)
  }

  ghost predicate IsRoot(runs: Runs, delegations: Requests, d: DelegationId) {
    forall i {:trigger Above(runs, delegations, i, d)} :: !Above(runs, delegations, i, d)
  }

  /** A materialized request continues the tree of the request above it, or roots its own. */
  ghost predicate Placed(runs: Runs, delegations: Requests, maxDepth: int, d: DelegationId)
    requires d in delegations
  {
    && delegations[d].root in delegations
    && (delegations[d].child.Some? ==>
          && 1 <= delegations[d].depth <= maxDepth
          && (forall i {:trigger Above(runs, delegations, i, d)} :: Above(runs, delegations, i, d) ==>
                delegations[d].root == delegations[i].root && delegations[d].depth == delegations[i].depth + 1)
          && (IsRoot(runs, delegations, d) ==> delegations[d].root == d && delegations[d].depth == 1))
  }

  ghost predicate WithinBudgets(delegations: Requests, limits: Limits) {
    && (forall r: RunId :: |MaterializedForRun(delegations, r)| <= limits.perRun)
    && (forall root: DelegationId :: |MaterializedForTree(delegations, root)| <= limits.perTree)
  }

  ghost predicate Places(runs: Runs, delegations: Requests, maxDepth: int) {
    forall d {:trigger Placed(runs, delegations, maxDepth, d)} :: d in delegations ==>
      Placed(runs, delegations, maxDepth, d)
  }

  ghost predicate Forest(runs: Runs, delegations: Requests, limits: Limits) {
    Places(runs, delegations, limits.depth) && WithinBudgets(delegations, limits)
  }

  // ---- steps that create no delegation ---------------------------------------------------

  lemma SameBudgets(delegations: Requests, delegations': Requests, limits: Limits)
    requires WithinBudgets(delegations, limits)
    requires forall d :: d in delegations ==> d in delegations' && SameRequest(delegations[d], delegations'[d])
    requires forall d :: d in delegations' && d !in delegations ==> delegations'[d].child.None?
    ensures WithinBudgets(delegations', limits)
  {
    forall r: RunId ensures |MaterializedForRun(delegations', r)| <= limits.perRun {
      assert MaterializedForRun(delegations', r) == MaterializedForRun(delegations, r);
    }
    forall root: DelegationId ensures |MaterializedForTree(delegations', root)| <= limits.perTree {
      assert MaterializedForTree(delegations', root) == MaterializedForTree(delegations, root);
    }
  }

  lemma SamePlace(runs: Runs, delegations: Requests, runs': Runs, delegations': Requests, maxDepth: int,
                  d: DelegationId)
    requires delegations'.Keys == delegations.Keys && DelegationsEvolve(delegations, delegations')
    requires RunsEvolve(runs, runs')
    requires forall x :: x in delegations ==> delegations[x].parent in runs
    requires d in delegations && Placed(runs, delegations, maxDepth, d)
    ensures Placed(runs', delegations', maxDepth, d)
  {
    forall i ensures Above(runs', delegations', i, d) == Above(runs, delegations, i, d) {
      assert i in delegations ==> SameRequest(delegations[i], delegations'[i]);
      assert SameRequest(delegations[d], delegations'[d]);
    }
    if IsRoot(runs', delegations', d) {
      assert IsRoot(runs, delegations, d);
    }
    forall i | Above(runs', delegations', i, d) && delegations[d].child.Some?
      ensures delegations'[d].root == delegations'[i].root && delegations'[d].depth == delegations'[i].depth + 1
    {
      assert Above(runs, delegations, i, d);
      assert SameRequest(delegations[i], delegations'[i]);
    }
  }

  lemma QuietKeepsPlaces(runs: Runs, delegations: Requests, runs': Runs, delegations': Requests, maxDepth: int)
    requires Places(runs, delegations, maxDepth) && forall x :: x in delegations ==> delegations[x].parent in runs
    requires RunsEvolve(runs, runs') && DelegationsEvolve(delegations, delegations')
    requires delegations'.Keys == delegations.Keys
    ensures Places(runs', delegations', maxDepth)
  {
    forall d | d in delegations' ensures Placed(runs', delegations', maxDepth, d) {
      assert SameRequest(delegations[d], delegations'[d]);
      SamePlace(runs, delegations, runs', delegations', maxDepth, d);
    }
  }

  lemma ParentsExist(db: Db)
    requires Core(db)
    ensures forall x :: x in db.delegations ==> db.delegations[x].parent in db.runs
    ensures forall x :: x in db.delegations ==> db.runs[db.delegations[x].parent].execution in db.runs
  {
    forall x | x in db.delegations
      ensures db.delegations[x].parent in db.runs && db.runs[db.delegations[x].parent].execution in db.runs
    {
      assert Linked(db.runs, db.delegations[x]);
      assert Rooted(db.runs, db.delegations[x].parent);
    }
  }

  // ---- a contract, a dispatch ------------------------------------------------------------

  /** A new request whose child, if any, is fresh: nothing already there hangs below it. */
  lemma OldPlacesKeep(runs: Runs, delegations: Requests, runs': Runs, d: DelegationId, row: Delegation, maxDepth: int,
                      x: DelegationId)
    requires d !in delegations && x in delegations && delegations[x].parent in runs && RunsEvolve(runs, runs')
    requires row.child.Some? ==> row.child.value != runs[delegations[x].parent].execution
    requires Placed(runs, delegations, maxDepth, x)
    ensures Placed(runs', delegations[d := row], maxDepth, x)
  {
    var delegations' := delegations[d := row];
    assert runs'[delegations[x].parent].execution == runs[delegations[x].parent].execution;
    forall i | Above(runs', delegations', i, x) ensures i != d && Above(runs, delegations, i, x) {
    }
    if IsRoot(runs', delegations', x) {
      forall i ensures !Above(runs, delegations, i, x) {
        assert !Above(runs', delegations', i, x);
      }
      assert IsRoot(runs, delegations, x);
    }
  }

  lemma ContractKeepsPlaces(runs: Runs, delegations: Requests, maxDepth: int, d: DelegationId, row: Delegation)
    requires Places(runs, delegations, maxDepth) && forall x :: x in delegations ==> delegations[x].parent in runs
    requires d !in delegations && row.child.None? && row.root == d
    ensures Places(runs, delegations[d := row], maxDepth)
  {
    forall x | x in delegations ensures Placed(runs, delegations[d := row], maxDepth, x) {
      OldPlacesKeep(runs, delegations, runs, d, row, maxDepth, x);
    }
  }

  lemma ContractKeepsForest(db: Db, limits: Limits, d: DelegationId, parent: RunId, target: AgentId)
    requires Core(db) && Forest(db.runs, db.delegations, limits)
    ensures var db' := After(db, CreateDelegation(db, d, parent, target)); Forest(db'.runs, db'.delegations, limits)
  {
    if d !in db.delegations {
      var row := Delegation(parent, None, Requested, d, 1, target);
      ParentsExist(db);
      SameBudgets(db.delegations, db.delegations[d := row], limits);
      ContractKeepsPlaces(db.runs, db.delegations, limits.depth, d, row);
    }
  }

  lemma DispatchKeepsBudgets(delegations: Requests, limits: Limits, d: DelegationId, row: Delegation)
    requires WithinBudgets(delegations, limits) && limits.Valid() && d !in delegations
    requires |MaterializedForRun(delegations, row.parent)| < limits.perRun
    requires MaterializedForTree(delegations, row.root) == {}
             || |MaterializedForTree(delegations, row.root)| < limits.perTree
    ensures WithinBudgets(delegations[d := row], limits)
  {
    var delegations' := delegations[d := row];
    forall r: RunId ensures |MaterializedForRun(delegations', r)| <= limits.perRun {
      GrowsByOne(MaterializedForRun(delegations, r), MaterializedForRun(delegations', r), d);
      if r != row.parent {
        assert MaterializedForRun(delegations', r) == MaterializedForRun(delegations, r);
      }
    }
    forall root: DelegationId ensures |MaterializedForTree(delegations', root)| <= limits.perTree {
      GrowsByOne(MaterializedForTree(delegations, root), MaterializedForTree(delegations', root), d);
      if root != row.root {
        assert MaterializedForTree(delegations', root) == MaterializedForTree(delegations, root);
      }
    }
  }

  lemma GrowsByOne(s: set<DelegationId>, s': set<DelegationId>, d: DelegationId)
    requires s' <= s + {d}
    ensures |s'| <= |s| + 1
  {
    SubsetSize(s', s + {d});
  }

  lemma {:induction false} SubsetSize(a: set<DelegationId>, b: set<DelegationId>)
    requires a <= b
    ensures |a| <= |b|
    decreases a
  {
    if a != {} {
      var x :| x in a;
      SubsetSize(a - {x}, b - {x});
    }
  }

  /** The row a dispatch writes, given the request above its parent. */
  predicate Continues(delegations: Requests, limits: Limits, d: DelegationId, row: Delegation,
                      above: Option<DelegationId>)
  {
    match above
    case Some(i) =>
      i in delegations && row.root == delegations[i].root && row.depth == delegations[i].depth + 1
        && row.depth <= limits.depth
    case None => row.root == d && row.depth == 1
  }

  /** `above` is the request whose child is this execution, if there is one. */
  ghost predicate Finds(delegations: Requests, execution: RunId, above: Option<DelegationId>) {
    forall i :: i in delegations ==> (delegations[i].child == Some(execution) <==> above == Some(i))
  }

  lemma NewPlace(runs: Runs, delegations: Requests, limits: Limits, d: DelegationId, row: Delegation, runs': Runs,
                 above: Option<DelegationId>)
    requires Places(runs, delegations, limits.depth) && limits.Valid() && d !in delegations
    requires row.parent in runs && row.child.Some? && row.child.value != runs[row.parent].execution
    requires RunsEvolve(runs, runs')
    requires Finds(delegations, runs[row.parent].execution, above) && Continues(delegations, limits, d, row, above)
    ensures Placed(runs', delegations[d := row], limits.depth, d)
  {
    var delegations' := delegations[d := row];
    if above.Some? {
      assert Placed(runs, delegations, limits.depth, above.value);
      assert Above(runs', delegations', above.value, d);
    }
  }

  lemma DispatchShape(db: Db, limits: Limits, parent: RunId, c: Claim, target: AgentId, d: DelegationId, task: TaskId,
                      child: RunId, now: Time)
    requires limits.Valid() && DispatchDelegation(db, limits, parent, c, target, d, task, child, now).Commit?
    requires var incoming := IncomingDelegation(db, db.runs[parent].execution);
             incoming.Some? ==> incoming.value in db.delegations
    ensures var db' := DispatchDelegation(db, limits, parent, c, target, d, task, child, now).db;
            && d !in db.delegations && child !in db.runs && parent in db.runs && d in db'.delegations
            && var row := db'.delegations[d];
            && db'.delegations == db.delegations[d := row]
            && row.parent == parent && row.child == Some(child) && row.target == target
            && |MaterializedForRun(db.delegations, parent)| < limits.perRun
            && var incoming := IncomingDelegation(db, db.runs[parent].execution);
            && Continues(db.delegations, limits, d, row, incoming)
            && (incoming.Some? ==> |MaterializedForTree(db.delegations, row.root)| < limits.perTree)
  {
  }

  lemma IncomingFinds(db: Db, execution: RunId)
    requires Delegations(db.runs, db.delegations)
    ensures var incoming := IncomingDelegation(db, execution);
            Finds(db.delegations, execution, incoming) && (incoming.Some? ==> incoming.value in db.delegations)
  {
    IncomingSome(db, execution);
  }

  lemma DispatchKeepsForest(db: Db, limits: Limits, parent: RunId, c: Claim, target: AgentId, d: DelegationId,
                            task: TaskId, child: RunId, now: Time)
    requires Core(db) && Forest(db.runs, db.delegations, limits) && limits.Valid()
    ensures var db' := After(db, DispatchDelegation(db, limits, parent, c, target, d, task, child, now));
            Forest(db'.runs, db'.delegations, limits)
  {
    var t := DispatchDelegation(db, limits, parent, c, target, d, task, child, now);
    if t.Commit? {
      var execution := db.runs[parent].execution;
      IncomingFinds(db, execution);
      DispatchShape(db, limits, parent, c, target, d, task, child, now);
      DispatchEvolves(db, limits, parent, c, target, d, task, child, now);
      ParentsExist(db);
      assert Rooted(db.runs, parent);
      NewRowKeepsForest(db.runs, db.delegations, limits, d, t.db.delegations[d], t.db.runs,
        IncomingDelegation(db, execution));
    }
  }

  lemma NewRowKeepsForest(runs: Runs, delegations: Requests, limits: Limits, d: DelegationId, row: Delegation,
                          runs': Runs, above: Option<DelegationId>)
    requires Forest(runs, delegations, limits) && limits.Valid() && d !in delegations
    requires forall x :: x in delegations ==>
             delegations[x].parent in runs && runs[delegations[x].parent].execution in runs
    requires row.parent in runs && row.child.Some? && row.child.value !in runs && runs[row.parent].execution in runs
    requires RunsEvolve(runs, runs')
    requires Finds(delegations, runs[row.parent].execution, above) && Continues(delegations, limits, d, row, above)
    requires |MaterializedForRun(delegations, row.parent)| < limits.perRun
    requires above.Some? ==> |MaterializedForTree(delegations, row.root)| < limits.perTree
    ensures Forest(runs', delegations[d := row], limits)
  {
    NewRowKeepsPlaces(runs, delegations, limits, d, row, runs', above);
    if above.None? {
      NothingBelow(runs, delegations, limits.depth, d);
    }
    DispatchKeepsBudgets(delegations, limits, d, row);
  }

  lemma NothingBelow(runs: Runs, delegations: Requests, maxDepth: int, d: DelegationId)
    requires Places(runs, delegations, maxDepth) && d !in delegations
    ensures MaterializedForTree(delegations, d) == {}
  {
    forall x | x in delegations ensures delegations[x].root != d {
      assert Placed(runs, delegations, maxDepth, x);
    }
  }

  lemma NewRowKeepsPlaces(runs: Runs, delegations: Requests, limits: Limits, d: DelegationId, row: Delegation,
                          runs': Runs, above: Option<DelegationId>)
    requires Places(runs, delegations, limits.depth) && limits.Valid() && d !in delegations
    requires forall x :: x in delegations ==>
             delegations[x].parent in runs && runs[delegations[x].parent].execution in runs
    requires row.parent in runs && row.child.Some? && row.child.value !in runs && runs[row.parent].execution in runs
    requires RunsEvolve(runs, runs')
    requires Finds(delegations, runs[row.parent].execution, above) && Continues(delegations, limits, d, row, above)
    ensures Places(runs', delegations[d := row], limits.depth)
  {
    NewPlace(runs, delegations, limits, d, row, runs', above);
    forall x | x in delegations ensures Placed(runs', delegations[d := row], limits.depth, x) {
      OldPlacesKeep(runs, delegations, runs', d, row, limits.depth, x);
    }
  }

  // ---- every run -------------------------------------------------------------------------

  predicate AddsRequest(step: Step) {
    step.Use? && step.request.OnWait? && (step.request.wait.DoContract? || step.request.wait.DoDispatch?)
  }

  lemma ReconcileKeys(db: Db, execution: RunId, now: Time)
    ensures Reconcile(db, execution, now).delegations.Keys == db.delegations.Keys
  {
    var d := IncomingDelegation(db, execution);
    if d.Some? {
      assert DelegatesTo(db, d.value, execution);
    }
  }

  lemma CancelKeys(db: Db, r: RunId, now: Time)
    ensures After(db, CancelRun(db, r, now)).delegations.Keys == db.delegations.Keys
  {
    if r in db.runs {
      LatestExists(db.runs, r);
      ReconcileKeys(CancelOnly(db, r), db.runs[r].execution, now);
      ReconcileKeys(CancelOnly(db, Latest(db.runs, db.runs[r].execution).value), db.runs[r].execution, now);
    }
  }

  lemma ApplyFailedKeys(cfg: Config, db: Db, r: RunId, c: Claim, retryable: bool, retry: RunId, now: Time)
    requires cfg.Valid()
    ensures After(db, ApplyFailed(db, cfg.policy, r, c, retryable, retry, now)).delegations.Keys == db.delegations.Keys
  {
    if r in db.runs {
      ReconcileKeys(EndRun(CancelChildren(db, r), r, Failed), db.runs[r].execution, now);
    }
  }

  lemma EndKeys(cfg: Config, db: Db, e: EndRequest)
    requires cfg.Valid()
    ensures EndTxn(cfg, db, e).delegations.Keys == db.delegations.Keys
  {
    match e
    case DoComplete(r, now) =>
      if r in db.runs {
        ReconcileKeys(EndRun(db, r, Succeeded), db.runs[r].execution, now);
      }
    case DoFail(r, now) =>
      if r in db.runs {
        ReconcileKeys(EndRun(CancelChildren(db, r), r, Failed), db.runs[r].execution, now);
      }
    case DoCancel(r, now) => CancelKeys(db, r, now);
    case DoSucceeded(r, c, now) =>
      if r in db.runs {
        ReconcileKeys(EndRun(db, r, Succeeded), db.runs[r].execution, now);
      }
    case DoFailed(r, c, retryable, retry, now) => ApplyFailedKeys(cfg, db, r, c, retryable, retry, now);
    case _ =>
  }

  lemma QueueKeys(db: Db, q: QueueRequest)
    ensures QueueTxn(db, q).delegations == db.delegations
  {
    match q
    case DoStartRun(task, r, now) => assert After(db, StartRun(db, task, r, now)).delegations == db.delegations;
    case DoStartQueued(r) => assert After(db, StartQueuedRun(db, r)).delegations == db.delegations;
    case DoClaim(r, worker, token, now, expires) =>
      assert After(db, ClaimRun(db, r, worker, token, now, expires)).delegations == db.delegations;
    case DoRenew(r, c, now, expires) =>
      assert After(db, RenewLease(db, r, c, now, expires)).delegations == db.delegations;
    case DoGiveBack(r, c, now, at) => assert After(db, GiveBack(db, r, c, now, at)).delegations == db.delegations;
    case DoRecover(r, now) => assert After(db, RecoverLease(db, r, now)).delegations == db.delegations;
  }

  lemma WaitKeys(cfg: Config, db: Db, w: WaitRequest)
    requires cfg.Valid() && (w.DoPark? || w.DoResolve?)
    ensures WaitTxn(cfg, db, w).delegations == db.delegations
  {
  }

  lemma WorkKeys(db: Db, k: WorkRequest)
    ensures WorkTxn(db, k).delegations == db.delegations
  {
  }

  lemma AgentKeys(db: Db, a: AgentRequest)
    ensures AgentTxn(db, a).delegations == db.delegations
  {
  }

  lemma TransactKeys(cfg: Config, db: Db, request: Request)
    requires cfg.Valid() && !AddsRequest(Use(request))
    ensures Transact(cfg, db, request).delegations.Keys == db.delegations.Keys
  {
    match request
    case OnQueue(q) => QueueKeys(db, q);
    case OnEnd(e) => EndKeys(cfg, db, e);
    case OnWait(w) => WaitKeys(cfg, db, w);
    case OnWork(k) => WorkKeys(db, k);
    case OnAgent(a) => AgentKeys(db, a);
  }

  lemma QuietKeys(cfg: Config, w: World, step: Step)
    requires cfg.Valid() && !AddsRequest(step)
    ensures Next(cfg, w, step).db.delegations.Keys == w.db.delegations.Keys
  {
    match step
    case Use(request) => TransactKeys(cfg, w.db, request);
    case Ask(action, c, t, evidence, grant, now) =>
      if Scanned(w.db, action, evidence, grant) {
        AskKeys(w.db, action, c, t, evidence, grant, now);
      }
    case _ =>
  }

  lemma AskKeys(db: Db, action: Action, c: Claim, t: ToolId, evidence: Evidence, grant: ApprovalId, now: Time)
    requires Scanned(db, action, evidence, grant)
    ensures var p := Propose(db, action, c, t, evidence, grant, now); p.Proceed? ==> p.db.delegations == db.delegations
  {
  }

  lemma QuietKeepsForest(cfg: Config, w: World, step: Step)
    requires cfg.Valid() && Core(w.db) && Forest(w.db.runs, w.db.delegations, cfg.limits) && !AddsRequest(step)
    ensures var db' := Next(cfg, w, step).db; Forest(db'.runs, db'.delegations, cfg.limits)
  {
    var db' := Next(cfg, w, step).db;
    ParentsExist(w.db);
    NextEvolves(cfg, w, step);
    QuietKeys(cfg, w, step);
    SameBudgets(w.db.delegations, db'.delegations, cfg.limits);
    QuietKeepsPlaces(w.db.runs, w.db.delegations, db'.runs, db'.delegations, cfg.limits.depth);
  }

  lemma NextKeepsForest(cfg: Config, w: World, step: Step)
    requires cfg.Valid() && Core(w.db) && Forest(w.db.runs, w.db.delegations, cfg.limits)
    ensures var db' := Next(cfg, w, step).db; Forest(db'.runs, db'.delegations, cfg.limits)
  {
    if AddsRequest(step) {
      match step.request.wait
      case DoContract(d, parent, target) => ContractKeepsForest(w.db, cfg.limits, d, parent, target);
      case DoDispatch(parent, c, target, d, task, child, now) =>
        DispatchKeepsForest(w.db, cfg.limits, parent, c, target, d, task, child, now);
    } else {
      QuietKeepsForest(cfg, w, step);
    }
  }

  /** In every state of every run: depths and budgets are respected, and every materialized request is in its place. */
  lemma {:induction false} BoundedForest(cfg: Config, w: World, steps: seq<Step>)
    requires cfg.Valid() && Fresh(w)
    ensures var db := Exec(cfg, w, steps).db; Forest(db.runs, db.delegations, cfg.limits)
  {
    if steps == [] {
      EmptyForest(cfg.limits);
    } else {
      var front := steps[..|steps| - 1];
      BoundedForest(cfg, w, front);
      FreshHolds(w);
      RunKeepsCore(cfg, w, front);
      NextKeepsForest(cfg, Exec(cfg, w, front), steps[|steps| - 1]);
    }
  }

  lemma EmptyForest(limits: Limits)
    requires limits.Valid()
    ensures Forest(map[], map[], limits)
  {
    forall r: RunId ensures |MaterializedForRun(map[], r)| <= limits.perRun {
      assert MaterializedForRun(map[], r) == {};
    }
    forall root: DelegationId ensures |MaterializedForTree(map[], root)| <= limits.perTree {
      assert MaterializedForTree(map[], root) == {};
    }
  }

  // ---- climbing to the root --------------------------------------------------------------

  /** The request reached from d by n incoming links, if there are that many. */
  ghost function Climb(runs: Runs, delegations: Requests, d: DelegationId, n: nat): Option<DelegationId>
    decreases n
  {
    if n == 0 then Some(d)
    else if i :| Above(runs, delegations, i, d) then Climb(runs, delegations, i, n - 1)
    else None
  }

  lemma ClimbOne(runs: Runs, delegations: Requests, d: DelegationId, up: DelegationId, n: nat)
    requires DistinctChildren(delegations) && Above(runs, delegations, up, d)
    ensures Climb(runs, delegations, d, n + 1) == Climb(runs, delegations, up, n)
  {
    assert forall x :: Above(runs, delegations, x, d) ==> x == up;
  }

  /** From depth k, exactly k - 1 incoming links lead to the root of the tree, and there is no link above it. */
  lemma {:induction false} ClimbsToRoot(runs: Runs, delegations: Requests, maxDepth: int, d: DelegationId)
    requires DistinctChildren(delegations) && Places(runs, delegations, maxDepth)
    requires d in delegations && delegations[d].child.Some?
    ensures var root := delegations[d].root;
            && delegations[d].depth >= 1 && Climb(runs, delegations, d, delegations[d].depth - 1) == Some(root)
            && root in delegations && delegations[root].depth == 1 && delegations[root].root == root
            && IsRoot(runs, delegations, root)
    decreases delegations[d].depth
  {
    assert Placed(runs, delegations, maxDepth, d);
    if !IsRoot(runs, delegations, d) {
      var up :| Above(runs, delegations, up, d);
      assert Placed(runs, delegations, maxDepth, up);
      ClimbsToRoot(runs, delegations, maxDepth, up);
      ClimbOne(runs, delegations, d, up, delegations[up].depth - 1);
    }
  }

  /** The row of a materialized delegation of depth k is k - 1 incoming links below the root of its tree. */
  ghost predicate BelowItsRoot(runs: Runs, delegations: Requests, maxDepth: int, d: DelegationId)
    requires d in delegations
  {
    var row := delegations[d];
    && 1 <= row.depth <= maxDepth && Climb(runs, delegations, d, row.depth - 1) == Some(row.root)
    && row.root in delegations && delegations[row.root].depth == 1 && IsRoot(runs, delegations, row.root)
  }

  lemma RowIsRooted(runs: Runs, delegations: Requests, maxDepth: int, d: DelegationId)
    requires DistinctChildren(delegations) && Places(runs, delegations, maxDepth) && d in delegations
    requires delegations[d].child.Some?
    ensures BelowItsRoot(runs, delegations, maxDepth, d)
  {
    assert Placed(runs, delegations, maxDepth, d);
    ClimbsToRoot(runs, delegations, maxDepth, d);
  }

  lemma ChildrenAlwaysDistinct(cfg: Config, w: World, steps: seq<Step>)
    requires cfg.Valid() && Fresh(w)
    ensures DistinctChildren(Exec(cfg, w, steps).db.delegations)
  {
    FreshHolds(w);
    RunKeepsCore(cfg, w, steps);
  }

  /** In every state of every run, every materialized delegation hangs below the root of its tree at its depth. */
  lemma TreesAreRooted(cfg: Config, w: World, steps: seq<Step>, d: DelegationId)
    requires cfg.Valid() && Fresh(w)
    requires var db := Exec(cfg, w, steps).db; d in db.delegations && db.delegations[d].child.Some?
    ensures var db := Exec(cfg, w, steps).db; BelowItsRoot(db.runs, db.delegations, cfg.limits.depth, d)
  {
    ChildrenAlwaysDistinct(cfg, w, steps);
    BoundedForest(cfg, w, steps);
    var db := Exec(cfg, w, steps).db;
    RowIsRooted(db.runs, db.delegations, cfg.limits.depth, d);
  }

  // ---- no deadlock -----------------------------------------------------------------------

  /** A worker can pick the run up, or a person is being asked. */
  predicate CanMove(db: Db, r: RunId) {
    r in db.queue || HasPendingApproval(db, r)
  }

  /** The run waits for a delegation whose child was cut off by the cancellation of its task. */
  ghost predicate CutOff(db: Db, r: RunId, cut: iset<RunId>) {
    && r in db.runs && db.runs[r].delegation.Some? && db.runs[r].delegation.value in db.delegations
    && var child := db.delegations[db.runs[r].delegation.value].child;
    && child.Some? && child.value in cut
  }

  /** The next run waits for a delegation on which the following one is the only open attempt. */
  ghost predicate WaitChain(db: Db, path: seq<RunId>) {
    && path != []
    && forall k :: 0 <= k < |path| - 1 ==> Waits(db, path[k], path[k + 1])
  }

  ghost predicate Waits(db: Db, r: RunId, worker: RunId) {
    && r in db.runs && db.runs[r].status.WaitingForDelegation? && db.runs[r].delegation.Some?
    && WorksAlone(db, db.runs[r].delegation.value, worker)
  }

  ghost predicate Sound(db: Db, limits: Limits, cut: iset<RunId>) {
    Core(db) && Staffed(db.runs, db.delegations, cut) && Forest(db.runs, db.delegations, limits)
  }

  /** The next run of the chain: it can move, or it waits one level further down. */
  lemma NextInChain(db: Db, limits: Limits, cut: iset<RunId>, r: RunId) returns (worker: RunId)
    requires Sound(db, limits, cut) && r in db.runs && db.runs[r].status.WaitingForDelegation? && !CutOff(db, r, cut)
    ensures Waits(db, r, worker) && worker in db.runs && !Terminal(db.runs[worker].status)
    ensures 1 <= Level(db, r) <= limits.depth
    ensures db.runs[worker].status.WaitingForDelegation? ==> Level(db, worker) == Level(db, r) + 1 <= limits.depth
  {
    WaiterHasWorker(db, r, cut);
    WaitsBelowGround(db, limits, r);
    var d := db.runs[r].delegation.value;
    worker :| WorksAlone(db, d, worker);
    if db.runs[worker].status.WaitingForDelegation? {
      LinkedLevels(db, limits, d, worker);
      WaitsBelowGround(db, limits, worker);
    }
  }

  lemma LinkedLevels(db: Db, limits: Limits, d: DelegationId, worker: RunId)
    requires Core(db) && Forest(db.runs, db.delegations, limits) && WorksAlone(db, d, worker)
    requires db.runs[worker].status.WaitingForDelegation?
    ensures Level(db, worker) == db.delegations[d].depth + 1
  {
    assert WaitIsDispatched(db.delegations, worker, db.runs[worker]);
    var below := db.runs[worker].delegation.value;
    assert Linked(db.runs, db.delegations[below]);
    assert Above(db.runs, db.delegations, d, below);
    assert Placed(db.runs, db.delegations, limits.depth, below);
  }

  /** The depth of the delegation a run waits for. */
  function Level(db: Db, r: RunId): int {
    if r in db.runs && db.runs[r].delegation.Some? && db.runs[r].delegation.value in db.delegations
    then db.delegations[db.runs[r].delegation.value].depth else 0
  }

  lemma WaitsBelowGround(db: Db, limits: Limits, r: RunId)
    requires Core(db) && Forest(db.runs, db.delegations, limits) && r in db.runs
    requires db.runs[r].status.WaitingForDelegation?
    ensures 1 <= Level(db, r) <= limits.depth
  {
    assert WaitIsDispatched(db.delegations, r, db.runs[r]);
    var d := db.runs[r].delegation.value;
    assert Linked(db.runs, db.delegations[d]);
    assert Placed(db.runs, db.delegations, limits.depth, d);
  }

  lemma OpenMoves(db: Db, r: RunId)
    requires Core(db) && r in db.runs && !Terminal(db.runs[r].status) && !db.runs[r].status.WaitingForDelegation?
    ensures CanMove(db, r)
  {
    assert MarkerPending(db.runs, db.approvals, r);
  }

  lemma {:induction false} ChainFrom(db: Db, limits: Limits, cut: iset<RunId>, r: RunId) returns (path: seq<RunId>)
    requires Sound(db, limits, cut) && r in db.runs && !Terminal(db.runs[r].status)
    ensures WaitChain(db, path) && path[0] == r
    ensures CanMove(db, path[|path| - 1]) || CutOff(db, path[|path| - 1], cut)
    ensures db.runs[r].status.WaitingForDelegation? ==> |path| <= limits.depth - Level(db, r) + 2
    ensures !db.runs[r].status.WaitingForDelegation? ==> |path| == 1
    decreases if db.runs[r].status.WaitingForDelegation? then limits.depth - Level(db, r) + 1 else 0
  {
    if !db.runs[r].status.WaitingForDelegation? {
      OpenMoves(db, r);
      path := [r];
    } else {
      WaitsBelowGround(db, limits, r);
      path := [r];
      if !CutOff(db, r, cut) {
        var worker := NextInChain(db, limits, cut, r);
        var rest := ChainFrom(db, limits, cut, worker);
        path := [r] + rest;
        Prepend(db, r, rest);
      }
    }
  }

  lemma Prepend(db: Db, r: RunId, rest: seq<RunId>)
    requires WaitChain(db, rest) && Waits(db, r, rest[0])
    ensures WaitChain(db, [r] + rest)
  {
    var path := [r] + rest;
    forall k | 0 <= k < |path| - 1 ensures Waits(db, path[k], path[k + 1]) {
      if k > 0 {
        assert Waits(db, rest[k - 1], rest[k]);
      }
    }
  }

  lemma AlwaysSound(cfg: Config, w: World, steps: seq<Step>)
    requires cfg.Valid() && Fresh(w)
    ensures Sound(Exec(cfg, w, steps).db, cfg.limits, Cut(cfg, w, steps))
  {
    FreshHolds(w);
    RunKeeps(cfg, w, steps);
    BoundedForest(cfg, w, steps);
  }

  /**
   No deadlock, in every state of every run: following the waits of any open run reaches, within the maximum depth, a
   run that has a work item or a pending approval, or one whose delegated child was cancelled with its task.
   */
  lemma NoDeadlock(cfg: Config, w: World, steps: seq<Step>, r: RunId) returns (path: seq<RunId>)
    requires cfg.Valid() && Fresh(w)
    requires var db := Exec(cfg, w, steps).db; r in db.runs && !Terminal(db.runs[r].status)
    ensures var db := Exec(cfg, w, steps).db;
            && WaitChain(db, path) && path[0] == r && |path| - 1 <= cfg.limits.depth
            && (CanMove(db, path[|path| - 1]) || CutOff(db, path[|path| - 1], Cut(cfg, w, steps)))
  {
    AlwaysSound(cfg, w, steps);
    var db := Exec(cfg, w, steps).db;
    path := ChainFrom(db, cfg.limits, Cut(cfg, w, steps), r);
    if db.runs[r].status.WaitingForDelegation? {
      WaitsBelowGround(db, cfg.limits, r);
    }
  }
}
