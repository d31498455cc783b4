/**
 What dispatching and settling a delegation leave in the tables, and when.  Everything is said of the rows before and
 after: budgets are counted over the request rows, and outcomes are compared by name.
 */
module DelegationRows {
  import opened Common
  import opened RuntimeModel
  import opened RuntimeInvariants

  // ---- settlement ------------------------------------------------------------------------

  /** The delegation bears the name of the attempt's outcome. */
  predicate Bears(s: DelegationStatus, r: RunStatus) {
    && (s.DelegationSucceeded? <==> r.Succeeded?)
    && (s.DelegationFailed? <==> r.Failed?)
    && (s.DelegationCancelled? <==> r.Cancelled?)
  }

  /** A dispatched delegation to this execution, whose latest attempt x has ended. */
  ghost predicate Due(db: Db, d: DelegationId, execution: RunId, x: RunId) {
    && d in db.delegations && db.delegations[d].child == Some(execution) && db.delegations[d].status.Dispatched?
    && IsLatest(db.runs, execution, x) && Terminal(db.runs[x].status)
  }

  /** The row bears the outcome of the latest attempt, and a parent that still sleeps on it runs and is queued. */
  ghost predicate SettledRow(db: Db, db': Db, d: DelegationId, x: RunId, now: Time)
    requires d in db.delegations && x in db.runs
  {
    var p := db.delegations[d].parent;
    && d in db'.delegations && Settled(db'.delegations[d].status)
    && Bears(db'.delegations[d].status, db.runs[x].status)
    && db'.delegations == db.delegations[d := db.delegations[d].(status := db'.delegations[d].status)]
    && if p in db.runs && db.runs[p].status.WaitingForDelegation? && db.runs[p].delegation == Some(d) then
         && db'.runs == db.runs[p := db.runs[p].(status := Running, delegation := None)]
         && p in db'.queue && db'.queue[p].availableAt == now && db'.queue - {p} == db.queue - {p}
       else
         db'.runs == db.runs && db'.queue == db.queue
  }

  ghost predicate Reconciled(db: Db, db': Db, execution: RunId, now: Time) {
    && db' == db.(runs := db'.runs, queue := db'.queue, delegations := db'.delegations)
    && (forall d, x :: Due(db, d, execution, x) ==> SettledRow(db, db', d, x, now))
    && ((forall d, x :: !Due(db, d, execution, x)) ==> db' == db)
  }

  /** Reconciling settles the delegation of an ended execution by name, and changes nothing when there is none. */
  lemma ReconcileBears(db: Db, execution: RunId, now: Time)
    requires Delegations(db.runs, db.delegations)
    ensures Reconciled(db, Reconcile(db, execution, now), execution, now)
  {
    IncomingSome(db, execution);
    var db' := Reconcile(db, execution, now);
    forall d, x | Due(db, d, execution, x) ensures SettledRow(db, db', d, x, now) {
      IncomingIs(db, d, execution);
      LatestExists(db.runs, x);
      LatestUnique(db.runs, execution, x, Latest(db.runs, execution).value);
      SettleBears(db, d, x, now);
    }
    var i, latest := IncomingDelegation(db, execution), Latest(db.runs, execution);
    if db' != db {
      assert Due(db, i.value, execution, latest.value);
    }
  }

  lemma SettleBears(db: Db, d: DelegationId, x: RunId, now: Time)
    requires d in db.delegations && x in db.runs && Terminal(db.runs[x].status)
    ensures SettledRow(db, Settle(db, d, SettledAs(db.runs[x].status), now), d, x, now)
  {
  }

  // ---- dispatch --------------------------------------------------------------------------

  /** The requests of this run that have a child. */
  function RequestsOf(db: Db, r: RunId): set<DelegationId> {
    set d | d in db.delegations && db.delegations[d].parent == r && db.delegations[d].child.Some?
  }

  /** The requests of the tree under this root that have a child. */
  function RequestsUnder(db: Db, root: DelegationId): set<DelegationId> {
    set d | d in db.delegations && db.delegations[d].root == root && db.delegations[d].child.Some?
  }

  lemma SameCounts(db: Db, r: RunId, root: DelegationId)
    ensures MaterializedForRun(db.delegations, r) == RequestsOf(db, r)
    ensures MaterializedForTree(db.delegations, root) == RequestsUnder(db, root)
  {
  }

  /** The parent itself works for request i. */
  predicate WorksFor(db: Db, parent: RunId, i: DelegationId) {
    parent in db.runs && i in db.delegations && db.delegations[i].child == Some(db.runs[parent].execution)
  }

  predicate RoomBelow(db: Db, limits: Limits, i: DelegationId)
    requires i in db.delegations
  {
    && db.delegations[i].depth < limits.depth
    && db.delegations[i].root in db.delegations
    && |RequestsUnder(db, db.delegations[i].root)| < limits.perTree
  }

  /** A live claim on a running parent, an available target, free ids, and room in the run and in the tree. */
  ghost predicate Dispatchable(db: Db, limits: Limits, parent: RunId, c: Claim, target: AgentId,
                               d: DelegationId, task: TaskId, child: RunId, now: Time)
  {
    && ActiveClaim(db.queue, parent, c, now)
    && parent in db.runs && db.runs[parent].status.Running?
    && target in db.agents && db.agents[target].Some?
    && d !in db.delegations && task !in db.tasks && child !in db.runs
    && |RequestsOf(db, parent)| < limits.perRun
    && (forall i :: WorksFor(db, parent, i) ==> RoomBelow(db, limits, i))
  }

  /** A request one level below the one its parent works for, or the root of a new tree. */
  ghost predicate Nests(db: Db, parent: RunId, d: DelegationId, row: Delegation) {
    && (forall i :: WorksFor(db, parent, i) ==>
          row.depth == db.delegations[i].depth + 1 && row.root == db.delegations[i].root)
    && ((forall i :: !WorksFor(db, parent, i)) ==> row.depth == 1 && row.root == d)
  }

  /** A queued child with its task, binding and work item, the request row, and the parent asleep on it. */
  ghost predicate Handed(db: Db, db': Db, parent: RunId, target: AgentId, d: DelegationId, task: TaskId, child: RunId,
                         now: Time)
    requires parent in db.runs
  {
    && db'.tasks == db.tasks[task := TaskActive] && db'.bindings == db.bindings[task := target]
    && child != parent
    && db'.runs == db.runs[child := Run(task, child, now, Queued, None, None)]
                   [parent := db.runs[parent].(status := WaitingForDelegation, delegation := Some(d))]
    && db'.queue == db.queue[child := WorkItem(now, None, 0)] - {parent}
    && d in db'.delegations && Nests(db, parent, d, db'.delegations[d])
    && db'.delegations == db.delegations[d := Delegation(parent, Some(child), Dispatched, db'.delegations[d].root,
                                                         db'.delegations[d].depth, target)]
    && db' == db.(tasks := db'.tasks, bindings := db'.bindings, runs := db'.runs, queue := db'.queue,
                  delegations := db'.delegations)
  }

  /** Which error a refused dispatch reports: only a lost claim is told apart. */
  ghost predicate Decided(db: Db, t: Txn, limits: Limits, parent: RunId, c: Claim, target: AgentId,
                          d: DelegationId, task: TaskId, child: RunId, now: Time)
  {
    && (t.Commit? <==> Dispatchable(db, limits, parent, c, target, d, task, child, now))
    && (t.Commit? ==> parent in db.runs && Handed(db, t.db, parent, target, d, task, child, now))
    && (t.Abort? ==> t.error == if ActiveClaim(db.queue, parent, c, now) then Conflict else ClaimLost)
  }

  lemma DispatchDecides(db: Db, limits: Limits, parent: RunId, c: Claim, target: AgentId,
                        d: DelegationId, task: TaskId, child: RunId, now: Time)
    requires Core(db) && limits.Valid()
    ensures Decided(db, DispatchDelegation(db, limits, parent, c, target, d, task, child, now), limits, parent, c,
            target, d, task, child, now)
  {
    var t := DispatchDelegation(db, limits, parent, c, target, d, task, child, now);
    DispatchesIff(db, limits, parent, c, target, d, task, child, now);
    if t.Commit? {
      Hands(db, limits, parent, c, target, d, task, child, now);
    }
  }

  lemma RoomIff(db: Db, limits: Limits, parent: RunId)
    requires Delegations(db.runs, db.delegations) && parent in db.runs
    ensures var i := IncomingDelegation(db, db.runs[parent].execution);
            (forall x :: WorksFor(db, parent, x) ==> RoomBelow(db, limits, x)) <==>
            (i.Some? ==> i.value in db.delegations && RoomBelow(db, limits, i.value))
  {
    var i := IncomingDelegation(db, db.runs[parent].execution);
    IncomingSome(db, db.runs[parent].execution);
    assert i.Some? ==> WorksFor(db, parent, i.value);
  }

  lemma DispatchesIff(db: Db, limits: Limits, parent: RunId, c: Claim, target: AgentId,
                      d: DelegationId, task: TaskId, child: RunId, now: Time)
    requires QueueCovers(db.runs, db.queue) && Delegations(db.runs, db.delegations) && limits.Valid()
    ensures var t := DispatchDelegation(db, limits, parent, c, target, d, task, child, now);
            && (t.Commit? <==> Dispatchable(db, limits, parent, c, target, d, task, child, now))
            && (t.Abort? ==> t.error == if ActiveClaim(db.queue, parent, c, now) then Conflict else ClaimLost)
  {
    if ActiveClaim(db.queue, parent, c, now) {
      RoomIff(db, limits, parent);
      var i := IncomingDelegation(db, db.runs[parent].execution);
      SameCounts(db, parent, if i.Some? && i.value in db.delegations then db.delegations[i.value].root else 0);
      IncomingSome(db, db.runs[parent].execution);
    }
  }

  lemma NewRequest(db: Db, parent: RunId, d: DelegationId, row: Delegation)
    requires Delegations(db.runs, db.delegations) && parent in db.runs
    requires var i := IncomingDelegation(db, db.runs[parent].execution);
             && (i.None? ==> row.depth == 1 && row.root == d)
             && (i.Some? && i.value in db.delegations ==>
                  row.depth == db.delegations[i.value].depth + 1 && row.root == db.delegations[i.value].root)
    ensures Nests(db, parent, d, row)
  {
    var e := db.runs[parent].execution;
    var i := IncomingDelegation(db, e);
    IncomingSome(db, e);
    assert i.Some? ==> WorksFor(db, parent, i.value);
    forall x: DelegationId | WorksFor(db, parent, x) ensures i == Some(x) {
      IncomingIs(db, x, e);
    }
  }

  lemma Hands(db: Db, limits: Limits, parent: RunId, c: Claim, target: AgentId,
              d: DelegationId, task: TaskId, child: RunId, now: Time)
    requires QueueCovers(db.runs, db.queue) && Delegations(db.runs, db.delegations) && limits.Valid()
    requires DispatchDelegation(db, limits, parent, c, target, d, task, child, now).Commit?
    ensures parent in db.runs
    ensures Handed(db, DispatchDelegation(db, limits, parent, c, target, d, task, child, now).db, parent, target, d,
            task, child, now)
  {
    var db' := DispatchDelegation(db, limits, parent, c, target, d, task, child, now).db;
    assert child !in db.queue && child != parent;
    IncomingSome(db, db.runs[parent].execution);
    NewRequest(db, parent, d, db'.delegations[d]);
  }

  // ---- the agent a run executes as -------------------------------------------------------

  /** The agent is the target of every request the run works for. */
  ghost predicate Serves(db: Db, r: RunId, agent: AgentId) {
    forall i :: WorksFor(db, r, i) ==> agent == db.delegations[i].target
  }

  /** A frozen agent, or else a bound and available one, that serves; an unbound run works for no request. */
  ghost predicate HasAgent(db: Db, r: RunId)
    requires r in db.runs
  {
    if r in db.resolutions then Serves(db, r, db.resolutions[r].agent)
    else if db.runs[r].task in db.bindings then
      var agent := db.bindings[db.runs[r].task];
      Serves(db, r, agent) && agent in db.agents && db.agents[agent].Some?
    else forall i :: !WorksFor(db, r, i)
  }

  /** What was frozen before stands; otherwise the bound agent is frozen at its active revision, if there is one. */
  ghost predicate Froze(db: Db, db': Db, r: RunId, resolution: Option<Resolution>)
    requires r in db.runs
  {
    if r in db.resolutions then resolution == Some(db.resolutions[r]) && db' == db
    else if db.runs[r].task !in db.bindings then resolution.None? && db' == db
    else
      && resolution.Some? && resolution.value.agent == db.bindings[db.runs[r].task]
      && resolution.value.agent in db.agents && db.agents[resolution.value.agent] == Some(resolution.value.revision)
      && db' == db.(resolutions := db.resolutions[r := resolution.value])
  }

  lemma ServesIff(db: Db, r: RunId, agent: AgentId)
    requires Delegations(db.runs, db.delegations) && r in db.runs
    ensures var i := IncomingDelegation(db, db.runs[r].execution);
            && (i.Some? ==> i.value in db.delegations)
            && (Serves(db, r, agent) <==> i.None? || agent == db.delegations[i.value].target)
            && (i.None? <==> forall x :: !WorksFor(db, r, x))
  {
    var e := db.runs[r].execution;
    var i := IncomingDelegation(db, e);
    IncomingSome(db, e);
    assert i.Some? ==> WorksFor(db, r, i.value);
    forall x: DelegationId | WorksFor(db, r, x) ensures i == Some(x) {
      IncomingIs(db, x, e);
    }
  }

  /** A claimed run gets its agent exactly when there is one for it, and which. */
  lemma ResolvesIff(db: Db, r: RunId, c: Claim, now: Time)
    requires Delegations(db.runs, db.delegations)
    ensures var x := ResolveAgent(db, r, c, now);
            && (x.Frozen? <==> r in db.runs && ActiveClaim(db.queue, r, c, now) && HasAgent(db, r))
            && (x.Frozen? ==> Froze(db, x.db, r, x.resolution))
  {
    if r in db.runs {
      var agent :=
        if r in db.resolutions then db.resolutions[r].agent
        else if db.runs[r].task in db.bindings then db.bindings[db.runs[r].task] else 0;
      ServesIff(db, r, agent);
    }
  }
}
