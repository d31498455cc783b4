/**
 Exactly when an execution keeps the agent it was frozen to.  A retry is forgetful if the attempt it continues was never
 resolved although another attempt of the execution was.  Without forgetful retries all resolved attempts of an
 execution agree, whatever the order of attempts; after one, they can be made to disagree.
 */
module FrozenAgents {
  import opened Common
  import opened RuntimeModel
  import opened RuntimeInvariants
  import opened RuntimeFrames
  import opened RuntimeTasks
  import opened RuntimeEndings
  import opened RuntimeProtocol
  import opened RuntimeEvolution
  import opened DelegationForest
  import opened CalmSteps
  import opened AgentMoves
  import opened AgentIdentity

  predicate Siblings(runs: Runs, x: RunId, y: RunId) {
    x in runs && y in runs && runs[x].execution == runs[y].execution
  }

  /** All resolved attempts of an execution run as the same revision of the same agent. */
  ghost predicate Agree(runs: Runs, resolutions: Resolutions) {
    forall x, y :: x in resolutions && y in resolutions && Siblings(runs, x, y) ==> resolutions[x] == resolutions[y]
  }

  predicate ResolvedSibling(db: Db, r: RunId, x: RunId) {
    x in db.resolutions && Siblings(db.runs, r, x)
  }

  /** What the caller of a retry can check: the attempt it continues is unresolved, another one is not. */
  ghost predicate Unremembered(db: Db, r: RunId) {
    r !in db.resolutions && exists x :: ResolvedSibling(db, r, x)
  }

  ghost predicate Forgetful(cfg: Config, w: World, step: Step)
    requires cfg.Valid()
  {
    && RetryStep(step) && Unremembered(w.db, step.request.end.run)
    && step.request.end.retry !in w.db.runs && step.request.end.retry in Next(cfg, w, step).db.runs
  }

  ghost predicate NeverForgets(cfg: Config, w: World, steps: seq<Step>)
    requires cfg.Valid()
  {
    forall i :: 0 <= i < |steps| ==> !Forgetful(cfg, Exec(cfg, w, steps[..i]), steps[i])
  }

  // ---- the invariant ---------------------------------------------------------------------

  /** Open, or still to be claimed. */
  predicate Holder(db: Db, r: RunId) {
    r in db.runs && (r in db.queue || !Terminal(db.runs[r].status))
  }

  ghost predicate OneHolder(db: Db) {
    forall x, y :: Holder(db, x) && Holder(db, y) && Siblings(db.runs, x, y) ==> x == y
  }

  /** The attempt that can still be claimed is resolved as soon as one of its execution is. */
  ghost predicate HolderResolved(db: Db) {
    forall x, y :: Holder(db, x) && y in db.resolutions && Siblings(db.runs, x, y) ==> x in db.resolutions
  }

  ghost predicate Consistent(db: Db) {
    ResolvedRuns(db) && Agree(db.runs, db.resolutions) && OneHolder(db) && HolderResolved(db)
  }

  predicate TaskOver(db: Db, e: RunId) {
    e in db.runs && db.runs[e].task in db.tasks && db.tasks[db.runs[e].task].TaskEnded?
  }

  ghost function Over(db: Db): iset<RunId> {
    iset e: RunId | TaskOver(db, e)
  }

  /** Leftover rows belong to executions of ended tasks. */
  ghost predicate FrozenInv(db: Db) {
    Core(db) && Tidy(db, Over(db)) && Consistent(db)
  }

  // ---- moves -----------------------------------------------------------------------------

  lemma HoldersShrink(db: Db, db': Db, m: Move, x: RunId)
    requires Made(db, db', m) && x in db.runs && Holder(db', x)
    ensures Holder(db, x)
  {
    assert SameAttempt(db.runs[x], db'.runs[x]);
  }

  /** Whoever is left in the queue after it ended belongs to an ended task. */
  lemma QueuedIsOver(db: Db, x: RunId)
    requires Core(db) && Tidy(db, Over(db)) && x in db.queue && x in db.runs && Terminal(db.runs[x].status)
    ensures TaskOver(db, x)
  {
    assert Rooted(db.runs, x);
    assert TaskOver(db, db.runs[x].execution);
  }

  /** When the next attempt arrives no other one of the execution is open or queued. */
  lemma RetryIsAlone(db: Db, db': Db, source: RunId, retry: RunId, x: RunId)
    requires FrozenInv(db) && Made(db, db', Retries(source, retry))
    requires Siblings(db'.runs, x, retry) && Holder(db', x)
    ensures x == retry
  {
    if x in db.runs {
      HoldersShrink(db, db', Retries(source, retry), x);
      assert SameAttempt(db.runs[x], db'.runs[x]);
      if OpenIn(db.runs, source) {
        assert Holder(db, source) && Siblings(db.runs, x, source);
      } else {
        assert Rooted(db.runs, x) && Rooted(db.runs, source);
        QueuedIsOver(db, x);
      }
    }
  }

  lemma SiblingsBefore(db: Db, db': Db, m: Move, x: RunId, y: RunId)
    requires Made(db, db', m) && x in db.runs && y in db.runs && Siblings(db'.runs, x, y)
    ensures Siblings(db.runs, x, y)
  {
    assert SameAttempt(db.runs[x], db'.runs[x]) && SameAttempt(db.runs[y], db'.runs[y]);
  }

  lemma OneHolderMove(db: Db, db': Db, m: Move)
    requires FrozenInv(db) && Made(db, db', m)
    ensures OneHolder(db')
  {
    forall x, y | Holder(db', x) && Holder(db', y) && Siblings(db'.runs, x, y) ensures x == y {
      if x in db.runs && y in db.runs {
        HoldersShrink(db, db', m, x);
        HoldersShrink(db, db', m, y);
        SiblingsBefore(db, db', m, x, y);
      } else if m.Starts? {
        NobodyYet(db.runs, m.run);
      } else {
        RetryIsAlone(db, db', m.source, m.run, x);
        RetryIsAlone(db, db', m.source, m.run, y);
      }
    }
  }

  /** Nothing is added, or what is added equals what its siblings have. */
  lemma AgreeMove(db: Db, db': Db, m: Move)
    requires FrozenInv(db) && Made(db, db', m)
    ensures Agree(db'.runs, db'.resolutions)
  {
    forall x, y | x in db'.resolutions && y in db'.resolutions && Siblings(db'.runs, x, y)
      ensures db'.resolutions[x] == db'.resolutions[y]
    {
      if x in db.resolutions && y in db.resolutions {
        SiblingsBefore(db, db', m, x, y);
      } else if m.Freezes? {
        assert Holder(db, m.run);
      } else {
        assert m.Retries? && m.source in db.resolutions;
        if x in db.resolutions {
          assert Siblings(db.runs, x, m.source);
        } else if y in db.resolutions {
          assert Siblings(db.runs, y, m.source);
        }
      }
    }
  }

  lemma NewHolderKnows(db: Db, db': Db, m: Move, x: RunId, y: RunId)
    requires FrozenInv(db) && Made(db, db', m) && (m.Retries? ==> !Unremembered(db, m.source))
    requires x !in db.runs && y in db.resolutions && Siblings(db'.runs, x, y)
    ensures x in db'.resolutions
  {
    assert SameAttempt(db.runs[y], db'.runs[y]);
    if m.Starts? {
      NobodyYet(db.runs, m.run);
    } else {
      assert ResolvedSibling(db, m.source, y);
    }
  }

  lemma HolderResolvedMove(db: Db, db': Db, m: Move)
    requires FrozenInv(db) && Made(db, db', m) && (m.Retries? ==> !Unremembered(db, m.source))
    ensures HolderResolved(db')
  {
    forall x, y | Holder(db', x) && y in db'.resolutions && Siblings(db'.runs, x, y) ensures x in db'.resolutions {
      if x in db.runs {
        HoldersShrink(db, db', m, x);
        if y in db.resolutions {
          SiblingsBefore(db, db', m, x, y);
        } else if m.Freezes? {
          assert Holder(db, m.run) && Siblings(db.runs, x, m.run);
        } else {
          RetryIsAlone(db, db', m.source, m.run, x);
        }
      } else if y in db.resolutions {
        NewHolderKnows(db, db', m, x, y);
      }
    }
  }

  // ---- leftover rows ---------------------------------------------------------------------

  lemma TidyGrows(db: Db, cut: iset<RunId>, cut': iset<RunId>)
    requires Tidy(db, cut) && forall e :: e in cut ==> e in cut'
    ensures Tidy(db, cut')
  {
  }

  lemma CutIsOver(cfg: Config, w: World, step: Step, e: RunId)
    requires cfg.Valid() && Core(w.db) && e in CutOf(w.db, step)
    ensures TaskOver(Next(cfg, w, step).db, e)
  {
    CancelIsOver(w.db, step.request.end.task, e);
    CancelNext(cfg, w, step.request.end.task);
  }

  lemma CancelNext(cfg: Config, w: World, task: TaskId)
    requires cfg.Valid()
    ensures Next(cfg, w, Use(OnEnd(DoCancelTask(task)))).db == After(w.db, CancelTask(w.db, task))
  {
  }

  lemma CancelIsOver(db: Db, task: TaskId, e: RunId)
    requires Executions(db.runs) && CancelTask(db, task).Commit? && e in CutBy(db.runs, task)
    ensures TaskOver(CancelTask(db, task).db, e)
  {
    var r :| OpenRunOf(db.runs, r, task) && db.runs[r].execution == e;
    assert Rooted(db.runs, r);
  }

  lemma OverStays(db: Db, db': Db, e: RunId)
    requires RunsEvolve(db.runs, db'.runs) && EndedStay(db.tasks, db'.tasks) && TaskOver(db, e)
    ensures TaskOver(db', e)
  {
    assert SameAttempt(db.runs[e], db'.runs[e]);
  }

  lemma NextTidy(cfg: Config, w: World, step: Step)
    requires cfg.Valid() && Core(w.db) && Tidy(w.db, Over(w.db))
    ensures var db' := Next(cfg, w, step).db; Core(db') && Tidy(db', Over(db'))
  {
    var db', scope := Next(cfg, w, step).db, Scope(Over(w.db), CoreOnly().cut);
    CoreIsInv(w.db);
    NextKeeps(cfg, w, scope, step);
    var m := NextMove(cfg, w, step);
    forall e | e in scope.rows + CutOf(w.db, step) ensures e in Over(db') {
      if e in CutOf(w.db, step) {
        CutIsOver(cfg, w, step, e);
      } else {
        OverStays(w.db, db', e);
      }
    }
    TidyGrows(db', scope.rows + CutOf(w.db, step), Over(db'));
  }

  // ---- without forgetful retries ---------------------------------------------------------

  lemma NextFrozen(cfg: Config, w: World, step: Step)
    requires cfg.Valid() && FrozenInv(w.db) && !Forgetful(cfg, w, step)
    ensures FrozenInv(Next(cfg, w, step).db)
  {
    var m := NextMove(cfg, w, step);
    NextTidy(cfg, w, step);
    MoveStays(w.db, Next(cfg, w, step).db, m);
    OneHolderMove(w.db, Next(cfg, w, step).db, m);
    AgreeMove(w.db, Next(cfg, w, step).db, m);
    HolderResolvedMove(w.db, Next(cfg, w, step).db, m);
  }

  lemma ForgetsFront(cfg: Config, w: World, steps: seq<Step>)
    requires cfg.Valid() && steps != [] && NeverForgets(cfg, w, steps)
    ensures var front := steps[..|steps| - 1];
            NeverForgets(cfg, w, front) && !Forgetful(cfg, Exec(cfg, w, front), steps[|steps| - 1])
  {
    var front := steps[..|steps| - 1];
    forall i | 0 <= i < |front| ensures !Forgetful(cfg, Exec(cfg, w, front[..i]), front[i]) {
      assert front[..i] == steps[..i];
    }
  }

  lemma {:induction false} RunKeepsFrozen(cfg: Config, w: World, steps: seq<Step>)
    requires cfg.Valid() && FrozenInv(w.db) && NeverForgets(cfg, w, steps)
    ensures FrozenInv(Exec(cfg, w, steps).db)
  {
    if steps != [] {
      ForgetsFront(cfg, w, steps);
      RunKeepsFrozen(cfg, w, steps[..|steps| - 1]);
      NextFrozen(cfg, Exec(cfg, w, steps[..|steps| - 1]), steps[|steps| - 1]);
    }
  }

  /** In every run without a forgetful retry, ordered or not, all resolved attempts of an execution agree. */
  lemma StaysFrozen(cfg: Config, w: World, steps: seq<Step>, x: RunId, y: RunId)
    requires cfg.Valid() && Fresh(w) && NeverForgets(cfg, w, steps)
    requires var db := Exec(cfg, w, steps).db;
             x in db.resolutions && y in db.resolutions && Siblings(db.runs, x, y)
    ensures var db := Exec(cfg, w, steps).db; db.resolutions[x] == db.resolutions[y]
  {
    FreshHolds(w);
    RunKeepsFrozen(cfg, w, steps);
  }

  // ---- after a forgetful retry -----------------------------------------------------------

  /** The new attempt waits in the queue, unresolved. */
  predicate Waiting(db: Db, retry: RunId) {
    && retry in db.runs && db.runs[retry].status.Queued? && retry !in db.resolutions
    && retry in db.queue && db.queue[retry].lease.None?
  }

  lemma AddRetryWaits(db: Db, source: RunId, retry: RunId, now: Time, availableAt: Time)
    requires source in db.runs && retry !in db.queue && source !in db.resolutions && retry !in db.resolutions
    ensures Waiting(AddRetry(db, source, retry, now, availableAt), retry)
  {
  }

  lemma ForgottenWaits(cfg: Config, w: World, step: Step)
    requires cfg.Valid() && Core(w.db) && ResolvedRuns(w.db) && Forgetful(cfg, w, step)
    ensures Waiting(Next(cfg, w, step).db, step.request.end.retry)
  {
    var e := step.request.end;
    if e.DoRetry? {
      AddRetryWaits(w.db, e.run, e.retry, e.now, e.now);
    } else {
      ApplyFailedShape(w.db, cfg.policy, e.run, e.claim, e.retryable, e.retry, e.now);
      var failed := EndRun(CancelChildren(w.db, e.run), e.run, Failed);
      var attempt := Ordinal(w.db.runs, e.run);
      FailCalm(w.db, e.run, e.now);
      AddRetryWaits(failed, e.run, e.retry, e.now, e.now + cfg.policy.ComputeDelay(attempt + 1));
    }
  }

  /** Claimed by a worker. */
  predicate Claimed(db: Db, r: RunId, c: Claim, at: Time) {
    r in db.runs && db.runs[r].status.Running? && r !in db.resolutions && ActiveClaim(db.queue, r, c, at)
  }

  /** The resolver freezes what the task is bound to, if every request of the execution names it. */
  lemma Accepts(db: Db, r: RunId, c: Claim, at: Time, agent: AgentId, revision: RevisionId)
    requires Delegations(db.runs, db.delegations) && Claimed(db, r, c, at)
    requires db.runs[r].task in db.bindings && db.bindings[db.runs[r].task] == agent
    requires agent in db.agents && db.agents[agent] == Some(revision)
    requires FitsRequests(db.delegations, db.runs[r].execution, agent)
    ensures var resolution := Resolution(agent, revision);
            ResolveAgent(db, r, c, at) ==
              Resolved.Frozen(db.(resolutions := db.resolutions[r := resolution]), Some(resolution))
  {
    IncomingSome(db, db.runs[r].execution);
  }

  /** An execution has at most one request, so some agent suits it. */
  lemma Suitable(delegations: Requests, e: RunId, otherwise: AgentId) returns (agent: AgentId)
    requires DistinctChildren(delegations)
    ensures FitsRequests(delegations, e, agent)
  {
    agent := otherwise;
    if d :| d in delegations && delegations[d].child == Some(e) {
      agent := delegations[d].target;
    }
  }

  /** Bind the task of the run to this agent, in this revision. */
  function Ready(db: Db, r: RunId, agent: AgentId, revision: RevisionId): Db
    requires r in db.runs
  {
    db.(bindings := db.bindings[db.runs[r].task := agent], agents := db.agents[agent := Some(revision)])
  }

  lemma FourSteps(cfg: Config, w: World, q: QueueRequest, b: AgentRequest, a: AgentRequest, r: AgentRequest)
    requires cfg.Valid()
    ensures var more := [Use(OnQueue(q)), Use(OnAgent(b)), Use(OnAgent(a)), Use(OnAgent(r))];
            && Exec(cfg, w, more).db == AgentTxn(AgentTxn(AgentTxn(QueueTxn(w.db, q), b), a), r)
            && NeverForgets(cfg, w, more)
  {
    var s0, s1, s2, s3 := Use(OnQueue(q)), Use(OnAgent(b)), Use(OnAgent(a)), Use(OnAgent(r));
    assert [s0, s1, s2, s3][..3] == [s0, s1, s2] && [s0, s1, s2][..2] == [s0, s1];
    assert [s0, s1][..1] == [s0] && [s0][..0] == [];
    assert Exec(cfg, w, [s0]).db == QueueTxn(w.db, q);
    assert Exec(cfg, w, [s0, s1]).db == AgentTxn(QueueTxn(w.db, q), b);
    assert Exec(cfg, w, [s0, s1, s2]).db == AgentTxn(AgentTxn(QueueTxn(w.db, q), b), a);
  }

  lemma ClaimsWaiting(db: Db, r: RunId) returns (c: Claim)
    requires Waiting(db, r)
    ensures var at := db.queue[r].availableAt;
            var db' := QueueTxn(db, DoClaim(r, c.worker, c.token, at, at + 1.0));
            Claimed(db', r, c, at) && RunsEvolve(db.runs, db'.runs) && db'.resolutions == db.resolutions
  {
    c := Claim("worker", "token", db.queue[r].generation + 1);
    ClaimEvolves(db, r, c.worker, c.token, db.queue[r].availableAt, db.queue[r].availableAt + 1.0);
  }

  lemma Disagree(db: Db, db': Db, r: RunId, x: RunId, resolution: Resolution)
    requires ResolvedSibling(db, r, x) && r !in db.resolutions && resolution != db.resolutions[x]
    requires RunsEvolve(db.runs, db'.runs) && db'.resolutions == db.resolutions[r := resolution]
    ensures !Agree(db'.runs, db'.resolutions)
  {
    assert SameAttempt(db.runs[r], db'.runs[r]) && SameAttempt(db.runs[x], db'.runs[x]);
    assert Siblings(db'.runs, r, x);
  }

  lemma ResolvesReady(db: Db, r: RunId, c: Claim, at: Time, agent: AgentId, revision: RevisionId)
    requires Delegations(db.runs, db.delegations) && Claimed(db, r, c, at)
    requires FitsRequests(db.delegations, db.runs[r].execution, agent)
    ensures var db' := AgentTxn(Ready(db, r, agent, revision), DoResolveAgent(r, c, at));
            db'.runs == db.runs && db'.resolutions == db.resolutions[r := Resolution(agent, revision)]
  {
    Accepts(Ready(db, r, agent, revision), r, c, at, agent, revision);
  }

  /** Bind the task, activate another revision, and resolve. */
  lemma ClaimedDrifts(db: Db, r: RunId, c: Claim, at: Time, first: Resolution)
    returns (b: AgentRequest, a: AgentRequest, resolution: Resolution)
    requires Delegations(db.runs, db.delegations) && Claimed(db, r, c, at)
    ensures var db' := AgentTxn(AgentTxn(AgentTxn(db, b), a), DoResolveAgent(r, c, at));
            db'.runs == db.runs && db'.resolutions == db.resolutions[r := resolution] && resolution != first
  {
    var agent := Suitable(db.delegations, db.runs[r].execution, first.agent);
    var revision := first.revision + 1;
    b, a := DoBind(db.runs[r].task, Some(agent)), DoActivate(agent, Some(revision));
    resolution := Resolution(agent, revision);
    ResolvesReady(db, r, c, at, agent, revision);
    assert AgentTxn(AgentTxn(db, b), a) == Ready(db, r, agent, revision);
  }

  lemma ClaimKeepsDelegations(db: Db, q: QueueRequest)
    requires Core(db)
    ensures Delegations(QueueTxn(db, q).runs, QueueTxn(db, q).delegations)
  {
    CoreIsInv(db);
    QueueTxnKeeps(db, CoreOnly(), q);
  }

  /** Claim the new attempt first. */
  lemma WaitingDrifts(cfg: Config, w: World, r: RunId, x: RunId) returns (more: seq<Step>)
    requires cfg.Valid() && Core(w.db) && Waiting(w.db, r) && ResolvedSibling(w.db, r, x)
    ensures var db' := Exec(cfg, w, more).db; NeverForgets(cfg, w, more) && !Agree(db'.runs, db'.resolutions)
  {
    var at := w.db.queue[r].availableAt;
    var c := ClaimsWaiting(w.db, r);
    var q := DoClaim(r, c.worker, c.token, at, at + 1.0);
    ClaimKeepsDelegations(w.db, q);
    var b, a, resolution := ClaimedDrifts(QueueTxn(w.db, q), r, c, at, w.db.resolutions[x]);
    FourSteps(cfg, w, q, b, a, DoResolveAgent(r, c, at));
    more := [Use(OnQueue(q)), Use(OnAgent(b)), Use(OnAgent(a)), Use(OnAgent(DoResolveAgent(r, c, at)))];
    Disagree(w.db, Exec(cfg, w, more).db, r, x, resolution);
  }

  lemma SiblingStays(db: Db, db': Db, source: RunId, retry: RunId, x: RunId)
    requires ResolvedRuns(db) && Made(db, db', Retries(source, retry)) && ResolvedSibling(db, source, x)
    ensures ResolvedSibling(db', retry, x)
  {
    assert SameAttempt(db.runs[x], db'.runs[x]);
  }

  /**
   After a forgetful retry some continuation, itself without one, freezes two attempts of the execution to different
   agents.
   */
  lemma ForgetfulDrifts(cfg: Config, w: World, step: Step) returns (more: seq<Step>)
    requires cfg.Valid() && Core(w.db) && ResolvedRuns(w.db) && Forgetful(cfg, w, step)
    ensures var w' := Next(cfg, w, step);
            var db' := Exec(cfg, w', more).db;
            NeverForgets(cfg, w', more) && !Agree(db'.runs, db'.resolutions)
  {
    var x :| ResolvedSibling(w.db, step.request.end.run, x);
    ForgottenWaits(cfg, w, step);
    NextKeepsCore(cfg, w, step);
    var m := NextMove(cfg, w, step);
    SiblingStays(w.db, Next(cfg, w, step).db, step.request.end.run, step.request.end.retry, x);
    more := WaitingDrifts(cfg, Next(cfg, w, step), step.request.end.retry, x);
  }

  /**
   The exact condition.  After a run without forgetful retries, a further step leaves every execution its frozen agent
   for ever, as long as nothing is forgotten later, if and only if that step is not a forgetful retry.
   */
  lemma StaysFrozenIff(cfg: Config, w: World, steps: seq<Step>, step: Step)
    requires cfg.Valid() && Fresh(w) && NeverForgets(cfg, w, steps)
    ensures var before := Exec(cfg, w, steps);
            var after := Next(cfg, before, step);
            !Forgetful(cfg, before, step) <==>
              forall more :: NeverForgets(cfg, after, more) ==>
                var db := Exec(cfg, after, more).db; Agree(db.runs, db.resolutions)
  {
    var before := Exec(cfg, w, steps);
    var after := Next(cfg, before, step);
    FreshHolds(w);
    RunKeepsFrozen(cfg, w, steps);
    if Forgetful(cfg, before, step) {
      var more := ForgetfulDrifts(cfg, before, step);
    } else {
      NextFrozen(cfg, before, step);
      forall more | NeverForgets(cfg, after, more)
        ensures var db := Exec(cfg, after, more).db; Agree(db.runs, db.resolutions)
      {
        RunKeepsFrozen(cfg, after, more);
      }
    }
  }

  // ---- delegated executions --------------------------------------------------------------

  /** In every run, with or without forgetful retries, a delegated execution only ever runs as its target. */
  lemma {:induction false} RunsAsTarget(cfg: Config, w: World, steps: seq<Step>)
    requires cfg.Valid() && Fresh(w)
    ensures var db := Exec(cfg, w, steps).db; ResolvedRuns(db) && Targets(db.runs, db.delegations, db.resolutions)
  {
    if steps != [] {
      var front := steps[..|steps| - 1];
      RunsAsTarget(cfg, w, front);
      FreshHolds(w);
      RunKeepsCore(cfg, w, front);
      var m := NextMove(cfg, Exec(cfg, w, front), steps[|steps| - 1]);
      MoveStays(Exec(cfg, w, front).db, Exec(cfg, w, steps).db, m);
      TargetsMove(Exec(cfg, w, front).db, Exec(cfg, w, steps).db, m);
    }
  }
}
