/**
 The agent an execution runs as is frozen once, survives rebinding, re-activation and races, and is carried
 by every later attempt.  Attempts are ordered by (created_at, id); the theorems that speak of later attempts
 assume what that order is meant to give, namely that a retry is newer than the attempts it follows.
 */
module AgentIdentity {
  import opened Common
  import opened RuntimeModel
  import opened RuntimeInvariants
  import opened RuntimeFrames
  import opened RuntimeProtocol
  import opened RuntimeEvolution
  import opened DelegationForest
  import opened CalmSteps
  import opened AgentMoves

  /** The newest attempt of its execution. */
  ghost predicate Head(runs: Runs, r: RunId)
    requires r in runs
  {
    forall x :: x in runs && runs[x].execution == runs[r].execution && x != r ==> Later(runs, r, x)
  }

  /** Whatever is open or can still be claimed is the newest attempt of its execution. */
  ghost predicate Heads(runs: Runs, queue: map<RunId, WorkItem>) {
    forall r :: r in runs && (r in queue || !Terminal(runs[r].status)) ==> Head(runs, r)
  }

  /** Once an attempt is resolved, every later attempt of the execution carries the same agent and revision. */
  ghost predicate Carried(runs: Runs, resolutions: Resolutions) {
    && (forall x :: x in resolutions ==> x in runs)
    && (forall x, y :: x in resolutions && y in runs && runs[y].execution == runs[x].execution && Later(runs, y, x) ==>
          y in resolutions && resolutions[y] == resolutions[x])
  }

  /** A delegated execution only ever runs as the delegation's target. */
  ghost predicate Targets(runs: Runs, delegations: Requests, resolutions: Resolutions) {
    forall d, r ::
      d in delegations && r in resolutions && r in runs
      && delegations[d].child == Some(runs[r].execution) ==>
      resolutions[r].agent == delegations[d].target
  }

  ghost predicate AgentInv(db: Db) {
    && Heads(db.runs, db.queue)
    && Carried(db.runs, db.resolutions)
    && Targets(db.runs, db.delegations, db.resolutions)
  }

  // ---- moves -----------------------------------------------------------------------------

  lemma NobodyYet(runs: Runs, r: RunId)
    requires Executions(runs) && r !in runs
    ensures forall x :: x in runs ==> runs[x].execution != r
  {
    forall x | x in runs ensures runs[x].execution != r {
      assert Rooted(runs, x);
    }
  }

  /** A retry created now under this id is newer than every attempt of the execution. */
  ghost predicate Newest(runs: Runs, execution: RunId, now: Time, retry: RunId) {
    forall x :: x in runs && runs[x].execution == execution ==>
      now > runs[x].createdAt || (now == runs[x].createdAt && retry > x)
  }

  ghost predicate OrderedMove(runs: Runs, runs': Runs, m: Move) {
    m.Retries? ==> m.run in runs' && Newest(runs, runs'[m.run].execution, runs'[m.run].createdAt, m.run)
  }

  /** Retried attempts are the newest of their execution. */
  lemma SourceIsHead(db: Db, source: RunId)
    requires Executions(db.runs) && Heads(db.runs, db.queue)
    requires source in db.runs && (OpenIn(db.runs, source) || Retriable(db, source))
    ensures Head(db.runs, source)
  {
    if Retriable(db, source) {
      forall x | x in db.runs && db.runs[x].execution == db.runs[source].execution && x != source
        ensures Later(db.runs, source, x)
      {
        assert Rooted(db.runs, x) && Rooted(db.runs, source);
      }
    }
  }

  lemma HeadsMove(db: Db, db': Db, m: Move)
    requires Executions(db.runs) && Heads(db.runs, db.queue) && Made(db, db', m) && OrderedMove(db.runs, db'.runs, m)
    ensures Heads(db'.runs, db'.queue)
  {
    if m.Starts? {
      NobodyYet(db.runs, m.run);
    } else if m.Retries? {
      SourceIsHead(db, m.source);
    }
    forall r | r in db'.runs && (r in db'.queue || !Terminal(db'.runs[r].status)) ensures Head(db'.runs, r) {
      if r in db.runs {
        assert SameAttempt(db.runs[r], db'.runs[r]);
        assert Head(db.runs, r);
      }
    }
  }

  /** A retry of the newest attempt carries whatever any earlier attempt was frozen to. */
  lemma CarriedRetry(runs: Runs, runs': Runs, resolutions: Resolutions, source: RunId, retry: RunId)
    requires Carried(runs, resolutions) && source in runs && Head(runs, source) && RunsEvolve(runs, runs')
    requires Added(runs, runs', retry, runs[source].execution)
    requires Newest(runs, runs[source].execution, runs'[retry].createdAt, retry)
    ensures Carried(runs', Inherit(resolutions, source, retry))
  {
    var resolutions' := Inherit(resolutions, source, retry);
    forall x, y | x in resolutions' && y in runs' && runs'[y].execution == runs'[x].execution && Later(runs', y, x)
      ensures y in resolutions' && resolutions'[y] == resolutions'[x]
    {
      if y == retry {
        assert x == source || Later(runs, source, x);
      } else if x != retry {
        assert Later(runs, y, x);
      }
    }
  }

  /** A claimable run is the newest attempt of its execution, so nothing later lacks what is frozen now. */
  lemma FreezeCarries(runs: Runs, resolutions: Resolutions, r: RunId, resolution: Resolution)
    requires Carried(runs, resolutions) && r in runs && Head(runs, r) && r !in resolutions
    ensures Carried(runs, resolutions[r := resolution])
  {
  }

  lemma CarriedSame(runs: Runs, runs': Runs, resolutions: Resolutions)
    requires Carried(runs, resolutions) && RunsEvolve(runs, runs') && runs'.Keys == runs.Keys
    ensures Carried(runs', resolutions)
  {
  }

  lemma CarriedStart(runs: Runs, runs': Runs, resolutions: Resolutions, r: RunId)
    requires Carried(runs, resolutions) && RunsEvolve(runs, runs') && Added(runs, runs', r, r)
    requires forall x :: x in runs ==> runs[x].execution != r
    ensures Carried(runs', resolutions)
  {
  }

  lemma CarriedMove(db: Db, db': Db, m: Move)
    requires Executions(db.runs) && Heads(db.runs, db.queue) && Carried(db.runs, db.resolutions)
    requires Made(db, db', m) && OrderedMove(db.runs, db'.runs, m)
    ensures Carried(db'.runs, db'.resolutions)
  {
    match m
    case Stays => CarriedSame(db.runs, db'.runs, db.resolutions);
    case Starts(r) =>
      NobodyYet(db.runs, r);
      CarriedStart(db.runs, db'.runs, db.resolutions, r);
    case Retries(source, r) =>
      SourceIsHead(db, source);
      CarriedRetry(db.runs, db'.runs, db.resolutions, source, r);
    case Freezes(r, resolution) => FreezeCarries(db.runs, db.resolutions, r, resolution);
  }

  /** No order is needed for delegated executions to run as their target. */
  lemma TargetsMove(db: Db, db': Db, m: Move)
    requires Executions(db.runs) && ResolvedRuns(db) && Targets(db.runs, db.delegations, db.resolutions)
    requires Made(db, db', m)
    ensures Targets(db'.runs, db'.delegations, db'.resolutions)
  {
    if m.Starts? {
      NobodyYet(db.runs, m.run);
    }
    forall d, r | d in db'.delegations && r in db'.resolutions && r in db'.runs
      && db'.delegations[d].child == Some(db'.runs[r].execution)
      ensures db'.resolutions[r].agent == db'.delegations[d].target
    {
      if d in db.delegations {
        assert SameRequest(db.delegations[d], db'.delegations[d]);
      }
    }
  }

  lemma AgentsMove(db: Db, db': Db, m: Move)
    requires Executions(db.runs) && AgentInv(db) && Made(db, db', m) && OrderedMove(db.runs, db'.runs, m)
    ensures AgentInv(db')
  {
    HeadsMove(db, db', m);
    CarriedMove(db, db', m);
    TargetsMove(db, db', m);
  }

  // ---- every run -------------------------------------------------------------------------

  /** A retry is newer than the attempts of the execution it continues. */
  ghost predicate OrderedStep(db: Db, step: Step) {
    step.Use? && step.request.OnEnd? && (step.request.end.DoRetry? || step.request.end.DoFailed?) ==>
      step.request.end.run in db.runs ==>
        Newest(db.runs, db.runs[step.request.end.run].execution, step.request.end.now, step.request.end.retry)
  }

  ghost predicate Ordered(cfg: Config, w: World, steps: seq<Step>)
    requires cfg.Valid()
  {
    forall i :: 0 <= i < |steps| ==> OrderedStep(Exec(cfg, w, steps[..i]).db, steps[i])
  }

  lemma NextAgents(cfg: Config, w: World, step: Step)
    requires cfg.Valid() && Core(w.db) && AgentInv(w.db) && OrderedStep(w.db, step)
    ensures AgentInv(Next(cfg, w, step).db)
  {
    var m := NextMove(cfg, w, step);
    AgentsMove(w.db, Next(cfg, w, step).db, m);
  }

  lemma OrderedFront(cfg: Config, w: World, steps: seq<Step>)
    requires cfg.Valid() && steps != [] && Ordered(cfg, w, steps)
    ensures var front := steps[..|steps| - 1];
            Ordered(cfg, w, front) && OrderedStep(Exec(cfg, w, front).db, steps[|steps| - 1])
  {
    var front := steps[..|steps| - 1];
    forall i | 0 <= i < |front| ensures OrderedStep(Exec(cfg, w, front[..i]).db, front[i]) {
      assert front[..i] == steps[..i];
    }
  }

  lemma {:induction false} RunKeepsAgents(cfg: Config, w: World, steps: seq<Step>)
    requires cfg.Valid() && Fresh(w) && Ordered(cfg, w, steps)
    ensures AgentInv(Exec(cfg, w, steps).db)
  {
    if steps != [] {
      var front := steps[..|steps| - 1];
      OrderedFront(cfg, w, steps);
      RunKeepsAgents(cfg, w, front);
      FreshHolds(w);
      RunKeepsCore(cfg, w, front);
      NextAgents(cfg, Exec(cfg, w, front), steps[|steps| - 1]);
    }
  }

  /**
   All resolved attempts of an execution agree, every attempt later than a resolved one is resolved, and delegated ones
   run as their target.
   */
  lemma FrozenIdentity(cfg: Config, w: World, steps: seq<Step>, x: RunId, y: RunId)
    requires cfg.Valid() && Fresh(w) && Ordered(cfg, w, steps)
    requires var db := Exec(cfg, w, steps).db;
             x in db.resolutions && x in db.runs && y in db.runs && db.runs[y].execution == db.runs[x].execution
    ensures var db := Exec(cfg, w, steps).db;
            && (Later(db.runs, y, x) ==> y in db.resolutions)
            && (y in db.resolutions ==> db.resolutions[y] == db.resolutions[x])
            && (forall d :: d in db.delegations && db.delegations[d].child == Some(db.runs[x].execution) ==>
                 db.resolutions[x].agent == db.delegations[d].target)
  {
    RunKeepsAgents(cfg, w, steps);
    var db := Exec(cfg, w, steps).db;
    if x != y && !Later(db.runs, y, x) {
      assert Later(db.runs, x, y);
    }
  }

  // ---- resolver calls --------------------------------------------------------------------

  ghost predicate ResolvedRuns(db: Db) {
    forall x :: x in db.resolutions ==> x in db.runs
  }

  ghost predicate Stay(resolutions: Resolutions, resolutions': Resolutions) {
    forall x :: x in resolutions ==> x in resolutions' && resolutions'[x] == resolutions[x]
  }

  /** Resolutions are only ever added. */
  lemma MoveStays(db: Db, db': Db, m: Move)
    requires ResolvedRuns(db) && Made(db, db', m)
    ensures ResolvedRuns(db') && Stay(db.resolutions, db'.resolutions)
  {
  }

  lemma {:induction false} RunStays(cfg: Config, w: World, steps: seq<Step>, i: nat)
    requires cfg.Valid() && Fresh(w) && i <= |steps|
    ensures ResolvedRuns(Exec(cfg, w, steps).db)
    ensures Stay(Exec(cfg, w, steps[..i]).db.resolutions, Exec(cfg, w, steps).db.resolutions)
    decreases |steps|
  {
    if i == |steps| {
      assert steps[..i] == steps;
    }
    if steps != [] {
      var front := steps[..|steps| - 1];
      FreshHolds(w);
      RunKeepsCore(cfg, w, front);
      if i < |steps| {
        assert front[..i] == steps[..i];
        RunStays(cfg, w, front, i);
      } else {
        RunStays(cfg, w, front, 0);
      }
      var m := NextMove(cfg, Exec(cfg, w, front), steps[|steps| - 1]);
      MoveStays(Exec(cfg, w, front).db, Exec(cfg, w, steps).db, m);
    }
  }

  /** The loser of the freeze race reads the winner back under its own claim. */
  function ReadWinner(db: Db, r: RunId, c: Claim, now: Time): Option<Resolution> {
    if ActiveClaim(db.queue, r, c, now) && r in db.resolutions then Some(db.resolutions[r]) else None
  }

  /** What a resolver call returns at this state, by freezing, reading or losing the race. */
  ghost predicate Returns(db: Db, r: RunId, c: Claim, now: Time, x: Resolution) {
    var resolved := ResolveAgent(db, r, c, now);
    (resolved.Frozen? && resolved.resolution == Some(x)) || ReadWinner(db, r, c, now) == Some(x)
  }

  /**
   Whatever is rebound or re-activated in between, and whatever the clock or the claims: a resolver call that froze
   or read an agent for a run, and every later call for the same run, return the same agent and revision.
   */
  lemma ResolverCallsAgree(cfg: Config, w: World, steps: seq<Step>, i: nat, r: RunId, c: Claim, now: Time,
                           x: Resolution, c': Claim, now': Time, y: Resolution)
    requires cfg.Valid() && Fresh(w) && i < |steps| && steps[i] == Use(OnAgent(DoResolveAgent(r, c, now)))
    requires Returns(Exec(cfg, w, steps[..i]).db, r, c, now, x)
    requires Returns(Exec(cfg, w, steps).db, r, c', now', y)
    ensures x == y
  {
    assert steps[..i + 1][..i] == steps[..i] && steps[..i + 1][i] == steps[i];
    ReturnedIsFrozen(cfg, Exec(cfg, w, steps[..i]), r, c, now, x);
    RunStays(cfg, w, steps, i + 1);
  }

  lemma ReturnedIsFrozen(cfg: Config, w: World, r: RunId, c: Claim, now: Time, x: Resolution)
    requires cfg.Valid() && Returns(w.db, r, c, now, x)
    ensures var db' := Next(cfg, w, Use(OnAgent(DoResolveAgent(r, c, now)))).db;
            r in db'.resolutions && db'.resolutions[r] == x
  {
  }
}
