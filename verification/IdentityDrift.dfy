/**
 Why retries have to be newer than what they retry: when a retry of the same instant gets a smaller id, the attempt it
 retries stays the latest of its task, a second retry continues from there, and two attempts run as different revisions.
 */
module IdentityDrift {
  import opened Common
  import opened RuntimeModel
  import opened RuntimeEndings
  import opened RuntimeProtocol
  import opened RuntimeEdges

  type Attempts = map<RunId, Run>
  type Items = map<RunId, WorkItem>

  /** Task 0, bound to agent 0. */
  function Rows(runs: Attempts, queue: Items, revision: RevisionId, resolutions: map<RunId, Resolution>): Db {
    Db(map[0 := TaskActive], runs, queue, map[], map[], map[], map[], map[0 := 0], map[0 := Some(revision)],
      resolutions)
  }

  function Attempt5(s: RunStatus): Run {
    Run(0, 5, 0.0, s, None, None)
  }

  function Leased(at: Time): WorkItem {
    WorkItem(at, Some(Lease("worker", "token", at + 1.0)), 1)
  }

  function Waiting(at: Time): WorkItem {
    WorkItem(at, None, 0)
  }

  const CLAIM := Claim("worker", "token", 1)

  lemma ReachStarted(cfg: Config)
    requires cfg.Valid()
    ensures Reaches(cfg, 2, Quiet(Rows(map[5 := Attempt5(Queued)], map[5 := Waiting(0.0)], 0, map[])))
  {
    assert Exec(cfg, Start(), []) == Quiet(Start().db);
    OneMore(cfg, 0, Start().db, OnAgent(DoBind(0, Some(0))));
    var bound := Rows(map[], map[], 0, map[]);
    assert After(Start().db, BindAgent(Start().db, 0, Some(0))) == bound;
    OneMore(cfg, 1, bound, OnQueue(DoStartRun(0, 5, 0.0)));
    assert After(bound, StartRun(bound, 0, 5, 0.0)) ==
      Rows(map[5 := Attempt5(Queued)], map[5 := Waiting(0.0)], 0, map[]);
  }

  lemma ReachRunning(cfg: Config)
    requires cfg.Valid()
    ensures Reaches(cfg, 3, Quiet(Rows(map[5 := Attempt5(Running)], map[5 := Leased(0.0)], 0, map[])))
  {
    ReachStarted(cfg);
    var db := Rows(map[5 := Attempt5(Queued)], map[5 := Waiting(0.0)], 0, map[]);
    MoreClaim(cfg, 2, db, 5, 0.0);
    assert After(db, ClaimRun(db, 5, "worker", "token", 0.0, 0.0 + 1.0)) ==
      Rows(map[5 := Attempt5(Running)], map[5 := Leased(0.0)], 0, map[]);
  }

  /** The retry of the same instant gets id 3. */
  function Retried(at: Time, s: RunStatus, resolutions: map<RunId, Resolution>): Db {
    Rows(map[3 := Attempt5(s), 5 := Attempt5(Failed)], map[3 := if s.Running? then Leased(at) else Waiting(at)], 0,
      resolutions)
  }

  lemma FailsFirst(cfg: Config, db: Db)
    requires cfg.Valid() && cfg.policy.maxAttempts >= 2
    requires db == Rows(map[5 := Attempt5(Running)], map[5 := Leased(0.0)], 0, map[])
    ensures After(db, ApplyFailed(db, cfg.policy, 5, CLAIM, true, 3, 0.0)) ==
            Retried(cfg.policy.ComputeDelay(2), Queued, map[])
  {
    assert (set x | x in db.runs && db.runs[x].execution == db.runs[5].execution
      && (x == 5 || Later(db.runs, 5, x))) == {5};
    assert Ordinal(db.runs, 5) == 1;
    ApplyFailedShape(db, cfg.policy, 5, CLAIM, true, 3, 0.0);
    var db' := After(db, ApplyFailed(db, cfg.policy, 5, CLAIM, true, 3, 0.0));
    assert db'.runs == map[3 := Attempt5(Queued), 5 := Attempt5(Failed)];
  }

  lemma ReachRetried(cfg: Config)
    requires cfg.Valid() && cfg.policy.maxAttempts >= 2
    ensures Reaches(cfg, 5, Quiet(Retried(cfg.policy.ComputeDelay(2), Running, map[])))
  {
    ReachRunning(cfg);
    var db, at := Rows(map[5 := Attempt5(Running)], map[5 := Leased(0.0)], 0, map[]), cfg.policy.ComputeDelay(2);
    OneMore(cfg, 3, db, OnEnd(DoFailed(5, CLAIM, true, 3, 0.0)));
    FailsFirst(cfg, db);
    MoreClaim(cfg, 4, Retried(at, Queued, map[]), 3, at);
    ClaimsThird(at);
  }

  lemma ClaimsThird(at: Time)
    ensures var db := Retried(at, Queued, map[]);
            After(db, ClaimRun(db, 3, "worker", "token", at, at + 1.0)) == Retried(at, Running, map[])
  {
    var db := Retried(at, Queued, map[]);
    assert ClaimRun(db, 3, "worker", "token", at, at + 1.0) ==
      Commit(SetStatus(db, 3, Running).(queue := db.queue[3 := Leased(at)]));
  }

  lemma ResolvesThird(at: Time)
    ensures var db := Retried(at, Running, map[]);
            ResolveAgent(db, 3, CLAIM, at) ==
              Frozen(Retried(at, Running, map[3 := Resolution(0, 0)]), Some(Resolution(0, 0)))
  {
    var db := Retried(at, Running, map[]);
    assert forall d :: !DelegatesTo(db, d, 5);
  }

  lemma ReachResolved(cfg: Config)
    requires cfg.Valid() && cfg.policy.maxAttempts >= 2
    ensures Reaches(cfg, 6, Quiet(Retried(cfg.policy.ComputeDelay(2), Running, map[3 := Resolution(0, 0)])))
  {
    ReachRetried(cfg);
    var at := cfg.policy.ComputeDelay(2);
    OneMore(cfg, 5, Retried(at, Running, map[]), OnAgent(DoResolveAgent(3, CLAIM, at)));
    ResolvesThird(at);
  }

  function BothFailed(): Db {
    Rows(map[3 := Attempt5(Failed), 5 := Attempt5(Failed)], map[], 0, map[3 := Resolution(0, 0)])
  }

  lemma FailsSecond(at: Time)
    ensures var db := Retried(at, Running, map[3 := Resolution(0, 0)]); After(db, FailRun(db, 3, at)) == BothFailed()
  {
    var db := Retried(at, Running, map[3 := Resolution(0, 0)]);
    var ended := EndRun(CancelChildren(db, 3), 3, Failed);
    assert forall d :: !DelegatesTo(ended, d, 5);
    assert FailRun(db, 3, at) == Commit(ended);
    assert ended.runs == BothFailed().runs && ended.queue == map[];
  }

  lemma ReachBothFailed(cfg: Config)
    requires cfg.Valid() && cfg.policy.maxAttempts >= 2
    ensures Reaches(cfg, 7, Quiet(BothFailed()))
  {
    ReachResolved(cfg);
    var at := cfg.policy.ComputeDelay(2);
    OneMore(cfg, 6, Retried(at, Running, map[3 := Resolution(0, 0)]), OnEnd(DoFail(3, at)));
    FailsSecond(at);
  }

  /**
   Attempt 5 counts as the task's latest, so the manual retry 7 continues from it, not from the resolved attempt 3.
   */
  function Third(s: RunStatus, revision: RevisionId): Db {
    Rows(map[3 := Attempt5(Failed), 5 := Attempt5(Failed), 7 := Run(0, 5, 1.0, s, None, None)],
         map[7 := if s.Running? then Leased(1.0) else Waiting(1.0)], revision, map[3 := Resolution(0, 0)])
  }

  lemma RetriesFifth()
    ensures After(BothFailed(), RetryFailedRun(BothFailed(), 5, 7, 1.0)) == Third(Queued, 0)
  {
    var db := BothFailed();
    assert forall d :: !DelegatesTo(db, d, 5);
    assert LatestOfTask(db.runs, 5);
    assert RetryFailedRun(db, 5, 7, 1.0) == Commit(AddRetry(db, 5, 7, 1.0, 1.0));
    assert AddRetry(db, 5, 7, 1.0, 1.0).runs == Third(Queued, 0).runs;
  }

  lemma ReachThird(cfg: Config)
    requires cfg.Valid() && cfg.policy.maxAttempts >= 2
    ensures Reaches(cfg, 9, Quiet(Third(Queued, 1)))
  {
    ReachBothFailed(cfg);
    OneMore(cfg, 7, BothFailed(), OnEnd(DoRetry(5, 7, 1.0)));
    RetriesFifth();
    OneMore(cfg, 8, Third(Queued, 0), OnAgent(DoActivate(0, Some(1))));
    assert After(Third(Queued, 0), ActivateRevision(Third(Queued, 0), 0, Some(1))) == Third(Queued, 1);
  }

  lemma ClaimsSeventh()
    ensures After(Third(Queued, 1), ClaimRun(Third(Queued, 1), 7, "worker", "token", 1.0, 1.0 + 1.0)) ==
            Third(Running, 1)
  {
    var db := Third(Queued, 1);
    assert ClaimRun(db, 7, "worker", "token", 1.0, 1.0 + 1.0) ==
      Commit(SetStatus(db, 7, Running).(queue := db.queue[7 := Leased(1.0)]));
    assert SetStatus(db, 7, Running).runs == Third(Running, 1).runs;
  }

  function Drifted(): Db {
    Third(Running, 1).(resolutions := map[3 := Resolution(0, 0), 7 := Resolution(0, 1)])
  }

  lemma ResolvesSeventh()
    ensures ResolveAgent(Third(Running, 1), 7, CLAIM, 1.0) == Frozen(Drifted(), Some(Resolution(0, 1)))
  {
    assert forall d :: !DelegatesTo(Third(Running, 1), d, 5);
  }

  lemma ReachSeventh(cfg: Config)
    requires cfg.Valid() && cfg.policy.maxAttempts >= 2
    ensures Reaches(cfg, 10, Quiet(Third(Running, 1)))
  {
    ReachThird(cfg);
    MoreClaim(cfg, 9, Third(Queued, 1), 7, 1.0);
    ClaimsSeventh();
  }

  lemma MoreResolve(cfg: Config, n: nat, before: Db, r: RunId, c: Claim, now: Time)
    requires cfg.Valid() && Reaches(cfg, n, Quiet(before)) && ResolveAgent(before, r, c, now).Frozen?
    ensures Reaches(cfg, n + 1, Quiet(ResolveAgent(before, r, c, now).db))
  {
    OneMore(cfg, n, before, OnAgent(DoResolveAgent(r, c, now)));
  }

  /** Eleven steps, and attempts 3 and 7 of one execution are frozen to different revisions. */
  lemma DriftIsReachable(cfg: Config) returns (db: Db)
    requires cfg.Valid() && cfg.policy.maxAttempts >= 2
    ensures Reaches(cfg, 11, Quiet(db))
    ensures 3 in db.runs && 7 in db.runs && db.runs[3].execution == db.runs[7].execution
    ensures db.resolutions == map[3 := Resolution(0, 0), 7 := Resolution(0, 1)]
  {
    ReachSeventh(cfg);
    ResolvesSeventh();
    MoreResolve(cfg, 10, Third(Running, 1), 7, CLAIM, 1.0);
    db := Drifted();
  }
}
