/**
 Which stored outcome a repeated proposal returns.  RequestTool may link a further invocation to the same approval, so
 the row a replay reads need not be the row of the call that was made.
 */
module ToolReplay {
  import opened Common
  import opened RuntimeModel
  import opened RuntimeInvariants
  import opened RuntimeProtocol
  import opened RuntimeEvolution
  import opened ToolExecution
  import opened ToolEffects
  import opened RuntimeEdges

  // ---- the rows a replay may read --------------------------------------------------------

  predicate Finished(db: Db, t: ToolId) {
    t in db.tools && (db.tools[t].status.ToolSucceeded? || db.tools[t].status.ToolFailed?)
  }

  /** Another invocation of the run is linked to the effect's grant, and it or the effect's own is finished. */
  predicate Rival(db: Db, e: Effect, x: ToolId)
    requires e.approval.Some?
  {
    && LinkedTo(db.tools, x, e.action.run, e.approval.value) && x != e.tool
    && (Finished(db, x) || Finished(db, e.tool))
  }

  ghost predicate Unrivalled(db: Db, e: Effect)
    requires e.approval.Some?
  {
    forall x :: !Rival(db, e, x)
  }

  /** Only consumed approvals of the exact action count, so the evidence is a row linked to the effect's own grant. */
  lemma EvidenceIsLinked(w: World, i: nat, action: Action, evidence: Evidence)
    requires EffectsInv(w) && ExactOnly(w.db.approvals) && i < |w.effects|
    requires var e := w.effects[i]; e.action.protected && action.protected && e.action.Exact() == action.Exact()
    ensures var e := w.effects[i];
            && e.approval.Some?
            && (Replayable(w.db, action, evidence) <==>
                 evidence.approval == e.approval.value
                   && LinkedTo(w.db.tools, evidence.tool, action.run, evidence.approval))
            && LinkedTo(w.db.tools, e.tool, action.run, e.approval.value)
  {
    var e := w.effects[i];
    assert Vouched(w.db.approvals, w.db.tools, e.action, e.tool, e.approval);
    assert Spent(w.db.approvals, e.approval.value);
    if Replayable(w.db, action, evidence) {
      assert Spent(w.db.approvals, evidence.approval);
    }
  }

  lemma EffectsFromFresh(cfg: Config, w: World, steps: seq<Step>)
    requires cfg.Valid() && Fresh(w)
    ensures EffectsInv(Exec(cfg, w, steps)) && ExactOnly(Exec(cfg, w, steps).db.approvals)
  {
    FreshIsUpgraded(w);
    RunKeepsEffects(cfg, w, steps);
    RunKeepsExact(cfg, w, steps);
  }

  /**
   In every run, whatever row the scan meets first, proposing a protected action that has reached the gateway answers
   from the invocation of that very call if and only if the call is unrivalled.
   */
  lemma ReplaysOwnCallIff(cfg: Config, w: World, steps: seq<Step>, i: nat, action: Action, c: Claim, t: ToolId,
                          grant: ApprovalId, now: Time)
    requires cfg.Valid() && Fresh(w) && i < |Exec(cfg, w, steps).effects|
    requires var e := Exec(cfg, w, steps).effects[i];
             e.action.protected && action.protected && e.action.Exact() == action.Exact()
    requires var db := Exec(cfg, w, steps).db;
             && ActiveClaim(db.queue, action.run, c, now) && action.run in db.runs
             && db.runs[action.run].status.Running?
             && (HasGrant(db, action) ==> Authorizes(db, action, grant))
    ensures var db := Exec(cfg, w, steps).db;
            var e := Exec(cfg, w, steps).effects[i];
            && e.approval.Some? && e.tool in db.tools
            && ((forall evidence :: Scanned(db, action, evidence, grant) ==>
                 Propose(db, action, c, t, evidence, grant, now) == Replay(db, e.tool))
                <==> Unrivalled(db, e))
  {
    EffectsFromFresh(cfg, w, steps);
    var w' := Exec(cfg, w, steps);
    OwnCallIff(w', i, action, c, t, grant, now);
  }

  lemma OwnCallIff(w: World, i: nat, action: Action, c: Claim, t: ToolId, grant: ApprovalId, now: Time)
    requires EffectsInv(w) && ExactOnly(w.db.approvals) && i < |w.effects|
    requires var e := w.effects[i]; e.action.protected && action.protected && e.action.Exact() == action.Exact()
    requires ActiveClaim(w.db.queue, action.run, c, now) && action.run in w.db.runs
    requires w.db.runs[action.run].status.Running?
    requires HasGrant(w.db, action) ==> Authorizes(w.db, action, grant)
    ensures var e := w.effects[i];
            && e.approval.Some? && e.tool in w.db.tools
            && ((forall evidence :: Scanned(w.db, action, evidence, grant) ==>
                 Propose(w.db, action, c, t, evidence, grant, now) == Replay(w.db, e.tool))
                <==> Unrivalled(w.db, e))
  {
    var e := w.effects[i];
    EvidenceIsLinked(w, i, action, Evidence(e.approval.value, e.tool));
    assert Replayable(w.db, action, Evidence(e.approval.value, e.tool));
    forall evidence | Scanned(w.db, action, evidence, grant)
      ensures LinkedTo(w.db.tools, evidence.tool, action.run, e.approval.value)
      ensures Propose(w.db, action, c, t, evidence, grant, now) == Replay(w.db, evidence.tool)
      ensures Rival(w.db, e, evidence.tool) || Replay(w.db, evidence.tool) == Replay(w.db, e.tool)
    {
      EvidenceIsLinked(w, i, action, evidence);
    }
    if x :| Rival(w.db, e, x) {
      var rival := Evidence(e.approval.value, x);
      EvidenceIsLinked(w, i, action, rival);
      assert Scanned(w.db, action, rival, grant);
      assert Replay(w.db, x) != Replay(w.db, e.tool);
    }
  }

  // ---- runs in which no further invocation is linked -------------------------------------

  predicate Names(tools: Tools, t: ToolId, a: ApprovalId) {
    t in tools && tools[t].approval == Some(a)
  }

  /** An approval has at most one invocation, and none before it is consumed. */
  ghost predicate OneLink(db: Db, a: ApprovalId) {
    && (forall x, y :: Names(db.tools, x, a) && Names(db.tools, y, a) ==> x == y)
    && (forall x :: Names(db.tools, x, a) ==> Spent(db.approvals, a))
  }

  predicate LinksTool(step: Step, a: ApprovalId) {
    step.Use? && step.request.OnWork? && step.request.work.DoRequestTool? && step.request.work.approval == Some(a)
  }

  ghost predicate NoNewTool(db: Db, db': Db, a: ApprovalId) {
    forall t :: t in db'.tools && t !in db.tools ==> db'.tools[t].approval != Some(a)
  }

  lemma EndAddsNoTool(cfg: Config, db: Db, x: EndRequest)
    requires cfg.Valid()
    ensures EndTxn(cfg, db, x).tools.Keys == db.tools.Keys
  {
    match x
    case DoCancel(r, now) => CancelAddsNoTool(db, r, now);
    case DoCancelTask(task) => assert After(db, CancelTask(db, task)).tools.Keys == db.tools.Keys;
    case DoFailed(r, c, retryable, retry, now) =>
      if r in db.runs {
        ReconcileTools(EndRun(CancelChildren(db, r), r, Failed), db.runs[r].execution, now);
      }
    case DoFail(r, now) =>
      if r in db.runs {
        ReconcileTools(EndRun(CancelChildren(db, r), r, Failed), db.runs[r].execution, now);
      }
    case DoComplete(r, now) =>
      if r in db.runs {
        ReconcileTools(EndRun(db, r, Succeeded), db.runs[r].execution, now);
      }
    case DoSucceeded(r, c, now) =>
      if r in db.runs {
        ReconcileTools(EndRun(db, r, Succeeded), db.runs[r].execution, now);
      }
    case DoRetry(r, retry, now) =>
  }

  lemma ReconcileTools(db: Db, execution: RunId, now: Time)
    ensures Reconcile(db, execution, now).tools == db.tools
  {
    var d := IncomingDelegation(db, execution);
    if d.Some? {
      assert DelegatesTo(db, d.value, execution);
    }
  }

  lemma CancelAddsNoTool(db: Db, r: RunId, now: Time)
    ensures After(db, CancelRun(db, r, now)).tools.Keys == db.tools.Keys
  {
    if r in db.runs {
      LatestExists(db.runs, r);
      ReconcileTools(CancelOnly(db, r), db.runs[r].execution, now);
      ReconcileTools(CancelOnly(db, Latest(db.runs, db.runs[r].execution).value), db.runs[r].execution, now);
    }
  }

  lemma QueueAddsNoTool(db: Db, q: QueueRequest)
    ensures QueueTxn(db, q).tools == db.tools
  {
    match q
    case DoStartRun(task, r, now) => assert After(db, StartRun(db, task, r, now)).tools == db.tools;
    case DoStartQueued(r) => assert After(db, StartQueuedRun(db, r)).tools == db.tools;
    case DoClaim(r, worker, token, now, expires) =>
      assert After(db, ClaimRun(db, r, worker, token, now, expires)).tools == db.tools;
    case _ =>
  }

  lemma WaitAddsNoTool(cfg: Config, db: Db, x: WaitRequest)
    requires cfg.Valid()
    ensures WaitTxn(cfg, db, x).tools == db.tools
  {
  }

  lemma AgentAddsNoTool(db: Db, g: AgentRequest)
    ensures AgentTxn(db, g).tools == db.tools
  {
  }

  lemma SameTools(db: Db, db': Db, a: ApprovalId)
    requires db'.tools.Keys == db.tools.Keys
    ensures NoNewTool(db, db', a)
  {
  }

  lemma WorkAddsTool(db: Db, k: WorkRequest, a: ApprovalId)
    requires k.DoRequestTool? ==> k.approval != Some(a)
    ensures NoNewTool(db, WorkTxn(db, k), a)
  {
    match k
    case DoEndStep(s, end) => assert After(db, EndStep(db, s, end)).tools.Keys == db.tools.Keys;
    case DoMoveTool(t, move) => assert After(db, MoveTool(db, t, move)).tools.Keys == db.tools.Keys;
    case _ =>
  }

  lemma TransactAddsTool(cfg: Config, db: Db, request: Request, a: ApprovalId)
    requires cfg.Valid() && !LinksTool(Use(request), a)
    ensures NoNewTool(db, Transact(cfg, db, request), a)
  {
    match request
    case OnQueue(q) =>
      QueueAddsNoTool(db, q);
      SameTools(db, QueueTxn(db, q), a);
    case OnEnd(x) =>
      EndAddsNoTool(cfg, db, x);
      SameTools(db, EndTxn(cfg, db, x), a);
    case OnWait(x) =>
      WaitAddsNoTool(cfg, db, x);
      SameTools(db, WaitTxn(cfg, db, x), a);
    case OnWork(k) => WorkAddsTool(db, k, a);
    case OnAgent(g) =>
      AgentAddsNoTool(db, g);
      SameTools(db, AgentTxn(db, g), a);
  }

  lemma OldLinkKeeps(db: Db, db': Db, a: ApprovalId)
    requires OneLink(db, a) && Evolves(db, db') && NoNewTool(db, db', a)
    ensures OneLink(db', a)
  {
    forall x | Names(db'.tools, x, a) ensures Names(db.tools, x, a) && Spent(db'.approvals, a) {
      assert SameTool(db.tools[x], db'.tools[x]);
      assert Names(db.tools, x, a);
      assert SameApproval(db.approvals[a], db'.approvals[a]);
    }
  }

  lemma AskLinks(w: World, action: Action, c: Claim, t: ToolId, evidence: Evidence, grant: ApprovalId, now: Time,
                 a: ApprovalId)
    requires OneLink(w.db, a) && Scanned(w.db, action, evidence, grant)
    requires Propose(w.db, action, c, t, evidence, grant, now).Proceed?
    ensures OneLink(Propose(w.db, action, c, t, evidence, grant, now).db, a)
  {
    AskEvolves(w, action, c, t, evidence, grant, now);
    var db' := Propose(w.db, action, c, t, evidence, grant, now).db;
    if !action.protected || grant != a {
      OldLinkKeeps(w.db, db', a);
    } else {
      forall x | Names(db'.tools, x, a) ensures x == t && Spent(db'.approvals, a) {
        assert x != t ==> Names(w.db.tools, x, a);
      }
    }
  }

  lemma NextKeepsLink(cfg: Config, w: World, step: Step, a: ApprovalId)
    requires cfg.Valid() && ConsumedApproved(w.db) && OneLink(w.db, a) && !LinksTool(step, a)
    ensures OneLink(Next(cfg, w, step).db, a)
  {
    match step
    case Use(request) =>
      TransactEvolves(cfg, w.db, request);
      TransactAddsTool(cfg, w.db, request, a);
      OldLinkKeeps(w.db, Transact(cfg, w.db, request), a);
    case Ask(action, c, t, evidence, grant, now) =>
      if Scanned(w.db, action, evidence, grant) && Propose(w.db, action, c, t, evidence, grant, now).Proceed? {
        AskLinks(w, action, c, t, evidence, grant, now, a);
      }
    case Store(t, succeeded, now) =>
      if t in w.flights {
        StoreEvolves(w.db, w.flights[t].action, w.flights[t].claim, t, succeeded, now);
        OldLinkKeeps(w.db, After(w.db, Finish(w.db, w.flights[t].action, w.flights[t].claim, t, succeeded, now)), a);
      }
    case _ =>
  }

  lemma {:induction false} RunKeepsLink(cfg: Config, w: World, steps: seq<Step>, a: ApprovalId)
    requires cfg.Valid() && Fresh(w) && forall i :: 0 <= i < |steps| ==> !LinksTool(steps[i], a)
    ensures OneLink(Exec(cfg, w, steps).db, a)
  {
    if steps != [] {
      var front := steps[..|steps| - 1];
      RunKeepsLink(cfg, w, front, a);
      FreshHolds(w);
      RunKeepsCore(cfg, w, front);
      NextKeepsLink(cfg, Exec(cfg, w, front), steps[|steps| - 1], a);
    }
  }

  /**
   When no step links a further invocation to the effect's approval, every later proposal of the action answers from the
   invocation of that call: its stored outcome, or ambiguity while it has none.
   */
  lemma UnlinkedReplaysOwnCall(cfg: Config, w: World, steps: seq<Step>, i: nat,
                               action: Action, c: Claim, t: ToolId, evidence: Evidence, grant: ApprovalId, now: Time)
    requires cfg.Valid() && Fresh(w) && i < |Exec(cfg, w, steps).effects|
    requires var e := Exec(cfg, w, steps).effects[i];
             && e.action.protected && action.protected && e.action.Exact() == action.Exact() && e.approval.Some?
             && forall k :: 0 <= k < |steps| ==> !LinksTool(steps[k], e.approval.value)
    requires var db := Exec(cfg, w, steps).db;
             && ActiveClaim(db.queue, action.run, c, now) && action.run in db.runs
             && db.runs[action.run].status.Running?
             && Scanned(db, action, evidence, grant)
    ensures var db := Exec(cfg, w, steps).db;
            var e := Exec(cfg, w, steps).effects[i];
            && e.tool in db.tools && Propose(db, action, c, t, evidence, grant, now) == Replay(db, e.tool)
  {
    var w' := Exec(cfg, w, steps);
    EffectsFromFresh(cfg, w, steps);
    RunKeepsLink(cfg, w, steps, w'.effects[i].approval.value);
    SoleLinkIsUnrivalled(w', i);
    OwnCallIff(w', i, action, c, t, grant, now);
  }

  lemma SoleLinkIsUnrivalled(w: World, i: nat)
    requires EffectsInv(w) && i < |w.effects| && w.effects[i].approval.Some?
    requires OneLink(w.db, w.effects[i].approval.value)
    ensures Unrivalled(w.db, w.effects[i])
  {
    var e := w.effects[i];
    assert Vouched(w.db.approvals, w.db.tools, e.action, e.tool, e.approval);
    forall x | LinkedTo(w.db.tools, x, e.action.run, e.approval.value) ensures x == e.tool {
      assert Names(w.db.tools, x, e.approval.value) && Names(w.db.tools, e.tool, e.approval.value);
    }
  }

  // ---- and a run in which one is ---------------------------------------------------------

  function Charge(): Action {
    Action(0, None, "charge", "account", true, false)
  }

  /** The run is claimed again after its approval was granted. */
  predicate Granted(db: Db, spent: bool) {
    && db.runs == map[0 := Run(0, 0, 0.0, Running, None, None)]
    && db.queue == map[0 := WorkItem(0.0, Some(Lease("worker", "token", 1.0)), 1)]
    && db.approvals == map[0 := Approval(0, None, Approved, Some(Charge().Exact()), None, spent)]
  }

  function Parked(): Db {
    Claimed().(
      runs := map[0 := Run(0, 0, 0.0, WaitingForApproval, Some(0), None)],
      queue := map[],
      approvals := map[0 := Approval(0, None, Pending, Some(Charge().Exact()), None, false)])
  }

  function Resumable(): Db {
    Parked().(
      runs := map[0 := Run(0, 0, 0.0, Running, None, None)],
      queue := map[0 := WorkItem(0.0, None, 0)],
      approvals := map[0 := Approval(0, None, Approved, Some(Charge().Exact()), None, false)])
  }

  lemma ReachParked(cfg: Config)
    requires cfg.Valid()
    ensures Reaches(cfg, 3, Quiet(Parked()))
  {
    ReachClaimed(cfg);
    OneMore(cfg, 2, Claimed(), OnWait(DoPark(0, None, 0, None, Some(Charge().Exact()), None, 0.0)));
    assert After(Claimed(), RequestApproval(Claimed(), 0, None, 0, None, Some(Charge().Exact()), None, 0.0)) ==
      Parked();
  }

  lemma ReachResumable(cfg: Config)
    requires cfg.Valid()
    ensures Reaches(cfg, 4, Quiet(Resumable()))
  {
    ReachParked(cfg);
    OneMore(cfg, 3, Parked(), OnWait(DoResolve(0, Approved, 0.0)));
    assert After(Parked(), ResolveApproval(Parked(), 0, Approved, 0.0)) == Resumable();
  }

  lemma ReachGranted(cfg: Config) returns (db: Db)
    requires cfg.Valid()
    ensures Reaches(cfg, 5, Quiet(db)) && Granted(db, false) && db.tools == map[]
  {
    ReachResumable(cfg);
    MoreClaim(cfg, 4, Resumable(), 0, 0.0);
    db := After(Resumable(), ClaimRun(Resumable(), 0, "worker", "token", 0.0, 0.0 + 1.0));
  }

  /** Invocation 1 was requested under the grant before the call, invocation 0 is the call's own. */
  predicate Rivals(w: World, phase: Phase, rival: ToolStatus) {
    && Granted(w.db, true)
    && w.db.tools == map[0 := Invocation(Charge(), Some(0)), 1 := Tool(0, None, Some(0), rival, false)]
    && w.flights == map[0 := Flight(Charge(), Claim("worker", "token", 1), Some(0), phase)]
    && w.effects == if phase.Called? then [Effect(Charge(), 0, Some(0))] else []
  }

  /** Nothing is consumed yet, so the proposal proceeds under the grant. */
  lemma ProposesWithRival(db: Db)
    requires Granted(db, false) && db.tools == map[1 := Tool(0, None, Some(0), ToolRequested, false)]
    ensures Scanned(db, Charge(), Evidence(0, 0), 0)
    ensures Propose(db, Charge(), Claim("worker", "token", 1), 0, Evidence(0, 0), 0, 0.0)
         == Proceed(db.(approvals := Consume(db.approvals, 0), tools := db.tools[0 := Invocation(Charge(), Some(0))]),
           Some(0))
  {
    assert forall e :: !Replayable(db, Charge(), e);
    assert Authorizes(db, Charge(), 0);
  }

  lemma AskWithRival(cfg: Config, db: Db)
    requires cfg.Valid() && Granted(db, false) && db.tools == map[1 := Tool(0, None, Some(0), ToolRequested, false)]
    ensures Rivals(Next(cfg, Quiet(db), Ask(Charge(), Claim("worker", "token", 1), 0, Evidence(0, 0), 0, 0.0)),
            Recorded, ToolRequested)
  {
    ProposesWithRival(db);
  }

  lemma ReachRivals(cfg: Config) returns (w: World)
    requires cfg.Valid()
    ensures Reaches(cfg, 7, w) && Rivals(w, Recorded, ToolRequested)
  {
    var db := ReachGranted(cfg);
    OneMore(cfg, 5, db, OnWork(DoRequestTool(0, 1, None, Some(0))));
    var requested := After(db, RequestTool(db, 0, 1, None, Some(0)));
    AskWithRival(cfg, requested);
    var ask := Ask(Charge(), Claim("worker", "token", 1), 0, Evidence(0, 0), 0, 0.0);
    OneStep(cfg, 6, Quiet(requested), ask);
    w := Next(cfg, Quiet(requested), ask);
  }

  lemma ReachCalled(cfg: Config) returns (w: World)
    requires cfg.Valid()
    ensures Reaches(cfg, 9, w) && Rivals(w, Called, ToolRequested)
  {
    var recorded := ReachRivals(cfg);
    OneStep(cfg, 7, recorded, Check(0, 0.0));
    var cleared := Next(cfg, recorded, Check(0, 0.0));
    assert Rivals(cleared, Cleared, ToolRequested);
    OneStep(cfg, 8, cleared, Call(0));
    w := Next(cfg, cleared, Call(0));
  }

  lemma MovesRival(cfg: Config, w: World, from: ToolStatus, move: ToolMove)
    requires cfg.Valid() && Rivals(w, Called, from)
    requires (from.ToolRequested? && move.ToolRunning?) || (from.ToolRunning? && move.ToolSucceeded?)
    ensures Rivals(Next(cfg, w, Use(OnWork(DoMoveTool(1, move)))), Called, move)
  {
    assert MoveTool(w.db, 1, move) == Commit(w.db.(tools := w.db.tools[1 := w.db.tools[1].(status := move)]));
  }

  lemma RivalReplays(db: Db, w: World)
    requires Rivals(w, Called, ToolSucceeded) && db == w.db
    ensures Scanned(db, Charge(), Evidence(0, 1), 0)
    ensures Propose(db, Charge(), Claim("worker", "token", 1), 2, Evidence(0, 1), 0, 0.0) == Replayed(1, true)
  {
    assert Replayable(db, Charge(), Evidence(0, 1));
  }

  /**
   Eleven steps: the call of invocation 0 is under way, and proposing it again reports the success of invocation 1.
   */
  lemma RivalReplayIsReachable(cfg: Config) returns (w: World)
    requires cfg.Valid()
    ensures Reaches(cfg, 11, w) && w.effects == [Effect(Charge(), 0, Some(0))] && 0 in w.db.tools
    ensures w.db.tools[0].status.ToolRunning?
    ensures Scanned(w.db, Charge(), Evidence(0, 1), 0)
    ensures Propose(w.db, Charge(), Claim("worker", "token", 1), 2, Evidence(0, 1), 0, 0.0) == Replayed(1, true)
  {
    var called := ReachCalled(cfg);
    MovesRival(cfg, called, ToolRequested, ToolRunning);
    OneStep(cfg, 9, called, Use(OnWork(DoMoveTool(1, ToolRunning))));
    var running := Next(cfg, called, Use(OnWork(DoMoveTool(1, ToolRunning))));
    MovesRival(cfg, running, ToolRunning, ToolSucceeded);
    OneStep(cfg, 10, running, Use(OnWork(DoMoveTool(1, ToolSucceeded))));
    w := Next(cfg, running, Use(OnWork(DoMoveTool(1, ToolSucceeded))));
    RivalReplays(w.db, w);
  }
}
