/**
 What a proposed action is answered, over the rows alone, and the way from "needs approval" to "proceed": park on the
 action's fingerprint, have it approved, claim the run again, propose once more.
 */
module ToolAnswers {
  import opened Common
  import opened RuntimeModel
  import opened RuntimeInvariants
  import opened ToolExecution
  import opened RuntimeProtocol

  // ---- the answer by cases ---------------------------------------------------------------

  /** The worker holds the lease of a running run. */
  predicate Held(db: Db, r: RunId, c: Claim, now: Time) {
    ActiveClaim(db.queue, r, c, now) && r in db.runs && db.runs[r].status.Running?
  }

  /** Approval a of this very action was used up by invocation t; the older fingerprint vouches for local calls only. */
  predicate UsedBy(db: Db, action: Action, a: ApprovalId, t: ToolId) {
    && a in db.approvals && db.approvals[a].run == action.run
    && db.approvals[a].status.Approved? && db.approvals[a].consumed
    && t in db.tools && db.tools[t].run == action.run && db.tools[t].approval == Some(a)
    && (|| db.approvals[a].fingerprint == Some(Fingerprint.Exact(action.run, action.step, action.call, action.scope))
        || (db.approvals[a].fingerprint == Some(Fingerprint.Legacy(action.run, action.step, action.call))
            && !db.tools[t].external))
  }

  ghost predicate UsedUp(db: Db, action: Action) {
    exists a, t :: UsedBy(db, action, a, t)
  }

  /** Approval a was granted for exactly this action and is not used up. */
  predicate Grants(db: Db, action: Action, a: ApprovalId) {
    && a in db.approvals && db.approvals[a].run == action.run
    && db.approvals[a].status.Approved? && !db.approvals[a].consumed
    && db.approvals[a].fingerprint == Some(Fingerprint.Exact(action.run, action.step, action.call, action.scope))
  }

  ghost predicate Allowed(db: Db, action: Action) {
    exists a :: Grants(db, action, a)
  }

  /** The invocation is recorded as running, under a grant that is thereby used up if the action is protected. */
  predicate Records(db: Db, db': Db, action: Action, t: ToolId, grant: Option<ApprovalId>) {
    && db'.tools == db.tools[t := Tool(action.run, action.step, grant, ToolRunning, action.external)]
    && (grant.Some? <==> action.protected)
    && (if grant.Some? then
          && Grants(db, action, grant.value)
          && db'.approvals == db.approvals[grant.value := db.approvals[grant.value].(consumed := true)]
        else db'.approvals == db.approvals)
    && db' == db.(tools := db'.tools, approvals := db'.approvals)
  }

  /** The outcome stored by the invocation that used the approval up, or ambiguity while there is none. */
  predicate Repeats(db: Db, p: Proposal, t: ToolId)
    requires t in db.tools
  {
    && (db.tools[t].status.ToolSucceeded? <==> p == Replayed(t, true))
    && (db.tools[t].status.ToolFailed? <==> p == Replayed(t, false))
    && (p.Replayed? || p == Declined(ExecutionAmbiguous))
  }

  ghost predicate Answers(db: Db, action: Action, c: Claim, t: ToolId, now: Time, evidence: Evidence, p: Proposal) {
    var repeated := action.protected && UsedUp(db, action);
    var lacking := action.protected && !Allowed(db, action);
    && (p == Declined(ClaimLost) <==> !ActiveClaim(db.queue, action.run, c, now))
    && (p == Declined(NotFound) <==> ActiveClaim(db.queue, action.run, c, now) && action.run !in db.runs)
    && (p.NeedsApproval? <==> Held(db, action.run, c, now) && !repeated && lacking)
    && (p.Proceed? <==> Held(db, action.run, c, now) && !repeated && !lacking && t !in db.tools)
    && (p.Proceed? ==> Records(db, p.db, action, t, p.approval))
    && (Held(db, action.run, c, now) && repeated ==>
         UsedBy(db, action, evidence.approval, evidence.tool) && Repeats(db, p, evidence.tool))
    && (p.Replayed? || p == Declined(ExecutionAmbiguous) ==> Held(db, action.run, c, now) && repeated)
  }

  lemma SameRows(db: Db, action: Action)
    ensures forall e :: Replayable(db, action, e) <==> UsedBy(db, action, e.approval, e.tool)
    ensures forall a :: Authorizes(db, action, a) <==> Grants(db, action, a)
    ensures HasReplay(db, action) <==> UsedUp(db, action)
    ensures HasGrant(db, action) <==> Allowed(db, action)
  {
    forall a, t | UsedBy(db, action, a, t) ensures Replayable(db, action, Evidence(a, t)) {
    }
    if HasGrant(db, action) {
      var a :| Authorizes(db, action, a);
      assert Grants(db, action, a);
    }
    if Allowed(db, action) {
      var a :| Grants(db, action, a);
      assert Authorizes(db, action, a);
    }
  }

  /** Whatever rows the scans meet first, these are the answers. */
  lemma ProposalAnswers(db: Db, action: Action, c: Claim, t: ToolId, evidence: Evidence, grant: ApprovalId, now: Time)
    requires Scanned(db, action, evidence, grant)
    ensures Answers(db, action, c, t, now, evidence, Propose(db, action, c, t, evidence, grant, now))
  {
    SameRows(db, action);
  }

  // ---- from "needs approval" to "proceed" ------------------------------------------------

  /** The worker's run parks on the action's own fingerprint. */
  function Park(db: Db, action: Action, c: Claim, a: ApprovalId, expiresAt: Option<Time>, now: Time): Txn {
    RequestApproval(db, action.run, Some(c), a, action.step, Some(action.Exact()), expiresAt, now)
  }

  /** The approval stands for the action, and nothing of the run was recorded since. */
  predicate Standing(db: Db, action: Action, a: ApprovalId, s: ApprovalStatus, expiresAt: Option<Time>) {
    a in db.approvals && db.approvals[a] == Approval(action.run, action.step, s, Some(action.Exact()), expiresAt, false)
  }

  lemma Parks(db: Db, action: Action, c: Claim, a: ApprovalId, expiresAt: Option<Time>, now: Time)
    requires Held(db, action.run, c, now) && !HasPendingApproval(db, action.run) && a !in db.approvals
    requires StepMayWait(db, action.run, action.step) && (expiresAt.Some? ==> now < expiresAt.value)
    ensures Park(db, action, c, a, expiresAt, now).Commit?
    ensures var db' := Park(db, action, c, a, expiresAt, now).db;
            && Standing(db', action, a, Pending, expiresAt) && db'.approvals == db.approvals[a := db'.approvals[a]]
            && db'.tools == db.tools
            && WaitsForApproval(db'.runs, action.run, a) && action.run !in db'.queue
            && (action.step.Some? ==> action.step.value in db'.steps && db'.steps[action.step.value].run == action.run)
  {
  }

  lemma Resumes(db: Db, a: ApprovalId)
    requires a in db.approvals
    ensures var db' := ResumeStep(db, a); db' == db.(steps := db'.steps)
  {
  }

  lemma Approves(db: Db, action: Action, a: ApprovalId, expiresAt: Option<Time>, now: Time)
    requires Standing(db, action, a, Pending, expiresAt) && WaitsForApproval(db.runs, action.run, a)
    requires action.run !in db.queue
    requires action.step.Some? ==> action.step.value in db.steps && db.steps[action.step.value].run == action.run
    ensures var t := ResolveApproval(db, a, Approved, now);
            && t.Commit? && Standing(t.db, action, a, Approved, expiresAt)
            && t.db.approvals == db.approvals[a := t.db.approvals[a]] && t.db.tools == db.tools
            && Waiting(t.db, action.run, now)
  {
    var approval := db.approvals[a].(status := Approved);
    Resumes(db, a);
    assert ResolveApproval(db, a, Approved, now) == Commit(Resolve(ResumeStep(db, a), a, approval, now));
  }

  /** The run is running and its work item free since an instant. */
  predicate Waiting(db: Db, r: RunId, at: Time) {
    r in db.runs && db.runs[r].status.Running? && r in db.queue && db.queue[r] == WorkItem(at, None, 0)
  }

  lemma ClaimsAgain(db: Db, r: RunId, at: Time, worker: string, token: string, claimed: Time, expires: Time, now: Time)
    requires Waiting(db, r, at) && at <= claimed <= now < expires
    ensures var t := ClaimRun(db, r, worker, token, claimed, expires);
            && t.Commit? && Held(t.db, r, Claim(worker, token, 1), now)
            && t.db.approvals == db.approvals && t.db.tools == db.tools
  {
  }

  /** Whatever the scans meet, the proposal proceeds under this approval. */
  ghost predicate ProceedsUnder(db: Db, action: Action, c: Claim, t: ToolId, a: ApprovalId, now: Time) {
    forall evidence, grant :: Scanned(db, action, evidence, grant) ==>
      var p := Propose(db, action, c, t, evidence, grant, now);
      p.Proceed? && p.approval == Some(a)
  }

  /**
   An action that needs approval proceeds after it: for every database, parking on the action, approving it and claiming
   the run again all commit, and the same proposal then proceeds under exactly that approval.
   */
  lemma ApprovalUnblocks(db: Db, action: Action, c: Claim, t: ToolId, a: ApprovalId, expiresAt: Option<Time>,
                         evidence: Evidence, grant: ApprovalId, asked: Time, resolved: Time, worker: string,
                         token: string, claimed: Time, expires: Time, now: Time)
    returns (parked: Db, approved: Db, reclaimed: Db)
    requires ApprovalsCover(db.runs, db.approvals) && Markers(db.runs) && Scanned(db, action, evidence, grant)
    requires Propose(db, action, c, t, evidence, grant, asked).NeedsApproval? && t !in db.tools
    requires a !in db.approvals && StepMayWait(db, action.run, action.step)
    requires expiresAt.Some? ==> asked < expiresAt.value
    requires resolved <= claimed <= now < expires
    ensures Park(db, action, c, a, expiresAt, asked) == Commit(parked)
    ensures ResolveApproval(parked, a, Approved, resolved) == Commit(approved)
    ensures ClaimRun(approved, action.run, worker, token, claimed, expires) == Commit(reclaimed)
    ensures ActiveClaim(reclaimed.queue, action.run, Claim(worker, token, 1), now)
    ensures ProceedsUnder(reclaimed, action, Claim(worker, token, 1), t, a, now)
  {
    ProposalAnswers(db, action, c, t, evidence, grant, asked);
    NothingPending(db, action.run);
    parked, approved, reclaimed := Detoured(db, action, c, a, expiresAt, asked, resolved, worker, token, claimed,
      expires, now);
    Unblocked(db, reclaimed, action, Claim(worker, token, 1), t, a, now);
  }

  lemma Detoured(db: Db, action: Action, c: Claim, a: ApprovalId, expiresAt: Option<Time>, asked: Time,
                 resolved: Time, worker: string, token: string, claimed: Time, expires: Time, now: Time)
    returns (parked: Db, approved: Db, reclaimed: Db)
    requires Held(db, action.run, c, asked) && !HasPendingApproval(db, action.run) && a !in db.approvals
    requires StepMayWait(db, action.run, action.step) && (expiresAt.Some? ==> asked < expiresAt.value)
    requires resolved <= claimed <= now < expires
    ensures Park(db, action, c, a, expiresAt, asked) == Commit(parked)
    ensures ResolveApproval(parked, a, Approved, resolved) == Commit(approved)
    ensures ClaimRun(approved, action.run, worker, token, claimed, expires) == Commit(reclaimed)
    ensures Held(reclaimed, action.run, Claim(worker, token, 1), now) && Grants(reclaimed, action, a)
    ensures reclaimed.approvals == db.approvals[a := reclaimed.approvals[a]] && reclaimed.tools == db.tools
  {
    Parks(db, action, c, a, expiresAt, asked);
    parked := Park(db, action, c, a, expiresAt, asked).db;
    Approves(parked, action, a, expiresAt, resolved);
    approved := ResolveApproval(parked, a, Approved, resolved).db;
    ClaimsAgain(approved, action.run, resolved, worker, token, claimed, expires, now);
    reclaimed := ClaimRun(approved, action.run, worker, token, claimed, expires).db;
  }

  lemma Unblocked(db: Db, db': Db, action: Action, c: Claim, t: ToolId, a: ApprovalId, now: Time)
    requires action.protected && Held(db', action.run, c, now) && t !in db'.tools
    requires !UsedUp(db, action) && !Allowed(db, action) && a !in db.approvals && a in db'.approvals
    requires db'.approvals == db.approvals[a := db'.approvals[a]] && db'.tools == db.tools
    requires Grants(db', action, a)
    ensures ProceedsUnder(db', action, c, t, a, now)
  {
    OnlyNewGrant(db, db', action, a);
    forall evidence, grant | Scanned(db', action, evidence, grant)
      ensures var p := Propose(db', action, c, t, evidence, grant, now);
              p.Proceed? && p.approval == Some(a)
    {
      ProposalAnswers(db', action, c, t, evidence, grant, now);
    }
  }

  lemma NothingPending(db: Db, r: RunId)
    requires ApprovalsCover(db.runs, db.approvals) && Markers(db.runs) && r in db.runs && db.runs[r].status.Running?
    ensures !HasPendingApproval(db, r)
  {
  }

  /** The new grant is the only one, and it is not used up by any invocation. */
  lemma OnlyNewGrant(db: Db, db': Db, action: Action, a: ApprovalId)
    requires !UsedUp(db, action) && !Allowed(db, action) && a !in db.approvals && a in db'.approvals
    requires db'.approvals == db.approvals[a := db'.approvals[a]] && db'.tools == db.tools
    requires Grants(db', action, a)
    ensures !UsedUp(db', action) && forall x :: Grants(db', action, x) <==> x == a
  {
    forall x | Grants(db', action, x) ensures x == a {
      assert x != a ==> Grants(db, action, x);
    }
    forall x, u ensures !UsedBy(db', action, x, u) {
      assert !UsedBy(db, action, x, u);
    }
  }

  // ---- as a run of the system ------------------------------------------------------------

  /** Park on the action, approve, claim again. */
  function Detour(action: Action, c: Claim, a: ApprovalId, expiresAt: Option<Time>, asked: Time, resolved: Time,
                  worker: string, token: string, claimed: Time, expires: Time): seq<Request>
  {
    [OnWait(DoPark(action.run, Some(c), a, action.step, Some(action.Exact()), expiresAt, asked)),
     OnWait(DoResolve(a, Approved, resolved)),
     OnQueue(DoClaim(action.run, worker, token, claimed, expires))]
  }

  /** Propose, check the claim once more, call the gateway. */
  function Carried(action: Action, c: Claim, t: ToolId, evidence: Evidence, grant: ApprovalId, now: Time): seq<Step> {
    [Ask(action, c, t, evidence, grant, now), Check(t, now), Call(t)]
  }

  lemma Then(cfg: Config, w: World, steps: seq<Step>, x: Step, y: Step, z: Step)
    requires cfg.Valid()
    ensures Exec(cfg, w, steps + [x, y, z]) == Next(cfg, Next(cfg, Next(cfg, Exec(cfg, w, steps), x), y), z)
  {
    var one, two, three := steps + [x], steps + [x, y], steps + [x, y, z];
    assert one[..|one| - 1] == steps && two[..|two| - 1] == one && three[..|three| - 1] == two;
    assert Exec(cfg, w, two) == Next(cfg, Exec(cfg, w, one), y);
  }

  lemma DetourIs(cfg: Config, w: World, action: Action, c: Claim, a: ApprovalId, expiresAt: Option<Time>, asked: Time,
                 resolved: Time, worker: string, token: string, claimed: Time, expires: Time,
                 parked: Db, approved: Db, reclaimed: Db)
    requires cfg.Valid() && Park(w.db, action, c, a, expiresAt, asked) == Commit(parked)
    requires ResolveApproval(parked, a, Approved, resolved) == Commit(approved)
    requires ClaimRun(approved, action.run, worker, token, claimed, expires) == Commit(reclaimed)
    ensures var via := Detour(action, c, a, expiresAt, asked, resolved, worker, token, claimed, expires);
            Next(cfg, Next(cfg, Next(cfg, w, Use(via[0])), Use(via[1])), Use(via[2])) == w.(db := reclaimed)
  {
    var via := Detour(action, c, a, expiresAt, asked, resolved, worker, token, claimed, expires);
    assert Next(cfg, w, Use(via[0])) == w.(db := parked);
    assert Next(cfg, w.(db := parked), Use(via[1])) == w.(db := approved);
    assert Next(cfg, w.(db := approved), Use(via[2])) == w.(db := reclaimed);
  }

  lemma DetourGrants(cfg: Config, w: World, action: Action, c: Claim, t: ToolId, a: ApprovalId,
                     expiresAt: Option<Time>, evidence: Evidence, grant: ApprovalId, asked: Time, resolved: Time,
                     worker: string, token: string, claimed: Time, expires: Time, now: Time)
    requires cfg.Valid() && Core(w.db) && Scanned(w.db, action, evidence, grant)
    requires Propose(w.db, action, c, t, evidence, grant, asked).NeedsApproval? && t !in w.db.tools
    requires a !in w.db.approvals && StepMayWait(w.db, action.run, action.step)
    requires expiresAt.Some? ==> asked < expiresAt.value
    requires resolved <= claimed <= now < expires
    ensures var via := Detour(action, c, a, expiresAt, asked, resolved, worker, token, claimed, expires);
            var w' := Next(cfg, Next(cfg, Next(cfg, w, Use(via[0])), Use(via[1])), Use(via[2]));
            && ProceedsUnder(w'.db, action, Claim(worker, token, 1), t, a, now)
            && ActiveClaim(w'.db.queue, action.run, Claim(worker, token, 1), now)
            && w' == w.(db := w'.db)
  {
    var parked, approved, reclaimed := ApprovalUnblocks(w.db, action, c, t, a, expiresAt, evidence, grant, asked,
      resolved, worker, token, claimed, expires, now);
    DetourIs(cfg, w, action, c, a, expiresAt, asked, resolved, worker, token, claimed, expires, parked, approved,
      reclaimed);
  }

  lemma CarriesOut(cfg: Config, w: World, action: Action, c: Claim, t: ToolId, a: ApprovalId, evidence: Evidence,
                   grant: ApprovalId, now: Time)
    requires cfg.Valid() && ProceedsUnder(w.db, action, c, t, a, now) && Scanned(w.db, action, evidence, grant)
    requires ActiveClaim(w.db.queue, action.run, c, now)
    ensures var steps := Carried(action, c, t, evidence, grant, now);
            var w' := Next(cfg, Next(cfg, Next(cfg, w, steps[0]), steps[1]), steps[2]);
            w'.effects == w.effects + [Effect(action, t, Some(a))]
  {
    var p := Propose(w.db, action, c, t, evidence, grant, now);
    assert p.Proceed? && p.approval == Some(a);
    assert p.db.queue == w.db.queue;
    var w1 := Next(cfg, w, Ask(action, c, t, evidence, grant, now));
    assert t in w1.flights && w1.flights[t] == Flight(action, c, Some(a), Phase.Recorded);
  }

  /**
   In every run: where an action is answered "needs approval", six more steps - park on it, approve, claim again,
   propose again, check, call - make the call, once and under exactly that approval.
   */
  lemma ApprovedActionIsCarriedOut(cfg: Config, w: World, steps: seq<Step>, action: Action, c: Claim, t: ToolId,
                                   a: ApprovalId, expiresAt: Option<Time>, evidence: Evidence, grant: ApprovalId,
                                   asked: Time, resolved: Time, worker: string, token: string, claimed: Time,
                                   expires: Time, again: Evidence, found: ApprovalId, now: Time)
    requires cfg.Valid() && Fresh(w) && resolved <= claimed <= now < expires
    requires var db := Exec(cfg, w, steps).db;
             && Scanned(db, action, evidence, grant)
             && Propose(db, action, c, t, evidence, grant, asked).NeedsApproval? && t !in db.tools
             && a !in db.approvals && StepMayWait(db, action.run, action.step)
    requires expiresAt.Some? ==> asked < expiresAt.value
    ensures var via := Detour(action, c, a, expiresAt, asked, resolved, worker, token, claimed, expires);
            var detour := steps + [Use(via[0]), Use(via[1]), Use(via[2])];
            var last := Carried(action, Claim(worker, token, 1), t, again, found, now);
            Scanned(Exec(cfg, w, detour).db, action, again, found) ==>
              Exec(cfg, w, detour + last).effects == Exec(cfg, w, steps).effects + [Effect(action, t, Some(a))]
  {
    var before := Exec(cfg, w, steps);
    FreshHolds(w);
    RunKeepsCore(cfg, w, steps);
    DetourGrants(cfg, before, action, c, t, a, expiresAt, evidence, grant, asked, resolved, worker, token, claimed,
      expires, now);
    var via := Detour(action, c, a, expiresAt, asked, resolved, worker, token, claimed, expires);
    var detour := steps + [Use(via[0]), Use(via[1]), Use(via[2])];
    Then(cfg, w, steps, Use(via[0]), Use(via[1]), Use(via[2]));
    var there := Exec(cfg, w, detour);
    if Scanned(there.db, action, again, found) {
      var c' := Claim(worker, token, 1);
      var last := Carried(action, c', t, again, found, now);
      CarriesOut(cfg, there, action, c', t, a, again, found, now);
      Then(cfg, w, detour, last[0], last[1], last[2]);
      assert detour + last == detour + [last[0], last[1], last[2]];
    }
  }
}
