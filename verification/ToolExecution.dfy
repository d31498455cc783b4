/**
 The two transactions around a tool's external effect.  `Propose` authorizes an action and records its
 invocation; the gateway is called only after a fresh claim check; `Finish` stores the outcome.

 The order in which the repository lists approvals and invocations is left open: `Propose` takes the row the
 scan meets first, and `FindReplay` shows that scanning any listing meets such a row.
 */
module ToolExecution {
  import opened Common
  import opened RuntimeModel
  import opened RuntimeInvariants
  import opened RuntimeFrames
  import opened RuntimeKeeps

  /** A proposed call with the gateway's risk assessment. */
  datatype Action = Action(run: RunId, step: Option<StepId>, call: string, scope: string, protected: bool,
    external: bool) {
    function Exact(): Fingerprint {
      Fingerprint.Exact(run, step, call, scope)
    }

    function Legacy(): Fingerprint {
      Fingerprint.Legacy(run, step, call)
    }
  }

  /** The row pair that decides a replay: a consumed approval of this action and an invocation linked to it. */
  datatype Evidence = Evidence(approval: ApprovalId, tool: ToolId)

  datatype Proposal = Proceed(db: Db, approval: Option<ApprovalId>)
                    | Replayed(tool: ToolId, succeeded: bool)
                    | NeedsApproval
                    | Declined(error: Error)

  predicate Consumed(action: Action, approval: Approval) {
    && approval.status.Approved? && approval.consumed
    && (approval.fingerprint == Some(action.Exact()) || approval.fingerprint == Some(action.Legacy()))
  }

  /** The older fingerprint does not bind an external identity, so it never vouches for an external invocation. */
  predicate Links(action: Action, a: ApprovalId, approval: Approval, tool: Tool) {
    tool.approval == Some(a) && !(approval.fingerprint == Some(action.Legacy()) && tool.external)
  }

  predicate Replayable(db: Db, action: Action, e: Evidence) {
    && e.approval in db.approvals && db.approvals[e.approval].run == action.run
    && Consumed(action, db.approvals[e.approval])
    && e.tool in db.tools && db.tools[e.tool].run == action.run
    && Links(action, e.approval, db.approvals[e.approval], db.tools[e.tool])
  }

  predicate Authorizes(db: Db, action: Action, a: ApprovalId) {
    && a in db.approvals && db.approvals[a].run == action.run && db.approvals[a].status.Approved?
    && db.approvals[a].fingerprint == Some(action.Exact()) && !db.approvals[a].consumed
  }

  ghost predicate HasReplay(db: Db, action: Action) {
    exists e :: Replayable(db, action, e)
  }

  ghost predicate HasGrant(db: Db, action: Action) {
    exists a :: Authorizes(db, action, a)
  }

  /** The evidence and the grant are rows the scans may meet first. */
  ghost predicate Scanned(db: Db, action: Action, evidence: Evidence, grant: ApprovalId) {
    (HasReplay(db, action) ==> Replayable(db, action, evidence))
      && (HasGrant(db, action) ==> Authorizes(db, action, grant))
  }

  function Replay(db: Db, t: ToolId): Proposal
    requires t in db.tools
  {
    match db.tools[t].status
    case ToolSucceeded => Replayed(t, true)
    case ToolFailed => Replayed(t, false)
    case _ => Declined(ExecutionAmbiguous)
  }

  function Consume(approvals: map<ApprovalId, Approval>, a: ApprovalId): map<ApprovalId, Approval>
    requires a in approvals
  {
    approvals[a := approvals[a].(consumed := true)]
  }

  function Invocation(action: Action, approval: Option<ApprovalId>): Tool {
    Tool(action.run, action.step, approval, ToolRunning, action.external)
  }

  /** The first transaction. */
  ghost function Propose(db: Db, action: Action, c: Claim, t: ToolId, evidence: Evidence, grant: ApprovalId,
                         now: Time): Proposal
    requires Scanned(db, action, evidence, grant)
  {
    if !ActiveClaim(db.queue, action.run, c, now) then Declined(ClaimLost)
    else if action.run !in db.runs then Declined(NotFound)
    else if !db.runs[action.run].status.Running? then Declined(Conflict)
    else if action.protected && HasReplay(db, action) then Replay(db, evidence.tool)
    else if action.protected && !HasGrant(db, action) then NeedsApproval
    else if t in db.tools then Declined(Conflict)
    else if action.protected then
      Proceed(db.(approvals := Consume(db.approvals, grant), tools := db.tools[t := Invocation(action, Some(grant))]),
        Some(grant))
    else Proceed(db.(tools := db.tools[t := Invocation(action, None)]), None)
  }

  /** The second transaction: only the claim and the invocation's own status are checked. */
  function Finish(db: Db, action: Action, c: Claim, t: ToolId, succeeded: bool, now: Time): Txn {
    if !ActiveClaim(db.queue, action.run, c, now) then Abort(ClaimLost)
    else if action.run !in db.runs then Abort(NotFound)
    else if t !in db.tools || !db.tools[t].status.ToolRunning? then Abort(Conflict)
    else Commit(db.(tools := db.tools[t := db.tools[t].(status := if succeeded then ToolSucceeded else ToolFailed)]))
  }

  // ---- the scan --------------------------------------------------------------------------

  /** A listing shows every row of the run, in some order. */
  ghost predicate Lists(db: Db, r: RunId, approvals: seq<ApprovalId>, tools: seq<ToolId>) {
    && (forall a :: a in approvals <==> a in db.approvals && db.approvals[a].run == r)
    && (forall t :: t in tools <==> t in db.tools && db.tools[t].run == r)
  }

  /** Scan the consumed approvals and the run's invocations for the first linked pair. */
  method FindReplay(db: Db, action: Action, approvals: seq<ApprovalId>, tools: seq<ToolId>)
    returns (evidence: Option<Evidence>)
    requires Lists(db, action.run, approvals, tools)
    ensures evidence.Some? <==> HasReplay(db, action)
    ensures evidence.Some? ==> Replayable(db, action, evidence.value)
  {
    for i := 0 to |approvals|
      invariant forall e: Evidence :: e.approval in approvals[..i] ==> !Replayable(db, action, e)
    {
      var a := approvals[i];
      assert a in approvals;
      if Consumed(action, db.approvals[a]) {
        for j := 0 to |tools|
          invariant forall e: Evidence :: e.approval == a && e.tool in tools[..j] ==> !Replayable(db, action, e)
        {
          assert tools[j] in tools;
          if Links(action, a, db.approvals[a], db.tools[tools[j]]) {
            assert Replayable(db, action, Evidence(a, tools[j]));
            return Some(Evidence(a, tools[j]));
          }
        }
        assert tools[..|tools|] == tools;
      }
    }
    assert approvals[..|approvals|] == approvals;
    return None;
  }

  /** The first approved, unconsumed approval with exactly this fingerprint. */
  method FindAuthorizing(db: Db, action: Action, approvals: seq<ApprovalId>) returns (grant: Option<ApprovalId>)
    requires forall a :: a in approvals <==> a in db.approvals && db.approvals[a].run == action.run
    ensures grant.Some? <==> HasGrant(db, action)
    ensures grant.Some? ==> Authorizes(db, action, grant.value)
  {
    for i := 0 to |approvals|
      invariant forall a :: a in approvals[..i] ==> !Authorizes(db, action, a)
    {
      assert approvals[i] in approvals;
      if Authorizes(db, action, approvals[i]) {
        return Some(approvals[i]);
      }
    }
    assert approvals[..|approvals|] == approvals;
    return None;
  }

  // ---- the transactions keep the runtime's invariants ------------------------------------

  lemma ProposeKeeps(db: Db, scope: Scope, action: Action, c: Claim, t: ToolId, evidence: Evidence, grant: ApprovalId,
                     now: Time)
    requires Inv(db, scope) && Scanned(db, action, evidence, grant)
    ensures var p := Propose(db, action, c, t, evidence, grant, now);
            p.Proceed? ==> Inv(p.db, scope)
  {
    if Propose(db, action, c, t, evidence, grant, now).Proceed? {
      if action.protected {
        GrantKeeps(db, scope, grant);
        ToolOnlyKeeps(db.(approvals := Consume(db.approvals, grant)), scope, t, Invocation(action, Some(grant)));
      } else {
        ToolOnlyKeeps(db, scope, t, Invocation(action, None));
      }
    }
  }

  lemma GrantKeeps(db: Db, scope: Scope, a: ApprovalId)
    requires Inv(db, scope) && a in db.approvals && db.approvals[a].status.Approved?
    ensures Inv(db.(approvals := Consume(db.approvals, a)), scope)
  {
    ApprovalsRow(db.runs, db.approvals, a, db.approvals[a].(consumed := true), scope.rows);
  }

  lemma FinishKeeps(db: Db, scope: Scope, action: Action, c: Claim, t: ToolId, succeeded: bool, now: Time)
    requires Inv(db, scope)
    ensures Inv(After(db, Finish(db, action, c, t, succeeded, now)), scope)
  {
    if Finish(db, action, c, t, succeeded, now).Commit? {
      ToolOnlyKeeps(db, scope, t, db.tools[t].(status := if succeeded then ToolSucceeded else ToolFailed));
    }
  }

  /** What the second transaction relies on without checking: an invocation still running belongs to a running run. */
  lemma FinishMeetsRunningRun(db: Db, action: Action, c: Claim, t: ToolId, succeeded: bool, now: Time)
    requires Core(db) && Finish(db, action, c, t, succeeded, now).Commit? && db.tools[t].run == action.run
    ensures db.runs[action.run].status.Running? && !HasPendingApproval(db, action.run) && !HasDispatched(db, action.run)
  {
    assert ItemFits(db.queue[action.run], db.runs[action.run]);
    forall d | d in db.delegations && db.delegations[d].parent == action.run
      ensures !db.delegations[d].status.Dispatched?
    {
      assert ParentWaits(db.runs, d, db.delegations[d]);
    }
  }
}
