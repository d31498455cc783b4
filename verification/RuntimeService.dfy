/**
 The class and the protocol.  Serving a request of the queue or a wait is one step of the protocol, and executing a tool
 action, without interference, is the run Ask, Check, Call, Store; so what holds of every run holds of the class.
 */
module RuntimeService {
  import opened Common
  import opened RuntimeModel
  import opened RuntimeInvariants
  import opened RuntimeStore
  import opened RuntimeProtocol
  import opened ToolExecution
  import ToolAnswers

  // ---- requests --------------------------------------------------------------------------

  method ServeQueue(rt: Runtime, q: QueueRequest) returns (error: Option<Error>)
    requires Core(rt.Contents())
    modifies rt
    ensures rt.Contents() == QueueTxn(old(rt.Contents()), q) && Core(rt.Contents())
    ensures error.Some? ==> rt.Contents() == old(rt.Contents())
  {
    ghost var before := rt.Contents();
    CoreIsInv(before);
    QueueTxnKeeps(before, CoreOnly(), q);
    CoreIsInv(QueueTxn(before, q));
    if q.DoStartRun? {
      error := rt.StartRun(q.task, q.run, q.now);
    } else {
      var t := OnWorkItem(rt.Contents(), q);
      error := ErrorOf(t);
      if t.Commit? {
        rt.runs, rt.queue := t.db.runs, t.db.queue;
      }
      WorkItemTxn(before, q);
      WorkItemOnly(before, q);
    }
  }

  /** The requests that touch one work item and the run behind it. */
  function OnWorkItem(db: Db, q: QueueRequest): Txn
    requires !q.DoStartRun?
  {
    match q
    case DoStartQueued(r) => StartQueuedRun(db, r)
    case DoClaim(r, worker, token, now, expires) => ClaimRun(db, r, worker, token, now, expires)
    case DoRenew(r, c, now, expires) => RenewLease(db, r, c, now, expires)
    case DoGiveBack(r, c, now, at) => GiveBack(db, r, c, now, at)
    case DoRecover(r, now) => RecoverLease(db, r, now)
  }

  lemma WorkItemTxn(db: Db, q: QueueRequest)
    requires !q.DoStartRun?
    ensures QueueTxn(db, q) == After(db, OnWorkItem(db, q))
  {
  }

  predicate OnlyWorkItem(db: Db, t: Txn) {
    t.Commit? ==> t.db == db.(runs := t.db.runs, queue := t.db.queue)
  }

  lemma ClaimsOnly(db: Db, r: RunId, worker: string, token: string, now: Time, expires: Time)
    ensures OnlyWorkItem(db, ClaimRun(db, r, worker, token, now, expires))
  {
  }

  lemma WorkItemOnly(db: Db, q: QueueRequest)
    requires !q.DoStartRun?
    ensures OnlyWorkItem(db, OnWorkItem(db, q))
  {
    match q
    case DoStartQueued(r) => assert OnlyWorkItem(db, StartQueuedRun(db, r));
    case DoClaim(r, worker, token, now, expires) => ClaimsOnly(db, r, worker, token, now, expires);
    case DoRenew(r, c, now, expires) => assert OnlyWorkItem(db, RenewLease(db, r, c, now, expires));
    case DoGiveBack(r, c, now, at) => assert OnlyWorkItem(db, GiveBack(db, r, c, now, at));
    case DoRecover(r, now) => assert OnlyWorkItem(db, RecoverLease(db, r, now));
  }

  method ServeWait(rt: Runtime, cfg: Config, x: WaitRequest) returns (error: Option<Error>)
    requires cfg.Valid() && Core(rt.Contents())
    modifies rt
    ensures rt.Contents() == WaitTxn(cfg, old(rt.Contents()), x) && Core(rt.Contents())
    ensures error.Some? ==> rt.Contents() == old(rt.Contents())
  {
    ghost var before := rt.Contents();
    CoreIsInv(before);
    WaitTxnKeeps(cfg, before, CoreOnly(), x);
    CoreIsInv(WaitTxn(cfg, before, x));
    match x
    case DoPark(r, fence, a, step, fingerprint, expiresAt, now) =>
      error := rt.RequestApproval(r, fence, a, step, fingerprint, expiresAt, now);
    case DoResolve(a, verdict, now) =>
      error := rt.ResolveApproval(a, verdict, now);
    case DoContract(d, parent, target) =>
      var t := CreateDelegation(rt.Contents(), d, parent, target);
      error := ErrorOf(t);
      if t.Commit? {
        rt.delegations := t.db.delegations;
      }
    case DoDispatch(parent, c, target, d, task, child, now) =>
      error := rt.DispatchDelegation(cfg.limits, parent, c, target, d, task, child, now);
  }

  // ---- a tool action ---------------------------------------------------------------------

  datatype Executed = Done(succeeded: bool) | NotCalled(proposal: Proposal) | Lost(error: Error)

  lemma {:induction false} ExecAfter(cfg: Config, w: World, step: Step, more: seq<Step>)
    requires cfg.Valid()
    ensures Exec(cfg, w, [step] + more) == Exec(cfg, Next(cfg, w, step), more)
  {
    var steps := [step] + more;
    if more == [] {
      assert steps == [step] && [step][..0] == [];
    } else {
      ExecAfter(cfg, w, step, more[..|more| - 1]);
      assert steps[..|steps| - 1] == [step] + more[..|more| - 1];
    }
  }

  /** An action is in flight in this phase. */
  predicate InFlight(w: World, t: ToolId, action: Action, c: Claim, phase: Phase) {
    t in w.flights && w.flights[t].action == action && w.flights[t].claim == c && w.flights[t].phase == phase
  }

  lemma Asked(cfg: Config, w: World, action: Action, c: Claim, t: ToolId, evidence: Evidence, grant: ApprovalId,
              now: Time)
    requires cfg.Valid() && Scanned(w.db, action, evidence, grant)
    ensures var p := Propose(w.db, action, c, t, evidence, grant, now);
            var w' := Next(cfg, w, Ask(action, c, t, evidence, grant, now));
            && w'.effects == w.effects && w'.db == (if p.Proceed? then p.db else w.db)
            && (p.Proceed? ==> InFlight(w', t, action, c, Recorded))
  {
  }

  lemma CheckedFlight(cfg: Config, w: World, action: Action, c: Claim, t: ToolId, now: Time)
    requires cfg.Valid() && InFlight(w, t, action, c, Recorded)
    ensures var w' := Next(cfg, w, Check(t, now));
            && w'.db == w.db && w'.effects == w.effects
            && (ActiveClaim(w.db.queue, action.run, c, now) ==> InFlight(w', t, action, c, Cleared))
  {
  }

  lemma CalledFlight(cfg: Config, w: World, action: Action, c: Claim, t: ToolId)
    requires cfg.Valid() && InFlight(w, t, action, c, Cleared)
    ensures var w' := Next(cfg, w, Call(t));
            && w'.db == w.db && InFlight(w', t, action, c, Called)
            && w'.effects == w.effects + [Effect(action, t, w.flights[t].approval)]
  {
  }

  lemma StoredFlight(cfg: Config, w: World, action: Action, c: Claim, t: ToolId, succeeded: bool, now: Time)
    requires cfg.Valid() && InFlight(w, t, action, c, Called)
    ensures var w' := Next(cfg, w, Store(t, succeeded, now));
            w'.db == After(w.db, Finish(w.db, action, c, t, succeeded, now)) && w'.effects == w.effects
  {
  }

  /** How a run of this action ends: the rows, and one effect if the gateway was called. */
  ghost predicate EndsIn(cfg: Config, w: World, steps: seq<Step>, db: Db, t: ToolId)
    requires cfg.Valid()
  {
    && Exec(cfg, w, steps).db == db
    && |Exec(cfg, w, steps).effects| == |w.effects| + (if Call(t) in steps then 1 else 0)
  }

  lemma OneEarlier(cfg: Config, w: World, step: Step, more: seq<Step>, db: Db, t: ToolId)
    requires cfg.Valid() && EndsIn(cfg, Next(cfg, w, step), more, db, t)
    requires step == Call(t) ==> Call(t) !in more
    requires |Next(cfg, w, step).effects| == |w.effects| + (if step == Call(t) then 1 else 0)
    ensures EndsIn(cfg, w, [step] + more, db, t)
  {
    ExecAfter(cfg, w, step, more);
  }

  lemma NothingMore(cfg: Config, w: World, t: ToolId)
    requires cfg.Valid()
    ensures EndsIn(cfg, w, [], w.db, t)
  {
  }

  /** Call the gateway, which answers `succeeded`, and store the outcome. */
  method CallAndStore(rt: Runtime, cfg: Config, action: Action, c: Claim, t: ToolId, succeeded: bool, stored: Time,
                      ghost w: World)
    returns (result: Executed, ghost steps: seq<Step>)
    requires cfg.Valid() && w.db == rt.Contents() && InFlight(w, t, action, c, Cleared)
    modifies rt
    ensures EndsIn(cfg, w, steps, rt.Contents(), t) && Call(t) in steps && !result.NotCalled?
    ensures result.Done? ==> t in rt.tools && rt.tools[t].status == if succeeded then ToolSucceeded else ToolFailed
  {
    ghost var called := Next(cfg, w, Call(t));
    CalledFlight(cfg, w, action, c, t);
    StoredFlight(cfg, called, action, c, t, succeeded, stored);
    var error := rt.StoreOutcome(action, c, t, succeeded, stored);
    ghost var store := Store(t, succeeded, stored);
    NothingMore(cfg, Next(cfg, called, store), t);
    OneEarlier(cfg, called, store, [], rt.Contents(), t);
    OneEarlier(cfg, w, Call(t), [store] + [], rt.Contents(), t);
    result, steps := if error.Some? then Lost(error.value) else Done(succeeded), [Call(t)] + ([store] + []);
  }

  /** The claim is checked again between the recorded invocation and the call. */
  method CheckAndCall(rt: Runtime, cfg: Config, action: Action, c: Claim, t: ToolId, succeeded: bool,
                      checked: Time, stored: Time, ghost w: World)
    returns (result: Executed, ghost steps: seq<Step>)
    requires cfg.Valid() && w.db == rt.Contents() && InFlight(w, t, action, c, Recorded)
    modifies rt
    ensures EndsIn(cfg, w, steps, rt.Contents(), t) && !result.NotCalled?
    ensures Call(t) in steps <==> ActiveClaim(old(rt.queue), action.run, c, checked)
    ensures result.Done? ==> t in rt.tools && rt.tools[t].status == if succeeded then ToolSucceeded else ToolFailed
  {
    ghost var check := Check(t, checked);
    CheckedFlight(cfg, w, action, c, t, checked);
    result, steps := Lost(ClaimLost), [];
    NothingMore(cfg, Next(cfg, w, check), t);
    if ActiveClaim(rt.queue, action.run, c, checked) {
      result, steps := CallAndStore(rt, cfg, action, c, t, succeeded, stored, Next(cfg, w, check));
    }
    OneEarlier(cfg, w, check, steps, rt.Contents(), t);
    steps := [check] + steps;
  }

  /** What the caller is told when the gateway was not reached, and what stood when it was. */
  ghost predicate Justified(db: Db, action: Action, c: Claim, t: ToolId, now: Time, evidence: Evidence,
                            result: Executed)
  {
    if result.NotCalled? then
      ToolAnswers.Answers(db, action, c, t, now, evidence, result.proposal) && !result.proposal.Proceed?
    else
      && ToolAnswers.Held(db, action.run, c, now) && t !in db.tools
      && (action.protected ==> !ToolAnswers.UsedUp(db, action) && ToolAnswers.Allowed(db, action))
  }

  /**
   Authorize and record, check the claim again, call the gateway, store the outcome; each part reads the clock for
   itself.  It is a run of the protocol, with an effect exactly if the proposal proceeded and the claim still held.
   */
  method Execute(rt: Runtime, cfg: Config, action: Action, c: Claim, t: ToolId, succeeded: bool,
                 asked: Time, checked: Time, stored: Time, approvalIds: seq<ApprovalId>, toolIds: seq<ToolId>,
                 ghost w: World)
    returns (result: Executed, ghost steps: seq<Step>, ghost evidence: Evidence)
    requires cfg.Valid() && w.db == rt.Contents() && Lists(rt.Contents(), action.run, approvalIds, toolIds)
    modifies rt
    ensures EndsIn(cfg, w, steps, rt.Contents(), t)
    ensures Justified(old(rt.Contents()), action, c, t, asked, evidence, result)
    ensures Call(t) in steps <==> !result.NotCalled? && ActiveClaim(old(rt.queue), action.run, c, checked)
    ensures result.Done? ==> t in rt.tools && rt.tools[t].status == if succeeded then ToolSucceeded else ToolFailed
  {
    var proposal;
    ghost var grant;
    proposal, evidence, grant := rt.AuthorizeTool(action, c, t, asked, approvalIds, toolIds);
    ghost var ask := Ask(action, c, t, evidence, grant, asked);
    Asked(cfg, w, action, c, t, evidence, grant, asked);
    result, steps := NotCalled(proposal), [];
    NothingMore(cfg, Next(cfg, w, ask), t);
    if proposal.Proceed? {
      result, steps := CheckAndCall(rt, cfg, action, c, t, succeeded, checked, stored, Next(cfg, w, ask));
    }
    OneEarlier(cfg, w, ask, steps, rt.Contents(), t);
    steps := [ask] + steps;
  }
}
