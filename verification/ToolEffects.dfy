/** Protected effects happen once, over every interleaving of workers, re-claims and crashes. */
module ToolEffects {
  import opened Common
  import opened RuntimeModel
  import opened RuntimeInvariants
  import opened RuntimeProtocol
  import opened RuntimeEvolution
  import opened ToolExecution

  type Approvals = map<ApprovalId, Approval>
  type Tools = map<ToolId, Tool>

  /**
   The rows behind an action in flight or done: its invocation and, if protected, the consumed approval of exactly this
   action.
   */
  predicate Vouched(approvals: Approvals, tools: Tools, action: Action, t: ToolId, grant: Option<ApprovalId>) {
    && t in tools && tools[t].run == action.run && tools[t].approval == grant && tools[t].external == action.external
    && (action.protected <==> grant.Some?)
    && (grant.Some? ==>
          && grant.value in approvals && approvals[grant.value].run == action.run
          && Consumed(action, approvals[grant.value]) && approvals[grant.value].fingerprint == Some(action.Exact()))
  }

  predicate BindsExactly(approval: Approval) {
    approval.fingerprint.Some? && approval.fingerprint.value.Exact?
  }

  /** Consumed, and not one of the older kind that does not bind the external scope. */
  predicate Spent(approvals: Approvals, a: ApprovalId) {
    a in approvals && approvals[a].consumed && BindsExactly(approvals[a])
  }

  ghost predicate GrantsUnique(approvals: Approvals) {
    forall a, b ::
      Spent(approvals, a) && Spent(approvals, b) && approvals[a].run == approvals[b].run
      && approvals[a].fingerprint == approvals[b].fingerprint ==>
        a == b
  }

  predicate LinkedTo(tools: Tools, t: ToolId, r: RunId, a: ApprovalId) {
    t in tools && tools[t].run == r && tools[t].approval == Some(a)
  }

  /** A consumed approval of an exact action has an invocation. */
  ghost predicate GrantsLinked(approvals: Approvals, tools: Tools) {
    forall a :: Spent(approvals, a) ==> exists t :: LinkedTo(tools, t, approvals[a].run, a)
  }

  ghost predicate Issued(w: World, t: ToolId) {
    t in w.flights || exists i :: 0 <= i < |w.effects| && w.effects[i].tool == t
  }

  ghost predicate AllVouched(w: World) {
    && (forall t :: t in w.flights ==>
         Vouched(w.db.approvals, w.db.tools, w.flights[t].action, t, w.flights[t].approval))
    && (forall i :: 0 <= i < |w.effects| ==>
         Vouched(w.db.approvals, w.db.tools, w.effects[i].action, w.effects[i].tool, w.effects[i].approval))
  }

  predicate Invoked(w: World, t: ToolId, a: ApprovalId) {
    t in w.db.tools && w.db.tools[t].approval == Some(a)
  }

  /** No approval stands behind two issued invocations. */
  ghost predicate OnePerGrant(w: World) {
    forall x, y, a :: Issued(w, x) && Issued(w, y) && Invoked(w, x, a) && Invoked(w, y, a) ==> x == y
  }

  /** No invocation reaches the gateway twice. */
  ghost predicate OneCallEach(w: World) {
    && (forall i, j :: 0 <= i < j < |w.effects| ==> w.effects[i].tool != w.effects[j].tool)
    && (forall i :: 0 <= i < |w.effects| && w.effects[i].tool in w.flights ==>
         w.flights[w.effects[i].tool].phase.Called?)
  }

  ghost predicate EffectsInv(w: World) {
    && GrantsUnique(w.db.approvals) && GrantsLinked(w.db.approvals, w.db.tools)
    && AllVouched(w) && OnePerGrant(w) && OneCallEach(w)
  }

  // ---- transactions that consume nothing -------------------------------------------------

  lemma GrantsFollow(db: Db, db': Db)
    requires Follows(db, db') && GrantsUnique(db.approvals) && GrantsLinked(db.approvals, db.tools)
    ensures GrantsUnique(db'.approvals) && GrantsLinked(db'.approvals, db'.tools)
  {
    forall a | Spent(db'.approvals, a)
      ensures Spent(db.approvals, a) && db'.approvals[a] == db.approvals[a]
              && exists t :: LinkedTo(db'.tools, t, db'.approvals[a].run, a)
    {
      assert SameApproval(db.approvals[a], db'.approvals[a]);
      var t :| LinkedTo(db.tools, t, db.approvals[a].run, a);
      assert SameTool(db.tools[t], db'.tools[t]);
      assert LinkedTo(db'.tools, t, db'.approvals[a].run, a);
    }
  }

  lemma VouchedEvolves(db: Db, db': Db, action: Action, t: ToolId, grant: Option<ApprovalId>)
    requires Evolves(db, db') && Vouched(db.approvals, db.tools, action, t, grant)
    ensures Vouched(db'.approvals, db'.tools, action, t, grant)
  {
    assert SameTool(db.tools[t], db'.tools[t]);
    if grant.Some? {
      assert SameApproval(db.approvals[grant.value], db'.approvals[grant.value]);
    }
  }

  lemma IssuedEvolve(w: World, db': Db)
    requires Evolves(w.db, db') && AllVouched(w) && OnePerGrant(w)
    ensures AllVouched(w.(db := db')) && OnePerGrant(w.(db := db'))
  {
    var w' := w.(db := db');
    forall t | t in w.flights ensures Vouched(db'.approvals, db'.tools, w.flights[t].action, t, w.flights[t].approval) {
      VouchedEvolves(w.db, db', w.flights[t].action, t, w.flights[t].approval);
    }
    forall i | 0 <= i < |w.effects|
      ensures Vouched(db'.approvals, db'.tools, w.effects[i].action, w.effects[i].tool, w.effects[i].approval)
    {
      VouchedEvolves(w.db, db', w.effects[i].action, w.effects[i].tool, w.effects[i].approval);
    }
    forall x, y, a | Issued(w', x) && Issued(w', y) && Invoked(w', x, a) && Invoked(w', y, a) ensures x == y {
      assert Issued(w, x) && Issued(w, y);
      IssuedInvoked(w, db', x, a);
      IssuedInvoked(w, db', y, a);
    }
  }

  /** An issued invocation had its approval from the start. */
  lemma IssuedInvoked(w: World, db': Db, t: ToolId, a: ApprovalId)
    requires Evolves(w.db, db') && AllVouched(w) && Issued(w, t) && Invoked(w.(db := db'), t, a)
    ensures Invoked(w, t, a)
  {
    assert t in w.db.tools;
    assert SameTool(w.db.tools[t], db'.tools[t]);
  }

  lemma FollowKeeps(w: World, db': Db)
    requires EffectsInv(w) && Follows(w.db, db')
    ensures EffectsInv(w.(db := db'))
  {
    GrantsFollow(w.db, db');
    IssuedEvolve(w, db');
  }

  // ---- a proposal ------------------------------------------------------------------------

  /** Without evidence of an earlier execution no approval of this exact action has been consumed. */
  lemma NoReplayNoGrant(db: Db, action: Action)
    requires GrantsLinked(db.approvals, db.tools) && !HasReplay(db, action)
    requires forall a :: Spent(db.approvals, a) ==> db.approvals[a].status.Approved?
    ensures forall a :: Spent(db.approvals, a) && db.approvals[a].run == action.run ==>
            db.approvals[a].fingerprint != Some(action.Exact())
  {
    forall a | Spent(db.approvals, a) && db.approvals[a].run == action.run
      ensures db.approvals[a].fingerprint != Some(action.Exact())
    {
      var t :| LinkedTo(db.tools, t, db.approvals[a].run, a);
      assert !Replayable(db, action, Evidence(a, t));
    }
  }

  lemma GrantsAfterAsk(db: Db, action: Action, t: ToolId, grant: ApprovalId)
    requires GrantsUnique(db.approvals) && GrantsLinked(db.approvals, db.tools) && Authorizes(db, action, grant)
    requires t !in db.tools
    requires forall a :: Spent(db.approvals, a) && db.approvals[a].run == action.run ==>
             db.approvals[a].fingerprint != Some(action.Exact())
    ensures GrantsUnique(Consume(db.approvals, grant))
    ensures GrantsLinked(Consume(db.approvals, grant), db.tools[t := Invocation(action, Some(grant))])
  {
    var approvals', tools' := Consume(db.approvals, grant), db.tools[t := Invocation(action, Some(grant))];
    forall a | Spent(approvals', a)
      ensures exists x :: LinkedTo(tools', x, approvals'[a].run, a)
    {
      if a == grant {
        assert LinkedTo(tools', t, action.run, grant);
      } else {
        assert Spent(db.approvals, a);
        var x :| LinkedTo(db.tools, x, db.approvals[a].run, a);
        assert LinkedTo(tools', x, approvals'[a].run, a);
      }
    }
    forall a, b | Spent(approvals', a) && Spent(approvals', b) && approvals'[a].run == approvals'[b].run
      && approvals'[a].fingerprint == approvals'[b].fingerprint
      ensures a == b
    {
      if a != grant && b != grant {
        assert Spent(db.approvals, a) && Spent(db.approvals, b);
      } else if a != grant {
        assert Spent(db.approvals, a);
      } else if b != grant {
        assert Spent(db.approvals, b);
      }
    }
  }

  lemma PlainGrants(db: Db, action: Action, t: ToolId)
    requires GrantsLinked(db.approvals, db.tools) && t !in db.tools
    ensures GrantsLinked(db.approvals, db.tools[t := Invocation(action, None)])
  {
    var tools' := db.tools[t := Invocation(action, None)];
    forall a | Spent(db.approvals, a) ensures exists x :: LinkedTo(tools', x, db.approvals[a].run, a) {
      var x :| LinkedTo(db.tools, x, db.approvals[a].run, a);
      assert LinkedTo(tools', x, db.approvals[a].run, a);
    }
  }

  /** The new invocation joins the issued ones; its approval, if any, stood behind none of them. */
  lemma LaunchKeeps(w: World, db': Db, t: ToolId, flight: Flight)
    requires AllVouched(w) && OnePerGrant(w) && OneCallEach(w) && Evolves(w.db, db') && t !in w.db.tools
    requires Vouched(db'.approvals, db'.tools, flight.action, t, flight.approval) && flight.phase.Recorded?
    requires flight.approval.Some? ==> !Spent(w.db.approvals, flight.approval.value)
    ensures var w' := World(db', w.flights[t := flight], w.effects);
            AllVouched(w') && OnePerGrant(w') && OneCallEach(w')
  {
    IssuedEvolve(w, db');
    var w' := World(db', w.flights[t := flight], w.effects);
    forall x, y, a | Issued(w', x) && Issued(w', y) && Invoked(w', x, a) && Invoked(w', y, a) ensures x == y {
      if x != t && y != t {
        assert Issued(w.(db := db'), x) && Issued(w.(db := db'), y);
        assert Invoked(w.(db := db'), x, a) && Invoked(w.(db := db'), y, a);
      } else if x != t {
        NotMine(w, db', t, flight, x, a);
      } else if y != t {
        NotMine(w, db', t, flight, y, a);
      }
    }
  }

  lemma NotMine(w: World, db': Db, t: ToolId, flight: Flight, x: ToolId, a: ApprovalId)
    requires AllVouched(w) && Evolves(w.db, db') && x != t && Issued(World(db', w.flights[t := flight], w.effects), x)
    requires flight.approval.Some? ==> !Spent(w.db.approvals, flight.approval.value)
    requires Vouched(db'.approvals, db'.tools, flight.action, t, flight.approval)
    requires Invoked(World(db', w.flights[t := flight], w.effects), x, a)
    ensures flight.approval != Some(a)
  {
    assert Issued(w, x);
    IssuedInvoked(w, db', x, a);
  }

  lemma ProtectedAskKeeps(w: World, action: Action, c: Claim, t: ToolId, evidence: Evidence, grant: ApprovalId,
                          now: Time)
    requires ConsumedApproved(w.db) && EffectsInv(w) && Scanned(w.db, action, evidence, grant) && action.protected
    requires Propose(w.db, action, c, t, evidence, grant, now).Proceed?
    ensures var p := Propose(w.db, action, c, t, evidence, grant, now);
            EffectsInv(World(p.db, w.flights[t := Flight(action, c, p.approval, Recorded)], w.effects))
  {
    var db' := w.db.(approvals := Consume(w.db.approvals, grant),
                     tools := w.db.tools[t := Invocation(action, Some(grant))]);
    AskEvolves(w, action, c, t, evidence, grant, now);
    assert Propose(w.db, action, c, t, evidence, grant, now) == Proceed(db', Some(grant));
    LaunchKeeps(w, db', t, Flight(action, c, Some(grant), Recorded));
    NoReplayNoGrant(w.db, action);
    GrantsAfterAsk(w.db, action, t, grant);
  }

  lemma PlainAskKeeps(w: World, action: Action, c: Claim, t: ToolId, evidence: Evidence, grant: ApprovalId, now: Time)
    requires EffectsInv(w) && Scanned(w.db, action, evidence, grant) && !action.protected
    requires Propose(w.db, action, c, t, evidence, grant, now).Proceed?
    ensures var p := Propose(w.db, action, c, t, evidence, grant, now);
            EffectsInv(World(p.db, w.flights[t := Flight(action, c, p.approval, Recorded)], w.effects))
  {
    var db' := w.db.(tools := w.db.tools[t := Invocation(action, None)]);
    AskEvolves(w, action, c, t, evidence, grant, now);
    assert Propose(w.db, action, c, t, evidence, grant, now) == Proceed(db', None);
    LaunchKeeps(w, db', t, Flight(action, c, None, Recorded));
    PlainGrants(w.db, action, t);
  }

  lemma AskKeeps(cfg: Config, w: World, action: Action, c: Claim, t: ToolId, evidence: Evidence, grant: ApprovalId,
                 now: Time)
    requires cfg.Valid() && ConsumedApproved(w.db) && EffectsInv(w)
    ensures EffectsInv(Next(cfg, w, Ask(action, c, t, evidence, grant, now)))
  {
    if Scanned(w.db, action, evidence, grant) && Propose(w.db, action, c, t, evidence, grant, now).Proceed? {
      if action.protected {
        ProtectedAskKeeps(w, action, c, t, evidence, grant, now);
      } else {
        PlainAskKeeps(w, action, c, t, evidence, grant, now);
      }
    }
  }

  // ---- moves in flight -------------------------------------------------------------------

  lemma LandKeeps(w: World, t: ToolId)
    requires EffectsInv(w)
    ensures EffectsInv(w.(flights := w.flights - {t}))
  {
    var w' := w.(flights := w.flights - {t});
    forall x | Issued(w', x) ensures Issued(w, x) {
    }
    forall x, y, a | Issued(w', x) && Issued(w', y) && Invoked(w', x, a) && Invoked(w', y, a) ensures x == y {
      assert Issued(w, x) && Issued(w, y) && Invoked(w, x, a) && Invoked(w, y, a);
    }
  }

  lemma ClearKeeps(w: World, t: ToolId)
    requires EffectsInv(w) && t in w.flights && w.flights[t].phase.Recorded?
    ensures EffectsInv(w.(flights := w.flights[t := w.flights[t].(phase := Cleared)]))
  {
    var w' := w.(flights := w.flights[t := w.flights[t].(phase := Cleared)]);
    forall x, y, a | Issued(w', x) && Issued(w', y) && Invoked(w', x, a) && Invoked(w', y, a) ensures x == y {
      assert Issued(w, x) && Issued(w, y) && Invoked(w, x, a) && Invoked(w, y, a);
    }
  }

  lemma CallKeeps(cfg: Config, w: World, t: ToolId)
    requires cfg.Valid() && EffectsInv(w)
    ensures EffectsInv(Next(cfg, w, Call(t)))
  {
    if t in w.flights && w.flights[t].phase.Cleared? {
      var w' := Next(cfg, w, Call(t));
      forall x | Issued(w', x) ensures Issued(w, x) {
        if x !in w.flights {
          var i :| 0 <= i < |w'.effects| && w'.effects[i].tool == x;
          assert w.effects[i].tool == x;
        }
      }
      forall x, y, a | Issued(w', x) && Issued(w', y) && Invoked(w', x, a) && Invoked(w', y, a) ensures x == y {
        assert Issued(w, x) && Issued(w, y) && Invoked(w, x, a) && Invoked(w, y, a);
      }
    }
  }

  lemma StoreKeeps(cfg: Config, w: World, t: ToolId, succeeded: bool, now: Time)
    requires cfg.Valid() && EffectsInv(w)
    ensures EffectsInv(Next(cfg, w, Store(t, succeeded, now)))
  {
    if t in w.flights && w.flights[t].phase.Called? {
      var flight := w.flights[t];
      var db' := After(w.db, Finish(w.db, flight.action, flight.claim, t, succeeded, now));
      StoreEvolves(w.db, flight.action, flight.claim, t, succeeded, now);
      FollowKeeps(w, db');
      LandKeeps(w.(db := db'), t);
    }
  }

  lemma NextKeepsEffects(cfg: Config, w: World, step: Step)
    requires cfg.Valid() && ConsumedApproved(w.db) && EffectsInv(w)
    ensures EffectsInv(Next(cfg, w, step))
  {
    match step
    case Use(request) =>
      TransactEvolves(cfg, w.db, request);
      FollowKeeps(w, Transact(cfg, w.db, request));
    case Ask(action, c, t, evidence, grant, now) => AskKeeps(cfg, w, action, c, t, evidence, grant, now);
    case Check(t, now) =>
      if t in w.flights && w.flights[t].phase.Recorded? {
        ClearKeeps(w, t);
        LandKeeps(w, t);
      }
    case Call(t) => CallKeeps(cfg, w, t);
    case Store(t, succeeded, now) => StoreKeeps(cfg, w, t, succeeded, now);
    case Crash(t) => LandKeeps(w, t);
  }

  /** Any database the system may be started on, in which only approvals of the older kind have been consumed. */
  ghost predicate Upgraded(w: World) {
    && Core(w.db) && w.flights == map[] && w.effects == []
    && forall a :: a in w.db.approvals && w.db.approvals[a].consumed ==> !BindsExactly(w.db.approvals[a])
  }

  lemma FreshIsUpgraded(w: World)
    requires Fresh(w)
    ensures Upgraded(w)
  {
    FreshHolds(w);
  }

  lemma {:induction false} RunKeepsEffects(cfg: Config, w: World, steps: seq<Step>)
    requires cfg.Valid() && Upgraded(w)
    ensures EffectsInv(Exec(cfg, w, steps))
  {
    if steps != [] {
      var front := steps[..|steps| - 1];
      RunKeepsEffects(cfg, w, front);
      RunKeepsCore(cfg, w, front);
      NextKeepsEffects(cfg, Exec(cfg, w, front), steps[|steps| - 1]);
    }
  }

  /** No approval of the older kind has been consumed. */
  ghost predicate ExactOnly(approvals: Approvals) {
    forall a :: a in approvals && approvals[a].consumed ==> BindsExactly(approvals[a])
  }

  lemma FollowKeepsExact(db: Db, db': Db)
    requires Follows(db, db') && ExactOnly(db.approvals)
    ensures ExactOnly(db'.approvals)
  {
    forall a | a in db'.approvals && db'.approvals[a].consumed ensures BindsExactly(db'.approvals[a]) {
      assert SameApproval(db.approvals[a], db'.approvals[a]);
    }
  }

  lemma AskKeepsExact(db: Db, action: Action, c: Claim, t: ToolId, evidence: Evidence, grant: ApprovalId, now: Time)
    requires ExactOnly(db.approvals) && Scanned(db, action, evidence, grant)
    ensures var p := Propose(db, action, c, t, evidence, grant, now);
            p.Proceed? ==> ExactOnly(p.db.approvals)
  {
  }

  lemma UseKeepsExact(cfg: Config, db: Db, request: Request)
    requires cfg.Valid() && ConsumedApproved(db) && ExactOnly(db.approvals)
    ensures ExactOnly(Transact(cfg, db, request).approvals)
  {
    TransactEvolves(cfg, db, request);
    FollowKeepsExact(db, Transact(cfg, db, request));
  }

  lemma StoreKeepsExact(db: Db, action: Action, c: Claim, t: ToolId, succeeded: bool, now: Time)
    requires ExactOnly(db.approvals)
    ensures ExactOnly(After(db, Finish(db, action, c, t, succeeded, now)).approvals)
  {
  }

  lemma NextKeepsExact(cfg: Config, w: World, step: Step)
    requires cfg.Valid() && ConsumedApproved(w.db) && ExactOnly(w.db.approvals)
    ensures ExactOnly(Next(cfg, w, step).db.approvals)
  {
    match step
    case Use(request) => UseKeepsExact(cfg, w.db, request);
    case Ask(action, c, t, evidence, grant, now) =>
      if Scanned(w.db, action, evidence, grant) {
        AskKeepsExact(w.db, action, c, t, evidence, grant, now);
      }
    case Store(t, succeeded, now) =>
      if t in w.flights {
        StoreKeepsExact(w.db, w.flights[t].action, w.flights[t].claim, t, succeeded, now);
      }
    case _ =>
  }

  lemma {:induction false} RunKeepsExact(cfg: Config, w: World, steps: seq<Step>)
    requires cfg.Valid() && Core(w.db) && ExactOnly(w.db.approvals)
    ensures ExactOnly(Exec(cfg, w, steps).db.approvals)
  {
    if steps != [] {
      RunKeepsExact(cfg, w, steps[..|steps| - 1]);
      RunKeepsCore(cfg, w, steps[..|steps| - 1]);
      NextKeepsExact(cfg, Exec(cfg, w, steps[..|steps| - 1]), steps[|steps| - 1]);
    }
  }

  // ---- the theorems ----------------------------------------------------------------------

  /** At most one gateway call per run and exact fingerprint of a protected action, whatever workers and crashes do. */
  lemma ProtectedEffectsOnce(cfg: Config, w: World, steps: seq<Step>, i: nat, j: nat)
    requires cfg.Valid() && Upgraded(w)
    requires var effects := Exec(cfg, w, steps).effects;
             i < |effects| && j < |effects| && effects[i].action.protected && effects[j].action.protected
             && effects[i].action.Exact() == effects[j].action.Exact()
    ensures i == j
  {
    RunKeepsEffects(cfg, w, steps);
    SameGrant(Exec(cfg, w, steps), i, j);
  }

  lemma SameGrant(w: World, i: nat, j: nat)
    requires EffectsInv(w) && i < |w.effects| && j < |w.effects|
    requires w.effects[i].action.protected && w.effects[j].action.protected
    requires w.effects[i].action.Exact() == w.effects[j].action.Exact()
    ensures i == j
  {
    var x, y := w.effects[i], w.effects[j];
    assert Vouched(w.db.approvals, w.db.tools, x.action, x.tool, x.approval);
    assert Vouched(w.db.approvals, w.db.tools, y.action, y.tool, y.approval);
    assert Spent(w.db.approvals, x.approval.value) && Spent(w.db.approvals, y.approval.value);
    assert x.approval == y.approval;
    assert Issued(w, x.tool) && Issued(w, y.tool);
    assert Invoked(w, x.tool, x.approval.value) && Invoked(w, y.tool, x.approval.value);
    assert x.tool == y.tool;
  }

  /** Every protected call was made under a consumed approval of its run with exactly its fingerprint. */
  lemma EffectsAreAuthorized(cfg: Config, w: World, steps: seq<Step>, i: nat)
    requires cfg.Valid() && Upgraded(w) && i < |Exec(cfg, w, steps).effects|
    requires Exec(cfg, w, steps).effects[i].action.protected
    ensures var w' := Exec(cfg, w, steps);
            var e := w'.effects[i];
            && e.approval.Some? && e.approval.value in w'.db.approvals
            && var a := w'.db.approvals[e.approval.value];
            && a.run == e.action.run && a.fingerprint == Some(e.action.Exact()) && a.status.Approved? && a.consumed
            && e.tool in w'.db.tools && w'.db.tools[e.tool].approval == e.approval
  {
    RunKeepsEffects(cfg, w, steps);
    var w' := Exec(cfg, w, steps);
    assert Vouched(w'.db.approvals, w'.db.tools, w'.effects[i].action, w'.effects[i].tool, w'.effects[i].approval);
  }

  /**
   Once a protected action has reached the gateway, proposing it again returns a stored outcome or fails; it never
   proceeds.  Unless older approvals were consumed, the outcome is one recorded under the same grant.
   */
  lemma LaterProposalsReplay(cfg: Config, w: World, steps: seq<Step>, i: nat, action: Action, c: Claim, t: ToolId,
                             evidence: Evidence, grant: ApprovalId, now: Time)
    requires cfg.Valid() && Upgraded(w) && i < |Exec(cfg, w, steps).effects|
    requires var e := Exec(cfg, w, steps).effects[i];
             e.action.protected && action.protected && e.action.Exact() == action.Exact()
    requires Scanned(Exec(cfg, w, steps).db, action, evidence, grant)
    ensures var db := Exec(cfg, w, steps).db;
            var p := Propose(db, action, c, t, evidence, grant, now);
            var e := Exec(cfg, w, steps).effects[i];
            && (p.Replayed? || p.Declined?)
            && (p.Replayed? ==>
                  && Replayable(db, action, Evidence(evidence.approval, p.tool))
                  && db.tools[p.tool].status == (if p.succeeded then ToolSucceeded else ToolFailed)
                  && (ExactOnly(w.db.approvals) ==>
                        e.approval.Some? && LinkedTo(db.tools, p.tool, action.run, e.approval.value)))
            && (p.Declined? ==>
                  || !ActiveClaim(db.queue, action.run, c, now) || action.run !in db.runs
                  || !db.runs[action.run].status.Running? || p.error.ExecutionAmbiguous?)
  {
    RunKeepsEffects(cfg, w, steps);
    var w' := Exec(cfg, w, steps);
    var e := w'.effects[i];
    assert Vouched(w'.db.approvals, w'.db.tools, e.action, e.tool, e.approval);
    assert Replayable(w'.db, action, Evidence(e.approval.value, e.tool));
    if ExactOnly(w.db.approvals) {
      RunKeepsExact(cfg, w, steps);
      assert Spent(w'.db.approvals, e.approval.value) && Spent(w'.db.approvals, evidence.approval);
    }
  }

  // ---- approvals of the older kind -------------------------------------------------------

  /** A protected call of exactly this action. */
  predicate SameCall(x: Action, action: Action) {
    x.protected && x.Exact() == action.Exact()
  }

  /** The action has a replay, and was neither started nor made here. */
  ghost predicate Precluded(w: World, action: Action) {
    && HasReplay(w.db, action)
    && (forall t :: t in w.flights ==> !SameCall(w.flights[t].action, action))
    && (forall i :: 0 <= i < |w.effects| ==> !SameCall(w.effects[i].action, action))
  }

  lemma ReplayStays(db: Db, db': Db, action: Action)
    requires Evolves(db, db') && HasReplay(db, action)
    ensures HasReplay(db', action)
  {
    var e :| Replayable(db, action, e);
    assert SameApproval(db.approvals[e.approval], db'.approvals[e.approval]);
    assert SameTool(db.tools[e.tool], db'.tools[e.tool]);
    assert Replayable(db', action, e);
  }

  lemma SameReplay(db: Db, x: Action, y: Action)
    requires x.Exact() == y.Exact() && HasReplay(db, x)
    ensures HasReplay(db, y)
  {
    var e :| Replayable(db, x, e);
    assert Replayable(db, y, e);
  }

  /** The database moves on, flights land and no protected call of the action joins them. */
  lemma PrecludedStays(w: World, w': World, action: Action)
    requires Precluded(w, action) && Evolves(w.db, w'.db)
    requires forall t :: t in w'.flights && SameCall(w'.flights[t].action, action) ==>
               t in w.flights && w.flights[t].action == w'.flights[t].action
    requires w'.effects == w.effects
    ensures Precluded(w', action)
  {
    ReplayStays(w.db, w'.db, action);
  }

  lemma AskPrecluded(cfg: Config, w: World, step: Step, action: Action)
    requires cfg.Valid() && Precluded(w, action) && step.Ask?
    ensures Precluded(Next(cfg, w, step), action)
  {
    if Scanned(w.db, step.action, step.evidence, step.grant) {
      AskEvolves(w, step.action, step.claim, step.tool, step.evidence, step.grant, step.now);
      if step.action.Exact() == action.Exact() {
        SameReplay(w.db, action, step.action);
      }
      if Propose(w.db, step.action, step.claim, step.tool, step.evidence, step.grant, step.now).Proceed? {
        PrecludedStays(w, Next(cfg, w, step), action);
      }
    }
  }

  lemma CallPrecluded(cfg: Config, w: World, t: ToolId, action: Action)
    requires cfg.Valid() && Precluded(w, action)
    ensures Precluded(Next(cfg, w, Call(t)), action)
  {
  }

  lemma NextPrecluded(cfg: Config, w: World, step: Step, action: Action)
    requires cfg.Valid() && ConsumedApproved(w.db) && Precluded(w, action)
    ensures Precluded(Next(cfg, w, step), action)
  {
    match step
    case Use(request) =>
      TransactEvolves(cfg, w.db, request);
      PrecludedStays(w, w.(db := Transact(cfg, w.db, request)), action);
    case Ask(_, c, t, evidence, grant, now) => AskPrecluded(cfg, w, step, action);
    case Call(t) => CallPrecluded(cfg, w, t, action);
    case Store(t, succeeded, now) => StorePrecluded(cfg, w, t, succeeded, now, action);
    case _ => LandPrecluded(cfg, w, step, action);
  }

  lemma StorePrecluded(cfg: Config, w: World, t: ToolId, succeeded: bool, now: Time, action: Action)
    requires cfg.Valid() && Precluded(w, action)
    ensures Precluded(Next(cfg, w, Store(t, succeeded, now)), action)
  {
    if t in w.flights && w.flights[t].phase.Called? {
      var flight := w.flights[t];
      StoreEvolves(w.db, flight.action, flight.claim, t, succeeded, now);
      var db' := After(w.db, Finish(w.db, flight.action, flight.claim, t, succeeded, now));
      PrecludedStays(w, w.(db := db', flights := w.flights - {t}), action);
    }
  }

  lemma LandPrecluded(cfg: Config, w: World, step: Step, action: Action)
    requires cfg.Valid() && Precluded(w, action) && (step.Check? || step.Crash?)
    ensures Precluded(Next(cfg, w, step), action)
  {
  }

  /**
   A consumed approval with an invocation it vouches for, of either kind, rules the action out: whatever the run, the
   gateway is not called for it again.
   */
  lemma {:induction false} ConsumedBefore(cfg: Config, w: World, steps: seq<Step>, action: Action)
    requires cfg.Valid() && Upgraded(w) && HasReplay(w.db, action)
    ensures Precluded(Exec(cfg, w, steps), action)
  {
    if steps != [] {
      ConsumedBefore(cfg, w, steps[..|steps| - 1], action);
      RunKeepsCore(cfg, w, steps[..|steps| - 1]);
      NextPrecluded(cfg, Exec(cfg, w, steps[..|steps| - 1]), steps[|steps| - 1], action);
    }
  }

  // ---- the claim check before the call ---------------------------------------------------

  /** Step i re-checked the claim of this flight while it was active. */
  ghost predicate CheckedAt(cfg: Config, w: World, steps: seq<Step>, i: int, t: ToolId, flight: Flight)
    requires cfg.Valid()
  {
    && 0 <= i < |steps| && steps[i].Check? && steps[i].tool == t
    && ActiveClaim(Exec(cfg, w, steps[..i]).db.queue, flight.action.run, flight.claim, steps[i].now)
  }

  ghost predicate Checked(cfg: Config, w: World, steps: seq<Step>, t: ToolId, flight: Flight)
    requires cfg.Valid()
  {
    exists i :: CheckedAt(cfg, w, steps, i, t, flight)
  }

  /** A flight is cleared by the last step, or it was cleared before. */
  lemma ClearedHow(cfg: Config, w: World, step: Step, t: ToolId)
    requires cfg.Valid() && t in Next(cfg, w, step).flights && Next(cfg, w, step).flights[t].phase.Cleared?
    ensures t in w.flights && var (f, f') := (w.flights[t], Next(cfg, w, step).flights[t]);
              && f'.action == f.action && f'.claim == f.claim
              && (f == f' || (step.Check? && step.tool == t
                   && ActiveClaim(w.db.queue, f.action.run, f.claim, step.now)))
  {
  }

  /** No flight is ready for the gateway unless its claim was found active after its invocation was recorded. */
  lemma {:induction false} ClearedWasChecked(cfg: Config, w: World, steps: seq<Step>, t: ToolId)
    requires cfg.Valid() && w.flights == map[] && t in Exec(cfg, w, steps).flights
    requires Exec(cfg, w, steps).flights[t].phase.Cleared?
    ensures Checked(cfg, w, steps, t, Exec(cfg, w, steps).flights[t])
    decreases |steps|
  {
    var n := |steps| - 1;
    var front := steps[..n];
    var before, flight := Exec(cfg, w, front), Exec(cfg, w, steps).flights[t];
    ClearedHow(cfg, before, steps[n], t);
    if before.flights[t] == flight {
      ClearedWasChecked(cfg, w, front, t);
      var i :| CheckedAt(cfg, w, front, i, t, flight);
      assert front[..i] == steps[..i];
      assert CheckedAt(cfg, w, steps, i, t, flight);
    } else {
      assert CheckedAt(cfg, w, steps, n, t, flight);
    }
  }

  /** Every gateway call is preceded by a fresh check that found the worker's claim active. */
  lemma CallsAreFenced(cfg: Config, w: World, steps: seq<Step>, t: ToolId)
    requires cfg.Valid() && w.flights == map[]
    requires |Next(cfg, Exec(cfg, w, steps), Call(t)).effects| > |Exec(cfg, w, steps).effects|
    ensures t in Exec(cfg, w, steps).flights && Checked(cfg, w, steps, t, Exec(cfg, w, steps).flights[t])
  {
    ClearedWasChecked(cfg, w, steps, t);
  }
}
