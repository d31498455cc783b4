/**
 The transactions as the code runs them: fenced updates of two tables, loops over candidate rows, and a
 rollback on every raise.  Each method is proved against the transaction functions of DeliveryModel, so
 the theorems of DeliveryProtocol hold of it.
 */
module DeliveryStore {
  import opened Common
  import opened RetryPolicy
  import opened DeliveryModel
  import opened DeliveryInvariants
  import opened DeliveryProtocol
  import opened DeliveryRows

  // ---- ORDER BY time, id LIMIT n ---------------------------------------------------------

  predicate Before(keys: map<DeliveryId, Time>, a: DeliveryId, b: DeliveryId)
    requires a in keys && b in keys
  {
    keys[a] < keys[b] || (keys[a] == keys[b] && a < b)
  }

  ghost predicate Selection(keys: map<DeliveryId, Time>, limit: nat, ids: seq<DeliveryId>) {
    && (forall i :: 0 <= i < |ids| ==> ids[i] in keys)
    && (forall i, j :: 0 <= i < j < |ids| ==> Before(keys, ids[i], ids[j]))
    && |ids| <= limit
    && (|ids| < limit ==> forall id :: id in keys ==> id in ids)
    && (forall i, id :: 0 <= i < |ids| && id in keys && id !in ids ==> Before(keys, ids[i], id))
  }

  method First(keys: map<DeliveryId, Time>, rest: set<DeliveryId>) returns (best: DeliveryId)
    requires rest != {} && rest <= keys.Keys
    ensures best in rest && forall id :: id in rest && id != best ==> Before(keys, best, id)
  {
    best :| best in rest;
    var unseen := rest - {best};
    while unseen != {}
      invariant unseen <= rest && best in rest - unseen
      invariant forall id :: id in rest && id !in unseen && id != best ==> Before(keys, best, id)
      decreases unseen
    {
      var id :| id in unseen;
      unseen := unseen - {id};
      if Before(keys, id, best) {
        best := id;
      }
    }
  }

  method Select(keys: map<DeliveryId, Time>, limit: nat) returns (ids: seq<DeliveryId>)
    ensures Selection(keys, limit, ids)
  {
    ids := [];
    var rest := keys.Keys;
    while rest != {} && |ids| < limit
      invariant rest <= keys.Keys && |ids| <= limit
      invariant forall id :: id in keys ==> (id in rest <==> id !in ids)
      invariant forall i :: 0 <= i < |ids| ==> ids[i] in keys && ids[i] !in rest
      invariant forall i, j :: 0 <= i < j < |ids| ==> Before(keys, ids[i], ids[j])
      invariant forall i, id :: 0 <= i < |ids| && id in rest ==> Before(keys, ids[i], id)
      decreases rest
    {
      var best := First(keys, rest);
      ids := ids + [best];
      rest := rest - {best};
    }
  }

  lemma SelectionIsFirst(keys: map<DeliveryId, Time>, limit: nat, ids: seq<DeliveryId>)
    requires Selection(keys, limit, ids) && ids != []
    ensures forall id :: id in keys && id != ids[0] ==> Before(keys, ids[0], id)
  {
    forall id | id in keys && id != ids[0] ensures Before(keys, ids[0], id) {
      if id in ids {
        var i :| 0 <= i < |ids| && ids[i] == id;
        assert Before(keys, ids[0], ids[i]);
      }
    }
  }

  /** Rows and limit determine the selection: the query has one answer. */
  lemma {:induction false} SelectionIsUnique(keys: map<DeliveryId, Time>, limit: nat, x: seq<DeliveryId>,
                                             y: seq<DeliveryId>)
    requires Selection(keys, limit, x) && Selection(keys, limit, y)
    ensures x == y
  {
    SelectionAgrees(keys, limit, x, y, |x|);
    SelectionAgrees(keys, limit, y, x, |y|);
    assert x[..|x|] == x && y[..|y|] == y;
  }

  /** Position by position: the first row on which they could differ would precede itself. */
  lemma {:induction false} SelectionAgrees(keys: map<DeliveryId, Time>, limit: nat, x: seq<DeliveryId>,
                                           y: seq<DeliveryId>, n: nat)
    requires Selection(keys, limit, x) && Selection(keys, limit, y) && n <= |x|
    ensures n <= |y| && x[..n] == y[..n]
  {
    if n > 0 {
      var k := n - 1;
      SelectionAgrees(keys, limit, x, y, k);
      Exhausted(keys, limit, x, y, k);
      NotAmong(keys, limit, x, k);
      NotAmong(keys, limit, y, k);
      Precedes(keys, limit, x, k, y[k]);
      Precedes(keys, limit, y, k, x[k]);
    }
  }

  /** A selection shorter than the limit lacks no row. */
  lemma Exhausted(keys: map<DeliveryId, Time>, limit: nat, x: seq<DeliveryId>, y: seq<DeliveryId>, k: nat)
    requires Selection(keys, limit, x) && Selection(keys, limit, y) && k < |x| && k <= |y| && x[..k] == y[..k]
    ensures k < |y|
  {
    NotAmong(keys, limit, x, k);
    assert y[..|y|] == y;
  }

  lemma NotAmong(keys: map<DeliveryId, Time>, limit: nat, ids: seq<DeliveryId>, k: nat)
    requires Selection(keys, limit, ids) && k < |ids|
    ensures ids[k] !in ids[..k]
  {
    forall i | 0 <= i < k ensures ids[i] != ids[k] {
      assert Before(keys, ids[i], ids[k]);
    }
  }

  /** Row k precedes every row that is not before it in the selection. */
  lemma Precedes(keys: map<DeliveryId, Time>, limit: nat, ids: seq<DeliveryId>, k: nat, id: DeliveryId)
    requires Selection(keys, limit, ids) && k < |ids| && id in keys && id !in ids[..k]
    ensures id == ids[k] || Before(keys, ids[k], id)
  {
    if id in ids {
      var j :| 0 <= j < |ids| && ids[j] == id;
      assert forall i :: 0 <= i < k ==> ids[..k][i] == ids[i];
    }
  }

  /** The order in which due deliveries are served. */
  predicate WaitedLonger(db: Database, a: DeliveryId, b: DeliveryId)
    requires a in db.deliveries && b in db.deliveries
  {
    var x, y := db.deliveries[a].availableAt, db.deliveries[b].availableAt;
    x < y || (x == y && a < b)
  }

  // ---- recovery of a batch ---------------------------------------------------------------

  function ExpiredKeys(db: Database, now: Time): map<DeliveryId, Time> {
    map id | id in db.deliveries && ExpiredClaim(db.deliveries[id], now) :: db.deliveries[id].claimExpiresAt.value
  }

  function DueKeys(db: Database, now: Time): map<DeliveryId, Time> {
    map id | id in db.deliveries && Due(db.deliveries[id], now) :: db.deliveries[id].availableAt
  }

  /** Recover the listed rows one after the other; the first failure aborts the whole transaction. */
  function RecoverAll(policy: Policy, db: Database, ids: seq<DeliveryId>, now: Time): Txn
    requires policy.Valid()
  {
    if ids == [] then Commit(db)
    else
      match RecoverAll(policy, db, ids[..|ids| - 1], now)
      case Abort(e) => Abort(e)
      case Commit(db') => RecoverOne(policy, db', ids[|ids| - 1], now)
  }

  function Start(db: Database): World {
    World(db, multiset{}, multiset{})
  }

  function RecoverSteps(ids: seq<DeliveryId>, now: Time): seq<Step> {
    seq(|ids|, i requires 0 <= i < |ids| => RecoverStep(ids[i], now))
  }

  /** A recovered batch is a run of single recoveries. */
  lemma {:induction false} RecoverAllIsARun(policy: Policy, db: Database, ids: seq<DeliveryId>, now: Time)
    requires policy.Valid() && RecoverAll(policy, db, ids, now).Commit?
    ensures Exec(policy, Start(db), RecoverSteps(ids, now)) == Start(RecoverAll(policy, db, ids, now).db)
  {
    if ids != [] {
      var front := ids[..|ids| - 1];
      RecoverAllIsARun(policy, db, front, now);
      assert RecoverSteps(ids, now)[..|ids| - 1] == RecoverSteps(front, now);
    }
  }

  /** One run of the protocol: the listed recoveries in order, then at most one claim. */
  ghost predicate RecoveryRun(policy: Policy, db: Database, db': Database, ids: seq<DeliveryId>, now: Time,
                              steps: seq<Step>, claimed: bool)
    requires policy.Valid()
  {
    && Exec(policy, Start(db), steps) == Start(db') && PositiveLeases(steps)
    && RecoverSteps(ids, now) <= steps && |steps| == |ids| + Mark(claimed)
  }

  lemma BatchAlone(policy: Policy, db: Database, ids: seq<DeliveryId>, now: Time)
    requires policy.Valid() && RecoverAll(policy, db, ids, now).Commit?
    ensures RecoveryRun(policy, db, RecoverAll(policy, db, ids, now).db, ids, now, RecoverSteps(ids, now), false)
  {
    RecoverAllIsARun(policy, db, ids, now);
  }

  /** Recovering a batch and then claiming is one run. */
  lemma BatchThenClaim(policy: Policy, db: Database, ids: seq<DeliveryId>, now: Time, id: DeliveryId, worker: string,
                       token: string, expires: Time)
    requires policy.Valid() && RecoverAll(policy, db, ids, now).Commit? && now < expires
    requires TryClaim(RecoverAll(policy, db, ids, now).db, id, worker, token, now, expires).Commit?
    ensures RecoveryRun(policy, db, TryClaim(RecoverAll(policy, db, ids, now).db, id, worker, token, now, expires).db,
                        ids, now, RecoverSteps(ids, now) + [ClaimStep(id, worker, token, now, expires)], true)
  {
    RecoverAllIsARun(policy, db, ids, now);
    var steps := RecoverSteps(ids, now);
    assert (steps + [ClaimStep(id, worker, token, now, expires)])[..|steps|] == steps;
  }

  lemma {:induction false} RecoverAllCommits(policy: Policy, db: Database, ids: seq<DeliveryId>, now: Time)
    requires policy.Valid() && Inv(policy, db)
    ensures RecoverAll(policy, db, ids, now).Commit? && Inv(policy, RecoverAll(policy, db, ids, now).db)
  {
    if ids != [] {
      RecoverAllCommits(policy, db, ids[..|ids| - 1], now);
      var db' := RecoverAll(policy, db, ids[..|ids| - 1], now).db;
      var id := ids[|ids| - 1];
      RecoverKeepsLedger(policy, db', id, now);
      RecoverKeepsLeases(policy, db', id, now);
      if id in db'.deliveries {
        assert RowAgrees(db', id);
      }
    }
  }

  /** Recovering other rows leaves an expired row expired. */
  lemma {:induction false} RecoverAllFrame(policy: Policy, db: Database, ids: seq<DeliveryId>, now: Time,
                                           id: DeliveryId)
    requires policy.Valid() && id !in ids && RecoverAll(policy, db, ids, now).Commit?
    ensures var db' := RecoverAll(policy, db, ids, now).db;
            (id in db'.deliveries <==> id in db.deliveries)
              && (id in db.deliveries ==> db'.deliveries[id] == db.deliveries[id])
  {
    if ids != [] {
      assert id !in ids[..|ids| - 1];
      RecoverAllFrame(policy, db, ids[..|ids| - 1], now, id);
    }
  }

  class Store {
    var deliveries: map<DeliveryId, Delivery>
    var attempts: map<AttemptKey, Attempt>

    function Contents(): Database
      reads this
    {
      Database(deliveries, attempts)
    }

    constructor (db: Database)
      ensures Contents() == db
    {
      deliveries := db.deliveries;
      attempts := db.attempts;
    }

    // ---- repository updates: one fenced statement each ------------------------------------

    method UpdateClaim(id: DeliveryId, worker: string, token: string, now: Time, expires: Time)
      returns (generation: Option<nat>)
      modifies this
      ensures Contents() == After(old(Contents()), TryClaim(old(Contents()), id, worker, token, now, expires))
      ensures generation.Some? <==> TryClaim(old(Contents()), id, worker, token, now, expires).Commit?
      ensures generation.Some? ==> generation.value == deliveries[id].claimGeneration
    {
      if id in deliveries && deliveries[id].status.Queued? && deliveries[id].availableAt <= now {
        var d := deliveries[id];
        deliveries := deliveries[id := d.(
          status := Sending,
          claimOwner := Some(worker),
          claimToken := Some(token),
          claimGeneration := d.claimGeneration + 1,
          claimExpiresAt := Some(expires),
          attemptCount := d.attemptCount + 1,
          updatedAt := now)];
        generation := Some(d.claimGeneration + 1);
      } else {
        generation := None;
      }
    }

    method MarkDispatchStarted(claim: DeliveryClaim, now: Time) returns (marked: bool)
      modifies this`deliveries
      ensures marked <==> ActiveClaim(old(Contents()), claim, now) && !Dispatched(old(deliveries)[claim.delivery])
      ensures deliveries == if marked
        then var d := old(deliveries)[claim.delivery];
             old(deliveries)[claim.delivery := d.(dispatchStartedAt := Some(now), updatedAt := now)]
        else old(deliveries)
    {
      marked := ActiveClaim(Contents(), claim, now) && deliveries[claim.delivery].dispatchStartedAt.None?;
      if marked {
        var d := deliveries[claim.delivery];
        deliveries := deliveries[claim.delivery := d.(dispatchStartedAt := Some(now), updatedAt := now)];
      }
    }

    /** INSERT ... SELECT: the row appears only if the claim is active and the boundary equals `startedAt`. */
    method BeginForClaim(claim: DeliveryClaim, startedAt: Time, now: Time) returns (r: Txn)
      modifies this`attempts
      ensures r.Commit? <==>
        && ActiveClaim(old(Contents()), claim, now)
        && deliveries[claim.delivery].dispatchStartedAt == Some(startedAt)
        && AttemptKey(claim.delivery, claim.generation) !in old(attempts)
        && claim.generation > 0
      ensures r.Commit? ==>
              var k := AttemptKey(claim.delivery, claim.generation);
              attempts == old(attempts)[k := Attempt(startedAt, None, InProgress, None)]
      ensures r.Abort? ==> attempts == old(attempts)
      ensures r == Abort(ClaimLost) <==>
              !(ActiveClaim(old(Contents()), claim, now)
                && deliveries[claim.delivery].dispatchStartedAt == Some(startedAt))
      ensures r.Abort? ==> r.error in {ClaimLost, ConstraintViolation}
    {
      if ActiveClaim(Contents(), claim, now) && deliveries[claim.delivery].dispatchStartedAt == Some(startedAt) {
        var k := AttemptKey(claim.delivery, deliveries[claim.delivery].claimGeneration);
        if k in attempts || k.generation == 0 {
          return Abort(ConstraintViolation);
        }
        attempts := attempts[k := Attempt(startedAt, None, InProgress, None)];
        r := Commit(Contents());
      } else {
        r := Abort(ClaimLost);
      }
    }

    // ---- use cases ------------------------------------------------------------------------

    method RecoverRow(policy: Policy, id: DeliveryId, now: Time) returns (r: Txn)
      requires policy.Valid()
      requires id in deliveries && ExpiredClaim(deliveries[id], now)
      modifies this
      ensures r == RecoverOne(policy, old(Contents()), id, now)
      ensures Contents() == After(old(Contents()), r)
      ensures r.Commit? ==> Recovered(policy, old(Contents()), Contents(), id, now)
    {
      if RecoverOne(policy, Contents(), id, now).Commit? {
        RecoverySends(policy, Contents(), id, now);
      }
      var d := deliveries[id];
      if d.dispatchStartedAt.Some? {
        var k := AttemptKey(id, d.claimGeneration);
        var open := k in attempts && attempts[k].outcome.InProgress?;
        var started := if open then attempts[k].startedAt else now;
        if now < started {
          return Abort(ValidationError);
        }
        if !open {
          return Abort(InconsistentLedger);
        }
        attempts := attempts[k := attempts[k].(outcome := AttemptAmbiguous, finishedAt := Some(now),
                                               failureCode := Some(LEASE_EXPIRED_AFTER_DISPATCH))];
        deliveries := deliveries[id := d.(status := Ambiguous, claimOwner := None, claimToken := None,
                                          claimExpiresAt := None,
                                          failureCode := Some(LEASE_EXPIRED_AFTER_DISPATCH), updatedAt := now)];
      } else if d.attemptCount < policy.maxAttempts {
        var nextAttempt := d.attemptCount + 1;
        var availableAt := now + policy.ComputeDelay(nextAttempt);
        deliveries := deliveries[id := d.(status := Queued, availableAt := availableAt, claimOwner := None,
                                          claimToken := None, claimExpiresAt := None, updatedAt := now)];
      } else {
        deliveries := deliveries[id := d.(status := Failed, claimOwner := None, claimToken := None,
                                          claimExpiresAt := None,
                                          failureCode := Some(PRE_DISPATCH_ATTEMPTS_EXHAUSTED), updatedAt := now)];
      }
      r := Commit(Contents());
    }

    /** Recover the expired rows in order; a row that cannot be recovered rolls the earlier ones back. */
    method RecoverExpired(policy: Policy, now: Time, limit: nat) returns (r: Txn, expired: seq<DeliveryId>)
      requires policy.Valid()
      modifies this
      ensures Selection(ExpiredKeys(old(Contents()), now), limit, expired)
      ensures r == RecoverAll(policy, old(Contents()), expired, now)
      ensures r.Commit? ==> Contents() == r.db
      ensures r.Abort? ==> Contents() == old(Contents())
    {
      var before := Contents();
      expired := Select(ExpiredKeys(Contents(), now), limit);
      r := Commit(Contents());
      var i := 0;
      while i < |expired|
        invariant 0 <= i <= |expired| && before == old(Contents())
        invariant r == RecoverAll(policy, old(Contents()), expired[..i], now) && r.Commit? && Contents() == r.db
        invariant Selection(ExpiredKeys(old(Contents()), now), limit, expired)
      {
        assert expired[i] !in expired[..i];
        RecoverAllFrame(policy, old(Contents()), expired[..i], now, expired[i]);
        assert expired[..i + 1][..i] == expired[..i];
        r := RecoverRow(policy, expired[i], now);
        if r.Abort? {
          RecoverAllAborts(policy, before, expired, i + 1, now);
          deliveries, attempts := before.deliveries, before.attempts;
          return;
        }
        i := i + 1;
      }
      assert expired[..i] == expired;
    }

    method ClaimFirstDue(worker: string, token: string, now: Time, expires: Time, limit: nat)
      returns (claim: Option<DeliveryClaim>)
      requires limit >= 1 && now < expires
      modifies this
      ensures claim.None? ==> Contents() == old(Contents()) && forall id :: id in deliveries ==>
              !Due(deliveries[id], now)
      ensures claim.Some? ==>
        && TryClaim(old(Contents()), claim.value.delivery, worker, token, now, expires) == Commit(Contents())
        && ActiveClaim(Contents(), claim.value, now)
        && forall id :: id in deliveries && Due(deliveries[id], now) ==>
           WaitedLonger(Contents(), claim.value.delivery, id)
    {
      var keys := DueKeys(Contents(), now);
      var due := Select(keys, limit);
      claim := None;
      var i := 0;
      while i < |due| && claim.None?
        invariant 0 <= i <= |due|
        invariant claim.None? ==> i == 0 && Contents() == old(Contents())
        invariant claim.Some? ==>
          && |due| > 0 && claim.value.delivery == due[0]
          && TryClaim(old(Contents()), due[0], worker, token, now, expires) == Commit(Contents())
          && ActiveClaim(Contents(), claim.value, now)
      {
        var generation := UpdateClaim(due[i], worker, token, now, expires);
        if generation.Some? {
          claim := Some(DeliveryClaim(due[i], worker, token, generation.value));
        }
        i := i + 1;
      }
      if claim.Some? {
        SelectionIsFirst(keys, limit, due);
      }
      assert forall id :: id in old(deliveries) && Due(old(deliveries)[id], now) ==> id in keys;
    }

    /** Recover expired leases, then claim the first due delivery, all in one transaction. */
    method ClaimNext(policy: Policy, worker: string, token: string, now: Time, lease: Time, limit: nat)
      returns (r: Txn, claim: Option<DeliveryClaim>, ghost expired: seq<DeliveryId>, ghost steps: seq<Step>)
      requires policy.Valid() && lease > 0.0 && limit >= 1
      modifies this
      ensures Contents() == After(old(Contents()), r)
      ensures Inv(policy, old(Contents())) ==> r.Commit?
      // the transaction is a run of protocol steps: the expired leases in order, then at most one claim
      ensures Selection(ExpiredKeys(old(Contents()), now), limit, expired)
      ensures r.Commit? ==> RecoveryRun(policy, old(Contents()), Contents(), expired, now, steps, claim.Some?)
      // a claim is the delivery that was due first; without one nothing was due
      ensures claim.Some? ==> r.Commit? && ActiveClaim(Contents(), claim.value, now)
      ensures claim.Some? ==> forall id :: id in deliveries && Due(deliveries[id], now) ==>
              WaitedLonger(Contents(), claim.value.delivery, id)
      ensures r.Commit? && claim.None? ==> forall id :: id in deliveries ==> !Due(deliveries[id], now)
    {
      ghost var before := Contents();
      var recovery, ids := RecoverExpired(policy, now, limit);
      r, claim, expired, steps := recovery, None, ids, [];
      if recovery.Commit? {
        BatchAlone(policy, before, ids, now);
        steps := RecoverSteps(ids, now);
        claim := ClaimFirstDue(worker, token, now, now + lease, limit);
        if claim.Some? {
          BatchThenClaim(policy, before, ids, now, claim.value.delivery, worker, token, now + lease);
          steps := steps + [ClaimStep(claim.value.delivery, worker, token, now, now + lease)];
        }
        r := Commit(Contents());
      } else {
        RecoverAllMayAbort(policy, before, ids, now);
      }
    }

    method BeginDeliveryAttempt(claim: DeliveryClaim, now: Time) returns (r: Txn)
      modifies this
      ensures r == Begin(old(Contents()), claim, now)
      ensures Contents() == After(old(Contents()), r)
      ensures r.Commit? ==> Crossing(old(Contents()), Contents(), claim, now)
      ensures forall policy :: Inv(policy, old(Contents())) ==>
                (r.Commit? <==> ActiveClaim(old(Contents()), claim, now) && !Crossed(old(Contents()), claim.delivery))
    {
      var before := Contents();
      forall policy | Inv(policy, before)
        ensures Begin(before, claim, now).Commit? <==>
                ActiveClaim(before, claim, now) && !Crossed(before, claim.delivery)
      {
        BeginCommitsIff(policy, before, claim, now);
      }
      var marked := MarkDispatchStarted(claim, now);
      if !marked {
        return Abort(ClaimLost);
      }
      var inserted := BeginForClaim(claim, now, now);
      if inserted.Abort? {
        deliveries, attempts := before.deliveries, before.attempts;
        return inserted;
      }
      r := Commit(Contents());
    }

    /** Both tables take the names the worker gave, exactly when its lease, texts and boundary allow it. */
    method PersistOutcome(claim: DeliveryClaim, o: Outcome, now: Time) returns (r: Txn)
      modifies this
      ensures r == Persist(old(Contents()), claim, o, now)
      ensures Contents() == After(old(Contents()), r)
      ensures r.Commit? ==> Reported(old(Contents()), Contents(), claim, o, now)
      ensures forall policy :: Inv(policy, old(Contents())) ==>
                (r.Commit? <==> Reportable(old(Contents()), claim, o, now))
    {
      forall policy | Inv(policy, Contents())
        ensures Persist(Contents(), claim, o, now).Commit? <==> Reportable(Contents(), claim, o, now)
      {
        PersistCommitsIff(policy, Contents(), claim, o, now);
      }
      if Persist(Contents(), claim, o, now).Commit? {
        PersistReports(Contents(), claim, o, now);
      }
      if claim.delivery !in deliveries {
        return Abort(ClaimLost);
      }
      var before := Contents();
      var d := deliveries[claim.delivery];
      if !d.status.Sending? || d.claimOwner != Some(claim.worker) || d.claimToken != Some(claim.token)
         || d.claimGeneration != claim.generation {
        return Abort(ClaimLost);
      }
      if (o.Deliver? || o.MarkAmbiguous?) && d.dispatchStartedAt.None? {
        return Abort(InvalidTransition);
      }
      if !OutcomeTextValid(o) {
        return Abort(ValidationError);
      }
      var changed := Transitioned(d, o, now);
      var active := d.claimExpiresAt.Some? && d.claimExpiresAt.value > now;
      if changed.dispatchStartedAt.Some? {
        var k := AttemptKey(claim.delivery, claim.generation);
        if !TerminalWriteValid(Contents(), claim.delivery, d, OutcomeOf(changed.status), changed.failureCode, now) {
          return Abort(ValidationError);
        }
        if !(k in attempts && attempts[k].outcome.InProgress? && active) {
          return Abort(ClaimLost);
        }
        attempts := attempts[k := attempts[k].(outcome := OutcomeOf(changed.status), finishedAt := Some(now),
                                               failureCode := changed.failureCode)];
      }
      if !active {
        attempts := before.attempts;
        return Abort(ClaimLost);
      }
      deliveries := deliveries[claim.delivery := changed];
      r := Commit(Contents());
    }
  }

  lemma {:induction false} RecoverAllAborts(policy: Policy, db: Database, ids: seq<DeliveryId>, n: nat, now: Time)
    requires policy.Valid() && n <= |ids| && RecoverAll(policy, db, ids[..n], now).Abort?
    ensures RecoverAll(policy, db, ids, now) == RecoverAll(policy, db, ids[..n], now)
    decreases |ids|
  {
    if n < |ids| {
      var front := ids[..|ids| - 1];
      assert front[..n] == ids[..n];
      RecoverAllAborts(policy, db, front, n, now);
    } else {
      assert ids[..n] == ids;
    }
  }

  lemma RecoverAllMayAbort(policy: Policy, db: Database, ids: seq<DeliveryId>, now: Time)
    requires policy.Valid() && RecoverAll(policy, db, ids, now).Abort?
    ensures !Inv(policy, db)
  {
    if Inv(policy, db) {
      RecoverAllCommits(policy, db, ids, now);
    }
  }
}
