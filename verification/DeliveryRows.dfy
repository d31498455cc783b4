/**
 What the delivery transactions leave in the two tables, column by column, and when they commit.  Everything is said of
 the rows before and after, so it does not depend on how a transaction computes them.
 */
module DeliveryRows {
  import opened Common
  import opened RetryPolicy
  import opened DeliveryModel
  import opened DeliveryInvariants
  import opened DeliveryProtocol

  /** Every row of both tables but this delivery's and its current attempt's is as before. */
  ghost predicate OthersKept(db: Database, db': Database, id: DeliveryId) {
    && db'.deliveries.Keys == db.deliveries.Keys
    && (forall other :: other in db.deliveries && other != id ==> db'.deliveries[other] == db.deliveries[other])
    && (forall k :: k in db.attempts && k.delivery != id ==> k in db'.attempts && db'.attempts[k] == db.attempts[k])
    && (forall k :: k in db'.attempts && k.delivery != id ==> k in db.attempts)
  }

  predicate IdentityKept(d: Delivery, d': Delivery) {
    d'.instruction == d.instruction && d'.attemptCount == d.attemptCount && d'.claimGeneration == d.claimGeneration
  }

  predicate LeaseKept(d: Delivery, d': Delivery) {
    d'.claimOwner == d.claimOwner && d'.claimToken == d.claimToken && d'.claimExpiresAt == d.claimExpiresAt
  }

  predicate LeaseCleared(d: Delivery) {
    d.claimOwner.None? && d.claimToken.None? && d.claimExpiresAt.None?
  }

  // ---- a worker's outcome ----------------------------------------------------------------

  /** The status is the one the worker's report names. */
  predicate StatusNames(o: Outcome, s: Status) {
    && Terminal(s) && !s.Cancelled?
    && (s.Delivered? <==> o.Deliver?)
    && (s.Failed? <==> o.Fail?)
    && (s.Ambiguous? <==> o.MarkAmbiguous? || o.MarkRouteAmbiguous?)
  }

  predicate AttemptNames(o: Outcome, a: AttemptOutcome) {
    && !a.InProgress?
    && (a.AttemptDelivered? <==> o.Deliver?)
    && (a.AttemptFailed? <==> o.Fail?)
    && (a.AttemptAmbiguous? <==> o.MarkAmbiguous? || o.MarkRouteAmbiguous?)
  }

  predicate CodeKept(o: Outcome, code: Option<string>) {
    if o.Deliver? then code.None? else code == Some(o.code)
  }

  /** The delivery's row before and after a worker's report at an instant. */
  predicate ReportedRow(d: Delivery, d': Delivery, o: Outcome, now: Time) {
    && StatusNames(o, d'.status)
    && (if o.Deliver? then d'.failureCode == d.failureCode else d'.failureCode == Some(o.code))
    && d'.deliveredAt == (if o.Deliver? then Some(now) else d.deliveredAt)
    && d'.updatedAt == now && d'.availableAt == d.availableAt && d'.dispatchStartedAt == d.dispatchStartedAt
    && IdentityKept(d, d') && LeaseKept(d, d')
  }

  /** The open attempt is closed under the same name, at the same instant, with the same code. */
  predicate ReportedAttempt(a: Attempt, a': Attempt, o: Outcome, now: Time) {
    && a.outcome.InProgress? && a'.startedAt == a.startedAt
    && AttemptNames(o, a'.outcome) && a'.finishedAt == Some(now) && CodeKept(o, a'.failureCode)
  }

  ghost predicate Reported(db: Database, db': Database, claim: DeliveryClaim, o: Outcome, now: Time) {
    && OthersKept(db, db', claim.delivery)
    && claim.delivery in db.deliveries && claim.delivery in db'.deliveries
    && ReportedRow(db.deliveries[claim.delivery], db'.deliveries[claim.delivery], o, now)
    && var k := AttemptKey(claim.delivery, claim.generation);
       if db.deliveries[claim.delivery].dispatchStartedAt.Some? then
         && k in db.attempts && k in db'.attempts && ReportedAttempt(db.attempts[k], db'.attempts[k], o, now)
         && db'.attempts == db.attempts[k := db'.attempts[k]]
       else
         db'.attempts == db.attempts
  }

  /**
   The worker still holds the lease, the texts are valid, a boundary was crossed where the report needs one, and a
   report on a crossed boundary is no earlier than the crossing and carries a stable code.
   */
  predicate Reportable(db: Database, claim: DeliveryClaim, o: Outcome, now: Time) {
    && ActiveClaim(db, claim, now)
    && OutcomeTextValid(o)
    && var crossed := db.deliveries[claim.delivery].dispatchStartedAt;
       && (o.Deliver? || o.MarkAmbiguous? ==> crossed.Some?)
       && (crossed.Some? ==> crossed.value <= now && (o.Deliver? || StableCode(o.code)))
  }

  /** A report that commits leaves both tables under the names the worker gave, whatever the database. */
  lemma PersistReports(db: Database, claim: DeliveryClaim, o: Outcome, now: Time)
    requires Persist(db, claim, o, now).Commit?
    ensures Reported(db, Persist(db, claim, o, now).db, claim, o, now)
  {
    var db' := Persist(db, claim, o, now).db;
    var d := db.deliveries[claim.delivery];
    if Dispatched(d) {
      assert Key(claim.delivery, d) == AttemptKey(claim.delivery, claim.generation);
    }
  }

  /** With a truthful ledger, exactly these reports commit. */
  lemma PersistCommitsIff(policy: Policy, db: Database, claim: DeliveryClaim, o: Outcome, now: Time)
    requires Inv(policy, db)
    ensures Persist(db, claim, o, now).Commit? <==> Reportable(db, claim, o, now)
  {
    if claim.delivery in db.deliveries {
      assert RowAgrees(db, claim.delivery) && LeaseShape(policy, db.deliveries[claim.delivery]);
    }
  }

  // ---- an expired lease ------------------------------------------------------------------

  /** Where an expired lease goes: decided by the boundary first and the attempt budget second. */
  ghost predicate RecoveredRow(policy: Policy, d: Delivery, d': Delivery, now: Time)
    requires policy.Valid()
  {
    && IdentityKept(d, d') && LeaseCleared(d') && d'.updatedAt == now
    && d'.dispatchStartedAt == d.dispatchStartedAt && d'.deliveredAt == d.deliveredAt
    && (d'.status.Ambiguous? <==> d.dispatchStartedAt.Some?)
    && (d'.status.Queued? <==> d.dispatchStartedAt.None? && d.attemptCount < policy.maxAttempts)
    && (d'.status.Failed? <==> d.dispatchStartedAt.None? && policy.maxAttempts <= d.attemptCount)
    && d'.availableAt == (if d'.status.Queued? then now + policy.ComputeDelay(d.attemptCount + 1) else d.availableAt)
    && (match d'.status
        case Ambiguous => d'.failureCode == Some(LEASE_EXPIRED_AFTER_DISPATCH)
        case Failed => d'.failureCode == Some(PRE_DISPATCH_ATTEMPTS_EXHAUSTED)
        case _ => d'.failureCode == d.failureCode)
  }

  ghost predicate Recovered(policy: Policy, db: Database, db': Database, id: DeliveryId, now: Time)
    requires policy.Valid()
  {
    && OthersKept(db, db', id)
    && id in db.deliveries && id in db'.deliveries
    && RecoveredRow(policy, db.deliveries[id], db'.deliveries[id], now)
    && var k := AttemptKey(id, db.deliveries[id].claimGeneration);
       if db.deliveries[id].dispatchStartedAt.Some? then
         && k in db.attempts && db.attempts[k].outcome.InProgress?
         && db'.attempts == db.attempts[k := Attempt(db.attempts[k].startedAt, Some(now), AttemptAmbiguous,
                                                      Some(LEASE_EXPIRED_AFTER_DISPATCH))]
       else
         db'.attempts == db.attempts
  }

  /** A lease that has not expired is left alone; an expired one ends where the boundary and the budget send it. */
  lemma RecoverySends(policy: Policy, db: Database, id: DeliveryId, now: Time)
    requires policy.Valid() && RecoverOne(policy, db, id, now).Commit?
    ensures var db' := RecoverOne(policy, db, id, now).db;
            if id in db.deliveries && ExpiredClaim(db.deliveries[id], now)
            then Recovered(policy, db, db', id, now) else db' == db
  {
  }

  // ---- the boundary ----------------------------------------------------------------------

  ghost predicate Crossing(db: Database, db': Database, claim: DeliveryClaim, now: Time) {
    && claim.delivery in db.deliveries
    && var d := db.deliveries[claim.delivery];
       && d.dispatchStartedAt.None?
       && db'.deliveries == db.deliveries[claim.delivery := d.(dispatchStartedAt := Some(now), updatedAt := now)]
       && var k := AttemptKey(claim.delivery, claim.generation);
          k !in db.attempts && db'.attempts == db.attempts[k := Attempt(now, None, InProgress, None)]
  }

  /** With a truthful ledger, the holder of a live lease crosses an uncrossed boundary, and nobody else does. */
  lemma BeginCommitsIff(policy: Policy, db: Database, claim: DeliveryClaim, now: Time)
    requires Inv(policy, db)
    ensures Begin(db, claim, now).Commit? <==>
            ActiveClaim(db, claim, now) && db.deliveries[claim.delivery].dispatchStartedAt.None?
    ensures Begin(db, claim, now).Commit? ==> Crossing(db, Begin(db, claim, now).db, claim, now)
  {
    if claim.delivery in db.deliveries {
      var d := db.deliveries[claim.delivery];
      assert LeaseShape(policy, d);
      assert Key(claim.delivery, d) in db.attempts ==> AttemptBelongs(db, Key(claim.delivery, d));
    }
  }

  // ---- whole runs ------------------------------------------------------------------------

  /** The step is a worker's report on the delivery that takes effect. */
  predicate ReportOn(db: Database, s: Step, id: DeliveryId) {
    s.PersistStep? && s.claim.delivery == id && Reportable(db, s.claim, s.outcome, s.now)
  }

  /** The step finds the delivery's lease expired. */
  predicate ExpiryOf(db: Database, s: Step, id: DeliveryId) {
    s.RecoverStep? && s.id == id && id in db.deliveries && ExpiredClaim(db.deliveries[id], s.now)
  }

  predicate DeliveredBy(policy: Policy, db: Database, s: Step, id: DeliveryId) {
    ReportOn(db, s, id) && s.outcome.Deliver?
  }

  predicate FailedBy(policy: Policy, db: Database, s: Step, id: DeliveryId) {
    || (ReportOn(db, s, id) && s.outcome.Fail?)
    || (ExpiryOf(db, s, id) && db.deliveries[id].dispatchStartedAt.None?
        && policy.maxAttempts <= db.deliveries[id].attemptCount)
  }

  predicate AmbiguousBy(policy: Policy, db: Database, s: Step, id: DeliveryId) {
    || (ReportOn(db, s, id) && (s.outcome.MarkAmbiguous? || s.outcome.MarkRouteAmbiguous?))
    || (ExpiryOf(db, s, id) && db.deliveries[id].dispatchStartedAt.Some?)
  }

  predicate Stands(db: Database, id: DeliveryId, s: Status) {
    id in db.deliveries && db.deliveries[id].status == s
  }

  /** The delivery stands ended after the step exactly when it did before or the step ended it. */
  predicate EndsBy(policy: Policy, db: Database, db': Database, s: Step, id: DeliveryId) {
    && (Stands(db', id, Delivered) <==> Stands(db, id, Delivered) || DeliveredBy(policy, db, s, id))
    && (Stands(db', id, Failed) <==> Stands(db, id, Failed) || FailedBy(policy, db, s, id))
    && (Stands(db', id, Ambiguous) <==> Stands(db, id, Ambiguous) || AmbiguousBy(policy, db, s, id))
  }

  lemma ReportEnds(policy: Policy, db: Database, s: Step, id: DeliveryId)
    requires policy.Valid() && Inv(policy, db) && s.PersistStep?
    ensures EndsBy(policy, db, After(db, Persist(db, s.claim, s.outcome, s.now)), s, id)
  {
    PersistCommitsIff(policy, db, s.claim, s.outcome, s.now);
    var t := Persist(db, s.claim, s.outcome, s.now);
    if t.Commit? {
      PersistReports(db, s.claim, s.outcome, s.now);
      assert Reportable(db, s.claim, s.outcome, s.now);
      assert id in db.deliveries && id != s.claim.delivery ==> t.db.deliveries[id] == db.deliveries[id];
    }
  }

  lemma ExpiryEnds(policy: Policy, db: Database, s: Step, id: DeliveryId)
    requires policy.Valid() && Inv(policy, db) && s.RecoverStep?
    ensures EndsBy(policy, db, After(db, RecoverOne(policy, db, s.id, s.now)), s, id)
  {
    if s.id in db.deliveries {
      assert RowAgrees(db, s.id) && LeaseShape(policy, db.deliveries[s.id]);
    }
    var t := RecoverOne(policy, db, s.id, s.now);
    assert t.Commit?;
    RecoverySends(policy, db, s.id, s.now);
    assert id in db.deliveries && id != s.id ==> t.db.deliveries[id] == db.deliveries[id];
  }

  /** One step brings a delivery to an end exactly when it is the right report or the right expiry. */
  lemma StepEnds(policy: Policy, db: Database, s: Step, id: DeliveryId)
    requires policy.Valid() && Inv(policy, db)
    ensures EndsBy(policy, db, After(db, Transaction(policy, db, s)), s, id)
  {
    match s
    case PersistStep(_, _, _) => ReportEnds(policy, db, s, id);
    case RecoverStep(_, _) => ExpiryEnds(policy, db, s, id);
    case _ =>
  }

  /** Some step of the run did it. */
  ghost predicate Sometime(policy: Policy, w: World, steps: seq<Step>, id: DeliveryId,
                           ends: (Policy, Database, Step, DeliveryId) -> bool)
    requires policy.Valid()
  {
    exists i :: 0 <= i < |steps| && ends(policy, At(policy, w, steps, i).db, steps[i], id)
  }

  lemma SometimeLast(policy: Policy, w: World, steps: seq<Step>, id: DeliveryId,
                     ends: (Policy, Database, Step, DeliveryId) -> bool)
    requires policy.Valid() && steps != []
    ensures var front := steps[..|steps| - 1];
            Sometime(policy, w, steps, id, ends) <==>
            Sometime(policy, w, front, id, ends) || ends(policy, Exec(policy, w, front).db, steps[|steps| - 1], id)
  {
    var n := |steps| - 1;
    var front := steps[..n];
    forall i | 0 <= i < n ensures At(policy, w, front, i) == At(policy, w, steps, i) {
      assert front[..i] == steps[..i];
    }
    if Sometime(policy, w, front, id, ends) {
      var i :| 0 <= i < n && ends(policy, At(policy, w, front, i).db, front[i], id);
      assert ends(policy, At(policy, w, steps, i).db, steps[i], id);
    }
    if Sometime(policy, w, steps, id, ends) {
      var i :| 0 <= i <= n && ends(policy, At(policy, w, steps, i).db, steps[i], id);
      if i < n {
        assert ends(policy, At(policy, w, front, i).db, front[i], id);
      }
    }
    if ends(policy, Exec(policy, w, front).db, steps[n], id) {
      assert ends(policy, At(policy, w, steps, n).db, steps[n], id);
    }
  }

  /**
   The status is the history: from an open delivery, a run ends with it delivered, failed or ambiguous exactly when some
   step was a worker's report of that name taking effect, or an expiry that the boundary and the budget send there.
   */
  lemma {:induction false} StatusIsHistory(policy: Policy, w: World, steps: seq<Step>, id: DeliveryId)
    requires policy.Valid() && Inv(policy, w.db) && PositiveLeases(steps)
    requires id in w.db.deliveries ==> !Terminal(w.db.deliveries[id].status)
    ensures var db' := Exec(policy, w, steps).db;
            && (Stands(db', id, Delivered) <==> Sometime(policy, w, steps, id, DeliveredBy))
            && (Stands(db', id, Failed) <==> Sometime(policy, w, steps, id, FailedBy))
            && (Stands(db', id, Ambiguous) <==> Sometime(policy, w, steps, id, AmbiguousBy))
  {
    if steps != [] {
      var front := steps[..|steps| - 1];
      assert PositiveLeases(front);
      StatusIsHistory(policy, w, front, id);
      InvAt(policy, w, front);
      StepEnds(policy, Exec(policy, w, front).db, steps[|steps| - 1], id);
      assert Next(policy, Exec(policy, w, front), steps[|steps| - 1]).db ==
        After(Exec(policy, w, front).db, Transaction(policy, Exec(policy, w, front).db, steps[|steps| - 1]));
      SometimeLast(policy, w, steps, id, DeliveredBy);
      SometimeLast(policy, w, steps, id, FailedBy);
      SometimeLast(policy, w, steps, id, AmbiguousBy);
    }
  }

  lemma InvAt(policy: Policy, w: World, steps: seq<Step>)
    requires policy.Valid() && Inv(policy, w.db) && PositiveLeases(steps)
    ensures Inv(policy, Exec(policy, w, steps).db)
  {
    LedgerAlwaysAgrees(policy, w, steps);
    LeasesAlwaysWellFormed(policy, w, steps);
  }
}
