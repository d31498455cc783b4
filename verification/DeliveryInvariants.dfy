/** What every delivery transaction keeps: the ledger tells the truth about the dispatch boundary. */
module DeliveryInvariants {
  import opened Common
  import opened RetryPolicy
  import opened DeliveryModel

  /** When a delivery's crossing ended, as its own columns record it. */
  function FinishedAt(d: Delivery): Option<Time> {
    match d.status
    case Sending => None
    case Delivered => if d.deliveredAt.Some? then d.deliveredAt else Some(d.updatedAt)
    case _ => Some(d.updatedAt)
  }

  /** The one ledger row that tells the truth about a crossed boundary. */
  function TruthfulAttempt(d: Delivery): Attempt
    requires Dispatched(d) && (d.status.Sending? || d.status.Delivered? || d.status.Failed? || d.status.Ambiguous?)
  {
    Attempt(
      d.dispatchStartedAt.value,
      FinishedAt(d),
      OutcomeOf(d.status),
      if d.status.Failed? || d.status.Ambiguous? then d.failureCode else None)
  }

  /** A crossed boundary has exactly its own ledger row, and that row mirrors the delivery. */
  predicate RowAgrees(db: Database, id: DeliveryId)
    requires id in db.deliveries
  {
    var d := db.deliveries[id];
    Dispatched(d) ==>
      && (d.status.Sending? || d.status.Delivered? || d.status.Failed? || d.status.Ambiguous?)
      && d.claimGeneration > 0
      && Key(id, d) in db.attempts
      && db.attempts[Key(id, d)] == TruthfulAttempt(d)
      && AttemptShape(TruthfulAttempt(d))
  }

  /** No other rows exist: an attempt belongs to a dispatched delivery and to its current generation. */
  predicate AttemptBelongs(db: Database, k: AttemptKey)
    requires k in db.attempts
  {
    && k.delivery in db.deliveries
    && Dispatched(db.deliveries[k.delivery])
    && k.generation == db.deliveries[k.delivery].claimGeneration
  }

  ghost predicate LedgerAgrees(db: Database) {
    && (forall id :: id in db.deliveries ==> RowAgrees(db, id))
    && (forall k :: k in db.attempts ==> AttemptBelongs(db, k))
  }

  /** Lease bookkeeping of one row under a retry policy. */
  predicate LeaseShape(policy: Policy, d: Delivery) {
    && d.attemptCount <= policy.maxAttempts
    && (d.status.Queued? ==> d.attemptCount < policy.maxAttempts && !Dispatched(d) && d.failureCode.None?)
    && (d.status.Delivered? ==> Dispatched(d))
    && (d.status.Sending? ==>
          && d.claimOwner.Some? && d.claimToken.Some? && d.claimExpiresAt.Some?
          && d.attemptCount >= 1 && d.claimGeneration >= 1 && d.failureCode.None?
          && (Dispatched(d) ==> d.dispatchStartedAt.value < d.claimExpiresAt.value))
  }

  ghost predicate LeasesWellFormed(policy: Policy, db: Database) {
    forall id :: id in db.deliveries ==> LeaseShape(policy, db.deliveries[id])
  }

  ghost predicate Inv(policy: Policy, db: Database) {
    LedgerAgrees(db) && LeasesWellFormed(policy, db)
  }

  lemma AddKeeps(policy: Policy, db: Database, id: DeliveryId, instruction: Instruction, availableAt: Time, now: Time)
    requires policy.Valid()
    ensures LedgerAgrees(db) ==> LedgerAgrees(After(db, Add(db, id, instruction, availableAt, now)))
    ensures LeasesWellFormed(policy, db) ==>
            LeasesWellFormed(policy, After(db, Add(db, id, instruction, availableAt, now)))
  {
  }

  lemma TryClaimKeeps(policy: Policy, db: Database, id: DeliveryId, worker: string, token: string, now: Time,
                      expires: Time)
    requires policy.Valid()
    ensures LedgerAgrees(db) ==> LedgerAgrees(After(db, TryClaim(db, id, worker, token, now, expires)))
    ensures LeasesWellFormed(policy, db) && now < expires
            ==> LeasesWellFormed(policy, After(db, TryClaim(db, id, worker, token, now, expires)))
  {
  }

  lemma RecoverKeepsLedger(policy: Policy, db: Database, id: DeliveryId, now: Time)
    requires policy.Valid() && LedgerAgrees(db)
    ensures LedgerAgrees(After(db, RecoverOne(policy, db, id, now)))
  {
    var db' := After(db, RecoverOne(policy, db, id, now));
    if id in db.deliveries && ExpiredClaim(db.deliveries[id], now) {
      assert RowAgrees(db, id);
      assert StableCode(LEASE_EXPIRED_AFTER_DISPATCH);
      assert RowAgrees(db', id);
      forall other | other in db'.deliveries && other != id ensures RowAgrees(db', other) {
        assert RowAgrees(db, other);
      }
      forall k | k in db'.attempts ensures AttemptBelongs(db', k) {
        assert AttemptBelongs(db, k);
      }
    }
  }

  lemma RecoverKeepsLeases(policy: Policy, db: Database, id: DeliveryId, now: Time)
    requires policy.Valid() && LeasesWellFormed(policy, db)
    ensures LeasesWellFormed(policy, After(db, RecoverOne(policy, db, id, now)))
  {
  }

  lemma BeginKeeps(policy: Policy, db: Database, claim: DeliveryClaim, now: Time)
    ensures LedgerAgrees(db) ==> LedgerAgrees(After(db, Begin(db, claim, now)))
    ensures LeasesWellFormed(policy, db) ==> LeasesWellFormed(policy, After(db, Begin(db, claim, now)))
  {
  }

  lemma PersistKeeps(policy: Policy, db: Database, claim: DeliveryClaim, o: Outcome, now: Time)
    ensures LedgerAgrees(db) ==> LedgerAgrees(After(db, Persist(db, claim, o, now)))
    ensures LeasesWellFormed(policy, db) ==> LeasesWellFormed(policy, After(db, Persist(db, claim, o, now)))
  {
  }
}
