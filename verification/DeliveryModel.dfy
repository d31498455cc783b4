/**
 The rows of the outbound delivery protocol and its transactions as functions of the database
 (delivery_lifecycle.py over the fenced updates of the delivery and attempt repositories).

 Every transaction either commits a new database or reports why nothing was written.
 */
module DeliveryModel {
  import opened Common
  import opened RetryPolicy

  type DeliveryId = nat

  datatype Status = Queued | Sending | Delivered | Failed | Ambiguous | Cancelled

  /** The frozen part of a delivery: no transaction may retarget it. */
  datatype Instruction = Instruction(routeId: string, routeFingerprint: string, subject: Option<string>, body: string)

  datatype Delivery = Delivery(
    instruction: Instruction,
    status: Status,
    availableAt: Time,
    attemptCount: nat,
    claimOwner: Option<string>,
    claimToken: Option<string>,
    claimGeneration: nat,
    claimExpiresAt: Option<Time>,
    failureCode: Option<string>,
    updatedAt: Time,
    deliveredAt: Option<Time>,
    dispatchStartedAt: Option<Time>)

  datatype AttemptOutcome = InProgress | AttemptDelivered | AttemptFailed | AttemptAmbiguous

  datatype Attempt = Attempt(startedAt: Time, finishedAt: Option<Time>, outcome: AttemptOutcome,
    failureCode: Option<string>)

  /** UNIQUE(delivery_id, claim_generation) makes this pair the ledger's key. */
  datatype AttemptKey = AttemptKey(delivery: DeliveryId, generation: nat)

  datatype Database = Database(deliveries: map<DeliveryId, Delivery>, attempts: map<AttemptKey, Attempt>)

  /** Proof of ownership handed to a worker by a successful claim. */
  datatype DeliveryClaim = DeliveryClaim(delivery: DeliveryId, worker: string, token: string, generation: nat)

  datatype Error = ClaimLost | InvalidTransition | ValidationError | InconsistentLedger | ConstraintViolation

  datatype Txn = Commit(db: Database) | Abort(error: Error)

  /** What a rolled back or committed transaction leaves behind. */
  function After(db: Database, t: Txn): Database {
    if t.Commit? then t.db else db
  }

  const PRE_DISPATCH_ATTEMPTS_EXHAUSTED := "delivery_pre_dispatch_attempts_exhausted"
  const LEASE_EXPIRED_AFTER_DISPATCH := "delivery_lease_expired_after_dispatch"
  const MAX_FAILURE_CODE_LENGTH := 128
  const MAX_FAILURE_MESSAGE_LENGTH := 2048

  /** A stable lowercase failure code: 1..128 characters of [a-z0-9_]. */
  predicate StableCode(code: string) {
    && 1 <= |code| <= MAX_FAILURE_CODE_LENGTH
    && forall i :: 0 <= i < |code| ==> 'a' <= code[i] <= 'z' || '0' <= code[i] <= '9' || code[i] == '_'
  }

  /** Non-blank text of at most `maximum` characters. */
  predicate Bounded(text: string, maximum: nat) {
    && |text| <= maximum
    && exists i :: 0 <= i < |text| && text[i] !in {' ', '\t', '\n', '\r'}
  }

  predicate Dispatched(d: Delivery) {
    d.dispatchStartedAt.Some?
  }

  predicate Terminal(s: Status) {
    s.Delivered? || s.Failed? || s.Ambiguous? || s.Cancelled?
  }

  /** The attempt outcome that carries the same name as a post-dispatch status. */
  function OutcomeOf(s: Status): AttemptOutcome
    requires s.Sending? || s.Delivered? || s.Failed? || s.Ambiguous?
  {
    match s
    case Sending => InProgress
    case Delivered => AttemptDelivered
    case Failed => AttemptFailed
    case Ambiguous => AttemptAmbiguous
  }

  /** Which (outcome, finished_at, failure_code) triples the ledger may hold. */
  predicate AttemptShape(a: Attempt) {
    match a.outcome
    case InProgress => a.finishedAt.None? && a.failureCode.None?
    case AttemptDelivered => a.finishedAt.Some? && a.finishedAt.value >= a.startedAt && a.failureCode.None?
    case _ =>
      && a.finishedAt.Some? && a.finishedAt.value >= a.startedAt
      && a.failureCode.Some? && StableCode(a.failureCode.value)
  }

  // ---- fences ----------------------------------------------------------------------------

  predicate Owns(d: Delivery, claim: DeliveryClaim) {
    && d.status.Sending?
    && d.claimOwner == Some(claim.worker)
    && d.claimToken == Some(claim.token)
    && d.claimGeneration == claim.generation
  }

  predicate ActiveClaim(db: Database, claim: DeliveryClaim, now: Time) {
    && claim.delivery in db.deliveries
    && var d := db.deliveries[claim.delivery];
       Owns(d, claim) && d.claimExpiresAt.Some? && d.claimExpiresAt.value > now
  }

  predicate ExpiredClaim(d: Delivery, now: Time) {
    d.status.Sending? && d.claimExpiresAt.Some? && d.claimExpiresAt.value <= now
  }

  predicate Due(d: Delivery, now: Time) {
    d.status.Queued? && d.availableAt <= now
  }

  // ---- transactions ----------------------------------------------------------------------

  function NewDelivery(instruction: Instruction, availableAt: Time, now: Time): Delivery {
    Delivery(instruction, Queued, availableAt, 0, None, None, 0, None, None, now, None, None)
  }

  function Add(db: Database, id: DeliveryId, instruction: Instruction, availableAt: Time, now: Time): Txn {
    if id in db.deliveries then Abort(ConstraintViolation)
    else Commit(db.(deliveries := db.deliveries[id := NewDelivery(instruction, availableAt, now)]))
  }

  /** One fenced UPDATE: a due QUEUED row moves to SENDING under a new generation. */
  function TryClaim(db: Database, id: DeliveryId, worker: string, token: string, now: Time, expires: Time): Txn {
    if id !in db.deliveries || !Due(db.deliveries[id], now) then Abort(ClaimLost)
    else
      var d := db.deliveries[id];
      Commit(db.(deliveries := db.deliveries[id := d.(
        status := Sending,
        claimOwner := Some(worker),
        claimToken := Some(token),
        claimGeneration := d.claimGeneration + 1,
        claimExpiresAt := Some(expires),
        attemptCount := d.attemptCount + 1,
        updatedAt := now)]))
  }

  function Released(d: Delivery, status: Status, now: Time): Delivery {
    d.(status := status, claimOwner := None, claimToken := None, claimExpiresAt := None, updatedAt := now)
  }

  function Key(id: DeliveryId, d: Delivery): AttemptKey {
    AttemptKey(id, d.claimGeneration)
  }

  /** The ledger row a terminal write for this delivery would close. */
  predicate HasOpenAttempt(db: Database, id: DeliveryId, d: Delivery) {
    Key(id, d) in db.attempts && db.attempts[Key(id, d)].outcome.InProgress?
  }

  function Closed(a: Attempt, outcome: AttemptOutcome, code: Option<string>, now: Time): Attempt {
    a.(outcome := outcome, finishedAt := Some(now), failureCode := code)
  }

  /** Resolve one expired lease.  `Commit(db)` with an unchanged database when the row is not expired. */
  function RecoverOne(policy: Policy, db: Database, id: DeliveryId, now: Time): Txn
    requires policy.Valid()
  {
    if id !in db.deliveries || !ExpiredClaim(db.deliveries[id], now) then Commit(db)
    else
      var d := db.deliveries[id];
      if Dispatched(d) then
        if HasOpenAttempt(db, id, d) && now < db.attempts[Key(id, d)].startedAt then Abort(ValidationError)
        else if !HasOpenAttempt(db, id, d) then Abort(InconsistentLedger)
        else Commit(Database(
          db.deliveries[id := Released(d, Ambiguous, now).(failureCode := Some(LEASE_EXPIRED_AFTER_DISPATCH))],
          var closed := Closed(db.attempts[Key(id, d)], AttemptAmbiguous, Some(LEASE_EXPIRED_AFTER_DISPATCH), now);
          db.attempts[Key(id, d) := closed]))
      else if d.attemptCount < policy.maxAttempts then
        var availableAt := now + policy.ComputeDelay(d.attemptCount + 1);
        Commit(db.(deliveries := db.deliveries[id := Released(d, Queued, now).(availableAt := availableAt)]))
      else
        Commit(db.(deliveries := db.deliveries[
          id := Released(d, Failed, now).(failureCode := Some(PRE_DISPATCH_ATTEMPTS_EXHAUSTED))]))
  }

  /** Cross the dispatch boundary and open its ledger row, both or neither. */
  function Begin(db: Database, claim: DeliveryClaim, now: Time): Txn {
    if !ActiveClaim(db, claim, now) || Dispatched(db.deliveries[claim.delivery]) then Abort(ClaimLost)
    else
      var d := db.deliveries[claim.delivery];
      // the ledger's UNIQUE key and its CHECK (claim_generation > 0)
      if Key(claim.delivery, d) in db.attempts || d.claimGeneration == 0 then Abort(ConstraintViolation)
      else Commit(Database(
        db.deliveries[claim.delivery := d.(dispatchStartedAt := Some(now), updatedAt := now)],
        db.attempts[Key(claim.delivery, d) := Attempt(now, None, InProgress, None)]))
  }

  datatype Outcome =
    | Deliver
    | Fail(code: string, message: string)
    | MarkAmbiguous(code: string, message: string)
    | MarkRouteAmbiguous(code: string, message: string)

  predicate OutcomeTextValid(o: Outcome) {
    o.Deliver? || (Bounded(o.code, MAX_FAILURE_CODE_LENGTH) && Bounded(o.message, MAX_FAILURE_MESSAGE_LENGTH))
  }

  function Transitioned(d: Delivery, o: Outcome, now: Time): Delivery {
    match o
    case Deliver => d.(status := Delivered, deliveredAt := Some(now), updatedAt := now)
    case Fail(code, _) => d.(status := Failed, failureCode := Some(code), updatedAt := now)
    case MarkAmbiguous(code, _) => d.(status := Ambiguous, failureCode := Some(code), updatedAt := now)
    case MarkRouteAmbiguous(code, _) => d.(status := Ambiguous, failureCode := Some(code), updatedAt := now)
  }

  /** The shape check that precedes every terminal ledger write. */
  predicate TerminalWriteValid(db: Database, id: DeliveryId, d: Delivery, outcome: AttemptOutcome,
                               code: Option<string>, now: Time)
  {
    var started := if HasOpenAttempt(db, id, d) then db.attempts[Key(id, d)].startedAt else now;
    AttemptShape(Attempt(started, Some(now), outcome, code))
  }

  /** Persist a worker's outcome under its exact claim. */
  function Persist(db: Database, claim: DeliveryClaim, o: Outcome, now: Time): Txn {
    if claim.delivery !in db.deliveries || !Owns(db.deliveries[claim.delivery], claim) then Abort(ClaimLost)
    else
      var d := db.deliveries[claim.delivery];
      if (o.Deliver? || o.MarkAmbiguous?) && !Dispatched(d) then Abort(InvalidTransition)
      else if !OutcomeTextValid(o) then Abort(ValidationError)
      else
        var d' := Transitioned(d, o, now);
        if !Dispatched(d) then
          if ActiveClaim(db, claim, now) then Commit(db.(deliveries := db.deliveries[claim.delivery := d']))
             else Abort(ClaimLost)
        else if !TerminalWriteValid(db, claim.delivery, d, OutcomeOf(d'.status), d'.failureCode, now)
          then Abort(ValidationError)
        else if !HasOpenAttempt(db, claim.delivery, d) || !ActiveClaim(db, claim, now) then Abort(ClaimLost)
        else
          var k := Key(claim.delivery, d);
          Commit(Database(
            db.deliveries[claim.delivery := d'],
            db.attempts[k := Closed(db.attempts[k], OutcomeOf(d'.status), d'.failureCode, now)]))
  }
}
