/**
 Whole runs of the delivery protocol.  Any number of workers interleave their transactions with network
 sends, crashes and lease expiries; a step's clock reading is arbitrary unless a theorem says otherwise.

 A committed `Begin` hands its worker one permit.  A send uses a permit up and a crash loses it, so
 `sends` counts the external messages a run can have produced.
 */
module DeliveryProtocol {
  import opened Common
  import opened RetryPolicy
  import opened DeliveryModel
  import opened DeliveryInvariants

  datatype World = World(db: Database, permits: multiset<DeliveryId>, sends: multiset<DeliveryId>)

  datatype Step =
    | AddStep(id: DeliveryId, instruction: Instruction, availableAt: Time, now: Time)
    | RecoverStep(id: DeliveryId, now: Time)
    | ClaimStep(id: DeliveryId, worker: string, token: string, now: Time, expires: Time)
    | BeginStep(claim: DeliveryClaim, now: Time)
    | PersistStep(claim: DeliveryClaim, outcome: Outcome, now: Time)
    | SendStep(id: DeliveryId)
    | CrashStep(id: DeliveryId)

  function Transaction(policy: Policy, db: Database, s: Step): Txn
    requires policy.Valid()
  {
    match s
    case AddStep(id, instruction, availableAt, now) => Add(db, id, instruction, availableAt, now)
    case RecoverStep(id, now) => RecoverOne(policy, db, id, now)
    case ClaimStep(id, worker, token, now, expires) => TryClaim(db, id, worker, token, now, expires)
    case BeginStep(claim, now) => Begin(db, claim, now)
    case PersistStep(claim, outcome, now) => Persist(db, claim, outcome, now)
    case SendStep(_) => Commit(db)
    case CrashStep(_) => Commit(db)
  }

  function Next(policy: Policy, w: World, s: Step): World
    requires policy.Valid()
  {
    var t := Transaction(policy, w.db, s);
    var db' := After(w.db, t);
    match s
    case BeginStep(claim, _) =>
      if t.Commit? then World(db', w.permits + multiset{claim.delivery}, w.sends) else w
    case SendStep(id) =>
      if id in w.permits then World(db', w.permits - multiset{id}, w.sends + multiset{id}) else w
    case CrashStep(id) => World(db', w.permits - multiset{id}, w.sends)
    case _ => w.(db := db')
  }

  function Exec(policy: Policy, w: World, steps: seq<Step>): World
    requires policy.Valid()
  {
    if steps == [] then w
    else Next(policy, Exec(policy, w, steps[..|steps| - 1]), steps[|steps| - 1])
  }

  /** The world before step i. */
  function At(policy: Policy, w: World, steps: seq<Step>, i: nat): World
    requires policy.Valid() && i <= |steps|
  {
    Exec(policy, w, steps[..i])
  }

  lemma AtSucc(policy: Policy, w: World, steps: seq<Step>, i: nat)
    requires policy.Valid() && i < |steps|
    ensures At(policy, w, steps, i + 1) == Next(policy, At(policy, w, steps, i), steps[i])
  {
    assert steps[..i + 1][..i] == steps[..i];
  }

  /** The constructor of the claimer insists on a positive lease. */
  ghost predicate PositiveLeases(steps: seq<Step>) {
    forall i :: 0 <= i < |steps| && steps[i].ClaimStep? ==> steps[i].now < steps[i].expires
  }

  // ---- invariants over runs --------------------------------------------------------------

  lemma StepKeepsLedger(policy: Policy, db: Database, s: Step)
    requires policy.Valid() && LedgerAgrees(db)
    ensures LedgerAgrees(After(db, Transaction(policy, db, s)))
  {
    match s
    case AddStep(id, instruction, availableAt, now) => AddKeeps(policy, db, id, instruction, availableAt, now);
    case RecoverStep(id, now) => RecoverKeepsLedger(policy, db, id, now);
    case ClaimStep(id, worker, token, now, expires) => TryClaimKeeps(policy, db, id, worker, token, now, expires);
    case BeginStep(claim, now) => BeginKeeps(policy, db, claim, now);
    case PersistStep(claim, outcome, now) => PersistKeeps(policy, db, claim, outcome, now);
    case _ =>
  }

  lemma StepKeepsLeases(policy: Policy, db: Database, s: Step)
    requires policy.Valid() && LeasesWellFormed(policy, db)
    requires s.ClaimStep? ==> s.now < s.expires
    ensures LeasesWellFormed(policy, After(db, Transaction(policy, db, s)))
  {
    match s
    case AddStep(id, instruction, availableAt, now) => AddKeeps(policy, db, id, instruction, availableAt, now);
    case RecoverStep(id, now) => RecoverKeepsLeases(policy, db, id, now);
    case ClaimStep(id, worker, token, now, expires) => TryClaimKeeps(policy, db, id, worker, token, now, expires);
    case BeginStep(claim, now) => BeginKeeps(policy, db, claim, now);
    case PersistStep(claim, outcome, now) => PersistKeeps(policy, db, claim, outcome, now);
    case _ =>
  }

  /** Ledger agreement holds in every state of every run. */
  lemma {:induction false} LedgerAlwaysAgrees(policy: Policy, w: World, steps: seq<Step>)
    requires policy.Valid() && LedgerAgrees(w.db)
    ensures LedgerAgrees(Exec(policy, w, steps).db)
  {
    if steps != [] {
      var front := steps[..|steps| - 1];
      LedgerAlwaysAgrees(policy, w, front);
      StepKeepsLedger(policy, Exec(policy, w, front).db, steps[|steps| - 1]);
    }
  }

  lemma {:induction false} LeasesAlwaysWellFormed(policy: Policy, w: World, steps: seq<Step>)
    requires policy.Valid() && LeasesWellFormed(policy, w.db) && PositiveLeases(steps)
    ensures LeasesWellFormed(policy, Exec(policy, w, steps).db)
  {
    if steps != [] {
      var front := steps[..|steps| - 1];
      assert PositiveLeases(front);
      LeasesAlwaysWellFormed(policy, w, front);
      StepKeepsLeases(policy, Exec(policy, w, front).db, steps[|steps| - 1]);
    }
  }

  /** In every reachable state recovery resolves any expired lease: neither error it can raise is reachable. */
  lemma RecoveryNeverFails(policy: Policy, w: World, steps: seq<Step>, id: DeliveryId, now: Time)
    requires policy.Valid() && Inv(policy, w.db) && PositiveLeases(steps)
    ensures RecoverOne(policy, Exec(policy, w, steps).db, id, now).Commit?
  {
    LedgerAlwaysAgrees(policy, w, steps);
    LeasesAlwaysWellFormed(policy, w, steps);
    var db := Exec(policy, w, steps).db;
    if id in db.deliveries {
      assert RowAgrees(db, id);
    }
  }

  /**
   From any truthful ledger, in particular a freshly migrated one, recovery refuses exactly the leases whose
   recorded boundary lies in the future of the reading clock; it never finds the ledger inconsistent.
   */
  lemma RecoveryRefusesExactly(policy: Policy, w: World, steps: seq<Step>, id: DeliveryId, now: Time)
    requires policy.Valid() && LedgerAgrees(w.db)
    ensures var db := Exec(policy, w, steps).db;
            var t := RecoverOne(policy, db, id, now);
            && t != Abort(InconsistentLedger)
            && (t.Abort? <==>
                 Crossed(db, id) && ExpiredClaim(db.deliveries[id], now)
                   && now < db.deliveries[id].dispatchStartedAt.value)
  {
    LedgerAlwaysAgrees(policy, w, steps);
    var db := Exec(policy, w, steps).db;
    if id in db.deliveries {
      assert RowAgrees(db, id);
    }
  }

  // ---- the dispatch boundary -------------------------------------------------------------

  predicate Crossed(db: Database, id: DeliveryId) {
    id in db.deliveries && Dispatched(db.deliveries[id])
  }

  function Mark(b: bool): nat {
    if b then 1 else 0
  }

  predicate Began(policy: Policy, w: World, s: Step, id: DeliveryId)
    requires policy.Valid()
  {
    s.BeginStep? && s.claim.delivery == id && Begin(w.db, s.claim, s.now).Commit?
  }

  /** How many `Begin` transactions of the run committed for this delivery. */
  function Begins(policy: Policy, w: World, steps: seq<Step>, id: DeliveryId): nat
    requires policy.Valid()
  {
    if steps == [] then 0
    else
      var front := steps[..|steps| - 1];
      Begins(policy, w, front, id) + Mark(Began(policy, Exec(policy, w, front), steps[|steps| - 1], id))
  }

  lemma StepCrosses(policy: Policy, w: World, s: Step, id: DeliveryId)
    requires policy.Valid()
    ensures Mark(Crossed(Next(policy, w, s).db, id)) == Mark(Crossed(w.db, id)) + Mark(Began(policy, w, s, id))
  {
  }

  /** The boundary is crossed at most once in a delivery's life: the count is exactly the change of the marker. */
  lemma {:induction false} BoundaryCrossedOnce(policy: Policy, w: World, steps: seq<Step>, id: DeliveryId)
    requires policy.Valid()
    ensures Mark(Crossed(w.db, id)) + Begins(policy, w, steps, id) == Mark(Crossed(Exec(policy, w, steps).db, id))
    ensures Begins(policy, w, steps, id) <= 1
  {
    if steps != [] {
      var front := steps[..|steps| - 1];
      BoundaryCrossedOnce(policy, w, front, id);
      StepCrosses(policy, Exec(policy, w, front), steps[|steps| - 1], id);
    }
  }

  /** Messages sent plus messages still permitted never exceed the one the boundary allows. */
  predicate WithinBudget(w: World, id: DeliveryId) {
    w.sends[id] + w.permits[id] <= Mark(Crossed(w.db, id))
  }

  lemma {:induction false} BudgetKept(policy: Policy, w: World, steps: seq<Step>, id: DeliveryId)
    requires policy.Valid() && WithinBudget(w, id)
    ensures WithinBudget(Exec(policy, w, steps), id)
  {
    if steps != [] {
      var front := steps[..|steps| - 1];
      BudgetKept(policy, w, front, id);
      StepCrosses(policy, Exec(policy, w, front), steps[|steps| - 1], id);
    }
  }

  /** At most one external message per delivery, and none before its durable boundary. */
  lemma AtMostOneSend(policy: Policy, db: Database, steps: seq<Step>, id: DeliveryId)
    requires policy.Valid()
    ensures var w := Exec(policy, World(db, multiset{}, multiset{}), steps);
            && w.sends[id] <= 1
            && (w.sends[id] == 1 ==> Crossed(w.db, id))
  {
    BudgetKept(policy, World(db, multiset{}, multiset{}), steps, id);
  }

  /** What one step can do to a row that already exists. */
  predicate RowMonotone(d: Delivery, d': Delivery) {
    && d'.instruction == d.instruction
    && d'.claimGeneration >= d.claimGeneration
    && d'.attemptCount >= d.attemptCount
    && (Dispatched(d) ==> d'.dispatchStartedAt == d.dispatchStartedAt && d'.claimGeneration == d.claimGeneration)
    && (Terminal(d.status) ==> d' == d)
    && (d'.claimGeneration == d.claimGeneration && d'.status.Sending? ==>
          d.status.Sending? && d'.claimOwner == d.claimOwner && d'.claimToken == d.claimToken
            && d'.claimExpiresAt == d.claimExpiresAt)
  }

  lemma RecoverMonotone(policy: Policy, db: Database, id: DeliveryId, now: Time)
    requires policy.Valid() && id in db.deliveries
    ensures RowMonotone(db.deliveries[id], After(db, RecoverOne(policy, db, id, now)).deliveries[id])
  {
  }

  lemma PersistMonotone(db: Database, claim: DeliveryClaim, o: Outcome, now: Time)
    requires claim.delivery in db.deliveries
    ensures RowMonotone(db.deliveries[claim.delivery], After(db, Persist(db, claim, o, now)).deliveries[claim.delivery])
  {
  }

  lemma StepMonotone(policy: Policy, w: World, s: Step, id: DeliveryId)
    requires policy.Valid() && LedgerAgrees(w.db) && id in w.db.deliveries
    ensures id in Next(policy, w, s).db.deliveries
    ensures RowMonotone(w.db.deliveries[id], Next(policy, w, s).db.deliveries[id])
  {
    match s
    case RecoverStep(target, now) => if target == id { RecoverMonotone(policy, w.db, id, now); }
    case PersistStep(claim, outcome, now) => if claim.delivery == id { PersistMonotone(w.db, claim, outcome, now); }
    case ClaimStep(target, _, _, _, _) => assert RowAgrees(w.db, id);
    case _ =>
  }

  /**
   Between any two states of a run a delivery keeps its instruction, its fence only moves forward, a crossed
   boundary stays crossed at the same instant, and a terminal row is never touched again.
   */
  lemma {:induction false} RowsOnlyAdvance(policy: Policy, w: World, steps: seq<Step>, id: DeliveryId)
    requires policy.Valid() && LedgerAgrees(w.db) && id in w.db.deliveries
    ensures id in Exec(policy, w, steps).db.deliveries
    ensures RowMonotone(w.db.deliveries[id], Exec(policy, w, steps).db.deliveries[id])
  {
    if steps != [] {
      var front := steps[..|steps| - 1];
      RowsOnlyAdvance(policy, w, front, id);
      LedgerAlwaysAgrees(policy, w, front);
      StepMonotone(policy, Exec(policy, w, front), steps[|steps| - 1], id);
    }
  }

  /** A crossed boundary is never followed by QUEUED, so nothing can ever resend. */
  lemma NeverQueuedAgain(policy: Policy, w: World, steps: seq<Step>, id: DeliveryId)
    requires policy.Valid() && LedgerAgrees(w.db) && Crossed(w.db, id)
    ensures Crossed(Exec(policy, w, steps).db, id)
    ensures !Exec(policy, w, steps).db.deliveries[id].status.Queued?
  {
    RowsOnlyAdvance(policy, w, steps, id);
    LedgerAlwaysAgrees(policy, w, steps);
    assert RowAgrees(Exec(policy, w, steps).db, id);
  }

  // ---- fencing ---------------------------------------------------------------------------

  /** A worker whose claim is not active changes neither the delivery nor the ledger. */
  lemma StaleWorkerWritesNothing(db: Database, claim: DeliveryClaim, o: Outcome, now: Time)
    requires !ActiveClaim(db, claim, now)
    ensures Begin(db, claim, now).Abort? && Persist(db, claim, o, now).Abort?
  {
  }

  /**
   Once a claim has lapsed or been superseded it is fenced out for good: whatever happens next, it is
   inactive at every later clock reading.
   */
  lemma FencedForever(policy: Policy, w: World, steps: seq<Step>, claim: DeliveryClaim, now: Time, later: Time)
    requires policy.Valid() && LedgerAgrees(w.db)
    requires claim.delivery in w.db.deliveries && claim.generation <= w.db.deliveries[claim.delivery].claimGeneration
    requires !ActiveClaim(w.db, claim, now) && now <= later
    ensures !ActiveClaim(Exec(policy, w, steps).db, claim, later)
  {
    RowsOnlyAdvance(policy, w, steps, claim.delivery);
  }

  // ---- bounded recovery ------------------------------------------------------------------

  predicate Claimed(policy: Policy, w: World, s: Step, id: DeliveryId)
    requires policy.Valid()
  {
    s.ClaimStep? && s.id == id && Transaction(policy, w.db, s).Commit?
  }

  function Claims(policy: Policy, w: World, steps: seq<Step>, id: DeliveryId): nat
    requires policy.Valid()
  {
    if steps == [] then 0
    else
      var front := steps[..|steps| - 1];
      Claims(policy, w, front, id) + Mark(Claimed(policy, Exec(policy, w, front), steps[|steps| - 1], id))
  }

  function AttemptCount(db: Database, id: DeliveryId): nat {
    if id in db.deliveries then db.deliveries[id].attemptCount else 0
  }

  lemma StepCounts(policy: Policy, w: World, s: Step, id: DeliveryId)
    requires policy.Valid()
    ensures AttemptCount(Next(policy, w, s).db, id) == AttemptCount(w.db, id) + Mark(Claimed(policy, w, s, id))
  {
  }

  lemma {:induction false} ClaimsAreCounted(policy: Policy, w: World, steps: seq<Step>, id: DeliveryId)
    requires policy.Valid()
    ensures AttemptCount(w.db, id) + Claims(policy, w, steps, id) == AttemptCount(Exec(policy, w, steps).db, id)
  {
    if steps != [] {
      var front := steps[..|steps| - 1];
      ClaimsAreCounted(policy, w, front, id);
      StepCounts(policy, Exec(policy, w, front), steps[|steps| - 1], id);
    }
  }

  /** A delivery is claimed at most max_attempts times in its whole life. */
  lemma ClaimsBounded(policy: Policy, w: World, steps: seq<Step>, id: DeliveryId)
    requires policy.Valid() && LeasesWellFormed(policy, w.db) && PositiveLeases(steps)
    ensures Claims(policy, w, steps, id) <= policy.maxAttempts
  {
    ClaimsAreCounted(policy, w, steps, id);
    LeasesAlwaysWellFormed(policy, w, steps);
  }

  /** Step i of the run puts an expired delivery back in the queue. */
  predicate Requeues(policy: Policy, w: World, steps: seq<Step>, i: nat, id: DeliveryId)
    requires policy.Valid()
  {
    && i < |steps|
    && steps[i].RecoverStep? && steps[i].id == id
    && var db := At(policy, w, steps, i).db;
       && id in db.deliveries && db.deliveries[id].status.Sending?
       && var db' := At(policy, w, steps, i + 1).db; id in db'.deliveries && db'.deliveries[id].status.Queued?
  }

  function RequeueDelay(policy: Policy, w: World, steps: seq<Step>, i: nat, id: DeliveryId): Time
    requires policy.Valid() && Requeues(policy, w, steps, i, id)
  {
    At(policy, w, steps, i + 1).db.deliveries[id].availableAt - steps[i].now
  }

  lemma RequeueDelayIs(policy: Policy, w: World, steps: seq<Step>, i: nat, id: DeliveryId)
    requires policy.Valid() && LeasesWellFormed(policy, w.db) && PositiveLeases(steps)
    requires Requeues(policy, w, steps, i, id)
    ensures var n := AttemptCount(At(policy, w, steps, i).db, id);
            n >= 1 && RequeueDelay(policy, w, steps, i, id) == policy.ComputeDelay(n + 1)
  {
    AtSucc(policy, w, steps, i);
    LeasesAlwaysWellFormed(policy, w, steps[..i]);
  }

  /** Successive requeues of one delivery back off monotonically between base_delay and max_delay. */
  lemma BackoffNeverShrinks(policy: Policy, w: World, steps: seq<Step>, i: nat, j: nat, id: DeliveryId)
    requires policy.Valid() && Inv(policy, w.db) && PositiveLeases(steps)
    requires i < j && Requeues(policy, w, steps, i, id) && Requeues(policy, w, steps, j, id)
    ensures policy.baseDelay <= RequeueDelay(policy, w, steps, i, id)
    ensures RequeueDelay(policy, w, steps, i, id) <= RequeueDelay(policy, w, steps, j, id) <= policy.maxDelay
  {
    RequeueDelayIs(policy, w, steps, i, id);
    RequeueDelayIs(policy, w, steps, j, id);
    AttemptsOnlyGrow(policy, w, steps, i, j, id);
    var m, n := AttemptCount(At(policy, w, steps, i).db, id), AttemptCount(At(policy, w, steps, j).db, id);
    DelaysGrowWithinBounds(policy, m + 1, n + 1);
  }

  lemma {:induction false} AttemptsOnlyGrow(policy: Policy, w: World, steps: seq<Step>, i: nat, j: nat, id: DeliveryId)
    requires policy.Valid() && i <= j <= |steps|
    ensures AttemptCount(At(policy, w, steps, i).db, id) <= AttemptCount(At(policy, w, steps, j).db, id)
    decreases j
  {
    if i < j {
      AttemptsOnlyGrow(policy, w, steps, i, j - 1, id);
      AtSucc(policy, w, steps, j - 1);
      StepCounts(policy, At(policy, w, steps, j - 1), steps[j - 1], id);
    }
  }
}
