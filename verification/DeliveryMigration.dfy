/** Migration 0014: build the attempt ledger for deliveries dispatched before the ledger existed. */
module DeliveryMigration {
  import opened Common
  import opened DeliveryModel
  import opened DeliveryInvariants

  /** The five guards, in order; each looks only at rows whose boundary is crossed. */
  datatype Shape = NoGeneration | ForeignStatus | NoStableCode | DeliveredTooEarly | EndedTooEarly

  const SHAPES: seq<Shape> := [NoGeneration, ForeignStatus, NoStableCode, DeliveredTooEarly, EndedTooEarly]

  predicate Matches(shape: Shape, d: Delivery) {
    && Dispatched(d)
    && match shape
       case NoGeneration => d.claimGeneration == 0
       case ForeignStatus => d.status.Queued? || d.status.Cancelled?
       case NoStableCode =>
         (d.status.Failed? || d.status.Ambiguous?) && (d.failureCode.None? || !StableCode(d.failureCode.value))
       case DeliveredTooEarly =>
         d.status.Delivered?
           && (if d.deliveredAt.Some? then d.deliveredAt.value else d.updatedAt) < d.dispatchStartedAt.value
       case EndedTooEarly => (d.status.Failed? || d.status.Ambiguous?) && d.updatedAt < d.dispatchStartedAt.value
  }

  ghost predicate NoneMatches(deliveries: map<DeliveryId, Delivery>, shape: Shape) {
    forall id :: id in deliveries ==> !Matches(shape, deliveries[id])
  }

  ghost predicate Acceptable(deliveries: map<DeliveryId, Delivery>) {
    forall i :: 0 <= i < |SHAPES| ==> NoneMatches(deliveries, SHAPES[i])
  }

  datatype Result = Migrated(attempts: map<AttemptKey, Attempt>) | Refused(shape: Shape, offending: DeliveryId)

  /** One guard query: some offending row, if there is one. */
  method FindOffending(deliveries: map<DeliveryId, Delivery>, shape: Shape) returns (r: Option<DeliveryId>)
    ensures r.None? ==> NoneMatches(deliveries, shape)
    ensures r.Some? ==> r.value in deliveries && Matches(shape, deliveries[r.value])
  {
    var ids := deliveries.Keys;
    while ids != {}
      invariant ids <= deliveries.Keys
      invariant forall id :: id in deliveries && id !in ids ==> !Matches(shape, deliveries[id])
      decreases ids
    {
      var id :| id in ids;
      if Matches(shape, deliveries[id]) {
        return Some(id);
      }
      ids := ids - {id};
    }
    r := None;
  }

  /** Insert one attempt per dispatched delivery, reconstructed from the columns it already has. */
  method Backfill(deliveries: map<DeliveryId, Delivery>) returns (attempts: map<AttemptKey, Attempt>)
    requires Acceptable(deliveries)
    ensures LedgerAgrees(Database(deliveries, attempts))
  {
    attempts := map[];
    var ids := deliveries.Keys;
    while ids != {}
      invariant ids <= deliveries.Keys
      invariant forall id :: id in deliveries && id !in ids ==> RowAgrees(Database(deliveries, attempts), id)
      invariant forall k :: k in attempts ==> k.delivery !in ids && AttemptBelongs(Database(deliveries, attempts), k)
      decreases ids
    {
      var id :| id in ids;
      var d := deliveries[id];
      if Dispatched(d) {
        GuardsLeaveATruth(deliveries, id);
        var finished := match d.status
          case Sending => None
          case Delivered => if d.deliveredAt.Some? then d.deliveredAt else Some(d.updatedAt)
          case _ => Some(d.updatedAt);
        var code := if d.status.Failed? || d.status.Ambiguous? then d.failureCode else None;
        attempts := attempts[Key(id, d) := Attempt(d.dispatchStartedAt.value, finished, OutcomeOf(d.status), code)];
      }
      ids := ids - {id};
    }
  }

  lemma GuardsLeaveATruth(deliveries: map<DeliveryId, Delivery>, id: DeliveryId)
    requires Acceptable(deliveries) && id in deliveries && Dispatched(deliveries[id])
    ensures var d := deliveries[id];
            && (d.status.Sending? || d.status.Delivered? || d.status.Failed? || d.status.Ambiguous?)
            && d.claimGeneration > 0
            && AttemptShape(TruthfulAttempt(d))
  {
    assert NoneMatches(deliveries, SHAPES[0]) && NoneMatches(deliveries, SHAPES[1])
      && NoneMatches(deliveries, SHAPES[2])
        && NoneMatches(deliveries, SHAPES[3]) && NoneMatches(deliveries, SHAPES[4]);
  }

  /** A guard that matches a row rules out every truthful ledger. */
  lemma MatchLeavesNoTruth(deliveries: map<DeliveryId, Delivery>, shape: Shape, id: DeliveryId,
                           attempts: map<AttemptKey, Attempt>)
    requires id in deliveries && Matches(shape, deliveries[id])
    ensures !LedgerAgrees(Database(deliveries, attempts))
  {
    assert !RowAgrees(Database(deliveries, attempts), id);
  }

  /** Two ledgers that agree with the same deliveries are the same ledger. */
  lemma TruthIsUnique(deliveries: map<DeliveryId, Delivery>, a: map<AttemptKey, Attempt>, b: map<AttemptKey, Attempt>)
    requires LedgerAgrees(Database(deliveries, a)) && LedgerAgrees(Database(deliveries, b))
    ensures a == b
  {
    forall k | k in a ensures k in b && b[k] == a[k] {
      assert AttemptBelongs(Database(deliveries, a), k);
      assert RowAgrees(Database(deliveries, a), k.delivery) && RowAgrees(Database(deliveries, b), k.delivery);
    }
    forall k | k in b ensures k in a {
      assert AttemptBelongs(Database(deliveries, b), k);
      assert RowAgrees(Database(deliveries, a), k.delivery);
    }
  }

  /**
   The upgrade accepts exactly the databases that have a truthful ledger, and it writes that ledger
   (TruthIsUnique: there is no other).
   */
  method Upgrade(deliveries: map<DeliveryId, Delivery>) returns (r: Result)
    ensures r.Migrated? <==> exists attempts :: LedgerAgrees(Database(deliveries, attempts))
    ensures r.Migrated? ==> LedgerAgrees(Database(deliveries, r.attempts))
    ensures r.Refused? ==> r.offending in deliveries && Matches(r.shape, deliveries[r.offending])
  {
    var i := 0;
    while i < |SHAPES|
      invariant 0 <= i <= |SHAPES|
      invariant forall j :: 0 <= j < i ==> NoneMatches(deliveries, SHAPES[j])
    {
      var offending := FindOffending(deliveries, SHAPES[i]);
      if offending.Some? {
        forall attempts ensures !LedgerAgrees(Database(deliveries, attempts)) {
          MatchLeavesNoTruth(deliveries, SHAPES[i], offending.value, attempts);
        }
        return Refused(SHAPES[i], offending.value);
      }
      i := i + 1;
    }
    var attempts := Backfill(deliveries);
    r := Migrated(attempts);
  }
}
