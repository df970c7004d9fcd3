/** What a reconciliation with the provider's snapshot leaves of the record, and when it is refused. */
module SnapshotOutcomes {
  import opened Common
  import opened Lifecycle
  import opened BillingModel
  import opened ProviderEvents
  import opened BillingSteps
  import opened BillingHistory

  /** The snapshot asks for cancellation at a period end that it names. */
  predicate Schedules(p: Snapshot) {
    p.cancelAtPeriodEnd && p.periodEnd != None
  }

  /** The snapshot is of a subscription that was cancelled or expired and whose period is over. */
  predicate RanOut(p: Snapshot, now: Time) {
    (p.status == Cancelled || p.status == Expired) && p.periodEnd.Some? && p.periodEnd.value <= now
  }

  /** The snapshot says that the subscription is over. */
  predicate Over(p: Snapshot, now: Time) {
    !Schedules(p) && (p.status == Expired || p.status == Refunded || RanOut(p, now))
  }

  /** The provider calls the subscription active and does not confirm the payment. */
  predicate Unconfirmed(p: Snapshot) {
    !Schedules(p) && p.status == Active && p.latestPayment != Succeeded
  }

  /** Late in paying, with a grace period configured. */
  predicate InGrace(p: Snapshot, graceDays: nat) {
    !Schedules(p) && p.status == PastDue && graceDays > 0
  }

  ghost predicate StatusRead(p: Snapshot, graceDays: nat, now: Time, next: Status) {
    && (!Effective(next) <==> Over(p, now))
    && (next == Refunded <==> !Schedules(p) && p.status == Refunded)
    && (next == Cancelled <==> Schedules(p) || (p.status == Cancelled && !RanOut(p, now)))
    && (next == Incomplete <==> Unconfirmed(p) || (!Schedules(p) && p.status == Incomplete))
    && (next == GracePeriod <==> InGrace(p, graceDays))
    && (next == Active <==> !Schedules(p) && p.status == Active && p.latestPayment == Succeeded)
    && (next in {Pending, PastDue, Suspended, Disputed} ==> next == p.status)
  }

  /** The record after an accepted reconciliation: the snapshot's fields, and what follows from them. */
  ghost predicate RecordRead(p: Snapshot, graceDays: nat, now: Time, s: Subscription, s': Subscription) {
    && s' == s.(status := s'.status, version := s.version + 1, latestPayment := p.latestPayment,
                periodStart := p.periodStart, periodEnd := p.periodEnd, graceEnd := s'.graceEnd,
                cancellation := s'.cancellation, cancelAtPeriodEnd := p.cancelAtPeriodEnd,
                cancelledAt := s'.cancelledAt, endedAt := s'.endedAt, stateVersion := p.stateVersion,
                providerClock := Some(if p.updatedAt.Some? then p.updatedAt.value else now))
    && StatusRead(p, graceDays, now, s'.status)
    && s'.endedAt == (if !Schedules(p) && RanOut(p, now) then p.periodEnd else s.endedAt)
    && s'.graceEnd == (if InGrace(p, graceDays) then Some(now + graceDays * 86_400_000) else None)
    && (s'.cancellation == Scheduled <==> Schedules(p))
    && (s'.cancellation == CancellationDone <==> !Schedules(p) && p.status in {Cancelled, Expired})
    && s'.cancelledAt == if Schedules(p) || p.status == Cancelled || RanOut(p, now) then Some(now) else s.cancelledAt
  }

  /** Refused as ambiguous: the provider does not confirm the payment of a subscription that may be granting. */
  predicate Ambiguous(s: Subscription, p: Snapshot) {
    s.binding.Some? && Unconfirmed(p) && (s.status == Active || s.status == Cancelled)
  }

  /** Nothing to write: the provider's version is known, and status and flag are what they would become. */
  ghost predicate UpToDateWith(s: Subscription, p: Snapshot, graceDays: nat, now: Time) {
    && s.binding.Some? && !Ambiguous(s, p)
    && p.stateVersion.Some? && s.stateVersion == p.stateVersion && s.cancelAtPeriodEnd == p.cancelAtPeriodEnd
    && if p.status == GracePeriod && !Schedules(p) then s.status == GracePeriod
       else StatusRead(p, graceDays, now, s.status)
  }

  // ----- one reconciliation -----

  lemma SnapshotDecides(current: Status, p: Snapshot, graceDays: nat, now: Time)
    ensures StateFromSnapshot(current, p, graceDays, now).Err? <==>
            Unconfirmed(p) && (current == Active || current == Cancelled)
    ensures var d := StateFromSnapshot(current, p, graceDays, now);
            && (d.Err? ==> d.error == AmbiguousPayment)
            && (d.Ok? && (Schedules(p) || p.status != GracePeriod) ==> StatusRead(p, graceDays, now, d.value.next))
            && (d.Ok? && !Schedules(p) && p.status == GracePeriod ==>
                  d.value.next == GracePeriod && d.value.graceEnd.None?)
  {
  }

  lemma StatusReadIsOne(p: Snapshot, graceDays: nat, now: Time, a: Status, b: Status)
    requires StatusRead(p, graceDays, now, a) && StatusRead(p, graceDays, now, b)
    ensures a == b
  {
  }

  lemma ReconcileUpdates(id: SubscriptionId, seen: Subscription, s: Subscription, p: Snapshot, graceDays: nat,
      now: Time)
    requires s == seen.(binding := s.binding) && StateFromSnapshot(seen.status, p, graceDays, now).Ok?
    requires Schedules(p) || p.status != GracePeriod
    ensures var d := StateFromSnapshot(seen.status, p, graceDays, now).value;
            RecordRead(p, graceDays, now, s, Updated(s, ReconcileUpdate(id, seen, p, d, now)))
  {
  }

  /** A snapshot that claims a grace period names no end of it, and is refused. */
  lemma ClaimedGraceIsRefused(db: Db, id: SubscriptionId, seen: Subscription, p: Snapshot, graceDays: nat, now: Time)
    requires !Schedules(p) && p.status == GracePeriod && StateFromSnapshot(seen.status, p, graceDays, now).Ok?
    ensures var d := StateFromSnapshot(seen.status, p, graceDays, now).value;
            ApplyState(db, ReconcileUpdate(id, seen, p, d, now), now).Err?
  {
    hide CommitError, Committed;
  }

  /** What an accepted reconciliation leaves, also when the record was read earlier under the same version. */
  lemma ReconciliationLeaves(db: Db, id: SubscriptionId, seen: Subscription, p: Snapshot, graceDays: nat, now: Time,
      db': Db)
    requires id in db.subscriptions && db.subscriptions[id] == seen.(binding := db.subscriptions[id].binding)
    requires CommitSnapshot(db, id, seen, p, graceDays, now) == Ok(Some(db'))
    ensures id in db'.subscriptions && RecordRead(p, graceDays, now, db.subscriptions[id], db'.subscriptions[id])
    ensures db'.subscriptions == db.subscriptions[id := db'.subscriptions[id]]
    ensures db'.ledger == db.ledger && db'.events == db.events && db'.checkouts == db.checkouts
            && db'.customers == db.customers
  {
    var d := StateFromSnapshot(seen.status, p, graceDays, now).value;
    var u := ReconcileUpdate(id, seen, p, d, now);
    if !Schedules(p) && p.status == GracePeriod {
      ClaimedGraceIsRefused(db, id, seen, p, graceDays, now);
    }
    ApplyShape(db, u, now, db');
    ReconcileUpdates(id, seen, db.subscriptions[id], p, graceDays, now);
    hide ApplyState, StateFromSnapshot, Updated, RecordRead;
  }

  /** When a reconciliation is refused as ambiguous, and when it finds nothing to write. */
  lemma ReconciliationAnswers(db: Db, id: SubscriptionId, s: Subscription, p: Snapshot, graceDays: nat, now: Time)
    ensures CommitSnapshot(db, id, s, p, graceDays, now) == Err(BindingConflict) <==> s.binding.None?
    ensures CommitSnapshot(db, id, s, p, graceDays, now) == Err(AmbiguousPayment) <==> Ambiguous(s, p)
    ensures CommitSnapshot(db, id, s, p, graceDays, now) == Ok(None) <==> UpToDateWith(s, p, graceDays, now)
  {
    SnapshotDecides(s.status, p, graceDays, now);
    var d := StateFromSnapshot(s.status, p, graceDays, now);
    hide StateFromSnapshot;
    if d.Ok? {
      if Schedules(p) || p.status != GracePeriod {
        if StatusRead(p, graceDays, now, s.status) {
          StatusReadIsOne(p, graceDays, now, s.status, d.value.next);
        }
      }
      ApplyErrors(db, ReconcileUpdate(id, s, p, d.value, now), now);
    }
    hide ReconcileUpdate, ApplyState, StatusRead;
  }

  lemma ApplyErrors(db: Db, u: StateUpdate, now: Time)
    ensures ApplyState(db, u, now) != Err(BindingConflict) && ApplyState(db, u, now) != Err(AmbiguousPayment)
  {
    hide Committed, Updated, SubscriptionChecks, PaymentChecks, OwnedRowsCheck, Desired, MaterialisedRows;
  }
}
