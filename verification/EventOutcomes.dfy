/** What an accepted provider event leaves of its subscription's record, of the ledger and of the event itself. */
module EventOutcomes {
  import opened Common
  import opened Lifecycle
  import opened BillingModel
  import opened ProviderEvents
  import opened BillingSteps
  import opened BillingHistory
  import opened BillingInvariants
  import opened BillingTheorems
  import Effects = EventEffects

  // ----- the record -----

  predicate FullRefund(e: Event) {
    e.kind.RefundedEvent? && e.kind.full
  }

  /** The dispute was won: the provider says that the subscription is active and paid. */
  predicate Restores(e: Event, p: Snapshot) {
    e.kind.DisputeResolved? && p.status.Active? && p.latestPayment.Succeeded?
  }

  /** No payment of the subscription was ever reported. */
  predicate NeverPaid(status: Status) {
    status == Pending || status == Incomplete
  }

  /** Which event leads to which status.  A pending event only marks that the checkout has begun. */
  ghost predicate StatusLeft(e: Event, p: Snapshot, graceDays: nat, s: Subscription, next: Status) {
    if e.kind.PendingEvent? then next == if s.status == Pending then Incomplete else s.status
    else
      && (next == Refunded <==> FullRefund(e))
      && (next == Expired <==> e.kind.ExpiredNow?)
      && (next == Cancelled <==> e.kind.CancelScheduled? || e.kind.CancelledNow?)
      && (next == Disputed <==> e.kind.DisputedEvent?)
      && (next == Active <==> e.kind.Paid? || Restores(e, p))
      && (next == Incomplete <==> e.kind.PaymentFailed? && NeverPaid(s.status))
      && (next == GracePeriod <==>
          e.kind.GraceStarted? || (e.kind.PaymentFailed? && !NeverPaid(s.status) && graceDays > 0))
      && (next == Suspended <==>
          || (e.kind.PaymentFailed? && !NeverPaid(s.status) && graceDays == 0)
          || (e.kind.DisputeResolved? && !Restores(e, p)))
  }

  ghost predicate PaymentLeft(e: Event, p: Snapshot, before: PaymentStatus, after: PaymentStatus) {
    && (e.kind.PendingEvent? ==> after == AwaitingPayment)
    && (e.kind.Paid? ==> after == Succeeded)
    && (e.kind.PaymentFailed? || e.kind.GraceStarted? ==> after == Failed)
    && (e.kind.RefundedEvent? ==> after == PaymentRefunded)
    && (e.kind.DisputedEvent? ==> after == PaymentDisputed)
    && (e.kind.DisputeResolved? ==> after == p.latestPayment)
    && (e.kind.CancelScheduled? || e.kind.CancelledNow? || e.kind.ExpiredNow? ==> after == before)
  }

  /** The instant at which the event says the subscription is over, if it says so. */
  function OverAt(e: Event): Option<Time> {
    match e.kind
    case CancelledNow(at) => Some(at)
    case ExpiredNow(at) => Some(at)
    case RefundedEvent(_, _, _) => Some(e.occurredAt)
    case _ => None
  }

  /** A subscription that is over has its period cut there and is recorded as ended; nothing else records an end. */
  ghost predicate PeriodLeft(e: Event, p: Snapshot, s: Subscription, s': Subscription) {
    && (OverAt(e).Some? ==> s'.periodEnd == s'.endedAt == OverAt(e) && s'.periodStart == s.periodStart)
    && (OverAt(e).None? ==> s'.endedAt == s.endedAt)
    && (e.kind.Paid? ==> s'.periodStart == Some(e.kind.periodStart) && s'.periodEnd == Some(e.kind.periodEnd))
    && (e.kind.CancelScheduled? ==> s'.periodStart == s.periodStart && s'.periodEnd == Some(e.kind.periodEnd))
    && (e.kind.DisputeResolved? ==>
          && s'.periodStart == (if p.periodStart.Some? then p.periodStart else s.periodStart)
          && s'.periodEnd == (if p.periodEnd.Some? then p.periodEnd else s.periodEnd))
    && (e.kind.PendingEvent? || e.kind.PaymentFailed? || e.kind.GraceStarted? || e.kind.DisputedEvent? ==>
          s'.periodStart == s.periodStart && s'.periodEnd == s.periodEnd)
  }

  ghost predicate GraceLeft(e: Event, graceDays: nat, s: Subscription, s': Subscription) {
    && (e.kind.Paid? ==> s'.graceEnd == None)
    && (e.kind.GraceStarted? ==> s'.graceEnd == Some(e.kind.graceEndsAt))
    && (e.kind.PaymentFailed? && s'.status == GracePeriod ==>
          s'.graceEnd == Some(e.occurredAt + graceDays * 86_400_000))
    && (!e.kind.Paid? && s'.status != GracePeriod ==> s'.graceEnd == s.graceEnd)
    && (e.kind.PendingEvent? ==> s'.graceEnd == s.graceEnd)
  }

  /** A payment takes a cancellation back, a cancellation is dated by its event, an expiry leaves the date alone. */
  ghost predicate CancellationLeft(e: Event, s: Subscription, s': Subscription) {
    && s'.cancellation == (if e.kind.CancelScheduled? then Scheduled
                           else if e.kind.CancelledNow? || e.kind.ExpiredNow? then CancellationDone
                           else if e.kind.Paid? then NotCancelling else s.cancellation)
    && s'.cancelledAt == (if e.kind.CancelScheduled? || e.kind.CancelledNow? then Some(e.occurredAt)
                          else s.cancelledAt)
    && s'.cancelAtPeriodEnd == if e.kind.Paid? || e.kind.CancelScheduled? || e.kind.CancelledNow? || e.kind.ExpiredNow?
                               then e.kind.CancelScheduled? else s.cancelAtPeriodEnd
  }

  /** The whole record after the event: identity and binding stay, the version is the next one. */
  ghost predicate RecordLeft(e: Event, p: Snapshot, graceDays: nat, s: Subscription, s': Subscription) {
    && s' == s.(status := s'.status, version := s.version + 1, latestPayment := s'.latestPayment,
                periodStart := s'.periodStart, periodEnd := s'.periodEnd, graceEnd := s'.graceEnd,
                cancellation := s'.cancellation, cancelAtPeriodEnd := s'.cancelAtPeriodEnd,
                cancelledAt := s'.cancelledAt, endedAt := s'.endedAt, stateVersion := s'.stateVersion,
                providerClock := Some(e.occurredAt))
    && s'.stateVersion == (if e.stateVersion.Some? then e.stateVersion else s.stateVersion)
    && StatusLeft(e, p, graceDays, s, s'.status) && PaymentLeft(e, p, s.latestPayment, s'.latestPayment)
    && PeriodLeft(e, p, s, s') && GraceLeft(e, graceDays, s, s') && CancellationLeft(e, s, s')
  }

  // ----- the ledger and the event -----

  /** The event reports money that moved. */
  predicate MovesMoney(e: Event) {
    PaidWithAmount(e) || e.kind.RefundedEvent? || e.kind.DisputedEvent? || e.kind.DisputeResolved?
  }

  function Money(e: Event): (nat, Currency)
    requires MovesMoney(e)
  {
    match e.kind
    case Paid(_, _, _, amount, currency) => (amount.value, currency.value)
    case RefundedEvent(_, amount, currency) => (amount, currency)
    case DisputedEvent(amount, currency) => (amount, currency)
    case DisputeResolved(amount, currency) => (amount, currency)
  }

  predicate StatusOfRow(e: Event, status: PaymentStatus) {
    && (status == Succeeded <==> e.kind.Paid?)
    && (status == PaymentRefunded <==> FullRefund(e))
    && (status == PartiallyRefunded <==> PartialRefundEvent(e))
    && (status == PaymentDisputed <==> e.kind.DisputedEvent?)
    && (status == Reversed <==> e.kind.DisputeResolved?)
  }

  /** A payment is the initial one if it is no renewal and the subscription had no successful payment. */
  predicate KindOfRow(e: Event, paidBefore: bool, kind: PaymentKind) {
    && (kind == Initial <==> e.kind.Paid? && !e.kind.renewed && !paidBefore)
    && (kind == Renewal <==> e.kind.Paid? && (e.kind.renewed || paidBefore))
    && (kind == Refund <==> FullRefund(e))
    && (kind == PartialRefund <==> PartialRefundEvent(e))
    && (kind == Chargeback <==> e.kind.DisputedEvent?)
    && (kind == Reversal <==> e.kind.DisputeResolved?)
  }

  /** Each kind of event dates its own instant of the row. */
  predicate InstantsOfRow(e: Event, before: Option<Payment>, row: Payment) {
    && row.paidAt == (if e.kind.Paid? then Some(e.occurredAt) else if before.Some? then before.value.paidAt else None)
    && row.refundedAt == (if e.kind.RefundedEvent? then Some(e.occurredAt)
                          else if before.Some? then before.value.refundedAt else None)
    && row.disputedAt == (if e.kind.DisputedEvent? then Some(e.occurredAt)
                          else if before.Some? then before.value.disputedAt else None)
  }

  /** A row that exists keeps what it is about; only a partial refund corrects its amount. */
  predicate RowLeft(id: SubscriptionId, e: Event, paidBefore: bool, before: Option<Payment>, row: Payment)
    requires MovesMoney(e)
  {
    && StatusOfRow(e, row.status) && InstantsOfRow(e, before, row)
    && (before.None? ==>
          row.subscription == id && KindOfRow(e, paidBefore, row.kind) && (row.amount, row.currency) == Money(e))
    && (before.Some? ==>
          && row.subscription == before.value.subscription && row.kind == before.value.kind
          && row.currency == before.value.currency
          && row.amount == if PartialRefundEvent(e) then Money(e).0 else before.value.amount)
  }

  ghost predicate LedgerLeft(id: SubscriptionId, key: EventKey, e: Event, paidBefore: bool,
      ledger: map<EventKey, Payment>, ledger': map<EventKey, Payment>) {
    && (forall k | k != key :: (k in ledger' <==> k in ledger) && (k in ledger ==> ledger'[k] == ledger[k]))
    && (!MovesMoney(e) ==> (key in ledger' <==> key in ledger) && (key in ledger ==> ledger'[key] == ledger[key]))
    && (MovesMoney(e) ==>
          && key in ledger'
          && RowLeft(id, e, paidBefore, if key in ledger then Some(ledger[key]) else None, ledger'[key]))
  }

  ghost predicate EventDone(key: EventKey, events: map<EventKey, EventRecord>, events': map<EventKey, EventRecord>) {
    && key in events && events'.Keys == events.Keys
    && (forall k :: k in events && k != key ==> events'[k] == events[k])
    && events'[key] == EventRecord(events[key].event, Processed, events[key].attempts + 1)
  }

  /** Everything an accepted event other than a partial refund leaves but the entitlement rows. */
  ghost predicate EventLeft(db: Db, id: SubscriptionId, key: EventKey, e: Event, p: Snapshot, graceDays: nat,
      paidBefore: bool, db': Db) {
    && id in db.subscriptions && id in db'.subscriptions
    && db'.subscriptions == db.subscriptions[id := db'.subscriptions[id]]
    && RecordLeft(e, p, graceDays, db.subscriptions[id], db'.subscriptions[id])
    && LedgerLeft(id, key, e, paidBefore, db.ledger, db'.ledger)
    && EventDone(key, db.events, db'.events)
    && db'.checkouts == db.checkouts && db'.customers == db.customers && db'.catalogue == db.catalogue
  }

  // ----- one event -----

  /** The decision taken on a record that was read earlier, written to the same record as it is now. */
  lemma UpdateLeaves(id: SubscriptionId, seen: Subscription, s: Subscription, key: EventKey, e: Event, p: Snapshot,
      graceDays: nat, before: bool)
    requires !PartialRefundEvent(e) && s == seen.(binding := s.binding)
    ensures RecordLeft(e, p, graceDays, s, Updated(s, Decide(id, seen, key, e, p, graceDays, before)))
  {
  }

  lemma PaymentRowLeaves(ledger: map<EventKey, Payment>, id: SubscriptionId, s: Subscription, key: EventKey, e: Event,
      p: Snapshot, graceDays: nat, before: bool)
    requires !PartialRefundEvent(e)
    ensures var w := Decide(id, s, key, e, p, graceDays, before).payment;
            LedgerLeft(id, key, e, before, ledger, if w.Some? then UpsertPayment(ledger, id, w.value) else ledger)
  {
  }

  lemma AppliedLeaves(db: Db, id: SubscriptionId, seen: Subscription, key: EventKey, e: Event, p: Snapshot,
      graceDays: nat, before: bool, db': Db)
    requires id in db.subscriptions && !PartialRefundEvent(e)
    requires db.subscriptions[id] == seen.(binding := db.subscriptions[id].binding)
    requires ApplyState(db, Decide(id, seen, key, e, p, graceDays, before), e.occurredAt) == Ok(db')
    ensures EventLeft(db, id, key, e, p, graceDays, before, db')
  {
    var u := Decide(id, seen, key, e, p, graceDays, before);
    Effects.DecideAddresses(id, seen, key, e, p, graceDays, before);
    ApplyShape(db, u, e.occurredAt, db');
    UpdateLeaves(id, seen, db.subscriptions[id], key, e, p, graceDays, before);
    PaymentRowLeaves(db.ledger, id, seen, key, e, p, graceDays, before);
    hide ApplyState, Decide, Updated, UpsertPayment, RecordLeft, LedgerLeft;
  }

  /** What one accepted event leaves, kind by kind and field by field, in terms of the event and what was there. */
  lemma EventLeaves(db: Db, id: SubscriptionId, key: EventKey, e: Event, p: Snapshot, graceDays: nat, before: bool,
      db': Db)
    requires id in db.subscriptions && !PartialRefundEvent(e)
    requires CommitEvent(db, id, db.subscriptions[id], key, e, p, graceDays, before) == Ok(db')
    ensures EventLeft(db, id, key, e, p, graceDays, before, db')
  {
    hide ApplyState, Decide, EventLeft;
    AppliedLeaves(db, id, db.subscriptions[id], key, e, p, graceDays, before, db');
  }

  /** A partial refund leaves its ledger row and the processed event, and nothing else. */
  lemma PartialRefundLeaves(db: Db, id: SubscriptionId, seen: Subscription, key: EventKey, e: Event, p: Snapshot,
      graceDays: nat, before: bool)
    requires PartialRefundEvent(e)
    ensures CommitEvent(db, id, seen, key, e, p, graceDays, before).Ok? <==>
            e.kind.refundAmount > 0 && key in db.events
    ensures CommitEvent(db, id, seen, key, e, p, graceDays, before).Ok? ==>
              var db' := CommitEvent(db, id, seen, key, e, p, graceDays, before).value;
              && db' == db.(ledger := db'.ledger, events := db'.events)
              && LedgerLeft(id, key, e, before, db.ledger, db'.ledger) && EventDone(key, db.events, db'.events)
  {
    hide ApplyState, Decide;
  }
}
