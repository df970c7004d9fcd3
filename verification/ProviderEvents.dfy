/**
 What provider webhooks and authoritative provider snapshots do to the billing database.
 */
module ProviderEvents {
  import opened Common
  import opened Lifecycle
  import opened BillingModel

  const DAY: int := 86_400_000

  /** The provider's own view of a subscription. */
  datatype Snapshot = Snapshot(
    status: Status, latestPayment: PaymentStatus, periodStart: Option<Time>, periodEnd: Option<Time>,
    cancelAtPeriodEnd: bool, stateVersion: Option<nat>, updatedAt: Option<Time>)

  // ----- binding an event to a subscription -----

  predicate Bound(s: Subscription, p: Provider, x: ProviderSubscriptionId) {
    s.provider == p && s.binding == Some(x)
  }

  predicate SameBound(s: Subscription, other: Subscription) {
    s.provider == other.provider && s.binding == other.binding
  }

  /** The unique index on (provider, provider subscription id). */
  ghost predicate UniqueBindings(subscriptions: map<SubscriptionId, Subscription>) {
    forall a, b | a in subscriptions && b in subscriptions && subscriptions[a].binding.Some? ::
      SameBound(subscriptions[a], subscriptions[b]) ==> a == b
  }

  predicate BindingTaken(db: Db, id: SubscriptionId, p: Provider, x: ProviderSubscriptionId) {
    exists other :: other in db.subscriptions && other != id && Bound(db.subscriptions[other], p, x)
  }

  /** The validation of a binding, on the checkout and the subscription as a query returned them. */
  predicate BindingAccepted(seen: Db, e: Event)
    requires e.checkout.Some?
  {
    e.checkout.value in seen.checkouts &&
    var c := seen.checkouts[e.checkout.value];
    c.subscription in seen.subscriptions &&
    var s := seen.subscriptions[c.subscription];
    && c.provider == e.provider
    && c.environment == e.environment
    && c.session.Some? && c.session == e.providerObject
    && s.provider == e.provider
    && c.guild == s.guild
    && c.user == s.purchaser
    && c.plan == s.plan
    && c.expiresAt >= e.occurredAt
    && (s.binding.Some? ==> s.binding.value == e.subscription)
  }

  /** The customer record may be written: it is the purchaser's own, or new and nobody else's. */
  predicate CustomerAccepted(customers: map<CustomerKey, nat>, k: CustomerKey, customer: nat) {
    if k in customers then customers[k] == customer
    else forall other :: other in customers && other.provider == k.provider ==> customers[other] != customer
  }

  /**
   Binding an event: validated on `seen`, the tables as an earlier query returned them, and written to
   `db` without looking at the binding that is there now; only the unique indexes can still refuse.
   */
  function BindRead(db: Db, seen: Db, e: Event): Result<Db, BillingError> {
    if e.checkout.None? then Ok(db)
    else if !BindingAccepted(seen, e) then Err(BindingConflict)
    else
      var c := seen.checkouts[e.checkout.value];
      var owner := CustomerKey(c.user, e.provider);
      if c.subscription !in db.subscriptions then Err(NotFound)
      else if BindingTaken(db, c.subscription, e.provider, e.subscription) then Err(BindingConflict)
      else if e.customer.Some? && !CustomerAccepted(db.customers, owner, e.customer.value) then Err(BindingConflict)
      else Ok(db.(subscriptions := db.subscriptions[c.subscription :=
                                     db.subscriptions[c.subscription].(binding := Some(e.subscription))],
                  customers := if e.customer.Some? then db.customers[owner := e.customer.value] else db.customers))
  }

  /** Binding with nobody else writing between the query and the write. */
  function Bind(db: Db, e: Event): Result<Db, BillingError> {
    BindRead(db, db, e)
  }

  /** The subscription the unique index finds. */
  ghost function BoundSubscription(db: Db, p: Provider, x: ProviderSubscriptionId): Option<SubscriptionId> {
    if exists id :: id in db.subscriptions && Bound(db.subscriptions[id], p, x) then
      var id :| id in db.subscriptions && Bound(db.subscriptions[id], p, x);
      Some(id)
    else None
  }

  /** The subscription an event is loaded with: that of its checkout, else the one the index finds. */
  ghost function Target(db: Db, e: Event): Option<SubscriptionId> {
    if e.checkout.Some? then
      if e.checkout.value in db.checkouts && db.checkouts[e.checkout.value].subscription in db.subscriptions
      then Some(db.checkouts[e.checkout.value].subscription) else None
    else BoundSubscription(db, e.provider, e.subscription)
  }

  // ----- deciding the update -----

  predicate HasSucceeded(ledger: map<EventKey, Payment>, id: SubscriptionId) {
    exists k :: k in ledger && ledger[k].subscription == id && ledger[k].status == Succeeded
  }

  predicate PartialRefundEvent(e: Event) {
    e.kind.RefundedEvent? && !e.kind.full
  }

  predicate Awaiting(status: Status) {
    status.Pending? || status.Incomplete?
  }

  predicate AmountMatches(s: Subscription, e: Event) {
    e.kind.Paid? && e.kind.amount.Some? ==> e.kind.amount.value == s.price && e.kind.currency == Some(s.currency)
  }

  /** The status update for an event, computed from the subscription record `s` that was read. */
  function Decide(id: SubscriptionId, s: Subscription, key: EventKey, e: Event, snapshot: Snapshot, graceDays: nat,
      paidBefore: bool): StateUpdate
  {
    var u := StatusOnly(id, s.status, s.version).(
      stateVersion := if e.stateVersion.Some? then Put(e.stateVersion) else Keep,
      providerClock := Put(Some(e.occurredAt)),
      event := Some(key));
    match e.kind
    case PendingEvent =>
      u.(next := if s.status.Pending? then Incomplete else s.status, latestPayment := Put(AwaitingPayment))
    case Paid(renewed, start, end, amount, currency) =>
      u.(next := Active,
         latestPayment := Put(Succeeded),
         periodStart := Put(Some(start)),
         periodEnd := Put(Some(end)),
         graceEnd := Put(None),
         cancelAtPeriodEnd := Put(false),
         cancellation := Put(NotCancelling),
         payment :=
           if amount.Some? && currency.Some? then
             Some(PaymentWrite(key, if renewed || paidBefore then Renewal else Initial, Succeeded,
                               amount.value, currency.value, Some(e.occurredAt), None, None))
           else None)
    case PaymentFailed =>
      if Awaiting(s.status) then u.(next := Incomplete, latestPayment := Put(Failed))
      else if graceDays > 0 then
        u.(next := GracePeriod, latestPayment := Put(Failed), graceEnd := Put(Some(e.occurredAt + graceDays * DAY)))
      else u.(next := Suspended, latestPayment := Put(Failed))
    case GraceStarted(end) =>
      u.(next := GracePeriod, latestPayment := Put(Failed), graceEnd := Put(Some(end)))
    case CancelScheduled(end) =>
      u.(next := Cancelled, cancelAtPeriodEnd := Put(true), cancellation := Put(Scheduled),
         cancelledAt := Put(Some(e.occurredAt)), periodEnd := Put(Some(end)))
    case CancelledNow(at) =>
      u.(next := Cancelled, cancelAtPeriodEnd := Put(false), cancellation := Put(CancellationDone),
         cancelledAt := Put(Some(e.occurredAt)), endedAt := Put(Some(at)), periodEnd := Put(Some(at)))
    case ExpiredNow(at) =>
      u.(next := Expired, cancelAtPeriodEnd := Put(false), cancellation := Put(CancellationDone),
         endedAt := Put(Some(at)), periodEnd := Put(Some(at)))
    case RefundedEvent(_, amount, currency) =>
      u.(next := Refunded, latestPayment := Put(PaymentRefunded),
         periodEnd := Put(Some(e.occurredAt)), endedAt := Put(Some(e.occurredAt)),
         payment := Some(PaymentWrite(key, Refund, PaymentRefunded, amount, currency, None, Some(e.occurredAt), None)))
    case DisputedEvent(amount, currency) =>
      u.(next := Disputed, latestPayment := Put(PaymentDisputed),
         payment := Some(PaymentWrite(key, Chargeback, PaymentDisputed, amount, currency, None, None,
                                      Some(e.occurredAt))))
    case DisputeResolved(amount, currency) =>
      var restored := snapshot.status.Active? && snapshot.latestPayment.Succeeded?;
      u.(next := if restored then Active else Suspended,
         latestPayment := Put(if restored then Succeeded else snapshot.latestPayment),
         periodStart := if snapshot.periodStart.Some? then Put(snapshot.periodStart) else Keep,
         periodEnd := if snapshot.periodEnd.Some? then Put(snapshot.periodEnd) else Keep,
         payment := Some(PaymentWrite(key, Reversal, Reversed, amount, currency, None, None, None)))
  }

  function PartialRefundRow(ledger: map<EventKey, Payment>, id: SubscriptionId, key: EventKey, e: Event): Payment
    requires PartialRefundEvent(e)
  {
    if key in ledger then
      ledger[key].(status := PartiallyRefunded, amount := e.kind.refundAmount, refundedAt := Some(e.occurredAt))
    else
      Payment(id, PartialRefund, PartiallyRefunded, e.kind.refundAmount, e.kind.refundCurrency, None,
              Some(e.occurredAt), None)
  }

  function RecordPartialRefund(db: Db, id: SubscriptionId, key: EventKey, e: Event): Result<Db, BillingError>
    requires PartialRefundEvent(e)
  {
    if e.kind.refundAmount == 0 then Err(CheckViolation)
    else if key !in db.events then Err(NotFound)
    else Ok(db.(ledger := db.ledger[key := PartialRefundRow(db.ledger, id, key, e)],
                events := MarkProcessed(db.events, key)))
  }

  /** What committing an event means, given the subscription record that was read beforehand. */
  function CommitEvent(db: Db, id: SubscriptionId, seen: Subscription, key: EventKey, e: Event, snapshot: Snapshot,
      graceDays: nat, paidBefore: bool)
    : Result<Db, BillingError>
  {
    if !AmountMatches(seen, e) then Err(AmountMismatch)
    else if PartialRefundEvent(e) then RecordPartialRefund(db, id, key, e)
    else ApplyState(db, Decide(id, seen, key, e, snapshot, graceDays, paidBefore), e.occurredAt)
  }

  // ----- closing the checkout -----

  function Settled(c: Checkout, id: SubscriptionId, e: Event, seen: Status, next: Status): Checkout {
    if c.subscription != id then c
    else if next.Active? then
      if c.state.ProviderPending? then c.(state := Completed, version := c.version + 1) else c
    else if e.kind.PaymentFailed? && Awaiting(seen) && (c.state.CheckoutCreated? || c.state.ProviderPending?) then
      c.(state := CheckoutFailed, version := c.version + 1)
    else c
  }

  function Settle(db: Db, id: SubscriptionId, e: Event, seen: Status, next: Status): Db {
    db.(checkouts := map c | c in db.checkouts :: Settled(db.checkouts[c], id, e, seen, next))
  }

  // ----- the whole event, run without interruption -----

  datatype Handled = Handled(db: Db, error: Option<BillingError>)

  ghost function ProcessEvent(db: Db, key: EventKey, e: Event, snapshot: Snapshot, graceDays: nat): Handled {
    var bound := Bind(db, e);
    if bound.Err? then Handled(db, Some(bound.error))
    else
      var target := Target(bound.value, e);
      if target.None? then Handled(bound.value, Some(NotFound))
      else
        var seen := bound.value.subscriptions[target.value];
        var committed := CommitEvent(bound.value, target.value, seen, key, e, snapshot, graceDays,
                                     HasSucceeded(bound.value.ledger, target.value));
        if committed.Err? then Handled(bound.value, Some(committed.error))
        else if PartialRefundEvent(e) then Handled(committed.value, None)
        else Handled(Settle(committed.value, target.value, e, seen.status,
                            committed.value.subscriptions[target.value].status), None)
  }

  /** Receiving a webhook: record it once, refuse a changed replay, skip what is done or under way. */
  ghost function Ingest(db: Db, key: EventKey, e: Event, snapshot: Snapshot, graceDays: nat): Handled {
    if key in db.events && db.events[key].event != e then Handled(db, Some(ReplayMismatch))
    else if key in db.events && db.events[key].progress in {Processed, Ignored, Processing} then Handled(db, None)
    else
      var attempts := if key in db.events then db.events[key].attempts else 0;
      var started := db.(events := db.events[key := EventRecord(e, Processing, attempts)]);
      var done := ProcessEvent(started, key, e, snapshot, graceDays);
      if done.error.None? then done
      else Handled(done.db.(events := done.db.events[key := EventRecord(e, ProcessingFailed, attempts + 1)]),
                   done.error)
  }

  // ----- provider snapshots -----

  datatype SnapshotDecision = SnapshotDecision(
    next: Status, cancellation: CancellationStatus, graceEnd: Option<Time>,
    cancelledAt: Option<Time>, endedAt: Option<Time>)

  function StateFromSnapshot(current: Status, p: Snapshot, graceDays: nat,
      now: Time): Result<SnapshotDecision, BillingError> {
    if p.cancelAtPeriodEnd && p.periodEnd.Some? then
      Ok(SnapshotDecision(Cancelled, Scheduled, None, Some(now), None))
    else if p.status.Active? && !p.latestPayment.Succeeded? then
      if current.Active? || current.Cancelled? then Err(AmbiguousPayment)
      else Ok(SnapshotDecision(Incomplete, NotCancelling, None, None, None))
    else if p.status.PastDue? && graceDays > 0 then
      Ok(SnapshotDecision(GracePeriod, NotCancelling, Some(now + graceDays * DAY), None, None))
    else if (p.status.Cancelled? || p.status.Expired?) && p.periodEnd.Some? && p.periodEnd.value <= now then
      Ok(SnapshotDecision(Expired, CancellationDone, None, Some(now), p.periodEnd))
    else
      Ok(SnapshotDecision(p.status,
                          if p.status.Cancelled? || p.status.Expired? then CancellationDone else NotCancelling,
                          None,
                          if p.status.Cancelled? then Some(now) else None, None))
  }

  /** An absent provider version never counts as unchanged: the stored null differs from undefined. */
  predicate SnapshotUnchanged(s: Subscription, p: Snapshot, next: Status) {
    p.stateVersion.Some? && s.stateVersion == p.stateVersion && s.status == next
      && s.cancelAtPeriodEnd == p.cancelAtPeriodEnd
  }

  function ReconcileUpdate(id: SubscriptionId, s: Subscription, p: Snapshot, d: SnapshotDecision,
      now: Time): StateUpdate {
    StateUpdate(
      id, d.next, s.version, Put(p.latestPayment), Put(p.periodStart), Put(p.periodEnd), Put(d.graceEnd),
      Put(d.cancellation), Put(p.cancelAtPeriodEnd),
      if d.cancelledAt.Some? then Put(d.cancelledAt) else Keep,
      if d.endedAt.Some? then Put(d.endedAt) else Keep,
      Put(p.stateVersion), Put(Some(if p.updatedAt.Some? then p.updatedAt.value else now)), None, None)
  }

  /** Reconcile with a snapshot, given the record that was read beforehand; None means nothing to write. */
  function CommitSnapshot(db: Db, id: SubscriptionId, seen: Subscription, p: Snapshot, graceDays: nat,
      now: Time): Result<Option<Db>, BillingError> {
    if seen.binding.None? then Err(BindingConflict)
    else
      var d := StateFromSnapshot(seen.status, p, graceDays, now);
      if d.Err? then Err(d.error)
      else if SnapshotUnchanged(seen, p, d.value.next) then Ok(None)
      else
        var r := ApplyState(db, ReconcileUpdate(id, seen, p, d.value, now), now);
        if r.Err? then Err(r.error) else Ok(Some(r.value))
  }
}
