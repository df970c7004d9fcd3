/**
 The billing database and its central transaction.

 A value of type Db is the committed content of the billing tables.  Each function below is one
 transaction: it yields the new content, or an error, in which case nothing was written.
 */
module BillingModel {
  import opened Common
  import opened Lifecycle

  // Identifiers are opaque: only equality matters.
  type GuildId = nat
  type SubscriptionId = nat
  type CheckoutId = nat
  type ProviderSubscriptionId = nat
  type UserId = nat

  datatype Provider = Stripe | Paytr
  datatype Currency = USD | TRY | EUR | GBP | RUB
  datatype CancellationStatus = NotCancelling | Scheduled | CancellationDone

  datatype Subscription = Subscription(
    guild: GuildId,
    purchaser: UserId,
    plan: nat,
    provider: Provider,
    price: nat,
    currency: Currency,
    featureSet: nat,
    binding: Option<ProviderSubscriptionId>,
    status: Status,
    version: nat,
    latestPayment: PaymentStatus,
    periodStart: Option<Time>,
    periodEnd: Option<Time>,
    graceEnd: Option<Time>,
    cancellation: CancellationStatus,
    cancelAtPeriodEnd: bool,
    cancelledAt: Option<Time>,
    endedAt: Option<Time>,
    stateVersion: Option<nat>,
    providerClock: Option<Time>)

  datatype EntitlementKey =
    | Base | AutomodAdvanced | ModerationHistoryExtended | LoggingExtended | LoggingAdvancedFilters
    | TicketTranscripts | TicketPanelsExtended | WelcomeTemplatesAdvanced | WelcomeMultipleConfigurations
    | ReactionRolesAdvanced | ScheduledMessages | AnalyticsExtended | CustomBranding
    | CustomCommandsExtended | TemporaryVoiceExtended | SupportBadge

  datatype Source = FromSubscription | ManualPromotion | AdminOverride

  datatype RowKey = RowKey(guild: GuildId, key: EntitlementKey, source: Source, reference: nat)
  datatype RowStatus = RowActive | RowRevoked
  datatype Row = Row(startsAt: Time, endsAt: Option<Time>, status: RowStatus)

  /** Provider events and ledger rows share one identity: the provider and its event id. */
  datatype EventKey = EventKey(provider: Provider, id: nat)

  /** A purchaser has one customer record with each provider. */
  datatype CustomerKey = CustomerKey(user: UserId, provider: Provider)

  datatype PaymentKind = Initial | Renewal | Refund | PartialRefund | Chargeback | Reversal

  datatype Payment = Payment(
    subscription: SubscriptionId, kind: PaymentKind, status: PaymentStatus, amount: nat, currency: Currency,
    paidAt: Option<Time>, refundedAt: Option<Time>, disputedAt: Option<Time>)

  datatype CheckoutState = CheckoutCreated | ProviderPending | Completed | CheckoutExpired | CheckoutFailed

  datatype Checkout = Checkout(
    guild: GuildId, subscription: SubscriptionId, user: UserId, plan: nat, provider: Provider, environment: nat,
    state: CheckoutState, session: Option<nat>, expiresAt: Time, version: nat)

  /** The normalized provider event. */
  datatype Event = Event(
    provider: Provider,
    environment: nat,
    subscription: ProviderSubscriptionId,
    customer: Option<nat>,
    occurredAt: Time,
    stateVersion: Option<nat>,
    checkout: Option<CheckoutId>,
    providerObject: Option<nat>,
    kind: EventKind)

  datatype EventKind =
    | PendingEvent
    | Paid(renewed: bool, periodStart: Time, periodEnd: Time, amount: Option<nat>, currency: Option<Currency>)
    | PaymentFailed
    | GraceStarted(graceEndsAt: Time)
    | CancelScheduled(periodEnd: Time)
    | CancelledNow(effectiveAt: Time)
    | ExpiredNow(effectiveAt: Time)
    | RefundedEvent(full: bool, refundAmount: nat, refundCurrency: Currency)
    | DisputedEvent(disputeAmount: nat, disputeCurrency: Currency)
    | DisputeResolved(resolvedAmount: nat, resolvedCurrency: Currency)

  datatype EventProgress = Received | Processing | Processed | Ignored | ProcessingFailed

  datatype EventRecord = EventRecord(event: Event, progress: EventProgress, attempts: nat)

  /** The content of the billing tables, with the feature catalogue the deployment was built with. */
  datatype Db = Db(
    catalogue: Catalogue,
    subscriptions: map<SubscriptionId, Subscription>,
    rows: map<RowKey, Row>,
    ledger: map<EventKey, Payment>,
    checkouts: map<CheckoutId, Checkout>,
    events: map<EventKey, EventRecord>,
    customers: map<CustomerKey, nat>,
    guildVersion: map<GuildId, nat>)

  datatype BillingError =
    | NotFound | VersionConflict | StaleProviderState | IllegalTransition | UnboundedGrace
    | UnsupportedFeatureSet | CheckViolation | SlotTaken | AmountMismatch | BindingConflict
    | AmbiguousPayment | NotAuthoritative | ReplayMismatch

  // ----- the feature catalogue -----

  /** Feature-set version to entitlement keys.  Every theorem holds for every catalogue. */
  type Catalogue = map<nat, seq<EntitlementKey>>

  // ----- updating a subscription -----

  datatype PaymentWrite = PaymentWrite(
    key: EventKey, kind: PaymentKind, status: PaymentStatus, amount: nat, currency: Currency,
    paidAt: Option<Time>, refundedAt: Option<Time>, disputedAt: Option<Time>)

  datatype StateUpdate = StateUpdate(
    subscription: SubscriptionId,
    next: Status,
    expectedVersion: nat,
    latestPayment: Patch<PaymentStatus>,
    periodStart: Patch<Option<Time>>,
    periodEnd: Patch<Option<Time>>,
    graceEnd: Patch<Option<Time>>,
    cancellation: Patch<CancellationStatus>,
    cancelAtPeriodEnd: Patch<bool>,
    cancelledAt: Patch<Option<Time>>,
    endedAt: Patch<Option<Time>>,
    stateVersion: Patch<Option<nat>>,
    providerClock: Patch<Option<Time>>,
    event: Option<EventKey>,
    payment: Option<PaymentWrite>)

  /** The update that moves the status and touches nothing else. */
  function StatusOnly(id: SubscriptionId, next: Status, version: nat): StateUpdate {
    StateUpdate(id, next, version, Keep, Keep, Keep, Keep, Keep, Keep, Keep, Keep, Keep, Keep, None, None)
  }

  function Updated(s: Subscription, u: StateUpdate): Subscription {
    s.(status := u.next,
       version := s.version + 1,
       latestPayment := Patched(s.latestPayment, u.latestPayment),
       periodStart := Patched(s.periodStart, u.periodStart),
       periodEnd := Patched(s.periodEnd, u.periodEnd),
       graceEnd := Patched(s.graceEnd, u.graceEnd),
       cancellation := Patched(s.cancellation, u.cancellation),
       cancelAtPeriodEnd := Patched(s.cancelAtPeriodEnd, u.cancelAtPeriodEnd),
       cancelledAt := Patched(s.cancelledAt, u.cancelledAt),
       endedAt := Patched(s.endedAt, u.endedAt),
       stateVersion := Patched(s.stateVersion, u.stateVersion),
       providerClock := Patched(s.providerClock, u.providerClock))
  }

  /** The CHECK constraints of the subscription table. */
  predicate SubscriptionChecks(s: Subscription) {
    && (s.periodStart.Some? && s.periodEnd.Some? ==> s.periodStart.value < s.periodEnd.value)
    && (s.graceEnd.Some? && s.periodEnd.Some? ==> s.graceEnd.value >= s.periodEnd.value)
  }

  function GrantOf(s: Subscription, at: Time): Grant {
    SubscriptionGrants(s.status, s.latestPayment, s.periodEnd, s.graceEnd, at)
  }

  // ----- the ledger -----

  function MergedInstant(stored: Option<Time>, given: Option<Time>): Option<Time> {
    if given.Some? then given else stored
  }

  /** Create the ledger row, or update the status and the instants of the one that exists. */
  function UpsertPayment(ledger: map<EventKey, Payment>, id: SubscriptionId, w: PaymentWrite): map<EventKey, Payment> {
    if w.key in ledger then
      var p := ledger[w.key];
      ledger[w.key := p.(status := w.status,
                         paidAt := MergedInstant(p.paidAt, w.paidAt),
                         refundedAt := MergedInstant(p.refundedAt, w.refundedAt),
                         disputedAt := MergedInstant(p.disputedAt, w.disputedAt))]
    else
      ledger[w.key := Payment(id, w.kind, w.status, w.amount, w.currency, w.paidAt, w.refundedAt, w.disputedAt)]
  }

  predicate PaymentChecks(ledger: map<EventKey, Payment>, w: PaymentWrite) {
    w.key in ledger || w.amount > 0
  }

  // ----- materialised entitlement rows -----

  predicate RowChecks(r: Row) {
    r.endsAt.Some? ==> r.startsAt < r.endsAt.value
  }

  /** `k` is a row materialised for subscription `id` of guild `g`. */
  predicate OwnedBy(k: RowKey, g: GuildId, id: SubscriptionId) {
    k.guild == g && k.source == FromSubscription && k.reference == id
  }

  function SubscriptionRow(g: GuildId, key: EntitlementKey, id: SubscriptionId): RowKey {
    RowKey(g, key, FromSubscription, id)
  }

  /**
   What the materialisation must leave behind, row by row: a desired feature is active until the
   grant ends, any other row of this subscription is revoked now, every other row is untouched.
   */
  function SyncedRows(
    rows: map<RowKey, Row>, g: GuildId, id: SubscriptionId, startsAt: Time,
    desired: set<EntitlementKey>, endsAt: Option<Time>, now: Time): (synced: map<RowKey, Row>)
  {
    map k | k in rows.Keys + (set key | key in desired :: SubscriptionRow(g, key, id)) ::
      if !OwnedBy(k, g, id) then rows[k]
      else if k.key in desired then Row(if k in rows then rows[k].startsAt else startsAt, endsAt, RowActive)
      else Row(rows[k].startsAt, Some(now), RowRevoked)
  }

  predicate OwnedRowsCheck(rows: map<RowKey, Row>, g: GuildId, id: SubscriptionId) {
    forall k :: k in rows && OwnedBy(k, g, id) ==> RowChecks(rows[k])
  }

  /** A row is lit at `t` when it is active and has not ended. */
  predicate Lit(rows: map<RowKey, Row>, k: RowKey, t: Time) {
    k in rows && rows[k].status == RowActive && OpenAt(rows[k].endsAt, t)
  }

  function KeySet(keys: seq<EntitlementKey>): set<EntitlementKey> {
    set k | k in keys
  }

  // ----- the central transaction -----

  /** The guards that run before anything is written. */
  function ApplyGuard(db: Db, u: StateUpdate): Option<BillingError> {
    if u.subscription !in db.subscriptions then Some(NotFound)
    else
      var s := db.subscriptions[u.subscription];
      if s.version != u.expectedVersion then Some(VersionConflict)
      else if && u.providerClock.Put? && u.providerClock.value.Some? && s.providerClock.Some?
              && u.providerClock.value.value < s.providerClock.value then Some(StaleProviderState)
      else if !CanTransition(s.status, u.next) then Some(IllegalTransition)
      else if u.next.GracePeriod? && (u.graceEnd.Keep? || u.graceEnd.value.None?) then Some(UnboundedGrace)
      else None
  }

  /** The features a subscription is to have at `now`, with their end; none when it grants nothing. */
  function Desired(catalogue: Catalogue, s: Subscription,
      now: Time): Result<(seq<EntitlementKey>, Option<Time>), BillingError> {
    var grant := GrantOf(s, now);
    if !grant.grants then Ok(([], None))
    else if s.featureSet !in catalogue then Err(UnsupportedFeatureSet)
    else Ok((catalogue[s.featureSet], grant.endsAt))
  }

  function StartOf(s: Subscription, now: Time): Time {
    if s.periodStart.Some? then s.periodStart.value else now
  }

  function MarkProcessed(events: map<EventKey, EventRecord>, key: EventKey): map<EventKey, EventRecord>
    requires key in events
  {
    events[key := events[key].(progress := Processed, attempts := events[key].attempts + 1)]
  }

  /** The entitlement rows of `id` after its record has become `s`. */
  function MaterialisedRows(catalogue: Catalogue, rows: map<RowKey, Row>, id: SubscriptionId, s: Subscription,
      now: Time): map<RowKey, Row>
    requires Desired(catalogue, s, now).Ok?
  {
    var desired := Desired(catalogue, s, now).value;
    SyncedRows(rows, s.guild, id, StartOf(s, now), KeySet(desired.0), desired.1, now)
  }

  /** Everything that can abort the writing of record `s`, in the order in which it is met. */
  function CommitError(db: Db, id: SubscriptionId, s: Subscription, payment: Option<PaymentWrite>,
      event: Option<EventKey>, now: Time): Option<BillingError> {
    if !SubscriptionChecks(s) then Some(CheckViolation)
    else if payment.Some? && !PaymentChecks(db.ledger, payment.value) then Some(CheckViolation)
    else if Desired(db.catalogue, s, now).Err? then Some(UnsupportedFeatureSet)
    else if !OwnedRowsCheck(MaterialisedRows(db.catalogue, db.rows, id, s, now), s.guild, id) then Some(CheckViolation)
    else if s.guild !in db.guildVersion then Some(NotFound)
    else if event.Some? && event.value !in db.events then Some(NotFound)
    else None
  }

  /** What is written when nothing aborts: record, ledger, rows, the guild's entitlement version, the event. */
  function Committed(db: Db, id: SubscriptionId, s: Subscription, payment: Option<PaymentWrite>,
      event: Option<EventKey>, now: Time): Db
    requires CommitError(db, id, s, payment, event, now).None?
  {
    Db(db.catalogue,
       db.subscriptions[id := s],
       MaterialisedRows(db.catalogue, db.rows, id, s, now),
       if payment.Some? then UpsertPayment(db.ledger, id, payment.value) else db.ledger,
       db.checkouts,
       if event.Some? then MarkProcessed(db.events, event.value) else db.events,
       db.customers,
       db.guildVersion[s.guild := db.guildVersion[s.guild] + 1])
  }

  function ApplyState(db: Db, u: StateUpdate, now: Time): Result<Db, BillingError> {
    var guard := ApplyGuard(db, u);
    if guard.Some? then Err(guard.value)
    else
      var s := Updated(db.subscriptions[u.subscription], u);
      var error := CommitError(db, u.subscription, s, u.payment, u.event, now);
      if error.Some? then Err(error.value)
      else Ok(Committed(db, u.subscription, s, u.payment, u.event, now))
  }

  // ----- what the materialised rows mean -----

  /**
   From `from` on, the subscription's rows say exactly what the granting rule says: at every later
   instant the lit rows are the whole feature set if the subscription grants Premium, else none.
   */
  ghost predicate RowsFollowRule(db: Db, id: SubscriptionId, from: Time)
    requires id in db.subscriptions
  {
    forall key: EntitlementKey, t: Time :: t >= from ==>
      (Lit(db.rows, SubscriptionRow(db.subscriptions[id].guild, key, id), t) <==>
       Granted(db.catalogue, db.subscriptions[id], key, t))
  }

  ghost predicate Granted(catalogue: Catalogue, s: Subscription, key: EntitlementKey, t: Time) {
    GrantOf(s, t).grants && InFeatureSet(catalogue, s, key)
  }

  ghost predicate InFeatureSet(catalogue: Catalogue, s: Subscription, key: EntitlementKey) {
    s.featureSet in catalogue && key in catalogue[s.featureSet]
  }

  /** Once a grant has lapsed, waiting does not bring it back. */
  lemma GrantOnlyLapses(s: Subscription, now: Time, t: Time)
    requires now <= t
    ensures GrantOf(s, t).grants <==> GrantOf(s, now).grants && OpenAt(GrantOf(s, now).endsAt, t)
  {
  }

  /** The materialised rows agree with the rule from the instant of the materialisation on. */
  lemma MaterialisedRowsFollowRule(catalogue: Catalogue, rows: map<RowKey, Row>, id: SubscriptionId, s: Subscription,
      now: Time)
    requires Desired(catalogue, s, now).Ok?
    ensures forall key: EntitlementKey, t: Time :: t >= now ==>
              (Lit(MaterialisedRows(catalogue, rows, id, s, now), SubscriptionRow(s.guild, key, id), t) <==>
               Granted(catalogue, s, key, t))
  {
    var desired := Desired(catalogue, s, now).value;
    var rows' := MaterialisedRows(catalogue, rows, id, s, now);
    forall key: EntitlementKey, t: Time | t >= now
      ensures Lit(rows', SubscriptionRow(s.guild, key, id), t) <==> Granted(catalogue, s, key, t)
    {
      GrantOnlyLapses(s, now, t);
      var k := SubscriptionRow(s.guild, key, id);
      if key in KeySet(desired.0) {
        assert k in rows' && rows'[k].status == RowActive && rows'[k].endsAt == desired.1;
      } else {
        assert k in rows' ==> rows'[k].status == RowRevoked;
      }
    }
  }

  /** What an accepted application of state does to every table but the rows. */
  lemma ApplyShape(db: Db, u: StateUpdate, now: Time, db': Db)
    requires ApplyState(db, u, now) == Ok(db')
    ensures ApplyGuard(db, u).None? && u.subscription in db.subscriptions
    ensures db'.subscriptions == db.subscriptions[u.subscription := Updated(db.subscriptions[u.subscription], u)]
    ensures db'.catalogue == db.catalogue && db'.checkouts == db.checkouts && db'.customers == db.customers
    ensures db'.ledger == if u.payment.Some? then UpsertPayment(db.ledger, u.subscription, u.payment.value)
            else db.ledger
    ensures u.payment.Some? ==> PaymentChecks(db.ledger, u.payment.value)
    ensures u.event.Some? ==> u.event.value in db.events
    ensures db'.events == if u.event.Some? then MarkProcessed(db.events, u.event.value) else db.events
    ensures var g := db.subscriptions[u.subscription].guild;
            g in db.guildVersion && db'.guildVersion == db.guildVersion[g := db.guildVersion[g] + 1]
  {
  }

  /** Every accepted application of state re-establishes the agreement of rows and rule, from its own instant on. */
  lemma ApplyMaterialises(db: Db, u: StateUpdate, now: Time, db': Db)
    requires ApplyState(db, u, now) == Ok(db')
    ensures u.subscription in db.subscriptions
    ensures db'.subscriptions == db.subscriptions[u.subscription := Updated(db.subscriptions[u.subscription], u)]
    ensures RowsFollowRule(db', u.subscription, now)
  {
    MaterialisedRowsFollowRule(db.catalogue, db.rows, u.subscription, Updated(db.subscriptions[u.subscription], u),
                               now);
  }
}
