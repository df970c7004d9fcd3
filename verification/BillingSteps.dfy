/** The remaining writers of the billing tables: checkouts, the expiry jobs and the administrators. */
module BillingSteps {
  import opened Common
  import opened Lifecycle
  import opened BillingModel
  import opened ProviderEvents

  // ----- checkouts -----

  /** The partial unique index: one effective subscription per guild. */
  predicate SlotOccupied(db: Db, g: GuildId, except: Option<SubscriptionId>) {
    exists id :: id in db.subscriptions && Some(id) != except && db.subscriptions[id].guild == g
           && Effective(db.subscriptions[id].status)
  }

  predicate OpenCheckoutState(state: CheckoutState) {
    state.CheckoutCreated? || state.ProviderPending?
  }

  /** The partial unique index: one open checkout per guild. */
  predicate CheckoutOpen(db: Db, g: GuildId, except: Option<CheckoutId>) {
    exists c :: c in db.checkouts && Some(c) != except && db.checkouts[c].guild == g
           && OpenCheckoutState(db.checkouts[c].state)
  }

  /** A purchase, with the answers of the queries made before it: guild installed, purchaser not deleted. */
  datatype Purchase = Purchase(
    guild: GuildId, user: UserId, plan: nat, provider: Provider, environment: nat,
    price: nat, currency: Currency, featureSet: nat, expiresAt: Time, installed: bool, purchaserKnown: bool)

  function NewSubscription(p: Purchase): Subscription {
    Subscription(p.guild, p.user, p.plan, p.provider, p.price, p.currency, p.featureSet, None, Pending, 1,
                 AwaitingPayment,
                 None, None, None, NotCancelling, false, None, None, None, None)
  }

  function NewCheckout(id: SubscriptionId, p: Purchase): Checkout {
    Checkout(p.guild, id, p.user, p.plan, p.provider, p.environment, CheckoutCreated, None, p.expiresAt, 1)
  }

  /** Creating subscription and checkout; the unique indexes make the earlier look-up of the slot atomic. */
  function OpenCheckout(db: Db, id: SubscriptionId, c: CheckoutId, p: Purchase): Result<Db, BillingError> {
    if p.guild !in db.guildVersion || !p.installed || !p.purchaserKnown then Err(NotFound)
    else if id in db.subscriptions || c in db.checkouts then Err(CheckViolation)
    else if p.price == 0 || p.featureSet == 0 then Err(CheckViolation)
    else if SlotOccupied(db, p.guild, None) || CheckoutOpen(db, p.guild, None) then Err(SlotTaken)
    else Ok(db.(subscriptions := db.subscriptions[id := NewSubscription(p)],
                checkouts := db.checkouts[c := NewCheckout(id, p)]))
  }

  /** The provider opened its session: the checkout is pending, whatever it was. */
  function SessionReady(db: Db, c: CheckoutId, session: nat, expiresAt: Time): Result<Db, BillingError> {
    if c !in db.checkouts then Err(NotFound)
    else if CheckoutOpen(db, db.checkouts[c].guild, Some(c)) then Err(SlotTaken)
    else Ok(db.(checkouts := db.checkouts[c := db.checkouts[c].(
      state := ProviderPending, session := Some(session), expiresAt := expiresAt,
        version := db.checkouts[c].version + 1)]))
  }

  function CancelledByFailure(s: Subscription, at: Time): Subscription {
    s.(status := Cancelled, cancellation := CancellationDone, endedAt := Some(at), version := s.version + 1)
  }

  /** The provider refused the checkout: both records are written, without looking at their state. */
  function FailCheckout(db: Db, c: CheckoutId, at: Time): Result<Db, BillingError> {
    if c !in db.checkouts || db.checkouts[c].subscription !in db.subscriptions then Err(NotFound)
    else
      var id := db.checkouts[c].subscription;
      if SlotOccupied(db, db.subscriptions[id].guild, Some(id)) then Err(SlotTaken)
      else Ok(db.(checkouts :=
                  db.checkouts[c := db.checkouts[c].(state := CheckoutFailed, version := db.checkouts[c].version + 1)],
                  subscriptions := db.subscriptions[id := CancelledByFailure(db.subscriptions[id], at)]))
  }

  /** The query of the expiry sweep returns this checkout, joined with its subscription. */
  predicate SweepFinds(db: Db, c: CheckoutId, before: Time) {
    && c in db.checkouts && db.checkouts[c].subscription in db.subscriptions
    && db.checkouts[c].expiresAt <= before && OpenCheckoutState(db.checkouts[c].state)
  }

  function ExpiredCheckout(c: Checkout): Checkout {
    c.(state := CheckoutExpired, version := c.version + 1)
  }

  function ExpiredSubscription(s: Subscription, before: Time): Subscription {
    s.(status := Expired, endedAt := Some(before), version := s.version + 1)
  }

  /** The guarded update of the subscription: still awaiting payment, under the version the query returned. */
  function ExpireAwaiting(subscriptions: map<SubscriptionId, Subscription>, id: SubscriptionId, seen: Subscription,
      before: Time): map<SubscriptionId, Subscription> {
    if Awaiting(seen.status) && id in subscriptions && subscriptions[id].version == seen.version
       && Awaiting(subscriptions[id].status)
    then subscriptions[id := ExpiredSubscription(subscriptions[id], before)] else subscriptions
  }

  /** One checkout of the expiry sweep, from the checkout and subscription that its query returned. */
  function SweepCheckout(db: Db, c: CheckoutId, seen: Checkout, seenSubscription: Subscription, before: Time): Db {
    if c in db.checkouts && db.checkouts[c].version == seen.version && OpenCheckoutState(db.checkouts[c].state) then
      db.(checkouts := db.checkouts[c := ExpiredCheckout(db.checkouts[c])],
          subscriptions := ExpireAwaiting(db.subscriptions, seen.subscription, seenSubscription, before))
    else db
  }

  // ----- expiry job and administrators -----

  function ExpireUpdate(id: SubscriptionId, version: nat, at: Time): StateUpdate {
    StatusOnly(id, Expired, version).(
      periodEnd := Put(Some(at)), endedAt := Put(Some(at)),
      cancellation := Put(CancellationDone), cancelAtPeriodEnd := Put(false))
  }

  /** The expiry job acts only on the merchant-driven provider and only on the period it was queued for. */
  predicate ExpiryDue(s: Subscription, expectedAt: Time, now: Time) {
    s.provider.Paytr? && s.periodEnd == Some(expectedAt) && expectedAt <= now
  }

  predicate Suspendable(status: Status) {
    status in {Active, PastDue, GracePeriod}
  }

  predicate PromotionRow(k: RowKey, g: GuildId, reference: nat) {
    k.guild == g && k.source == ManualPromotion && k.reference == reference
  }

  function PromotedRows(rows: map<RowKey, Row>, g: GuildId, reference: nat, keys: set<EntitlementKey>, now: Time,
      endsAt: Time): map<RowKey, Row> {
    map k | k in rows.Keys + (set key | key in keys :: RowKey(g, key, ManualPromotion, reference)) ::
      if PromotionRow(k, g, reference) && k.key in keys then Row(now, Some(endsAt), RowActive) else rows[k]
  }

  function BumpedVersion(db: Db, g: GuildId): map<GuildId, nat>
    requires g in db.guildVersion
  {
    db.guildVersion[g := db.guildVersion[g] + 1]
  }

  function GrantPromotion(db: Db, g: GuildId, reference: nat, featureSet: nat, now: Time,
      endsAt: Time): Result<Db, BillingError> {
    if endsAt <= now || endsAt > now + 366 * DAY then Err(CheckViolation)
    else if featureSet !in db.catalogue then Err(UnsupportedFeatureSet)
    else if g !in db.guildVersion then Err(NotFound)
    else Ok(db.(rows := PromotedRows(db.rows, g, reference, KeySet(db.catalogue[featureSet]), now, endsAt),
                guildVersion := BumpedVersion(db, g)))
  }

  function RevokedRows(rows: map<RowKey, Row>, g: GuildId, reference: nat, now: Time): map<RowKey, Row> {
    map k | k in rows ::
      if PromotionRow(k, g, reference) && rows[k].status == RowActive
         then rows[k].(status := RowRevoked, endsAt := Some(now)) else rows[k]
  }

  predicate PromotionActive(rows: map<RowKey, Row>, g: GuildId, reference: nat) {
    exists k :: k in rows && PromotionRow(k, g, reference) && rows[k].status == RowActive
  }

  function RevokePromotion(db: Db, g: GuildId, reference: nat, now: Time): Result<Db, BillingError> {
    if !PromotionActive(db.rows, g, reference) then Err(NotFound)
    else if exists k ::
        k in db.rows && PromotionRow(k, g, reference) && db.rows[k].status == RowActive
        && db.rows[k].startsAt >= now then
      Err(CheckViolation)
    else if g !in db.guildVersion then Err(NotFound)
    else Ok(db.(rows := RevokedRows(db.rows, g, reference, now), guildVersion := BumpedVersion(db, g)))
  }

  // ----- runs -----

  datatype Step =
    | Open(id: SubscriptionId, checkout: CheckoutId, purchase: Purchase)
    | Ready(checkout: CheckoutId, session: nat, expiresAt: Time)
    | Fail(checkout: CheckoutId, at: Time)
    | Sweep(checkout: CheckoutId, readAt: nat, before: Time)
    | Receive(key: EventKey, event: Event)
    | Begin(key: EventKey)
    | BindEvent(key: EventKey, readAt: nat)
    | Commit(key: EventKey, boundAt: nat, readAt: nat, countAt: nat, snapshot: Snapshot, graceDays: nat)
    | Close(key: EventKey, commitAt: nat)
    | GiveUp(key: EventKey)
    | MarkRetried(key: EventKey, readAt: nat, foundAt: nat, reconciledAt: nat)
    | Reconcile(id: SubscriptionId, readAt: nat, snapshot: Snapshot, graceDays: nat, now: Time)
    | Suspend(id: SubscriptionId, readAt: nat, expectedVersion: nat, now: Time)
    | ExpireJob(id: SubscriptionId, readAt: nat, expectedAt: Time, now: Time)
    | Promote(guild: GuildId, reference: nat, featureSet: nat, now: Time, endsAt: Time)
    | Demote(guild: GuildId, reference: nat, now: Time)

  /** The steps of the webhook path. */
  predicate EventStep(step: Step) {
    step.Receive? || step.Begin? || step.BindEvent? || step.Commit? || step.Close? || step.GiveUp? || step.MarkRetried?
  }

  /**
   What a step did: it bound an event, it reconciled a subscription that was up to date, or it changed one
   through the central transaction, in a reconciliation or otherwise.
   */
  datatype Note =
    | Nothing
    | BoundEvent(key: EventKey)
    | UpToDate(id: SubscriptionId)
    | Applied(id: SubscriptionId, now: Time, success: bool, receipt: Option<EventKey>, event: Option<EventKey>,
        reconciled: bool)

  datatype Moment = Moment(db: Db, note: Note)

  function Quiet(db: Db, r: Result<Db, BillingError>): Moment {
    Moment(if r.Ok? then r.value else db, Nothing)
  }

  /** An event that carries the provider's word that a payment succeeded. */
  predicate PaymentSignal(e: Event, p: Snapshot) {
    e.kind.Paid? || (e.kind.DisputeResolved? && p.latestPayment.Succeeded?)
  }

  predicate PaidWithAmount(e: Event) {
    e.kind.Paid? && e.kind.amount.Some? && e.kind.currency.Some?
  }

  /**
   One step of the system.  A decision is taken on the record read at an earlier moment `readAt` of
   the same run, and written to the database as it is now: reads and transactions interleave freely.
   */
  ghost function Execute(trace: seq<Moment>, step: Step): Moment
    requires |trace| > 0
  {
    var db := trace[|trace| - 1].db;
    match step
    case Open(id, c, p) => Quiet(db, OpenCheckout(db, id, c, p))
    case Ready(c, session, expiresAt) => Quiet(db, SessionReady(db, c, session, expiresAt))
    case Fail(c, at) => Quiet(db, FailCheckout(db, c, at))
    case Sweep(c, readAt, before) =>
      if readAt >= |trace| then Moment(db, Nothing)
      else
        var seen := trace[readAt].db;
        if !SweepFinds(seen, c, before) then Moment(db, Nothing)
        else Moment(SweepCheckout(db, c, seen.checkouts[c], seen.subscriptions[seen.checkouts[c].subscription],
                                  before), Nothing)
    case Receive(key, e) =>
      if key in db.events || e.provider != key.provider then Moment(db, Nothing)
      else Moment(db.(events := db.events[key := EventRecord(e, Received, 0)]), Nothing)
    case Begin(key) =>
      if key !in db.events then Moment(db, Nothing)
      else Moment(db.(events := db.events[key := db.events[key].(progress := Processing)]), Nothing)
    case BindEvent(key, readAt) =>
      if key !in db.events || readAt >= |trace| then Moment(db, Nothing)
      else
        var r := BindRead(db, trace[readAt].db, db.events[key].event);
        if r.Ok? then Moment(r.value, BoundEvent(key)) else Moment(db, Nothing)
    case Commit(key, boundAt, readAt, countAt, p, graceDays) =>
      if key !in db.events || !(boundAt <= readAt <= countAt < |trace|) || trace[boundAt].note != BoundEvent(key)
         then Moment(db, Nothing)
      else
        var e := db.events[key].event;
        CommitMoment(db, trace[readAt].db, key, e, p, graceDays, CountedPaid(trace[readAt].db, trace[countAt].db, e))
    case Close(key, commitAt) =>
      if key !in db.events || !(0 < commitAt < |trace|) || !CommittedFor(trace[commitAt - 1].db, trace[commitAt], key)
         then Moment(db, Nothing)
      else
        var id := trace[commitAt].note.id;
        Moment(Settle(db, id, db.events[key].event, trace[commitAt - 1].db.subscriptions[id].status,
                      trace[commitAt].db.subscriptions[id].status), Nothing)
    case GiveUp(key) =>
      if key !in db.events then Moment(db, Nothing)
      else Moment(db.(events :=
                      db.events[key := db.events[key].(progress := ProcessingFailed,
                                                       attempts := db.events[key].attempts + 1)]), Nothing)
    case MarkRetried(key, _, _, _) =>
      if !Marks(trace, step) then Moment(db, Nothing)
      else Moment(db.(events := MarkProcessed(db.events, key)), Nothing)
    case Reconcile(id, readAt, p, graceDays, now) =>
      if readAt >= |trace| || id !in trace[readAt].db.subscriptions then Moment(db, Nothing)
      else
        var r := CommitSnapshot(db, id, trace[readAt].db.subscriptions[id], p, graceDays, now);
        if r.Err? then Moment(db, Nothing)
        else if r.value.None? then Moment(db, UpToDate(id))
        else Moment(r.value.value, Applied(id, now, p.latestPayment.Succeeded?, None, None, true))
    case Suspend(id, readAt, version, now) =>
      if readAt >= |trace| || id !in trace[readAt].db.subscriptions
         || !Suspendable(trace[readAt].db.subscriptions[id].status) then Moment(db, Nothing)
      else ApplyMoment(db, StatusOnly(id, Suspended, version), now, false, None)
    case ExpireJob(id, readAt, expectedAt, now) =>
      if readAt >= |trace| || id !in trace[readAt].db.subscriptions
         || !ExpiryDue(trace[readAt].db.subscriptions[id], expectedAt, now) then Moment(db, Nothing)
      else ApplyMoment(db, ExpireUpdate(id, trace[readAt].db.subscriptions[id].version, expectedAt), now, false, None)
    case Promote(g, reference, featureSet, now, endsAt) =>
      Quiet(db, GrantPromotion(db, g, reference, featureSet, now, endsAt))
    case Demote(g, reference, now) => Quiet(db, RevokePromotion(db, g, reference, now))
  }

  /** The successful payments of the subscription are counted in a query of their own, after the record was read. */
  ghost predicate CountedPaid(seen: Db, later: Db, e: Event) {
    Target(seen, e).Some? && HasSucceeded(later.ledger, Target(seen, e).value)
  }

  /** The retry job takes up an event that is neither processed nor ignored. */
  predicate Retriable(seen: Db, key: EventKey) {
    key in seen.events && !seen.events[key].progress.Processed? && !seen.events[key].progress.Ignored?
  }

  /** The moment is the successful end of a reconciliation of this subscription. */
  predicate Reconciles(m: Moment, id: SubscriptionId) {
    m.note == UpToDate(id) || (m.note.Applied? && m.note.reconciled && m.note.id == id)
  }

  /**
   The retry job marks the event: it read it as retriable, then found its subscription by the index, then the
   reconciliation of that subscription succeeded.  The event itself is not applied.
   */
  ghost predicate Marks(trace: seq<Moment>, step: Step)
    requires |trace| > 0
  {
    && step.MarkRetried? && step.key in trace[|trace| - 1].db.events
    && step.readAt <= step.foundAt < step.reconciledAt < |trace| && Retriable(trace[step.readAt].db, step.key)
    && var found := BoundSubscription(trace[step.foundAt].db, step.key.provider,
                                      trace[step.readAt].db.events[step.key].event.subscription);
       found.Some? && Reconciles(trace[step.reconciledAt], found.value)
  }

  /** The moment committed the event through the central transaction; its checkouts are closed afterwards. */
  predicate CommittedFor(before: Db, m: Moment, key: EventKey) {
    m.note.Applied? && m.note.event == Some(key) && m.note.id in before.subscriptions && m.note.id in m.db.subscriptions
  }

  function ApplyMoment(db: Db, u: StateUpdate, now: Time, success: bool, receipt: Option<EventKey>): Moment {
    var r := ApplyState(db, u, now);
    if r.Ok? then Moment(r.value, Applied(u.subscription, now, success, receipt, u.event, false))
       else Moment(db, Nothing)
  }

  ghost function CommitMoment(db: Db, seen: Db, key: EventKey, e: Event, p: Snapshot, graceDays: nat,
      paidBefore: bool): Moment {
    var target := Target(seen, e);
    if target.None? then Moment(db, Nothing)
    else
      var s := seen.subscriptions[target.value];
      if !AmountMatches(s, e) then Moment(db, Nothing)
      else if PartialRefundEvent(e) then Quiet(db, RecordPartialRefund(db, target.value, key, e))
      else ApplyMoment(db, Decide(target.value, s, key, e, p, graceDays, paidBefore), e.occurredAt,
                       PaymentSignal(e, p), if PaidWithAmount(e) then Some(key) else None)
  }

  /** Every moment of the run that performs `steps` from `start`. */
  ghost function Run(start: Db, steps: seq<Step>): (trace: seq<Moment>)
    ensures |trace| == |steps| + 1
    decreases |steps|
  {
    if steps == [] then [Moment(start, Nothing)]
    else
      var before := Run(start, steps[..|steps| - 1]);
      before + [Execute(before, steps[|steps| - 1])]
  }

  /** An empty deployment with the given guilds. */
  ghost predicate Fresh(db: Db) {
    && db.subscriptions == map[] && db.rows == map[] && db.ledger == map[] && db.checkouts == map[]
       && db.events == map[] && db.customers == map[]
    && forall g :: g in db.guildVersion ==> db.guildVersion[g] > 0
  }
}
