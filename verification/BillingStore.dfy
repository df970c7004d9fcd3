/**
 The billing services as they work: a store whose tables are updated in place.  Each transaction
 works on copies of the tables it writes and assigns them back when nothing aborted.
 */
module BillingStore {
  import opened Common
  import opened Lifecycle
  import opened BillingModel
  import opened ProviderEvents
  import opened BillingSteps
  import Effects = EventEffects

  /** The rows after the upserts for `done`, before anything is revoked. */
  ghost function UpsertedRows(
    rows: map<RowKey, Row>, g: GuildId, id: SubscriptionId, startsAt: Time, done: set<EntitlementKey>,
      endsAt: Option<Time>): map<RowKey, Row>
  {
    map k | k in rows.Keys + (set key | key in done :: SubscriptionRow(g, key, id)) ::
      if OwnedBy(k, g, id) && k.key in done
         then Row(if k in rows then rows[k].startsAt else startsAt, endsAt, RowActive) else rows[k]
  }

  lemma UpsertStep(rows: map<RowKey, Row>, g: GuildId, id: SubscriptionId, startsAt: Time, done: set<EntitlementKey>,
      endsAt: Option<Time>, key: EntitlementKey)
    ensures var before := UpsertedRows(rows, g, id, startsAt, done, endsAt);
            var k := SubscriptionRow(g, key, id);
            UpsertedRows(rows, g, id, startsAt, done + {key}, endsAt)
            == before[k := if k in before then before[k].(endsAt := endsAt, status := RowActive)
                      else Row(startsAt, endsAt, RowActive)]
  {
  }

  lemma KeySetStep(keys: seq<EntitlementKey>, i: nat)
    requires i < |keys|
    ensures KeySet(keys[..i + 1]) == KeySet(keys[..i]) + {keys[i]}
  {
    assert keys[..i + 1] == keys[..i] + [keys[i]];
  }

  function DesiredRow(rows: map<RowKey, Row>, k: RowKey, startsAt: Time, endsAt: Option<Time>): Row {
    Row(if k in rows then rows[k].startsAt else startsAt, endsAt, RowActive)
  }

  ghost predicate DesiredRowsCheck(rows: map<RowKey, Row>, g: GuildId, id: SubscriptionId, startsAt: Time,
      desired: set<EntitlementKey>, endsAt: Option<Time>) {
    forall key :: key in desired ==> RowChecks(DesiredRow(rows, SubscriptionRow(g, key, id), startsAt, endsAt))
  }

  /** The rows of the subscription that are not desired. */
  ghost function OtherRows(rows: map<RowKey, Row>, g: GuildId, id: SubscriptionId,
      desired: set<EntitlementKey>): set<RowKey> {
    set k | k in rows && OwnedBy(k, g, id) && k.key !in desired
  }

  /** The CHECK of the synchronized rows is that of the upserts and that of the revocations. */
  lemma CheckSplits(rows: map<RowKey, Row>, g: GuildId, id: SubscriptionId, startsAt: Time,
      desired: set<EntitlementKey>, endsAt: Option<Time>, now: Time)
    ensures OwnedRowsCheck(SyncedRows(rows, g, id, startsAt, desired, endsAt, now), g, id)
            == (DesiredRowsCheck(rows, g, id, startsAt, desired, endsAt) && forall k ::
                k in OtherRows(rows, g, id, desired) ==> rows[k].startsAt < now)
  {
    var goal := SyncedRows(rows, g, id, startsAt, desired, endsAt, now);
    forall k | k in goal && OwnedBy(k, g, id)
      ensures goal[k] == if k.key in desired then DesiredRow(rows, k, startsAt, endsAt)
              else Row(rows[k].startsAt, Some(now), RowRevoked)
      ensures k == SubscriptionRow(g, k.key, id)
    {
    }
    forall key | key in desired
      ensures SubscriptionRow(g, key, id) in goal
    {
    }
    forall k | k in OtherRows(rows, g, id, desired)
      ensures k in goal && !(k.key in desired)
    {
    }
    hide SyncedRows;
  }

  lemma CompletingSettles(checkouts: map<CheckoutId, Checkout>, id: SubscriptionId, e: Event, seen: Status,
      next: Status)
    requires next.Active?
    ensures forall c :: c in checkouts ==>
              Settled(checkouts[c], id, e, seen, next)
              == if checkouts[c].subscription == id && checkouts[c].state.ProviderPending?
                 then checkouts[c].(state := Completed, version := checkouts[c].version + 1) else checkouts[c]
  {
  }

  lemma FailingSettles(checkouts: map<CheckoutId, Checkout>, id: SubscriptionId, e: Event, seen: Status, next: Status)
    requires !next.Active? && e.kind.PaymentFailed? && Awaiting(seen)
    ensures forall c :: c in checkouts ==>
              Settled(checkouts[c], id, e, seen, next)
              == if checkouts[c].subscription == id && OpenCheckoutState(checkouts[c].state)
                 then checkouts[c].(state := CheckoutFailed, version := checkouts[c].version + 1) else checkouts[c]
  {
  }

  lemma NothingToSettle(checkouts: map<CheckoutId, Checkout>, id: SubscriptionId, e: Event, seen: Status, next: Status)
    requires !next.Active? && !(e.kind.PaymentFailed? && Awaiting(seen))
    ensures forall c :: c in checkouts ==> Settled(checkouts[c], id, e, seen, next) == checkouts[c]
  {
  }

  lemma SettlePointwise(db: Db, id: SubscriptionId, e: Event, seen: Status, next: Status,
      checkouts: map<CheckoutId, Checkout>)
    requires checkouts.Keys == db.checkouts.Keys
    requires forall c :: c in checkouts ==> checkouts[c] == Settled(db.checkouts[c], id, e, seen, next)
    ensures Settle(db, id, e, seen, next) == db.(checkouts := checkouts)
  {
    assert Settle(db, id, e, seen, next).checkouts == checkouts;
  }

  /** The sweep over the answer of one query, nobody else writing meanwhile. */
  ghost function SweptAll(db: Db, found: seq<CheckoutId>, before: Time): Db
    requires forall c :: c in found ==> SweepFinds(db, c, before)
  {
    if found == [] then db
    else
      var c := found[|found| - 1];
      assert SweepFinds(db, c, before);
      SweepCheckout(SweptAll(db, found[..|found| - 1], before), c, db.checkouts[c],
                    db.subscriptions[db.checkouts[c].subscription], before)
  }

  ghost predicate Found(db: Db, found: seq<CheckoutId>, id: SubscriptionId) {
    exists c :: c in found && c in db.checkouts && db.checkouts[c].subscription == id
  }

  function SweptCheckouts(checkouts: map<CheckoutId, Checkout>, found: seq<CheckoutId>): map<CheckoutId, Checkout> {
    map c | c in checkouts :: if c in found then ExpiredCheckout(checkouts[c]) else checkouts[c]
  }

  ghost function SweptSubscriptions(db: Db, found: seq<CheckoutId>, before: Time): map<SubscriptionId, Subscription> {
    map id | id in db.subscriptions ::
      if Awaiting(db.subscriptions[id].status) && Found(db, found, id)
         then ExpiredSubscription(db.subscriptions[id], before)
      else db.subscriptions[id]
  }

  /** The checkouts and subscriptions after the sweep over `found`, record by record. */
  ghost predicate SweptRecords(db: Db, swept: Db, found: seq<CheckoutId>, before: Time) {
    swept.checkouts == SweptCheckouts(db.checkouts, found)
      && swept.subscriptions == SweptSubscriptions(db, found, before)
  }

  lemma FoundOneMore(db: Db, front: seq<CheckoutId>, c: CheckoutId, id: SubscriptionId)
    requires c in db.checkouts
    ensures Found(db, front + [c], id) <==> Found(db, front, id) || db.checkouts[c].subscription == id
  {
    if Found(db, front, id) {
      var x :| x in front && x in db.checkouts && db.checkouts[x].subscription == id;
      assert x in front + [c];
    }
    assert c in front + [c];
  }

  lemma SweepOneMore(db: Db, swept: Db, front: seq<CheckoutId>, c: CheckoutId, before: Time)
    requires SweptRecords(db, swept, front, before) && SweepFinds(db, c, before) && c !in front
    ensures SweptRecords(db,
                         SweepCheckout(swept, c, db.checkouts[c], db.subscriptions[db.checkouts[c].subscription],
                                       before), front + [c], before)
  {
    var id := db.checkouts[c].subscription;
    var owner := db.subscriptions[id];
    assert swept.checkouts[c] == db.checkouts[c] && id in swept.subscriptions;
    assert swept.subscriptions[id] == owner || swept.subscriptions[id] == ExpiredSubscription(owner, before);
    SweepClosesOne(swept, c, db.checkouts[c], owner, before);
    SweepExpiresOne(swept, c, db.checkouts[c], owner, before);
    OneMoreCheckout(db.checkouts, front, c);
    OneMoreSubscription(db, front, c, before);
    hide SweepCheckout, SweptCheckouts, SweptSubscriptions, ExpiredSubscription, ExpiredCheckout, Awaiting;
  }

  lemma OneMoreCheckout(checkouts: map<CheckoutId, Checkout>, front: seq<CheckoutId>, c: CheckoutId)
    requires c in checkouts && c !in front
    ensures SweptCheckouts(checkouts, front + [c])
            == SweptCheckouts(checkouts, front)[c := ExpiredCheckout(checkouts[c])]
  {
  }

  lemma OneMoreSubscription(db: Db, front: seq<CheckoutId>, c: CheckoutId, before: Time)
    requires c in db.checkouts && db.checkouts[c].subscription in db.subscriptions
    ensures var id := db.checkouts[c].subscription;
            SweptSubscriptions(db, front + [c], before)
            == if Awaiting(db.subscriptions[id].status)
               then SweptSubscriptions(db, front, before)[id := ExpiredSubscription(db.subscriptions[id], before)]
               else SweptSubscriptions(db, front, before)
  {
    forall other | other in db.subscriptions
      ensures Found(db, front + [c], other) <==> Found(db, front, other) || other == db.checkouts[c].subscription
    {
      FoundOneMore(db, front, c, other);
    }
    hide Found, ExpiredSubscription, Awaiting;
  }

  lemma SweepClosesOne(swept: Db, c: CheckoutId, seen: Checkout, owner: Subscription, before: Time)
    requires c in swept.checkouts && swept.checkouts[c] == seen && OpenCheckoutState(seen.state)
    ensures SweepCheckout(swept, c, seen, owner, before).checkouts == swept.checkouts[c := ExpiredCheckout(seen)]
  {
  }

  lemma SweepExpiresOne(swept: Db, c: CheckoutId, seen: Checkout, owner: Subscription, before: Time)
    requires c in swept.checkouts && swept.checkouts[c] == seen && OpenCheckoutState(seen.state)
             && seen.subscription in swept.subscriptions
    requires var s := swept.subscriptions[seen.subscription]; s == owner || s == ExpiredSubscription(owner, before)
    ensures SweepCheckout(swept, c, seen, owner, before).subscriptions
            == if Awaiting(owner.status)
              then swept.subscriptions[seen.subscription := ExpiredSubscription(owner, before)] else swept.subscriptions
  {
  }

  /** An undisturbed sweep expires every checkout it found, and every subscription of theirs that awaited payment. */
  lemma {:induction false} SweepExpiresWhatItFound(db: Db, found: seq<CheckoutId>, before: Time)
    requires (forall c :: c in found ==> SweepFinds(db, c, before)) && NoDuplicates(found)
    ensures SweptRecords(db, SweptAll(db, found, before), found, before)
  {
    if found != [] {
      var front, c := found[..|found| - 1], found[|found| - 1];
      SweepExpiresWhatItFound(db, front, before);
      assert found == front + [c] && c !in front;
      SweepOneMore(db, SweptAll(db, front, before), front, c, before);
      hide SweptRecords, SweepCheckout;
    }
  }

  /** Reconciling one subscription with nobody else writing between its query and its transaction. */
  function Reconciled(db: Db, id: SubscriptionId, p: Snapshot, graceDays: nat, now: Time): Handled {
    if id !in db.subscriptions then Handled(db, Some(NotFound))
    else
      var r := CommitSnapshot(db, id, db.subscriptions[id], p, graceDays, now);
      if r.Err? then Handled(db, Some(r.error))
      else if r.value.Some? then Handled(r.value.value, None)
      else Handled(db, None)
  }

  function Expiry(db: Db, id: SubscriptionId, g: GuildId, expectedAt: Time, p: Snapshot, graceDays: nat,
      now: Time): Handled {
    if id !in db.subscriptions || db.subscriptions[id].guild != g then Handled(db, Some(NotFound))
    else if db.subscriptions[id].provider.Stripe? then Reconciled(db, id, p, graceDays, now)
    else if !ExpiryDue(db.subscriptions[id], expectedAt, now) then Handled(db, None)
    else
      var r := BillingModel.ApplyState(db, ExpireUpdate(id, db.subscriptions[id].version, expectedAt), now);
      if r.Err? then Handled(db, Some(r.error)) else Handled(r.value, None)
  }

  ghost function Retried(db: Db, key: EventKey, p: Snapshot, graceDays: nat, now: Time): Handled {
    if key !in db.events then Handled(db, Some(NotFound))
    else if db.events[key].progress.Processed? || db.events[key].progress.Ignored? then Handled(db, None)
    else
      var found := BoundSubscription(db, key.provider, db.events[key].event.subscription);
      if found.None? then Handled(db, Some(NotFound))
      else
        var done := Reconciled(db, found.value, p, graceDays, now);
        if done.error.Some? || key !in done.db.events then done
        else Handled(done.db.(events := MarkProcessed(done.db.events, key)), None)
  }

  lemma ReconcileKeepsEvents(db: Db, id: SubscriptionId, p: Snapshot, graceDays: nat, now: Time)
    ensures Reconciled(db, id, p, graceDays, now).db.events == db.events
  {
    if id in db.subscriptions && StateFromSnapshot(db.subscriptions[id].status, p, graceDays, now).Ok? {
      var s := db.subscriptions[id];
      var u := ReconcileUpdate(id, s, p, StateFromSnapshot(s.status, p, graceDays, now).value, now);
      if BillingModel.ApplyState(db, u, now).Ok? {
        ApplyShape(db, u, now, BillingModel.ApplyState(db, u, now).value);
      }
    }
    hide BillingModel.ApplyState, StateFromSnapshot;
  }

  class Store {
    const catalogue: Catalogue
    const graceDays: nat
    var subscriptions: map<SubscriptionId, Subscription>
    var rows: map<RowKey, Row>
    var ledger: map<EventKey, Payment>
    var checkouts: map<CheckoutId, Checkout>
    var events: map<EventKey, EventRecord>
    var customers: map<CustomerKey, nat>
    var guildVersion: map<GuildId, nat>

    ghost function Contents(): Db
      reads this
    {
      Db(catalogue, subscriptions, rows, ledger, checkouts, events, customers, guildVersion)
    }

    /** The unique index the database maintains. */
    ghost predicate Valid()
      reads this
    {
      UniqueBindings(subscriptions)
    }

    constructor (catalogue: Catalogue, graceDays: nat, guilds: set<GuildId>)
      ensures Valid() && Fresh(Contents())
      ensures this.catalogue == catalogue && this.graceDays == graceDays && guildVersion.Keys == guilds
    {
      this.catalogue := catalogue;
      this.graceDays := graceDays;
      subscriptions, rows, ledger, checkouts, events, customers := map[], map[], map[], map[], map[], map[];
      guildVersion := map g | g in guilds :: 1;
    }

    /** Upsert the desired rows one by one; refused when one of them would end before it starts. */
    method UpsertRows(id: SubscriptionId, g: GuildId, startsAt: Time, desired: seq<EntitlementKey>,
        endsAt: Option<Time>)
      returns (ok: bool, upserted: map<RowKey, Row>)
      ensures ok <==> DesiredRowsCheck(rows, g, id, startsAt, KeySet(desired), endsAt)
      ensures ok ==> upserted == UpsertedRows(rows, g, id, startsAt, KeySet(desired), endsAt)
    {
      ghost var done: set<EntitlementKey> := {};
      upserted := rows;
      var i := 0;
      while i < |desired|
        invariant 0 <= i <= |desired| && done == KeySet(desired[..i])
        invariant upserted == UpsertedRows(rows, g, id, startsAt, done, endsAt)
        invariant DesiredRowsCheck(rows, g, id, startsAt, done, endsAt)
      {
        var k := SubscriptionRow(g, desired[i], id);
        var row := if k in upserted then upserted[k].(endsAt := endsAt, status := RowActive)
          else Row(startsAt, endsAt, RowActive);
        assert row == DesiredRow(rows, k, startsAt, endsAt);
        if row.endsAt.Some? && row.startsAt >= row.endsAt.value {
          assert desired[i] in KeySet(desired);
          return false, rows;
        }
        KeySetStep(desired, i);
        UpsertStep(rows, g, id, startsAt, done, endsAt, desired[i]);
        upserted := upserted[k := row];
        done := done + {desired[i]};
        i := i + 1;
      }
      assert desired[..i] == desired;
      ok := true;
    }

    /** Upsert the desired rows, then revoke the subscription's other rows. */
    method SyncRows(id: SubscriptionId, s: Subscription, desired: seq<EntitlementKey>, endsAt: Option<Time>, now: Time)
      returns (ok: bool, synced: map<RowKey, Row>)
      ensures ok <==> OwnedRowsCheck(SyncedRows(rows, s.guild, id, StartOf(s, now), KeySet(desired), endsAt, now),
                                     s.guild, id)
      ensures ok ==> synced == SyncedRows(rows, s.guild, id, StartOf(s, now), KeySet(desired), endsAt, now)
    {
      CheckSplits(rows, s.guild, id, StartOf(s, now), KeySet(desired), endsAt, now);
      ok, synced := UpsertRows(id, s.guild, StartOf(s, now), desired, endsAt);
      if !ok {
        return;
      }
      var others := set k | k in rows && OwnedBy(k, s.guild, id) && k.key !in desired;
      assert others == OtherRows(rows, s.guild, id, KeySet(desired));
      if exists k :: k in others && rows[k].startsAt >= now {
        return false, rows;
      }
      synced := map k | k in synced :: if k in others then rows[k].(status := RowRevoked, endsAt := Some(now))
        else synced[k];
      assert synced == SyncedRows(rows, s.guild, id, StartOf(s, now), KeySet(desired), endsAt, now);
      hide SyncedRows, OwnedRowsCheck, DesiredRowsCheck, KeySet;
    }

    /** Upsert one ledger row; a new row needs a positive amount. */
    method WritePayment(id: SubscriptionId, w: PaymentWrite) returns (ok: bool, ledger': map<EventKey, Payment>)
      ensures ok == PaymentChecks(ledger, w)
      ensures ok ==> ledger' == UpsertPayment(ledger, id, w)
    {
      if w.key !in ledger {
        if w.amount == 0 {
          return false, ledger;
        }
        return true, ledger[w.key := Payment(id, w.kind, w.status, w.amount, w.currency, w.paidAt, w.refundedAt,
                                             w.disputedAt)];
      }
      var row := ledger[w.key].(status := w.status);
      if w.paidAt.Some? {
        row := row.(paidAt := w.paidAt);
      }
      if w.refundedAt.Some? {
        row := row.(refundedAt := w.refundedAt);
      }
      if w.disputedAt.Some? {
        row := row.(disputedAt := w.disputedAt);
      }
      return true, ledger[w.key := row];
    }

    /** The checks before anything is written. */
    method CheckUpdate(u: StateUpdate) returns (error: Option<BillingError>)
      ensures error == ApplyGuard(Contents(), u)
    {
      if u.subscription !in subscriptions {
        return Some(NotFound);
      }
      var current := subscriptions[u.subscription];
      if current.version != u.expectedVersion {
        return Some(VersionConflict);
      }
      if u.providerClock.Put? && u.providerClock.value.Some? && current.providerClock.Some?
         && u.providerClock.value.value < current.providerClock.value {
        return Some(StaleProviderState);
      }
      if !CanTransition(current.status, u.next) {
        return Some(IllegalTransition);
      }
      if u.next.GracePeriod? && (u.graceEnd.Keep? || u.graceEnd.value.None?) {
        return Some(UnboundedGrace);
      }
      error := None;
    }

    method ApplyState(u: StateUpdate, now: Time) returns (error: Option<BillingError>)
      modifies this
      ensures error.None? ==> BillingModel.ApplyState(old(Contents()), u, now) == Ok(Contents())
      ensures error.Some? ==>
                BillingModel.ApplyState(old(Contents()), u, now) == Err(error.value) && Contents() == old(Contents())
    {
      hide Updated, SubscriptionChecks, PaymentChecks, UpsertPayment, SyncedRows, OwnedRowsCheck, CanTransition,
           KeySet, StartOf;
      error := CheckUpdate(u);
      if error.Some? {
        return;
      }
      var current := subscriptions[u.subscription];
      var updated := Updated(current, u);
      if !SubscriptionChecks(updated) {
        return Some(CheckViolation);
      }
      var ledger' := ledger;
      if u.payment.Some? {
        var written;
        written, ledger' := WritePayment(u.subscription, u.payment.value);
        if !written {
          return Some(CheckViolation);
        }
      }
      var grant := GrantOf(updated, now);
      var desired: seq<EntitlementKey> := [];
      if grant.grants {
        if updated.featureSet !in catalogue {
          return Some(UnsupportedFeatureSet);
        }
        desired := catalogue[updated.featureSet];
      }
      var ok, rows' := SyncRows(u.subscription, updated, desired, grant.endsAt, now);
      if !ok {
        return Some(CheckViolation);
      }
      if updated.guild !in guildVersion {
        return Some(NotFound);
      }
      if u.event.Some? && u.event.value !in events {
        return Some(NotFound);
      }
      subscriptions := subscriptions[u.subscription := updated];
      ledger := ledger';
      rows := rows';
      guildVersion := guildVersion[updated.guild := guildVersion[updated.guild] + 1];
      if u.event.Some? {
        events := MarkProcessed(events, u.event.value);
      }
      error := None;
    }

    /** Validate the checkout an event names and bind the provider's subscription to ours. */
    method Bind(e: Event) returns (error: Option<BillingError>)
      requires Valid()
      modifies this`subscriptions, this`customers
      ensures Valid()
      ensures error.None? ==> ProviderEvents.Bind(old(Contents()), e) == Ok(Contents())
      ensures error.Some? ==>
                ProviderEvents.Bind(old(Contents()), e) == Err(error.value) && Contents() == old(Contents())
    {
      if e.checkout.None? {
        return None;
      }
      if e.checkout.value !in checkouts {
        return Some(BindingConflict);
      }
      var c := checkouts[e.checkout.value];
      if c.subscription !in subscriptions {
        return Some(BindingConflict);
      }
      var s := subscriptions[c.subscription];
      if c.provider != e.provider || c.environment != e.environment || c.session.None? || c.session != e.providerObject
         || s.provider != e.provider || c.guild != s.guild || c.user != s.purchaser || c.plan != s.plan
            || c.expiresAt < e.occurredAt {
        return Some(BindingConflict);
      }
      if s.binding.Some? && s.binding.value != e.subscription {
        return Some(BindingConflict);
      }
      assert BindingAccepted(Contents(), e);
      if exists other ::
          other in subscriptions && other != c.subscription
          && Bound(subscriptions[other], e.provider, e.subscription) {
        return Some(BindingConflict);
      }
      assert !BindingTaken(Contents(), c.subscription, e.provider, e.subscription);
      var customers' := customers;
      if e.customer.Some? {
        var owner := CustomerKey(c.user, e.provider);
        if owner in customers {
          if customers[owner] != e.customer.value {
            return Some(BindingConflict);
          }
        } else if exists other ::
            other in customers && other.provider == e.provider && customers[other] == e.customer.value {
          return Some(BindingConflict);
        }
        customers' := customers[owner := e.customer.value];
      }
      hide BindingAccepted, BindingTaken, UniqueBindings;
      assert ProviderEvents.Bind(Contents(), e).Ok?;
      Effects.BindKeepsUnique(Contents(), Contents(), e);
      subscriptions := subscriptions[c.subscription := s.(binding := Some(e.subscription))];
      customers := customers';
      error := None;
    }

    /** The subscription the event is about. */
    method Find(e: Event) returns (id: Option<SubscriptionId>)
      requires Valid()
      ensures id == Target(Contents(), e)
    {
      if e.checkout.Some? {
        if e.checkout.value in checkouts && checkouts[e.checkout.value].subscription in subscriptions {
          return Some(checkouts[e.checkout.value].subscription);
        }
        return None;
      }
      id := FindBound(e.provider, e.subscription);
    }

    /** The subscription the unique index finds. */
    method FindBound(p: Provider, x: ProviderSubscriptionId) returns (id: Option<SubscriptionId>)
      requires Valid()
      ensures id == BoundSubscription(Contents(), p, x)
    {
      if exists found :: found in subscriptions && Bound(subscriptions[found], p, x) {
        var found :| found in subscriptions && Bound(subscriptions[found], p, x);
        return Some(found);
      }
      id := None;
    }

    method RecordPartialRefund(id: SubscriptionId, key: EventKey, e: Event) returns (error: Option<BillingError>)
      requires PartialRefundEvent(e)
      modifies this`ledger, this`events
      ensures error.None? ==> ProviderEvents.RecordPartialRefund(old(Contents()), id, key, e) == Ok(Contents())
      ensures error.Some? ==>
                ProviderEvents.RecordPartialRefund(old(Contents()), id, key, e) == Err(error.value)
                && Contents() == old(Contents())
    {
      if e.kind.refundAmount == 0 {
        return Some(CheckViolation);
      }
      if key !in events {
        return Some(NotFound);
      }
      ledger := ledger[key := PartialRefundRow(ledger, id, key, e)];
      events := MarkProcessed(events, key);
      error := None;
    }

    /** Complete or fail the checkouts of a subscription after an event. */
    method CloseCheckouts(id: SubscriptionId, e: Event, seen: Status, next: Status)
      modifies this`checkouts
      ensures Contents() == Settle(old(Contents()), id, e, seen, next)
    {
      hide Settle, Settled, Awaiting;
      var closed := checkouts;
      if next.Active? {
        closed := map c | c in checkouts ::
          if checkouts[c].subscription == id && checkouts[c].state.ProviderPending?
          then checkouts[c].(state := Completed, version := checkouts[c].version + 1) else checkouts[c];
        CompletingSettles(checkouts, id, e, seen, next);
      } else if e.kind.PaymentFailed? && Awaiting(seen) {
        closed := map c | c in checkouts ::
          if checkouts[c].subscription == id && OpenCheckoutState(checkouts[c].state)
          then checkouts[c].(state := CheckoutFailed, version := checkouts[c].version + 1) else checkouts[c];
        FailingSettles(checkouts, id, e, seen, next);
      } else {
        NothingToSettle(checkouts, id, e, seen, next);
      }
      SettlePointwise(Contents(), id, e, seen, next, closed);
      checkouts := closed;
    }

    method Process(key: EventKey, e: Event, snapshot: Snapshot) returns (error: Option<BillingError>)
      requires Valid()
      modifies this
      ensures Valid()
      ensures ProcessEvent(old(Contents()), key, e, snapshot, graceDays) == Handled(Contents(), error)
    {
      hide BillingModel.ApplyState, Decide, Settle, Target, UniqueBindings, ProviderEvents.Bind,
           ProviderEvents.RecordPartialRefund, AmountMatches;
      error := Bind(e);
      if error.Some? {
        return;
      }
      ghost var bound := Contents();
      var target := Find(e);
      if target.None? {
        return Some(NotFound);
      }
      var id := target.value;
      Targeted(bound, e);
      var seen := subscriptions[id];
      var paidBefore := HasSucceeded(ledger, id);
      if !AmountMatches(seen, e) {
        return Some(AmountMismatch);
      }
      if PartialRefundEvent(e) {
        error := RecordPartialRefund(id, key, e);
        return;
      }
      var u := Decide(id, seen, key, e, snapshot, graceDays, paidBefore);
      error := ApplyState(u, e.occurredAt);
      if error.Some? {
        return;
      }
      AppliedKeepsUnique(bound, u, e, Contents(), id, seen, key, snapshot, graceDays, paidBefore);
      CloseCheckouts(id, e, seen.status, subscriptions[id].status);
    }

    /** Receive a verified webhook, once. */
    method IngestWebhook(key: EventKey, e: Event, snapshot: Snapshot) returns (error: Option<BillingError>)
      requires Valid()
      modifies this
      ensures Valid()
      ensures Ingest(old(Contents()), key, e, snapshot, graceDays) == Handled(Contents(), error)
    {
      hide ProcessEvent, UniqueBindings;
      var attempts := 0;
      if key in events {
        var existing := events[key];
        if existing.event != e {
          return Some(ReplayMismatch);
        }
        if existing.progress in {Processed, Ignored, Processing} {
          return None;
        }
        attempts := existing.attempts;
      }
      events := events[key := EventRecord(e, Processing, attempts)];
      error := Process(key, e, snapshot);
      if error.Some? {
        events := events[key := EventRecord(e, ProcessingFailed, attempts + 1)];
      }
    }

    // ----- checkouts -----

    method CreateCheckout(id: SubscriptionId, c: CheckoutId, p: Purchase) returns (error: Option<BillingError>)
      requires Valid()
      modifies this`subscriptions, this`checkouts
      ensures Valid()
      ensures error.None? ==> OpenCheckout(old(Contents()), id, c, p) == Ok(Contents())
      ensures error.Some? ==>
                OpenCheckout(old(Contents()), id, c, p) == Err(error.value) && Contents() == old(Contents())
    {
      if p.guild !in guildVersion || !p.installed || !p.purchaserKnown {
        return Some(NotFound);
      }
      if id in subscriptions || c in checkouts || p.price == 0 || p.featureSet == 0 {
        return Some(CheckViolation);
      }
      if exists other ::
          other in subscriptions && subscriptions[other].guild == p.guild && Effective(subscriptions[other].status) {
        return Some(SlotTaken);
      }
      if exists other ::
          other in checkouts && checkouts[other].guild == p.guild && OpenCheckoutState(checkouts[other].state) {
        return Some(SlotTaken);
      }
      subscriptions := subscriptions[id := NewSubscription(p)];
      checkouts := checkouts[c := NewCheckout(id, p)];
      error := None;
    }

    method FailProviderCheckout(c: CheckoutId, at: Time) returns (error: Option<BillingError>)
      requires Valid()
      modifies this`subscriptions, this`checkouts
      ensures Valid()
      ensures error.None? ==> FailCheckout(old(Contents()), c, at) == Ok(Contents())
      ensures error.Some? ==> FailCheckout(old(Contents()), c, at) == Err(error.value) && Contents() == old(Contents())
    {
      if c !in checkouts || checkouts[c].subscription !in subscriptions {
        return Some(NotFound);
      }
      var id := checkouts[c].subscription;
      var g := subscriptions[id].guild;
      if exists other ::
          other in subscriptions && other != id && subscriptions[other].guild == g
          && Effective(subscriptions[other].status) {
        return Some(SlotTaken);
      }
      checkouts := checkouts[c := checkouts[c].(state := CheckoutFailed, version := checkouts[c].version + 1)];
      subscriptions := subscriptions[id := CancelledByFailure(subscriptions[id], at)];
      error := None;
    }

    /** The provider opened its session for a checkout. */
    method StartSession(c: CheckoutId, session: nat, expiresAt: Time) returns (error: Option<BillingError>)
      modifies this`checkouts
      ensures error.None? ==> SessionReady(old(Contents()), c, session, expiresAt) == Ok(Contents())
      ensures error.Some? ==>
                SessionReady(old(Contents()), c, session, expiresAt) == Err(error.value)
                && Contents() == old(Contents())
    {
      if c !in checkouts {
        return Some(NotFound);
      }
      var g := checkouts[c].guild;
      if exists other ::
          other in checkouts && other != c && checkouts[other].guild == g
          && OpenCheckoutState(checkouts[other].state) {
        ghost var other :| other in checkouts && other != c && checkouts[other].guild == g
          && OpenCheckoutState(checkouts[other].state);
        assert Some(other) != Some(c);
        return Some(SlotTaken);
      }
      checkouts := checkouts[c := checkouts[c].(
        state := ProviderPending, session := Some(session), expiresAt := expiresAt,
          version := checkouts[c].version + 1)];
      error := None;
    }

    // ----- snapshots and jobs -----

    /** Reconcile a subscription with the provider's snapshot of it. */
    method ReconcileAuthoritative(id: SubscriptionId, p: Snapshot, now: Time) returns (error: Option<BillingError>)
      modifies this
      ensures Reconciled(old(Contents()), id, p, graceDays, now) == Handled(Contents(), error)
    {
      hide BillingModel.ApplyState, StateFromSnapshot, ReconcileUpdate;
      if id !in subscriptions {
        return Some(NotFound);
      }
      var current := subscriptions[id];
      if current.binding.None? {
        return Some(BindingConflict);
      }
      var state := StateFromSnapshot(current.status, p, graceDays, now);
      if state.Err? {
        return Some(state.error);
      }
      if SnapshotUnchanged(current, p, state.value.next) {
        return None;
      }
      error := ApplyState(ReconcileUpdate(id, current, p, state.value, now), now);
    }

    /** The queued expiry: of a merchant-driven subscription directly, of any other through the provider's snapshot. */
    method ExpireEntitlement(id: SubscriptionId, g: GuildId, expectedAt: Time, p: Snapshot, now: Time)
      returns (error: Option<BillingError>)
      modifies this
      ensures Expiry(old(Contents()), id, g, expectedAt, p, graceDays, now) == Handled(Contents(), error)
    {
      hide BillingModel.ApplyState, ExpireUpdate, CommitSnapshot;
      if id !in subscriptions || subscriptions[id].guild != g {
        return Some(NotFound);
      }
      var s := subscriptions[id];
      if s.provider.Paytr? {
        if s.periodEnd != Some(expectedAt) || expectedAt > now {
          return None;
        }
        error := ApplyState(ExpireUpdate(id, s.version, expectedAt), now);
        return;
      }
      error := ReconcileAuthoritative(id, p, now);
    }

    /** The retry job: reconcile the subscription that the index finds, then mark the event without applying it. */
    method RetryEvent(key: EventKey, p: Snapshot, now: Time) returns (error: Option<BillingError>)
      requires Valid()
      modifies this
      ensures Retried(old(Contents()), key, p, graceDays, now) == Handled(Contents(), error)
    {
      hide CommitSnapshot;
      if key !in events {
        return Some(NotFound);
      }
      var retried := events[key];
      if retried.progress.Processed? || retried.progress.Ignored? {
        return None;
      }
      var found := FindBound(key.provider, retried.event.subscription);
      if found.None? {
        return Some(NotFound);
      }
      ghost var before := Contents();
      error := ReconcileAuthoritative(found.value, p, now);
      if error.Some? {
        return;
      }
      ReconcileKeepsEvents(before, found.value, p, graceDays, now);
      events := MarkProcessed(events, key);
    }

    method SuspendSubscription(id: SubscriptionId, expectedVersion: nat,
        now: Time) returns (error: Option<BillingError>)
      modifies this
      ensures id !in old(subscriptions) || old(subscriptions)[id].status !in {Active, PastDue, GracePeriod} ==>
              error.Some? && Contents() == old(Contents())
      ensures id in old(subscriptions) && old(subscriptions)[id].status in {Active, PastDue, GracePeriod} ==>
                var r := BillingModel.ApplyState(old(Contents()), StatusOnly(id, Suspended, expectedVersion), now);
                error == (if r.Err? then Some(r.error) else None)
                  && Contents() == (if r.Ok? then r.value else old(Contents()))
    {
      hide BillingModel.ApplyState, StatusOnly;
      if id !in subscriptions || !Suspendable(subscriptions[id].status) {
        return Some(NotFound);
      }
      error := ApplyState(StatusOnly(id, Suspended, expectedVersion), now);
    }

    /** The expiry sweep: `found` is the answer of its query, and each checkout is one transaction. */
    method CleanupExpiredCheckouts(found: seq<CheckoutId>, before: Time)
      requires forall c :: c in found ==> SweepFinds(Contents(), c, before)
      modifies this`checkouts, this`subscriptions
      ensures Contents() == SweptAll(old(Contents()), found, before)
    {
      ghost var start := Contents();
      var readCheckouts, readSubscriptions := checkouts, subscriptions;
      assert found[..0] == [];
      for i := 0 to |found|
        invariant Contents() == SweptAll(start, found[..i], before)
      {
        assert found[..i + 1][..i] == found[..i];
        var c := found[i];
        assert SweepFinds(start, c, before);
        var seen := readCheckouts[c];
        var owner := readSubscriptions[seen.subscription];
        ghost var current := Contents();
        if c in checkouts && checkouts[c].version == seen.version && OpenCheckoutState(checkouts[c].state) {
          checkouts := checkouts[c := ExpiredCheckout(checkouts[c])];
          var id := seen.subscription;
          if Awaiting(owner.status) && id in subscriptions && subscriptions[id].version == owner.version
             && Awaiting(subscriptions[id].status) {
            subscriptions := subscriptions[id := ExpiredSubscription(subscriptions[id], before)];
          }
        }
        assert Contents() == SweepCheckout(current, c, seen, owner, before);
        hide SweepCheckout;
      }
      assert found[..|found|] == found;
    }

    // ----- promotions -----

    method AddPromotion(g: GuildId, reference: nat, featureSet: nat, now: Time,
        endsAt: Time) returns (error: Option<BillingError>)
      modifies this`rows, this`guildVersion
      ensures error.None? ==> GrantPromotion(old(Contents()), g, reference, featureSet, now, endsAt) == Ok(Contents())
      ensures error.Some? ==>
                GrantPromotion(old(Contents()), g, reference, featureSet, now, endsAt)
                == Err(error.value) && Contents() == old(Contents())
    {
      if endsAt <= now || endsAt > now + 366 * DAY {
        return Some(CheckViolation);
      }
      if featureSet !in catalogue {
        return Some(UnsupportedFeatureSet);
      }
      if g !in guildVersion {
        return Some(NotFound);
      }
      var keys := catalogue[featureSet];
      var promoted := rows;
      ghost var before := rows;
      ghost var done: set<EntitlementKey> := {};
      var i := 0;
      while i < |keys|
        invariant 0 <= i <= |keys| && done == KeySet(keys[..i])
        invariant promoted == PromotedRows(before, g, reference, done, now, endsAt)
        invariant Contents() == old(Contents())
      {
        KeySetStep(keys, i);
        PromoteStep(before, g, reference, done, now, endsAt, keys[i]);
        promoted := promoted[RowKey(g, keys[i], ManualPromotion, reference) := Row(now, Some(endsAt), RowActive)];
        done := done + {keys[i]};
        i := i + 1;
      }
      assert keys[..i] == keys;
      rows := promoted;
      guildVersion := guildVersion[g := guildVersion[g] + 1];
      error := None;
    }

    method RemovePromotion(g: GuildId, reference: nat, now: Time) returns (error: Option<BillingError>)
      modifies this`rows, this`guildVersion
      ensures error.None? ==> RevokePromotion(old(Contents()), g, reference, now) == Ok(Contents())
      ensures error.Some? ==>
                RevokePromotion(old(Contents()), g, reference, now) == Err(error.value)
                && Contents() == old(Contents())
    {
      var active := set k | k in rows && PromotionRow(k, g, reference) && rows[k].status == RowActive;
      if active == {} {
        assert forall k :: k in rows && PromotionRow(k, g, reference) && rows[k].status == RowActive ==> k in active;
        return Some(NotFound);
      }
      if exists k :: k in active && rows[k].startsAt >= now {
        return Some(CheckViolation);
      }
      if g !in guildVersion {
        return Some(NotFound);
      }
      assert PromotionActive(rows, g, reference) by {
        ghost var k :| k in active;
        assert k in rows && PromotionRow(k, g, reference);
      }
      assert forall k :: k in rows && PromotionRow(k, g, reference) && rows[k].status == RowActive ==>
             k in active && rows[k].startsAt < now;
      rows := map k | k in rows :: if k in active then rows[k].(status := RowRevoked, endsAt := Some(now)) else rows[k];
      assert rows == RevokedRows(old(rows), g, reference, now);
      guildVersion := guildVersion[g := guildVersion[g] + 1];
      error := None;
    }
  }

  /** The rows of a promotion after the upserts for `done`. */
  lemma PromoteStep(rows: map<RowKey, Row>, g: GuildId, reference: nat, done: set<EntitlementKey>, now: Time,
      endsAt: Time, key: EntitlementKey)
    ensures PromotedRows(rows, g, reference, done + {key}, now, endsAt)
            == PromotedRows(rows, g, reference, done, now,
                            endsAt)[RowKey(g, key, ManualPromotion, reference) := Row(now, Some(endsAt), RowActive)]
  {
  }

  lemma Targeted(db: Db, e: Event)
    requires Target(db, e).Some?
    ensures Target(db, e).value in db.subscriptions
  {
  }

  /** The update for an event addresses its target and leaves every binding alone. */
  lemma AppliedKeepsUnique(db: Db, u: StateUpdate, e: Event, db': Db, id: SubscriptionId, seen: Subscription,
      key: EventKey,
      p: Snapshot, graceDays: nat, before: bool)
    requires u == Decide(id, seen, key, e, p, graceDays, before)
             && BillingModel.ApplyState(db, u, e.occurredAt) == Ok(db')
    requires UniqueBindings(db.subscriptions)
    ensures id in db'.subscriptions && UniqueBindings(db'.subscriptions)
  {
    Effects.DecideAddresses(id, seen, key, e, p, graceDays, before);
    ApplyShape(db, u, e.occurredAt, db');
    Effects.UpdatedKeepsBinding(db.subscriptions[id], u);
    hide BillingModel.ApplyState, Decide, Updated;
  }
}
