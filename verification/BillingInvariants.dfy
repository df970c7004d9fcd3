/** What holds of the billing database at every moment of every run. */
module BillingInvariants {
  import opened Common
  import opened Lifecycle
  import opened BillingModel
  import opened ProviderEvents
  import opened BillingSteps
  import opened BillingHistory
  import Effects = EventEffects

  // ----- what the run has done so far -----

  /** For each subscription: its last application of state, whether a payment was reported, its receipts. */
  datatype Past = Past(
    synced: map<SubscriptionId, Time>, paid: set<SubscriptionId>, receipts: set<(SubscriptionId, EventKey)>)

  const NO_PAST: Past := Past(map[], {}, {})

  function Remember(past: Past, note: Note): Past {
    match note
    case Nothing => past
    case BoundEvent(_) => past
    case UpToDate(_) => past
    case Applied(id, now, success, receipt, _, _) =>
      Past(past.synced[id := now],
           if success then past.paid + {id} else past.paid,
           if receipt.Some? then past.receipts + {(id, receipt.value)} else past.receipts)
  }

  ghost function PastOf(trace: seq<Moment>): Past {
    if trace == [] then NO_PAST else Remember(PastOf(trace[..|trace| - 1]), trace[|trace| - 1].note)
  }

  // ----- the invariant -----

  /** A guild has at most one subscription outside Expired and Refunded. */
  ghost predicate OneSlot(subscriptions: map<SubscriptionId, Subscription>) {
    forall a, b | a in subscriptions && b in subscriptions && Effective(subscriptions[a].status)
           && Effective(subscriptions[b].status) ::
      subscriptions[a].guild == subscriptions[b].guild ==> a == b
  }

  ghost predicate RowOwned(k: RowKey, subscriptions: map<SubscriptionId, Subscription>, paid: set<SubscriptionId>) {
    k.source == FromSubscription ==>
      k.reference in subscriptions && subscriptions[k.reference].guild == k.guild && k.reference in paid
  }

  /** Materialised rows belong to an existing subscription of that guild for which a payment was reported. */
  ghost predicate RowsOwned(db: Db, paid: set<SubscriptionId>) {
    forall k :: k in db.rows ==> RowOwned(k, db.subscriptions, paid)
  }

  ghost predicate PaymentBehind(id: SubscriptionId, s: Subscription, paid: set<SubscriptionId>) {
    PaidStatus(s.status) || s.latestPayment.Succeeded? ==> id in paid
  }

  /** Paid statuses and a successful last payment are only reached after a payment was reported. */
  ghost predicate PaymentsBehind(subscriptions: map<SubscriptionId, Subscription>, paid: set<SubscriptionId>) {
    forall id :: id in subscriptions ==> PaymentBehind(id, subscriptions[id], paid)
  }

  ghost predicate LedgerEntry(k: EventKey, p: Payment, db: Db, receipts: set<(SubscriptionId, EventKey)>) {
    && k in db.events && db.events[k].event.provider == k.provider
    && p.subscription in db.subscriptions
    && (p.status.Succeeded? <==> PaidWithAmount(db.events[k].event))
    && (p.status.Succeeded? ==> p.amount == db.subscriptions[p.subscription].price && (p.subscription, k) in receipts)
  }

  /** Every ledger row records one received event, for one of the subscriptions it was committed for. */
  ghost predicate LedgerFaithful(db: Db, receipts: set<(SubscriptionId, EventKey)>) {
    forall k :: k in db.ledger ==> LedgerEntry(k, db.ledger[k], db, receipts)
  }

  /** Every committed paid event that carried an amount is in the ledger, for one of its subscriptions. */
  ghost predicate ReceiptsKept(db: Db, receipts: set<(SubscriptionId, EventKey)>) {
    forall r | r in receipts ::
      r.1 in db.ledger && db.ledger[r.1].status.Succeeded? && (db.ledger[r.1].subscription, r.1) in receipts
  }

  ghost predicate Housed(db: Db) {
    && (forall id :: id in db.subscriptions ==> db.subscriptions[id].guild in db.guildVersion)
    && (forall k :: k in db.events ==> db.events[k].event.provider == k.provider)
  }

  ghost predicate Sound(db: Db, past: Past) {
    && Housed(db)
    && OneSlot(db.subscriptions)
    && UniqueBindings(db.subscriptions)
    && RowsOwned(db, past.paid)
    && PaymentsBehind(db.subscriptions, past.paid)
    && LedgerFaithful(db, past.receipts)
    && ReceiptsKept(db, past.receipts)
  }

  // ----- the central transaction keeps it -----

  /** The update claims a payment only when a payment was reported. */
  predicate Justified(s: Subscription, u: StateUpdate, success: bool) {
    && (u.next.Active? && !s.status.Active? ==> success)
    && (u.latestPayment == Put(Succeeded) ==> success)
  }

  ghost predicate PaymentJustified(db: Db, u: StateUpdate, receipt: Option<EventKey>)
    requires u.subscription in db.subscriptions
  {
    && (receipt.Some? ==> u.payment.Some? && u.payment.value.key == receipt.value)
    && (u.payment.Some? ==>
          var w := u.payment.value;
          && w.key in db.events
          && (w.status.Succeeded? <==> PaidWithAmount(db.events[w.key].event))
          && (w.status.Succeeded? <==> receipt.Some?)
          && (w.status.Succeeded? ==> w.amount == db.subscriptions[u.subscription].price))
  }

  lemma UpdatedKeepsIdentity(s: Subscription, u: StateUpdate)
    ensures var s' := Updated(s, u);
            && s'.binding == s.binding && s'.provider == s.provider && s'.guild == s.guild && s'.price == s.price
            && s'.status == u.next && s'.version == s.version + 1 && s'.featureSet == s.featureSet
  {
  }

  lemma UpdatedPaymentBehind(id: SubscriptionId, s: Subscription, u: StateUpdate, success: bool,
      paid: set<SubscriptionId>)
    requires CanTransition(s.status, u.next) && Justified(s, u, success) && PaymentBehind(id, s, paid)
    ensures PaymentBehind(id, Updated(s, u), if success then paid + {id} else paid)
  {
  }

  lemma ApplyKeepsSubscriptions(db: Db, u: StateUpdate, s': Subscription, success: bool, past: Past, db': Db)
    requires u.subscription in db.subscriptions && db'.subscriptions == db.subscriptions[u.subscription := s']
    requires s' == Updated(db.subscriptions[u.subscription], u)
             && CanTransition(db.subscriptions[u.subscription].status, u.next)
    requires Justified(db.subscriptions[u.subscription], u, success)
    requires OneSlot(db.subscriptions) && UniqueBindings(db.subscriptions)
             && PaymentsBehind(db.subscriptions, past.paid)
    ensures OneSlot(db'.subscriptions) && UniqueBindings(db'.subscriptions)
    ensures PaymentsBehind(db'.subscriptions, if success then past.paid + {u.subscription} else past.paid)
  {
    UpdatedKeepsIdentity(db.subscriptions[u.subscription], u);
    UpdatedPaymentBehind(u.subscription, db.subscriptions[u.subscription], u, success, past.paid);
    assert !Effective(db.subscriptions[u.subscription].status) ==> !Effective(u.next);
    hide Updated, Justified, CanTransition, Effective;
  }

  /** A row comes into being only while the subscription grants, so only after a payment. */
  lemma ApplyKeepsRowsOwned(db: Db, u: StateUpdate, now: Time, success: bool, past: Past, db': Db)
    requires ApplyState(db, u, now) == Ok(db')
    requires RowsOwned(db, past.paid)
    requires PaymentsBehind(db'.subscriptions, if success then past.paid + {u.subscription} else past.paid)
    ensures RowsOwned(db', if success then past.paid + {u.subscription} else past.paid)
  {
    ApplyShape(db, u, now, db');
    ApplyTouchesOwnRows(db, u, now, db');
    UpdatedKeepsIdentity(db.subscriptions[u.subscription], u);
    var s' := db'.subscriptions[u.subscription];
    var paid' := if success then past.paid + {u.subscription} else past.paid;
    assert PaymentBehind(u.subscription, s', paid');
    NewRowMeansGrant(db, u, now, db');
    hide ApplyState, Updated;
    forall k | k in db'.rows
      ensures RowOwned(k, db'.subscriptions, paid')
    {
      if OwnedBy(k, s'.guild, u.subscription) && k !in db.rows {
        assert GrantOf(s', now).grants;
      } else {
        assert k in db.rows && RowOwned(k, db.subscriptions, past.paid);
      }
    }
  }

  lemma NewRowMeansGrant(db: Db, u: StateUpdate, now: Time, db': Db)
    requires ApplyState(db, u, now) == Ok(db')
    ensures u.subscription in db'.subscriptions
    ensures forall k :: k in db'.rows && k !in db.rows ==> GrantOf(db'.subscriptions[u.subscription], now).grants
  {
    hide SubscriptionChecks, OwnedRowsCheck, PaymentChecks, UpsertPayment, MarkProcessed, GrantOf, Updated;
  }

  lemma ApplyKeepsLedger(db: Db, u: StateUpdate, now: Time, receipt: Option<EventKey>,
      receipts: set<(SubscriptionId, EventKey)>, db': Db)
    requires ApplyState(db, u, now) == Ok(db') && u.subscription in db.subscriptions && PaymentJustified(db, u, receipt)
    requires LedgerFaithful(db, receipts) && ReceiptsKept(db, receipts) && Housed(db)
    ensures var receipts' := if receipt.Some? then receipts + {(u.subscription, receipt.value)} else receipts;
            LedgerFaithful(db', receipts') && ReceiptsKept(db', receipts')
  {
    ApplyShape(db, u, now, db');
    UpdatedKeepsIdentity(db.subscriptions[u.subscription], u);
    hide ApplyState, Updated, LedgerFaithful, ReceiptsKept, UpsertPayment, PaymentJustified;
    LedgerWriteKeeps(db, u, receipt, receipts, db');
  }

  lemma LedgerWriteKeeps(db: Db, u: StateUpdate, receipt: Option<EventKey>, receipts: set<(SubscriptionId, EventKey)>,
      db': Db)
    requires u.subscription in db.subscriptions && PaymentJustified(db, u, receipt)
    requires LedgerFaithful(db, receipts) && ReceiptsKept(db, receipts) && Housed(db)
    requires db'.ledger == if u.payment.Some? then UpsertPayment(db.ledger, u.subscription, u.payment.value)
             else db.ledger
    requires EventsEvolve(db.events, db'.events)
    requires forall id | id in db.subscriptions ::
      id in db'.subscriptions && db'.subscriptions[id].price == db.subscriptions[id].price
    ensures var receipts' := if receipt.Some? then receipts + {(u.subscription, receipt.value)} else receipts;
            LedgerFaithful(db', receipts') && ReceiptsKept(db', receipts')
  {
    var receipts' := if receipt.Some? then receipts + {(u.subscription, receipt.value)} else receipts;
    if u.payment.Some? {
      var w := u.payment.value;
      if w.key in db.ledger {
        assert LedgerEntry(w.key, db.ledger[w.key], db, receipts);
      }
      assert LedgerEntry(w.key, db'.ledger[w.key], db', receipts');
    }
    forall k | k in db.ledger
      ensures LedgerEntry(k, db.ledger[k], db', receipts')
    {
      assert LedgerEntry(k, db.ledger[k], db, receipts);
    }
  }

  lemma ApplyKeepsHoused(db: Db, u: StateUpdate, now: Time, db': Db)
    requires Housed(db) && ApplyState(db, u, now) == Ok(db')
    ensures Housed(db')
  {
    ApplyShape(db, u, now, db');
    UpdatedKeepsIdentity(db.subscriptions[u.subscription], u);
    hide ApplyState, Updated;
  }

  lemma ApplyKeepsSound(db: Db, u: StateUpdate, now: Time, success: bool, receipt: Option<EventKey>, past: Past,
      db': Db)
    requires Sound(db, past) && ApplyState(db, u, now) == Ok(db')
    requires u.subscription in db.subscriptions ==>
             Justified(db.subscriptions[u.subscription], u, success) && PaymentJustified(db, u, receipt)
    ensures Sound(db', Remember(past, Applied(u.subscription, now, success, receipt, u.event, false)))
  {
    ApplyStaysInGraph(db, u, now, db');
    hide ApplyState, Updated, OneSlot, UniqueBindings, RowsOwned, PaymentsBehind, LedgerFaithful, ReceiptsKept,
         Justified, PaymentJustified, Housed, CanTransition;
    ApplyKeepsHoused(db, u, now, db');
    ApplyKeepsSubscriptions(db, u, db'.subscriptions[u.subscription], success, past, db');
    ApplyKeepsRowsOwned(db, u, now, success, past, db');
    ApplyKeepsLedger(db, u, now, receipt, past.receipts, db');
  }

  lemma ApplyStaysInGraph(db: Db, u: StateUpdate, now: Time, db': Db)
    requires ApplyState(db, u, now) == Ok(db')
    ensures u.subscription in db.subscriptions && CanTransition(db.subscriptions[u.subscription].status, u.next)
    ensures db'.subscriptions == db.subscriptions[u.subscription := Updated(db.subscriptions[u.subscription], u)]
  {
    ApplyShape(db, u, now, db');
    hide ApplyState, Updated, CanTransition;
  }

  // ----- the other steps keep it -----

  lemma QuietKeepsSound(db: Db, db': Db, past: Past)
    requires Sound(db, past) && db' == db.(events := db'.events, checkouts := db'.checkouts)
    requires EventsEvolve(db.events, db'.events)
    requires forall k :: k in db'.events ==> db'.events[k].event.provider == k.provider
    ensures Sound(db', past)
  {
    forall k | k in db'.ledger
      ensures LedgerEntry(k, db'.ledger[k], db', past.receipts)
    {
      assert LedgerEntry(k, db.ledger[k], db, past.receipts);
    }
    hide LedgerEntry, RowOwned;
  }

  /** What rows, ledger and receipts rely on in a subscription. */
  predicate SameIdentity(s: Subscription, s': Subscription) {
    s'.guild == s.guild && s'.provider == s.provider && s'.price == s.price
  }

  /** Rows and ledger do not change, and no subscription loses its identity. */
  lemma IdentitiesKeepRecords(db: Db, db': Db, past: Past)
    requires RowsOwned(db, past.paid) && LedgerFaithful(db, past.receipts)
    requires db'.rows == db.rows && db'.ledger == db.ledger && db'.events == db.events
    requires forall id :: id in db.subscriptions ==>
               id in db'.subscriptions && SameIdentity(db.subscriptions[id], db'.subscriptions[id])
    ensures RowsOwned(db', past.paid) && LedgerFaithful(db', past.receipts)
  {
    forall k | k in db'.rows
      ensures RowOwned(k, db'.subscriptions, past.paid)
    {
      assert RowOwned(k, db.subscriptions, past.paid);
    }
    forall k | k in db'.ledger
      ensures LedgerEntry(k, db'.ledger[k], db', past.receipts)
    {
      assert LedgerEntry(k, db.ledger[k], db, past.receipts);
    }
  }

  lemma OpenKeepsSlots(db: Db, id: SubscriptionId, p: Purchase, paid: set<SubscriptionId>)
    requires OneSlot(db.subscriptions) && UniqueBindings(db.subscriptions) && PaymentsBehind(db.subscriptions, paid)
    requires id !in db.subscriptions && !SlotOccupied(db, p.guild, None)
    ensures var after := db.subscriptions[id := NewSubscription(p)];
            OneSlot(after) && UniqueBindings(after) && PaymentsBehind(after, paid)
  {
    assert forall other | other in db.subscriptions && db.subscriptions[other].guild == p.guild ::
           !Effective(db.subscriptions[other].status) by {
      assert forall other: SubscriptionId :: Some(other) != None;
    }
    hide SlotOccupied;
  }

  lemma OpenKeepsSound(db: Db, id: SubscriptionId, c: CheckoutId, p: Purchase, past: Past)
    requires Sound(db, past) && OpenCheckout(db, id, c, p).Ok?
    ensures Sound(OpenCheckout(db, id, c, p).value, past)
  {
    var db' := OpenCheckout(db, id, c, p).value;
    OpenKeepsSlots(db, id, p, past.paid);
    IdentitiesKeepRecords(db, db', past);
    hide LedgerFaithful, RowsOwned, OneSlot, UniqueBindings, PaymentsBehind, SlotOccupied, CheckoutOpen;
  }

  /** Writes to one subscription's record that leave its identity and its payments alone. */
  lemma RecordKeepsSound(db: Db, db': Db, id: SubscriptionId, s': Subscription, past: Past)
    requires Sound(db, past) && id in db.subscriptions
    requires db' == db.(subscriptions := db.subscriptions[id := s'], checkouts := db'.checkouts,
                        customers := db'.customers)
    requires var s := db.subscriptions[id];
             SameIdentity(s, s') && s'.latestPayment == s.latestPayment
               && (PaidStatus(s'.status) ==> PaidStatus(s.status))
    requires OneSlot(db'.subscriptions) && UniqueBindings(db'.subscriptions)
    ensures Sound(db', past)
  {
    IdentitiesKeepRecords(db, db', past);
    assert PaymentBehind(id, db.subscriptions[id], past.paid);
    hide LedgerFaithful, RowsOwned, UniqueBindings, OneSlot, SameIdentity;
  }

  lemma SameBindingsStayUnique(subscriptions: map<SubscriptionId, Subscription>, id: SubscriptionId, s': Subscription)
    requires UniqueBindings(subscriptions) && id in subscriptions
    requires s'.binding == subscriptions[id].binding && s'.provider == subscriptions[id].provider
    ensures UniqueBindings(subscriptions[id := s'])
  {
  }

  lemma SlotKept(subscriptions: map<SubscriptionId, Subscription>, id: SubscriptionId, s': Subscription)
    requires OneSlot(subscriptions) && id in subscriptions && s'.guild == subscriptions[id].guild
    requires Effective(s'.status) ==> Effective(subscriptions[id].status)
    ensures OneSlot(subscriptions[id := s'])
  {
  }

  lemma BindKeepsSound(db: Db, seen: Db, e: Event, past: Past)
    requires Sound(db, past) && BindRead(db, seen, e).Ok? && SubscriptionsEvolve(seen.subscriptions, db.subscriptions)
    ensures Sound(BindRead(db, seen, e).value, past)
  {
    if e.checkout.Some? {
      var id := seen.checkouts[e.checkout.value].subscription;
      var s' := db.subscriptions[id].(binding := Some(e.subscription));
      var db' := BindRead(db, seen, e).value;
      Effects.BindKeepsUnique(db, seen, e);
      SlotKept(db.subscriptions, id, s');
      hide Sound, OneSlot, UniqueBindings, SubscriptionsEvolve, BindingAccepted, BindingTaken;
      RecordKeepsSound(db, db', id, s', past);
    }
  }

  /** The failure path is guarded by the unique index on effective subscriptions. */
  lemma FailKeepsSlot(db: Db, id: SubscriptionId, at: Time)
    requires OneSlot(db.subscriptions) && id in db.subscriptions
    requires !SlotOccupied(db, db.subscriptions[id].guild, Some(id))
    ensures OneSlot(db.subscriptions[id := CancelledByFailure(db.subscriptions[id], at)])
  {
    assert forall other | other in db.subscriptions && other != id
           && db.subscriptions[other].guild == db.subscriptions[id].guild ::
        !Effective(db.subscriptions[other].status) by {
      assert forall other: SubscriptionId | other != id :: Some(other) != Some(id);
    }
    hide SlotOccupied;
  }

  lemma FailKeepsSound(db: Db, c: CheckoutId, at: Time, past: Past)
    requires Sound(db, past) && FailCheckout(db, c, at).Ok?
    ensures Sound(FailCheckout(db, c, at).value, past)
  {
    var id := db.checkouts[c].subscription;
    var s' := CancelledByFailure(db.subscriptions[id], at);
    FailKeepsSlot(db, id, at);
    SameBindingsStayUnique(db.subscriptions, id, s');
    hide Sound, OneSlot, UniqueBindings, SlotOccupied;
    RecordKeepsSound(db, FailCheckout(db, c, at).value, id, s', past);
  }

  lemma SweepKeepsSound(db: Db, c: CheckoutId, seen: Checkout, s: Subscription, before: Time, past: Past)
    requires Sound(db, past)
    ensures Sound(SweepCheckout(db, c, seen, s, before), past)
  {
    var db' := SweepCheckout(db, c, seen, s, before);
    var id := seen.subscription;
    SweepWrites(db, c, seen, s, before);
    hide SweepCheckout, SubscriptionsEvolve, CheckoutsEvolve;
    if db'.subscriptions == db.subscriptions {
      assert EventsEvolve(db.events, db.events);
      assert Housed(db);
      hide Sound, EventsEvolve;
      QuietKeepsSound(db, db', past);
    } else {
      SlotKept(db.subscriptions, id, db'.subscriptions[id]);
      SameBindingsStayUnique(db.subscriptions, id, db'.subscriptions[id]);
      hide Sound, OneSlot, UniqueBindings;
      RecordKeepsSound(db, db', id, db'.subscriptions[id], past);
    }
  }

  lemma PromotionKeepsSound(db: Db, db': Db, past: Past)
    requires Sound(db, past) && db' == db.(rows := db'.rows, guildVersion := db'.guildVersion)
    requires db.guildVersion.Keys <= db'.guildVersion.Keys
    requires forall k: RowKey | k.source == FromSubscription ::
               (k in db'.rows <==> k in db.rows) && (k in db.rows ==> db'.rows[k] == db.rows[k])
    ensures Sound(db', past)
  {
    forall k | k in db'.ledger
      ensures LedgerEntry(k, db'.ledger[k], db', past.receipts)
    {
      assert LedgerEntry(k, db.ledger[k], db, past.receipts);
    }
    forall k | k in db'.rows
      ensures RowOwned(k, db'.subscriptions, past.paid)
    {
      if k.source == FromSubscription {
        assert RowOwned(k, db.subscriptions, past.paid);
      }
    }
    hide LedgerEntry, RowOwned;
  }

  lemma PartialRefundKeepsLedger(db: Db, id: SubscriptionId, key: EventKey, receipts: set<(SubscriptionId, EventKey)>)
    requires LedgerFaithful(db, receipts) && ReceiptsKept(db, receipts) && Housed(db) && key in db.events
             && id in db.subscriptions
    requires PartialRefundEvent(db.events[key].event) && RecordPartialRefund(db, id, key, db.events[key].event).Ok?
    ensures var db' := RecordPartialRefund(db, id, key, db.events[key].event).value;
            LedgerFaithful(db', receipts) && ReceiptsKept(db', receipts)
  {
    var db' := RecordPartialRefund(db, id, key, db.events[key].event).value;
    if key in db.ledger {
      assert LedgerEntry(key, db.ledger[key], db, receipts);
    }
    forall k | k in db'.ledger
      ensures LedgerEntry(k, db'.ledger[k], db', receipts)
    {
      if k != key {
        assert LedgerEntry(k, db.ledger[k], db, receipts);
      }
    }
  }

  lemma PartialRefundKeepsSound(db: Db, id: SubscriptionId, key: EventKey, past: Past)
    requires Sound(db, past) && key in db.events && id in db.subscriptions
    requires PartialRefundEvent(db.events[key].event) && RecordPartialRefund(db, id, key, db.events[key].event).Ok?
    ensures Sound(RecordPartialRefund(db, id, key, db.events[key].event).value, past)
  {
    PartialRefundKeepsLedger(db, id, key, past.receipts);
    assert forall k :: k in db.rows ==> RowOwned(k, db.subscriptions, past.paid);
    hide LedgerFaithful, ReceiptsKept, RowOwned, PartialRefundRow;
  }

  // ----- decisions taken on stale reads -----

  /** A record read earlier, if its version is still current, differs from the current one in the binding only. */
  lemma StaleReadIsCurrent(seen: Subscription, s: Subscription)
    requires SubscriptionEvolves(seen, s) && seen.version == s.version
    ensures s == seen.(binding := s.binding)
  {
  }

  lemma DecisionJustified(id: SubscriptionId, s: Subscription, key: EventKey, e: Event, p: Snapshot, graceDays: nat,
      before: bool)
    requires AmountMatches(s, e) && !PartialRefundEvent(e)
    ensures var u := Decide(id, s, key, e, p, graceDays, before);
            && u.subscription == id && u.expectedVersion == s.version && KeepsClock(u)
            && Justified(s, u, PaymentSignal(e, p))
            && (PaidWithAmount(e) ==> u.payment.Some?)
            && (u.payment.Some? ==>
                u.payment.value.key == key && (u.payment.value.status.Succeeded? <==> PaidWithAmount(e)))
            && (u.payment.Some? && u.payment.value.status.Succeeded? ==> u.payment.value.amount == s.price)
  {
  }

  lemma TargetPersists(seen: Db, db: Db, e: Event, id: SubscriptionId)
    requires Target(seen, e) == Some(id) && SubscriptionsEvolve(seen.subscriptions, db.subscriptions)
    ensures id in seen.subscriptions && id in db.subscriptions
    ensures SubscriptionEvolves(seen.subscriptions[id], db.subscriptions[id])
  {
    assert id in seen.subscriptions;
    hide Target;
  }

  lemma CommitKeepsSound(db: Db, seen: Db, key: EventKey, p: Snapshot, graceDays: nat, before: bool, past: Past)
    requires Sound(db, past) && key in db.events && SubscriptionsEvolve(seen.subscriptions, db.subscriptions)
    ensures var m := CommitMoment(db, seen, key, db.events[key].event, p, graceDays, before);
            Sound(m.db, Remember(past, m.note))
  {
    var e := db.events[key].event;
    var target := Target(seen, e);
    if target.Some? {
      var id := target.value;
      TargetPersists(seen, db, e, id);
      var s := seen.subscriptions[id];
      var u := Decide(id, s, key, e, p, graceDays, before);
      hide Target, Decide, ApplyState, Sound, RecordPartialRefund;
      if PartialRefundEvent(e) {
        if RecordPartialRefund(db, id, key, e).Ok? {
          PartialRefundKeepsSound(db, id, key, past);
        }
      } else if AmountMatches(s, e) && ApplyState(db, u, e.occurredAt).Ok? {
        DecisionJustified(id, s, key, e, p, graceDays, before);
        ApplyShape(db, u, e.occurredAt, ApplyState(db, u, e.occurredAt).value);
        StaleReadIsCurrent(s, db.subscriptions[id]);
        hide SubscriptionsEvolve, SubscriptionEvolves, PaymentSignal, AmountMatches;
        ApplyKeepsSound(db, u, e.occurredAt, PaymentSignal(e, p), if PaidWithAmount(e) then Some(key) else None, past,
                        ApplyState(db, u, e.occurredAt).value);
      }
    }
    hide Remember, PaymentSignal;
  }

  lemma SnapshotJustified(id: SubscriptionId, s: Subscription, seen: Subscription, p: Snapshot, graceDays: nat,
      now: Time)
    requires StateFromSnapshot(seen.status, p, graceDays, now).Ok?
    ensures var u := ReconcileUpdate(id, seen, p, StateFromSnapshot(seen.status, p, graceDays, now).value, now);
            u.subscription == id && u.payment.None? && Justified(s, u, p.latestPayment.Succeeded?)
  {
  }
}
