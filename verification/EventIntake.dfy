/** Receiving and binding provider events: what is refused, what is recorded, whose subscription it is about. */
module EventIntake {
  import opened Common
  import opened Lifecycle
  import opened BillingModel
  import opened ProviderEvents
  import opened EventOutcomes
  import Effects = EventEffects

  // ----- binding -----

  /** The event names this checkout: its provider and environment, its session, and an instant before its end. */
  predicate NamesCheckout(e: Event, c: Checkout) {
    (c.provider, c.environment, c.session) == (e.provider, e.environment, e.providerObject) && c.session != None
    && e.occurredAt <= c.expiresAt
  }

  /** Checkout and subscription are of one purchase. */
  predicate OfOnePurchase(c: Checkout, s: Subscription) {
    (c.guild, c.user, c.plan, c.provider) == (s.guild, s.purchaser, s.plan, s.provider)
  }

  /** The purchaser's record, where there is one, names this customer; where there is none, nobody else's does. */
  ghost predicate CustomerFits(customers: map<CustomerKey, nat>, user: UserId, p: Provider, customer: nat) {
    && (forall k :: k in customers && k.provider == p && k.user == user ==> customers[k] == customer)
    && ((forall k :: k in customers && k.provider == p ==> k.user != user) ==>
          forall k :: k in customers && k.provider == p ==> customers[k] != customer)
  }

  /** The event fits its checkout, the checkout its subscription, and nothing else is bound to it. */
  ghost predicate BindingFits(db: Db, e: Event)
    requires e.checkout.Some?
  {
    e.checkout.value in db.checkouts &&
    var c := db.checkouts[e.checkout.value];
    && c.subscription in db.subscriptions && NamesCheckout(e, c) && OfOnePurchase(c, db.subscriptions[c.subscription])
    && (forall id :: id in db.subscriptions && db.subscriptions[id].provider == e.provider ==>
          (db.subscriptions[id].binding == Some(e.subscription) ==> id == c.subscription))
    && db.subscriptions[c.subscription].binding in {None, Some(e.subscription)}
    && (e.customer.Some? ==> CustomerFits(db.customers, c.user, e.provider, e.customer.value))
  }

  lemma CustomerFitsExactly(customers: map<CustomerKey, nat>, user: UserId, p: Provider, customer: nat)
    ensures CustomerAccepted(customers, CustomerKey(user, p), customer) <==>
            CustomerFits(customers, user, p, customer)
  {
    assert forall k: CustomerKey :: k.provider == p && k.user == user <==> k == CustomerKey(user, p);
  }

  lemma OthersUnbound(db: Db, id: SubscriptionId, p: Provider, x: ProviderSubscriptionId)
    ensures !BindingTaken(db, id, p, x) <==>
            forall other :: other in db.subscriptions && db.subscriptions[other].provider == p ==>
              (db.subscriptions[other].binding == Some(x) ==> other == id)
  {
  }

  /**
   An event that names a checkout is bound if and only if it fits the checkout, the checkout fits its
   subscription, that one is not bound elsewhere and no other one is bound to the event's, and the customer fits.
   It writes the binding and the customer; an event that names no checkout writes nothing.
   */
  lemma BindsExactly(db: Db, e: Event)
    ensures e.checkout.None? ==> Bind(db, e) == Ok(db)
    ensures e.checkout.Some? ==> (Bind(db, e).Ok? <==> BindingFits(db, e))
    ensures e.checkout.Some? && Bind(db, e).Ok? ==>
              var b, c := Bind(db, e).value, db.checkouts[e.checkout.value];
              && b == db.(subscriptions := b.subscriptions, customers := b.customers)
              && b.subscriptions == db.subscriptions[c.subscription :=
                                      db.subscriptions[c.subscription].(binding := Some(e.subscription))]
              && b.customers == if e.customer.Some?
                 then db.customers[CustomerKey(c.user, e.provider) := e.customer.value] else db.customers
  {
    if e.checkout.Some? && e.checkout.value in db.checkouts {
      var c := db.checkouts[e.checkout.value];
      OthersUnbound(db, c.subscription, e.provider, e.subscription);
      if e.customer.Some? {
        CustomerFitsExactly(db.customers, c.user, e.provider, e.customer.value);
      }
      hide CustomerFits, CustomerAccepted, BindingTaken;
    }
  }

  /** Once an event is bound, it is about the one subscription that is bound to what it names. */
  lemma TargetIsTheBound(db: Db, e: Event, b: Db, id: SubscriptionId)
    requires UniqueBindings(db.subscriptions) && Bind(db, e) == Ok(b)
    ensures Target(b, e) == Some(id) <==>
            && id in b.subscriptions && b.subscriptions[id].provider == e.provider
            && b.subscriptions[id].binding == Some(e.subscription)
  {
    Effects.BindKeepsUnique(db, db, e);
    BindsExactly(db, e);
    if e.checkout.None? {
      assert id in b.subscriptions && Bound(b.subscriptions[id], e.provider, e.subscription) ==>
             BoundSubscription(b, e.provider, e.subscription) == Some(id);
    } else {
      var c := db.checkouts[e.checkout.value];
      assert b.subscriptions[c.subscription].provider == e.provider;
      assert b.subscriptions[c.subscription].binding == Some(e.subscription);
    }
    hide Bind;
  }

  // ----- processing -----

  /**
   The checkouts of the subscription after the event: pending ones are completed when it has become active,
   open ones fail when the first payment has failed, all others stay.
   */
  ghost predicate CheckoutsLeft(id: SubscriptionId, e: Event, seen: Status, next: Status,
      checkouts: map<CheckoutId, Checkout>, checkouts': map<CheckoutId, Checkout>) {
    && checkouts'.Keys == checkouts.Keys
    && forall c :: c in checkouts ==>
         var completes := checkouts[c].subscription == id && next == Active && checkouts[c].state == ProviderPending;
         var fails := checkouts[c].subscription == id && next != Active && e.kind.PaymentFailed? && NeverPaid(seen)
                      && checkouts[c].state in {CheckoutCreated, ProviderPending};
         checkouts'[c] == if completes then checkouts[c].(state := Completed, version := checkouts[c].version + 1)
                          else if fails then checkouts[c].(state := CheckoutFailed, version := checkouts[c].version + 1)
                          else checkouts[c]
  }

  predicate PaysOtherAmount(s: Subscription, e: Event) {
    e.kind.Paid? && e.kind.amount.Some? && (e.kind.amount, e.kind.currency) != (Some(s.price), Some(s.currency))
  }

  ghost predicate PaidIn(ledger: map<EventKey, Payment>, id: SubscriptionId) {
    exists k :: k in ledger && ledger[k].subscription == id && ledger[k].status == Succeeded
  }

  /** An event that is processed leaves what its kind says, on the tables its binding left. */
  ghost predicate EventHandled(b: Db, id: SubscriptionId, key: EventKey, e: Event, p: Snapshot, graceDays: nat, db': Db)
  {
    if PartialRefundEvent(e) then
      && db' == b.(ledger := db'.ledger, events := db'.events)
      && LedgerLeft(id, key, e, PaidIn(b.ledger, id), b.ledger, db'.ledger) && EventDone(key, b.events, db'.events)
    else
      && EventLeft(b, id, key, e, p, graceDays, PaidIn(b.ledger, id), db'.(checkouts := b.checkouts))
      && CheckoutsLeft(id, e, b.subscriptions[id].status, db'.subscriptions[id].status, b.checkouts, db'.checkouts)
  }

  lemma SettlesExactly(db: Db, id: SubscriptionId, e: Event, seen: Status, next: Status)
    ensures var db' := Settle(db, id, e, seen, next);
            db' == db.(checkouts := db'.checkouts) && CheckoutsLeft(id, e, seen, next, db.checkouts, db'.checkouts)
  {
  }

  lemma CommitErrors(db: Db, id: SubscriptionId, seen: Subscription, key: EventKey, e: Event, p: Snapshot,
      graceDays: nat, before: bool)
    ensures CommitEvent(db, id, seen, key, e, p, graceDays, before) == Err(AmountMismatch) <==> PaysOtherAmount(seen, e)
  {
    hide Decide, Committed, Updated, SubscriptionChecks, PaymentChecks, OwnedRowsCheck, Desired, MaterialisedRows;
  }

  /**
   Processing an event: where it cannot be bound nothing is written, where it fails later only the binding stays,
   and a payment of another amount or currency than the subscription's is refused; else the event is handled.
   */
  lemma ProcessingLeaves(db: Db, key: EventKey, e: Event, p: Snapshot, graceDays: nat)
    ensures var done := ProcessEvent(db, key, e, p, graceDays);
            match Bind(db, e)
            case Err(error) => done == Handled(db, Some(error))
            case Ok(b) =>
              match Target(b, e)
              case None => done == Handled(b, Some(NotFound))
              case Some(id) =>
                && id in b.subscriptions
                && (done.error.Some? ==> done.db == b)
                && (done.error.None? ==> EventHandled(b, id, key, e, p, graceDays, done.db))
                && (done.error == Some(AmountMismatch) <==> PaysOtherAmount(b.subscriptions[id], e))
  {
    hide Bind;
    if Bind(db, e).Ok? && Target(Bind(db, e).value, e).Some? {
      var b := Bind(db, e).value;
      var id := Target(b, e).value;
      assert id in b.subscriptions;
      var s := b.subscriptions[id];
      var before := HasSucceeded(b.ledger, id);
      assert before == PaidIn(b.ledger, id);
      hide Target, HasSucceeded, PaidIn;
      CommitErrors(b, id, s, key, e, p, graceDays, before);
      var r := CommitEvent(b, id, s, key, e, p, graceDays, before);
      if r.Ok? {
        CommitHandles(b, id, key, e, p, graceDays, r.value);
      }
      hide CommitEvent, EventHandled, Settle;
    }
  }

  lemma CommitHandles(b: Db, id: SubscriptionId, key: EventKey, e: Event, p: Snapshot, graceDays: nat, c: Db)
    requires id in b.subscriptions
    requires CommitEvent(b, id, b.subscriptions[id], key, e, p, graceDays, PaidIn(b.ledger, id)) == Ok(c)
    ensures PartialRefundEvent(e) ==> EventHandled(b, id, key, e, p, graceDays, c)
    ensures !PartialRefundEvent(e) ==>
              id in c.subscriptions &&
              EventHandled(b, id, key, e, p, graceDays,
                           Settle(c, id, e, b.subscriptions[id].status, c.subscriptions[id].status))
  {
    var before := PaidIn(b.ledger, id);
    if PartialRefundEvent(e) {
      PartialRefundLeaves(b, id, b.subscriptions[id], key, e, p, graceDays, before);
    } else {
      EventLeaves(b, id, key, e, p, graceDays, before, c);
      assert id in c.subscriptions && c.checkouts == b.checkouts;
      SettlesExactly(c, id, e, b.subscriptions[id].status, c.subscriptions[id].status);
      assert Settle(c, id, e, b.subscriptions[id].status, c.subscriptions[id].status).(checkouts := b.checkouts) == c;
    }
    hide CommitEvent, EventLeft, LedgerLeft, EventDone, Settle, CheckoutsLeft, PaidIn;
  }

  // ----- receiving -----

  /**
   A webhook whose event is known with another payload is refused, one whose event is done or under way changes
   nothing; any other is processed, and its record says how that ended and that one more attempt was made.
   */
  lemma IngestionAnswers(db: Db, key: EventKey, e: Event, p: Snapshot, graceDays: nat)
    ensures var done := Ingest(db, key, e, p, graceDays);
            if key in db.events && db.events[key].event != e then done == Handled(db, Some(ReplayMismatch))
            else if key in db.events && !db.events[key].progress.Received? && !db.events[key].progress.ProcessingFailed?
            then done == Handled(db, None)
            else
              var attempts := if key in db.events then db.events[key].attempts else 0;
              var begun := db.(events := db.events[key := EventRecord(e, Processing, attempts)]);
              var processed := ProcessEvent(begun, key, e, p, graceDays);
              && done.error == processed.error
              && done.db == processed.db.(events := db.events[key := EventRecord(
                   e, if done.error.None? then Processed else ProcessingFailed, attempts + 1)])
  {
    var attempts := if key in db.events then db.events[key].attempts else 0;
    var begun := db.(events := db.events[key := EventRecord(e, Processing, attempts)]);
    var processed := ProcessEvent(begun, key, e, p, graceDays);
    ProcessingMarks(begun, key, e, p, graceDays);
    hide ProcessEvent, EventDone;
    WrittenTwice(db.events, key, EventRecord(e, Processing, attempts), EventRecord(e, Processed, attempts + 1));
    WrittenTwice(db.events, key, EventRecord(e, Processing, attempts), EventRecord(e, ProcessingFailed, attempts + 1));
    if processed.error.None? {
      DoneIsWritten(key, begun.events, processed.db.events);
      assert processed.db.events == db.events[key := EventRecord(e, Processed, attempts + 1)];
    }
  }

  lemma WrittenTwice(events: map<EventKey, EventRecord>, key: EventKey, first: EventRecord, second: EventRecord)
    ensures events[key := first][key := second] == events[key := second]
  {
  }

  lemma DoneIsWritten(key: EventKey, events: map<EventKey, EventRecord>, events': map<EventKey, EventRecord>)
    requires EventDone(key, events, events')
    ensures key in events
    ensures events' == events[key := EventRecord(events[key].event, Processed, events[key].attempts + 1)]
  {
  }

  lemma ProcessingMarks(db: Db, key: EventKey, e: Event, p: Snapshot, graceDays: nat)
    ensures var done := ProcessEvent(db, key, e, p, graceDays);
            if done.error.None? then EventDone(key, db.events, done.db.events) else done.db.events == db.events
  {
    ProcessingLeaves(db, key, e, p, graceDays);
    BindKeepsEvents(db, e);
    hide ProcessEvent, Bind, Target, RecordLeft, LedgerLeft, CheckoutsLeft, PaidIn, PaysOtherAmount, EventDone;
  }

  lemma BindKeepsEvents(db: Db, e: Event)
    ensures Bind(db, e).Ok? ==> Bind(db, e).value.events == db.events
  {
    BindsExactly(db, e);
    hide Bind, BindingFits;
  }
}
