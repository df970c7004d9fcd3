/**
 Theorems about single events: delivering an event twice changes nothing more than delivering it
 once, and what each kind of event or snapshot leaves of a guild's Premium.
 */
module EventEffects {
  import opened Common
  import opened Lifecycle
  import opened BillingModel
  import opened ProviderEvents

  // ----- idempotence -----

  ghost predicate SameSubscription(a: Subscription, b: Subscription) {
    a == b.(version := a.version)
  }

  /** Equal but for version and attempt counters. */
  ghost predicate SameUpToCounters(a: Db, b: Db) {
    && a.catalogue == b.catalogue
    && a.subscriptions.Keys == b.subscriptions.Keys
    && (forall id :: id in a.subscriptions ==> SameSubscription(a.subscriptions[id], b.subscriptions[id]))
    && a.rows == b.rows
    && a.ledger == b.ledger
    && a.checkouts.Keys == b.checkouts.Keys
    && (forall c :: c in a.checkouts ==> a.checkouts[c] == b.checkouts[c].(version := a.checkouts[c].version))
    && a.events.Keys == b.events.Keys
    && (forall k :: k in a.events ==> a.events[k] == b.events[k].(attempts := a.events[k].attempts))
    && a.customers == b.customers
    && a.guildVersion.Keys == b.guildVersion.Keys
  }

  lemma SameAsItself(a: Db)
    ensures SameUpToCounters(a, a)
  {
  }

  /** The same update again, computed from the record the first one produced. */
  ghost predicate Repeats(u: StateUpdate, v: StateUpdate, version: nat) {
    && v.expectedVersion == version
    && u.payment.Some? == v.payment.Some?
    && v == u.(expectedVersion := version, payment := v.payment)
    && (u.payment.Some? ==> v.payment.value == u.payment.value.(kind := v.payment.value.kind))
  }

  lemma SyncTwice(rows: map<RowKey, Row>, g: GuildId, id: SubscriptionId, s0: Time, s1: Time,
                  desired: set<EntitlementKey>, endsAt: Option<Time>, now: Time)
    ensures var once := SyncedRows(rows, g, id, s0, desired, endsAt, now);
            SyncedRows(once, g, id, s1, desired, endsAt, now) == once
  {
    var once := SyncedRows(rows, g, id, s0, desired, endsAt, now);
    var twice := SyncedRows(once, g, id, s1, desired, endsAt, now);
    assert forall key :: key in desired ==> SubscriptionRow(g, key, id) in once.Keys;
    assert twice.Keys == once.Keys;
  }

  lemma UpsertTwice(ledger: map<EventKey, Payment>, id: SubscriptionId, w: PaymentWrite, w': PaymentWrite)
    requires w' == w.(kind := w'.kind)
    ensures var once := UpsertPayment(ledger, id, w); UpsertPayment(once, id, w') == once
  {
    var once := UpsertPayment(ledger, id, w);
    assert UpsertPayment(once, id, w')[w.key] == once[w.key];
  }

  lemma RepeatedRecord(s: Subscription, u: StateUpdate, v: StateUpdate)
    requires Repeats(u, v, s.version + 1)
    ensures Updated(Updated(s, u), v) == Updated(s, u).(version := s.version + 2)
  {
  }

  lemma MaterialisedTwice(catalogue: Catalogue, rows: map<RowKey, Row>, id: SubscriptionId, s: Subscription, now: Time)
    requires Desired(catalogue, s, now).Ok?
    ensures var s' := s.(version := s.version + 1);
            var once := MaterialisedRows(catalogue, rows, id, s, now);
            Desired(catalogue, s', now).Ok? && MaterialisedRows(catalogue, once, id, s', now) == once
  {
    var s' := s.(version := s.version + 1);
    var desired := Desired(catalogue, s, now).value;
    assert Desired(catalogue, s', now) == Desired(catalogue, s, now);
    SyncTwice(rows, s.guild, id, StartOf(s, now), StartOf(s', now), KeySet(desired.0), desired.1, now);
  }

  lemma CommitsAgain(db: Db, id: SubscriptionId, s: Subscription, payment: Option<PaymentWrite>,
      payment': Option<PaymentWrite>,
                     event: Option<EventKey>, now: Time, once: Db)
    requires CommitError(db, id, s, payment, event, now).None? && once == Committed(db, id, s, payment, event, now)
    requires payment.Some? == payment'.Some? && (payment.Some? ==> payment'.value.key == payment.value.key)
    ensures CommitError(once, id, s.(version := s.version + 1), payment', event, now).None?
  {
    MaterialisedTwice(db.catalogue, db.rows, id, s, now);
    hide Desired, MaterialisedRows, OwnedRowsCheck;
  }

  /** Writing the same record again, one version on, changes counters only. */
  lemma CommittedTwice(db: Db, id: SubscriptionId, s: Subscription, payment: Option<PaymentWrite>,
      payment': Option<PaymentWrite>,
                       event: Option<EventKey>, now: Time, once: Db)
    requires CommitError(db, id, s, payment, event, now).None? && once == Committed(db, id, s, payment, event, now)
    requires payment.Some? == payment'.Some?
    requires payment.Some? ==> payment'.value == payment.value.(kind := payment'.value.kind)
    ensures var s' := s.(version := s.version + 1);
            && CommitError(once, id, s', payment', event, now).None?
            && SameUpToCounters(once, Committed(once, id, s', payment', event, now))
  {
    var s' := s.(version := s.version + 1);
    MaterialisedTwice(db.catalogue, db.rows, id, s, now);
    hide Desired, MaterialisedRows, OwnedRowsCheck;
    if payment.Some? {
      UpsertTwice(db.ledger, id, payment.value, payment'.value);
    }
    hide UpsertPayment, PaymentChecks, SubscriptionChecks;
    assert CommitError(once, id, s', payment', event,
                       now).None? by { CommitsAgain(db, id, s, payment, payment', event, now, once); }
    hide CommitError;
  }

  lemma ApplyTwice(db: Db, u: StateUpdate, v: StateUpdate, now: Time, once: Db)
    requires ApplyState(db, u, now) == Ok(once)
    requires Repeats(u, v, db.subscriptions[u.subscription].version + 1)
    ensures ApplyState(once, v, now).Ok? && SameUpToCounters(once, ApplyState(once, v, now).value)
  {
    var s := db.subscriptions[u.subscription];
    assert ApplyGuard(once, v).None? by { RepeatedRecord(s, u, v); }
    RepeatedRecord(s, u, v);
    hide Updated, CommitError, Committed, SameUpToCounters;
    CommittedTwice(db, u.subscription, Updated(s, u), u.payment, v.payment, u.event, now, once);
  }

  lemma TargetStable(db: Db, db': Db, e: Event)
    requires UniqueBindings(db.subscriptions) && Target(db, e).Some?
    requires db'.subscriptions.Keys == db.subscriptions.Keys
    requires forall id :: id in db.subscriptions ==>
               && db'.subscriptions[id].provider == db.subscriptions[id].provider
               && db'.subscriptions[id].binding == db.subscriptions[id].binding
    requires db'.checkouts.Keys == db.checkouts.Keys
    requires forall c :: c in db.checkouts ==> db'.checkouts[c].subscription == db.checkouts[c].subscription
    ensures Target(db', e) == Target(db, e)
    ensures UniqueBindings(db'.subscriptions)
  {
    var id := Target(db, e).value;
    if e.checkout.None? {
      assert Bound(db'.subscriptions[id], e.provider, e.subscription);
    }
  }

  /** Whatever was read before, writing a binding keeps one subscription per provider subscription id. */
  lemma BindKeepsUnique(db: Db, seen: Db, e: Event)
    requires UniqueBindings(db.subscriptions) && BindRead(db, seen, e).Ok?
    requires forall id :: id in seen.subscriptions && id in db.subscriptions ==>
               db.subscriptions[id].provider == seen.subscriptions[id].provider
    ensures UniqueBindings(BindRead(db, seen, e).value.subscriptions)
  {
    if e.checkout.Some? {
      var b := BindRead(db, seen, e).value;
      var id := seen.checkouts[e.checkout.value].subscription;
      forall x, y | x in b.subscriptions && y in b.subscriptions && b.subscriptions[x].binding.Some?
          && b.subscriptions[x].provider == b.subscriptions[y].provider
          && b.subscriptions[x].binding == b.subscriptions[y].binding
        ensures x == y
      {
        assert x != id ==> !Bound(db.subscriptions[x], e.provider, e.subscription);
        assert y != id ==> !Bound(db.subscriptions[y], e.provider, e.subscription);
      }
    }
  }

  /** An event that was bound is bound again without effect. */
  lemma BindTwice(db: Db, e: Event)
    requires Bind(db, e).Ok?
    ensures Bind(Bind(db, e).value, e) == Bind(db, e)
  {
    if e.checkout.Some? {
      var b := Bind(db, e).value;
      var id := db.checkouts[e.checkout.value].subscription;
      forall other | other in b.subscriptions && other != id
        ensures !Bound(b.subscriptions[other], e.provider, e.subscription)
      {
        assert b.subscriptions[other] == db.subscriptions[other];
      }
      assert BindingAccepted(b, e);
      assert Bind(b, e).value.subscriptions == b.subscriptions;
      assert Bind(b, e).value.customers == b.customers;
    }
  }

  lemma BoundOnce(db: Db, e: Event)
    requires UniqueBindings(db.subscriptions) && Bind(db, e).Ok?
    ensures UniqueBindings(Bind(db, e).value.subscriptions) && Bind(Bind(db, e).value, e) == Bind(db, e)
  {
    BindKeepsUnique(db, db, e);
    BindTwice(db, e);
  }

  /** Deciding again from the record the first decision produced repeats the first decision. */
  lemma DecideRepeats(id: SubscriptionId, s: Subscription, key: EventKey, e: Event, p: Snapshot, graceDays: nat,
      before: bool, after: bool)
    requires CanTransition(s.status, Decide(id, s, key, e, p, graceDays, before).next)
    ensures var u := Decide(id, s, key, e, p, graceDays, before);
            && Repeats(u, Decide(id, Updated(s, u), key, e, p, graceDays, after), s.version + 1)
            && (e.kind.PaymentFailed? && Awaiting(u.next) ==> Awaiting(s.status))
  {
    if e.kind.PaymentFailed? {
      FailureRepeats(id, s, key, e, p, graceDays, before, after);
    } else {
      OtherRepeats(id, s, key, e, p, graceDays, before, after);
    }
    hide *;
  }

  lemma FailureRepeats(id: SubscriptionId, s: Subscription, key: EventKey, e: Event, p: Snapshot, graceDays: nat,
      before: bool, after: bool)
    requires e.kind.PaymentFailed? && CanTransition(s.status, Decide(id, s, key, e, p, graceDays, before).next)
    ensures var u := Decide(id, s, key, e, p, graceDays, before);
            && Repeats(u, Decide(id, Updated(s, u), key, e, p, graceDays, after), s.version + 1)
            && (Awaiting(u.next) ==> Awaiting(s.status))
  {
  }

  lemma OtherRepeats(id: SubscriptionId, s: Subscription, key: EventKey, e: Event, p: Snapshot, graceDays: nat,
      before: bool, after: bool)
    requires !e.kind.PaymentFailed?
    ensures var u := Decide(id, s, key, e, p, graceDays, before);
            Repeats(u, Decide(id, Updated(s, u), key, e, p, graceDays, after), s.version + 1)
  {
  }

  /** What processing an accepted event amounts to, other than a partial refund. */
  lemma ProcessedBy(db: Db, b: Db, id: SubscriptionId, key: EventKey, e: Event, p: Snapshot, graceDays: nat, c: Db)
    requires Bind(db, e) == Ok(b) && Target(b, e) == Some(id) && id in b.subscriptions && !PartialRefundEvent(e)
    requires CommitEvent(b, id, b.subscriptions[id], key, e, p, graceDays, HasSucceeded(b.ledger, id)) == Ok(c)
    requires id in c.subscriptions
    ensures ProcessEvent(db, key, e, p, graceDays)
            == Handled(Settle(c, id, e, b.subscriptions[id].status, c.subscriptions[id].status), None)
  {
    hide Bind, Target, CommitEvent, Settle, HasSucceeded;
  }

  /**
   Processing the same event twice in a row, with the same provider snapshot, leaves what processing
   it once leaves, up to counters; and the second attempt succeeds or fails exactly as the first did.
   */
  lemma EventIsIdempotent(db: Db, key: EventKey, e: Event, p: Snapshot, graceDays: nat)
    requires UniqueBindings(db.subscriptions)
    ensures var once := ProcessEvent(db, key, e, p, graceDays);
            var twice := ProcessEvent(once.db, key, e, p, graceDays);
            twice.error == once.error && SameUpToCounters(once.db, twice.db)
  {
    SameAsItself(ProcessEvent(db, key, e, p, graceDays).db);
    hide Bind, CommitEvent, Settle, HasSucceeded, UniqueBindings, SameUpToCounters;
    if Bind(db, e).Ok? {
      var b := Bind(db, e).value;
      BoundOnce(db, e);
      if Target(b, e).Some? {
        var id := Target(b, e).value;
        var before := HasSucceeded(b.ledger, id);
        if CommitEvent(b, id, b.subscriptions[id], key, e, p, graceDays, before).Ok? {
          CommitTwice(db, b, id, key, e, p, graceDays, before);
        }
      }
    }
  }

  lemma BindAgain(db: Db, b: Db, db': Db, e: Event)
    requires Bind(db, e) == Ok(b) && db'.customers == b.customers
    requires db'.subscriptions.Keys == b.subscriptions.Keys
    requires forall id :: id in b.subscriptions ==> SameBinding(b.subscriptions[id], db'.subscriptions[id])
    requires db'.checkouts.Keys == b.checkouts.Keys
    requires forall c :: c in b.checkouts ==>
               b.checkouts[c] == db'.checkouts[c].(version := b.checkouts[c].version, state := b.checkouts[c].state)
    ensures Bind(db', e) == Ok(db')
  {
    BindTwice(db, e);
    if e.checkout.Some? {
      var id := b.checkouts[e.checkout.value].subscription;
      assert BindingAccepted(b, e) && !BindingTaken(b, id, e.provider, e.subscription);
      forall other | other in db'.subscriptions && other != id
        ensures !Bound(db'.subscriptions[other], e.provider, e.subscription)
      {
        assert !Bound(b.subscriptions[other], e.provider, e.subscription);
      }
      assert BindingAccepted(db', e);
      assert db'.subscriptions[id := db'.subscriptions[id].(binding := Some(e.subscription))] == db'.subscriptions;
    }
  }

  /** The fields a binding is validated on. */
  predicate SameBinding(s: Subscription, s': Subscription) {
    && s'.provider == s.provider && s'.binding == s.binding && s'.guild == s.guild
    && s'.purchaser == s.purchaser && s'.plan == s.plan
  }

  lemma CommitTwice(db: Db, b: Db, id: SubscriptionId, key: EventKey, e: Event, p: Snapshot, graceDays: nat,
      before: bool)
    requires Bind(db, e) == Ok(b) && UniqueBindings(b.subscriptions) && Target(b, e) == Some(id)
    requires before == HasSucceeded(b.ledger, id)
    requires CommitEvent(b, id, b.subscriptions[id], key, e, p, graceDays, before).Ok?
    ensures var once := ProcessEvent(db, key, e, p, graceDays).db;
            var twice := ProcessEvent(once, key, e, p, graceDays);
            twice.error.None? && SameUpToCounters(once, twice.db)
  {
    if PartialRefundEvent(e) {
      PartialRefundTwice(db, b, id, key, e, p, graceDays, before);
    } else {
      var c := CommitEvent(b, id, b.subscriptions[id], key, e, p, graceDays, before).value;
      UpdateTwice(db, b, id, key, e, p, graceDays, before, c);
    }
  }

  lemma PartialRefundTwice(db: Db, b: Db, id: SubscriptionId, key: EventKey, e: Event, p: Snapshot, graceDays: nat,
      before: bool)
    requires Bind(db, e) == Ok(b) && UniqueBindings(b.subscriptions) && Target(b, e) == Some(id)
    requires PartialRefundEvent(e) && CommitEvent(b, id, b.subscriptions[id], key, e, p, graceDays, before).Ok?
    ensures var once := ProcessEvent(db, key, e, p, graceDays).db;
            var twice := ProcessEvent(once, key, e, p, graceDays);
            twice.error.None? && SameUpToCounters(once, twice.db)
  {
    var c := RecordPartialRefund(b, id, key, e).value;
    assert id in b.subscriptions;
    assert Bind(c, e) == Ok(c) && Target(c, e) == Some(id) by {
      TargetStable(b, c, e);
      BindAgain(db, b, c, e);
    }
    hide Bind, Target, ApplyState, UniqueBindings, HasSucceeded, Settle, Decide;
    RefundRecordedTwice(b, id, key, e, c);
    hide SameUpToCounters, RecordPartialRefund;
  }

  lemma RefundRecordedTwice(b: Db, id: SubscriptionId, key: EventKey, e: Event, c: Db)
    requires PartialRefundEvent(e) && RecordPartialRefund(b, id, key, e) == Ok(c)
    ensures RecordPartialRefund(c, id, key, e).Ok? && SameUpToCounters(c, RecordPartialRefund(c, id, key, e).value)
  {
    assert c.ledger[key] == PartialRefundRow(c.ledger, id, key, e);
  }

  lemma UpdateTwice(db: Db, b: Db, id: SubscriptionId, key: EventKey, e: Event, p: Snapshot, graceDays: nat,
      before: bool, c: Db)
    requires Bind(db, e) == Ok(b) && UniqueBindings(b.subscriptions) && Target(b, e) == Some(id)
    requires !PartialRefundEvent(e) && before == HasSucceeded(b.ledger, id)
    requires CommitEvent(b, id, b.subscriptions[id], key, e, p, graceDays, before) == Ok(c)
    ensures var once := ProcessEvent(db, key, e, p, graceDays).db;
            var twice := ProcessEvent(once, key, e, p, graceDays);
            twice.error.None? && SameUpToCounters(once, twice.db)
  {
    assert id in b.subscriptions;
    var s := b.subscriptions[id];
    hide Decide, Bind, Target, UniqueBindings, HasSucceeded, SameUpToCounters, Settle, ApplyState, Updated,
         AmountMatches, ProcessEvent;
    var d := CommittedAgain(b, id, key, e, p, graceDays, before, c);
    hide CommitEvent, PartialRefundEvent;
    var once := Settle(c, id, e, s.status, c.subscriptions[id].status);
    assert Bind(once, e) == Ok(once) && Target(once, e) == Some(id) by {
      TargetStable(b, once, e);
      BindAgain(db, b, once, e);
    }
    ProcessedBy(db, b, id, key, e, p, graceDays, c);
    ProcessedBy(once, once, id, key, e, p, graceDays, d);
  }

  /** The second commit, on what the first one and the closing of the checkouts left. */
  lemma CommittedAgain(b: Db, id: SubscriptionId, key: EventKey, e: Event, p: Snapshot, graceDays: nat, before: bool,
      c: Db) returns (d: Db)
    requires id in b.subscriptions && !PartialRefundEvent(e)
    requires CommitEvent(b, id, b.subscriptions[id], key, e, p, graceDays, before) == Ok(c)
    ensures id in c.subscriptions && id in d.subscriptions
    ensures var once := Settle(c, id, e, b.subscriptions[id].status, c.subscriptions[id].status);
            && id in once.subscriptions
            && CommitEvent(once, id, once.subscriptions[id], key, e, p, graceDays, HasSucceeded(once.ledger, id))
               == Ok(d)
            && SameUpToCounters(once, d)
            && Settle(d, id, e, once.subscriptions[id].status, d.subscriptions[id].status) == d
            && once.subscriptions.Keys == b.subscriptions.Keys && once.customers == b.customers
            && (forall x :: x in b.subscriptions ==> SameBinding(b.subscriptions[x], once.subscriptions[x]))
            && once.checkouts.Keys == b.checkouts.Keys
            && (forall k :: k in b.checkouts ==>
                  b.checkouts[k] == once.checkouts[k].(version := b.checkouts[k].version,
                                                       state := b.checkouts[k].state))
  {
    var s := b.subscriptions[id];
    hide Decide, HasSucceeded, SameUpToCounters, Settle, ApplyState, Updated, AmountMatches;
    var u := Decide(id, s, key, e, p, graceDays, before);
    d := AppliedAgain(b, id, key, e, p, graceDays, before, c);
    SettleTouchesCheckouts(c, id, e, s.status, u.next);
    UpdatedKeepsBinding(s, u);
    DecideAddresses(id, s, key, e, p, graceDays, before);
    ApplyShape(b, u, e.occurredAt, c);
    hide PartialRefundEvent;
  }

  lemma UpdatedKeepsBinding(s: Subscription, u: StateUpdate)
    ensures var s' := Updated(s, u);
            && SameBinding(s, s')
            && s'.price == s.price && s'.currency == s.currency && s'.status == u.next && s'.version == s.version + 1
  {
  }

  lemma AppliedAgain(b: Db, id: SubscriptionId, key: EventKey, e: Event, p: Snapshot, graceDays: nat, before: bool,
      c: Db) returns (d: Db)
    requires id in b.subscriptions && AmountMatches(b.subscriptions[id], e)
    requires ApplyState(b, Decide(id, b.subscriptions[id], key, e, p, graceDays, before), e.occurredAt) == Ok(c)
    ensures var s := b.subscriptions[id];
            var u := Decide(id, s, key, e, p, graceDays, before);
            var once := Settle(c, id, e, s.status, u.next);
            var s' := Updated(s, u);
            var v := Decide(id, s', key, e, p, graceDays, HasSucceeded(once.ledger, id));
            && c.subscriptions == b.subscriptions[id := s']
            && AmountMatches(s', e)
            && ApplyState(once, v, e.occurredAt) == Ok(d)
            && id in d.subscriptions && d.subscriptions[id].status == v.next == u.next == s'.status
            && SameUpToCounters(once, d)
            && Settle(d, id, e, u.next, u.next) == d
  {
    var s := b.subscriptions[id];
    var u := Decide(id, s, key, e, p, graceDays, before);
    DecideAddresses(id, s, key, e, p, graceDays, before);
    hide Decide, HasSucceeded, SameUpToCounters, ApplyState, Settle;
    ApplyShape(b, u, e.occurredAt, c);
    var once := Settle(c, id, e, s.status, u.next);
    var after := HasSucceeded(once.ledger, id);
    DecideRepeats(id, s, key, e, p, graceDays, before, after);
    UpdatedKeepsBinding(s, u);
    hide Updated;
    var v := Decide(id, Updated(s, u), key, e, p, graceDays, after);
    ApplyTwice(b, u, v, e.occurredAt, c);
    SettleTouchesCheckouts(c, id, e, s.status, u.next);
    ApplyIgnoresCheckouts(c, once, v, e.occurredAt);
    d := ApplyState(once, v, e.occurredAt).value;
    ApplyShape(once, v, e.occurredAt, d);
    UpdatedKeepsBinding(Updated(s, u), v);
    SettledTwice(c, d, id, e, s.status, u.next);
    SameWithCheckouts(c, ApplyState(c, v, e.occurredAt).value, once.checkouts);
  }

  lemma SettleTouchesCheckouts(c: Db, id: SubscriptionId, e: Event, seen: Status, next: Status)
    ensures var d := Settle(c, id, e, seen, next);
            && d == c.(checkouts := d.checkouts) && d.checkouts.Keys == c.checkouts.Keys
            && forall k :: k in c.checkouts ==>
               c.checkouts[k] == d.checkouts[k].(version := c.checkouts[k].version, state := c.checkouts[k].state)
  {
  }

  lemma SameWithCheckouts(a: Db, b: Db, checkouts: map<CheckoutId, Checkout>)
    requires SameUpToCounters(a, b)
    ensures SameUpToCounters(a.(checkouts := checkouts), b.(checkouts := checkouts))
  {
  }

  lemma ApplyIgnoresCheckouts(a: Db, b: Db, u: StateUpdate, now: Time)
    requires b == a.(checkouts := b.checkouts) && ApplyState(a, u, now).Ok?
    ensures ApplyState(b, u, now) == Ok(ApplyState(a, u, now).value.(checkouts := b.checkouts))
  {
  }

  lemma SettledTwice(c: Db, d: Db, id: SubscriptionId, e: Event, seen: Status, next: Status)
    requires d.checkouts == Settle(c, id, e, seen, next).checkouts
    requires e.kind.PaymentFailed? && Awaiting(next) ==> Awaiting(seen)
    ensures Settle(d, id, e, next, next) == d
  {
    assert Settle(d, id, e, next, next).checkouts == d.checkouts;
  }

  lemma ProcessMarks(db: Db, key: EventKey, e: Event, p: Snapshot, graceDays: nat)
    requires key in db.events && ProcessEvent(db, key, e, p, graceDays).error.None?
    ensures var events := ProcessEvent(db, key, e, p, graceDays).db.events;
            key in events && events[key].event == db.events[key].event && events[key].progress == Processed
  {
    var b := Bind(db, e).value;
    var id := Target(b, e).value;
    assert id in b.subscriptions && b.events == db.events by { BindKeepsEvents(db, e); }
    hide Bind, Target, CommitEvent, Settled;
    CommitMarksProcessed(b, id, key, e, p, graceDays, HasSucceeded(b.ledger, id));
    hide HasSucceeded;
  }

  lemma BindKeepsEvents(db: Db, e: Event)
    requires Bind(db, e).Ok?
    ensures Bind(db, e).value.events == db.events
  {
    hide BindingAccepted, BindingTaken, CustomerAccepted;
  }

  lemma CommitMarksProcessed(b: Db, id: SubscriptionId, key: EventKey, e: Event, p: Snapshot, graceDays: nat,
      before: bool)
    requires id in b.subscriptions && key in b.events
    requires CommitEvent(b, id, b.subscriptions[id], key, e, p, graceDays, before).Ok?
    ensures var c := CommitEvent(b, id, b.subscriptions[id], key, e, p, graceDays, before).value;
            c.events == MarkProcessed(b.events, key) && id in c.subscriptions
  {
    var u := Decide(id, b.subscriptions[id], key, e, p, graceDays, before);
    DecideAddresses(id, b.subscriptions[id], key, e, p, graceDays, before);
    hide Decide, PartialRefundRow, AmountMatches;
    if !PartialRefundEvent(e) {
      ApplyShape(b, u, e.occurredAt, ApplyState(b, u, e.occurredAt).value);
    }
    hide ApplyState;
  }

  /** Redelivering an event that was processed changes nothing at all. */
  lemma RedeliveryIsSilent(db: Db, key: EventKey, e: Event, p: Snapshot, graceDays: nat, p': Snapshot, graceDays': nat)
    requires Ingest(db, key, e, p, graceDays).error.None?
    ensures var once := Ingest(db, key, e, p, graceDays).db;
            Ingest(once, key, e, p', graceDays') == Handled(once, None)
  {
    if !(key in db.events && db.events[key].progress in {Processed, Ignored, Processing}) {
      ProcessMarks(db.(events :=
                       db.events[key := EventRecord(e, Processing, if key in db.events then db.events[key].attempts
                                                    else 0)]),
                   key, e, p, graceDays);
    }
    hide ProcessEvent;
  }

  // ----- what an event leaves of Premium -----

  /** Until when the event keeps Premium: None for not at all. */
  function PremiumAfter(s: Subscription, e: Event, p: Snapshot, graceDays: nat): Option<Time> {
    match e.kind
    case PendingEvent => if s.status.GracePeriod? then s.graceEnd else None
    case Paid(_, _, end, _, _) => Some(end)
    case PaymentFailed => if Awaiting(s.status) || graceDays == 0 then None else Some(e.occurredAt + graceDays * DAY)
    case GraceStarted(end) => Some(end)
    case CancelScheduled(end) => if s.latestPayment.Succeeded? then Some(end) else None
    case CancelledNow(at) => if s.latestPayment.Succeeded? then Some(at) else None
    case DisputeResolved(_, _) =>
      if p.status.Active? && p.latestPayment.Succeeded? then (if p.periodEnd.Some? then p.periodEnd else s.periodEnd)
         else None
    case ExpiredNow(_) => None
    case RefundedEvent(_, _, _) => None
    case DisputedEvent(_, _) => None
  }

  ghost predicate GrantedUntil(catalogue: Catalogue, s: Subscription, feature: EntitlementKey, end: Option<Time>,
      t: Time) {
    end.Some? && t < end.value && InFeatureSet(catalogue, s, feature)
  }

  lemma DecidedGrant(catalogue: Catalogue, id: SubscriptionId, s: Subscription, key: EventKey, e: Event, p: Snapshot,
      graceDays: nat, before: bool, feature: EntitlementKey, t: Time)
    requires !PartialRefundEvent(e) && t >= e.occurredAt
    ensures Granted(catalogue, Updated(s, Decide(id, s, key, e, p, graceDays, before)), feature, t)
            == GrantedUntil(catalogue, s, feature, PremiumAfter(s, e, p, graceDays), t)
  {
  }

  /** From the event on, the lit rows are the plan's features up to that end, and nothing after it. */
  lemma EventPremium(db: Db, id: SubscriptionId, key: EventKey, e: Event, p: Snapshot, graceDays: nat, before: bool,
      db': Db)
    requires id in db.subscriptions && !PartialRefundEvent(e)
    requires CommitEvent(db, id, db.subscriptions[id], key, e, p, graceDays, before) == Ok(db')
    ensures var s := db.subscriptions[id];
            forall feature: EntitlementKey, t: Time :: t >= e.occurredAt ==>
              Lit(db'.rows, SubscriptionRow(s.guild, feature, id), t)
              == GrantedUntil(db.catalogue, s, feature, PremiumAfter(s, e, p, graceDays), t)
  {
    hide Decide, Lit;
    var s := db.subscriptions[id];
    var u := Decide(id, s, key, e, p, graceDays, before);
    assert u.subscription == id by { DecideAddresses(id, s, key, e, p, graceDays, before); }
    ApplyMaterialises(db, u, e.occurredAt, db');
    forall feature: EntitlementKey, t: Time | t >= e.occurredAt
      ensures Lit(db'.rows, SubscriptionRow(s.guild, feature, id), t)
              == GrantedUntil(db.catalogue, s, feature, PremiumAfter(s, e, p, graceDays), t)
    {
      assert Lit(db'.rows, SubscriptionRow(db'.subscriptions[id].guild, feature, id), t) <==>
             Granted(db'.catalogue, db'.subscriptions[id], feature, t);
      DecidedGrant(db.catalogue, id, s, key, e, p, graceDays, before, feature, t);
    }
  }

  lemma DecideAddresses(id: SubscriptionId, s: Subscription, key: EventKey, e: Event, p: Snapshot, graceDays: nat,
      before: bool)
    ensures var u := Decide(id, s, key, e, p, graceDays, before);
            u.subscription == id && u.expectedVersion == s.version && u.event == Some(key)
              && u.providerClock == Put(Some(e.occurredAt))
  {
  }

  /** A snapshot grants Premium only if it reports a successful payment or an overdue one inside the grace window. */
  function PremiumAfterSnapshot(p: Snapshot, graceDays: nat, now: Time): Option<Time> {
    if p.cancelAtPeriodEnd && p.periodEnd.Some? then (if p.latestPayment.Succeeded? then p.periodEnd else None)
    else if p.status.PastDue? && graceDays > 0 then Some(now + graceDays * DAY)
    else if (p.status.Active? || p.status.Cancelled?) && p.latestPayment.Succeeded? then p.periodEnd
    else None
  }

  lemma SnapshotPremium(db: Db, id: SubscriptionId, p: Snapshot, graceDays: nat, now: Time)
    requires id in db.subscriptions
    requires CommitSnapshot(db, id, db.subscriptions[id], p, graceDays, now).Ok?
    requires CommitSnapshot(db, id, db.subscriptions[id], p, graceDays, now).value.Some?
    ensures var s := db.subscriptions[id];
            var db' := CommitSnapshot(db, id, s, p, graceDays, now).value.value;
            forall feature: EntitlementKey, t: Time :: t >= now ==>
              Lit(db'.rows, SubscriptionRow(s.guild, feature, id), t)
                == GrantedUntil(db.catalogue, s, feature, PremiumAfterSnapshot(p, graceDays, now), t)
  {
    var s := db.subscriptions[id];
    var d := StateFromSnapshot(s.status, p, graceDays, now).value;
    var u := ReconcileUpdate(id, s, p, d, now);
    ApplyMaterialises(db, u, now, ApplyState(db, u, now).value);
  }
}
