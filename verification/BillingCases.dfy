/** Concrete runs of the billing system, from an empty deployment, in which a property fails. */
module BillingCases {
  import opened Common
  import opened Lifecycle
  import opened BillingModel
  import opened ProviderEvents
  import opened BillingSteps
  import opened BillingHistory
  import opened BillingInvariants
  import opened BillingTheorems
  import opened BillingBindings
  import opened BillingBooking
  import opened BillingRows

  const START: Db := Db(map[1 := [Base]], map[], map[], map[], map[], map[], map[], map[7 := 1])

  const PURCHASE: Purchase := Purchase(7, 50, 1, Stripe, 0, 500, USD, 1, 900, true, true)

  /** An event for checkout 2, opened in session 3, that names the provider's subscription `x`. */
  function CheckoutEvent(x: ProviderSubscriptionId): Event {
    Event(Stripe, 0, x, None, 10, None, Some(2), Some(3), PendingEvent)
  }

  function ReadyCheckout(): Checkout {
    NewCheckout(1, PURCHASE).(state := ProviderPending, session := Some(3), version := 2)
  }

  /** Subscription 1 of guild 7 with its checkout, once the provider opened the session. */
  function Opened(): Db {
    START.(subscriptions := map[1 := NewSubscription(PURCHASE)], checkouts := map[2 := ReadyCheckout()])
  }

  const OPENING: seq<Step> := [Open(1, 2, PURCHASE), Ready(2, 3, 900)]

  lemma Opening()
    ensures Fresh(START)
    ensures Run(START, OPENING) == [Moment(START, Nothing), Run(START, OPENING)[1], Moment(Opened(), Nothing)]
  {
    var db := START.(subscriptions := map[1 := NewSubscription(PURCHASE)],
                     checkouts := map[2 := NewCheckout(1, PURCHASE)]);
    var first := [Moment(START, Nothing)];
    assert Run(START, []) == first;
    assert Execute(first, Open(1, 2, PURCHASE)) == Moment(db, Nothing);
    RunGoesOn(START, [], Open(1, 2, PURCHASE));
    assert Execute(first + [Moment(db, Nothing)], Ready(2, 3, 900)) == Moment(Opened(), Nothing);
    RunGoesOn(START, [] + [Open(1, 2, PURCHASE)], Ready(2, 3, 900));
    assert [] + [Open(1, 2, PURCHASE)] + [Ready(2, 3, 900)] == OPENING;
  }

  function Received(x: ProviderSubscriptionId): EventRecord {
    EventRecord(CheckoutEvent(x), EventProgress.Received, 0)
  }

  /** One step of a run whose moments are known so far. */
  lemma OneStep(start: Db, steps: seq<Step>, t: seq<Moment>, step: Step, m: Moment)
    requires t == Run(start, steps) && Execute(t, step) == m
    ensures Run(start, steps + [step]) == t + [m]
  {
    RunGoesOn(start, steps, step);
    hide *;
  }

  // ----- a checkout failure after a snapshot that reported a payment -----

  const FIRST: EventKey := EventKey(Stripe, 100)

  const PAID_SNAPSHOT: Snapshot := Snapshot(Status.Pending, Succeeded, None, Some(1000), false, None, None)

  const UNTIL_BOUND: seq<Step> := OPENING + [Receive(FIRST, CheckoutEvent(10))] + [BindEvent(FIRST, 3)]

  const UNTIL_FAILED: seq<Step> := UNTIL_BOUND + [Reconcile(1, 4, PAID_SNAPSHOT, 3, 10)] + [Fail(2, 20)]

  function BoundDb(): Db {
    Opened().(subscriptions := map[1 := NewSubscription(PURCHASE).(binding := Some(10))],
              events := map[FIRST := Received(10)])
  }

  /** A snapshot that leaves the subscription Pending reported a payment and a period. */
  function PaidPending(): Subscription {
    NewSubscription(PURCHASE).(binding := Some(10), version := 2, latestPayment := Succeeded, periodEnd := Some(1000),
                               providerClock := Some(10))
  }

  /** The payment of the same checkout. */
  const PAYING: Event :=
    Event(Stripe, 0, 10, None, 10, None, Some(2), Some(3), Paid(false, 0, 1000, Some(500), Some(USD)))

  /** A step that receives a new event of its provider. */
  lemma Receives(t: seq<Moment>, key: EventKey, e: Event)
    requires |t| > 0 && key !in t[|t| - 1].db.events && e.provider == key.provider
    ensures var db := t[|t| - 1].db;
            Execute(t, Receive(key, e))
            == Moment(db.(events := db.events[key := EventRecord(e, EventProgress.Received, 0)]), Nothing)
  {
  }

  /** A binding that is read and written at the latest moment. */
  lemma BindsNow(t: seq<Moment>, key: EventKey, db': Db)
    requires |t| > 0 && key in t[|t| - 1].db.events
    requires var db := t[|t| - 1].db; BindRead(db, db, db.events[key].event) == Ok(db')
    ensures Execute(t, BindEvent(key, |t| - 1)) == Moment(db', BoundEvent(key))
  {
    hide BindRead;
  }

  lemma FirstBinds(db: Db, e: Event, x: ProviderSubscriptionId)
    requires db.subscriptions == Opened().subscriptions && db.checkouts == Opened().checkouts
             && db.customers == Opened().customers && db.catalogue == Opened().catalogue
    requires e == CheckoutEvent(x) || (e == PAYING && x == 10)
    ensures BindRead(db, db, e)
            == Ok(db.(subscriptions := map[1 := NewSubscription(PURCHASE).(binding := Some(x))]))
  {
    assert BindingAccepted(db, e);
    assert db.subscriptions[1 := NewSubscription(PURCHASE).(binding := Some(x))]
           == map[1 := NewSubscription(PURCHASE).(binding := Some(x))];
  }

  lemma UntilBound()
    ensures |Run(START, UNTIL_BOUND)| == 5 && Run(START, UNTIL_BOUND)[4].db == BoundDb()
    ensures forall i | 0 <= i < 5 :: !Run(START, UNTIL_BOUND)[i].note.Applied?
  {
    Opening();
    var t2 := Run(START, OPENING);
    var m3 := Moment(Opened().(events := map[FIRST := Received(10)]), Nothing);
    hide Run, Execute, BindRead;
    Receives(t2, FIRST, CheckoutEvent(10));
    OneStep(START, OPENING, t2, Receive(FIRST, CheckoutEvent(10)), m3);
    FirstBinds(m3.db, CheckoutEvent(10), 10);
    BindsNow(t2 + [m3], FIRST, BoundDb());
    OneStep(START, OPENING + [Receive(FIRST, CheckoutEvent(10))], t2 + [m3], BindEvent(FIRST, 3),
            Moment(BoundDb(), BoundEvent(FIRST)));
  }

  lemma SnapshotAccepted()
    ensures CommitSnapshot(BoundDb(), 1, BoundDb().subscriptions[1], PAID_SNAPSHOT, 3, 10)
            == Ok(Some(BoundDb().(subscriptions := map[1 := PaidPending()], guildVersion := map[7 := 2])))
  {
    var db := BoundDb();
    assert SyncedRows(map[], 7, 1, 10, {}, None, 10) == map[];
    assert KeySet([]) == {};
    assert db.subscriptions[1 := PaidPending()] == map[1 := PaidPending()] && db.guildVersion[7 := 2] == map[7 := 2];
    var u := ReconcileUpdate(1, db.subscriptions[1], PAID_SNAPSHOT,
                             SnapshotDecision(Status.Pending, NotCancelling, None, None, None), 10);
    assert Updated(db.subscriptions[1], u) == PaidPending();
    assert CommitError(db, 1, PaidPending(), None, None, 10).None?;
    assert Committed(db, 1, PaidPending(), None, None, 10)
           == db.(subscriptions := map[1 := PaidPending()], guildVersion := map[7 := 2]);
  }

  const PAID_MOMENT: Moment := Moment(BoundDb().(subscriptions := map[1 := PaidPending()], guildVersion := map[7 := 2]),
                                      Applied(1, 10, true, None, None, true))

  lemma UntilFailed()
    ensures FailCheckout(PAID_MOMENT.db, 2, 20).Ok?
    ensures Run(START, UNTIL_FAILED)
            == Run(START, UNTIL_BOUND) + [PAID_MOMENT] + [Moment(FailCheckout(PAID_MOMENT.db, 2, 20).value, Nothing)]
  {
    UntilBound();
    SnapshotAccepted();
    var t4 := Run(START, UNTIL_BOUND);
    hide Run, CommitSnapshot;
    assert Execute(t4, Reconcile(1, 4, PAID_SNAPSHOT, 3, 10)) == PAID_MOMENT;
    OneStep(START, UNTIL_BOUND, t4, Reconcile(1, 4, PAID_SNAPSHOT, 3, 10), PAID_MOMENT);
    var m6 := Moment(FailCheckout(PAID_MOMENT.db, 2, 20).value, Nothing);
    assert Execute(t4 + [PAID_MOMENT], Fail(2, 20)) == m6;
    OneStep(START, UNTIL_BOUND + [Reconcile(1, 4, PAID_SNAPSHOT, 3, 10)], t4 + [PAID_MOMENT], Fail(2, 20), m6);
  }

  /**
   From an empty deployment: a checkout is opened, its provider subscription bound, a snapshot leaves it
   Pending but reports a payment and a period, and then the provider's refusal of the checkout arrives.
   The subscription grants Premium from then on, and not one of its rows is lit.
   */
  lemma FailureCanBreakRule()
    ensures Fresh(START)
    ensures var db := Run(START, UNTIL_FAILED)[|UNTIL_FAILED|].db;
            && 1 in db.subscriptions && GrantOf(db.subscriptions[1], 500).grants
               && InFeatureSet(db.catalogue, db.subscriptions[1], Base)
            && !Lit(db.rows, SubscriptionRow(7, Base, 1), 500)
    ensures !FailuresSpareRows(START, UNTIL_FAILED) && !RowsFollowThroughout(START, UNTIL_FAILED)
  {
    UntilBound();
    UntilFailed();
    Opening();
    hide Run, Fresh, FailuresSpareRows, RowsFollowThroughout;
    assert SinceLastApplied(Run(START, UNTIL_FAILED), 1, 500);
    if FailuresSpareRows(START, UNTIL_FAILED) {
      RowsAreTheRule(START, UNTIL_FAILED, 1, Base, 500);
    }
    RowsFollowExactly(START, UNTIL_FAILED);
  }

  // ----- two first events of one checkout -----

  const SECOND: EventKey := EventKey(Stripe, 101)

  const UNTIL_RECEIVED: seq<Step> :=
    OPENING + [Receive(FIRST, CheckoutEvent(10))] + [Receive(SECOND, CheckoutEvent(11))]

  /** Both events validate their binding on the tables as they were before either was bound. */
  const UNTIL_REBOUND: seq<Step> := UNTIL_RECEIVED + [BindEvent(FIRST, 4)] + [BindEvent(SECOND, 4)]

  function ReceivedBoth(): Db {
    Opened().(events := map[FIRST := Received(10), SECOND := Received(11)])
  }

  function BoundTo(x: ProviderSubscriptionId): Db {
    ReceivedBoth().(subscriptions := map[1 := NewSubscription(PURCHASE).(binding := Some(x))])
  }

  lemma UntilReceived()
    ensures |Run(START, UNTIL_RECEIVED)| == 5 && Run(START, UNTIL_RECEIVED)[4].db == ReceivedBoth()
  {
    Opening();
    var t2 := Run(START, OPENING);
    var m3 := Moment(Opened().(events := map[FIRST := Received(10)]), Nothing);
    assert Execute(t2, Receive(FIRST, CheckoutEvent(10))) == m3;
    OneStep(START, OPENING, t2, Receive(FIRST, CheckoutEvent(10)), m3);
    hide Run;
    assert Execute(t2 + [m3], Receive(SECOND, CheckoutEvent(11))) == Moment(ReceivedBoth(), Nothing);
    OneStep(START, OPENING + [Receive(FIRST, CheckoutEvent(10))], t2 + [m3], Receive(SECOND, CheckoutEvent(11)),
            Moment(ReceivedBoth(), Nothing));
  }

  lemma BindsStale(x: ProviderSubscriptionId, y: ProviderSubscriptionId, db: Db)
    requires db == ReceivedBoth() || db == BoundTo(y)
    ensures BindRead(db, ReceivedBoth(), CheckoutEvent(x)) == Ok(BoundTo(x))
  {
    assert BindingAccepted(ReceivedBoth(), CheckoutEvent(x));
    assert db.subscriptions[1 := NewSubscription(PURCHASE).(binding := Some(x))] == BoundTo(x).subscriptions;
  }

  lemma NotAllStay(start: Db, steps: seq<Step>, i: nat, j: nat)
    requires i <= j <= |steps| && !BindingsStay(Run(start, steps)[i].db, Run(start, steps)[j].db)
    ensures !AllBindingsStay(start, steps)
  {
    hide Run, BindingsStay;
  }

  /**
   Two first events of one checkout that name different provider subscriptions: both pass the validation,
   and the second write replaces the binding of the first.
   */
  lemma BindingCanBeReplaced()
    ensures Fresh(START)
    ensures var t := Run(START, UNTIL_REBOUND);
            && 1 in t[5].db.subscriptions && t[5].db.subscriptions[1].binding == Some(10)
            && 1 in t[6].db.subscriptions && t[6].db.subscriptions[1].binding == Some(11)
    ensures !AllBindingsStay(START, UNTIL_REBOUND) && !BindingsAreFree(START, UNTIL_REBOUND)
  {
    Opening();
    UntilReceived();
    BindsStale(10, 11, ReceivedBoth());
    BindsStale(11, 10, BoundTo(10));
    var t4 := Run(START, UNTIL_RECEIVED);
    var m5, m6 := Moment(BoundTo(10), BoundEvent(FIRST)), Moment(BoundTo(11), BoundEvent(SECOND));
    hide Run, BindRead, Fresh, AllBindingsStay, BindingsAreFree;
    assert Execute(t4, BindEvent(FIRST, 4)) == m5;
    OneStep(START, UNTIL_RECEIVED, t4, BindEvent(FIRST, 4), m5);
    assert Execute(t4 + [m5], BindEvent(SECOND, 4)) == m6;
    OneStep(START, UNTIL_RECEIVED + [BindEvent(FIRST, 4)], t4 + [m5], BindEvent(SECOND, 4), m6);
    assert !BindingsStay(Run(START, UNTIL_REBOUND)[5].db, Run(START, UNTIL_REBOUND)[6].db);
    NotAllStay(START, UNTIL_REBOUND, 5, 6);
    BindingsStayExactly(START, UNTIL_REBOUND);
  }

  // ----- an event the retry job marked -----

  /** The provider's own view after the payment. */
  const ACTIVE_SNAPSHOT: Snapshot := Snapshot(Active, Succeeded, Some(0), Some(1000), false, None, None)

  function Paying(progress: EventProgress, attempts: nat): Db {
    Opened().(subscriptions := map[1 := NewSubscription(PURCHASE).(binding := Some(10))],
              events := map[FIRST := EventRecord(PAYING, progress, attempts)])
  }

  /** The payment is received and bound, and then its processing fails. */
  const UNTIL_GIVEN_UP: seq<Step> := OPENING + [Receive(FIRST, PAYING)] + [BindEvent(FIRST, 3)] + [GiveUp(FIRST)]

  /** The retry job reads the event and finds its subscription, reconciles it, and marks the event. */
  const UNTIL_RECONCILED: seq<Step> := UNTIL_GIVEN_UP + [Reconcile(1, 5, ACTIVE_SNAPSHOT, 3, 20)]

  const UNTIL_MARKED: seq<Step> := UNTIL_RECONCILED + [MarkRetried(FIRST, 5, 5, 6)]

  lemma UntilGivenUp()
    ensures |Run(START, UNTIL_GIVEN_UP)| == 6
    ensures Run(START, UNTIL_GIVEN_UP)[5].db == Paying(ProcessingFailed, 1)
  {
    Opening();
    var t2 := Run(START, OPENING);
    var m3 := Moment(Opened().(events := map[FIRST := EventRecord(PAYING, EventProgress.Received, 0)]), Nothing);
    var m4 := Moment(Paying(EventProgress.Received, 0), BoundEvent(FIRST));
    var m5 := Moment(Paying(ProcessingFailed, 1), Nothing);
    hide Run, BindRead, Execute;
    Receives(t2, FIRST, PAYING);
    OneStep(START, OPENING, t2, Receive(FIRST, PAYING), m3);
    FirstBinds(m3.db, PAYING, 10);
    BindsNow(t2 + [m3], FIRST, Paying(EventProgress.Received, 0));
    OneStep(START, OPENING + [Receive(FIRST, PAYING)], t2 + [m3], BindEvent(FIRST, 3), m4);
    PayingGivesUp(t2 + [m3] + [m4]);
    OneStep(START, OPENING + [Receive(FIRST, PAYING)] + [BindEvent(FIRST, 3)], t2 + [m3] + [m4], GiveUp(FIRST), m5);
  }

  lemma PayingGivesUp(t: seq<Moment>)
    requires |t| > 0 && t[|t| - 1].db == Paying(EventProgress.Received, 0)
    ensures Execute(t, GiveUp(FIRST)) == Moment(Paying(ProcessingFailed, 1), Nothing)
  {
  }

  lemma ActiveAccepted(db: Db)
    requires db == Paying(ProcessingFailed, 1)
    ensures var r := CommitSnapshot(db, 1, db.subscriptions[1], ACTIVE_SNAPSHOT, 3, 20);
            && r.Ok? && r.value.Some?
            && r.value.value.events == db.events && r.value.value.ledger == map[]
            && r.value.value.subscriptions.Keys == {1} && GrantOf(r.value.value.subscriptions[1], 500).grants
  {
    var u := ReconcileUpdate(1, db.subscriptions[1], ACTIVE_SNAPSHOT,
                             SnapshotDecision(Active, NotCancelling, None, None, None), 20);
    var s := Updated(db.subscriptions[1], u);
    assert ApplyGuard(db, u).None? && SubscriptionChecks(s);
    assert Desired(db.catalogue, s, 20) == Ok(([Base], Some(1000)));
    var rows := MaterialisedRows(db.catalogue, db.rows, 1, s, 20);
    forall k | k in rows && OwnedBy(k, s.guild, 1)
      ensures RowChecks(rows[k])
    {
      assert k.key == Base && k !in db.rows;
    }
    assert CommitError(db, 1, s, None, None, 20).None?;
    ApplyShape(db, u, 20, ApplyState(db, u, 20).value);
    hide ApplyState;
  }

  lemma UntilReconciled()
    ensures var t := Run(START, UNTIL_RECONCILED);
            && |t| == 7 && t[5].db == Paying(ProcessingFailed, 1) && t[6].note == Applied(1, 20, true, None, None, true)
            && t[6].db.events == t[5].db.events && t[6].db.ledger == map[]
            && 1 in t[6].db.subscriptions && GrantOf(t[6].db.subscriptions[1], 500).grants
  {
    UntilGivenUp();
    var t5 := Run(START, UNTIL_GIVEN_UP);
    var db := t5[5].db;
    ActiveAccepted(db);
    var reconciled := CommitSnapshot(db, 1, db.subscriptions[1], ACTIVE_SNAPSHOT, 3, 20).value.value;
    var m6 := Moment(reconciled, Applied(1, 20, true, None, None, true));
    hide Run, CommitSnapshot, GrantOf;
    assert Execute(t5, Reconcile(1, 5, ACTIVE_SNAPSHOT, 3, 20)) == m6;
    OneStep(START, UNTIL_GIVEN_UP, t5, Reconcile(1, 5, ACTIVE_SNAPSHOT, 3, 20), m6);
  }

  /**
   The first payment of a checkout fails to be processed; the retry job reconciles the subscription, which then
   grants Premium, and marks the event processed, and the payment is not in the ledger.
   */
  lemma ProcessedPaymentCanBeLost()
    ensures Fresh(START)
    ensures var db := Run(START, UNTIL_MARKED)[|UNTIL_MARKED|].db;
            && ProcessedIn(db, FIRST) && PaidWithAmount(db.events[FIRST].event) && FIRST !in db.ledger
            && 1 in db.subscriptions && GrantOf(db.subscriptions[1], 500).grants
    ensures !BookedThroughout(START, UNTIL_MARKED, FIRST) && !MarksFindTheRow(START, UNTIL_MARKED, FIRST)
  {
    Opening();
    UntilReconciled();
    var t6 := Run(START, UNTIL_RECONCILED);
    assert Fresh(START);
    hide Run, Fresh, GrantOf;
    MarkFollows(t6);
    var m7 := Moment(t6[6].db.(events := MarkProcessed(t6[6].db.events, FIRST)), Nothing);
    OneStep(START, UNTIL_RECONCILED, t6, MarkRetried(FIRST, 5, 5, 6), m7);
    hide Execute;
    NotBooked(START, UNTIL_MARKED, 7, FIRST);
    PaymentIsBookedExactly(START, UNTIL_MARKED, FIRST);
  }

  lemma MarkFollows(t: seq<Moment>)
    requires |t| == 7 && t[5].db == Paying(ProcessingFailed, 1) && t[6].note == Applied(1, 20, true, None, None, true)
    requires t[6].db.events == t[5].db.events
    ensures Execute(t, MarkRetried(FIRST, 5, 5, 6))
            == Moment(t[6].db.(events := MarkProcessed(t[6].db.events, FIRST)), Nothing)
  {
    assert Bound(t[5].db.subscriptions[1], Stripe, 10);
    assert Marks(t, MarkRetried(FIRST, 5, 5, 6));
  }

  lemma NotBooked(start: Db, steps: seq<Step>, n: nat, k: EventKey)
    requires n <= |steps| && !BookedIn(Run(start, steps)[n].db, k)
    ensures !BookedThroughout(start, steps, k)
  {
    hide Run, BookedIn;
  }

  // ----- a checkout that fails after the sweep expired it -----

  const UNTIL_REVIVED: seq<Step> := OPENING + [Sweep(2, 2, 900)] + [Fail(2, 950)]

  function SweptDb(): Db {
    Opened().(subscriptions := map[1 := ExpiredSubscription(NewSubscription(PURCHASE), 900)],
              checkouts := map[2 := ExpiredCheckout(ReadyCheckout())])
  }

  lemma UntilSwept()
    ensures Run(START, OPENING + [Sweep(2, 2, 900)]) == Run(START, OPENING) + [Moment(SweptDb(), Nothing)]
  {
    Opening();
    var t2 := Run(START, OPENING);
    hide Run;
    assert Opened().subscriptions[1 := ExpiredSubscription(NewSubscription(PURCHASE), 900)] == SweptDb().subscriptions;
    assert Opened().checkouts[2 := ExpiredCheckout(ReadyCheckout())] == SweptDb().checkouts;
    assert Execute(t2, Sweep(2, 2, 900)) == Moment(SweptDb(), Nothing);
    OneStep(START, OPENING, t2, Sweep(2, 2, 900), Moment(SweptDb(), Nothing));
  }

  /**
   The provider refuses a checkout after the sweep expired it: Expired, which nothing may leave, becomes
   Cancelled, and the subscription occupies its guild's slot again.
   */
  lemma ExpiredCanBeRevived()
    ensures Fresh(START)
    ensures var t := Run(START, UNTIL_REVIVED);
            && 1 in t[3].db.subscriptions && t[3].db.subscriptions[1].status == Expired
            && 1 in t[4].db.subscriptions && t[4].db.subscriptions[1].status == Cancelled
    ensures !RunsInGraph(START, UNTIL_REVIVED) && !EndedStayEnded(START, UNTIL_REVIVED)
  {
    Opening();
    UntilSwept();
    var t2 := Run(START, OPENING);
    var m3 := Moment(SweptDb(), Nothing);
    hide Run, Fresh;
    var m4 := Moment(FailCheckout(SweptDb(), 2, 950).value, Nothing);
    assert Execute(t2 + [m3], Fail(2, 950)) == m4;
    OneStep(START, OPENING + [Sweep(2, 2, 900)], t2 + [m3], Fail(2, 950), m4);
    NotInGraph(START, UNTIL_REVIVED, 3);
  }

  lemma NotInGraph(start: Db, steps: seq<Step>, i: nat)
    requires i < |steps| && !FailsEffective(Run(start, steps)[i].db, steps[i])
    ensures !RunsInGraph(start, steps) && !EndedStayEnded(start, steps)
  {
    assert !FailuresAreEffective(start, steps) by { hide Run, FailsEffective; }
    RunInGraphExactly(start, steps);
    EndedStayEndedExactly(start, steps);
    hide *;
  }
}
