/**
 A concrete run of two guilds in which one payment is committed for two subscriptions, after the binding of
 the first was replaced: the ledger keeps the one row of the first commit.
 */
module BillingDoubleCommit {
  import opened Common
  import opened Lifecycle
  import opened BillingModel
  import opened ProviderEvents
  import opened BillingSteps
  import opened BillingHistory
  import opened BillingInvariants
  import opened BillingTheorems
  import opened BillingBindings
  import Cases = BillingCases
  import Effects = EventEffects

  const START: Db := Db(map[1 := [Base]], map[], map[], map[], map[], map[], map[], map[7 := 1, 8 := 1])

  const ONE: Purchase := Purchase(7, 50, 1, Stripe, 0, 500, USD, 1, 900, true, true)
  const OTHER: Purchase := Purchase(8, 51, 1, Stripe, 0, 500, USD, 1, 900, true, true)

  const FIRST: EventKey := EventKey(Stripe, 100)
  const SECOND: EventKey := EventKey(Stripe, 101)
  const THIRD: EventKey := EventKey(Stripe, 102)
  const PAYMENT: EventKey := EventKey(Stripe, 103)

  /** A first event of checkout 2 or 6, which names the provider's subscription `x`. */
  function CheckoutEvent(checkout: CheckoutId, session: nat, x: ProviderSubscriptionId): Event {
    Event(Stripe, 0, x, None, 10, None, Some(checkout), Some(session), PendingEvent)
  }

  /** The payment names the provider's subscription 10 only. */
  const PAID: Event := Event(Stripe, 0, 10, None, 20, None, None, None, Paid(false, 0, 1000, Some(500), Some(USD)))

  const SNAPSHOT: Snapshot := Snapshot(Active, Succeeded, None, None, false, None, None)

  function NewRecord(e: Event): EventRecord {
    EventRecord(e, EventProgress.Received, 0)
  }

  function ReadyCheckout(id: SubscriptionId, p: Purchase, session: nat): Checkout {
    NewCheckout(id, p).(state := ProviderPending, session := Some(session), version := 2)
  }

  // ----- both checkouts are open and all four events received -----

  const OPENING: seq<Step> := [Open(1, 2, ONE)] + [Ready(2, 3, 900)] + [Open(5, 6, OTHER)] + [Ready(6, 4, 900)]

  const RECEIVING: seq<Step> :=
    OPENING + [Receive(FIRST, CheckoutEvent(2, 3, 10))] + [Receive(SECOND, CheckoutEvent(2, 3, 11))]
    + [Receive(THIRD, CheckoutEvent(6, 4, 10))] + [Receive(PAYMENT, PAID)]

  function BothOpen(): Db {
    START.(subscriptions := map[1 := NewSubscription(ONE), 5 := NewSubscription(OTHER)],
           checkouts := map[2 := ReadyCheckout(1, ONE, 3), 6 := ReadyCheckout(5, OTHER, 4)])
  }

  function AllReceived(): Db {
    BothOpen().(events := map[FIRST := NewRecord(CheckoutEvent(2, 3, 10)), SECOND := NewRecord(CheckoutEvent(2, 3, 11)),
                              THIRD := NewRecord(CheckoutEvent(6, 4, 10)), PAYMENT := NewRecord(PAID)])
  }

  function FirstReady(): Db {
    START.(subscriptions := map[1 := NewSubscription(ONE)], checkouts := map[2 := ReadyCheckout(1, ONE, 3)])
  }

  function SecondCreated(): Db {
    BothOpen().(checkouts := map[2 := ReadyCheckout(1, ONE, 3), 6 := NewCheckout(5, OTHER)])
  }

  lemma FirstOpen()
    ensures |Run(START, [Open(1, 2, ONE)] + [Ready(2, 3, 900)])| == 3
    ensures Run(START, [Open(1, 2, ONE)] + [Ready(2, 3, 900)])[2] == Moment(FirstReady(), Nothing)
  {
    var created := START.(subscriptions := map[1 := NewSubscription(ONE)], checkouts := map[2 := NewCheckout(1, ONE)]);
    var ready := FirstReady();
    var t0 := [Moment(START, Nothing)];
    assert Run(START, []) == t0;
    assert Execute(t0, Open(1, 2, ONE)) == Moment(created, Nothing);
    Cases.OneStep(START, [], t0, Open(1, 2, ONE), Moment(created, Nothing));
    assert [] + [Open(1, 2, ONE)] == [Open(1, 2, ONE)];
    hide Run;
    assert created.checkouts[2 := ReadyCheckout(1, ONE, 3)] == ready.checkouts;
    assert Execute(t0 + [Moment(created, Nothing)], Ready(2, 3, 900)) == Moment(ready, Nothing);
    Cases.OneStep(START, [Open(1, 2, ONE)], t0 + [Moment(created, Nothing)], Ready(2, 3, 900), Moment(ready, Nothing));
  }

  lemma SecondOpen()
    ensures |Run(START, OPENING)| == 5 && Run(START, OPENING)[4] == Moment(BothOpen(), Nothing)
  {
    FirstOpen();
    var steps := [Open(1, 2, ONE)] + [Ready(2, 3, 900)];
    var t2, m3 := Run(START, steps), Moment(SecondCreated(), Nothing);
    hide Run;
    OpenSecond(t2);
    hide Execute;
    Cases.OneStep(START, steps, t2, Open(5, 6, OTHER), m3);
    OpenSecondSession(t2 + [m3], SecondCreated());
    Cases.OneStep(START, steps + [Open(5, 6, OTHER)], t2 + [m3], Ready(6, 4, 900), Moment(BothOpen(), Nothing));
  }

  lemma OpenSecond(t: seq<Moment>)
    requires |t| > 0 && t[|t| - 1].db == FirstReady()
    ensures Execute(t, Open(5, 6, OTHER)) == Moment(SecondCreated(), Nothing)
  {
    assert FirstReady().subscriptions[5 := NewSubscription(OTHER)] == SecondCreated().subscriptions;
    assert FirstReady().checkouts[6 := NewCheckout(5, OTHER)] == SecondCreated().checkouts;
  }

  lemma OpenSecondSession(t: seq<Moment>, created: Db)
    requires created == BothOpen().(checkouts := map[2 := ReadyCheckout(1, ONE, 3), 6 := NewCheckout(5, OTHER)])
    requires |t| > 0 && t[|t| - 1].db == created
    ensures Execute(t, Ready(6, 4, 900)) == Moment(BothOpen(), Nothing)
  {
    assert created.checkouts[6 := ReadyCheckout(5, OTHER, 4)] == BothOpen().checkouts;
  }

  lemma Receiving(steps: seq<Step>, t: seq<Moment>, key: EventKey, e: Event)
    requires t == Run(START, steps) && key !in t[|t| - 1].db.events && e.provider == key.provider
    ensures var db := t[|t| - 1].db;
            Run(START, steps + [Receive(key, e)])
              == t + [Moment(db.(events := db.events[key := NewRecord(e)]), Nothing)]
  {
    var db := t[|t| - 1].db;
    Cases.OneStep(START, steps, t, Receive(key, e), Moment(db.(events := db.events[key := NewRecord(e)]), Nothing));
    hide Run;
  }

  lemma UntilReceived()
    ensures |Run(START, RECEIVING)| == 9 && Run(START, RECEIVING)[8] == Moment(AllReceived(), Nothing)
  {
    SecondOpen();
    var t4 := Run(START, OPENING);
    hide Run;
    Receiving(OPENING, t4, FIRST, CheckoutEvent(2, 3, 10));
    var five := OPENING + [Receive(FIRST, CheckoutEvent(2, 3, 10))];
    Receiving(five, Run(START, five), SECOND, CheckoutEvent(2, 3, 11));
    var six := five + [Receive(SECOND, CheckoutEvent(2, 3, 11))];
    Receiving(six, Run(START, six), THIRD, CheckoutEvent(6, 4, 10));
    var seven := six + [Receive(THIRD, CheckoutEvent(6, 4, 10))];
    Receiving(seven, Run(START, seven), PAYMENT, PAID);
    assert BothOpen().events == map[];
    assert AllReceived().events == BothOpen().events[FIRST := NewRecord(CheckoutEvent(2, 3, 10))][
             SECOND := NewRecord(CheckoutEvent(2, 3, 11))][THIRD := NewRecord(CheckoutEvent(6, 4, 10))][PAYMENT :=
               NewRecord(PAID)];
  }

  // ----- what one commit of the payment does -----

  /** Subscription `id` is new but bound to 10, nobody else is, and it has no rows yet. */
  ghost predicate ReadyToPay(db: Db, id: SubscriptionId, p: Purchase) {
    && db.catalogue == map[1 := [Base]] && id in db.subscriptions
    && db.subscriptions[id] == NewSubscription(p).(binding := Some(10))
    && p.provider == Stripe && p.price == 500 && p.currency == USD && p.featureSet == 1 && p.guild in db.guildVersion
    && (forall k :: k in db.rows ==> !OwnedBy(k, p.guild, id))
    && (forall other :: other in db.subscriptions && other != id ==> db.subscriptions[other].binding != Some(10))
    && PAYMENT in db.events && db.events[PAYMENT].event == PAID
  }

  lemma PaymentApplies(db: Db, id: SubscriptionId, p: Purchase, before: bool)
    requires ReadyToPay(db, id, p)
    ensures Target(db, PAID) == Some(id)
    ensures ApplyState(db, Decide(id, db.subscriptions[id], PAYMENT, PAID, SNAPSHOT, 0, before), 20).Ok?
  {
    assert Bound(db.subscriptions[id], Stripe, 10);
    var u := Decide(id, db.subscriptions[id], PAYMENT, PAID, SNAPSHOT, 0, before);
    var s := Updated(db.subscriptions[id], u);
    assert ApplyGuard(db, u).None?;
    assert SubscriptionChecks(s) && PaymentChecks(db.ledger, u.payment.value);
    assert Desired(db.catalogue, s, 20) == Ok(([Base], Some(1000)));
    hide Target;
    var rows := MaterialisedRows(db.catalogue, db.rows, id, s, 20);
    forall k | k in rows && OwnedBy(k, s.guild, id)
      ensures RowChecks(rows[k])
    {
      assert k.key == Base && k !in db.rows;
    }
  }

  /** The commit carries the payment's receipt, and changes records, rows and ledger of this subscription only. */
  lemma PaymentCommits(trace: seq<Moment>, boundAt: nat, at: nat, id: SubscriptionId, p: Purchase)
    requires boundAt <= at == |trace| - 1 && trace[boundAt].note == BoundEvent(PAYMENT)
             && ReadyToPay(trace[at].db, id, p)
    ensures var m := Execute(trace, Commit(PAYMENT, boundAt, at, at, SNAPSHOT, 0));
            var db := trace[at].db;
            && m.note == Applied(id, 20, true, Some(PAYMENT), Some(PAYMENT), false)
            && m.db == db.(subscriptions := m.db.subscriptions, rows := m.db.rows, ledger := m.db.ledger,
                           events := m.db.events, guildVersion := m.db.guildVersion)
            && id in m.db.subscriptions
            && m.db.subscriptions == db.subscriptions[id := m.db.subscriptions[id]]
            && m.db.subscriptions[id].binding == Some(10) && m.db.subscriptions[id].provider == Stripe
            && m.db.events == MarkProcessed(db.events, PAYMENT)
            && m.db.guildVersion.Keys == db.guildVersion.Keys
            && forall k: RowKey :: k in m.db.rows && k !in db.rows ==> OwnedBy(k, p.guild, id)
  {
    var db := trace[at].db;
    var before := CountedPaid(db, db, PAID);
    var u := Decide(id, db.subscriptions[id], PAYMENT, PAID, SNAPSHOT, 0, before);
    PaymentApplies(db, id, p, before);
    var db' := ApplyState(db, u, 20).value;
    ApplyShape(db, u, 20, db');
    ApplyTouchesOwnRows(db, u, 20, db');
    Effects.UpdatedKeepsBinding(db.subscriptions[id], u);
    Effects.DecideAddresses(id, db.subscriptions[id], PAYMENT, PAID, SNAPSHOT, 0, before);
    hide ApplyState, Decide, Updated, Target, CountedPaid, Desired;
    var m := Execute(trace, Commit(PAYMENT, boundAt, at, at, SNAPSHOT, 0));
    assert m == CommitMoment(db, db, PAYMENT, PAID, SNAPSHOT, 0, before);
    hide Execute;
  }

  // ----- the run -----

  /** The payment is bound and committed while subscription 1 is bound to 10. */
  const FIRST_COMMIT: seq<Step> :=
    RECEIVING + [BindEvent(FIRST, 8)] + [BindEvent(PAYMENT, 9)] + [Commit(PAYMENT, 10, 10, 10, SNAPSHOT, 0)]

  function FirstBound(): Db {
    AllReceived().(subscriptions := map[1 := NewSubscription(ONE).(binding := Some(10)), 5 := NewSubscription(OTHER)])
  }

  lemma UntilFirstBound()
    ensures Run(START, RECEIVING + [BindEvent(FIRST, 8)] + [BindEvent(PAYMENT, 9)])
            == Run(START, RECEIVING) + [Moment(FirstBound(), BoundEvent(FIRST))]
              + [Moment(FirstBound(), BoundEvent(PAYMENT))]
  {
    UntilReceived();
    var t8 := Run(START, RECEIVING);
    var m9, m10 := Moment(FirstBound(), BoundEvent(FIRST)), Moment(FirstBound(), BoundEvent(PAYMENT));
    hide Run;
    BindsFirst();
    hide BindRead;
    assert Execute(t8, BindEvent(FIRST, 8)) == m9;
    Cases.OneStep(START, RECEIVING, t8, BindEvent(FIRST, 8), m9);
    assert BindRead(FirstBound(), FirstBound(), PAID) == Ok(FirstBound()) by { BindsNothing(FirstBound()); }
    assert Execute(t8 + [m9], BindEvent(PAYMENT, 9)) == m10;
    Cases.OneStep(START, RECEIVING + [BindEvent(FIRST, 8)], t8 + [m9], BindEvent(PAYMENT, 9), m10);
  }

  lemma BindsFirst()
    ensures BindRead(AllReceived(), AllReceived(), CheckoutEvent(2, 3, 10)) == Ok(FirstBound())
  {
    assert BindingAccepted(AllReceived(), CheckoutEvent(2, 3, 10));
    assert AllReceived().subscriptions[1 := NewSubscription(ONE).(binding := Some(10))] == FirstBound().subscriptions;
  }

  lemma BindsNothing(db: Db)
    ensures BindRead(db, db, PAID) == Ok(db)
  {
  }

  /** What the second half of the run needs of the first. */
  ghost predicate AfterFirst(db: Db) {
    && db.catalogue == map[1 := [Base]] && db.subscriptions.Keys == {1, 5}
    && db.subscriptions[1].provider == Stripe
    && db.subscriptions[5] == NewSubscription(OTHER)
    && 8 in db.guildVersion && (forall k :: k in db.rows ==> !OwnedBy(k, 8, 5))
    && (forall k :: k in AllReceived().events ==> k in db.events && db.events[k].event == AllReceived().events[k].event)
  }

  lemma FirstReadyToPay()
    ensures ReadyToPay(FirstBound(), 1, ONE)
  {
  }

  lemma FirstCommits(t: seq<Moment>)
    requires |t| == 11 && t[10] == Moment(FirstBound(), BoundEvent(PAYMENT))
    ensures var m := Execute(t, Commit(PAYMENT, 10, 10, 10, SNAPSHOT, 0));
            m.note == Applied(1, 20, true, Some(PAYMENT), Some(PAYMENT), false) && AfterFirst(m.db)
  {
    FirstReadyToPay();
    hide Execute, ReadyToPay;
    PaymentCommits(t, 10, 10, 1, ONE);
  }

  lemma UntilFirstCommit()
    ensures var t := Run(START, FIRST_COMMIT);
            && |t| == 12 && t[8].db == AllReceived() && t[10].note == BoundEvent(PAYMENT)
            && t[11].note == Applied(1, 20, true, Some(PAYMENT), Some(PAYMENT), false)
            && AfterFirst(t[11].db)
  {
    UntilReceived();
    UntilFirstBound();
    var steps := RECEIVING + [BindEvent(FIRST, 8)] + [BindEvent(PAYMENT, 9)];
    var t10 := Run(START, steps);
    hide Run, Execute, AfterFirst, AllReceived, FirstBound;
    FirstCommits(t10);
    Cases.OneStep(START, steps, t10, Commit(PAYMENT, 10, 10, 10, SNAPSHOT, 0),
                  Execute(t10, Commit(PAYMENT, 10, 10, 10, SNAPSHOT, 0)));
  }

  /** After the rival's write and the other checkout's binding, the payment finds subscription 5. */
  function Rebound(db: Db): Db
    requires 1 in db.subscriptions && 5 in db.subscriptions
  {
    db.(subscriptions := db.subscriptions[1 := db.subscriptions[1].(binding := Some(11))][
                           5 := db.subscriptions[5].(binding := Some(10))])
  }

  lemma Rebinds(db: Db)
    requires AfterFirst(db)
    ensures var between := db.(subscriptions := db.subscriptions[1 := db.subscriptions[1].(binding := Some(11))]);
            && SECOND in db.events && db.events[SECOND].event == CheckoutEvent(2, 3, 11)
            && THIRD in db.events && db.events[THIRD].event == CheckoutEvent(6, 4, 10)
            && BindRead(db, AllReceived(), CheckoutEvent(2, 3, 11)) == Ok(between)
            && BindRead(between, AllReceived(), CheckoutEvent(6, 4, 10)) == Ok(Rebound(db))
  {
    assert BindingAccepted(AllReceived(), CheckoutEvent(2, 3, 11))
           && BindingAccepted(AllReceived(), CheckoutEvent(6, 4, 10));
  }

  lemma ReboundPays(db: Db)
    requires AfterFirst(db)
    ensures ReadyToPay(Rebound(db), 5, OTHER)
  {
  }

  /** The first event's rival, validated before, replaces that binding; the other checkout is bound to 10. */
  const UNTIL_REBOUND: seq<Step> := FIRST_COMMIT + [BindEvent(SECOND, 8)] + [BindEvent(THIRD, 8)]

  const SECOND_COMMIT: seq<Step> := UNTIL_REBOUND + [Commit(PAYMENT, 10, 13, 13, SNAPSHOT, 0)]

  lemma UntilRebound()
    ensures var t := Run(START, UNTIL_REBOUND);
            && |t| == 14 && t[10].note == BoundEvent(PAYMENT)
            && t[11].note == Applied(1, 20, true, Some(PAYMENT), Some(PAYMENT), false)
            && ReadyToPay(t[13].db, 5, OTHER)
  {
    UntilFirstCommit();
    var t11 := Run(START, FIRST_COMMIT);
    var db := t11[11].db;
    var between := db.(subscriptions := db.subscriptions[1 := db.subscriptions[1].(binding := Some(11))]);
    Rebinds(db);
    ReboundPays(db);
    hide Run, ReadyToPay, AfterFirst, Rebound;
    BindingStep(FIRST_COMMIT, t11, SECOND, between);
    BindingStep(FIRST_COMMIT + [BindEvent(SECOND, 8)], t11 + [Moment(between, BoundEvent(SECOND))], THIRD, Rebound(db));
  }

  lemma BindingStep(steps: seq<Step>, t: seq<Moment>, key: EventKey, db: Db)
    requires t == Run(START, steps) && |t| > 8 && t[8].db == AllReceived() && key in t[|t| - 1].db.events
    requires BindRead(t[|t| - 1].db, AllReceived(), t[|t| - 1].db.events[key].event) == Ok(db)
    ensures Run(START, steps + [BindEvent(key, 8)]) == t + [Moment(db, BoundEvent(key))]
  {
    hide Run, BindRead, AllReceived;
    assert Execute(t, BindEvent(key, 8)) == Moment(db, BoundEvent(key));
    Cases.OneStep(START, steps, t, BindEvent(key, 8), Moment(db, BoundEvent(key)));
  }

  /**
   One payment event committed for two subscriptions: both hold its receipt and the ledger has one row, so
   rows and receipts do not coincide.  The binding of the first was replaced in between.
   */
  lemma PaymentCanBeCommittedTwice()
    ensures Fresh(START)
    ensures var t := Run(START, SECOND_COMMIT); PAYMENT in Receipts(t, 1) && PAYMENT in Receipts(t, 5)
    ensures !RowsAreReceipts(START, SECOND_COMMIT) && !CommitsFindOwnRows(START, SECOND_COMMIT)
    ensures !BindingsAreFree(START, SECOND_COMMIT)
  {
    UntilRebound();
    var t13 := Run(START, UNTIL_REBOUND);
    assert Fresh(START);
    hide Run, Execute, Fresh, ReadyToPay;
    PaymentCommits(t13, 10, 13, 5, OTHER);
    Cases.OneStep(START, UNTIL_REBOUND, t13, Commit(PAYMENT, 10, 13, 13, SNAPSHOT, 0),
                  Execute(t13, Commit(PAYMENT, 10, 13, 13, SNAPSHOT, 0)));
    TwoReceipts(Run(START, SECOND_COMMIT), 11, 1, 14, 5);
    hide *;
    ConsequencesOfTwo(START, SECOND_COMMIT, 1, 5);
  }

  lemma TwoReceipts(t: seq<Moment>, i: nat, id: SubscriptionId, j: nat, other: SubscriptionId)
    requires i < |t| && AppliedTo(t[i], id) && t[i].note.receipt == Some(PAYMENT)
    requires j < |t| && AppliedTo(t[j], other) && t[j].note.receipt == Some(PAYMENT)
    ensures PAYMENT in Receipts(t, id) && PAYMENT in Receipts(t, other)
  {
  }

  lemma ConsequencesOfTwo(start: Db, steps: seq<Step>, id: SubscriptionId, other: SubscriptionId)
    requires Fresh(start) && id != other
    requires PAYMENT in Receipts(Run(start, steps), id) && PAYMENT in Receipts(Run(start, steps), other)
    ensures !RowsAreReceipts(start, steps) && !CommitsFindOwnRows(start, steps) && !BindingsAreFree(start, steps)
  {
    if RowsAreReceipts(start, steps) {
      ReceiptIsRow(start, steps, id, PAYMENT);
      ReceiptIsRow(start, steps, other, PAYMENT);
    }
    LedgerConservationExactly(start, steps);
    if BindingsAreFree(start, steps) {
      FreeBindingsConserve(start, steps);
    }
    hide *;
  }
}
