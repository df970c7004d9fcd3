/** The successful rows of the ledger: one initial payment per subscription, and no change without a new version. */
module BillingPayments {
  import opened Common
  import opened Lifecycle
  import opened BillingModel
  import opened ProviderEvents
  import opened BillingSteps
  import opened BillingHistory
  import opened BillingInvariants
  import opened BillingTheorems

  predicate PaidRow(ledger: map<EventKey, Payment>, id: SubscriptionId, k: EventKey) {
    k in ledger && ledger[k].subscription == id && ledger[k].status.Succeeded?
  }

  predicate InitialRow(ledger: map<EventKey, Payment>, id: SubscriptionId, k: EventKey) {
    k in ledger && ledger[k].subscription == id && ledger[k].kind.Initial?
  }

  ghost predicate SamePaid(a: map<EventKey, Payment>, b: map<EventKey, Payment>, id: SubscriptionId) {
    forall k :: PaidRow(a, id, k) <==> PaidRow(b, id, k)
  }

  /** A subscription's successful rows change only together with its version. */
  ghost predicate LedgerVersioned(a: Db, b: Db) {
    forall id :: id in a.subscriptions ==>
      && id in b.subscriptions && a.subscriptions[id].version <= b.subscriptions[id].version
      && (a.subscriptions[id].version == b.subscriptions[id].version ==> SamePaid(a.ledger, b.ledger, id))
  }

  ghost predicate InitialsArePaid(ledger: map<EventKey, Payment>) {
    forall id, k :: InitialRow(ledger, id, k) ==> PaidRow(ledger, id, k)
  }

  ghost predicate OneInitial(ledger: map<EventKey, Payment>) {
    forall id, k, j :: InitialRow(ledger, id, k) && InitialRow(ledger, id, j) ==> k == j
  }

  lemma VersionedTransitive(a: Db, b: Db, c: Db)
    requires LedgerVersioned(a, b) && LedgerVersioned(b, c)
    ensures LedgerVersioned(a, c)
  {
    hide PaidRow;
    forall id | id in a.subscriptions && a.subscriptions[id].version == c.subscriptions[id].version
      ensures SamePaid(a.ledger, c.ledger, id)
    {
      assert SamePaid(a.ledger, b.ledger, id) && SamePaid(b.ledger, c.ledger, id);
    }
  }

  /** Only events write the ledger. */
  lemma OnlyEventsWriteTheLedger(trace: seq<Moment>, step: Step)
    requires |trace| > 0 && !step.Commit?
    ensures Execute(trace, step).db.ledger == trace[|trace| - 1].db.ledger
  {
    var db := trace[|trace| - 1].db;
    if EventStep(step) && !step.BindEvent? {
      EventBookkeeping(trace, step);
      hide *;
    } else {
      hide ApplyState, CommitSnapshot, StateFromSnapshot, SlotOccupied, CheckoutOpen, BindingAccepted, BindingTaken;
      match step {
        case Reconcile(id, readAt, p, graceDays, now) =>
          if readAt < |trace| && id in trace[readAt].db.subscriptions {
            ReconcileKeepsLedger(db, id, trace[readAt].db.subscriptions[id], p, graceDays, now);
          }
        case Suspend(id, _, version, now) => NoPaymentNoLedger(db, StatusOnly(id, Suspended, version), now);
        case ExpireJob(id, readAt, at, now) =>
          if readAt < |trace| && id in trace[readAt].db.subscriptions {
            NoPaymentNoLedger(db, ExpireUpdate(id, trace[readAt].db.subscriptions[id].version, at), now);
          }
        case _ =>
      }
    }
  }

  lemma ReconcileKeepsLedger(db: Db, id: SubscriptionId, seen: Subscription, p: Snapshot, graceDays: nat, now: Time)
    ensures var r := CommitSnapshot(db, id, seen, p, graceDays, now);
            r.Ok? && r.value.Some? ==> r.value.value.ledger == db.ledger
  {
    var d := StateFromSnapshot(seen.status, p, graceDays, now);
    if d.Ok? {
      SnapshotWritesNoPayment(id, seen, p, graceDays, now);
      NoPaymentNoLedger(db, ReconcileUpdate(id, seen, p, d.value, now), now);
    }
    hide StateFromSnapshot, ReconcileUpdate, ApplyState;
  }

  lemma SnapshotWritesNoPayment(id: SubscriptionId, s: Subscription, p: Snapshot, graceDays: nat, now: Time)
    requires StateFromSnapshot(s.status, p, graceDays, now).Ok?
    ensures ReconcileUpdate(id, s, p, StateFromSnapshot(s.status, p, graceDays, now).value, now).payment.None?
  {
  }

  lemma NoPaymentNoLedger(db: Db, u: StateUpdate, now: Time)
    requires u.payment.None?
    ensures ApplyState(db, u, now).Ok? ==> ApplyState(db, u, now).value.ledger == db.ledger
  {
    if ApplyState(db, u, now).Ok? {
      ApplyShape(db, u, now, ApplyState(db, u, now).value);
    }
    hide ApplyState;
  }

  /** Neither the successful nor the initial rows change. */
  ghost predicate Still(a: map<EventKey, Payment>, b: map<EventKey, Payment>) {
    (forall x :: SamePaid(a, b, x)) && forall x, k :: InitialRow(b, x, k) <==> InitialRow(a, x, k)
  }

  /** Subscription `id` gains the row of `key`, which is initial only if nothing was paid before. */
  ghost predicate Gains(a: map<EventKey, Payment>, b: map<EventKey, Payment>, id: SubscriptionId, key: EventKey,
      paidBefore: bool) {
    && key !in a
    && (forall x, k | k != key ::
        (PaidRow(b, x, k) <==> PaidRow(a, x, k)) && (InitialRow(b, x, k) <==> InitialRow(a, x, k)))
    && (forall x | x != id :: !PaidRow(b, x, key) && !InitialRow(b, x, key))
    && (InitialRow(b, id, key) ==> !paidBefore && PaidRow(b, id, key))
  }

  /** What the commit of an event does to the ledger. */
  ghost predicate LedgerMove(db: Db, db': Db, id: SubscriptionId, paidBefore: bool)
    requires id in db.subscriptions && id in db'.subscriptions
  {
    || Still(db.ledger, db'.ledger)
    || (&& db'.subscriptions[id].version == db.subscriptions[id].version + 1
        && exists key :: Gains(db.ledger, db'.ledger, id, key, paidBefore))
  }

  lemma RewrittenRowIsStill(ledger: map<EventKey, Payment>, id: SubscriptionId, w: PaymentWrite)
    requires w.key in ledger && (w.status.Succeeded? <==> ledger[w.key].status.Succeeded?)
    ensures Still(ledger, UpsertPayment(ledger, id, w))
  {
  }

  lemma NewRowGains(ledger: map<EventKey, Payment>, id: SubscriptionId, w: PaymentWrite, paidBefore: bool)
    requires w.key !in ledger && (w.kind.Initial? ==> w.status.Succeeded? && !paidBefore)
    ensures Gains(ledger, UpsertPayment(ledger, id, w), id, w.key, paidBefore)
  {
  }

  lemma WriteMoves(db: Db, db': Db, u: StateUpdate, e: Event, receipts: set<(SubscriptionId, EventKey)>,
      paidBefore: bool)
    requires u.payment.Some? && LedgerFaithful(db, receipts) && u.subscription in db.subscriptions
             && u.subscription in db'.subscriptions
    requires db'.ledger == UpsertPayment(db.ledger, u.subscription, u.payment.value)
    requires db'.subscriptions[u.subscription].version == db.subscriptions[u.subscription].version + 1
    requires u.payment.value.key in db.events && db.events[u.payment.value.key].event == e
    requires u.payment.value.status.Succeeded? <==> PaidWithAmount(e)
    requires u.payment.value.kind.Initial? ==> PaidWithAmount(e) && !paidBefore
    ensures LedgerMove(db, db', u.subscription, paidBefore)
  {
    var w := u.payment.value;
    if w.key in db.ledger {
      assert LedgerEntry(w.key, db.ledger[w.key], db, receipts);
      RewrittenRowIsStill(db.ledger, u.subscription, w);
    } else {
      NewRowGains(db.ledger, u.subscription, w, paidBefore);
    }
    hide UpsertPayment, Still, Gains, LedgerFaithful;
  }

  lemma DecidedKind(id: SubscriptionId, s: Subscription, key: EventKey, e: Event, p: Snapshot, graceDays: nat,
      before: bool)
    ensures var u := Decide(id, s, key, e, p, graceDays, before);
            u.payment.Some? && u.payment.value.kind.Initial? ==> PaidWithAmount(e) && !before
  {
  }

  lemma NothingMoves(db: Db, db': Db, id: SubscriptionId, paidBefore: bool)
    requires db'.ledger == db.ledger && id in db.subscriptions && id in db'.subscriptions
    ensures LedgerMove(db, db', id, paidBefore)
  {
  }

  lemma RefundMoves(db: Db, id: SubscriptionId, key: EventKey, e: Event, receipts: set<(SubscriptionId, EventKey)>,
      paidBefore: bool)
    requires LedgerFaithful(db, receipts) && PartialRefundEvent(e) && key in db.events && db.events[key].event == e
             && id in db.subscriptions
    requires RecordPartialRefund(db, id, key, e).Ok?
    ensures LedgerMove(db, RecordPartialRefund(db, id, key, e).value, id, paidBefore)
  {
    if key in db.ledger {
      assert LedgerEntry(key, db.ledger[key], db, receipts);
    }
    assert Still(db.ledger, RecordPartialRefund(db, id, key, e).value.ledger);
    hide *;
  }

  /** The commit of an event: nothing moves, or its own subscription gains a row under a new version. */
  lemma CommitMoves(db: Db, seen: Db, key: EventKey, p: Snapshot, graceDays: nat, before: bool, past: Past)
    requires Sound(db, past) && key in db.events && SubscriptionsEvolve(seen.subscriptions, db.subscriptions)
    requires Target(seen, db.events[key].event).Some?
    ensures var id := Target(seen, db.events[key].event).value;
            var db' := CommitMoment(db, seen, key, db.events[key].event, p, graceDays, before).db;
            && id in seen.subscriptions && id in db.subscriptions && id in db'.subscriptions
            && LedgerMove(db, db', id, before)
            && (db'.subscriptions[id].version != db.subscriptions[id].version ==>
                  seen.subscriptions[id].version == db.subscriptions[id].version)
  {
    var e := db.events[key].event;
    var id := Target(seen, e).value;
    TargetPersists(seen, db, e, id);
    var s := seen.subscriptions[id];
    var u := Decide(id, s, key, e, p, graceDays, before);
    NothingMoves(db, db, id, before);
    hide Target, Decide, ApplyState, LedgerMove;
    assert LedgerFaithful(db, past.receipts);
    if PartialRefundEvent(e) {
      if RecordPartialRefund(db, id, key, e).Ok? {
        RefundMoves(db, id, key, e, past.receipts, before);
      }
    } else if AmountMatches(s, e) && ApplyState(db, u, e.occurredAt).Ok? {
      var db' := ApplyState(db, u, e.occurredAt).value;
      DecisionJustified(id, s, key, e, p, graceDays, before);
      DecidedKind(id, s, key, e, p, graceDays, before);
      ApplyShape(db, u, e.occurredAt, db');
      if u.payment.Some? {
        WriteMoves(db, db', u, e, past.receipts, before);
      } else {
        NothingMoves(db, db', id, before);
      }
    }
    hide Sound, RecordPartialRefund;
  }

  /** An initial row is gained only where nothing was paid: it is then the first and only one. */
  lemma MoveKeepsOneInitial(db: Db, db': Db, id: SubscriptionId, paidBefore: bool)
    requires id in db.subscriptions && id in db'.subscriptions
    requires LedgerMove(db, db', id, paidBefore) && InitialsArePaid(db.ledger) && OneInitial(db.ledger)
    requires !paidBefore && db'.subscriptions[id].version != db.subscriptions[id].version ==>
             forall k :: !PaidRow(db.ledger, id, k)
    ensures InitialsArePaid(db'.ledger) && OneInitial(db'.ledger)
  {
    hide PaidRow, InitialRow;
    if Still(db.ledger, db'.ledger) {
      forall x, k | InitialRow(db'.ledger, x, k)
        ensures PaidRow(db'.ledger, x, k)
      {
        assert InitialRow(db.ledger, x, k) && SamePaid(db.ledger, db'.ledger, x);
      }
    } else {
      var key :| Gains(db.ledger, db'.ledger, id, key, paidBefore);
      assert InitialRow(db'.ledger, id, key) ==> forall k :: !InitialRow(db.ledger, id, k);
      forall x, k | InitialRow(db'.ledger, x, k)
        ensures PaidRow(db'.ledger, x, k)
      {
        assert k != key ==> InitialRow(db.ledger, x, k) && PaidRow(db.ledger, x, k);
      }
    }
  }

  lemma MoveIsVersioned(db: Db, db': Db, id: SubscriptionId, paidBefore: bool)
    requires id in db.subscriptions && id in db'.subscriptions
    requires LedgerMove(db, db', id, paidBefore) && SubscriptionsEvolve(db.subscriptions, db'.subscriptions)
    ensures LedgerVersioned(db, db')
  {
    forall x | x in db.subscriptions
      ensures x in db'.subscriptions && SubscriptionEvolves(db.subscriptions[x], db'.subscriptions[x])
      ensures db.subscriptions[x].version == db'.subscriptions[x].version ==> SamePaid(db.ledger, db'.ledger, x)
    {
    }
  }

  // ----- runs -----

  /** What holds of the ledger after the first `n` steps, seen from every earlier moment. */
  ghost predicate PaymentsSound(t: seq<Moment>, n: nat)
    requires n < |t|
  {
    && InitialsArePaid(t[n].db.ledger) && OneInitial(t[n].db.ledger)
    && forall i | 0 <= i <= n :: LedgerVersioned(t[i].db, t[n].db)
  }

  /** Nothing was counted at an earlier moment at which the version was the present one: nothing is paid now. */
  lemma NothingPaidSince(earlier: Db, db: Db, id: SubscriptionId)
    requires LedgerVersioned(earlier, db) && id in earlier.subscriptions && id in db.subscriptions
    requires earlier.subscriptions[id].version == db.subscriptions[id].version && !HasSucceeded(earlier.ledger, id)
    ensures forall k :: !PaidRow(db.ledger, id, k)
  {
    assert SamePaid(earlier.ledger, db.ledger, id);
    assert forall k :: !PaidRow(earlier.ledger, id, k);
  }

  /** What was counted between a read and a write under the version that was read is still so at the write. */
  lemma CountedIsCurrent(seen: Db, counted: Db, db: Db, id: SubscriptionId)
    requires SubscriptionsEvolve(seen.subscriptions, counted.subscriptions)
    requires SubscriptionsEvolve(counted.subscriptions, db.subscriptions) && LedgerVersioned(counted, db)
    requires id in seen.subscriptions && id in db.subscriptions
    requires seen.subscriptions[id].version == db.subscriptions[id].version && !HasSucceeded(counted.ledger, id)
    ensures forall k :: !PaidRow(db.ledger, id, k)
  {
    assert SubscriptionEvolves(seen.subscriptions[id], counted.subscriptions[id])
           && SubscriptionEvolves(counted.subscriptions[id], db.subscriptions[id]);
    hide SubscriptionsEvolve, LedgerVersioned, HasSucceeded, PaidRow;
    NothingPaidSince(counted, db, id);
  }

  /** A commit decided on one read, with the payments counted in a later one, keeps what holds of the ledger. */
  lemma CommitKeepsLedger(db: Db, seen: Db, counted: Db, key: EventKey, p: Snapshot, graceDays: nat, past: Past)
    requires Sound(db, past) && key in db.events && Target(seen, db.events[key].event).Some?
    requires SubscriptionsEvolve(seen.subscriptions, db.subscriptions)
    requires SubscriptionsEvolve(seen.subscriptions, counted.subscriptions)
    requires SubscriptionsEvolve(counted.subscriptions, db.subscriptions) && LedgerVersioned(counted, db)
    requires InitialsArePaid(db.ledger) && OneInitial(db.ledger)
    requires var e := db.events[key].event;
             var m := CommitMoment(db, seen, key, e, p, graceDays, CountedPaid(seen, counted, e));
             SubscriptionsEvolve(db.subscriptions, m.db.subscriptions)
    ensures var e := db.events[key].event;
            var m := CommitMoment(db, seen, key, e, p, graceDays, CountedPaid(seen, counted, e));
            InitialsArePaid(m.db.ledger) && OneInitial(m.db.ledger) && LedgerVersioned(db, m.db)
  {
    var e := db.events[key].event;
    var id := Target(seen, e).value;
    var before := CountedPaid(seen, counted, e);
    var db' := CommitMoment(db, seen, key, e, p, graceDays, before).db;
    assert before == HasSucceeded(counted.ledger, id);
    hide CommitMoment, Sound, LedgerMove, Target, SubscriptionsEvolve, LedgerVersioned, HasSucceeded, PaidRow,
         CountedPaid, InitialsArePaid, OneInitial;
    CommitMoves(db, seen, key, p, graceDays, before, past);
    MoveIsVersioned(db, db', id, before);
    if !before && db'.subscriptions[id].version != db.subscriptions[id].version {
      CountedIsCurrent(seen, counted, db, id);
    }
    MoveKeepsOneInitial(db, db', id, before);
  }

  lemma CommitKeepsPayments(t: seq<Moment>, n: nat, step: Step, past: Past)
    requires n < |t| && PaymentsSound(t, n) && Sound(t[n].db, past) && step.Commit?
    requires step.key in t[n].db.events && step.boundAt <= step.readAt <= step.countAt <= n
             && t[step.boundAt].note == BoundEvent(step.key)
    requires forall i, j | 0 <= i <= j <= n :: SubscriptionsEvolve(t[i].db.subscriptions, t[j].db.subscriptions)
    requires Target(t[step.readAt].db, t[n].db.events[step.key].event).Some?
    requires SubscriptionsEvolve(t[n].db.subscriptions, Execute(t[..n + 1], step).db.subscriptions)
    ensures var db' := Execute(t[..n + 1], step).db;
            InitialsArePaid(db'.ledger) && OneInitial(db'.ledger) && LedgerVersioned(t[n].db, db')
  {
    var db, seen, counted := t[n].db, t[step.readAt].db, t[step.countAt].db;
    var e := db.events[step.key].event;
    assert Execute(t[..n + 1], step) == CommitMoment(db, seen, step.key, e, step.snapshot, step.graceDays,
                                                     CountedPaid(seen, counted, e));
    assert SubscriptionsEvolve(seen.subscriptions, db.subscriptions)
           && SubscriptionsEvolve(seen.subscriptions, counted.subscriptions)
           && SubscriptionsEvolve(counted.subscriptions, db.subscriptions) && LedgerVersioned(counted, db);
    hide Execute, CommitMoment, Sound, Target, SubscriptionsEvolve, LedgerVersioned, CountedPaid, OneInitial,
         InitialsArePaid;
    CommitKeepsLedger(db, seen, counted, step.key, step.snapshot, step.graceDays, past);
  }

  lemma LedgerStillVersioned(db: Db, db': Db)
    requires db'.ledger == db.ledger && SubscriptionsEvolve(db.subscriptions, db'.subscriptions)
    ensures LedgerVersioned(db, db')
  {
  }

  lemma StepKeepsPayments(t: seq<Moment>, n: nat, step: Step, past: Past)
    requires n < |t| && PaymentsSound(t, n) && Sound(t[n].db, past)
    requires forall i, j | 0 <= i <= j <= n :: SubscriptionsEvolve(t[i].db.subscriptions, t[j].db.subscriptions)
    requires SubscriptionsEvolve(t[n].db.subscriptions, Execute(t[..n + 1], step).db.subscriptions)
    ensures var db' := Execute(t[..n + 1], step).db;
            InitialsArePaid(db'.ledger) && OneInitial(db'.ledger) && LedgerVersioned(t[n].db, db')
  {
    var db := t[n].db;
    if step.Commit? && step.key in db.events && step.boundAt <= step.readAt <= step.countAt <= n
       && t[step.boundAt].note == BoundEvent(step.key)
       && Target(t[step.readAt].db, db.events[step.key].event).Some? {
      CommitKeepsPayments(t, n, step, past);
    } else {
      if !step.Commit? {
        OnlyEventsWriteTheLedger(t[..n + 1], step);
      }
      LedgerStillVersioned(db, Execute(t[..n + 1], step).db);
    }
    hide Sound, LedgerVersioned, ApplyMoment, CommitSnapshot, Target;
  }

  lemma {:induction false} RunKeepsPayments(start: Db, steps: seq<Step>, n: nat)
    requires Fresh(start) && n <= |steps|
    ensures PaymentsSound(Run(start, steps), n)
  {
    var t := Run(start, steps);
    if n == 0 {
      FirstIsQuiet(start, steps);
      LedgerStillVersioned(start, start);
    } else {
      RunKeepsPayments(start, steps, n - 1);
      SoundAt(start, steps, n - 1);
      StepOf(start, steps, n - 1);
      RunExtends(start, steps, n - 1);
      forall i, j | 0 <= i <= j <= n
        ensures SubscriptionsEvolve(t[i].db.subscriptions, t[j].db.subscriptions)
      {
        NothingGoesBack(start, steps, i, j);
      }
      hide Run, Execute, Sound, Fresh, SubscriptionsEvolve, LedgerVersioned, InitialsArePaid, OneInitial;
      StepKeepsPayments(t, n - 1, steps[n - 1], PastOf(t[..n]));
      forall i | 0 <= i <= n
        ensures LedgerVersioned(t[i].db, t[n].db)
      {
        if i < n {
          VersionedTransitive(t[i].db, t[n - 1].db, t[n].db);
        } else {
          LedgerStillVersioned(t[n].db, t[n].db);
        }
      }
    }
  }

  /**
   A subscription never has two initial payments in the ledger: although an event counts the successful
   payments before, and outside, the transaction that writes its own, of two events that both count none
   only one commits.
   */
  lemma OneInitialPayment(start: Db, steps: seq<Step>, k: EventKey, j: EventKey)
    requires Fresh(start)
    requires var ledger := Run(start, steps)[|steps|].db.ledger;
             && k in ledger && j in ledger && ledger[k].subscription == ledger[j].subscription
             && ledger[k].kind.Initial? && ledger[j].kind.Initial?
    ensures k == j
  {
    RunKeepsPayments(start, steps, |steps|);
    var ledger := Run(start, steps)[|steps|].db.ledger;
    assert InitialRow(ledger, ledger[k].subscription, k) && InitialRow(ledger, ledger[k].subscription, j);
    hide Run;
  }

  /** The successful payments of a subscription change only under a new version of it. */
  lemma PaymentsMoveTheVersion(start: Db, steps: seq<Step>, i: nat, n: nat, id: SubscriptionId)
    requires Fresh(start) && i <= n <= |steps|
    requires var t := Run(start, steps);
             id in t[i].db.subscriptions && id in t[n].db.subscriptions
               && t[i].db.subscriptions[id].version == t[n].db.subscriptions[id].version
    ensures SucceededRows(Run(start, steps)[n].db.ledger, id) == SucceededRows(Run(start, steps)[i].db.ledger, id)
  {
    RunKeepsPayments(start, steps, n);
    var a, b := Run(start, steps)[i].db.ledger, Run(start, steps)[n].db.ledger;
    hide Run;
    assert SamePaid(a, b, id);
    assert forall k :: PaidRow(a, id, k) <==> k in SucceededRows(a, id);
    assert forall k :: PaidRow(b, id, k) <==> k in SucceededRows(b, id);
  }
}
