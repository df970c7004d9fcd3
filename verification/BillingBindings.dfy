/**
 The provider's subscription a record is bound to: when concurrent first events replace it, and what
 depends on its staying.
 */
module BillingBindings {
  import opened Common
  import opened Lifecycle
  import opened BillingModel
  import opened ProviderEvents
  import opened BillingSteps
  import opened BillingHistory
  import opened BillingInvariants
  import opened BillingTheorems
  import Effects = EventEffects

  ghost predicate BindingsStay(a: Db, b: Db) {
    forall id | id in a.subscriptions && id in b.subscriptions && a.subscriptions[id].binding.Some? ::
      b.subscriptions[id].binding == a.subscriptions[id].binding
  }

  /** A binding that is written finds the record unbound, or bound to the same provider subscription. */
  ghost predicate BindsFreely(db: Db, seen: Db, e: Event) {
    e.checkout.Some? && BindRead(db, seen, e).Ok? ==>
      var binding := db.subscriptions[seen.checkouts[e.checkout.value].subscription].binding;
      binding.None? || binding == Some(e.subscription)
  }

  ghost predicate KeepsBindings(trace: seq<Moment>, step: Step)
    requires |trace| > 0
  {
    var db := trace[|trace| - 1].db;
    step.BindEvent? && step.key in db.events && step.readAt < |trace| ==>
      BindsFreely(db, trace[step.readAt].db, db.events[step.key].event)
  }

  lemma SameBindingsStay(a: Db, b: Db)
    requires forall id | id in a.subscriptions && id in b.subscriptions ::
             b.subscriptions[id].binding == a.subscriptions[id].binding
    ensures BindingsStay(a, b)
  {
  }

  lemma AppliedKeepsBindings(db: Db, u: StateUpdate, now: Time, success: bool, receipt: Option<EventKey>)
    ensures BindingsStay(db, ApplyMoment(db, u, now, success, receipt).db)
  {
    SameBindingsStay(db, db);
    var r := ApplyState(db, u, now);
    if r.Ok? {
      ApplyShape(db, u, now, r.value);
    }
    hide ApplyState;
  }

  lemma CommitKeepsBindings(db: Db, seen: Db, key: EventKey, e: Event, p: Snapshot, graceDays: nat, before: bool)
    ensures BindingsStay(db, CommitMoment(db, seen, key, e, p, graceDays, before).db)
  {
    SameBindingsStay(db, db);
    var target := Target(seen, e);
    if target.Some? {
      TargetExists(seen, e);
      hide Decide, ApplyMoment, Target, BindingsStay;
      if PartialRefundEvent(e) {
        SameBindingsStay(db, Quiet(db, RecordPartialRefund(db, target.value, key, e)).db);
      } else {
        AppliedKeepsBindings(db, Decide(target.value, seen.subscriptions[target.value], key, e, p, graceDays, before),
                             e.occurredAt,
                             PaymentSignal(e, p), if PaidWithAmount(e) then Some(key) else None);
      }
    }
  }

  lemma ReconcileKeepsBindings(db: Db, id: SubscriptionId, seen: Subscription, p: Snapshot, graceDays: nat, now: Time)
    requires CommitSnapshot(db, id, seen, p, graceDays, now).Ok?
             && CommitSnapshot(db, id, seen, p, graceDays, now).value.Some?
    ensures BindingsStay(db, CommitSnapshot(db, id, seen, p, graceDays, now).value.value)
  {
    hide StateFromSnapshot, ReconcileUpdate, BindingsStay;
    AppliedKeepsBindings(db,
                         ReconcileUpdate(id, seen, p, StateFromSnapshot(seen.status, p, graceDays, now).value, now),
      now, false, None);
  }

  lemma SweepKeepsBindings(db: Db, c: CheckoutId, seen: Checkout, s: Subscription, before: Time)
    ensures BindingsStay(db, SweepCheckout(db, c, seen, s, before))
  {
    SweepWrites(db, c, seen, s, before);
    hide SweepCheckout, SubscriptionsEvolve, CheckoutsEvolve;
  }

  lemma GrantKeepsBindings(db: Db, g: GuildId, reference: nat, featureSet: nat, now: Time, endsAt: Time)
    ensures BindingsStay(db, Quiet(db, GrantPromotion(db, g, reference, featureSet, now, endsAt)).db)
  {
  }

  lemma RevokeKeepsBindings(db: Db, g: GuildId, reference: nat, now: Time)
    ensures BindingsStay(db, Quiet(db, RevokePromotion(db, g, reference, now)).db)
  {
  }

  /** Every step but a binding keeps all bindings. */
  lemma OnlyBindingBinds(trace: seq<Moment>, step: Step)
    requires |trace| > 0 && !step.BindEvent?
    ensures BindingsStay(trace[|trace| - 1].db, Execute(trace, step).db)
  {
    var db := trace[|trace| - 1].db;
    var db' := Execute(trace, step).db;
    SameBindingsStay(db, db);
    hide BindingsStay, ApplyState, SweepCheckout, CommitMoment, Target, Marks, ApplyMoment, CommitSnapshot,
         SlotOccupied, CheckoutOpen, GrantPromotion, RevokePromotion, CountedPaid;
    if EventStep(step) && !step.Commit? {
      EventBookkeeping(trace, step);
      hide Execute;
      SameBindingsStay(db, db');
      return;
    }
    match step
    case Promote(g, reference, featureSet, now, endsAt) =>
      GrantKeepsBindings(db, g, reference, featureSet, now, endsAt);
    case Demote(g, reference, now) => RevokeKeepsBindings(db, g, reference, now);
    case Sweep(c, readAt, before) =>
      if readAt < |trace| && SweepFinds(trace[readAt].db, c, before) {
        var seen := trace[readAt].db;
        SweepKeepsBindings(db, c, seen.checkouts[c], seen.subscriptions[seen.checkouts[c].subscription], before);
      }
    case Commit(key, boundAt, readAt, countAt, p, graceDays) =>
      if key in db.events && boundAt <= readAt <= countAt < |trace| {
        var e := db.events[key].event;
        CommitKeepsBindings(db, trace[readAt].db, key, e, p, graceDays,
                            CountedPaid(trace[readAt].db, trace[countAt].db, e));
      }
    case Reconcile(id, readAt, p, graceDays, now) =>
      if readAt < |trace| && id in trace[readAt].db.subscriptions {
        var r := CommitSnapshot(db, id, trace[readAt].db.subscriptions[id], p, graceDays, now);
        if r.Ok? && r.value.Some? { ReconcileKeepsBindings(db, id, trace[readAt].db.subscriptions[id], p, graceDays,
                                                           now); }
      }
    case Suspend(id, readAt, version, now) =>
      AppliedKeepsBindings(db, StatusOnly(id, Suspended, version), now, false, None);
    case ExpireJob(id, readAt, expectedAt, now) =>
      if readAt < |trace| && id in trace[readAt].db.subscriptions {
        AppliedKeepsBindings(db, ExpireUpdate(id, trace[readAt].db.subscriptions[id].version, expectedAt), now, false,
                             None);
      }
    case _ => SameBindingsStay(db, db');
  }

  lemma BindStaysExactly(db: Db, seen: Db, e: Event)
    requires BindRead(db, seen, e).Ok?
    ensures BindingsStay(db, BindRead(db, seen, e).value) <==> BindsFreely(db, seen, e)
  {
    if e.checkout.Some? {
      var id := seen.checkouts[e.checkout.value].subscription;
      assert BindRead(db, seen, e).value.subscriptions[id].binding == Some(e.subscription);
    }
    hide BindingAccepted, BindingTaken, CustomerAccepted;
  }

  /** A step keeps every binding if and only if it binds freely. */
  lemma StepBindsExactly(trace: seq<Moment>, step: Step)
    requires |trace| > 0
    ensures BindingsStay(trace[|trace| - 1].db, Execute(trace, step).db) <==> KeepsBindings(trace, step)
  {
    var db := trace[|trace| - 1].db;
    SameBindingsStay(db, db);
    hide BindingsStay, BindRead;
    if step.BindEvent? {
      if step.key in db.events && step.readAt < |trace|
         && BindRead(db, trace[step.readAt].db, db.events[step.key].event).Ok? {
        BindStaysExactly(db, trace[step.readAt].db, db.events[step.key].event);
      }
    } else {
      OnlyBindingBinds(trace, step);
    }
  }

  // ----- runs -----

  ghost predicate AllBindingsStay(start: Db, steps: seq<Step>) {
    forall i, j | 0 <= i <= j <= |steps| :: BindingsStay(Run(start, steps)[i].db, Run(start, steps)[j].db)
  }

  /** Every binding written in the run found its record unbound, or bound to the same provider subscription. */
  ghost predicate BindingsAreFree(start: Db, steps: seq<Step>) {
    forall i | 0 <= i < |steps| :: KeepsBindings(Run(start, steps[..i]), steps[i])
  }

  lemma StayTransitive(a: Db, b: Db, c: Db)
    requires BindingsStay(a, b) && BindingsStay(b, c) && SubscriptionsEvolve(a.subscriptions, b.subscriptions)
    ensures BindingsStay(a, c)
  {
  }

  lemma MomentBindsExactly(start: Db, steps: seq<Step>, i: nat)
    requires i < |steps|
    ensures BindingsStay(Run(start, steps)[i].db, Run(start, steps)[i + 1].db) <==>
            KeepsBindings(Run(start, steps[..i]), steps[i])
  {
    StepOf(start, steps, i);
    hide *;
    StepBindsExactly(Run(start, steps[..i]), steps[i]);
  }

  lemma {:induction false} BindingsStayBetween(start: Db, steps: seq<Step>, i: nat, j: nat)
    requires BindingsAreFree(start, steps) && i <= j <= |steps|
    ensures BindingsStay(Run(start, steps)[i].db, Run(start, steps)[j].db)
    decreases j - i
  {
    var t := Run(start, steps);
    if i == j {
      SameBindingsStay(t[i].db, t[i].db);
      hide *;
    } else {
      BindingsStayBetween(start, steps, i, j - 1);
      assert KeepsBindings(Run(start, steps[..j - 1]), steps[j - 1]);
      MomentBindsExactly(start, steps, j - 1);
      NothingGoesBack(start, steps, i, j - 1);
      assert SubscriptionsEvolve(t[i].db.subscriptions, t[j - 1].db.subscriptions);
      hide *;
      StayTransitive(t[i].db, t[j - 1].db, t[j].db);
    }
  }

  /**
   Bindings are never replaced in a run if and only if every binding that was written found its record
   unbound or bound to the same provider subscription: the write itself does not look.
   */
  lemma BindingsStayExactly(start: Db, steps: seq<Step>)
    ensures AllBindingsStay(start, steps) <==> BindingsAreFree(start, steps)
  {
    if BindingsAreFree(start, steps) {
      forall i, j | 0 <= i <= j <= |steps|
        ensures BindingsStay(Run(start, steps)[i].db, Run(start, steps)[j].db)
      {
        hide *;
        BindingsStayBetween(start, steps, i, j);
      }
    }
    if AllBindingsStay(start, steps) {
      forall i | 0 <= i < |steps|
        ensures KeepsBindings(Run(start, steps[..i]), steps[i])
      {
        var j := i + 1;
        assert BindingsStay(Run(start, steps)[i].db, Run(start, steps)[j].db);
        hide *;
        MomentBindsExactly(start, steps, i);
      }
    }
    hide *;
  }

  // ----- what rests on it -----

  /** A receipt was committed for the subscription that the event was loaded with at some moment. */
  lemma ReceiptComesFrom(start: Db, steps: seq<Step>, id: SubscriptionId, k: EventKey) returns (r: nat)
    requires k in Receipts(Run(start, steps), id)
    ensures r <= |steps| && k in Run(start, steps)[|steps|].db.events
    ensures Target(Run(start, steps)[r].db, Run(start, steps)[|steps|].db.events[k].event) == Some(id)
  {
    var i := ReceiptMeans(start, steps, id, k);
    StepOf(start, steps, i);
    RunExtends(start, steps, i);
    assert Run(start, steps)[i + 1].note.Applied? && Run(start, steps)[i + 1].note.id == id;
    hide *;
    r := CommitRead(Run(start, steps[..i]), steps[i]);
    assert Run(start, steps[..i])[r] == Run(start, steps)[r];
    EventOfRunStays(start, steps, i, k);
  }

  lemma EventOfRunStays(start: Db, steps: seq<Step>, i: nat, k: EventKey)
    requires i <= |steps| && k in Run(start, steps)[i].db.events
    ensures var t := Run(start, steps);
            k in t[|steps|].db.events && t[|steps|].db.events[k].event == t[i].db.events[k].event
  {
    NothingGoesBack(start, steps, i, |steps|);
    assert EventsEvolve(Run(start, steps)[i].db.events, Run(start, steps)[|steps|].db.events);
    hide Run, Evolves;
  }

  lemma CommitRead(trace: seq<Moment>, step: Step) returns (r: nat)
    requires |trace| > 0 && Execute(trace, step).note.Applied?
    requires step.Commit? && step.key in trace[|trace| - 1].db.events
    ensures r < |trace| && Target(trace[r].db, trace[|trace| - 1].db.events[step.key].event)
            == Some(Execute(trace, step).note.id)
  {
    r := step.readAt;
    var e := trace[|trace| - 1].db.events[step.key].event;
    var seen := trace[r].db;
    TargetExists(seen, e);
    Effects.DecideAddresses(Target(seen, e).value, seen.subscriptions[Target(seen, e).value], step.key, e,
                            step.snapshot, step.graceDays,
                            CountedPaid(seen, trace[step.countAt].db, e));
    hide ApplyState, Decide, Target, RecordPartialRefund;
  }

  lemma SameTarget(a: Db, b: Db, e: Event)
    requires Target(a, e).Some? && Target(b, e).Some?
    requires CheckoutsEvolve(a.checkouts, b.checkouts) && SubscriptionsEvolve(a.subscriptions, b.subscriptions)
    requires BindingsStay(a, b) && UniqueBindings(b.subscriptions)
    ensures Target(a, e) == Target(b, e)
  {
    if e.checkout.None? {
      var id, other := Target(a, e).value, Target(b, e).value;
      assert Bound(a.subscriptions[id], e.provider, e.subscription)
             && Bound(b.subscriptions[other], e.provider, e.subscription);
      assert Bound(b.subscriptions[id], e.provider, e.subscription);
    }
  }

  lemma OneTarget(start: Db, steps: seq<Step>, r: nat, q: nat, e: Event)
    requires Fresh(start) && BindingsAreFree(start, steps) && r <= q <= |steps|
    requires Target(Run(start, steps)[r].db, e).Some? && Target(Run(start, steps)[q].db, e).Some?
    ensures Target(Run(start, steps)[r].db, e) == Target(Run(start, steps)[q].db, e)
  {
    NothingGoesBack(start, steps, r, q);
    BindingsStayBetween(start, steps, r, q);
    SoundAt(start, steps, q);
    var a, b := Run(start, steps)[r].db, Run(start, steps)[q].db;
    assert UniqueBindings(b.subscriptions) && CheckoutsEvolve(a.checkouts, b.checkouts)
           && SubscriptionsEvolve(a.subscriptions, b.subscriptions);
    hide *;
    SameTarget(a, b, e);
  }

  /** Where no binding is replaced, no event is committed for two subscriptions. */
  lemma FreeBindingsCommitOnce(start: Db, steps: seq<Step>, id: SubscriptionId, other: SubscriptionId, k: EventKey)
    requires Fresh(start) && BindingsAreFree(start, steps)
    requires k in Receipts(Run(start, steps), id) && k in Receipts(Run(start, steps), other)
    ensures id == other
  {
    hide *;
    var r := ReceiptComesFrom(start, steps, id, k);
    var q := ReceiptComesFrom(start, steps, other, k);
    var e := Run(start, steps)[|steps|].db.events[k].event;
    if r <= q {
      OneTarget(start, steps, r, q, e);
    } else {
      OneTarget(start, steps, q, r, e);
    }
  }

  /** So every commit finds no row or its own: the ledger is conserved. */
  lemma FreeBindingsConserve(start: Db, steps: seq<Step>)
    requires Fresh(start) && BindingsAreFree(start, steps)
    ensures CommitsFindOwnRows(start, steps)
  {
    forall id | id in Run(start, steps)[|steps|].db.subscriptions
      ensures SucceededRows(Run(start, steps)[|steps|].db.ledger, id) == Receipts(Run(start, steps), id)
    {
      hide *;
      FreeBindingsEqual(start, steps, id);
    }
    assert RowsAreReceipts(start, steps);
    LedgerConservationExactly(start, steps);
    hide *;
  }

  lemma FreeBindingsEqual(start: Db, steps: seq<Step>, id: SubscriptionId)
    requires Fresh(start) && BindingsAreFree(start, steps) && id in Run(start, steps)[|steps|].db.subscriptions
    ensures SucceededRows(Run(start, steps)[|steps|].db.ledger, id) == Receipts(Run(start, steps), id)
  {
    hide Run, Receipts, Fresh, BindingsAreFree;
    var t := Run(start, steps);
    var ledger := t[|steps|].db.ledger;
    LedgerIsPriced(start, steps, id, EventKey(Stripe, 0));
    forall k | k in Receipts(t, id)
      ensures k in SucceededRows(ledger, id)
    {
      LedgerIsPriced(start, steps, id, k);
      FreeBindingsCommitOnce(start, steps, id, ledger[k].subscription, k);
    }
  }
}
