/** The materialised rows are the granting rule: in which runs, and exactly when a failed checkout disturbs them. */
module BillingRows {
  import opened Common
  import opened Lifecycle
  import opened BillingModel
  import opened ProviderEvents
  import opened BillingSteps
  import opened BillingHistory
  import opened BillingInvariants
  import opened BillingTheorems

  ghost predicate Follows(db: Db, id: SubscriptionId, synced: map<SubscriptionId, Time>)
    requires id in db.subscriptions
  {
    if id in synced then RowsFollowRule(db, id, synced[id]) else forall from: Time :: RowsFollowRule(db, id, from)
  }

  /** The rows of every subscription follow the granting rule from its last application of state on. */
  ghost predicate RowsFollow(db: Db, synced: map<SubscriptionId, Time>) {
    forall id :: id in db.subscriptions ==> Follows(db, id, synced)
  }

  // ----- the transactions that materialise, and those that touch no row -----

  lemma ApplyKeepsRowsFollow(db: Db, u: StateUpdate, now: Time, past: Past, db': Db)
    requires ApplyState(db, u, now) == Ok(db') && RowsFollow(db, past.synced)
    ensures RowsFollow(db', past.synced[u.subscription := now])
  {
    ApplyShape(db, u, now, db');
    ApplyMaterialises(db, u, now, db');
    ApplyTouchesOwnRows(db, u, now, db');
    hide ApplyState, Updated, Granted;
    forall id | id in db'.subscriptions
      ensures Follows(db', id, past.synced[u.subscription := now])
    {
      if id != u.subscription {
        assert Follows(db, id, past.synced);
        SameRowsFollow(db, db', id, past.synced);
      }
    }
  }

  /** A subscription whose record and rows did not change still follows the rule. */
  lemma SameRowsFollow(db: Db, db': Db, id: SubscriptionId, synced: map<SubscriptionId, Time>)
    requires id in db.subscriptions && id in db'.subscriptions && db'.catalogue == db.catalogue
    requires db'.subscriptions[id].guild == db.subscriptions[id].guild
    requires forall key: EntitlementKey, t: Time :: (id in synced ==> t >= synced[id]) ==>
               Granted(db.catalogue, db'.subscriptions[id], key, t)
                 == Granted(db.catalogue, db.subscriptions[id], key, t)
    requires forall k :: OwnedBy(k, db.subscriptions[id].guild, id) ==>
             (k in db'.rows <==> k in db.rows) && (k in db.rows ==> db'.rows[k] == db.rows[k])
    requires Follows(db, id, synced)
    ensures Follows(db', id, synced)
  {
    hide Granted;
    var g := db.subscriptions[id].guild;
    forall key: EntitlementKey, t: Time
      ensures Lit(db'.rows, SubscriptionRow(g, key, id), t) == Lit(db.rows, SubscriptionRow(g, key, id), t)
    {
      assert OwnedBy(SubscriptionRow(g, key, id), g, id);
    }
    if id in synced {
    } else {
      forall from: Time
        ensures RowsFollowRule(db', id, from)
      {
        assert RowsFollowRule(db, id, from);
      }
    }
  }

  predicate SameGrant(s: Subscription, s': Subscription) {
    s'.guild == s.guild && s'.featureSet == s.featureSet && s'.latestPayment == s.latestPayment
    && s'.periodEnd == s.periodEnd && s'.graceEnd == s.graceEnd
    && (s'.status == s.status || (Awaiting(s.status) && s'.status.Expired?))
  }

  lemma SameGrantGrants(catalogue: Catalogue, s: Subscription, s': Subscription, key: EntitlementKey, t: Time)
    requires SameGrant(s, s')
    ensures Granted(catalogue, s', key, t) == Granted(catalogue, s, key, t)
  {
  }

  /** Rows of promotions and records that grant as before: every subscription still follows the rule. */
  lemma SameRowsAllFollow(db: Db, db': Db, synced: map<SubscriptionId, Time>)
    requires RowsFollow(db, synced) && db'.catalogue == db.catalogue
    requires db'.subscriptions.Keys == db.subscriptions.Keys
    requires forall id :: id in db.subscriptions ==> SameGrant(db.subscriptions[id], db'.subscriptions[id])
    requires forall k: RowKey | k.source == FromSubscription ::
               (k in db'.rows <==> k in db.rows) && (k in db.rows ==> db'.rows[k] == db.rows[k])
    ensures RowsFollow(db', synced)
  {
    forall id | id in db'.subscriptions
      ensures Follows(db', id, synced)
    {
      assert Follows(db, id, synced) && SameGrant(db.subscriptions[id], db'.subscriptions[id]);
      forall key: EntitlementKey, t: Time
        ensures Granted(db.catalogue, db'.subscriptions[id], key, t)
                == Granted(db.catalogue, db.subscriptions[id], key, t)
      {
        SameGrantGrants(db.catalogue, db.subscriptions[id], db'.subscriptions[id], key, t);
      }
      hide Granted, Follows, SameGrant;
      SameRowsFollow(db, db', id, synced);
    }
  }

  lemma OpenKeepsRowsFollow(db: Db, id: SubscriptionId, c: CheckoutId, p: Purchase, past: Past)
    requires Sound(db, past) && RowsFollow(db, past.synced) && OpenCheckout(db, id, c, p).Ok?
    ensures RowsFollow(OpenCheckout(db, id, c, p).value, past.synced)
  {
    var db' := OpenCheckout(db, id, c, p).value;
    assert RowsOwned(db, past.paid);
    hide SlotOccupied, CheckoutOpen, Sound;
    forall other | other in db'.subscriptions
      ensures Follows(db', other, past.synced)
    {
      if other == id {
        assert forall key :: SubscriptionRow(p.guild, key, id) in db.rows ==>
               RowOwned(SubscriptionRow(p.guild, key, id), db.subscriptions, past.paid);
      } else {
        assert Follows(db, other, past.synced);
        SameRowsFollow(db, db', other, past.synced);
      }
    }
  }

  // ----- the checkout failure path, exactly -----

  /** The instant at which the subscription stops granting; none if it does not grant at all. */
  function GrantEnd(s: Subscription): Option<Time> {
    if (s.status.Active? || s.status.Cancelled?) && s.latestPayment.Succeeded? then s.periodEnd
    else if s.status.GracePeriod? then s.graceEnd
    else None
  }

  function EndFrom(end: Option<Time>, from: Time): Time {
    if end.Some? && end.value > from then end.value else from
  }

  /** Writing Cancelled does not move the end of the grant, seen from `from`, or the plan has no features. */
  ghost predicate KeepsRule(db: Db, c: CheckoutId, from: Time)
    requires c in db.checkouts && db.checkouts[c].subscription in db.subscriptions
  {
    var s := db.subscriptions[db.checkouts[c].subscription];
    || (forall key :: !InFeatureSet(db.catalogue, s, key))
    || EndFrom(GrantEnd(s), from) == EndFrom(if s.latestPayment.Succeeded? then s.periodEnd else None, from)
  }

  /**
   The failure path writes Cancelled without looking at the status.  The rows still follow the rule
   afterwards exactly when the write does not move the end of the grant, or the plan has no features.
   */
  lemma FailureKeepsRuleExactly(db: Db, c: CheckoutId, at: Time, from: Time)
    requires FailCheckout(db, c, at).Ok? && RowsFollowRule(db, db.checkouts[c].subscription, from)
    ensures RowsFollowRule(FailCheckout(db, c, at).value, db.checkouts[c].subscription, from) <==>
            KeepsRule(db, c, from)
  {
    var id := db.checkouts[c].subscription;
    var s := db.subscriptions[id];
    var db' := FailCheckout(db, c, at).value;
    var s' := db'.subscriptions[id];
    hide SlotOccupied;
    var before, after := EndFrom(GrantEnd(s), from), EndFrom(GrantEnd(s'), from);
    assert forall t :: t >= from ==> (GrantOf(s, t).grants <==> t < before) && (GrantOf(s', t).grants <==> t < after);
    if key :| InFeatureSet(db.catalogue, s, key) && before != after {
      var t := if before < after then before else after;
      var row := SubscriptionRow(s.guild, key, id);
      assert Lit(db.rows, row, t) <==> Granted(db.catalogue, s, key, t);
      assert !(Lit(db'.rows, row, t) <==> Granted(db'.catalogue, s', key, t));
    } else {
      forall key: EntitlementKey, t: Time | t >= from
        ensures Lit(db'.rows, SubscriptionRow(s.guild, key, id), t) <==> Granted(db'.catalogue, s', key, t)
      {
        assert Lit(db.rows, SubscriptionRow(s.guild, key, id), t) <==> Granted(db.catalogue, s, key, t);
        assert InFeatureSet(db.catalogue, s, key) ==> before == after;
        assert InFeatureSet(db'.catalogue, s', key) == InFeatureSet(db.catalogue, s, key);
        assert GrantOf(s, t).grants <==> t < before;
        assert GrantOf(s', t).grants <==> t < after;
      }
    }
  }

  /** An unpaid subscription that has not started is spared: the case the failure path is written for. */
  lemma UnpaidIsSpared(db: Db, c: CheckoutId, from: Time)
    requires c in db.checkouts && db.checkouts[c].subscription in db.subscriptions
    requires var s := db.subscriptions[db.checkouts[c].subscription]; Awaiting(s.status) && !s.latestPayment.Succeeded?
    ensures KeepsRule(db, c, from)
  {
  }

  /** A checkout failure that is carried out leaves rows and rule of its subscription in agreement. */
  ghost predicate SparesRows(db: Db, step: Step, synced: map<SubscriptionId, Time>) {
    step.Fail? && FailCheckout(db, step.checkout, step.at).Ok? ==>
      var id := db.checkouts[step.checkout].subscription;
      if id in synced then KeepsRule(db, step.checkout, synced[id])
         else forall from: Time :: KeepsRule(db, step.checkout, from)
  }

  lemma FailFollowsExactly(db: Db, c: CheckoutId, at: Time, synced: map<SubscriptionId, Time>)
    requires RowsFollow(db, synced) && FailCheckout(db, c, at).Ok?
    ensures RowsFollow(FailCheckout(db, c, at).value, synced) <==> SparesRows(db, Fail(c, at), synced)
  {
    var id := db.checkouts[c].subscription;
    var db' := FailCheckout(db, c, at).value;
    assert Follows(db, id, synced);
    OthersFollow(db, c, at, synced);
    assert RowsFollow(db', synced) <==> Follows(db', id, synced);
    hide RowsFollow, KeepsRule, RowsFollowRule, SlotOccupied;
    if id in synced {
      FailureKeepsRuleExactly(db, c, at, synced[id]);
    } else {
      forall from: Time
        ensures RowsFollowRule(db', id, from) <==> KeepsRule(db, c, from)
      {
        assert RowsFollowRule(db, id, from);
        FailureKeepsRuleExactly(db, c, at, from);
      }
    }
  }

  lemma OthersFollow(db: Db, c: CheckoutId, at: Time, synced: map<SubscriptionId, Time>)
    requires RowsFollow(db, synced) && FailCheckout(db, c, at).Ok?
    ensures var db' := FailCheckout(db, c, at).value;
            forall id | id in db'.subscriptions && id != db.checkouts[c].subscription :: Follows(db', id, synced)
  {
    var db' := FailCheckout(db, c, at).value;
    hide SlotOccupied;
    forall id | id in db'.subscriptions && id != db.checkouts[c].subscription
      ensures Follows(db', id, synced)
    {
      assert Follows(db, id, synced);
      hide Granted, Follows;
      SameRowsFollow(db, db', id, synced);
    }
  }

  // ----- one step -----

  lemma AppliedMomentFollows(db: Db, u: StateUpdate, now: Time, success: bool, receipt: Option<EventKey>, past: Past)
    requires RowsFollow(db, past.synced)
    ensures var m := ApplyMoment(db, u, now, success, receipt); RowsFollow(m.db, Remember(past, m.note).synced)
  {
    hide RowsFollow, ApplyState;
    if ApplyState(db, u, now).Ok? {
      ApplyKeepsRowsFollow(db, u, now, past, ApplyState(db, u, now).value);
    }
  }

  lemma CommitFollows(db: Db, seen: Db, key: EventKey, e: Event, p: Snapshot, graceDays: nat, before: bool, past: Past)
    requires RowsFollow(db, past.synced)
    ensures var m := CommitMoment(db, seen, key, e, p, graceDays, before);
            RowsFollow(m.db, Remember(past, m.note).synced)
  {
    var target := Target(seen, e);
    if target.Some? {
      TargetExists(seen, e);
      hide RowsFollow, Decide, Target, ApplyMoment, PartialRefundRow;
      if PartialRefundEvent(e) {
        SameSubscriptionsFollow(db, Quiet(db, RecordPartialRefund(db, target.value, key, e)).db, past.synced);
      } else {
        AppliedMomentFollows(db, Decide(target.value, seen.subscriptions[target.value], key, e, p, graceDays, before),
                             e.occurredAt,
                             PaymentSignal(e, p), if PaidWithAmount(e) then Some(key) else None, past);
      }
    }
  }

  lemma SameSubscriptionsFollow(db: Db, db': Db, synced: map<SubscriptionId, Time>)
    requires RowsFollow(db, synced) && db'.catalogue == db.catalogue && db'.subscriptions == db.subscriptions
    requires forall k: RowKey | k.source == FromSubscription ::
               (k in db'.rows <==> k in db.rows) && (k in db.rows ==> db'.rows[k] == db.rows[k])
    ensures RowsFollow(db', synced)
  {
    hide RowsFollow;
    SameRowsAllFollow(db, db', synced);
  }

  lemma ReconcileFollows(db: Db, id: SubscriptionId, seen: Subscription, p: Snapshot, graceDays: nat, now: Time,
      past: Past)
    requires RowsFollow(db, past.synced)
    ensures var r := CommitSnapshot(db, id, seen, p, graceDays, now);
            r.Ok? && r.value.Some? ==> RowsFollow(r.value.value, past.synced[id := now])
  {
    var r := CommitSnapshot(db, id, seen, p, graceDays, now);
    hide RowsFollow, ApplyState, StateFromSnapshot;
    if r.Ok? && r.value.Some? {
      ApplyKeepsRowsFollow(db,
                           ReconcileUpdate(id, seen, p, StateFromSnapshot(seen.status, p, graceDays, now).value, now),
        now, past, r.value.value);
    }
  }

  lemma BindFollows(db: Db, seen: Db, e: Event, synced: map<SubscriptionId, Time>)
    requires RowsFollow(db, synced) && BindRead(db, seen, e).Ok?
    ensures RowsFollow(BindRead(db, seen, e).value, synced)
  {
    var db' := BindRead(db, seen, e).value;
    BindKeepsGrants(db, seen, e);
    hide RowsFollow, BindRead, SameGrant;
    SameRowsAllFollow(db, db', synced);
  }

  lemma BindWritesOne(db: Db, seen: Db, e: Event)
    requires BindRead(db, seen, e).Ok? && e.checkout.Some?
    ensures e.checkout.value in seen.checkouts
    ensures var id, db' := seen.checkouts[e.checkout.value].subscription, BindRead(db, seen, e).value;
            && id in db.subscriptions && db' == db.(subscriptions := db'.subscriptions, customers := db'.customers)
            && db'.subscriptions == db.subscriptions[id := db.subscriptions[id].(binding := Some(e.subscription))]
  {
    hide BindingTaken, CustomerAccepted;
  }

  lemma BindKeepsGrants(db: Db, seen: Db, e: Event)
    requires BindRead(db, seen, e).Ok?
    ensures var db' := BindRead(db, seen, e).value;
            && db' == db.(subscriptions := db'.subscriptions, customers := db'.customers)
            && db'.subscriptions.Keys == db.subscriptions.Keys
            && forall id :: id in db.subscriptions ==> SameGrant(db.subscriptions[id], db'.subscriptions[id])
  {
    if e.checkout.Some? {
      BindWritesOne(db, seen, e);
      hide BindRead;
    }
  }

  lemma SweepFollows(db: Db, c: CheckoutId, seen: Checkout, s: Subscription, before: Time,
      synced: map<SubscriptionId, Time>)
    requires RowsFollow(db, synced)
    ensures RowsFollow(SweepCheckout(db, c, seen, s, before), synced)
  {
    SweepWrites(db, c, seen, s, before);
    hide RowsFollow, SweepCheckout, SubscriptionsEvolve, CheckoutsEvolve;
    SameRowsAllFollow(db, SweepCheckout(db, c, seen, s, before), synced);
  }

  /** Rows and rule agree after a step if and only if the step spares them; every step but a failure does. */
  lemma StepFollowsExactly(trace: seq<Moment>, step: Step, past: Past)
    requires |trace| > 0 && Sound(trace[|trace| - 1].db, past) && RowsFollow(trace[|trace| - 1].db, past.synced)
    ensures var m := Execute(trace, step);
            RowsFollow(m.db, Remember(past, m.note).synced) <==> SparesRows(trace[|trace| - 1].db, step, past.synced)
  {
    if EventStep(step) {
      EventStepFollows(trace, step, past);
    } else {
      OtherStepFollowsExactly(trace, step, past);
    }
    hide *;
  }

  lemma CommitStepFollows(trace: seq<Moment>, step: Step, past: Past)
    requires step.Commit? && |trace| > 0 && RowsFollow(trace[|trace| - 1].db, past.synced)
    ensures var m := Execute(trace, step); RowsFollow(m.db, Remember(past, m.note).synced)
  {
    var db := trace[|trace| - 1].db;
    hide RowsFollow, CommitMoment, Target, CountedPaid;
    if step.key in db.events && step.boundAt <= step.readAt <= step.countAt < |trace|
       && trace[step.boundAt].note == BoundEvent(step.key) {
      var e := db.events[step.key].event;
      var before := CountedPaid(trace[step.readAt].db, trace[step.countAt].db, e);
      assert Execute(trace, step) == CommitMoment(db, trace[step.readAt].db, step.key, e, step.snapshot,
                                                  step.graceDays, before);
      hide Execute, Remember;
      CommitFollows(db, trace[step.readAt].db, step.key, e, step.snapshot, step.graceDays, before, past);
    } else {
      assert Execute(trace, step) == Moment(db, Nothing);
      hide Execute;
    }
  }

  lemma BindStepFollows(trace: seq<Moment>, step: Step, past: Past)
    requires step.BindEvent? && |trace| > 0 && RowsFollow(trace[|trace| - 1].db, past.synced)
    ensures var m := Execute(trace, step); RowsFollow(m.db, Remember(past, m.note).synced)
  {
    var db := trace[|trace| - 1].db;
    hide RowsFollow, BindRead;
    if step.key in db.events && step.readAt < |trace| {
      var e := db.events[step.key].event;
      if BindRead(db, trace[step.readAt].db, e).Ok? {
        BindFollows(db, trace[step.readAt].db, e, past.synced);
      }
    }
  }

  lemma EventStepFollows(trace: seq<Moment>, step: Step, past: Past)
    requires EventStep(step)
    requires |trace| > 0 && Sound(trace[|trace| - 1].db, past) && RowsFollow(trace[|trace| - 1].db, past.synced)
    ensures var m := Execute(trace, step);
            RowsFollow(m.db, Remember(past, m.note).synced) <==> SparesRows(trace[|trace| - 1].db, step, past.synced)
  {
    var db := trace[|trace| - 1].db;
    OnlyFailuresDisturb(db, step, past.synced);
    hide Sound, RowsFollow, SparesRows, Execute;
    if step.BindEvent? {
      BindStepFollows(trace, step, past);
    } else if step.Commit? {
      CommitStepFollows(trace, step, past);
    } else {
      EventBookkeeping(trace, step);
      SameSubscriptionsFollow(db, Execute(trace, step).db, past.synced);
    }
  }

  lemma OtherStepFollowsExactly(trace: seq<Moment>, step: Step, past: Past)
    requires !EventStep(step)
    requires |trace| > 0 && Sound(trace[|trace| - 1].db, past) && RowsFollow(trace[|trace| - 1].db, past.synced)
    ensures var m := Execute(trace, step);
            RowsFollow(m.db, Remember(past, m.note).synced) <==> SparesRows(trace[|trace| - 1].db, step, past.synced)
  {
    var db := trace[|trace| - 1].db;
    var m := Execute(trace, step);
    hide Sound, RowsFollow, SparesRows, ApplyState, SweepCheckout, FailCheckout, CommitMoment, OpenCheckout, BindRead,
         Target, StateFromSnapshot, Marks, ApplyMoment, CommitSnapshot, SlotOccupied, CheckoutOpen,
         GrantPromotion, RevokePromotion;
    if !step.Fail? {
      OnlyFailuresDisturb(db, step, past.synced);
    }
    match step
    case Open(id, c, p) => if OpenCheckout(db, id, c, p).Ok? { OpenKeepsRowsFollow(db, id, c, p, past); }
    case Fail(c, at) =>
      if FailCheckout(db, c, at).Ok? {
        FailFollowsExactly(db, c, at, past.synced);
      } else {
        assert SparesRows(db, step, past.synced) by { RefusedSpares(db, step, past.synced); }
      }
    case Sweep(c, readAt, before) =>
      if readAt < |trace| && SweepFinds(trace[readAt].db, c, before) {
        var seen := trace[readAt].db;
        SweepFollows(db, c, seen.checkouts[c], seen.subscriptions[seen.checkouts[c].subscription], before, past.synced);
      }
    case Reconcile(id, readAt, p, graceDays, now) =>
      if readAt < |trace| && id in trace[readAt].db.subscriptions {
        ReconcileFollows(db, id, trace[readAt].db.subscriptions[id], p, graceDays, now, past);
      }
    case Suspend(id, readAt, version, now) =>
      AppliedMomentFollows(db, StatusOnly(id, Suspended, version), now, false, None, past);
    case ExpireJob(id, readAt, expectedAt, now) =>
      if readAt < |trace| && id in trace[readAt].db.subscriptions {
        AppliedMomentFollows(db, ExpireUpdate(id, trace[readAt].db.subscriptions[id].version, expectedAt), now, false,
                             None, past);
      }
    case Promote(g, reference, featureSet, now, endsAt) =>
      GrantFollows(db, g, reference, featureSet, now, endsAt, past.synced);
    case Demote(g, reference, now) => RevokeFollows(db, g, reference, now, past.synced);
    case _ => SameSubscriptionsFollow(db, m.db, past.synced);
  }

  lemma GrantFollows(db: Db, g: GuildId, reference: nat, featureSet: nat, now: Time, endsAt: Time,
      synced: map<SubscriptionId, Time>)
    requires RowsFollow(db, synced)
    ensures RowsFollow(Quiet(db, GrantPromotion(db, g, reference, featureSet, now, endsAt)).db, synced)
  {
    hide RowsFollow;
    SameSubscriptionsFollow(db, Quiet(db, GrantPromotion(db, g, reference, featureSet, now, endsAt)).db, synced);
  }

  lemma RevokeFollows(db: Db, g: GuildId, reference: nat, now: Time, synced: map<SubscriptionId, Time>)
    requires RowsFollow(db, synced)
    ensures RowsFollow(Quiet(db, RevokePromotion(db, g, reference, now)).db, synced)
  {
    hide RowsFollow;
    SameSubscriptionsFollow(db, Quiet(db, RevokePromotion(db, g, reference, now)).db, synced);
  }

  lemma OnlyFailuresDisturb(db: Db, step: Step, synced: map<SubscriptionId, Time>)
    requires !step.Fail?
    ensures SparesRows(db, step, synced)
  {
  }

  lemma RefusedSpares(db: Db, step: Step, synced: map<SubscriptionId, Time>)
    requires step.Fail? && FailCheckout(db, step.checkout, step.at).Err?
    ensures SparesRows(db, step, synced)
  {
  }

  // ----- whole runs -----

  /** At every moment of the run the rows follow the rule. */
  ghost predicate RowsFollowThroughout(start: Db, steps: seq<Step>) {
    forall n, m | 0 <= n <= |steps| && m == n + 1 ::
           RowsFollow(Run(start, steps)[n].db, PastOf(Run(start, steps)[..m]).synced)
  }

  /** Every checkout failure of the run spared the rows of its subscription. */
  ghost predicate FailuresSpareRows(start: Db, steps: seq<Step>) {
    forall n, m | 0 <= n < |steps| && m == n + 1 ::
           SparesRows(Run(start, steps)[n].db, steps[n], PastOf(Run(start, steps)[..m]).synced)
  }

  lemma PastAt(t: seq<Moment>, n: nat)
    requires n + 1 < |t|
    ensures PastOf(t[..n + 2]) == Remember(PastOf(t[..n + 1]), t[n + 1].note)
  {
    assert t[..n + 2] == t[..n + 1] + [t[n + 1]];
    PastGoesOn(t[..n + 1], t[n + 1]);
    hide *;
  }

  lemma MomentFollowsExactly(start: Db, steps: seq<Step>, n: nat)
    requires Fresh(start) && n < |steps|
             && RowsFollow(Run(start, steps)[n].db, PastOf(Run(start, steps)[..n + 1]).synced)
    ensures RowsFollow(Run(start, steps)[n + 1].db, PastOf(Run(start, steps)[..n + 2]).synced)
            <==> SparesRows(Run(start, steps)[n].db, steps[n], PastOf(Run(start, steps)[..n + 1]).synced)
  {
    var t := Run(start, steps);
    SoundAt(start, steps, n);
    StepOf(start, steps, n);
    RunExtends(start, steps, n);
    hide *;
    PastAt(t, n);
    StepFollowsExactly(Run(start, steps[..n]), steps[n], PastOf(t[..n + 1]));
  }

  lemma FirstFollows(start: Db, steps: seq<Step>)
    requires Fresh(start)
    ensures RowsFollow(Run(start, steps)[0].db, PastOf(Run(start, steps)[..1]).synced)
  {
    FirstIsQuiet(start, steps);
    hide Run;
  }

  lemma {:induction false} SparedRunsFollow(start: Db, steps: seq<Step>, n: nat)
    requires Fresh(start) && FailuresSpareRows(start, steps) && n <= |steps|
    ensures RowsFollow(Run(start, steps)[n].db, PastOf(Run(start, steps)[..n + 1]).synced)
  {
    if n == 0 {
      FirstFollows(start, steps);
    } else {
      SparedRunsFollow(start, steps, n - 1);
      var m := n - 1 + 1;
      assert SparesRows(Run(start, steps)[n - 1].db, steps[n - 1], PastOf(Run(start, steps)[..m]).synced);
      hide *;
      MomentFollowsExactly(start, steps, n - 1);
    }
  }

  /**
   Rows and rule agree at every moment of a run if and only if every checkout failure spared them: its
   Cancelled did not move the end of a grant of a plan with features.
   */
  lemma RowsFollowExactly(start: Db, steps: seq<Step>)
    requires Fresh(start)
    ensures RowsFollowThroughout(start, steps) <==> FailuresSpareRows(start, steps)
  {
    hide Run, PastOf, RowsFollow, SparesRows, Fresh;
    if FailuresSpareRows(start, steps) {
      forall n, m | 0 <= n <= |steps| && m == n + 1
        ensures RowsFollow(Run(start, steps)[n].db, PastOf(Run(start, steps)[..m]).synced)
      {
        hide *;
        SparedRunsFollow(start, steps, n);
      }
    }
    if RowsFollowThroughout(start, steps) {
      forall n, m | 0 <= n < |steps| && m == n + 1
        ensures SparesRows(Run(start, steps)[n].db, steps[n], PastOf(Run(start, steps)[..m]).synced)
      {
        var k := m + 1;
        assert RowsFollow(Run(start, steps)[n].db, PastOf(Run(start, steps)[..m]).synced);
        assert RowsFollow(Run(start, steps)[m].db, PastOf(Run(start, steps)[..k]).synced);
        hide *;
        MomentFollowsExactly(start, steps, n);
      }
    }
    hide *;
  }

  /** `from` is at or after the last application of state to `id`, if there was one. */
  ghost predicate SinceLastApplied(trace: seq<Moment>, id: SubscriptionId, from: Time) {
    forall i ::
      0 <= i < |trace| && AppliedTo(trace[i], id) && (forall j :: i < j < |trace| ==> !AppliedTo(trace[j], id)) ==>
        trace[i].note.now <= from
  }

  lemma SinceLastAppliedBefore(trace: seq<Moment>, id: SubscriptionId, from: Time)
    requires trace != [] && SinceLastApplied(trace, id, from) && !AppliedTo(trace[|trace| - 1], id)
    ensures SinceLastApplied(trace[..|trace| - 1], id, from)
  {
    var last := |trace| - 1;
    var shorter := trace[..last];
    forall i | 0 <= i < last && AppliedTo(shorter[i], id) && (forall j :: i < j < last ==> !AppliedTo(shorter[j], id))
      ensures shorter[i].note.now <= from
    {
      forall j | i < j < |trace| ensures !AppliedTo(trace[j], id) {
        if j < last { assert !AppliedTo(shorter[j], id); }
      }
      assert AppliedTo(trace[i], id);
    }
  }

  lemma LastApplied(trace: seq<Moment>, id: SubscriptionId, from: Time)
    requires trace != [] && SinceLastApplied(trace, id, from) && AppliedTo(trace[|trace| - 1], id)
    ensures trace[|trace| - 1].note.now <= from
  {
    hide AppliedTo;
    assert AppliedTo(trace[|trace| - 1], id);
  }

  lemma SyncedStep(trace: seq<Moment>, id: SubscriptionId)
    requires trace != []
    ensures var last := |trace| - 1;
            && (AppliedTo(trace[last], id) ==> PastOf(trace).synced[id := trace[last].note.now] == PastOf(trace).synced)
            && (!AppliedTo(trace[last], id) && id in PastOf(trace).synced ==>
                  id in PastOf(trace[..last]).synced && PastOf(trace[..last]).synced[id] == PastOf(trace).synced[id])
  {
  }

  lemma {:induction false} SyncedMeans(trace: seq<Moment>, id: SubscriptionId, from: Time)
    requires SinceLastApplied(trace, id, from)
    ensures id in PastOf(trace).synced ==> PastOf(trace).synced[id] <= from
  {
    if trace != [] {
      var last := |trace| - 1;
      SyncedStep(trace, id);
      hide PastOf, SinceLastApplied;
      if AppliedTo(trace[last], id) {
        LastApplied(trace, id, from);
      } else {
        SinceLastAppliedBefore(trace, id, from);
        SyncedMeans(trace[..last], id, from);
      }
    }
  }

  /**
   In such a run, for every instant from the last application of state on, the lit rows of a subscription
   are the whole feature set if the granting rule holds at that instant, and no row otherwise; the sweep
   and the failures that spare the rows do not disturb this.
   */
  lemma RowsAreTheRule(start: Db, steps: seq<Step>, id: SubscriptionId, key: EntitlementKey, t: Time)
    requires Fresh(start) && FailuresSpareRows(start, steps)
    requires var db := Run(start, steps)[|steps|].db; id in db.subscriptions
    requires SinceLastApplied(Run(start, steps), id, t)
    ensures var db := Run(start, steps)[|steps|].db;
            var s := db.subscriptions[id];
            Lit(db.rows, SubscriptionRow(s.guild, key, id), t) <==>
              GrantOf(s, t).grants && InFeatureSet(db.catalogue, s, key)
  {
    SparedRunsFollow(start, steps, |steps|);
    SyncedMeans(Run(start, steps), id, t);
    var db := Run(start, steps)[|steps|].db;
    assert Run(start, steps)[..|steps| + 1] == Run(start, steps);
    var synced := PastOf(Run(start, steps)).synced;
    assert Follows(db, id, synced);
    hide Run, Fresh, FailuresSpareRows, SinceLastApplied, Lit, GrantOf;
    if id !in synced {
      assert RowsFollowRule(db, id, t);
    }
    assert Granted(db.catalogue, db.subscriptions[id], key, t) <==>
           Lit(db.rows, SubscriptionRow(db.subscriptions[id].guild, key, id), t);
  }
}
