/**
 What never goes back over a run of the billing system, whatever the interleaving: versions, provider
 clocks, ledger rows, customer records and entitlement versions; and when statuses move in their graph.
 */
module BillingHistory {
  import opened Common
  import opened Lifecycle
  import opened BillingModel
  import opened ProviderEvents
  import opened BillingSteps

  ghost predicate SubscriptionEvolves(s: Subscription, s': Subscription) {
    && s'.guild == s.guild && s'.purchaser == s.purchaser && s'.plan == s.plan && s'.provider == s.provider
    && s'.price == s.price && s'.currency == s.currency && s'.featureSet == s.featureSet
    && (s.binding.Some? ==> s'.binding.Some?)
    && s.version <= s'.version
    && (s.version == s'.version ==> s' == s.(binding := s'.binding))
    && (s.providerClock.Some? ==> s'.providerClock.Some? && s.providerClock.value <= s'.providerClock.value)
  }

  ghost predicate SameGuildRows(a: Db, b: Db, g: GuildId) {
    forall k: RowKey :: k.guild == g ==> (k in a.rows <==> k in b.rows) && (k in a.rows ==> a.rows[k] == b.rows[k])
  }

  ghost predicate SubscriptionsEvolve(a: map<SubscriptionId, Subscription>, b: map<SubscriptionId, Subscription>) {
    forall id :: id in a ==> id in b && SubscriptionEvolves(a[id], b[id])
  }

  ghost predicate EventsEvolve(a: map<EventKey, EventRecord>, b: map<EventKey, EventRecord>) {
    forall k :: k in a ==> k in b && b[k].event == a[k].event
  }

  ghost predicate LedgerEvolves(a: map<EventKey, Payment>, b: map<EventKey, Payment>) {
    forall k :: k in a ==> k in b && b[k].subscription == a[k].subscription
  }

  ghost predicate CheckoutsEvolve(a: map<CheckoutId, Checkout>, b: map<CheckoutId, Checkout>) {
    forall c :: c in a ==> c in b && b[c].subscription == a[c].subscription
  }

  /** A purchaser's customer record is never replaced. */
  ghost predicate CustomersEvolve(a: map<CustomerKey, nat>, b: map<CustomerKey, nat>) {
    forall k :: k in a ==> k in b && b[k] == a[k]
  }

  ghost predicate GuildsEvolve(a: Db, b: Db) {
    forall g :: g in a.guildVersion ==>
      && g in b.guildVersion && a.guildVersion[g] <= b.guildVersion[g]
      && (a.guildVersion[g] == b.guildVersion[g] ==> SameGuildRows(a, b, g))
  }

  ghost predicate Evolves(a: Db, b: Db) {
    && a.catalogue == b.catalogue
    && SubscriptionsEvolve(a.subscriptions, b.subscriptions)
    && EventsEvolve(a.events, b.events)
    && LedgerEvolves(a.ledger, b.ledger)
    && CheckoutsEvolve(a.checkouts, b.checkouts)
    && CustomersEvolve(a.customers, b.customers)
    && GuildsEvolve(a, b)
  }

  lemma EvolvesReflexive(a: Db)
    ensures Evolves(a, a)
  {
  }

  lemma SubscriptionsTransitive(
    a: map<SubscriptionId, Subscription>, b: map<SubscriptionId, Subscription>, c: map<SubscriptionId, Subscription>)
    requires SubscriptionsEvolve(a, b) && SubscriptionsEvolve(b, c)
    ensures SubscriptionsEvolve(a, c)
  {
    forall id | id in a
      ensures id in c && SubscriptionEvolves(a[id], c[id])
    {
      assert SubscriptionEvolves(a[id], b[id]) && SubscriptionEvolves(b[id], c[id]);
    }
  }

  lemma EvolvesTransitive(a: Db, b: Db, c: Db)
    requires Evolves(a, b) && Evolves(b, c)
    ensures Evolves(a, c)
  {
    SubscriptionsTransitive(a.subscriptions, b.subscriptions, c.subscriptions);
    GuildsTransitive(a, b, c);
    hide GuildsEvolve, SubscriptionsEvolve;
  }

  lemma SameRowsTransitive(a: Db, b: Db, c: Db, g: GuildId)
    requires SameGuildRows(a, b, g) && SameGuildRows(b, c, g)
    ensures SameGuildRows(a, c, g)
  {
  }

  lemma GuildsTransitive(a: Db, b: Db, c: Db)
    requires GuildsEvolve(a, b) && GuildsEvolve(b, c)
    ensures GuildsEvolve(a, c)
  {
    hide SameGuildRows;
    forall g | g in a.guildVersion && a.guildVersion[g] == c.guildVersion[g]
      ensures SameGuildRows(a, c, g)
    {
      SameRowsTransitive(a, b, c, g);
    }
  }

  /** Every caller of the central transaction keeps the provider clock or sets it to an instant. */
  predicate KeepsClock(u: StateUpdate) {
    u.providerClock.Put? ==> u.providerClock.value.Some?
  }

  lemma UpdatedEvolves(s: Subscription, u: StateUpdate)
    requires KeepsClock(u)
    requires u.providerClock.Put? && s.providerClock.Some? ==> s.providerClock.value <= u.providerClock.value.value
    ensures SubscriptionEvolves(s, Updated(s, u))
  {
  }

  /** The rows of other guilds, and of other sources and subscriptions, are not touched. */
  lemma ApplyTouchesOwnRows(db: Db, u: StateUpdate, now: Time, db': Db)
    requires ApplyState(db, u, now) == Ok(db')
    ensures u.subscription in db.subscriptions
    ensures forall k: RowKey | !OwnedBy(k, db.subscriptions[u.subscription].guild, u.subscription) ::
              (k in db'.rows <==> k in db.rows) && (k in db.rows ==> db'.rows[k] == db.rows[k])
  {
    hide SubscriptionChecks, OwnedRowsCheck, PaymentChecks, UpsertPayment, MarkProcessed, GrantOf, KeySet;
  }

  lemma ApplyGuildsEvolve(db: Db, u: StateUpdate, now: Time, db': Db)
    requires ApplyState(db, u, now) == Ok(db')
    ensures GuildsEvolve(db, db')
  {
    ApplyShape(db, u, now, db');
    ApplyTouchesOwnRows(db, u, now, db');
    hide ApplyState, Updated;
  }

  lemma OneSubscriptionEvolves(a: map<SubscriptionId, Subscription>, id: SubscriptionId, s: Subscription)
    requires id in a && SubscriptionEvolves(a[id], s)
    ensures SubscriptionsEvolve(a, a[id := s])
  {
  }

  /** An accepted application raises the version by one along an edge of the graph, and nothing goes back. */
  lemma ApplyEvolves(db: Db, u: StateUpdate, now: Time, db': Db)
    requires ApplyState(db, u, now) == Ok(db') && KeepsClock(u)
    ensures Evolves(db, db')
    ensures db'.subscriptions[u.subscription].version == db.subscriptions[u.subscription].version + 1
    ensures CanTransition(db.subscriptions[u.subscription].status, db'.subscriptions[u.subscription].status)
    ensures forall id | id in db.subscriptions && id != u.subscription :: db'.subscriptions[id] == db.subscriptions[id]
  {
    ApplyShape(db, u, now, db');
    ApplyGuildsEvolve(db, u, now, db');
    UpdatedEvolves(db.subscriptions[u.subscription], u);
    OneSubscriptionEvolves(db.subscriptions, u.subscription, Updated(db.subscriptions[u.subscription], u));
    hide ApplyState, SubscriptionEvolves, GuildsEvolve, SubscriptionsEvolve;
  }

  // ----- one step -----

  lemma ApplyMomentEvolves(db: Db, u: StateUpdate, now: Time, success: bool, receipt: Option<EventKey>)
    requires KeepsClock(u)
    ensures Evolves(db, ApplyMoment(db, u, now, success, receipt).db)
  {
    EvolvesReflexive(db);
    var r := ApplyState(db, u, now);
    if r.Ok? {
      ApplyEvolves(db, u, now, r.value);
    }
    hide ApplyState, Evolves;
  }

  lemma DecideKeepsClock(id: SubscriptionId, s: Subscription, key: EventKey, e: Event, p: Snapshot, graceDays: nat,
      before: bool)
    ensures KeepsClock(Decide(id, s, key, e, p, graceDays, before))
  {
  }

  lemma SnapshotKeepsClock(id: SubscriptionId, s: Subscription, p: Snapshot, graceDays: nat, now: Time)
    requires StateFromSnapshot(s.status, p, graceDays, now).Ok?
    ensures KeepsClock(ReconcileUpdate(id, s, p, StateFromSnapshot(s.status, p, graceDays, now).value, now))
  {
  }

  lemma QuietEvolves(a: Db, b: Db)
    requires b == a.(events := b.events, ledger := b.ledger, checkouts := b.checkouts)
    requires EventsEvolve(a.events, b.events) && LedgerEvolves(a.ledger, b.ledger)
             && CheckoutsEvolve(a.checkouts, b.checkouts)
    ensures Evolves(a, b)
  {
    EvolvesReflexive(a);
  }

  lemma PartialRefundEvolves(db: Db, id: SubscriptionId, key: EventKey, e: Event)
    requires PartialRefundEvent(e)
    ensures Evolves(db, Quiet(db, RecordPartialRefund(db, id, key, e)).db)
  {
    var db' := Quiet(db, RecordPartialRefund(db, id, key, e)).db;
    assert LedgerEvolves(db.ledger, db'.ledger) && EventsEvolve(db.events, db'.events);
    hide Evolves, LedgerEvolves, EventsEvolve;
    QuietEvolves(db, db');
  }

  lemma CommitEvolves(db: Db, seen: Db, key: EventKey, e: Event, p: Snapshot, graceDays: nat, before: bool)
    ensures Evolves(db, CommitMoment(db, seen, key, e, p, graceDays, before).db)
  {
    QuietEvolves(db, db);
    var target := Target(seen, e);
    if target.Some? {
      var s := seen.subscriptions[target.value];
      var u := Decide(target.value, s, key, e, p, graceDays, before);
      hide Decide, ApplyMoment, Target, Evolves, RecordPartialRefund;
      if PartialRefundEvent(e) {
        PartialRefundEvolves(db, target.value, key, e);
      } else {
        DecideKeepsClock(target.value, s, key, e, p, graceDays, before);
        ApplyMomentEvolves(db, u, e.occurredAt, PaymentSignal(e, p), if PaidWithAmount(e) then Some(key) else None);
      }
    }
  }

  /** Writing one subscription's record, and nothing of the rows. */
  lemma RecordEvolves(a: Db, b: Db, id: SubscriptionId, s: Subscription)
    requires id in a.subscriptions && b.subscriptions == a.subscriptions[id := s]
             && SubscriptionEvolves(a.subscriptions[id], s)
    requires b == a.(subscriptions := b.subscriptions, checkouts := b.checkouts, customers := b.customers)
    requires CheckoutsEvolve(a.checkouts, b.checkouts) && CustomersEvolve(a.customers, b.customers)
    ensures Evolves(a, b)
  {
    EvolvesReflexive(a);
    OneSubscriptionEvolves(a.subscriptions, id, s);
    hide SubscriptionEvolves, SubscriptionsEvolve, CheckoutsEvolve, CustomersEvolve, SameGuildRows;
  }

  lemma BindEvolves(db: Db, seen: Db, e: Event)
    requires BindRead(db, seen, e).Ok?
    ensures Evolves(db, BindRead(db, seen, e).value)
  {
    EvolvesReflexive(db);
    if e.checkout.Some? {
      var id := seen.checkouts[e.checkout.value].subscription;
      var b := BindRead(db, seen, e).value;
      hide Evolves, BindingAccepted, BindingTaken;
      RecordEvolves(db, b, id, db.subscriptions[id].(binding := Some(e.subscription)));
    }
  }

  lemma FailEvolves(db: Db, c: CheckoutId, at: Time)
    requires FailCheckout(db, c, at).Ok?
    ensures Evolves(db, FailCheckout(db, c, at).value)
  {
    hide Evolves, SlotOccupied;
    var id := db.checkouts[c].subscription;
    RecordEvolves(db, FailCheckout(db, c, at).value, id, CancelledByFailure(db.subscriptions[id], at));
  }

  lemma SweepEvolves(db: Db, c: CheckoutId, seen: Checkout, s: Subscription, before: Time)
    ensures Evolves(db, SweepCheckout(db, c, seen, s, before))
  {
    var db' := SweepCheckout(db, c, seen, s, before);
    SweepWrites(db, c, seen, s, before);
    hide SweepCheckout, Evolves, SubscriptionEvolves, EventsEvolve, LedgerEvolves;
    if db'.subscriptions == db.subscriptions {
      assert EventsEvolve(db.events, db.events) && LedgerEvolves(db.ledger, db.ledger) by { NothingChanges(db); }
      QuietEvolves(db, db');
    } else {
      assert SubscriptionEvolves(db.subscriptions[seen.subscription], db'.subscriptions[seen.subscription]);
      RecordEvolves(db, db', seen.subscription, db'.subscriptions[seen.subscription]);
    }
  }

  lemma NothingChanges(db: Db)
    ensures EventsEvolve(db.events, db.events) && LedgerEvolves(db.ledger, db.ledger)
  {
  }

  lemma SweepChanges(db: Db, c: CheckoutId, seen: Checkout, s: Subscription, before: Time)
    ensures var db' := SweepCheckout(db, c, seen, s, before);
            var id := seen.subscription;
            && db' == db.(subscriptions := db'.subscriptions, checkouts := db'.checkouts)
            && CheckoutsEvolve(db.checkouts, db'.checkouts)
            && (db'.subscriptions != db.subscriptions ==>
                  && id in db.subscriptions && Awaiting(db.subscriptions[id].status)
                  && db'.subscriptions == db.subscriptions[id := db.subscriptions[id].(
                       status := Expired, endedAt := Some(before), version := db.subscriptions[id].version + 1)])
  {
  }

  /** One checkout of the sweep writes that checkout, and at most the record of its subscription, to Expired. */
  lemma SweepWrites(db: Db, c: CheckoutId, seen: Checkout, s: Subscription, before: Time)
    ensures var db' := SweepCheckout(db, c, seen, s, before);
            var id := seen.subscription;
            && db' == db.(subscriptions := db'.subscriptions, checkouts := db'.checkouts)
            && CheckoutsEvolve(db.checkouts, db'.checkouts)
            && (db'.subscriptions != db.subscriptions ==>
                  && id in db.subscriptions && Awaiting(db.subscriptions[id].status)
                  && db'.subscriptions == db.subscriptions[id := db.subscriptions[id].(
                       status := Expired, endedAt := Some(before), version := db.subscriptions[id].version + 1)])
            && SubscriptionsEvolve(db.subscriptions, db'.subscriptions)
  {
    var db' := SweepCheckout(db, c, seen, s, before);
    SweepChanges(db, c, seen, s, before);
    hide SweepCheckout, CheckoutsEvolve;
    if db'.subscriptions != db.subscriptions {
      OneSubscriptionEvolves(db.subscriptions, seen.subscription, db'.subscriptions[seen.subscription]);
      hide SubscriptionsEvolve, SubscriptionEvolves;
    } else {
      assert SubscriptionsEvolve(db.subscriptions, db.subscriptions);
    }
  }

  lemma OpenEvolves(db: Db, id: SubscriptionId, c: CheckoutId, p: Purchase)
    requires OpenCheckout(db, id, c, p).Ok?
    ensures Evolves(db, OpenCheckout(db, id, c, p).value)
  {
    EvolvesReflexive(db);
  }

  lemma PromotionEvolves(db: Db, r: Result<Db, BillingError>, g: GuildId)
    requires r.Ok? && g in db.guildVersion
    requires r.value == db.(rows := r.value.rows, guildVersion := BumpedVersion(db, g))
    requires forall k: RowKey | k.guild != g ::
               (k in db.rows <==> k in r.value.rows) && (k in db.rows ==> db.rows[k] == r.value.rows[k])
    ensures Evolves(db, r.value)
  {
    EvolvesReflexive(db);
  }

  lemma ReconcileEvolves(db: Db, id: SubscriptionId, seen: Subscription, p: Snapshot, graceDays: nat, now: Time,
      db': Db)
    requires CommitSnapshot(db, id, seen, p, graceDays, now) == Ok(Some(db'))
    ensures Evolves(db, db')
  {
    SnapshotKeepsClock(id, seen, p, graceDays, now);
    hide StateFromSnapshot, ReconcileUpdate, Evolves;
    ApplyMomentEvolves(db, ReconcileUpdate(id, seen, p, StateFromSnapshot(seen.status, p, graceDays, now).value, now),
                       now, false, None);
  }

  lemma GrantEvolves(db: Db, g: GuildId, reference: nat, featureSet: nat, now: Time, endsAt: Time)
    ensures Evolves(db, Quiet(db, GrantPromotion(db, g, reference, featureSet, now, endsAt)).db)
  {
    QuietEvolves(db, db);
    var r := GrantPromotion(db, g, reference, featureSet, now, endsAt);
    hide Evolves;
    if r.Ok? {
      PromotionEvolves(db, r, g);
    }
  }

  lemma RevokeEvolves(db: Db, g: GuildId, reference: nat, now: Time)
    ensures Evolves(db, Quiet(db, RevokePromotion(db, g, reference, now)).db)
  {
    QuietEvolves(db, db);
    var r := RevokePromotion(db, g, reference, now);
    hide Evolves;
    if r.Ok? {
      PromotionEvolves(db, r, g);
    }
  }

  lemma StepEvolves(trace: seq<Moment>, step: Step)
    requires |trace| > 0
    ensures Evolves(trace[|trace| - 1].db, Execute(trace, step).db)
  {
    if EventStep(step) {
      EventStepEvolves(trace, step);
    } else {
      OtherStepEvolves(trace, step);
    }
    hide *;
  }

  /** The steps of an event besides its binding and its commit write only the event's record and checkouts. */
  lemma EventBookkeeping(trace: seq<Moment>, step: Step)
    requires EventStep(step) && !step.BindEvent? && !step.Commit? && |trace| > 0
    ensures var db, m := trace[|trace| - 1].db, Execute(trace, step);
            && m.note == Nothing && m.db == db.(events := m.db.events, checkouts := m.db.checkouts)
            && EventsEvolve(db.events, m.db.events) && CheckoutsEvolve(db.checkouts, m.db.checkouts)
  {
    hide Marks, CommittedFor;
  }

  lemma BindStepEvolves(trace: seq<Moment>, step: Step)
    requires step.BindEvent? && |trace| > 0
    ensures Evolves(trace[|trace| - 1].db, Execute(trace, step).db)
  {
    var db := trace[|trace| - 1].db;
    EvolvesReflexive(db);
    hide Evolves, BindRead;
    if step.key in db.events && step.readAt < |trace| {
      var e := db.events[step.key].event;
      if BindRead(db, trace[step.readAt].db, e).Ok? {
        BindEvolves(db, trace[step.readAt].db, e);
      }
    }
  }

  lemma CommitStepEvolves(trace: seq<Moment>, step: Step)
    requires step.Commit? && |trace| > 0
    ensures Evolves(trace[|trace| - 1].db, Execute(trace, step).db)
  {
    var db := trace[|trace| - 1].db;
    EvolvesReflexive(db);
    hide Evolves, CommitMoment, Target, CountedPaid;
    if step.key in db.events && step.boundAt <= step.readAt <= step.countAt < |trace| {
      var e, seen := db.events[step.key].event, trace[step.readAt].db;
      CommitEvolves(db, seen, step.key, e, step.snapshot, step.graceDays, CountedPaid(seen, trace[step.countAt].db, e));
    }
  }

  lemma EventStepEvolves(trace: seq<Moment>, step: Step)
    requires EventStep(step)
    requires |trace| > 0
    ensures Evolves(trace[|trace| - 1].db, Execute(trace, step).db)
  {
    if step.BindEvent? {
      BindStepEvolves(trace, step);
    } else if step.Commit? {
      CommitStepEvolves(trace, step);
    } else {
      EventBookkeeping(trace, step);
      QuietEvolves(trace[|trace| - 1].db, Execute(trace, step).db);
    }
    hide Execute, Evolves;
  }

  lemma OtherStepEvolves(trace: seq<Moment>, step: Step)
    requires !EventStep(step)
    requires |trace| > 0
    ensures Evolves(trace[|trace| - 1].db, Execute(trace, step).db)
  {
    var db := trace[|trace| - 1].db;
    var db' := Execute(trace, step).db;
    QuietEvolves(db, db);
    hide Evolves, ApplyState, SweepCheckout, FailCheckout, CommitMoment, OpenCheckout, BindRead, GrantPromotion,
         RevokePromotion, ReconcileUpdate, Target, Marks, ApplyMoment, CommitSnapshot, SlotOccupied, CheckoutOpen;
    match step
    case Open(id, c, p) => if OpenCheckout(db, id, c, p).Ok? { OpenEvolves(db, id, c, p); }
    case Ready(_, _, _) => QuietEvolves(db, db');
    case Fail(c, at) => if FailCheckout(db, c, at).Ok? { FailEvolves(db, c, at); }
    case Sweep(c, readAt, before) =>
      if readAt < |trace| && SweepFinds(trace[readAt].db, c, before) {
        var seen := trace[readAt].db;
        SweepEvolves(db, c, seen.checkouts[c], seen.subscriptions[seen.checkouts[c].subscription], before);
      }
    case Reconcile(id, readAt, p, graceDays, now) =>
      if readAt < |trace| && id in trace[readAt].db.subscriptions {
        var r := CommitSnapshot(db, id, trace[readAt].db.subscriptions[id], p, graceDays, now);
        if r.Ok? && r.value.Some? { ReconcileEvolves(db, id, trace[readAt].db.subscriptions[id], p, graceDays, now,
                                                     db'); }
      }
    case Suspend(id, readAt, version, now) =>
      ApplyMomentEvolves(db, StatusOnly(id, Suspended, version), now, false, None);
    case ExpireJob(id, readAt, expectedAt, now) =>
      if readAt < |trace| && id in trace[readAt].db.subscriptions {
        ApplyMomentEvolves(db, ExpireUpdate(id, trace[readAt].db.subscriptions[id].version, expectedAt), now, false,
                           None);
      }
    case Promote(g, reference, featureSet, now, endsAt) => GrantEvolves(db, g, reference, featureSet, now, endsAt);
    case Demote(g, reference, now) => RevokeEvolves(db, g, reference, now);
  }

  // ----- whole runs -----

  lemma RunExtends(start: Db, steps: seq<Step>, i: nat)
    requires i <= |steps|
    ensures Run(start, steps[..i]) == Run(start, steps)[..i + 1]
  {
    if i == |steps| {
      assert steps[..i] == steps;
    } else {
      var shorter := steps[..|steps| - 1];
      RunExtends(start, shorter, i);
      assert shorter[..i] == steps[..i];
    }
  }

  lemma RunGoesOn(start: Db, steps: seq<Step>, step: Step)
    ensures Run(start, steps + [step]) == Run(start, steps) + [Execute(Run(start, steps), step)]
  {
    assert (steps + [step])[..|steps|] == steps;
  }

  /** Moment `i + 1` of a run is what step `i` makes of the run so far. */
  lemma StepOf(start: Db, steps: seq<Step>, i: nat)
    requires i < |steps|
    ensures Run(start, steps)[i + 1] == Execute(Run(start, steps[..i]), steps[i])
    ensures Run(start, steps[..i])[i] == Run(start, steps)[i]
  {
    RunExtends(start, steps, i);
    RunExtends(start, steps, i + 1);
    assert steps[..i + 1][..i] == steps[..i];
    hide Execute;
  }

  /** Between any two moments of any run nothing has gone back. */
  lemma {:induction false} NothingGoesBack(start: Db, steps: seq<Step>, i: nat, j: nat)
    requires i <= j <= |steps|
    ensures Evolves(Run(start, steps)[i].db, Run(start, steps)[j].db)
    decreases j - i
  {
    hide *;
    if i == j {
      EvolvesReflexive(Run(start, steps)[i].db);
    } else {
      NothingGoesBack(start, steps, i, j - 1);
      StepOf(start, steps, j - 1);
      StepEvolves(Run(start, steps[..j - 1]), steps[j - 1]);
      EvolvesTransitive(Run(start, steps)[i].db, Run(start, steps)[j - 1].db, Run(start, steps)[j].db);
    }
  }

  /**
   The entitlement version decides the rows: two moments of a run at which a guild has the same
   version have the same rows of that guild.  Cached reads rest on this.
   */
  lemma SameVersionSameRows(start: Db, steps: seq<Step>, i: nat, j: nat, g: GuildId)
    requires i <= j <= |steps|
    requires var t := Run(start, steps);
             && g in t[i].db.guildVersion && g in t[j].db.guildVersion
             && t[i].db.guildVersion[g] == t[j].db.guildVersion[g]
    ensures SameGuildRows(Run(start, steps)[i].db, Run(start, steps)[j].db, g)
  {
    NothingGoesBack(start, steps, i, j);
    hide Run, SubscriptionsEvolve, EventsEvolve, LedgerEvolves, CheckoutsEvolve, CustomersEvolve, SameGuildRows;
  }

  /** Of two writers that expect the same version of a subscription, at most one commits. */
  lemma OneWriterPerVersion(start: Db, steps: seq<Step>, i: nat, j: nat, u: StateUpdate, v: StateUpdate, now: Time,
      later: Time)
    requires i < j <= |steps|
    requires ApplyState(Run(start, steps)[i].db, u, now) == Ok(Run(start, steps)[i + 1].db)
    requires v.subscription == u.subscription && v.expectedVersion == u.expectedVersion
    ensures ApplyState(Run(start, steps)[j].db, v, later).Err?
  {
    var a, b, c := Run(start, steps)[i].db, Run(start, steps)[i + 1].db, Run(start, steps)[j].db;
    NothingGoesBack(start, steps, i + 1, j);
    hide Run;
    LaterWriterRefused(a, b, c, u, v, now, later);
  }

  lemma LaterWriterRefused(a: Db, b: Db, c: Db, u: StateUpdate, v: StateUpdate, now: Time, later: Time)
    requires ApplyState(a, u, now) == Ok(b) && Evolves(b, c)
    requires v.subscription == u.subscription && v.expectedVersion == u.expectedVersion
    ensures ApplyState(c, v, later).Err?
  {
    ApplyShape(a, u, now, b);
    hide CommitError, Committed, ApplyState, GuildsEvolve, EventsEvolve, LedgerEvolves, CheckoutsEvolve,
         CustomersEvolve;
    StaleVersionRefused(c, v, later, b.subscriptions[u.subscription]);
  }

  lemma StaleVersionRefused(db: Db, v: StateUpdate, now: Time, earlier: Subscription)
    requires v.subscription in db.subscriptions && SubscriptionEvolves(earlier, db.subscriptions[v.subscription])
    requires v.expectedVersion < earlier.version
    ensures ApplyState(db, v, now).Err?
  {
    hide CommitError, Committed;
  }

  // ----- the status graph -----

  ghost predicate StatusesMoveInGraph(a: Db, b: Db) {
    forall id :: id in a.subscriptions && id in b.subscriptions ==>
           CanTransition(a.subscriptions[id].status, b.subscriptions[id].status)
  }

  /** No subscription outside the effective statuses comes back. */
  ghost predicate EndedStay(a: Db, b: Db) {
    forall id | id in a.subscriptions && id in b.subscriptions && !Effective(a.subscriptions[id].status) ::
      b.subscriptions[id].status == a.subscriptions[id].status
  }

  /** The failure path finds its subscription neither expired nor refunded. */
  predicate FailsEffective(db: Db, step: Step) {
    step.Fail? && FailCheckout(db, step.checkout, step.at).Ok? ==>
      Effective(db.subscriptions[db.checkouts[step.checkout].subscription].status)
  }

  /** Every failure of the run that was carried out found an effective subscription. */
  ghost predicate FailuresAreEffective(start: Db, steps: seq<Step>) {
    forall i | 0 <= i < |steps| :: FailsEffective(Run(start, steps)[i].db, steps[i])
  }

  ghost predicate RunsInGraph(start: Db, steps: seq<Step>) {
    forall i, j | 0 <= i < |steps| && j == i + 1 ::
           StatusesMoveInGraph(Run(start, steps)[i].db, Run(start, steps)[j].db)
  }

  ghost predicate EndedStayEnded(start: Db, steps: seq<Step>) {
    forall i, j | 0 <= i <= j <= |steps| :: EndedStay(Run(start, steps)[i].db, Run(start, steps)[j].db)
  }

  lemma GraphKeepsEnded(a: Db, b: Db)
    requires StatusesMoveInGraph(a, b)
    ensures EndedStay(a, b)
  {
    forall id | id in a.subscriptions && id in b.subscriptions && !Effective(a.subscriptions[id].status)
      ensures b.subscriptions[id].status == a.subscriptions[id].status
    {
      assert CanTransition(a.subscriptions[id].status, b.subscriptions[id].status);
    }
  }

  lemma SameStatusesInGraph(a: Db, b: Db)
    requires forall id | id in a.subscriptions && id in b.subscriptions ::
             b.subscriptions[id].status == a.subscriptions[id].status
    ensures StatusesMoveInGraph(a, b)
  {
  }

  lemma AppliedInGraph(db: Db, u: StateUpdate, now: Time, success: bool, receipt: Option<EventKey>)
    ensures StatusesMoveInGraph(db, ApplyMoment(db, u, now, success, receipt).db)
  {
    SameStatusesInGraph(db, db);
    var r := ApplyState(db, u, now);
    if r.Ok? {
      ApplyShape(db, u, now, r.value);
    }
    hide ApplyState;
  }

  lemma CommitInGraph(db: Db, seen: Db, key: EventKey, e: Event, p: Snapshot, graceDays: nat, before: bool)
    ensures StatusesMoveInGraph(db, CommitMoment(db, seen, key, e, p, graceDays, before).db)
  {
    SameStatusesInGraph(db, db);
    var target := Target(seen, e);
    hide Decide, ApplyMoment, Target, StatusesMoveInGraph;
    if target.Some? {
      if PartialRefundEvent(e) {
        SameStatusesInGraph(db, Quiet(db, RecordPartialRefund(db, target.value, key, e)).db);
      } else {
        AppliedInGraph(db, Decide(target.value, seen.subscriptions[target.value], key, e, p, graceDays, before),
                       e.occurredAt,
                       PaymentSignal(e, p), if PaidWithAmount(e) then Some(key) else None);
      }
    }
  }

  lemma SweepInGraph(db: Db, c: CheckoutId, seen: Checkout, s: Subscription, before: Time)
    ensures StatusesMoveInGraph(db, SweepCheckout(db, c, seen, s, before))
  {
    SweepWrites(db, c, seen, s, before);
    hide SweepCheckout;
  }

  lemma ReconcileInGraph(db: Db, id: SubscriptionId, seen: Subscription, p: Snapshot, graceDays: nat, now: Time)
    requires CommitSnapshot(db, id, seen, p, graceDays, now).Ok?
             && CommitSnapshot(db, id, seen, p, graceDays, now).value.Some?
    ensures StatusesMoveInGraph(db, CommitSnapshot(db, id, seen, p, graceDays, now).value.value)
  {
    hide StateFromSnapshot, ReconcileUpdate, StatusesMoveInGraph;
    AppliedInGraph(db, ReconcileUpdate(id, seen, p, StateFromSnapshot(seen.status, p, graceDays, now).value, now), now,
                   false, None);
  }

  /** Every step but the failure of a checkout moves statuses along the graph. */
  lemma StepInGraph(trace: seq<Moment>, step: Step)
    requires |trace| > 0 && !step.Fail?
    ensures StatusesMoveInGraph(trace[|trace| - 1].db, Execute(trace, step).db)
  {
    if EventStep(step) {
      EventStepInGraph(trace, step);
    } else {
      OtherStepInGraph(trace, step);
    }
    hide *;
  }

  lemma EventStepInGraph(trace: seq<Moment>, step: Step)
    requires EventStep(step)
    requires |trace| > 0 && !step.Fail?
    ensures StatusesMoveInGraph(trace[|trace| - 1].db, Execute(trace, step).db)
  {
    var db := trace[|trace| - 1].db;
    var db' := Execute(trace, step).db;
    SameStatusesInGraph(db, db);
    hide StatusesMoveInGraph, ApplyState, SweepCheckout, CommitMoment, BindingAccepted, BindingTaken, Target,
         Marks, ApplyMoment, CommitSnapshot, SlotOccupied, CheckoutOpen;
    match step
    case Commit(key, boundAt, readAt, countAt, p, graceDays) =>
      if key in db.events && boundAt <= readAt <= countAt < |trace| {
        var e := db.events[key].event;
        CommitInGraph(db, trace[readAt].db, key, e, p, graceDays, CountedPaid(trace[readAt].db, trace[countAt].db, e));
      }
    case _ => SameStatusesInGraph(db, db');
  }

  lemma OtherStepInGraph(trace: seq<Moment>, step: Step)
    requires !EventStep(step)
    requires |trace| > 0 && !step.Fail?
    ensures StatusesMoveInGraph(trace[|trace| - 1].db, Execute(trace, step).db)
  {
    var db := trace[|trace| - 1].db;
    var db' := Execute(trace, step).db;
    SameStatusesInGraph(db, db);
    hide StatusesMoveInGraph, ApplyState, SweepCheckout, CommitMoment, BindingAccepted, BindingTaken, Target,
         Marks, ApplyMoment, CommitSnapshot, SlotOccupied, CheckoutOpen;
    match step
    case Sweep(c, readAt, before) =>
      if readAt < |trace| && SweepFinds(trace[readAt].db, c, before) {
        var seen := trace[readAt].db;
        SweepInGraph(db, c, seen.checkouts[c], seen.subscriptions[seen.checkouts[c].subscription], before);
      }
    case Reconcile(id, readAt, p, graceDays, now) =>
      if readAt < |trace| && id in trace[readAt].db.subscriptions {
        var r := CommitSnapshot(db, id, trace[readAt].db.subscriptions[id], p, graceDays, now);
        if r.Ok? && r.value.Some? { ReconcileInGraph(db, id, trace[readAt].db.subscriptions[id], p, graceDays, now); }
      }
    case Suspend(id, readAt, version, now) => AppliedInGraph(db, StatusOnly(id, Suspended, version), now, false, None);
    case ExpireJob(id, readAt, expectedAt, now) =>
      if readAt < |trace| && id in trace[readAt].db.subscriptions {
        AppliedInGraph(db, ExpireUpdate(id, trace[readAt].db.subscriptions[id].version, expectedAt), now, false, None);
      }
    case _ => SameStatusesInGraph(db, db');
  }

  /** The unchecked status write of a failure is in the graph, and keeps what has ended, exactly on effective ones. */
  lemma FailureInGraphExactly(db: Db, step: Step)
    requires step.Fail?
    ensures var db' := Quiet(db, FailCheckout(db, step.checkout, step.at)).db;
            && (StatusesMoveInGraph(db, db') <==> FailsEffective(db, step))
            && (EndedStay(db, db') <==> FailsEffective(db, step))
  {
    SameStatusesInGraph(db, db);
    GraphKeepsEnded(db, db);
    if FailCheckout(db, step.checkout, step.at).Ok? {
      var db' := FailCheckout(db, step.checkout, step.at).value;
      var id := db.checkouts[step.checkout].subscription;
      assert db'.subscriptions[id].status == Cancelled;
      assert CanTransition(db.subscriptions[id].status, Cancelled) <==> Effective(db.subscriptions[id].status);
    }
    hide SlotOccupied;
  }

  lemma StepInGraphExactly(trace: seq<Moment>, step: Step)
    requires |trace| > 0
    ensures var db, db' := trace[|trace| - 1].db, Execute(trace, step).db;
            && (StatusesMoveInGraph(db, db') <==> FailsEffective(db, step))
            && (EndedStay(db, db') <==> FailsEffective(db, step))
  {
    if step.Fail? {
      FailureInGraphExactly(trace[|trace| - 1].db, step);
    } else {
      StepInGraph(trace, step);
      GraphKeepsEnded(trace[|trace| - 1].db, Execute(trace, step).db);
    }
    hide StatusesMoveInGraph, EndedStay, FailCheckout;
  }

  lemma MomentInGraphExactly(start: Db, steps: seq<Step>, i: nat)
    requires i < |steps|
    ensures var db, db' := Run(start, steps)[i].db, Run(start, steps)[i + 1].db;
            && (StatusesMoveInGraph(db, db') <==> FailsEffective(db, steps[i]))
            && (EndedStay(db, db') <==> FailsEffective(db, steps[i]))
  {
    StepOf(start, steps, i);
    StepInGraphExactly(Run(start, steps[..i]), steps[i]);
    hide *;
  }

  /**
   Every status write of a run is in the graph if and only if every checkout failure that was carried out
   found its subscription neither expired nor refunded: the failure path is the only writer that does not look.
   */
  lemma RunInGraphExactly(start: Db, steps: seq<Step>)
    ensures RunsInGraph(start, steps) <==> FailuresAreEffective(start, steps)
  {
    hide Run, StatusesMoveInGraph, FailsEffective;
    forall i | 0 <= i < |steps|
      ensures StatusesMoveInGraph(Run(start, steps)[i].db, Run(start, steps)[i + 1].db) <==>
              FailsEffective(Run(start, steps)[i].db, steps[i])
    {
      MomentInGraphExactly(start, steps, i);
    }
    if RunsInGraph(start, steps) {
      forall i | 0 <= i < |steps|
        ensures FailsEffective(Run(start, steps)[i].db, steps[i])
      {
        var j := i + 1;
        assert StatusesMoveInGraph(Run(start, steps)[i].db, Run(start, steps)[j].db);
      }
    }
  }

  lemma EndedTransitive(a: Db, b: Db, c: Db)
    requires EndedStay(a, b) && EndedStay(b, c) && SubscriptionsEvolve(a.subscriptions, b.subscriptions)
    ensures EndedStay(a, c)
  {
  }

  lemma {:induction false} EndedStayBetween(start: Db, steps: seq<Step>, i: nat, j: nat)
    requires FailuresAreEffective(start, steps) && i <= j <= |steps|
    ensures EndedStay(Run(start, steps)[i].db, Run(start, steps)[j].db)
    decreases j - i
  {
    hide Run, EndedStay, FailsEffective, SubscriptionsEvolve;
    var t := Run(start, steps);
    if i == j {
      assert EndedStay(t[i].db, t[i].db) by { SameStatusesInGraph(t[i].db, t[i].db);
                                             GraphKeepsEnded(t[i].db, t[i].db); }
    } else {
      EndedStayBetween(start, steps, i, j - 1);
      MomentInGraphExactly(start, steps, j - 1);
      NothingGoesBack(start, steps, i, j - 1);
      EndedTransitive(t[i].db, t[j - 1].db, t[j].db);
    }
  }

  /** Expired and Refunded are never left in a run if and only if every failure found an effective subscription. */
  lemma EndedStayEndedExactly(start: Db, steps: seq<Step>)
    ensures EndedStayEnded(start, steps) <==> FailuresAreEffective(start, steps)
  {
    hide Run, EndedStay, FailsEffective;
    if FailuresAreEffective(start, steps) {
      forall i, j | 0 <= i <= j <= |steps|
        ensures EndedStay(Run(start, steps)[i].db, Run(start, steps)[j].db)
      {
        EndedStayBetween(start, steps, i, j);
      }
    }
    if EndedStayEnded(start, steps) {
      forall i | 0 <= i < |steps|
        ensures FailsEffective(Run(start, steps)[i].db, steps[i])
      {
        var j := i + 1;
        assert EndedStay(Run(start, steps)[i].db, Run(start, steps)[j].db);
        MomentInGraphExactly(start, steps, i);
      }
    }
  }
}
