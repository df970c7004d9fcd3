/**
 The services and the runs speak of the same system: whatever a call of a service does when nobody else writes
 meanwhile, the steps of its queries and transactions do in a run.
 */
module UndisturbedRuns {
  import opened Common
  import opened Lifecycle
  import opened BillingModel
  import opened ProviderEvents
  import opened BillingSteps
  import opened BillingHistory
  import opened BillingApplications
  import Effects = EventEffects
  import Store = BillingStore

  /** What the run has come to. */
  ghost function Now(start: Db, steps: seq<Step>): Db {
    Last(Run(start, steps))
  }

  lemma OneMore(start: Db, steps: seq<Step>, step: Step)
    ensures Run(start, steps + [step]) == Run(start, steps) + [Execute(Run(start, steps), step)]
    ensures Now(start, steps + [step]) == Execute(Run(start, steps), step).db
  {
    assert (steps + [step])[..|steps|] == steps;
    hide Execute;
  }

  lemma OneThenOne(steps: seq<Step>, first: Step, second: Step)
    ensures steps + [first, second] == steps + [first] + [second]
  {
  }

  // ----- webhooks -----

  /** The steps that a webhook takes before it is bound. */
  function Announced(db: Db, key: EventKey, e: Event): seq<Step> {
    if key in db.events then [Begin(key)] else [Receive(key, e), Begin(key)]
  }

  function Started(db: Db, key: EventKey, e: Event): Db {
    db.(events := db.events[key := EventRecord(e, Processing, if key in db.events then db.events[key].attempts else 0)])
  }

  lemma ReceiveStep(trace: seq<Moment>, key: EventKey, e: Event)
    requires |trace| > 0 && key !in Last(trace).events && e.provider == key.provider
    ensures Execute(trace, Receive(key, e)).db
            == Last(trace).(events := Last(trace).events[key := EventRecord(e, Received, 0)])
  {
  }

  lemma BeginStep(trace: seq<Moment>, key: EventKey)
    requires |trace| > 0 && key in Last(trace).events
    ensures var db := Last(trace);
            Execute(trace, Begin(key)).db
            == db.(events := db.events[key := EventRecord(db.events[key].event, Processing, db.events[key].attempts)])
  {
  }

  lemma AnnouncedStarts(start: Db, steps: seq<Step>, key: EventKey, e: Event)
    requires e.provider == key.provider
    requires var db := Now(start, steps); key in db.events ==> db.events[key].event == e
    ensures var db := Now(start, steps); Now(start, steps + Announced(db, key, e)) == Started(db, key, e)
  {
    var db := Now(start, steps);
    hide Run, Execute;
    if key in db.events {
      OneMore(start, steps, Begin(key));
      BeginStep(Run(start, steps), key);
    } else {
      OneMore(start, steps, Receive(key, e));
      ReceiveStep(Run(start, steps), key, e);
      OneMore(start, steps + [Receive(key, e)], Begin(key));
      BeginStep(Run(start, steps + [Receive(key, e)]), key);
      OneThenOne(steps, Receive(key, e), Begin(key));
    }
  }

  /** Binding, with the tables read right before. */
  lemma BindStep(start: Db, steps: seq<Step>, key: EventKey)
    requires key in Now(start, steps).events
    ensures var db, m := Now(start, steps), Execute(Run(start, steps), BindEvent(key, |steps|));
            var r := Bind(db, db.events[key].event);
            m == if r.Ok? then Moment(r.value, BoundEvent(key)) else Moment(db, Nothing)
  {
    hide BindRead;
  }

  /** Committing, with everything read right after the binding. */
  lemma CommitStep(start: Db, steps: seq<Step>, key: EventKey, p: Snapshot, graceDays: nat, id: SubscriptionId)
    requires var t := Run(start, steps);
             && key in Last(t).events && t[|steps|].note == BoundEvent(key)
             && Target(Last(t), Last(t).events[key].event) == Some(id)
    ensures var db := Now(start, steps);
            var n, e := |steps|, db.events[key].event;
            var m := Execute(Run(start, steps), Commit(key, n, n, n, p, graceDays));
            id in db.subscriptions &&
            var r := CommitEvent(db, id, db.subscriptions[id], key, e, p, graceDays, HasSucceeded(db.ledger, id));
            && m.db == (if r.Ok? then r.value else db)
            && (r.Ok? && !PartialRefundEvent(e) ==>
                  m.note.Applied? && m.note.event == Some(key) && m.note.id == id && id in m.db.subscriptions)
  {
    var db := Now(start, steps);
    var e := db.events[key].event;
    var before := HasSucceeded(db.ledger, id);
    assert CountedPaid(db, db, e) == before;
    if !PartialRefundEvent(e) {
      Effects.DecideAddresses(id, db.subscriptions[id], key, e, p, graceDays, before);
      var r := ApplyState(db, Decide(id, db.subscriptions[id], key, e, p, graceDays, before), e.occurredAt);
      if r.Ok? {
        ApplyShape(db, Decide(id, db.subscriptions[id], key, e, p, graceDays, before), e.occurredAt, r.value);
      }
    }
    hide ApplyState, Decide, HasSucceeded, Target, RecordPartialRefund, Run;
  }

  /** Closing the checkouts right after the commit. */
  lemma CloseStep(start: Db, steps: seq<Step>, step: Step, key: EventKey, id: SubscriptionId)
    requires var m := Execute(Run(start, steps), step);
             && m.note.Applied? && m.note.event == Some(key) && m.note.id == id
             && id in Now(start, steps).subscriptions && id in m.db.subscriptions && key in m.db.events
    ensures var db, m := Now(start, steps), Execute(Run(start, steps), step);
            Now(start, steps + [step, Close(key, |steps| + 1)])
            == Settle(m.db, id, m.db.events[key].event, db.subscriptions[id].status, m.db.subscriptions[id].status)
  {
    OneMore(start, steps, step);
    OneMore(start, steps + [step], Close(key, |steps| + 1));
    OneThenOne(steps, step, Close(key, |steps| + 1));
    var t := Run(start, steps);
    var m := Execute(t, step);
    assert Run(start, steps + [step])[|steps|] == t[|steps|];
    hide Run;
    ClosesFor(t, m, key);
  }

  lemma ClosesFor(t: seq<Moment>, m: Moment, key: EventKey)
    requires |t| > 0 && CommittedFor(Last(t), m, key) && key in m.db.events
    ensures var id := m.note.id;
            Execute(t + [m], Close(key, |t|)).db
            == Settle(m.db, id, m.db.events[key].event, Last(t).subscriptions[id].status, m.db.subscriptions[id].status)
  {
    hide Settle;
  }

  lemma GiveUpStep(start: Db, steps: seq<Step>, key: EventKey)
    requires key in Now(start, steps).events
    ensures var db := Now(start, steps);
            Now(start, steps + [GiveUp(key)])
            == db.(events := db.events[key := EventRecord(db.events[key].event, ProcessingFailed,
                                                          db.events[key].attempts + 1)])
  {
    OneMore(start, steps, GiveUp(key));
    hide Run;
  }

  /** The steps after a successful binding: the commit, and the closing of the checkouts if it was applied. */
  lemma CommittingIsARun(start: Db, bound: seq<Step>, key: EventKey, p: Snapshot, graceDays: nat, id: SubscriptionId)
    returns (more: seq<Step>)
    requires var t := Run(start, bound);
             && key in Last(t).events && t[|bound|].note == BoundEvent(key)
             && Target(Last(t), Last(t).events[key].event) == Some(id)
    ensures forall step :: step in more ==> EventStep(step)
    ensures var b := Now(start, bound);
            var e := b.events[key].event;
            id in b.subscriptions &&
            var r := CommitEvent(b, id, b.subscriptions[id], key, e, p, graceDays, HasSucceeded(b.ledger, id));
            && (r.Err? ==> Now(start, bound + more) == b)
            && (r.Ok? && PartialRefundEvent(e) ==> Now(start, bound + more) == r.value)
            && (r.Ok? && !PartialRefundEvent(e) ==>
                  && id in r.value.subscriptions
                  && Now(start, bound + more)
                     == Settle(r.value, id, e, b.subscriptions[id].status, r.value.subscriptions[id].status))
  {
    var b, n := Now(start, bound), |bound|;
    var e := b.events[key].event;
    var commit := Commit(key, n, n, n, p, graceDays);
    CommitStep(start, bound, key, p, graceDays, id);
    OneMore(start, bound, commit);
    hide Run, Execute, Target, HasSucceeded, Settle;
    var before := HasSucceeded(b.ledger, id);
    var r := CommitEvent(b, id, b.subscriptions[id], key, e, p, graceDays, before);
    more := [commit];
    if r.Ok? && !PartialRefundEvent(e) {
      CommitKeepsEvent(b, id, b.subscriptions[id], key, e, p, graceDays, before);
      hide CommitEvent, Now;
      CloseStep(start, bound, commit, key, id);
      more := [commit, Close(key, n + 1)];
    }
    hide CommitEvent;
  }

  /** The steps that a webhook takes once it is announced, and what they leave. */
  lemma ProcessingIsARun(start: Db, steps: seq<Step>, key: EventKey, e: Event, p: Snapshot, graceDays: nat)
    returns (more: seq<Step>)
    requires key in Now(start, steps).events && Now(start, steps).events[key].event == e
    ensures Now(start, steps + more) == ProcessEvent(Now(start, steps), key, e, p, graceDays).db
    ensures forall step :: step in more ==> EventStep(step)
  {
    var db := Now(start, steps);
    var bind := BindEvent(key, |steps|);
    var bound := steps + [bind];
    OneMore(start, steps, bind);
    BindStep(start, steps, key);
    hide Run, Execute, Bind, CommitEvent, HasSucceeded, Settle, Target;
    if Bind(db, e).Err? {
      assert steps + [] == steps;
      return [];
    }
    var b := Bind(db, e).value;
    BindKeepsEvents(db, e);
    if Target(b, e).None? {
      return [bind];
    }
    assert Now(start, bound) == b && Run(start, bound)[|bound|].note == BoundEvent(key);
    var rest := CommittingIsARun(start, bound, key, p, graceDays, Target(b, e).value);
    Associative(steps, [bind], rest);
    hide Now, PartialRefundEvent;
    more := [bind] + rest;
  }

  lemma BindKeepsEvents(db: Db, e: Event)
    requires Bind(db, e).Ok?
    ensures Bind(db, e).value.events == db.events
  {
    hide BindingAccepted, BindingTaken, CustomerAccepted;
  }

  lemma CommitKeepsEvent(db: Db, id: SubscriptionId, seen: Subscription, key: EventKey, e: Event, p: Snapshot,
      graceDays: nat, before: bool)
    requires CommitEvent(db, id, seen, key, e, p, graceDays, before).Ok? && !PartialRefundEvent(e) && key in db.events
    ensures var db' := CommitEvent(db, id, seen, key, e, p, graceDays, before).value;
            key in db'.events && db'.events[key].event == db.events[key].event
  {
    var u := Decide(id, seen, key, e, p, graceDays, before);
    ApplyShape(db, u, e.occurredAt, CommitEvent(db, id, seen, key, e, p, graceDays, before).value);
    hide ApplyState, Decide;
  }

  /** A webhook that nobody disturbs is a run of its steps: received, begun, bound, committed, closed or given up. */
  lemma WebhookIsARun(start: Db, steps: seq<Step>, key: EventKey, e: Event, p: Snapshot, graceDays: nat)
    returns (more: seq<Step>)
    requires e.provider == key.provider
    ensures Now(start, steps + more) == Ingest(Now(start, steps), key, e, p, graceDays).db
    ensures forall step :: step in more ==> EventStep(step)
  {
    var db := Now(start, steps);
    hide Run, Execute;
    if key in db.events && (db.events[key].event != e || db.events[key].progress in {Processed, Ignored, Processing}) {
      assert steps + [] == steps;
      return [];
    }
    AnnouncedStarts(start, steps, key, e);
    var begun := steps + Announced(db, key, e);
    var done := ProcessEvent(Started(db, key, e), key, e, p, graceDays);
    var processing := ProcessingIsARun(start, begun, key, e, p, graceDays);
    more := Announced(db, key, e) + processing;
    assert begun + processing == steps + more;
    if done.error.Some? {
      assert key in done.db.events && done.db.events[key] == Started(db, key, e).events[key] by {
        FailedKeepsEvents(Started(db, key, e), key, e, p, graceDays);
      }
      GiveUpStep(start, steps + more, key);
      assert (steps + more) + [GiveUp(key)] == steps + (more + [GiveUp(key)]);
      more := more + [GiveUp(key)];
    }
    hide ProcessEvent, Now;
  }

  lemma FailedKeepsEvents(db: Db, key: EventKey, e: Event, p: Snapshot, graceDays: nat)
    requires ProcessEvent(db, key, e, p, graceDays).error.Some?
    ensures ProcessEvent(db, key, e, p, graceDays).db.events == db.events
  {
    if Bind(db, e).Ok? {
      BindKeepsEvents(db, e);
    }
    hide Bind, CommitEvent;
  }

  // ----- the jobs -----

  /** Reconciling a subscription that was read right before is one step. */
  lemma ReconciliationIsAStep(start: Db, steps: seq<Step>, id: SubscriptionId, p: Snapshot, graceDays: nat, now: Time)
    ensures var m := Execute(Run(start, steps), Reconcile(id, |steps|, p, graceDays, now));
            var done := Store.Reconciled(Now(start, steps), id, p, graceDays, now);
            && m.db == done.db
            && (Reconciles(m, id) <==> done.error.None?)
  {
    hide CommitSnapshot;
  }

  lemma MarkedAfter(start: Db, steps: seq<Step>, step: Step, key: EventKey, id: SubscriptionId)
    requires var db, m := Now(start, steps), Execute(Run(start, steps), step);
             && Retriable(db, key) && Reconciles(m, id) && m.db.events == db.events
             && BoundSubscription(db, key.provider, db.events[key].event.subscription) == Some(id)
    ensures var m, n := Execute(Run(start, steps), step), |steps|;
            && key in m.db.events
            && Now(start, steps + [step, MarkRetried(key, n, n, n + 1)])
               == m.db.(events := MarkProcessed(m.db.events, key))
  {
    hide Run, Execute, BoundSubscription, Retriable, Reconciles, MarkProcessed;
    var mark := MarkRetried(key, |steps|, |steps|, |steps| + 1);
    OneMore(start, steps, step);
    OneMore(start, steps + [step], mark);
    OneThenOne(steps, step, mark);
    MarkStep(Run(start, steps), Execute(Run(start, steps), step), key, id);
  }

  /** The retry job is the reconciliation of the subscription that the event names, and the mark. */
  lemma RetryIsARun(start: Db, steps: seq<Step>, key: EventKey, p: Snapshot, graceDays: nat, now: Time)
    returns (more: seq<Step>)
    ensures Now(start, steps + more) == Store.Retried(Now(start, steps), key, p, graceDays, now).db
    ensures forall step :: step in more ==> step.Reconcile? || step.MarkRetried?
  {
    hide Run, Execute, BoundSubscription;
    var db, n := Now(start, steps), |steps|;
    assert steps + [] == steps;
    if !Retriable(db, key) {
      return [];
    }
    var found := BoundSubscription(db, key.provider, db.events[key].event.subscription);
    if found.None? {
      return [];
    }
    var reconcile := Reconcile(found.value, n, p, graceDays, now);
    OneMore(start, steps, reconcile);
    ReconciliationIsAStep(start, steps, found.value, p, graceDays, now);
    Store.ReconcileKeepsEvents(db, found.value, p, graceDays, now);
    hide Now, Store.Reconciled, Reconciles;
    more := [reconcile];
    if Store.Reconciled(db, found.value, p, graceDays, now).error.None? {
      MarkedAfter(start, steps, reconcile, key, found.value);
      more := [reconcile, MarkRetried(key, n, n, n + 1)];
    }
  }

  lemma MarkStep(t: seq<Moment>, m: Moment, key: EventKey, id: SubscriptionId)
    requires |t| > 0 && Retriable(Last(t), key) && Reconciles(m, id) && m.db.events == Last(t).events
    requires BoundSubscription(Last(t), key.provider, Last(t).events[key].event.subscription) == Some(id)
    ensures key in m.db.events
    ensures Execute(t + [m], MarkRetried(key, |t| - 1, |t| - 1, |t|)).db
            == m.db.(events := MarkProcessed(m.db.events, key))
  {
    hide BoundSubscription;
  }

  /** The queued expiry is one step, of the kind that its provider asks for. */
  lemma ExpiryIsAStep(start: Db, steps: seq<Step>, id: SubscriptionId, g: GuildId, expectedAt: Time, p: Snapshot,
      graceDays: nat, now: Time)
    requires id in Now(start, steps).subscriptions && Now(start, steps).subscriptions[id].guild == g
    ensures var db, t := Now(start, steps), Run(start, steps);
            Store.Expiry(db, id, g, expectedAt, p, graceDays, now).db
            == if db.subscriptions[id].provider == Stripe then Execute(t, Reconcile(id, |steps|, p, graceDays, now)).db
               else Execute(t, ExpireJob(id, |steps|, expectedAt, now)).db
  {
    if Now(start, steps).subscriptions[id].provider == Stripe {
      ReconciliationIsAStep(start, steps, id, p, graceDays, now);
      hide Execute;
    }
    hide ApplyState, Store.Reconciled;
  }

  /** The steps of the sweep over what one query found. */
  function SweepSteps(found: seq<CheckoutId>, readAt: nat, before: Time): (steps: seq<Step>)
    ensures |steps| == |found|
  {
    seq(|found|, i requires 0 <= i < |found| => Sweep(found[i], readAt, before))
  }

  lemma SweepStep(t: seq<Moment>, readAt: nat, c: CheckoutId, before: Time)
    requires readAt < |t| && SweepFinds(t[readAt].db, c, before)
    ensures var seen := t[readAt].db;
            Execute(t, Sweep(c, readAt, before)).db
            == SweepCheckout(Last(t), c, seen.checkouts[c], seen.subscriptions[seen.checkouts[c].subscription], before)
  {
    hide SweepCheckout;
  }

  /** The sweep is one step for each checkout that its query found. */
  lemma {:induction false} SweepIsARun(start: Db, steps: seq<Step>, found: seq<CheckoutId>, before: Time)
    requires forall c :: c in found ==> SweepFinds(Now(start, steps), c, before)
    ensures Now(start, steps + SweepSteps(found, |steps|, before))
            == Store.SweptAll(Now(start, steps), found, before)
  {
    var db := Now(start, steps);
    if found == [] {
      assert steps + SweepSteps(found, |steps|, before) == steps;
    } else {
      var k := |found| - 1;
      var front, c := found[..k], found[k];
      SweepIsARun(start, steps, front, before);
      var swept := steps + SweepSteps(front, |steps|, before);
      assert steps + SweepSteps(found, |steps|, before) == swept + [Sweep(c, |steps|, before)];
      assert SweepFinds(db, c, before);
      hide Run, Execute, SweepCheckout, SweepFinds, SweepSteps;
      OneMore(start, swept, Sweep(c, |steps|, before));
      RunExtends(start, swept, |steps|);
      assert swept[..|steps|] == steps && Run(start, swept)[|steps|].db == db;
      SweepStep(Run(start, swept), |steps|, c, before);
    }
  }
}
