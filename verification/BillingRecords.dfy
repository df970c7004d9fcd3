/** What the record of a subscription says about its cancellation, at every moment of every run. */
module BillingRecords {
  import opened Common
  import opened Lifecycle
  import opened BillingModel
  import opened ProviderEvents
  import opened BillingSteps
  import opened BillingHistory
  import opened BillingTheorems

  /** A scheduled cancellation is flagged, dated, and has the period end at which it takes effect. */
  predicate CancellationRecorded(s: Subscription) {
    s.cancellation.Scheduled? ==> s.cancelAtPeriodEnd && s.cancelledAt.Some? && s.periodEnd.Some?
  }

  ghost predicate AllRecorded(subscriptions: map<SubscriptionId, Subscription>) {
    forall id :: id in subscriptions ==> CancellationRecorded(subscriptions[id])
  }

  /** The update writes the cancellation completely, or leaves all of it alone. */
  predicate WritesCancellation(u: StateUpdate) {
    if u.cancellation.Keep? then u.cancelAtPeriodEnd.Keep? && u.cancelledAt != Put(None) && u.periodEnd != Put(None)
    else if u.cancellation.value.Scheduled? then
      u.cancelAtPeriodEnd == Put(true) && u.cancelledAt.Put? && u.cancelledAt.value.Some? && u.periodEnd.Put?
        && u.periodEnd.value.Some?
    else true
  }

  lemma EventsWriteCancellation(id: SubscriptionId, s: Subscription, key: EventKey, e: Event, p: Snapshot,
      graceDays: nat, before: bool)
    ensures WritesCancellation(Decide(id, s, key, e, p, graceDays, before))
  {
  }

  lemma SnapshotsWriteCancellation(id: SubscriptionId, s: Subscription, p: Snapshot, graceDays: nat, now: Time)
    requires StateFromSnapshot(s.status, p, graceDays, now).Ok?
    ensures WritesCancellation(ReconcileUpdate(id, s, p, StateFromSnapshot(s.status, p, graceDays, now).value, now))
  {
  }

  lemma AppliedKeepsRecords(db: Db, u: StateUpdate, now: Time)
    requires AllRecorded(db.subscriptions) && WritesCancellation(u)
    ensures ApplyState(db, u, now).Ok? ==> AllRecorded(ApplyState(db, u, now).value.subscriptions)
  {
    if ApplyState(db, u, now).Ok? {
      ApplyShape(db, u, now, ApplyState(db, u, now).value);
    }
    hide ApplyState;
  }

  lemma CommitKeepsRecords(db: Db, seen: Db, key: EventKey, e: Event, p: Snapshot, graceDays: nat, before: bool)
    requires AllRecorded(db.subscriptions)
    ensures AllRecorded(CommitMoment(db, seen, key, e, p, graceDays, before).db.subscriptions)
  {
    if Target(seen, e).Some? {
      TargetExists(seen, e);
      var id := Target(seen, e).value;
      var u := Decide(id, seen.subscriptions[id], key, e, p, graceDays, before);
      EventsWriteCancellation(id, seen.subscriptions[id], key, e, p, graceDays, before);
      AppliedKeepsRecords(db, u, e.occurredAt);
    }
    hide Target, Decide, ApplyState, AllRecorded, WritesCancellation;
  }

  lemma ReconcileKeepsRecords(db: Db, id: SubscriptionId, seen: Subscription, p: Snapshot, graceDays: nat, now: Time)
    requires AllRecorded(db.subscriptions)
    ensures var r := CommitSnapshot(db, id, seen, p, graceDays, now);
            r.Ok? && r.value.Some? ==> AllRecorded(r.value.value.subscriptions)
  {
    var d := StateFromSnapshot(seen.status, p, graceDays, now);
    if d.Ok? {
      SnapshotsWriteCancellation(id, seen, p, graceDays, now);
      AppliedKeepsRecords(db, ReconcileUpdate(id, seen, p, d.value, now), now);
    }
    hide StateFromSnapshot, ReconcileUpdate, ApplyState, AllRecorded, WritesCancellation;
  }

  lemma BindKeepsRecords(db: Db, seen: Db, e: Event)
    requires AllRecorded(db.subscriptions)
    ensures BindRead(db, seen, e).Ok? ==> AllRecorded(BindRead(db, seen, e).value.subscriptions)
  {
    hide BindingAccepted, BindingTaken, CustomerAccepted;
  }

  lemma StepKeepsRecords(trace: seq<Moment>, step: Step)
    requires |trace| > 0 && AllRecorded(trace[|trace| - 1].db.subscriptions)
    ensures AllRecorded(Execute(trace, step).db.subscriptions)
  {
    var db := trace[|trace| - 1].db;
    if EventStep(step) && !step.BindEvent? && !step.Commit? {
      EventBookkeeping(trace, step);
      hide *;
      return;
    }
    hide Target, SlotOccupied, CheckoutOpen, BindRead, ApplyState, CommitMoment, CommitSnapshot, WritesCancellation;
    match step {
      case BindEvent(key, readAt) =>
        if key in db.events && readAt < |trace| {
          BindKeepsRecords(db, trace[readAt].db, db.events[key].event);
        }
      case Commit(key, boundAt, readAt, countAt, p, graceDays) =>
        if key in db.events && boundAt <= readAt <= countAt < |trace| {
          var e := db.events[key].event;
          CommitKeepsRecords(db, trace[readAt].db, key, e, p, graceDays,
                             CountedPaid(trace[readAt].db, trace[countAt].db, e));
        }
      case Reconcile(id, readAt, p, graceDays, now) =>
        if readAt < |trace| && id in trace[readAt].db.subscriptions {
          ReconcileKeepsRecords(db, id, trace[readAt].db.subscriptions[id], p, graceDays, now);
        }
      case Suspend(id, _, version, now) =>
        StatusKeepsCancellation(id, Suspended, version);
        AppliedKeepsRecords(db, StatusOnly(id, Suspended, version), now);
      case ExpireJob(id, readAt, at, now) =>
        if readAt < |trace| && id in trace[readAt].db.subscriptions {
          var version := trace[readAt].db.subscriptions[id].version;
          ExpiryWritesCancellation(id, version, at);
          AppliedKeepsRecords(db, ExpireUpdate(id, version, at), now);
        }
      case _ =>
    }
  }

  lemma StatusKeepsCancellation(id: SubscriptionId, next: Status, version: nat)
    ensures WritesCancellation(StatusOnly(id, next, version))
  {
  }

  lemma ExpiryWritesCancellation(id: SubscriptionId, version: nat, at: Time)
    ensures WritesCancellation(ExpireUpdate(id, version, at))
  {
  }

  /**
   At every moment of every run a subscription whose cancellation is scheduled carries the flag, the date
   of the cancellation and the period end: every writer writes these together or not at all.
   */
  lemma {:induction false} ScheduledCancellationIsRecorded(start: Db, steps: seq<Step>, id: SubscriptionId)
    requires Fresh(start) && id in Run(start, steps)[|steps|].db.subscriptions
    ensures CancellationRecorded(Run(start, steps)[|steps|].db.subscriptions[id])
  {
    RunKeepsRecords(start, steps);
    hide Run;
  }

  lemma {:induction false} RunKeepsRecords(start: Db, steps: seq<Step>)
    requires Fresh(start)
    ensures AllRecorded(Run(start, steps)[|steps|].db.subscriptions)
  {
    if steps != [] {
      var shorter := steps[..|steps| - 1];
      RunKeepsRecords(start, shorter);
      hide Execute, AllRecorded, Fresh;
      StepKeepsRecords(Run(start, shorter), steps[|steps| - 1]);
    }
  }

  /**
   The flag alone does not imply the schedule: a snapshot that asks for cancellation at the period end
   without naming that end sets the flag and schedules nothing.
   */
  lemma FlagWithoutSchedule(id: SubscriptionId, s: Subscription, p: Snapshot, graceDays: nat, now: Time)
    requires StateFromSnapshot(s.status, p, graceDays, now).Ok?
    ensures var s' := Updated(s, ReconcileUpdate(id, s, p, StateFromSnapshot(s.status, p, graceDays, now).value, now));
            s'.cancelAtPeriodEnd == s'.cancellation.Scheduled? <==> (p.cancelAtPeriodEnd ==> p.periodEnd.Some?)
  {
  }
}
