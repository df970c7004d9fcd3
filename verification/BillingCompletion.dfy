/** A checkout is completed only for a subscription that was paid for. */
module BillingCompletion {
  import opened Common
  import opened Lifecycle
  import opened BillingModel
  import opened ProviderEvents
  import opened BillingSteps
  import opened BillingHistory
  import opened BillingInvariants
  import opened BillingTheorems

  /** A completed checkout belongs to a subscription for which a payment was reported. */
  ghost predicate CompletedArePaid(checkouts: map<CheckoutId, Checkout>, paid: set<SubscriptionId>) {
    forall c :: c in checkouts && checkouts[c].state.Completed? ==> checkouts[c].subscription in paid
  }

  /** Whatever checkout is completed was so before. */
  ghost predicate CompletesNothing(a: map<CheckoutId, Checkout>, b: map<CheckoutId, Checkout>) {
    forall c :: c in b && b[c].state.Completed? ==>
           c in a && a[c].state.Completed? && a[c].subscription == b[c].subscription
  }

  /** The steps that write checkouts are those of the checkout itself, and closing after an event. */
  predicate WritesCheckouts(step: Step) {
    step.Open? || step.Ready? || step.Fail? || step.Sweep? || step.Close?
  }

  lemma OthersKeepCheckouts(trace: seq<Moment>, step: Step)
    requires |trace| > 0 && !WritesCheckouts(step)
    ensures Execute(trace, step).db.checkouts == trace[|trace| - 1].db.checkouts
  {
    var db := trace[|trace| - 1].db;
    hide ApplyState, CommitMoment, CommitSnapshot, Target, Marks, BindRead, GrantPromotion, RevokePromotion;
    match step {
      case BindEvent(key, readAt) =>
        if key in db.events && readAt < |trace| {
          BindKeepsCheckouts(db, trace[readAt].db, db.events[key].event);
        }
      case Promote(g, reference, featureSet, now, endsAt) =>
        GrantKeepsCheckouts(db, g, reference, featureSet, now, endsAt);
      case Demote(g, reference, now) => RevokeKeepsCheckouts(db, g, reference, now);
      case Commit(key, boundAt, readAt, countAt, p, graceDays) =>
        if key in db.events && boundAt <= readAt <= countAt < |trace| {
          var e := db.events[key].event;
          CommitKeepsCheckouts(db, trace[readAt].db, key, e, p, graceDays,
                               CountedPaid(trace[readAt].db, trace[countAt].db, e));
        }
      case Reconcile(id, readAt, p, graceDays, now) =>
        if readAt < |trace| && id in trace[readAt].db.subscriptions {
          ReconcileKeepsCheckouts(db, id, trace[readAt].db.subscriptions[id], p, graceDays, now);
        }
      case Suspend(id, _, version, now) => AppliedKeepsCheckouts(db, StatusOnly(id, Suspended, version), now);
      case ExpireJob(id, readAt, at, now) =>
        if readAt < |trace| && id in trace[readAt].db.subscriptions {
          AppliedKeepsCheckouts(db, ExpireUpdate(id, trace[readAt].db.subscriptions[id].version, at), now);
        }
      case _ =>
    }
  }

  /** Only closing after an event completes a checkout. */
  lemma OnlyClosingCompletes(trace: seq<Moment>, step: Step)
    requires |trace| > 0 && !step.Close?
    ensures CompletesNothing(trace[|trace| - 1].db.checkouts, Execute(trace, step).db.checkouts)
  {
    var db := trace[|trace| - 1].db;
    if !WritesCheckouts(step) {
      OthersKeepCheckouts(trace, step);
      hide Execute;
    } else if step.Sweep? {
      hide SweepCheckout, CompletesNothing;
      var c, readAt, before := step.checkout, step.readAt, step.before;
      if readAt < |trace| && SweepFinds(trace[readAt].db, c, before) {
        var seen := trace[readAt].db;
        SweepCompletesNothing(db, c, seen.checkouts[c], seen.subscriptions[seen.checkouts[c].subscription], before);
      } else {
        assert CompletesNothing(db.checkouts, db.checkouts) by { NothingCompleted(db.checkouts); }
      }
    } else {
      hide SlotOccupied, CheckoutOpen;
    }
  }

  lemma NothingCompleted(checkouts: map<CheckoutId, Checkout>)
    ensures CompletesNothing(checkouts, checkouts)
  {
  }

  lemma SweepCompletesNothing(db: Db, c: CheckoutId, seen: Checkout, s: Subscription, before: Time)
    ensures CompletesNothing(db.checkouts, SweepCheckout(db, c, seen, s, before).checkouts)
  {
  }

  lemma BindKeepsCheckouts(db: Db, seen: Db, e: Event)
    ensures BindRead(db, seen, e).Ok? ==> BindRead(db, seen, e).value.checkouts == db.checkouts
  {
    hide BindingAccepted, BindingTaken, CustomerAccepted;
  }

  lemma GrantKeepsCheckouts(db: Db, g: GuildId, reference: nat, featureSet: nat, now: Time, endsAt: Time)
    ensures var db' := Quiet(db, GrantPromotion(db, g, reference, featureSet, now, endsAt)).db;
            db'.checkouts == db.checkouts && db'.events == db.events
  {
  }

  lemma RevokeKeepsCheckouts(db: Db, g: GuildId, reference: nat, now: Time)
    ensures var db' := Quiet(db, RevokePromotion(db, g, reference, now)).db;
            db'.checkouts == db.checkouts && db'.events == db.events
  {
  }

  lemma CommitKeepsCheckouts(db: Db, seen: Db, key: EventKey, e: Event, p: Snapshot, graceDays: nat, before: bool)
    ensures CommitMoment(db, seen, key, e, p, graceDays, before).db.checkouts == db.checkouts
  {
    if Target(seen, e).Some? {
      var id := Target(seen, e).value;
      TargetExists(seen, e);
      AppliedKeepsCheckouts(db, Decide(id, seen.subscriptions[id], key, e, p, graceDays, before), e.occurredAt);
    }
    hide Target, Decide, ApplyState;
  }

  lemma ReconcileKeepsCheckouts(db: Db, id: SubscriptionId, seen: Subscription, p: Snapshot, graceDays: nat, now: Time)
    ensures var r := CommitSnapshot(db, id, seen, p, graceDays, now);
            r.Ok? && r.value.Some? ==> r.value.value.checkouts == db.checkouts
  {
    var d := StateFromSnapshot(seen.status, p, graceDays, now);
    if d.Ok? {
      AppliedKeepsCheckouts(db, ReconcileUpdate(id, seen, p, d.value, now), now);
    }
    hide StateFromSnapshot, ReconcileUpdate, ApplyState;
  }

  lemma AppliedKeepsCheckouts(db: Db, u: StateUpdate, now: Time)
    ensures ApplyState(db, u, now).Ok? ==> ApplyState(db, u, now).value.checkouts == db.checkouts
  {
    if ApplyState(db, u, now).Ok? {
      ApplyShape(db, u, now, ApplyState(db, u, now).value);
    }
    hide ApplyState;
  }

  lemma {:induction false} PaidForGood(trace: seq<Moment>, i: nat, id: SubscriptionId)
    requires i <= |trace| && id in PastOf(trace[..i]).paid
    ensures id in PastOf(trace).paid
    decreases |trace|
  {
    if i < |trace| {
      assert trace[..|trace| - 1][..i] == trace[..i];
      PaidForGood(trace[..|trace| - 1], i, id);
    } else {
      assert trace[..i] == trace;
    }
  }

  /** Closing completes only checkouts of a subscription that the committed event left active. */
  lemma ClosingCompletes(db: Db, id: SubscriptionId, e: Event, seen: Status, next: Status, c: CheckoutId)
    requires c in Settle(db, id, e, seen, next).checkouts && Settle(db, id, e, seen, next).checkouts[c].state.Completed?
    ensures c in db.checkouts
    ensures Settle(db, id, e, seen, next).checkouts[c].subscription == db.checkouts[c].subscription
    ensures db.checkouts[c].state.Completed? || (db.checkouts[c].subscription == id && next.Active?)
  {
  }

  /** The subscription that an event left active, so that its checkouts are completed, was paid for. */
  lemma ClosingFollowsPayment(start: Db, steps: seq<Step>, at: nat)
    requires Fresh(start) && at <= |steps|
    requires var m := Run(start, steps)[at];
             m.note.Applied? && m.note.id in m.db.subscriptions && m.db.subscriptions[m.note.id].status.Active?
    ensures Run(start, steps)[at].note.id in PastOf(Run(start, steps)).paid
  {
    var t := Run(start, steps);
    SoundAt(start, steps, at);
    assert PaymentBehind(t[at].note.id, t[at].db.subscriptions[t[at].note.id], PastOf(t[..at + 1]).paid);
    hide Run, Sound, Fresh;
    PaidForGood(t, at + 1, t[at].note.id);
  }

  lemma StepCompletesPaid(start: Db, steps: seq<Step>, step: Step)
    requires Fresh(start) && CompletedArePaid(Run(start, steps)[|steps|].db.checkouts, PastOf(Run(start, steps)).paid)
    ensures CompletedArePaid(Execute(Run(start, steps), step).db.checkouts, PastOf(Run(start, steps)).paid)
  {
    var trace := Run(start, steps);
    var db := trace[|steps|].db;
    hide Run, Fresh, PastOf, Target, Settle;
    if !step.Close? {
      OnlyClosingCompletes(trace, step);
      hide Execute;
    } else if step.key in db.events && 0 < step.commitAt < |trace|
       && CommittedFor(trace[step.commitAt - 1].db, trace[step.commitAt], step.key) {
      var m := trace[step.commitAt];
      var id := m.note.id;
      if m.db.subscriptions[id].status.Active? {
        ClosingFollowsPayment(start, steps, step.commitAt);
      }
      forall c | c in Execute(trace, step).db.checkouts && Execute(trace, step).db.checkouts[c].state.Completed?
        ensures Execute(trace, step).db.checkouts[c].subscription in PastOf(trace).paid
      {
        ClosingCompletes(db, id, db.events[step.key].event, trace[step.commitAt - 1].db.subscriptions[id].status,
                         m.db.subscriptions[id].status, c);
      }
    }
  }

  lemma {:induction false} RunCompletesPaid(start: Db, steps: seq<Step>)
    requires Fresh(start)
    ensures CompletedArePaid(Run(start, steps)[|steps|].db.checkouts, PastOf(Run(start, steps)).paid)
  {
    if steps == [] {
      NoSteps(start);
      hide Run;
    } else {
      hide *;
      var shorter, step := steps[..|steps| - 1], steps[|steps| - 1];
      var before := Run(start, shorter);
      RunCompletesPaid(start, shorter);
      StepCompletesPaid(start, shorter, step);
      RunGoesOn(start, shorter, step);
      PastGoesOn(before, Execute(before, step));
      PaidStays(PastOf(before), Execute(before, step).note, Execute(before, step).db.checkouts);
      assert steps == shorter + [step];
    }
  }

  lemma PaidStays(past: Past, note: Note, checkouts: map<CheckoutId, Checkout>)
    requires CompletedArePaid(checkouts, past.paid)
    ensures CompletedArePaid(checkouts, Remember(past, note).paid)
  {
  }

  /** A checkout is completed only for a subscription for which some accepted step reported a payment. */
  lemma CompletedCheckoutsArePaid(start: Db, steps: seq<Step>, c: CheckoutId) returns (i: nat)
    requires Fresh(start)
    requires var db := Run(start, steps)[|steps|].db; c in db.checkouts && db.checkouts[c].state.Completed?
    ensures PaidAt(start, steps, Run(start, steps)[|steps|].db.checkouts[c].subscription, i)
  {
    RunCompletesPaid(start, steps);
    hide Run, PaidAt;
    i := PaidMeans(start, steps, Run(start, steps)[|steps|].db.checkouts[c].subscription);
  }
}
