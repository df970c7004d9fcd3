/** Which steps of a run apply a state to a subscription, and what they apply; the others write no row of one. */
module BillingApplications {
  import opened Common
  import opened Lifecycle
  import opened BillingModel
  import opened ProviderEvents
  import opened BillingSteps
  import opened BillingHistory
  import opened BillingTheorems
  import Effects = EventEffects

  function Last(trace: seq<Moment>): Db
    requires |trace| > 0
  {
    trace[|trace| - 1].db
  }

  /** The commit of an event that was applied: what was read, for whom, and the update that was accepted. */
  ghost predicate AppliesEvent(trace: seq<Moment>, step: Step, m: Moment)
    requires |trace| > 0
  {
    && step.Commit? && m.note.Applied? && step.key in Last(trace).events && step.readAt <= step.countAt < |trace|
    && m.note.id in trace[step.readAt].db.subscriptions && m.note.event == Some(step.key)
    && var seen, e := trace[step.readAt].db, Last(trace).events[step.key].event;
       && !PartialRefundEvent(e) && Target(seen, e) == Some(m.note.id) && m.note.now == e.occurredAt
       && AmountMatches(seen.subscriptions[m.note.id], e)
       && ApplyState(Last(trace), Decide(m.note.id, seen.subscriptions[m.note.id], step.key, e, step.snapshot,
                                         step.graceDays, CountedPaid(seen, trace[step.countAt].db, e)), e.occurredAt)
          == Ok(m.db)
  }

  ghost predicate AppliesSnapshot(trace: seq<Moment>, step: Step, m: Moment)
    requires |trace| > 0
  {
    && step.Reconcile? && m.note.Applied? && m.note.id == step.id && m.note.now == step.now
    && step.readAt < |trace| && step.id in trace[step.readAt].db.subscriptions
    && CommitSnapshot(Last(trace), step.id, trace[step.readAt].db.subscriptions[step.id], step.snapshot,
                      step.graceDays, step.now) == Ok(Some(m.db))
  }

  ghost predicate AppliesSuspension(trace: seq<Moment>, step: Step, m: Moment)
    requires |trace| > 0
  {
    && step.Suspend? && m.note.Applied? && m.note.id == step.id && m.note.now == step.now
    && step.readAt < |trace| && step.id in trace[step.readAt].db.subscriptions
    && Suspendable(trace[step.readAt].db.subscriptions[step.id].status)
    && ApplyState(Last(trace), StatusOnly(step.id, Suspended, step.expectedVersion), step.now) == Ok(m.db)
  }

  ghost predicate AppliesExpiry(trace: seq<Moment>, step: Step, m: Moment)
    requires |trace| > 0
  {
    && step.ExpireJob? && m.note.Applied? && m.note.id == step.id && m.note.now == step.now
    && step.readAt < |trace| && step.id in trace[step.readAt].db.subscriptions
    && var seen := trace[step.readAt].db.subscriptions[step.id];
       && ExpiryDue(seen, step.expectedAt, step.now)
       && ApplyState(Last(trace), ExpireUpdate(step.id, seen.version, step.expectedAt), step.now) == Ok(m.db)
  }

  lemma CommitApplies(trace: seq<Moment>, step: Step)
    requires |trace| > 0 && step.Commit? && Execute(trace, step).note.Applied?
    ensures AppliesEvent(trace, step, Execute(trace, step))
  {
    var db := Last(trace);
    hide Decide, ApplyState, Target, CountedPaid, AmountMatches;
    assert step.key in db.events && step.boundAt <= step.readAt <= step.countAt < |trace|;
    var e := db.events[step.key].event;
    var seen := trace[step.readAt].db;
    assert Execute(trace, step)
           == CommitMoment(db, seen, step.key, e, step.snapshot, step.graceDays,
                           CountedPaid(seen, trace[step.countAt].db, e));
    hide Execute;
    TargetExists(seen, e);
    var id := Target(seen, e).value;
    Effects.DecideAddresses(id, seen.subscriptions[id], step.key, e, step.snapshot, step.graceDays,
                            CountedPaid(seen, trace[step.countAt].db, e));
  }

  /** Only four kinds of steps apply a state, and each does what its name says. */
  lemma AppliedBy(trace: seq<Moment>, step: Step)
    requires |trace| > 0 && Execute(trace, step).note.Applied?
    ensures var m := Execute(trace, step);
            AppliesEvent(trace, step, m) || AppliesSnapshot(trace, step, m) || AppliesSuspension(trace, step, m)
            || AppliesExpiry(trace, step, m)
  {
    if step.Commit? {
      CommitApplies(trace, step);
      hide *;
    } else if EventStep(step) && !step.BindEvent? {
      EventBookkeeping(trace, step);
      assert false;
    } else {
      hide ApplyState, CommitSnapshot, ExpiryDue, Suspendable, OpenCheckout, SweepCheckout, FailCheckout, BindRead,
           GrantPromotion, RevokePromotion, SessionReady, AppliesEvent;
    }
  }

  /** Where nothing is applied, a snapshot, suspension or expiry changes nothing, an event at most ledger and event. */
  lemma RefusedWritesNothing(trace: seq<Moment>, step: Step)
    requires |trace| > 0 && !Execute(trace, step).note.Applied?
    requires step.Commit? || step.Reconcile? || step.Suspend? || step.ExpireJob?
    ensures var db, db' := Last(trace), Execute(trace, step).db;
            if step.Commit? then db' == db.(ledger := db'.ledger, events := db'.events) else db' == db
  {
    hide Decide, ApplyState, Target, CountedPaid, AmountMatches, CommitSnapshot, ExpiryDue, Suspendable;
  }

  /** A step that applies nothing leaves the rows of subscriptions as they are. */
  lemma QuietStepKeepsRows(trace: seq<Moment>, step: Step)
    requires |trace| > 0 && !Execute(trace, step).note.Applied?
    ensures var rows, rows' := Last(trace).rows, Execute(trace, step).db.rows;
            forall k: RowKey | k.source == FromSubscription ::
              (k in rows' <==> k in rows) && (k in rows ==> rows'[k] == rows[k])
  {
    if step.Commit? || step.Reconcile? || step.Suspend? || step.ExpireJob? {
      RefusedWritesNothing(trace, step);
      hide *;
    } else if EventStep(step) && !step.BindEvent? {
      EventBookkeeping(trace, step);
      hide *;
    } else if step.Promote? || step.Demote? {
      hide *;
      PromotionKeepsRows(trace, step);
    } else {
      hide SlotOccupied, CheckoutOpen, BindingAccepted, BindingTaken, CustomerAccepted;
    }
  }

  lemma PromotionKeepsRows(trace: seq<Moment>, step: Step)
    requires |trace| > 0 && (step.Promote? || step.Demote?)
    ensures var rows, rows' := Last(trace).rows, Execute(trace, step).db.rows;
            forall k: RowKey | k.source == FromSubscription ::
              (k in rows' <==> k in rows) && (k in rows ==> rows'[k] == rows[k])
  {
  }
}
