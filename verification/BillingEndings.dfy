/** Events and snapshots over runs: what each leaves when decided on an earlier read, and how subscriptions end. */
module BillingEndings {
  import opened Common
  import opened Lifecycle
  import opened BillingModel
  import opened ProviderEvents
  import opened BillingSteps
  import opened BillingHistory
  import opened BillingInvariants
  import opened BillingTheorems
  import opened BillingRows
  import opened EventOutcomes
  import opened SnapshotOutcomes
  import opened BillingApplications
  import opened CheckoutOutcomes
  import opened EventIntake
  import opened JobOutcomes

  /** Every record that was read at an earlier moment has evolved into the present one. */
  ghost predicate ReadsEvolve(trace: seq<Moment>)
    requires |trace| > 0
  {
    forall i :: 0 <= i < |trace| ==> SubscriptionsEvolve(trace[i].db.subscriptions, Last(trace).subscriptions)
  }

  /** A record read earlier under the present version is the present one, but for its binding. */
  lemma SameVersionSameRecord(trace: seq<Moment>, i: nat, id: SubscriptionId)
    requires |trace| > 0 && ReadsEvolve(trace) && i < |trace| && id in trace[i].db.subscriptions
    requires id in Last(trace).subscriptions
             && trace[i].db.subscriptions[id].version == Last(trace).subscriptions[id].version
    ensures var s := Last(trace).subscriptions[id]; s == trace[i].db.subscriptions[id].(binding := s.binding)
  {
    assert SubscriptionEvolves(trace[i].db.subscriptions[id], Last(trace).subscriptions[id]);
  }

  // ----- what is left -----

  lemma EventStepLeaves(trace: seq<Moment>, step: Step)
    requires |trace| > 0 && ReadsEvolve(trace) && AppliesEvent(trace, step, Execute(trace, step))
    ensures var m := Execute(trace, step);
            EventLeft(Last(trace), m.note.id, step.key, Last(trace).events[step.key].event, step.snapshot,
                      step.graceDays, PaidIn(trace[step.countAt].db.ledger, m.note.id), m.db)
  {
    var m := Execute(trace, step);
    var seen, e := trace[step.readAt].db, Last(trace).events[step.key].event;
    var before := CountedPaid(seen, trace[step.countAt].db, e);
    var u := Decide(m.note.id, seen.subscriptions[m.note.id], step.key, e, step.snapshot, step.graceDays, before);
    assert before == PaidIn(trace[step.countAt].db.ledger, m.note.id);
    hide Execute, Target, CountedPaid, PaidIn, EventLeft;
    ApplyShape(Last(trace), u, e.occurredAt, m.db);
    Effects.DecideAddresses(m.note.id, seen.subscriptions[m.note.id], step.key, e, step.snapshot, step.graceDays,
                            before);
    hide ApplyState, Decide, Updated;
    SameVersionSameRecord(trace, step.readAt, m.note.id);
    hide ReadsEvolve;
    AppliedLeaves(Last(trace), m.note.id, seen.subscriptions[m.note.id], step.key, e, step.snapshot, step.graceDays,
                  before, m.db);
  }

  lemma SnapshotStepLeaves(trace: seq<Moment>, step: Step)
    requires |trace| > 0 && ReadsEvolve(trace) && AppliesSnapshot(trace, step, Execute(trace, step))
    ensures var db, m := Last(trace), Execute(trace, step);
            && step.id in db.subscriptions && step.id in m.db.subscriptions
            && m.db.subscriptions == db.subscriptions[step.id := m.db.subscriptions[step.id]]
            && RecordRead(step.snapshot, step.graceDays, step.now, db.subscriptions[step.id],
                          m.db.subscriptions[step.id])
  {
    var m := Execute(trace, step);
    var s := trace[step.readAt].db.subscriptions[step.id];
    hide Execute, RecordRead, StateFromSnapshot;
    var d := StateFromSnapshot(s.status, step.snapshot, step.graceDays, step.now).value;
    var u := ReconcileUpdate(step.id, s, step.snapshot, d, step.now);
    ApplyShape(Last(trace), u, step.now, m.db);
    assert s.version == Last(trace).subscriptions[step.id].version;
    hide ApplyState, Updated;
    SameVersionSameRecord(trace, step.readAt, step.id);
    hide ReadsEvolve;
    ReconciliationLeaves(Last(trace), step.id, s, step.snapshot, step.graceDays, step.now, m.db);
  }

  lemma ReadsEvolveInRuns(start: Db, steps: seq<Step>, i: nat)
    requires i < |steps|
    ensures ReadsEvolve(Run(start, steps[..i])) && Last(Run(start, steps[..i])) == Run(start, steps)[i].db
    ensures Run(start, steps)[i + 1] == Execute(Run(start, steps[..i]), steps[i])
    ensures forall j :: 0 <= j <= i ==> Run(start, steps[..i])[j] == Run(start, steps)[j]
  {
    AllEvolveToLast(start, steps[..i]);
    StepOf(start, steps, i);
    RunExtends(start, steps, i);
    hide Run, Execute, SubscriptionsEvolve;
  }

  /**
   Whatever others did between its reads and its transaction: an event that a run commits leaves the record,
   the ledger and the event as its kind says, in terms of what was there when it committed; whether a payment
   is the first is decided by the payments counted.
   */
  lemma CommitLeaves(start: Db, steps: seq<Step>, i: nat)
    requires i < |steps| && steps[i].Commit? && Run(start, steps)[i + 1].note.Applied?
    ensures var t, step := Run(start, steps), steps[i];
            && step.key in t[i].db.events && step.countAt <= i
            && EventLeft(t[i].db, t[i + 1].note.id, step.key, t[i].db.events[step.key].event, step.snapshot,
                         step.graceDays, PaidIn(t[step.countAt].db.ledger, t[i + 1].note.id), t[i + 1].db)
  {
    ReadsEvolveInRuns(start, steps, i);
    hide Run, EventLeft, Execute, ReadsEvolve, PaidIn;
    CommitApplies(Run(start, steps[..i]), steps[i]);
    EventStepLeaves(Run(start, steps[..i]), steps[i]);
    hide AppliesEvent;
    assert steps[i].countAt <= i by { CountedBefore(Run(start, steps[..i]), steps[i]); }
  }

  lemma CountedBefore(trace: seq<Moment>, step: Step)
    requires |trace| > 0 && AppliesEvent(trace, step, Execute(trace, step))
    ensures step.countAt < |trace|
  {
    hide Execute, ApplyState, Decide, Target, CountedPaid, AmountMatches;
  }

  // ----- how subscriptions end -----

  predicate IsOver(status: Status) {
    status == Expired || status == Refunded
  }

  /** The event says that the subscription is over for good. */
  predicate EndsSubscription(e: Event) {
    FullRefund(e) || e.kind.ExpiredNow?
  }

  /** The sweep ends this subscription: it awaits payment under the version read, and its checkout is still open. */
  ghost predicate SweepEnds(trace: seq<Moment>, step: Step, id: SubscriptionId)
    requires |trace| > 0 && id in Last(trace).subscriptions
  {
    && step.Sweep? && step.readAt < |trace| && step.checkout in Last(trace).checkouts
    && var seen, now, c := trace[step.readAt].db, Last(trace), step.checkout;
       && c in seen.checkouts && seen.checkouts[c].subscription == id && id in seen.subscriptions
       && Due(seen.checkouts[c], step.before) && now.checkouts[c].version == seen.checkouts[c].version
       && now.checkouts[c].state in {CheckoutCreated, ProviderPending}
       && now.subscriptions[id].version == seen.subscriptions[id].version
       && AwaitsPayment(seen.subscriptions[id]) && AwaitsPayment(now.subscriptions[id])
  }

  /** The step ends the subscription: a final event, a snapshot of one that is over, the expiry job, or the sweep. */
  ghost predicate EndsIt(trace: seq<Moment>, step: Step, id: SubscriptionId)
    requires |trace| > 0 && id in Last(trace).subscriptions
  {
    var m := Execute(trace, step);
    || SweepEnds(trace, step, id)
    || (AppliedTo(m, id) &&
        (|| (step.Commit? && step.key in Last(trace).events && EndsSubscription(Last(trace).events[step.key].event))
         || (step.Reconcile? && Over(step.snapshot, step.now))
         || step.ExpireJob?))
  }

  lemma EventEndsExactly(trace: seq<Moment>, step: Step, id: SubscriptionId)
    requires |trace| > 0 && id in Last(trace).subscriptions && step.Commit?
    requires !IsOver(Last(trace).subscriptions[id].status) && Execute(trace, step).note.Applied?
    requires step.key in Last(trace).events && step.countAt < |trace|
    requires var m := Execute(trace, step);
             EventLeft(Last(trace), m.note.id, step.key, Last(trace).events[step.key].event, step.snapshot,
                       step.graceDays, PaidIn(trace[step.countAt].db.ledger, m.note.id), m.db)
    ensures id in Execute(trace, step).db.subscriptions
    ensures IsOver(Execute(trace, step).db.subscriptions[id].status) <==> EndsIt(trace, step, id)
  {
    hide Execute, LedgerLeft, EventDone, PaidIn;
  }

  /** After a step that applied a snapshot, a suspension or an expiry, the subscription's status is what follows. */
  lemma OtherApplicationStatus(trace: seq<Moment>, step: Step, m: Moment)
    requires |trace| > 0 && ReadsEvolve(trace) && m == Execute(trace, step)
    requires AppliesSnapshot(trace, step, m) || AppliesSuspension(trace, step, m) || AppliesExpiry(trace, step, m)
    ensures m.note.id in Last(trace).subscriptions && m.note.id in m.db.subscriptions
    ensures m.db.subscriptions == Last(trace).subscriptions[m.note.id := m.db.subscriptions[m.note.id]]
    ensures IsOver(m.db.subscriptions[m.note.id].status) <==>
            (step.Reconcile? && Over(step.snapshot, step.now)) || step.ExpireJob?
  {
    hide ReadsEvolve, ApplyState, Execute, ExpiryDue, Suspendable, CommitSnapshot, Dark;
    if step.Reconcile? {
      SnapshotStepLeaves(trace, step);
    } else if step.Suspend? {
      SuspensionLeaves(Last(trace), step.id, step.expectedVersion, step.now, m.db);
    } else {
      ExpiryLeaves(Last(trace), step.id, trace[step.readAt].db.subscriptions[step.id].version, step.expectedAt,
                   step.now, m.db);
    }
    hide WritesOnly;
  }

  lemma OtherEndsExactly(trace: seq<Moment>, step: Step, id: SubscriptionId)
    requires |trace| > 0 && id in Last(trace).subscriptions && !step.Commit? && !step.Sweep?
    requires !IsOver(Last(trace).subscriptions[id].status) && Execute(trace, step).note.Applied?
    requires var m := Execute(trace, step);
             && m.note.id in Last(trace).subscriptions && m.note.id in m.db.subscriptions
             && m.db.subscriptions == Last(trace).subscriptions[m.note.id := m.db.subscriptions[m.note.id]]
             && (IsOver(m.db.subscriptions[m.note.id].status) <==>
                 (step.Reconcile? && Over(step.snapshot, step.now)) || step.ExpireJob?)
    ensures id in Execute(trace, step).db.subscriptions
    ensures IsOver(Execute(trace, step).db.subscriptions[id].status) <==> EndsIt(trace, step, id)
  {
    hide Execute, Over;
  }

  lemma AppliedEndsExactly(trace: seq<Moment>, step: Step, id: SubscriptionId)
    requires |trace| > 0 && ReadsEvolve(trace) && id in Last(trace).subscriptions
    requires !IsOver(Last(trace).subscriptions[id].status) && Execute(trace, step).note.Applied?
    ensures id in Execute(trace, step).db.subscriptions
    ensures IsOver(Execute(trace, step).db.subscriptions[id].status) <==> EndsIt(trace, step, id)
  {
    var m := Execute(trace, step);
    AppliedBy(trace, step);
    hide ReadsEvolve, Execute, ApplyState, Decide, CountedPaid, Target, AmountMatches, ExpiryDue, Suspendable,
         CommitSnapshot;
    if AppliesEvent(trace, step, m) {
      EventStepLeaves(trace, step);
      hide *;
      EventEndsExactly(trace, step, id);
    } else {
      NotAnEvent(trace, step, m);
      OtherApplicationStatus(trace, step, m);
      hide *;
      OtherEndsExactly(trace, step, id);
    }
  }

  lemma NotAnEvent(trace: seq<Moment>, step: Step, m: Moment)
    requires |trace| > 0
    requires AppliesSnapshot(trace, step, m) || AppliesSuspension(trace, step, m) || AppliesExpiry(trace, step, m)
    ensures !step.Commit? && !step.Sweep?
  {
  }

  lemma BindEndsNothing(trace: seq<Moment>, step: Step, id: SubscriptionId)
    requires |trace| > 0 && id in Last(trace).subscriptions && !IsOver(Last(trace).subscriptions[id].status)
    requires step.BindEvent?
    ensures id in Execute(trace, step).db.subscriptions
    ensures !IsOver(Execute(trace, step).db.subscriptions[id].status)
  {
    var db := Last(trace);
    if step.key in db.events && step.readAt < |trace| {
      var e := db.events[step.key].event;
      if BindRead(db, trace[step.readAt].db, e).Ok? {
        BindKeepsGrants(db, trace[step.readAt].db, e);
      }
    }
    hide BindRead;
  }

  /** Of the steps that apply nothing only the sweep ends subscriptions. */
  lemma QuietStepEndsNothing(trace: seq<Moment>, step: Step, id: SubscriptionId)
    requires |trace| > 0 && id in Last(trace).subscriptions && !IsOver(Last(trace).subscriptions[id].status)
    requires !Execute(trace, step).note.Applied? && !step.Sweep?
    ensures id in Execute(trace, step).db.subscriptions
    ensures !IsOver(Execute(trace, step).db.subscriptions[id].status)
  {
    var db := Last(trace);
    if EventStep(step) && !step.BindEvent? && !step.Commit? {
      EventBookkeeping(trace, step);
      hide Execute;
    } else if step.Commit? || step.Reconcile? || step.Suspend? || step.ExpireJob? {
      RefusedWritesNothing(trace, step);
      hide Execute;
    } else if step.BindEvent? {
      BindEndsNothing(trace, step, id);
      hide *;
    } else if step.Fail? {
      CheckoutFailsExactly(db, step.checkout, step.at);
      hide FailCheckout, HasSubscription;
    } else {
      hide SlotOccupied, CheckoutOpen;
    }
  }

  lemma QuietEndsExactly(trace: seq<Moment>, step: Step, id: SubscriptionId)
    requires |trace| > 0 && id in Last(trace).subscriptions && !IsOver(Last(trace).subscriptions[id].status)
    requires !Execute(trace, step).note.Applied?
    ensures id in Execute(trace, step).db.subscriptions
    ensures IsOver(Execute(trace, step).db.subscriptions[id].status) <==> SweepEnds(trace, step, id)
  {
    if step.Sweep? {
      SweepStepEnds(trace, step, id);
      hide *;
    } else {
      QuietStepEndsNothing(trace, step, id);
      hide Execute, IsOver;
    }
  }

  lemma SweepStepEnds(trace: seq<Moment>, step: Step, id: SubscriptionId)
    requires |trace| > 0 && id in Last(trace).subscriptions && !IsOver(Last(trace).subscriptions[id].status)
    requires step.Sweep?
    ensures id in Execute(trace, step).db.subscriptions
    ensures IsOver(Execute(trace, step).db.subscriptions[id].status) <==> SweepEnds(trace, step, id)
  {
    var c := step.checkout;
    if step.readAt < |trace| {
      var seen := trace[step.readAt].db;
      SweepFindsTheDue(seen, c, step.before);
      if SweepFinds(seen, c, step.before) {
        SweepExpires(Last(trace), c, seen.checkouts[c], seen.subscriptions[seen.checkouts[c].subscription],
                     step.before);
      }
    }
    hide SweepFinds, SweepCheckout;
  }

  /**
   In every run a step takes a subscription that is not over to Expired or Refunded if and only if it is an accepted
   full refund or expiry event, an accepted snapshot of one that is over, the expiry job, or the sweep's own write.
   */
  lemma StepEndsExactly(start: Db, steps: seq<Step>, i: nat, id: SubscriptionId)
    requires i < |steps| && id in Run(start, steps)[i].db.subscriptions
    requires !IsOver(Run(start, steps)[i].db.subscriptions[id].status)
    ensures id in Run(start, steps)[i + 1].db.subscriptions
    ensures Last(Run(start, steps[..i])) == Run(start, steps)[i].db
    ensures IsOver(Run(start, steps)[i + 1].db.subscriptions[id].status) <==>
            EndsIt(Run(start, steps[..i]), steps[i], id)
  {
    ReadsEvolveInRuns(start, steps, i);
    var trace := Run(start, steps[..i]);
    hide Run, Execute, ReadsEvolve, SweepEnds, Over;
    if Run(start, steps)[i + 1].note.Applied? {
      AppliedEndsExactly(trace, steps[i], id);
    } else {
      QuietEndsExactly(trace, steps[i], id);
    }
  }

  // ----- what a final event means for the guild -----

  /**
   An accepted full refund or expiry event frees the guild's slot at once, and in a run whose failures find
   effective subscriptions the subscription is over from then on.
   */
  lemma FinalEventFreesTheSlot(start: Db, steps: seq<Step>, i: nat, j: nat)
    requires Fresh(start) && i < j <= |steps| && steps[i].Commit? && Run(start, steps)[i + 1].note.Applied?
    requires var db := Run(start, steps)[i].db;
             && steps[i].key in db.events && EndsSubscription(db.events[steps[i].key].event)
             && Run(start, steps)[i + 1].note.id in db.subscriptions
             && !IsOver(db.subscriptions[Run(start, steps)[i + 1].note.id].status)
    ensures var t := Run(start, steps);
            var id := t[i + 1].note.id;
            && id in t[i + 1].db.subscriptions && id in t[j].db.subscriptions
            && !HasSubscription(t[i + 1].db, t[i + 1].db.subscriptions[id].guild, None)
            && (FailuresAreEffective(start, steps) ==> IsOver(t[j].db.subscriptions[id].status))
  {
    var t := Run(start, steps);
    var id := t[i + 1].note.id;
    CommitLeaves(start, steps, i);
    SoundAt(start, steps, i);
    assert OneSlot(t[i].db.subscriptions);
    hide Run, Sound, LedgerLeft, EventDone, PaidIn, Fresh, OneSlot, FailuresAreEffective;
    FinalEventEnds(t[i].db, t[i + 1].db, id, steps[i].key, steps[i].snapshot, steps[i].graceDays,
                   PaidIn(t[steps[i].countAt].db.ledger, id));
    hide EventLeft, HasSubscription;
    NothingGoesBack(start, steps, i + 1, j);
    if FailuresAreEffective(start, steps) {
      EndedStayBetween(start, steps, i + 1, j);
      StillOver(t[i + 1].db, t[j].db, id);
    }
  }

  lemma FinalEventEnds(db: Db, db': Db, id: SubscriptionId, key: EventKey, p: Snapshot, graceDays: nat, before: bool)
    requires OneSlot(db.subscriptions) && key in db.events && EndsSubscription(db.events[key].event)
    requires EventLeft(db, id, key, db.events[key].event, p, graceDays, before, db')
    requires !IsOver(db.subscriptions[id].status)
    ensures id in db'.subscriptions && IsOver(db'.subscriptions[id].status)
    ensures !HasSubscription(db', db'.subscriptions[id].guild, None)
  {
    hide LedgerLeft, EventDone;
  }

  lemma StillOver(db: Db, db': Db, id: SubscriptionId)
    requires EndedStay(db, db') && id in db.subscriptions && id in db'.subscriptions
    requires IsOver(db.subscriptions[id].status)
    ensures IsOver(db'.subscriptions[id].status)
  {
  }
}
