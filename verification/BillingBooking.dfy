/** When the payment of a processed event is in the ledger. */
module BillingBooking {
  import opened Common
  import opened Lifecycle
  import opened BillingModel
  import opened ProviderEvents
  import opened BillingSteps
  import opened BillingHistory
  import opened BillingInvariants
  import opened BillingTheorems
  import opened BillingCompletion

  predicate ProcessedIn(db: Db, k: EventKey) {
    k in db.events && db.events[k].progress.Processed?
  }

  /** The step processed the event `k` itself; a paid one with an amount is in the ledger afterwards. */
  ghost predicate Processes(db: Db, step: Step, m: Moment, k: EventKey) {
    step.Commit? && step.key == k && k in db.events && (PaidWithAmount(db.events[k].event) ==> k in m.db.ledger)
  }

  lemma EventlessKeepsEvents(db: Db, u: StateUpdate, now: Time)
    requires u.event.None?
    ensures ApplyState(db, u, now).Ok? ==> ApplyState(db, u, now).value.events == db.events
  {
    if ApplyState(db, u, now).Ok? {
      ApplyShape(db, u, now, ApplyState(db, u, now).value);
    }
    hide ApplyState;
  }

  lemma ReconcileMarksNothing(db: Db, id: SubscriptionId, seen: Subscription, p: Snapshot, graceDays: nat, now: Time)
    ensures var r := CommitSnapshot(db, id, seen, p, graceDays, now);
            r.Ok? && r.value.Some? ==> r.value.value.events == db.events
  {
    var d := StateFromSnapshot(seen.status, p, graceDays, now);
    if d.Ok? {
      EventlessKeepsEvents(db, ReconcileUpdate(id, seen, p, d.value, now), now);
    }
    hide StateFromSnapshot, ApplyState;
  }

  /** An accepted application for an event marks that event, and writes the payment it carries. */
  lemma AppliedMarks(db: Db, u: StateUpdate, now: Time, k: EventKey)
    requires ApplyState(db, u, now).Ok?
    ensures var db' := ApplyState(db, u, now).value;
            && (ProcessedIn(db', k) ==> ProcessedIn(db, k) || u.event == Some(k))
            && (u.payment.Some? ==> u.payment.value.key in db'.ledger)
  {
    ApplyShape(db, u, now, ApplyState(db, u, now).value);
    hide ApplyState;
  }

  lemma DecidedPayment(id: SubscriptionId, s: Subscription, key: EventKey, e: Event, p: Snapshot, graceDays: nat,
      before: bool)
    ensures var u := Decide(id, s, key, e, p, graceDays, before);
            && u.event == Some(key)
            && (PaidWithAmount(e) ==> u.payment.Some? && u.payment.value.key == key)
  {
  }

  lemma CommitMarks(db: Db, seen: Db, step: Step, p: Snapshot, graceDays: nat, before: bool, k: EventKey)
    requires step.Commit? && step.key in db.events
    requires var m := CommitMoment(db, seen, step.key, db.events[step.key].event, p, graceDays, before);
             ProcessedIn(m.db, k)
    ensures var m := CommitMoment(db, seen, step.key, db.events[step.key].event, p, graceDays, before);
            ProcessedIn(db, k) || Processes(db, step, m, k)
  {
    var e := db.events[step.key].event;
    hide Target, Decide, PartialRefundRow, ApplyState;
    if Target(seen, e).Some? {
      TargetExists(seen, e);
      var id := Target(seen, e).value;
      var s := seen.subscriptions[id];
      if PartialRefundEvent(e) {
        assert !PaidWithAmount(e);
      } else {
        DecidedPayment(id, s, step.key, e, p, graceDays, before);
        var u := Decide(id, s, step.key, e, p, graceDays, before);
        if ApplyState(db, u, e.occurredAt).Ok? {
          AppliedMarks(db, u, e.occurredAt, k);
        }
      }
    }
  }

  /** Only two steps leave an event processed: its own commit, and the retry job. */
  lemma MarksProcessed(trace: seq<Moment>, step: Step, k: EventKey)
    requires |trace| > 0 && ProcessedIn(Execute(trace, step).db, k)
    ensures var db := trace[|trace| - 1].db;
            || ProcessedIn(db, k)
            || (Marks(trace, step) && step.key == k)
            || Processes(db, step, Execute(trace, step), k)
  {
    var db := trace[|trace| - 1].db;
    hide ApplyState, CommitMoment, CommitSnapshot, Target, Marks, SlotOccupied, CheckoutOpen, BindRead,
         GrantPromotion, RevokePromotion, SweepCheckout, Processes, PaidWithAmount;
    match step {
      case Sweep(c, readAt, before) =>
        if readAt < |trace| && SweepFinds(trace[readAt].db, c, before) {
          var seen := trace[readAt].db;
          SweepWrites(db, c, seen.checkouts[c], seen.subscriptions[seen.checkouts[c].subscription], before);
        }
      case BindEvent(key, readAt) =>
        if key in db.events && readAt < |trace| {
          BindKeepsEvents(db, trace[readAt].db, db.events[key].event);
        }
      case Commit(key, boundAt, readAt, countAt, p, graceDays) =>
        if key in db.events && boundAt <= readAt <= countAt < |trace| && trace[boundAt].note == BoundEvent(key) {
          CommitMarks(db, trace[readAt].db, step, p, graceDays,
                      CountedPaid(trace[readAt].db, trace[countAt].db, db.events[key].event), k);
        }
      case Reconcile(id, readAt, p, graceDays, now) =>
        if readAt < |trace| && id in trace[readAt].db.subscriptions {
          ReconcileMarksNothing(db, id, trace[readAt].db.subscriptions[id], p, graceDays, now);
        }
      case Suspend(id, _, version, now) => EventlessKeepsEvents(db, StatusOnly(id, Suspended, version), now);
      case ExpireJob(id, readAt, at, now) =>
        if readAt < |trace| && id in trace[readAt].db.subscriptions {
          EventlessKeepsEvents(db, ExpireUpdate(id, trace[readAt].db.subscriptions[id].version, at), now);
        }
      case Promote(g, reference, featureSet, now, endsAt) =>
        GrantKeepsCheckouts(db, g, reference, featureSet, now, endsAt);
      case Demote(g, reference, now) => RevokeKeepsCheckouts(db, g, reference, now);
      case _ =>
    }
  }

  lemma BindKeepsEvents(db: Db, seen: Db, e: Event)
    ensures BindRead(db, seen, e).Ok? ==> BindRead(db, seen, e).value.events == db.events
  {
    hide BindingAccepted, BindingTaken, CustomerAccepted;
  }

  // ----- one event -----

  /** If the event is processed and paid an amount, it is in the ledger. */
  ghost predicate BookedIn(db: Db, k: EventKey) {
    ProcessedIn(db, k) && PaidWithAmount(db.events[k].event) ==> k in db.ledger
  }

  /** The retry job, when it marks this event and the event paid an amount, finds its ledger row. */
  ghost predicate MarksBooked(trace: seq<Moment>, step: Step, k: EventKey)
    requires |trace| > 0
  {
    Marks(trace, step) && step.key == k ==>
      var db := trace[|trace| - 1].db;
      PaidWithAmount(db.events[k].event) ==> k in db.ledger
  }

  /** An event stays booked through a step if and only if the step, when it is the retry job's mark, finds the row. */
  lemma StepBooksExactly(trace: seq<Moment>, step: Step, k: EventKey)
    requires |trace| > 0 && BookedIn(trace[|trace| - 1].db, k)
    ensures BookedIn(Execute(trace, step).db, k) <==> MarksBooked(trace, step, k)
  {
    var db, db' := trace[|trace| - 1].db, Execute(trace, step).db;
    StepEvolves(trace, step);
    assert EventsEvolve(db.events, db'.events) && LedgerEvolves(db.ledger, db'.ledger);
    if Marks(trace, step) && step.key == k {
      MarkMarks(trace, step);
    }
    hide Execute, Evolves, PaidWithAmount, Marks;
    if ProcessedIn(db', k) {
      MarksProcessed(trace, step, k);
    }
  }

  lemma MarkMarks(trace: seq<Moment>, step: Step)
    requires |trace| > 0 && Marks(trace, step)
    ensures ProcessedIn(Execute(trace, step).db, step.key)
    ensures Execute(trace, step).db.ledger == trace[|trace| - 1].db.ledger
  {
    assert step.MarkRetried? && step.key in trace[|trace| - 1].db.events;
    assert Execute(trace, step)
           == Moment(trace[|trace| - 1].db.(events := MarkProcessed(trace[|trace| - 1].db.events, step.key)), Nothing);
    hide Marks, Execute;
  }

  // ----- whole runs -----

  ghost predicate BookedThroughout(start: Db, steps: seq<Step>, k: EventKey) {
    forall n | 0 <= n <= |steps| :: BookedIn(Run(start, steps)[n].db, k)
  }

  ghost predicate MarksFindTheRow(start: Db, steps: seq<Step>, k: EventKey) {
    forall i | 0 <= i < |steps| :: MarksBooked(Run(start, steps[..i]), steps[i], k)
  }

  lemma MomentBooksExactly(start: Db, steps: seq<Step>, i: nat, k: EventKey)
    requires i < |steps| && BookedIn(Run(start, steps)[i].db, k)
    ensures BookedIn(Run(start, steps)[i + 1].db, k) <==> MarksBooked(Run(start, steps[..i]), steps[i], k)
  {
    StepOf(start, steps, i);
    hide *;
    StepBooksExactly(Run(start, steps[..i]), steps[i], k);
  }

  lemma {:induction false} MarkedRunsBook(start: Db, steps: seq<Step>, n: nat, k: EventKey)
    requires Fresh(start) && MarksFindTheRow(start, steps, k) && n <= |steps|
    ensures BookedIn(Run(start, steps)[n].db, k)
  {
    hide Run, MarksBooked;
    if n == 0 {
      FirstIsQuiet(start, steps);
    } else {
      MarkedRunsBook(start, steps, n - 1, k);
      MomentBooksExactly(start, steps, n - 1, k);
    }
  }

  /**
   The payment of an event is in the ledger whenever the event is processed if and only if the retry job,
   whenever it marks the event, finds the row there: its mark is the only one that does not write it.
   */
  lemma PaymentIsBookedExactly(start: Db, steps: seq<Step>, k: EventKey)
    requires Fresh(start)
    ensures BookedThroughout(start, steps, k) <==> MarksFindTheRow(start, steps, k)
  {
    hide Run, Fresh, BookedIn, MarksBooked;
    if MarksFindTheRow(start, steps, k) {
      forall n | 0 <= n <= |steps|
        ensures BookedIn(Run(start, steps)[n].db, k)
      {
        MarkedRunsBook(start, steps, n, k);
      }
    }
    if BookedThroughout(start, steps, k) {
      forall i | 0 <= i < |steps|
        ensures MarksBooked(Run(start, steps[..i]), steps[i], k)
      {
        var j := i + 1;
        assert BookedIn(Run(start, steps)[i].db, k) && BookedIn(Run(start, steps)[j].db, k);
        MomentBooksExactly(start, steps, i, k);
      }
    }
  }

  /** What is booked for such an event is a successful payment at the price of its subscription. */
  lemma BookedMeansPaid(start: Db, steps: seq<Step>, k: EventKey)
    requires Fresh(start)
    requires var db := Run(start, steps)[|steps|].db;
             k in db.ledger && k in db.events && PaidWithAmount(db.events[k].event)
    ensures var db := Run(start, steps)[|steps|].db;
            var row := db.ledger[k];
            row.status.Succeeded? && row.subscription in db.subscriptions
              && row.amount == db.subscriptions[row.subscription].price
  {
    RunIsSound(start, steps);
    var db := Run(start, steps)[|steps|].db;
    assert LedgerEntry(k, db.ledger[k], db, PastOf(Run(start, steps)).receipts);
    hide Run, PastOf, Sound, Fresh;
  }
}
