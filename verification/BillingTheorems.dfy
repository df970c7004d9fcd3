/** The main results about runs of the billing system. */
module BillingTheorems {
  import opened Common
  import opened Lifecycle
  import opened BillingModel
  import opened ProviderEvents
  import opened BillingSteps
  import opened BillingHistory
  import opened BillingInvariants

  // ----- the invariant holds throughout -----

  lemma UnpaidUpdateKeepsSound(db: Db, u: StateUpdate, now: Time, past: Past)
    requires Sound(db, past) && !u.next.Active? && u.latestPayment.Keep? && u.payment.None?
    ensures var m := ApplyMoment(db, u, now, false, None); Sound(m.db, Remember(past, m.note))
  {
    hide Sound, ApplyState;
    if ApplyState(db, u, now).Ok? {
      ApplyKeepsSound(db, u, now, false, None, past, ApplyState(db, u, now).value);
    }
  }

  lemma ReconcileKeepsSound(db: Db, id: SubscriptionId, seen: Subscription, p: Snapshot, graceDays: nat, now: Time,
      past: Past)
    requires Sound(db, past)
    ensures var r := CommitSnapshot(db, id, seen, p, graceDays, now);
            r.Ok? && r.value.Some? ==>
              Sound(r.value.value, Remember(past, Applied(id, now, p.latestPayment.Succeeded?, None, None, true)))
  {
    var r := CommitSnapshot(db, id, seen, p, graceDays, now);
    hide Sound, ApplyState, ReconcileUpdate, StateFromSnapshot;
    if r.Ok? && r.value.Some? {
      var u := ReconcileUpdate(id, seen, p, StateFromSnapshot(seen.status, p, graceDays, now).value, now);
      SnapshotJustified(id, seen, seen, p, graceDays, now);
      if id in db.subscriptions {
        SnapshotJustified(id, db.subscriptions[id], seen, p, graceDays, now);
      }
      ApplyKeepsSound(db, u, now, p.latestPayment.Succeeded?, None, past, r.value.value);
    }
  }

  lemma GrantKeepsSound(db: Db, g: GuildId, reference: nat, featureSet: nat, now: Time, endsAt: Time, past: Past)
    requires Sound(db, past)
    ensures Sound(Quiet(db, GrantPromotion(db, g, reference, featureSet, now, endsAt)).db, past)
  {
    hide Sound;
    PromotionKeepsSound(db, Quiet(db, GrantPromotion(db, g, reference, featureSet, now, endsAt)).db, past);
  }

  lemma RevokeKeepsSound(db: Db, g: GuildId, reference: nat, now: Time, past: Past)
    requires Sound(db, past)
    ensures Sound(Quiet(db, RevokePromotion(db, g, reference, now)).db, past)
  {
    hide Sound;
    PromotionKeepsSound(db, Quiet(db, RevokePromotion(db, g, reference, now)).db, past);
  }

  lemma StepKeepsSound(trace: seq<Moment>, step: Step, past: Past)
    requires |trace| > 0 && Sound(trace[|trace| - 1].db, past)
    requires forall i :: 0 <= i < |trace| ==>
             SubscriptionsEvolve(trace[i].db.subscriptions, trace[|trace| - 1].db.subscriptions)
    ensures var m := Execute(trace, step); Sound(m.db, Remember(past, m.note))
  {
    if EventStep(step) {
      EventStepKeepsSound(trace, step, past);
    } else {
      OtherStepKeepsSound(trace, step, past);
    }
    hide *;
  }

  lemma SettleKeepsSound(db: Db, id: SubscriptionId, e: Event, seen: Status, next: Status, past: Past)
    requires Sound(db, past)
    ensures Sound(Settle(db, id, e, seen, next), past)
  {
    assert Housed(db);
    var db' := Settle(db, id, e, seen, next);
    assert db' == db.(events := db'.events, checkouts := db'.checkouts) && db'.events == db.events;
    hide Sound, Settle;
    QuietKeepsSound(db, db', past);
  }

  lemma CommitStepKeepsSound(trace: seq<Moment>, step: Step, past: Past)
    requires step.Commit? && |trace| > 0 && Sound(trace[|trace| - 1].db, past)
    requires forall i :: 0 <= i < |trace| ==>
             SubscriptionsEvolve(trace[i].db.subscriptions, trace[|trace| - 1].db.subscriptions)
    ensures var m := Execute(trace, step); Sound(m.db, Remember(past, m.note))
  {
    var db := trace[|trace| - 1].db;
    hide Sound, SubscriptionsEvolve, CommitMoment, Target, CountedPaid;
    if step.key in db.events && step.boundAt <= step.readAt <= step.countAt < |trace|
       && trace[step.boundAt].note == BoundEvent(step.key) {
      var before := CountedPaid(trace[step.readAt].db, trace[step.countAt].db, db.events[step.key].event);
      assert Execute(trace, step)
             == CommitMoment(db, trace[step.readAt].db, step.key, db.events[step.key].event, step.snapshot,
                             step.graceDays, before);
      hide Execute, Remember;
      CommitKeepsSound(db, trace[step.readAt].db, step.key, step.snapshot, step.graceDays, before, past);
    } else {
      assert Execute(trace, step) == Moment(db, Nothing);
      hide Execute;
    }
  }

  lemma EventWriteKeepsSound(db: Db, key: EventKey, r: EventRecord, past: Past)
    requires Sound(db, past) && (key in db.events || r.event.provider == key.provider)
    requires key in db.events ==> r.event == db.events[key].event
    ensures Sound(db.(events := db.events[key := r]), past)
  {
    assert Housed(db);
    hide Sound;
    QuietKeepsSound(db, db.(events := db.events[key := r]), past);
  }

  lemma CloseStepKeepsSound(trace: seq<Moment>, step: Step, past: Past)
    requires step.Close? && |trace| > 0 && Sound(trace[|trace| - 1].db, past)
    ensures var m := Execute(trace, step); Sound(m.db, Remember(past, m.note))
  {
    var db := trace[|trace| - 1].db;
    hide Sound, Settle;
    if step.key in db.events && 0 < step.commitAt < |trace|
       && CommittedFor(trace[step.commitAt - 1].db, trace[step.commitAt], step.key) {
      var id := trace[step.commitAt].note.id;
      SettleKeepsSound(db, id, db.events[step.key].event, trace[step.commitAt - 1].db.subscriptions[id].status,
                       trace[step.commitAt].db.subscriptions[id].status, past);
    }
  }

  lemma EventStepKeepsSound(trace: seq<Moment>, step: Step, past: Past)
    requires EventStep(step)
    requires |trace| > 0 && Sound(trace[|trace| - 1].db, past)
    requires forall i :: 0 <= i < |trace| ==>
             SubscriptionsEvolve(trace[i].db.subscriptions, trace[|trace| - 1].db.subscriptions)
    ensures var m := Execute(trace, step); Sound(m.db, Remember(past, m.note))
  {
    var db := trace[|trace| - 1].db;
    var m := Execute(trace, step);
    assert Housed(db);
    hide Sound, SubscriptionsEvolve, CountedPaid, ApplyState, SweepCheckout, FailCheckout, CommitMoment, OpenCheckout,
      BindRead,
         GrantPromotion, RevokePromotion, ReconcileUpdate, Target, StateFromSnapshot, Marks;
    match step
    case Receive(key, e) =>
      if key !in db.events && e.provider == key.provider {
        EventWriteKeepsSound(db, key, EventRecord(e, Received, 0), past);
      }
    case BindEvent(key, readAt) =>
      if key in db.events && readAt < |trace| && BindRead(db, trace[readAt].db, db.events[key].event).Ok? {
        BindKeepsSound(db, trace[readAt].db, db.events[key].event, past);
      }
    case Commit(_, _, _, _, _, _) => CommitStepKeepsSound(trace, step, past);
    case Close(_, _) => CloseStepKeepsSound(trace, step, past);
    case Begin(key) =>
      if key in db.events {
        EventWriteKeepsSound(db, key, m.db.events[key], past);
      }
    case GiveUp(key) =>
      if key in db.events {
        EventWriteKeepsSound(db, key, m.db.events[key], past);
      }
    case MarkRetried(key, _, _, _) =>
      if key in db.events && m.db != db {
        EventWriteKeepsSound(db, key, m.db.events[key], past);
      }
  }

  lemma OtherStepKeepsSound(trace: seq<Moment>, step: Step, past: Past)
    requires !EventStep(step)
    requires |trace| > 0 && Sound(trace[|trace| - 1].db, past)
    requires forall i :: 0 <= i < |trace| ==>
             SubscriptionsEvolve(trace[i].db.subscriptions, trace[|trace| - 1].db.subscriptions)
    ensures var m := Execute(trace, step); Sound(m.db, Remember(past, m.note))
  {
    var db := trace[|trace| - 1].db;
    var m := Execute(trace, step);
    assert Housed(db);
    hide Sound, SubscriptionsEvolve, ApplyState, SweepCheckout, FailCheckout, CommitMoment, OpenCheckout, BindRead,
         GrantPromotion, RevokePromotion, ReconcileUpdate, Target, StateFromSnapshot, Marks;
    match step
    case Open(id, c, p) => if OpenCheckout(db, id, c, p).Ok? { OpenKeepsSound(db, id, c, p, past); }
    case Ready(_, _, _) => QuietKeepsSound(db, m.db, past);
    case Fail(c, at) => if FailCheckout(db, c, at).Ok? { FailKeepsSound(db, c, at, past); }
    case Sweep(c, readAt, before) =>
      if readAt < |trace| && SweepFinds(trace[readAt].db, c, before) {
        var seen := trace[readAt].db;
        SweepKeepsSound(db, c, seen.checkouts[c], seen.subscriptions[seen.checkouts[c].subscription], before, past);
      }
    case Reconcile(id, readAt, p, graceDays, now) =>
      if readAt < |trace| && id in trace[readAt].db.subscriptions {
        ReconcileKeepsSound(db, id, trace[readAt].db.subscriptions[id], p, graceDays, now, past);
      }
    case Suspend(id, readAt, version, now) =>
      UnpaidUpdateKeepsSound(db, StatusOnly(id, Suspended, version), now, past);
    case ExpireJob(id, readAt, expectedAt, now) =>
      if readAt < |trace| && id in trace[readAt].db.subscriptions {
        UnpaidUpdateKeepsSound(db, ExpireUpdate(id, trace[readAt].db.subscriptions[id].version, expectedAt), now, past);
      }
    case Promote(g, reference, featureSet, now, endsAt) =>
      GrantKeepsSound(db, g, reference, featureSet, now, endsAt, past);
    case Demote(g, reference, now) => RevokeKeepsSound(db, g, reference, now, past);
  }

  lemma PastGoesOn(trace: seq<Moment>, m: Moment)
    ensures PastOf(trace + [m]) == Remember(PastOf(trace), m.note)
  {
    assert (trace + [m])[..|trace|] == trace;
  }

  lemma FreshIsSound(start: Db)
    requires Fresh(start)
    ensures Sound(start, PastOf([Moment(start, Nothing)]))
  {
    PastGoesOn([], Moment(start, Nothing));
    assert [] + [Moment(start, Nothing)] == [Moment(start, Nothing)];
  }

  lemma AllEvolveToLast(start: Db, steps: seq<Step>)
    ensures var t := Run(start, steps);
            forall i :: 0 <= i < |t| ==> SubscriptionsEvolve(t[i].db.subscriptions, t[|t| - 1].db.subscriptions)
  {
    forall i | 0 <= i <= |steps|
      ensures SubscriptionsEvolve(Run(start, steps)[i].db.subscriptions, Run(start, steps)[|steps|].db.subscriptions)
    {
      NothingGoesBack(start, steps, i, |steps|);
      hide Run, SubscriptionsEvolve;
    }
    hide Run, SubscriptionsEvolve;
  }

  lemma NoSteps(start: Db)
    ensures Run(start, []) == [Moment(start, Nothing)]
  {
  }

  /** The invariant holds after every run from an empty deployment. */
  lemma {:induction false} RunIsSound(start: Db, steps: seq<Step>)
    requires Fresh(start)
    ensures Sound(Run(start, steps)[|steps|].db, PastOf(Run(start, steps)))
  {
    hide *;
    if steps == [] {
      FreshIsSound(start);
      NoSteps(start);
    } else {
      var shorter, last := steps[..|steps| - 1], steps[|steps| - 1];
      var before := Run(start, shorter);
      RunIsSound(start, shorter);
      AllEvolveToLast(start, shorter);
      StepKeepsSound(before, last, PastOf(before));
      RunGoesOn(start, shorter, last);
      PastGoesOn(before, Execute(before, last));
      assert steps == shorter + [last];
    }
  }

  /** The same at every moment of a run. */
  lemma SoundAt(start: Db, steps: seq<Step>, n: nat)
    requires Fresh(start) && n <= |steps|
    ensures Sound(Run(start, steps)[n].db, PastOf(Run(start, steps)[..n + 1]))
  {
    RunExtends(start, steps, n);
    RunIsSound(start, steps[..n]);
    hide *;
  }

  // ----- one subscription per guild -----

  /** At every moment of every run a guild has at most one subscription outside Expired and Refunded. */
  lemma OneEffectiveSubscription(start: Db, steps: seq<Step>, a: SubscriptionId, b: SubscriptionId)
    requires Fresh(start)
    requires var db := Run(start, steps)[|steps|].db;
             && a in db.subscriptions && b in db.subscriptions && db.subscriptions[a].guild == db.subscriptions[b].guild
             && Effective(db.subscriptions[a].status) && Effective(db.subscriptions[b].status)
    ensures a == b
  {
    RunIsSound(start, steps);
    assert OneSlot(Run(start, steps)[|steps|].db.subscriptions);
    hide Run, Fresh, Sound;
  }

  // ----- no payment, no Premium -----

  /** The step delivers the provider's word that a payment succeeded. */
  ghost predicate ReportsPayment(db: Db, step: Step) {
    || (step.Commit? && step.key in db.events && PaymentSignal(db.events[step.key].event, step.snapshot))
    || (step.Reconcile? && step.snapshot.latestPayment.Succeeded?)
  }

  /** The i-th step of the run was accepted for subscription `id` and reported a payment. */
  ghost predicate PaidAt(start: Db, steps: seq<Step>, id: SubscriptionId, i: nat) {
    i < |steps| &&
    var t := Run(start, steps);
    && ReportsPayment(t[i].db, steps[i])
    && t[i + 1].note.Applied? && t[i + 1].note.id == id
    && id in t[i].db.subscriptions && id in t[i + 1].db.subscriptions
    && t[i + 1].db.subscriptions[id].version == t[i].db.subscriptions[id].version + 1
  }

  /** What the note of an application says about the step that made it. */
  ghost predicate NoteHolds(db: Db, step: Step, m: Moment) {
    m.note.Applied? ==>
      && m.note.id in db.subscriptions && m.note.id in m.db.subscriptions
      && m.db.subscriptions[m.note.id].version == db.subscriptions[m.note.id].version + 1
      && (m.note.success ==> ReportsPayment(db, step))
      && (m.note.receipt.Some? ==>
            && step.Commit? && step.key == m.note.receipt.value
            && step.key in db.events && PaidWithAmount(db.events[step.key].event))
  }

  lemma CommitNoteHolds(db: Db, seen: Db, step: Step, before: bool)
    requires step.Commit? && step.key in db.events
    ensures NoteHolds(db, step,
                      CommitMoment(db, seen, step.key, db.events[step.key].event, step.snapshot, step.graceDays,
                                   before))
  {
    var e := db.events[step.key].event;
    if Target(seen, e).Some? {
      TargetExists(seen, e);
      var id := Target(seen, e).value;
      AppliedNote(db, Decide(id, seen.subscriptions[id], step.key, e, step.snapshot, step.graceDays, before),
                  e.occurredAt);
    }
    hide ApplyState, Target, Decide, PaymentSignal;
  }

  lemma CommitNoteMeans(trace: seq<Moment>, step: Step)
    requires |trace| > 0 && step.Commit?
    ensures NoteHolds(trace[|trace| - 1].db, step, Execute(trace, step))
  {
    var db := trace[|trace| - 1].db;
    hide CommitMoment, Target, CountedPaid;
    if step.key in db.events && step.boundAt <= step.readAt <= step.countAt < |trace| {
      CommitNoteHolds(db, trace[step.readAt].db, step,
                      CountedPaid(trace[step.readAt].db, trace[step.countAt].db, db.events[step.key].event));
    }
  }

  lemma ReconcileNoteHolds(db: Db, step: Step, seen: Subscription)
    requires step.Reconcile?
    ensures var r := CommitSnapshot(db, step.id, seen, step.snapshot, step.graceDays, step.now);
            r.Ok? && r.value.Some? ==>
              var note := Applied(step.id, step.now, step.snapshot.latestPayment.Succeeded?, None, None, true);
              NoteHolds(db, step, Moment(r.value.value, note))
  {
    var d := StateFromSnapshot(seen.status, step.snapshot, step.graceDays, step.now);
    if d.Ok? {
      AppliedNote(db, ReconcileUpdate(step.id, seen, step.snapshot, d.value, step.now), step.now);
    }
    hide StateFromSnapshot, ApplyState;
  }

  lemma NoteMeans(trace: seq<Moment>, step: Step)
    requires |trace| > 0
    ensures NoteHolds(trace[|trace| - 1].db, step, Execute(trace, step))
  {
    var db := trace[|trace| - 1].db;
    if step.Commit? {
      CommitNoteMeans(trace, step);
      hide *;
      return;
    } else if EventStep(step) && !step.BindEvent? {
      EventBookkeeping(trace, step);
      hide Execute, ReportsPayment;
      return;
    }
    hide ApplyState, CommitSnapshot, OpenCheckout, SweepCheckout, FailCheckout, BindRead, GrantPromotion,
         RevokePromotion, ReportsPayment, SlotOccupied, CheckoutOpen;
    match step {
      case Reconcile(id, readAt, p, graceDays, now) =>
        if readAt < |trace| && id in trace[readAt].db.subscriptions {
          ReconcileNoteHolds(db, step, trace[readAt].db.subscriptions[id]);
        }
      case Suspend(id, _, version, now) => AppliedNote(db, StatusOnly(id, Suspended, version), now);
      case ExpireJob(id, readAt, at, now) =>
        if readAt < |trace| && id in trace[readAt].db.subscriptions {
          AppliedNote(db, ExpireUpdate(id, trace[readAt].db.subscriptions[id].version, at), now);
        }
      case _ =>
    }
  }

  lemma TargetExists(db: Db, e: Event)
    requires Target(db, e).Some?
    ensures Target(db, e).value in db.subscriptions
  {
  }

  lemma AppliedNote(db: Db, u: StateUpdate, now: Time)
    ensures ApplyState(db, u, now).Ok? ==>
              var db' := ApplyState(db, u, now).value;
              && u.subscription in db.subscriptions && u.subscription in db'.subscriptions
              && db'.subscriptions[u.subscription].version == db.subscriptions[u.subscription].version + 1
  {
    hide CommitError, MaterialisedRows, UpsertPayment, MarkProcessed;
  }

  lemma {:induction false} PaidMeans(start: Db, steps: seq<Step>, id: SubscriptionId) returns (i: nat)
    requires id in PastOf(Run(start, steps)).paid
    ensures PaidAt(start, steps, id, i)
  {
    var t := Run(start, steps);
    i := 0;
    if steps == [] {
      assert false;
    } else {
      var last := |steps| - 1;
      var shorter := steps[..last];
      assert t[..last + 1] == Run(start, shorter);
      hide Execute, ReportsPayment;
      if id in PastOf(Run(start, shorter)).paid {
        i := PaidMeans(start, shorter, id);
      } else {
        NoteMeans(Run(start, shorter), steps[last]);
        i := last;
      }
    }
  }

  /**
   No payment, no Premium: a materialised row exists only for a subscription of that guild for which an
   earlier accepted step carried the provider's word that a payment succeeded.
   */
  lemma NoPaymentNoPremium(start: Db, steps: seq<Step>, k: RowKey) returns (i: nat)
    requires Fresh(start)
    requires k in Run(start, steps)[|steps|].db.rows && k.source == FromSubscription
    ensures PaidAt(start, steps, k.reference, i)
    ensures var db := Run(start, steps)[|steps|].db;
            k.reference in db.subscriptions && db.subscriptions[k.reference].guild == k.guild
  {
    RunIsSound(start, steps);
    assert RowOwned(k, Run(start, steps)[|steps|].db.subscriptions, PastOf(Run(start, steps)).paid);
    hide Run, Fresh, Sound, PaidAt;
    i := PaidMeans(start, steps, k.reference);
  }

  /** The same for the status itself: Active and what only follows it need a reported payment. */
  lemma NoPaymentNoPaidStatus(start: Db, steps: seq<Step>, id: SubscriptionId) returns (i: nat)
    requires Fresh(start)
    requires var db := Run(start, steps)[|steps|].db; id in db.subscriptions && PaidStatus(db.subscriptions[id].status)
    ensures PaidAt(start, steps, id, i)
  {
    RunIsSound(start, steps);
    assert PaymentBehind(id, Run(start, steps)[|steps|].db.subscriptions[id], PastOf(Run(start, steps)).paid);
    hide Run, Fresh, Sound, PaidAt;
    i := PaidMeans(start, steps, id);
  }

  // ----- the ledger -----

  ghost predicate AppliedTo(m: Moment, id: SubscriptionId) {
    m.note.Applied? && m.note.id == id
  }

  function SucceededRows(ledger: map<EventKey, Payment>, id: SubscriptionId): set<EventKey> {
    set k | k in ledger && ledger[k].subscription == id && ledger[k].status.Succeeded?
  }

  ghost function Total(ledger: map<EventKey, Payment>, keys: set<EventKey>): nat
    requires keys <= ledger.Keys
  {
    if keys == {} then 0
    else
      var k :| k in keys;
      ledger[k].amount + Total(ledger, keys - {k})
  }

  lemma {:induction false} TotalOfEqualAmounts(ledger: map<EventKey, Payment>, keys: set<EventKey>, price: nat)
    requires keys <= ledger.Keys && forall k :: k in keys ==> ledger[k].amount == price
    ensures Total(ledger, keys) == price * |keys|
  {
    if keys != {} {
      var k :| k in keys && Total(ledger, keys) == ledger[k].amount + Total(ledger, keys - {k});
      TotalOfEqualAmounts(ledger, keys - {k}, price);
      assert |keys| == |keys - {k}| + 1;
      calc {
        price + price * |keys - {k}|;
        price * (|keys - {k}| + 1);
        price * |keys|;
      }
    }
  }

  /** The paid events with an amount that the run committed for a subscription. */
  ghost function Receipts(trace: seq<Moment>, id: SubscriptionId): set<EventKey> {
    set i | 0 <= i < |trace| && AppliedTo(trace[i], id) && trace[i].note.receipt.Some? :: trace[i].note.receipt.value
  }

  lemma {:induction false} ReceiptsRemembered(trace: seq<Moment>, id: SubscriptionId, k: EventKey)
    ensures (id, k) in PastOf(trace).receipts <==> k in Receipts(trace, id)
  {
    if trace != [] {
      var last := |trace| - 1;
      var shorter := trace[..last];
      ReceiptsRemembered(shorter, id, k);
      if k in Receipts(shorter, id) {
        var i :| 0 <= i < last && AppliedTo(shorter[i], id) && shorter[i].note.receipt == Some(k);
        assert AppliedTo(trace[i], id);
      }
      if k in Receipts(trace, id) {
        var i :| 0 <= i < |trace| && AppliedTo(trace[i], id) && trace[i].note.receipt == Some(k);
        if i < last { assert AppliedTo(shorter[i], id); }
      }
    }
  }

  /**
   In every run the succeeded rows of a subscription are paid events it committed, one row each at the
   price snapshot; and every paid event committed for anyone has its succeeded row, with one of those.
   */
  lemma LedgerIsPriced(start: Db, steps: seq<Step>, id: SubscriptionId, k: EventKey)
    requires Fresh(start) && id in Run(start, steps)[|steps|].db.subscriptions
    ensures var t := Run(start, steps);
            var db := t[|steps|].db;
            && SucceededRows(db.ledger, id) <= Receipts(t, id)
            && Total(db.ledger, SucceededRows(db.ledger, id))
               == db.subscriptions[id].price * |SucceededRows(db.ledger, id)|
            && (k in Receipts(t, id) ==>
                  && k in db.ledger && db.ledger[k].status.Succeeded?
                  && db.ledger[k].subscription in db.subscriptions && k in Receipts(t, db.ledger[k].subscription))
  {
    RunIsSound(start, steps);
    var t := Run(start, steps);
    var db := t[|steps|].db;
    var receipts := PastOf(t).receipts;
    assert LedgerFaithful(db, receipts) && ReceiptsKept(db, receipts);
    hide Run, Fresh, PastOf, AppliedTo, Receipts, Sound, Housed;
    var keys := SucceededRows(db.ledger, id);
    forall x | x in keys
      ensures x in Receipts(t, id) && db.ledger[x].amount == db.subscriptions[id].price
    {
      assert LedgerEntry(x, db.ledger[x], db, receipts);
      ReceiptsRemembered(t, id, x);
    }
    TotalOfEqualAmounts(db.ledger, keys, db.subscriptions[id].price);
    ReceiptsRemembered(t, id, k);
    if k in Receipts(t, id) {
      assert (id, k) in receipts && (id, k).1 == k;
      assert LedgerEntry(k, db.ledger[k], db, receipts);
      ReceiptsRemembered(t, db.ledger[k].subscription, k);
    }
  }

  /** The succeeded rows of every subscription are exactly the paid events committed for it. */
  ghost predicate RowsAreReceipts(start: Db, steps: seq<Step>) {
    var t := Run(start, steps);
    forall id :: id in t[|steps|].db.subscriptions ==> SucceededRows(t[|steps|].db.ledger, id) == Receipts(t, id)
  }

  lemma FindReceipt(t: seq<Moment>, id: SubscriptionId, k: EventKey) returns (j: nat)
    requires k in Receipts(t, id)
    ensures j < |t| && AppliedTo(t[j], id) && t[j].note.receipt == Some(k)
  {
    j :| 0 <= j < |t| && AppliedTo(t[j], id) && t[j].note.receipt == Some(k);
  }

  lemma ReceiptHasSubscription(start: Db, steps: seq<Step>, id: SubscriptionId, k: EventKey)
    requires k in Receipts(Run(start, steps), id)
    ensures id in Run(start, steps)[|steps|].db.subscriptions
  {
    hide Run, Execute, Receipts, SubscriptionEvolves, ReportsPayment;
    var j := FindReceipt(Run(start, steps), id, k);
    FirstIsQuiet(start, steps);
    StepOf(start, steps, j - 1);
    NoteMeans(Run(start, steps[..j - 1]), steps[j - 1]);
    NothingGoesBack(start, steps, j, |steps|);
  }

  /** What a receipt is: the commit of that very event, a paid one with an amount, accepted for that subscription. */
  lemma {:induction false} ReceiptMeans(start: Db, steps: seq<Step>, id: SubscriptionId, k: EventKey) returns (i: nat)
    requires k in Receipts(Run(start, steps), id)
    ensures i < |steps| && steps[i].Commit? && steps[i].key == k && AppliedTo(Run(start, steps)[i + 1], id)
    ensures var db := Run(start, steps)[i].db; k in db.events && PaidWithAmount(db.events[k].event)
  {
    hide Run, Execute, Receipts, ReportsPayment, PaidWithAmount;
    var j := FindReceipt(Run(start, steps), id, k);
    FirstIsQuiet(start, steps);
    i := j - 1;
    StepOf(start, steps, i);
    NoteMeans(Run(start, steps[..i]), steps[i]);
  }

  lemma FirstIsQuiet(start: Db, steps: seq<Step>)
    ensures Run(start, steps)[0] == Moment(start, Nothing)
  {
    RunExtends(start, steps, 0);
  }

  // ----- conservation of the ledger -----

  /** An accepted commit of a paid event finds no ledger row of the event, or one of its own subscription. */
  ghost predicate FindsOwnRow(trace: seq<Moment>, step: Step)
    requires |trace| > 0
  {
    var db := trace[|trace| - 1].db;
    step.Commit? && step.key in db.events && PaidWithAmount(db.events[step.key].event)
    && step.readAt < |trace| && Execute(trace, step).note.Applied? && step.key in db.ledger ==>
      Target(trace[step.readAt].db, db.events[step.key].event) == Some(db.ledger[step.key].subscription)
  }

  ghost predicate CommitsFindOwnRows(start: Db, steps: seq<Step>) {
    forall i | 0 <= i < |steps| :: FindsOwnRow(Run(start, steps[..i]), steps[i])
  }

  /** What an accepted commit of a paid event with an amount leaves in note and ledger. */
  lemma PaidCommitMeans(trace: seq<Moment>, step: Step)
    requires |trace| > 0 && step.Commit? && Execute(trace, step).note.Applied?
    requires step.key in trace[|trace| - 1].db.events && PaidWithAmount(trace[|trace| - 1].db.events[step.key].event)
    ensures var db, m := trace[|trace| - 1].db, Execute(trace, step);
            && step.readAt < |trace| && m.note.receipt == Some(step.key)
            && Target(trace[step.readAt].db, db.events[step.key].event) == Some(m.note.id)
            && step.key in m.db.ledger
            && m.db.ledger[step.key].subscription
               == if step.key in db.ledger then db.ledger[step.key].subscription else m.note.id
  {
    var db := trace[|trace| - 1].db;
    var e := db.events[step.key].event;
    var seen := trace[step.readAt].db;
    TargetExists(seen, e);
    var id := Target(seen, e).value;
    var before := CountedPaid(seen, trace[step.countAt].db, e);
    var u := Decide(id, seen.subscriptions[id], step.key, e, step.snapshot, step.graceDays, before);
    assert u.subscription == id && u.payment.Some? && u.payment.value.key == step.key;
    hide Decide, Target, CountedPaid;
    ApplyShape(db, u, e.occurredAt, ApplyState(db, u, e.occurredAt).value);
    hide ApplyState;
  }

  /** The row of a committed event stays with its subscription. */
  lemma RowStays(start: Db, steps: seq<Step>, i: nat, k: EventKey)
    requires i <= |steps| && k in Run(start, steps)[i].db.ledger
    ensures var a, b := Run(start, steps)[i].db.ledger, Run(start, steps)[|steps|].db.ledger;
            k in b && b[k].subscription == a[k].subscription
  {
    NothingGoesBack(start, steps, i, |steps|);
    assert LedgerEvolves(Run(start, steps)[i].db.ledger, Run(start, steps)[|steps|].db.ledger);
    hide Run, Evolves;
  }

  lemma OwnRowsMeanEqual(start: Db, steps: seq<Step>, id: SubscriptionId)
    requires Fresh(start) && CommitsFindOwnRows(start, steps) && id in Run(start, steps)[|steps|].db.subscriptions
    ensures SucceededRows(Run(start, steps)[|steps|].db.ledger, id) == Receipts(Run(start, steps), id)
  {
    hide Run, Receipts, Fresh, Execute, FindsOwnRow;
    var t := Run(start, steps);
    LedgerIsPriced(start, steps, id, EventKey(Stripe, 0));
    forall k | k in Receipts(t, id)
      ensures k in SucceededRows(t[|steps|].db.ledger, id)
    {
      OwnReceiptHasRow(start, steps, id, k);
      LedgerIsPriced(start, steps, id, k);
    }
  }

  lemma OwnReceiptHasRow(start: Db, steps: seq<Step>, id: SubscriptionId, k: EventKey)
    requires CommitsFindOwnRows(start, steps) && k in Receipts(Run(start, steps), id)
    ensures var ledger := Run(start, steps)[|steps|].db.ledger; k in ledger && ledger[k].subscription == id
  {
    hide Run, Receipts, Execute, PaidWithAmount, FindsOwnRow;
    var i := ReceiptMeans(start, steps, id, k);
    assert Run(start, steps)[i + 1].note.Applied? && Run(start, steps)[i + 1].note.id == id;
    var before := Run(start, steps[..i]);
    assert FindsOwnRow(before, steps[i]);
    StepOf(start, steps, i);
    hide *;
    OwnCommitMeans(before, steps[i]);
    RowStays(start, steps, i + 1, k);
  }

  lemma OwnCommitMeans(trace: seq<Moment>, step: Step)
    requires |trace| > 0 && FindsOwnRow(trace, step) && step.Commit? && Execute(trace, step).note.Applied?
    requires step.key in trace[|trace| - 1].db.events && PaidWithAmount(trace[|trace| - 1].db.events[step.key].event)
    ensures var m := Execute(trace, step); step.key in m.db.ledger && m.db.ledger[step.key].subscription == m.note.id
  {
    PaidCommitMeans(trace, step);
    hide Execute, Target, PaidWithAmount;
  }

  lemma EqualMeansOwnRow(start: Db, steps: seq<Step>, i: nat)
    requires RowsAreReceipts(start, steps) && i < |steps|
    ensures FindsOwnRow(Run(start, steps[..i]), steps[i])
  {
    hide Run, Execute, PaidWithAmount, Target, SucceededRows, RowsAreReceipts, Receipts;
    var t, step := Run(start, steps), steps[i];
    StepOf(start, steps, i);
    var db := t[i].db;
    if step.Commit? && step.key in db.events && PaidWithAmount(db.events[step.key].event) && t[i + 1].note.Applied?
       && step.key in db.ledger {
      PaidCommitMeans(Run(start, steps[..i]), step);
      ReceiptAt(t, i + 1, step.key);
      ReceiptIsRow(start, steps, t[i + 1].note.id, step.key);
      RowStays(start, steps, i, step.key);
    }
  }

  lemma ReceiptAt(t: seq<Moment>, j: nat, k: EventKey)
    requires j < |t| && t[j].note.Applied? && t[j].note.receipt == Some(k)
    ensures k in Receipts(t, t[j].note.id)
  {
    assert AppliedTo(t[j], t[j].note.id);
  }

  lemma ReceiptIsRow(start: Db, steps: seq<Step>, id: SubscriptionId, k: EventKey)
    requires RowsAreReceipts(start, steps) && k in Receipts(Run(start, steps), id)
    ensures var ledger := Run(start, steps)[|steps|].db.ledger; k in ledger && ledger[k].subscription == id
  {
    ReceiptHasSubscription(start, steps, id, k);
    hide Run, Receipts;
    assert k in SucceededRows(Run(start, steps)[|steps|].db.ledger, id);
  }

  /**
   At the end of a run the succeeded rows of every subscription are exactly the paid events committed for it if
   and only if every accepted commit of a paid event found no row of the event, or one of its own subscription:
   the write itself does not look whose row it updates.
   */
  lemma LedgerConservationExactly(start: Db, steps: seq<Step>)
    requires Fresh(start)
    ensures RowsAreReceipts(start, steps) <==> CommitsFindOwnRows(start, steps)
  {
    if CommitsFindOwnRows(start, steps) {
      forall id | id in Run(start, steps)[|steps|].db.subscriptions
        ensures SucceededRows(Run(start, steps)[|steps|].db.ledger, id) == Receipts(Run(start, steps), id)
      {
        hide *;
        OwnRowsMeanEqual(start, steps, id);
      }
    }
    if RowsAreReceipts(start, steps) {
      forall i | 0 <= i < |steps|
        ensures FindsOwnRow(Run(start, steps[..i]), steps[i])
      {
        hide *;
        EqualMeansOwnRow(start, steps, i);
      }
    }
    hide Run, Receipts, Fresh, SucceededRows, FindsOwnRow;
  }

  /**
   Conservation: in such a run the succeeded ledger rows of a subscription are exactly the distinct paid events
   with an amount committed for it, and add up to its price times their number.
   */
  lemma LedgerConservation(start: Db, steps: seq<Step>, id: SubscriptionId)
    requires Fresh(start) && CommitsFindOwnRows(start, steps) && id in Run(start, steps)[|steps|].db.subscriptions
    ensures var t := Run(start, steps);
            var db := t[|steps|].db;
            && SucceededRows(db.ledger, id) == Receipts(t, id)
            && Total(db.ledger, SucceededRows(db.ledger, id)) == db.subscriptions[id].price * |Receipts(t, id)|
  {
    OwnRowsMeanEqual(start, steps, id);
    LedgerIsPriced(start, steps, id, EventKey(Stripe, 0));
    hide *;
  }
}
