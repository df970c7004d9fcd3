/** What a guild is answered when it asks which features it has: the granting rule, from the start of each row on. */
module VisibleRows {
  import opened Common
  import opened Lifecycle
  import opened BillingModel
  import opened ProviderEvents
  import opened BillingSteps
  import opened BillingHistory
  import opened BillingInvariants
  import opened BillingTheorems
  import opened BillingApplications
  import opened BillingRows
  import opened CachedBilling
  import Reads = CachedReads

  /** The entitlement query answers a row if and only if it is lit and has started, and answers it as it is. */
  lemma QueryAnswersExactly(rows: map<RowKey, Row>, at: Time, k: RowKey)
    ensures k in Reads.Visible(rows, at) <==> Lit(rows, k, at) && rows[k].startsAt <= at
    ensures k in Reads.Visible(rows, at) <==>
            && k in rows && rows[k].status == RowActive && rows[k].startsAt <= at
            && (rows[k].endsAt == None || at < rows[k].endsAt.value)
    ensures k in Reads.Visible(rows, at) ==> Reads.Visible(rows, at)[k] == rows[k]
  {
  }

  // ----- one application of state -----

  /** A row starts where it started before; a new one with the period, or at once where no period is recorded. */
  ghost predicate StartKept(rows: map<RowKey, Row>, rows': map<RowKey, Row>, k: RowKey, s: Subscription, now: Time) {
    k in rows' ==>
      rows'[k].startsAt == if k in rows then rows[k].startsAt
                           else if s.periodStart.Some? then s.periodStart.value else now
  }

  /** A row of the subscription is there if it was before or its feature is granted now. */
  ghost predicate RowWritten(db: Db, db': Db, s: Subscription, id: SubscriptionId, key: EntitlementKey, now: Time) {
    var k := SubscriptionRow(s.guild, key, id);
    && StartKept(db.rows, db'.rows, k, s, now)
    && (k in db'.rows <==> k in db.rows || Granted(db.catalogue, s, key, now))
    && (Granted(db.catalogue, s, key, now) ==>
          db'.rows[k].status == RowActive && db'.rows[k].endsAt == GrantOf(s, now).endsAt)
    && (k in db.rows && !Granted(db.catalogue, s, key, now) ==>
          db'.rows[k].status == RowRevoked && db'.rows[k].endsAt == Some(now))
  }

  lemma SyncedRowWritten(catalogue: Catalogue, rows: map<RowKey, Row>, id: SubscriptionId, s: Subscription, now: Time,
      db: Db, db': Db, key: EntitlementKey)
    requires Desired(catalogue, s, now).Ok? && db.catalogue == catalogue && db.rows == rows
    requires db'.rows == MaterialisedRows(catalogue, rows, id, s, now)
    ensures RowWritten(db, db', s, id, key, now)
  {
    var desired := Desired(catalogue, s, now).value;
    var k := SubscriptionRow(s.guild, key, id);
    assert key in KeySet(desired.0) <==> Granted(catalogue, s, key, now);
    assert OwnedBy(k, s.guild, id);
  }

  /** What an accepted application of state writes to the rows, row by row; rows of others stay as they are. */
  lemma ApplicationWritesRows(db: Db, u: StateUpdate, now: Time, db': Db)
    requires ApplyState(db, u, now) == Ok(db')
    ensures u.subscription in db'.subscriptions
    ensures forall key: EntitlementKey ::
            RowWritten(db, db', db'.subscriptions[u.subscription], u.subscription, key, now)
    ensures forall k: RowKey :: !(k.source == FromSubscription && k.reference == u.subscription
                                  && k.guild == db'.subscriptions[u.subscription].guild) ==>
              (k in db'.rows <==> k in db.rows) && (k in db.rows ==> db'.rows[k] == db.rows[k])
  {
    ApplyShape(db, u, now, db');
    ApplyTouchesOwnRows(db, u, now, db');
    var s' := Updated(db.subscriptions[u.subscription], u);
    assert s'.guild == db.subscriptions[u.subscription].guild;
    assert db'.rows == MaterialisedRows(db.catalogue, db.rows, u.subscription, s', now);
    hide ApplyState, Updated, RowWritten, MaterialisedRows;
    forall key: EntitlementKey
      ensures RowWritten(db, db', s', u.subscription, key, now)
    {
      SyncedRowWritten(db.catalogue, db.rows, u.subscription, s', now, db, db', key);
    }
  }

  /**
   After an accepted application a feature is answered, at every later instant, if and only if it is granted
   then and its row has started: with the period where the row is new, where it started before otherwise.
   */
  lemma ApplicationIsAnswered(db: Db, u: StateUpdate, now: Time, db': Db, key: EntitlementKey, t: Time)
    requires ApplyState(db, u, now) == Ok(db') && t >= now
    ensures u.subscription in db'.subscriptions
    ensures var s := db'.subscriptions[u.subscription];
            var k := SubscriptionRow(s.guild, key, u.subscription);
            k in Reads.Visible(db'.rows, t) <==>
              Granted(db.catalogue, s, key, t)
              && t >= if k in db.rows then db.rows[k].startsAt
                      else if s.periodStart.Some? then s.periodStart.value else now
  {
    ApplicationWritesRows(db, u, now, db');
    ApplyMaterialises(db, u, now, db');
    var s := db'.subscriptions[u.subscription];
    var k := SubscriptionRow(s.guild, key, u.subscription);
    assert RowWritten(db, db', s, u.subscription, key, now);
    assert Lit(db'.rows, k, t) <==> Granted(db'.catalogue, s, key, t);
    assert db'.catalogue == db.catalogue by { ApplyShape(db, u, now, db'); }
    GrantOnlyLapses(s, now, t);
    hide ApplyState, Granted, Lit;
    QueryAnswersExactly(db'.rows, t, k);
  }

  // ----- runs -----

  /** Step `i` applied a state under which the row appeared; it starts with the period recorded then. */
  ghost predicate RowAppears(start: Db, steps: seq<Step>, i: nat, k: RowKey) {
    i < |steps| &&
    var t := Run(start, steps);
    && AppliedTo(t[i + 1], k.reference) && k !in t[i].db.rows && k in t[i + 1].db.rows
    && k.reference in t[i + 1].db.subscriptions
    && StartKept(t[i].db.rows, t[i + 1].db.rows, k, t[i + 1].db.subscriptions[k.reference], t[i + 1].note.now)
  }

  lemma StepKeepsStarts(trace: seq<Moment>, step: Step, k: RowKey)
    requires |trace| > 0 && k.source == FromSubscription && k in Execute(trace, step).db.rows
    ensures var db, m := Last(trace), Execute(trace, step);
            if k in db.rows then m.db.rows[k].startsAt == db.rows[k].startsAt
            else AppliedTo(m, k.reference) && k.reference in m.db.subscriptions
                 && StartKept(db.rows, m.db.rows, k, m.db.subscriptions[k.reference], m.note.now)
  {
    var db, m := Last(trace), Execute(trace, step);
    hide Execute;
    if m.note.Applied? {
      AppliedBy(trace, step);
      var u := AppliedUpdate(trace, step, m);
      hide *;
      UpdateKeepsStarts(db, u, m.note.now, m.db, k);
    } else {
      QuietStepKeepsRows(trace, step);
    }
  }

  /** The update an applying step has made. */
  ghost function AppliedUpdate(trace: seq<Moment>, step: Step, m: Moment): (u: StateUpdate)
    requires |trace| > 0
    requires AppliesEvent(trace, step, m) || AppliesSnapshot(trace, step, m) || AppliesSuspension(trace, step, m)
             || AppliesExpiry(trace, step, m)
    ensures m.note.Applied? && u.subscription == m.note.id && ApplyState(Last(trace), u, m.note.now) == Ok(m.db)
  {
    hide ApplyState;
    var seen := trace[step.readAt].db;
    match step
    case Commit(key, _, _, countAt, p, graceDays) =>
      var e := Last(trace).events[key].event;
      Decide(m.note.id, seen.subscriptions[m.note.id], key, e, p, graceDays,
             CountedPaid(seen, trace[countAt].db, e))
    case Reconcile(id, _, p, graceDays, now) =>
      var s := seen.subscriptions[id];
      ReconcileUpdate(id, s, p, StateFromSnapshot(s.status, p, graceDays, now).value, now)
    case Suspend(id, _, version, _) => StatusOnly(id, Suspended, version)
    case ExpireJob(id, _, at, _) => ExpireUpdate(id, seen.subscriptions[id].version, at)
  }

  lemma UpdateKeepsStarts(db: Db, u: StateUpdate, now: Time, db': Db, k: RowKey)
    requires ApplyState(db, u, now) == Ok(db') && k.source == FromSubscription && k in db'.rows
    ensures if k in db.rows then db'.rows[k].startsAt == db.rows[k].startsAt
            else u.subscription == k.reference && k.reference in db'.subscriptions
                 && StartKept(db.rows, db'.rows, k, db'.subscriptions[k.reference], now)
  {
    ApplicationWritesRows(db, u, now, db');
    var s := db'.subscriptions[u.subscription];
    assert RowWritten(db, db', s, u.subscription, k.key, now);
    if k.reference == u.subscription && k.guild == s.guild {
      assert k == SubscriptionRow(s.guild, k.key, u.subscription);
    }
    hide ApplyState, Granted;
  }

  /** Every row of a subscription appeared with one application of state and has kept the start it got then. */
  lemma {:induction false} RowsRememberTheirStart(start: Db, steps: seq<Step>, k: RowKey) returns (i: nat)
    requires Fresh(start) && k.source == FromSubscription && k in Run(start, steps)[|steps|].db.rows
    ensures RowAppears(start, steps, i, k)
    ensures Run(start, steps)[|steps|].db.rows[k].startsAt == Run(start, steps)[i + 1].db.rows[k].startsAt
  {
    var t := Run(start, steps);
    FirstIsQuiet(start, steps);
    assert steps != [];
    var last := |steps| - 1;
    var shorter := steps[..last];
    StepOf(start, steps, last);
    hide Run, Execute, StartKept;
    StepKeepsStarts(Run(start, shorter), steps[last], k);
    if k in t[last].db.rows {
      i := RowsRememberTheirStart(start, shorter, k);
      RunExtends(start, steps, last);
      assert Run(start, shorter)[i] == t[i] && Run(start, shorter)[i + 1] == t[i + 1];
    } else {
      i := last;
    }
  }

  /** Whatever period an accepted step recorded for the subscription, it had begun by `t`; so had the step itself. */
  ghost predicate PeriodsBegunBy(trace: seq<Moment>, id: SubscriptionId, t: Time) {
    forall i :: 0 <= i < |trace| && AppliedTo(trace[i], id) && id in trace[i].db.subscriptions ==>
      var start := trace[i].db.subscriptions[id].periodStart;
      (if start.Some? then start.value else trace[i].note.now) <= t
  }

  /**
   In a run whose failures spare the rows, from the last application of state on: a feature of a subscription
   is answered by a direct read if and only if it is granted at that instant and its row has started.
   */
  lemma AnswersAreTheRule(start: Db, steps: seq<Step>, id: SubscriptionId, key: EntitlementKey, t: Time)
    requires Fresh(start) && FailuresSpareRows(start, steps)
    requires var db := Run(start, steps)[|steps|].db; id in db.subscriptions
    requires SinceLastApplied(Run(start, steps), id, t)
    ensures var db := Run(start, steps)[|steps|].db;
            var s := db.subscriptions[id];
            var k := SubscriptionRow(s.guild, key, id);
            k in Reads.Visible(GuildRows(db, s.guild), t) <==>
              GrantOf(s, t).grants && InFeatureSet(db.catalogue, s, key) && k in db.rows && db.rows[k].startsAt <= t
  {
    RowsAreTheRule(start, steps, id, key, t);
    var db := Run(start, steps)[|steps|].db;
    var s := db.subscriptions[id];
    var k := SubscriptionRow(s.guild, key, id);
    hide Run, Fresh, FailuresSpareRows, SinceLastApplied;
    QueryAnswersExactly(GuildRows(db, s.guild), t, k);
    hide Reads.Visible, GrantOf;
  }

  /**
   Where the recorded periods have begun, the rows answered for a subscription are exactly the features the
   granting rule grants: a paying guild gets all of them, and nobody gets one that is not granted.
   */
  lemma PayingGuildIsAnswered(start: Db, steps: seq<Step>, id: SubscriptionId, key: EntitlementKey, t: Time)
    requires Fresh(start) && FailuresSpareRows(start, steps)
    requires var db := Run(start, steps)[|steps|].db; id in db.subscriptions
    requires SinceLastApplied(Run(start, steps), id, t) && PeriodsBegunBy(Run(start, steps), id, t)
    ensures var db := Run(start, steps)[|steps|].db;
            var s := db.subscriptions[id];
            SubscriptionRow(s.guild, key, id) in Reads.Visible(GuildRows(db, s.guild), t) <==>
              GrantOf(s, t).grants && InFeatureSet(db.catalogue, s, key)
  {
    AnswersAreTheRule(start, steps, id, key, t);
    RowsAreTheRule(start, steps, id, key, t);
    var db := Run(start, steps)[|steps|].db;
    var k := SubscriptionRow(db.subscriptions[id].guild, key, id);
    hide Run, Fresh, FailuresSpareRows, SinceLastApplied, GrantOf, Reads.Visible;
    if k in db.rows {
      var i := RowsRememberTheirStart(start, steps, k);
      assert AppliedTo(Run(start, steps)[i + 1], id);
    }
  }

  /** So a guild whose subscription grants a plan with features is not answered with nothing. */
  lemma PayingGuildIsNotEmptyHanded(start: Db, steps: seq<Step>, id: SubscriptionId, t: Time)
    requires Fresh(start) && FailuresSpareRows(start, steps)
    requires var db := Run(start, steps)[|steps|].db; id in db.subscriptions
    requires SinceLastApplied(Run(start, steps), id, t) && PeriodsBegunBy(Run(start, steps), id, t)
    requires var db := Run(start, steps)[|steps|].db;
             var s := db.subscriptions[id];
             GrantOf(s, t).grants && exists key :: InFeatureSet(db.catalogue, s, key)
    ensures var db := Run(start, steps)[|steps|].db;
            Reads.Visible(GuildRows(db, db.subscriptions[id].guild), t) != map[]
  {
    var db := Run(start, steps)[|steps|].db;
    var key :| InFeatureSet(db.catalogue, db.subscriptions[id], key);
    PayingGuildIsAnswered(start, steps, id, key, t);
    hide *;
  }
}
