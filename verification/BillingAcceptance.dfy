/** Exactly when the central transaction accepts an update, and what it answers when it does not. */
module BillingAcceptance {
  import opened Common
  import opened Lifecycle
  import opened BillingModel

  /** The provider's clock of the update is not behind the one recorded. */
  predicate NotOutdated(s: Subscription, u: StateUpdate) {
    match (s.providerClock, u.providerClock)
    case (Some(recorded), Put(Some(given))) => recorded <= given
    case _ => true
  }

  predicate BoundsGrace(u: StateUpdate) {
    u.next == GracePeriod ==> u.graceEnd.Put? && u.graceEnd.value.Some?
  }

  /** The update may be written to the record as it is. */
  predicate MayFollow(s: Subscription, u: StateUpdate) {
    s.version == u.expectedVersion && NotOutdated(s, u) && CanTransition(s.status, u.next) && BoundsGrace(u)
  }

  /** Periods run forward, and a grace period does not end before the period it follows. */
  predicate InOrder(s: Subscription) {
    && (s.periodStart == None || s.periodEnd == None || s.periodStart.value < s.periodEnd.value)
    && (s.periodEnd == None || s.graceEnd == None || s.periodEnd.value <= s.graceEnd.value)
  }

  /** The record can be turned into rows: its plan is known, no row would end before it starts. */
  ghost predicate Materialises(db: Db, id: SubscriptionId, s: Subscription, now: Time) {
    && (GrantOf(s, now).grants ==> s.featureSet in db.catalogue)
    && (forall key: EntitlementKey | Granted(db.catalogue, s, key, now) ::
          var k := SubscriptionRow(s.guild, key, id);
          var start := if k in db.rows then db.rows[k].startsAt
                       else if s.periodStart.Some? then s.periodStart.value else now;
          GrantOf(s, now).endsAt.Some? ==> start < GrantOf(s, now).endsAt.value)
    && (forall key: EntitlementKey | !Granted(db.catalogue, s, key, now) ::
          var k := SubscriptionRow(s.guild, key, id); k in db.rows ==> db.rows[k].startsAt < now)
  }

  ghost predicate Acceptable(db: Db, u: StateUpdate, now: Time) {
    && u.subscription in db.subscriptions && MayFollow(db.subscriptions[u.subscription], u)
    && var s := Updated(db.subscriptions[u.subscription], u);
       && InOrder(s) && Materialises(db, u.subscription, s, now) && s.guild in db.guildVersion
       && (u.payment.Some? ==> u.payment.value.key in db.ledger || u.payment.value.amount > 0)
       && (u.event.Some? ==> u.event.value in db.events)
  }

  lemma OrderChecked(s: Subscription)
    ensures SubscriptionChecks(s) <==> InOrder(s)
  {
  }

  lemma RowsChecked(db: Db, id: SubscriptionId, s: Subscription, now: Time)
    ensures Materialises(db, id, s, now) <==>
            && Desired(db.catalogue, s, now).Ok?
            && OwnedRowsCheck(MaterialisedRows(db.catalogue, db.rows, id, s, now), s.guild, id)
  {
    if Desired(db.catalogue, s, now).Ok? {
      var rows := MaterialisedRows(db.catalogue, db.rows, id, s, now);
      forall key: EntitlementKey
        ensures var k := SubscriptionRow(s.guild, key, id);
                (k in rows ==> RowChecks(rows[k])) <==>
                if Granted(db.catalogue, s, key, now) then
                  var start := if k in db.rows then db.rows[k].startsAt
                               else if s.periodStart.Some? then s.periodStart.value else now;
                  GrantOf(s, now).endsAt.Some? ==> start < GrantOf(s, now).endsAt.value
                else k in db.rows ==> db.rows[k].startsAt < now
      {
        RowChecked(db, id, s, now, key);
      }
      OwnedRowsByKey(rows, s.guild, id);
      hide MaterialisedRows, Granted, GrantOf, OwnedRowsCheck, RowChecks;
    }
  }

  lemma OwnedRowsByKey(rows: map<RowKey, Row>, g: GuildId, id: SubscriptionId)
    ensures OwnedRowsCheck(rows, g, id) <==>
            forall key: EntitlementKey :: SubscriptionRow(g, key, id) in rows ==>
                   RowChecks(rows[SubscriptionRow(g, key, id)])
  {
    forall k | k in rows && OwnedBy(k, g, id)
      ensures k == SubscriptionRow(g, k.key, id)
    {
    }
  }

  lemma RowChecked(db: Db, id: SubscriptionId, s: Subscription, now: Time, key: EntitlementKey)
    requires Desired(db.catalogue, s, now).Ok?
    ensures var rows := MaterialisedRows(db.catalogue, db.rows, id, s, now);
            var k := SubscriptionRow(s.guild, key, id);
            (k in rows ==> RowChecks(rows[k])) <==>
            if Granted(db.catalogue, s, key, now) then
              var start := if k in db.rows then db.rows[k].startsAt
                           else if s.periodStart.Some? then s.periodStart.value else now;
              GrantOf(s, now).endsAt.Some? ==> start < GrantOf(s, now).endsAt.value
            else k in db.rows ==> db.rows[k].startsAt < now
  {
    assert key in KeySet(Desired(db.catalogue, s, now).value.0) <==> Granted(db.catalogue, s, key, now);
  }

  /** The transaction accepts an update if and only if it may follow the record and leaves one that can be written. */
  lemma AcceptsExactly(db: Db, u: StateUpdate, now: Time)
    ensures ApplyState(db, u, now).Ok? <==> Acceptable(db, u, now)
  {
    if u.subscription in db.subscriptions {
      var s := Updated(db.subscriptions[u.subscription], u);
      OrderChecked(s);
      RowsChecked(db, u.subscription, s, now);
      hide SubscriptionChecks, InOrder, Materialises, Desired, MaterialisedRows, OwnedRowsCheck, CanTransition,
        Committed;
    }
  }

  /** What a refused update is told: the first of these that is not met. */
  lemma RefusesFor(db: Db, u: StateUpdate, now: Time)
    ensures u.subscription !in db.subscriptions ==> ApplyState(db, u, now) == Err(NotFound)
    ensures u.subscription in db.subscriptions ==>
              var s, r := db.subscriptions[u.subscription], ApplyState(db, u, now);
              && (r == Err(VersionConflict) <==> s.version != u.expectedVersion)
              && (r == Err(StaleProviderState) <==> s.version == u.expectedVersion && !NotOutdated(s, u))
              && (r == Err(IllegalTransition) <==>
                  s.version == u.expectedVersion && NotOutdated(s, u) && !CanTransition(s.status, u.next))
              && (r == Err(UnboundedGrace) <==>
                  && s.version == u.expectedVersion && NotOutdated(s, u) && CanTransition(s.status, u.next)
                  && !BoundsGrace(u))
  {
    hide Updated, SubscriptionChecks, Desired, MaterialisedRows, OwnedRowsCheck, CanTransition, Committed,
      PaymentChecks;
  }
}
