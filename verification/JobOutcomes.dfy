/** What the expiry job, the retry job and the administrators leave: suspensions, expiries and promotions. */
module JobOutcomes {
  import opened Common
  import opened Lifecycle
  import opened BillingModel
  import opened ProviderEvents
  import opened BillingSteps
  import opened SnapshotOutcomes
  import opened VisibleRows
  import Store = BillingStore
  import Reads = CachedReads

  /** Nothing of the subscription is answered any more. */
  ghost predicate Dark(db: Db, id: SubscriptionId, from: Time) {
    id in db.subscriptions &&
    forall key: EntitlementKey, t: Time :: t >= from ==>
      SubscriptionRow(db.subscriptions[id].guild, key, id) !in Reads.Visible(db.rows, t)
  }

  /** Only the subscription, its rows and its guild's version are written. */
  ghost predicate WritesOnly(db: Db, db': Db, id: SubscriptionId) {
    && id in db.subscriptions && id in db'.subscriptions
    && db' == db.(subscriptions := db.subscriptions[id := db'.subscriptions[id]], rows := db'.rows,
                  guildVersion := db'.guildVersion)
    && forall k: RowKey | k.source != FromSubscription || k.reference != id ::
         (k in db'.rows <==> k in db.rows) && (k in db.rows ==> db'.rows[k] == db.rows[k])
  }

  lemma NotGrantingIsDark(db: Db, u: StateUpdate, now: Time, db': Db)
    requires ApplyState(db, u, now) == Ok(db')
    requires u.subscription in db'.subscriptions && !GrantOf(db'.subscriptions[u.subscription], now).grants
    ensures Dark(db', u.subscription, now)
  {
    var s := db'.subscriptions[u.subscription];
    forall key: EntitlementKey, t: Time | t >= now
      ensures SubscriptionRow(s.guild, key, u.subscription) !in Reads.Visible(db'.rows, t)
    {
      ApplicationIsAnswered(db, u, now, db', key, t);
      GrantOnlyLapses(s, now, t);
      hide ApplyState, GrantOf, Reads.Visible;
    }
  }

  lemma PlainUpdateWrites(db: Db, u: StateUpdate, now: Time, db': Db)
    requires ApplyState(db, u, now) == Ok(db') && u.payment.None? && u.event.None?
    ensures WritesOnly(db, db', u.subscription)
  {
    ApplyShape(db, u, now, db');
    ApplicationWritesRows(db, u, now, db');
    hide ApplyState, Updated, RowWritten;
  }

  // ----- expiry and suspension -----

  /** The job ends the subscription at the end of the period it was queued for; nothing of it is answered after. */
  lemma ExpiryLeaves(db: Db, id: SubscriptionId, version: nat, at: Time, now: Time, db': Db)
    requires ApplyState(db, ExpireUpdate(id, version, at), now) == Ok(db')
    ensures WritesOnly(db, db', id) && Dark(db', id, now)
    ensures var s := db.subscriptions[id];
            db'.subscriptions[id] == s.(status := Expired, version := s.version + 1, periodEnd := Some(at),
                                        endedAt := Some(at), cancellation := CancellationDone,
                                        cancelAtPeriodEnd := false)
  {
    var u := ExpireUpdate(id, version, at);
    ApplyShape(db, u, now, db');
    PlainUpdateWrites(db, u, now, db');
    hide ApplyState;
    NotGrantingIsDark(db, u, now, db');
  }

  /** A suspension changes the status alone; nothing of the subscription is answered after it. */
  lemma SuspensionLeaves(db: Db, id: SubscriptionId, version: nat, now: Time, db': Db)
    requires ApplyState(db, StatusOnly(id, Suspended, version), now) == Ok(db')
    ensures WritesOnly(db, db', id) && Dark(db', id, now)
    ensures var s := db.subscriptions[id]; db'.subscriptions[id] == s.(status := Suspended, version := s.version + 1)
  {
    var u := StatusOnly(id, Suspended, version);
    ApplyShape(db, u, now, db');
    PlainUpdateWrites(db, u, now, db');
    hide ApplyState;
    NotGrantingIsDark(db, u, now, db');
  }

  /**
   The queued expiry: refused for an unknown subscription or another guild's; for the merchant-driven provider it
   acts only on the period it was queued for, once that is over; for the other it reconciles with the snapshot.
   */
  lemma ExpiryJobAnswers(db: Db, id: SubscriptionId, g: GuildId, expectedAt: Time, p: Snapshot, graceDays: nat,
      now: Time)
    ensures var done := Store.Expiry(db, id, g, expectedAt, p, graceDays, now);
            if id !in db.subscriptions || db.subscriptions[id].guild != g then done == Handled(db, Some(NotFound))
            else
              var s := db.subscriptions[id];
              && (done.error.Some? ==> done.db == db)
              && (s.provider == Paytr && done.error.None? ==>
                    if s.periodEnd == Some(expectedAt) && expectedAt <= now then
                      WritesOnly(db, done.db, id) && Dark(done.db, id, now)
                      && done.db.subscriptions[id].status == Expired
                      && done.db.subscriptions[id].periodEnd == done.db.subscriptions[id].endedAt == Some(expectedAt)
                    else done.db == db)
              && (s.provider == Paytr && !(s.periodEnd == Some(expectedAt) && expectedAt <= now) ==> done.error.None?)
              && (s.provider == Stripe && done.error.None? ==>
                    if UpToDateWith(s, p, graceDays, now) then done.db == db
                    else WritesRecordRead(db, id, p, graceDays, now, done.db))
  {
    if id in db.subscriptions && db.subscriptions[id].guild == g {
      var s := db.subscriptions[id];
      if s.provider == Paytr {
        if s.periodEnd == Some(expectedAt) && expectedAt <= now {
          var r := ApplyState(db, ExpireUpdate(id, s.version, expectedAt), now);
          if r.Ok? {
            ExpiryLeaves(db, id, s.version, expectedAt, now, r.value);
          }
        }
      } else {
        ReconciledLeaves(db, id, p, graceDays, now);
      }
    }
    hide ApplyState, ExpireUpdate, Dark, WritesOnly, UpToDateWith, WritesRecordRead, Store.Reconciled;
  }

  /** The subscription's record is what the snapshot says; ledger, events and checkouts stay. */
  ghost predicate WritesRecordRead(db: Db, id: SubscriptionId, p: Snapshot, graceDays: nat, now: Time, db': Db) {
    && id in db.subscriptions && id in db'.subscriptions
    && db'.subscriptions == db.subscriptions[id := db'.subscriptions[id]]
    && RecordRead(p, graceDays, now, db.subscriptions[id], db'.subscriptions[id])
    && db'.ledger == db.ledger && db'.events == db.events && db'.checkouts == db.checkouts
       && db'.customers == db.customers
  }

  /** Reconciling one subscription: what is refused, what is left alone, and what is written otherwise. */
  lemma ReconciledLeaves(db: Db, id: SubscriptionId, p: Snapshot, graceDays: nat, now: Time)
    ensures var done := Store.Reconciled(db, id, p, graceDays, now);
            if id !in db.subscriptions then done == Handled(db, Some(NotFound))
            else
              var s := db.subscriptions[id];
              && (done.error.Some? ==> done.db == db)
              && (done.error == Some(BindingConflict) <==> s.binding.None?)
              && (done.error == Some(AmbiguousPayment) <==> Ambiguous(s, p))
              && (UpToDateWith(s, p, graceDays, now) ==> done == Handled(db, None))
              && (done.error.None? && !UpToDateWith(s, p, graceDays, now) ==>
                    WritesRecordRead(db, id, p, graceDays, now, done.db))
  {
    if id in db.subscriptions {
      var s := db.subscriptions[id];
      ReconciliationAnswers(db, id, s, p, graceDays, now);
      hide CommitSnapshot, RecordRead, UpToDateWith, Ambiguous;
      var r := CommitSnapshot(db, id, s, p, graceDays, now);
      if r.Ok? && r.value.Some? {
        ReconciliationLeaves(db, id, s, p, graceDays, now, r.value.value);
      }
    }
  }

  /** The event names what this subscription is bound to. */
  predicate NamedBy(db: Db, key: EventKey, id: SubscriptionId) {
    && key in db.events && id in db.subscriptions && db.subscriptions[id].provider == key.provider
    && db.subscriptions[id].binding == Some(db.events[key].event.subscription)
  }

  lemma IndexFinds(db: Db, key: EventKey, id: SubscriptionId)
    requires UniqueBindings(db.subscriptions) && key in db.events
    ensures BoundSubscription(db, key.provider, db.events[key].event.subscription) == Some(id) <==> NamedBy(db, key, id)
  {
    assert NamedBy(db, key, id) ==> Bound(db.subscriptions[id], key.provider, db.events[key].event.subscription);
  }

  /**
   The retry job leaves what is done alone.  Of any other event it reconciles the subscription that the event
   names, and marks the event with one more attempt when that went well; it never writes the event's payment.
   */
  lemma RetryAnswers(db: Db, key: EventKey, id: SubscriptionId, p: Snapshot, graceDays: nat, now: Time)
    requires UniqueBindings(db.subscriptions)
    ensures var done := Store.Retried(db, key, p, graceDays, now);
            var reconciled := Store.Reconciled(db, id, p, graceDays, now);
            && done.db.ledger == db.ledger
            && (done.error.Some? ==> done.db == db)
            && (key !in db.events ==> done == Handled(db, Some(NotFound)))
            && (key in db.events && db.events[key].progress in {Processed, Ignored} ==> done == Handled(db, None))
            && (key in db.events && db.events[key].progress !in {Processed, Ignored} && NamedBy(db, key, id) ==>
                  && done.error == reconciled.error
                  && (done.error.None? ==>
                        done.db == reconciled.db.(events := db.events[key :=
                          EventRecord(db.events[key].event, Processed, db.events[key].attempts + 1)])))
  {
    if key in db.events {
      var found := BoundSubscription(db, key.provider, db.events[key].event.subscription);
      IndexFinds(db, key, id);
      if found.Some? {
        ReconciledLeaves(db, found.value, p, graceDays, now);
      }
    }
    hide Store.Reconciled, RecordRead, UpToDateWith, Ambiguous, BoundSubscription, NamedBy;
  }

  /** Where no subscription is bound to what the event names, the job fails and changes nothing. */
  lemma RetryFindsNothing(db: Db, key: EventKey, p: Snapshot, graceDays: nat, now: Time)
    requires UniqueBindings(db.subscriptions) && key in db.events && db.events[key].progress !in {Processed, Ignored}
    requires forall id: SubscriptionId :: !NamedBy(db, key, id)
    ensures Store.Retried(db, key, p, graceDays, now) == Handled(db, Some(NotFound))
  {
    var found := BoundSubscription(db, key.provider, db.events[key].event.subscription);
    if found.Some? {
      IndexFinds(db, key, found.value);
    }
    hide Store.Reconciled, BoundSubscription, NamedBy;
  }

  // ----- promotions -----

  predicate PromotionOf(k: RowKey, g: GuildId, reference: nat) {
    k == RowKey(g, k.key, ManualPromotion, reference)
  }

  /**
   A promotion is granted for at most 366 days to a known guild.  Its features are answered from now until its
   end, whatever they were before; no other row is written, and the guild's version goes up.
   */
  lemma PromotionGrantsExactly(db: Db, g: GuildId, reference: nat, featureSet: nat, now: Time, endsAt: Time)
    ensures GrantPromotion(db, g, reference, featureSet, now, endsAt).Ok? <==>
            && now < endsAt <= now + 366 * 86_400_000 && featureSet in db.catalogue && g in db.guildVersion
    ensures GrantPromotion(db, g, reference, featureSet, now, endsAt).Ok? ==>
              var db' := GrantPromotion(db, g, reference, featureSet, now, endsAt).value;
              && db' == db.(rows := db'.rows, guildVersion := db.guildVersion[g := db.guildVersion[g] + 1])
              && (forall k: RowKey :: PromotionOf(k, g, reference) && k.key in db.catalogue[featureSet] ==>
                    forall t: Time :: k in Reads.Visible(db'.rows, t) <==> now <= t < endsAt)
              && (forall k: RowKey :: !(PromotionOf(k, g, reference) && k.key in db.catalogue[featureSet]) ==>
                    (k in db'.rows <==> k in db.rows) && (k in db.rows ==> db'.rows[k] == db.rows[k]))
  {
    if GrantPromotion(db, g, reference, featureSet, now, endsAt).Ok? {
      var keys := KeySet(db.catalogue[featureSet]);
      forall k: RowKey, t: Time | PromotionOf(k, g, reference) && k.key in db.catalogue[featureSet]
        ensures k in Reads.Visible(PromotedRows(db.rows, g, reference, keys, now, endsAt), t) <==> now <= t < endsAt
      {
        assert k.key in keys;
      }
    }
  }

  /**
   A revocation is accepted if the promotion has an active row and all such rows have started; then none of its
   rows is answered at any instant, and no other row is written.
   */
  lemma RevocationEndsExactly(db: Db, g: GuildId, reference: nat, now: Time)
    ensures RevokePromotion(db, g, reference, now).Ok? <==>
            && g in db.guildVersion
            && (exists k :: k in db.rows && PromotionOf(k, g, reference) && db.rows[k].status == RowActive)
            && (forall k :: k in db.rows && PromotionOf(k, g, reference) && db.rows[k].status == RowActive ==>
                  db.rows[k].startsAt < now)
    ensures RevokePromotion(db, g, reference, now).Ok? ==>
              var db' := RevokePromotion(db, g, reference, now).value;
              && db' == db.(rows := db'.rows, guildVersion := db.guildVersion[g := db.guildVersion[g] + 1])
              && db'.rows.Keys == db.rows.Keys
              && (forall k, t: Time :: PromotionOf(k, g, reference) ==> k !in Reads.Visible(db'.rows, t))
              && (forall k :: k in db.rows && PromotionOf(k, g, reference) && db.rows[k].status == RowActive ==>
                    db'.rows[k] == Row(db.rows[k].startsAt, Some(now), RowRevoked))
              && (forall k :: k in db.rows && !(PromotionOf(k, g, reference) && db.rows[k].status == RowActive) ==>
                    db'.rows[k] == db.rows[k])
  {
    assert forall k: RowKey :: PromotionOf(k, g, reference) <==> PromotionRow(k, g, reference);
  }
}
