/** When checkouts open, become pending, fail and expire, and what each leaves of the two records. */
module CheckoutOutcomes {
  import opened Common
  import opened Lifecycle
  import opened BillingModel
  import opened ProviderEvents
  import opened BillingSteps
  import Store = BillingStore

  /** Someone's subscription of the guild is neither expired nor refunded. */
  ghost predicate HasSubscription(db: Db, g: GuildId, except: Option<SubscriptionId>) {
    exists id :: id in db.subscriptions && Some(id) != except && db.subscriptions[id].guild == g
                 && db.subscriptions[id].status != Expired && db.subscriptions[id].status != Refunded
  }

  ghost predicate HasOpenCheckout(db: Db, g: GuildId, except: Option<CheckoutId>) {
    exists c :: c in db.checkouts && Some(c) != except && db.checkouts[c].guild == g
                && db.checkouts[c].state in {CheckoutCreated, ProviderPending}
  }

  lemma SlotsMean(db: Db, g: GuildId, id: Option<SubscriptionId>, c: Option<CheckoutId>)
    ensures SlotOccupied(db, g, id) <==> HasSubscription(db, g, id)
    ensures CheckoutOpen(db, g, c) <==> HasOpenCheckout(db, g, c)
  {
  }

  /** Terms of the purchase, and nothing that a provider has said yet. */
  ghost predicate JustBought(s: Subscription, p: Purchase) {
    && (s.guild, s.purchaser, s.plan, s.provider) == (p.guild, p.user, p.plan, p.provider)
    && (s.price, s.currency, s.featureSet) == (p.price, p.currency, p.featureSet)
    && s.status == Pending && s.latestPayment == AwaitingPayment && s.version == 1 && s.binding == None
    && s.periodStart == s.periodEnd == s.graceEnd == s.cancelledAt == s.endedAt == s.providerClock == None
    && s.stateVersion == None && s.cancellation == NotCancelling && !s.cancelAtPeriodEnd
  }

  ghost predicate JustOpened(c: Checkout, id: SubscriptionId, p: Purchase) {
    && (c.guild, c.subscription, c.user, c.plan) == (p.guild, id, p.user, p.plan)
    && (c.provider, c.environment, c.expiresAt) == (p.provider, p.environment, p.expiresAt)
    && c.state == CheckoutCreated && c.session == None && c.version == 1
  }

  /**
   A checkout opens if and only if guild and purchaser are known, the plan has a price and features, the names
   are new, and the guild has neither a subscription that is not over nor an open checkout.
   */
  lemma CheckoutOpensExactly(db: Db, id: SubscriptionId, c: CheckoutId, p: Purchase)
    ensures OpenCheckout(db, id, c, p).Ok? <==>
            && p.guild in db.guildVersion && p.installed && p.purchaserKnown && p.price > 0 && p.featureSet > 0
            && id !in db.subscriptions && c !in db.checkouts
            && !HasSubscription(db, p.guild, None) && !HasOpenCheckout(db, p.guild, None)
    ensures OpenCheckout(db, id, c, p).Ok? ==>
              var db' := OpenCheckout(db, id, c, p).value;
              && id in db'.subscriptions && JustBought(db'.subscriptions[id], p)
              && c in db'.checkouts && JustOpened(db'.checkouts[c], id, p)
              && db' == db.(subscriptions := db.subscriptions[id := db'.subscriptions[id]],
                            checkouts := db.checkouts[c := db'.checkouts[c]])
    ensures OpenCheckout(db, id, c, p) == Err(SlotTaken) ==>
              HasSubscription(db, p.guild, None) || HasOpenCheckout(db, p.guild, None)
  {
    SlotsMean(db, p.guild, None, None);
    hide SlotOccupied, CheckoutOpen, HasSubscription, HasOpenCheckout;
  }

  /** A checkout becomes pending unless another one of the guild is open; only that checkout is written. */
  lemma SessionStartsExactly(db: Db, c: CheckoutId, session: nat, expiresAt: Time)
    ensures SessionReady(db, c, session, expiresAt).Ok? <==>
            c in db.checkouts && !HasOpenCheckout(db, db.checkouts[c].guild, Some(c))
    ensures SessionReady(db, c, session, expiresAt).Ok? ==>
              var seen, db' := db.checkouts[c], SessionReady(db, c, session, expiresAt).value;
              && c in db'.checkouts && db' == db.(checkouts := db.checkouts[c := db'.checkouts[c]])
              && var now := db'.checkouts[c];
                 now.state == ProviderPending && now.session == Some(session) && now.expiresAt == expiresAt
                 && now.version == seen.version + 1
                 && (now.guild, now.subscription, now.user, now.plan, now.provider, now.environment)
                    == (seen.guild, seen.subscription, seen.user, seen.plan, seen.provider, seen.environment)
  {
    if c in db.checkouts {
      SlotsMean(db, db.checkouts[c].guild, None, Some(c));
    }
    hide CheckoutOpen, HasOpenCheckout;
  }

  /** The failure path: refused only where another subscription of the guild is not over; else both records go. */
  lemma CheckoutFailsExactly(db: Db, c: CheckoutId, at: Time)
    ensures FailCheckout(db, c, at).Ok? <==>
            && c in db.checkouts && db.checkouts[c].subscription in db.subscriptions
            && var id := db.checkouts[c].subscription; !HasSubscription(db, db.subscriptions[id].guild, Some(id))
    ensures FailCheckout(db, c, at).Ok? ==>
              var db' := FailCheckout(db, c, at).value;
              var id := db.checkouts[c].subscription;
              && id in db'.subscriptions && c in db'.checkouts
              && db' == db.(subscriptions := db.subscriptions[id := db'.subscriptions[id]],
                            checkouts := db.checkouts[c := db'.checkouts[c]])
              && db'.subscriptions[id]
                 == db.subscriptions[id].(status := Cancelled, cancellation := CancellationDone, endedAt := Some(at),
                                          version := db.subscriptions[id].version + 1)
              && db'.checkouts[c]
                 == db.checkouts[c].(state := CheckoutFailed, version := db.checkouts[c].version + 1)
  {
    if c in db.checkouts && db.checkouts[c].subscription in db.subscriptions {
      var id := db.checkouts[c].subscription;
      SlotsMean(db, db.subscriptions[id].guild, Some(id), None);
    }
    hide SlotOccupied, HasSubscription;
  }

  // ----- the expiry sweep -----

  /** The checkout is open and past its end. */
  predicate Due(c: Checkout, before: Time) {
    (c.state == CheckoutCreated || c.state == ProviderPending) && c.expiresAt <= before
  }

  predicate AwaitsPayment(s: Subscription) {
    s.status == Pending || s.status == Incomplete
  }

  /**
   One checkout of the sweep, read earlier: it expires if it is still open under the version read, and then its
   subscription ends with it if that awaited payment when read and still does under the version read.
   */
  lemma SweepExpires(db: Db, c: CheckoutId, seen: Checkout, s: Subscription, before: Time)
    ensures var db' := SweepCheckout(db, c, seen, s, before);
            var closes := c in db.checkouts && db.checkouts[c].version == seen.version
                          && db.checkouts[c].state in {CheckoutCreated, ProviderPending};
            var id := seen.subscription;
            var ends := closes && AwaitsPayment(s) && id in db.subscriptions
                        && db.subscriptions[id].version == s.version && AwaitsPayment(db.subscriptions[id]);
            && db' == db.(checkouts := db'.checkouts, subscriptions := db'.subscriptions)
            && db'.checkouts == (if closes then db.checkouts[c := db.checkouts[c].(
                                   state := CheckoutExpired, version := db.checkouts[c].version + 1)]
                                 else db.checkouts)
            && db'.subscriptions == if ends then db.subscriptions[id := db.subscriptions[id].(
                 status := Expired, endedAt := Some(before), version := db.subscriptions[id].version + 1)]
               else db.subscriptions
  {
  }

  lemma SweepFindsTheDue(db: Db, c: CheckoutId, before: Time)
    ensures SweepFinds(db, c, before) <==>
            c in db.checkouts && db.checkouts[c].subscription in db.subscriptions && Due(db.checkouts[c], before)
  {
  }

  /** An undisturbed sweep over all checkouts that are due leaves none that is, and ends what awaited payment. */
  lemma SweepLeavesNoneDue(db: Db, found: seq<CheckoutId>, before: Time)
    requires NoDuplicates(found)
    requires forall c :: c in found <==>
             c in db.checkouts && db.checkouts[c].subscription in db.subscriptions && Due(db.checkouts[c], before)
    ensures forall c :: c in found ==> SweepFinds(db, c, before)
    ensures var swept := Store.SweptAll(db, found, before);
            && (forall c :: c in swept.checkouts && swept.checkouts[c].subscription in db.subscriptions ==>
                  !Due(swept.checkouts[c], before))
            && (forall c :: c in found ==>
                  && c in swept.checkouts && swept.checkouts[c].state == CheckoutExpired
                  && db.checkouts[c].subscription in swept.subscriptions
                  && !AwaitsPayment(swept.subscriptions[db.checkouts[c].subscription]))
  {
    forall c | c in found
      ensures SweepFinds(db, c, before)
    {
      SweepFindsTheDue(db, c, before);
    }
    hide SweepFinds;
    Store.SweepExpiresWhatItFound(db, found, before);
    var swept := Store.SweptAll(db, found, before);
    hide Store.SweptAll, NoDuplicates;
    forall c | c in found
      ensures db.checkouts[c].subscription in swept.subscriptions
              && !AwaitsPayment(swept.subscriptions[db.checkouts[c].subscription])
    {
      assert Store.Found(db, found, db.checkouts[c].subscription);
    }
  }
}
