# Verified model of the SufBot premium and onboarding core

This project models, in Dafny, the parts of SufBot in which several actors write shared state: the
subscription and entitlement engine, the versioned entitlement cache in front of it, the captcha store
of member verification, and the onboarding state (setup ownership, event journal, role assignment,
template rendering, retention). It proves properties of every run, every input or every interleaving of
these parts. `dafny verify dfyconfig.toml` checks everything.

## How it is organised

| file | what it holds |
|---|---|
| `Common.dfy` | options, results, partial updates, insertion-ordered sets |
| `Lifecycle.dfy` | the status graph and the rule that decides when a subscription grants Premium |
| `BillingModel.dfy` | the billing tables and the central transaction that applies a state to a subscription |
| `ProviderEvents.dfy` | provider webhooks and authoritative provider snapshots |
| `EventEffects.dfy` | idempotence and redelivery of events; the Premium each event or snapshot leaves |
| `EventOutcomes.dfy`, `SnapshotOutcomes.dfy` | what an accepted event or snapshot leaves of the record, the ledger and the event, in terms of what came in and what was there |
| `EventIntake.dfy` | when an event is bound and to whom, and what receiving and processing it leaves |
| `BillingSteps.dfy` | the other writers (checkout, expiry, administrators), and runs that interleave all of them |
| `BillingAcceptance.dfy` | exactly when the central transaction accepts an update |
| `CheckoutOutcomes.dfy`, `JobOutcomes.dfy` | what checkouts, the sweep, the expiry and retry jobs and the administrators leave |
| `BillingHistory.dfy` | what never goes back over any run, and exactly when statuses move in their graph |
| `BillingInvariants.dfy`, `BillingTheorems.dfy` | the invariant of the billing database, the main results about every run, and exactly in which runs the ledger is conserved |
| `BillingRows.dfy` | exactly in which runs the materialised rows are what the granting rule says |
| `BillingApplications.dfy`, `BillingEndings.dfy` | which steps of a run apply a state, what commits leave that were decided on an earlier read, and which steps end a subscription |
| `VisibleRows.dfy` | what a guild is answered: the granting rule, from the start of each row on |
| `BillingBindings.dfy` | exactly in which runs bindings stay, and that the ledger is conserved where they do |
| `BillingPayments.dfy` | the successful rows of the ledger: one initial payment, no change without a new version |
| `BillingCompletion.dfy`, `BillingRecords.dfy` | completed checkouts are paid for; what a record says about cancellation |
| `BillingBooking.dfy` | exactly in which runs the payment of a processed event is in the ledger |
| `BillingCases.dfy`, `BillingDoubleCommit.dfy` | concrete runs in which a property fails |
| `BillingStore.dfy` | the billing services as a class that updates its tables in place, proved against the functions above |
| `UndisturbedRuns.dfy` | the services and the runs speak of one system: an undisturbed call is a run of its steps |
| `CachedReads.dfy` | the two-level, single-flight read path as a state machine over any number of processes |
| `CachedBilling.dfy` | the read path on top of the billing runs |
| `EntitlementCache.dfy` | the cache and the entitlement service as classes, and their soundness in time |
| `Captcha.dfy` | the Redis scripts and transactions |
| `CaptchaRuns.dfy` | every interleaving of reads, scripts and transactions: the attempt budget and the admissions |
| `CaptchaOutcomes.dfy` | the fate of one challenge under any interleaving |
| `CaptchaCases.dfy` | concrete runs in which a creation is interrupted, or meets a dying lock |
| `CaptchaButtons.dfy` | the shuffle, the button material, pressing a full entry |
| `CaptchaStore.dfy` | the captcha store as a class, with its optimistic retry loop |
| `CaptchaAnswers.dfy` | what a member is told, in every mode and over every run; admissions, creations, drops |
| `SetupOwnership.dfy` | the versioned onboarding record, its PENDING owner and the setup job |
| `SetupOutcomes.dfy` | every field of the record is what its last effective write said |
| `EventJournal.dfy` | the lease on idempotency keys, and exactly when it holds |
| `Template.dfy` | tokenizer, printer, renderer and mention guard |
| `TemplateOutcomes.dfy` | the output token by token, the grammar of names, where the mention guard writes |
| `OnboardingMessage.dfy` | rendering a whole message: its texts and their warnings |
| `RetentionSweep.dfy` | the nested paging loops of the retention job |
| `RoleLimits.dfy` | plan-limited automatic roles and the assignment loop |
| `RoleOutcomes.dfy` | which roles are asked for, reached, given and reported, and when an assignment throws |

A table of the database is a map; a transaction is a function from the tables to the new tables or an
error, and errors write nothing. A run is the list of moments reached by a list of steps. Where the code
reads in one query and writes in a later transaction, the step names the earlier moment it read
(`readAt`), so reads and writes of different actors interleave in every possible way. Classes that update
their tables in place are proved equal to these functions; of their methods, those that only branch and
write have no row below, those with loops, several phases or several outcomes do.

What these functions answer is stated a second time, without them, in the files named `*Outcomes`, `*Answers`,
`EventIntake`, `BillingAcceptance`, `BillingEndings` and `VisibleRows`: there the status, the payment, the ledger row,
the rows a guild sees, or what a member is told are given in terms of the input and of what was stored before.

## What is assumed

- Transactions are serializable, each Lua script is one step, and the unique indexes of the schema are
  enforced; the CHECK constraints of the billing tables (period order, grace not before the period end, rows
  that start before they end, positive amounts) abort a transaction that violates them.
- A new subscription is PENDING with no successful payment (the column defaults of the schema).
- One payload stands for one event: the payload hash is injective and parsing is deterministic. The answer of
  a provider (`retrieveSubscription`, `reconcileSubscription`) is an arbitrary input.
- Captcha hashes are injective and challenge identifiers are never drawn twice; answers arrive normalized, and
  the settings do not change.
- Clocks do not go back in the captcha and journal runs and between the calls of one entitlement service; in
  journal runs each call of claim is its own claimer, and only who claimed an event completes or fails it. The
  billing runs and the concurrent read path assume nothing about the instants their steps carry.

No assumption is made about how the actors interleave. Where a property needs one, the property carries it as a
condition on the run, and the condition is shown to be exact:

| property | holds in a run if and only if | a run in which it fails |
|---|---|---|
| statuses move along the graph; EXPIRED and REFUNDED are never left | every checkout failure carried out found an effective subscription (`FailuresAreEffective`) | `BillingCases.ExpiredCanBeRevived` |
| the lit rows are what the rule grants | every checkout failure left the end of the grant where it was, or the plan has no features (`FailuresSpareRows`) | `BillingCases.FailureCanBreakRule` |
| bindings are never replaced | every binding written found its record unbound or bound to the same provider subscription (`BindingsAreFree`) | `BillingCases.BindingCanBeReplaced` |
| ledger rows and committed paid events of every subscription coincide | every accepted commit of a paid event found no ledger row of it, or one of its own subscription (`CommitsFindOwnRows`); runs in which no binding is replaced are such runs | `BillingDoubleCommit.PaymentCanBeCommittedTwice` |
| the payment of an event is in the ledger whenever the event is processed | the retry job, whenever it marked the event, found its row in the ledger (`MarksFindTheRow`) | `BillingCases.ProcessedPaymentCanBeLost` |
| one live challenge within its attempt budget | every installation displaced whatever was live and found no more wrong answers counted than its admission (`AllInstallCleanly`); runs in which nobody interrupts a creation or a drop are such runs | `CaptchaCases.InterruptedCreationOverdraws` |
| at most one claimer holds an idempotency key | every claim that was tried while someone held the key started within that holder's lease (`ClaimsWithinLease`) | `EventJournal.LateClaimerBreaksTheLease` |
| where the lease holds, a finished event stays finished | no job failed after it completed its event (`AllGiveUpInTime`) | `EventJournal.FailureAfterCompletionReopens` |

## What the code does that its names do not suggest

- A provider snapshot without a state version is never "unchanged": the stored null is compared with
  undefined, so such a snapshot is written again at every reconciliation.
- `complete` and `fail` of the event journal are unguarded. A holder still at work when a claim starts exactly
  the stale time after its own shares the key: `EventJournal.LateClaimerBreaksTheLease`. A job that completes its
  event and then fails makes it claimable again, although nobody was late:
  `EventJournal.FailureAfterCompletionReopens`.
- Template variables are looked up on a plain object, so names of inherited members such as `constructor` are
  known names; the model takes any lookup at all.
- A checkout failure writes CANCELLED without looking at the subscription. After a snapshot that reported a
  payment, the subscription then grants Premium and none of its rows is lit: `BillingCases.FailureCanBreakRule`.
- Two first events of one checkout that name different provider subscriptions both pass the validation, and the
  second write replaces the binding of the first: `BillingCases.BindingCanBeReplaced`. A payment delivered twice
  around that write is committed for two subscriptions: `BillingDoubleCommit.PaymentCanBeCommittedTwice`.
- The retry job marks an event processed after a reconciliation, without applying it, so the payment of a
  processed event can be missing from the ledger: `BillingCases.ProcessedPaymentCanBeLost`. It is missing in no
  other way: `BillingBooking.PaymentIsBookedExactly`.
- Redis reports the remaining life of a lock in whole seconds, so a lock in its last second can be reported as
  gone. Where creations are not interrupted this is the only case in which the counter branch of captcha creation
  runs, and a run reaches it: `CaptchaRuns.CounterLocksExactly`, `CaptchaCases.CounterBranchMeetsDyingLock`.
- Wrong answers between an admission and its transaction are not deducted from the new challenge's attempts. The
  counter can then reach the maximum without a lock, and the counter branch is what refuses the next creation:
  `CaptchaCases.CounterBranchWithoutLock`.
- When deleting an unusable copy of the entitlements fails in Redis, the second read can find one there again
  and it is answered, however old it is. This is the only case in which an answer is older than the configured
  age or holds lapsed rows: `EntitlementCache.EntitlementService.ListGuildEntitlements`.
- A snapshot that schedules a cancellation moves the subscription to CANCELLED whatever the last payment was;
  Premium then depends on the snapshot's payment status alone: `EventEffects.SnapshotPremium`.

## Model

| member | source | states |
|---|---|---|
| Lifecycle.TerminalExactly | packages/billing/src/state-machine.ts:4-32 | EXPIRED and REFUNDED are exactly the statuses that no sequence of permitted status writes leaves |
| Lifecycle.PaidOnlyThroughActive | packages/billing/src/state-machine.ts:4-32 | every path from PENDING to a status that implies a payment passes through ACTIVE |
| Lifecycle.EntriesOfEachStatus | packages/billing/src/state-machine.ts:4-41 | from where each status may be entered: payment and cancellation from every status that is not over, the others from the few named |
| BillingModel.GrantOnlyLapses | packages/billing/src/state-machine.ts:43-76 | a grant that holds now holds later exactly until its end; a lapsed one never returns by waiting |
| BillingModel.MaterialisedRowsFollowRule | packages/billing/src/reconciliation.ts:214-270 | the rewritten rows are lit, at every later instant, exactly for the feature set the rule grants |
| BillingModel.ApplyShape | packages/billing/src/reconciliation.ts:88-315 | an accepted application of state writes this subscription, this ledger row and this event and raises this guild's version by one, nothing else |
| BillingModel.ApplyMaterialises | packages/billing/src/reconciliation.ts:79-322 | after every accepted application of state rows and rule agree for all later instants |
| BillingAcceptance.AcceptsExactly | packages/billing/src/reconciliation.ts:88-315 | an update is accepted if and only if its version is the record's, the provider's clock is not behind, the graph permits the status, a grace period has an end, and the record it leaves has its instants in order, a known plan where it grants and no row that would end before it starts |
| BillingAcceptance.RefusesFor | packages/billing/src/reconciliation.ts:88-125 | which refusal an update meets: the first of unknown subscription, other version, outdated provider state, forbidden status, grace period without end |
| VisibleRows.ApplicationWritesRows | packages/billing/src/reconciliation.ts:214-270 | every row of the subscription after an accepted application: there if it was or is granted, started where it started or else with the period, ending with the grant or revoked now; all other rows as they were |
| VisibleRows.ApplicationIsAnswered | packages/billing/src/reconciliation.ts:214-270 | at every instant after an accepted application the entitlement query answers a feature if and only if it is granted then and its row has started, which for a new row is the period's start |
| EventEffects.EventIsIdempotent | packages/billing/src/provider-events.ts:151-384 | processing an event twice in a row gives the same subscriptions, ledger, checkouts and rows as once, up to counters, and the second attempt ends as the first did |
| EventEffects.RedeliveryIsSilent | packages/billing/src/provider-events.ts:66-122 | redelivering a processed event changes nothing at all, whatever the provider would answer now |
| EventEffects.BindKeepsUnique | packages/billing/src/provider-events.ts:386-449 | binding keeps one subscription per provider subscription id, also when it was validated on tables read earlier |
| EventEffects.ApplyTwice | packages/billing/src/reconciliation.ts:88-315 | applying the repeated update again leaves everything but counters as it was |
| EventEffects.EventPremium | packages/billing/src/provider-events.ts:175-332 | after an accepted event the features lit are those of the subscription until the end the event type implies, and none otherwise |
| EventEffects.SnapshotPremium | packages/billing/src/management.ts:258-358 | after an accepted snapshot the features lit are those of the subscription until the end the snapshot implies, and none otherwise |
| EventOutcomes.EventLeaves | packages/billing/src/provider-events.ts:175-332 | for every kind of accepted event: the status, the payment status, period, grace period, cancellation and end of the record, the ledger row with kind, status, amount and instants, and the processed event, in terms of the event and what was there; nothing else is written |
| EventOutcomes.PartialRefundLeaves | packages/billing/src/provider-events.ts:466-526 | a partial refund is recorded if and only if its amount is positive and the event is known, and leaves its ledger row and the processed event alone |
| SnapshotOutcomes.ReconciliationLeaves | packages/billing/src/management.ts:258-358 | after an accepted reconciliation the subscription is over if and only if no cancellation is scheduled and the snapshot is expired, refunded, or cancelled with its period over; every other status, and all fields of the record, in terms of the snapshot |
| SnapshotOutcomes.ReconciliationAnswers | packages/billing/src/management.ts:258-306 | a reconciliation is refused as ambiguous, refused as unbound, or finds nothing to write, each exactly when |
| EventIntake.BindsExactly | packages/billing/src/provider-events.ts:386-449 | an event is bound if and only if it fits its checkout, the checkout its subscription, no binding stands against it and the customer fits; what is then written |
| EventIntake.TargetIsTheBound | packages/billing/src/provider-events.ts:450-464 | once bound, an event is about the one subscription bound to what it names |
| EventIntake.ProcessingLeaves | packages/billing/src/provider-events.ts:151-384 | where binding fails nothing is written, where the commit fails only the binding stays, a payment of another amount or currency is refused, and otherwise record, ledger, event and checkouts are what the event's kind says |
| EventIntake.IngestionAnswers | packages/billing/src/provider-events.ts:62-149 | what receiving a webhook answers: a changed replay, a repeated delivery, a success, or a recorded failure with one more attempt |
| BillingHistory.NothingGoesBack | packages/billing/src/reconciliation.ts:93-149 | between any two moments of any run versions, provider clocks and entitlement versions never decrease; subscriptions, ledger rows, events, checkouts and customer records are never lost, and a bound subscription stays bound |
| BillingHistory.RunInGraphExactly | packages/billing/src/state-machine.ts:25-41 | every status write of a run is permitted by the graph if and only if every checkout failure carried out found its subscription neither EXPIRED nor REFUNDED |
| BillingHistory.EndedStayEndedExactly | packages/billing/src/state-machine.ts:4-23 | EXPIRED and REFUNDED are never left in a run under exactly the same condition |
| BillingHistory.FailureInGraphExactly | packages/billing/src/checkout.ts:258-266 | one failure writes its status along the graph, and leaves ended subscriptions ended, if and only if its subscription is neither EXPIRED nor REFUNDED |
| BillingHistory.StepInGraph | packages/billing/src/reconciliation.ts:106-111 | every step but a checkout failure moves statuses along the graph |
| BillingHistory.ApplyEvolves | packages/billing/src/reconciliation.ts:93-149 | an accepted application raises the version by exactly one along an edge of the graph and not back in provider time |
| BillingHistory.OneWriterPerVersion | packages/billing/src/reconciliation.ts:93-149 | of two writers that expect the same version, at any two moments of any run, at most one commits |
| BillingHistory.SameVersionSameRows | apps/web/app/actions/billing-admin.ts:129-156 | two moments of a run with the same guild version have the same entitlement rows of that guild |
| BillingEndings.CommitLeaves | packages/billing/src/provider-events.ts:151-332 | in every run, although it was decided on records read earlier, an applied event leaves exactly what its kind says of the record as it is now |
| BillingEndings.StepEndsExactly | packages/billing/src/state-machine.ts:4-32 | in every run a step ends a subscription that is not over if and only if it is an accepted full refund or expiry event, an accepted snapshot of one that is over, the expiry job, or the sweep |
| BillingEndings.FinalEventFreesTheSlot | packages/billing/src/provider-events.ts:259-269 | an accepted full refund or expiry event frees the guild's slot at once; the subscription is over from then on in a run whose failures find effective subscriptions |
| BillingInvariants.ApplyKeepsSound | packages/billing/src/reconciliation.ts:88-315 | the central transaction keeps the invariant of the billing database |
| BillingInvariants.CommitKeepsSound | packages/billing/src/provider-events.ts:151-332 | an event decided on a stale read and committed now keeps the invariant |
| BillingInvariants.SweepKeepsSound | apps/worker/src/index.ts:374-401 | one checkout of the expiry sweep, decided on a stale read, keeps the invariant |
| BillingInvariants.PartialRefundKeepsSound | packages/billing/src/provider-events.ts:466-526 | recording a partial refund keeps the invariant; it never touches a successful payment |
| BillingInvariants.PromotionKeepsSound | apps/web/app/actions/billing-admin.ts:129-206 | granting and revoking promotions keep the invariant |
| BillingInvariants.BindKeepsSound | packages/billing/src/provider-events.ts:386-449 | a binding validated on an earlier read and written now keeps the invariant |
| BillingInvariants.FailKeepsSound | packages/billing/src/checkout.ts:249-266 | the unchecked checkout failure keeps the invariant whatever it meets |
| BillingTheorems.RunIsSound | packages/billing/src/reconciliation.ts:79-322 | the invariant holds at every moment of every run of all writers from an empty deployment |
| BillingTheorems.OneEffectiveSubscription | packages/billing/src/checkout.ts:102-195 | in every run a guild never has two subscriptions outside EXPIRED and REFUNDED |
| BillingTheorems.NoPaymentNoPremium | packages/billing/src/provider-events.ts:189-323 | an entitlement row of a subscription exists only after an accepted step for that subscription reported a successful payment |
| BillingTheorems.NoPaymentNoPaidStatus | packages/billing/src/management.ts:308-357 | ACTIVE, PAST_DUE, GRACE_PERIOD, SUSPENDED and DISPUTED are only reached after such a step |
| BillingTheorems.LedgerIsPriced | packages/billing/src/reconciliation.ts:154-212 | in every run the successful ledger rows of a subscription are paid events committed for it and sum up to their number times the price; every committed paid event with an amount has its row |
| BillingTheorems.LedgerConservationExactly | packages/billing/src/reconciliation.ts:154-212 | in a run the successful rows of every subscription are exactly the paid events committed for it if and only if every accepted commit of a paid event found no ledger row of it, or one of its own subscription |
| BillingTheorems.LedgerConservation | packages/billing/src/reconciliation.ts:154-212 | in such a run the successful ledger rows of a subscription are its committed paid events with an amount, and sum up to their number times the price |
| BillingTheorems.ReceiptMeans | packages/billing/src/provider-events.ts:194-225 | every such receipt goes back to a committed paid event with an amount |
| BillingRows.FailureKeepsRuleExactly | packages/billing/src/checkout.ts:249-266 | one checkout failure keeps rows and rule in agreement if and only if it does not move the end of the grant or the plan has no features |
| BillingRows.UnpaidIsSpared | packages/billing/src/checkout.ts:249-266 | the failure of a checkout whose subscription still awaits its first payment, the case the path is written for, spares the rows |
| BillingRows.StepFollowsExactly | packages/billing/src/reconciliation.ts:214-270 | after any step rows and rule agree again if and only if the step, when it is a checkout failure, spares them |
| BillingRows.RowsFollowExactly | packages/billing/src/reconciliation.ts:214-270 | rows and rule agree at every moment of a run if and only if every checkout failure of the run spared them |
| BillingRows.RowsAreTheRule | packages/billing/src/reconciliation.ts:214-270 | in such a run, from the last application of state on, the lit rows are exactly what the rule grants |
| VisibleRows.RowsRememberTheirStart | packages/billing/src/reconciliation.ts:227-261 | in every run a row of a subscription starts with the period recorded when it first appeared, or at that instant where none was |
| VisibleRows.AnswersAreTheRule | packages/billing/src/entitlements.ts:227-268 | in a run whose failures spare the rows, from the last application of state on, a direct read answers a feature of a subscription if and only if it is granted and its row has started |
| VisibleRows.PayingGuildIsAnswered | packages/billing/src/entitlements.ts:227-268 | where the recorded periods have begun, a direct read answers exactly the features that the rule grants |
| VisibleRows.PayingGuildIsNotEmptyHanded | packages/billing/src/entitlements.ts:227-268 | a guild whose subscription grants a plan with features is not answered with nothing |
| VisibleRows.QueryAnswersExactly | packages/billing/src/entitlements.ts:236-242 | the entitlement query answers a row if and only if it is active, has started and has not ended |
| BillingBindings.StepBindsExactly | packages/billing/src/provider-events.ts:412-421 | a step keeps every binding if and only if what it binds was unbound or bound to the same provider subscription |
| BillingBindings.BindingsStayExactly | packages/billing/src/provider-events.ts:386-449 | no binding is replaced in a run if and only if every binding written found its record so |
| BillingBindings.FreeBindingsCommitOnce | packages/billing/src/provider-events.ts:386-464 | where no binding is replaced no event is committed for two subscriptions |
| BillingBindings.FreeBindingsConserve | packages/billing/src/provider-events.ts:386-464 | where no binding is replaced every commit finds no row or its own, so the ledger is conserved |
| BillingCases.FailureCanBreakRule | packages/billing/src/checkout.ts:249-266 | a run from an empty deployment that ends with a checkout failure after which the subscription grants Premium and has no lit row |
| BillingCases.ExpiredCanBeRevived | packages/billing/src/checkout.ts:249-266 | a run in which a checkout that the sweep expired fails afterwards: EXPIRED becomes CANCELLED |
| BillingCases.BindingCanBeReplaced | packages/billing/src/provider-events.ts:388-421 | a run in which two concurrent first events of one checkout are both bound, the second replacing the first |
| BillingCases.ProcessedPaymentCanBeLost | apps/worker/src/index.ts:233-270 | a run in which a first payment fails to be processed, the retry job reconciles the subscription and marks the event, and the subscription grants Premium without the payment in the ledger |
| BillingDoubleCommit.PaymentCanBeCommittedTwice | packages/billing/src/provider-events.ts:388-464 | a run in which one payment is committed for two subscriptions, the binding of the first having been replaced; the ledger keeps one row |
| BillingPayments.OneInitialPayment | packages/billing/src/provider-events.ts:203-222 | a subscription never has two INITIAL ledger rows, although the payments are counted outside the transaction that writes the new one |
| BillingPayments.PaymentsMoveTheVersion | packages/billing/src/reconciliation.ts:114-212 | the successful ledger rows of a subscription change only under a new version of it |
| BillingPayments.OnlyEventsWriteTheLedger | packages/billing/src/reconciliation.ts:154-212 | no step but the commit of a provider event writes the ledger |
| BillingCompletion.CompletedCheckoutsArePaid | packages/billing/src/provider-events.ts:333-341 | a checkout is completed only for a subscription for which an accepted step reported a successful payment |
| BillingBooking.MarksProcessed | apps/worker/src/index.ts:233-270 | only the commit of the event itself and the retry job leave an event processed |
| BillingBooking.StepBooksExactly | apps/worker/src/index.ts:256-270 | a step keeps the payment of a processed event in the ledger if and only if the step, when it is the retry job's mark, finds the row there |
| BillingBooking.PaymentIsBookedExactly | apps/worker/src/index.ts:233-270 | over every run the payment of an event is in the ledger whenever the event is processed if and only if the retry job found its row whenever it marked it |
| BillingBooking.BookedMeansPaid | packages/billing/src/reconciliation.ts:154-212 | what is booked for a paid event with an amount is a successful payment at the price of its subscription |
| BillingRecords.ScheduledCancellationIsRecorded | packages/billing/src/provider-events.ts:244-265 | in every run a scheduled cancellation carries its flag, its date and the period end |
| BillingRecords.FlagWithoutSchedule | packages/billing/src/management.ts:267-316 | after a snapshot the flag means a scheduled cancellation if and only if the snapshot names a period end or does not ask for cancellation |
| CheckoutOutcomes.CheckoutOpensExactly | packages/billing/src/checkout.ts:94-195 | a checkout is opened if and only if guild and purchaser are there, the plan has a price and features, and the guild has neither an effective subscription nor an open checkout; what is then written |
| CheckoutOutcomes.SessionStartsExactly | packages/billing/src/checkout.ts:223-231 | the provider's session is recorded unless the guild has another open checkout; the checkout is then pending with the session's end |
| CheckoutOutcomes.CheckoutFailsExactly | packages/billing/src/checkout.ts:249-266 | a failure writes both records, whatever their state, unless the subscription would take a slot that another one has |
| CheckoutOutcomes.SweepExpires | apps/worker/src/index.ts:374-401 | one checkout of the sweep: it expires under the version that was read while it is open, and so does its subscription while it awaits payment under the version read |
| CheckoutOutcomes.SweepLeavesNoneDue | apps/worker/src/index.ts:358-401 | after an undisturbed sweep no checkout is due and none of the subscriptions found awaits payment |
| JobOutcomes.ExpiryLeaves | apps/worker/src/index.ts:321-357 | the expiry job ends the subscription at the end of its period, and nothing of it is answered from then on |
| JobOutcomes.ExpiryJobAnswers | apps/worker/src/index.ts:321-357 | what the queued expiry refuses, leaves alone and ends, for either provider |
| JobOutcomes.SuspensionLeaves | apps/web/app/actions/billing-admin.ts:89-110 | a suspension changes the status alone, and nothing of the subscription is answered after it |
| JobOutcomes.ReconciledLeaves | packages/billing/src/management.ts:258-286 | reconciling one subscription: each refusal, the case that writes nothing, and the record that is written |
| JobOutcomes.RetryAnswers | apps/worker/src/index.ts:233-270 | the retry job leaves what is done alone, reconciles the subscription the event names, marks the event with one more attempt, and never writes a payment |
| JobOutcomes.RetryFindsNothing | apps/worker/src/index.ts:249-256 | where no subscription is bound to what the event names the job fails and changes nothing |
| JobOutcomes.PromotionGrantsExactly | apps/web/app/actions/billing-admin.ts:123-170 | a promotion is accepted exactly within its bounds, and its features are answered from now until its end; no other row is written |
| JobOutcomes.RevocationEndsExactly | apps/web/app/actions/billing-admin.ts:190-206 | a revocation is accepted exactly when the promotion has active rows that have started, and none of its rows is answered afterwards at any instant |
| BillingStore.CheckSplits | packages/billing/src/reconciliation.ts:227-270 | the row constraint fails exactly when an upserted row would end before it starts or a revoked row has not started |
| BillingStore.SweepExpiresWhatItFound | apps/worker/src/index.ts:358-401 | an undisturbed sweep expires every checkout it found and every subscription of theirs that awaited payment, and nothing else |
| UndisturbedRuns.WebhookIsARun | packages/billing/src/provider-events.ts:62-384 | a webhook that nobody disturbs is a run of its steps, received, begun, bound, committed, closed or given up, and leaves what the handler leaves |
| UndisturbedRuns.RetryIsARun | apps/worker/src/index.ts:233-270 | an undisturbed retry job is the reconciliation of the subscription that the event names and the mark |
| UndisturbedRuns.ExpiryIsAStep | apps/worker/src/index.ts:321-357 | an undisturbed queued expiry is one step, of the kind its provider asks for |
| UndisturbedRuns.SweepIsARun | apps/worker/src/index.ts:358-401 | an undisturbed sweep is one step for each checkout its query found |
| BillingStore.Store.UpsertRows | packages/billing/src/reconciliation.ts:227-261 | the upsert loop produces the desired rows, or refuses exactly when a constraint would be violated |
| BillingStore.Store.SyncRows | packages/billing/src/reconciliation.ts:218-270 | upserts and revocation together produce the synchronized rows |
| BillingStore.Store.ApplyState | packages/billing/src/reconciliation.ts:79-322 | the transaction in place is the transaction of the model, or leaves every table alone; which updates it accepts is `BillingAcceptance.AcceptsExactly`, what a guild sees afterwards `VisibleRows.ApplicationIsAnswered` |
| BillingStore.Store.Bind | packages/billing/src/provider-events.ts:386-449 | binding in place: environment, purchaser, plan, session, customer record and index, with every refusal |
| BillingStore.Store.CloseCheckouts | packages/billing/src/provider-events.ts:333-353 | the checkouts an event completes or fails |
| BillingStore.Store.Process | packages/billing/src/provider-events.ts:151-384 | one event from binding to checkout, with every error exit; what it leaves is `EventIntake.ProcessingLeaves` |
| BillingStore.Store.IngestWebhook | packages/billing/src/provider-events.ts:62-149 | receiving a webhook once, refusing a changed replay, recording failures |
| BillingStore.Store.ReconcileAuthoritative | packages/billing/src/management.ts:258-286 | reconciliation with a snapshot: refusals, the unchanged case, the write; what it leaves is `JobOutcomes.ReconciledLeaves` |
| BillingStore.Store.ExpireEntitlement | apps/worker/src/index.ts:321-357 | the queued expiry: refused for a missing subscription or another guild, only for the queued period of a merchant-driven one, through the provider's snapshot for the other provider |
| BillingStore.Store.RetryEvent | apps/worker/src/index.ts:233-270 | the retry job in place: its refusals, the reconciliation, and the mark without the event being applied |
| BillingStore.Store.CleanupExpiredCheckouts | apps/worker/src/index.ts:358-401 | the sweep loop, one guarded transaction per checkout found |
| BillingStore.Store.AddPromotion | apps/web/app/actions/billing-admin.ts:123-170 | a promotion upserts its rows and raises the guild version |
| BillingStore.Store.RemovePromotion | apps/web/app/actions/billing-admin.ts:190-206 | a revocation ends the active rows of one promotion and raises the guild version |
| CachedReads.CachedReadIsLinearizable | packages/billing/src/entitlements.ts:73-116 | under any interleaving a cached read returns nothing or the rows of some moment inside the call, filtered at its load instant |
| CachedReads.SingleFlight | packages/cache/src/index.ts:376-400 | at most one loader runs at a time per process and key |
| CachedReads.EveryValueWasLoaded | packages/cache/src/index.ts:346-401 | every snapshot returned was produced by a loader |
| CachedReads.StepKeeps | packages/cache/src/index.ts:346-417 | every step of calls, loads, evictions and transactions keeps the invariant of the read path |
| CachedReads.FirstCopyIsCheckedExactly | packages/billing/src/entitlements.ts:73-116 | a call answers with the first copy it finds if and only if that is of the version it read, not past its boundary and not too old; else it drops the local copy and looks once more, and answers whatever it then finds |
| CachedReads.HeldCopyAnswers | packages/cache/src/index.ts:346-360 | a usable copy in the process is answered without asking Redis or a loader |
| CachedReads.SharedCopyAnswers | packages/cache/src/index.ts:361-376 | a usable copy in Redis is answered without a loader and kept by the process |
| CachedReads.UndisturbedReadAnswers | packages/cache/src/index.ts:376-401 | a read that finds no copy and that nobody disturbs answers exactly the guild's rows as they are visible at its instant, and leaves them in its process and in Redis |
| CachedBilling.BillingIsDisciplined | packages/billing/src/reconciliation.ts:227-275 | every billing run raises the version with every change of rows, which is what the read path relies on |
| CachedBilling.CachedEntitlementsAreLinearizable | packages/billing/src/entitlements.ts:227-268 | over every billing run and every interleaving with readers, a cached read returns nothing or the guild's rows at a moment of the run inside the call |
| CachedBilling.UnversionedWriteBreaksReads | packages/billing/src/entitlements.ts:100-115 | a single write without a version makes later reads return old rows: the discipline is needed |
| EntitlementCache.StoringEvictsTheOldest | packages/cache/src/index.ts:499-509 | the local map never exceeds its size (at least one) and loses at most the entry inserted first |
| EntitlementCache.AssignedKeeps | packages/cache/src/index.ts:499-509 | setting a key keeps the insertion order of the others |
| EntitlementCache.YoungCopyIsSound | packages/billing/src/entitlements.ts:91-116 | a copy whose boundary has not passed is a subset of the direct answer, and equal to it exactly when nothing visible now started after the load |
| EntitlementCache.DistributedCache.GetOrLoad | packages/cache/src/index.ts:346-401 | for one caller, local hit, Redis hit or load, with the copies each leaves, also when reading or writing Redis fails |
| EntitlementCache.EntitlementService.LoadDatabaseSnapshot | packages/billing/src/entitlements.ts:227-268 | the snapshot holds exactly the rows that are active, have started and have not ended, as they are, and the earliest of their ends |
| EntitlementCache.EntitlementService.ListGuildEntitlements | packages/billing/src/entitlements.ts:62-117 | for one caller, whatever Redis does, nothing or exactly the rows that were active, started and not ended at some instant under the present version; in exactly one case the copy Redis still holds is answered unusable, in all others a subset of the direct answer as of at most the configured age ago; a usable copy is answered, and other instants are answered directly |
| CaptchaRuns.AttemptBudget | packages/onboarding/src/captcha.ts:169-225 | in a run whose installations are clean, live attempts plus counted failures never exceed the maximum, and at most one challenge is live |
| CaptchaRuns.BudgetKeptExactly | packages/onboarding/src/captcha.ts:205-226 | the budget is kept throughout a run if and only if every installation displaced whatever was live and found no more wrong answers counted than its admission |
| CaptchaRuns.UninterruptedIsClean | packages/onboarding/src/captcha.ts:158-226 | where nothing is created and no wrong answer is counted between an admission and its transaction, and nothing is created inside a drop, every installation is clean |
| CaptchaRuns.CounterLocksExactly | packages/onboarding/src/captcha.ts:171-178 | in such a run the counter branch is taken if and only if the counter is alive at the maximum and the lock is alive in its last second and reported as gone |
| CaptchaRuns.CounterCountsWrongAnswers | packages/onboarding/src/captcha.ts:411-425 | within one life the counter is the number of wrong answers counted |
| CaptchaRuns.WrongAnswersPerLife | packages/onboarding/src/captcha.ts:411-425 | in a run whose installations are clean at most the maximum number of wrong answers is counted in one life of the counter |
| CaptchaRuns.StartsAreSpaced | packages/onboarding/src/captcha.ts:179-181 | two creations of one member are admitted at least the cooldown apart |
| CaptchaRuns.CreationsHaveTheirOwnStart | packages/onboarding/src/captcha.ts:158-226 | every challenge comes from an earlier admission, and no two from the same one |
| CaptchaRuns.StartsPerGuildLife | packages/onboarding/src/captcha.ts:182-186 | within one life of the guild's counter the starts of a member stay within the guild limit, whatever others start |
| CaptchaCases.CounterBranchMeetsDyingLock | packages/onboarding/src/captcha.ts:171-178 | a run of three wrong answers in which the counter branch is taken while the lock has 300 milliseconds left |
| CaptchaCases.InterruptedCreationOverdraws | packages/onboarding/src/captcha.ts:205-226 | a run in which two wrong answers arrive inside a creation and the new challenge has all its attempts |
| CaptchaCases.CounterBranchWithoutLock | packages/onboarding/src/captcha.ts:174-178 | its continuation, in which the counter is at the maximum without a lock and the counter branch refuses and locks |
| CaptchaOutcomes.OutcomesAreLegal | packages/onboarding/src/captcha.ts:242-271 | under any interleaving the counted outcomes of a challenge count down and end with at most one success or the lock |
| CaptchaOutcomes.OutcomesOfOneChallenge | packages/onboarding/src/captcha.ts:338-454 | at most one success, at most the initial number of failures, strictly decreasing positive remaining counts, nothing counted after success or lock |
| CaptchaOutcomes.ProgressIsAcknowledged | packages/onboarding/src/captcha.ts:284-319 | stored progress is shorter than the target and equals the presses acknowledged since the last failure, also when presses race |
| CaptchaAnswers.AnswerDecides | packages/onboarding/src/captcha.ts:242-271 | in every mode an answer to a challenge that is still as it was read succeeds if and only if it is the stored one; success uses the challenge up, any other answer costs exactly one attempt |
| CaptchaAnswers.RightAnswersSucceed | packages/onboarding/src/captcha.ts:242-271 | under any interleaving an answer that read a live challenge and meets it live succeeds if and only if it is the answer the challenge was created with |
| CaptchaAnswers.MissingIsTold | packages/onboarding/src/captcha.ts:441-454 | an answer to a challenge that is gone changes nothing and is told replay, locked or expired, each exactly when |
| CaptchaAnswers.RepeatIsReplay | packages/onboarding/src/captcha.ts:378-454 | whoever answers a used challenge again within ten minutes is told of the replay |
| CaptchaAnswers.PressDecides | packages/onboarding/src/captcha.ts:273-320 | what one press is: refused, an attempt lost, kept, contended, or an answer |
| CaptchaAnswers.AdmitsExactly | packages/onboarding/src/captcha.ts:169-203 | a creation is admitted if and only if no lock is reported, fewer wrong answers than the maximum count, the cooldown is over and the guild is within its limit; what each outcome writes |
| CaptchaAnswers.CreationLeaves | packages/onboarding/src/captcha.ts:205-226 | a new challenge has the attempts that are left, at least one, and displaces what was read as active |
| CaptchaAnswers.DropLeaves | packages/onboarding/src/captcha.ts:322-331 | a drop removes what was read as active and the active key, nothing else |
| CaptchaButtons.ShufflePermutes | packages/onboarding/src/captcha.ts:54-61 | the shuffle is a permutation whatever is drawn |
| CaptchaButtons.EveryOrderIsDrawn | packages/onboarding/src/captcha.ts:54-61 | every order can be drawn |
| CaptchaButtons.Shuffled | packages/onboarding/src/captcha.ts:54-61 | the in-place loop computes that permutation |
| CaptchaButtons.CreateButtonMaterial | packages/onboarding/src/captcha.ts:101-115 | choices are a permutation of the symbols and the target is drawn from them |
| CaptchaButtons.FullEntry | packages/onboarding/src/captcha.ts:273-319 | a full entry is acknowledged press by press and succeeds exactly when it is the expected answer, else fails and clears or locks |
| CaptchaButtons.DisplayedOrderSucceeds | packages/onboarding/src/captcha.ts:101-115 | pressing the displayed symbols in order succeeds, any other full entry fails |
| CaptchaService.ContendedExactly | packages/onboarding/src/captcha.ts:301-316 | an attempt is retried exactly when the progress moved between its query and its script |
| CaptchaService.CaptchaStore.Create | packages/onboarding/src/captcha.ts:158-240 | admission, the read of the active key and the replacing transaction, with whatever others leave in between |
| CaptchaService.CaptchaStore.InvalidateUser | packages/onboarding/src/captcha.ts:322-331 | the challenge that was read as active is dropped with the active key, whatever others leave in between |
| CaptchaService.CaptchaStore.Verify | packages/onboarding/src/captcha.ts:242-271 | verification against the state that was read: an answer of at most 64 characters to an unchanged live challenge succeeds if and only if it is the stored one, and success leaves neither challenge, active key nor counter |
| CaptchaService.CaptchaStore.AppendSequenceChoice | packages/onboarding/src/captcha.ts:273-320 | the retry loop against any rivals: the first attempt that is not contended decides, three contended ones are a replay |
| SetupOwnership.PendingIsOwned | packages/onboarding/src/repository.ts:185-241 | while PENDING the version is that of the last begin and no other write has happened since |
| SetupOwnership.SettledOnce | packages/onboarding/src/repository.ts:252-314 | at most one completion or failure of a pending setup takes effect |
| SetupOwnership.FailureCannotUndoCompletion | apps/bot/src/onboarding-service.ts:1474-1487 | the failure path of the setup job leaves a completed setup alone whenever it runs |
| SetupOwnership.HealthyIsIntact | packages/onboarding/src/repository.ts:333-357 | HEALTHY means a completed setup whose channel, verified role and message are set and none of whose resources was reported deleted since |
| SetupOwnership.OnboardingRepository.SetupVerification | apps/bot/src/onboarding-service.ts:1427-1490 | whatever fails in the job and whatever others do before its failure path, a completed setup stays as others leave it, a setup that is not the job's own is not touched, and a failed one is marked failed only while it is pending at the job's version |
| SetupOwnership.NeverPendingAgain | packages/onboarding/src/repository.ts:185-241 | a version that is not pending any more is never pending again, whatever is written |
| SetupOutcomes.StepWritesExactly | packages/onboarding/src/repository.ts:185-382 | a step takes effect exactly under its version and owner, and then every field is what it says or what it was |
| SetupOutcomes.AnswersExactly | packages/onboarding/src/repository.ts:185-314 | begin, completion and edits are answered with a conflict exactly when they take no effect |
| SetupOutcomes.RecordIsTheLastWrites | packages/onboarding/src/repository.ts:185-449 | over every run each field of the record is what the last effective step that writes it said, or its initial value |
| EventJournal.OneHolderExactly | packages/onboarding/src/event-journal.ts:29-63 | at every moment of a run at most one claimer holds the key if and only if every claim tried while someone held it started within that holder's lease |
| EventJournal.FinishedForGoodExactly | packages/onboarding/src/event-journal.ts:29-87 | in such a run a finished event stays finished for good if and only if no job gives up after it completed its event, and no claim succeeds while it is finished |
| EventJournal.AttemptsAreClaims | packages/onboarding/src/event-journal.ts:55-62 | the attempt count is the number of successful claims, whatever the claimers do |
| EventJournal.StatementsWrite | packages/onboarding/src/event-journal.ts:29-87 | what each statement leaves of the row: status, count of claims, instant and the failure, cut to its columns |
| EventJournal.LateClaimerBreaksTheLease | packages/onboarding/src/event-journal.ts:47-87 | a run in which a claimer that takes exactly the stale time shares the key and reopens a finished event |
| EventJournal.FailureAfterCompletionReopens | apps/bot/src/onboarding-service.ts:1453-1487 | a run in which nobody is late and a job that completes its event and then fails lets the event be claimed again |
| EventJournal.Journal.Claim | packages/onboarding/src/event-journal.ts:29-63 | a key is claimed if and only if it is new, failed, pending, or under way for the stale time, and the row then says so |
| Template.VariableAtStartIsTheMatch | packages/onboarding/src/template.ts:14-14 | the scan finds the pattern's match where one exists, and it is the only one |
| Template.PrintAfterTokens | packages/onboarding/src/template.ts:27-46 | splitting a template and printing it back is the identity |
| Template.TokensAreTheMatches | packages/onboarding/src/template.ts:27-46 | the tokens are the leftmost non-overlapping matches and the characters between them |
| Template.InsertedVerbatim | packages/onboarding/src/template.ts:34-38 | inserted values are never rescanned |
| TemplateOutcomes.EachTokenInPlace | packages/onboarding/src/template.ts:27-46 | every token is replaced in its place by its value, by itself or by nothing, whatever the other tokens are |
| TemplateOutcomes.NamesAreSegments | packages/onboarding/src/template.ts:14-14 | the names are the dot-separated non-empty segments of letters and digits, the first of which starts with a lower-case letter |
| Template.PreserveIsIdentity | packages/onboarding/src/template.ts:27-46 | PRESERVE with nothing known is the identity |
| Template.WarningsExactly | packages/onboarding/src/template.ts:39-43 | the warnings are the unknown names of the template, each once |
| Common.DistinctKeepsOrder | packages/onboarding/src/template.ts:32-43 | distinct values keep the order of their first occurrences |
| Template.RenderOnboardingTemplate | packages/onboarding/src/template.ts:27-46 | the replacing loop with its seen set renders every token once and warns in first-occurrence order |
| OnboardingMessage.RenderOnboardingMessage | packages/onboarding/src/template.ts:72-137 | mode and emptiness decide which texts are rendered, each is rendered on its own, and the warnings are the unknown names of all of them, each once |
| OnboardingMessage.MessageWarningsExactly | packages/onboarding/src/template.ts:78-82 | a name is warned of if and only if it is unknown and occurs in a rendered text |
| OnboardingMessage.EmptyTextsWarnOfNothing | packages/onboarding/src/template.ts:92-118 | leaving empty texts out changes no warning |
| OnboardingMessage.MessageWarnsExactly | packages/onboarding/src/template.ts:72-137 | a message warns of a name if and only if it is unknown and a text that its mode includes uses it |
| Template.NeutralizedHasNoMention | packages/onboarding/src/template.ts:15-18 | no mass mention is left, in any letter case |
| Template.NeutralizeIsIdempotent | packages/onboarding/src/template.ts:15-18 | neutralizing twice is neutralizing once |
| Template.NeutralizeAddsOnlyZeroWidth | packages/onboarding/src/template.ts:15-18 | nothing but zero-width spaces is added |
| TemplateOutcomes.NoMentionIsLeft | packages/onboarding/src/template.ts:15-18 | at no place of the guarded text stands an @ followed by everyone or here, in any letter case |
| TemplateOutcomes.GuardsEachMention | packages/onboarding/src/template.ts:15-18 | the guard writes one character for each mention of the text, right after its sign, and none where there is no mention |
| RetentionSweep.PageIsNext | apps/worker/src/index.ts:547-554 | a page after the cursor is the next stretch of guilds |
| RetentionSweep.EventTable.SweepGuild | apps/worker/src/index.ts:561-574 | the batch loop deletes only expired events of its guild, the smallest ids first, all of them up to a hundred batches |
| RetentionSweep.EventTable.CleanupOnboardingEvents | apps/worker/src/index.ts:539-581 | the paging loops end, visit every guild once in order, delete only events before their guild's cutoff, leave none of up to a hundred thousand, and return the number of rows removed |
| RoleLimits.AllowedIsThePlanPrefix | packages/onboarding/src/limits.ts:19-59 | a configuration within the plan is used completely, beyond it exactly the plan's number of roles is |
| RoleLimits.AskedRolesAreAllowed | apps/bot/src/onboarding-service.ts:1016-1070 | every occasion asks only for allowed roles and the two special roles, each once |
| RoleOutcomes.FirstRolesAreUsed | packages/onboarding/src/limits.ts:19-59 | of the configured roles it is the first that the plan lets be used |
| RoleOutcomes.JoinAsksExactly | apps/bot/src/onboarding-service.ts:1004-1035 | exactly which roles a joining member is given, by kind of member and configuration |
| RoleOutcomes.EvaluationAsksExactly | apps/bot/src/onboarding-service.ts:1037-1070 | exactly which roles a verification state earns |
| RoleLimits.RecordedExactlyOnce | apps/bot/src/onboarding-service.ts:1125-1180 | every processed role is recorded exactly once, in one of the three lists |
| RoleLimits.ProcessedPrefix | apps/bot/src/onboarding-service.ts:1140-1180 | all roles are processed when the configuration continues on errors, else up to the first refusal by Discord |
| RoleLimits.OnlyAcceptedRoles | packages/onboarding/src/roles.ts:39-57 | only roles the checks accept are added |
| RoleOutcomes.ChecksMean | packages/onboarding/src/roles.ts:39-57 | a role is given if and only if the guild has it, it is neither everyone's nor managed, and it is below the bot; else the one reason why not |
| RoleOutcomes.ReportExactly | apps/bot/src/onboarding-service.ts:1125-1180 | in which list of the report each role asked for stands, if any |
| RoleOutcomes.ReportKeepsOrder | apps/bot/src/onboarding-service.ts:1125-1180 | each list of the report is in the order in which the roles were asked for |
| RoleOutcomes.RolesAfterExactly | apps/bot/src/onboarding-service.ts:1125-1180 | the roles after an assignment: those before it and those reached that the checks and Discord let through |
| RoleOutcomes.ThrowsExactly | apps/bot/src/onboarding-service.ts:1125-1180 | an assignment throws without the permission, or where a refusal by Discord that was met is to be retried |
| RoleOutcomes.EvaluationMeans | apps/bot/src/onboarding-service.ts:1037-1123 | what an evaluation leaves, reports and throws, with the removal of the unverified role |
| RoleLimits.Member.AssignRoles | apps/bot/src/onboarding-service.ts:1125-1180 | the assignment loop in place: roles, report, and when it throws |
| RoleLimits.Member.AssignJoinRoles | apps/bot/src/onboarding-service.ts:1004-1035 | the roles of a joining member, the report, and when it throws |
| RoleLimits.Member.EvaluateMemberConditions | apps/bot/src/onboarding-service.ts:1037-1123 | the roles a verification state has earned, the removal of the unverified role, the report with its failures, when roles count as granted, and when it throws |
| RoleLimits.GrantedMeans | apps/bot/src/onboarding-service.ts:1111-1120 | when roles count as granted the member holds every role asked for, and the unverified role is gone unless Discord no longer knows it |
| RoleLimits.RolePlanLimit | apps/bot/src/onboarding-service.ts:1016-1070 | over a member's life, whatever others do to the roles in between and however often the member rejoins, all assignments together add at most the plan's number of distinct roles besides the two special ones |

## Left out

- Signature checks, provider adapters and their HTTP calls: their results are arbitrary inputs.
- Provider payment and invoice references, and the copy of the customer id on the subscription: values that are only stored.
- The checks before a checkout is created (plan code, enabled provider, risk service, provider capabilities): further refusals before anything is written.
- The unique index on provider sessions, and the row constraint that ties a source to a subscription.
- The expiry write of the checkout status query, and merchant order identifiers.
- Audit rows, notifications, queue retries and the publication of invalidation events; in `CachedReads` an invalidation is an eviction at any time.
- Malformed cached or stored values: everything stored was written by the modelled code.
- The order of entitlements in a result: results are maps keyed like the rows.
- The deletion of guilds: a guild that is gone is part of `CachedReads`, not of the billing runs.
- EntitlementCache.EntitlementService.ListGuildEntitlements: one caller at a time and one instant per call; concurrent callers are the subject of `CachedReads`.
- EntitlementCache.DistributedCache.GetOrLoad: one caller, whose loader's value is fixed before the call; single flight and loads that overlap commits are the subject of `CachedReads`.
- CachedReads.CachedReadIsLinearizable: one guild; processes of different guilds share nothing but evictions, which may happen at any time.
- The waiting times reported with LOCKED and RATE_LIMITED, and the text, image and arithmetic challenges: only their answers matter to the store.
- CaptchaAnswers.MissingIsTold: a lock in its last second is told as a lock; Redis may round its remaining life down to nothing, and the member is then told that the challenge has expired. Admission takes that rounding into account.
- Normalization of captcha answers (NFKC, trimming, upper case): the identity on the captcha alphabet.
- Progress: that a checkout finally completes or a setup is finally settled.
- RetentionSweep.EventTable.CleanupOnboardingEvents: a fixed table; events written during the sweep are not considered. Retention deletes journal rows, so the lease theorems speak of keys that are not yet old enough to be deleted.
- The parts of a message without text (colours, URLs, timestamp, allowed mentions), which are copied.
- Card limits, command policy, permission bits, colours and form parsing: one branch settles each.
