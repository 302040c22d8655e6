# Payment system: model and proofs

This project models the persistence protocol of the payment system and the event handling that runs on it, and
proves what both guarantee over whole runs. `dafny verify dfyconfig.toml` checks everything.

| file | what it holds |
|---|---|
| `Webhooks.dfy` | the webhook table and each SQL statement that is run against it, one function per statement |
| `LeaseProtocol.dfy` | claims, take-overs, finishes, crashes, retries and cleanup as a state machine, and its inductive invariant |
| `LeaseSafety.dfy` | what the lease protocol guarantees in every run |
| `Payments.dfy` | the merging payment upsert, its closed form, and what does not depend on delivery order |
| `Subscriptions.dfy` | the two-statement subscription upsert, ownership, entitlement and listing |
| `Store.dfy` | the store as a class whose methods update the three tables in place |
| `Purchases.dfy` | how a Stripe Checkout becomes a payment and a purchase message, and the consumer's ledger |
| `Fulfilment.dfy` | record, publish and finish as separate steps on top of the leases: exactly-once effects |
| `StripeEvents.dfy` | the Stripe events, what each maps to, and its effect on payments, subscriptions and the consumer |
| `StripeColumns.dfy` | what each Stripe event writes, column by column in terms of the event, and when it is acknowledged |
| `StripeOutcomes.dfy` | the payment status that any sequence of Stripe events leaves |
| `StripeRuns.dfy` | every event handler, and a whole delivery, is a run of the machine of `Fulfilment.dfy` |
| `StripeProvider.dfy` | the Stripe handlers, the webhook entry point and the admin retry as they run |
| `Reconciliation.dfy` | the paging loop, alone and while other workers insert |
| `Migrations.dfy` | the migration runner and the backfill of legacy webhook rows |
| `GooglePurchases.dfy` | verification, notifications, voids and reconciliation of Google purchases |
| `Intervals.dfy`, `Catalog.dfy` | billing intervals, the product index and lookups |

How to read the machines. Every database statement is one action, so a claim is three actions: capture the clock and
a lease ID, insert, take over. An action that is not enabled leaves the state alone, so a statement about all
sequences of actions is a statement about all interleavings, delays and crashes. A worker that crashed or was
overtaken is still there: exclusivity is about who can finish, not about who is running. The `history` of a state
records grants and finishes; no action reads it.

Foreign functions are function-valued parameters with only the laws a proof needs: how a provider reads the event ID
of a verified payload, AES-GCM and SHA-256 (opening undoes sealing; where it matters, the digest is free of
collisions), and Unicode case mapping. Lease IDs are fresh, the clock does not run back, single statements and
transactions are atomic.

## Results of note

- A row that version 1 finds unprocessed, without an error and without any timestamp stays in PROCESSING for ever,
  whatever runs (`Migrations.UndatedStaysForever`, one such row in `UndatedIsNeverClaimable`):
  `processing_started_at < cutoff` is never true of NULL. `Migrations.ReclaimableIff` gives the exact condition.
  `payment-system/docs/OPERATIONS.md:6` promises recovery after the lease without this exception.
- A dispute that is won after it was recorded as open stays DISPUTED, and a refund that fails after it was recorded
  stays REFUNDED (`StripeOutcomes.WonDisputeStaysDisputed`, `FailedRefundStaysRefunded`). So does an
  invoice that is declined and then paid: it stays FAILED (`PaidInvoiceStaysFailed`). Exactly when the later outcome is
  stored: `StripeOutcomes.DisputeWonIff`, `RefundFailedIff` and `InvoicePaidIff`.
- A payment whose first attempt is declined and whose second one succeeds is stored as FAILED
  (`StripeOutcomes.RetriedPaymentStaysFailed`), also when its purchase is credited (`CreditedPaymentStaysFailed`).
  Exactly when SUCCEEDED is stored: `StripeOutcomes.SucceededIff`.
- The stored payment status depends on delivery order: CANCELED and FAILED overwrite each other
  (`Payments.CanceledAndFailedDependOnOrder`). `Payments.StatusIgnoresOrderIff` gives the exact condition.
- The catalog accepts intervals such as `01-month` and `+1-month`, which equal no printed Stripe interval, so the
  product can never match its price (`Intervals.UnprintableIntervals`). `Intervals.PrintableIff` gives the exact
  condition.
- Entitlement trims the plan asked for, while the plan stored for a Stripe subscription is not trimmed
  (`payment-system/services/provider_stripe.go:525-532`). A plan stored as ` pro` is entitled but never found by name
  (`Subscriptions.SpacedPlanIsNeverFound`, and from the price metadata on `StripeEvents.SpacedPlanIsStored`);
  `Subscriptions.AskableIff` gives the exact condition.
- An accepted subscription write overwrites the customer ID even with a blank one; only owner and provider data are
  kept. The model follows the code (`payment-system/store/store.go:212-223`).

## Model

| member | source | states |
|---|---|---|
| LeaseProtocol.StepInv | payment-system/store/store.go:24-128 | every action of claim, take-over, finish, crash, retry and cleanup keeps the protocol invariant |
| LeaseProtocol.ExecInv | payment-system/store/store.go:24-128 | the invariant holds after any sequence of actions |
| LeaseProtocol.HeldIsLast | payment-system/store/store.go:78-80 | a lease that a finish would match is the last one granted for its event |
| LeaseSafety.ReachedInv | payment-system/store/store.go:24-128 | every reachable state satisfies the invariant |
| LeaseSafety.SupersededLeaseIsDead | payment-system/store/store.go:63-88 | a granted lease that the row no longer carries can never finish, in any future and with any outcome: its finish changes nothing |
| LeaseSafety.SucceededIsAbsorbing | payment-system/store/store.go:52-56 | no later action changes a SUCCEEDED row, except that the cleanup may clear payload and signature; it is never granted again |
| LeaseSafety.GrantsBalance | payment-system/store/store.go:30-88 | in a history of this protocol every grant ends in a success, a failure or a take-over, or is the one in progress |
| LeaseSafety.AttemptsConserved | payment-system/store/store.go:30-87 | attempts count grants, and grants equal successes plus failures plus take-overs plus the one in progress; an event succeeds at most once |
| LeaseSafety.LeasesAreSpaced | payment-system/store/store.go:25-56 | j - i successive take-overs without a finish span more than j - i lease lengths of captured time, however long workers are delayed between statements |
| LeaseSafety.ClaimGranted | payment-system/store/store.go:24-60 | an undisturbed claim is granted exactly when the row is absent, FAILED, or PROCESSING since before the cutoff, and otherwise changes nothing |
| LeaseSafety.Recoverable | payment-system/store/store.go:35-77 | from every reachable state, once the lease length has passed, a fresh delivery is granted exactly when the event has not succeeded |
| LeaseSafety.UndatedRowIsStuck | payment-system/store/store.go:54-55 | a startup row in PROCESSING without a start time is left exactly as it is by every run |
| LeaseSafety.PayloadOfLatestGrant | payment-system/store/store.go:45-56 | a granted row holds payload, signature and type of its latest grant until it succeeded, and payload and signature until the cleanup removes them together |
| LeaseSafety.RetryReplaysItsEvent | payment-system/services/service.go:393-410 | a retry that passes the conditional mark replays a payload of its own event, although it was read by an earlier statement; the exception is a legacy row without payload |
| Payments.BuildUpdates | payment-system/store/store.go:145-163 | the update map, filled column by column in any order, has exactly the effect of the merge and never writes a blank text |
| Payments.UpsertsHaveClosedForm | payment-system/store/store.go:130-166 | after any deliveries over any keys, a key has a row exactly when it was delivered, and the row is: per text the last non-empty value, the last non-zero amount, the latest time, the last status of maximal rank |
| Payments.ClosedFormIsUnique | payment-system/store/store.go:145-163 | the closed form determines the whole row |
| Payments.RedeliveryIsNoOp | payment-system/store/store.go:145-163 | delivering the last payload again changes nothing |
| Payments.NeverRegresses | payment-system/store/store.go:146-163 | over any deliveries, rank and time of a stored row never go back and no text is erased |
| Payments.OrderIndependent | payment-system/store/store.go:158-189 | for the same deliveries in any order and number, rank and time agree, and the status too unless two statuses share the top rank |
| Payments.StatusByPrecedence | payment-system/store/store.go:130-189 | the stored status is REFUNDED if ever delivered, else DISPUTED, else FAILED or CANCELED, else SUCCEEDED, else PENDING, else an unknown one |
| Payments.ReorderedTablesAgree | payment-system/store/store.go:130-189 | the same for whole tables: the same writes over all keys in any order leave the same keys, ranks and times |
| Payments.StatusIgnoresOrderIff | payment-system/store/store.go:130-189 | every order of the same writes to the table leaves the same status in a row exactly when all deliveries for it that no other one outranks carry one status |
| Payments.MovedLastWins | payment-system/store/store.go:161-163 | the status of any write that has the stored rank is the one stored when that write is made last |
| Payments.CanceledAndFailedDependOnOrder | payment-system/store/store.go:161-189 | a CANCELED and a FAILED delivery leave the later one in either order |
| Subscriptions.ExecuteValid | payment-system/store/store.go:191-226 | a statement keeps keys unique, primary keys ascending and every existing ID |
| Subscriptions.RunValid | payment-system/store/store.go:191-226 | so does any run of statements; rows are never removed or renumbered |
| Subscriptions.UpsertInPlace | payment-system/store/store.go:202-225 | an upsert of a stored key writes its own row only, and not even that one when another identity owns it |
| Subscriptions.RunHasClosedForm | payment-system/store/store.go:191-226 | over every interleaving of inserts and merges, a row is what its accepted writes alone leave: first owner, last non-empty provider data, otherwise the last accepted write; rejected writes leave no trace |
| Subscriptions.ClosedFormIsUnique | payment-system/store/store.go:212-223 | that determines the row |
| Subscriptions.OwnerIsForever | payment-system/store/store.go:209-220 | a row that has an owner keeps it in every interleaving |
| Subscriptions.RejectedIff | payment-system/store/store.go:209-211 | a merge is refused exactly when its identity differs from the first identity accepted |
| Subscriptions.UpsertUnderInterference | payment-system/store/store.go:191-226 | with anything running before and between its two statements, an upsert always finds its row, is refused exactly for a different first owner, and then changes nothing |
| Subscriptions.BestIsBest | payment-system/store/store.go:237-247 | the query returns an entitling row that comes first by period end, then by ID |
| Subscriptions.EntitlementIsCorrect | payment-system/store/store.go:228-247 | an entitlement is found exactly when some row of the identity is ACTIVE or TRIALING, has not ended and has the plan asked for; the one found is such a row and none ends later; the active-subscription check is the same for any plan |
| Subscriptions.EntitlementOverRuns | payment-system/store/store.go:191-247 | over every run, an identity is entitled exactly when it is the first accepted for some subscription whose last accepted write is ACTIVE or TRIALING, has not ended and has the plan asked for |
| Subscriptions.TimeOnlyExpires | payment-system/store/store.go:237-247 | time alone never creates an entitlement, and the one found stays the one found exactly until its period ends |
| Subscriptions.AskableIff | payment-system/store/store.go:241-243 | a stored plan can be asked for by name exactly when it is not empty and has no space at either end |
| Subscriptions.SpacedPlanIsNeverFound | payment-system/store/store.go:241-243 | a subscription stored under ` pro` entitles, but no question about a plan finds it |
| Subscriptions.AboveIsSuffix | payment-system/store/store.go:256-260 | the rows above the last ID read are exactly the rows not read yet |
| Store.PaymentSystemStore.ClaimWebhook | payment-system/store/store.go:24-61 | granted exactly for new, failed and expired events; the granted row carries lease, times, delivered payload and one more attempt; nothing else changes, and a refused claim changes nothing |
| Store.PaymentSystemStore.FinishWebhook | payment-system/store/store.go:63-88 | only the holder of the current lease finishes, once, and only its row; it records time or error; anyone else gets LeaseLost and changes nothing |
| Store.PaymentSystemStore.MarkWebhookForRetry | payment-system/store/store.go:104-115 | succeeds exactly for a FAILED event and otherwise changes nothing |
| Store.PaymentSystemStore.CleanupWebhookPayloads | payment-system/store/store.go:124-128 | clears payload and signature of exactly the events that succeeded before the given time and changes nothing else |
| Store.PaymentSystemStore.UpsertPayment | payment-system/store/store.go:130-166 | the transaction with its update map is the merge of the payment specification, with a zero time replaced by the clock |
| Store.PaymentSystemStore.UpsertSubscription | payment-system/store/store.go:191-226 | the two statements amount to the subscription specification; a conflict is reported exactly for a different owner and leaves all rows alone |
| Intervals.PrintedIsValid | payment-system/services/config.go:111-121 | a printed Stripe interval of positive count and allowed unit passes the validator |
| Intervals.PrintedIsInjective | payment-system/services/provider_stripe.go:103-109 | equal printed intervals have equal count and unit, so comparing strings compares intervals |
| Intervals.ValidIntervalIff | payment-system/services/config.go:111-121 | an interval is valid exactly when it is a positive 64-bit count, with or without a plus sign, a dash and one of four units |
| Intervals.PrintableIff | payment-system/services/config.go:111-121 | a valid interval is the printed form of some price exactly when it starts with a digit from 1 to 9 |
| Intervals.UnprintableIntervals | payment-system/services/config.go:111-121 | `01-month` and `+1-month` pass the validator and equal no printed interval |
| Catalog.LoadEntry | payment-system/services/config.go:70-93 | one entry is refused for exactly its offence, given the entries before it, and otherwise the index grows to agree with the longer list |
| Catalog.BuildIndex | payment-system/services/config.go:70-94 | loading succeeds exactly when no entry offends, reports the first offence, and on success the index holds exactly the enabled normalized entries |
| Catalog.OffenceIff | payment-system/services/config.go:70-93 | which error each entry causes, in terms of the entries as read: incomplete, wrong interval, duplicate of an entry not disabled, or none |
| Catalog.IndexHoldsIff | payment-system/services/config.go:70-94 | the index holds exactly the entries not disabled, with each column trimmed and in its case, under their provider and ID |
| Catalog.DistinctNames | payment-system/services/config.go:131-142 | exactly the non-blank normalized names, each once |
| Catalog.NormalizedProviders | payment-system/services/config.go:131-142 | the loop computes those names in order of first appearance |
| Catalog.ProviderIndexedIff | payment-system/services/config.go:87-99 | a provider is indexed exactly when the list has an enabled product for it |
| Catalog.LoadRuntimeConfig | payment-system/services/config.go:35-109 | of the providers and the catalog: they load exactly when the names are supported, the catalog is clean, and every named provider has an enabled product; otherwise the error names what is wrong |
| Catalog.LookupAgreesWithList | payment-system/services/config.go:123-129 | a lookup returns an entry exactly when that entry is enabled, listed under the normalized names and of the kind asked for |
| Purchases.MessageIdIsInjective | payment-system/services/provider_stripe.go:382 | different payments have different message IDs |
| Purchases.SameMessageIffSamePayment | payment-system/services/provider_stripe.go:334-392 | two events, also different webhooks, carry the same message ID exactly when they record the same payment |
| Purchases.PaymentIsNamed | payment-system/services/provider_stripe.go:335-340 | row, message ID and message payload name a payment by its payment intent, else its invoice, else its session |
| Purchases.CheckoutColumns | payment-system/services/provider_stripe.go:341-419 | the columns recorded for a Checkout, its status for each event and payment status, when a purchase is announced, and every field of the announcement |
| Purchases.RefusedIff | payment-system/services/provider_stripe.go:362-370 | a Checkout is refused exactly when it is paid and one-time but names no identity, or the price found for it is not sold once under the plan it names |
| Purchases.FulfilOk | payment-system/docs/EVENTS.md:47-55 | the consumer's ledger has exactly one credit for each processed message ID |
| Fulfilment.RunsProject | payment-system/services/provider_stripe.go:215-230 | every fulfilment run is a run of the lease protocol on the webhook table |
| Fulfilment.ExecInv | payment-system/services/provider_stripe.go:215-401 | the fulfilment invariant holds after any sequence of steps |
| Fulfilment.CreditedAtMostOnce | payment-system/services/provider_stripe.go:334-392 | in every run of deliveries, retries, failures, crashes and take-overs each payment is credited at most once |
| Fulfilment.CreditsAreKept | payment-system/docs/EVENTS.md:52-55 | a credit is never withdrawn or altered |
| Fulfilment.CreditsAreEarned | payment-system/services/provider_stripe.go:362-392 | every credit belongs to a delivered paid one-time Checkout of that payment and identity, for a one-time catalog product, and its payment is stored with at least the rank of SUCCEEDED |
| Fulfilment.CompletedIsCreditedOnce | payment-system/services/provider_stripe.go:215-230 | a paid one-time Checkout whose handler made the event SUCCEEDED has exactly one credit |
| Fulfilment.SucceededRowHasWinner | payment-system/store/store.go:63-88 | a row that became SUCCEEDED during the run, also one found failed or interrupted at startup, was made so by exactly one lease, the one it carries |
| Fulfilment.SucceededRowIsCreditedOnce | payment-system/services/provider_stripe.go:215-230 | a row that became SUCCEEDED during the run and stores the payload of a paid one-time Checkout has exactly one credit |
| Fulfilment.HandlerCompletes | payment-system/services/provider_stripe.go:220-230 | a worker that holds its lease and whose calls succeed ends with the row SUCCEEDED and the message fulfilled |
| Fulfilment.CanAlwaysComplete | payment-system/services/provider_stripe.go:215-230 | from every reachable state a paid one-time Checkout that has not succeeded can still be completed after the lease length |
| StripeEvents.RedeliveryCreditsNothing | payment-system/services/provider_stripe.go:374-392 | once the consumer committed a purchase, handling any paid event of the same payment credits nothing more and still can succeed |
| StripeEvents.OnlyPurchasesArePublished | payment-system/services/provider_stripe.go:232-401 | no event but a paid one-time Checkout reaches the consumer, and that one adds its own message only |
| StripeEvents.SyncedEntitles | payment-system/services/provider_stripe.go:456-523 | after a subscription was brought up to date, its row entitles its first owner and nobody else, exactly while it is active or trialing and its period runs, under the plan mapped |
| StripeEvents.SpacedPlanIsStored | payment-system/services/provider_stripe.go:476-482 | price metadata with the plan code ` pro` are stored untrimmed, and the subscription then entitles nobody to any plan that can be asked for |
| StripeColumns.IntentColumns | payment-system/services/provider_stripe.go:233-261 | the row that a payment-intent event records, with the status of each of its four types |
| StripeColumns.InvoiceColumns | payment-system/services/provider_stripe.go:421-442 | a paid invoice is recorded as SUCCEEDED with the amount paid, another one as FAILED with the amount due, with identity, customer, subscription, kind, currency and time of the event |
| StripeColumns.RefundColumns | payment-system/services/provider_stripe.go:285-305 | the row that a refund records, for the identity of its own metadata, else of its payment, else of the stored payment |
| StripeColumns.DisputeColumns | payment-system/services/provider_stripe.go:307-329 | the same for a dispute, SUCCEEDED exactly when won or prevented |
| StripeColumns.CheckoutIsRecorded | payment-system/services/provider_stripe.go:358-376 | a Checkout that can be planned is recorded as planned whatever follows; otherwise nothing changes |
| StripeColumns.CheckoutAndIntentShareRow | payment-system/services/provider_stripe.go:251-253 | a Checkout and the events of its payment intent write one row and no other |
| StripeColumns.OneIntentOneCredit | payment-system/services/provider_stripe.go:335-392 | two paid Checkouts of one payment intent carry one message ID and give one credit |
| StripeColumns.SyncedColumns | payment-system/services/provider_stripe.go:456-523 | the columns that a synchronized subscription leaves: the plan from the first source that is not blank, the status for each of the seven Stripe statuses, period, cancellation, customer and owner |
| StripeColumns.SyncedPlanEntitles | payment-system/services/provider_stripe.go:456-523 | a plan asked for by name is found for the owner when the subscription is active or trialing, has not ended and its sources name that plan first, and the synchronized row is found for nobody else and on no other terms |
| StripeColumns.SubscriptionsAfter | payment-system/services/provider_stripe.go:278-283 | which events bring which subscription up to date, and for which identity |
| StripeColumns.UnsyncedIsUnchanged | payment-system/services/provider_stripe.go:456-486 | a subscription without an ID, of another owner, or that cannot be stored leaves its row and everything else as it was |
| StripeColumns.AcknowledgedIff | payment-system/services/provider_stripe.go:232-401 | an event is acknowledged exactly when it decodes and everything its type calls for succeeds |
| StripeColumns.ReportedError | payment-system/services/provider_stripe.go:232-401 | otherwise the error reported is that of the first call that failed |
| StripeRuns.HandlerIsARun | payment-system/services/provider_stripe.go:334-401 | a call of the Checkout handler under a lease is a run of the fulfilment machine, with the same payments, ledger and outcome |
| StripeRuns.OtherHandlerIsARun | payment-system/services/provider_stripe.go:232-332 | so is a call of the handler of any other event, which leaves the ledger alone |
| StripeRuns.DeliveryIsARun | payment-system/services/provider_stripe.go:215-230 | from every reachable state, a delivery that is granted its lease and not overtaken is one run of claim, handler and finish, which leaves the payments, ledger and webhook table that the entry point promises |
| StripeOutcomes.RunPayments | payment-system/services/provider_stripe.go:232-401 | the payments that any events leave are the upserts they report, in order |
| StripeOutcomes.StoredStatus | payment-system/services/provider_stripe.go:232-401 | over any events with any failures, a payment is stored exactly when some event reported on it, with a reported status that no other reported one outranks |
| StripeOutcomes.SucceededIff | payment-system/services/provider_stripe.go:242-250 | SUCCEEDED is stored exactly when success was reported and no failed, canceled, disputed or refunded payment was, before or after |
| StripeOutcomes.DisputeWonIff | payment-system/services/provider_stripe.go:314-329 | a dispute is stored as SUCCEEDED exactly when every event recorded for it said won or prevented, otherwise as DISPUTED |
| StripeOutcomes.RefundFailedIff | payment-system/services/provider_stripe.go:290-305 | a refund is stored as FAILED exactly when every event recorded for it said failed, otherwise as REFUNDED |
| StripeOutcomes.InvoicePaidIff | payment-system/services/provider_stripe.go:421-427 | an invoice is stored as SUCCEEDED exactly when every event recorded for it was a payment, otherwise as FAILED |
| StripeOutcomes.WonDisputeStaysDisputed | payment-system/services/provider_stripe.go:314-317 | a dispute opened and then won is stored as DISPUTED |
| StripeOutcomes.FailedRefundStaysRefunded | payment-system/services/provider_stripe.go:290-293 | a refund made and then failed is stored as REFUNDED |
| StripeOutcomes.PaidInvoiceStaysFailed | payment-system/services/provider_stripe.go:421-427 | an invoice declined and then paid is stored as FAILED |
| StripeOutcomes.RetriedPaymentStaysFailed | payment-system/services/provider_stripe.go:242-250 | a payment declined and then paid is stored as FAILED |
| StripeOutcomes.CreditedPaymentStaysFailed | payment-system/services/provider_stripe.go:242-250 | a payment declined and then paid through its Checkout is credited and stored as FAILED |
| StripeProvider.Consumer.Publish | payment-system/docs/EVENTS.md:49-55 | a publish succeeds only if the consumer has the message; the ledger changes at most by that message |
| StripeProvider.Stripe.ReadCheckout | payment-system/services/provider_stripe.go:335-373 | the payment and message assembled step by step are the planned ones, with the same refusals |
| StripeProvider.Stripe.HandleCheckout | payment-system/services/provider_stripe.go:334-401 | record, then publish or bring the subscription up to date; a refused or unrecorded Checkout changes nothing |
| StripeProvider.Stripe.HandleInvoice | payment-system/services/provider_stripe.go:421-454 | an invoice is recorded with the amount paid or due, then its subscription is brought up to date for the identity of the invoice or else of the subscription |
| StripeProvider.Stripe.SyncSubscription | payment-system/services/provider_stripe.go:456-489 | a retrieved subscription is mapped field by field and upserted; one without an ID changes nothing |
| StripeProvider.Stripe.RecordClaim | payment-system/services/provider_stripe.go:285-329 | a refund or dispute is recorded for the identity of its own metadata, else of its payment, else of the stored payment |
| StripeProvider.Stripe.HandleEvent | payment-system/services/provider_stripe.go:232-332 | each event type records the payment and subscription that `StripeEvents.Handled` maps it to, of which the rows above speak |
| StripeProvider.Stripe.HandleWebhook | payment-system/services/provider_stripe.go:215-230 | unverified: nothing changes; not granted: acknowledged without processing; granted: handled once, only its own row is written and holds the bytes and signature that arrived, SUCCEEDED exactly on success, and a take-over meanwhile keeps the row and turns success into LeaseLost |
| StripeProvider.Stripe.RetryWebhook | payment-system/services/service.go:393-410 | a retry of an event that is not FAILED changes nothing; a FAILED one loses its start time and its stored bytes and signature are delivered as if they arrived now: refused with no other change when they no longer verify, otherwise granted, handled and settled in its own row only |
| Reconciliation.SweepVisits | payment-system/services/service.go:422-432 | a sweep has refreshed each row it passed once, from the state it had before, in place; the others are untouched and none was added or renumbered |
| Reconciliation.SweptColumns | payment-system/services/service.go:422-432 | each row passed has the columns its provider answered, its first owner and its last provider data; a row of another identity or without an answer is as before |
| Reconciliation.VisitErrorsAre | payment-system/services/service.go:429-431 | the errors collected are, in row order and one each, those of the rows whose provider failed, whose owner differs, or whose refresh failed after the update |
| Reconciliation.PageDuringSweep | payment-system/services/service.go:417-423 | the next listing holds the next rows with the contents they had before the sweep |
| Reconciliation.Service.VisitPage | payment-system/services/service.go:422-432 | one page is visited in order whatever individual providers answer |
| Reconciliation.Service.Refresh | payment-system/services/service.go:423-431 | one visit updates one row and adds one error exactly when it fails, also when it fails after the update |
| Reconciliation.Service.ReadPage | payment-system/services/service.go:417-432 | one turn of the loop advances by a full page or to the end |
| Reconciliation.Service.ReadPages | payment-system/services/service.go:416-436 | the loop ends, at the end of the table or after the full pages before the failed listing |
| Reconciliation.Service.Reconcile | payment-system/services/service.go:412-441 | every row is visited exactly once unless a listing fails; the result is the errors of exactly the failing rows in order, then those of the listing and the cleanup, and it is empty exactly when nothing failed; the cleanup runs in every case |
| Reconciliation.PagingUnderInterference | payment-system/services/service.go:416-436 | while others insert and update, paging reads exactly once and in order the rows of the snapshot of its last listing |
| Migrations.Database.RunMigrations | payment-system/migrations.go:33-55 | the loop is the run of the specification: stop at the first failure, skip recorded versions |
| Migrations.PrefixIsTransformed | payment-system/migrations.go:45-50 | a committed prefix took the contents through the `up` of each of its migrations and recorded their versions, in order |
| Migrations.RunSucceedsIff | payment-system/migrations.go:33-55 | a run succeeds exactly when its setup, its lookups and the transactions it needs do |
| Migrations.RunsCommitAPrefix | payment-system/migrations.go:37-54 | over any runs that fail anywhere, the recorded versions are a prefix of the list, each migration is committed once and in order, and after full success nothing changes |
| Migrations.HealthyRunCompletes | payment-system/migrations.go:37-54 | a run without failures completes the list whatever failed before |
| Migrations.Backfill | payment-system/migrations.go:21-29 | the three updates have their combined effect on every row |
| Migrations.BackfillClassifies | payment-system/migrations.go:21-29 | SUCCEEDED exactly if processed, FAILED exactly if unprocessed with a nonblank error; the rest is dated by its start, else its update, else its creation; no other column changes |
| Migrations.ReclaimableIff | payment-system/migrations.go:27-29 | a legacy event can ever be claimed again exactly when it is unprocessed and failed or carries some time |
| Migrations.UndatedIsNeverClaimable | payment-system/migrations.go:27-29 | one undated legacy row that no claim ever matches |
| Migrations.UndatedStaysForever | payment-system/migrations.go:27-29 | an unprocessed legacy row without error and time stays in PROCESSING, unchanged, in every run |
| Migrations.BackfillStartsProtocol | payment-system/migrations.go:17-30 | the backfill establishes the starting condition of the lease protocol exactly when interrupted rows carry a time that is not in the future and payloads belong to their events |
| GooglePurchases.VerifiedIsFiled | payment-system/services/provider_google.go:214-225 | a verified purchase is written under the digest of its token, sealed so that it opens to it, for the identity given |
| GooglePurchases.VerifiedIff | payment-system/services/provider_google.go:170-217 | the exact conditions under which a verification succeeds |
| GooglePurchases.VerifiedColumns | payment-system/services/provider_google.go:218-222 | the columns it writes: key, plan, status of each Google state, period, renewal and a token that opens |
| GooglePurchases.VerificationError | payment-system/services/provider_google.go:170-217 | otherwise the error of the first check that fails |
| GooglePurchases.StepInv | payment-system/services/provider_google.go:141-245 | verification, notification, void and reconciliation, each as separate statements, keep every row filed under its token |
| GooglePurchases.ExecInv | payment-system/services/provider_google.go:141-245 | so does every interleaving of them |
| GooglePurchases.RowsDecryptToTheirKey | payment-system/services/provider_google.go:214-292 | in every reachable state a row decrypts to a token whose digest is its external ID |
| GooglePurchases.ReconcileUpdatesItsRow | payment-system/services/provider_google.go:239-245 | reconciling a row read any time ago updates that row, creates none, is not refused and keeps the owner |
| GooglePurchases.VoidEndsEntitlement | payment-system/services/provider_google.go:145-154 | in every run, once the merge of a void has run, the row is REFUNDED and entitles nobody to anything until another write to it takes effect |
| GooglePurchases.OwnersAreProven | payment-system/services/provider_google.go:141-187 | in every reachable state the owner of a row is an identity that verified the purchase of that row while its account was bound to it; notifications, voids and reconciliations make no owner |
| GooglePurchases.OwnershipIsBound | payment-system/services/provider_google.go:178-187 | with a collision-free digest, two identities accepted for purchases of one account are equal up to surrounding space |

## Left out

- StripeOutcomes.DisputeWonIff: Stripe's kinds of ID do not overlap, so only disputes are recorded under the ID of a dispute (and so for refunds and invoices).
- HTTP controllers, routes, validation, plugin wiring, the reconciliation ticker, logging and metrics.
- Calls to Stripe, Google and Apple, JSON, base64, JWS, X.509, AES-GCM and SHA-256: their answers are parameters.
- SQL and GORM: isolation levels, dialect differences in affected rows, automatic `updated_at`, timestamp precision; statements and transactions are atomic, and rows commit in primary-key order.
- Database errors are failed steps without effect; a commit whose acknowledgement is lost is not modelled on its own.
- The event bus: publishing is synchronous and succeeds only if every handler did.
- The Apple provider: it claims, processes and finishes as Stripe does; its status mapping and signature chain are not modelled.
- The webhook entry point of Google before the claim, and the payments its handlers record, are not modelled; their subscription writes are.
- Prices, checkout, portal and subscription creation, cancellation, failed-webhook lists, payment history and the response shapes of the service.
- StripeProvider.Stripe.HandleEvent: decoding is not modelled; a body that does not decode is an event of its own, and an absent object is an empty ID.
- StripeProvider.Stripe.HandleWebhook: at most one take-over by another worker happens during the call, between processing and finish; arbitrary interleavings are the subject of LeaseProtocol and Fulfilment.
- StripeProvider.Stripe.RetryWebhook: the provider is always Stripe; an unknown provider or one without webhooks is not modelled. How old a signature may be is part of the verification, which is a parameter that sees the clock.
- Store.PaymentSystemStore.FinishWebhook: a long error message keeps the whole characters within its first 4096 bytes; the bytes of a character that the cut splits are dropped.
- Reconciliation.Service.Reconcile: no other worker writes during the call, the page size is a parameter instead of 250, and each provider answer is an error or a single subscription upsert that an error may follow; the payments a refresh records are not modelled; PagingUnderInterference covers concurrent inserts for the listing alone.
- Migrations.Backfill: schema changes of version 1 are left out; only its three updates of webhook rows are modelled.
- GooglePurchases.VerifiedIsFiled: a blank start time is an instance of a given start time, and the retry of an acknowledgement that was already done counts as acknowledged.
- Catalog.LoadRuntimeConfig: refusals of a bad duration, a missing or undecodable products file and a bad encryption key are left out; Unicode case mapping is a parameter without laws.
