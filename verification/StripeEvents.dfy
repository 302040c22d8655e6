/** The Stripe webhooks that the handler knows, and the effect of each on payments, subscriptions and the consumer. */
module StripeEvents {
  import opened Basics
  import opened Catalog
  import opened Purchases
  import P = Payments
  import S = Subscriptions
  import W = Webhooks

  // ----- Events -----

  datatype IntentKind = IntentCreated | IntentSucceeded | IntentPaymentFailed | IntentCanceled

  datatype Intent = Intent(id: string, customer: string, amount: int, currency: string, metadata: map<string, string>)

  /** `subscription` and `metadata` are those of the parent's subscription details; absent ones are empty. */
  datatype Invoice = Invoice(
    id: string,
    customer: string,
    subscription: string,
    metadata: map<string, string>,
    amountDue: int,
    amountPaid: int,
    currency: string)

  /** What refunds and disputes have in common; `intent` is the ID and metadata of the payment they are about. */
  datatype Claim = Claim(
    id: string,
    amount: int,
    currency: string,
    metadata: map<string, string>,
    intent: Option<(string, map<string, string>)>)

  datatype DisputeStatus = Won | Prevented | Unresolved(code: string)

  datatype SubscriptionStatus =
    Active | Trialing | PastDue | Unpaid | Canceled | IncompleteExpired | Unlisted(code: string)

  datatype Price = Price(id: string, metadata: map<string, string>)

  /** Times are in Unix seconds. */
  datatype Item = Item(periodStart: int, periodEnd: int, price: Option<Price>)

  datatype StripeSubscription = StripeSubscription(
    id: string,
    customer: string,
    status: SubscriptionStatus,
    cancelAt: int,
    cancelAtPeriodEnd: bool,
    items: seq<Item>,
    metadata: map<string, string>)

  /** A verified event; `created` is in Unix seconds. The event types of a refund are treated alike, as are those of a
      dispute and of a changed subscription. */
  datatype Event =
    | CheckoutSession(checkout: Checkout)
    | IntentEvent(kind: IntentKind, intent: Intent, created: int)
    | InvoiceEvent(paid: bool, invoice: Invoice, created: int)
    | SubscriptionEvent(subscription: StripeSubscription)
    | RefundEvent(refund: Claim, failed: bool, created: int)
    | DisputeEvent(dispute: Claim, status: DisputeStatus, created: int)
    | Undecodable(err: Error)
    | Unhandled

  /** What the verification of a payload yields. */
  datatype Parsed = Parsed(eventId: string, eventType: string, event: Event)

  /** The webhook row that is claimed holds the bytes and the signature as they arrived. */
  function DeliveryOf(parsed: Parsed, payload: Bytes, signature: string): W.Delivery {
    W.Delivery(W.Key(STRIPE, parsed.eventId), parsed.eventType, payload, signature)
  }

  // ----- Surroundings -----

  /** How a synchronous publish can go: every handler succeeds, or one fails before or after the consumer has
      committed its ledger entry. */
  datatype Delivery = Healthy | FailsBefore(err: Error) | FailsAfter(err: Error)

  /** Everything outside the handler's control during one call: the clock at the verification, the claim and the
      finish; the lease ID drawn; the price looked up for a Checkout; a failure of the payment write, of the look-up
      of an original payment, and of the subscription write; how a publish goes; the subscription retrieved; and
      `overtaken`, the lease ID and time of another worker's claim of the same event while this one is processing. */
  datatype Outside = Outside(
    receivedAt: Time,
    now: Time,
    finishedAt: Time,
    lease: Result<string, Error>,
    resolved: Result<string, Error>,
    database: Option<Error>,
    lookupFails: bool,
    syncDatabase: Option<Error>,
    delivery: Delivery,
    subscription: Result<StripeSubscription, Error>,
    overtaken: Option<(string, Time)>)

  /** Lease IDs are random and never repeat. */
  predicate DistinctLeases(o: Outside) {
    o.overtaken.Some? && o.lease.Success? ==> o.overtaken.value.0 != o.lease.value
  }

  /** What an event handler can change, apart from the webhook table. */
  datatype World = World(payments: P.Table, subscriptions: S.Table, ledger: Ledger)

  // ----- Mapping -----

  /** `time.Unix(seconds, 0)`, as a number of nanoseconds since Go's zero time. */
  function Unix(seconds: int): Time {
    (seconds + 62_135_596_800) * 1_000_000_000
  }

  function IntentStatus(kind: IntentKind): P.Status {
    match kind
    case IntentCreated => P.Pending
    case IntentSucceeded => P.Succeeded
    case IntentPaymentFailed => P.Failed
    case IntentCanceled => P.Canceled
  }

  function RefundStatus(failed: bool): P.Status {
    if failed then P.Failed else P.Refunded
  }

  predicate Resolved(status: DisputeStatus) {
    status.Won? || status.Prevented?
  }

  function DisputedStatus(status: DisputeStatus): P.Status {
    if Resolved(status) then P.Succeeded else P.Disputed
  }

  /** Who a refund or dispute is about: its own metadata, then those of the payment, then the stored payment. */
  function Claimant(c: Claim, lookupFails: bool, payments: P.Table): string {
    if Entry(c.metadata, "identity_id") != "" || c.intent.None? then Entry(c.metadata, "identity_id")
    else
      var (id, metadata) := c.intent.value;
      if Entry(metadata, "identity_id") != "" then Entry(metadata, "identity_id")
      else if !lookupFails && P.Key(STRIPE, id) in payments then payments[P.Key(STRIPE, id)].identityId
      else ""
  }

  function ClaimPayment(c: Claim, kind: string, status: P.Status, created: int, lookupFails: bool, payments: P.Table)
    : P.Payment
  {
    P.Payment(Claimant(c, lookupFails, payments), "", "", "", kind, c.currency, c.amount, Unix(created), status)
  }

  function IntentPayment(kind: IntentKind, intent: Intent, created: int): P.Payment {
    P.Payment(Entry(intent.metadata, "identity_id"), intent.customer, "", "", "one_time", intent.currency,
              intent.amount, Unix(created), IntentStatus(kind))
  }

  function InvoicePayment(paid: bool, invoice: Invoice, created: int): P.Payment {
    P.Payment(Entry(invoice.metadata, "identity_id"), invoice.customer, invoice.subscription, "",
              "subscription_cycle", invoice.currency, if paid then invoice.amountPaid else invoice.amountDue,
              Unix(created), if paid then P.Succeeded else P.Failed)
  }

  /** The payment that an event asks to record, given the payments stored so far. */
  function Asked(shop: Shop, event: Event, o: Outside, payments: P.Table): Option<(P.Key, P.Payment)> {
    match event
    case CheckoutSession(e) =>
      var plan := PlanCheckout(shop, e, o.resolved);
      if plan.Success? then Some((plan.value.key, plan.value.payment)) else None
    case IntentEvent(kind, intent, created) =>
      Some((P.Key(STRIPE, intent.id), IntentPayment(kind, intent, created)))
    case InvoiceEvent(paid, invoice, created) =>
      Some((P.Key(STRIPE, invoice.id), InvoicePayment(paid, invoice, created)))
    case RefundEvent(c, failed, created) =>
      Some((P.Key(STRIPE, c.id), ClaimPayment(c, "refund", RefundStatus(failed), created, o.lookupFails, payments)))
    case DisputeEvent(c, status, created) =>
      Some((P.Key(STRIPE, c.id), ClaimPayment(c, "dispute", DisputedStatus(status), created, o.lookupFails, payments)))
    case SubscriptionEvent(_) => None
    case Undecodable(_) => None
    case Unhandled => None
  }

  function MapStatus(status: SubscriptionStatus): S.Status {
    match status
    case Active => S.Active
    case Trialing => S.Trialing
    case PastDue => S.PastDue
    case Unpaid => S.PastDue
    case Canceled => S.Canceled
    case IncompleteExpired => S.Canceled
    case Unlisted(_) => S.Expired
  }

  /** `firstPaymentValue`: the first value that is not blank, as it is. */
  function FirstValue(values: seq<string>): string {
    if values == [] then "" else if TrimSpace(values[0]) != "" then values[0] else FirstValue(values[1..])
  }

  function PlanOf(shop: Shop, sub: StripeSubscription): string {
    if sub.items == [] || sub.items[0].price.None? then ""
    else
      var price := sub.items[0].price.value;
      FirstValue([Entry(price.metadata, "plan_code"), Entry(sub.metadata, "plan_code"),
                  if price.id in shop.products then shop.products[price.id].planCode else "", price.id])
  }

  function PeriodEnd(sub: StripeSubscription): Time {
    if sub.items == [] then 0 else Unix(sub.items[0].periodEnd)
  }

  function Mapped(shop: Shop, sub: StripeSubscription, identity: string): S.Subscription {
    S.Subscription(
      identity, sub.customer, PlanOf(shop, sub), MapStatus(sub.status),
      if sub.items == [] then 0 else Unix(sub.items[0].periodStart), PeriodEnd(sub),
      if sub.cancelAt != 0 then Some(Unix(sub.cancelAt)) else None, sub.cancelAtPeriodEnd, "")
  }

  // ----- Effects -----

  /** `upsertStripeSubscription`. */
  function Synced(shop: Shop, sub: StripeSubscription, identity: string, o: Outside, w: World)
    : (World, Option<Error>)
  {
    var k, s := S.Key(STRIPE, sub.id), Mapped(shop, sub, identity);
    if sub.id == "" then (w, None)
    else if o.syncDatabase.Some? then (w, o.syncDatabase)
    else
      (w.(subscriptions := S.Upsert(w.subscriptions, k, s)),
       if k in w.subscriptions.rows && S.OwnedByOther(w.subscriptions.rows[k].sub, s) then Some(OwnershipConflict)
       else None)
  }

  function Published(w: World, m: Message, delivery: Delivery): (World, Option<Error>) {
    (if delivery.FailsBefore? then w else w.(ledger := Fulfil(w.ledger, m)),
     if delivery.Healthy? then None else Some(delivery.err))
  }

  /** The effect of a Checkout and how it ends: nothing happens unless the payment can be planned and stored, and
      only then the purchase is published or the subscription brought up to date. */
  function HandledCheckout(shop: Shop, e: Checkout, o: Outside, w: World): (World, Option<Error>) {
    match PlanCheckout(shop, e, o.resolved)
    case Failure(err) => (w, Some(err))
    case Success(plan) =>
      if o.database.Some? then (w, o.database)
      else
        var stored := w.(payments := P.Upsert(w.payments, plan.key, P.Stamped(plan.payment, o.now)));
        if plan.message.Some? then Published(stored, plan.message.value, o.delivery)
        else if e.session.subscription == "" then (stored, None)
        else if o.subscription.Failure? then (stored, Some(o.subscription.error))
        else Synced(shop, o.subscription.value, Meta(e.session, "identity_id"), o, stored)
  }

  function HandledInvoice(shop: Shop, paid: bool, invoice: Invoice, created: int, o: Outside, w: World)
    : (World, Option<Error>)
  {
    if o.database.Some? then (w, o.database)
    else
      var payment := P.Stamped(InvoicePayment(paid, invoice, created), o.now);
      var stored := w.(payments := P.Upsert(w.payments, P.Key(STRIPE, invoice.id), payment));
      if invoice.subscription == "" then (stored, None)
      else if o.subscription.Failure? then (stored, Some(o.subscription.error))
      else
        var sub, named := o.subscription.value, Entry(invoice.metadata, "identity_id");
        Synced(shop, sub, if named == "" then Entry(sub.metadata, "identity_id") else named, o, stored)
  }

  /** The effect of an event and how its handler ends. */
  function Handled(shop: Shop, event: Event, o: Outside, w: World): (World, Option<Error>) {
    match event
    case CheckoutSession(e) => HandledCheckout(shop, e, o, w)
    case InvoiceEvent(paid, invoice, created) => HandledInvoice(shop, paid, invoice, created, o, w)
    case SubscriptionEvent(sub) => Synced(shop, sub, Entry(sub.metadata, "identity_id"), o, w)
    case Undecodable(err) => (w, Some(err))
    case Unhandled => (w, None)
    case _ =>
      if o.database.Some? then (w, o.database)
      else
        var (k, p) := Asked(shop, event, o, w.payments).value;
        (w.(payments := P.Upsert(w.payments, k, P.Stamped(p, o.now))), None)
  }

  /** How the delivery of a payload whose verification came to `verified` goes, from one state of the webhook table
      and the world to another. */
  predicate Delivered(shop: Shop, duration: Time, verified: Result<Parsed, Error>, payload: Bytes, signature: string,
                      o: Outside, before: W.Table, after: W.Table, w: World, w': World, err: Option<Error>) {
    match verified
    case Failure(_) => err == Some(InvalidSignature) && after == before && w' == w
    case Success(parsed) =>
      var k := W.Key("stripe", parsed.eventId);
      if o.lease.Failure? then err == Some(o.lease.error) && after == before && w' == w
      else if k in before && !W.Claimable(before[k], o.now, duration) then
        err.None? && after == before && w' == w
      else
        var (handled, processErr) := Handled(shop, parsed.event, o, w);
        && w' == handled
        && k in after && after == before[k := after[k]]
        && var row := after[k];
        && row.payload == Some(payload) && row.signature == signature && row.eventType == parsed.eventType
        && if o.overtaken.Some? && o.overtaken.value.1 - duration > o.now
           then
             && row.leaseId == o.overtaken.value.0 && row.status.Processing?
             && err == (if processErr.Some? then processErr else Some(LeaseLost))
           else
             && row.leaseId == o.lease.value && err == processErr
             && row.processingStartedAt.None? && row.lastAttemptAt == Some(o.now)
             && (if err.None? then
                   row.status.Succeeded? && row.processedAt == Some(o.finishedAt) && row.lastError == Some("")
                 else
                   && row.status.Failed? && row.lastError.Some?
                   && row.lastError.value <= err.value.Text()
                   && (ByteLength(err.value.Text()) <= 4096 ==> row.lastError.value == err.value.Text()))
  }

  /** The payment that an event does record. */
  function Recorded(shop: Shop, event: Event, o: Outside, payments: P.Table): Option<(P.Key, P.Payment)> {
    match Asked(shop, event, o, payments)
    case None => None
    case Some((k, p)) => if o.database.Some? then None else Some((k, P.Stamped(p, o.now)))
  }

  /** Whatever its type, an event changes the payments by at most the one write it asks for, and that write does not
      depend on how the rest of the handler goes. */
  lemma PaymentsAfter(shop: Shop, event: Event, o: Outside, w: World)
    ensures var written := Recorded(shop, event, o, w.payments);
            Handled(shop, event, o, w).0.payments
            == if written.None? then w.payments else P.Upsert(w.payments, written.value.0, written.value.1)
  {
  }

  /** Only a paid one-time Checkout reaches the consumer. */
  lemma OnlyPurchasesArePublished(shop: Shop, event: Event, o: Outside, w: World)
    requires Handled(shop, event, o, w).0.ledger != w.ledger
    ensures event.CheckoutSession? && IsPaidOneTime(event.checkout)
    ensures Handled(shop, event, o, w).0.ledger.fulfilled
            == w.ledger.fulfilled + {MessageId(ExternalId(event.checkout.session))}
  {
    if event.CheckoutSession? && PlanCheckout(shop, event.checkout, o.resolved).Success? {
      PlannedMessage(shop, event.checkout, o.resolved);
    }
  }

  /** The effect of one attempt at a paid one-time Checkout. */
  lemma PaidEffect(shop: Shop, e: Checkout, o: Outside, w: World)
    requires IsPaidOneTime(e)
    ensures var planned := PlanCheckout(shop, e, o.resolved);
            var (w', err) := HandledCheckout(shop, e, o, w);
            && w'.subscriptions == w.subscriptions
            && (err.None? <==> planned.Success? && o.database.None? && o.delivery.Healthy?)
            && (planned.Failure? || o.database.Some? || o.delivery.FailsBefore? ==> w'.ledger == w.ledger)
            && (MessageId(ExternalId(e.session)) in w.ledger.fulfilled ==> w'.ledger == w.ledger)
            && (planned.Success? && o.database.None? ==>
                  && w'.payments == P.Upsert(w.payments, planned.value.key, P.Stamped(planned.value.payment, o.now))
                  && planned.value.payment.occurredAt == e.occurredAt)
            && (planned.Failure? || o.database.Some? ==> w'.payments == w.payments)
            && (planned.Success? && o.database.None? && !o.delivery.FailsBefore? ==>
                  MessageId(ExternalId(e.session)) in w'.ledger.fulfilled)
  {
    if PlanCheckout(shop, e, o.resolved).Success? {
      PlannedMessage(shop, e, o.resolved);
    }
  }

  lemma UpsertTwice(t: P.Table, k: P.Key, p: P.Payment)
    ensures P.Upsert(P.Upsert(t, k, p), k, p) == P.Upsert(t, k, p)
  {
    P.RedeliveryIsNoOp(if k in t then t[k] else p, p);
  }

  /** Once the consumer has committed the purchase of a paid one-time Checkout, however that attempt was reported,
      handling any paid one-time Checkout of the same payment credits nothing more, and it still succeeds when its
      calls do. The very same delivery also leaves the payment as it is (a zero timestamp alone is dated anew). */
  lemma RedeliveryCreditsNothing(shop: Shop, e: Checkout, o: Outside, f: Checkout, again: Outside, w: World)
    requires IsPaidOneTime(e) && IsPaidOneTime(f) && ExternalId(e.session) == ExternalId(f.session)
    requires PlanCheckout(shop, e, o.resolved).Success? && o.database.None? && !o.delivery.FailsBefore?
    ensures var w1 := HandledCheckout(shop, e, o, w).0;
            var (w2, err) := HandledCheckout(shop, f, again, w1);
            && w2.ledger == w1.ledger && w2.subscriptions == w1.subscriptions
            && (err.None? <==>
                  PlanCheckout(shop, f, again.resolved).Success? && again.database.None? && again.delivery.Healthy?)
            && (f == e && again.resolved == o.resolved && e.occurredAt != 0 ==> w2.payments == w1.payments)
  {
    var w1 := HandledCheckout(shop, e, o, w).0;
    PaidEffect(shop, e, o, w);
    PaidEffect(shop, f, again, w1);
    if e.occurredAt != 0 {
      var plan := PlanCheckout(shop, e, o.resolved).value;
      UpsertTwice(w.payments, plan.key, plan.payment);
    }
  }

  /** Bringing a subscription up to date decides who it entitles: nobody but its owner, and the owner exactly while
      Stripe reports it active or trialing and its period has not ended, under the plan that was mapped. */
  lemma SyncedEntitles(shop: Shop, sub: StripeSubscription, identity: string, o: Outside, w: World,
                       u: string, plan: string, now: Time)
    requires sub.id != "" && o.syncDatabase.None? && Synced(shop, sub, identity, o, w).1.None?
    ensures var k := S.Key(STRIPE, sub.id);
            var before := w.subscriptions.rows;
            var owner := if k in before && before[k].sub.identityId != "" then before[k].sub.identityId else identity;
            S.RowEntitles(Synced(shop, sub, identity, o, w).0.subscriptions, k, u, plan, now)
            <==> && u == owner
                 && sub.status in {Active, Trialing} && PeriodEnd(sub) > now
                 && (TrimSpace(plan) != "" ==> PlanOf(shop, sub) == TrimSpace(plan))
  {
    var k := S.Key(STRIPE, sub.id);
    if k in w.subscriptions.rows {
      S.UpsertInPlace(w.subscriptions, k, Mapped(shop, sub, identity));
    }
  }

  /** Price metadata with a plan code of ` pro` are stored as they are, so the subscription then entitles its owner to
      no plan that can be asked for. */
  lemma SpacedPlanIsStored(shop: Shop, sub: StripeSubscription, identity: string, o: Outside, w: World,
                           u: string, plan: string, now: Time)
    requires sub.items != [] && sub.items[0].price.Some?
    requires Entry(sub.items[0].price.value.metadata, "plan_code") == " pro"
    requires sub.id != "" && o.syncDatabase.None? && Synced(shop, sub, identity, o, w).1.None?
    ensures PlanOf(shop, sub) == " pro"
    ensures TrimSpace(plan) != "" ==>
              !S.RowEntitles(Synced(shop, sub, identity, o, w).0.subscriptions, S.Key(STRIPE, sub.id), u, plan, now)
  {
    assert TrimSpace(" pro") != "" by {
      S.TrimLeftStarts("pro");
      S.TrimRightEnds("pro");
      assert " pro"[1..] == "pro";
    }
    SyncedEntitles(shop, sub, identity, o, w, u, plan, now);
    S.AskableIff(" pro");
  }
}
