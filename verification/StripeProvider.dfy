/** The Stripe webhook handler as it runs: claim, record, publish, finish, and the admin retry. */
module StripeProvider {
  import opened Basics
  import opened Purchases
  import opened Store
  import opened StripeEvents
  import P = Payments
  import S = Subscriptions
  import W = Webhooks

  /** The application behind the event bus. */
  class Consumer {
    var ledger: Ledger

    constructor ()
      ensures ledger == Ledger({}, [])
    {
      ledger := Ledger({}, []);
    }

    method Publish(m: Message, delivery: Delivery) returns (err: Option<Error>)
      modifies this
      ensures ledger == if delivery.FailsBefore? then old(ledger) else Fulfil(old(ledger), m)
      ensures err == if delivery.Healthy? then None else Some(delivery.err)
      ensures err.None? ==> m.id in ledger.fulfilled
    {
      if delivery.FailsBefore? {
        return Some(delivery.err);
      }
      if m.id !in ledger.fulfilled {
        ledger := Ledger(ledger.fulfilled + {m.id}, ledger.credits + [m]);
      }
      return if delivery.Healthy? then None else Some(delivery.err);
    }
  }

  class Stripe {
    const shop: Shop
    const duration: Time
    const verify: (Bytes, string, Time) -> Result<Parsed, Error>
    const store: PaymentSystemStore
    const consumer: Consumer

    constructor (shop: Shop, duration: Time, verify: (Bytes, string, Time) -> Result<Parsed, Error>,
                 store: PaymentSystemStore, consumer: Consumer)
      ensures this.shop == shop && this.duration == duration && this.verify == verify
      ensures this.store == store && this.consumer == consumer
    {
      this.shop, this.duration, this.verify, this.store, this.consumer := shop, duration, verify, store, consumer;
    }

    ghost function Now(): World
      reads store, consumer
    {
      World(store.payments, store.subscriptions, consumer.ledger)
    }

    /** What a Checkout asks for, assembled step by step. */
    method ReadCheckout(e: Checkout, o: Outside) returns (r: Result<Plan, Error>)
      ensures r == PlanCheckout(shop, e, o.resolved)
    {
      var s := e.session;
      var externalId := s.id;
      if s.paymentIntent != "" {
        externalId := s.paymentIntent;
      } else if s.invoice != "" {
        externalId := s.invoice;
      }
      var identity := Meta(s, "identity_id");
      var payment := P.Payment(identity, s.customer, s.subscription, "", "one_time", s.currency, s.amountTotal,
                               e.occurredAt, CheckoutStatus(s, e.kind));
      if s.mode == SubscriptionMode {
        payment := payment.(kind := "subscription_cycle");
      }
      if payment.status != P.Succeeded || s.mode != PaymentMode {
        payment := payment.(priceId := TrimSpace(Meta(s, "price_id")));
        return Success(Plan(P.Key(STRIPE, externalId), payment, None));
      }
      if TrimSpace(identity) == "" {
        return Failure(Other("Stripe Checkout is missing Procyon identity metadata"));
      }
      var found := CheckoutProduct(shop, s, o.resolved);
      if found.Failure? {
        return Failure(found.error);
      }
      var (priceId, product) := found.value;
      payment := payment.(priceId := priceId);
      var message := Message(
        MessageId(externalId), e.occurredAt, "payment-system", e.eventId,
        PurchaseCompleted(STRIPE, externalId, s.id, identity, priceId, product.planCode, payment.amountMinor,
                          shop.casing.upper(payment.currency), e.occurredAt));
      return Success(Plan(P.Key(STRIPE, externalId), payment, Some(message)));
    }

    method SyncSubscription(sub: StripeSubscription, identity: string, o: Outside) returns (err: Option<Error>)
      requires S.Valid(store.subscriptions)
      modifies store`subscriptions
      ensures S.Valid(store.subscriptions)
      ensures (Now(), err) == Synced(shop, sub, identity, o, old(Now()))
    {
      if sub.id == "" {
        return None;
      }
      var model := S.Subscription(identity, sub.customer, "", MapStatus(sub.status), 0, 0, None,
                                  sub.cancelAtPeriodEnd, "");
      if sub.cancelAt != 0 {
        model := model.(cancelAt := Some(Unix(sub.cancelAt)));
      }
      if sub.items != [] {
        var item := sub.items[0];
        model := model.(periodStart := Unix(item.periodStart), periodEnd := Unix(item.periodEnd));
        if item.price.Some? {
          model := model.(planCode := PlanOf(shop, sub));
        }
      }
      assert model == Mapped(shop, sub, identity);
      if o.syncDatabase.Some? {
        return o.syncDatabase;
      }
      err := store.UpsertSubscription(S.Key(STRIPE, sub.id), model);
    }

    /** Recording precedes publishing: a rejected or unrecorded Checkout leaves everything alone, a recorded one
        is stored exactly as planned, and the handler reports success for a paid one-time Checkout only when the
        consumer has its message. */
    method HandleCheckout(e: Checkout, o: Outside) returns (err: Option<Error>)
      requires S.Valid(store.subscriptions)
      modifies store`payments, store`subscriptions, consumer
      ensures S.Valid(store.subscriptions)
      ensures (Now(), err) == HandledCheckout(shop, e, o, old(Now()))
      ensures PlanCheckout(shop, e, o.resolved).Failure? || o.database.Some? ==> err.Some? && Now() == old(Now())
      ensures IsPaidOneTime(e) && err.None? ==> MessageId(ExternalId(e.session)) in consumer.ledger.fulfilled
    {
      var read := ReadCheckout(e, o);
      if read.Failure? {
        return Some(read.error);
      }
      var plan := read.value;
      PlannedMessage(shop, e, o.resolved);
      if o.database.Some? {
        return o.database;
      }
      store.UpsertPayment(plan.key, plan.payment, o.now);
      if plan.message.Some? {
        err := consumer.Publish(plan.message.value, o.delivery);
        return;
      }
      if e.session.subscription == "" {
        return None;
      }
      if o.subscription.Failure? {
        return Some(o.subscription.error);
      }
      err := SyncSubscription(o.subscription.value, Meta(e.session, "identity_id"), o);
    }

    method HandleInvoice(paid: bool, invoice: Invoice, created: int, o: Outside) returns (err: Option<Error>)
      requires S.Valid(store.subscriptions)
      modifies store`payments, store`subscriptions
      ensures S.Valid(store.subscriptions)
      ensures (Now(), err) == HandledInvoice(shop, paid, invoice, created, o, old(Now()))
    {
      var status, amount := P.Failed, invoice.amountDue;
      if paid {
        status, amount := P.Succeeded, invoice.amountPaid;
      }
      var identity := Entry(invoice.metadata, "identity_id");
      if o.database.Some? {
        return o.database;
      }
      store.UpsertPayment(
        P.Key(STRIPE, invoice.id),
        P.Payment(identity, invoice.customer, invoice.subscription, "", "subscription_cycle", invoice.currency, amount,
                  Unix(created), status),
        o.now);
      if invoice.subscription == "" {
        return None;
      }
      if o.subscription.Failure? {
        return Some(o.subscription.error);
      }
      if identity == "" {
        identity := Entry(o.subscription.value.metadata, "identity_id");
      }
      err := SyncSubscription(o.subscription.value, identity, o);
    }

    /** Refunds and disputes: look for the identity in three places, then record. */
    method RecordClaim(c: Claim, kind: string, status: P.Status, created: int, o: Outside) returns (err: Option<Error>)
      modifies store`payments
      ensures store.payments
              == if o.database.Some? then old(store.payments)
                 else P.Upsert(
                        old(store.payments), P.Key(STRIPE, c.id),
                        P.Stamped(ClaimPayment(c, kind, status, created, o.lookupFails, old(store.payments)), o.now))
      ensures err == o.database
    {
      var identity := Entry(c.metadata, "identity_id");
      if identity == "" && c.intent.Some? {
        identity := Entry(c.intent.value.1, "identity_id");
        if identity == "" && !o.lookupFails && P.Key(STRIPE, c.intent.value.0) in store.payments {
          identity := store.payments[P.Key(STRIPE, c.intent.value.0)].identityId;
        }
      }
      if o.database.None? {
        var payment := P.Payment(identity, "", "", "", kind, c.currency, c.amount, Unix(created), status);
        store.UpsertPayment(P.Key(STRIPE, c.id), payment, o.now);
      }
      return o.database;
    }

    /** The event as it is told apart by type; what each type leads to is proved of `Handled` and of runs of it. */
    method HandleEvent(event: Event, o: Outside) returns (err: Option<Error>)
      requires S.Valid(store.subscriptions)
      modifies store`payments, store`subscriptions, consumer
      ensures S.Valid(store.subscriptions)
      ensures (Now(), err) == Handled(shop, event, o, old(Now()))
    {
      match event
      case CheckoutSession(e) =>
        err := HandleCheckout(e, o);
      case InvoiceEvent(paid, invoice, created) =>
        err := HandleInvoice(paid, invoice, created, o);
      case SubscriptionEvent(sub) =>
        err := SyncSubscription(sub, Entry(sub.metadata, "identity_id"), o);
      case RefundEvent(c, failed, created) =>
        err := RecordClaim(c, "refund", if failed then P.Failed else P.Refunded, created, o);
      case DisputeEvent(c, status, created) =>
        var stored := if status == Won || status == Prevented then P.Succeeded else P.Disputed;
        err := RecordClaim(c, "dispute", stored, created, o);
      case IntentEvent(kind, intent, created) =>
        if o.database.None? {
          store.UpsertPayment(P.Key(STRIPE, intent.id), IntentPayment(kind, intent, created), o.now);
        }
        err := o.database;
      case Undecodable(e) =>
        err := Some(e);
      case Unhandled =>
        err := None;
    }

    /** The event ID is read from the payload alone, by `read`; signature and clock only decide acceptance. */
    ghost predicate ReadsBy(read: Bytes -> string) {
      forall payload, signature, now ::
        var verified := verify(payload, signature, now);
        verified.Success? ==> verified.value.eventId == read(payload)
    }

    /** Every Stripe row stores a payload of its own event. */
    ghost predicate OwnPayloads(read: Bytes -> string)
      reads store
    {
      forall k :: k in store.webhooks && k.provider == STRIPE && store.webhooks[k].payload.Some? ==>
        read(store.webhooks[k].payload.value) == k.eventId
    }

    /** One delivery. An unverified payload changes nothing; a delivery that is not granted the lease is
        acknowledged without being processed; otherwise the event is handled and only its own row is written. That
        row ends SUCCEEDED exactly when success is reported and FAILED exactly when the handler failed, unless
        another worker took the lease over meanwhile, in which case the row is that worker's and a success is
        reported as a lost lease. */
    method HandleWebhook(payload: Bytes, signature: string, o: Outside) returns (err: Option<Error>)
      requires S.Valid(store.subscriptions) && DistinctLeases(o)
      modifies store, consumer
      ensures S.Valid(store.subscriptions)
      ensures Delivered(shop, duration, verify(payload, signature, o.receivedAt), payload, signature, o,
                        old(store.webhooks), store.webhooks, old(Now()), Now(), err)
      ensures forall read :: ReadsBy(read) && old(OwnPayloads(read)) ==> OwnPayloads(read)
    {
      var verified := verify(payload, signature, o.receivedAt);
      if verified.Failure? {
        return Some(InvalidSignature);
      }
      var d := DeliveryOf(verified.value, payload, signature);
      var leaseId, claimed, claimErr := store.ClaimWebhook(d, duration, o.now, o.lease);
      if claimErr.Some? || !claimed {
        return claimErr;
      }
      var processErr := HandleEvent(verified.value.event, o);
      if o.overtaken.Some? {
        var _, _, _ := store.ClaimWebhook(d, duration, o.overtaken.value.1, Success(o.overtaken.value.0));
      }
      var finishErr := store.FinishWebhook(d.key, leaseId, o.finishedAt, processErr);
      if finishErr.Some? && processErr.None? {
        return finishErr;
      }
      return processErr;
    }

    /** An admin retry runs only for a FAILED event; in particular a SUCCEEDED event is refused without being
        processed again. The retry delivers the stored payload with the stored signature as if it arrived now, on a
        row that the mark has changed in its start time only; so it is refused when the signature no longer verifies.
        When it does verify, the bytes replayed are the event's own, so the lease is granted and they are handled. */
    method RetryWebhook(eventId: string, o: Outside) returns (err: Option<Error>)
      requires S.Valid(store.subscriptions) && DistinctLeases(o)
      modifies store, consumer
      ensures S.Valid(store.subscriptions)
      ensures var k := W.Key(STRIPE, eventId);
              if k !in old(store.webhooks) || !old(store.webhooks)[k].status.Failed? then
                && err == Some(RecordNotFound)
                && store.webhooks == old(store.webhooks) && Now() == old(Now())
              else
                var row := old(store.webhooks)[k];
                var payload := if row.payload.Some? then row.payload.value else [];
                var marked := old(store.webhooks)[k := row.(processingStartedAt := None)];
                var replay := verify(payload, row.signature, o.receivedAt);
                && Delivered(shop, duration, replay, payload, row.signature, o,
                             marked, store.webhooks, old(Now()), Now(), err)
                && (forall read :: ReadsBy(read) && old(OwnPayloads(read)) ==>
                      && OwnPayloads(read)
                      && (row.payload.Some? && replay.Success? && o.lease.Success? ==>
                            && replay.value.eventId == eventId
                            && Now() == Handled(shop, replay.value.event, o, old(Now())).0
                            && k in store.webhooks && store.webhooks[k].payload == row.payload
                            && (o.overtaken.None? ==>
                                  && store.webhooks[k].leaseId == o.lease.value
                                  && store.webhooks[k].status == if err.None? then W.Succeeded else W.Failed)))
    {
      var k := W.Key(STRIPE, eventId);
      var found := store.GetWebhook(k);
      if found.Failure? {
        return Some(found.error);
      }
      var row := found.value;
      err := store.MarkWebhookForRetry(k);
      if err.Some? {
        return;
      }
      err := HandleWebhook(if row.payload.Some? then row.payload.value else [], row.signature, o);
    }
  }
}
