/** How a Stripe Checkout event becomes a payment row and a purchase message, and the consumer that turns
    messages into credits. */
module Purchases {
  import opened Basics
  import opened Catalog
  import P = Payments

  const STRIPE := "stripe"
  const TOPIC := "payment.purchase.completed.v1"

  datatype Mode = PaymentMode | SubscriptionMode | SetupMode
  datatype SessionStatus = Paid | Unpaid | NoPaymentRequired
  datatype CheckoutEvent = Completed | AsyncPaymentSucceeded | AsyncPaymentFailed

  /** A Checkout Session; an absent object is an empty ID. */
  datatype Session = Session(
    id: string,
    paymentIntent: string,
    invoice: string,
    subscription: string,
    customer: string,
    mode: Mode,
    paymentStatus: SessionStatus,
    amountTotal: int,
    currency: string,
    metadata: map<string, string>,
    lineItemPrice: string)

  /** A verified Checkout webhook. */
  datatype Checkout = Checkout(eventId: string, kind: CheckoutEvent, occurredAt: Time, session: Session)

  datatype PurchaseCompleted = PurchaseCompleted(
    provider: string,
    externalPaymentId: string,
    checkoutId: string,
    identityId: string,
    priceId: string,
    planCode: string,
    amountMinor: int,
    currency: string,
    completedAt: Time)

  datatype Message = Message(
    id: string,
    occurredAt: Time,
    source: string,
    correlationId: string,
    payload: PurchaseCompleted)

  /** The Stripe part of the catalog, by price ID. */
  datatype Shop = Shop(products: map<string, Product>, casing: Casing)

  /** What a Checkout event asks for: record `payment` under `key`, then publish the message, if any. */
  datatype Plan = Plan(key: P.Key, payment: P.Payment, message: Option<Message>)

  /** A Go map lookup: the zero value for a missing key. */
  function Entry(m: map<string, string>, name: string): string {
    if name in m then m[name] else ""
  }

  function Meta(s: Session, name: string): string {
    Entry(s.metadata, name)
  }

  function ExternalId(s: Session): string {
    if s.paymentIntent != "" then s.paymentIntent else if s.invoice != "" then s.invoice else s.id
  }

  function CheckoutStatus(s: Session, kind: CheckoutEvent): P.Status {
    if kind.AsyncPaymentFailed? then P.Failed
    else if kind.AsyncPaymentSucceeded? || s.paymentStatus.Paid? || s.paymentStatus.NoPaymentRequired? then P.Succeeded
    else P.Pending
  }

  predicate IsPaidOneTime(e: Checkout) {
    CheckoutStatus(e.session, e.kind) == P.Succeeded && e.session.mode.PaymentMode?
  }

  /** The price and product of a paid one-time Checkout; `resolved` is the answer of the line-item lookup
      that is made when the event itself carries no price. */
  function CheckoutProduct(shop: Shop, s: Session, resolved: Result<string, Error>): Result<(string, Product), Error> {
    var named := TrimSpace(Meta(s, "price_id"));
    var carried := if named == "" then s.lineItemPrice else named;
    if carried == "" && resolved.Failure? then Failure(resolved.error)
    else
      var price := if carried == "" then resolved.value else carried;
      if price !in shop.products || shop.products[price].kind != "one_time" then Failure(ProductRejected)
      else
        var plan := TrimSpace(Meta(s, "plan_code"));
        if plan != "" && plan != shop.products[price].planCode then Failure(ProductRejected)
        else Success((price, shop.products[price]))
  }

  function MessageId(externalId: string): string {
    TOPIC + ":" + STRIPE + ":" + externalId
  }

  function CheckoutPayment(e: Checkout, priceId: string): P.Payment {
    var s := e.session;
    P.Payment(
      Meta(s, "identity_id"), s.customer, s.subscription, priceId,
      if s.mode.SubscriptionMode? then "subscription_cycle" else "one_time",
      s.currency, s.amountTotal, e.occurredAt, CheckoutStatus(s, e.kind))
  }

  function Purchase(shop: Shop, e: Checkout, priceId: string, product: Product): Message {
    var s := e.session;
    Message(
      MessageId(ExternalId(s)), e.occurredAt, "payment-system", e.eventId,
      PurchaseCompleted(STRIPE, ExternalId(s), s.id, Meta(s, "identity_id"), priceId, product.planCode,
                        s.amountTotal, shop.casing.upper(s.currency), e.occurredAt))
  }

  function PlanCheckout(shop: Shop, e: Checkout, resolved: Result<string, Error>): Result<Plan, Error> {
    var s := e.session;
    var key := P.Key(STRIPE, ExternalId(s));
    if IsPaidOneTime(e) then
      if TrimSpace(Meta(s, "identity_id")) == "" then
        Failure(Other("Stripe Checkout is missing Procyon identity metadata"))
      else
        match CheckoutProduct(shop, s, resolved)
        case Failure(err) => Failure(err)
        case Success((price, product)) =>
          Success(Plan(key, CheckoutPayment(e, price), Some(Purchase(shop, e, price, product))))
    else
      Success(Plan(key, CheckoutPayment(e, TrimSpace(Meta(s, "price_id"))), None))
  }

  lemma MessageIdIsInjective(a: string, b: string)
    requires MessageId(a) == MessageId(b)
    ensures a == b
  {
    var prefix := TOPIC + ":" + STRIPE + ":";
    assert MessageId(a)[|prefix|..] == a;
    assert MessageId(b)[|prefix|..] == b;
  }

  /** Two plans, from whatever events, deliveries and lookups, carry the same message ID exactly when they are
      about the same payment. */
  lemma SameMessageIffSamePayment(shop: Shop, e: Checkout, r: Result<string, Error>,
                                  f: Checkout, q: Result<string, Error>)
    requires PlanCheckout(shop, e, r).Success? && PlanCheckout(shop, e, r).value.message.Some?
    requires PlanCheckout(shop, f, q).Success? && PlanCheckout(shop, f, q).value.message.Some?
    ensures var p, p' := PlanCheckout(shop, e, r).value, PlanCheckout(shop, f, q).value;
            p.message.value.id == p'.message.value.id <==> p.key == p'.key
  {
    if MessageId(ExternalId(e.session)) == MessageId(ExternalId(f.session)) {
      MessageIdIsInjective(ExternalId(e.session), ExternalId(f.session));
    }
  }

  /** A message is planned exactly for a paid one-time Checkout, and then for a known identity and a one-time
      product of the catalog, about the very payment that is recorded as succeeded. */
  lemma PlannedMessage(shop: Shop, e: Checkout, r: Result<string, Error>)
    requires PlanCheckout(shop, e, r).Success?
    ensures var plan := PlanCheckout(shop, e, r).value;
            && (plan.message.Some? <==> IsPaidOneTime(e))
            && (plan.message.Some? <==>
                  && e.session.mode.PaymentMode? && !e.kind.AsyncPaymentFailed?
                  && (e.kind.AsyncPaymentSucceeded? || !e.session.paymentStatus.Unpaid?))
            && (plan.message.Some? ==>
                  var m := plan.message.value;
                  && plan.key == P.Key(STRIPE, m.payload.externalPaymentId)
                  && m.id == MessageId(m.payload.externalPaymentId)
                  && plan.payment.status == P.Succeeded
                  && plan.payment.priceId == m.payload.priceId
                  && plan.payment.amountMinor == m.payload.amountMinor
                  && plan.payment.occurredAt == m.payload.completedAt == m.occurredAt
                  && m.correlationId == e.eventId && m.payload.checkoutId == e.session.id
                  && TrimSpace(m.payload.identityId) != "" && m.payload.identityId == plan.payment.identityId
                  && m.payload.priceId in shop.products
                  && shop.products[m.payload.priceId].kind == "one_time"
                  && shop.products[m.payload.priceId].planCode == m.payload.planCode)
  {
  }

  /** `price` is the one a Checkout is about: its metadata come first, then its line item, then the lookup. */
  predicate IsPriceOf(s: Session, resolved: Result<string, Error>, price: string) {
    var named := TrimSpace(Meta(s, "price_id"));
    if named != "" then price == named
    else if s.lineItemPrice != "" then price == s.lineItemPrice
    else resolved == Success(price)
  }

  /** The shop sells `price` once, under the plan that the Checkout names, if it names one. */
  predicate Sells(shop: Shop, s: Session, price: string) {
    && price in shop.products && shop.products[price].kind == "one_time"
    && (TrimSpace(Meta(s, "plan_code")) == "" || TrimSpace(Meta(s, "plan_code")) == shop.products[price].planCode)
  }

  /** A payment is named by its payment intent, without one by its invoice, and without either by the session itself;
      row, message ID and message payload all use that name. */
  lemma PaymentIsNamed(shop: Shop, e: Checkout, r: Result<string, Error>)
    requires PlanCheckout(shop, e, r).Success?
    ensures var s, plan := e.session, PlanCheckout(shop, e, r).value;
            && plan.key.provider == "stripe"
            && (s.paymentIntent != "" ==> plan.key.externalId == s.paymentIntent)
            && (s.paymentIntent == "" && s.invoice != "" ==> plan.key.externalId == s.invoice)
            && (s.paymentIntent == "" && s.invoice == "" ==> plan.key.externalId == s.id)
            && (plan.message.Some? ==>
                  && plan.message.value.id == "payment.purchase.completed.v1:stripe:" + plan.key.externalId
                  && plan.message.value.payload.externalPaymentId == plan.key.externalId)
  {
    assert TOPIC + ":" + STRIPE + ":" == "payment.purchase.completed.v1:stripe:";
  }

  /** What a Checkout has recorded, column by column, and when a purchase is announced. */
  lemma CheckoutColumns(shop: Shop, e: Checkout, r: Result<string, Error>)
    requires PlanCheckout(shop, e, r).Success?
    ensures var s, plan := e.session, PlanCheckout(shop, e, r).value;
            var p := plan.payment;
            var identity := if "identity_id" in s.metadata then s.metadata["identity_id"] else "";
            && p.identityId == identity && p.customerId == s.customer && p.subscriptionId == s.subscription
            && p.currency == s.currency && p.amountMinor == s.amountTotal && p.occurredAt == e.occurredAt
            && p.kind == (if s.mode == SubscriptionMode then "subscription_cycle" else "one_time")
            && (e.kind == AsyncPaymentFailed ==> p.status == P.Failed)
            && (e.kind == AsyncPaymentSucceeded ==> p.status == P.Succeeded)
            && (e.kind == Completed && s.paymentStatus == Unpaid ==> p.status == P.Pending)
            && (e.kind == Completed && s.paymentStatus in {Paid, NoPaymentRequired} ==> p.status == P.Succeeded)
            && (plan.message.Some? <==> p.status == P.Succeeded && s.mode == PaymentMode)
            && (plan.message.None? ==>
                  p.priceId == if "price_id" in s.metadata then TrimSpace(s.metadata["price_id"]) else "")
            && (plan.message.Some? ==>
                  var m := plan.message.value;
                  && IsPriceOf(s, r, p.priceId) && Sells(shop, s, p.priceId)
                  && m.occurredAt == e.occurredAt && m.source == "payment-system" && m.correlationId == e.eventId
                  && m.payload == PurchaseCompleted("stripe", plan.key.externalId, s.id, identity, p.priceId,
                                                    shop.products[p.priceId].planCode, s.amountTotal,
                                                    shop.casing.upper(s.currency), e.occurredAt))
  {
    assert TrimSpace("") == "";
  }

  /** Exactly the paid one-time Checkouts without an identity or without a price that the shop sells are refused. */
  lemma RefusedIff(shop: Shop, e: Checkout, r: Result<string, Error>)
    ensures PlanCheckout(shop, e, r).Failure? <==>
              && IsPaidOneTime(e)
              && (TrimSpace(Meta(e.session, "identity_id")) == ""
                  || !exists price :: IsPriceOf(e.session, r, price) && Sells(shop, e.session, price))
    ensures PlanCheckout(shop, e, r).Failure? ==>
              var err := PlanCheckout(shop, e, r).error;
              if TrimSpace(Meta(e.session, "identity_id")) == "" then
                err == Other("Stripe Checkout is missing Procyon identity metadata")
              else if exists price :: IsPriceOf(e.session, r, price) then err == ProductRejected
              else r == Failure(err)
    ensures PlanCheckout(shop, e, r).Success? && IsPaidOneTime(e) ==>
              IsPriceOf(e.session, r, PlanCheckout(shop, e, r).value.payment.priceId)
  {
    var found := CheckoutProduct(shop, e.session, r);
    var named := TrimSpace(Meta(e.session, "price_id"));
    if named != "" {
      assert IsPriceOf(e.session, r, named);
    } else if e.session.lineItemPrice != "" {
      assert IsPriceOf(e.session, r, e.session.lineItemPrice);
    } else if r.Success? {
      assert IsPriceOf(e.session, r, r.value);
    }
    if found.Success? {
      assert IsPriceOf(e.session, r, found.value.0) && Sells(shop, e.session, found.value.0);
    }
    forall price | IsPriceOf(e.session, r, price) && Sells(shop, e.session, price) ensures found.Success? {
    }
  }

  // ----- The consumer -----

  /** The fulfilment ledger of the consuming application: processed message IDs and the credits given. */
  datatype Ledger = Ledger(fulfilled: set<string>, credits: seq<Message>)

  /** Ledger entry and benefit are committed in one transaction; a known ID changes nothing. */
  function Fulfil(l: Ledger, m: Message): Ledger {
    if m.id in l.fulfilled then l else Ledger(l.fulfilled + {m.id}, l.credits + [m])
  }

  /** Every ledger entry stands for exactly one credit. */
  ghost predicate LedgerOk(l: Ledger) {
    && (forall i :: 0 <= i < |l.credits| ==> l.credits[i].id in l.fulfilled)
    && (forall i, j :: 0 <= i < j < |l.credits| ==> l.credits[i].id != l.credits[j].id)
    && (forall id :: id in l.fulfilled ==> exists i :: 0 <= i < |l.credits| && l.credits[i].id == id)
  }

  lemma FulfilOk(l: Ledger, m: Message)
    requires LedgerOk(l)
    ensures LedgerOk(Fulfil(l, m))
  {
    var l' := Fulfil(l, m);
    if m.id !in l.fulfilled {
      assert l'.credits[|l.credits|] == m;
      forall id | id in l'.fulfilled ensures exists i :: 0 <= i < |l'.credits| && l'.credits[i].id == id {
        if id in l.fulfilled {
          var i :| 0 <= i < |l.credits| && l.credits[i].id == id;
          assert l'.credits[i].id == id;
        }
      }
    }
  }
}
