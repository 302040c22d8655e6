/** What each Stripe event writes, column by column in terms of the event itself, and when it is acknowledged. */
module StripeColumns {
  import opened Basics
  import opened Purchases
  import opened StripeEvents
  import P = Payments
  import S = Subscriptions

  /** `t'` is `t` after `row` was recorded under `k`: as it is when there was none, merged otherwise. */
  predicate Records(t: P.Table, t': P.Table, k: P.Key, row: P.Payment) {
    t' == t[k := if k in t then P.Merge(t[k], row) else row]
  }

  lemma IntentColumns(shop: Shop, kind: IntentKind, intent: Intent, created: int, o: Outside, w: World)
    requires o.database.None?
    ensures var (w', err) := Handled(shop, IntentEvent(kind, intent, created), o, w);
            var at := (created + 62135596800) * 1000000000;
            var identity := if "identity_id" in intent.metadata then intent.metadata["identity_id"] else "";
            var status := if kind == IntentCreated then P.Pending else if kind == IntentSucceeded then P.Succeeded
                          else if kind == IntentPaymentFailed then P.Failed else P.Canceled;
            && err.None? && w'.subscriptions == w.subscriptions && w'.ledger == w.ledger
            && Records(w.payments, w'.payments, P.Key("stripe", intent.id),
                       P.Payment(identity, intent.customer, "", "", "one_time", intent.currency, intent.amount,
                                 if at == 0 then o.now else at, status))
  {
  }

  /** A paid invoice is recorded as SUCCEEDED with the amount paid, another one as FAILED with the amount due. */
  lemma InvoiceColumns(shop: Shop, paid: bool, invoice: Invoice, created: int, o: Outside, w: World)
    requires o.database.None?
    ensures var w' := Handled(shop, InvoiceEvent(paid, invoice, created), o, w).0;
            var at := (created + 62135596800) * 1000000000;
            var identity := if "identity_id" in invoice.metadata then invoice.metadata["identity_id"] else "";
            && w'.ledger == w.ledger
            && Records(w.payments, w'.payments, P.Key("stripe", invoice.id),
                       P.Payment(identity, invoice.customer, invoice.subscription, "", "subscription_cycle",
                                 invoice.currency, if paid then invoice.amountPaid else invoice.amountDue,
                                 if at == 0 then o.now else at, if paid then P.Succeeded else P.Failed))
  {
  }

  /** `u` is whom a refund or dispute is about: its own metadata name it, else those of its payment, else the stored
      row of that payment, else it is blank. */
  predicate IsAbout(c: Claim, lookupFails: bool, payments: P.Table, u: string) {
    if "identity_id" in c.metadata && c.metadata["identity_id"] != "" then u == c.metadata["identity_id"]
    else if c.intent.None? then u == ""
    else if "identity_id" in c.intent.value.1 && c.intent.value.1["identity_id"] != "" then
      u == c.intent.value.1["identity_id"]
    else if !lookupFails && P.Key("stripe", c.intent.value.0) in payments then
      u == payments[P.Key("stripe", c.intent.value.0)].identityId
    else u == ""
  }

  lemma RefundColumns(shop: Shop, c: Claim, failed: bool, created: int, o: Outside, w: World) returns (u: string)
    requires o.database.None?
    ensures IsAbout(c, o.lookupFails, w.payments, u)
    ensures var (w', err) := Handled(shop, RefundEvent(c, failed, created), o, w);
            var at := (created + 62135596800) * 1000000000;
            && err.None? && w'.subscriptions == w.subscriptions && w'.ledger == w.ledger
            && Records(w.payments, w'.payments, P.Key("stripe", c.id),
                       P.Payment(u, "", "", "", "refund", c.currency, c.amount, if at == 0 then o.now else at,
                                 if failed then P.Failed else P.Refunded))
  {
    u := Claimant(c, o.lookupFails, w.payments);
  }

  lemma DisputeColumns(shop: Shop, c: Claim, status: DisputeStatus, created: int, o: Outside, w: World)
    returns (u: string)
    requires o.database.None?
    ensures IsAbout(c, o.lookupFails, w.payments, u)
    ensures var (w', err) := Handled(shop, DisputeEvent(c, status, created), o, w);
            var at := (created + 62135596800) * 1000000000;
            && err.None? && w'.subscriptions == w.subscriptions && w'.ledger == w.ledger
            && Records(w.payments, w'.payments, P.Key("stripe", c.id),
                       P.Payment(u, "", "", "", "dispute", c.currency, c.amount, if at == 0 then o.now else at,
                                 if status == Won || status == Prevented then P.Succeeded else P.Disputed))
  {
    u := Claimant(c, o.lookupFails, w.payments);
  }

  // ----- Checkouts -----

  /** A Checkout that can be planned is recorded as planned, whatever follows; otherwise nothing changes. */
  lemma CheckoutIsRecorded(shop: Shop, e: Checkout, o: Outside, w: World)
    ensures var plan, w' := PlanCheckout(shop, e, o.resolved), Handled(shop, CheckoutSession(e), o, w).0;
            if plan.Success? && o.database.None? then
              var p := plan.value.payment;
              Records(w.payments, w'.payments, plan.value.key,
                      p.(occurredAt := if p.occurredAt == 0 then o.now else p.occurredAt))
            else w' == w
  {
  }

  /** A Checkout and the events of its payment intent are recorded in one row. */
  lemma CheckoutAndIntentShareRow(shop: Shop, e: Checkout, kind: IntentKind, intent: Intent, created: int, o: Outside,
                                  w: World)
    requires e.session.paymentIntent == intent.id != "" && o.database.None?
    requires PlanCheckout(shop, e, o.resolved).Success?
    ensures var k := P.Key("stripe", intent.id);
            var t := Handled(shop, CheckoutSession(e), o, w).0.payments;
            var t' := Handled(shop, IntentEvent(kind, intent, created), o, w).0.payments;
            && k in t && t == w.payments[k := t[k]]
            && k in t' && t' == w.payments[k := t'[k]]
  {
    PaymentIsNamed(shop, e, o.resolved);
  }

  /** Two paid Checkouts of one payment intent, whatever their sessions, carry one message ID and give one credit. */
  lemma OneIntentOneCredit(shop: Shop, e: Checkout, f: Checkout, o: Outside, again: Outside, w: World)
    requires IsPaidOneTime(e) && IsPaidOneTime(f) && e.session.paymentIntent == f.session.paymentIntent != ""
    requires PlanCheckout(shop, e, o.resolved).Success? && PlanCheckout(shop, f, again.resolved).Success?
    requires o.database.None? && !o.delivery.FailsBefore?
    ensures var m := PlanCheckout(shop, e, o.resolved).value.message.value;
            var id := "payment.purchase.completed.v1:stripe:" + e.session.paymentIntent;
            var w1 := Handled(shop, CheckoutSession(e), o, w).0;
            && m.id == PlanCheckout(shop, f, again.resolved).value.message.value.id == id
            && w1.ledger.credits == (if id in w.ledger.fulfilled then w.ledger.credits else w.ledger.credits + [m])
            && Handled(shop, CheckoutSession(f), again, w1).0.ledger == w1.ledger
  {
    PaymentIsNamed(shop, e, o.resolved);
    PaymentIsNamed(shop, f, again.resolved);
    PaidEffect(shop, f, again, Handled(shop, CheckoutSession(e), o, w).0);
    PlannedMessage(shop, e, o.resolved);
    PlannedMessage(shop, f, again.resolved);
  }

  // ----- Subscriptions -----

  /** `plan` is the first that is not blank of: the price's plan code, the subscription's, the catalog's, and the price
      ID. Without a priced item it is empty. */
  predicate IsPlanOf(shop: Shop, sub: StripeSubscription, plan: string) {
    if sub.items == [] || sub.items[0].price.None? then plan == ""
    else
      var price := sub.items[0].price.value;
      if "plan_code" in price.metadata && TrimSpace(price.metadata["plan_code"]) != "" then
        plan == price.metadata["plan_code"]
      else if "plan_code" in sub.metadata && TrimSpace(sub.metadata["plan_code"]) != "" then
        plan == sub.metadata["plan_code"]
      else if price.id in shop.products && TrimSpace(shop.products[price.id].planCode) != "" then
        plan == shop.products[price.id].planCode
      else plan == if TrimSpace(price.id) != "" then price.id else ""
  }

  lemma FirstOfFour(a: string, b: string, c: string, d: string)
    ensures FirstValue([a, b, c, d])
            == if TrimSpace(a) != "" then a else if TrimSpace(b) != "" then b
               else if TrimSpace(c) != "" then c else if TrimSpace(d) != "" then d else ""
  {
    assert [a, b, c, d][1..] == [b, c, d] && [b, c, d][1..] == [c, d] && [c, d][1..] == [d] && [d][1..] == [];
    assert FirstValue([d]) == if TrimSpace(d) != "" then d else "";
    assert FirstValue([c, d]) == if TrimSpace(c) != "" then c else FirstValue([d]);
    assert FirstValue([b, c, d]) == if TrimSpace(b) != "" then b else FirstValue([c, d]);
  }

  lemma MappedPlan(shop: Shop, sub: StripeSubscription)
    ensures IsPlanOf(shop, sub, PlanOf(shop, sub))
  {
    if sub.items != [] && sub.items[0].price.Some? {
      var price := sub.items[0].price.value;
      FirstOfFour(Entry(price.metadata, "plan_code"), Entry(sub.metadata, "plan_code"),
                  if price.id in shop.products then shop.products[price.id].planCode else "", price.id);
      assert TrimSpace("") == "";
    }
  }

  /** What a successful synchronization leaves in the row of a subscription. */
  lemma SyncedColumns(shop: Shop, sub: StripeSubscription, identity: string, o: Outside, w: World)
    requires sub.id != "" && o.syncDatabase.None? && Synced(shop, sub, identity, o, w).1.None?
    ensures var k, t := S.Key("stripe", sub.id), Synced(shop, sub, identity, o, w).0.subscriptions;
            && k in t.rows
            && var row := t.rows[k].sub;
            && IsPlanOf(shop, sub, row.planCode)
            && row.customerId == sub.customer && row.cancelAtPeriodEnd == sub.cancelAtPeriodEnd
            && (sub.status == Active ==> row.status == S.Active)
            && (sub.status == Trialing ==> row.status == S.Trialing)
            && (sub.status == PastDue ==> row.status == S.PastDue)
            && (sub.status == SubscriptionStatus.Unpaid ==> row.status == S.PastDue)
            && (sub.status == Canceled ==> row.status == S.Canceled)
            && (sub.status == IncompleteExpired ==> row.status == S.Canceled)
            && (sub.status.Unlisted? ==> row.status == S.Expired)
            && (sub.items == [] ==> row.periodStart == 0 && row.periodEnd == 0)
            && (sub.items != [] ==>
                  && row.periodStart == (sub.items[0].periodStart + 62135596800) * 1000000000
                  && row.periodEnd == (sub.items[0].periodEnd + 62135596800) * 1000000000)
            && row.cancelAt == (if sub.cancelAt == 0 then None
                                else Some((sub.cancelAt + 62135596800) * 1000000000))
            && (k !in w.subscriptions.rows ==> row.identityId == identity && row.providerData == "")
            && (k in w.subscriptions.rows ==>
                  var before := w.subscriptions.rows[k].sub;
                  && row.identityId == (if before.identityId == "" then identity else before.identityId)
                  && row.providerData == before.providerData)
  {
    MappedPlan(shop, sub);
    if S.Key("stripe", sub.id) in w.subscriptions.rows {
      S.UpsertInPlace(w.subscriptions, S.Key("stripe", sub.id), Mapped(shop, sub, identity));
    }
  }

  /** Whom a synchronized subscription entitles to a plan asked for by name: its owner alone, exactly while Stripe
      reports it active or trialing, its period has not ended, and the plan is the one that its sources name first. */
  lemma SyncedPlanEntitles(shop: Shop, sub: StripeSubscription, identity: string, o: Outside, w: World,
                           u: string, plan: string, now: Time)
    requires S.Valid(w.subscriptions) && TrimSpace(plan) != ""
    requires sub.id != "" && o.syncDatabase.None? && Synced(shop, sub, identity, o, w).1.None?
    ensures var k, t := S.Key("stripe", sub.id), Synced(shop, sub, identity, o, w).0.subscriptions;
            && S.Valid(t)
            && (&& u == t.rows[k].sub.identityId
                && (sub.status == Active || sub.status == Trialing)
                && (if sub.items == [] then 0 else (sub.items[0].periodEnd + 62135596800) * 1000000000) > now
                && IsPlanOf(shop, sub, TrimSpace(plan))
                ==> S.ActiveEntitlement(t, u, plan, now).Some?)
            && (S.ActiveEntitlement(t, u, plan, now) == Some(k) ==>
                  && u == t.rows[k].sub.identityId
                  && (sub.status == Active || sub.status == Trialing)
                  && (if sub.items == [] then 0 else (sub.items[0].periodEnd + 62135596800) * 1000000000) > now
                  && IsPlanOf(shop, sub, TrimSpace(plan)))
  {
    SyncedColumns(shop, sub, identity, o, w);
    S.UpsertValid(w.subscriptions, S.Key("stripe", sub.id), Mapped(shop, sub, identity));
    S.EntitlementIsCorrect(Synced(shop, sub, identity, o, w).0.subscriptions, u, plan, now);
  }

  /** Which events bring which subscription up to date, and for whom: the one that changed, the one of a recorded
      invoice, and the one of a recorded Checkout that announces no purchase. */
  lemma SubscriptionsAfter(shop: Shop, event: Event, o: Outside, w: World)
    ensures Handled(shop, event, o, w).0.subscriptions
            == match event
               case SubscriptionEvent(sub) =>
                 var owner := if "identity_id" in sub.metadata then sub.metadata["identity_id"] else "";
                 Synced(shop, sub, owner, o, w).0.subscriptions
               case InvoiceEvent(_, invoice, _) =>
                 if o.database.None? && invoice.subscription != "" && o.subscription.Success? then
                   var sub := o.subscription.value;
                   var named := if "identity_id" in invoice.metadata then invoice.metadata["identity_id"] else "";
                   var owner := if "identity_id" in sub.metadata then sub.metadata["identity_id"] else "";
                   Synced(shop, sub, if named != "" then named else owner, o, w).0.subscriptions
                 else w.subscriptions
               case CheckoutSession(e) =>
                 var s, plan := e.session, PlanCheckout(shop, e, o.resolved);
                 var named := if "identity_id" in s.metadata then s.metadata["identity_id"] else "";
                 if && plan.Success? && plan.value.message.None? && o.database.None?
                    && s.subscription != "" && o.subscription.Success?
                 then Synced(shop, o.subscription.value, named, o, w).0.subscriptions
                 else w.subscriptions
               case _ => w.subscriptions
  {
  }

  /** A subscription without an ID, of another owner, or that cannot be stored is left as it is. */
  lemma UnsyncedIsUnchanged(shop: Shop, sub: StripeSubscription, identity: string, o: Outside, w: World)
    ensures var (w', err) := Synced(shop, sub, identity, o, w);
            && w'.payments == w.payments && w'.ledger == w.ledger
            && (sub.id == "" ==> err.None? && w' == w)
            && (sub.id != "" && o.syncDatabase.Some? ==> err == o.syncDatabase && w' == w)
            && (sub.id != "" && o.syncDatabase.None? && err.Some? ==>
                  err == Some(OwnershipConflict) && w'.subscriptions.rows == w.subscriptions.rows)
  {
    if sub.id != "" && S.Key("stripe", sub.id) in w.subscriptions.rows {
      S.UpsertInPlace(w.subscriptions, S.Key("stripe", sub.id), Mapped(shop, sub, identity));
    }
  }

  // ----- Acknowledgement -----

  /** A subscription is brought up to date without an error. */
  predicate Syncs(sub: StripeSubscription, identity: string, o: Outside, t: S.Table) {
    var k := S.Key("stripe", sub.id);
    sub.id == ""
    || (o.syncDatabase.None?
        && (k in t.rows ==>
              t.rows[k].sub.identityId == "" || identity == "" || t.rows[k].sub.identityId == identity))
  }

  /** An event is acknowledged exactly when it decodes and everything that its type calls for succeeds. */
  lemma AcknowledgedIff(shop: Shop, event: Event, o: Outside, w: World)
    ensures Handled(shop, event, o, w).1.None? <==>
              match event
              case CheckoutSession(e) =>
                var s, plan := e.session, PlanCheckout(shop, e, o.resolved);
                && plan.Success? && o.database.None?
                && if plan.value.message.Some? then o.delivery.Healthy?
                   else s.subscription == ""
                        || (o.subscription.Success?
                            && Syncs(o.subscription.value,
                                     if "identity_id" in s.metadata then s.metadata["identity_id"] else "",
                                     o, w.subscriptions))
              case InvoiceEvent(_, invoice, _) =>
                && o.database.None?
                && (invoice.subscription == ""
                    || (o.subscription.Success?
                        && var sub := o.subscription.value;
                        && var m := invoice.metadata;
                        && var owner := if "identity_id" in sub.metadata then sub.metadata["identity_id"] else "";
                        && var named := if "identity_id" in m then m["identity_id"] else "";
                        && Syncs(sub, if named != "" then named else owner, o, w.subscriptions)))
              case SubscriptionEvent(sub) =>
                Syncs(sub, if "identity_id" in sub.metadata then sub.metadata["identity_id"] else "",
                      o, w.subscriptions)
              case IntentEvent(_, _, _) => o.database.None?
              case RefundEvent(_, _, _) => o.database.None?
              case DisputeEvent(_, _, _) => o.database.None?
              case Undecodable(_) => false
              case Unhandled => true
  {
  }

  predicate IsSyncError(o: Outside, err: Option<Error>) {
    if o.subscription.Failure? then err == Some(o.subscription.error)
    else err in {None, o.syncDatabase, Some(OwnershipConflict)}
  }

  /** The error that a handler reports is the one of the first call that failed. */
  lemma ReportedError(shop: Shop, event: Event, o: Outside, w: World)
    ensures var err := Handled(shop, event, o, w).1;
            match event
            case CheckoutSession(e) =>
              var plan := PlanCheckout(shop, e, o.resolved);
              if plan.Failure? then err == Some(plan.error)
              else if o.database.Some? then err == o.database
              else if plan.value.message.Some? then !o.delivery.Healthy? ==> err == Some(o.delivery.err)
              else e.session.subscription != "" ==> IsSyncError(o, err)
            case InvoiceEvent(_, invoice, _) =>
              if o.database.Some? then err == o.database else invoice.subscription != "" ==> IsSyncError(o, err)
            case SubscriptionEvent(_) => err in {None, o.syncDatabase, Some(OwnershipConflict)}
            case Undecodable(e) => err == Some(e)
            case Unhandled => err.None?
            case _ => err == o.database
  {
  }
}
