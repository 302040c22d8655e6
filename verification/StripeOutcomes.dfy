/** Which payment status a sequence of Stripe events leaves: what refunds, disputes and retried payments come to. */
module StripeOutcomes {
  import opened Basics
  import opened Purchases
  import opened StripeEvents
  import P = Payments

  /** One event as it is handled; each attempt may fail on its own. */
  datatype Attempt = Attempt(event: Event, outside: Outside)

  function Run(shop: Shop, atts: seq<Attempt>, w: World): World {
    if atts == [] then w
    else
      var last := atts[|atts| - 1];
      Handled(shop, last.event, last.outside, Run(shop, atts[..|atts| - 1], w)).0
  }

  /** The payment writes that a run makes, in order. */
  function Writes(shop: Shop, atts: seq<Attempt>, w: World): seq<(P.Key, P.Payment)> {
    if atts == [] then []
    else
      var init, last := atts[..|atts| - 1], atts[|atts| - 1];
      var written := Recorded(shop, last.event, last.outside, Run(shop, init, w).payments);
      Writes(shop, init, w) + if written.Some? then [written.value] else []
  }

  lemma {:induction false} RunPayments(shop: Shop, atts: seq<Attempt>, w: World)
    ensures Run(shop, atts, w).payments == P.UpsertAll(w.payments, Writes(shop, atts, w))
  {
    if atts == [] {
    } else {
      var init, last := atts[..|atts| - 1], atts[|atts| - 1];
      var before, writes := Writes(shop, init, w), Writes(shop, atts, w);
      RunPayments(shop, init, w);
      PaymentsAfter(shop, last.event, last.outside, Run(shop, init, w));
      if writes != before {
        assert writes[..|writes| - 1] == before;
        P.UpsertAllLast(w.payments, writes);
      }
    }
  }

  /** Attempt `a` records status `s` under `k`; this does not depend on what is stored. */
  predicate Reports(shop: Shop, a: Attempt, k: P.Key, s: P.Status) {
    var written := Recorded(shop, a.event, a.outside, map[]);
    written.Some? && written.value.0 == k && written.value.1.status == s
  }

  lemma ReportsAnywhere(shop: Shop, a: Attempt, payments: P.Table)
    ensures var here, there := Recorded(shop, a.event, a.outside, payments), Recorded(shop, a.event, a.outside, map[]);
            && (here.Some? <==> there.Some?)
            && (here.Some? ==> here.value.0 == there.value.0 && here.value.1.status == there.value.1.status)
  {
  }

  ghost predicate Reported(shop: Shop, atts: seq<Attempt>, k: P.Key, s: P.Status) {
    exists a :: a in atts && Reports(shop, a, k, s)
  }

  lemma ReportedStep(shop: Shop, init: seq<Attempt>, last: Attempt, k: P.Key, s: P.Status)
    ensures Reported(shop, init + [last], k, s) <==> Reported(shop, init, k, s) || Reports(shop, last, k, s)
  {
    assert last in init + [last];
  }

  lemma DeliversStep(init: seq<(P.Key, P.Payment)>, last: (P.Key, P.Payment), k: P.Key, s: P.Status)
    ensures P.Delivers(init + [last], k, s) <==> P.Delivers(init, k, s) || (last.0 == k && last.1.status == s)
  {
    assert (init + [last])[..|init|] == init;
    var old_, new_ := P.ForKey(init, k), P.ForKey(init + [last], k);
    assert new_ == old_ + if last.0 == k then [last.1] else [];
    assert last.0 == k ==> last.1 in new_;
    assert forall p :: p in old_ ==> p in new_;
  }

  lemma LastReport(shop: Shop, init: seq<Attempt>, last: Attempt, w: World, k: P.Key, s: P.Status)
    ensures P.Delivers(Writes(shop, init + [last], w), k, s)
            <==> P.Delivers(Writes(shop, init, w), k, s) || Reports(shop, last, k, s)
  {
    var atts, payments := init + [last], Run(shop, init, w).payments;
    var written := Recorded(shop, last.event, last.outside, payments);
    assert atts[..|atts| - 1] == init;
    ReportsAnywhere(shop, last, payments);
    if written.Some? {
      DeliversStep(Writes(shop, init, w), written.value, k, s);
    } else {
      assert Writes(shop, atts, w) == Writes(shop, init, w);
    }
  }

  /** The statuses that reach a key are those that the attempts report for it. */
  lemma {:induction false} ReportedIff(shop: Shop, atts: seq<Attempt>, w: World, k: P.Key, s: P.Status)
    ensures Reported(shop, atts, k, s) <==> P.Delivers(Writes(shop, atts, w), k, s)
  {
    if atts == [] {
    } else {
      var init, last := atts[..|atts| - 1], atts[|atts| - 1];
      ReportedIff(shop, init, w, k, s);
      assert atts == init + [last];
      ReportedStep(shop, init, last, k, s);
      LastReport(shop, init, last, w, k, s);
    }
  }

  /** After any events, a payment is stored exactly when some attempt reported on it, its status was reported, and no
      status reported for it outranks it. */
  lemma StoredStatus(shop: Shop, atts: seq<Attempt>, w: World, k: P.Key)
    requires w.payments == map[]
    ensures var payments := Run(shop, atts, w).payments;
            && (k in payments <==> exists s :: Reported(shop, atts, k, s))
            && (k in payments ==>
                  && Reported(shop, atts, k, payments[k].status)
                  && forall s :: Reported(shop, atts, k, s) ==> P.Rank(s) <= P.Rank(payments[k].status))
  {
    var writes := Writes(shop, atts, w);
    var ps := P.ForKey(writes, k);
    RunPayments(shop, atts, w);
    P.UpsertsHaveClosedForm(writes, k);
    forall s ensures Reported(shop, atts, k, s) <==> P.Delivers(writes, k, s) {
      ReportedIff(shop, atts, w, k, s);
    }
    if k in P.UpsertAll(map[], writes) {
      assert ps[0] in ps;
      assert P.Delivers(writes, k, ps[0].status);
      P.StatusIsDelivered(writes, k);
    }
  }

  /** A payment is stored as SUCCEEDED exactly when some attempt reported success and none reported a failed, canceled,
      disputed or refunded payment, before or after. */
  lemma SucceededIff(shop: Shop, atts: seq<Attempt>, w: World, k: P.Key)
    requires w.payments == map[]
    ensures (k in Run(shop, atts, w).payments && Run(shop, atts, w).payments[k].status == P.Succeeded)
            <==> && Reported(shop, atts, k, P.Succeeded)
                 && forall s :: s in {P.Failed, P.Canceled, P.Disputed, P.Refunded} ==> !Reported(shop, atts, k, s)
  {
    StoredStatus(shop, atts, w, k);
    assert forall s :: P.Rank(s) > P.Rank(P.Succeeded) <==> s in {P.Failed, P.Canceled, P.Disputed, P.Refunded};
  }

  // ----- Refunds and disputes -----

  /** Attempt `a` writes under `k`. */
  predicate Concerns(shop: Shop, a: Attempt, k: P.Key) {
    var written := Recorded(shop, a.event, a.outside, map[]);
    written.Some? && written.value.0 == k
  }

  /** All attempts that write under `k` report one of two statuses, the higher of which wins. */
  lemma TwoStatuses(shop: Shop, atts: seq<Attempt>, w: World, k: P.Key, low: P.Status, high: P.Status)
    requires w.payments == map[] && k in Run(shop, atts, w).payments && P.Rank(low) < P.Rank(high)
    requires forall s :: Reported(shop, atts, k, s) ==> s == low || s == high
    ensures Run(shop, atts, w).payments[k].status == if Reported(shop, atts, k, high) then high else low
  {
    StoredStatus(shop, atts, w, k);
  }

  lemma DisputeReports(shop: Shop, a: Attempt, k: P.Key)
    requires Concerns(shop, a, k) && a.event.DisputeEvent?
    ensures Reports(shop, a, k, DisputedStatus(a.event.status))
  {
  }

  lemma RefundReports(shop: Shop, a: Attempt, k: P.Key)
    requires Concerns(shop, a, k) && a.event.RefundEvent?
    ensures Reports(shop, a, k, RefundStatus(a.event.failed))
  {
  }

  lemma InvoiceReports(shop: Shop, a: Attempt, k: P.Key)
    requires Concerns(shop, a, k) && a.event.InvoiceEvent?
    ensures Reports(shop, a, k, if a.event.paid then P.Succeeded else P.Failed)
  {
  }

  /** An invoice is stored as SUCCEEDED exactly when every event recorded for it said that it was paid; otherwise it
      stays FAILED, also after it was paid. */
  lemma InvoicePaidIff(shop: Shop, atts: seq<Attempt>, w: World, k: P.Key)
    requires w.payments == map[] && k in Run(shop, atts, w).payments
    requires forall a :: a in atts && Concerns(shop, a, k) ==> a.event.InvoiceEvent?
    ensures Run(shop, atts, w).payments[k].status
            == if forall a :: a in atts && Concerns(shop, a, k) ==> a.event.paid then P.Succeeded else P.Failed
  {
    forall a | a in atts && Concerns(shop, a, k)
      ensures Reports(shop, a, k, if a.event.paid then P.Succeeded else P.Failed)
    {
      InvoiceReports(shop, a, k);
    }
    TwoStatuses(shop, atts, w, k, P.Succeeded, P.Failed);
  }

  /** A dispute is stored as SUCCEEDED exactly when every event recorded for it said that it was won or prevented;
      otherwise it stays DISPUTED, also after it was won. */
  lemma DisputeWonIff(shop: Shop, atts: seq<Attempt>, w: World, k: P.Key)
    requires w.payments == map[] && k in Run(shop, atts, w).payments
    requires forall a :: a in atts && Concerns(shop, a, k) ==> a.event.DisputeEvent?
    ensures Run(shop, atts, w).payments[k].status
            == if forall a :: a in atts && Concerns(shop, a, k) ==> Resolved(a.event.status)
               then P.Succeeded else P.Disputed
  {
    forall a | a in atts && Concerns(shop, a, k) ensures Reports(shop, a, k, DisputedStatus(a.event.status)) {
      DisputeReports(shop, a, k);
    }
    TwoStatuses(shop, atts, w, k, P.Succeeded, P.Disputed);
  }

  /** A refund is stored as FAILED exactly when every event recorded for it said that it failed; otherwise it stays
      REFUNDED, also after it failed. */
  lemma RefundFailedIff(shop: Shop, atts: seq<Attempt>, w: World, k: P.Key)
    requires w.payments == map[] && k in Run(shop, atts, w).payments
    requires forall a :: a in atts && Concerns(shop, a, k) ==> a.event.RefundEvent?
    ensures Run(shop, atts, w).payments[k].status
            == if forall a :: a in atts && Concerns(shop, a, k) ==> a.event.failed then P.Failed else P.Refunded
  {
    forall a | a in atts && Concerns(shop, a, k) ensures Reports(shop, a, k, RefundStatus(a.event.failed)) {
      RefundReports(shop, a, k);
    }
    TwoStatuses(shop, atts, w, k, P.Failed, P.Refunded);
  }

  // ----- Failing inputs -----

  lemma TwoReports(shop: Shop, a: Attempt, b: Attempt, w: World, k: P.Key, high: P.Status, low: P.Status)
    requires w.payments == map[] && Reports(shop, a, k, high) && Reports(shop, b, k, low) && P.Rank(low) < P.Rank(high)
    ensures k in Run(shop, [a, b], w).payments && Run(shop, [a, b], w).payments[k].status == high
  {
    assert a in [a, b] && b in [a, b];
    assert Reported(shop, [a, b], k, high);
    StoredStatus(shop, [a, b], w, k);
    TwoStatuses(shop, [a, b], w, k, low, high);
  }

  /** A dispute that is opened and then won is stored as DISPUTED. */
  lemma WonDisputeStaysDisputed(shop: Shop, c: Claim, raised: int, won: int, o: Outside, w: World)
    requires w.payments == map[] && o.database.None?
    ensures var k := P.Key(STRIPE, c.id);
            var payments := Run(shop, [Attempt(DisputeEvent(c, Unresolved("needs_response"), raised), o),
                                       Attempt(DisputeEvent(c, Won, won), o)], w).payments;
            k in payments && payments[k].status == P.Disputed
  {
    TwoReports(shop, Attempt(DisputeEvent(c, Unresolved("needs_response"), raised), o),
               Attempt(DisputeEvent(c, Won, won), o), w, P.Key(STRIPE, c.id), P.Disputed, P.Succeeded);
  }

  /** A refund that is made and then fails is stored as REFUNDED. */
  lemma FailedRefundStaysRefunded(shop: Shop, c: Claim, made: int, failed: int, o: Outside, w: World)
    requires w.payments == map[] && o.database.None?
    ensures var k := P.Key(STRIPE, c.id);
            var payments := Run(shop, [Attempt(RefundEvent(c, false, made), o),
                                       Attempt(RefundEvent(c, true, failed), o)], w).payments;
            k in payments && payments[k].status == P.Refunded
  {
    TwoReports(shop, Attempt(RefundEvent(c, false, made), o), Attempt(RefundEvent(c, true, failed), o), w,
               P.Key(STRIPE, c.id), P.Refunded, P.Failed);
  }

  /** An invoice that is declined and then paid is stored as FAILED. */
  lemma PaidInvoiceStaysFailed(shop: Shop, invoice: Invoice, declined: int, paid: int, o: Outside, w: World)
    requires w.payments == map[] && o.database.None?
    ensures var k := P.Key(STRIPE, invoice.id);
            var payments := Run(shop, [Attempt(InvoiceEvent(false, invoice, declined), o),
                                       Attempt(InvoiceEvent(true, invoice, paid), o)], w).payments;
            k in payments && payments[k].status == P.Failed
  {
    TwoReports(shop, Attempt(InvoiceEvent(false, invoice, declined), o),
               Attempt(InvoiceEvent(true, invoice, paid), o), w, P.Key(STRIPE, invoice.id), P.Failed, P.Succeeded);
  }

  /** A payment whose first attempt is declined and whose second one succeeds is stored as FAILED. */
  lemma RetriedPaymentStaysFailed(shop: Shop, intent: Intent, declined: int, succeeded: int, o: Outside, w: World)
    requires w.payments == map[] && o.database.None?
    ensures var k := P.Key(STRIPE, intent.id);
            var payments := Run(shop, [Attempt(IntentEvent(IntentPaymentFailed, intent, declined), o),
                                       Attempt(IntentEvent(IntentSucceeded, intent, succeeded), o)], w).payments;
            k in payments && payments[k].status == P.Failed
  {
    TwoReports(shop, Attempt(IntentEvent(IntentPaymentFailed, intent, declined), o),
               Attempt(IntentEvent(IntentSucceeded, intent, succeeded), o), w,
               P.Key(STRIPE, intent.id), P.Failed, P.Succeeded);
  }

  /** So is a payment whose first attempt is declined and whose Checkout then is paid, although its purchase is
      credited. */
  lemma CreditedPaymentStaysFailed(shop: Shop, intent: Intent, declined: int, e: Checkout, o: Outside, w: World)
    requires w.payments == map[] && o.database.None? && o.delivery.Healthy?
    requires IsPaidOneTime(e) && ExternalId(e.session) == intent.id && PlanCheckout(shop, e, o.resolved).Success?
    ensures var k := P.Key(STRIPE, intent.id);
            var w' := Run(shop, [Attempt(IntentEvent(IntentPaymentFailed, intent, declined), o),
                                 Attempt(CheckoutSession(e), o)], w);
            && MessageId(intent.id) in w'.ledger.fulfilled
            && k in w'.payments && w'.payments[k].status == P.Failed
  {
    var a, b := Attempt(IntentEvent(IntentPaymentFailed, intent, declined), o), Attempt(CheckoutSession(e), o);
    PlannedMessage(shop, e, o.resolved);
    TwoReports(shop, a, b, w, P.Key(STRIPE, intent.id), P.Failed, P.Succeeded);
    assert [a, b][..1] == [a];
    PaidEffect(shop, e, o, Run(shop, [a], w));
  }
}
