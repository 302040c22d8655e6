/** The persistent store: three tables that its methods update in place, statement by statement. */
module Store {
  import opened Basics
  import W = Webhooks
  import P = Payments
  import S = Subscriptions

  class PaymentSystemStore {
    var webhooks: W.Table
    var payments: P.Table
    var subscriptions: S.Table

    constructor ()
      ensures webhooks == map[] && payments == map[] && subscriptions == S.EMPTY
    {
      webhooks, payments, subscriptions := map[], map[], S.EMPTY;
    }

    /** A claim that nothing interferes with is granted exactly when the event is new, failed, or held by an
        expired lease; a refused claim changes nothing. `lease` is the candidate lease ID, which may fail to
        be generated. */
    method ClaimWebhook(event: W.Delivery, duration: Time, now: Time, lease: Result<string, Error>)
      returns (leaseId: string, claimed: bool, err: Option<Error>)
      modifies this`webhooks
      ensures lease.Failure? ==> !claimed && err == Some(lease.error) && webhooks == old(webhooks)
      ensures lease.Success? ==>
                && err.None?
                && (claimed <==> event.key !in old(webhooks) || W.Claimable(old(webhooks)[event.key], now, duration))
                && webhooks == W.ClaimStatements(old(webhooks), event, now, lease.value, duration)
      ensures claimed ==> lease.Success? && leaseId == lease.value && W.Holds(webhooks, event.key, leaseId)
                          && webhooks[event.key].payload == Some(event.payload)
      ensures claimed ==>
                var row := webhooks[event.key];
                && webhooks == old(webhooks)[event.key := row]
                && row.processingStartedAt == Some(now) && row.lastAttemptAt == Some(now) && row.lastError == Some("")
                && row.signature == event.signature && row.eventType == event.eventType
                && (event.key in old(webhooks) ==>
                      row.attempts == old(webhooks)[event.key].attempts + 1
                      && row.processedAt == old(webhooks)[event.key].processedAt)
                && (event.key !in old(webhooks) ==> row.attempts == 1 && row.processedAt.None?)
      ensures !claimed ==> leaseId == "" && webhooks == old(webhooks)
    {
      if lease.Failure? {
        return "", false, Some(lease.error);
      }
      if event.key !in webhooks {
        webhooks := webhooks[event.key := W.NewRow(event, now, lease.value)];
        return lease.value, true, None;
      }
      var row := webhooks[event.key];
      var cutoff := now - duration;
      var failed := row.status == W.Failed;
      var dated := row.status == W.Processing && row.processingStartedAt.Some?;
      var expired := dated && row.processingStartedAt.value < cutoff;
      if !failed && !expired {
        return "", false, None;
      }
      row := row.(status := W.Processing, processingStartedAt := Some(now), lastAttemptAt := Some(now));
      row := row.(lastError := Some(""), payload := Some(event.payload), signature := event.signature);
      row := row.(eventType := event.eventType, leaseId := lease.value, attempts := row.attempts + 1);
      webhooks := webhooks[event.key := row];
      return lease.value, true, None;
    }

    /** Only the holder of the row's current lease finishes it; anyone else learns that the lease is lost
        and changes nothing. */
    method FinishWebhook(k: W.Key, leaseId: string, now: Time, processErr: Option<Error>) returns (err: Option<Error>)
      modifies this`webhooks
      ensures err == if W.Holds(old(webhooks), k, leaseId) then None else Some(LeaseLost)
      ensures webhooks == W.FinishStatement(old(webhooks), k, leaseId, now, processErr)
      ensures err.Some? ==> webhooks == old(webhooks)
      ensures err.None? ==>
                && k in old(webhooks) && k in webhooks && webhooks == old(webhooks)[k := webhooks[k]]
                && var before, row := old(webhooks)[k], webhooks[k];
                && !W.Holds(webhooks, k, leaseId) && row.processingStartedAt.None?
                && row.attempts == before.attempts && row.payload == before.payload && row.signature == before.signature
                && if processErr.None?
                   then row.status.Succeeded? && row.processedAt == Some(now) && row.lastError == Some("")
                   else
                     && row.status.Failed? && row.processedAt == before.processedAt
                     && row.lastError.Some?
                     && var text, kept := processErr.value.Text(), row.lastError.value;
                     && kept <= text && ByteLength(kept) <= 4096
                     && (kept != text ==> ByteLength(text) > 4096 && ByteLength(kept) + Width(text[|kept|]) > 4096)
    {
      if k !in webhooks || webhooks[k].status != W.Processing || webhooks[k].leaseId != leaseId {
        return Some(LeaseLost);
      }
      var row := webhooks[k].(processingStartedAt := None);
      if processErr.None? {
        row := row.(processedAt := Some(now), lastError := Some(""), status := W.Succeeded);
      } else {
        var message := processErr.value.Text();
        FirstBytesFit(message, W.MAX_ERROR);
        if ByteLength(message) > W.MAX_ERROR {
          message := FirstBytes(message, W.MAX_ERROR);
        }
        row := row.(lastError := Some(message), status := W.Failed);
      }
      webhooks := webhooks[k := row];
      return None;
    }

    method GetWebhook(k: W.Key) returns (r: Result<W.Row, Error>)
      ensures r.Success? <==> k in webhooks
      ensures r.Success? ==> r.value == webhooks[k]
      ensures r.Failure? ==> r.error == RecordNotFound
    {
      return if k in webhooks then Success(webhooks[k]) else Failure(RecordNotFound);
    }

    /** Only a FAILED event can be marked for a retry. */
    method MarkWebhookForRetry(k: W.Key) returns (err: Option<Error>)
      modifies this`webhooks
      ensures err.None? <==> k in old(webhooks) && old(webhooks)[k].status.Failed?
      ensures err.Some? ==> err.value == RecordNotFound && webhooks == old(webhooks)
      ensures webhooks == W.MarkForRetryStatement(old(webhooks), k)
      ensures err.None? ==> webhooks == old(webhooks)[k := old(webhooks)[k].(processingStartedAt := None)]
    {
      if k !in webhooks || webhooks[k].status != W.Failed {
        return Some(RecordNotFound);
      }
      webhooks := webhooks[k := webhooks[k].(processingStartedAt := None)];
      return None;
    }

    /** The cleanup clears nothing but the payload and signature of events that succeeded before `before`. */
    method CleanupWebhookPayloads(before: Time)
      modifies this`webhooks
      ensures webhooks == W.CleanupStatement(old(webhooks), before)
      ensures webhooks.Keys == old(webhooks).Keys
      ensures forall k :: k in webhooks ==>
                var row := old(webhooks)[k];
                if row.status.Succeeded? && row.processedAt.Some? && row.processedAt.value < before
                then webhooks[k] == row.(payload := None, signature := "") else webhooks[k] == row
    {
      webhooks := W.CleanupStatement(webhooks, before);
    }

    /** The transaction of the payment upsert; its update map amounts to the merge. */
    method UpsertPayment(k: P.Key, payment: P.Payment, now: Time)
      modifies this`payments
      ensures payments == P.Upsert(old(payments), k, P.Stamped(payment, now))
      ensures k !in old(payments) ==>
                payments[k] == payment.(occurredAt := if payment.occurredAt == 0 then now else payment.occurredAt)
      ensures k in old(payments) ==>
                var at := if payment.occurredAt == 0 then now else payment.occurredAt;
                payments[k].occurredAt == if at > old(payments)[k].occurredAt then at else old(payments)[k].occurredAt
    {
      var p := payment;
      if p.occurredAt == 0 {
        p := p.(occurredAt := now);
      }
      if k !in payments {
        payments := payments[k := p];
      } else {
        var updates := P.BuildUpdates(payments[k], p);
        payments := payments[k := P.ApplyUpdates(payments[k], updates)];
      }
    }

    /** An insert that does nothing on conflict, then a merge that another owner cannot enter. */
    method UpsertSubscription(k: S.Key, w: S.Subscription) returns (err: Option<Error>)
      requires S.Valid(subscriptions)
      modifies this`subscriptions
      ensures S.Valid(subscriptions)
      ensures subscriptions == S.Upsert(old(subscriptions), k, w)
      ensures err == if k in old(subscriptions).rows && S.OwnedByOther(old(subscriptions).rows[k].sub, w)
                     then Some(OwnershipConflict) else None
      ensures err.Some? ==> subscriptions.rows == old(subscriptions).rows
    {
      S.UpsertValid(subscriptions, k, w);
      var t := subscriptions;
      if k !in t.rows {
        subscriptions := S.Table(t.rows[k := S.Stored(t.nextId, w)], t.order + [k], t.nextId + 1);
        return None;
      }
      subscriptions := t.(nextId := t.nextId + 1);
      var existing := t.rows[k].sub;
      if existing.identityId != "" && w.identityId != "" && existing.identityId != w.identityId {
        return Some(OwnershipConflict);
      }
      var merged := existing.(customerId := w.customerId, planCode := w.planCode, status := w.status);
      merged := merged.(periodStart := w.periodStart, periodEnd := w.periodEnd, cancelAt := w.cancelAt);
      merged := merged.(cancelAtPeriodEnd := w.cancelAtPeriodEnd);
      if existing.identityId == "" && w.identityId != "" {
        merged := merged.(identityId := w.identityId);
      }
      if w.providerData != "" {
        merged := merged.(providerData := w.providerData);
      }
      subscriptions := subscriptions.(rows := subscriptions.rows[k := t.rows[k].(sub := merged)]);
      return None;
    }
  }
}
