/** The handlers of Stripe events are runs of the fulfilment machine. */
module StripeRuns {
  import opened Basics
  import opened Purchases
  import opened StripeEvents
  import F = Fulfilment
  import L = LeaseProtocol
  import LeaseSafety
  import P = Payments
  import S = Subscriptions
  import W = Webhooks

  /** The steps of the fulfilment machine that one handler call takes; those that do not apply do nothing. */
  function HandlerSteps(l: string, o: Outside, ok: bool): seq<F.Action> {
    [F.Record(l, o.resolved, o.now, o.database.None?),
     F.Publish(l, !o.delivery.FailsBefore?, o.delivery.Healthy?),
     F.FollowUp(l, ok)]
  }

  /** What recording leaves, for any outcome. */
  ghost predicate AfterRecord(s: F.State, s1: F.State, l: string, o: Outside, planned: Result<Plan, Error>) {
    if planned.Failure? || o.database.Some? then
      s1 == s.(progress := s.progress[l := F.Processed(false)])
    else
      var plan := planned.value;
      s1 == s.(payments := P.Upsert(s.payments, plan.key, P.Stamped(plan.payment, o.now)),
               progress := s.progress[l := F.Recorded(plan.message)])
  }

  lemma FirstStep(c: F.Config, s: F.State, l: string, e: Checkout, o: Outside)
    requires F.Running(s, l) && l !in s.progress && F.Content(c, s, l) == Some(e)
    ensures AfterRecord(s, F.Apply(c, s, F.Record(l, o.resolved, o.now, o.database.None?)), l, o,
                        PlanCheckout(c.shop, e, o.resolved))
  {
  }

  lemma PublishStep(c: F.Config, s: F.State, l: string, m: Message, o: Outside, ok: bool)
    requires F.Running(s, l) && l in s.progress && s.progress[l] == F.Recorded(Some(m))
    ensures var (w, err) := Published(World(s.payments, S.EMPTY, s.ledger), m, o.delivery);
            F.Apply(c, F.Apply(c, s, F.Publish(l, !o.delivery.FailsBefore?, o.delivery.Healthy?)), F.FollowUp(l, ok))
            == s.(ledger := w.ledger, progress := s.progress[l := F.Processed(err.None?)])
  {
  }

  lemma FollowUpStep(c: F.Config, s: F.State, l: string, o: Outside, ok: bool)
    requires F.Running(s, l) && l in s.progress && (s.progress[l].Recorded? ==> s.progress[l].message.None?)
    ensures F.Apply(c, F.Apply(c, s, F.Publish(l, !o.delivery.FailsBefore?, o.delivery.Healthy?)), F.FollowUp(l, ok))
            == if s.progress[l].Recorded? then s.(progress := s.progress[l := F.Processed(ok)]) else s
  {
  }

  /** What the whole handler leaves, for any outcome. */
  ghost predicate AfterHandler(s: F.State, s': F.State, l: string, o: Outside, planned: Result<Plan, Error>, ok: bool) {
    if planned.Failure? || o.database.Some? then
      s' == s.(progress := s.progress[l := F.Processed(false)])
    else
      var plan := planned.value;
      var stored := P.Upsert(s.payments, plan.key, P.Stamped(plan.payment, o.now));
      match plan.message
      case Some(m) =>
        var (w, err) := Published(World(stored, S.EMPTY, s.ledger), m, o.delivery);
        s' == s.(payments := stored, ledger := w.ledger, progress := s.progress[l := F.Processed(err.None?)])
      case None =>
        s' == s.(payments := stored, progress := s.progress[l := F.Processed(ok)])
  }

  lemma LaterSteps(c: F.Config, s: F.State, s1: F.State, l: string, o: Outside, planned: Result<Plan, Error>, ok: bool)
    requires F.Running(s, l) && AfterRecord(s, s1, l, o, planned)
    ensures var acts := HandlerSteps(l, o, ok);
            AfterHandler(s, F.Apply(c, F.Apply(c, s1, acts[1]), acts[2]), l, o, planned, ok)
  {
    if planned.Success? && o.database.None? && planned.value.message.Some? {
      PublishStep(c, s1, l, planned.value.message.value, o, ok);
    } else {
      FollowUpStep(c, s1, l, o, ok);
    }
  }

  lemma HandlerEffect(shop: Shop, s: F.State, s': F.State, l: string, e: Checkout, o: Outside, subscriptions: S.Table)
    requires var err := HandledCheckout(shop, e, o, World(s.payments, subscriptions, s.ledger)).1;
             AfterHandler(s, s', l, o, PlanCheckout(shop, e, o.resolved), err.None?)
    ensures var (w, err) := HandledCheckout(shop, e, o, World(s.payments, subscriptions, s.ledger));
            s' == s.(payments := w.payments, ledger := w.ledger, progress := s.progress[l := F.Processed(err.None?)])
  {
  }

  /** A call of the Checkout handler by a worker that runs under lease `l` is a run of the fulfilment machine, so what
      is proved of all runs holds of handlers that execute it, however they are interleaved or cut short. */
  lemma HandlerIsARun(c: F.Config, s: F.State, l: string, e: Checkout, o: Outside, subscriptions: S.Table)
    requires F.Running(s, l) && l !in s.progress && F.Content(c, s, l) == Some(e)
    ensures var (w, err) := HandledCheckout(c.shop, e, o, World(s.payments, subscriptions, s.ledger));
            F.Exec(c, s, HandlerSteps(l, o, err.None?))
            == s.(payments := w.payments, ledger := w.ledger, progress := s.progress[l := F.Processed(err.None?)])
  {
    var (w, err) := HandledCheckout(c.shop, e, o, World(s.payments, subscriptions, s.ledger));
    var acts := HandlerSteps(l, o, err.None?);
    var s1 := F.Apply(c, s, acts[0]);
    var s2 := F.Apply(c, s1, acts[1]);
    assert acts[1..][1..] == [acts[2]] && acts[1..][1..][1..] == [];
    assert F.Exec(c, s, acts) == F.Exec(c, s1, acts[1..]) == F.Exec(c, s2, [acts[2]]) == F.Apply(c, s2, acts[2]);
    FirstStep(c, s, l, e, o);
    LaterSteps(c, s, s1, l, o, PlanCheckout(c.shop, e, o.resolved), err.None?);
    HandlerEffect(c.shop, s, F.Apply(c, s2, acts[2]), l, e, o, subscriptions);
  }

  lemma SingleStep(c: F.Config, s: F.State, a: F.Action)
    ensures F.Exec(c, s, [a]) == F.Apply(c, s, a)
  {
    assert [a][1..] == [];
  }

  /** So is a call of the handler of any other event. */
  lemma OtherHandlerIsARun(c: F.Config, s: F.State, l: string, event: Event, o: Outside, subscriptions: S.Table)
    requires F.Running(s, l) && l !in s.progress && F.Content(c, s, l).None? && !event.CheckoutSession?
    ensures var (w, err) := Handled(c.shop, event, o, World(s.payments, subscriptions, s.ledger));
            var written := Recorded(c.shop, event, o, s.payments);
            w.ledger == s.ledger
            && F.Exec(c, s, [F.HandleOther(l, if written.None? then [] else [written.value], err.None?)])
               == s.(payments := w.payments, progress := s.progress[l := F.Processed(err.None?)])
  {
    var w := World(s.payments, subscriptions, s.ledger);
    var err := Handled(c.shop, event, o, w).1;
    var written := Recorded(c.shop, event, o, s.payments);
    var writes := if written.None? then [] else [written.value];
    PaymentsAfter(c.shop, event, o, w);
    SingleStep(c, s, F.HandleOther(l, writes, err.None?));
    assert written.Some? ==> writes[1..] == [];
    assert P.UpsertAll(s.payments, writes) == Handled(c.shop, event, o, w).0.payments;
  }

  // ----- A whole delivery -----

  /** The handler's steps for an event of any type. */
  function EventSteps(shop: Shop, l: string, event: Event, o: Outside, payments: P.Table, ok: bool): seq<F.Action> {
    if event.CheckoutSession? then HandlerSteps(l, o, ok)
    else
      var written := Recorded(shop, event, o, payments);
      [F.HandleOther(l, if written.None? then [] else [written.value], ok)]
  }

  lemma EventHandlerIsARun(c: F.Config, s: F.State, l: string, event: Event, o: Outside, subscriptions: S.Table)
    requires F.Running(s, l) && l !in s.progress
    requires F.Content(c, s, l) == if event.CheckoutSession? then Some(event.checkout) else None
    ensures var (w, err) := Handled(c.shop, event, o, World(s.payments, subscriptions, s.ledger));
            F.Exec(c, s, EventSteps(c.shop, l, event, o, s.payments, err.None?))
            == s.(payments := w.payments, ledger := w.ledger, progress := s.progress[l := F.Processed(err.None?)])
  {
    if event.CheckoutSession? {
      HandlerIsARun(c, s, l, event.checkout, o, subscriptions);
    } else {
      OtherHandlerIsARun(c, s, l, event, o, subscriptions);
    }
  }

  /** Handle, and after `elapsed` time finish. */
  function ProcessSteps(shop: Shop, l: string, event: Event, o: Outside, payments: P.Table, err: Option<Error>,
                        elapsed: nat): seq<F.Action> {
    EventSteps(shop, l, event, o, payments, err.None?) + [F.Lease(L.Tick(elapsed)), F.Lease(L.Finish(l, err))]
  }

  /** The end of a delivery: some time, then the finish. */
  lemma FinishIsARun(c: F.Config, s: F.State, l: string, err: Option<Error>, elapsed: nat)
    requires F.Running(s, l) && l in s.progress && s.progress[l] == F.Processed(err.None?)
    ensures var s' := F.Exec(c, s, [F.Lease(L.Tick(elapsed)), F.Lease(L.Finish(l, err))]);
            var k := s.lease.workers[l].delivery.key;
            && s'.payments == s.payments && s'.ledger == s.ledger
            && s'.lease.rows == W.FinishStatement(s.lease.rows, k, l, s.lease.clock + elapsed, err)
  {
    var acts := [F.Lease(L.Tick(elapsed)), F.Lease(L.Finish(l, err))];
    var s1 := F.Apply(c, s, acts[0]);
    assert acts[1..] == [acts[1]];
    SingleStep(c, s1, acts[1]);
  }

  /** The state of the machine once the claim of `d` under the fresh lease `l` is granted. */
  lemma GrantedClaim(c: F.Config, s: F.State, l: string, d: W.Delivery)
    requires L.Fresh(c.lease, s.lease, l) && L.Parses(c.lease, d.key, d.payload)
    requires d.key !in s.lease.rows || W.Claimable(s.lease.rows[d.key], s.lease.clock, c.lease.lease)
    ensures var s' := F.Exec(c, s, F.Lifted(LeaseSafety.Claim(l, d)));
            && s'.payments == s.payments && s'.ledger == s.ledger && s'.progress == s.progress
            && F.Running(s', l) && s'.lease.workers[l].delivery == d && s'.lease.clock == s.lease.clock
            && s'.lease.rows == W.ClaimStatements(s.lease.rows, d, s.lease.clock, l, c.lease.lease)
  {
    F.LiftedRuns(c, s, LeaseSafety.Claim(l, d));
    LeaseSafety.ClaimLeaves(c.lease, s.lease, l, d);
  }

  /** A granted claim, the handler and the finish leave what the webhook entry point describes. */
  lemma TablesOfDelivery(shop: Shop, duration: Time, parsed: Parsed, payload: Bytes, signature: string, o: Outside,
                         before: W.Table, after: W.Table, w: World)
    requires o.lease.Success? && o.overtaken.None?
    requires var d := DeliveryOf(parsed, payload, signature);
             && (d.key !in before || W.Claimable(before[d.key], o.now, duration))
             && after == W.FinishStatement(W.ClaimStatements(before, d, o.now, o.lease.value, duration),
                                           d.key, o.lease.value, o.finishedAt, Handled(shop, parsed.event, o, w).1)
    ensures var (w', err) := Handled(shop, parsed.event, o, w);
            Delivered(shop, duration, Success(parsed), payload, signature, o, before, after, w, w', err)
  {
    var err := Handled(shop, parsed.event, o, w).1;
    if err.Some? {
      FirstBytesFit(err.value.Text(), W.MAX_ERROR);
    }
  }

  /** Handling after the claim, and the finish after that. */
  lemma HandleAndFinish(c: F.Config, s: F.State, l: string, event: Event, o: Outside, subscriptions: S.Table,
                        elapsed: nat)
    requires F.Running(s, l) && l !in s.progress
    requires F.Content(c, s, l) == if event.CheckoutSession? then Some(event.checkout) else None
    ensures var (w, err) := Handled(c.shop, event, o, World(s.payments, subscriptions, s.ledger));
            var s' := F.Exec(c, s, ProcessSteps(c.shop, l, event, o, s.payments, err, elapsed));
            && s'.payments == w.payments && s'.ledger == w.ledger
            && s'.lease.rows
               == W.FinishStatement(s.lease.rows, s.lease.workers[l].delivery.key, l, s.lease.clock + elapsed, err)
  {
    var err := Handled(c.shop, event, o, World(s.payments, subscriptions, s.ledger)).1;
    EventHandlerIsARun(c, s, l, event, o, subscriptions);
    var steps := EventSteps(c.shop, l, event, o, s.payments, err.None?);
    FinishIsARun(c, F.Exec(c, s, steps), l, err, elapsed);
    F.ExecAppend(c, s, steps, [F.Lease(L.Tick(elapsed)), F.Lease(L.Finish(l, err))]);
  }

  lemma DeliveryRuns(c: F.Config, s: F.State, l: string, d: W.Delivery, event: Event, o: Outside,
                     subscriptions: S.Table, elapsed: nat)
    requires L.Fresh(c.lease, s.lease, l) && L.Parses(c.lease, d.key, d.payload) && l !in s.progress
    requires d.key !in s.lease.rows || W.Claimable(s.lease.rows[d.key], s.lease.clock, c.lease.lease)
    requires c.content(d.payload) == if event.CheckoutSession? then Some(event.checkout) else None
    ensures var (w, err) := Handled(c.shop, event, o, World(s.payments, subscriptions, s.ledger));
            var s1 := F.Exec(c, s, F.Lifted(LeaseSafety.Claim(l, d)));
            var s' := F.Exec(c, s1, ProcessSteps(c.shop, l, event, o, s.payments, err, elapsed));
            && s'.payments == w.payments && s'.ledger == w.ledger
            && s'.lease.rows
               == W.FinishStatement(W.ClaimStatements(s.lease.rows, d, s.lease.clock, l, c.lease.lease),
                                    d.key, l, s.lease.clock + elapsed, err)
  {
    GrantedClaim(c, s, l, d);
    HandleAndFinish(c, F.Exec(c, s, F.Lifted(LeaseSafety.Claim(l, d))), l, event, o, subscriptions, elapsed);
  }

  lemma DeliveryFrom(c: F.Config, s: F.State, parsed: Parsed, payload: Bytes, signature: string, o: Outside,
                     subscriptions: S.Table, l: string, elapsed: nat)
    requires var d := DeliveryOf(parsed, payload, signature);
             && L.Fresh(c.lease, s.lease, l) && L.Parses(c.lease, d.key, payload) && l !in s.progress
             && (d.key !in s.lease.rows || W.Claimable(s.lease.rows[d.key], o.now, c.lease.lease))
    requires o.lease == Success(l) && o.overtaken.None?
    requires o.now == s.lease.clock && o.finishedAt == o.now + elapsed
    requires c.content(payload) == if parsed.event.CheckoutSession? then Some(parsed.event.checkout) else None
    ensures var d, before := DeliveryOf(parsed, payload, signature), World(s.payments, subscriptions, s.ledger);
            var (w, err) := Handled(c.shop, parsed.event, o, before);
            var s1 := F.Exec(c, s, F.Lifted(LeaseSafety.Claim(l, d)));
            var s' := F.Exec(c, s1, ProcessSteps(c.shop, l, parsed.event, o, s.payments, err, elapsed));
            && s'.payments == w.payments && s'.ledger == w.ledger
            && Delivered(c.shop, c.lease.lease, Success(parsed), payload, signature, o,
                         s.lease.rows, s'.lease.rows, before, w, err)
  {
    var d := DeliveryOf(parsed, payload, signature);
    var before := World(s.payments, subscriptions, s.ledger);
    var err := Handled(c.shop, parsed.event, o, before).1;
    var s1 := F.Exec(c, s, F.Lifted(LeaseSafety.Claim(l, d)));
    var s' := F.Exec(c, s1, ProcessSteps(c.shop, l, parsed.event, o, s.payments, err, elapsed));
    DeliveryRuns(c, s, l, d, parsed.event, o, subscriptions, elapsed);
    TablesOfDelivery(c.shop, c.lease.lease, parsed, payload, signature, o, s.lease.rows, s'.lease.rows, before);
  }

  /** A delivery that is granted its lease and not overtaken, as the webhook entry point handles it, is one run of the
      fulfilment machine: the run leaves the payments, the ledger and the webhook table that `Delivered` describes. So
      everything proved of all runs holds of deliveries, however they are interleaved with others or cut short. */
  lemma DeliveryIsARun(c: F.Config, t0: Time, start: P.Table, past: seq<F.Action>, parsed: Parsed, payload: Bytes,
                       signature: string, o: Outside, subscriptions: S.Table, l: string, elapsed: nat)
    requires var s, d := F.Reached(c, t0, start, past), DeliveryOf(parsed, payload, signature);
             && L.Fresh(c.lease, s.lease, l) && L.Parses(c.lease, d.key, payload)
             && o.lease == Success(l) && o.overtaken.None?
             && o.now == s.lease.clock && o.finishedAt == o.now + elapsed
             && (d.key !in s.lease.rows || W.Claimable(s.lease.rows[d.key], o.now, c.lease.lease))
    requires c.content(payload) == if parsed.event.CheckoutSession? then Some(parsed.event.checkout) else None
    ensures var s, d := F.Reached(c, t0, start, past), DeliveryOf(parsed, payload, signature);
            var before := World(s.payments, subscriptions, s.ledger);
            var (w, err) := Handled(c.shop, parsed.event, o, before);
            var s' := F.Exec(c, s, F.Lifted(LeaseSafety.Claim(l, d))
                                    + ProcessSteps(c.shop, l, parsed.event, o, s.payments, err, elapsed));
            && s'.payments == w.payments && s'.ledger == w.ledger
            && Delivered(c.shop, c.lease.lease, Success(parsed), payload, signature, o,
                         s.lease.rows, s'.lease.rows, before, w, err)
  {
    var s, d := F.Reached(c, t0, start, past), DeliveryOf(parsed, payload, signature);
    var err := Handled(c.shop, parsed.event, o, World(s.payments, subscriptions, s.ledger)).1;
    F.FreshHasNoProgress(c, t0, start, past, l);
    DeliveryFrom(c, s, parsed, payload, signature, o, subscriptions, l, elapsed);
    F.ExecAppend(c, s, F.Lifted(LeaseSafety.Claim(l, d)),
                 ProcessSteps(c.shop, l, parsed.event, o, s.payments, err, elapsed));
  }
}
