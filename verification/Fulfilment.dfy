/**
 Fulfilment on top of the leases. A worker that holds a lease records the payment, publishes the purchase and
 finishes, each as its own action; it may crash, fail or lose its lease between any two of them, and workers
 whose lease was taken over keep running. Every run of this machine projects to a run of the lease protocol.
 */
module Fulfilment {
  import opened Basics
  import opened Purchases
  import P = Payments
  import W = Webhooks
  import L = LeaseProtocol
  import LeaseSafety

  /** `content` reads the Checkout carried by a verified payload, if it is one. */
  datatype Config = Config(lease: L.Config, shop: Shop, content: Bytes -> Option<Checkout>)

  /** How far the handler of a lease has come. */
  datatype Progress = Recorded(message: Option<Message>) | Processed(ok: bool)

  datatype State = State(
    lease: L.State,
    payments: P.Table,
    progress: map<string, Progress>,
    ledger: Ledger)

  datatype Action =
    | Lease(action: L.Action)
      // Record the payment of a Checkout; the database may fail.
    | Record(lease: string, resolved: Result<string, Error>, now: Time, stored: bool)
      // Publish synchronously; a handler may fail before or after the consumer has committed.
    | Publish(lease: string, committed: bool, ok: bool)
      // Bring the subscription of a Checkout up to date, which may fail.
    | FollowUp(lease: string, ok: bool)
      // Handle any other event type.
    | HandleOther(lease: string, writes: seq<(P.Key, P.Payment)>, ok: bool)
      // Payments recorded outside webhooks.
    | UpsertOutside(key: P.Key, payment: P.Payment)

  function Content(c: Config, s: State, l: string): Option<Checkout>
    requires l in s.lease.workers
  {
    c.content(s.lease.workers[l].delivery.payload)
  }

  predicate Running(s: State, l: string) {
    L.In(s.lease, l, L.Holding)
  }

  predicate AtMessage(s: State, l: string) {
    Running(s, l) && l in s.progress && s.progress[l].Recorded? && s.progress[l].message.Some?
  }

  ghost predicate Enabled(c: Config, s: State, a: Action) {
    match a
    case Lease(la) => la.Finish? ==> la.lease in s.progress && s.progress[la.lease] == Processed(la.processErr.None?)
    case Record(l, _, _, _) => Running(s, l) && l !in s.progress && Content(c, s, l).Some?
    case Publish(l, committed, ok) => AtMessage(s, l) && (ok ==> committed)
    case FollowUp(l, _) => Running(s, l) && l in s.progress && s.progress[l] == Recorded(None)
    case HandleOther(l, _, _) => Running(s, l) && l !in s.progress && Content(c, s, l).None?
    case UpsertOutside(_, _) => true
  }

  ghost function Do(c: Config, s: State, a: Action): State
    requires Enabled(c, s, a)
  {
    match a
    case Lease(la) =>
      s.(lease := L.Apply(c.lease, s.lease, la))
    case Record(l, resolved, now, stored) =>
      (match PlanCheckout(c.shop, Content(c, s, l).value, resolved)
       case Failure(_) => s.(progress := s.progress[l := Processed(false)])
       case Success(plan) =>
         if !stored then s.(progress := s.progress[l := Processed(false)])
         else s.(payments := P.Upsert(s.payments, plan.key, P.Stamped(plan.payment, now)),
                 progress := s.progress[l := Recorded(plan.message)]))
    case Publish(l, committed, ok) =>
      s.(ledger := if committed then Fulfil(s.ledger, s.progress[l].message.value) else s.ledger,
         progress := s.progress[l := Processed(ok)])
    case FollowUp(l, ok) =>
      s.(progress := s.progress[l := Processed(ok)])
    case HandleOther(l, writes, ok) =>
      s.(payments := P.UpsertAll(s.payments, writes), progress := s.progress[l := Processed(ok)])
    case UpsertOutside(k, p) =>
      s.(payments := P.Upsert(s.payments, k, p))
  }

  ghost function Apply(c: Config, s: State, a: Action): State {
    if Enabled(c, s, a) then Do(c, s, a) else s
  }

  ghost function Exec(c: Config, s: State, acts: seq<Action>): State
    decreases |acts|
  {
    if acts == [] then s else Exec(c, Apply(c, s, acts[0]), acts[1..])
  }

  ghost function Init(c: Config, t0: Time, payments: P.Table): State {
    State(L.Init(c.lease, t0), payments, map[], Ledger({}, []))
  }

  ghost function Reached(c: Config, t0: Time, payments: P.Table, acts: seq<Action>): State {
    Exec(c, Init(c, t0, payments), acts)
  }

  // ----- Projection to the lease protocol -----

  /** The lease actions that a run performs. */
  ghost function Projection(c: Config, s: State, acts: seq<Action>): seq<L.Action>
    decreases |acts|
  {
    if acts == [] then []
    else
      (if Enabled(c, s, acts[0]) && acts[0].Lease? then [acts[0].action] else [])
      + Projection(c, Apply(c, s, acts[0]), acts[1..])
  }

  /** Every run is, on the webhook table, a run of the lease protocol; so all its guarantees carry over. */
  lemma {:induction false} RunsProject(c: Config, s: State, acts: seq<Action>)
    ensures Exec(c, s, acts).lease == L.Exec(c.lease, s.lease, Projection(c, s, acts))
    decreases |acts|
  {
    if acts == [] {
    } else {
      var s1 := Apply(c, s, acts[0]);
      RunsProject(c, s1, acts[1..]);
      var rest := Projection(c, s1, acts[1..]);
      if Enabled(c, s, acts[0]) && acts[0].Lease? {
        var all := [acts[0].action] + rest;
        assert Projection(c, s, acts) == all;
        assert all[0] == acts[0].action && all[1..] == rest;
      } else {
        assert Projection(c, s, acts) == rest;
      }
    }
  }

  // ----- Invariant -----

  /** The payment of a message is stored, at least as SUCCEEDED. */
  predicate Backed(payments: P.Table, m: Message) {
    var k := P.Key(STRIPE, m.payload.externalPaymentId);
    && k in payments
    && P.Rank(payments[k].status) >= P.Rank(P.Succeeded)
  }

  /** A message is one that the handler planned for the Checkout of lease `l`. */
  ghost predicate PlannedFor(c: Config, s: State, l: string, m: Message) {
    && l in s.lease.workers && Content(c, s, l).Some?
    && exists r :: PlanCheckout(c.shop, Content(c, s, l).value, r).Success?
                   && PlanCheckout(c.shop, Content(c, s, l).value, r).value.message == Some(m)
  }

  ghost predicate ProgressInv(c: Config, s: State, l: string)
    requires l in s.progress
  {
    && l in s.lease.workers
    && match s.progress[l]
       case Recorded(None) => Content(c, s, l).Some? && !IsPaidOneTime(Content(c, s, l).value)
       case Recorded(Some(m)) => PlannedFor(c, s, l, m) && Backed(s.payments, m)
       case Processed(ok) =>
         ok && Content(c, s, l).Some? && IsPaidOneTime(Content(c, s, l).value) ==>
           MessageId(ExternalId(Content(c, s, l).value.session)) in s.ledger.fulfilled
  }

  /** Every credit was planned for some delivered Checkout and its payment is stored. */
  ghost predicate CreditInv(c: Config, s: State, m: Message) {
    Backed(s.payments, m) && exists l :: PlannedFor(c, s, l, m)
  }

  /** A recorded success of an event is a success of its handler. */
  ghost predicate FinishInv(s: State, k: W.Key) {
    var h := L.Hist(s.lease, k);
    forall i :: 0 <= i < |h| && h[i].Finished? && h[i].ok ==>
      h[i].lease in s.progress && s.progress[h[i].lease] == Processed(true)
  }

  ghost predicate Inv(c: Config, s: State) {
    && (forall l :: l in s.progress ==> ProgressInv(c, s, l))
    && LedgerOk(s.ledger)
    && (forall i :: 0 <= i < |s.ledger.credits| ==> CreditInv(c, s, s.ledger.credits[i]))
    && (forall k :: FinishInv(s, k))
  }

  lemma BackedForever(payments: P.Table, writes: seq<(P.Key, P.Payment)>, m: Message)
    requires Backed(payments, m)
    ensures Backed(P.UpsertAll(payments, writes), m)
  {
    P.NeverRegresses(payments, writes, P.Key(STRIPE, m.payload.externalPaymentId));
  }

  lemma BackedAfterUpsert(payments: P.Table, k: P.Key, p: P.Payment, m: Message)
    requires Backed(payments, m)
    ensures Backed(P.Upsert(payments, k, p), m)
  {
    P.UpsertAdvances(payments, k, p, P.Key(STRIPE, m.payload.externalPaymentId));
  }

  lemma PlannedForever(c: Config, s: State, s': State, l: string, m: Message)
    requires PlannedFor(c, s, l, m) && L.Extends(s.lease, s'.lease)
    ensures PlannedFor(c, s', l, m)
  {
  }

  /** Facts about other leases and about credits survive when payments only advance and the ledger grows. */
  ghost predicate Advances(s: State, s': State) {
    && L.Extends(s.lease, s'.lease)
    && (forall m :: Backed(s.payments, m) ==> Backed(s'.payments, m))
    && s.ledger.fulfilled <= s'.ledger.fulfilled
  }

  lemma ProgressFrame(c: Config, s: State, s': State, l: string)
    requires l in s.progress && ProgressInv(c, s, l) && Advances(s, s')
    requires l in s'.progress && s'.progress[l] == s.progress[l]
    ensures ProgressInv(c, s', l)
  {
    if s.progress[l].Recorded? && s.progress[l].message.Some? {
      PlannedForever(c, s, s', l, s.progress[l].message.value);
    }
  }

  lemma CreditFrame(c: Config, s: State, s': State, m: Message)
    requires CreditInv(c, s, m) && Advances(s, s')
    ensures CreditInv(c, s', m)
  {
    var l :| PlannedFor(c, s, l, m);
    PlannedForever(c, s, s', l, m);
  }

  /** A handler action of lease `l`: it moves that lease's progress to a state that satisfies the invariant. */
  lemma HandlerInv(c: Config, s: State, s': State, l: string)
    requires Inv(c, s) && Advances(s, s') && s'.lease == s.lease
    requires l !in s.progress || s.progress[l].Recorded?
    requires l in s'.progress && s'.progress == s.progress[l := s'.progress[l]]
    requires ProgressInv(c, s', l)
    requires s'.ledger == s.ledger || exists m :: s'.ledger == Fulfil(s.ledger, m) && CreditInv(c, s', m)
    ensures Inv(c, s')
  {
    forall j | j in s'.progress ensures ProgressInv(c, s', j) {
      if j != l { ProgressFrame(c, s, s', j); }
    }
    if s'.ledger != s.ledger {
      var m :| s'.ledger == Fulfil(s.ledger, m) && CreditInv(c, s', m);
      FulfilOk(s.ledger, m);
    }
    forall i | 0 <= i < |s'.ledger.credits| ensures CreditInv(c, s', s'.ledger.credits[i]) {
      if i < |s.ledger.credits| {
        assert s'.ledger.credits[i] == s.ledger.credits[i];
        CreditFrame(c, s, s', s.ledger.credits[i]);
      }
    }
    forall k ensures FinishInv(s', k) { assert FinishInv(s, k); }
  }

  lemma RecordInv(c: Config, s: State, a: Action)
    requires Inv(c, s) && a.Record? && Enabled(c, s, a)
    ensures Inv(c, Do(c, s, a))
  {
    var s' := Do(c, s, a);
    var e := Content(c, s, a.lease).value;
    var planned := PlanCheckout(c.shop, e, a.resolved);
    if planned.Success? && a.stored {
      var plan := planned.value;
      PlannedMessage(c.shop, e, a.resolved);
      forall m | Backed(s.payments, m) ensures Backed(s'.payments, m) {
        BackedAfterUpsert(s.payments, plan.key, P.Stamped(plan.payment, a.now), m);
      }
      if plan.message.Some? {
        assert PlanCheckout(c.shop, Content(c, s', a.lease).value, a.resolved).value.message == plan.message;
        assert PlannedFor(c, s', a.lease, plan.message.value);
        assert P.Rank(s'.payments[plan.key].status) >= P.Rank(P.Succeeded);
      }
    }
    assert ProgressInv(c, s', a.lease);
    HandlerInv(c, s, s', a.lease);
  }

  lemma PublishInv(c: Config, s: State, a: Action)
    requires Inv(c, s) && a.Publish? && Enabled(c, s, a)
    ensures Inv(c, Do(c, s, a))
  {
    var s' := Do(c, s, a);
    var m := s.progress[a.lease].message.value;
    assert ProgressInv(c, s, a.lease);
    var e := Content(c, s, a.lease).value;
    var r :| PlanCheckout(c.shop, e, r).Success? && PlanCheckout(c.shop, e, r).value.message == Some(m);
    PlannedMessage(c.shop, e, r);
    assert m.id == MessageId(ExternalId(e.session));
    PlannedForever(c, s, s', a.lease, m);
    assert CreditInv(c, s', m);
    HandlerInv(c, s, s', a.lease);
  }

  lemma OtherInv(c: Config, s: State, a: Action)
    requires Inv(c, s) && (a.HandleOther? || a.FollowUp?) && Enabled(c, s, a)
    ensures Inv(c, Do(c, s, a))
  {
    var s' := Do(c, s, a);
    if a.HandleOther? {
      forall m | Backed(s.payments, m) ensures Backed(s'.payments, m) {
        BackedForever(s.payments, a.writes, m);
      }
    } else {
      assert ProgressInv(c, s, a.lease);
    }
    assert ProgressInv(c, s', a.lease);
    HandlerInv(c, s, s', a.lease);
  }

  lemma OutsideInv(c: Config, s: State, a: Action)
    requires Inv(c, s) && a.UpsertOutside?
    ensures Inv(c, Do(c, s, a))
  {
    var s' := Do(c, s, a);
    forall m | Backed(s.payments, m) ensures Backed(s'.payments, m) {
      BackedAfterUpsert(s.payments, a.key, a.payment, m);
    }
    forall j | j in s'.progress ensures ProgressInv(c, s', j) { ProgressFrame(c, s, s', j); }
    forall i | 0 <= i < |s'.ledger.credits| ensures CreditInv(c, s', s'.ledger.credits[i]) {
      CreditFrame(c, s, s', s.ledger.credits[i]);
    }
    forall k ensures FinishInv(s', k) { assert FinishInv(s, k); }
  }

  /** The lease protocol records a success only in the finish action. */
  lemma OnlyFinishSucceeds(c: L.Config, s: L.State, a: L.Action, k: W.Key)
    ensures var h, h' := L.Hist(s, k), L.Hist(L.Apply(c, s, a), k);
            || h' == h
            || exists e :: h' == h + [e]
                 && (e.Finished? ==> a.Finish? && e == L.Finished(a.lease, a.processErr.None?))
  {
  }

  lemma LeaseInv(c: Config, s: State, a: Action)
    requires Inv(c, s) && a.Lease? && Enabled(c, s, a)
    ensures Inv(c, Do(c, s, a))
  {
    var s' := Do(c, s, a);
    forall k ensures FinishInv(s', k) {
      assert FinishInv(s, k);
      OnlyFinishSucceeds(c.lease, s.lease, a.action, k);
    }
    LeaseSafety.StepGrows(c.lease, s.lease, a.action, W.Key("", ""));
    forall j | j in s'.progress ensures ProgressInv(c, s', j) { ProgressFrame(c, s, s', j); }
    forall i | 0 <= i < |s'.ledger.credits| ensures CreditInv(c, s', s'.ledger.credits[i]) {
      CreditFrame(c, s, s', s.ledger.credits[i]);
    }
  }

  lemma {:induction false} ExecInv(c: Config, s: State, acts: seq<Action>)
    requires Inv(c, s)
    ensures Inv(c, Exec(c, s, acts))
    decreases |acts|
  {
    if acts == [] {
    } else {
      var a := acts[0];
      if Enabled(c, s, a) {
        match a
        case Lease(_) => LeaseInv(c, s, a);
        case Record(_, _, _, _) => RecordInv(c, s, a);
        case Publish(_, _, _) => PublishInv(c, s, a);
        case FollowUp(_, _) => OtherInv(c, s, a);
        case HandleOther(_, _, _) => OtherInv(c, s, a);
        case UpsertOutside(_, _) => OutsideInv(c, s, a);
      }
      ExecInv(c, Apply(c, s, a), acts[1..]);
    }
  }

  // ----- Main results -----

  lemma CreditId(c: Config, s: State, m: Message)
    requires CreditInv(c, s, m)
    ensures m.id == MessageId(m.payload.externalPaymentId)
  {
    var l :| PlannedFor(c, s, l, m);
    var r :| PlanCheckout(c.shop, Content(c, s, l).value, r).Success?
             && PlanCheckout(c.shop, Content(c, s, l).value, r).value.message == Some(m);
    PlannedMessage(c.shop, Content(c, s, l).value, r);
  }

  /** Each payment is credited at most once, in every run of deliveries, retries, handler failures, crashes and
      take-overs, however many webhook events are about it. */
  lemma CreditedAtMostOnce(c: Config, t0: Time, payments: P.Table, acts: seq<Action>, i: nat, j: nat)
    requires i < j < |Reached(c, t0, payments, acts).ledger.credits|
    ensures var credits := Reached(c, t0, payments, acts).ledger.credits;
            credits[i].payload.externalPaymentId != credits[j].payload.externalPaymentId
  {
    var s := Reached(c, t0, payments, acts);
    ExecInv(c, Init(c, t0, payments), acts);
    var m, n := s.ledger.credits[i], s.ledger.credits[j];
    CreditId(c, s, m);
    CreditId(c, s, n);
  }

  /** A credit once given is never withdrawn or altered. */
  lemma {:induction false} CreditsAreKept(c: Config, s: State, acts: seq<Action>)
    ensures s.ledger.credits <= Exec(c, s, acts).ledger.credits
    ensures s.ledger.fulfilled <= Exec(c, s, acts).ledger.fulfilled
    decreases |acts|
  {
    if acts == [] {
    } else {
      CreditsAreKept(c, Apply(c, s, acts[0]), acts[1..]);
    }
  }

  /** Nothing is credited out of thin air: every credit belongs to a delivered webhook that is a paid one-time
      Checkout of that payment, for an identity and a one-time product of the catalog, and its payment is
      stored with at least the rank of SUCCEEDED. */
  lemma CreditsAreEarned(c: Config, t0: Time, payments: P.Table, acts: seq<Action>, i: nat)
    requires i < |Reached(c, t0, payments, acts).ledger.credits|
    ensures var s := Reached(c, t0, payments, acts);
            var m := s.ledger.credits[i];
            && Backed(s.payments, m)
            && TrimSpace(m.payload.identityId) != ""
            && m.payload.priceId in c.shop.products && c.shop.products[m.payload.priceId].kind == "one_time"
            && exists l :: l in s.lease.workers && Content(c, s, l).Some?
                 && IsPaidOneTime(Content(c, s, l).value)
                 && ExternalId(Content(c, s, l).value.session) == m.payload.externalPaymentId
                 && Meta(Content(c, s, l).value.session, "identity_id") == m.payload.identityId
  {
    var s := Reached(c, t0, payments, acts);
    ExecInv(c, Init(c, t0, payments), acts);
    var m := s.ledger.credits[i];
    assert CreditInv(c, s, m);
    var l :| PlannedFor(c, s, l, m);
    var r :| PlanCheckout(c.shop, Content(c, s, l).value, r).Success?
             && PlanCheckout(c.shop, Content(c, s, l).value, r).value.message == Some(m);
    PlannedMessage(c.shop, Content(c, s, l).value, r);
  }

  /** The lease whose finish made event `k` SUCCEEDED. */
  ghost predicate SucceededBy(s: State, k: W.Key, l: string) {
    exists i :: 0 <= i < |L.Hist(s.lease, k)| && L.Hist(s.lease, k)[i] == L.Finished(l, true)
  }

  /** Exactly one credit is for the payment. */
  ghost predicate CreditedOnce(l: Ledger, externalId: string) {
    exists i :: 0 <= i < |l.credits|
      && l.credits[i].payload.externalPaymentId == externalId
      && forall j :: 0 <= j < |l.credits| && j != i ==> l.credits[j].payload.externalPaymentId != externalId
  }

  /** Nothing completed is lost: a webhook that was SUCCEEDED by its handler and is a paid one-time Checkout has
      exactly one credit for its payment. */
  lemma CompletedIsCreditedOnce(c: Config, t0: Time, payments: P.Table, acts: seq<Action>, k: W.Key, l: string)
    requires SucceededBy(Reached(c, t0, payments, acts), k, l)
    ensures var s := Reached(c, t0, payments, acts);
            && l in s.lease.workers
            && (Content(c, s, l).Some? && IsPaidOneTime(Content(c, s, l).value) ==>
                  CreditedOnce(s.ledger, ExternalId(Content(c, s, l).value.session)))
  {
    var s := Reached(c, t0, payments, acts);
    ExecInv(c, Init(c, t0, payments), acts);
    assert FinishInv(s, k);
    assert ProgressInv(c, s, l);
    if Content(c, s, l).Some? && IsPaidOneTime(Content(c, s, l).value) {
      var id := ExternalId(Content(c, s, l).value.session);
      var i :| 0 <= i < |s.ledger.credits| && s.ledger.credits[i].id == MessageId(id);
      CreditId(c, s, s.ledger.credits[i]);
      MessageIdIsInjective(s.ledger.credits[i].payload.externalPaymentId, id);
      forall j | 0 <= j < |s.ledger.credits| && j != i
        ensures s.ledger.credits[j].payload.externalPaymentId != id
      {
        CreditId(c, s, s.ledger.credits[j]);
      }
    }
  }

  lemma LeasesReached(c: Config, t0: Time, payments: P.Table, acts: seq<Action>)
    requires L.BaseOk(c.lease, t0)
    ensures L.Inv(c.lease, Reached(c, t0, payments, acts).lease)
  {
    RunsProject(c, Init(c, t0, payments), acts);
    LeaseSafety.ReachedInv(c.lease, t0, Projection(c, Init(c, t0, payments), acts));
  }

  /** A row that became SUCCEEDED during the run, also one that was found failed or interrupted at startup, was made so
      by exactly one lease, its own. */
  lemma SucceededRowHasWinner(c: Config, t0: Time, payments: P.Table, acts: seq<Action>, k: W.Key)
    requires L.BaseOk(c.lease, t0)
    requires k in Reached(c, t0, payments, acts).lease.rows
    requires Reached(c, t0, payments, acts).lease.rows[k].status.Succeeded?
    requires !(k in c.lease.base && c.lease.base[k].status.Succeeded?)
    ensures var s := Reached(c, t0, payments, acts);
            forall l :: SucceededBy(s, k, l) <==> l == s.lease.rows[k].leaseId
  {
    var s := Reached(c, t0, payments, acts);
    LeasesReached(c, t0, payments, acts);
    assert L.KeyInv(c.lease, s.lease, k);
    var h := L.Hist(s.lease, k);
    assert h[|h| - 1] == L.Finished(s.lease.rows[k].leaseId, true);
  }

  /** Nothing completed is lost, as the tables show it: when a row became SUCCEEDED during the run and the payload it
      stores is a paid one-time Checkout, that payment has exactly one credit. */
  lemma SucceededRowIsCreditedOnce(c: Config, t0: Time, payments: P.Table, acts: seq<Action>, k: W.Key)
    requires L.BaseOk(c.lease, t0)
    requires k in Reached(c, t0, payments, acts).lease.rows
    requires Reached(c, t0, payments, acts).lease.rows[k].status.Succeeded?
    requires !(k in c.lease.base && c.lease.base[k].status.Succeeded?)
    ensures var s := Reached(c, t0, payments, acts);
            var payload := s.lease.rows[k].payload;
            payload.Some? && c.content(payload.value).Some? && IsPaidOneTime(c.content(payload.value).value) ==>
              CreditedOnce(s.ledger, ExternalId(c.content(payload.value).value.session))
  {
    var s := Reached(c, t0, payments, acts);
    SucceededRowHasWinner(c, t0, payments, acts, k);
    LeasesReached(c, t0, payments, acts);
    assert L.KeyInv(c.lease, s.lease, k);
    CompletedIsCreditedOnce(c, t0, payments, acts, k, s.lease.rows[k].leaseId);
  }

  // ----- Recovery to completion -----

  lemma {:induction false} ExecAppend(c: Config, s: State, a: seq<Action>, b: seq<Action>)
    ensures Exec(c, s, a + b) == Exec(c, Exec(c, s, a), b)
    decreases |a|
  {
    if a == [] {
      assert a + b == b;
    } else {
      assert (a + b)[1..] == a[1..] + b;
      ExecAppend(c, Apply(c, s, a[0]), a[1..], b);
    }
  }

  /** A fresh claim after the lease length has passed. */
  function Recovery(wait: nat, l: string, d: W.Delivery): seq<L.Action> {
    [L.Tick(wait)] + LeaseSafety.Claim(l, d)
  }

  function Lifted(acts: seq<L.Action>): seq<Action> {
    if acts == [] then [] else [Lease(acts[0])] + Lifted(acts[1..])
  }

  /** Lease actions other than finishes can always be interleaved. */
  lemma {:induction false} LiftedRuns(c: Config, s: State, acts: seq<L.Action>)
    requires forall i :: 0 <= i < |acts| ==> !acts[i].Finish?
    ensures Exec(c, s, Lifted(acts)) == s.(lease := L.Exec(c.lease, s.lease, acts))
    decreases |acts|
  {
    if acts == [] {
    } else {
      assert Lifted(acts)[1..] == Lifted(acts[1..]);
      LiftedRuns(c, Apply(c, s, Lease(acts[0])), acts[1..]);
    }
  }

  /** Recording and publishing a paid one-time Checkout, when the calls succeed, leave it ready to finish. */
  lemma RecordAndPublish(c: Config, s: State, l: string, e: Checkout, resolved: Result<string, Error>, now: Time)
    requires Running(s, l) && l !in s.progress
    requires Content(c, s, l) == Some(e) && IsPaidOneTime(e) && PlanCheckout(c.shop, e, resolved).Success?
    ensures var s' := Apply(c, Apply(c, s, Record(l, resolved, now, true)), Publish(l, true, true));
            && s'.lease == s.lease
            && l in s'.progress && s'.progress[l] == Processed(true)
            && MessageId(ExternalId(e.session)) in s'.ledger.fulfilled
  {
    PlannedMessage(c.shop, e, resolved);
  }

  /** The handler of a paid one-time Checkout, run by a worker that holds its lease and whose calls succeed. */
  lemma HandlerCompletes(c: Config, s: State, l: string, e: Checkout, resolved: Result<string, Error>, now: Time)
    requires Running(s, l) && l !in s.progress && W.Holds(s.lease.rows, s.lease.workers[l].delivery.key, l)
    requires Content(c, s, l) == Some(e) && IsPaidOneTime(e) && PlanCheckout(c.shop, e, resolved).Success?
    ensures var s' := Exec(c, s, [Record(l, resolved, now, true), Publish(l, true, true), Lease(L.Finish(l, None))]);
            var k := s.lease.workers[l].delivery.key;
            && k in s'.lease.rows && s'.lease.rows[k].status.Succeeded?
            && MessageId(ExternalId(e.session)) in s'.ledger.fulfilled
  {
    var acts := [Record(l, resolved, now, true), Publish(l, true, true), Lease(L.Finish(l, None))];
    var s1 := Apply(c, s, acts[0]);
    var s2 := Apply(c, s1, acts[1]);
    RecordAndPublish(c, s, l, e, resolved, now);
    assert acts[1..][1..] == [acts[2]] && acts[1..][1..][1..] == [];
    assert Exec(c, s, acts) == Exec(c, s1, acts[1..]) == Exec(c, s2, [acts[2]]);
    assert Exec(c, s2, [acts[2]]) == Apply(c, s2, acts[2]);
  }

  /** A lease that was never delivered has no progress. */
  lemma FreshHasNoProgress(c: Config, t0: Time, payments: P.Table, past: seq<Action>, l: string)
    requires l !in Reached(c, t0, payments, past).lease.workers
    ensures l !in Reached(c, t0, payments, past).progress
  {
    var s := Reached(c, t0, payments, past);
    ExecInv(c, Init(c, t0, payments), past);
    assert l in s.progress ==> ProgressInv(c, s, l);
  }

  /** The claim of `Recoverable`, as part of a fulfilment run. */
  lemma ClaimIsGranted(c: Config, t0: Time, payments: P.Table, past: seq<Action>, wait: nat, l: string, d: W.Delivery)
    requires L.BaseOk(c.lease, t0) && c.lease.lease < wait
    requires L.Fresh(c.lease, Reached(c, t0, payments, past).lease, l) && L.Parses(c.lease, d.key, d.payload)
    requires d.key in Reached(c, t0, payments, past).lease.rows ==>
               !Reached(c, t0, payments, past).lease.rows[d.key].status.Succeeded?
    ensures var s' := Exec(c, Reached(c, t0, payments, past), Lifted(Recovery(wait, l, d)));
            && Running(s', l) && s'.lease.workers[l].delivery == d && W.Holds(s'.lease.rows, d.key, l)
            && s'.progress == Reached(c, t0, payments, past).progress
  {
    var init := Init(c, t0, payments);
    var s, projected := Reached(c, t0, payments, past), Projection(c, init, past);
    RunsProject(c, init, past);
    LeaseSafety.Recoverable(c.lease, t0, projected, wait, l, d);
    LeaseSafety.ExecAppend(c.lease, init.lease, projected, Recovery(wait, l, d));
    assert projected + [L.Tick(wait)] + LeaseSafety.Claim(l, d) == projected + Recovery(wait, l, d);
    LiftedRuns(c, s, Recovery(wait, l, d));
  }

  /** From every reachable state, whatever crashed or failed before, a paid one-time Checkout that has not yet
      succeeded can still be completed: wait for the lease length, deliver it again, and let the handler run. The
      row then is SUCCEEDED and the payment is in the consumer's ledger. */
  lemma CanAlwaysComplete(c: Config, t0: Time, payments: P.Table, past: seq<Action>, wait: nat, l: string,
                          d: W.Delivery, e: Checkout, resolved: Result<string, Error>, now: Time)
    requires L.BaseOk(c.lease, t0) && c.lease.lease < wait
    requires L.Fresh(c.lease, Reached(c, t0, payments, past).lease, l) && L.Parses(c.lease, d.key, d.payload)
    requires c.content(d.payload) == Some(e) && IsPaidOneTime(e) && PlanCheckout(c.shop, e, resolved).Success?
    requires d.key in Reached(c, t0, payments, past).lease.rows ==>
               !Reached(c, t0, payments, past).lease.rows[d.key].status.Succeeded?
    ensures var handle := [Record(l, resolved, now, true), Publish(l, true, true), Lease(L.Finish(l, None))];
            var s' := Exec(c, Reached(c, t0, payments, past), Lifted(Recovery(wait, l, d)) + handle);
            && d.key in s'.lease.rows && s'.lease.rows[d.key].status.Succeeded?
            && MessageId(ExternalId(e.session)) in s'.ledger.fulfilled
  {
    var s := Reached(c, t0, payments, past);
    var handle := [Record(l, resolved, now, true), Publish(l, true, true), Lease(L.Finish(l, None))];
    FreshHasNoProgress(c, t0, payments, past, l);
    ClaimIsGranted(c, t0, payments, past, wait, l, d);
    HandlerCompletes(c, Exec(c, s, Lifted(Recovery(wait, l, d))), l, e, resolved, now);
    ExecAppend(c, s, Lifted(Recovery(wait, l, d)), handle);
  }
}
