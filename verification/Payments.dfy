/** The payment table: a merging upsert, the closed form of any sequence of upserts, and what does not
    depend on their order. */
module Payments {
  import opened Basics

  datatype Status = Pending | Succeeded | Failed | Canceled | Refunded | Disputed | Unrecognized(code: string)

  /** The unique index of the table. */
  datatype Key = Key(provider: string, externalId: string)

  datatype Column = IdentityId | CustomerId | SubscriptionId | PriceId | Kind | Currency

  /** The columns that an upsert writes besides the key. */
  datatype Payment = Payment(
    identityId: string,
    customerId: string,
    subscriptionId: string,
    priceId: string,
    kind: string,
    currency: string,
    amountMinor: int,
    occurredAt: Time,
    status: Status)
  {
    function Text(c: Column): string {
      match c
      case IdentityId => identityId
      case CustomerId => customerId
      case SubscriptionId => subscriptionId
      case PriceId => priceId
      case Kind => kind
      case Currency => currency
    }
  }

  type Table = map<Key, Payment>

  function Rank(s: Status): nat {
    match s
    case Pending => 1
    case Succeeded => 2
    case Canceled => 3
    case Failed => 3
    case Disputed => 4
    case Refunded => 5
    case Unrecognized(_) => 0
  }

  /** A zero timestamp is replaced by the clock before anything is stored. */
  function Stamped(p: Payment, now: Time): Payment {
    if p.occurredAt == 0 then p.(occurredAt := now) else p
  }

  function Keep(old_: string, new_: string): string {
    if new_ != "" then new_ else old_
  }

  /** An existing row after an upsert: nothing is erased, time and rank never go back. */
  function Merge(e: Payment, p: Payment): Payment {
    Payment(
      Keep(e.identityId, p.identityId), Keep(e.customerId, p.customerId),
      Keep(e.subscriptionId, p.subscriptionId), Keep(e.priceId, p.priceId),
      Keep(e.kind, p.kind), Keep(e.currency, p.currency),
      if p.amountMinor != 0 then p.amountMinor else e.amountMinor,
      if p.occurredAt > e.occurredAt then p.occurredAt else e.occurredAt,
      if Rank(p.status) >= Rank(e.status) then p.status else e.status)
  }

  function Upsert(t: Table, k: Key, p: Payment): Table {
    t[k := if k in t then Merge(t[k], p) else p]
  }

  function UpsertAll(t: Table, writes: seq<(Key, Payment)>): Table
    decreases |writes|
  {
    if writes == [] then t else UpsertAll(Upsert(t, writes[0].0, writes[0].1), writes[1..])
  }

  // ----- The update map of one upsert -----

  /** The SET clause that the store assembles step by step. */
  datatype Updates = Updates(
    texts: map<Column, string>, amountMinor: Option<int>, occurredAt: Option<Time>, status: Option<Status>)

  function SetText(e: Payment, u: Updates, c: Column): string {
    if c in u.texts then u.texts[c] else e.Text(c)
  }

  function ApplyUpdates(e: Payment, u: Updates): Payment {
    Payment(
      SetText(e, u, IdentityId), SetText(e, u, CustomerId), SetText(e, u, SubscriptionId),
      SetText(e, u, PriceId), SetText(e, u, Kind), SetText(e, u, Currency),
      if u.amountMinor.Some? then u.amountMinor.value else e.amountMinor,
      if u.occurredAt.Some? then u.occurredAt.value else e.occurredAt,
      if u.status.Some? then u.status.value else e.status)
  }

  /** The update map of the store, assembled column by column in an unspecified order, has exactly the
      effect of the merge. */
  method BuildUpdates(e: Payment, p: Payment) returns (u: Updates)
    ensures ApplyUpdates(e, u) == Merge(e, p)
    ensures forall c :: c in u.texts ==> u.texts[c] == p.Text(c) != ""
  {
    u := Updates(map[], None, None, None);
    var todo: set<Column> := {IdentityId, CustomerId, SubscriptionId, PriceId, Kind, Currency};
    while todo != {}
      invariant u.amountMinor.None? && u.occurredAt.None? && u.status.None?
      invariant forall c :: c in u.texts <==> c !in todo && p.Text(c) != ""
      invariant forall c :: c in u.texts ==> u.texts[c] == p.Text(c)
      decreases todo
    {
      var c :| c in todo;
      todo := todo - {c};
      if p.Text(c) != "" {
        u := u.(texts := u.texts[c := p.Text(c)]);
      }
    }
    if p.amountMinor != 0 {
      u := u.(amountMinor := Some(p.amountMinor));
    }
    if p.occurredAt > e.occurredAt {
      u := u.(occurredAt := Some(p.occurredAt));
    }
    if Rank(p.status) >= Rank(e.status) {
      u := u.(status := Some(p.status));
    }
    forall c: Column ensures SetText(e, u, c) == Keep(e.Text(c), p.Text(c)) {
    }
    assert SetText(e, u, IdentityId) == Keep(e.identityId, p.identityId);
    assert SetText(e, u, CustomerId) == Keep(e.customerId, p.customerId);
    assert SetText(e, u, SubscriptionId) == Keep(e.subscriptionId, p.subscriptionId);
    assert SetText(e, u, PriceId) == Keep(e.priceId, p.priceId);
    assert SetText(e, u, Kind) == Keep(e.kind, p.kind);
    assert SetText(e, u, Currency) == Keep(e.currency, p.currency);
  }

  // ----- Closed form -----

  /** The payloads delivered for one key, in order. */
  function ForKey(writes: seq<(Key, Payment)>, k: Key): seq<Payment> {
    if writes == [] then []
    else
      ForKey(writes[..|writes| - 1], k)
      + if writes[|writes| - 1].0 == k then [writes[|writes| - 1].1] else []
  }

  ghost predicate LastNonEmpty(ps: seq<Payment>, c: Column, v: string) {
    if v == "" then forall i :: 0 <= i < |ps| ==> ps[i].Text(c) == ""
    else exists i :: 0 <= i < |ps| && ps[i].Text(c) == v && forall j :: i < j < |ps| ==> ps[j].Text(c) == ""
  }

  ghost predicate LastNonZero(ps: seq<Payment>, v: int) {
    if v == 0 then forall i :: 0 <= i < |ps| ==> ps[i].amountMinor == 0
    else exists i :: 0 <= i < |ps| && ps[i].amountMinor == v && forall j :: i < j < |ps| ==> ps[j].amountMinor == 0
  }

  ghost predicate Latest(ps: seq<Payment>, t: Time) {
    && (exists i :: 0 <= i < |ps| && ps[i].occurredAt == t)
    && forall i :: 0 <= i < |ps| ==> ps[i].occurredAt <= t
  }

  /** `s` is the status of the last delivery among those of maximal rank. */
  ghost predicate LastOfMaximalRank(ps: seq<Payment>, s: Status) {
    exists i :: 0 <= i < |ps| && ps[i].status == s
      && (forall j :: 0 <= j < i ==> Rank(ps[j].status) <= Rank(s))
      && (forall j :: i < j < |ps| ==> Rank(ps[j].status) < Rank(s))
  }

  /** The row that the deliveries `ps` for one key leave behind. */
  ghost predicate ClosedForm(ps: seq<Payment>, row: Payment) {
    && (forall c :: LastNonEmpty(ps, c, row.Text(c)))
    && LastNonZero(ps, row.amountMinor)
    && Latest(ps, row.occurredAt)
    && LastOfMaximalRank(ps, row.status)
  }

  lemma ExtendText(ps: seq<Payment>, p: Payment, c: Column, v: string)
    requires LastNonEmpty(ps, c, v)
    ensures LastNonEmpty(ps + [p], c, Keep(v, p.Text(c)))
  {
    var qs := ps + [p];
    if p.Text(c) != "" {
      assert qs[|ps|].Text(c) == p.Text(c);
    } else if v != "" {
      var i :| 0 <= i < |ps| && ps[i].Text(c) == v && forall j :: i < j < |ps| ==> ps[j].Text(c) == "";
      assert qs[i].Text(c) == v;
    }
  }

  lemma ExtendNumbers(ps: seq<Payment>, p: Payment, e: Payment)
    requires LastNonZero(ps, e.amountMinor) && Latest(ps, e.occurredAt)
    ensures LastNonZero(ps + [p], Merge(e, p).amountMinor) && Latest(ps + [p], Merge(e, p).occurredAt)
  {
    var qs := ps + [p];
    assert qs[|ps|] == p;
    if p.amountMinor == 0 && e.amountMinor != 0 {
      var i :| 0 <= i < |ps| && ps[i].amountMinor == e.amountMinor
               && forall j :: i < j < |ps| ==> ps[j].amountMinor == 0;
      assert qs[i].amountMinor == e.amountMinor;
    }
    var i :| 0 <= i < |ps| && ps[i].occurredAt == e.occurredAt;
    assert qs[i].occurredAt == e.occurredAt;
  }

  lemma ExtendStatus(ps: seq<Payment>, p: Payment, e: Payment)
    requires LastOfMaximalRank(ps, e.status)
    ensures LastOfMaximalRank(ps + [p], Merge(e, p).status)
  {
    var qs := ps + [p];
    assert qs[|ps|] == p;
    var i :| 0 <= i < |ps| && ps[i].status == e.status
             && (forall j :: 0 <= j < i ==> Rank(ps[j].status) <= Rank(e.status))
             && (forall j :: i < j < |ps| ==> Rank(ps[j].status) < Rank(e.status));
    if Rank(p.status) >= Rank(e.status) {
      assert forall j :: 0 <= j < |ps| ==> Rank(qs[j].status) <= Rank(e.status);
    } else {
      assert qs[i].status == e.status && forall j :: 0 <= j < i ==> Rank(qs[j].status) <= Rank(e.status);
      assert forall j :: i < j < |qs| ==> Rank(qs[j].status) < Rank(e.status);
    }
  }

  lemma MergeExtends(ps: seq<Payment>, p: Payment, e: Payment)
    requires ClosedForm(ps, e)
    ensures ClosedForm(ps + [p], Merge(e, p))
  {
    forall c: Column ensures LastNonEmpty(ps + [p], c, Merge(e, p).Text(c)) {
      ExtendText(ps, p, c, e.Text(c));
    }
    ExtendNumbers(ps, p, e);
    ExtendStatus(ps, p, e);
  }

  lemma First(p: Payment)
    ensures ClosedForm([p], p)
  {
    assert [p][0] == p;
    forall c: Column ensures LastNonEmpty([p], c, p.Text(c)) {
      assert [p][0].Text(c) == p.Text(c);
    }
  }

  lemma {:induction false} UpsertAllLast(t: Table, writes: seq<(Key, Payment)>)
    requires writes != []
    ensures var last := writes[|writes| - 1];
            UpsertAll(t, writes) == Upsert(UpsertAll(t, writes[..|writes| - 1]), last.0, last.1)
    decreases |writes|
  {
    if |writes| > 1 {
      UpsertAllLast(Upsert(t, writes[0].0, writes[0].1), writes[1..]);
      assert writes[1..][..|writes| - 2] == writes[..|writes| - 1][1..];
    } else {
      assert writes[1..] == [] && writes[..0] == [];
    }
  }

  /** After any sequence of upserts over any keys, a key has a row exactly when it was delivered, and the
      row is the closed form of its own deliveries. */
  lemma {:induction false} UpsertsHaveClosedForm(writes: seq<(Key, Payment)>, k: Key)
    ensures var t := UpsertAll(map[], writes);
            && (k in t <==> ForKey(writes, k) != [])
            && (k in t ==> ClosedForm(ForKey(writes, k), t[k]))
    decreases |writes|
  {
    if writes == [] {
    } else {
      var init, last := writes[..|writes| - 1], writes[|writes| - 1];
      UpsertsHaveClosedForm(init, k);
      UpsertAllLast(map[], writes);
      var t := UpsertAll(map[], init);
      if last.0 == k {
        if k in t {
          MergeExtends(ForKey(init, k), last.1, t[k]);
        } else {
          First(last.1);
          assert ForKey(writes, k) == [last.1];
        }
      } else {
        assert ForKey(writes, k) == ForKey(init, k);
      }
    }
  }

  lemma SameText(ps: seq<Payment>, c: Column, v: string, w: string)
    requires LastNonEmpty(ps, c, v) && LastNonEmpty(ps, c, w)
    ensures v == w
  {
  }

  lemma SameStatus(ps: seq<Payment>, a: Status, b: Status)
    requires LastOfMaximalRank(ps, a) && LastOfMaximalRank(ps, b)
    ensures a == b
  {
  }

  lemma SameNumbers(ps: seq<Payment>, a: Payment, b: Payment)
    requires LastNonZero(ps, a.amountMinor) && Latest(ps, a.occurredAt)
    requires LastNonZero(ps, b.amountMinor) && Latest(ps, b.occurredAt)
    ensures a.amountMinor == b.amountMinor && a.occurredAt == b.occurredAt
  {
  }

  lemma TextsDetermine(a: Payment, b: Payment)
    requires forall c: Column :: a.Text(c) == b.Text(c)
    ensures a.identityId == b.identityId && a.customerId == b.customerId
    ensures a.subscriptionId == b.subscriptionId && a.priceId == b.priceId
    ensures a.kind == b.kind && a.currency == b.currency
  {
    assert a.Text(IdentityId) == b.Text(IdentityId) && a.Text(CustomerId) == b.Text(CustomerId);
    assert a.Text(SubscriptionId) == b.Text(SubscriptionId) && a.Text(PriceId) == b.Text(PriceId);
    assert a.Text(Kind) == b.Text(Kind) && a.Text(Currency) == b.Text(Currency);
  }

  /** The closed form determines the row. */
  lemma ClosedFormIsUnique(ps: seq<Payment>, a: Payment, b: Payment)
    requires ClosedForm(ps, a) && ClosedForm(ps, b)
    ensures a == b
  {
    forall c: Column ensures a.Text(c) == b.Text(c) {
      SameText(ps, c, a.Text(c), b.Text(c));
    }
    TextsDetermine(a, b);
    SameStatus(ps, a.status, b.status);
    SameNumbers(ps, a, b);
  }

  /** Delivering the last payload of a row again changes nothing. */
  lemma RedeliveryIsNoOp(e: Payment, p: Payment)
    ensures Merge(p, p) == p
    ensures Merge(Merge(e, p), p) == Merge(e, p)
  {
  }

  /** The row `e` may later become `e'`: rank and time never go back and no text is erased. */
  predicate Advances(e: Payment, e': Payment) {
    && Rank(e.status) <= Rank(e'.status)
    && e.occurredAt <= e'.occurredAt
    && forall c: Column :: e.Text(c) != "" ==> e'.Text(c) != ""
  }

  lemma UpsertAdvances(t: Table, written: Key, p: Payment, k: Key)
    requires k in t
    ensures k in Upsert(t, written, p) && Advances(t[k], Upsert(t, written, p)[k])
  {
    forall c: Column | t[k].Text(c) != "" ensures Upsert(t, written, p)[k].Text(c) != "" {
      if written == k {
        assert Merge(t[k], p).Text(c) == Keep(t[k].Text(c), p.Text(c));
      }
    }
  }

  /** Rank and time of a stored row never go back and nothing is erased, whatever is delivered for whatever key. */
  lemma {:induction false} NeverRegresses(t: Table, writes: seq<(Key, Payment)>, k: Key)
    requires k in t
    ensures k in UpsertAll(t, writes) && Advances(t[k], UpsertAll(t, writes)[k])
    decreases |writes|
  {
    if writes == [] {
    } else {
      UpsertAdvances(t, writes[0].0, writes[0].1, k);
      NeverRegresses(Upsert(t, writes[0].0, writes[0].1), writes[1..], k);
    }
  }

  // ----- Independence of order -----

  /** The deliveries are the same, up to order and repetition. */
  predicate SameDeliveries(ps: seq<Payment>, qs: seq<Payment>) {
    && (forall p :: p in ps ==> p in qs)
    && (forall p :: p in qs ==> p in ps)
  }

  lemma MaximumIsShared(ps: seq<Payment>, qs: seq<Payment>, a: Payment, b: Payment)
    requires forall p :: p in ps ==> p in qs
    requires ClosedForm(ps, a) && ClosedForm(qs, b)
    ensures Rank(a.status) <= Rank(b.status) && a.occurredAt <= b.occurredAt
  {
    var i :| 0 <= i < |ps| && ps[i].status == a.status;
    var m :| 0 <= m < |qs| && qs[m].status == b.status
             && (forall j :: 0 <= j < m ==> Rank(qs[j].status) <= Rank(b.status))
             && (forall j :: m < j < |qs| ==> Rank(qs[j].status) < Rank(b.status));
    assert ps[i] in qs;
    var i' :| 0 <= i' < |qs| && qs[i'] == ps[i];
    assert i' < m || i' == m || i' > m;
    var n :| 0 <= n < |ps| && ps[n].occurredAt == a.occurredAt;
    assert ps[n] in qs;
  }

  /** Rank and time of the row do not depend on the order or number of deliveries; the status itself does
      not either when its rank belongs to one status only. */
  lemma OrderIndependent(ps: seq<Payment>, qs: seq<Payment>, a: Payment, b: Payment)
    requires SameDeliveries(ps, qs)
    requires ClosedForm(ps, a) && ClosedForm(qs, b)
    ensures Rank(a.status) == Rank(b.status)
    ensures a.occurredAt == b.occurredAt
    ensures a.status == b.status || ({a.status, b.status} == {Canceled, Failed})
            || (a.status.Unrecognized? && b.status.Unrecognized?)
  {
    MaximumIsShared(ps, qs, a, b);
    MaximumIsShared(qs, ps, b, a);
  }

  lemma {:induction false} ForKeyMembers(writes: seq<(Key, Payment)>, k: Key, p: Payment)
    ensures p in ForKey(writes, k) <==> (k, p) in writes
  {
    if writes == [] {
    } else {
      var init, last := writes[..|writes| - 1], writes[|writes| - 1];
      ForKeyMembers(init, k, p);
      assert writes == init + [last];
    }
  }

  lemma SharedEmptiness(ps: seq<Payment>, qs: seq<Payment>)
    requires SameDeliveries(ps, qs)
    ensures ps == [] <==> qs == []
  {
    assert ps != [] ==> ps[0] in qs;
    assert qs != [] ==> qs[0] in ps;
  }

  lemma SameWritesSameDeliveries(v: seq<(Key, Payment)>, w: seq<(Key, Payment)>, k: Key)
    requires forall x :: x in v <==> x in w
    ensures SameDeliveries(ForKey(v, k), ForKey(w, k))
    ensures ForKey(v, k) == [] <==> ForKey(w, k) == []
  {
    forall p ensures p in ForKey(v, k) <==> p in ForKey(w, k) {
      ForKeyMembers(v, k, p);
      ForKeyMembers(w, k, p);
    }
    SharedEmptiness(ForKey(v, k), ForKey(w, k));
  }

  /** Two histories of the whole table that made the same writes, in any order and any number of times, hold the
      same keys, and each row agrees in rank and time, and in status unless two statuses share the top rank. */
  lemma ReorderedTablesAgree(v: seq<(Key, Payment)>, w: seq<(Key, Payment)>, k: Key)
    requires forall x :: x in v <==> x in w
    ensures var a, b := UpsertAll(map[], v), UpsertAll(map[], w);
            && (k in a <==> k in b)
            && (k in a ==>
                  && Rank(a[k].status) == Rank(b[k].status) && a[k].occurredAt == b[k].occurredAt
                  && (a[k].status == b[k].status || {a[k].status, b[k].status} == {Canceled, Failed}
                      || (a[k].status.Unrecognized? && b[k].status.Unrecognized?)))
  {
    UpsertsHaveClosedForm(v, k);
    UpsertsHaveClosedForm(w, k);
    SameWritesSameDeliveries(v, w, k);
    if k in UpsertAll(map[], v) {
      OrderIndependent(ForKey(v, k), ForKey(w, k), UpsertAll(map[], v)[k], UpsertAll(map[], w)[k]);
    }
  }

  lemma MaximalRank(ps: seq<Payment>, s: Status)
    requires LastOfMaximalRank(ps, s)
    ensures forall p :: p in ps ==> Rank(p.status) <= Rank(s)
    ensures exists p :: p in ps && p.status == s
  {
  }

  /** The stored status is that of a delivery for the key, and no such delivery outranks it. */
  lemma StatusIsDelivered(writes: seq<(Key, Payment)>, k: Key)
    requires k in UpsertAll(map[], writes)
    ensures var s := UpsertAll(map[], writes)[k].status;
            && (exists p :: p in ForKey(writes, k) && p.status == s)
            && forall p :: p in ForKey(writes, k) ==> Rank(p.status) <= Rank(s)
  {
    UpsertsHaveClosedForm(writes, k);
    MaximalRank(ForKey(writes, k), UpsertAll(map[], writes)[k].status);
  }

  /** The writes for `k` include one of status `s`. */
  ghost predicate Delivers(writes: seq<(Key, Payment)>, k: Key, s: Status) {
    exists p :: p in ForKey(writes, k) && p.status == s
  }

  /** Which status is stored, said of the statuses delivered: REFUNDED if any, else DISPUTED, else FAILED or CANCELED,
      else SUCCEEDED, else PENDING; an unknown one only when there is no other. */
  lemma StatusByPrecedence(writes: seq<(Key, Payment)>, k: Key)
    requires k in UpsertAll(map[], writes)
    ensures var s := UpsertAll(map[], writes)[k].status;
            && Delivers(writes, k, s)
            && (Delivers(writes, k, Refunded) ==> s == Refunded)
            && (Delivers(writes, k, Disputed) ==> s in {Refunded, Disputed})
            && (Delivers(writes, k, Failed) ==> s in {Refunded, Disputed, Failed, Canceled})
            && (Delivers(writes, k, Canceled) ==> s in {Refunded, Disputed, Failed, Canceled})
            && (Delivers(writes, k, Succeeded) ==> s in {Refunded, Disputed, Failed, Canceled, Succeeded})
            && (Delivers(writes, k, Pending) ==> !s.Unrecognized?)
  {
    StatusIsDelivered(writes, k);
  }

  function MovedLast<T>(xs: seq<T>, i: nat): seq<T>
    requires i < |xs|
  {
    xs[..i] + xs[i + 1..] + [xs[i]]
  }

  lemma MovedLastKeepsAll<T>(xs: seq<T>, i: nat)
    requires i < |xs|
    ensures multiset(MovedLast(xs, i)) == multiset(xs)
    ensures forall x :: x in xs[..i] + xs[i + 1..] ==> x in xs
  {
    assert xs == xs[..i] + [xs[i]] + xs[i + 1..];
  }

  /** A write whose status has the rank of the stored status decides the status when it is made last. */
  lemma MovedLastWins(writes: seq<(Key, Payment)>, i: nat, k: Key)
    requires i < |writes| && writes[i].0 == k && k in UpsertAll(map[], writes)
    requires Rank(writes[i].1.status) == Rank(UpsertAll(map[], writes)[k].status)
    ensures k in UpsertAll(map[], MovedLast(writes, i))
    ensures UpsertAll(map[], MovedLast(writes, i))[k].status == writes[i].1.status
  {
    var others, moved := writes[..i] + writes[i + 1..], MovedLast(writes, i);
    assert moved[..|moved| - 1] == others;
    UpsertAllLast(map[], moved);
    if k in UpsertAll(map[], others) {
      StatusIsDelivered(others, k);
      StatusIsDelivered(writes, k);
      MovedLastKeepsAll(writes, i);
      forall p | p in ForKey(others, k) ensures p in ForKey(writes, k) {
        ForKeyMembers(others, k, p);
        ForKeyMembers(writes, k, p);
      }
    }
  }

  /** Reordered writes leave a status that one of the writes of the same rank delivered. */
  lemma ReorderedStatus(writes: seq<(Key, Payment)>, ws: seq<(Key, Payment)>, k: Key)
    requires k in UpsertAll(map[], writes) && multiset(ws) == multiset(writes)
    ensures k in UpsertAll(map[], ws)
    ensures exists p :: p in ForKey(writes, k) && p.status == UpsertAll(map[], ws)[k].status
                        && Rank(p.status) == Rank(UpsertAll(map[], writes)[k].status)
  {
    forall x ensures x in writes <==> x in ws {
      assert x in multiset(writes) <==> x in multiset(ws);
    }
    ReorderedTablesAgree(writes, ws, k);
    StatusIsDelivered(ws, k);
    var p :| p in ForKey(ws, k) && p.status == UpsertAll(map[], ws)[k].status;
    ForKeyMembers(ws, k, p);
    ForKeyMembers(writes, k, p);
  }

  /** The writes leave `s` as the status of `k`. */
  predicate Leaves(writes: seq<(Key, Payment)>, k: Key, s: Status) {
    k in UpsertAll(map[], writes) && UpsertAll(map[], writes)[k].status == s
  }

  lemma DeliveredStatusCanBeStored(writes: seq<(Key, Payment)>, k: Key, p: Payment)
    requires k in UpsertAll(map[], writes) && p in ForKey(writes, k)
    requires Rank(p.status) == Rank(UpsertAll(map[], writes)[k].status)
    ensures exists ws :: multiset(ws) == multiset(writes) && Leaves(ws, k, p.status)
  {
    ForKeyMembers(writes, k, p);
    var i :| 0 <= i < |writes| && writes[i] == (k, p);
    MovedLastKeepsAll(writes, i);
    MovedLastWins(writes, i, k);
    assert Leaves(MovedLast(writes, i), k, p.status);
  }

  lemma StatusIsKeptIff(writes: seq<(Key, Payment)>, k: Key, s: Status)
    requires Leaves(writes, k, s)
    ensures (forall ws :: multiset(ws) == multiset(writes) ==> Leaves(ws, k, s))
            <==> (forall p :: p in ForKey(writes, k) && Rank(p.status) == Rank(s) ==> p.status == s)
  {
    if forall p :: p in ForKey(writes, k) && Rank(p.status) == Rank(s) ==> p.status == s {
      forall ws | multiset(ws) == multiset(writes) ensures Leaves(ws, k, s) {
        ReorderedStatus(writes, ws, k);
      }
    } else {
      var p :| p in ForKey(writes, k) && Rank(p.status) == Rank(s) && p.status != s;
      DeliveredStatusCanBeStored(writes, k, p);
      var ws :| multiset(ws) == multiset(writes) && Leaves(ws, k, p.status);
      assert !Leaves(ws, k, s);
    }
  }

  /** No delivery outranks `p`. */
  predicate Unrivalled(ps: seq<Payment>, p: Payment) {
    p in ps && forall q :: q in ps ==> Rank(q.status) <= Rank(p.status)
  }

  /** Exactly when the status stored for a key does not depend on the order of the writes to the table: all those
      deliveries for the key that no other one outranks carry the same status. */
  lemma StatusIgnoresOrderIff(writes: seq<(Key, Payment)>, k: Key, s: Status)
    requires Leaves(writes, k, s)
    ensures var ps := ForKey(writes, k);
            (forall ws :: multiset(ws) == multiset(writes) ==> Leaves(ws, k, s))
            <==> (forall p, q :: Unrivalled(ps, p) && Unrivalled(ps, q) ==> p.status == q.status)
  {
    var ps := ForKey(writes, k);
    StatusIsKeptIff(writes, k, s);
    StatusIsDelivered(writes, k);
    var last :| last in ps && last.status == s;
    assert Unrivalled(ps, last);
    forall p ensures Unrivalled(ps, p) <==> p in ps && Rank(p.status) == Rank(s) {
    }
  }

  lemma TwoWrites(k: Key, p: Payment, q: Payment)
    ensures UpsertAll(map[], [(k, p), (k, q)]) == map[k := Merge(p, q)]
  {
    var t: Table := map[];
    assert [(k, p), (k, q)][1..] == [(k, q)] && [(k, q)][1..] == [];
    assert UpsertAll(Upsert(t, k, p), [(k, q)]) == Upsert(Upsert(t, k, p), k, q);
  }

  /** CANCELED and FAILED overwrite each other: the later of the two is stored. */
  lemma CanceledAndFailedDependOnOrder(k: Key, canceled: Payment, failed: Payment)
    requires canceled.status == Canceled && failed.status == Failed
    ensures Leaves([(k, canceled), (k, failed)], k, Failed)
    ensures Leaves([(k, failed), (k, canceled)], k, Canceled)
  {
    TwoWrites(k, canceled, failed);
    TwoWrites(k, failed, canceled);
  }
}
