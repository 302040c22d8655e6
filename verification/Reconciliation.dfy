/** The reconciliation loop: page through the subscriptions, refresh each from its provider, then clean up. */
module Reconciliation {
  import opened Basics
  import opened Store
  import S = Subscriptions
  import W = Webhooks

  /** What the provider of a subscription answers: none can reconcile it, the refresh fails before it writes, or here is
      its current state and how the refresh goes on after that is stored. */
  datatype Answer =
    | NoReconciler
    | Failed(err: Error)
    | Current(key: S.Key, sub: S.Subscription, later: Option<Error>)

  /** The answer to the n-th visit, given the listed row. */
  type Providers = (nat, S.Key, S.Stored) -> Answer

  /** Providers answer about the subscription they are asked about. */
  ghost predicate Faithful(providers: Providers) {
    forall n: nat, k, row :: providers(n, k, row).Current? ==> providers(n, k, row).key == k
  }

  function RowAfter(row: S.Stored, a: Answer): S.Stored {
    if a.Current? && !S.OwnedByOther(row.sub, a.sub) then row.(sub := S.Merge(row.sub, a.sub)) else row
  }

  function VisitError(row: S.Stored, a: Answer): Option<Error> {
    match a
    case NoReconciler => None
    case Failed(err) => Some(err)
    case Current(_, sub, later) => if S.OwnedByOther(row.sub, sub) then Some(OwnershipConflict) else later
  }

  function AsSeq(e: Option<Error>): seq<Error> {
    if e.Some? then [e.value] else []
  }

  /** One error for each of the first `n` rows whose visit fails, in order. */
  function VisitErrors(t: S.Table, providers: Providers, n: nat): seq<Error>
    requires S.Valid(t) && n <= |t.order|
  {
    if n == 0 then []
    else
      var k := t.order[n - 1];
      VisitErrors(t, providers, n - 1) + AsSeq(VisitError(t.rows[k], providers(n - 1, k, t.rows[k])))
  }

  /** A refresh is refused when the row is another identity's. */
  predicate Conflicts(row: S.Stored, a: Answer)
    requires a.Current?
  {
    row.sub.identityId != "" && a.sub.identityId != "" && row.sub.identityId != a.sub.identityId
  }

  /** The visit of `row`, answered `a`, fails with `e`: the provider failed, or the row is another identity's, or what
      follows the update failed. */
  predicate FailsWith(row: S.Stored, a: Answer, e: Error) {
    || (a.Failed? && e == a.err)
    || (a.Current? && Conflicts(row, a) && e == OwnershipConflict)
    || (a.Current? && !Conflicts(row, a) && a.later == Some(e))
  }

  predicate Fails(row: S.Stored, a: Answer) {
    a.Failed? || (a.Current? && (Conflicts(row, a) || a.later.Some?))
  }

  function Answered(t: S.Table, providers: Providers, i: nat): Answer
    requires S.Valid(t) && i < |t.order|
  {
    providers(i, t.order[i], t.rows[t.order[i]])
  }

  /** `failing` are, in ascending order, those of the first `n` rows whose visit fails, and `errors` are their errors,
      one each and in the same order. */
  ghost predicate ErrorsOf(t: S.Table, providers: Providers, n: nat, failing: seq<nat>, errors: seq<Error>)
    requires S.Valid(t) && n <= |t.order|
  {
    && |errors| == |failing|
    && (forall i, j :: 0 <= i < j < |failing| ==> failing[i] < failing[j])
    && (forall i: nat :: i in failing <==> i < n && Fails(t.rows[t.order[i]], Answered(t, providers, i)))
    && (forall j :: 0 <= j < |failing| ==>
          failing[j] < n && FailsWith(t.rows[t.order[failing[j]]], Answered(t, providers, failing[j]), errors[j]))
  }

  /** No visit of the first `n` rows fails. */
  ghost predicate AllSucceed(t: S.Table, providers: Providers, n: nat)
    requires S.Valid(t) && n <= |t.order|
  {
    forall i :: 0 <= i < n ==> !Fails(t.rows[t.order[i]], Answered(t, providers, i))
  }

  lemma VisitErrorIs(row: S.Stored, a: Answer)
    ensures VisitError(row, a).Some? <==> Fails(row, a)
    ensures VisitError(row, a).Some? ==> FailsWith(row, a, VisitError(row, a).value)
  {
  }

  lemma NextSucceeds(t: S.Table, providers: Providers, n: nat, failing: seq<nat>, errors: seq<Error>)
    requires S.Valid(t) && n < |t.order| && ErrorsOf(t, providers, n, failing, errors)
    requires !Fails(t.rows[t.order[n]], Answered(t, providers, n))
    ensures ErrorsOf(t, providers, n + 1, failing, errors)
  {
  }

  lemma NextFails(t: S.Table, providers: Providers, n: nat, failing: seq<nat>, errors: seq<Error>, e: Error)
    requires S.Valid(t) && n < |t.order| && ErrorsOf(t, providers, n, failing, errors)
    requires Fails(t.rows[t.order[n]], Answered(t, providers, n))
    requires FailsWith(t.rows[t.order[n]], Answered(t, providers, n), e)
    ensures ErrorsOf(t, providers, n + 1, failing + [n], errors + [e])
  {
    var next := failing + [n];
    forall i: nat ensures i in next <==> i < n + 1 && Fails(t.rows[t.order[i]], Answered(t, providers, i)) {
      assert i in next <==> i in failing || i == n;
    }
    forall j | 0 <= j < |failing| ensures failing[j] < n {
      assert failing[j] in failing;
    }
  }

  lemma {:induction false} VisitErrorsAre(t: S.Table, providers: Providers, n: nat) returns (failing: seq<nat>)
    requires S.Valid(t) && n <= |t.order|
    ensures ErrorsOf(t, providers, n, failing, VisitErrors(t, providers, n))
  {
    if n == 0 {
      failing := [];
    } else {
      var row, a := t.rows[t.order[n - 1]], Answered(t, providers, n - 1);
      failing := VisitErrorsAre(t, providers, n - 1);
      VisitErrorIs(row, a);
      if Fails(row, a) {
        NextFails(t, providers, n - 1, failing, VisitErrors(t, providers, n - 1), VisitError(row, a).value);
        failing := failing + [n - 1];
      } else {
        NextSucceeds(t, providers, n - 1, failing, VisitErrors(t, providers, n - 1));
        assert VisitErrors(t, providers, n) == VisitErrors(t, providers, n - 1);
      }
    }
  }

  lemma NoErrorsIff(t: S.Table, providers: Providers, n: nat, failing: seq<nat>, errors: seq<Error>)
    requires S.Valid(t) && n <= |t.order| && ErrorsOf(t, providers, n, failing, errors)
    ensures errors == [] <==> AllSucceed(t, providers, n)
  {
    if errors != [] {
      assert failing[0] in failing;
    }
    if i: nat :| i < n && Fails(t.rows[t.order[i]], Answered(t, providers, i)) {
      assert i in failing;
    }
  }

  /** The table after the first `n` rows have been visited in primary-key order. */
  function Sweep(t0: S.Table, providers: Providers, n: nat): S.Table
    requires S.Valid(t0) && n <= |t0.order|
  {
    if n == 0 then t0
    else
      var t, k := Sweep(t0, providers, n - 1), t0.order[n - 1];
      var a := providers(n - 1, k, t0.rows[k]);
      if a.Current? then S.Upsert(t, a.key, a.sub) else t
  }

  /** Each of the first `n` rows has been refreshed once, from the state it had before the loop, in place; the
      others are as before; no row was added, removed or renumbered. */
  ghost predicate Visited(t0: S.Table, t: S.Table, providers: Providers, n: nat)
    requires S.Valid(t0)
  {
    && S.Valid(t) && n <= |t0.order|
    && t.order == t0.order && t.rows.Keys == t0.rows.Keys
    && forall i :: 0 <= i < |t0.order| ==>
         var k := t0.order[i];
         t.rows[k] == if i < n then RowAfter(t0.rows[k], providers(i, k, t0.rows[k])) else t0.rows[k]
  }

  lemma VisitStep(t0: S.Table, t: S.Table, providers: Providers, n: nat, a: Answer)
    requires S.Valid(t0) && Visited(t0, t, providers, n) && n < |t0.order| && Faithful(providers)
    requires a == providers(n, t0.order[n], t0.rows[t0.order[n]])
    ensures Visited(t0, if a.Current? then S.Upsert(t, a.key, a.sub) else t, providers, n + 1)
  {
    var k := t0.order[n];
    assert t.rows[k] == t0.rows[k];
    if a.Current? {
      S.UpsertValid(t, k, a.sub);
      S.UpsertInPlace(t, k, a.sub);
    }
    forall i | 0 <= i < |t0.order| && i != n ensures t0.order[i] != k {
      assert S.IdAt(t0, i) != S.IdAt(t0, n);
    }
  }

  /** A sweep refreshes every row it has passed exactly once. */
  lemma {:induction false} SweepVisits(t0: S.Table, providers: Providers, n: nat)
    requires S.Valid(t0) && n <= |t0.order| && Faithful(providers)
    ensures Visited(t0, Sweep(t0, providers, n), providers, n)
  {
    if n == 0 {
    } else {
      SweepVisits(t0, providers, n - 1);
      VisitStep(t0, Sweep(t0, providers, n - 1), providers, n - 1,
                providers(n - 1, t0.order[n - 1], t0.rows[t0.order[n - 1]]));
    }
  }

  /** What a sweep makes of each row it has passed: the columns that the provider answered, under the first owner and
      with the last provider data; a row that is another identity's, or was not answered or not passed, is as before. */
  lemma SweptColumns(t0: S.Table, providers: Providers, n: nat, i: nat)
    requires S.Valid(t0) && n <= |t0.order| && i < |t0.order| && Faithful(providers)
    ensures var k, t := t0.order[i], Sweep(t0, providers, n);
            var row, a := t0.rows[k], Answered(t0, providers, i);
            && k in t.rows && t.rows[k].id == row.id
            && if i < n && a.Current? && !Conflicts(row, a) then
                 var sub := t.rows[k].sub;
                 && sub.customerId == a.sub.customerId && sub.planCode == a.sub.planCode && sub.status == a.sub.status
                 && sub.periodStart == a.sub.periodStart && sub.periodEnd == a.sub.periodEnd
                 && sub.cancelAt == a.sub.cancelAt && sub.cancelAtPeriodEnd == a.sub.cancelAtPeriodEnd
                 && sub.identityId == (if row.sub.identityId == "" then a.sub.identityId else row.sub.identityId)
                 && sub.providerData == (if a.sub.providerData == "" then row.sub.providerData else a.sub.providerData)
               else t.rows[k] == row
  {
    SweepVisits(t0, providers, n);
  }

  /** The row ID after which the `n`-th row has been read. */
  function ReadUpTo(t: S.Table, n: nat): nat
    requires S.Valid(t) && n <= |t.order|
  {
    if n == 0 then 0 else S.IdAt(t, n - 1)
  }

  /** Where a page of `batch` rows from the `n`-th on ends. */
  function PageEnd(t: S.Table, n: nat, batch: nat): nat {
    if n + batch < |t.order| then n + batch else |t.order|
  }

  /** The listing after the `n`-th row is the next stretch of the primary-key order. */
  lemma NextPage(t: S.Table, n: nat, afterId: nat, batch: nat)
    requires S.Valid(t) && n <= |t.order|
    requires afterId == ReadUpTo(t, n)
    ensures S.ListAfter(t, afterId, batch) == t.order[n..PageEnd(t, n, batch)]
  {
    S.AboveIsSuffix(t, 0, n, afterId);
  }

  /** During a sweep, the next page holds the next rows, with the contents they had before it. */
  lemma PageDuringSweep(t0: S.Table, providers: Providers, n: nat, batch: nat)
    requires S.Valid(t0) && n <= |t0.order| && Faithful(providers)
    ensures var t := Sweep(t0, providers, n);
            var end := PageEnd(t0, n, batch);
            && S.Valid(t) && t.order == t0.order
            && S.ListAfter(t, ReadUpTo(t0, n), batch) == t0.order[n..end]
            && forall i :: n <= i < |t0.order| ==> t0.order[i] in t.rows && t.rows[t0.order[i]] == t0.rows[t0.order[i]]
  {
    SweepVisits(t0, providers, n);
    NextPage(Sweep(t0, providers, n), n, ReadUpTo(t0, n), batch);
  }

  /** The same, row by row. */
  lemma ListedPage(t0: S.Table, providers: Providers, n: nat, batch: nat)
    requires S.Valid(t0) && n <= |t0.order| && Faithful(providers)
    ensures var t := Sweep(t0, providers, n);
            && S.Valid(t)
            && var items := S.ListAfter(t, ReadUpTo(t0, n), batch);
            && |items| == PageEnd(t0, n, batch) - n
            && (forall i :: 0 <= i < |items| ==>
                  var k := items[i];
                  k == t0.order[n + i] && k in t.rows && k in t0.rows && t.rows[k] == t0.rows[k])
            && (items != [] ==> t.rows[items[|items| - 1]].id == ReadUpTo(t0, n + |items|))
  {
    PageDuringSweep(t0, providers, n, batch);
  }

  lemma NextMultiple(n: nat, batch: nat)
    ensures (n + 1) * batch == n * batch + batch
  {
  }

  class Service {
    const store: PaymentSystemStore
    const retention: Time

    constructor (store: PaymentSystemStore, retention: Time)
      ensures this.store == store && this.retention == retention
    {
      this.store, this.retention := store, retention;
    }

    /** One visit: ask the provider, merge what it answers into the row, and note a failure. */
    method Refresh(ghost t0: S.Table, n: nat, k: S.Key, row: S.Stored, providers: Providers, errors: seq<Error>)
      returns (all: seq<Error>)
      requires S.Valid(t0) && n < |t0.order| && k == t0.order[n] && row == t0.rows[k] && Faithful(providers)
      requires store.subscriptions == Sweep(t0, providers, n) && errors == VisitErrors(t0, providers, n)
      modifies store`subscriptions
      ensures store.subscriptions == Sweep(t0, providers, n + 1)
      ensures all == VisitErrors(t0, providers, n + 1)
    {
      SweepVisits(t0, providers, n);
      match providers(n, k, row)
      case NoReconciler => return errors;
      case Failed(e) => return errors + [e];
      case Current(key, sub, later) =>
        assert store.subscriptions.rows[k] == row;
        var err := store.UpsertSubscription(key, sub);
        if err.None? {
          err := later;
        }
        return errors + AsSeq(err);
    }

    /** Visit the rows of one page, as they were listed, from the `first`-th on. */
    method VisitPage(ghost t0: S.Table, first: nat, items: seq<S.Key>, listed: map<S.Key, S.Stored>,
                     providers: Providers, errors: seq<Error>)
      returns (all: seq<Error>)
      requires S.Valid(t0) && Faithful(providers)
      requires first + |items| <= |t0.order|
      requires forall i :: 0 <= i < |items| ==>
                 var k := items[i];
                 k == t0.order[first + i] && k in listed && k in t0.rows && listed[k] == t0.rows[k]
      requires store.subscriptions == Sweep(t0, providers, first)
      requires errors == VisitErrors(t0, providers, first)
      modifies store`subscriptions
      ensures store.subscriptions == Sweep(t0, providers, first + |items|)
      ensures all == VisitErrors(t0, providers, first + |items|)
    {
      all := errors;
      var n := first;
      for i := 0 to |items|
        invariant n == first + i
        invariant store.subscriptions == Sweep(t0, providers, n)
        invariant all == VisitErrors(t0, providers, n)
      {
        all := Refresh(t0, n, items[i], listed[items[i]], providers, all);
        n := n + 1;
      }
    }

    /** List the page after `afterId` and visit its rows. */
    method ReadPage(ghost t0: S.Table, n: nat, afterId: nat, batch: nat, providers: Providers, errors: seq<Error>)
      returns (read: nat, lastId: nat, all: seq<Error>)
      requires S.Valid(t0) && n <= |t0.order| && Faithful(providers)
      requires store.subscriptions == Sweep(t0, providers, n)
      requires afterId == ReadUpTo(t0, n) && errors == VisitErrors(t0, providers, n)
      modifies store`subscriptions
      ensures read == PageEnd(t0, n, batch) - n
      ensures store.subscriptions == Sweep(t0, providers, n + read)
      ensures lastId == ReadUpTo(t0, n + read) && all == VisitErrors(t0, providers, n + read)
    {
      ListedPage(t0, providers, n, batch);
      var items := S.ListAfter(store.subscriptions, afterId, batch);
      read, lastId := |items|, afterId;
      if items != [] {
        lastId := store.subscriptions.rows[items[|items| - 1]].id;
      }
      all := VisitPage(t0, n, items, store.subscriptions.rows, providers, errors);
    }

    /** The paging loop. */
    method ReadPages(ghost t0: S.Table, batch: nat, providers: Providers, listing: nat -> Option<Error>)
      returns (errors: seq<Error>, visited: nat, pages: nat, stopped: Option<Error>)
      requires 0 < batch && S.Valid(t0) && Faithful(providers) && store.subscriptions == t0
      modifies store`subscriptions
      ensures visited <= |t0.order| && store.subscriptions == Sweep(t0, providers, visited)
      ensures errors == VisitErrors(t0, providers, visited)
      ensures stopped.None? ==> visited == |t0.order|
      ensures stopped.Some? ==> visited == pages * batch && listing(pages) == stopped
      ensures forall p :: 0 <= p < pages ==> listing(p).None?
    {
      var afterId, more := 0, true;
      errors, visited, pages, stopped := [], 0, 0, None;
      while more
        invariant visited <= |t0.order| && store.subscriptions == Sweep(t0, providers, visited)
        invariant afterId == ReadUpTo(t0, visited)
        invariant errors == VisitErrors(t0, providers, visited)
        invariant forall p :: 0 <= p < pages ==> listing(p).None?
        invariant stopped.Some? ==> !more && listing(pages) == stopped
        invariant if more || stopped.Some? then visited == pages * batch else visited == |t0.order|
        decreases |t0.order| - visited, more
      {
        stopped := listing(pages);
        if stopped.Some? {
          more := false;
        } else {
          var read;
          read, afterId, errors := ReadPage(t0, visited, afterId, batch, providers, errors);
          NextMultiple(pages, batch);
          visited, pages := visited + read, pages + 1;
          more := read == batch;
        }
      }
    }

    /** Unless a listing fails, every row is visited exactly once, in ascending primary-key order, and refreshed
        in place (`SweepVisits`, `SweptColumns`), whatever the other providers answer. Each failing row adds exactly
        its own error, in order: `failing` are these rows and `visits` their errors. The cleanup runs in every case.
        When the listing of page `pages` fails, exactly the rows of the earlier pages have been visited. `listing(p)`
        is the error of the p-th listing, if any; `stopped` is the one that ended the loop. */
    method Reconcile(batch: nat, providers: Providers, listing: nat -> Option<Error>, cleanup: Option<Error>, now: Time)
      returns (errors: seq<Error>, visited: nat, pages: nat, stopped: Option<Error>,
               ghost failing: seq<nat>, ghost visits: seq<Error>)
      requires 0 < batch && S.Valid(store.subscriptions) && Faithful(providers)
      modifies store`subscriptions, store`webhooks
      ensures visited <= |old(store.subscriptions).order|
      ensures store.subscriptions == Sweep(old(store.subscriptions), providers, visited)
      ensures stopped.None? ==> visited == |old(store.subscriptions).order|
      ensures stopped.Some? ==> visited == pages * batch && listing(pages) == stopped
      ensures forall p :: 0 <= p < pages ==> listing(p).None?
      ensures ErrorsOf(old(store.subscriptions), providers, visited, failing, visits)
      ensures errors == visits + (if stopped.Some? then [stopped.value] else [])
                        + (if cleanup.Some? then [cleanup.value] else [])
      ensures errors == [] <==>
                stopped.None? && cleanup.None? && AllSucceed(old(store.subscriptions), providers, visited)
      ensures cleanup.None? ==> store.webhooks == W.CleanupStatement(old(store.webhooks), now - retention)
      ensures cleanup.Some? ==> store.webhooks == old(store.webhooks)
    {
      ghost var t0 := store.subscriptions;
      errors, visited, pages, stopped := ReadPages(t0, batch, providers, listing);
      visits := errors;
      failing := VisitErrorsAre(t0, providers, visited);
      NoErrorsIff(t0, providers, visited, failing, visits);
      if stopped.Some? {
        errors := errors + [stopped.value];
      }
      if cleanup.Some? {
        errors := errors + [cleanup.value];
      } else {
        store.CleanupWebhookPayloads(now - retention);
      }
    }
  }

  // ----- Paging while other workers insert -----

  /** Between two listings rows may be inserted and updated, but not removed or renumbered. */
  ghost predicate Grows(t: S.Table, t': S.Table) {
    && S.Valid(t) && S.Valid(t')
    && t.order <= t'.order
    && forall i :: 0 <= i < |t.order| ==> S.IdAt(t', i) == S.IdAt(t, i)
  }

  /** The keys read by successive listings, the i-th on snapshot `ts[i]`, until a page comes up short or the
      snapshots run out. */
  ghost function Pages(ts: seq<S.Table>, afterId: nat, batch: nat): seq<S.Key>
    requires forall i :: 0 <= i < |ts| ==> S.Valid(ts[i])
  {
    if ts == [] then []
    else
      var page := S.ListAfter(ts[0], afterId, batch);
      if |page| < batch || page == [] || page[|page| - 1] !in ts[0].rows then page
      else page + Pages(ts[1..], ts[0].rows[page[|page| - 1]].id, batch)
  }

  lemma Slices<T>(a: seq<T>, b: seq<T>, n: nat, k: nat, m: nat)
    requires a <= b && n <= k <= |a| && k <= m <= |b|
    ensures b[n..m] == a[n..k] + b[k..m]
  {
  }

  lemma PageUpTo(t: S.Table, n: nat, batch: nat, stop: nat)
    requires S.Valid(t) && n <= |t.order| && 0 < batch
    requires stop == PageEnd(t, n, batch)
    ensures var page := S.ListAfter(t, ReadUpTo(t, n), batch);
            && page == t.order[n..stop] && |page| == stop - n
            && (page != [] ==> page[|page| - 1] in t.rows && t.rows[page[|page| - 1]].id == ReadUpTo(t, stop))
  {
    NextPage(t, n, ReadUpTo(t, n), batch);
    assert stop > n ==> t.order[n..stop][stop - n - 1] == t.order[stop - 1];
  }

  /** One listing: the next stretch of the order, and where the following listing starts. */
  lemma NextListing(ts: seq<S.Table>, n: nat, batch: nat, stop: nat)
    requires ts != [] && 0 < batch && forall i :: 0 <= i < |ts| ==> S.Valid(ts[i])
    requires n <= |ts[0].order|
    requires stop == PageEnd(ts[0], n, batch)
    ensures var rest := if stop == n + batch then Pages(ts[1..], ReadUpTo(ts[0], stop), batch) else [];
            Pages(ts, ReadUpTo(ts[0], n), batch) == ts[0].order[n..stop] + rest
  {
    PageUpTo(ts[0], n, batch, stop);
  }

  /** What paging from the `n`-th row reads is the rows up to the `m`-th of snapshot `last`. */
  ghost predicate ReadsUpTo(ts: seq<S.Table>, n: nat, batch: nat, last: nat, m: nat)
    requires ts != [] && forall i :: 0 <= i < |ts| ==> S.Valid(ts[i])
    requires n <= |ts[0].order|
  {
    && last < |ts| && n <= m <= |ts[last].order| && ts[0].order <= ts[last].order
    && Pages(ts, ReadUpTo(ts[0], n), batch) == ts[last].order[n..m]
    && (m == |ts[last].order| || last == |ts| - 1)
  }

  lemma ReadOnce(ts: seq<S.Table>, n: nat, batch: nat)
    requires ts != [] && 0 < batch && forall i :: 0 <= i < |ts| ==> S.Valid(ts[i])
    requires n <= |ts[0].order| && (|ts| == 1 || |ts[0].order| < n + batch)
    ensures ReadsUpTo(ts, n, batch, 0, PageEnd(ts[0], n, batch))
  {
    NextListing(ts, n, batch, PageEnd(ts[0], n, batch));
  }

  lemma ReadOn(ts: seq<S.Table>, n: nat, batch: nat, last: nat, m: nat)
    requires 1 < |ts| && 0 < batch && forall i :: 0 <= i < |ts| ==> S.Valid(ts[i])
    requires n + batch <= |ts[0].order| && Grows(ts[0], ts[1])
    requires ReadsUpTo(ts[1..], n + batch, batch, last, m)
    ensures ReadsUpTo(ts, n, batch, last + 1, m)
  {
    NextListing(ts, n, batch, n + batch);
    Slices(ts[0].order, ts[last + 1].order, n, n + batch, m);
  }

  /** The table as successive listings find it. */
  ghost predicate Snapshots(ts: seq<S.Table>) {
    && (forall i :: 0 <= i < |ts| ==> S.Valid(ts[i]))
    && (forall i :: 0 <= i < |ts| - 1 ==> Grows(ts[i], ts[i + 1]))
  }

  lemma TailSnapshots(ts: seq<S.Table>)
    requires ts != [] && Snapshots(ts)
    ensures Snapshots(ts[1..])
  {
    forall i | 0 <= i < |ts| - 2 ensures Grows(ts[1..][i], ts[1..][i + 1]) {
      assert Grows(ts[i + 1], ts[i + 2]);
    }
  }

  /** Paging reads, each exactly once and in ascending order, the rows that follow the starting point in the
      snapshot of its last listing, including rows inserted while it ran; and unless it runs out of listings it
      reads all of them. */
  lemma {:induction false} PagingUnderInterference(ts: seq<S.Table>, n: nat, batch: nat) returns (last: nat, m: nat)
    requires ts != [] && 0 < batch && Snapshots(ts)
    requires n <= |ts[0].order|
    ensures ReadsUpTo(ts, n, batch, last, m)
    decreases |ts|
  {
    if |ts| == 1 || |ts[0].order| < n + batch {
      ReadOnce(ts, n, batch);
      last, m := 0, PageEnd(ts[0], n, batch);
    } else {
      assert Grows(ts[0], ts[1]);
      TailSnapshots(ts);
      var l, e := PagingUnderInterference(ts[1..], n + batch, batch);
      ReadOn(ts, n, batch, l, e);
      last, m := l + 1, e;
    }
  }
}
