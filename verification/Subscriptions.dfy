/**
 The subscription table. An upsert is two separate statements, an insert that does nothing on conflict and
 a transaction that merges into the existing row, so any sequence of single statements covers every
 interleaving of concurrent upserts.
 */
module Subscriptions {
  import opened Basics

  datatype Status = Active | Trialing | PastDue | Canceled | Expired | Refunded | Revoked

  /** The unique index of the table. */
  datatype Key = Key(provider: string, externalId: string)

  /** The columns that an upsert writes besides the key. */
  datatype Subscription = Subscription(
    identityId: string,
    customerId: string,
    planCode: string,
    status: Status,
    periodStart: Time,
    periodEnd: Time,
    cancelAt: Option<Time>,
    cancelAtPeriodEnd: bool,
    providerData: string)

  datatype Stored = Stored(id: nat, sub: Subscription)

  /** `order` lists the keys by ascending primary key. IDs start at 1, are never reused, and one is
      consumed by every attempted insert. */
  datatype Table = Table(rows: map<Key, Stored>, order: seq<Key>, nextId: nat)

  const EMPTY := Table(map[], [], 1)

  function IdAt(t: Table, i: nat): nat
    requires i < |t.order| && t.order[i] in t.rows
  {
    t.rows[t.order[i]].id
  }

  ghost predicate Valid(t: Table) {
    && 0 < t.nextId
    && (forall k :: k in t.order <==> k in t.rows)
    && (forall i :: 0 <= i < |t.order| ==> 0 < IdAt(t, i) < t.nextId)
    && (forall i, j :: 0 <= i < j < |t.order| ==> IdAt(t, i) < IdAt(t, j))
  }

  datatype Statement = InsertRow(key: Key, write: Subscription) | UpdateRow(key: Key, write: Subscription)

  datatype Outcome = Inserted | Conflicted | Updated | Rejected | NotFound

  predicate OwnedByOther(e: Subscription, w: Subscription) {
    e.identityId != "" && w.identityId != "" && e.identityId != w.identityId
  }

  function Merge(e: Subscription, w: Subscription): Subscription {
    w.(identityId := if e.identityId == "" && w.identityId != "" then w.identityId else e.identityId,
       providerData := if w.providerData != "" then w.providerData else e.providerData)
  }

  function Decide(t: Table, s: Statement): Outcome {
    match s
    case InsertRow(k, w) => if k in t.rows then Conflicted else Inserted
    case UpdateRow(k, w) =>
      if k !in t.rows then NotFound
      else if OwnedByOther(t.rows[k].sub, w) then Rejected
      else Updated
  }

  function Execute(t: Table, s: Statement): Table {
    match Decide(t, s)
    case Inserted => Table(t.rows[s.key := Stored(t.nextId, s.write)], t.order + [s.key], t.nextId + 1)
    case Conflicted => t.(nextId := t.nextId + 1)
    case Updated => t.(rows := t.rows[s.key := t.rows[s.key].(sub := Merge(t.rows[s.key].sub, s.write))])
    case Rejected => t
    case NotFound => t
  }

  function Run(t: Table, ss: seq<Statement>): Table {
    if ss == [] then t else Execute(Run(t, ss[..|ss| - 1]), ss[|ss| - 1])
  }

  predicate IsAccepted(o: Outcome) {
    o.Inserted? || o.Updated?
  }

  /** The writes to `k` that took effect, in order. */
  function Accepted(t: Table, ss: seq<Statement>, k: Key): seq<Subscription> {
    if ss == [] then []
    else
      var init, s := ss[..|ss| - 1], ss[|ss| - 1];
      Accepted(t, init, k) + if s.key == k && IsAccepted(Decide(Run(t, init), s)) then [s.write] else []
  }

  lemma InsertAppends(t: Table, k: Key, w: Subscription)
    requires Valid(t) && k !in t.rows
    ensures var t' := Execute(t, InsertRow(k, w));
            && (forall j :: j in t'.order <==> j in t'.rows)
            && (forall i :: 0 <= i < |t'.order| ==>
                  IdAt(t', i) == if i < |t.order| then IdAt(t, i) else t.nextId)
  {
    var t' := Execute(t, InsertRow(k, w));
    assert t'.order == t.order + [k];
    forall i | 0 <= i < |t.order| ensures t.order[i] != k {
      assert t.order[i] in t.order;
    }
    forall j ensures j in t'.order <==> j in t'.rows {
      assert j in t'.order <==> j in t.order || j == k;
    }
  }

  lemma InsertValid(t: Table, k: Key, w: Subscription)
    requires Valid(t) && k !in t.rows
    ensures Valid(Execute(t, InsertRow(k, w)))
  {
    InsertAppends(t, k, w);
  }

  lemma InPlaceValid(t: Table, t': Table)
    requires Valid(t) && t'.order == t.order && t'.rows.Keys == t.rows.Keys && t.nextId <= t'.nextId
    requires forall k :: k in t.rows ==> t'.rows[k].id == t.rows[k].id
    ensures Valid(t')
  {
    forall i | 0 <= i < |t.order| ensures IdAt(t', i) == IdAt(t, i) {
      assert t.order[i] in t.order;
    }
  }

  lemma ExecuteValid(t: Table, s: Statement)
    requires Valid(t)
    ensures Valid(Execute(t, s))
    ensures t.rows.Keys <= Execute(t, s).rows.Keys && t.order <= Execute(t, s).order
    ensures forall k :: k in t.rows ==> Execute(t, s).rows[k].id == t.rows[k].id
  {
    match Decide(t, s)
    case Inserted => InsertValid(t, s.key, s.write);
    case _ =>
      assert Execute(t, s).rows.Keys == t.rows.Keys;
      InPlaceValid(t, Execute(t, s));
  }

  /** Rows are never removed and keep their primary key, and the primary-key order only grows. */
  lemma {:induction false} RunValid(t: Table, ss: seq<Statement>)
    requires Valid(t)
    ensures Valid(Run(t, ss))
    ensures t.rows.Keys <= Run(t, ss).rows.Keys && t.order <= Run(t, ss).order
    ensures forall k :: k in t.rows ==> Run(t, ss).rows[k].id == t.rows[k].id
  {
    if ss == [] {
    } else {
      RunValid(t, ss[..|ss| - 1]);
      ExecuteValid(Run(t, ss[..|ss| - 1]), ss[|ss| - 1]);
    }
  }

  /** An upsert whose two statements nothing interferes with. */
  function Upsert(t: Table, k: Key, w: Subscription): Table {
    var t1 := Execute(t, InsertRow(k, w));
    if k in t.rows then Execute(t1, UpdateRow(k, w)) else t1
  }

  lemma UpsertValid(t: Table, k: Key, w: Subscription)
    requires Valid(t)
    ensures Valid(Upsert(t, k, w))
  {
    ExecuteValid(t, InsertRow(k, w));
    ExecuteValid(Execute(t, InsertRow(k, w)), UpdateRow(k, w));
  }

  /** An upsert of an existing key works in place: same rows, same primary keys, and only its own row is
      written, and not even that when another identity owns it. */
  lemma UpsertInPlace(t: Table, k: Key, w: Subscription)
    requires k in t.rows
    ensures var t' := Upsert(t, k, w);
            && t'.rows.Keys == t.rows.Keys && t'.order == t.order
            && t'.rows[k] == (if OwnedByOther(t.rows[k].sub, w) then t.rows[k]
                              else t.rows[k].(sub := Merge(t.rows[k].sub, w)))
            && forall j :: j != k && j in t.rows ==> t'.rows[j] == t.rows[j]
  {
    var t1 := Execute(t, InsertRow(k, w));
    assert t1.rows == t.rows && t1.order == t.order;
    assert Upsert(t, k, w).rows.Keys == t.rows.Keys;
  }

  // ----- Ownership and closed form -----

  ghost predicate FirstIdentity(ws: seq<Subscription>, v: string) {
    if v == "" then forall i :: 0 <= i < |ws| ==> ws[i].identityId == ""
    else exists i :: 0 <= i < |ws| && ws[i].identityId == v && forall j :: 0 <= j < i ==> ws[j].identityId == ""
  }

  ghost predicate LastData(ws: seq<Subscription>, v: string) {
    if v == "" then forall i :: 0 <= i < |ws| ==> ws[i].providerData == ""
    else exists i :: 0 <= i < |ws| && ws[i].providerData == v && forall j :: i < j < |ws| ==> ws[j].providerData == ""
  }

  /** What replaying the accepted writes `ws` leaves: the first owner, the last provider data, and for the
      rest the last write. */
  ghost predicate ClosedForm(ws: seq<Subscription>, row: Subscription) {
    && ws != []
    && FirstIdentity(ws, row.identityId)
    && LastData(ws, row.providerData)
    && row == ws[|ws| - 1].(identityId := row.identityId, providerData := row.providerData)
    && forall i :: 0 <= i < |ws| ==> ws[i].identityId == "" || ws[i].identityId == row.identityId
  }

  lemma ExtendIdentity(ws: seq<Subscription>, w: Subscription, e: Subscription)
    requires FirstIdentity(ws, e.identityId)
    ensures FirstIdentity(ws + [w], Merge(e, w).identityId)
  {
    var vs := ws + [w];
    assert vs[|ws|] == w;
    if e.identityId != "" {
      var i :| 0 <= i < |ws| && ws[i].identityId == e.identityId && forall j :: 0 <= j < i ==> ws[j].identityId == "";
      assert vs[i].identityId == e.identityId;
    }
  }

  lemma ExtendData(ws: seq<Subscription>, w: Subscription, e: Subscription)
    requires LastData(ws, e.providerData)
    ensures LastData(ws + [w], Merge(e, w).providerData)
  {
    var vs := ws + [w];
    assert vs[|ws|] == w;
    if e.providerData != "" && w.providerData == "" {
      var i :| 0 <= i < |ws| && ws[i].providerData == e.providerData
               && forall j :: i < j < |ws| ==> ws[j].providerData == "";
      assert vs[i].providerData == e.providerData;
    }
  }

  lemma MergeExtends(ws: seq<Subscription>, w: Subscription, e: Subscription)
    requires ClosedForm(ws, e) && !OwnedByOther(e, w)
    ensures ClosedForm(ws + [w], Merge(e, w))
  {
    ExtendIdentity(ws, w, e);
    ExtendData(ws, w, e);
  }

  lemma First(w: Subscription)
    ensures ClosedForm([w], w)
  {
    assert [w][0] == w;
  }

  /** In every run, a key has a row exactly when a write to it was accepted, and the row is what the accepted
      writes alone leave. Rejected writes leave no trace. */
  lemma {:induction false} RunHasClosedForm(ss: seq<Statement>, k: Key)
    ensures var t := Run(EMPTY, ss);
            && (k in t.rows <==> Accepted(EMPTY, ss, k) != [])
            && (k in t.rows ==> ClosedForm(Accepted(EMPTY, ss, k), t.rows[k].sub))
  {
    if ss == [] {
    } else {
      var init, s := ss[..|ss| - 1], ss[|ss| - 1];
      var t, ws := Run(EMPTY, init), Accepted(EMPTY, init, k);
      RunHasClosedForm(init, k);
      if s.key == k && Decide(t, s).Inserted? {
        First(s.write);
        assert Accepted(EMPTY, ss, k) == [s.write];
      } else if s.key == k && Decide(t, s).Updated? {
        MergeExtends(ws, s.write, t.rows[k].sub);
      } else {
        assert Accepted(EMPTY, ss, k) == ws;
      }
    }
  }

  /** The closed form determines the row. */
  lemma ClosedFormIsUnique(ws: seq<Subscription>, a: Subscription, b: Subscription)
    requires ClosedForm(ws, a) && ClosedForm(ws, b)
    ensures a == b
  {
    assert a.identityId == b.identityId;
    assert a.providerData == b.providerData;
  }

  /** Once a row has an owner it has it forever, in every interleaving. */
  lemma {:induction false} OwnerIsForever(t: Table, ss: seq<Statement>, k: Key)
    requires k in t.rows && t.rows[k].sub.identityId != ""
    ensures k in Run(t, ss).rows && Run(t, ss).rows[k].sub.identityId == t.rows[k].sub.identityId
  {
    if ss == [] {
    } else {
      OwnerIsForever(t, ss[..|ss| - 1], k);
    }
  }

  lemma {:induction false} RunAppend(t: Table, a: seq<Statement>, b: seq<Statement>)
    ensures Run(t, a + b) == Run(Run(t, a), b)
  {
    if b == [] {
      assert a + b == a;
    } else {
      assert (a + b)[..|a + b| - 1] == a + b[..|b| - 1];
      RunAppend(t, a, b[..|b| - 1]);
    }
  }

  lemma IdentityIsUnique(ws: seq<Subscription>, u: string, v: string)
    requires FirstIdentity(ws, u) && FirstIdentity(ws, v)
    ensures u == v
  {
  }

  /** After any run, a merge is refused exactly when its identity differs from the first identity accepted. */
  lemma RejectedIff(ss: seq<Statement>, k: Key, w: Subscription)
    requires k in Run(EMPTY, ss).rows
    ensures var decision := Decide(Run(EMPTY, ss), UpdateRow(k, w));
            && (decision.Rejected? || decision.Updated?)
            && (decision.Rejected? <==>
                  w.identityId != ""
                  && exists u :: u != "" && u != w.identityId && FirstIdentity(Accepted(EMPTY, ss, k), u))
  {
    RunHasClosedForm(ss, k);
    var owner := Run(EMPTY, ss).rows[k].sub.identityId;
    if u :| u != "" && u != w.identityId && FirstIdentity(Accepted(EMPTY, ss, k), u) {
      IdentityIsUnique(Accepted(EMPTY, ss, k), u, owner);
    }
  }

  /** The two statements of one upsert, with anything running before, between and after them: the upsert is
      rejected exactly when its identity differs from the first identity accepted so far, it never fails to
      find the row, and otherwise its write takes effect. A rejected upsert changes nothing. */
  lemma UpsertUnderInterference(before: seq<Statement>, between: seq<Statement>, k: Key, w: Subscription)
    ensures var all := before + [InsertRow(k, w)] + between;
            var decision := Decide(Run(EMPTY, all), UpdateRow(k, w));
            && (decision.Updated? || decision.Rejected?)
            && (decision.Rejected? <==>
                  w.identityId != ""
                  && exists u :: u != "" && u != w.identityId && FirstIdentity(Accepted(EMPTY, all, k), u))
            && (decision.Rejected? ==> Run(EMPTY, all + [UpdateRow(k, w)]) == Run(EMPTY, all))
  {
    var first := before + [InsertRow(k, w)];
    var all := first + between;
    assert first[..|first| - 1] == before;
    assert k in Run(EMPTY, first).rows;
    RunValid(EMPTY, first);
    RunAppend(EMPTY, first, between);
    RunValid(Run(EMPTY, first), between);
    RejectedIff(all, k, w);
    var full := all + [UpdateRow(k, w)];
    assert full[..|full| - 1] == all;
  }

  // ----- Entitlement -----

  predicate IsCurrent(s: Subscription, now: Time) {
    (s.status.Active? || s.status.Trialing?) && s.periodEnd > now
  }

  predicate Entitles(s: Subscription, identity: string, plan: string, now: Time) {
    && s.identityId == identity
    && IsCurrent(s, now)
    && (TrimSpace(plan) != "" ==> s.planCode == TrimSpace(plan))
  }

  /** ORDER BY current_period_end DESC, id LIMIT 1 over those of the first `n` rows that entitle. */
  function Best(t: Table, n: nat, identity: string, plan: string, now: Time): (best: Option<Key>)
    requires Valid(t) && n <= |t.order|
    ensures best.Some? ==> best.value in t.rows
  {
    if n == 0 then None
    else
      var best, k := Best(t, n - 1, identity, plan, now), t.order[n - 1];
      if Entitles(t.rows[k].sub, identity, plan, now)
         && (best.None? || t.rows[best.value].sub.periodEnd < t.rows[k].sub.periodEnd)
      then Some(k)
      else best
  }

  function ActiveEntitlement(t: Table, identity: string, plan: string, now: Time): (best: Option<Key>)
    requires Valid(t)
    ensures best.Some? ==> best.value in t.rows
  {
    Best(t, |t.order|, identity, plan, now)
  }

  predicate HasActiveSubscription(t: Table, identity: string, now: Time) {
    exists k :: k in t.rows && t.rows[k].sub.identityId == identity && IsCurrent(t.rows[k].sub, now)
  }

  predicate RowEntitles(t: Table, k: Key, identity: string, plan: string, now: Time) {
    k in t.rows && Entitles(t.rows[k].sub, identity, plan, now)
  }

  lemma {:induction false} TrimLeftStarts(s: string)
    ensures TrimLeft(s) == "" || !IsSpace(TrimLeft(s)[0])
    ensures s != "" && !IsSpace(s[0]) ==> TrimLeft(s) == s
  {
    if s == "" {
    } else if IsSpace(s[0]) {
      TrimLeftStarts(s[1..]);
    }
  }

  lemma {:induction false} TrimRightEnds(s: string)
    ensures TrimRight(s) == "" || !IsSpace(TrimRight(s)[|TrimRight(s)| - 1])
    ensures TrimRight(s) == "" || TrimRight(s)[0] == s[0]
    ensures s != "" && !IsSpace(s[|s| - 1]) ==> TrimRight(s) == s
  {
    if s == "" {
    } else if IsSpace(s[|s| - 1]) {
      TrimRightEnds(s[..|s| - 1]);
    }
  }

  /** Entitlement trims the plan that is asked for but not the plan that is stored: a stored plan code can be asked for
      by name exactly when it is not empty and has no space at either end. */
  lemma AskableIff(stored: string)
    ensures (exists plan :: TrimSpace(plan) != "" && TrimSpace(plan) == stored)
            <==> stored != "" && !IsSpace(stored[0]) && !IsSpace(stored[|stored| - 1])
  {
    forall plan | TrimSpace(plan) != ""
      ensures !IsSpace(TrimSpace(plan)[0]) && !IsSpace(TrimSpace(plan)[|TrimSpace(plan)| - 1])
    {
      TrimLeftStarts(plan);
      TrimRightEnds(TrimLeft(plan));
    }
    TrimLeftStarts(stored);
    TrimRightEnds(stored);
    assert stored != "" && !IsSpace(stored[0]) && !IsSpace(stored[|stored| - 1]) ==> TrimSpace(stored) == stored;
  }

  /** A subscription stored under ` pro` entitles, but no question about a plan finds it. */
  lemma SpacedPlanIsNeverFound(s: Subscription, plan: string, now: Time)
    requires IsCurrent(s, now) && s.planCode == " pro"
    ensures Entitles(s, s.identityId, "", now)
    ensures TrimSpace(plan) != "" ==> !Entitles(s, s.identityId, plan, now)
  {
    AskableIff(" pro");
  }

  /** Row `a` comes no later than row `b` in the order of the entitlement query. */
  predicate NotAfter(a: Stored, b: Stored) {
    a.sub.periodEnd > b.sub.periodEnd || (a.sub.periodEnd == b.sub.periodEnd && a.id <= b.id)
  }

  lemma {:induction false} BestIsBest(t: Table, n: nat, identity: string, plan: string, now: Time)
    requires Valid(t) && n <= |t.order|
    ensures var best := Best(t, n, identity, plan, now);
            && (best.Some? ==> RowEntitles(t, best.value, identity, plan, now))
            && (best.Some? ==> exists i :: 0 <= i < n && t.order[i] == best.value)
            && forall i :: 0 <= i < n && RowEntitles(t, t.order[i], identity, plan, now) ==>
                 best.Some? && NotAfter(t.rows[best.value], t.rows[t.order[i]])
  {
    if n == 0 {
    } else {
      BestIsBest(t, n - 1, identity, plan, now);
      var before := Best(t, n - 1, identity, plan, now);
      if before.Some? {
        var i :| 0 <= i < n - 1 && t.order[i] == before.value;
        assert IdAt(t, i) < IdAt(t, n - 1);
      }
    }
  }

  lemma EntitlementFound(t: Table, identity: string, plan: string, now: Time)
    requires Valid(t)
    ensures var e := ActiveEntitlement(t, identity, plan, now);
            && (e.Some? <==> exists k :: RowEntitles(t, k, identity, plan, now))
            && (e.Some? ==>
                  && RowEntitles(t, e.value, identity, plan, now)
                  && forall k :: RowEntitles(t, k, identity, plan, now) ==> NotAfter(t.rows[e.value], t.rows[k]))
            && (TrimSpace(plan) == "" ==> (e.Some? <==> HasActiveSubscription(t, identity, now)))
  {
    BestIsBest(t, |t.order|, identity, plan, now);
    forall k | RowEntitles(t, k, identity, plan, now) ensures exists i :: 0 <= i < |t.order| && t.order[i] == k {
      assert k in t.order;
    }
    if TrimSpace(plan) == "" {
      forall k | k in t.rows ensures RowEntitles(t, k, identity, plan, now)
                                     <==> t.rows[k].sub.identityId == identity && IsCurrent(t.rows[k].sub, now) {
      }
    }
  }

  /** An entitlement is found exactly when some row of the identity is ACTIVE or TRIALING, has not ended and has the
      plan asked for, if any; the one found is such a row, no other such row ends later, and of those that end at the
      same time it is the oldest. An active subscription is the same for any plan. */
  lemma EntitlementIsCorrect(t: Table, identity: string, plan: string, now: Time)
    requires Valid(t)
    ensures var e := ActiveEntitlement(t, identity, plan, now);
            && (e.Some? <==>
                  exists k :: k in t.rows
                    && t.rows[k].sub.identityId == identity
                    && (t.rows[k].sub.status == Active || t.rows[k].sub.status == Trialing)
                    && t.rows[k].sub.periodEnd > now
                    && (TrimSpace(plan) == "" || t.rows[k].sub.planCode == TrimSpace(plan)))
            && (e.Some? ==>
                  var found := t.rows[e.value];
                  && found.sub.identityId == identity
                  && (found.sub.status == Active || found.sub.status == Trialing)
                  && found.sub.periodEnd > now
                  && (TrimSpace(plan) == "" || found.sub.planCode == TrimSpace(plan))
                  && forall k | && k in t.rows
                                && t.rows[k].sub.identityId == identity
                                && (t.rows[k].sub.status == Active || t.rows[k].sub.status == Trialing)
                                && t.rows[k].sub.periodEnd > now
                                && (TrimSpace(plan) == "" || t.rows[k].sub.planCode == TrimSpace(plan)) ::
                       || t.rows[k].sub.periodEnd < found.sub.periodEnd
                       || (t.rows[k].sub.periodEnd == found.sub.periodEnd && found.id <= t.rows[k].id))
    ensures HasActiveSubscription(t, identity, now) <==>
              exists k :: k in t.rows
                && t.rows[k].sub.identityId == identity
                && (t.rows[k].sub.status == Active || t.rows[k].sub.status == Trialing)
                && t.rows[k].sub.periodEnd > now
  {
    EntitlementFound(t, identity, plan, now);
    forall k ensures RowEntitles(t, k, identity, plan, now) <==>
                       && k in t.rows
                       && t.rows[k].sub.identityId == identity
                       && (t.rows[k].sub.status == Active || t.rows[k].sub.status == Trialing)
                       && t.rows[k].sub.periodEnd > now
                       && (TrimSpace(plan) == "" || t.rows[k].sub.planCode == TrimSpace(plan)) {
    }
  }

  /** The accepted writes `ws` of one subscription entitle the identity: it is the first accepted owner, and
      the last accepted write is active or trialing beyond `now` under the plan asked for. */
  ghost predicate WritesEntitle(ws: seq<Subscription>, identity: string, plan: string, now: Time) {
    && ws != []
    && FirstIdentity(ws, identity)
    && IsCurrent(ws[|ws| - 1], now)
    && (TrimSpace(plan) != "" ==> ws[|ws| - 1].planCode == TrimSpace(plan))
  }

  lemma RowEntitlesIff(ss: seq<Statement>, k: Key, identity: string, plan: string, now: Time)
    ensures var t := Run(EMPTY, ss);
            RowEntitles(t, k, identity, plan, now) <==> WritesEntitle(Accepted(EMPTY, ss, k), identity, plan, now)
  {
    var t, ws := Run(EMPTY, ss), Accepted(EMPTY, ss, k);
    RunHasClosedForm(ss, k);
    if ws != [] && FirstIdentity(ws, identity) {
      IdentityIsUnique(ws, identity, t.rows[k].sub.identityId);
    }
  }

  lemma EntitledByWrites(ss: seq<Statement>, identity: string, plan: string, now: Time)
    ensures Valid(Run(EMPTY, ss))
    ensures ActiveEntitlement(Run(EMPTY, ss), identity, plan, now).Some?
            <==> exists k :: WritesEntitle(Accepted(EMPTY, ss, k), identity, plan, now)
  {
    RunValid(EMPTY, ss);
    EntitlementFound(Run(EMPTY, ss), identity, plan, now);
    var e := ActiveEntitlement(Run(EMPTY, ss), identity, plan, now);
    if e.Some? {
      RowEntitlesIff(ss, e.value, identity, plan, now);
    }
    if k :| WritesEntitle(Accepted(EMPTY, ss, k), identity, plan, now) {
      RowEntitlesIff(ss, k, identity, plan, now);
    }
  }

  /** Over any run of statements, an identity is entitled exactly when it is the first identity accepted for some
      subscription whose last accepted write is ACTIVE or TRIALING, has not ended and has the plan asked for, if any. */
  lemma EntitlementOverRuns(ss: seq<Statement>, identity: string, plan: string, now: Time)
    ensures Valid(Run(EMPTY, ss))
    ensures ActiveEntitlement(Run(EMPTY, ss), identity, plan, now).Some? <==>
              exists k ::
                var ws := Accepted(EMPTY, ss, k);
                && ws != [] && FirstIdentity(ws, identity)
                && var last := ws[|ws| - 1];
                && (last.status == Active || last.status == Trialing)
                && last.periodEnd > now
                && (TrimSpace(plan) == "" || last.planCode == TrimSpace(plan))
  {
    EntitledByWrites(ss, identity, plan, now);
  }

  lemma KeyById(t: Table, a: Key, b: Key)
    requires Valid(t) && a in t.rows && b in t.rows && t.rows[a].id == t.rows[b].id
    ensures a == b
  {
    assert a in t.order && b in t.order;
    var i :| 0 <= i < |t.order| && t.order[i] == a;
    var j :| 0 <= j < |t.order| && t.order[j] == b;
    assert IdAt(t, i) == IdAt(t, j);
  }

  /** Time alone never creates an entitlement, and while the entitlement found has not ended it stays
      the one found. */
  lemma TimeOnlyExpires(t: Table, identity: string, plan: string, now: Time, later: Time)
    requires Valid(t) && now <= later
    ensures var e, e' := ActiveEntitlement(t, identity, plan, now), ActiveEntitlement(t, identity, plan, later);
            && (e'.Some? ==> e.Some?)
            && (e.Some? ==> (e' == e <==> t.rows[e.value].sub.periodEnd > later))
  {
    EntitlementFound(t, identity, plan, now);
    EntitlementFound(t, identity, plan, later);
    var e, e' := ActiveEntitlement(t, identity, plan, now), ActiveEntitlement(t, identity, plan, later);
    if e'.Some? {
      assert RowEntitles(t, e'.value, identity, plan, now);
    }
    if e.Some? && t.rows[e.value].sub.periodEnd > later {
      assert RowEntitles(t, e.value, identity, plan, later);
      KeyById(t, e.value, e'.value);
    }
  }

  // ----- Paging -----

  /** The keys of the rows from the `from`-th on whose ID is above `afterId`. */
  function Above(t: Table, from: nat, afterId: nat): seq<Key>
    requires Valid(t) && from <= |t.order|
    decreases |t.order| - from
  {
    if from == |t.order| then []
    else (if IdAt(t, from) > afterId then [t.order[from]] else []) + Above(t, from + 1, afterId)
  }

  /** WHERE id > afterId ORDER BY id LIMIT limit. */
  function ListAfter(t: Table, afterId: nat, limit: nat): seq<Key>
    requires Valid(t)
  {
    var above := Above(t, 0, afterId);
    if |above| <= limit then above else above[..limit]
  }

  /** Having read the first `n` rows, the rows above the last ID read are the remaining ones. */
  lemma {:induction false} AboveIsSuffix(t: Table, from: nat, n: nat, afterId: nat)
    requires Valid(t) && from <= |t.order| && n <= |t.order|
    requires afterId == if n == 0 then 0 else IdAt(t, n - 1)
    ensures Above(t, from, afterId) == t.order[if from < n then n else from..]
    decreases |t.order| - from
  {
    if from == |t.order| {
    } else {
      AboveIsSuffix(t, from + 1, n, afterId);
      if from >= n {
        assert IdAt(t, from) > afterId;
        assert t.order[from..] == [t.order[from]] + t.order[from + 1..];
      }
    }
  }
}
