/** Google Play subscriptions: verification, notifications, voids and reconciliation, and the invariant that a
    stored row always decrypts to the purchase token it is filed under. */
module GooglePurchases {
  import opened Basics
  import opened Catalog
  import opened Subscriptions

  const GOOGLE := "google"

  /** The foreign functions: SHA-256 in hex, AES-GCM sealing under a nonce, and opening. */
  datatype Crypto = Crypto(
    digest: string -> string,
    seal: (string, string) -> string,
    open: string -> Option<string>)

  /** Opening undoes sealing, and a sealed token is not empty. */
  ghost predicate Lawful(c: Crypto) {
    forall token, nonce :: c.open(c.seal(token, nonce)) == Some(token) && c.seal(token, nonce) != ""
  }

  datatype LineItem = LineItem(productId: string, expiry: Option<Time>, autoRenew: bool)

  /** What the purchases API answers about a token; `expiry` and `start` are `None` when they do not parse. */
  datatype Purchase = Purchase(
    account: string,
    items: seq<LineItem>,
    state: string,
    acknowledged: bool,
    start: Option<Time>)

  datatype Provider = Provider(crypto: Crypto, casing: Casing, products: Index)

  /** The outcome of the calls to Google during one verification. */
  datatype Answers = Answers(purchase: Result<Purchase, Error>, acknowledge: Option<Error>, nonce: string)

  function TokenKey(c: Crypto, token: string): Key {
    Key(GOOGLE, "sha256:" + c.digest(token))
  }

  function AccountBinding(c: Crypto, identity: string): string {
    c.digest("procyon-payment:" + TrimSpace(identity))
  }

  function MapState(state: string): Status {
    if state == "SUBSCRIPTION_STATE_ACTIVE" then Active
    else if state == "SUBSCRIPTION_STATE_IN_GRACE_PERIOD" then Trialing
    else if state == "SUBSCRIPTION_STATE_ON_HOLD" || state == "SUBSCRIPTION_STATE_PAUSED" then PastDue
    else if state == "SUBSCRIPTION_STATE_CANCELED" then Canceled
    else Expired
  }

  /** `verifyAndStore` up to its upsert: the write it makes, or why it makes none. */
  function Verified(p: Provider, identity: string, token: string, expected: string, ownership: bool, a: Answers)
    : Result<Statement, Error>
  {
    if TrimSpace(identity) == "" || TrimSpace(token) == "" then
      Failure(Other("identity and purchase token are required"))
    else if a.purchase.Failure? then Failure(a.purchase.error)
    else
      var purchase := a.purchase.value;
      if ownership && (purchase.account == "" || purchase.account != AccountBinding(p.crypto, identity)) then
        Failure(OwnershipConflict)
      else if purchase.items == [] then Failure(Other("Google subscription has no line items"))
      else
        var item := purchase.items[0];
        if expected != "" && item.productId != expected then Failure(ProductRejected)
        else
          var product := Lookup(p.casing, p.products, GOOGLE, item.productId, "subscription");
          if product.Failure? then Failure(product.error)
          else if !purchase.acknowledged && a.acknowledge.Some? then Failure(a.acknowledge.value)
          else if purchase.start.None? then Failure(Other("invalid Google start time"))
          else if item.expiry.None? then Failure(Other("invalid Google expiry time"))
          else Success(InsertRow(
            TokenKey(p.crypto, token),
            Subscription(identity, "", product.value.planCode, MapState(purchase.state), purchase.start.value,
                         item.expiry.value, None, !item.autoRenew, p.crypto.seal(token, a.nonce))))
  }

  // ----- All the ways rows are written, as a state machine -----

  /** A row read by a handler that has not written yet. */
  datatype Read = Read(key: Key, sub: Subscription)

  /** `pending` are the writes under way: each runs its insert and its merge as separate statements. */
  datatype State = State(table: Table, loaded: seq<Read>, pending: seq<Statement>)

  datatype Action =
      // A purchase token sent by a client.
    | Verify(identity: string, token: string, expected: string, answers: Answers)
      // A handler reads a stored row: for a notification, a void or a reconciliation.
    | Load(key: Key)
      // A subscription notification about the token of a row that was read.
    | Notify(read: nat, token: string, answers: Answers)
      // A voided purchase writes the row it read back with status REFUNDED.
    | Void(read: nat)
      // Reconciliation decrypts the row it read and verifies the token again.
    | Reconcile(read: nat, answers: Answers)
      // One statement of a pending write.
    | RunInsert(write: nat)
    | RunMerge(write: nat)

  function Offer(s: State, w: Result<Statement, Error>): State {
    if w.Success? then s.(pending := s.pending + [w.value]) else s
  }

  /** What a reconciliation of the row `r` writes. */
  function Reconciled(p: Provider, r: Read, a: Answers): Result<Statement, Error> {
    match p.crypto.open(r.sub.providerData)
    case None => Failure(Other("invalid encrypted Google token"))
    case Some(token) => Verified(p, r.sub.identityId, token, "", false, a)
  }

  function Apply(p: Provider, s: State, a: Action): State {
    match a
    case Verify(identity, token, expected, answers) =>
      Offer(s, Verified(p, identity, token, expected, true, answers))
    case Load(k) =>
      if k in s.table.rows && k.provider == GOOGLE then s.(loaded := s.loaded + [Read(k, s.table.rows[k].sub)]) else s
    case Notify(i, token, answers) =>
      if i < |s.loaded| && s.loaded[i].key == TokenKey(p.crypto, token)
      then Offer(s, Verified(p, s.loaded[i].sub.identityId, token, "", false, answers)) else s
    case Void(i) =>
      if i < |s.loaded|
      then s.(pending := s.pending + [InsertRow(s.loaded[i].key, s.loaded[i].sub.(status := Refunded))]) else s
    case Reconcile(i, answers) =>
      if i < |s.loaded| then Offer(s, Reconciled(p, s.loaded[i], answers)) else s
    case RunInsert(i) =>
      if i < |s.pending| then s.(table := Execute(s.table, InsertRow(s.pending[i].key, s.pending[i].write))) else s
    case RunMerge(i) =>
      if i < |s.pending| then s.(table := Execute(s.table, UpdateRow(s.pending[i].key, s.pending[i].write))) else s
  }

  function Exec(p: Provider, s: State, acts: seq<Action>): State
    decreases |acts|
  {
    if acts == [] then s else Exec(p, Apply(p, s, acts[0]), acts[1..])
  }

  const INITIAL := State(EMPTY, [], [])

  /** A row filed under `k` holds the token that `k` is the digest of, and has an owner. */
  ghost predicate Filed(c: Crypto, k: Key, sub: Subscription) {
    && sub.identityId != ""
    && TrimSpace(sub.identityId) != ""
    && sub.providerData != ""
    && c.open(sub.providerData).Some?
    && k == TokenKey(c, c.open(sub.providerData).value)
  }

  ghost predicate Inv(p: Provider, s: State) {
    && Valid(s.table)
    && (forall k :: k in s.table.rows ==> Filed(p.crypto, k, s.table.rows[k].sub))
    && (forall i :: 0 <= i < |s.loaded| ==>
          && Filed(p.crypto, s.loaded[i].key, s.loaded[i].sub)
          && s.loaded[i].key in s.table.rows
          && s.table.rows[s.loaded[i].key].sub.identityId == s.loaded[i].sub.identityId)
    && (forall i :: 0 <= i < |s.pending| ==> Filed(p.crypto, s.pending[i].key, s.pending[i].write))
  }

  lemma VerifiedIsFiled(p: Provider, identity: string, token: string, expected: string, ownership: bool, a: Answers)
    requires Lawful(p.crypto)
    requires Verified(p, identity, token, expected, ownership, a).Success?
    ensures var w := Verified(p, identity, token, expected, ownership, a).value;
            Filed(p.crypto, w.key, w.write) && w.key == TokenKey(p.crypto, token) && w.write.identityId == identity
  {
    assert TrimSpace("") == "";
    assert p.crypto.open(p.crypto.seal(token, a.nonce)) == Some(token);
  }

  lemma StatesDiffer()
    ensures MapState("SUBSCRIPTION_STATE_ACTIVE") == Active
    ensures MapState("SUBSCRIPTION_STATE_IN_GRACE_PERIOD") == Trialing
    ensures MapState("SUBSCRIPTION_STATE_ON_HOLD") == MapState("SUBSCRIPTION_STATE_PAUSED") == PastDue
    ensures MapState("SUBSCRIPTION_STATE_CANCELED") == Canceled
  {
    assert "SUBSCRIPTION_STATE_ACTIVE"[19] != "SUBSCRIPTION_STATE_IN_GRACE_PERIOD"[19];
    assert "SUBSCRIPTION_STATE_ACTIVE"[19] != "SUBSCRIPTION_STATE_ON_HOLD"[19];
    assert "SUBSCRIPTION_STATE_ACTIVE"[19] != "SUBSCRIPTION_STATE_PAUSED"[19];
    assert "SUBSCRIPTION_STATE_ACTIVE"[19] != "SUBSCRIPTION_STATE_CANCELED"[19];
    assert "SUBSCRIPTION_STATE_CANCELED"[19] != "SUBSCRIPTION_STATE_IN_GRACE_PERIOD"[19];
    assert "SUBSCRIPTION_STATE_CANCELED"[19] != "SUBSCRIPTION_STATE_ON_HOLD"[19];
    assert "SUBSCRIPTION_STATE_CANCELED"[19] != "SUBSCRIPTION_STATE_PAUSED"[19];
    assert "SUBSCRIPTION_STATE_IN_GRACE_PERIOD"[19] != "SUBSCRIPTION_STATE_ON_HOLD"[19];
    assert "SUBSCRIPTION_STATE_IN_GRACE_PERIOD"[19] != "SUBSCRIPTION_STATE_PAUSED"[19];
  }

  /** A verification succeeds exactly when the identity and token are given, Google knows the purchase, a client that
      claims it is bound to its account, its first item is the product expected and one of the catalog, it is or can be
      acknowledged, and its times are valid. */
  lemma VerifiedIff(p: Provider, identity: string, token: string, expected: string, ownership: bool, a: Answers)
    ensures Verified(p, identity, token, expected, ownership, a).Success? <==>
              && TrimSpace(identity) != "" && TrimSpace(token) != "" && a.purchase.Success?
              && var bought := a.purchase.value;
              && (ownership ==> bought.account != ""
                                && bought.account == p.crypto.digest("procyon-payment:" + TrimSpace(identity)))
              && bought.items != []
              && (expected == "" || bought.items[0].productId == expected)
              && Lookup(p.casing, p.products, "google", bought.items[0].productId, "subscription").Success?
              && (bought.acknowledged || a.acknowledge.None?)
              && bought.start.Some? && bought.items[0].expiry.Some?
  {
  }

  /** Why a verification is refused, at the first check that fails. */
  lemma VerificationError(p: Provider, identity: string, token: string, expected: string, ownership: bool, a: Answers)
    requires Verified(p, identity, token, expected, ownership, a).Failure?
    ensures var err := Verified(p, identity, token, expected, ownership, a).error;
            if TrimSpace(identity) == "" || TrimSpace(token) == "" then
              err == Other("identity and purchase token are required")
            else if a.purchase.Failure? then err == a.purchase.error
            else
              var bought := a.purchase.value;
              var bound := bought.account != ""
                           && bought.account == p.crypto.digest("procyon-payment:" + TrimSpace(identity));
              if ownership && !bound then err == OwnershipConflict
              else if bought.items == [] then err == Other("Google subscription has no line items")
              else if expected != "" && bought.items[0].productId != expected then err == ProductRejected
              else
                var product := Lookup(p.casing, p.products, "google", bought.items[0].productId, "subscription");
                if product.Failure? then err == product.error
                else if !bought.acknowledged && a.acknowledge.Some? then err == a.acknowledge.value
                else if bought.start.None? then err == Other("invalid Google start time")
                else err == Other("invalid Google expiry time")
  {
  }

  /** What a successful verification writes, column by column. */
  lemma VerifiedColumns(p: Provider, identity: string, token: string, expected: string, ownership: bool, a: Answers)
    requires Lawful(p.crypto) && Verified(p, identity, token, expected, ownership, a).Success?
    ensures var w, bought := Verified(p, identity, token, expected, ownership, a).value, a.purchase.value;
            var item, sub := bought.items[0], w.write;
            && w.key == Key("google", "sha256:" + p.crypto.digest(token))
            && sub.identityId == identity && sub.customerId == "" && p.crypto.open(sub.providerData) == Some(token)
            && Success(sub.planCode)
               == (match Lookup(p.casing, p.products, "google", item.productId, "subscription")
                   case Success(product) => Success(product.planCode)
                   case Failure(err) => Failure(err))
            && Some(sub.periodStart) == bought.start && Some(sub.periodEnd) == item.expiry && sub.cancelAt.None?
            && (sub.cancelAtPeriodEnd <==> !item.autoRenew)
            && (bought.state == "SUBSCRIPTION_STATE_ACTIVE" <==> sub.status == Active)
            && (bought.state == "SUBSCRIPTION_STATE_IN_GRACE_PERIOD" <==> sub.status == Trialing)
            && (bought.state in {"SUBSCRIPTION_STATE_ON_HOLD", "SUBSCRIPTION_STATE_PAUSED"} <==> sub.status == PastDue)
            && (bought.state == "SUBSCRIPTION_STATE_CANCELED" <==> sub.status == Canceled)
            && sub.status in {Active, Trialing, PastDue, Canceled, Expired}
  {
    assert p.crypto.open(p.crypto.seal(token, a.nonce)) == Some(token);
    StatesDiffer();
  }

  /** What a statement makes of one row. */
  lemma RowAfter(t: Table, st: Statement, k: Key)
    requires k in Execute(t, st).rows
    ensures var sub := Execute(t, st).rows[k].sub;
            || (k in t.rows && sub == t.rows[k].sub)
            || (k == st.key && k !in t.rows && sub == st.write)
            || (k == st.key && k in t.rows && sub == Merge(t.rows[k].sub, st.write))
    ensures k in t.rows && t.rows[k].sub.identityId != "" ==>
              Execute(t, st).rows[k].sub.identityId == t.rows[k].sub.identityId
  {
  }

  lemma StatementInv(p: Provider, s: State, st: Statement)
    requires Inv(p, s) && Filed(p.crypto, st.key, st.write)
    ensures Inv(p, s.(table := Execute(s.table, st)))
  {
    var t' := Execute(s.table, st);
    ExecuteValid(s.table, st);
    forall k | k in t'.rows ensures Filed(p.crypto, k, t'.rows[k].sub) {
      RowAfter(s.table, st, k);
    }
    forall i | 0 <= i < |s.loaded|
      ensures s.loaded[i].key in t'.rows && t'.rows[s.loaded[i].key].sub.identityId == s.loaded[i].sub.identityId
    {
      assert Filed(p.crypto, s.loaded[i].key, s.loaded[i].sub);
      RowAfter(s.table, st, s.loaded[i].key);
    }
  }

  lemma OfferInv(p: Provider, s: State, w: Statement)
    requires Inv(p, s) && Filed(p.crypto, w.key, w.write)
    ensures Inv(p, s.(pending := s.pending + [w]))
  {
  }

  lemma VerifyInv(p: Provider, s: State, identity: string, token: string, expected: string, ownership: bool, a: Answers)
    requires Lawful(p.crypto) && Inv(p, s)
    ensures Inv(p, Offer(s, Verified(p, identity, token, expected, ownership, a)))
  {
    var w := Verified(p, identity, token, expected, ownership, a);
    if w.Success? {
      VerifiedIsFiled(p, identity, token, expected, ownership, a);
      OfferInv(p, s, w.value);
    }
  }

  lemma ReconcileInv(p: Provider, s: State, r: Read, a: Answers)
    requires Lawful(p.crypto) && Inv(p, s) && Filed(p.crypto, r.key, r.sub)
    ensures Inv(p, Offer(s, Reconciled(p, r, a)))
  {
    VerifyInv(p, s, r.sub.identityId, p.crypto.open(r.sub.providerData).value, "", false, a);
  }

  lemma VoidInv(p: Provider, s: State, r: Read)
    requires Inv(p, s) && Filed(p.crypto, r.key, r.sub)
    ensures Inv(p, s.(pending := s.pending + [InsertRow(r.key, r.sub.(status := Refunded))]))
  {
    OfferInv(p, s, InsertRow(r.key, r.sub.(status := Refunded)));
  }

  lemma LoadInv(p: Provider, s: State, k: Key)
    requires Inv(p, s)
    ensures Inv(p, Apply(p, s, Load(k)))
  {
  }

  lemma StepInv(p: Provider, s: State, a: Action)
    requires Lawful(p.crypto) && Inv(p, s)
    ensures Inv(p, Apply(p, s, a))
  {
    match a
    case Verify(identity, token, expected, answers) =>
      VerifyInv(p, s, identity, token, expected, true, answers);
    case Load(k) => LoadInv(p, s, k);
    case Notify(i, token, answers) =>
      if i < |s.loaded| { VerifyInv(p, s, s.loaded[i].sub.identityId, token, "", false, answers); }
    case Void(i) =>
      if i < |s.loaded| { VoidInv(p, s, s.loaded[i]); }
    case Reconcile(i, answers) =>
      if i < |s.loaded| { ReconcileInv(p, s, s.loaded[i], answers); }
    case RunInsert(i) =>
      if i < |s.pending| { StatementInv(p, s, InsertRow(s.pending[i].key, s.pending[i].write)); }
    case RunMerge(i) =>
      if i < |s.pending| { StatementInv(p, s, UpdateRow(s.pending[i].key, s.pending[i].write)); }
  }

  lemma {:induction false} ExecInv(p: Provider, s: State, acts: seq<Action>)
    requires Lawful(p.crypto) && Inv(p, s)
    ensures Inv(p, Exec(p, s, acts))
    decreases |acts|
  {
    if acts == [] {
    } else {
      StepInv(p, s, acts[0]);
      ExecInv(p, Apply(p, s, acts[0]), acts[1..]);
    }
  }

  /** In every interleaving of verifications, notifications, voids and reconciliations, each stored row decrypts
      to a token whose digest is the row's external ID. */
  lemma RowsDecryptToTheirKey(p: Provider, acts: seq<Action>, k: Key)
    requires Lawful(p.crypto) && k in Exec(p, INITIAL, acts).table.rows
    ensures var sub := Exec(p, INITIAL, acts).table.rows[k].sub;
            var token := p.crypto.open(sub.providerData);
            token.Some? && k == TokenKey(p.crypto, token.value)
  {
    ExecInv(p, INITIAL, acts);
  }

  /** Reconciling a row that was read any time ago updates that very row: its token can be decrypted, a successful
      verification writes under the row's own key, the insert finds the row and creates nothing, the merge is not
      rejected, and the owner stays. */
  lemma ReconcileUpdatesItsRow(p: Provider, acts: seq<Action>, i: nat, a: Answers)
    requires Lawful(p.crypto) && i < |Exec(p, INITIAL, acts).loaded|
    ensures var s := Exec(p, INITIAL, acts);
            var r := s.loaded[i];
            && p.crypto.open(r.sub.providerData).Some?
            && (Reconciled(p, r, a).Success? ==>
                  var w := Reconciled(p, r, a).value;
                  var t := Execute(s.table, InsertRow(w.key, w.write));
                  && w.key == r.key && r.key in s.table.rows
                  && t.rows == s.table.rows && t.order == s.table.order
                  && Decide(t, UpdateRow(w.key, w.write)).Updated?
                  && var t' := Execute(t, UpdateRow(w.key, w.write));
                  && t'.rows.Keys == s.table.rows.Keys
                  && t'.rows[r.key].sub.identityId == s.table.rows[r.key].sub.identityId)
  {
    var s := Exec(p, INITIAL, acts);
    var r := s.loaded[i];
    ExecInv(p, INITIAL, acts);
    if Reconciled(p, r, a).Success? {
      VerifiedIsFiled(p, r.sub.identityId, p.crypto.open(r.sub.providerData).value, "", false, a);
      var w := Reconciled(p, r, a).value;
      var t := Execute(s.table, InsertRow(w.key, w.write));
      assert Execute(t, UpdateRow(w.key, w.write)).rows.Keys == s.table.rows.Keys;
    }
  }

  lemma BindingIsInjective(c: Crypto, u: string, v: string)
    requires AccountBinding(c, u) == AccountBinding(c, v)
    requires forall x, y :: c.digest(x) == c.digest(y) ==> x == y
    ensures TrimSpace(u) == TrimSpace(v)
  {
    var prefix := "procyon-payment:";
    assert prefix + TrimSpace(u) == prefix + TrimSpace(v);
    assert (prefix + TrimSpace(u))[|prefix|..] == TrimSpace(u);
    assert (prefix + TrimSpace(v))[|prefix|..] == TrimSpace(v);
  }

  /** A client can store a purchase only under the identity that its account is bound to: with a collision-free
      digest, no two identities are both accepted for purchases of the same account. */
  lemma OwnershipIsBound(p: Provider, u: string, v: string, token: string, expected: string, a: Answers, b: Answers)
    requires Verified(p, u, token, expected, true, a).Success? && Verified(p, v, token, expected, true, b).Success?
    requires a.purchase.value.account == b.purchase.value.account
    requires forall x, y :: p.crypto.digest(x) == p.crypto.digest(y) ==> x == y
    ensures TrimSpace(u) == TrimSpace(v)
  {
    BindingIsInjective(p.crypto, u, v);
  }

  // ----- Voids -----

  /** Action `a` runs a statement of a pending write to `k` that takes effect. */
  predicate Accepts(s: State, a: Action, k: Key) {
    match a
    case RunInsert(i) =>
      i < |s.pending| && s.pending[i].key == k && Decide(s.table, InsertRow(k, s.pending[i].write)).Inserted?
    case RunMerge(i) =>
      i < |s.pending| && s.pending[i].key == k && Decide(s.table, UpdateRow(k, s.pending[i].write)).Updated?
    case _ => false
  }

  /** No write to `k` takes effect during `acts`. */
  predicate Undisturbed(p: Provider, s: State, acts: seq<Action>, k: Key)
    decreases |acts|
  {
    acts != [] ==> !Accepts(s, acts[0], k) && Undisturbed(p, Apply(p, s, acts[0]), acts[1..], k)
  }

  lemma {:induction false} UndisturbedStays(p: Provider, s: State, acts: seq<Action>, k: Key)
    requires k in s.table.rows && Undisturbed(p, s, acts, k)
    ensures k in Exec(p, s, acts).table.rows && Exec(p, s, acts).table.rows[k] == s.table.rows[k]
    decreases |acts|
  {
    if acts == [] {
    } else {
      UndisturbedStays(p, Apply(p, s, acts[0]), acts[1..], k);
    }
  }

  /** Nothing that was read or is under way is forgotten. */
  lemma {:induction false} ExecKeeps(p: Provider, s: State, acts: seq<Action>)
    ensures s.loaded <= Exec(p, s, acts).loaded && s.pending <= Exec(p, s, acts).pending
    decreases |acts|
  {
    if acts == [] {
    } else {
      ExecKeeps(p, Apply(p, s, acts[0]), acts[1..]);
    }
  }

  /** The merge of a write that is pending for a row of the same owner takes effect. */
  lemma VoidMerges(p: Provider, s: State, read: nat, i: nat)
    requires Inv(p, s) && read < |s.loaded| && i < |s.pending|
    requires s.pending[i] == InsertRow(s.loaded[read].key, s.loaded[read].sub.(status := Refunded))
    ensures var k := s.loaded[read].key;
            var t := Apply(p, s, RunMerge(i)).table;
            k in t.rows && t.rows[k].sub.status == Refunded
  {
    assert Filed(p.crypto, s.loaded[read].key, s.loaded[read].sub);
  }

  lemma {:induction false} ExecAppend(p: Provider, s: State, a: seq<Action>, b: seq<Action>)
    ensures Exec(p, s, a + b) == Exec(p, Exec(p, s, a), b)
    decreases |a|
  {
    if a == [] {
      assert a + b == b;
    } else {
      assert (a + b)[1..] == a[1..] + b;
      ExecAppend(p, Apply(p, s, a[0]), a[1..], b);
    }
  }

  /** A voided purchase entitles nobody. In every run, from the merge of a void on, with anything between the void and
      its merge, the row is REFUNDED and no identity, plan or time finds it entitled, until another write to it takes
      effect. */
  lemma VoidEndsEntitlement(p: Provider, past: seq<Action>, read: nat, between: seq<Action>, after: seq<Action>)
    requires Lawful(p.crypto) && read < |Exec(p, INITIAL, past).loaded|
    requires var void := |Exec(p, INITIAL, past).pending|;
             Undisturbed(p, Exec(p, INITIAL, past + [Void(read)] + between + [RunMerge(void)]), after,
                         Exec(p, INITIAL, past).loaded[read].key)
    ensures var void := |Exec(p, INITIAL, past).pending|;
            var k := Exec(p, INITIAL, past).loaded[read].key;
            var t := Exec(p, INITIAL, past + [Void(read)] + between + [RunMerge(void)] + after).table;
            && Valid(t) && k in t.rows && t.rows[k].sub.status == Refunded
            && forall u, plan, now :: ActiveEntitlement(t, u, plan, now) != Some(k)
  {
    var s0 := Exec(p, INITIAL, past);
    var void, k := |s0.pending|, s0.loaded[read].key;
    var before := past + [Void(read)] + between;
    var s2 := Exec(p, INITIAL, before);
    ExecAppend(p, INITIAL, past + [Void(read)], between);
    ExecAppend(p, INITIAL, past, [Void(read)]);
    assert [Void(read)][1..] == [];
    ExecKeeps(p, Apply(p, s0, Void(read)), between);
    assert Apply(p, s0, Void(read)).pending[void] == InsertRow(k, s0.loaded[read].sub.(status := Refunded));
    ExecInv(p, INITIAL, before);
    VoidMerges(p, s2, read, void);
    ExecAppend(p, INITIAL, before, [RunMerge(void)]);
    assert [RunMerge(void)][1..] == [];
    var merged := before + [RunMerge(void)];
    UndisturbedStays(p, Exec(p, INITIAL, merged), after, k);
    ExecAppend(p, INITIAL, merged, after);
    ExecInv(p, INITIAL, merged + after);
    forall u, plan, now ensures ActiveEntitlement(Exec(p, INITIAL, merged + after).table, u, plan, now) != Some(k) {
      EntitlementIsCorrect(Exec(p, INITIAL, merged + after).table, u, plan, now);
    }
  }

  // ----- Where owners come from -----

  /** A client verified a purchase filed under `k` for identity `u`, and the account of that purchase was bound to
      `u`. */
  predicate Proves(p: Provider, a: Action, k: Key, u: string) {
    && a.Verify? && a.identity == u && k == TokenKey(p.crypto, a.token)
    && Verified(p, u, a.token, a.expected, true, a.answers).Success?
    && a.answers.purchase.value.account == AccountBinding(p.crypto, u)
  }

  ghost predicate Proven(p: Provider, acts: seq<Action>, k: Key, u: string) {
    exists a :: a in acts && Proves(p, a, k, u)
  }

  /** Every identity stored, read or about to be written is proven by one of the actions `acts`. */
  ghost predicate OwnersProven(p: Provider, acts: seq<Action>, s: State) {
    && (forall k :: k in s.table.rows ==> Proven(p, acts, k, s.table.rows[k].sub.identityId))
    && (forall i :: 0 <= i < |s.loaded| ==> Proven(p, acts, s.loaded[i].key, s.loaded[i].sub.identityId))
    && (forall i :: 0 <= i < |s.pending| ==> Proven(p, acts, s.pending[i].key, s.pending[i].write.identityId))
  }

  lemma OfferProven(p: Provider, acts: seq<Action>, s: State, w: Statement)
    requires OwnersProven(p, acts, s) && Proven(p, acts, w.key, w.write.identityId)
    ensures OwnersProven(p, acts, s.(pending := s.pending + [w]))
  {
  }

  lemma StatementProven(p: Provider, acts: seq<Action>, s: State, st: Statement)
    requires Inv(p, s) && OwnersProven(p, acts, s)
    requires Filed(p.crypto, st.key, st.write) && Proven(p, acts, st.key, st.write.identityId)
    ensures OwnersProven(p, acts, s.(table := Execute(s.table, st)))
  {
    var t' := Execute(s.table, st);
    forall k | k in t'.rows ensures Proven(p, acts, k, t'.rows[k].sub.identityId) {
      RowAfter(s.table, st, k);
    }
  }

  /** A verification for an identity that is already proven for the token's key, or that this very action proves. */
  lemma VerificationProven(p: Provider, acts: seq<Action>, s: State, identity: string, token: string, expected: string,
                           ownership: bool, a: Answers)
    requires Lawful(p.crypto) && OwnersProven(p, acts, s)
    requires Proven(p, acts, TokenKey(p.crypto, token), identity)
             || (ownership && Verify(identity, token, expected, a) in acts)
    ensures OwnersProven(p, acts, Offer(s, Verified(p, identity, token, expected, ownership, a)))
  {
    var w := Verified(p, identity, token, expected, ownership, a);
    if w.Success? {
      VerifiedIsFiled(p, identity, token, expected, ownership, a);
      if ownership && Verify(identity, token, expected, a) in acts {
        assert Proves(p, Verify(identity, token, expected, a), w.value.key, identity);
      }
      OfferProven(p, acts, s, w.value);
    }
  }

  lemma LoadProven(p: Provider, acts: seq<Action>, s: State, k: Key)
    requires OwnersProven(p, acts, s)
    ensures OwnersProven(p, acts, Apply(p, s, Load(k)))
  {
  }

  lemma ReconcileProven(p: Provider, acts: seq<Action>, s: State, i: nat, a: Answers)
    requires Lawful(p.crypto) && Inv(p, s) && OwnersProven(p, acts, s) && i < |s.loaded|
    ensures OwnersProven(p, acts, Offer(s, Reconciled(p, s.loaded[i], a)))
  {
    var token := p.crypto.open(s.loaded[i].sub.providerData).value;
    VerificationProven(p, acts, s, s.loaded[i].sub.identityId, token, "", false, a);
  }

  lemma NotifyProven(p: Provider, acts: seq<Action>, s: State, i: nat, token: string, a: Answers)
    requires Lawful(p.crypto) && OwnersProven(p, acts, s)
    ensures OwnersProven(p, acts, Apply(p, s, Notify(i, token, a)))
  {
    if i < |s.loaded| && s.loaded[i].key == TokenKey(p.crypto, token) {
      VerificationProven(p, acts, s, s.loaded[i].sub.identityId, token, "", false, a);
    }
  }

  lemma VoidProven(p: Provider, acts: seq<Action>, s: State, i: nat)
    requires OwnersProven(p, acts, s)
    ensures OwnersProven(p, acts, Apply(p, s, Void(i)))
  {
    if i < |s.loaded| {
      OfferProven(p, acts, s, InsertRow(s.loaded[i].key, s.loaded[i].sub.(status := Refunded)));
    }
  }

  lemma PendingProven(p: Provider, acts: seq<Action>, s: State, i: nat)
    requires Inv(p, s) && OwnersProven(p, acts, s)
    ensures OwnersProven(p, acts, Apply(p, s, RunInsert(i))) && OwnersProven(p, acts, Apply(p, s, RunMerge(i)))
  {
    if i < |s.pending| {
      StatementProven(p, acts, s, InsertRow(s.pending[i].key, s.pending[i].write));
      StatementProven(p, acts, s, UpdateRow(s.pending[i].key, s.pending[i].write));
    }
  }

  lemma StepProven(p: Provider, acts: seq<Action>, s: State, a: Action)
    requires Lawful(p.crypto) && Inv(p, s) && OwnersProven(p, acts, s) && a in acts
    ensures OwnersProven(p, acts, Apply(p, s, a))
  {
    match a
    case Verify(identity, token, expected, answers) =>
      VerificationProven(p, acts, s, identity, token, expected, true, answers);
    case Load(k) => LoadProven(p, acts, s, k);
    case Notify(i, token, answers) => NotifyProven(p, acts, s, i, token, answers);
    case Void(i) => VoidProven(p, acts, s, i);
    case Reconcile(i, answers) => if i < |s.loaded| { ReconcileProven(p, acts, s, i, answers); }
    case RunInsert(i) => PendingProven(p, acts, s, i);
    case RunMerge(i) => PendingProven(p, acts, s, i);
  }

  lemma {:induction false} ExecProven(p: Provider, acts: seq<Action>, s: State, rest: seq<Action>)
    requires Lawful(p.crypto) && Inv(p, s) && OwnersProven(p, acts, s)
    requires forall a :: a in rest ==> a in acts
    ensures OwnersProven(p, acts, Exec(p, s, rest))
    decreases |rest|
  {
    if rest == [] {
    } else {
      StepProven(p, acts, s, rest[0]);
      StepInv(p, s, rest[0]);
      ExecProven(p, acts, Apply(p, s, rest[0]), rest[1..]);
    }
  }

  /** In every interleaving, the owner of a row is an identity that verified the row's own purchase while Google
      reported the purchase's account as bound to it. No notification, void or reconciliation makes an owner. */
  lemma OwnersAreProven(p: Provider, acts: seq<Action>, k: Key)
    requires Lawful(p.crypto) && k in Exec(p, INITIAL, acts).table.rows
    ensures Proven(p, acts, k, Exec(p, INITIAL, acts).table.rows[k].sub.identityId)
  {
    ExecProven(p, acts, INITIAL, acts);
  }
}
