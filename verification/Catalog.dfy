/** The product catalog: the list read from configuration, the two-level index built from it, and lookups. */
module Catalog {
  import opened Basics
  import opened Intervals

  datatype Product = Product(
    provider: string,
    productId: string,
    planCode: string,
    kind: string,
    currency: string,
    amountMinor: int,
    interval: string,
    enabled: Option<bool>)

  /** Unicode case mapping, as the platform defines it. */
  datatype Casing = Casing(lower: string -> string, upper: string -> string)

  datatype LoadError =
    | NoProviders
    | UnsupportedProvider(name: string)
    | InvalidEntry(productId: string)
    | InvalidEntryInterval(productId: string)
    | Duplicate(provider: string, productId: string)
    | NoProducts(provider: string)

  type Index = map<string, map<string, Product>>

  function Normalized(c: Casing, p: Product): Product {
    p.(provider := c.lower(TrimSpace(p.provider)), productId := TrimSpace(p.productId),
       planCode := TrimSpace(p.planCode), kind := c.lower(TrimSpace(p.kind)),
       currency := c.upper(TrimSpace(p.currency)), interval := c.lower(TrimSpace(p.interval)))
  }

  predicate Complete(p: Product) {
    && p.provider != "" && p.productId != "" && p.planCode != ""
    && p.amountMinor > 0 && ByteLength(p.currency) == 3
    && (p.kind == "one_time" || p.kind == "subscription")
  }

  predicate IntervalFits(p: Product) {
    && (p.kind == "subscription" ==> ValidInterval(p.interval))
    && (p.kind == "one_time" ==> p.interval == "")
  }

  predicate IsEnabled(p: Product) {
    p.enabled != Some(false)
  }

  predicate SameEntry(p: Product, q: Product) {
    p.provider == q.provider && p.productId == q.productId
  }

  predicate Has(ix: Index, provider: string, productId: string) {
    provider in ix && productId in ix[provider]
  }

  /** `p` is an enabled entry among the first `n`, normalized. */
  ghost predicate Lists(c: Casing, ps: seq<Product>, n: nat, p: Product)
    requires n <= |ps|
  {
    exists i :: 0 <= i < n && IsEnabled(ps[i]) && Normalized(c, ps[i]) == p
  }

  /** What is wrong with entry `n`, given the entries before it. */
  ghost function Offence(c: Casing, ps: seq<Product>, n: nat): Option<LoadError>
    requires n < |ps|
  {
    var p := Normalized(c, ps[n]);
    if !Complete(p) then Some(InvalidEntry(p.productId))
    else if !IntervalFits(p) then Some(InvalidEntryInterval(p.productId))
    else if IsEnabled(p) && exists q :: Lists(c, ps, n, q) && SameEntry(q, p)
    then Some(Duplicate(p.provider, p.productId))
    else None
  }

  /** Every entry sits under its own names and no provider is listed without entries. */
  ghost predicate WellNamed(ix: Index) {
    && (forall provider, id :: Has(ix, provider, id) ==>
          ix[provider][id].provider == provider && ix[provider][id].productId == id)
    && (forall provider :: provider in ix ==> ix[provider] != map[])
  }

  predicate Holds(ix: Index, p: Product) {
    Has(ix, p.provider, p.productId) && ix[p.provider][p.productId] == p
  }

  /** The index holds exactly the enabled entries among the first `n`, normalized, under their own names. */
  ghost predicate Indexes(c: Casing, ps: seq<Product>, n: nat, ix: Index)
    requires n <= |ps|
  {
    && (forall p :: Lists(c, ps, n, p) <==> Holds(ix, p))
    && WellNamed(ix)
  }

  function Add(ix: Index, p: Product): Index {
    ix[p.provider := (if p.provider in ix then ix[p.provider] else map[])[p.productId := p]]
  }

  lemma AddHolds(ix: Index, p: Product, q: Product)
    ensures Holds(Add(ix, p), q) <==> if SameEntry(q, p) then q == p else Holds(ix, q)
  {
  }

  lemma AddNames(ix: Index, p: Product)
    requires WellNamed(ix)
    ensures WellNamed(Add(ix, p))
  {
    var ix' := Add(ix, p);
    assert p.productId in ix'[p.provider];
    forall provider, id | Has(ix', provider, id)
      ensures ix'[provider][id].provider == provider && ix'[provider][id].productId == id
    {
      assert (provider == p.provider && id == p.productId) || Has(ix, provider, id);
    }
  }

  lemma ListsStep(c: Casing, ps: seq<Product>, n: nat, q: Product)
    requires n < |ps|
    ensures Lists(c, ps, n + 1, q) <==> Lists(c, ps, n, q) || (IsEnabled(ps[n]) && Normalized(c, ps[n]) == q)
  {
  }

  lemma EntryStep(c: Casing, ps: seq<Product>, n: nat, ix: Index, q: Product)
    requires n < |ps| && Indexes(c, ps, n, ix) && Offence(c, ps, n).None? && IsEnabled(ps[n])
    ensures var ix' := Add(ix, Normalized(c, ps[n]));
            Lists(c, ps, n + 1, q) <==> Holds(ix', q)
  {
    var p := Normalized(c, ps[n]);
    ListsStep(c, ps, n, q);
    AddHolds(ix, p, q);
    if SameEntry(q, p) {
      assert !Lists(c, ps, n, q);
    }
  }

  lemma SkipStep(c: Casing, ps: seq<Product>, n: nat, ix: Index)
    requires n < |ps| && Indexes(c, ps, n, ix) && !IsEnabled(ps[n])
    ensures Indexes(c, ps, n + 1, ix)
  {
    forall q ensures Lists(c, ps, n + 1, q) <==> Lists(c, ps, n, q) {
      ListsStep(c, ps, n, q);
    }
  }

  lemma AddStep(c: Casing, ps: seq<Product>, n: nat, ix: Index, ix': Index)
    requires n < |ps| && Indexes(c, ps, n, ix) && Offence(c, ps, n).None? && IsEnabled(ps[n])
    requires ix' == Add(ix, Normalized(c, ps[n]))
    ensures Indexes(c, ps, n + 1, ix')
  {
    AddNames(ix, Normalized(c, ps[n]));
    forall q ensures Lists(c, ps, n + 1, q) <==> Holds(ix', q) {
      EntryStep(c, ps, n, ix, q);
    }
  }

  lemma IndexStep(c: Casing, ps: seq<Product>, n: nat, ix: Index)
    requires n < |ps| && Indexes(c, ps, n, ix)
    ensures Offence(c, ps, n).None? ==>
              Indexes(c, ps, n + 1, if IsEnabled(ps[n]) then Add(ix, Normalized(c, ps[n])) else ix)
  {
    if Offence(c, ps, n).None? {
      if IsEnabled(ps[n]) {
        AddStep(c, ps, n, ix, Add(ix, Normalized(c, ps[n])));
      } else {
        SkipStep(c, ps, n, ix);
      }
    }
  }

  /** Against a correct index, the duplicate test of the loop is the one of the list. */
  lemma OffenceIs(c: Casing, ps: seq<Product>, n: nat, ix: Index)
    requires n < |ps| && Indexes(c, ps, n, ix)
    ensures var p := Normalized(c, ps[n]);
            Offence(c, ps, n) == if !Complete(p) then Some(InvalidEntry(p.productId))
                                 else if !IntervalFits(p) then Some(InvalidEntryInterval(p.productId))
                                 else if IsEnabled(p) && Has(ix, p.provider, p.productId)
                                 then Some(Duplicate(p.provider, p.productId)) else None
  {
    var p := Normalized(c, ps[n]);
    if Has(ix, p.provider, p.productId) {
      assert Holds(ix, ix[p.provider][p.productId]);
      assert Lists(c, ps, n, ix[p.provider][p.productId]) && SameEntry(ix[p.provider][p.productId], p);
    }
  }

  /** The first `n` entries are acceptable. */
  ghost predicate Clean(c: Casing, ps: seq<Product>, n: nat)
    requires n <= |ps|
  {
    forall m :: 0 <= m < n ==> Offence(c, ps, m).None?
  }

  lemma TakenIff(c: Casing, ps: seq<Product>, n: nat, p: Product)
    requires n <= |ps|
    ensures (exists q :: Lists(c, ps, n, q) && SameEntry(q, p)) <==>
              exists i :: 0 <= i < n && ps[i].enabled != Some(false)
                && c.lower(TrimSpace(ps[i].provider)) == p.provider && TrimSpace(ps[i].productId) == p.productId
  {
    if q :| Lists(c, ps, n, q) && SameEntry(q, p) {
      var i :| 0 <= i < n && IsEnabled(ps[i]) && Normalized(c, ps[i]) == q;
      assert c.lower(TrimSpace(ps[i].provider)) == p.provider && TrimSpace(ps[i].productId) == p.productId;
    }
    forall i | 0 <= i < n && ps[i].enabled != Some(false)
               && c.lower(TrimSpace(ps[i].provider)) == p.provider && TrimSpace(ps[i].productId) == p.productId
      ensures exists q :: Lists(c, ps, n, q) && SameEntry(q, p)
    {
      assert Lists(c, ps, n, Normalized(c, ps[i])) && SameEntry(Normalized(c, ps[i]), p);
    }
  }

  /** What makes entry `n` unacceptable, in terms of the entries as they were read. */
  lemma OffenceIff(c: Casing, ps: seq<Product>, n: nat)
    requires n < |ps|
    ensures var p := ps[n];
            var provider, id := c.lower(TrimSpace(p.provider)), TrimSpace(p.productId);
            var kind, interval := c.lower(TrimSpace(p.kind)), c.lower(TrimSpace(p.interval));
            var incomplete := provider == "" || id == "" || TrimSpace(p.planCode) == "" || p.amountMinor <= 0
                              || ByteLength(c.upper(TrimSpace(p.currency))) != 3
                              || (kind != "one_time" && kind != "subscription");
            var misfit := (kind == "subscription" && !ValidInterval(interval))
                          || (kind == "one_time" && interval != "");
            var taken := p.enabled != Some(false)
                         && exists i :: 0 <= i < n && ps[i].enabled != Some(false)
                              && c.lower(TrimSpace(ps[i].provider)) == provider && TrimSpace(ps[i].productId) == id;
            Offence(c, ps, n)
            == if incomplete then Some(InvalidEntry(id))
               else if misfit then Some(InvalidEntryInterval(id))
               else if taken then Some(Duplicate(provider, id)) else None
  {
    TakenIff(c, ps, n, Normalized(c, ps[n]));
  }

  /** What a loaded index holds: exactly the entries not disabled, trimmed and in the catalog's case, each under its
      provider and ID. */
  lemma IndexHoldsIff(c: Casing, ps: seq<Product>, ix: Index, provider: string, id: string, p: Product)
    requires Indexes(c, ps, |ps|, ix)
    ensures (provider in ix && id in ix[provider] && ix[provider][id] == p) <==>
              && p.provider == provider && p.productId == id
              && exists i :: 0 <= i < |ps| && ps[i].enabled != Some(false)
                   && p == Product(c.lower(TrimSpace(ps[i].provider)), TrimSpace(ps[i].productId),
                                   TrimSpace(ps[i].planCode), c.lower(TrimSpace(ps[i].kind)),
                                   c.upper(TrimSpace(ps[i].currency)), ps[i].amountMinor,
                                   c.lower(TrimSpace(ps[i].interval)), ps[i].enabled)
  {
    if provider in ix && id in ix[provider] && ix[provider][id] == p {
      assert Has(ix, provider, id);
      assert Holds(ix, p);
      assert Lists(c, ps, |ps|, p);
    }
    forall i | 0 <= i < |ps| && ps[i].enabled != Some(false) ensures Holds(ix, Normalized(c, ps[i])) {
      assert Lists(c, ps, |ps|, Normalized(c, ps[i]));
    }
  }

  /** One turn of the loading loop. */
  method LoadEntry(c: Casing, ps: seq<Product>, n: nat, ix: Index) returns (r: Result<Index, LoadError>)
    requires n < |ps| && Indexes(c, ps, n, ix)
    ensures r.Success? ==> Offence(c, ps, n).None? && Indexes(c, ps, n + 1, r.value)
    ensures r.Failure? ==> Offence(c, ps, n) == Some(r.error)
  {
    var p := Normalized(c, ps[n]);
    OffenceIs(c, ps, n, ix);
    IndexStep(c, ps, n, ix);
    if !Complete(p) {
      return Failure(InvalidEntry(p.productId));
    }
    if !IntervalFits(p) {
      return Failure(InvalidEntryInterval(p.productId));
    }
    if !IsEnabled(p) {
      return Success(ix);
    }
    if Has(ix, p.provider, p.productId) {
      return Failure(Duplicate(p.provider, p.productId));
    }
    return Success(Add(ix, p));
  }

  /** Loading succeeds exactly when no entry offends, reports the first offending entry otherwise, and on
      success the index agrees with the list. */
  method BuildIndex(c: Casing, ps: seq<Product>) returns (r: Result<Index, LoadError>)
    ensures r.Success? <==> Clean(c, ps, |ps|)
    ensures r.Success? ==> Indexes(c, ps, |ps|, r.value)
    ensures r.Failure? ==> exists n :: 0 <= n < |ps| && Clean(c, ps, n) && Offence(c, ps, n) == Some(r.error)
  {
    var ix: Index := map[];
    for n := 0 to |ps|
      invariant Indexes(c, ps, n, ix)
      invariant Clean(c, ps, n)
    {
      var loaded := LoadEntry(c, ps, n, ix);
      if loaded.Failure? {
        return loaded;
      }
      ix := loaded.value;
    }
    return Success(ix);
  }

  /** Trimmed and lower-cased names, blanks dropped, each kept where it first appears. */
  function DistinctNames(c: Casing, values: seq<string>): (out: seq<string>)
    ensures forall s :: s in out <==> s != "" && exists i :: 0 <= i < |values| && c.lower(TrimSpace(values[i])) == s
    ensures forall i, j :: 0 <= i < j < |out| ==> out[i] != out[j]
  {
    if values == [] then []
    else
      var out, s := DistinctNames(c, values[..|values| - 1]), c.lower(TrimSpace(values[|values| - 1]));
      if s == "" || s in out then out else out + [s]
  }

  method NormalizedProviders(c: Casing, values: seq<string>) returns (out: seq<string>)
    ensures out == DistinctNames(c, values)
  {
    var seen: set<string> := {};
    out := [];
    for i := 0 to |values|
      invariant out == DistinctNames(c, values[..i])
      invariant forall s :: s in seen <==> s in out
    {
      var value := c.lower(TrimSpace(values[i]));
      assert values[..i + 1][..i] == values[..i];
      if value != "" && value !in seen {
        seen := seen + {value};
        out := out + [value];
      }
    }
    assert values[..|values|] == values;
  }

  /** A provider has an entry in the index exactly when the list has an enabled product for it. */
  lemma ProviderIndexedIff(c: Casing, ps: seq<Product>, ix: Index, provider: string)
    requires Indexes(c, ps, |ps|, ix)
    ensures provider in ix <==> exists p :: Lists(c, ps, |ps|, p) && p.provider == provider
  {
    if provider in ix {
      var id :| id in ix[provider];
      assert Has(ix, provider, id);
      assert Lists(c, ps, |ps|, ix[provider][id]);
    }
  }

  datatype RuntimeConfig = RuntimeConfig(enabledProviders: seq<string>, products: Index)

  /** Whether the requested providers are acceptable at all. */
  predicate Supported(name: string) {
    name == "stripe" || name == "google" || name == "apple"
  }

  method FirstUnsupported(names: seq<string>) returns (bad: Option<string>)
    ensures bad.None? <==> forall s :: s in names ==> Supported(s)
    ensures bad.Some? ==> bad.value in names && !Supported(bad.value)
  {
    for i := 0 to |names|
      invariant forall j :: 0 <= j < i ==> Supported(names[j])
    {
      if !Supported(names[i]) {
        return Some(names[i]);
      }
    }
    return None;
  }

  method FirstUnstocked(names: seq<string>, ix: Index) returns (bad: Option<string>)
    requires forall s :: s in ix ==> ix[s] != map[]
    ensures bad.None? <==> forall s :: s in names ==> s in ix
    ensures bad.Some? ==> bad.value in names && bad.value !in ix
  {
    for i := 0 to |names|
      invariant forall j :: 0 <= j < i ==> names[j] in ix
    {
      if names[i] !in ix || ix[names[i]] == map[] {
        return Some(names[i]);
      }
    }
    return None;
  }

  /** A configuration loads exactly when it names at least one provider, only supported ones, the catalog
      indexes, and every named provider has an enabled product. */
  method LoadRuntimeConfig(c: Casing, requested: seq<string>, ps: seq<Product>)
    returns (r: Result<RuntimeConfig, LoadError>)
    ensures r.Success? <==>
            && DistinctNames(c, requested) != []
            && (forall s :: s in DistinctNames(c, requested) ==> s in {"stripe", "google", "apple"})
            && Clean(c, ps, |ps|)
            && (forall s :: s in DistinctNames(c, requested) ==> exists p :: Lists(c, ps, |ps|, p) && p.provider == s)
    ensures r.Success? ==> r.value.enabledProviders == DistinctNames(c, requested)
                           && Indexes(c, ps, |ps|, r.value.products)
    ensures r.Failure? ==>
              match r.error
              case NoProviders => DistinctNames(c, requested) == []
              case UnsupportedProvider(name) =>
                name in DistinctNames(c, requested) && name !in {"stripe", "google", "apple"}
              case NoProducts(name) =>
                && name in DistinctNames(c, requested)
                && !exists p :: Lists(c, ps, |ps|, p) && p.provider == name
              case offence =>
                exists n :: 0 <= n < |ps| && Clean(c, ps, n) && Offence(c, ps, n) == Some(offence)
  {
    var names := NormalizedProviders(c, requested);
    if names == [] {
      return Failure(NoProviders);
    }
    var unsupported := FirstUnsupported(names);
    if unsupported.Some? {
      return Failure(UnsupportedProvider(unsupported.value));
    }
    var built := BuildIndex(c, ps);
    if built.Failure? {
      return Failure(built.error);
    }
    var unstocked := FirstUnstocked(names, built.value);
    forall s | s in names { ProviderIndexedIff(c, ps, built.value, s); }
    if unstocked.Some? {
      return Failure(NoProducts(unstocked.value));
    }
    return Success(RuntimeConfig(names, built.value));
  }

  /** `RuntimeConfig.Product`. */
  function Lookup(c: Casing, ix: Index, provider: string, productId: string, kind: string): Result<Product, Error> {
    var p, id := c.lower(TrimSpace(provider)), TrimSpace(productId);
    if !Has(ix, p, id) || (kind != "" && ix[p][id].kind != kind) then Failure(ProductRejected)
    else Success(ix[p][id])
  }

  /** A lookup returns `p` exactly when `p` is an enabled entry of the list under the normalized names asked
      for and of the kind asked for; and there is never more than one such entry. */
  lemma LookupAgreesWithList(c: Casing, ps: seq<Product>, ix: Index,
                             provider: string, productId: string, kind: string, p: Product)
    requires Indexes(c, ps, |ps|, ix)
    ensures Lookup(c, ix, provider, productId, kind) == Success(p) <==>
            && Lists(c, ps, |ps|, p)
            && p.provider == c.lower(TrimSpace(provider)) && p.productId == TrimSpace(productId)
            && (kind != "" ==> p.kind == kind)
    ensures Lookup(c, ix, provider, productId, kind).Failure? ==>
              Lookup(c, ix, provider, productId, kind).error == ProductRejected
  {
    var name, id := c.lower(TrimSpace(provider)), TrimSpace(productId);
    if Has(ix, name, id) {
      assert Lists(c, ps, |ps|, ix[name][id]);
    }
  }
}
