/** Schema migrations: the runner that applies each version once, and the backfill of version 1 that prepares
    legacy webhook rows for the lease protocol. */
module Migrations {
  import opened Basics
  import W = Webhooks
  import L = LeaseProtocol
  import LeaseSafety

  // ----- The runner -----

  /** A migration transforms the database contents. */
  datatype Migration<!C> = Migration(version: int, up: C -> C)

  /** How the i-th turn of a run goes: well, the lookup of the version fails, or the transaction (the migration
      or its record) fails and is rolled back. */
  datatype Turn = Healthy | LookupFails | TransactionFails

  /** One run's view of the outside: whether the version table could be set up, and its turns. */
  datatype Conditions = Conditions(setup: bool, turns: nat -> Turn)

  /** The contents and the versions recorded, in the order of their commits. */
  datatype Snapshot<C> = Snapshot(contents: C, recorded: seq<int>)

  datatype Ended<C> = Ended(db: Snapshot<C>, ok: bool)

  function Versions<C>(ms: seq<Migration<C>>): seq<int> {
    seq(|ms|, i requires 0 <= i < |ms| => ms[i].version)
  }

  function Apply<C>(ms: seq<Migration<C>>, contents: C): C {
    if ms == [] then contents else ms[|ms| - 1].up(Apply(ms[..|ms| - 1], contents))
  }

  /** The rest of a run from its `i`-th turn on. */
  function RunFrom<C>(ms: seq<Migration<C>>, turns: nat -> Turn, i: nat, db: Snapshot<C>): Ended<C>
    requires i <= |ms|
    decreases |ms| - i
  {
    if i == |ms| then Ended(db, true)
    else if turns(i).LookupFails? then Ended(db, false)
    else if ms[i].version in db.recorded then RunFrom(ms, turns, i + 1, db)
    else if turns(i).TransactionFails? then Ended(db, false)
    else RunFrom(ms, turns, i + 1, Snapshot(ms[i].up(db.contents), db.recorded + [ms[i].version]))
  }

  function Run<C>(ms: seq<Migration<C>>, c: Conditions, db: Snapshot<C>): Ended<C> {
    if !c.setup then Ended(db, false) else RunFrom(ms, c.turns, 0, db)
  }

  class Database<C(!new)> {
    var contents: C
    var recorded: seq<int>

    constructor (contents: C)
      ensures this.contents == contents && recorded == []
    {
      this.contents, recorded := contents, [];
    }

    method RunMigrations(ms: seq<Migration<C>>, c: Conditions) returns (ok: bool)
      modifies this
      ensures Ended(Snapshot(contents, recorded), ok) == Run(ms, c, Snapshot(old(contents), old(recorded)))
    {
      if !c.setup {
        return false;
      }
      for i := 0 to |ms|
        invariant RunFrom(ms, c.turns, i, Snapshot(contents, recorded))
                  == RunFrom(ms, c.turns, 0, Snapshot(old(contents), old(recorded)))
      {
        var turn := c.turns(i);
        if turn == LookupFails {
          return false;
        }
        if ms[i].version !in recorded {
          if turn == TransactionFails {
            return false;
          }
          contents, recorded := ms[i].up(contents), recorded + [ms[i].version];
        }
      }
      return true;
    }
  }

  ghost predicate Distinct<C(!new)>(ms: seq<Migration<C>>) {
    forall i, j :: 0 <= i < j < |ms| ==> ms[i].version != ms[j].version
  }

  /** Exactly the first `p` migrations have been committed, once each and in order, on top of `start`. */
  ghost predicate AppliedTo<C(!new)>(ms: seq<Migration<C>>, p: nat, start: C, db: Snapshot<C>) {
    p <= |ms| && db.recorded == Versions(ms[..p]) && db.contents == Apply(ms[..p], start)
  }

  lemma CommitNext<C(!new)>(ms: seq<Migration<C>>, p: nat, start: C, db: Snapshot<C>)
    requires Distinct(ms) && AppliedTo(ms, p, start, db) && p < |ms|
    ensures ms[p].version !in db.recorded
    ensures AppliedTo(ms, p + 1, start, Snapshot(ms[p].up(db.contents), db.recorded + [ms[p].version]))
  {
    assert ms[..p + 1][..p] == ms[..p];
    assert Versions(ms[..p + 1]) == Versions(ms[..p]) + [ms[p].version];
    forall i | 0 <= i < p ensures db.recorded[i] != ms[p].version {
      assert db.recorded[i] == ms[i].version;
    }
  }

  /** From a committed prefix, the rest of a run commits a longer prefix; it reports success only when the prefix
      is the whole list, and always does so when no turn fails. */
  lemma {:induction false} RunFromExtends<C(!new)>(ms: seq<Migration<C>>, turns: nat -> Turn, i: nat, p: nat,
                                                     start: C, db: Snapshot<C>)
    returns (q: nat)
    requires Distinct(ms) && AppliedTo(ms, p, start, db) && i <= |ms|
    requires i <= p || i == p
    ensures p <= q && AppliedTo(ms, q, start, RunFrom(ms, turns, i, db).db)
    ensures RunFrom(ms, turns, i, db).ok ==> q == |ms|
    ensures (forall j :: i <= j < |ms| ==> turns(j).Healthy?) ==> RunFrom(ms, turns, i, db).ok
    ensures p == |ms| ==> q == |ms|
    decreases |ms| - i
  {
    if i == |ms| || turns(i).LookupFails? {
      q := p;
    } else if i < p {
      assert db.recorded[i] == ms[i].version;
      q := RunFromExtends(ms, turns, i + 1, p, start, db);
    } else {
      CommitNext(ms, p, start, db);
      if turns(i).TransactionFails? {
        q := p;
      } else {
        var db' := Snapshot(ms[p].up(db.contents), db.recorded + [ms[p].version]);
        q := RunFromExtends(ms, turns, i + 1, p + 1, start, db');
      }
    }
  }

  /** What committing a prefix means: from `start`, the contents went through the `up` of each of its migrations, and
      their versions were recorded in that order. */
  lemma {:induction false} PrefixIsTransformed<C(!new)>(ms: seq<Migration<C>>, p: nat, start: C, db: Snapshot<C>)
    returns (steps: seq<C>)
    requires AppliedTo(ms, p, start, db)
    ensures |steps| == p + 1 && steps[0] == start && steps[p] == db.contents
    ensures forall i :: 0 <= i < p ==> steps[i + 1] == ms[i].up(steps[i])
    ensures |db.recorded| == p && forall i :: 0 <= i < p ==> db.recorded[i] == ms[i].version
  {
    if p == 0 {
      steps := [start];
    } else {
      assert ms[..p][..p - 1] == ms[..p - 1];
      steps := PrefixIsTransformed(ms, p - 1, start, Snapshot(Apply(ms[..p - 1], start), Versions(ms[..p - 1])));
      steps := steps + [db.contents];
    }
  }

  /** A run reports success exactly when its setup, every lookup and every transaction that it needs succeed. */
  lemma {:induction false} RunFromSucceedsIff<C(!new)>(ms: seq<Migration<C>>, turns: nat -> Turn, i: nat,
                                                         db: Snapshot<C>)
    requires Distinct(ms) && i <= |ms|
    ensures RunFrom(ms, turns, i, db).ok <==>
              forall j :: i <= j < |ms| ==>
                turns(j).Healthy? || (turns(j).TransactionFails? && ms[j].version in db.recorded)
    decreases |ms| - i
  {
    if i == |ms| || turns(i).LookupFails? {
    } else if ms[i].version in db.recorded {
      RunFromSucceedsIff(ms, turns, i + 1, db);
    } else if turns(i).TransactionFails? {
    } else {
      var db' := Snapshot(ms[i].up(db.contents), db.recorded + [ms[i].version]);
      RunFromSucceedsIff(ms, turns, i + 1, db');
      forall j | i < j < |ms| ensures ms[j].version in db'.recorded <==> ms[j].version in db.recorded {
        assert ms[j].version != ms[i].version;
      }
    }
  }

  lemma RunSucceedsIff<C(!new)>(ms: seq<Migration<C>>, c: Conditions, db: Snapshot<C>)
    requires Distinct(ms)
    ensures Run(ms, c, db).ok <==>
              c.setup && forall j :: 0 <= j < |ms| ==>
                           c.turns(j).Healthy? || (c.turns(j).TransactionFails? && ms[j].version in db.recorded)
  {
    RunFromSucceedsIff(ms, c.turns, 0, db);
  }

  /** The database after a series of runs. */
  function RunAll<C>(ms: seq<Migration<C>>, runs: seq<Conditions>, db: Snapshot<C>): Snapshot<C> {
    if runs == [] then db else Run(ms, runs[|runs| - 1], RunAll(ms, runs[..|runs| - 1], db)).db
  }

  /** Over any number of runs that fail anywhere, each migration is committed at most once and in order, the
      recorded versions always describe the contents, and progress is never lost. */
  lemma {:induction false} RunsCommitAPrefix<C(!new)>(ms: seq<Migration<C>>, runs: seq<Conditions>, p: nat,
                                                        start: C, db: Snapshot<C>)
    returns (q: nat)
    requires Distinct(ms) && AppliedTo(ms, p, start, db)
    ensures p <= q && AppliedTo(ms, q, start, RunAll(ms, runs, db))
    ensures p == |ms| ==> RunAll(ms, runs, db) == db
  {
    if runs == [] {
      q := p;
    } else {
      var r := RunsCommitAPrefix(ms, runs[..|runs| - 1], p, start, db);
      var before := RunAll(ms, runs[..|runs| - 1], db);
      if runs[|runs| - 1].setup {
        q := RunFromExtends(ms, runs[|runs| - 1].turns, 0, r, start, before);
      } else {
        q := r;
      }
    }
  }

  /** A run in which nothing fails completes the list, whatever failed before it; one after full success changes
      nothing. */
  lemma HealthyRunCompletes<C(!new)>(ms: seq<Migration<C>>, runs: seq<Conditions>, p: nat, start: C, db: Snapshot<C>,
                                     c: Conditions)
    requires Distinct(ms) && AppliedTo(ms, p, start, db)
    requires c.setup && forall j :: 0 <= j < |ms| ==> c.turns(j).Healthy?
    ensures var after := Run(ms, c, RunAll(ms, runs, db));
            && after.ok
            && AppliedTo(ms, |ms|, start, after.db)
            && forall again: Conditions :: RunAll(ms, [again], after.db) == after.db
  {
    var q := RunsCommitAPrefix(ms, runs, p, start, db);
    var r := RunFromExtends(ms, c.turns, 0, q, start, RunAll(ms, runs, db));
    var done := Run(ms, c, RunAll(ms, runs, db)).db;
    forall again: Conditions ensures RunAll(ms, [again], done) == done {
      var _ := RunsCommitAPrefix(ms, [again], |ms|, start, done);
    }
  }

  // ----- The backfill of version 1 -----

  /** A webhook row found by the migration; its new columns hold their defaults. */
  datatype LegacyRow = LegacyRow(row: W.Row, createdAt: Option<Time>, updatedAt: Option<Time>)

  type LegacyTable = map<W.Key, LegacyRow>

  function Coalesce(a: Option<Time>, b: Option<Time>): Option<Time> {
    if a.Some? then a else b
  }

  predicate HasError(r: LegacyRow) {
    r.row.lastError.Some? && r.row.lastError.value != ""
  }

  /** UPDATE ... SET status = SUCCEEDED WHERE processed_at IS NOT NULL, as one row sees it. */
  function MarkSucceeded(r: LegacyRow): LegacyRow {
    if r.row.processedAt.Some? then r.(row := r.row.(status := W.Succeeded)) else r
  }

  /** UPDATE ... SET status = FAILED WHERE processed_at IS NULL AND last_error <> ''. */
  function MarkFailed(r: LegacyRow): LegacyRow {
    if r.row.processedAt.None? && HasError(r) then r.(row := r.row.(status := W.Failed)) else r
  }

  /** UPDATE ... SET processing_started_at = COALESCE(updated_at, created_at) WHERE processed_at IS NULL AND
      (last_error = '' OR last_error IS NULL) AND processing_started_at IS NULL. */
  function DateStart(r: LegacyRow): LegacyRow {
    if && r.row.processedAt.None? && (r.row.lastError == Some("") || r.row.lastError.None?)
       && r.row.processingStartedAt.None?
    then r.(row := r.row.(processingStartedAt := Coalesce(r.updatedAt, r.createdAt))) else r
  }

  /** What the three statements together make of a row. */
  function Backfilled(r: LegacyRow): W.Row {
    DateStart(MarkFailed(MarkSucceeded(r))).row
  }

  method Backfill(t: LegacyTable) returns (rows: W.Table)
    ensures rows == map k | k in t :: Backfilled(t[k])
  {
    var t1 := map k | k in t :: MarkSucceeded(t[k]);
    var t2 := map k | k in t1 :: MarkFailed(t1[k]);
    var t3 := map k | k in t2 :: DateStart(t2[k]);
    rows := map k | k in t3 :: t3[k].row;
  }

  /** The row has some time from which an interrupted attempt can be dated. */
  predicate Dated(r: LegacyRow) {
    r.row.processingStartedAt.Some? || r.updatedAt.Some? || r.createdAt.Some?
  }

  /** From rows in the default state, the backfill marks exactly the processed ones SUCCEEDED and exactly the
      unprocessed ones with a nonblank error FAILED. It dates those left in PROCESSING by their own start, else by the
      last update, else by the creation, and changes no other column. */
  lemma BackfillClassifies(r: LegacyRow)
    requires r.row.status.Processing?
    ensures var row := Backfilled(r);
            && (row.status.Succeeded? <==> r.row.processedAt != None)
            && (row.status.Failed? <==>
                  r.row.processedAt == None && r.row.lastError != None && r.row.lastError != Some(""))
            && (row.status.Processing? ==>
                  row.processingStartedAt == if r.row.processingStartedAt != None then r.row.processingStartedAt
                                             else if r.updatedAt != None then r.updatedAt else r.createdAt)
            && (!row.status.Processing? ==> row.processingStartedAt == r.row.processingStartedAt)
            && row == r.row.(status := row.status, processingStartedAt := row.processingStartedAt)
  {
  }

  /** Exactly when a legacy event can ever be claimed again: it is unprocessed, and it failed or carries some
      timestamp. A row without any stays in PROCESSING for ever. */
  lemma ReclaimableIff(r: LegacyRow, lease: Time)
    requires r.row.status.Processing?
    ensures (exists now :: W.Claimable(Backfilled(r), now, lease))
            <==> r.row.processedAt.None? && (HasError(r) || Dated(r))
  {
    var row := Backfilled(r);
    if row.status.Failed? {
      assert W.Claimable(row, 0, lease);
    } else if row.status.Processing? && row.processingStartedAt.Some? {
      assert W.Claimable(row, row.processingStartedAt.value + lease + 1, lease);
    }
  }

  /** A row without any timestamp is one that no claim ever matches. */
  lemma UndatedIsNeverClaimable(now: Time, lease: Time)
    ensures var row := W.Row("", W.Processing, 0, None, "", "", None, None, None, None);
            !W.Claimable(Backfilled(LegacyRow(row, None, None)), now, lease)
  {
  }

  /** An unprocessed event without an error and without a time is lost to the protocol: whatever runs after the
      backfill leaves its row as it is. */
  lemma UndatedStaysForever(t: LegacyTable, parse: (string, Bytes) -> Option<string>, lease: Time, t0: Time,
                            acts: seq<L.Action>, k: W.Key)
    requires k in t && t[k].row.status.Processing?
    requires t[k].row.processedAt.None? && !HasError(t[k]) && !Dated(t[k])
    ensures var c := L.Config(parse, lease, map j | j in t :: Backfilled(t[j]));
            k in L.Reached(c, t0, acts).rows && L.Reached(c, t0, acts).rows[k] == Backfilled(t[k])
            && Backfilled(t[k]).status.Processing?
  {
    var c := L.Config(parse, lease, map j | j in t :: Backfilled(t[j]));
    LeaseSafety.UndatedRowIsStuck(c, t0, acts, k);
  }

  /** A backfilled row that is still PROCESSING was interrupted, and is dated by the time found, if any. */
  lemma InterruptedIsDated(r: LegacyRow)
    requires r.row.status.Processing?
    ensures Backfilled(r).status.Processing? <==> r.row.processedAt.None? && !HasError(r)
    ensures Backfilled(r).status.Processing? ==>
              Backfilled(r).processingStartedAt
              == Coalesce(r.row.processingStartedAt, Coalesce(r.updatedAt, r.createdAt))
    ensures Backfilled(r).payload == r.row.payload
  {
  }

  /** The backfill establishes the starting invariant of the lease protocol exactly when every interrupted row
      carries a time, not in the future, and stored payloads belong to their events. */
  lemma BackfillStartsProtocol(t: LegacyTable, parse: (string, Bytes) -> Option<string>, lease: Time, t0: Time)
    requires forall k :: k in t ==> t[k].row.status.Processing?
    ensures var c := L.Config(parse, lease, map k | k in t :: Backfilled(t[k]));
            L.BaseOk(c, t0) <==>
              forall k :: k in t ==>
                && (t[k].row.processedAt.None? && !HasError(t[k]) ==>
                      && Dated(t[k])
                      && Coalesce(t[k].row.processingStartedAt, Coalesce(t[k].updatedAt, t[k].createdAt)).value <= t0)
                && (t[k].row.payload.Some? ==> parse(k.provider, t[k].row.payload.value) == Some(k.eventId))
  {
    var c := L.Config(parse, lease, map k | k in t :: Backfilled(t[k]));
    forall k | k in t
      ensures c.base[k].status.Processing? <==> t[k].row.processedAt.None? && !HasError(t[k])
      ensures c.base[k].status.Processing? ==>
                c.base[k].processingStartedAt
                == Coalesce(t[k].row.processingStartedAt, Coalesce(t[k].updatedAt, t[k].createdAt))
      ensures c.base[k].payload == t[k].row.payload
    {
      InterruptedIsDated(t[k]);
    }
  }
}
