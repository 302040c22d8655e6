/** What the lease protocol guarantees in every run: one winner per event, a fixed accounting of attempts,
    leases spaced in time, no event stuck, and retries that replay the right payload. */
module LeaseSafety {
  import opened Basics
  import opened Webhooks
  import opened LeaseProtocol

  lemma ReachedInv(c: Config, t0: Time, acts: seq<Action>)
    requires BaseOk(c, t0)
    ensures Inv(c, Reached(c, t0, acts))
  {
    InitInv(c, t0);
    ExecInv(c, Init(c, t0), acts);
  }

  ghost predicate Grows(s: State, s': State, k: Key) {
    && Hist(s, k) <= Hist(s', k)
    && Extends(s, s')
    && s.rows.Keys <= s'.rows.Keys
    && s.clock <= s'.clock
  }

  lemma StepKeepsHistory(c: Config, s: State, a: Action, k: Key)
    ensures Hist(s, k) <= Hist(Apply(c, s, a), k)
  {
  }

  lemma StepKeepsRows(c: Config, s: State, a: Action)
    ensures var s' := Apply(c, s, a);
            s.rows.Keys <= s'.rows.Keys && s.clock <= s'.clock
  {
  }

  lemma StepExtends(c: Config, s: State, a: Action)
    ensures Extends(s, Apply(c, s, a))
  {
    if Enabled(c, s, a) {
      match a
      case Tick(_) =>
      case Deliver(_, _) =>
      case Insert(_) =>
      case TakeOver(_) =>
      case Finish(_, _) =>
      case Crash(_) =>
      case RetryRead(_) =>
      case RetryMark(_) =>
      case Cleanup(_) =>
    }
  }

  lemma StepGrows(c: Config, s: State, a: Action, k: Key)
    ensures Grows(s, Apply(c, s, a), k)
  {
    StepKeepsHistory(c, s, a, k);
    StepKeepsRows(c, s, a);
    StepExtends(c, s, a);
  }

  /** Nothing recorded is ever lost: histories only grow, workers are kept, the clock never runs back. */
  lemma {:induction false} ExecGrows(c: Config, s: State, acts: seq<Action>, k: Key)
    ensures Grows(s, Exec(c, s, acts), k)
    decreases |acts|
  {
    if acts == [] {
    } else {
      StepGrows(c, s, acts[0], k);
      ExecGrows(c, Apply(c, s, acts[0]), acts[1..], k);
    }
  }

  lemma {:induction false} ExecAppend(c: Config, s: State, a: seq<Action>, b: seq<Action>)
    ensures Exec(c, s, a + b) == Exec(c, Exec(c, s, a), b)
    decreases |a|
  {
    if a == [] {
      assert a + b == b;
    } else {
      assert (a + b)[1..] == a[1..] + b;
      ExecAppend(c, Apply(c, s, a[0]), a[1..], b);
    }
  }

  // ----- Mutual exclusion -----

  /** Lease `l` was granted for event `k`. */
  ghost predicate WasGranted(s: State, k: Key, l: string) {
    exists i :: 0 <= i < |Hist(s, k)| && Hist(s, k)[i].Granted? && Hist(s, k)[i].lease == l
  }

  /** A lease that was granted and is no longer the row's lease can never finish again: in every future
      its finish matches no row, whatever its outcome. */
  lemma SupersededLeaseIsDead(c: Config, t0: Time, past: seq<Action>, future: seq<Action>, k: Key, l: string)
    requires BaseOk(c, t0)
    requires WasGranted(Reached(c, t0, past), k, l) && !Holds(Reached(c, t0, past).rows, k, l)
    ensures var s := Reached(c, t0, past + future);
            && !Holds(s.rows, k, l)
            && forall now, err :: FinishStatement(s.rows, k, l, now, err) == s.rows
  {
    var s, s' := Reached(c, t0, past), Reached(c, t0, past + future);
    ExecAppend(c, Init(c, t0), past, future);
    ReachedInv(c, t0, past);
    ReachedInv(c, t0, past + future);
    ExecGrows(c, s, future, k);
    var h, h' := Hist(s, k), Hist(s', k);
    var i :| 0 <= i < |h| && h[i].Granted? && h[i].lease == l;
    assert KeyInv(c, s, k) && KeyInv(c, s', k);
    assert h'[i] == h[i];
    if Holds(s'.rows, k, l) {
      HeldIsLast(c, s', k, l);
      assert false;
    }
  }

  /** What may still change on a SUCCEEDED row. */
  predicate Settled(row: Row, row': Row) {
    row' == row || row' == row.(payload := None, signature := "")
  }

  lemma SucceededStep(c: Config, s: State, a: Action, k: Key)
    requires k in s.rows && s.rows[k].status.Succeeded?
    ensures var s' := Apply(c, s, a);
            k in s'.rows && Settled(s.rows[k], s'.rows[k]) && Hist(s', k) == Hist(s, k)
  {
    if Enabled(c, s, a) {
      match a
      case Tick(_) =>
      case Deliver(_, _) =>
      case Insert(_) =>
      case TakeOver(_) =>
      case Finish(_, _) =>
      case Crash(_) =>
      case RetryRead(_) =>
      case RetryMark(_) =>
      case Cleanup(_) =>
    }
  }

  /** SUCCEEDED is absorbing: no later action changes the row, except that the cleanup may clear its
      payload and signature, and no later claim of the event is granted. */
  lemma {:induction false} SucceededIsAbsorbing(c: Config, s: State, acts: seq<Action>, k: Key)
    requires k in s.rows && s.rows[k].status.Succeeded?
    ensures var s' := Exec(c, s, acts);
            k in s'.rows && Settled(s.rows[k], s'.rows[k]) && Hist(s', k) == Hist(s, k)
    decreases |acts|
  {
    if acts == [] {
    } else {
      var s1 := Apply(c, s, acts[0]);
      SucceededStep(c, s, acts[0], k);
      SucceededIsAbsorbing(c, s1, acts[1..], k);
    }
  }

  // ----- Conservation of attempts -----

  lemma {:induction false} GrantsBalance(h: seq<Event>)
    requires FinishesFollow(h)
    ensures Grants(h) == Finishes(h, true) + Finishes(h, false) + Superseded(h)
                         + if h != [] && h[|h| - 1].Granted? then 1 else 0
  {
    if h == [] {
    } else {
      var g := h[..|h| - 1];
      GrantsBalance(g);
      if |h| > 1 {
        assert g[|g| - 1] == h[|h| - 2];
      } else {
        assert g == [];
      }
    }
  }

  /** At most one success is recorded when a success can only come last. */
  lemma {:induction false} SuccessOnlyLast(h: seq<Event>)
    requires SuccessIsLast(h)
    ensures Finishes(h, true) == if h != [] && h[|h| - 1].Finished? && h[|h| - 1].ok then 1 else 0
  {
    if h == [] {
    } else {
      var g := h[..|h| - 1];
      SuccessOnlyLast(g);
      if g != [] {
        assert h[|h| - 2] == g[|g| - 1];
      }
    }
  }

  /** In every reachable state, a row's attempt counter grew by exactly the number of grants, and every
      grant has ended in a success, a failure or a take-over, or is the one in progress. A row succeeds
      at most once. */
  lemma AttemptsConserved(c: Config, t0: Time, acts: seq<Action>, k: Key)
    requires BaseOk(c, t0)
    requires k in Reached(c, t0, acts).rows
    ensures var s := Reached(c, t0, acts);
            var h := Hist(s, k);
            && s.rows[k].attempts == BaseAttempts(c, k) + Grants(h)
            && Grants(h) == Finishes(h, true) + Finishes(h, false) + Superseded(h)
                            + (if s.rows[k].status.Processing? && h != [] then 1 else 0)
            && Finishes(h, true) == (if s.rows[k].status.Succeeded? && h != [] then 1 else 0)
  {
    var s := Reached(c, t0, acts);
    ReachedInv(c, t0, acts);
    assert KeyInv(c, s, k);
    GrantsBalance(Hist(s, k));
    SuccessOnlyLast(Hist(s, k));
  }

  // ----- Spacing of leases -----

  /** Grants `i..j` of an event with no finish between them were captured more than `(j - i)` leases apart,
      even though each worker may be delayed arbitrarily between reading the clock and its statements. */
  lemma {:induction false} LeasesAreSpaced(c: Config, t0: Time, acts: seq<Action>, k: Key, i: nat, j: nat)
    requires BaseOk(c, t0)
    requires i < j < |Hist(Reached(c, t0, acts), k)|
    requires forall n :: i <= n <= j ==> Hist(Reached(c, t0, acts), k)[n].Granted?
    ensures var h := Hist(Reached(c, t0, acts), k);
            h[j].at - h[i].at > (j - i) * c.lease
    decreases j
  {
    var s := Reached(c, t0, acts);
    var h := Hist(s, k);
    ReachedInv(c, t0, acts);
    assert KeyInv(c, s, k);
    assert h[j - 1].at + c.lease < h[j].at;
    if i < j - 1 {
      LeasesAreSpaced(c, t0, acts, k, i, j - 1);
      assert (j - i) * c.lease == (j - 1 - i) * c.lease + c.lease;
    }
  }

  // ----- Recovery -----

  /** A claim that nothing interferes with. */
  function Claim(l: string, d: Delivery): seq<Action> {
    [Deliver(l, d), Insert(l), TakeOver(l)]
  }

  /** What the statements of a claim leave when nothing runs between them. */
  lemma ClaimLeaves(c: Config, s: State, l: string, d: Delivery)
    requires Fresh(c, s, l) && Parses(c, d.key, d.payload)
    ensures var s' := Exec(c, s, Claim(l, d));
            var granted := d.key !in s.rows || Claimable(s.rows[d.key], s.clock, c.lease);
            && s'.clock == s.clock
            && l in s'.workers && s'.workers[l] == Worker(d, s.clock, if granted then Holding else Gone)
            && s'.rows == ClaimStatements(s.rows, d, s.clock, l, c.lease)
            && (!granted ==> s'.history == s.history)
  {
    var s1 := Apply(c, s, Deliver(l, d));
    var s2 := Apply(c, s1, Insert(l));
    var s3 := Apply(c, s2, TakeOver(l));
    var acts := Claim(l, d);
    assert acts[1..] == [Insert(l), TakeOver(l)] && acts[1..][1..] == [TakeOver(l)] && acts[1..][1..][1..] == [];
    assert Exec(c, s, acts) == Exec(c, s1, acts[1..]) == Exec(c, s2, acts[1..][1..]) == s3;
  }

  /** A claim whose statements run without interference is granted exactly when the event is new, failed,
      or held by a lease older than the lease length. */
  lemma ClaimGranted(c: Config, s: State, l: string, d: Delivery)
    requires Inv(c, s) && Fresh(c, s, l) && Parses(c, d.key, d.payload)
    ensures var s' := Exec(c, s, Claim(l, d));
            && l in s'.workers && s'.workers[l].delivery == d
            && (s'.workers[l].phase.Holding? <==> Holds(s'.rows, d.key, l))
            && (Holds(s'.rows, d.key, l) <==>
                  d.key !in s.rows || Claimable(s.rows[d.key], s.clock, c.lease))
            && (!Holds(s'.rows, d.key, l) ==> s'.rows == s.rows && s'.history == s.history)
  {
    ClaimLeaves(c, s, l, d);
    assert !Holds(s.rows, d.key, l) by {
      assert KeyInv(c, s, d.key);
    }
  }

  /** No event is ever stuck: whatever crashed, once the lease length has passed a fresh delivery of any
      event that has not succeeded is granted. */
  lemma Recoverable(c: Config, t0: Time, acts: seq<Action>, wait: nat, l: string, d: Delivery)
    requires BaseOk(c, t0)
    requires Fresh(c, Reached(c, t0, acts), l) && Parses(c, d.key, d.payload)
    requires c.lease < wait
    ensures var s := Reached(c, t0, acts);
            var s' := Reached(c, t0, acts + [Tick(wait)] + Claim(l, d));
            && l in s'.workers && s'.workers[l].delivery == d
            && (s'.workers[l].phase.Holding? <==> Holds(s'.rows, d.key, l))
            && (Holds(s'.rows, d.key, l) <==> !(d.key in s.rows && s.rows[d.key].status.Succeeded?))
  {
    var s := Reached(c, t0, acts);
    var claim := Claim(l, d);
    ReachedInv(c, t0, acts);
    ExecGrows(c, Init(c, t0), acts, d.key);
    ExecAppend(c, Init(c, t0), acts, [Tick(wait)] + claim);
    assert acts + [Tick(wait)] + claim == acts + ([Tick(wait)] + claim);
    var s1 := Apply(c, s, Tick(wait));
    StepInv(c, s, Tick(wait));
    assert ([Tick(wait)] + claim)[1..] == claim;
    ClaimGranted(c, s1, l, d);
    assert KeyInv(c, s, d.key);
    var h := Hist(s, d.key);
    if h != [] {
      assert WorkerInv(c, s, h[|h| - 1].lease);
    }
  }

  /** A row in PROCESSING that has no start time and was never granted; and no action of its lease can be running. */
  ghost predicate Stuck(c: Config, s: State, k: Key, row: Row) {
    && k in c.base && c.base[k] == row && row.status.Processing? && row.processingStartedAt.None?
    && k in s.rows && s.rows[k] == row
    && forall l :: l in s.workers ==> l != row.leaseId
  }

  lemma StuckStep(c: Config, s: State, a: Action, k: Key, row: Row)
    requires Stuck(c, s, k, row)
    ensures Stuck(c, Apply(c, s, a), k, row)
  {
  }

  lemma {:induction false} StuckForever(c: Config, s: State, acts: seq<Action>, k: Key, row: Row)
    requires Stuck(c, s, k, row)
    ensures Stuck(c, Exec(c, s, acts), k, row)
    decreases |acts|
  {
    if acts == [] {
    } else {
      StuckStep(c, s, acts[0], k, row);
      StuckForever(c, Apply(c, s, acts[0]), acts[1..], k, row);
    }
  }

  /** Why startup rows in PROCESSING must carry a start time: one that does not is left exactly as it is by every run,
      so its event is never processed again. */
  lemma UndatedRowIsStuck(c: Config, t0: Time, acts: seq<Action>, k: Key)
    requires k in c.base && c.base[k].status.Processing? && c.base[k].processingStartedAt.None?
    ensures k in Reached(c, t0, acts).rows && Reached(c, t0, acts).rows[k] == c.base[k]
  {
    StuckForever(c, Init(c, t0), acts, k, c.base[k]);
  }

  // ----- Retries replay the right payload -----

  /** The payload and signature stored on a row that has been granted are those of its latest grant; they are there
      until the event has succeeded, and only the cleanup of a succeeded event removes it. */
  lemma PayloadOfLatestGrant(c: Config, t0: Time, acts: seq<Action>, k: Key)
    requires BaseOk(c, t0)
    requires Hist(Reached(c, t0, acts), k) != []
    ensures var s := Reached(c, t0, acts);
            var last := Hist(s, k)[|Hist(s, k)| - 1];
            && k in s.rows && last.lease in s.workers && WasGranted(s, k, last.lease)
            && var sent := s.workers[last.lease].delivery;
            && sent.key == k && Parses(c, k, sent.payload)
            && s.rows[k].eventType == sent.eventType
            && if !s.rows[k].status.Succeeded? || s.rows[k].payload.Some?
               then s.rows[k].payload == Some(sent.payload) && s.rows[k].signature == sent.signature
               else s.rows[k].signature == ""
  {
    var s := Reached(c, t0, acts);
    ReachedInv(c, t0, acts);
    assert KeyInv(c, s, k);
    var h := Hist(s, k);
    var last := h[|h| - 1];
    assert WorkerInv(c, s, last.lease);
    if last.Finished? {
      assert h[|h| - 2].Granted? && h[|h| - 2].lease == last.lease;
    }
  }

  /** A retry that passes the conditional mark replays a payload of its own event, although the payload
      was read earlier by a separate statement. The one exception is an event that failed before payloads
      were stored and has not been claimed since. */
  lemma RetryReplaysItsEvent(c: Config, t0: Time, acts: seq<Action>, i: nat)
    requires BaseOk(c, t0)
    requires i < |Reached(c, t0, acts).retries| && Reached(c, t0, acts).retries[i].marked
    ensures var r := Reached(c, t0, acts).retries[i];
            if r.payload.Some? then Parses(c, r.key, r.payload.value)
            else r.key in c.base && c.base[r.key].payload.None?
  {
    var s := Reached(c, t0, acts);
    ReachedInv(c, t0, acts);
    assert RetryInv(c, s, s.retries[i]);
  }
}
