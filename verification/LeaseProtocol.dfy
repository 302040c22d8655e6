/**
 The webhook lease protocol as a state machine. Every database statement is one action, so a claim
 is three actions (capture the clock and a lease ID, insert, take over) and anything may run between
 them. An action that is not enabled leaves the state alone; hence every sequence of actions is a run,
 and a statement about all sequences is a statement about all interleavings and crashes.
 */
module LeaseProtocol {
  import opened Basics
  import opened Webhooks

  /** What is fixed for a run: how a provider reads the event ID of a verified payload, the lease
      length, and the rows found at startup. */
  datatype Config = Config(parse: (string, Bytes) -> Option<string>, lease: Time, base: Table)

  datatype Event = Granted(lease: string, at: Time) | Finished(lease: string, ok: bool)

  datatype Phase = Begun | Conflicted | Holding | Gone

  /** A claim in progress, named by its lease ID. `now` is captured before its first statement. */
  datatype Worker = Worker(delivery: Delivery, now: Time, phase: Phase)

  /** An admin retry that has read its row; `marked` once its conditional update matched. */
  datatype Retry = Retry(key: Key, payload: Option<Bytes>, signature: string, marked: bool)

  /** `history` is a record of what happened to each row; no action reads it. */
  datatype State = State(
    clock: Time,
    rows: Table,
    workers: map<string, Worker>,
    retries: seq<Retry>,
    history: map<Key, seq<Event>>)

  datatype Action =
    | Tick(elapsed: nat)
    | Deliver(lease: string, delivery: Delivery)
    | Insert(lease: string)
    | TakeOver(lease: string)
    | Finish(lease: string, processErr: Option<Error>)
    | Crash(lease: string)
    | RetryRead(key: Key)
    | RetryMark(retry: nat)
    | Cleanup(before: Time)

  function Hist(s: State, k: Key): seq<Event> {
    if k in s.history then s.history[k] else []
  }

  function Log(s: State, k: Key, e: Event): map<Key, seq<Event>> {
    s.history[k := Hist(s, k) + [e]]
  }

  predicate In(s: State, l: string, phase: Phase) {
    l in s.workers && s.workers[l].phase == phase
  }

  function Moved(s: State, l: string, phase: Phase): map<string, Worker>
    requires l in s.workers
  {
    s.workers[l := s.workers[l].(phase := phase)]
  }

  /** A random 16-byte lease ID is taken to differ from every ID used before. */
  ghost predicate Fresh(c: Config, s: State, l: string) {
    && l !in s.workers
    && forall k :: k in c.base ==> c.base[k].leaseId != l
  }

  ghost predicate Parses(c: Config, k: Key, payload: Bytes) {
    c.parse(k.provider, payload) == Some(k.eventId)
  }

  ghost predicate Enabled(c: Config, s: State, a: Action) {
    match a
    case Tick(_) => true
    case Deliver(l, d) => Fresh(c, s, l) && Parses(c, d.key, d.payload)
    case Insert(l) => In(s, l, Begun)
    case TakeOver(l) => In(s, l, Conflicted)
    case Finish(l, _) => In(s, l, Holding)
    case Crash(l) => l in s.workers
    case RetryRead(k) => k in s.rows
    case RetryMark(i) => i < |s.retries| && !s.retries[i].marked
    case Cleanup(_) => true
  }

  ghost function Do(c: Config, s: State, a: Action): State
    requires Enabled(c, s, a)
  {
    match a
    case Tick(elapsed) =>
      s.(clock := s.clock + elapsed)
    case Deliver(l, d) =>
      s.(workers := s.workers[l := Worker(d, s.clock, Begun)])
    case Insert(l) =>
      var w := s.workers[l];
      var s' := s.(rows := InsertStatement(s.rows, w.delivery, w.now, l));
      if w.delivery.key in s.rows
      then s'.(workers := Moved(s, l, Conflicted))
      else s'.(workers := Moved(s, l, Holding), history := Log(s, w.delivery.key, Granted(l, w.now)))
    case TakeOver(l) =>
      var w := s.workers[l];
      var s' := s.(rows := TakeOverStatement(s.rows, w.delivery, w.now, l, c.lease));
      if w.delivery.key in s.rows && Claimable(s.rows[w.delivery.key], w.now, c.lease)
      then s'.(workers := Moved(s, l, Holding), history := Log(s, w.delivery.key, Granted(l, w.now)))
      else s'.(workers := Moved(s, l, Gone))
    case Finish(l, err) =>
      var k := s.workers[l].delivery.key;
      var s' := s.(rows := FinishStatement(s.rows, k, l, s.clock, err), workers := Moved(s, l, Gone));
      if Holds(s.rows, k, l) then s'.(history := Log(s, k, Finished(l, err.None?))) else s'
    case Crash(l) =>
      s.(workers := Moved(s, l, Gone))
    case RetryRead(k) =>
      s.(retries := s.retries + [Retry(k, s.rows[k].payload, s.rows[k].signature, false)])
    case RetryMark(i) =>
      var r := s.retries[i];
      var s' := s.(rows := MarkForRetryStatement(s.rows, r.key));
      if r.key in s.rows && s.rows[r.key].status.Failed?
      then s'.(retries := s.retries[i := r.(marked := true)])
      else s'
    case Cleanup(before) =>
      s.(rows := CleanupStatement(s.rows, before))
  }

  ghost function Apply(c: Config, s: State, a: Action): State {
    if Enabled(c, s, a) then Do(c, s, a) else s
  }

  ghost function Exec(c: Config, s: State, acts: seq<Action>): State
    decreases |acts|
  {
    if acts == [] then s else Exec(c, Apply(c, s, acts[0]), acts[1..])
  }

  ghost function Init(c: Config, t0: Time): State {
    State(t0, c.base, map[], [], map[])
  }

  /** The state reached by a run. */
  ghost function Reached(c: Config, t0: Time, acts: seq<Action>): State {
    Exec(c, Init(c, t0), acts)
  }

  /** What the rows found at startup must satisfy: a row being processed has a start time that is not
      in the future, and a stored payload is the payload of its own event. */
  ghost predicate BaseOk(c: Config, t0: Time) {
    forall k :: k in c.base ==>
      && (c.base[k].status.Processing? ==>
            c.base[k].processingStartedAt.Some? && c.base[k].processingStartedAt.value <= t0)
      && (c.base[k].payload.Some? ==> Parses(c, k, c.base[k].payload.value))
  }

  // ----- Counting over a history -----

  function Grants(h: seq<Event>): nat {
    if h == [] then 0 else Grants(h[..|h| - 1]) + if h[|h| - 1].Granted? then 1 else 0
  }

  function Finishes(h: seq<Event>, ok: bool): nat {
    if h == [] then 0
    else Finishes(h[..|h| - 1], ok) + if h[|h| - 1].Finished? && h[|h| - 1].ok == ok then 1 else 0
  }

  /** Leases overtaken by another grant before they finished. */
  function Superseded(h: seq<Event>): nat {
    if |h| < 2 then 0
    else Superseded(h[..|h| - 1]) + if h[|h| - 2].Granted? && h[|h| - 1].Granted? then 1 else 0
  }

  function BaseAttempts(c: Config, k: Key): int {
    if k in c.base then c.base[k].attempts else 0
  }

  // ----- The inductive invariant -----

  /** A row before its first grant: only the retry mark and the cleanup can have touched it. */
  predicate Untouched(base: Row, row: Row) {
    && row.status == base.status && row.attempts == base.attempts && row.leaseId == base.leaseId
    && (row.status.Processing? ==> row.processingStartedAt == base.processingStartedAt)
    && (row.payload == base.payload || (row.payload.None? && row.status.Succeeded?))
  }

  /** Every event is of a known worker of this key, and a grant records the time that worker captured. */
  ghost predicate FromWorkers(s: State, k: Key, h: seq<Event>) {
    forall i :: 0 <= i < |h| ==>
      && h[i].lease in s.workers
      && s.workers[h[i].lease].delivery.key == k
      && (h[i].Granted? ==> h[i].at == s.workers[h[i].lease].now)
  }

  /** No lease is granted twice. */
  predicate DistinctGrants(h: seq<Event>) {
    forall i, j :: 0 <= i < j < |h| && h[i].Granted? && h[j].Granted? ==> h[i].lease != h[j].lease
  }

  /** Every finish directly follows the grant of its own lease. */
  predicate FinishesFollow(h: seq<Event>) {
    && (h != [] ==> h[0].Granted?)
    && forall i :: 0 < i < |h| && h[i].Finished? ==> h[i - 1].Granted? && h[i - 1].lease == h[i].lease
  }

  /** Nothing follows a success. */
  predicate SuccessIsLast(h: seq<Event>) {
    forall i :: 0 <= i < |h| && h[i].Finished? && h[i].ok ==> i == |h| - 1
  }

  /** A grant that overtakes another was captured more than a lease length later. */
  predicate Spaced(lease: Time, h: seq<Event>) {
    forall i :: 0 < i < |h| && h[i - 1].Granted? && h[i].Granted? ==> h[i - 1].at + lease < h[i].at
  }

  /** The first grant respects the row found at startup. */
  predicate RespectsBase(c: Config, k: Key, h: seq<Event>) {
    h != [] && k in c.base ==>
      && !c.base[k].status.Succeeded?
      && (c.base[k].status.Processing? ==>
            && c.base[k].processingStartedAt.Some? && h[0].Granted?
            && c.base[k].processingStartedAt.value + c.lease < h[0].at)
  }

  predicate WellFormed(h: seq<Event>, lease: Time) {
    DistinctGrants(h) && FinishesFollow(h) && SuccessIsLast(h) && Spaced(lease, h)
  }

  ghost predicate HistoryOk(c: Config, s: State, k: Key, h: seq<Event>) {
    && FromWorkers(s, k, h)
    && WellFormed(h, c.lease)
    && RespectsBase(c, k, h)
  }

  /** How the row reflects the last event of its history. */
  ghost predicate RowOk(c: Config, s: State, k: Key, h: seq<Event>) {
    if h == [] then
      && (k in s.rows <==> k in c.base)
      && (k in c.base ==> Untouched(c.base[k], s.rows[k]))
    else
      && k in s.rows
      && var row, last := s.rows[k], h[|h| - 1];
      && last.lease in s.workers
      && var d := s.workers[last.lease].delivery;
      && row.leaseId == last.lease && row.eventType == d.eventType
      && row.lastAttemptAt == Some(s.workers[last.lease].now)
      && row.attempts == BaseAttempts(c, k) + Grants(h)
      && match last
         case Granted(_, at) =>
           && row.status.Processing? && row.processingStartedAt == Some(at) && row.lastError == Some("")
           && row.payload == Some(d.payload) && row.signature == d.signature
         case Finished(_, ok) =>
           && row.processingStartedAt.None? && row.lastError.Some?
           && if ok then
                && row.status.Succeeded? && row.processedAt.Some? && row.lastError == Some("")
                && ((row.payload == Some(d.payload) && row.signature == d.signature)
                    || (row.payload.None? && row.signature == ""))
              else
                row.status.Failed? && row.payload == Some(d.payload) && row.signature == d.signature
  }

  ghost predicate KeyInv(c: Config, s: State, k: Key) {
    HistoryOk(c, s, k, Hist(s, k)) && RowOk(c, s, k, Hist(s, k))
  }

  ghost predicate WorkerInv(c: Config, s: State, l: string)
    requires l in s.workers
  {
    var w := s.workers[l];
    var h := Hist(s, w.delivery.key);
    && w.now <= s.clock
    && Parses(c, w.delivery.key, w.delivery.payload)
    && (forall k :: k in c.base ==> c.base[k].leaseId != l)
    && (w.phase.Begun? || w.phase.Conflicted? ==> forall i :: 0 <= i < |h| ==> h[i].lease != l)
    && (w.phase.Conflicted? ==> w.delivery.key in s.rows)
    && (w.phase.Holding? ==> exists i :: 0 <= i < |h| && h[i] == Granted(l, w.now))
  }

  ghost predicate RetryInv(c: Config, s: State, r: Retry) {
    && r.key in s.rows
    && (r.payload.Some? ==> Parses(c, r.key, r.payload.value))
    && (r.payload.None? ==>
          || (s.rows[r.key].status.Succeeded? && !r.marked)
          || (r.key in c.base && c.base[r.key].payload.None?))
  }

  ghost predicate Inv(c: Config, s: State) {
    && (forall k :: KeyInv(c, s, k))
    && (forall l :: l in s.workers ==> WorkerInv(c, s, l))
    && (forall i :: 0 <= i < |s.retries| ==> RetryInv(c, s, s.retries[i]))
    && (forall k :: k in s.rows && s.rows[k].payload.Some? ==> Parses(c, k, s.rows[k].payload.value))
  }

  // ----- Every action keeps the invariant -----

  /** Workers are never forgotten, and what they captured never changes. */
  ghost predicate Extends(s: State, s': State) {
    forall l :: l in s.workers ==>
      l in s'.workers && s'.workers[l].delivery == s.workers[l].delivery && s'.workers[l].now == s.workers[l].now
  }

  lemma KeyFrame(c: Config, s: State, s': State, k: Key)
    requires KeyInv(c, s, k) && Extends(s, s')
    requires Hist(s', k) == Hist(s, k)
    requires (k in s.rows <==> k in s'.rows) && (k in s.rows ==> s'.rows[k] == s.rows[k])
    ensures KeyInv(c, s', k)
  {
  }

  lemma WorkerFrame(c: Config, s: State, s': State, m: string, extra: seq<Event>)
    requires m in s.workers && WorkerInv(c, s, m)
    requires s.clock <= s'.clock && s.rows.Keys <= s'.rows.Keys
    requires m in s'.workers && s'.workers[m].delivery == s.workers[m].delivery && s'.workers[m].now == s.workers[m].now
    requires s'.workers[m].phase == s.workers[m].phase || s'.workers[m].phase.Gone?
    requires Hist(s', s.workers[m].delivery.key) == Hist(s, s.workers[m].delivery.key) + extra
    requires forall i :: 0 <= i < |extra| ==> extra[i].lease != m || s'.workers[m].phase.Gone?
    ensures WorkerInv(c, s', m)
  {
    var h := Hist(s, s.workers[m].delivery.key);
    var h' := Hist(s', s.workers[m].delivery.key);
    assert forall i :: 0 <= i < |h| ==> h'[i] == h[i];
    assert forall i :: |h| <= i < |h'| ==> h'[i] == extra[i - |h|];
    if s'.workers[m].phase.Holding? {
      var i :| 0 <= i < |h| && h[i] == Granted(m, s.workers[m].now);
      assert h'[i] == Granted(m, s.workers[m].now);
    }
  }

  /** A retry that was refused by the mark stays valid because SUCCEEDED is never left. */
  lemma RetriesFrame(c: Config, s: State, s': State)
    requires Inv(c, s) && s'.retries == s.retries && s.rows.Keys <= s'.rows.Keys
    requires forall k :: k in s.rows && s.rows[k].status.Succeeded? ==> s'.rows[k].status.Succeeded?
    ensures forall i :: 0 <= i < |s'.retries| ==> RetryInv(c, s', s'.retries[i])
  {
    forall i | 0 <= i < |s'.retries| ensures RetryInv(c, s', s'.retries[i]) {
      assert RetryInv(c, s, s.retries[i]);
    }
  }

  /** Actions that move one worker or the clock and leave rows and history alone. */
  lemma QuietInv(c: Config, s: State, s': State)
    requires Inv(c, s)
    requires s'.rows == s.rows && s'.history == s.history && s'.retries == s.retries && s.clock <= s'.clock
    requires Extends(s, s')
    requires forall l :: l in s'.workers && l !in s.workers ==> WorkerInv(c, s', l)
    requires forall l :: l in s.workers && s'.workers[l].phase != s.workers[l].phase ==> s'.workers[l].phase.Gone?
    ensures Inv(c, s')
  {
    forall k ensures KeyInv(c, s', k) { KeyFrame(c, s, s', k); }
    forall m | m in s'.workers ensures WorkerInv(c, s', m) {
      if m in s.workers { WorkerFrame(c, s, s', m, []); }
    }
    RetriesFrame(c, s, s');
  }

  /** The state after a statement has granted key `k` to lease `l`. */
  ghost predicate GrantStep(c: Config, s: State, s': State, l: string, k: Key) {
    && l in s.workers && (s.workers[l].phase.Begun? || s.workers[l].phase.Conflicted?)
    && var w := s.workers[l];
    && w.delivery.key == k
    && (k in s.rows ==> Claimable(s.rows[k], w.now, c.lease))
    && s'.clock == s.clock && s'.retries == s.retries
    && s'.workers == Moved(s, l, Holding)
    && s'.history == Log(s, k, Granted(l, w.now))
    && s'.rows == (if k in s.rows then TakeOverStatement(s.rows, w.delivery, w.now, l, c.lease)
                   else InsertStatement(s.rows, w.delivery, w.now, l))
  }

  lemma AppendGrant(h: seq<Event>, l: string, at: Time, lease: Time)
    requires WellFormed(h, lease)
    requires forall i :: 0 <= i < |h| ==> h[i].lease != l
    requires h != [] ==> var last := h[|h| - 1]; if last.Granted? then last.at + lease < at else !last.ok
    ensures WellFormed(h + [Granted(l, at)], lease)
  {
  }

  lemma AppendFinish(h: seq<Event>, l: string, ok: bool, lease: Time)
    requires WellFormed(h, lease)
    requires h != [] && h[|h| - 1].Granted? && h[|h| - 1].lease == l
    ensures WellFormed(h + [Finished(l, ok)], lease)
  {
  }

  lemma AppendFromWorkers(s: State, s': State, k: Key, h: seq<Event>, e: Event)
    requires FromWorkers(s, k, h) && Extends(s, s')
    requires FromWorkers(s', k, [e])
    ensures FromWorkers(s', k, h + [e])
  {
    assert [e][0] == e;
  }

  lemma GrantHistory(c: Config, s: State, s': State, l: string, k: Key)
    requires Inv(c, s) && GrantStep(c, s, s', l, k)
    ensures HistoryOk(c, s', k, Hist(s', k))
  {
    var w, h := s.workers[l], Hist(s, k);
    assert WorkerInv(c, s, l) && KeyInv(c, s, k);
    assert Hist(s', k) == h + [Granted(l, w.now)];
    AppendGrant(h, l, w.now, c.lease);
    AppendFromWorkers(s, s', k, h, Granted(l, w.now));
  }

  lemma GrantRow(c: Config, s: State, s': State, l: string, k: Key)
    requires Inv(c, s) && GrantStep(c, s, s', l, k)
    ensures RowOk(c, s', k, Hist(s', k))
  {
    var w, h, h' := s.workers[l], Hist(s, k), Hist(s', k);
    assert KeyInv(c, s, k);
    assert h' == h + [Granted(l, w.now)];
    assert h'[..|h'| - 1] == h;
    assert Grants(h') == Grants(h) + 1;
  }

  lemma GrantInv(c: Config, s: State, s': State, l: string, k: Key)
    requires Inv(c, s) && GrantStep(c, s, s', l, k)
    ensures Inv(c, s')
  {
    var w := s.workers[l];
    forall j ensures KeyInv(c, s', j) {
      if j == k {
        GrantHistory(c, s, s', l, k);
        GrantRow(c, s, s', l, k);
      } else {
        assert KeyInv(c, s, j);
        KeyFrame(c, s, s', j);
      }
    }
    forall m | m in s'.workers ensures WorkerInv(c, s', m) {
      assert WorkerInv(c, s, m);
      if m == l {
        assert Hist(s', k)[|Hist(s, k)|] == Granted(l, w.now);
      } else {
        WorkerFrame(c, s, s', m, if s.workers[m].delivery.key == k then [Granted(l, w.now)] else []);
      }
    }
    RetriesFrame(c, s, s');
    assert WorkerInv(c, s, l);
  }

  /** The row's lease is the last one granted. */
  lemma HeldIsLast(c: Config, s: State, k: Key, l: string)
    requires Inv(c, s) && l in s.workers && Holds(s.rows, k, l)
    ensures Hist(s, k) != [] && Hist(s, k)[|Hist(s, k)| - 1] == Granted(l, s.workers[l].now)
    ensures s.workers[l].delivery.key == k
  {
    assert WorkerInv(c, s, l) && KeyInv(c, s, k);
  }

  lemma FinishHistory(c: Config, s: State, s': State, l: string, k: Key, ok: bool)
    requires Inv(c, s) && l in s.workers && Holds(s.rows, k, l)
    requires s'.history == Log(s, k, Finished(l, ok)) && s'.workers == Moved(s, l, Gone)
    ensures HistoryOk(c, s', k, Hist(s', k))
  {
    var h := Hist(s, k);
    HeldIsLast(c, s, k, l);
    assert KeyInv(c, s, k);
    assert Hist(s', k) == h + [Finished(l, ok)];
    AppendFinish(h, l, ok, c.lease);
    AppendFromWorkers(s, s', k, h, Finished(l, ok));
  }

  lemma FinishKey(c: Config, s: State, l: string, err: Option<Error>)
    requires Inv(c, s) && In(s, l, Holding) && Holds(s.rows, s.workers[l].delivery.key, l)
    ensures KeyInv(c, Do(c, s, Finish(l, err)), s.workers[l].delivery.key)
  {
    var k := s.workers[l].delivery.key;
    var s' := Do(c, s, Finish(l, err));
    var h, h' := Hist(s, k), Hist(s', k);
    FinishHistory(c, s, s', l, k, err.None?);
    HeldIsLast(c, s, k, l);
    assert RowOk(c, s, k, h) by { assert KeyInv(c, s, k); }
    assert h'[..|h'| - 1] == h;
  }

  lemma FinishWorker(c: Config, s: State, l: string, err: Option<Error>, m: string)
    requires Inv(c, s) && In(s, l, Holding) && Holds(s.rows, s.workers[l].delivery.key, l)
    requires m in s.workers
    ensures WorkerInv(c, Do(c, s, Finish(l, err)), m)
  {
    var k := s.workers[l].delivery.key;
    assert WorkerInv(c, s, m);
    WorkerFrame(c, s, Do(c, s, Finish(l, err)), m,
                if s.workers[m].delivery.key == k then [Finished(l, err.None?)] else []);
  }

  lemma FinishInv(c: Config, s: State, l: string, err: Option<Error>)
    requires Inv(c, s) && In(s, l, Holding)
    ensures Inv(c, Do(c, s, Finish(l, err)))
  {
    var k := s.workers[l].delivery.key;
    var s' := Do(c, s, Finish(l, err));
    if !Holds(s.rows, k, l) {
      QuietInv(c, s, s');
    } else {
      forall j ensures KeyInv(c, s', j) {
        if j == k {
          FinishKey(c, s, l, err);
        } else {
          assert KeyInv(c, s, j);
          KeyFrame(c, s, s', j);
        }
      }
      forall m | m in s'.workers ensures WorkerInv(c, s', m) {
        FinishWorker(c, s, l, err, m);
      }
      RetriesFrame(c, s, s');
    }
  }

  lemma RetryMarkKey(c: Config, s: State, i: nat, k: Key)
    requires KeyInv(c, s, k) && Enabled(c, s, RetryMark(i))
    ensures KeyInv(c, Do(c, s, RetryMark(i)), k)
  {
    assert Hist(Do(c, s, RetryMark(i)), k) == Hist(s, k);
  }

  lemma RetryMarkInv(c: Config, s: State, i: nat)
    requires Inv(c, s) && Enabled(c, s, RetryMark(i))
    ensures Inv(c, Do(c, s, RetryMark(i)))
  {
    var s' := Do(c, s, RetryMark(i));
    forall k ensures KeyInv(c, s', k) { RetryMarkKey(c, s, i, k); }
    forall m | m in s'.workers ensures WorkerInv(c, s', m) { WorkerFrame(c, s, s', m, []); }
    forall n | 0 <= n < |s'.retries| ensures RetryInv(c, s', s'.retries[n]) {
      assert RetryInv(c, s, s.retries[n]);
    }
  }

  lemma CleanupKey(c: Config, s: State, before: Time, k: Key)
    requires KeyInv(c, s, k)
    ensures KeyInv(c, Do(c, s, Cleanup(before)), k)
  {
    assert Hist(Do(c, s, Cleanup(before)), k) == Hist(s, k);
  }

  lemma CleanupInv(c: Config, s: State, before: Time)
    requires Inv(c, s)
    ensures Inv(c, Do(c, s, Cleanup(before)))
  {
    var s' := Do(c, s, Cleanup(before));
    forall k ensures KeyInv(c, s', k) { CleanupKey(c, s, before, k); }
    forall m | m in s'.workers ensures WorkerInv(c, s', m) { WorkerFrame(c, s, s', m, []); }
    RetriesFrame(c, s, s');
  }

  lemma RetryReadInv(c: Config, s: State, k: Key)
    requires Inv(c, s) && k in s.rows
    ensures Inv(c, Do(c, s, RetryRead(k)))
  {
    var s' := Do(c, s, RetryRead(k));
    forall j ensures KeyInv(c, s', j) { assert KeyInv(c, s, j); }
    forall m | m in s'.workers ensures WorkerInv(c, s', m) { WorkerFrame(c, s, s', m, []); }
    forall n | 0 <= n < |s'.retries| ensures RetryInv(c, s', s'.retries[n]) {
      if n < |s.retries| {
        assert RetryInv(c, s, s.retries[n]);
      } else {
        assert KeyInv(c, s, k);
      }
    }
  }

  lemma DeliverInv(c: Config, s: State, l: string, d: Delivery)
    requires Inv(c, s) && Enabled(c, s, Deliver(l, d))
    ensures Inv(c, Do(c, s, Deliver(l, d)))
  {
    var s' := Do(c, s, Deliver(l, d));
    assert KeyInv(c, s, d.key);
    assert WorkerInv(c, s', l);
    QuietInv(c, s, s');
  }

  lemma ConflictInv(c: Config, s: State, l: string)
    requires Inv(c, s) && In(s, l, Begun) && s.workers[l].delivery.key in s.rows
    ensures Inv(c, Do(c, s, Insert(l)))
  {
    var s' := Do(c, s, Insert(l));
    forall k ensures KeyInv(c, s', k) { KeyFrame(c, s, s', k); }
    forall m | m in s'.workers ensures WorkerInv(c, s', m) {
      assert WorkerInv(c, s, m);
    }
    RetriesFrame(c, s, s');
  }

  lemma StepInv(c: Config, s: State, a: Action)
    requires Inv(c, s)
    ensures Inv(c, Apply(c, s, a))
  {
    if Enabled(c, s, a) {
      var s' := Do(c, s, a);
      match a
      case Tick(_) => QuietInv(c, s, s');
      case Deliver(l, d) => DeliverInv(c, s, l, d);
      case Insert(l) =>
        var k := s.workers[l].delivery.key;
        if k in s.rows { ConflictInv(c, s, l); } else { GrantInv(c, s, s', l, k); }
      case TakeOver(l) =>
        var k := s.workers[l].delivery.key;
        if k in s.rows && Claimable(s.rows[k], s.workers[l].now, c.lease) {
          GrantInv(c, s, s', l, k);
        } else {
          QuietInv(c, s, s');
        }
      case Finish(l, err) => FinishInv(c, s, l, err);
      case Crash(l) => QuietInv(c, s, s');
      case RetryRead(k) => RetryReadInv(c, s, k);
      case RetryMark(i) => RetryMarkInv(c, s, i);
      case Cleanup(before) => CleanupInv(c, s, before);
    }
  }

  lemma InitInv(c: Config, t0: Time)
    requires BaseOk(c, t0)
    ensures Inv(c, Init(c, t0))
  {
  }

  lemma {:induction false} ExecInv(c: Config, s: State, acts: seq<Action>)
    requires Inv(c, s)
    ensures Inv(c, Exec(c, s, acts))
    decreases |acts|
  {
    if acts == [] {
    } else {
      StepInv(c, s, acts[0]);
      ExecInv(c, Apply(c, s, acts[0]), acts[1..]);
    }
  }
}
