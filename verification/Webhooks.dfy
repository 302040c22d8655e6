/** The webhook table and the single SQL statements that the store runs against it. */
module Webhooks {
  import opened Basics

  datatype Status = Processing | Succeeded | Failed

  /** The unique index of the table. */
  datatype Key = Key(provider: string, eventId: string)

  /** A row; `None` is SQL NULL. */
  datatype Row = Row(
    eventType: string,
    status: Status,
    attempts: int,
    payload: Option<Bytes>,
    signature: string,
    leaseId: string,
    processingStartedAt: Option<Time>,
    lastAttemptAt: Option<Time>,
    processedAt: Option<Time>,
    lastError: Option<string>)

  type Table = map<Key, Row>

  /** What a provider hands to the claim after it has verified and parsed a delivery. */
  datatype Delivery = Delivery(key: Key, eventType: string, payload: Bytes, signature: string)

  const MAX_ERROR := 4096

  function NewRow(d: Delivery, now: Time, leaseId: string): Row {
    Row(d.eventType, Processing, 1, Some(d.payload), d.signature, leaseId, Some(now), Some(now), None, Some(""))
  }

  /** INSERT ... ON CONFLICT DO NOTHING. */
  function InsertStatement(t: Table, d: Delivery, now: Time, leaseId: string): Table {
    if d.key in t then t else t[d.key := NewRow(d, now, leaseId)]
  }

  /** The WHERE clause of the take-over; a NULL start time compares as not true. */
  predicate Claimable(row: Row, now: Time, lease: Time) {
    || row.status.Failed?
    || (row.status.Processing? && row.processingStartedAt.Some? && row.processingStartedAt.value < now - lease)
  }

  function TakenOver(row: Row, d: Delivery, now: Time, leaseId: string): Row {
    row.(status := Processing, processingStartedAt := Some(now), lastAttemptAt := Some(now), lastError := Some(""),
         payload := Some(d.payload), signature := d.signature, eventType := d.eventType, leaseId := leaseId,
         attempts := row.attempts + 1)
  }

  /** UPDATE ... WHERE FAILED OR (PROCESSING AND processing_started_at < cutoff). */
  function TakeOverStatement(t: Table, d: Delivery, now: Time, leaseId: string, lease: Time): Table {
    if d.key in t && Claimable(t[d.key], now, lease)
    then t[d.key := TakenOver(t[d.key], d, now, leaseId)]
    else t
  }

  /** Both statements of a claim, one after the other: the second runs only when the first finds a row. */
  function ClaimStatements(t: Table, d: Delivery, now: Time, leaseId: string, lease: Time): Table {
    if d.key in t then TakeOverStatement(t, d, now, leaseId, lease) else InsertStatement(t, d, now, leaseId)
  }

  /** The WHERE clause of the finish: a compare-and-set on (PROCESSING, lease). */
  predicate Holds(t: Table, k: Key, leaseId: string) {
    k in t && t[k].status.Processing? && t[k].leaseId == leaseId
  }

  /** `message[:4096]` in bytes; a character that the cut splits is dropped. */
  function Truncated(message: string): string {
    if ByteLength(message) > MAX_ERROR then FirstBytes(message, MAX_ERROR) else message
  }

  function FinishedRow(row: Row, now: Time, processErr: Option<Error>): Row {
    match processErr
    case None =>
      row.(processingStartedAt := None, processedAt := Some(now), lastError := Some(""), status := Succeeded)
    case Some(e) =>
      row.(processingStartedAt := None, lastError := Some(Truncated(e.Text())), status := Failed)
  }

  function FinishStatement(t: Table, k: Key, leaseId: string, now: Time, processErr: Option<Error>): Table {
    if Holds(t, k, leaseId) then t[k := FinishedRow(t[k], now, processErr)] else t
  }

  function MarkForRetryStatement(t: Table, k: Key): Table {
    if k in t && t[k].status.Failed? then t[k := t[k].(processingStartedAt := None)] else t
  }

  function CleanedRow(row: Row, before: Time): Row {
    if row.status.Succeeded? && row.processedAt.Some? && row.processedAt.value < before
    then row.(payload := None, signature := "")
    else row
  }

  function CleanupStatement(t: Table, before: Time): Table {
    map k | k in t :: CleanedRow(t[k], before)
  }
}
