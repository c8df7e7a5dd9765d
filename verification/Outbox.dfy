/** Outbox rows and what each SQL statement does to the table
    (src/application/records.py, src/infrastructure/persistence/repositories/outbox_*.py). */
module Outbox {
  import opened Base

  datatype Status = New | Processing | Processed | Failed

  datatype Row = Row(
    id: Id,
    eventType: string,
    paymentId: Id,
    createdAt: Time,
    status: Status,
    retryCount: nat,
    publishedAt: Option<Time>,
    claimedAt: Option<Time>,
    availableAt: Option<Time>)

  type Table = map<Id, Row>

  const PAYMENT_CREATED := "PaymentCreated"

  function NewRow(id: Id, paymentId: Id, createdAt: Time): Row {
    Row(id, PAYMENT_CREATED, paymentId, createdAt, New, 0, None, None, None)
  }

  function Claimed(row: Row, at: Time): Row {
    row.(status := Processing, claimedAt := Some(at), availableAt := None)
  }

  function Marked(row: Row, at: Time): Row {
    row.(status := Processed, publishedAt := Some(at), claimedAt := None, availableAt := None)
  }

  function Released(row: Row, status: Status, retryCount: nat, availableAt: Option<Time>): Row {
    row.(status := status, retryCount := retryCount, claimedAt := None, availableAt := availableAt)
  }

  /** `OutboxClaimFilter.build`. */
  predicate Eligible(row: Row, now: Time, staleBefore: Time) {
    var due := row.availableAt.None? || row.availableAt.value <= now;
    var newDue := row.status.New? && due;
    var stale := row.status.Processing? && row.claimedAt.Some? && row.claimedAt.value <= staleBefore;
    newDue || stale
  }

  predicate Pending(row: Row) {
    row.status.New? || row.status.Processing?
  }

  predicate Expired(row: Row, cutoff: Time) {
    row.status.Processed? && row.publishedAt.Some? && row.publishedAt.value < cutoff
  }

  /** UPDATE ... WHERE id IN ids, for a claim. */
  function ClaimRows(t: Table, ids: set<Id>, at: Time): Table {
    map id | id in t :: if id in ids then Claimed(t[id], at) else t[id]
  }

  /** UPDATE ... WHERE id = id: nothing happens when the row is gone. */
  function MarkRow(t: Table, id: Id, at: Time): Table {
    if id in t then t[id := Marked(t[id], at)] else t
  }

  function ReleaseRow(t: Table, id: Id, status: Status, retryCount: nat, availableAt: Option<Time>): Table {
    if id in t then t[id := Released(t[id], status, retryCount, availableAt)] else t
  }
}
