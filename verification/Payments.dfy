/** The payment aggregate (src/domain/payment.py, src/domain/ids.py) and its row mapping
    (src/infrastructure/persistence/mappers/payment.py). */
module Payments {
  import opened Base
  import opened Money

  datatype Status = Pending | Succeeded | Failed

  /** Metadata is opaque: only equality matters. */
  type Metadata = nat

  /** What never changes about a payment. */
  datatype Terms = Terms(
    money: Money, description: string, metadata: Metadata, key: string, webhookUrl: string, createdAt: Time)

  datatype Record = Record(id: Id, terms: Terms, status: Status, processedAt: Option<Time>)

  predicate CanMoveTo(from: Status, to: Status) {
    from.Pending? && !to.Pending?
  }

  predicate IsTerminal(status: Status) {
    !status.Pending?
  }

  function NewRecord(id: Id, terms: Terms): Record {
    Record(id, terms, Pending, None)
  }

  /** `_complete`: a no-op on a terminal payment. */
  function Completed(p: Record, success: bool, at: Time): Record {
    if IsTerminal(p.status) then p
    else p.(status := StatusFor(success), processedAt := Some(at))
  }

  function StatusFor(success: bool): Status {
    if success then Succeeded else Failed
  }

  /** The first completion decides; every later one, whatever it says, changes nothing. */
  lemma FirstCompletionWins(p: Record, first: bool, at: Time, second: bool, later: Time)
    requires !IsTerminal(p.status)
    ensures Completed(Completed(p, first, at), second, later) == Completed(p, first, at)
    ensures Completed(p, first, at).processedAt == Some(at)
    ensures Completed(p, first, at).status == (if first then Succeeded else Failed)
    ensures CanMoveTo(p.status, Completed(p, first, at).status)
    ensures forall to :: !CanMoveTo(Completed(p, first, at).status, to)
    ensures forall to :: CanMoveTo(p.status, to) <==> to == Succeeded || to == Failed
  {
  }

  class Payment {
    const id: Id
    const terms: Terms
    var status: Status
    var processedAt: Option<Time>

    constructor Reconstitute(r: Record)
      ensures Snapshot() == r
    {
      id, terms, status, processedAt := r.id, r.terms, r.status, r.processedAt;
    }

    function Snapshot(): Record
      reads this
    {
      Record(id, terms, status, processedAt)
    }

    method Succeed(at: Time)
      modifies this
      ensures Snapshot() == Completed(old(Snapshot()), true, at)
    {
      Complete(Succeeded, at);
    }

    method Fail(at: Time)
      modifies this
      ensures Snapshot() == Completed(old(Snapshot()), false, at)
    {
      Complete(Failed, at);
    }

    /** The transition table never refuses: a status that is not terminal is PENDING. */
    method Complete(target: Status, at: Time)
      requires IsTerminal(target)
      modifies this
      ensures Snapshot() == Completed(old(Snapshot()), target.Succeeded?, at)
    {
      if IsTerminal(status) {
        return;
      }
      assert CanMoveTo(status, target);
      status := target;
      processedAt := Some(at);
    }
  }

  // ----- rows

  datatype Row = Row(
    id: Id, amountCents: int, currency: string, description: string, extra: Metadata, status: string,
    idempotencyKey: string, webhookUrl: string, createdAt: Time, processedAt: Option<Time>)

  datatype RowError = BadMoney(error: MoneyError) | BadStatus | BadKey

  function StatusText(s: Status): string {
    match s case Pending => "pending" case Succeeded => "succeeded" case Failed => "failed"
  }

  function ParseStatus(text: string): Option<Status> {
    if text == "pending" then Some(Pending) else if text == "succeeded" then Some(Succeeded)
    else if text == "failed" then Some(Failed) else None
  }

  predicate ValidKey(key: string) {
    (exists i :: 0 <= i < |key| && !IsSpace(key[i])) && |key| <= 255
  }

  /** At most 255 characters, one of them not white space. */
  lemma KeyRule(key: string)
    ensures |key| > 255 ==> !ValidKey(key)
    ensures (forall c <- key :: IsSpace(c)) ==> !ValidKey(key)
    ensures |key| <= 255 && (exists c <- key :: !IsSpace(c)) ==> ValidKey(key)
  {
    if c :| c in key && !IsSpace(c) {
      var i :| 0 <= i < |key| && key[i] == c;
      assert !IsSpace(key[i]);
    }
  }

  function ToModel(p: Record): Row {
    Row(p.id, p.terms.money.cents, CurrencyText(p.terms.money.currency), p.terms.description, p.terms.metadata,
        StatusText(p.status), p.terms.key, p.terms.webhookUrl, p.terms.createdAt, p.processedAt)
  }

  function ToDomain(row: Row): Result<Record, RowError> {
    match Create(Decimal(row.amountCents, -2), row.currency)
    case Err(e) => Err(BadMoney(e))
    case Ok(money) =>
      match ParseStatus(row.status)
      case None => Err(BadStatus)
      case Some(status) =>
        if !ValidKey(row.idempotencyKey) then Err(BadKey)
        else Ok(Record(
          row.id,
          Terms(money, row.description, row.extra, row.idempotencyKey, row.webhookUrl, row.createdAt),
          status, row.processedAt))
  }

  predicate ValidRecord(p: Record) {
    0 < p.terms.money.cents < Pow10(CONTEXT_DIGITS) && ValidKey(p.terms.key)
  }

  lemma StatusReadsBack(status: Status, text: string)
    ensures ParseStatus(StatusText(status)) == Some(status)
    ensures ParseStatus(text).Some? ==> StatusText(ParseStatus(text).value) == text
  {
  }

  /** Storing and loading is the identity on payments. */
  lemma RecordRoundTrip(p: Record)
    requires ValidRecord(p)
    ensures ToDomain(ToModel(p)) == Ok(p)
  {
    StoredAmountReadsBack(p.terms.money);
    StatusReadsBack(p.status, "");
  }

  /** Loading and storing is the identity on every row that loads. */
  lemma RowRoundTrip(row: Row)
    requires ToDomain(row).Ok?
    ensures ToModel(ToDomain(row).value) == row && ValidRecord(ToDomain(row).value)
    ensures var p := ToDomain(row).value;
            && p.id == row.id && p.terms.money.cents == row.amountCents && p.terms.description == row.description
            && p.terms.metadata == row.extra && p.terms.key == row.idempotencyKey
            && p.terms.webhookUrl == row.webhookUrl && p.terms.createdAt == row.createdAt
            && p.processedAt == row.processedAt
            && row.currency == (match p.terms.money.currency case RUB => "RUB" case USD => "USD" case EUR => "EUR")
            && row.status == match p.status case Pending => "pending" case Succeeded => "succeeded" case Failed => "failed"
  {
    StatusReadsBack(Pending, row.status);
    CreateKeepsValue(Decimal(row.amountCents, -2), row.currency);
    assert Pow10(0) == 1;
    assert Cents(row.amountCents, -2) == row.amountCents * 1;
  }

  /** Loading, completing and saving touches no column but the status and the processing time. */
  lemma SaveTouchesTwoColumns(row: Row, success: bool, at: Time)
    requires ToDomain(row).Ok?
    ensures var saved := ToModel(Completed(ToDomain(row).value, success, at));
            && saved == row.(status := saved.status, processedAt := saved.processedAt)
            && (row.status != "pending" ==> saved == row)
  {
    RowRoundTrip(row);
  }
}
