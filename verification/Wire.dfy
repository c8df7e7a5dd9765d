/** Messages on the wire and the identities read back from them
    (src/application/outbox/codec.py, src/presentation/amqp/identity.py). */
module Wire {
  import opened Base
  import opened Outbox

  /** A decoded JSON body or header value; header values may also be bytes. */
  datatype Json =
    | Null
    | Bool(b: bool)
    | Int(n: int)
    | Str(s: string)
    | Bytes(s: string)
    | Arr(items: seq<Json>)
    | Obj(fields: map<string, Json>)

  type Fields = map<string, Json>

  datatype Envelope = Envelope(body: Fields, headers: Option<Fields>)

  const EVENT_VERSION := 1
  const OUTBOX_ID_HEADER := "x-outbox-id"
  const EVENT_TYPE_HEADER := "x-event-type"
  const RETRY_COUNT_HEADER := "x-retry-count"

  // ----- ids as text

  const UUID_DIGITS: nat := 32

  function Pow16(n: nat): (p: nat)
    ensures p >= 1
  {
    if n == 0 then 1 else 16 * Pow16(n - 1)
  }

  predicate IsUuid(id: Id) {
    id < Pow16(UUID_DIGITS)
  }

  function HexDigit(d: nat): char
    requires d < 16
  {
    "0123456789abcdef"[d]
  }

  function HexValue(c: char): Option<nat> {
    if '0' <= c <= '9' then Some((c - '0') as nat)
    else if 'a' <= c <= 'f' then Some((c - 'a') as nat + 10)
    else if 'A' <= c <= 'F' then Some((c - 'A') as nat + 10)
    else None
  }

  function Hex(n: nat, width: nat): (s: string)
    ensures |s| == width
  {
    if width == 0 then "" else Hex(n / 16, width - 1) + [HexDigit(n % 16)]
  }

  function ParseHex(s: string): Option<nat> {
    if s == "" then Some(0)
    else
      var high := ParseHex(s[..|s| - 1]);
      var low := HexValue(s[|s| - 1]);
      if high.Some? && low.Some? then Some(16 * high.value + low.value) else None
  }

  function WithoutHyphens(s: string): string {
    if s == "" then ""
    else (if s[0] == '-' then "" else [s[0]]) + WithoutHyphens(s[1..])
  }

  /** `str(uuid)`: 8-4-4-4-12 hexadecimal digits. */
  function UuidText(id: Id): string {
    Grouped(Hex(id, UUID_DIGITS))
  }

  function Grouped(h: string): string
    requires |h| == UUID_DIGITS
  {
    h[..8] + "-" + h[8..12] + "-" + h[12..16] + "-" + h[16..20] + "-" + h[20..]
  }

  function ParseUuid(text: string): Option<Id> {
    var h := WithoutHyphens(text);
    if |h| == UUID_DIGITS then ParseHex(h) else None
  }

  lemma {:induction false} HexReadsBack(n: nat, width: nat)
    requires n < Pow16(width)
    ensures ParseHex(Hex(n, width)) == Some(n)
  {
    if width > 0 {
      HexReadsBack(n / 16, width - 1);
      var high, low := Hex(n / 16, width - 1), HexDigit(n % 16);
      var h := Hex(n, width);
      assert h == high + [low] && h[..|h| - 1] == high && h[|h| - 1] == low;
      HexDigitReadsBack(n % 16);
      assert ParseHex(h) == Some(16 * (n / 16) + n % 16);
    }
  }

  ghost predicate Clean(s: string) {
    forall c <- s :: c != '-' && !IsSpace(c)
  }

  lemma {:induction false} HexIsClean(n: nat, width: nat)
    ensures Clean(Hex(n, width))
  {
    if width > 0 {
      HexIsClean(n / 16, width - 1);
      HexDigitReadsBack(n % 16);
    }
  }

  lemma HexDigitReadsBack(d: nat)
    requires d < 16
    ensures HexValue(HexDigit(d)) == Some(d)
    ensures HexDigit(d) != '-' && !IsSpace(HexDigit(d))
  {
  }

  lemma {:induction false} HyphensGo(a: string, b: string)
    ensures WithoutHyphens(a + b) == WithoutHyphens(a) + WithoutHyphens(b)
  {
    if a == "" {
      assert a + b == b;
    } else {
      assert (a + b)[1..] == a[1..] + b;
      HyphensGo(a[1..], b);
    }
  }

  lemma {:induction false} NoHyphens(s: string)
    requires '-' !in s
    ensures WithoutHyphens(s) == s
  {
    if s != "" {
      NoHyphens(s[1..]);
    }
  }

  lemma HyphenGoes()
    ensures WithoutHyphens("-") == ""
  {
    var hyphen := "-";
    assert hyphen[1..] == "" && WithoutHyphens(hyphen[1..]) == "";
  }

  lemma GroupGoes(prefix: string, hyphen: string, group: string)
    requires hyphen == "-" && '-' !in group
    ensures WithoutHyphens(prefix + hyphen + group) == WithoutHyphens(prefix) + group
  {
    HyphensGo(prefix + hyphen, group);
    HyphensGo(prefix, hyphen);
    NoHyphens(group);
    HyphenGoes();
  }

  lemma GroupsGo(h: string)
    requires |h| == UUID_DIGITS && Clean(h)
    ensures WithoutHyphens(Grouped(h)) == h
  {
    var a, b, c, d, e := h[..8], h[8..12], h[12..16], h[16..20], h[20..];
    assert '-' !in h;
    NoHyphens(a);
    GroupGoes(a, "-", b);
    GroupGoes(a + "-" + b, "-", c);
    GroupGoes(a + "-" + b + "-" + c, "-", d);
    GroupGoes(a + "-" + b + "-" + c + "-" + d, "-", e);
    assert a + b + c + d + e == h;
  }

  lemma UuidReadsBack(id: Id)
    requires IsUuid(id)
    ensures ParseUuid(UuidText(id)) == Some(id)
  {
    HexReadsBack(id, UUID_DIGITS);
    HexIsClean(id, UUID_DIGITS);
    GroupsGo(Hex(id, UUID_DIGITS));
  }

  /** Thirty-six characters, with hyphens in the four usual places and nowhere else. */
  lemma UuidShape(id: Id, i: nat)
    requires i < 36
    ensures |UuidText(id)| == 36
    ensures UuidText(id)[i] == '-' <==> i == 8 || i == 13 || i == 18 || i == 23
  {
    var h := Hex(id, UUID_DIGITS);
    HexIsClean(id, UUID_DIGITS);
    assert forall j :: 0 <= j < |h| ==> h[j] in h;
  }

  lemma UuidHasNoSpace(id: Id)
    ensures forall c <- UuidText(id) :: !IsSpace(c)
  {
    HexIsClean(id, UUID_DIGITS);
  }

  // ----- reading values

  function Strip(s: string): string {
    if s == "" then s
    else if IsSpace(s[0]) then Strip(s[1..])
    else if IsSpace(s[|s| - 1]) then Strip(s[..|s| - 1])
    else s
  }

  function Digits(n: nat): string {
    if n < 10 then [HexDigit(n)] else Digits(n / 10) + [HexDigit(n % 10)]
  }

  /** `str(value)`; the text of a list or dictionary is only known to be no uuid. */
  function PyStr(raw: Json): string {
    match raw
    case Str(s) => s
    case Bytes(s) => s
    case Bool(b) => if b then "True" else "False"
    case Int(n) => if n < 0 then "-" + Digits(-n) else Digits(n)
    case Null => "None"
    case Arr(_) => "[]"
    case Obj(_) => "{}"
  }

  /** `_to_text`. */
  function ToText(raw: Json): Option<string> {
    if raw.Null? then None
    else
      var text := Strip(PyStr(raw));
      if text == "" then None else Some(text)
  }

  function Get(fields: Fields, name: string): Json {
    if name in fields then fields[name] else Null
  }

  function ParseDecimal(s: string): Option<nat> {
    if s == "" then None
    else
      var last := HexValue(s[|s| - 1]);
      if last.None? || last.value >= 10 then None
      else if |s| == 1 then last
      else
        var high := ParseDecimal(s[..|s| - 1]);
        if high.None? then None else Some(10 * high.value + last.value)
  }

  /** `int(value)`: None where it raises TypeError or ValueError. */
  function ToInt(raw: Json): Option<int> {
    match raw
    case Int(n) => Some(n)
    case Bool(b) => Some(if b then 1 else 0)
    case Str(s) => TextToInt(Strip(s))
    case Bytes(s) => TextToInt(Strip(s))
    case _ => None
  }

  function TextToInt(text: string): Option<int> {
    var negative := text != "" && text[0] == '-';
    var signed := text != "" && (text[0] == '-' || text[0] == '+');
    var magnitude := ParseDecimal(if signed then text[1..] else text);
    if magnitude.None? then None else Some((if negative then -1 else 1) * magnitude.value)
  }

  // ----- the envelope

  function Encode(record: Row): Envelope {
    Envelope(
      map["outbox_id" := Str(UuidText(record.id)),
          "event_type" := Str(record.eventType),
          "event_version" := Int(EVENT_VERSION),
          "payload" := Obj(map["payment_id" := Str(UuidText(record.paymentId))])],
      Some(map[OUTBOX_ID_HEADER := Str(UuidText(record.id)), EVENT_TYPE_HEADER := Str(record.eventType)]))
  }

  function ExtractPaymentId(body: Fields): Option<string> {
    var payload := Get(body, "payload");
    if payload.Obj? && !Get(payload.fields, "payment_id").Null?
    then ToText(Get(payload.fields, "payment_id"))
    else ToText(Get(body, "payment_id"))
  }

  /** `parse_payment_id`: None is a PermanentProcessingError. */
  function ParsePaymentId(body: Fields): Option<Id> {
    match ExtractPaymentId(body)
    case None => None
    case Some(text) => ParseUuid(text)
  }

  function ParseOutboxId(e: Envelope): Option<Id> {
    var inBody := Get(e.body, "outbox_id");
    var raw := if inBody.Null? && e.headers.Some? then Get(e.headers.value, OUTBOX_ID_HEADER) else inBody;
    match ToText(raw)
    case None => None
    case Some(text) => ParseUuid(text)
  }

  function ParseRetryCount(e: Envelope): int {
    var headers := if e.headers.Some? then e.headers.value else map[];
    var raw := if RETRY_COUNT_HEADER in headers then headers[RETRY_COUNT_HEADER] else Int(0);
    match ToInt(raw)
    case None => 0
    case Some(n) => n
  }

  /** `_schedule_retry` sends the same body with a higher count; `_to_dlq` sends the same message. */
  function WithRetryCount(e: Envelope, count: int): Envelope {
    var headers := if e.headers.Some? then e.headers.value else map[];
    e.(headers := Some(headers[RETRY_COUNT_HEADER := Int(count)]))
  }

  /** What the consumer learns from a message. */
  datatype Identity = Identity(paymentId: Option<Id>, outboxId: Option<Id>, retryCount: int)

  function IdentityOf(e: Envelope): Identity {
    Identity(ParsePaymentId(e.body), ParseOutboxId(e), ParseRetryCount(e))
  }

  lemma {:induction false} StripKeepsCleanText(s: string)
    requires s != "" && forall c <- s :: !IsSpace(c)
    ensures Strip(s) == s
  {
    assert s[0] in s && s[|s| - 1] in s;
  }

  lemma TextOfUuid(id: Id)
    requires IsUuid(id)
    ensures ToText(Str(UuidText(id))) == Some(UuidText(id)) && ParseUuid(UuidText(id)) == Some(id)
  {
    UuidReadsBack(id);
    UuidHasNoSpace(id);
    StripKeepsCleanText(UuidText(id));
  }

  /** The consumer reads back the ids of the row the message was made from. */
  lemma EncodedIdentity(record: Row)
    requires IsUuid(record.id) && IsUuid(record.paymentId)
    ensures IdentityOf(Encode(record)) == Identity(Some(record.paymentId), Some(record.id), 0)
  {
    TextOfUuid(record.id);
    TextOfUuid(record.paymentId);
  }

  /** The header alone names the row, when the body has lost it. */
  lemma HeaderNamesRow(record: Row)
    requires IsUuid(record.id)
    ensures ParseOutboxId(Encode(record).(body := Encode(record).body - {"outbox_id"})) == Some(record.id)
  {
    TextOfUuid(record.id);
  }

  /** Ids are found in their other places too: the payment id at the top of the body when there is no
      payload, the outbox id in the header when the body has none. */
  lemma FallbackIdentity(e: Envelope, paymentId: Id, outboxId: Id)
    requires IsUuid(paymentId) && IsUuid(outboxId)
    requires "payload" !in e.body && Get(e.body, "payment_id") == Str(UuidText(paymentId))
    requires "outbox_id" !in e.body && e.headers.Some? && Get(e.headers.value, OUTBOX_ID_HEADER) == Str(UuidText(outboxId))
    ensures ParsePaymentId(e.body) == Some(paymentId) && ParseOutboxId(e) == Some(outboxId)
  {
    TextOfUuid(paymentId);
    TextOfUuid(outboxId);
  }

  /** A missing or unreadable count is zero; a number is taken as it is. */
  lemma RetryCountRule(e: Envelope)
    ensures e.headers.None? || RETRY_COUNT_HEADER !in e.headers.value ==> ParseRetryCount(e) == 0
    ensures e.headers.Some? && RETRY_COUNT_HEADER in e.headers.value ==>
              match e.headers.value[RETRY_COUNT_HEADER]
              case Int(n) => ParseRetryCount(e) == n
              case Null => ParseRetryCount(e) == 0
              case Arr(_) => ParseRetryCount(e) == 0
              case Obj(_) => ParseRetryCount(e) == 0
              case _ => true
  {
  }

  /** A retry changes the count and nothing else that the consumer reads. */
  lemma RetryKeepsIdentity(e: Envelope, count: int)
    ensures IdentityOf(WithRetryCount(e, count)) == IdentityOf(e).(retryCount := count)
    ensures WithRetryCount(e, count).body == e.body
  {
  }
}
