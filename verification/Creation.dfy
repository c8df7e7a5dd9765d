/** Idempotent creation (src/application/use_cases/create_payment.py): any number of concurrent
    create calls over one payments table with a unique key, as a step machine, and the code of one
    call. */
module Creation {
  import opened Base
  import opened Money
  import opened Payments

  /** A validated create request. */
  datatype Command = Command(
    money: Money, description: string, metadata: Metadata, webhookUrl: string, key: string)

  function TermsOf(command: Command, at: Time): Terms {
    Terms(command.money, command.description, command.metadata, command.key, command.webhookUrl, at)
  }

  /** `has_matching_create_input`. */
  predicate Matches(p: Record, command: Command) {
    && p.terms.money == command.money
    && p.terms.description == command.description
    && p.terms.metadata == command.metadata
    && p.terms.webhookUrl == command.webhookUrl
  }

  /** Under one key, the match is exactly: this command would have stored the same terms. */
  lemma MatchIsSameTerms(p: Record, command: Command)
    requires p.terms.key == command.key
    ensures Matches(p, command) <==> p.terms == TermsOf(command, p.terms.createdAt)
  {
  }

  datatype Stage =
    | Inserting
    | Replaying
    | Returned(id: Id)
    | Conflict(existing: Option<Id>)
    | Broken

  datatype Call = Call(command: Command, stage: Stage)

  datatype State = State(
    payments: map<Id, Record>,
    events: map<Id, Id>,        // outbox rows ever inserted, with their payment
    calls: map<Id, Call>)

  datatype Op =
    | Begin(call: Id, command: Command)
    | Insert(call: Id, id: Id, event: Id, at: Time, commit: CommitOutcome)
    | Replay(call: Id)
    | Break(call: Id)
    | Progress(payment: Record)   // processing changes a payment's status

  function Init(): State {
    State(map[], map[], map[])
  }

  /** The payments with this key; the unique constraint allows one. */
  function WithKey(payments: map<Id, Record>, key: string): set<Id> {
    set id | id in payments && payments[id].terms.key == key
  }

  predicate At(s: State, call: Id, stage: Stage) {
    call in s.calls && s.calls[call].stage == stage
  }

  predicate Enabled(s: State, op: Op) {
    match op
    case Begin(call, _) => call !in s.calls
    case Insert(call, id, event, _, _) => At(s, call, Inserting) && id !in s.payments && event !in s.events
    case Replay(call) => At(s, call, Replaying)
    case Break(call) => At(s, call, Inserting) || At(s, call, Replaying)
    case Progress(p) => p.id in s.payments && p.terms == s.payments[p.id].terms
  }

  function SetStage(s: State, call: Id, stage: Stage): State
    requires call in s.calls
  {
    s.(calls := s.calls[call := s.calls[call].(stage := stage)])
  }

  /** What the read of the existing payment leads to. */
  function Verdict(payments: map<Id, Record>, command: Command, found: Option<Id>): Stage
    requires found.Some? ==> found.value in payments
  {
    if found.None? then Conflict(None)
    else if Matches(payments[found.value], command) then Returned(found.value)
    else Conflict(found)
  }

  ghost function Found(payments: map<Id, Record>, key: string): (found: Option<Id>)
    ensures found.None? <==> WithKey(payments, key) == {}
    ensures found.Some? ==> found.value in WithKey(payments, key)
  {
    var ids := WithKey(payments, key);
    if ids == {} then None else var id: Id :| id in ids; Some(id)
  }

  ghost function Apply(s: State, op: Op): State
    requires Enabled(s, op)
  {
    match op
    case Begin(call, command) => s.(calls := s.calls[call := Call(command, Inserting)])
    case Insert(call, id, event, at, commit) =>
      var command := s.calls[call].command;
      if WithKey(s.payments, command.key) != {} then SetStage(s, call, Replaying)
      else
        var next := SetStage(s, call, if commit.Committed? then Returned(id) else Broken);
        if !TookEffect(commit) then next
        else next.(payments := s.payments[id := NewRecord(id, TermsOf(command, at))], events := s.events[event := id])
    case Replay(call) =>
      var command := s.calls[call].command;
      SetStage(s, call, Verdict(s.payments, command, Found(s.payments, command.key)))
    case Break(call) => SetStage(s, call, Broken)
    case Progress(p) => s.(payments := s.payments[p.id := p])
  }

  ghost predicate IsStep(s: State, op: Op, s': State) {
    Enabled(s, op) && s' == Apply(s, op)
  }

  ghost predicate IsRun(states: seq<State>, ops: seq<Op>) {
    && |states| == |ops| + 1
    && states[0] == Init()
    && forall k :: 0 <= k < |ops| ==> IsStep(states[k], ops[k], states[k + 1])
  }

  // ----- invariant

  ghost predicate KeysUnique(payments: map<Id, Record>) {
    forall a, b :: a in payments && b in payments && payments[a].terms.key == payments[b].terms.key ==> a == b
  }

  /** One event per payment, none without. */
  ghost predicate EventsMatch(payments: map<Id, Record>, events: map<Id, Id>) {
    && (forall e, f :: e in events && f in events && events[e] == events[f] ==> e == f)
    && (forall e <- events :: events[e] in payments)
    && (forall id <- payments :: exists e :: e in events && events[e] == id)
  }

  ghost predicate TablesOk(payments: map<Id, Record>, events: map<Id, Id>) {
    && KeysUnique(payments) && EventsMatch(payments, events)
    && forall id <- payments :: payments[id].id == id
  }

  ghost predicate CallOk(s: State, call: Call) {
    match call.stage
    case Inserting => true
    case Broken => true
    case Replaying => WithKey(s.payments, call.command.key) != {}
    case Returned(id) => id in WithKey(s.payments, call.command.key) && Matches(s.payments[id], call.command)
    case Conflict(existing) =>
      existing.Some? && existing.value in WithKey(s.payments, call.command.key)
      && !Matches(s.payments[existing.value], call.command)
  }

  ghost predicate Inv(s: State) {
    && TablesOk(s.payments, s.events)
    && (forall c <- s.calls :: CallOk(s, s.calls[c]))
  }

  /** A create call asked for this payment: every term but the creation time is what it passed. */
  ghost predicate Asked(calls: map<Id, Call>, call: Id, p: Record) {
    && call in calls
    && p.terms.money == calls[call].command.money
    && p.terms.description == calls[call].command.description
    && p.terms.metadata == calls[call].command.metadata
    && p.terms.webhookUrl == calls[call].command.webhookUrl
    && p.terms.key == calls[call].command.key
  }

  ghost predicate AllAsked(s: State) {
    forall id <- s.payments :: exists call :: Asked(s.calls, call, s.payments[id])
  }

  /** Payments are never deleted and their terms never change. */
  ghost predicate Grows(s: State, s': State) {
    forall id <- s.payments :: id in s'.payments && s'.payments[id].terms == s.payments[id].terms
  }

  lemma GrowthKeepsCall(s: State, s': State, call: Call)
    requires Grows(s, s') && CallOk(s, call)
    ensures CallOk(s', call)
  {
    if call.stage.Replaying? {
      var id :| id in WithKey(s.payments, call.command.key);
      assert id in WithKey(s'.payments, call.command.key);
    }
  }

  lemma InsertKeepsKeys(payments: map<Id, Record>, p: Record)
    requires KeysUnique(payments) && p.id !in payments && WithKey(payments, p.terms.key) == {}
    ensures KeysUnique(payments[p.id := p])
  {
    forall a | a in payments ensures payments[a].terms.key != p.terms.key {
      assert a !in WithKey(payments, p.terms.key);
    }
  }

  lemma InsertKeepsEvents(payments: map<Id, Record>, events: map<Id, Id>, p: Record, event: Id)
    requires EventsMatch(payments, events) && p.id !in payments && event !in events
    ensures EventsMatch(payments[p.id := p], events[event := p.id])
  {
    var events' := events[event := p.id];
    assert events'[event] == p.id;
    forall id | id in payments ensures exists e :: e in events' && events'[e] == id {
      var e :| e in events && events[e] == id;
      assert events'[e] == id;
    }
  }

  /** Inserting a payment under a free key, with its event, keeps the tables consistent. */
  lemma InsertKeepsTables(payments: map<Id, Record>, events: map<Id, Id>, p: Record, event: Id)
    requires TablesOk(payments, events)
    requires WithKey(payments, p.terms.key) == {} && p.id !in payments && event !in events
    ensures TablesOk(payments[p.id := p], events[event := p.id])
  {
    InsertKeepsKeys(payments, p);
    InsertKeepsEvents(payments, events, p, event);
  }

  lemma ProgressKeepsTables(payments: map<Id, Record>, events: map<Id, Id>, p: Record)
    requires TablesOk(payments, events) && p.id in payments && p.terms == payments[p.id].terms
    ensures TablesOk(payments[p.id := p], events)
  {
    var payments' := payments[p.id := p];
    assert forall id <- payments' :: id in payments && payments'[id].terms == payments[id].terms;
  }

  lemma StepKeepsTables(s: State, op: Op)
    requires Inv(s) && Enabled(s, op)
    ensures TablesOk(Apply(s, op).payments, Apply(s, op).events) && Grows(s, Apply(s, op))
  {
    match op
    case Insert(call, id, event, at, commit) =>
      var command := s.calls[call].command;
      if WithKey(s.payments, command.key) == {} && TookEffect(commit) {
        InsertKeepsTables(s.payments, s.events, NewRecord(id, TermsOf(command, at)), event);
      }
    case Progress(p) => ProgressKeepsTables(s.payments, s.events, p);
    case _ =>
  }

  lemma StepKeepsCaller(s: State, op: Op)
    requires Inv(s) && Enabled(s, op) && !op.Progress?
    ensures CallOk(Apply(s, op), Apply(s, op).calls[op.call])
  {
    if !op.Begin? {
      assert CallOk(s, s.calls[op.call]);
    }
  }

  lemma StepKeepsInv(s: State, op: Op)
    requires Inv(s) && Enabled(s, op)
    ensures Inv(Apply(s, op)) && Grows(s, Apply(s, op))
  {
    var s' := Apply(s, op);
    StepKeepsTables(s, op);
    forall c | c in s'.calls ensures CallOk(s', s'.calls[c]) {
      if !op.Progress? && c == op.call {
        StepKeepsCaller(s, op);
      } else {
        GrowthKeepsCall(s, s', s.calls[c]);
      }
    }
  }

  lemma {:induction false} ReachableInv(states: seq<State>, ops: seq<Op>, k: nat)
    requires IsRun(states, ops) && k < |states|
    ensures Inv(states[k])
  {
    if k > 0 {
      ReachableInv(states, ops, k - 1);
      assert IsStep(states[k - 1], ops[k - 1], states[k]);
      StepKeepsInv(states[k - 1], ops[k - 1]);
    }
  }

  lemma CommandsStay(s: State, op: Op, call: Id)
    requires Enabled(s, op) && call in s.calls
    ensures call in Apply(s, op).calls && Apply(s, op).calls[call].command == s.calls[call].command
  {
  }

  /** Where the payment of a step comes from: an insert by this call, or it was there with these terms. */
  lemma PaymentOrigin(s: State, op: Op, id: Id)
    requires Inv(s) && Enabled(s, op) && id in Apply(s, op).payments
    ensures id in s.payments ==> Apply(s, op).payments[id].terms == s.payments[id].terms
    ensures id !in s.payments ==> op.Insert? && Asked(s.calls, op.call, Apply(s, op).payments[id])
  {
  }

  lemma StepKeepsAsked(s: State, op: Op)
    requires Inv(s) && AllAsked(s) && Enabled(s, op)
    ensures AllAsked(Apply(s, op))
  {
    var s' := Apply(s, op);
    forall id | id in s'.payments ensures exists call :: Asked(s'.calls, call, s'.payments[id]) {
      PaymentOrigin(s, op, id);
      if id in s.payments {
        var call :| Asked(s.calls, call, s.payments[id]);
        CommandsStay(s, op, call);
        assert Asked(s'.calls, call, s'.payments[id]);
      } else {
        CommandsStay(s, op, op.call);
        assert Asked(s'.calls, op.call, s'.payments[id]);
      }
    }
  }

  /** Every payment of every reachable state carries what some create call passed. */
  lemma {:induction false} PaymentsAreAsked(states: seq<State>, ops: seq<Op>, k: nat)
    requires IsRun(states, ops) && k < |states|
    ensures AllAsked(states[k])
  {
    if k > 0 {
      PaymentsAreAsked(states, ops, k - 1);
      ReachableInv(states, ops, k - 1);
      assert IsStep(states[k - 1], ops[k - 1], states[k]);
      StepKeepsAsked(states[k - 1], ops[k - 1]);
    }
  }

  // ----- what callers may rely on

  /** Any number of calls with a key, however interleaved: at most one payment, with exactly one
      event, inserted in one step. */
  lemma OnePaymentPerKey(states: seq<State>, ops: seq<Op>, k: nat, key: string)
    requires IsRun(states, ops) && k < |states|
    ensures |WithKey(states[k].payments, key)| <= 1
    ensures forall id <- WithKey(states[k].payments, key) ::
              (exists e :: e in states[k].events && states[k].events[e] == id)
              && (forall e, f ::
                    (e in states[k].events && f in states[k].events
                     && states[k].events[e] == id && states[k].events[f] == id) ==> e == f)
  {
    ReachableInv(states, ops, k);
    var ids := WithKey(states[k].payments, key);
    if ids != {} {
      var id :| id in ids;
      assert ids == {id};
    }
  }

  /** A payment and its event appear in the same step. */
  lemma PaymentAndEventAppearTogether(s: State, op: Op)
    requires Inv(s) && Enabled(s, op)
    ensures var s' := Apply(s, op);
            && (s'.payments.Keys != s.payments.Keys <==> s'.events != s.events)
            && (s'.events != s.events ==>
                  exists id: Id, event: Id :: s'.payments.Keys == s.payments.Keys + {id} && s'.events == s.events[event := id]
                                      && id !in s.payments && event !in s.events)
  {
    var s' := Apply(s, op);
    if op.Insert? && s'.events != s.events {
      assert s'.payments.Keys == s.payments.Keys + {op.id} && s'.events == s.events[op.event := op.id];
    }
    if op.Progress? {
      assert s'.payments.Keys == s.payments.Keys;
    }
  }

  /** A finished call succeeded exactly when what it asked for is what is stored under its key; the
      id it got is the stored one; the "duplicate but missing" conflict never happens. */
  lemma CallsAgreeWithStore(states: seq<State>, ops: seq<Op>, k: nat, call: Id)
    requires IsRun(states, ops) && k < |states| && call in states[k].calls
    ensures var s, c := states[k], states[k].calls[call];
            && c.stage != Conflict(None)
            && (c.stage.Returned? || c.stage.Conflict? ==>
                  exists id :: WithKey(s.payments, c.command.key) == {id}
                    && (c.stage.Returned? <==> Matches(s.payments[id], c.command))
                    && c.stage == if Matches(s.payments[id], c.command) then Returned(id) else Conflict(Some(id)))
  {
    ReachableInv(states, ops, k);
    var s, c := states[k], states[k].calls[call];
    assert CallOk(s, c);
    if c.stage.Returned? || c.stage.Conflict? {
      var id := if c.stage.Returned? then c.stage.id else c.stage.existing.value;
      assert WithKey(s.payments, c.command.key) == {id};
    }
  }

  /** All successful calls with one key return one id, at whatever times they return. */
  lemma SameKeySameId(states: seq<State>, ops: seq<Op>, k: nat, a: Id, b: Id)
    requires IsRun(states, ops) && k < |states| && a in states[k].calls && b in states[k].calls
    requires states[k].calls[a].command.key == states[k].calls[b].command.key
    requires states[k].calls[a].stage.Returned? && states[k].calls[b].stage.Returned?
    ensures states[k].calls[a].stage == states[k].calls[b].stage
  {
    ReachableInv(states, ops, k);
    assert CallOk(states[k], states[k].calls[a]) && CallOk(states[k], states[k].calls[b]);
  }

  // ----- the code of one call

  datatype Failure = InvalidInput | IdempotencyConflict(existing: Option<Id>) | Infrastructure

  /** A new payment: pending, unprocessed, and all terms as passed. */
  predicate Stores(p: Record, id: Id, command: Command, now: Time) {
    && p.id == id && p.status.Pending? && p.processedAt.None?
    && p.terms.money == command.money && p.terms.description == command.description
    && p.terms.metadata == command.metadata && p.terms.webhookUrl == command.webhookUrl
    && p.terms.key == command.key && p.terms.createdAt == now
  }

  class Service {
    var payments: map<Id, Record>
    var events: map<Id, Id>

    ghost predicate Valid()
      reads this
    {
      TablesOk(payments, events)
    }

    constructor ()
      ensures Valid() && payments == map[] && events == map[]
    {
      payments, events := map[], map[];
    }

    /** `get_by_idempotency_key`. */
    method GetByKey(key: string) returns (found: Option<Id>)
      requires Valid()
      ensures found.None? <==> WithKey(payments, key) == {}
      ensures found.Some? ==> WithKey(payments, key) == {found.value}
    {
      var ids := WithKey(payments, key);
      if ids == {} {
        return None;
      }
      var id: Id :| id in ids;
      return Some(id);
    }

    /** `CreatePayment.execute`: the insert of payment and event is one transaction, a taken key is
        found by the unique constraint. `id` and `event` are the fresh uuids. */
    method Execute(
      amount: AmountInput, currency: string, description: string, metadata: Metadata, webhookUrl: string,
      urlAllowed: bool, key: string, id: Id, event: Id, now: Time, commit: CommitOutcome)
      returns (result: Result<Id, Failure>)
      requires Valid() && id !in payments && event !in events
      modifies this
      ensures Valid()
      ensures !Create(amount, currency).Ok? || !ValidKey(key) || !urlAllowed ==>
                result == Err(InvalidInput) && payments == old(payments) && events == old(events)
      ensures Create(amount, currency).Ok? && ValidKey(key) && urlAllowed ==>
                var command := Command(Create(amount, currency).value, description, metadata, webhookUrl, key);
                var taken := WithKey(old(payments), key);
                // a taken key changes nothing and is answered from the stored payment
                && (taken != {} ==>
                      && payments == old(payments) && events == old(events)
                      && exists stored :: taken == {stored}
                           && result == if Matches(payments[stored], command) then Ok(stored)
                                        else Err(IdempotencyConflict(Some(stored))))
                // otherwise both rows appear, or neither
                && (taken == {} ==>
                      && result == (if commit.Committed? then Ok(id) else Err(Infrastructure))
                      && (TookEffect(commit) ==>
                            && id in payments && payments == old(payments)[id := payments[id]]
                            && Stores(payments[id], id, command, now)
                            && events == old(events)[event := id])
                      && (commit.RolledBack? ==> payments == old(payments) && events == old(events)))
    {
      var money := Create(amount, currency);
      if !money.Ok? || !ValidKey(key) || !urlAllowed {
        return Err(InvalidInput);
      }
      var command := Command(money.value, description, metadata, webhookUrl, key);
      var found := GetByKey(key);
      if found.None? {
        if TookEffect(commit) {
          InsertKeepsTables(payments, events, NewRecord(id, TermsOf(command, now)), event);
          payments := payments[id := NewRecord(id, TermsOf(command, now))];
          events := events[event := id];
        }
        return if commit.Committed? then Ok(id) else Err(Infrastructure);
      }
      if Matches(payments[found.value], command) {
        return Ok(found.value);
      }
      return Err(IdempotencyConflict(found));
    }
  }
}
