/** A run of the whole service is, seen from each part, a run of that part's machine, state by state
    and step by step: what is proved of the relay, of charging and notifying, and of creation, at one
    time or between two times, therefore holds of the service. */
module Projection {
  import opened Base
  import opened NoLoss
  import opened Protocol
  import opened Stutter
  import C = Creation
  import L = Ledger
  import LS = LedgerSafety
  import N = LedgerSerial
  import P = Payments
  import R = Relay
  import RL = RelayLease
  import RS = RelaySafety
  import Outbox

  // ----- the parts of a run

  function Relays(states: seq<State>): seq<R.State> {
    seq(|states|, i requires 0 <= i < |states| => states[i].relay)
  }

  function Ledgers(states: seq<State>): seq<L.State> {
    seq(|states|, i requires 0 <= i < |states| => states[i].ledger)
  }

  function Desks(states: seq<State>): seq<C.State> {
    seq(|states|, i requires 0 <= i < |states| => Desk(states[i]))
  }

  function RelayParts(states: seq<State>, ops: seq<Op>): seq<Option<R.Op>>
    requires |ops| <= |states|
  {
    seq(|ops|, i requires 0 <= i < |ops| => RelayPart(states[i], ops[i]))
  }

  function LedgerParts(states: seq<State>, ops: seq<Op>): seq<Option<L.Op>>
    requires |ops| <= |states|
  {
    seq(|ops|, i requires 0 <= i < |ops| => LedgerPart(states[i], ops[i]))
  }

  lemma InitialParts(c: Config, states: seq<State>, ops: seq<Op>)
    requires IsRun(c, states, ops)
    ensures states[0].relay == R.Init(states[0].relay.now) && states[0].ledger == L.Init()
    ensures Desk(states[0]) == C.Init()
  {
  }

  /** One step of the service as a step of the relay and of the ledger, or of neither. */
  lemma PartSteps(c: Config, states: seq<State>, ops: seq<Op>, k: nat)
    requires IsRun(c, states, ops) && k < |ops|
    ensures match RelayPart(states[k], ops[k])
            case Some(part) => R.IsStep(c.relay, states[k].relay, part, states[k + 1].relay)
            case None => states[k + 1].relay == states[k].relay
    ensures match LedgerPart(states[k], ops[k])
            case Some(part) => L.IsStep(states[k].ledger, part, states[k + 1].ledger)
            case None => states[k + 1].ledger == states[k].ledger
  {
    assert IsStep(c, states[k], ops[k], states[k + 1]);
  }

  lemma RelayRun(c: Config, states: seq<State>, ops: seq<Op>)
    returns (relays: seq<R.State>, works: seq<R.Op>, pos: seq<nat>)
    requires IsRun(c, states, ops)
    ensures R.IsRun(c.relay, relays, works)
    ensures Follows(relays, works, Relays(states), RelayParts(states, ops), pos)
  {
    var whole, parts := Relays(states), RelayParts(states, ops);
    forall j | 0 <= j < |parts| && parts[j].None? ensures whole[j + 1] == whole[j] {
      PartSteps(c, states, ops, j);
    }
    relays, works, pos := Compress(whole, parts);
    assert relays[pos[0]] == whole[0];
    InitialParts(c, states, ops);
    forall i | 0 <= i < |works| ensures R.IsStep(c.relay, relays[i], works[i], relays[i + 1]) {
      var j := StepOf(relays, works, whole, parts, pos, i, |parts|);
      PartSteps(c, states, ops, j);
    }
  }

  lemma LedgerRun(c: Config, states: seq<State>, ops: seq<Op>)
    returns (ledgers: seq<L.State>, steps: seq<L.Op>, pos: seq<nat>)
    requires IsRun(c, states, ops)
    ensures L.IsRun(ledgers, steps)
    ensures Follows(ledgers, steps, Ledgers(states), LedgerParts(states, ops), pos)
  {
    var whole, parts := Ledgers(states), LedgerParts(states, ops);
    forall j | 0 <= j < |parts| && parts[j].None? ensures whole[j + 1] == whole[j] {
      PartSteps(c, states, ops, j);
    }
    ledgers, steps, pos := Compress(whole, parts);
    assert ledgers[pos[0]] == whole[0];
    InitialParts(c, states, ops);
    forall i | 0 <= i < |steps| ensures L.IsStep(ledgers[i], steps[i], ledgers[i + 1]) {
      var j := StepOf(ledgers, steps, whole, parts, pos, i, |parts|);
      PartSteps(c, states, ops, j);
    }
  }

  /** One step of the service as a step of the creation machine, or as none. */
  ghost predicate CreationStep(s: State, part: Option<C.Op>, s': State) {
    match part
    case Some(op) => C.IsStep(Desk(s), op, Desk(s'))
    case None => Desk(s') == Desk(s)
  }

  lemma StepIsCreation(c: Config, states: seq<State>, ops: seq<Op>, k: nat)
    requires R.ValidConfig(c.relay) && IsRun(c, states, ops) && k < |ops|
    ensures Enabled(c, states[k], ops[k])
    ensures CreationStep(states[k], CreationPart(c, states[k], ops[k]), states[k + 1])
  {
    assert IsStep(c, states[k], ops[k], states[k + 1]);
    ReachableInv(c, states, ops, k);
    CreationFollows(c, states[k], ops[k]);
  }

  lemma CreationParts(c: Config, states: seq<State>, ops: seq<Op>) returns (parts: seq<Option<C.Op>>)
    requires R.ValidConfig(c.relay) && IsRun(c, states, ops)
    ensures |parts| == |ops|
    ensures forall j :: 0 <= j < |parts| ==> CreationStep(states[j], parts[j], states[j + 1])
  {
    forall j | 0 <= j < |ops|
      ensures Enabled(c, states[j], ops[j])
              && CreationStep(states[j], CreationPart(c, states[j], ops[j]), states[j + 1])
    {
      StepIsCreation(c, states, ops, j);
    }
    parts := seq(|ops|, j requires 0 <= j < |ops| && Enabled(c, states[j], ops[j]) =>
      CreationPart(c, states[j], ops[j]));
  }

  lemma CreationRun(c: Config, states: seq<State>, ops: seq<Op>)
    returns (desks: seq<C.State>, calls: seq<C.Op>, parts: seq<Option<C.Op>>, pos: seq<nat>)
    requires R.ValidConfig(c.relay) && IsRun(c, states, ops)
    ensures C.IsRun(desks, calls) && Follows(desks, calls, Desks(states), parts, pos)
  {
    var whole := Desks(states);
    parts := CreationParts(c, states, ops);
    forall j | 0 <= j < |parts| && parts[j].None? ensures whole[j + 1] == whole[j] {
      assert CreationStep(states[j], parts[j], states[j + 1]);
    }
    desks, calls, pos := Compress(whole, parts);
    assert desks[pos[0]] == whole[0];
    InitialParts(c, states, ops);
    forall i | 0 <= i < |calls| ensures C.IsStep(desks[i], calls[i], desks[i + 1]) {
      var j := StepOf(desks, calls, whole, parts, pos, i, |parts|);
      assert CreationStep(states[j], parts[j], states[j + 1]);
    }
  }

  // ----- the relay, inside the service

  ghost predicate Timely(c: Config, states: seq<State>) {
    forall s <- states :: RL.Timely(c.relay, s.relay)
  }

  /** No marking commit raises after taking effect. */
  ghost predicate NoAmbiguousMark(ops: seq<Op>) {
    forall op <- ops :: op.RelayWork? && op.work.Mark? ==> !op.work.commit.CommittedButRaised?
  }

  lemma RelaysAreTimely(
    c: Config, states: seq<State>, ops: seq<Op>, relays: seq<R.State>, works: seq<R.Op>, pos: seq<nat>)
    requires |ops| <= |states| && Follows(relays, works, Relays(states), RelayParts(states, ops), pos)
    requires Timely(c, states)
    ensures forall r <- relays :: RL.Timely(c.relay, r)
  {
    forall r | r in relays ensures RL.Timely(c.relay, r) {
      var i :| 0 <= i < |relays| && relays[i] == r;
      var j := StateOf(relays, works, Relays(states), RelayParts(states, ops), pos, i);
      assert states[j] in states;
    }
  }

  lemma WorksAreUnambiguous(
    states: seq<State>, ops: seq<Op>, relays: seq<R.State>, works: seq<R.Op>, pos: seq<nat>)
    requires |ops| <= |states| && Follows(relays, works, Relays(states), RelayParts(states, ops), pos)
    requires NoAmbiguousMark(ops)
    ensures RL.NoAmbiguousMark(works)
  {
    forall work | work in works && work.Mark? ensures !work.commit.CommittedButRaised? {
      var i :| 0 <= i < |works| && works[i] == work;
      var j := StepOf(relays, works, Relays(states), RelayParts(states, ops), pos, i, |ops|);
      assert ops[j] in ops && RelayPart(states[j], ops[j]) == Some(work);
    }
  }

  lemma TimelyRelayRun(c: Config, states: seq<State>, ops: seq<Op>)
    returns (relays: seq<R.State>, works: seq<R.Op>, pos: seq<nat>)
    requires IsRun(c, states, ops) && Timely(c, states)
    ensures RL.TimelyRun(c.relay, relays, works)
    ensures Follows(relays, works, Relays(states), RelayParts(states, ops), pos)
    ensures NoAmbiguousMark(ops) ==> RL.NoAmbiguousMark(works)
  {
    relays, works, pos := RelayRun(c, states, ops);
    RelaysAreTimely(c, states, ops, relays, works, pos);
    if NoAmbiguousMark(ops) {
      WorksAreUnambiguous(states, ops, relays, works, pos);
    }
  }

  /** Service-wide, with workers that respect their lease and no ambiguous mark: a PROCESSED or FAILED
      row is the same at every later time, or has been purged, whatever everybody else does. */
  lemma FinalRowsStay(c: Config, states: seq<State>, ops: seq<Op>, j: nat, k: nat, id: Id)
    requires R.ValidConfig(c.relay) && IsRun(c, states, ops) && Timely(c, states) && NoAmbiguousMark(ops)
    requires j <= k < |states|
    requires id in states[j].relay.table && !Outbox.Pending(states[j].relay.table[id])
    ensures if id in states[k].relay.table then states[k].relay.table[id] == states[j].relay.table[id]
            else id in states[k].relay.deleted
  {
    var relays, works, pos := TimelyRelayRun(c, states, ops);
    InOrder(relays, works, Relays(states), RelayParts(states, ops), pos, j, k);
    assert relays[pos[j]] == Relays(states)[j] && relays[pos[k]] == Relays(states)[k];
    RL.FinalRowsStay(c.relay, relays, works, pos[j], pos[k], id);
  }

  /** Service-wide, the history of a row in a timely run: `RelayLease.TimelyRowHistory` for the service
      steps that are relay steps; no other step touches the row. */
  lemma RowHistory(c: Config, states: seq<State>, ops: seq<Op>, k: nat, id: Id)
    requires R.ValidConfig(c.relay) && IsRun(c, states, ops) && Timely(c, states) && k < |ops|
    requires id in states[k].relay.table && id in states[k + 1].relay.table
    ensures var r, row, row' := states[k].relay, states[k].relay.table[id], states[k + 1].relay.table[id];
            match RelayPart(states[k], ops[k])
            case None => row' == row
            case Some(work) =>
              && (row.status.Failed? ==> row' == row)
              && (row.status.Processed? ==> (row' != row <==> RL.AfterAmbiguousMark(c.relay, r, work, id)))
              && row'.retryCount == row.retryCount + if RL.RecordsFailure(c.relay, r, work, id) then 1 else 0
  {
    var relays, works, pos := TimelyRelayRun(c, states, ops);
    var parts := RelayParts(states, ops);
    assert relays[pos[k]] == Relays(states)[k] && relays[pos[k + 1]] == Relays(states)[k + 1];
    assert Moves(works, parts[k], pos[k], pos[k + 1]);
    if parts[k].Some? {
      RL.TimelyRowHistory(c.relay, relays, works, pos[k], id);
    }
  }

  /** Service-wide, in a timely run: at most one worker holds a record at a time. */
  lemma OneHolder(c: Config, states: seq<State>, ops: seq<Op>, k: nat, w: Id, i: nat, w': Id, i': nat, id: Id)
    requires R.ValidConfig(c.relay) && IsRun(c, states, ops) && Timely(c, states) && k < |states|
    requires RL.Holds(states[k].relay, w, i, id) && RL.Holds(states[k].relay, w', i', id)
    ensures w == w' && i == i'
  {
    var relays, works, pos := TimelyRelayRun(c, states, ops);
    assert relays[pos[k]] == Relays(states)[k];
    RL.OneHolder(c.relay, relays, works, pos[k], w, i, w', i', id);
  }

  /** Service-wide, late workers included: a publication time is never cleared before the purge. */
  lemma PublishedForever(c: Config, states: seq<State>, ops: seq<Op>, j: nat, k: nat, id: Id)
    requires R.ValidConfig(c.relay) && IsRun(c, states, ops) && j <= k < |states|
    requires RS.PublishedOrGone(states[j].relay, id)
    ensures RS.PublishedOrGone(states[k].relay, id)
  {
    var relays, works, pos := RelayRun(c, states, ops);
    InOrder(relays, works, Relays(states), RelayParts(states, ops), pos, j, k);
    assert relays[pos[j]] == Relays(states)[j] && relays[pos[k]] == Relays(states)[k];
    RS.PublishedForever(c.relay, relays, works, pos[j], pos[k], id);
  }

  // ----- charging and notifying, inside the service

  /** Service-wide: an outcome once seen by a handler is the stored one ever after, and a final payment
      with its processing time never changes. */
  lemma OutcomeNeverChanges(c: Config, states: seq<State>, ops: seq<Op>, j: nat, k: nat, w: Id, id: Id)
    requires IsRun(c, states, ops) && j <= k < |states|
    ensures var s, s' := states[j].ledger, states[k].ledger;
            && (w in s.runs && s.runs[w].stage.ToComplete? ==>
                  s.runs[w].paymentId in s'.charges && s'.charges[s.runs[w].paymentId] == s.runs[w].stage.success)
            && (LS.IsFinal(s, id) ==> LS.IsFinal(s', id) && s'.payments[id] == s.payments[id])
  {
    var ledgers, steps, pos := LedgerRun(c, states, ops);
    InOrder(ledgers, steps, Ledgers(states), LedgerParts(states, ops), pos, j, k);
    assert ledgers[pos[j]] == Ledgers(states)[j] && ledgers[pos[k]] == Ledgers(states)[k];
    LS.OutcomeNeverChanges(ledgers, steps, pos[j], pos[k], w, id);
  }

  /** Service-wide, whatever is redelivered, overlaps or crashes: the webhooks accepted for a message are
      its passes through the gap between acceptance and the inbox entry. */
  lemma AcceptanceLaw(c: Config, states: seq<State>, ops: seq<Op>, k: nat, messageId: Id)
    requires IsRun(c, states, ops) && k < |states|
    ensures N.Acceptances(states[k].ledger.posts, messageId) == N.Passes(states[k].ledger, messageId)
  {
    var ledgers, steps, pos := LedgerRun(c, states, ops);
    assert ledgers[pos[k]] == Ledgers(states)[k];
    N.AcceptanceLaw(ledgers, steps, pos[k], messageId);
  }

  /** Service-wide, when runs of the message never overlap: at most one accepted webhook, and one more
      for each run that stopped in the gap. */
  lemma DuplicatesComeFromStops(c: Config, states: seq<State>, ops: seq<Op>, k: nat, messageId: Id)
    requires IsRun(c, states, ops) && k < |states|
    requires forall s <- states :: N.Serial(s.ledger, messageId)
    ensures var s := states[k].ledger;
            && N.Acceptances(s.posts, messageId) <= 1 + s.stopped[messageId]
            && (messageId in s.inbox ==> N.Acceptances(s.posts, messageId) == 1 + s.stopped[messageId])
  {
    var ledgers, steps, pos := LedgerRun(c, states, ops);
    assert ledgers[pos[k]] == Ledgers(states)[k];
    forall l | l in ledgers ensures N.Serial(l, messageId) {
      var i :| 0 <= i < |ledgers| && ledgers[i] == l;
      var j := StateOf(ledgers, steps, Ledgers(states), LedgerParts(states, ops), pos, i);
      assert states[j] in states;
    }
    N.DuplicatesComeFromStops(ledgers, steps, pos[k], messageId);
  }

  /** The service never refuses a delivery: the message is about the payment its id always was. */
  lemma DeliveryIsPossible(c: Config, states: seq<State>, ops: seq<Op>, k: nat, w: Id, m: Message)
    requires R.ValidConfig(c.relay) && IsRun(c, states, ops) && k < |states|
    requires m in states[k].ready && w !in states[k].consumers
    ensures Enabled(c, states[k], Deliver(w, m))
  {
    ReachableInv(c, states, ops, k);
    assert Known(states[k], m);
  }

  /** Service-wide: every payment carries what a create call passed, whatever processing does to it. */
  lemma EveryPaymentWasAsked(c: Config, states: seq<State>, ops: seq<Op>, k: nat)
    requires R.ValidConfig(c.relay) && IsRun(c, states, ops) && k < |states|
    ensures C.AllAsked(Desk(states[k]))
  {
    var desks, calls, parts, pos := CreationRun(c, states, ops);
    assert desks[pos[k]] == Desks(states)[k];
    C.PaymentsAreAsked(desks, calls, pos[k]);
  }

  /** Service-wide: the final status of a payment is the first draw that took effect for it, in the order
      in which the service took its steps. */
  lemma FirstDrawDecides(c: Config, states: seq<State>, ops: seq<Op>, k: nat, id: Id) returns (j: nat)
    requires IsRun(c, states, ops) && k < |states| && LS.IsFinal(states[k].ledger, id)
    ensures j < k && ops[j].Handle? && LS.Draws(states[j].ledger, ops[j].step, id)
    ensures forall i :: 0 <= i < j ==> !(ops[i].Handle? && LS.Draws(states[i].ledger, ops[i].step, id))
    ensures states[k].ledger.payments[id].status == if ops[j].step.draw then P.Succeeded else P.Failed
  {
    var ledgers, steps, pos := LedgerRun(c, states, ops);
    var whole, parts := Ledgers(states), LedgerParts(states, ops);
    assert ledgers[pos[k]] == whole[k];
    var first := LS.FirstDrawDecides(ledgers, steps, pos[k], id);
    j := StepOf(ledgers, steps, whole, parts, pos, first, k);
    assert LedgerPart(states[j], ops[j]) == Some(steps[first]);
    forall i | 0 <= i < j ensures !(ops[i].Handle? && LS.Draws(states[i].ledger, ops[i].step, id)) {
      assert Moves(steps, parts[i], pos[i], pos[i + 1]) && ledgers[pos[i]] == whole[i];
      InOrder(ledgers, steps, whole, parts, pos, i + 1, j);
    }
  }

  /** Service-wide: all webhooks ever sent for a payment are equal and state its final outcome, the
      one stored charge of that payment, whichever deliveries, retries and rival consumers sent them. */
  lemma OneOutcomePerPayment(c: Config, states: seq<State>, ops: seq<Op>, k: nat, i: nat)
    requires R.ValidConfig(c.relay) && IsRun(c, states, ops) && k < |states| && i < |states[k].ledger.posts|
    ensures var s, id := states[k].ledger, states[k].ledger.posts[i].webhook.paymentId;
            && LS.Tells(s, s.posts[i].webhook)
            && exists call :: C.Asked(states[k].calls, call, s.payments[id])
                              && states[k].calls[call].command.money == s.posts[i].webhook.money
  {
    ReachableInv(c, states, ops, k);
    var s, id := states[k].ledger, states[k].ledger.posts[i].webhook.paymentId;
    assert LS.PostOk(s, s.posts[i]);
    EveryPaymentWasAsked(c, states, ops, k);
    assert id in Desk(states[k]).payments;
    var call :| C.Asked(states[k].calls, call, s.payments[id]);
  }
}
