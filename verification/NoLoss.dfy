/** No payment is ever lost, in any run of the whole service. */
module NoLoss {
  import opened Base
  import opened Protocol
  import R = Relay
  import L = Ledger
  import C = Creation
  import RS = RelaySafety
  import LS = LedgerSafety

  // ----- the invariant

  /** The message is about the payment of its outbox row. */
  ghost predicate Known(s: State, m: Message) {
    m.outboxId in s.relay.born && s.relay.born[m.outboxId] == m.paymentId
  }

  ghost predicate SubjectsKnown(subject: map<Id, Id>, born: map<Id, Id>) {
    forall id <- subject :: id in born && subject[id] == born[id]
  }

  ghost predicate MessagesOk(s: State) {
    && (forall m :: m in s.ready || m in s.retry || m in s.dead ==> Known(s, m))
    && (forall w <- s.consumers :: Known(s, s.consumers[w].message))
    && SubjectsKnown(s.ledger.subject, s.relay.born)
  }

  /** The handler runs exactly for the deliveries in handling, about their message. */
  ghost predicate ConsumersMatch(consumers: map<Id, Delivery>, runs: map<Id, L.Run>) {
    && (forall w <- consumers :: consumers[w].phase.Handling? ==> w in runs)
    && (forall w <- runs ::
          && w in consumers && consumers[w].phase.Handling?
          && runs[w].paymentId == consumers[w].message.paymentId
          && runs[w].messageId == Some(consumers[w].message.outboxId))
  }

  ghost predicate InQueue(queue: multiset<Message>, outboxId: Id) {
    exists m :: m in queue && m.outboxId == outboxId
  }

  /** The broker still counts on this consumer, which is not merely about to acknowledge. */
  ghost predicate Carries(s: State, w: Id, outboxId: Id) {
    w in s.consumers && s.consumers[w].message.outboxId == outboxId
    && s.consumers[w].owned && s.consumers[w].phase != Acking
  }

  /** A copy of the row's message is somewhere between the broker and a consumer. */
  ghost predicate Live(s: State, outboxId: Id) {
    || InQueue(s.ready, outboxId) || InQueue(s.retry, outboxId) || InQueue(s.dead, outboxId)
    || exists w :: Carries(s, w, outboxId)
  }

  /** The payment is final and its receiver has accepted a webhook. */
  ghost predicate Settled(s: State, paymentId: Id) {
    LS.IsFinal(s.ledger, paymentId) && LS.Notified(s.ledger, paymentId)
  }

  ghost predicate SafeRow(s: State, outboxId: Id) {
    outboxId in s.relay.born && (Live(s, outboxId) || Settled(s, s.relay.born[outboxId]))
  }

  ghost predicate PartsOk(c: Config, s: State) {
    && RS.Inv(c.relay, s.relay)
    && LS.Inv(s.ledger)
    && C.Inv(Desk(s))
  }

  ghost predicate Inv(c: Config, s: State) {
    && PartsOk(c, s)
    && MessagesOk(s) && ConsumersMatch(s.consumers, s.ledger.runs)
    && (forall id <- s.relay.accepted :: SafeRow(s, id))
  }

  // ----- the parts keep their own invariants

  /** What the step is for the creation machine, if anything. */
  ghost function CreationPart(c: Config, s: State, op: Op): Option<C.Op>
    requires Enabled(c, s, op)
  {
    if op.Call? then Some(op.call)
    else if op.Handle? && op.step.Complete? && s.ledger.runs[op.consumer].paymentId in s.ledger.payments
    then Some(C.Progress(Apply(c, s, op).ledger.payments[s.ledger.runs[op.consumer].paymentId]))
    else None
  }

  /** Which steps of the ledger machine touch which tables. */
  lemma PaymentsFrame(l: L.State, op: L.Op)
    requires L.Enabled(l, op) && !op.Register? && !op.Complete?
    ensures L.Apply(l, op).payments == l.payments
  {
  }

  lemma SubjectFrame(l: L.State, op: L.Op)
    requires L.Enabled(l, op) && !op.Start?
    ensures L.Apply(l, op).subject == l.subject
  {
  }

  lemma BornFrame(c: R.Config, r: R.State, op: R.Op)
    requires R.Enabled(c, r, op) && !op.Insert?
    ensures R.Apply(c, r, op).born == r.born
  {
  }

  lemma AcceptedFrame(c: R.Config, r: R.State, op: R.Op)
    requires R.Enabled(c, r, op) && !op.Publish?
    ensures R.Apply(c, r, op).accepted == r.accepted
  {
  }

  lemma BornTable(c: Config, s: State, op: Op)
    requires Enabled(c, s, op) && !op.Call?
    ensures Apply(c, s, op).relay.born == s.relay.born
  {
    if RelayPart(s, op).Some? {
      BornFrame(c.relay, s.relay, RelayPart(s, op).value);
    }
  }

  lemma AcceptedTable(c: Config, s: State, op: Op)
    requires Enabled(c, s, op) && !op.Publish?
    ensures Apply(c, s, op).relay.accepted == s.relay.accepted
  {
    if RelayPart(s, op).Some? {
      AcceptedFrame(c.relay, s.relay, RelayPart(s, op).value);
    }
  }

  lemma PaymentsTable(c: Config, s: State, op: Op)
    requires Enabled(c, s, op) && !op.Call? && !(op.Handle? && op.step.Complete?)
    ensures Apply(c, s, op).ledger.payments == s.ledger.payments
  {
    if LedgerPart(s, op).Some? {
      PaymentsFrame(s.ledger, LedgerPart(s, op).value);
    }
  }

  lemma SubjectTable(c: Config, s: State, op: Op)
    requires Enabled(c, s, op) && !op.Deliver?
    ensures Apply(c, s, op).ledger.subject == s.ledger.subject
  {
    if LedgerPart(s, op).Some? {
      SubjectFrame(s.ledger, LedgerPart(s, op).value);
    }
  }

  lemma DeliveredSubject(c: Config, s: State, op: Op)
    requires Enabled(c, s, op) && op.Deliver?
    ensures Apply(c, s, op).ledger.subject == s.ledger.subject[op.message.outboxId := op.message.paymentId]
  {
  }

  lemma CallFollows(c: Config, s: State, op: Op)
    requires Enabled(c, s, op) && op.Call?
    ensures C.IsStep(Desk(s), op.call, Desk(Apply(c, s, op)))
  {
    var s' := Apply(c, s, op);
    if Inserts(s, op) {
      assert s'.ledger == L.Apply(s.ledger, LedgerPart(s, op).value);
      assert s'.relay == R.Apply(c.relay, s.relay, RelayPart(s, op).value);
    } else {
      assert s'.ledger == s.ledger && s'.relay == s.relay;
    }
  }

  /** A completion changes one payment, and of it neither the id nor the terms. */
  lemma CompletionTouchesOne(l: L.State, op: L.Op)
    requires L.Enabled(l, op) && op.Complete? && LS.Inv(l)
    ensures var id := l.runs[op.worker].paymentId;
            var payments' := L.Apply(l, op).payments;
            if id in l.payments then
              && id in payments' && payments' == l.payments[id := payments'[id]]
              && payments'[id].id == id && payments'[id].terms == l.payments[id].terms
            else payments' == l.payments
  {
    var id := l.runs[op.worker].paymentId;
    if id in l.payments {
      assert LS.PaymentOk(l, id, l.payments[id]);
    }
  }

  lemma CompletionFollows(c: Config, s: State, op: Op)
    requires Enabled(c, s, op) && LS.Inv(s.ledger) && op.Handle? && op.step.Complete?
    ensures var id := s.ledger.runs[op.consumer].paymentId;
            if id in s.ledger.payments then
              && id in Apply(c, s, op).ledger.payments
              && C.IsStep(Desk(s), C.Progress(Apply(c, s, op).ledger.payments[id]), Desk(Apply(c, s, op)))
            else Desk(Apply(c, s, op)) == Desk(s)
  {
    CompletionTouchesOne(s.ledger, op.step);
    assert Apply(c, s, op).ledger == L.Apply(s.ledger, op.step);
    assert Apply(c, s, op).relay == s.relay;
  }

  lemma CreationFollows(c: Config, s: State, op: Op)
    requires Enabled(c, s, op) && PartsOk(c, s)
    ensures CreationPart(c, s, op).Some? ==>
              C.IsStep(Desk(s), CreationPart(c, s, op).value, Desk(Apply(c, s, op)))
    ensures CreationPart(c, s, op).None? ==> Desk(Apply(c, s, op)) == Desk(s)
  {
    if op.Call? {
      CallFollows(c, s, op);
    } else if op.Handle? && op.step.Complete? {
      CompletionFollows(c, s, op);
    } else {
      BornTable(c, s, op);
      PaymentsTable(c, s, op);
    }
  }

  lemma StepKeepsRelay(c: Config, s: State, op: Op)
    requires R.ValidConfig(c.relay) && RS.Inv(c.relay, s.relay) && Enabled(c, s, op)
    ensures RS.Inv(c.relay, Apply(c, s, op).relay)
  {
    if RelayPart(s, op).Some? {
      RS.StepKeepsInv(c.relay, s.relay, RelayPart(s, op).value);
    }
  }

  lemma StepKeepsLedger(c: Config, s: State, op: Op)
    requires LS.Inv(s.ledger) && Enabled(c, s, op)
    ensures LS.Inv(Apply(c, s, op).ledger) && LS.Grows(s.ledger, Apply(c, s, op).ledger)
  {
    if LedgerPart(s, op).Some? {
      LS.StepKeepsInv(s.ledger, LedgerPart(s, op).value);
      LS.StepGrows(s.ledger, LedgerPart(s, op).value);
    }
  }

  lemma StepKeepsDesk(c: Config, s: State, op: Op)
    requires PartsOk(c, s) && Enabled(c, s, op)
    ensures C.Inv(Desk(Apply(c, s, op)))
  {
    CreationFollows(c, s, op);
    if CreationPart(c, s, op).Some? {
      C.StepKeepsInv(Desk(s), CreationPart(c, s, op).value);
    }
  }

  lemma StepKeepsParts(c: Config, s: State, op: Op)
    requires R.ValidConfig(c.relay) && PartsOk(c, s) && Enabled(c, s, op)
    ensures PartsOk(c, Apply(c, s, op))
    ensures LS.Grows(s.ledger, Apply(c, s, op).ledger)
  {
    StepKeepsRelay(c, s, op);
    StepKeepsLedger(c, s, op);
    StepKeepsDesk(c, s, op);
  }

  // ----- messages and consumers

  lemma BornGrows(c: Config, s: State, op: Op)
    requires Enabled(c, s, op)
    ensures forall id <- s.relay.born ::
              id in Apply(c, s, op).relay.born && Apply(c, s, op).relay.born[id] == s.relay.born[id]
  {
    if op.Call? {
      CallFollows(c, s, op);
    } else {
      BornTable(c, s, op);
    }
  }

  lemma MovedMessagesKnown(c: Config, s: State, op: Op, m: Message)
    requires RS.Inv(c.relay, s.relay) && MessagesOk(s) && Enabled(c, s, op)
    requires m in IntoReady(c, s, op) || m in IntoRetry(c, s, op) || m in IntoDead(c, s, op)
    ensures Known(s, m)
  {
    if op.Publish? {
      RS.HeadAndTail(c.relay, s.relay, op.worker);
    }
  }

  lemma QueuedMessagesKnown(c: Config, s: State, op: Op, m: Message)
    requires RS.Inv(c.relay, s.relay) && MessagesOk(s) && Enabled(c, s, op)
    requires var s' := Apply(c, s, op); m in s'.ready || m in s'.retry || m in s'.dead
    ensures Known(s, m)
  {
    if m in IntoReady(c, s, op) || m in IntoRetry(c, s, op) || m in IntoDead(c, s, op) {
      MovedMessagesKnown(c, s, op, m);
    } else {
      assert m in s.ready || m in s.retry || m in s.dead;
    }
  }

  lemma CarriedMessagesKnown(c: Config, s: State, op: Op, w: Id)
    requires MessagesOk(s) && Enabled(c, s, op) && w in NextConsumers(c, s, op)
    ensures Known(s, NextConsumers(c, s, op)[w].message)
  {
  }

  lemma DeliverKeepsSubjects(c: Config, s: State, op: Op)
    requires MessagesOk(s) && Enabled(c, s, op) && op.Deliver?
    ensures SubjectsKnown(Apply(c, s, op).ledger.subject, s.relay.born)
  {
    DeliveredSubject(c, s, op);
    assert Known(s, op.message);
  }

  lemma SubjectsStayKnown(subject: map<Id, Id>, born: map<Id, Id>, born': map<Id, Id>)
    requires SubjectsKnown(subject, born) && forall id <- born :: id in born' && born'[id] == born[id]
    ensures SubjectsKnown(subject, born')
  {
  }

  lemma StepKeepsSubjects(c: Config, s: State, op: Op)
    requires MessagesOk(s) && Enabled(c, s, op)
    ensures SubjectsKnown(Apply(c, s, op).ledger.subject, Apply(c, s, op).relay.born)
  {
    BornGrows(c, s, op);
    if op.Deliver? {
      DeliverKeepsSubjects(c, s, op);
    } else {
      SubjectTable(c, s, op);
    }
    SubjectsStayKnown(Apply(c, s, op).ledger.subject, s.relay.born, Apply(c, s, op).relay.born);
  }

  lemma StepKeepsMessages(c: Config, s: State, op: Op)
    requires RS.Inv(c.relay, s.relay) && MessagesOk(s) && Enabled(c, s, op)
    ensures MessagesOk(Apply(c, s, op))
  {
    var s' := Apply(c, s, op);
    BornGrows(c, s, op);
    StepKeepsSubjects(c, s, op);
    forall m | m in s'.ready || m in s'.retry || m in s'.dead ensures Known(s', m) {
      QueuedMessagesKnown(c, s, op, m);
    }
    forall w | w in s'.consumers ensures Known(s', s'.consumers[w].message) {
      CarriedMessagesKnown(c, s, op, w);
    }
  }

  function NextRuns(c: Config, s: State, op: Op): map<Id, L.Run>
    requires Enabled(c, s, op)
  {
    match LedgerPart(s, op) case None => s.ledger.runs case Some(part) => L.Apply(s.ledger, part).runs
  }

  lemma QuietStepKeepsConsumers(c: Config, s: State, op: Op)
    requires ConsumersMatch(s.consumers, s.ledger.runs) && Enabled(c, s, op)
    requires !op.Deliver? && !op.Handle? && !op.Finish? && !op.Die?
    ensures ConsumersMatch(NextConsumers(c, s, op), NextRuns(c, s, op))
  {
    assert NextRuns(c, s, op) == s.ledger.runs;
  }

  /** A step inside the handler changes only the stage of its run. */
  lemma HandlerStepRuns(l: L.State, op: L.Op)
    requires L.Enabled(l, op) && !op.Register? && !op.Start? && !op.End?
    ensures op.worker in l.runs
    ensures var run := l.runs[op.worker];
            var runs' := L.Apply(l, op).runs;
            op.worker in runs' && runs' == l.runs[op.worker := run.(stage := runs'[op.worker].stage)]
  {
  }

  lemma HandleKeepsConsumers(c: Config, s: State, op: Op)
    requires ConsumersMatch(s.consumers, s.ledger.runs) && Enabled(c, s, op) && op.Handle?
    ensures ConsumersMatch(NextConsumers(c, s, op), NextRuns(c, s, op))
  {
    HandlerStepRuns(s.ledger, op.step);
    assert NextConsumers(c, s, op) == s.consumers;
  }

  lemma DeliverKeepsConsumers(c: Config, s: State, op: Op)
    requires ConsumersMatch(s.consumers, s.ledger.runs) && Enabled(c, s, op) && op.Deliver?
    ensures ConsumersMatch(NextConsumers(c, s, op), NextRuns(c, s, op))
  {
    assert NextRuns(c, s, op).Keys == s.ledger.runs.Keys + {op.consumer};
  }

  lemma EndKeepsConsumers(c: Config, s: State, op: Op)
    requires ConsumersMatch(s.consumers, s.ledger.runs) && Enabled(c, s, op)
    requires op.Finish? || op.Die?
    ensures ConsumersMatch(NextConsumers(c, s, op), NextRuns(c, s, op))
  {
    assert NextRuns(c, s, op) == s.ledger.runs - {op.consumer};
  }

  lemma StepKeepsConsumers(c: Config, s: State, op: Op)
    requires ConsumersMatch(s.consumers, s.ledger.runs) && Enabled(c, s, op)
    ensures ConsumersMatch(NextConsumers(c, s, op), NextRuns(c, s, op))
  {
    if op.Deliver? {
      DeliverKeepsConsumers(c, s, op);
    } else if op.Handle? {
      HandleKeepsConsumers(c, s, op);
    } else if op.Finish? || op.Die? {
      EndKeepsConsumers(c, s, op);
    } else {
      QuietStepKeepsConsumers(c, s, op);
    }
  }

  // ----- no message disappears before its payment is settled

  lemma SettledStays(s: State, s': State, paymentId: Id)
    requires LS.Inv(s.ledger) && LS.Grows(s.ledger, s'.ledger) && Settled(s, paymentId)
    ensures Settled(s', paymentId)
  {
    LS.GrowthKeeps(s.ledger, s'.ledger);
  }

  lemma QueueGrows(queue: multiset<Message>, more: multiset<Message>, outboxId: Id)
    requires InQueue(queue, outboxId) || InQueue(more, outboxId)
    ensures InQueue(queue + more, outboxId)
  {
    var m :| (m in queue || m in more) && m.outboxId == outboxId;
    assert m in queue + more;
  }

  predicate Delivers(op: Op, m: Message) {
    op.Deliver? && op.message == m
  }

  lemma ReadyMoves(c: Config, s: State, op: Op, m: Message)
    requires Enabled(c, s, op)
    ensures Apply(c, s, op).ready[m] + (if Delivers(op, m) then 1 else 0) >= s.ready[m]
    ensures op == Expire(m) ==> Apply(c, s, op).ready[m] == s.ready[m] + 1
  {
  }

  lemma DeliveredGoes(c: Config, s: State, op: Op)
    requires Enabled(c, s, op) && op.Deliver?
    ensures var s' := Apply(c, s, op);
            op.consumer in s'.consumers && s'.consumers[op.consumer] == Delivery(op.message, true, Handling)
  {
  }

  lemma RetryAndDeadMove(c: Config, s: State, op: Op, m: Message)
    requires Enabled(c, s, op)
    ensures Apply(c, s, op).retry[m] + (if op == Expire(m) then 1 else 0) >= s.retry[m]
    ensures Apply(c, s, op).dead[m] >= s.dead[m]
  {
  }

  /** No step takes a message out of a queue but along the routing graph, one copy at a time: from
      payments.new to the consumer it is delivered to, from payments.new.retry back to payments.new,
      and never out of the dead letters. */
  ghost predicate QueuesMove(s: State, op: Op, m: Message, s': State) {
    && s'.ready[m] + (if Delivers(op, m) then 1 else 0) >= s.ready[m]
    && (Delivers(op, m) ==>
          op.consumer in s'.consumers && s'.consumers[op.consumer] == Delivery(m, true, Handling))
    && s'.retry[m] + (if op == Expire(m) then 1 else 0) >= s.retry[m]
    && (op == Expire(m) ==> s'.ready[m] == s.ready[m] + 1)
    && s'.dead[m] >= s.dead[m]
  }

  lemma QueuedMoves(c: Config, s: State, op: Op, m: Message)
    requires Enabled(c, s, op)
    ensures QueuesMove(s, op, m, Apply(c, s, op))
  {
    ReadyMoves(c, s, op, m);
    RetryAndDeadMove(c, s, op, m);
    if op.Deliver? {
      DeliveredGoes(c, s, op);
    }
  }

  lemma QueuedStaysLive(c: Config, s: State, op: Op, id: Id)
    requires Enabled(c, s, op)
    requires InQueue(s.ready, id) || InQueue(s.retry, id) || InQueue(s.dead, id)
    ensures Live(Apply(c, s, op), id)
  {
    var s' := Apply(c, s, op);
    var m :| (m in s.ready || m in s.retry || m in s.dead) && m.outboxId == id;
    QueuedMoves(c, s, op, m);
    MovedIsLive(s, op, m, s');
  }

  lemma MovedIsLive(s: State, op: Op, m: Message, s': State)
    requires QueuesMove(s, op, m, s') && (m in s.ready || m in s.retry || m in s.dead)
    ensures Live(s', m.outboxId)
  {
    if op.Deliver? && op.message == m && m in s.ready {
      assert Carries(s', op.consumer, m.outboxId);
    } else {
      assert m in s'.ready || m in s'.retry || m in s'.dead;
    }
  }

  predicate Forwards(op: Op, w: Id) {
    op.Forward? && op.consumer == w && !op.published.NotAccepted?
  }

  predicate Returns(op: Op, w: Id) {
    (op.Requeue? || op.Die?) && op.consumer == w
  }

  /** The only ways in which the broker stops counting on a consumer for its message m: the broker has
      it back, a retry copy or a dead letter has been forwarded, it is rejected to the dead letters, or
      the handler has finished and the payment is settled. */
  ghost predicate Routed(s: State, op: Op, w: Id, m: Message, resent: bool, s': State) {
    if Returns(op, w) then s'.ready == s.ready + multiset{m}
    else if op == Reject(w) then s'.dead == s.dead + multiset{m}
    else if Forwards(op, w) && resent then s'.retry == s.retry + multiset{m.(retries := m.retries + 1)}
    else if Forwards(op, w) then s'.dead == s.dead + multiset{m}
    else Keeps(s'.consumers, w, m) || (op == Finish(w) && Settled(s, m.paymentId))
  }

  lemma ReturnedMoves(c: Config, s: State, op: Op, w: Id)
    requires Enabled(c, s, op) && w in s.consumers && s.consumers[w].owned && Returns(op, w)
    ensures Apply(c, s, op).ready == s.ready + multiset{s.consumers[w].message}
  {
  }

  lemma RejectedMoves(c: Config, s: State, op: Op, w: Id)
    requires Enabled(c, s, op) && w in s.consumers && s.consumers[w].owned && op == Reject(w)
    ensures Apply(c, s, op).dead == s.dead + multiset{s.consumers[w].message}
  {
  }

  lemma ForwardedMoves(c: Config, s: State, op: Op, w: Id)
    requires Enabled(c, s, op) && Forwards(op, w)
    ensures Routed(s, op, w, s.consumers[w].message, IsResent(c, s.consumers[w]), Apply(c, s, op))
  {
  }

  lemma FinishedIsSettled(s: State, w: Id)
    requires LS.Inv(s.ledger) && ConsumersMatch(s.consumers, s.ledger.runs)
    requires w in s.ledger.runs && s.ledger.runs[w].stage.Done?
    ensures w in s.consumers && Settled(s, s.consumers[w].message.paymentId)
  {
    assert LS.RunOk(s.ledger, s.ledger.runs[w]);
  }

  predicate Keeps(consumers: map<Id, Delivery>, w: Id, m: Message) {
    w in consumers && consumers[w].message == m && consumers[w].owned && consumers[w].phase != Acking
  }

  /** Any other step leaves the consumer carrying its message. */
  lemma StillCarried(c: Config, s: State, op: Op, w: Id)
    requires Enabled(c, s, op) && w in s.consumers && Keeps(s.consumers, w, s.consumers[w].message)
    requires !Returns(op, w) && op != Reject(w) && !Forwards(op, w)
    requires op == Finish(w) ==> !s.ledger.runs[w].stage.Done?
    ensures Keeps(NextConsumers(c, s, op), w, s.consumers[w].message)
  {
  }

  lemma ConsumersApplied(c: Config, s: State, op: Op)
    requires Enabled(c, s, op)
    ensures Apply(c, s, op).consumers == NextConsumers(c, s, op)
  {
  }

  lemma CarriedMoves(c: Config, s: State, op: Op, w: Id)
    requires LS.Inv(s.ledger) && ConsumersMatch(s.consumers, s.ledger.runs) && Enabled(c, s, op)
    requires w in s.consumers && Keeps(s.consumers, w, s.consumers[w].message)
    ensures Routed(s, op, w, s.consumers[w].message, IsResent(c, s.consumers[w]), Apply(c, s, op))
  {
    if Returns(op, w) {
      ReturnedMoves(c, s, op, w);
    } else if op == Reject(w) {
      RejectedMoves(c, s, op, w);
    } else if Forwards(op, w) {
      ForwardedMoves(c, s, op, w);
    } else if op == Finish(w) && s.ledger.runs[w].stage.Done? {
      FinishedIsSettled(s, w);
    } else {
      StillCarried(c, s, op, w);
      ConsumersApplied(c, s, op);
    }
  }

  lemma RoutedIsLive(s: State, op: Op, w: Id, m: Message, resent: bool, s': State)
    requires Routed(s, op, w, m, resent, s')
    ensures Live(s', m.outboxId) || Settled(s, m.paymentId)
  {
    if Returns(op, w) {
      assert m in s'.ready;
    } else if op == Reject(w) || (Forwards(op, w) && !resent) {
      assert m in s'.dead;
    } else if Forwards(op, w) {
      assert m.(retries := m.retries + 1) in s'.retry;
    } else if Keeps(s'.consumers, w, m) {
      assert Carries(s', w, m.outboxId);
    }
  }

  lemma CarriedStaysLive(c: Config, s: State, op: Op, w: Id, id: Id)
    requires LS.Inv(s.ledger) && MessagesOk(s) && ConsumersMatch(s.consumers, s.ledger.runs)
    requires Enabled(c, s, op) && Carries(s, w, id) && id in s.relay.born
    ensures Live(Apply(c, s, op), id) || Settled(s, s.relay.born[id])
  {
    CarriedMoves(c, s, op, w);
    RoutedIsLive(s, op, w, s.consumers[w].message, IsResent(c, s.consumers[w]), Apply(c, s, op));
    assert Known(s, s.consumers[w].message);
  }

  lemma PublishAccepts(c: Config, s: State, op: Op, id: Id)
    requires Enabled(c, s, op) && id !in s.relay.accepted && id in Apply(c, s, op).relay.accepted
    ensures op.Publish? && !op.published.NotAccepted? && id == s.relay.jobs[op.worker].batch[0].id
  {
    if !op.Publish? {
      AcceptedTable(c, s, op);
    }
  }

  lemma PublishedIsLive(c: Config, s: State, op: Op, id: Id)
    requires RS.Inv(c.relay, s.relay) && Enabled(c, s, op) && id !in s.relay.accepted && id in Apply(c, s, op).relay.accepted
    ensures id in s.relay.born && Live(Apply(c, s, op), id)
  {
    PublishAccepts(c, s, op, id);
    RS.HeadAndTail(c.relay, s.relay, op.worker);
    var record := s.relay.jobs[op.worker].batch[0];
    assert Message(record.id, record.paymentId, 0) in IntoReady(c, s, op);
    QueueGrows(s.ready, IntoReady(c, s, op), id);
  }

  lemma StepKeepsSafe(c: Config, s: State, op: Op, id: Id)
    requires R.ValidConfig(c.relay) && Inv(c, s) && Enabled(c, s, op) && id in Apply(c, s, op).relay.accepted
    requires LS.Grows(s.ledger, Apply(c, s, op).ledger)
    ensures SafeRow(Apply(c, s, op), id)
  {
    BornGrows(c, s, op);
    if id !in s.relay.accepted {
      PublishedIsLive(c, s, op, id);
    } else {
      assert SafeRow(s, id);
      if Settled(s, s.relay.born[id]) {
        SettledStays(s, Apply(c, s, op), s.relay.born[id]);
      } else if exists w :: Carries(s, w, id) {
        var w :| Carries(s, w, id);
        CarriedStaysLive(c, s, op, w, id);
      } else {
        QueuedStaysLive(c, s, op, id);
      }
    }
  }

  lemma StepKeepsInv(c: Config, s: State, op: Op)
    requires R.ValidConfig(c.relay) && Inv(c, s) && Enabled(c, s, op)
    ensures Inv(c, Apply(c, s, op))
  {
    StepKeepsParts(c, s, op);
    StepKeepsMessages(c, s, op);
    StepKeepsConsumers(c, s, op);
    forall id | id in Apply(c, s, op).relay.accepted ensures SafeRow(Apply(c, s, op), id) {
      StepKeepsSafe(c, s, op, id);
    }
  }

  lemma InitInv(c: Config, now: Time)
    ensures Inv(c, Init(now))
  {
  }

  lemma {:induction false} ReachableInv(c: Config, states: seq<State>, ops: seq<Op>, k: nat)
    requires R.ValidConfig(c.relay) && IsRun(c, states, ops) && k < |states|
    ensures Inv(c, states[k])
  {
    if k == 0 {
      InitInv(c, states[0].relay.now);
    } else {
      ReachableInv(c, states, ops, k - 1);
      assert IsStep(c, states[k - 1], ops[k - 1], states[k]);
      StepKeepsInv(c, states[k - 1], ops[k - 1]);
    }
  }

  // ----- the theorem

  /** Somebody can still finish the payment: its row is not PROCESSED (a FAILED row waits for an
      operator), a copy of its message is in a queue or with a consumer, or nothing is left to do. */
  ghost predicate Accounted(s: State, paymentId: Id) {
    || Settled(s, paymentId)
    || exists o :: AccountedBy(s, paymentId, o)
  }

  ghost predicate AccountedBy(s: State, paymentId: Id, outboxId: Id) {
    && outboxId in s.relay.born && s.relay.born[outboxId] == paymentId
    && ((outboxId in s.relay.table && !s.relay.table[outboxId].status.Processed?) || Live(s, outboxId))
  }

  /** Main theorem. In every reachable state, after any number of create calls, publishers, consumers,
      crashes, lost connections, ambiguous confirms and commits, late workers and purges, every
      committed payment is accounted for. */
  lemma NoPaymentIsLost(c: Config, states: seq<State>, ops: seq<Op>, k: nat, paymentId: Id)
    requires R.ValidConfig(c.relay) && IsRun(c, states, ops) && k < |states|
    requires paymentId in states[k].ledger.payments
    ensures Accounted(states[k], paymentId)
  {
    ReachableInv(c, states, ops, k);
    var s := states[k];
    assert C.EventsMatch(s.ledger.payments, s.relay.born);
    var o :| o in s.relay.born && s.relay.born[o] == paymentId;
    if o in s.relay.accepted {
      assert SafeRow(s, o);
      if !Settled(s, paymentId) {
        assert AccountedBy(s, paymentId, o);
      }
    } else {
      assert o in s.relay.table;
      assert RS.RowOk(c.relay, s.relay, o, s.relay.table[o]);
      assert AccountedBy(s, paymentId, o);
    }
  }
}
