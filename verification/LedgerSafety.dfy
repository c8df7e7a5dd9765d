/** What every interleaving of charging runs keeps. */
module LedgerSafety {
  import opened Base
  import opened Payments
  import opened Ledger

  /** The receiver answered a webhook about the payment with a status in 200..299. */
  ghost predicate Notified(s: State, paymentId: Id) {
    exists post :: post in s.posts && IsSuccess(post.reply) && post.webhook.paymentId == paymentId
  }

  /** A payment is pending and untouched, or final and exactly what its stored charge says. */
  ghost predicate PaymentOk(s: State, id: Id, p: Record) {
    && p.id == id
    && (p.status.Pending? ==> p.processedAt.None?)
    && (IsTerminal(p.status) ==>
          && id in s.charges && p.processedAt.Some?
          && p.status == if s.charges[id] then Succeeded else Failed)
  }

  ghost predicate IsFinal(s: State, id: Id) {
    id in s.payments && IsTerminal(s.payments[id].status)
  }

  /** What a run holds at each stage agrees with what is stored. */
  ghost predicate RunOk(s: State, run: Run) {
    && (run.messageId.Some? ==>
          run.messageId.value in s.subject && s.subject[run.messageId.value] == run.paymentId)
    && match run.stage
       case ToComplete(success) => run.paymentId in s.charges && s.charges[run.paymentId] == success
       case ToNotify(payment) => IsFinal(s, run.paymentId) && s.payments[run.paymentId] == payment
       case ToRemember => IsFinal(s, run.paymentId) && Notified(s, run.paymentId) && run.messageId.Some?
       case Done => IsFinal(s, run.paymentId) && Notified(s, run.paymentId)
       case ToCheckInbox => run.messageId.Some?
       case _ => true
  }

  /** The webhook says, field by field, what is stored and what was charged. */
  ghost predicate Tells(s: State, webhook: Webhook) {
    var id := webhook.paymentId;
    && id in s.payments && id in s.charges
    && webhook.status == (if s.charges[id] then Succeeded else Failed)
    && webhook.status == s.payments[id].status
    && webhook.money == s.payments[id].terms.money
    && webhook.processedAt.Some? && webhook.processedAt == s.payments[id].processedAt
  }

  ghost predicate PostOk(s: State, post: Post) {
    IsFinal(s, post.webhook.paymentId) && Tells(s, post.webhook)
  }

  ghost predicate InboxOk(s: State, messageId: Id) {
    messageId in s.subject && IsFinal(s, s.subject[messageId]) && Notified(s, s.subject[messageId])
  }

  ghost predicate Inv(s: State) {
    && (forall id <- s.payments :: PaymentOk(s, id, s.payments[id]))
    && (forall w <- s.runs :: RunOk(s, s.runs[w]))
    && (forall post <- s.posts :: PostOk(s, post))
    && (forall messageId <- s.inbox :: InboxOk(s, messageId))
  }

  /** Nothing decided is ever undone: charges stand, final payments stand, requests stay logged. */
  ghost predicate Grows(s: State, s': State) {
    && (forall id <- s.charges :: id in s'.charges && s'.charges[id] == s.charges[id])
    && (forall id <- s.payments ::
          id in s'.payments && s'.payments[id].terms == s.payments[id].terms
          && (IsTerminal(s.payments[id].status) ==> s'.payments[id] == s.payments[id]))
    && s.posts <= s'.posts && s.inbox <= s'.inbox
    && (forall messageId <- s.subject :: messageId in s'.subject && s'.subject[messageId] == s.subject[messageId])
  }

  lemma PaymentsGrow(s: State, op: Op)
    requires Inv(s) && Enabled(s, op)
    ensures forall id <- s.payments ::
              var payments' := Apply(s, op).payments;
              id in payments' && payments'[id].terms == s.payments[id].terms
              && (IsTerminal(s.payments[id].status) ==> payments'[id] == s.payments[id])
  {
  }

  lemma LogsGrow(s: State, op: Op)
    requires Enabled(s, op)
    ensures s.posts <= Apply(s, op).posts && s.inbox <= Apply(s, op).inbox
  {
  }

  lemma ChargesGrow(s: State, op: Op)
    requires Enabled(s, op)
    ensures forall id <- s.charges :: id in Apply(s, op).charges && Apply(s, op).charges[id] == s.charges[id]
  {
  }

  lemma SubjectsGrow(s: State, op: Op)
    requires Enabled(s, op)
    ensures forall messageId <- s.subject ::
              messageId in Apply(s, op).subject && Apply(s, op).subject[messageId] == s.subject[messageId]
  {
  }

  lemma StepGrows(s: State, op: Op)
    requires Inv(s) && Enabled(s, op)
    ensures Grows(s, Apply(s, op))
  {
    PaymentsGrow(s, op);
    LogsGrow(s, op);
    ChargesGrow(s, op);
    SubjectsGrow(s, op);
  }

  /** Facts about stored data survive growth. */
  lemma GrowthKeeps(s: State, s': State)
    requires Inv(s) && Grows(s, s')
    ensures forall id :: Notified(s, id) ==> Notified(s', id)
    ensures forall id :: IsFinal(s, id) ==> IsFinal(s', id) && s'.payments[id] == s.payments[id]
    ensures forall w <- s.runs :: RunOk(s', s.runs[w])
    ensures forall post <- s.posts :: PostOk(s', post)
    ensures forall messageId <- s.inbox :: InboxOk(s', messageId)
  {
    forall id | Notified(s, id) ensures Notified(s', id) {
      var post :| post in s.posts && IsSuccess(post.reply) && post.webhook.paymentId == id;
      assert post in s'.posts;
    }
    forall w | w in s.runs ensures RunOk(s', s.runs[w]) {
      assert RunOk(s, s.runs[w]);
    }
    forall post | post in s.posts ensures PostOk(s', post) {
      assert PostOk(s, post);
    }
    forall messageId | messageId in s.inbox ensures InboxOk(s', messageId) {
      assert InboxOk(s, messageId);
    }
  }

  lemma StepKeepsPayments(s: State, op: Op)
    requires Inv(s) && Enabled(s, op)
    ensures forall id <- Apply(s, op).payments :: PaymentOk(Apply(s, op), id, Apply(s, op).payments[id])
  {
    if op.Complete? {
      assert RunOk(s, s.runs[op.worker]);
    }
  }

  lemma CheckedRunOk(s: State, op: Op)
    requires Inv(s) && Enabled(s, op) && op.CheckInbox?
    ensures RunOk(Apply(s, op), Apply(s, op).runs[op.worker])
  {
    var run := s.runs[op.worker];
    assert RunOk(s, run);
    if run.messageId.value in s.inbox {
      assert InboxOk(s, run.messageId.value);
    }
  }

  lemma NotifiedRunOk(s: State, op: Op)
    requires Inv(s) && Enabled(s, op) && op.Notify?
    ensures RunOk(Apply(s, op), Apply(s, op).runs[op.worker])
  {
    var s', run := Apply(s, op), s.runs[op.worker];
    assert RunOk(s, run);
    assert PaymentOk(s, run.paymentId, s.payments[run.paymentId]);
    assert s'.posts[|s.posts|] in s'.posts;
  }

  lemma StepKeepsWorker(s: State, op: Op)
    requires Inv(s) && Enabled(s, op) && !op.Register? && !op.End?
    ensures RunOk(Apply(s, op), Apply(s, op).runs[op.worker])
  {
    if op.CheckInbox? {
      CheckedRunOk(s, op);
    } else if op.Notify? {
      NotifiedRunOk(s, op);
    } else if !op.Start? {
      StepGrows(s, op);
      GrowthKeeps(s, Apply(s, op));
      assert RunOk(s, s.runs[op.worker]);
    }
  }

  lemma StepKeepsInv(s: State, op: Op)
    requires Inv(s) && Enabled(s, op)
    ensures Inv(Apply(s, op))
  {
    var s' := Apply(s, op);
    StepGrows(s, op);
    GrowthKeeps(s, s');
    StepKeepsPayments(s, op);
    forall w | w in s'.runs ensures RunOk(s', s'.runs[w]) {
      if !op.Register? && !op.End? && w == op.worker {
        StepKeepsWorker(s, op);
      } else {
        assert s'.runs[w] == s.runs[w];
      }
    }
    forall post | post in s'.posts ensures PostOk(s', post) {
      if post !in s.posts {
        assert RunOk(s, s.runs[op.worker]);
        assert PaymentOk(s, s.runs[op.worker].paymentId, s.payments[s.runs[op.worker].paymentId]);
      }
    }
    forall messageId | messageId in s'.inbox ensures InboxOk(s', messageId) {
      if messageId !in s.inbox {
        assert RunOk(s, s.runs[op.worker]);
      }
    }
  }

  lemma {:induction false} ReachableInv(states: seq<State>, ops: seq<Op>, k: nat)
    requires IsRun(states, ops) && k < |states|
    ensures Inv(states[k])
  {
    if k > 0 {
      ReachableInv(states, ops, k - 1);
      assert IsStep(states[k - 1], ops[k - 1], states[k]);
      StepKeepsInv(states[k - 1], ops[k - 1]);
    }
  }

  lemma RunGrowsOn(states: seq<State>, ops: seq<Op>, j: nat, k: nat)
    requires IsRun(states, ops) && j <= k < |ops| && Grows(states[j], states[k])
    ensures Grows(states[j], states[k + 1])
  {
    ReachableInv(states, ops, k);
    assert IsStep(states[k], ops[k], states[k + 1]);
    StepGrows(states[k], ops[k]);
    GrowsTransitive(states[j], states[k], states[k + 1]);
  }

  lemma GrowsFromItself(s: State)
    ensures Grows(s, s)
  {
  }

  lemma RunGrows(states: seq<State>, ops: seq<Op>, j: nat, k: nat)
    requires IsRun(states, ops) && j <= k < |states|
    ensures Grows(states[j], states[k])
  {
    GrowsFromItself(states[j]);
    for i := j to k
      invariant Grows(states[j], states[i])
    {
      RunGrowsOn(states, ops, j, i);
    }
  }

  lemma GrowsTransitive(a: State, b: State, c: State)
    requires Grows(a, b) && Grows(b, c)
    ensures Grows(a, c)
  {
  }

  // ----- the charge is the first draw that took effect

  /** The step writes, or would write, the outcome of a payment. */
  predicate Draws(s: State, op: Op, id: Id) {
    op.Decide? && TookEffect(op.commit) && op.worker in s.runs && s.runs[op.worker].paymentId == id
  }

  /** A charge appears only by a committed draw, with the value drawn, and stays. */
  lemma ChargeStep(s: State, op: Op, id: Id)
    requires Enabled(s, op)
    ensures id in s.charges ==> id in Apply(s, op).charges && Apply(s, op).charges[id] == s.charges[id]
    ensures id !in s.charges ==> (id in Apply(s, op).charges <==> Draws(s, op, id))
    ensures id !in s.charges && Draws(s, op, id) ==> Apply(s, op).charges[id] == op.draw
  {
  }

  ghost predicate IsFirstDraw(states: seq<State>, ops: seq<Op>, j: nat, id: Id)
    requires j < |ops| < |states|
  {
    Draws(states[j], ops[j], id) && forall i :: 0 <= i < j ==> !Draws(states[i], ops[i], id)
  }

  /** In every run there is a stored charge exactly when a draw has taken effect, and it is the first. */
  lemma {:induction false} ChargeIsFirstDraw(states: seq<State>, ops: seq<Op>, k: nat, id: Id) returns (j: nat)
    requires IsRun(states, ops) && k < |states|
    ensures id in states[k].charges ==>
              j < k && IsFirstDraw(states, ops, j, id) && states[k].charges[id] == ops[j].draw
    ensures id !in states[k].charges ==> forall i :: 0 <= i < k ==> !Draws(states[i], ops[i], id)
  {
    j := 0;
    if k > 0 {
      j := ChargeIsFirstDraw(states, ops, k - 1, id);
      assert IsStep(states[k - 1], ops[k - 1], states[k]);
      ChargeStep(states[k - 1], ops[k - 1], id);
      if id !in states[k - 1].charges && id in states[k].charges {
        j := k - 1;
      }
    }
  }

  /** So a final payment has SUCCEEDED exactly when the first draw that took effect was a success,
      however many draws were made. */
  lemma FirstDrawDecides(states: seq<State>, ops: seq<Op>, k: nat, id: Id) returns (j: nat)
    requires IsRun(states, ops) && k < |states| && IsFinal(states[k], id)
    ensures j < k && IsFirstDraw(states, ops, j, id)
    ensures states[k].payments[id].status == if ops[j].draw then Succeeded else Failed
  {
    ReachableInv(states, ops, k);
    assert PaymentOk(states[k], id, states[k].payments[id]);
    j := ChargeIsFirstDraw(states, ops, k, id);
  }

  /** What the receiver answers decides the run: 2xx goes on, 4xx is final, anything else is tried again
      (section 15 of RFC 9110). The answer is on record with the request. */
  lemma AnswerDecides(states: seq<State>, ops: seq<Op>, k: nat)
    requires IsRun(states, ops) && k < |ops| && ops[k].Notify?
    ensures var s, s', w, reply := states[k], states[k + 1], ops[k].worker, ops[k].reply;
            && w in s.runs && w in s'.runs && s.runs[w].stage.ToNotify?
            && |s'.posts| == |s.posts| + 1 && s'.posts[|s.posts|].reply == reply
            && (reply.HttpStatus? && 200 <= reply.code < 300 ==>
                  s'.runs[w].stage == if s.runs[w].messageId.Some? then ToRemember else Done)
            && (reply.HttpStatus? && 400 <= reply.code < 500 ==> s'.runs[w].stage == Raised(Permanent))
            && (reply.HttpStatus? && !(200 <= reply.code < 300) && !(400 <= reply.code < 500) ==>
                  s'.runs[w].stage == Raised(Transient))
            && (!reply.HttpStatus? ==> s'.runs[w].stage == Raised(Transient))
  {
    assert IsStep(states[k], ops[k], states[k + 1]);
  }

  // ----- the write-once register

  /** The abstract machine: one decision per payment, taken once. */
  datatype WriteOnce = WriteOnce(decided: map<Id, bool>)

  ghost predicate RegisterStep(r: WriteOnce, r': WriteOnce) {
    r' == r || exists id: Id, outcome :: Decides(r, r', id, outcome)
  }

  ghost predicate Decides(r: WriteOnce, r': WriteOnce, id: Id, outcome: bool) {
    id !in r.decided && r'.decided == r.decided[id := outcome]
  }

  ghost function Abstract(s: State): WriteOnce {
    WriteOnce(s.charges)
  }

  /** Every value a worker or a payment shows agrees with the register. */
  ghost predicate Observes(s: State, r: WriteOnce) {
    && (forall w <- s.runs :: s.runs[w].stage.ToComplete? ==>
          s.runs[w].paymentId in r.decided && s.runs[w].stage.success == r.decided[s.runs[w].paymentId])
    && (forall id <- s.payments :: IsTerminal(s.payments[id].status) ==>
          id in r.decided && s.payments[id].status == if r.decided[id] then Succeeded else Failed)
  }

  /** However many draws are made, by whatever runs, charging refines the register. */
  lemma ChargingRefinesRegister(states: seq<State>, ops: seq<Op>, k: nat)
    requires IsRun(states, ops) && k < |ops|
    ensures RegisterStep(Abstract(states[k]), Abstract(states[k + 1]))
    ensures Observes(states[k + 1], Abstract(states[k + 1]))
  {
    ReachableInv(states, ops, k);
    ReachableInv(states, ops, k + 1);
    var s, op, s' := states[k], ops[k], states[k + 1];
    assert IsStep(s, op, s');
    if s'.charges != s.charges {
      assert op.Decide?;
      assert Decides(Abstract(s), Abstract(s'), s.runs[op.worker].paymentId, op.draw);
    }
    forall w | w in s'.runs && s'.runs[w].stage.ToComplete?
      ensures s'.runs[w].paymentId in s'.charges
              && s'.runs[w].stage.success == s'.charges[s'.runs[w].paymentId]
    {
      assert RunOk(s', s'.runs[w]);
    }
    forall id | id in s'.payments && IsTerminal(s'.payments[id].status)
      ensures id in s'.charges && s'.payments[id].status == if s'.charges[id] then Succeeded else Failed
    {
      assert PaymentOk(s', id, s'.payments[id]);
    }
  }

  /** The outcome a worker has seen at any time is the outcome at every later time, and a final
      payment, with its processing time, never changes again. */
  lemma OutcomeNeverChanges(states: seq<State>, ops: seq<Op>, j: nat, k: nat, w: Id, id: Id)
    requires IsRun(states, ops) && j <= k < |states|
    ensures w in states[j].runs && states[j].runs[w].stage.ToComplete? ==>
              states[j].runs[w].paymentId in states[k].charges
              && states[k].charges[states[j].runs[w].paymentId] == states[j].runs[w].stage.success
    ensures IsFinal(states[j], id) ==> IsFinal(states[k], id) && states[k].payments[id] == states[j].payments[id]
  {
    RunGrows(states, ops, j, k);
    ReachableInv(states, ops, j);
    if w in states[j].runs {
      assert RunOk(states[j], states[j].runs[w]);
    }
  }

  // ----- webhooks

  /** Every webhook ever sent for a payment says the same, and that is, field by field, the charge, the
      amount and the processing time that are stored; it is never about a pending payment. */
  lemma WebhooksAgree(states: seq<State>, ops: seq<Op>, k: nat, i: nat, j: nat)
    requires IsRun(states, ops) && k < |states| && i < |states[k].posts| && j < |states[k].posts|
    requires states[k].posts[i].webhook.paymentId == states[k].posts[j].webhook.paymentId
    ensures states[k].posts[i].webhook == states[k].posts[j].webhook
    ensures var webhook := states[k].posts[i].webhook;
            && IsFinal(states[k], webhook.paymentId)
            && Tells(states[k], webhook)
  {
    var s := states[k];
    ReachableInv(states, ops, k);
    assert PostOk(s, s.posts[i]) && PostOk(s, s.posts[j]);
    var id := s.posts[i].webhook.paymentId;
    assert PaymentOk(s, id, s.payments[id]);
  }

  /** A remembered message is about a final payment whose receiver has accepted a webhook. */
  lemma RememberedMeansNotified(states: seq<State>, ops: seq<Op>, k: nat, messageId: Id)
    requires IsRun(states, ops) && k < |states| && messageId in states[k].inbox
    ensures InboxOk(states[k], messageId)
  {
    ReachableInv(states, ops, k);
  }
}
