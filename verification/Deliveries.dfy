/** How often a message can be delivered, in any run of the whole service. */
module Deliveries {
  import opened Base
  import Dispatch
  import opened Protocol
  import opened Retry
  import R = Relay

  // ----- retry counts

  predicate InRange(c: Config, m: Message) {
    0 <= m.retries < Dispatch.Budget(c.policy, 0)
  }

  /** Every message anywhere has been retried less often than the attempts allow. */
  ghost predicate CountsOk(c: Config, s: State) {
    && (forall m :: m in s.ready || m in s.retry || m in s.dead ==> InRange(c, m))
    && (forall w <- s.consumers :: InRange(c, s.consumers[w].message))
  }

  lemma MovedInRange(c: Config, s: State, op: Op, m: Message)
    requires CountsOk(c, s) && Enabled(c, s, op)
    requires m in IntoReady(c, s, op) || m in IntoRetry(c, s, op) || m in IntoDead(c, s, op)
    ensures InRange(c, m)
  {
  }

  lemma QueuedInRange(c: Config, s: State, op: Op, m: Message)
    requires CountsOk(c, s) && Enabled(c, s, op)
    requires var s' := Apply(c, s, op); m in s'.ready || m in s'.retry || m in s'.dead
    ensures InRange(c, m)
  {
    if m in IntoReady(c, s, op) || m in IntoRetry(c, s, op) || m in IntoDead(c, s, op) {
      MovedInRange(c, s, op, m);
    } else {
      assert m in s.ready || m in s.retry || m in s.dead;
    }
  }

  lemma CarriedInRange(c: Config, s: State, op: Op, w: Id)
    requires CountsOk(c, s) && Enabled(c, s, op) && w in NextConsumers(c, s, op)
    ensures InRange(c, NextConsumers(c, s, op)[w].message)
  {
  }

  lemma StepKeepsCounts(c: Config, s: State, op: Op)
    requires CountsOk(c, s) && Enabled(c, s, op)
    ensures CountsOk(c, Apply(c, s, op))
  {
    var s' := Apply(c, s, op);
    forall m | m in s'.ready || m in s'.retry || m in s'.dead ensures InRange(c, m) {
      QueuedInRange(c, s, op, m);
    }
    forall w | w in s'.consumers ensures InRange(c, s'.consumers[w].message) {
      CarriedInRange(c, s, op, w);
    }
  }

  /** In every reachable state, 0 <= retries <= max(0, maxAttempts - 1) for every message. */
  lemma {:induction false} RetriesStayBelowLimit(c: Config, states: seq<State>, ops: seq<Op>, k: nat)
    requires IsRun(c, states, ops) && k < |states|
    ensures CountsOk(c, states[k])
  {
    if k > 0 {
      RetriesStayBelowLimit(c, states, ops, k - 1);
      assert IsStep(c, states[k - 1], ops[k - 1], states[k]);
      StepKeepsCounts(c, states[k - 1], ops[k - 1]);
    }
  }

  // ----- what is still to come

  /** Deliveries a queued copy can still lead to. */
  function QueuedWeight(c: Config, outboxId: Id, m: Message): nat {
    if m.outboxId == outboxId then Dispatch.Budget(c.policy, m.retries) else 0
  }

  /** Deliveries that can still follow one that is being handled. */
  function HeldWeight(c: Config, outboxId: Id, d: Delivery): nat {
    if d.message.outboxId == outboxId && (d.phase.Handling? || d.phase.Forwarding?)
    then Dispatch.Budget(c.policy, d.message.retries) - 1 else 0
  }

  ghost function QueueWeight(c: Config, outboxId: Id, queue: multiset<Message>): nat
    decreases |queue|
  {
    if queue == multiset{} then 0
    else
      var m :| m in queue;
      QueuedWeight(c, outboxId, m) + QueueWeight(c, outboxId, queue - multiset{m})
  }

  ghost function ConsumersWeight(c: Config, outboxId: Id, consumers: map<Id, Delivery>): nat
    decreases consumers.Keys
  {
    if consumers == map[] then 0
    else
      var w :| w in consumers;
      HeldWeight(c, outboxId, consumers[w]) + ConsumersWeight(c, outboxId, consumers - {w})
  }

  /** The message the weight of a queue begins with. */
  lemma QueueHead(c: Config, o: Id, queue: multiset<Message>) returns (m: Message)
    requires queue != multiset{}
    ensures m in queue
    ensures QueueWeight(c, o, queue) == QueuedWeight(c, o, m) + QueueWeight(c, o, queue - multiset{m})
  {
    m :| m in queue
      && QueueWeight(c, o, queue) == QueuedWeight(c, o, m) + QueueWeight(c, o, queue - multiset{m});
  }

  lemma TakeTwo(queue: multiset<Message>, x: Message, y: Message)
    requires x in queue && y in queue && x != y
    ensures queue - multiset{x} - multiset{y} == queue - multiset{y} - multiset{x}
    ensures x in queue - multiset{y} && y in queue - multiset{x}
    ensures |queue - multiset{x}| < |queue| && |queue - multiset{y}| < |queue|
  {
  }

  lemma {:induction false} QueueTakes(c: Config, o: Id, queue: multiset<Message>, m: Message)
    requires m in queue
    ensures QueueWeight(c, o, queue) == QueuedWeight(c, o, m) + QueueWeight(c, o, queue - multiset{m})
    decreases |queue|
  {
    var x := QueueHead(c, o, queue);
    if x != m {
      TakeTwo(queue, x, m);
      QueueTakes(c, o, queue - multiset{x}, m);
      QueueTakes(c, o, queue - multiset{m}, x);
    }
  }

  lemma QueueGains(c: Config, o: Id, queue: multiset<Message>, m: Message)
    ensures QueueWeight(c, o, queue + multiset{m}) == QueuedWeight(c, o, m) + QueueWeight(c, o, queue)
  {
    QueueTakes(c, o, queue + multiset{m}, m);
    assert queue + multiset{m} - multiset{m} == queue;
  }

  lemma {:induction false} ConsumerLeaves(c: Config, o: Id, consumers: map<Id, Delivery>, w: Id)
    requires w in consumers
    ensures ConsumersWeight(c, o, consumers)
            == HeldWeight(c, o, consumers[w]) + ConsumersWeight(c, o, consumers - {w})
    decreases consumers.Keys
  {
    var x :| x in consumers
      && ConsumersWeight(c, o, consumers) == HeldWeight(c, o, consumers[x]) + ConsumersWeight(c, o, consumers - {x});
    if x != w {
      ConsumerLeaves(c, o, consumers - {x}, w);
      ConsumerLeaves(c, o, consumers - {w}, x);
      assert consumers - {x} - {w} == consumers - {w} - {x};
    }
  }

  lemma ConsumerBecomes(c: Config, o: Id, consumers: map<Id, Delivery>, w: Id, d: Delivery)
    ensures ConsumersWeight(c, o, consumers[w := d])
            == HeldWeight(c, o, d) + ConsumersWeight(c, o, consumers - {w})
  {
    ConsumerLeaves(c, o, consumers[w := d], w);
    assert consumers[w := d] - {w} == consumers - {w};
  }

  ghost function Weight(c: Config, o: Id, s: State): nat {
    QueueWeight(c, o, s.ready) + QueueWeight(c, o, s.retry) + ConsumersWeight(c, o, s.consumers)
  }

  // ----- the steps

  function Count(happens: bool): nat {
    if happens then 1 else 0
  }

  predicate IsDelivery(op: Op, o: Id) {
    op.Deliver? && op.message.outboxId == o
  }

  /** The relay puts a copy of the row's message into payments.new. */
  predicate IsPublish(s: State, op: Op, o: Id) {
    && op.Publish? && !op.published.NotAccepted?
    && op.worker in s.relay.jobs && s.relay.jobs[op.worker].batch != []
    && s.relay.jobs[op.worker].batch[0].id == o
  }

  /** The broker takes back a delivery of the message: the consumer crashed or lost its connection. */
  predicate IsLoss(s: State, op: Op, o: Id) {
    (op.Requeue? || op.Die?) && op.consumer in s.consumers && s.consumers[op.consumer].message.outboxId == o
  }

  predicate IsSource(s: State, op: Op, o: Id) {
    IsPublish(s, op, o) || IsLoss(s, op, o)
  }

  /** One delivery uses one up; publishes and losses pay for new ones. */
  ghost predicate Pays(c: Config, s: State, op: Op, s': State, o: Id) {
    Weight(c, o, s') + Count(IsDelivery(op, o))
    <= Weight(c, o, s) + if IsSource(s, op, o) then Dispatch.Budget(c.policy, 0) else 0
  }

  /** The queues and the consumer w after a step, in the terms the weights need. */
  ghost predicate Becomes(s: State, w: Id, ready: multiset<Message>, retry: multiset<Message>, d: Delivery, s': State) {
    && w in s.consumers && s'.ready == s.ready + ready && s'.retry == s.retry + retry
    && s'.consumers == s.consumers[w := d]
  }

  ghost predicate Leaves(s: State, w: Id, ready: multiset<Message>, s': State) {
    && w in s.consumers && s'.ready == s.ready + ready && s'.retry == s.retry
    && s'.consumers == s.consumers - {w}
  }

  lemma NoMore(queue: multiset<Message>)
    ensures queue + multiset{} == queue
  {
  }

  lemma QuietShape(c: Config, s: State, op: Op)
    requires Enabled(c, s, op) && (op.RelayWork? || op.Call? || op.Handle?)
    ensures var s' := Apply(c, s, op); s'.ready == s.ready && s'.retry == s.retry && s'.consumers == s.consumers
  {
  }

  lemma QuietPays(c: Config, s: State, op: Op, s': State, o: Id)
    requires (op.RelayWork? || op.Call? || op.Handle?)
    requires s'.ready == s.ready && s'.retry == s.retry && s'.consumers == s.consumers
    ensures Pays(c, s, op, s', o)
  {
  }

  lemma PublishShape(c: Config, s: State, op: Op)
    requires Enabled(c, s, op) && op.Publish?
    ensures op.worker in s.relay.jobs && s.relay.jobs[op.worker].batch != []
    ensures var s', record := Apply(c, s, op), s.relay.jobs[op.worker].batch[0];
            && s'.retry == s.retry && s'.consumers == s.consumers
            && s'.ready == s.ready + Copies(!op.published.NotAccepted?, Message(record.id, record.paymentId, 0))
  {
  }

  lemma PublishPays(c: Config, s: State, op: Op, s': State, o: Id)
    requires op.Publish? && op.worker in s.relay.jobs && s.relay.jobs[op.worker].batch != []
    requires s'.retry == s.retry && s'.consumers == s.consumers
    requires var record := s.relay.jobs[op.worker].batch[0];
             s'.ready == s.ready + Copies(!op.published.NotAccepted?, Message(record.id, record.paymentId, 0))
    ensures Pays(c, s, op, s', o)
  {
    var record := s.relay.jobs[op.worker].batch[0];
    if op.published.NotAccepted? {
      assert s'.ready == s.ready;
    } else {
      QueueGains(c, o, s.ready, Message(record.id, record.paymentId, 0));
    }
  }

  lemma DeliverShape(c: Config, s: State, op: Op)
    requires Enabled(c, s, op) && op.Deliver?
    ensures var s' := Apply(c, s, op);
            && op.message in s.ready && op.consumer !in s.consumers
            && s'.ready == s.ready - multiset{op.message} && s'.retry == s.retry
            && s'.consumers == s.consumers[op.consumer := Delivery(op.message, true, Handling)]
  {
  }

  lemma DeliverPays(c: Config, s: State, op: Op, s': State, o: Id)
    requires op.Deliver? && op.message in s.ready && op.consumer !in s.consumers
    requires s'.ready == s.ready - multiset{op.message} && s'.retry == s.retry
    requires s'.consumers == s.consumers[op.consumer := Delivery(op.message, true, Handling)]
    ensures Pays(c, s, op, s', o)
  {
    QueueTakes(c, o, s.ready, op.message);
    ConsumerBecomes(c, o, s.consumers, op.consumer, Delivery(op.message, true, Handling));
    assert s.consumers - {op.consumer} == s.consumers;
  }

  lemma ExpireStep(c: Config, s: State, op: Op, o: Id)
    requires Enabled(c, s, op) && op.Expire?
    ensures Pays(c, s, op, Apply(c, s, op), o)
  {
    var s' := Apply(c, s, op);
    assert s'.ready == s.ready + multiset{op.message} && s'.retry == s.retry - multiset{op.message};
    QueueTakes(c, o, s.retry, op.message);
    QueueGains(c, o, s.ready, op.message);
  }

  lemma FinishShape(c: Config, s: State, op: Op) returns (d: Delivery)
    requires Enabled(c, s, op) && op.Finish?
    ensures Becomes(s, op.consumer, multiset{}, multiset{}, d, Apply(c, s, op))
    ensures s.consumers[op.consumer].phase.Handling? && d.message == s.consumers[op.consumer].message
  {
    d := NextConsumers(c, s, op)[op.consumer];
  }

  lemma FinishPays(c: Config, s: State, op: Op, s': State, o: Id, d: Delivery)
    requires op.Finish? && Becomes(s, op.consumer, multiset{}, multiset{}, d, s')
    requires s.consumers[op.consumer].phase.Handling? && d.message == s.consumers[op.consumer].message
    ensures Pays(c, s, op, s', o)
  {
    assert s'.ready == s.ready && s'.retry == s.retry;
    ConsumerLeaves(c, o, s.consumers, op.consumer);
    ConsumerBecomes(c, o, s.consumers, op.consumer, d);
  }

  lemma ForwardShape(c: Config, s: State, op: Op) returns (d: Delivery)
    requires Enabled(c, s, op) && op.Forward?
    ensures op.consumer in s.consumers && s.consumers[op.consumer].phase.Forwarding?
    ensures var held := s.consumers[op.consumer];
            var resent := Copies(!op.published.NotAccepted? && IsResent(c, held),
                                 held.message.(retries := held.message.retries + 1));
            Becomes(s, op.consumer, multiset{}, resent, d, Apply(c, s, op))
    ensures d.phase.Acking? || d.phase.Rejecting?
  {
    d := NextConsumers(c, s, op)[op.consumer];
  }

  /** A resent copy has one delivery less to come than its original had. */
  lemma ResentWeighsLess(c: Config, o: Id, held: Delivery)
    requires IsResent(c, held)
    ensures QueuedWeight(c, o, held.message.(retries := held.message.retries + 1)) == HeldWeight(c, o, held)
  {
  }

  lemma ForwardWeighsLess(c: Config, s: State, op: Op, s': State, o: Id, d: Delivery)
    requires op.Forward? && op.consumer in s.consumers && s.consumers[op.consumer].phase.Forwarding?
    requires var held := s.consumers[op.consumer];
             var resent := Copies(!op.published.NotAccepted? && IsResent(c, held),
                                  held.message.(retries := held.message.retries + 1));
             Becomes(s, op.consumer, multiset{}, resent, d, s')
    requires d.phase.Acking? || d.phase.Rejecting?
    ensures Weight(c, o, s') <= Weight(c, o, s)
  {
    var held := s.consumers[op.consumer];
    var m := held.message.(retries := held.message.retries + 1);
    var resent := !op.published.NotAccepted? && IsResent(c, held);
    NoMore(s.ready);
    HeldGone(c, o, s.consumers, op.consumer, d);
    RetryGains(c, o, s.retry, m, resent);
    if resent {
      ResentWeighsLess(c, o, held);
    }
  }

  lemma ForwardPays(c: Config, s: State, op: Op, s': State, o: Id)
    requires op.Forward? && Weight(c, o, s') <= Weight(c, o, s)
    ensures Pays(c, s, op, s', o)
  {
  }

  lemma HeldGone(c: Config, o: Id, consumers: map<Id, Delivery>, w: Id, d: Delivery)
    requires w in consumers && (d.phase.Acking? || d.phase.Rejecting?)
    ensures ConsumersWeight(c, o, consumers[w := d]) + HeldWeight(c, o, consumers[w]) == ConsumersWeight(c, o, consumers)
  {
    ConsumerLeaves(c, o, consumers, w);
    ConsumerBecomes(c, o, consumers, w, d);
  }

  lemma RetryGains(c: Config, o: Id, queue: multiset<Message>, m: Message, resent: bool)
    ensures QueueWeight(c, o, queue + Copies(resent, m))
            == QueueWeight(c, o, queue) + if resent then QueuedWeight(c, o, m) else 0
  {
    if resent {
      QueueGains(c, o, queue, m);
    } else {
      assert queue + multiset{} == queue;
    }
  }

  lemma RequeueShape(c: Config, s: State, op: Op) returns (d: Delivery)
    requires Enabled(c, s, op) && op.Requeue?
    ensures op.consumer in s.consumers
    ensures Becomes(s, op.consumer, multiset{s.consumers[op.consumer].message}, multiset{}, d, Apply(c, s, op))
    ensures d.message == s.consumers[op.consumer].message && d.phase == s.consumers[op.consumer].phase
  {
    d := NextConsumers(c, s, op)[op.consumer];
  }

  lemma RequeuePays(c: Config, s: State, op: Op, s': State, o: Id, d: Delivery)
    requires CountsOk(c, s) && op.Requeue? && op.consumer in s.consumers
    requires Becomes(s, op.consumer, multiset{s.consumers[op.consumer].message}, multiset{}, d, s')
    requires d.message == s.consumers[op.consumer].message && d.phase == s.consumers[op.consumer].phase
    ensures Pays(c, s, op, s', o)
  {
    assert s'.retry == s.retry;
    ConsumerLeaves(c, o, s.consumers, op.consumer);
    ConsumerBecomes(c, o, s.consumers, op.consumer, d);
    QueueGains(c, o, s.ready, s.consumers[op.consumer].message);
  }

  lemma DieShape(c: Config, s: State, op: Op)
    requires Enabled(c, s, op) && op.Die?
    ensures op.consumer in s.consumers
    ensures var d := s.consumers[op.consumer]; Leaves(s, op.consumer, Copies(d.owned, d.message), Apply(c, s, op))
  {
    var d := s.consumers[op.consumer];
    NoMore(s.retry);
  }

  lemma AckShape(c: Config, s: State, op: Op)
    requires Enabled(c, s, op) && (op.Ack? || op.Reject?)
    ensures op.consumer in s.consumers && Leaves(s, op.consumer, multiset{}, Apply(c, s, op))
  {
    NoMore(s.retry);
  }

  lemma LeavePays(c: Config, s: State, op: Op, s': State, o: Id)
    requires CountsOk(c, s) && (op.Die? || op.Ack? || op.Reject?) && op.consumer in s.consumers
    requires Leaves(s, op.consumer, Copies(op.Die? && s.consumers[op.consumer].owned, s.consumers[op.consumer].message), s')
    ensures Pays(c, s, op, s', o)
  {
    ConsumerLeaves(c, o, s.consumers, op.consumer);
    if op.Die? && s.consumers[op.consumer].owned {
      QueueGains(c, o, s.ready, s.consumers[op.consumer].message);
    } else {
      assert s'.ready == s.ready;
    }
  }

  lemma ConsumerStepPays(c: Config, s: State, op: Op, s': State, o: Id)
    requires CountsOk(c, s) && Enabled(c, s, op) && s' == Apply(c, s, op)
    requires op.Finish? || op.Forward? || op.Requeue?
    ensures Pays(c, s, op, s', o)
  {
    if op.Finish? {
      var d := FinishShape(c, s, op);
      FinishPays(c, s, op, s', o, d);
    } else if op.Forward? {
      var d := ForwardShape(c, s, op);
      ForwardWeighsLess(c, s, op, s', o, d);
      ForwardPays(c, s, op, s', o);
    } else {
      var d := RequeueShape(c, s, op);
      RequeuePays(c, s, op, s', o, d);
    }
  }

  lemma StepPays(c: Config, s: State, op: Op, s': State, o: Id)
    requires CountsOk(c, s) && IsStep(c, s, op, s')
    ensures Pays(c, s, op, s', o)
  {
    if op.RelayWork? || op.Call? || op.Handle? {
      QuietShape(c, s, op);
      QuietPays(c, s, op, s', o);
    } else if op.Publish? {
      PublishShape(c, s, op);
      PublishPays(c, s, op, s', o);
    } else if op.Deliver? {
      DeliverShape(c, s, op);
      DeliverPays(c, s, op, s', o);
    } else if op.Expire? {
      ExpireStep(c, s, op, o);
    } else if op.Die? || op.Ack? || op.Reject? {
      if op.Die? {
        DieShape(c, s, op);
      } else {
        AckShape(c, s, op);
      }
      LeavePays(c, s, op, s', o);
    } else {
      ConsumerStepPays(c, s, op, s', o);
    }
  }

  // ----- the bound

  /** Deliveries of the message among the first k steps. */
  function Delivered(ops: seq<Op>, k: nat, o: Id): nat
    requires k <= |ops|
  {
    if k == 0 then 0 else Delivered(ops, k - 1, o) + Count(IsDelivery(ops[k - 1], o))
  }

  /** Accepted publishes of the row, and deliveries taken back, among the first k steps. */
  function Sources(states: seq<State>, ops: seq<Op>, k: nat, o: Id): nat
    requires k <= |ops| <= |states|
  {
    if k == 0 then 0 else Sources(states, ops, k - 1, o) + Count(IsSource(states[k - 1], ops[k - 1], o))
  }

  function Times(n: nat, a: nat): (r: nat)
    ensures r == n * a
  {
    if n == 0 then 0 else Times(n - 1, a) + a
  }

  lemma InitialWeight(c: Config, now: Time, o: Id)
    ensures Weight(c, o, Init(now)) == 0
  {
  }

  lemma PaidStep(c: Config, states: seq<State>, ops: seq<Op>, k: nat, o: Id)
    requires IsRun(c, states, ops) && k < |ops|
    ensures Pays(c, states[k], ops[k], states[k + 1], o)
  {
    RetriesStayBelowLimit(c, states, ops, k);
    assert IsStep(c, states[k], ops[k], states[k + 1]);
    StepPays(c, states[k], ops[k], states[k + 1], o);
  }

  /** Deliveries made and still to come never exceed what publishes and losses have paid for. */
  ghost predicate Balanced(c: Config, states: seq<State>, ops: seq<Op>, k: nat, o: Id)
    requires k <= |ops| < |states|
  {
    Delivered(ops, k, o) + Weight(c, o, states[k]) <= Times(Sources(states, ops, k, o), Dispatch.Budget(c.policy, 0))
  }

  lemma BalanceStarts(c: Config, states: seq<State>, ops: seq<Op>, o: Id)
    requires |ops| < |states| && states[0] == Init(states[0].relay.now)
    ensures Balanced(c, states, ops, 0, o)
  {
    InitialWeight(c, states[0].relay.now, o);
  }

  lemma BalanceGoesOn(c: Config, states: seq<State>, ops: seq<Op>, k: nat, o: Id)
    requires k < |ops| < |states| && Balanced(c, states, ops, k, o)
    requires Pays(c, states[k], ops[k], states[k + 1], o)
    ensures Balanced(c, states, ops, k + 1, o)
  {
    var n, budget := Sources(states, ops, k, o), Dispatch.Budget(c.policy, 0);
    assert Times(n + 1, budget) == Times(n, budget) + budget;
  }

  lemma BalanceStep(c: Config, states: seq<State>, ops: seq<Op>, k: nat, o: Id)
    requires IsRun(c, states, ops) && k < |ops| && Balanced(c, states, ops, k, o)
    ensures Balanced(c, states, ops, k + 1, o)
  {
    PaidStep(c, states, ops, k, o);
    BalanceGoesOn(c, states, ops, k, o);
  }

  lemma Balance(c: Config, states: seq<State>, ops: seq<Op>, k: nat, o: Id)
    requires IsRun(c, states, ops) && k < |states|
    ensures Balanced(c, states, ops, k, o)
  {
    BalanceStarts(c, states, ops, o);
    for j := 0 to k
      invariant Balanced(c, states, ops, j, o)
    {
      BalanceStep(c, states, ops, j, o);
    }
  }

  /** In every run, with any crashes, lost connections and ambiguous confirms: a message is delivered
      at most max(1, maxAttempts) times per accepted publish of its row and per delivery the broker
      had to take back. Without crashes and lost connections that is per accepted publish. */
  lemma DeliveriesAreBounded(c: Config, states: seq<State>, ops: seq<Op>, k: nat, o: Id)
    requires IsRun(c, states, ops) && k < |states|
    ensures Delivered(ops, k, o) <= Sources(states, ops, k, o) * Dispatch.Budget(c.policy, 0)
  {
    Balance(c, states, ops, k, o);
  }
}
