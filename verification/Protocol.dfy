/** The whole service as one step machine: create calls, relay workers, the broker's queues and
    consumers, over one database and one clock. Each step is a step of the relay machine, of the
    ledger machine, of the creation machine, of the queues, or of several of them at once. */
module Protocol {
  import opened Base
  import P = Payments
  import R = Relay
  import L = Ledger
  import C = Creation
  import Retry

  datatype Config = Config(relay: R.Config, policy: Retry.Policy)

  /** What the consumer reads from an envelope (see Wire.IdentityOf). */
  datatype Message = Message(outboxId: Id, paymentId: Id, retries: int)

  /** Where the dispatcher stands with a delivery. */
  datatype Phase = Handling | Forwarding(error: L.Error) | Acking | Rejecting

  /** `owned` is false once the broker has taken the delivery back while the consumer goes on. */
  datatype Delivery = Delivery(message: Message, owned: bool, phase: Phase)

  datatype State = State(
    relay: R.State,
    ledger: L.State,
    calls: map<Id, C.Call>,
    ready: multiset<Message>,       // payments.new, not delivered
    retry: multiset<Message>,       // payments.new.retry
    dead: multiset<Message>,        // payments.new.dlq
    consumers: map<Id, Delivery>)   // deliveries being handled

  datatype Op =
    | RelayWork(work: R.Op)
    | Publish(worker: Id, published: PublishOutcome)
    | Call(call: C.Op)
    | Deliver(consumer: Id, message: Message)
    | Handle(consumer: Id, step: L.Op)
    | Finish(consumer: Id)
    | Forward(consumer: Id, published: PublishOutcome)
    | Ack(consumer: Id)
    | Reject(consumer: Id)
    | Requeue(consumer: Id)         // the broker loses the consumer's connection
    | Die(consumer: Id)             // the consumer crashes
    | Expire(message: Message)      // a retry delay is over

  function Init(now: Time): State {
    State(R.Init(now), L.Init(), map[], multiset{}, multiset{}, multiset{}, map[])
  }

  /** The tables as the creation machine sees them. */
  function Desk(s: State): C.State {
    C.State(s.ledger.payments, s.relay.born, s.calls)
  }

  /** The create call commits a payment and its outbox row. */
  predicate Inserts(s: State, op: Op) {
    op.Call? && op.call.Insert? && op.call.call in s.calls && TookEffect(op.call.commit)
    && C.WithKey(s.ledger.payments, s.calls[op.call.call].command.key) == {}
  }

  function RelayPart(s: State, op: Op): Option<R.Op> {
    match op
    case RelayWork(work) => Some(work)
    case Publish(w, published) => Some(R.Publish(w, published))
    case Call(call) => if Inserts(s, op) then Some(R.Insert(call.event, call.id, call.at)) else None
    case _ => None
  }

  function LedgerPart(s: State, op: Op): Option<L.Op> {
    match op
    case Call(call) =>
      if Inserts(s, op)
      then Some(L.Register(P.NewRecord(call.id, C.TermsOf(s.calls[call.call].command, call.at))))
      else None
    case Deliver(w, m) => Some(L.Start(w, m.paymentId, Some(m.outboxId)))
    case Handle(_, step) => Some(step)
    case Finish(w) => Some(L.End(w))
    case Die(w) => if w in s.ledger.runs then Some(L.End(w)) else None
    case _ => None
  }

  predicate InPhase(s: State, w: Id, phase: Phase) {
    w in s.consumers && s.consumers[w].phase == phase
  }

  /** A step inside the message handler. */
  predicate IsHandlerStep(s: State, w: Id, step: L.Op) {
    && !step.Register? && !step.Start? && !step.End? && step.worker == w
    && (step.Complete? ==> step.at <= s.relay.now)
  }

  predicate Possible(c: Config, s: State, op: Op) {
    match op
    case RelayWork(work) => !work.Insert? && !work.Publish?
    case Publish(_, _) => true
    case Call(call) => !call.Progress? && C.Enabled(Desk(s), call)
    case Deliver(w, m) => w !in s.consumers && m in s.ready
    case Handle(w, step) => InPhase(s, w, Handling) && IsHandlerStep(s, w, step)
    case Finish(w) => InPhase(s, w, Handling) && w in s.ledger.runs && L.Finished(s.ledger.runs[w].stage)
    case Forward(w, published) =>
      && w in s.consumers && s.consumers[w].phase.Forwarding?
      // an overflowing retry delay raises before anything is published
      && (IsResent(c, s.consumers[w]) && Retry.Ttl(c.policy, s.consumers[w].message.retries).None? ==>
            published.NotAccepted?)
    case Ack(w) => InPhase(s, w, Acking)
    case Reject(w) => InPhase(s, w, Rejecting)
    case Requeue(w) => w in s.consumers && s.consumers[w].owned
    case Die(w) => w in s.consumers
    case Expire(m) => m in s.retry
  }

  predicate IsResent(c: Config, d: Delivery) {
    d.phase.Forwarding? && Retry.Decide(c.policy, d.message.retries, d.phase.error).Resend?
  }

  predicate Enabled(c: Config, s: State, op: Op) {
    && Possible(c, s, op)
    && (RelayPart(s, op).Some? ==> R.Enabled(c.relay, s.relay, RelayPart(s, op).value))
    && (LedgerPart(s, op).Some? ==> L.Enabled(s.ledger, LedgerPart(s, op).value))
  }

  function Copies(condition: bool, m: Message): multiset<Message> {
    if condition then multiset{m} else multiset{}
  }

  /** Messages put into payments.new. */
  function IntoReady(c: Config, s: State, op: Op): multiset<Message>
    requires Enabled(c, s, op)
  {
    match op
    case Publish(w, published) =>
      var record := s.relay.jobs[w].batch[0];
      Copies(!published.NotAccepted?, Message(record.id, record.paymentId, 0))
    case Requeue(w) => multiset{s.consumers[w].message}
    case Die(w) => Copies(s.consumers[w].owned, s.consumers[w].message)
    case Expire(m) => multiset{m}
    case _ => multiset{}
  }

  function IntoRetry(c: Config, s: State, op: Op): multiset<Message>
    requires Enabled(c, s, op)
  {
    match op
    case Forward(w, published) =>
      var d := s.consumers[w];
      Copies(!published.NotAccepted? && IsResent(c, d), d.message.(retries := d.message.retries + 1))
    case _ => multiset{}
  }

  function IntoDead(c: Config, s: State, op: Op): multiset<Message>
    requires Enabled(c, s, op)
  {
    match op
    case Forward(w, published) =>
      var d := s.consumers[w];
      Copies(!published.NotAccepted? && !IsResent(c, d), d.message)
    case Reject(w) => Copies(s.consumers[w].owned, s.consumers[w].message)
    case _ => multiset{}
  }

  function NextConsumers(c: Config, s: State, op: Op): map<Id, Delivery>
    requires Enabled(c, s, op)
  {
    match op
    case Deliver(w, m) => s.consumers[w := Delivery(m, true, Handling)]
    case Finish(w) =>
      var stage := s.ledger.runs[w].stage;
      s.consumers[w := s.consumers[w].(phase := if stage.Done? then Acking else Forwarding(stage.error))]
    case Forward(w, published) =>
      s.consumers[w := s.consumers[w].(phase := if published.Confirmed? then Acking else Rejecting)]
    case Requeue(w) => s.consumers[w := s.consumers[w].(owned := false)]
    case Ack(w) => s.consumers - {w}
    case Reject(w) => s.consumers - {w}
    case Die(w) => s.consumers - {w}
    case _ => s.consumers
  }

  ghost function Apply(c: Config, s: State, op: Op): State
    requires Enabled(c, s, op)
  {
    State(
      match RelayPart(s, op) case None => s.relay case Some(part) => R.Apply(c.relay, s.relay, part),
      match LedgerPart(s, op) case None => s.ledger case Some(part) => L.Apply(s.ledger, part),
      if op.Call? then C.Apply(Desk(s), op.call).calls else s.calls,
      if op.Deliver? then s.ready - multiset{op.message} else s.ready + IntoReady(c, s, op),
      if op.Expire? then s.retry - multiset{op.message} else s.retry + IntoRetry(c, s, op),
      s.dead + IntoDead(c, s, op),
      NextConsumers(c, s, op))
  }

  ghost predicate IsStep(c: Config, s: State, op: Op, s': State) {
    Enabled(c, s, op) && s' == Apply(c, s, op)
  }

  ghost predicate IsRun(c: Config, states: seq<State>, ops: seq<Op>) {
    && |states| == |ops| + 1
    && states[0] == Init(states[0].relay.now)
    && forall k :: 0 <= k < |ops| ==> IsStep(c, states[k], ops[k], states[k + 1])
  }
}
