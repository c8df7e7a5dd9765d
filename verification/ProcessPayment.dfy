/** Handling one message, as the code does it: seen-check, charge, webhook, remember
    (src/application/use_cases/process_payment.py, src/application/payments/charge.py,
    src/infrastructure/gateway/, src/application/payments/inbox.py). Every database call is shown to
    be a step of the ledger machine, so everything proved about the machine holds of this code. */
module ProcessPayment {
  import opened Base
  import opened Payments
  import opened Ledger
  import opened LedgerSafety

  /** What the random generator, the clock, the database and the receiver do during one run. */
  datatype World = World(
    draw: bool, decide: CommitOutcome,
    at: Time, complete: CommitOutcome,
    reply: Reply, remember: CommitOutcome)

  /** The outcome a charge has or will have: the stored one, or this draw. */
  function Outcome(charges: map<Id, bool>, paymentId: Id, world: World): bool {
    if paymentId in charges then charges[paymentId] else world.draw
  }

  /** The charge is stored, or the commit that stores it returns. */
  predicate IsCharged(charges: map<Id, bool>, paymentId: Id, world: World) {
    paymentId in charges || world.decide.Committed?
  }

  /** The record after charging: unchanged if final, else completed with the outcome, now. */
  function Settled(p: Record, success: bool, at: Time): Record {
    if p.status.Pending? then p.(status := if success then Succeeded else Failed, processedAt := Some(at)) else p
  }

  /** What goes wrong from the webhook on: the answer, or the inbox entry. */
  function NotifyError(messageId: Option<Id>, world: World): Option<Error> {
    if world.reply.HttpStatus? && 200 <= world.reply.code < 300 then
      if messageId.Some? && !world.remember.Committed? then Some(Unexpected) else None
    else if world.reply.HttpStatus? && 400 <= world.reply.code < 500 then Some(Permanent)
    else Some(Transient)
  }

  /** The webhook is about this record, field by field. */
  predicate Says(webhook: Webhook, p: Record) {
    && webhook.paymentId == p.id && webhook.status == p.status
    && webhook.money == p.terms.money && webhook.processedAt == p.processedAt
  }

  /** Consecutive states of the machine, from the first to the last. */
  ghost predicate Connects(states: seq<State>, ops: seq<Op>) {
    && |states| == |ops| + 1
    && forall k :: 0 <= k < |ops| ==> IsStep(states[k], ops[k], states[k + 1])
  }

  lemma {:induction false} ConnectedKeepsInv(states: seq<State>, ops: seq<Op>, k: nat)
    requires Connects(states, ops) && Inv(states[0]) && k < |states|
    ensures Inv(states[k]) && Grows(states[0], states[k])
  {
    if k > 0 {
      ConnectedKeepsInv(states, ops, k - 1);
      assert IsStep(states[k - 1], ops[k - 1], states[k]);
      StepKeepsInv(states[k - 1], ops[k - 1]);
      StepGrows(states[k - 1], ops[k - 1]);
      GrowsTransitive(states[0], states[k - 1], states[k]);
    }
  }

  class Consumer {
    var payments: map<Id, Record>
    var charges: map<Id, bool>
    var inbox: set<Id>
    var posts: seq<Post>

    const worker: Id
    ghost var model: State        // the machine in the same state
    ghost var ops: seq<Op>        // the steps the current run has taken
    ghost var states: seq<State>  // the machine's states before, between and after them

    /** A consumer over the tables it finds, in whatever reachable state other runs left them. */
    constructor (worker: Id, payments: map<Id, Record>, charges: map<Id, bool>, inbox: set<Id>, posts: seq<Post>,
                 ghost model: State)
      requires Inv(model)
      requires model.payments == payments && model.charges == charges && model.inbox == inbox && model.posts == posts
      ensures Valid() && this.worker == worker && this.model == model
    {
      this.worker := worker;
      this.payments, this.charges, this.inbox, this.posts := payments, charges, inbox, posts;
      this.model, ops, states := model, [], [model];
    }

    ghost predicate Connected()
      reads this
    {
      Connects(states, ops) && Inv(states[0]) && model == states[|ops|]
    }

    ghost predicate Valid()
      reads this
    {
      && model.payments == payments && model.charges == charges
      && model.inbox == inbox && model.posts == posts
      && Connected()
    }

    /** The current run of this worker stands at the given stage. */
    ghost predicate Stands(paymentId: Id, messageId: Option<Id>, stage: Stage)
      reads this
    {
      worker in model.runs && model.runs[worker] == Run(paymentId, messageId, stage)
    }

    ghost method Step(op: Op)
      requires Connected() && Enabled(model, op)
      modifies this`model, this`ops, this`states
      ensures Connected() && model == Apply(old(model), op) && states[0] == old(states[0])
    {
      model := Apply(model, op);
      ops := ops + [op];
      states := states + [model];
    }

    /** Whatever this run did, the machine's invariant holds. */
    lemma KeepsInv()
      requires Connected()
      ensures Inv(model) && Grows(states[0], model)
    {
      ConnectedKeepsInv(states, ops, |ops|);
    }

    /** `has_seen`. */
    method HasSeen(paymentId: Id, messageId: Id) returns (seen: bool)
      requires Valid() && Stands(paymentId, Some(messageId), ToCheckInbox)
      modifies this`model, this`ops, this`states
      ensures Valid() && states[0] == old(states[0]) && seen == (messageId in inbox)
      ensures model == Apply(old(model), CheckInbox(worker))
    {
      seen := messageId in inbox;
      Step(CheckInbox(worker));
    }

    /** `SqlGatewayResultCache.get`. */
    method GetCharge(paymentId: Id, messageId: Option<Id>) returns (cached: Option<bool>)
      requires Valid() && Stands(paymentId, messageId, ToCheckCharge)
      modifies this`model, this`ops, this`states
      ensures Valid() && states[0] == old(states[0]) && model == Apply(old(model), CheckCharge(worker))
      ensures cached == if paymentId in charges then Some(charges[paymentId]) else None
    {
      cached := if paymentId in charges then Some(charges[paymentId]) else None;
      Step(CheckCharge(worker));
    }

    /** `SqlGatewayResultCache.put_if_absent`: insert unless there is a row, then read the row. */
    method PutIfAbsent(paymentId: Id, messageId: Option<Id>, result: bool, commit: CommitOutcome)
      returns (stored: Option<bool>)
      requires Valid() && Stands(paymentId, messageId, ToDecide)
      modifies this`model, this`ops, this`states, this`charges
      ensures Valid() && states[0] == old(states[0]) && model == Apply(old(model), Decide(worker, result, commit))
      ensures charges == if paymentId in old(charges) || !TookEffect(commit) then old(charges)
                         else old(charges)[paymentId := result]
      ensures stored == if !commit.Committed? then None
                        else if paymentId in old(charges) then Some(old(charges)[paymentId]) else Some(result)
    {
      var row := if paymentId in charges then charges[paymentId] else result;
      if paymentId !in charges && TookEffect(commit) {
        charges := charges[paymentId := result];
      }
      Step(Decide(worker, result, commit));
      stored := if commit.Committed? then Some(row) else None;
    }

    /** `RandomPaymentGateway.charge`. */
    method Charge(paymentId: Id, messageId: Option<Id>, world: World) returns (result: Option<bool>)
      requires Valid() && Stands(paymentId, messageId, ToCheckCharge)
      modifies this`model, this`ops, this`states, this`charges
      ensures Valid() && states[0] == old(states[0])
      ensures result.Some? ==> Stands(paymentId, messageId, ToComplete(result.value))
      ensures result.None? ==> Stands(paymentId, messageId, Raised(Unexpected))
      ensures charges == if paymentId in old(charges) || !TookEffect(world.decide) then old(charges)
                         else old(charges)[paymentId := world.draw]
      // the stored charge if there is one, else the draw if it could be stored
      ensures result == if paymentId in old(charges) then Some(old(charges)[paymentId])
                        else if world.decide.Committed? then Some(world.draw) else None
    {
      var cached := GetCharge(paymentId, messageId);
      if cached.Some? {
        return cached;
      }
      result := PutIfAbsent(paymentId, messageId, world.draw, world.decide);
    }

    /** `_complete`: lock the payment, complete it unless it is final, save, commit. */
    method Complete(paymentId: Id, messageId: Option<Id>, success: bool, world: World)
      returns (result: Result<Record, Error>)
      requires Valid() && Stands(paymentId, messageId, ToComplete(success))
      modifies this`model, this`ops, this`states, this`payments
      ensures Valid() && states[0] == old(states[0])
      ensures result.Ok? ==> Stands(paymentId, messageId, ToNotify(result.value))
      ensures result.Err? ==> Stands(paymentId, messageId, Raised(result.error))
      // the one write there is: of a pending payment, when the commit takes effect
      ensures payments ==
                if paymentId in old(payments) && old(payments)[paymentId].status.Pending? && TookEffect(world.complete)
                then old(payments)[paymentId := Settled(old(payments)[paymentId], success, world.at)]
                else old(payments)
      ensures result.Ok? <==>
                paymentId in old(payments) && (!old(payments)[paymentId].status.Pending? || world.complete.Committed?)
      ensures result.Ok? ==> result.value == Settled(old(payments)[paymentId], success, world.at)
      ensures result.Err? ==> result.error == if paymentId in old(payments) then Unexpected else Permanent
    {
      if paymentId !in payments {
        Step(Op.Complete(worker, world.at, world.complete));
        return Err(Permanent);
      }
      var current := new Payment.Reconstitute(payments[paymentId]);
      if IsTerminal(current.status) {
        Step(Op.Complete(worker, world.at, world.complete));
        return Ok(current.Snapshot());
      }
      if success {
        current.Succeed(world.at);
      } else {
        current.Fail(world.at);
      }
      if TookEffect(world.complete) {
        payments := payments[paymentId := current.Snapshot()];
      }
      Step(Op.Complete(worker, world.at, world.complete));
      result := if world.complete.Committed? then Ok(current.Snapshot()) else Err(Unexpected);
    }

    /** `ChargePayment.execute`. */
    method ChargePayment(paymentId: Id, messageId: Option<Id>, world: World) returns (result: Result<Record, Error>)
      requires Valid() && Stands(paymentId, messageId, ToLoad)
      modifies this`model, this`ops, this`states, this`payments, this`charges
      ensures Valid() && states[0] == old(states[0])
      ensures result.Ok? ==> Stands(paymentId, messageId, ToNotify(result.value))
      ensures result.Err? ==> Stands(paymentId, messageId, Raised(result.error))
      ensures result.Ok? <==>
                && paymentId in old(payments)
                && (old(payments)[paymentId].status.Pending? ==>
                      IsCharged(old(charges), paymentId, world) && world.complete.Committed?)
      ensures result.Ok? ==>
                && result.value == Settled(old(payments)[paymentId], Outcome(old(charges), paymentId, world), world.at)
                && payments == old(payments)[paymentId := result.value]
      ensures result.Err? ==> result.error == if paymentId in old(payments) then Unexpected else Permanent
      ensures charges ==
                if paymentId in old(payments) && old(payments)[paymentId].status.Pending?
                   && paymentId !in old(charges) && TookEffect(world.decide)
                then old(charges)[paymentId := world.draw] else old(charges)
      ensures result.Err? ==>
                payments ==
                  if paymentId in old(payments) && IsCharged(old(charges), paymentId, world) && TookEffect(world.complete)
                  then old(payments)[paymentId :=
                         Settled(old(payments)[paymentId], Outcome(old(charges), paymentId, world), world.at)]
                  else old(payments)
    {
      Step(Load(worker));
      if paymentId !in payments {
        return Err(Permanent);
      }
      var payment := payments[paymentId];
      if IsTerminal(payment.status) {
        return Ok(payment);
      }
      var charged := Charge(paymentId, messageId, world);
      if charged.None? {
        return Err(Unexpected);
      }
      result := Complete(paymentId, messageId, charged.value, world);
    }

    /** `DeliverWebhook.execute`. */
    method DeliverWebhook(payment: Record, messageId: Option<Id>, world: World) returns (error: Option<Error>)
      requires Valid() && Stands(payment.id, messageId, ToNotify(payment))
      modifies this`model, this`ops, this`states, this`posts
      ensures Valid() && states[0] == old(states[0])
      // success is a status in 200..299; a 4xx is permanent; any other status, or none at all, is transient
      ensures error.None? <==> world.reply.HttpStatus? && 200 <= world.reply.code < 300
      ensures error == Some(Permanent) <==> world.reply.HttpStatus? && 400 <= world.reply.code < 500
      ensures error.None? || error == Some(Permanent) || error == Some(Transient)
      ensures PostsOne(old(posts), payment, messageId, world)
      ensures Stands(payment.id, messageId,
                     if error.Some? then Raised(error.value) else if messageId.Some? then ToRemember else Done)
    {
      error := ErrorOf(world.reply);
      posts := posts + [Post(Payload(payment), world.reply, messageId)];
      Step(Notify(worker, world.reply));
    }

    /** One request has been sent, about this record, and this is what came back. */
    ghost predicate PostsOne(before: seq<Post>, payment: Record, messageId: Option<Id>, world: World)
      reads this`posts
    {
      && |posts| == |before| + 1 && before <= posts
      && Says(posts[|before|].webhook, payment)
      && posts[|before|].reply == world.reply && posts[|before|].messageId == messageId
    }

    /** `remember`. */
    method RememberMessage(paymentId: Id, messageId: Id, world: World) returns (error: Option<Error>)
      requires Valid() && Stands(paymentId, Some(messageId), ToRemember)
      modifies this`model, this`ops, this`states, this`inbox
      ensures Valid() && states[0] == old(states[0])
      ensures error == if world.remember.Committed? then None else Some(Unexpected)
      ensures inbox == old(inbox) + if TookEffect(world.remember) then {messageId} else {}
      ensures Stands(paymentId, Some(messageId), if error.Some? then Raised(error.value) else Done)
    {
      if TookEffect(world.remember) {
        inbox := inbox + {messageId};
      }
      Step(Remember(worker, world.remember));
      error := if world.remember.Committed? then None else Some(Unexpected);
    }

    /** The second half of `ProcessPayment.execute`: webhook, then remember. */
    method NotifyAndRemember(payment: Record, messageId: Option<Id>, world: World) returns (error: Option<Error>)
      requires Valid() && Stands(payment.id, messageId, ToNotify(payment))
      modifies this`model, this`ops, this`states, this`posts, this`inbox
      ensures Valid() && states[0] == old(states[0])
      ensures Stands(payment.id, messageId, if error.Some? then Raised(error.value) else Done)
      ensures PostsOne(old(posts), payment, messageId, world)
      ensures error == NotifyError(messageId, world)
      ensures inbox == old(inbox) +
                if IsSuccess(world.reply) && messageId.Some? && TookEffect(world.remember) then {messageId.value} else {}
    {
      error := DeliverWebhook(payment, messageId, world);
      if error.None? && messageId.Some? {
        error := RememberMessage(payment.id, messageId.value, world);
      }
    }

    lemma NotifyKnowsPayment(paymentId: Id, messageId: Option<Id>, payment: Record)
      requires Connected() && Stands(paymentId, messageId, ToNotify(payment))
      ensures payment.id == paymentId
    {
      KeepsInv();
      assert RunOk(model, model.runs[worker]);
      assert PaymentOk(model, paymentId, model.payments[paymentId]);
    }

    lemma DoneMeansNotified(paymentId: Id, messageId: Option<Id>)
      requires Connected() && Stands(paymentId, messageId, Done)
      ensures IsFinal(model, paymentId) && Notified(model, paymentId)
    {
      KeepsInv();
      assert RunOk(model, model.runs[worker]);
    }

    /** What handling an unseen message does, as a function of the tables found and of the world. */
    ghost predicate Handled(
      payments0: map<Id, Record>, charges0: map<Id, bool>, inbox0: set<Id>, posts0: seq<Post>,
      paymentId: Id, messageId: Option<Id>, world: World, error: Option<Error>)
      reads this
    {
      if paymentId !in payments0 then
        // unknown payment: permanent, nothing happens
        error == Some(Permanent) && payments == payments0 && charges == charges0 && inbox == inbox0 && posts == posts0
      else if payments0[paymentId].status.Pending?
              && !((paymentId in charges0 || world.decide.Committed?) && world.complete.Committed?) then
        // charging or completing could not be committed: nobody is notified
        error == Some(Unexpected) && inbox == inbox0 && posts == posts0
      else
        // charged once, completed once, notified, remembered
        var outcome := if paymentId in charges0 then charges0[paymentId] else world.draw;
        var record := Settled(payments0[paymentId], outcome, world.at);
        && payments == payments0[paymentId := record]
        && (payments0[paymentId].status.Pending? ==>
              charges == charges0[paymentId := outcome]
              && record.status == (if outcome then Succeeded else Failed) && record.processedAt == Some(world.at))
        && (!payments0[paymentId].status.Pending? ==> charges == charges0 && record == payments0[paymentId])
        && PostsOne(posts0, record, messageId, world)
        && error == NotifyError(messageId, world)
        && inbox == inbox0 +
             if IsSuccess(world.reply) && messageId.Some? && TookEffect(world.remember) then {messageId.value} else {}
    }

    /** What `ProcessPayment.execute` does for a message it has not seen. */
    method ChargeAndNotify(paymentId: Id, messageId: Option<Id>, world: World) returns (error: Option<Error>)
      requires Valid() && Stands(paymentId, messageId, ToLoad)
      modifies this
      ensures Valid() && states[0] == old(states[0])
      ensures Stands(paymentId, messageId, if error.Some? then Raised(error.value) else Done)
      ensures Handled(old(payments), old(charges), old(inbox), old(posts), paymentId, messageId, world, error)
      // normally exactly when the payment can be charged, its receiver answers 2xx, and that can be stored
      ensures error.None? <==>
                && paymentId in old(payments)
                && (old(payments)[paymentId].status.Pending? ==>
                      (paymentId in old(charges) || world.decide.Committed?) && world.complete.Committed?)
                && world.reply.HttpStatus? && 200 <= world.reply.code < 300
                && (messageId.Some? ==> world.remember.Committed?)
    {
      var charged := ChargePayment(paymentId, messageId, world);
      if charged.Err? {
        return Some(charged.error);
      }
      NotifyKnowsPayment(paymentId, messageId, charged.value);
      error := NotifyAndRemember(charged.value, messageId, world);
    }

    /** The start of a run: a numbered message is looked up in the inbox. */
    method Begin(paymentId: Id, messageId: Option<Id>) returns (seen: bool)
      requires Valid() && Enabled(model, Start(worker, paymentId, messageId))
      modifies this`model, this`ops, this`states
      ensures Valid() && states[0] == old(model)
      ensures seen <==> messageId.Some? && messageId.value in inbox
      ensures Stands(paymentId, messageId, if seen then Done else ToLoad)
    {
      KeepsInv();
      states, ops := [model], [];
      Step(Start(worker, paymentId, messageId));
      seen := false;
      if messageId.Some? {
        seen := HasSeen(paymentId, messageId.value);
      }
    }

    /** `ProcessPayment.execute`, from the start of the run to its result. */
    method Execute(paymentId: Id, messageId: Option<Id>, world: World) returns (error: Option<Error>)
      requires Valid() && Enabled(model, Start(worker, paymentId, messageId))
      modifies this
      ensures Valid() && states[0] == old(model)
      ensures Stands(paymentId, messageId, if error.Some? then Raised(error.value) else Done)
      // a remembered message has no effect at all
      ensures messageId.Some? && messageId.value in old(inbox) ==>
                && error.None? && posts == old(posts) && payments == old(payments) && charges == old(charges)
                && inbox == old(inbox)
      // any other is handled
      ensures messageId.None? || messageId.value !in old(inbox) ==>
                Handled(old(payments), old(charges), old(inbox), old(posts), paymentId, messageId, world, error)
      ensures messageId.None? || messageId.value !in old(inbox) ==>
                (error.None? <==>
                   && paymentId in old(payments)
                   && (old(payments)[paymentId].status.Pending? ==>
                         (paymentId in old(charges) || world.decide.Committed?) && world.complete.Committed?)
                   && world.reply.HttpStatus? && 200 <= world.reply.code < 300
                   && (messageId.Some? ==> world.remember.Committed?))
      // normal return: the payment is final, its receiver has accepted a webhook, the message is remembered
      ensures error.None? ==> IsFinal(model, paymentId) && Notified(model, paymentId)
      ensures error.None? && messageId.Some? ==> messageId.value in inbox
      ensures Grows(old(model), model)
    {
      var seen := Begin(paymentId, messageId);
      if !seen {
        error := ChargeAndNotify(paymentId, messageId, world);
      } else {
        error := None;
      }
      KeepsInv();
      if error.None? {
        DoneMeansNotified(paymentId, messageId);
      }
    }

    /** The run is over: the worker can take the next message. */
    method Finish()
      requires Valid() && worker in model.runs
      modifies this`model, this`ops, this`states
      ensures Valid() && model == Apply(old(model), End(worker)) && worker !in model.runs
    {
      Step(End(worker));
    }

    /** Handling the same message again after a normal return does nothing at all. */
    method ExecuteTwice(paymentId: Id, messageId: Id, world: World, again: World)
      returns (error: Option<Error>, second: Option<Error>)
      requires Valid() && Enabled(model, Start(worker, paymentId, Some(messageId)))
      modifies this
      ensures Valid() && |posts| <= |old(posts)| + if error.Some? then 2 else 1
      ensures error.None? ==> second.None?
      ensures second.None? ==> messageId in inbox && IsFinal(model, paymentId) && Notified(model, paymentId)
    {
      error := Execute(paymentId, Some(messageId), world);
      assert RunOk(model, model.runs[worker]) by { KeepsInv(); }
      Finish();
      second := Execute(paymentId, Some(messageId), again);
    }
  }
}
