/** What becomes of one delivery, and of one message over all its deliveries
    (src/presentation/amqp/dispatcher.py, src/presentation/amqp/failures.py,
    src/infrastructure/messaging/topology.py). */
module Dispatch {
  import opened Base
  import opened Backoff
  import opened Retry
  import opened Wire
  import Ledger

  /** The queues: a rejected delivery of `ready` is dead-lettered to `dead`; an expired one of
      `retry` returns to `ready`; `dead` has no way out. */
  class Broker {
    var ready: seq<Envelope>
    var retry: seq<Envelope>
    var dead: seq<Envelope>
    var acked: seq<Envelope>

    constructor ()
      ensures ready == [] && retry == [] && dead == [] && acked == []
    {
      ready, retry, dead, acked := [], [], [], [];
    }
  }

  /** What the code does with a failed delivery: a retry copy, a dead-letter copy of its own, or
      (forwarding failed or was not confirmed) a rejection, which dead-letters the delivery. */
  datatype Forwarding = Forwarding(resent: seq<Envelope>, dead: seq<Envelope>, acked: bool)

  function Forward(policy: Policy, e: Envelope, error: Error, publish: PublishOutcome): Forwarding {
    var count := ParseRetryCount(e);
    var action := Decide(policy, count, error);
    var lost := publish.NotAccepted? || (action.Resend? && Ttl(policy, count).None?);
    var copies := if lost then [] else if action.Resend? then [WithRetryCount(e, count + 1)] else [e];
    var resent := if action.Resend? then copies else [];
    var dead := if action.Resend? then [] else copies;
    if lost || publish.AcceptedButRaised? then Forwarding(resent, dead + [e], false)
    else Forwarding(resent, dead, true)
  }

  class Dispatcher {
    const policy: Policy
    const broker: Broker

    constructor (policy: Policy, broker: Broker)
      ensures this.policy == policy && this.broker == broker
    {
      this.policy := policy;
      this.broker := broker;
    }

    /** `FailureRouter.route`. False: publishing raised. */
    method Route(e: Envelope, error: Error, publish: PublishOutcome) returns (ok: bool)
      modifies broker
      ensures var f := Forward(policy, e, error, publish);
              && ok == f.acked
              && broker.retry == old(broker.retry) + f.resent
              && broker.dead + (if ok then [] else [e]) == old(broker.dead) + f.dead
      ensures broker.ready == old(broker.ready) && broker.acked == old(broker.acked)
    {
      var count := ParseRetryCount(e);
      var action := Decide(policy, count, error);
      if action.DeadLetter? {
        if !publish.NotAccepted? {
          broker.dead := broker.dead + [e];
        }
        return publish.Confirmed?;
      }
      var delay := Ttl(policy, count);
      if delay.None? {
        return false;
      }
      if !publish.NotAccepted? {
        broker.retry := broker.retry + [WithRetryCount(e, count + 1)];
      }
      return publish.Confirmed?;
    }

    /** `dispatch` of the delivery at the head of the queue; `failure` is what the handler raised. */
    method DispatchNext(failure: Option<Error>, publish: PublishOutcome)
      requires broker.ready != []
      modifies broker
      ensures broker.ready == old(broker.ready)[1..]
      ensures failure.None? ==>
                && broker.acked == old(broker.acked) + [old(broker.ready)[0]]
                && broker.retry == old(broker.retry) && broker.dead == old(broker.dead)
      ensures failure.Some? ==>
                var e := old(broker.ready)[0];
                var f := Forward(policy, e, failure.value, publish);
                && broker.retry == old(broker.retry) + f.resent
                && broker.dead == old(broker.dead) + f.dead
                && broker.acked == old(broker.acked) + if f.acked then [e] else []
    {
      var e := broker.ready[0];
      broker.ready := broker.ready[1..];
      if failure.None? {
        broker.acked := broker.acked + [e];
        return;
      }
      var ok := Route(e, failure.value, publish);
      if ok {
        broker.acked := broker.acked + [e];
      } else {
        broker.dead := broker.dead + [e];
      }
    }
  }

  /** The rule of forwarding, case by case. A retry goes to the retry queue with its count one up, anything
      else to the dead letters as it is; only a confirmed copy is acknowledged, and a delivery that is not
      acknowledged is dead-lettered by the broker. */
  lemma ForwardingRule(policy: Policy, e: Envelope, error: Error, publish: PublishOutcome)
    ensures var f := Forward(policy, e, error, publish);
            var count := ParseRetryCount(e);
            var retry := (error == Ledger.Transient || error == Ledger.Unexpected) && count + 1 < policy.maxAttempts;
            var overflow := retry && Ttl(policy, count).None?;
            var rejected := if f.acked then [] else [e];
            && (f.acked <==> publish.Confirmed? && !overflow)
            && (publish.NotAccepted? || overflow ==> f.resent == [] && f.dead == [e])
            && (!publish.NotAccepted? && retry && !overflow ==>
                  f.resent == [WithRetryCount(e, count + 1)] && f.dead == rejected)
            && (!publish.NotAccepted? && !retry ==> f.resent == [] && f.dead == [e] + rejected)
  {
  }

  /** One copy is sent if the broker takes it, the retry or the delivery as it is, and the delivery itself
      is dead-lettered unless it is acknowledged. */
  predicate Sends(f: Forwarding, e: Envelope, again: Envelope, retry: bool, publish: PublishOutcome) {
    var taken := !publish.NotAccepted?;
    && (f.acked <==> publish.Confirmed?)
    && f.resent == (if retry && taken then [again] else [])
    && f.dead == (if !retry && taken then [e] else []) + (if f.acked then [] else [e])
  }

  /** The same when the wait of a retry can be computed or nothing is published. */
  lemma ForwardedCopies(policy: Policy, e: Envelope, count: int, error: Error, publish: PublishOutcome, retry: bool)
    requires count == ParseRetryCount(e) && retry == Decide(policy, count, error).Resend?
    requires retry && Ttl(policy, count).None? ==> publish.NotAccepted?
    ensures Sends(Forward(policy, e, error, publish), e, WithRetryCount(e, count + 1), retry, publish)
  {
  }

  /** One copy survives a failed delivery; a second one only when the broker took a copy and the
      publisher was told otherwise. */
  lemma FailureIsConserved(policy: Policy, e: Envelope, error: Error, publish: PublishOutcome)
    ensures var f := Forward(policy, e, error, publish);
            var overflow := Decide(policy, ParseRetryCount(e), error).Resend? && Ttl(policy, ParseRetryCount(e)).None?;
            |f.resent| + |f.dead| == if publish.AcceptedButRaised? && !overflow then 2 else 1
  {
  }

  /** The ids read from every copy are those of the delivery; a retry counts one up. */
  lemma CopiesKeepIdentity(policy: Policy, e: Envelope, error: Error, publish: PublishOutcome)
    ensures var f := Forward(policy, e, error, publish);
            && (forall copy <- f.resent ::
                  copy.body == e.body
                  && IdentityOf(copy) == IdentityOf(e).(retryCount := ParseRetryCount(e) + 1))
            && (forall copy <- f.dead :: copy == e)
  {
    RetryKeepsIdentity(e, ParseRetryCount(e) + 1);
  }

  /** How one handling of the message goes: success or an error, and how forwarding goes. */
  datatype Handling = Handling(failure: Option<Error>, publish: PublishOutcome)

  datatype Fate = Succeeded | Dead(e: Envelope) | Waiting(e: Envelope)

  function FateAfter(policy: Policy, e: Envelope, h: Handling): Fate {
    if h.failure.None? then Succeeded
    else
      var f := Forward(policy, e, h.failure.value, h.publish);
      if f.resent != [] then Waiting(f.resent[0]) else Dead(e)
  }

  /** The life of one message: how often it is dispatched, following the one copy that can still be
      delivered, and what becomes of it. */
  function Life(policy: Policy, e: Envelope, handlings: seq<Handling>): (r: (nat, Fate))
    ensures r.0 <= |handlings|
    decreases |handlings|
  {
    if handlings == [] then (0, Waiting(e))
    else
      var fate := FateAfter(policy, e, handlings[0]);
      if fate.Waiting? then
        var (more, end) := Life(policy, fate.e, handlings[1..]);
        (more + 1, end)
      else (1, fate)
  }

  /** Dispatches a message with this retry count can still get. */
  function Budget(policy: Policy, count: int): int {
    if policy.maxAttempts - count > 1 then policy.maxAttempts - count else 1
  }

  /** A message is dispatched a bounded number of times whatever happens, is still waiting only if
      it has been handled that often less, and carries its ids to the end. */
  lemma {:induction false} LifeIsBounded(policy: Policy, e: Envelope, handlings: seq<Handling>)
    ensures var (n, fate) := Life(policy, e, handlings);
            && n <= Budget(policy, ParseRetryCount(e))
            && (|handlings| >= Budget(policy, ParseRetryCount(e)) ==> !fate.Waiting?)
            && (fate.Waiting? ==>
                  n == |handlings| && IdentityOf(fate.e) == IdentityOf(e).(retryCount := ParseRetryCount(e) + n))
            && (fate.Dead? ==>
                  n >= 1 && IdentityOf(fate.e) == IdentityOf(e).(retryCount := ParseRetryCount(e) + n - 1))
    decreases |handlings|
  {
    if handlings != [] {
      var h := handlings[0];
      var next := FateAfter(policy, e, h);
      if next.Waiting? {
        CopiesKeepIdentity(policy, e, h.failure.value, h.publish);
        LifeIsBounded(policy, next.e, handlings[1..]);
      }
    }
  }

  /** The bound is reached when every handling fails with a retryable error and every copy is
      confirmed, and then the message ends in the dead-letter queue. */
  lemma {:induction false} BoundIsReached(policy: Policy, e: Envelope, handlings: seq<Handling>)
    requires |handlings| == Budget(policy, ParseRetryCount(e)) && policy.maxAttempts <= OVERFLOW_ATTEMPTS
    requires forall h <- handlings ::
               h.failure.Some? && IsRetryable(h.failure.value) && h.publish.Confirmed?
    ensures Life(policy, e, handlings).0 == |handlings| && Life(policy, e, handlings).1.Dead?
    decreases |handlings|
  {
    var h := handlings[0];
    assert h in handlings;
    var count := ParseRetryCount(e);
    if Decide(policy, count, h.failure.value).Resend? {
      assert Ttl(policy, count).Some?;
      CopiesKeepIdentity(policy, e, h.failure.value, h.publish);
      BoundIsReached(policy, WithRetryCount(e, count + 1), handlings[1..]);
    }
  }
}
