/** Retry or dead-letter, and after how long (src/application/retry/policy.py). */
module Retry {
  import opened Base
  import opened Backoff
  import Ledger

  type Error = Ledger.Error

  datatype Policy = Policy(maxAttempts: int, schedule: Schedule)

  const DEFAULT := Policy(3, Schedule(1.0, 4.0))

  datatype Action = Resend | DeadLetter

  /** Transient errors are application errors but are retried; so is anything unknown. */
  predicate IsRetryable(error: Error) {
    error.Transient? || error.Unexpected?
  }

  function Decide(policy: Policy, retryCount: int, error: Error): Action {
    if !IsRetryable(error) then DeadLetter
    else if retryCount + 1 >= policy.maxAttempts then DeadLetter
    else Resend
  }

  /** `compute_delay_seconds`: None when the delay overflows. */
  function Ttl(policy: Policy, retryCount: int): Option<int> {
    match DelayFor(policy.schedule, (if retryCount > 0 then retryCount else 0) + 1, None)
    case None => None
    case Some(delay) => Some(if delay.Floor > 1 then delay.Floor else 1)
  }

  /** The whole policy: exactly transient and unknown errors are retried, while attempts are left, and the
      wait is the doubled delay up to the cap in whole seconds, at least one. */
  lemma PolicyRule(policy: Policy, count: int, error: Error)
    requires count + 1 < OVERFLOW_ATTEMPTS
    ensures Decide(policy, count, error) == Resend
            <==> (error == Ledger.Transient || error == Ledger.Unexpected) && count + 1 < policy.maxAttempts
    ensures var waits := if count > 0 then count else 0;
            var delay := Doubled(policy.schedule, waits + 1);
            Ttl(policy, count) == Some(if delay.Floor > 1 then delay.Floor else 1)
  {
    var waits := if count > 0 then count else 0;
    UnjitteredIsDoubled(policy.schedule, waits + 1);
  }

  /** Retry delays never shrink and stay between one second and the cap. */
  lemma TtlShape(policy: Policy, r: int, r': int)
    requires ValidSchedule(policy.schedule) && r <= r' && r' + 1 < OVERFLOW_ATTEMPTS
    ensures Ttl(policy, r).Some? && Ttl(policy, r').Some?
    ensures 1 <= Ttl(policy, r).value <= Ttl(policy, r').value
    ensures Ttl(policy, r').value <= if policy.schedule.cap.Floor > 1 then policy.schedule.cap.Floor else 1
  {
    DelayShape(policy.schedule, (if r > 0 then r else 0) + 1, (if r' > 0 then r' else 0) + 1);
  }

  /** With the default policy: one second, then two, then the dead-letter queue. */
  lemma DefaultRetries(error: Error)
    requires IsRetryable(error)
    ensures Decide(DEFAULT, 0, error) == Resend && Ttl(DEFAULT, 0) == Some(1)
    ensures Decide(DEFAULT, 1, error) == Resend && Ttl(DEFAULT, 1) == Some(2)
    ensures Decide(DEFAULT, 2, error) == DeadLetter
  {
    var s := DEFAULT.schedule;
    assert Uncapped(s, 2) == 2.0 * Uncapped(s, 1) == 2.0;
  }

  /** The answer of the receiver, through to the queues: 2xx is no failure; a 4xx is dead-lettered at
      once; any other status, or no answer, is tried until the attempts are used up (section 15 of
      RFC 9110). */
  lemma WebhookFailures(policy: Policy, count: int, reply: Ledger.Reply)
    ensures Ledger.ErrorOf(reply).None? <==> reply.HttpStatus? && 200 <= reply.code < 300
    ensures Ledger.ErrorOf(reply).Some? ==>
              var rejected := reply.HttpStatus? && 400 <= reply.code < 500;
              Decide(policy, count, Ledger.ErrorOf(reply).value)
              == if rejected || count + 1 >= policy.maxAttempts then DeadLetter else Resend
  {
  }
}
