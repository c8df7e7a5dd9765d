/** The messages of the protocol are what the consumer reads from real envelopes, and the dispatcher's
    forwarding is the protocol's. */
module Refinement {
  import opened Base
  import opened Protocol
  import Dispatch
  import Ledger
  import R = Relay
  import Retry
  import Wire

  /** The relay machine rules nothing out: a worker may crash at any time, and every publish and every
      marking commit may have any outcome. */
  lemma RelayMayFail(c: R.Config, s: R.State, w: Id, published: PublishOutcome, commit: CommitOutcome, at: Time)
    requires w in s.jobs && s.jobs[w].batch != [] && at <= s.now
    ensures R.Enabled(c, s, R.Crash(w))
    ensures s.jobs[w].stage.ToPublish? ==> R.Enabled(c, s, R.Publish(w, published))
    ensures s.jobs[w].stage.ToMark? ==> R.Enabled(c, s, R.Mark(w, at, commit))
  {
  }

  /** Nor does the ledger machine: a handler may stop or raise at every point, every commit may have any
      outcome, every draw and every answer may come. */
  lemma HandlerMayFail(l: Ledger.State, w: Id, error: Ledger.Error, draw: bool, commit: CommitOutcome, at: Time,
                       reply: Ledger.Reply)
    requires w in l.runs
    ensures Ledger.Enabled(l, Ledger.End(w))
    ensures !l.runs[w].stage.Done? && !l.runs[w].stage.Raised? ==> Ledger.Enabled(l, Ledger.Fail(w, error))
    ensures l.runs[w].stage.ToDecide? ==> Ledger.Enabled(l, Ledger.Decide(w, draw, commit))
    ensures l.runs[w].stage.ToComplete? ==> Ledger.Enabled(l, Ledger.Complete(w, at, commit))
    ensures l.runs[w].stage.ToNotify? ==> Ledger.Enabled(l, Ledger.Notify(w, reply))
    ensures l.runs[w].stage.ToRemember? ==> Ledger.Enabled(l, Ledger.Remember(w, commit))
  {
  }

  /** Nor does the protocol: a consumer may die at any time, the broker may take any delivery back, and
      forwarding may have any outcome, unless its delay overflows and nothing is published. */
  lemma ConsumerMayFail(c: Config, s: State, w: Id, published: PublishOutcome)
    requires w in s.consumers
    ensures Enabled(c, s, Die(w))
    ensures s.consumers[w].owned ==> Enabled(c, s, Requeue(w))
    ensures s.consumers[w].phase.Forwarding? && (published.NotAccepted? || s.consumers[w].message.retries < 1024) ==>
              Enabled(c, s, Forward(w, published))
  {
  }

  /** What a handler run ends with decides what the dispatcher does: a normal end is acknowledged, a
      raised error is the one that is forwarded. */
  lemma HandlerErrorIsRouted(c: Config, states: seq<State>, ops: seq<Op>, k: nat)
    requires IsRun(c, states, ops) && k < |ops| && ops[k].Finish?
    ensures var s, s', w := states[k], states[k + 1], ops[k].consumer;
            && w in s.ledger.runs && w in s'.consumers && s'.consumers[w].message == s.consumers[w].message
            && match s.ledger.runs[w].stage
               case Done => s'.consumers[w].phase == Acking
               case Raised(error) => s'.consumers[w].phase == Forwarding(error)
               case _ => false
  {
    assert IsStep(c, states[k], ops[k], states[k + 1]);
  }

  /** What is resent: a transient or unknown error, with attempts left. */
  lemma ResentExactly(c: Config, d: Delivery)
    ensures IsResent(c, d) <==>
              && d.phase.Forwarding?
              && (d.phase.error == Ledger.Transient || d.phase.error == Ledger.Unexpected)
              && d.message.retries + 1 < c.policy.maxAttempts
  {
  }

  ghost predicate Represents(e: Wire.Envelope, m: Message) {
    Wire.IdentityOf(e) == Wire.Identity(Some(m.paymentId), Some(m.outboxId), m.retries)
  }

  /** What the relay encodes is what the protocol puts into payments.new. */
  lemma PublishRefines(c: Config, s: State, w: Id, published: PublishOutcome)
    requires Enabled(c, s, Publish(w, published)) && !published.NotAccepted?
    requires Wire.IsUuid(s.relay.jobs[w].batch[0].id) && Wire.IsUuid(s.relay.jobs[w].batch[0].paymentId)
    ensures exists m :: IntoReady(c, s, Publish(w, published)) == multiset{m}
                        && Represents(Wire.Encode(s.relay.jobs[w].batch[0]), m)
  {
    var record := s.relay.jobs[w].batch[0];
    Wire.EncodedIdentity(record);
    var m := Message(record.id, record.paymentId, 0);
    assert IntoReady(c, s, Publish(w, published)) == multiset{m};
  }

  /** The dispatcher decides as the protocol does, and publishes nothing when the protocol may not. */
  lemma SameDecision(c: Config, s: State, w: Id, published: PublishOutcome, e: Wire.Envelope)
    requires Enabled(c, s, Forward(w, published)) && Represents(e, s.consumers[w].message)
    ensures w in s.consumers && s.consumers[w].phase.Forwarding?
    ensures Wire.ParseRetryCount(e) == s.consumers[w].message.retries
    ensures var error, retries := s.consumers[w].phase.error, s.consumers[w].message.retries;
            && IsResent(c, s.consumers[w]) == Retry.Decide(c.policy, retries, error).Resend?
            && (IsResent(c, s.consumers[w]) && Retry.Ttl(c.policy, retries).None? ==> published.NotAccepted?)
  {
  }

  lemma NextPhase(c: Config, s: State, w: Id, published: PublishOutcome)
    requires Enabled(c, s, Forward(w, published))
    ensures w in NextConsumers(c, s, Forward(w, published))
    ensures NextConsumers(c, s, Forward(w, published))[w].phase == if published.Confirmed? then Acking else Rejecting
  {
  }

  /** One copy of this message if there is one, else nothing. */
  ghost predicate Only(copies: multiset<Message>, m: Message, present: bool) {
    |copies| == (if present then 1 else 0) && forall x :: x in copies ==> x == m
  }

  lemma MovedCopies(c: Config, s: State, w: Id, published: PublishOutcome)
    requires Enabled(c, s, Forward(w, published))
    ensures var d, taken := s.consumers[w], !published.NotAccepted?;
            && Only(IntoRetry(c, s, Forward(w, published)), d.message.(retries := d.message.retries + 1),
                    taken && IsResent(c, d))
            && Only(IntoDead(c, s, Forward(w, published)), d.message, taken && !IsResent(c, d))
  {
  }

  /** The dispatcher's copies and acknowledgement are those of the protocol: as many copies, of the same
      messages, and the phase that follows. */
  ghost predicate Agrees(
    f: Dispatch.Forwarding, m: Message, intoRetry: multiset<Message>, intoDead: multiset<Message>, phase: Phase)
  {
    var again := m.(retries := m.retries + 1);
    && |f.resent| == |intoRetry| && |f.dead| == |intoDead| + (if f.acked then 0 else 1)
    && (forall copy <- f.resent :: Represents(copy, again)) && (forall x :: x in intoRetry ==> x == again)
    && (forall copy <- f.dead :: Represents(copy, m)) && (forall x :: x in intoDead ==> x == m)
    && phase == if f.acked then Acking else Rejecting
  }

  lemma SameCopies(
    f: Dispatch.Forwarding, e: Wire.Envelope, again: Wire.Envelope, m: Message, resent: bool, published: PublishOutcome,
    intoRetry: multiset<Message>, intoDead: multiset<Message>, phase: Phase)
    requires Represents(e, m) && Represents(again, m.(retries := m.retries + 1))
    requires Only(intoRetry, m.(retries := m.retries + 1), !published.NotAccepted? && resent)
    requires Only(intoDead, m, !published.NotAccepted? && !resent)
    requires Dispatch.Sends(f, e, again, resent, published)
    requires phase == if published.Confirmed? then Acking else Rejecting
    ensures Agrees(f, m, intoRetry, intoDead, phase)
  {
  }

  lemma RetryRepresents(e: Wire.Envelope, m: Message)
    requires Represents(e, m)
    ensures Wire.ParseRetryCount(e) == m.retries
    ensures Represents(Wire.WithRetryCount(e, m.retries + 1), m.(retries := m.retries + 1))
  {
    Wire.RetryKeepsIdentity(e, m.retries + 1);
  }

  /** What the dispatcher does with a failed delivery, whatever the outcome of its publish, is the
      protocol's forwarding step followed, when it does not acknowledge, by a rejection. */
  lemma ForwardRefines(c: Config, s: State, w: Id, published: PublishOutcome, e: Wire.Envelope)
    requires Enabled(c, s, Forward(w, published)) && Represents(e, s.consumers[w].message)
    ensures w in NextConsumers(c, s, Forward(w, published))
    ensures var op, d := Forward(w, published), s.consumers[w];
            Agrees(Dispatch.Forward(c.policy, e, d.phase.error, published), d.message,
                   IntoRetry(c, s, op), IntoDead(c, s, op), NextConsumers(c, s, op)[w].phase)
  {
    var op, d := Forward(w, published), s.consumers[w];
    SameDecision(c, s, w, published, e);
    NextPhase(c, s, w, published);
    MovedCopies(c, s, w, published);
    RetryRepresents(e, d.message);
    var again := Wire.WithRetryCount(e, d.message.retries + 1);
    Dispatch.ForwardedCopies(c.policy, e, d.message.retries, d.phase.error, published, IsResent(c, d));
    SameCopies(Dispatch.Forward(c.policy, e, d.phase.error, published), e, again, d.message, IsResent(c, d), published,
               IntoRetry(c, s, op), IntoDead(c, s, op), NextConsumers(c, s, op)[w].phase);
  }
}
