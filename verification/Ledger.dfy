/** Charging and notifying as a step machine: any number of concurrent runs of ProcessPayment
    (src/application/use_cases/process_payment.py and what it calls).

    A run may stop, or raise, at every await. Each committed unit of work is one step; a commit
    may raise after taking effect. The random draw is whatever the step says. */
module Ledger {
  import opened Base
  import opened Money
  import opened Payments

  /** `isinstance` classes the retry policy distinguishes (src/application/exceptions.py). */
  datatype Error = Transient | Permanent | Domain | Unexpected

  /** WebhookPayloadBuilder.build. */
  datatype Webhook = Webhook(
    paymentId: Id, status: Status, money: Money, processedAt: Option<Time>)

  function Payload(p: Record): Webhook {
    Webhook(p.id, p.status, p.terms.money, p.processedAt)
  }

  /** What came back from the receiver; the request itself may have arrived in every case. */
  datatype Reply = HttpStatus(code: int) | Timeout | TransportFailure

  /** The receiver accepted the request. */
  predicate IsSuccess(reply: Reply) {
    reply.HttpStatus? && 200 <= reply.code < 300
  }

  /** `WebhookErrorMapper`: None is success. */
  function ErrorOf(reply: Reply): Option<Error> {
    match reply
    case Timeout => Some(Transient)
    case TransportFailure => Some(Transient)
    case HttpStatus(code) =>
      if 200 <= code < 300 then None
      else if 400 <= code < 500 then Some(Permanent)
      else Some(Transient)
  }

  datatype Stage =
    | ToCheckInbox
    | ToLoad
    | ToCheckCharge
    | ToDecide
    | ToComplete(success: bool)
    | ToNotify(payment: Record)
    | ToRemember
    | Done
    | Raised(error: Error)

  datatype Run = Run(paymentId: Id, messageId: Option<Id>, stage: Stage)

  /** One webhook request, and what came back to the sender. */
  datatype Post = Post(webhook: Webhook, reply: Reply, messageId: Option<Id>)

  datatype State = State(
    payments: map<Id, Record>,
    charges: map<Id, bool>,        // gateway_charges
    inbox: set<Id>,
    runs: map<Id, Run>,            // by worker
    posts: seq<Post>,              // every webhook request so far
    subject: map<Id, Id>,          // the payment each message is about
    stopped: multiset<Id>,         // messages of runs that ended between acceptance and remembering
    remembered: multiset<Id>)      // messages of the inbox writes that took effect

  function Init(): State {
    State(map[], map[], {}, map[], [], map[], multiset{}, multiset{})
  }

  datatype Op =
    | Register(payment: Record)
    | Start(worker: Id, paymentId: Id, messageId: Option<Id>)
    | CheckInbox(worker: Id)
    | Load(worker: Id)
    | CheckCharge(worker: Id)
    | Decide(worker: Id, draw: bool, commit: CommitOutcome)
    | Complete(worker: Id, at: Time, commit: CommitOutcome)
    | Notify(worker: Id, reply: Reply)
    | Remember(worker: Id, commit: CommitOutcome)
    | Fail(worker: Id, error: Error)
    | End(worker: Id)

  predicate At(s: State, w: Id, stage: Stage) {
    w in s.runs && s.runs[w].stage == stage
  }

  predicate Finished(stage: Stage) {
    stage.Done? || stage.Raised?
  }

  predicate Enabled(s: State, op: Op) {
    match op
    case Register(payment) =>
      payment.id !in s.payments
      && payment.status.Pending? && payment.processedAt.None?
    case Start(w, paymentId, messageId) =>
      w !in s.runs
      && (messageId.Some? && messageId.value in s.subject ==> s.subject[messageId.value] == paymentId)
    case CheckInbox(w) => At(s, w, ToCheckInbox)
    case Load(w) => At(s, w, ToLoad)
    case CheckCharge(w) => At(s, w, ToCheckCharge)
    case Decide(w, _, _) => At(s, w, ToDecide)
    case Complete(w, _, _) => w in s.runs && s.runs[w].stage.ToComplete?
    case Notify(w, _) => w in s.runs && s.runs[w].stage.ToNotify?
    case Remember(w, _) => At(s, w, ToRemember)
    case Fail(w, _) => w in s.runs && !Finished(s.runs[w].stage)
    case End(w) => w in s.runs
  }

  function SetStage(s: State, w: Id, stage: Stage): State
    requires w in s.runs
  {
    s.(runs := s.runs[w := s.runs[w].(stage := stage)])
  }

  /** What a raising commit leaves the caller with. */
  function Committing(commit: CommitOutcome, next: Stage): Stage {
    if commit.Committed? then next else Raised(Unexpected)
  }

  /** The run stops after its webhook was accepted and before the inbox entry is committed. */
  function NoteStop(s: State, w: Id): multiset<Id>
    requires w in s.runs
  {
    if s.runs[w].stage.ToRemember? && s.runs[w].messageId.Some?
    then s.stopped + multiset{s.runs[w].messageId.value} else s.stopped
  }

  function Apply(s: State, op: Op): State
    requires Enabled(s, op)
  {
    match op
    case Register(payment) => s.(payments := s.payments[payment.id := payment])
    case Start(w, paymentId, messageId) =>
      var run := Run(paymentId, messageId, if messageId.Some? then ToCheckInbox else ToLoad);
      s.(runs := s.runs[w := run],
         subject := if messageId.Some? then s.subject[messageId.value := paymentId] else s.subject)
    case CheckInbox(w) =>
      // an unnumbered message skips this stage
      var seen := s.runs[w].messageId.Some? && s.runs[w].messageId.value in s.inbox;
      SetStage(s, w, if seen then Done else ToLoad)
    case Load(w) =>
      var id := s.runs[w].paymentId;
      SetStage(s, w,
        if id !in s.payments then Raised(Permanent)
        else if IsTerminal(s.payments[id].status) then ToNotify(s.payments[id])
        else ToCheckCharge)
    case CheckCharge(w) =>
      var id := s.runs[w].paymentId;
      SetStage(s, w, if id in s.charges then ToComplete(s.charges[id]) else ToDecide)
    case Decide(w, draw, commit) =>
      // INSERT ... ON CONFLICT DO NOTHING, then the row that is there
      var id := s.runs[w].paymentId;
      var charges := if id in s.charges || !TookEffect(commit) then s.charges else s.charges[id := draw];
      var result := if id in s.charges then s.charges[id] else draw;
      SetStage(s, w, Committing(commit, ToComplete(result))).(charges := charges)
    case Complete(w, at, commit) =>
      var id := s.runs[w].paymentId;
      if id !in s.payments then SetStage(s, w, Raised(Permanent))
      else if IsTerminal(s.payments[id].status) then SetStage(s, w, ToNotify(s.payments[id]))
      else
        var current := Completed(s.payments[id], s.runs[w].stage.success, at);
        SetStage(s, w, Committing(commit, ToNotify(current)))
        .(payments := if TookEffect(commit) then s.payments[id := current] else s.payments)
    case Notify(w, reply) =>
      var run := s.runs[w];
      var error := ErrorOf(reply);
      var next := if error.Some? then Raised(error.value) else if run.messageId.Some? then ToRemember else Done;
      SetStage(s, w, next).(posts := s.posts + [Post(Payload(run.stage.payment), reply, run.messageId)])
    case Remember(w, commit) =>
      SetStage(s, w, Committing(commit, Done))
      .(inbox := if TookEffect(commit) && s.runs[w].messageId.Some?
                 then s.inbox + {s.runs[w].messageId.value} else s.inbox,
        remembered := if TookEffect(commit) && s.runs[w].messageId.Some?
                      then s.remembered + multiset{s.runs[w].messageId.value} else s.remembered,
        stopped := if TookEffect(commit) then s.stopped else NoteStop(s, w))
    case Fail(w, error) => SetStage(s, w, Raised(error)).(stopped := NoteStop(s, w))
    case End(w) => s.(runs := s.runs - {w}, stopped := NoteStop(s, w))
  }

  ghost predicate IsStep(s: State, op: Op, s': State) {
    Enabled(s, op) && s' == Apply(s, op)
  }

  /** A finite run of the machine from the empty database. */
  ghost predicate IsRun(states: seq<State>, ops: seq<Op>) {
    && |states| == |ops| + 1
    && states[0] == Init()
    && forall k :: 0 <= k < |ops| ==> IsStep(states[k], ops[k], states[k + 1])
  }
}
