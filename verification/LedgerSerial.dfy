/** How often a webhook is accepted for one message: the exact number in every run, and when it is
    one. */
module LedgerSerial {
  import opened Base
  import opened Ledger
  import opened LedgerSafety
  import opened Money
  import opened Payments

  /** Webhooks for this message that the receiver accepted. */
  function Acceptances(posts: seq<Post>, messageId: Id): nat {
    if posts == [] then 0
    else
      var last := posts[|posts| - 1];
      Acceptances(posts[..|posts| - 1], messageId)
      + if IsSuccess(last.reply) && last.messageId == Some(messageId) then 1 else 0
  }

  predicate Remembering(s: State, w: Id, messageId: Id) {
    w in s.runs && s.runs[w].messageId == Some(messageId) && s.runs[w].stage.ToRemember?
  }

  /** Runs whose webhook was accepted and that are about to remember the message. */
  function Rememberers(s: State, messageId: Id): set<Id> {
    set w | w in s.runs && Remembering(s, w, messageId)
  }

  /** Passes of the message through the gap between acceptance and the inbox entry: broken off,
      completed, or still in it. */
  function Passes(s: State, messageId: Id): nat {
    s.stopped[messageId] + s.remembered[messageId] + |Rememberers(s, messageId)|
  }

  // ----- the law of acceptances

  lemma Appended(posts: seq<Post>, post: Post, messageId: Id)
    ensures Acceptances(posts + [post], messageId)
            == Acceptances(posts, messageId)
               + if IsSuccess(post.reply) && post.messageId == Some(messageId) then 1 else 0
  {
    assert (posts + [post])[..|posts|] == posts;
  }

  function Here(s: State, w: Id, messageId: Id): nat {
    if Remembering(s, w, messageId) then 1 else 0
  }

  lemma OneDiffers(a: set<Id>, b: set<Id>, w: Id)
    requires a - {w} == b - {w}
    ensures |b| + (if w in a then 1 else 0) == |a| + (if w in b then 1 else 0)
  {
    var rest := a - {w};
    assert a == if w in a then rest + {w} else rest;
    assert b == if w in b then rest + {w} else rest;
  }

  /** A step of one worker changes only whether that worker is in the gap. */
  lemma OneMoves(s: State, s': State, w: Id, messageId: Id)
    requires forall v :: v != w ==> (Remembering(s, v, messageId) <==> Remembering(s', v, messageId))
    ensures |Rememberers(s', messageId)| + Here(s, w, messageId) == |Rememberers(s, messageId)| + Here(s', w, messageId)
  {
    var a, b := Rememberers(s, messageId), Rememberers(s', messageId);
    forall v ensures v in a - {w} <==> v in b - {w} {
    }
    OneDiffers(a, b, w);
  }

  lemma NobodyMoves(s: State, s': State, messageId: Id)
    requires s'.runs == s.runs
    ensures Rememberers(s', messageId) == Rememberers(s, messageId)
  {
  }

  /** The steps that change neither the log nor the counters, and leave nobody in the gap or all as
      they are. */
  predicate IsQuiet(op: Op) {
    op.Start? || op.CheckInbox? || op.Load? || op.CheckCharge? || op.Decide? || op.Complete?
  }

  lemma QuietStep(s: State, op: Op, messageId: Id)
    requires Enabled(s, op) && IsQuiet(op)
    ensures Passes(Apply(s, op), messageId) == Passes(s, messageId) && Apply(s, op).posts == s.posts
  {
    OneMoves(s, Apply(s, op), op.worker, messageId);
  }

  lemma NotifyStep(s: State, op: Op, messageId: Id)
    requires Enabled(s, op) && op.Notify?
    ensures var s' := Apply(s, op);
            Passes(s', messageId) + Acceptances(s.posts, messageId)
            == Passes(s, messageId) + Acceptances(s'.posts, messageId)
  {
    var s' := Apply(s, op);
    OneMoves(s, s', op.worker, messageId);
    Appended(s.posts, s'.posts[|s.posts|], messageId);
  }

  lemma LeavingStep(s: State, op: Op, messageId: Id)
    requires Enabled(s, op) && (op.Remember? || op.Fail? || op.End?)
    ensures Passes(Apply(s, op), messageId) == Passes(s, messageId) && Apply(s, op).posts == s.posts
  {
    OneMoves(s, Apply(s, op), op.worker, messageId);
  }

  /** Every step of every run, overlapping or not, keeps the number of acceptances equal to the
      number of passes. */
  lemma StepKeepsLaw(s: State, op: Op, messageId: Id)
    requires Enabled(s, op) && Acceptances(s.posts, messageId) == Passes(s, messageId)
    ensures Acceptances(Apply(s, op).posts, messageId) == Passes(Apply(s, op), messageId)
  {
    if op.Register? {
      NobodyMoves(s, Apply(s, op), messageId);
    } else if op.Notify? {
      NotifyStep(s, op, messageId);
    } else if IsQuiet(op) {
      QuietStep(s, op, messageId);
    } else {
      LeavingStep(s, op, messageId);
    }
  }

  /** In every reachable state, whatever overlapped and whatever stopped: the webhooks accepted for a
      message are the runs that stopped in the gap, the inbox writes that took effect, and the runs
      now in the gap. */
  lemma {:induction false} AcceptanceLaw(states: seq<State>, ops: seq<Op>, k: nat, messageId: Id)
    requires IsRun(states, ops) && k < |states|
    ensures Acceptances(states[k].posts, messageId) == Passes(states[k], messageId)
  {
    if k > 0 {
      AcceptanceLaw(states, ops, k - 1, messageId);
      assert IsStep(states[k - 1], ops[k - 1], states[k]);
      StepKeepsLaw(states[k - 1], ops[k - 1], messageId);
    }
  }

  /** So the receiver accepts at most one webhook for the message exactly when at most one run in all
      has passed, broken off in, or is in the gap. */
  lemma AtMostOneExactly(states: seq<State>, ops: seq<Op>, k: nat, messageId: Id)
    requires IsRun(states, ops) && k < |states|
    ensures Acceptances(states[k].posts, messageId) <= 1
            <==> states[k].stopped[messageId] + states[k].remembered[messageId]
                 + |Rememberers(states[k], messageId)| <= 1
  {
    AcceptanceLaw(states, ops, k, messageId);
  }

  lemma InboxStep(s: State, op: Op, messageId: Id)
    requires Enabled(s, op) && (messageId in s.inbox <==> messageId in s.remembered)
    ensures messageId in Apply(s, op).inbox <==> messageId in Apply(s, op).remembered
  {
  }

  /** The inbox is the set of the messages whose write took effect. */
  lemma {:induction false} InboxIsRemembered(states: seq<State>, ops: seq<Op>, k: nat, messageId: Id)
    requires IsRun(states, ops) && k < |states|
    ensures messageId in states[k].inbox <==> messageId in states[k].remembered
  {
    if k > 0 {
      InboxIsRemembered(states, ops, k - 1, messageId);
      assert IsStep(states[k - 1], ops[k - 1], states[k]);
      InboxStep(states[k - 1], ops[k - 1], messageId);
    }
  }

  // ----- runs that do not overlap

  ghost predicate Active(s: State, w: Id, messageId: Id) {
    w in s.runs && s.runs[w].messageId == Some(messageId) && !Finished(s.runs[w].stage)
  }

  /** Runs of this message do not overlap. */
  ghost predicate Serial(s: State, messageId: Id) {
    forall w, w' :: Active(s, w, messageId) && Active(s, w', messageId) ==> w == w'
  }

  /** A run that got past the inbox check is about a message that is not there. */
  ghost predicate Unseen(s: State, messageId: Id) {
    forall w :: Active(s, w, messageId) && s.runs[w].stage != ToCheckInbox ==> messageId !in s.inbox
  }

  /** Only an inbox write of this message puts it into the inbox. */
  lemma InboxGainsBy(s: State, op: Op, messageId: Id)
    requires Enabled(s, op) && messageId !in s.inbox && messageId in Apply(s, op).inbox
    ensures op.Remember? && Active(s, op.worker, messageId)
  {
  }

  /** A run that is not just starting keeps its message and never comes back from its end. */
  lemma RunBefore(s: State, op: Op, w: Id)
    requires Enabled(s, op) && w in Apply(s, op).runs && !(op.Start? && op.worker == w)
    ensures w in s.runs && Apply(s, op).runs[w].messageId == s.runs[w].messageId
    ensures Finished(s.runs[w].stage) ==> Apply(s, op).runs[w] == s.runs[w]
  {
  }

  lemma ActiveBefore(s: State, op: Op, w: Id, messageId: Id)
    requires Enabled(s, op) && Active(Apply(s, op), w, messageId) && Apply(s, op).runs[w].stage != ToCheckInbox
    ensures Active(s, w, messageId)
  {
    if !(op.Start? && op.worker == w) {
      RunBefore(s, op, w);
    }
  }

  /** Past the inbox check is who was so before, or has just looked and not found the message. */
  lemma PastCheckBefore(s: State, op: Op, w: Id, messageId: Id)
    requires Enabled(s, op) && Active(s, w, messageId) && s.runs[w].stage == ToCheckInbox
    requires Active(Apply(s, op), w, messageId) && Apply(s, op).runs[w].stage != ToCheckInbox
    ensures op == CheckInbox(w) && messageId !in s.inbox
  {
  }

  lemma StepKeepsUnseen(s: State, op: Op, messageId: Id)
    requires Enabled(s, op) && Serial(s, messageId) && Unseen(s, messageId)
    ensures Unseen(Apply(s, op), messageId)
  {
    var s' := Apply(s, op);
    forall w | Active(s', w, messageId) && s'.runs[w].stage != ToCheckInbox ensures messageId !in s'.inbox {
      ActiveBefore(s, op, w, messageId);
      if s.runs[w].stage == ToCheckInbox {
        PastCheckBefore(s, op, w, messageId);
      }
      if messageId in s'.inbox && messageId !in s.inbox {
        InboxGainsBy(s, op, messageId);
        RememberingEnds(s, op, messageId);
      }
    }
  }

  lemma RememberingEnds(s: State, op: Op, messageId: Id)
    requires Enabled(s, op) && op.Remember?
    ensures !Active(Apply(s, op), op.worker, messageId)
  {
  }

  lemma StepRemembersOnce(s: State, op: Op, messageId: Id)
    requires Enabled(s, op) && Unseen(s, messageId)
    requires messageId in s.inbox <==> messageId in s.remembered
    requires s.remembered[messageId] <= 1
    ensures Apply(s, op).remembered[messageId] <= 1
  {
    if op.Remember? && s.runs[op.worker].messageId == Some(messageId) {
      assert Active(s, op.worker, messageId);
    }
  }

  lemma {:induction false} SerialRemembersOnce(states: seq<State>, ops: seq<Op>, k: nat, messageId: Id)
    requires IsRun(states, ops) && k < |states| && forall s <- states :: Serial(s, messageId)
    ensures Unseen(states[k], messageId) && states[k].remembered[messageId] <= 1
  {
    if k > 0 {
      SerialRemembersOnce(states, ops, k - 1, messageId);
      InboxIsRemembered(states, ops, k - 1, messageId);
      assert IsStep(states[k - 1], ops[k - 1], states[k]);
      assert states[k - 1] in states;
      StepKeepsUnseen(states[k - 1], ops[k - 1], messageId);
      StepRemembersOnce(states[k - 1], ops[k - 1], messageId);
    }
  }

  lemma AtMostOneRememberer(s: State, messageId: Id)
    requires Serial(s, messageId) && Unseen(s, messageId)
    ensures |Rememberers(s, messageId)| <= 1
    ensures messageId in s.inbox ==> Rememberers(s, messageId) == {}
  {
    var all := Rememberers(s, messageId);
    forall w | w in all ensures Active(s, w, messageId) && messageId !in s.inbox {
    }
    if all != {} {
      var w :| w in all;
      assert all == {w};
    }
  }

  /** Runs of one message that do not overlap: at least once, and more than once only by as much as
      runs stopped after the receiver accepted and before the inbox entry was committed. */
  lemma DuplicatesComeFromStops(states: seq<State>, ops: seq<Op>, k: nat, messageId: Id)
    requires IsRun(states, ops) && k < |states| && forall s <- states :: Serial(s, messageId)
    ensures var s := states[k];
            && Acceptances(s.posts, messageId) <= 1 + s.stopped[messageId]
            && (messageId in s.inbox ==> Acceptances(s.posts, messageId) == 1 + s.stopped[messageId])
  {
    AcceptanceLaw(states, ops, k, messageId);
    SerialRemembersOnce(states, ops, k, messageId);
    InboxIsRemembered(states, ops, k, messageId);
    assert states[k] in states;
    AtMostOneRememberer(states[k], messageId);
  }

  // ----- two ways to a second webhook

  const PAYMENT := NewRecord(1, Terms(Money(100, RUB), "", 0, "key", "url", 0.0))

  const PAID := Completed(PAYMENT, true, 0.0)

  const OK := HttpStatus(200)

  /** The state after some run whose handlers are all among these. */
  ghost predicate Reached(states: seq<State>, ops: seq<Op>, s: State, workers: set<Id>) {
    && IsRun(states, ops) && states[|ops|] == s
    && forall x <- states :: x.runs.Keys <= workers
  }

  lemma Walk(states: seq<State>, ops: seq<Op>, s: State, workers: set<Id>, op: Op)
    returns (states': seq<State>, ops': seq<Op>)
    requires Reached(states, ops, s, workers) && Enabled(s, op) && Apply(s, op).runs.Keys <= workers
    ensures Reached(states', ops', Apply(s, op), workers)
  {
    states', ops' := states + [Apply(s, op)], ops + [op];
    forall k | 0 <= k < |ops'| ensures IsStep(states'[k], ops'[k], states'[k + 1]) {
      if k < |ops| {
        assert IsStep(states[k], ops[k], states[k + 1]);
      }
    }
  }

  /** Only payment 1 and message 7, with these handlers, webhooks and broken-off runs. */
  function Scene(payment: Record, charges: map<Id, bool>, runs: map<Id, Run>, posts: seq<Post>, stopped: multiset<Id>)
    : State
  {
    State(map[1 := payment], charges, {}, runs, posts, map[7 := 1], stopped, multiset{})
  }

  function At7(stage: Stage): Run {
    Run(1, Some(7), stage)
  }

  const SENT := Post(Payload(PAID), OK, Some(7))

  lemma FirstCheck(workers: set<Id>) returns (states: seq<State>, ops: seq<Op>)
    requires 1 in workers
    ensures Reached(states, ops, Scene(PAYMENT, map[], map[1 := At7(ToLoad)], [], multiset{}), workers)
  {
    states, ops := [Init()], [];
    states, ops := Walk(states, ops, Init(), workers, Register(PAYMENT));
    var s := Apply(Init(), Register(PAYMENT));
    states, ops := Walk(states, ops, s, workers, Start(1, 1, Some(7)));
    s := Scene(PAYMENT, map[], map[1 := At7(ToCheckInbox)], [], multiset{});
    states, ops := Walk(states, ops, s, workers, CheckInbox(1));
  }

  /** Worker 1 has found nothing in the inbox; so has worker 2, if it takes part. */
  lemma FirstChecks(workers: set<Id>) returns (states: seq<State>, ops: seq<Op>)
    requires workers == {1} || workers == {1, 2}
    ensures Reached(states, ops, Scene(PAYMENT, map[], map w | w in workers :: At7(ToLoad), [], multiset{}), workers)
  {
    states, ops := FirstCheck(workers);
    if workers == {1, 2} {
      var s := Scene(PAYMENT, map[], map[1 := At7(ToLoad)], [], multiset{});
      states, ops := Walk(states, ops, s, workers, Start(2, 1, Some(7)));
      s := Scene(PAYMENT, map[], map[1 := At7(ToLoad), 2 := At7(ToCheckInbox)], [], multiset{});
      states, ops := Walk(states, ops, s, workers, CheckInbox(2));
      assert (map w | w in workers :: At7(ToLoad)) == map[1 := At7(ToLoad), 2 := At7(ToLoad)];
    } else {
      assert (map w | w in workers :: At7(ToLoad)) == map[1 := At7(ToLoad)];
    }
  }

  lemma FirstDecides(workers: set<Id>) returns (states: seq<State>, ops: seq<Op>)
    requires workers == {1} || workers == {1, 2}
    ensures var runs := map w | w in workers :: At7(ToLoad);
            Reached(states, ops, Scene(PAYMENT, map[], runs[1 := At7(ToDecide)], [], multiset{}), workers)
  {
    states, ops := FirstChecks(workers);
    var runs := map w | w in workers :: At7(ToLoad);
    var s := Scene(PAYMENT, map[], runs, [], multiset{});
    states, ops := Walk(states, ops, s, workers, Load(1));
    s := Scene(PAYMENT, map[], runs[1 := At7(ToCheckCharge)], [], multiset{});
    states, ops := Walk(states, ops, s, workers, CheckCharge(1));
  }

  lemma FirstDraws(workers: set<Id>) returns (states: seq<State>, ops: seq<Op>)
    requires workers == {1} || workers == {1, 2}
    ensures var runs := map w | w in workers :: At7(ToLoad);
            Reached(states, ops,
                    Scene(PAYMENT, map[1 := true], runs[1 := At7(ToComplete(true))], [], multiset{}), workers)
  {
    states, ops := FirstDecides(workers);
    var runs := map w | w in workers :: At7(ToLoad);
    var s := Scene(PAYMENT, map[], runs[1 := At7(ToDecide)], [], multiset{});
    states, ops := Walk(states, ops, s, workers, Decide(1, true, Committed));
  }

  /** Worker 1 charges and completes the payment. */
  lemma FirstCharges(workers: set<Id>) returns (states: seq<State>, ops: seq<Op>)
    requires workers == {1} || workers == {1, 2}
    ensures var runs := map w | w in workers :: At7(ToLoad);
            Reached(states, ops, Scene(PAID, map[1 := true], runs[1 := At7(ToNotify(PAID))], [], multiset{}), workers)
  {
    states, ops := FirstDraws(workers);
    var runs := map w | w in workers :: At7(ToLoad);
    var s := Scene(PAYMENT, map[1 := true], runs[1 := At7(ToComplete(true))], [], multiset{});
    states, ops := Walk(states, ops, s, workers, Complete(1, 0.0, Committed));
  }

  /** A run stops in the gap and the message is handled again: two webhooks, though runs of the
      message never overlap. */
  lemma StopDuplicates() returns (states: seq<State>, ops: seq<Op>)
    ensures IsRun(states, ops) && (forall s <- states :: Serial(s, 7))
    ensures Acceptances(states[|ops|].posts, 7) == 2 && states[|ops|].stopped == multiset{7}
  {
    var workers := {1};
    states, ops := FirstCharges(workers);
    var charges := map[1 := true];
    var s := Scene(PAID, charges, map[1 := At7(ToNotify(PAID))], [], multiset{});
    states, ops := Walk(states, ops, s, workers, Notify(1, OK));
    s := Scene(PAID, charges, map[1 := At7(ToRemember)], [SENT], multiset{});
    states, ops := Walk(states, ops, s, workers, End(1));
    s := Scene(PAID, charges, map[], [SENT], multiset{7});
    states, ops := Walk(states, ops, s, workers, Start(1, 1, Some(7)));
    s := Scene(PAID, charges, map[1 := At7(ToCheckInbox)], [SENT], multiset{7});
    states, ops := Walk(states, ops, s, workers, CheckInbox(1));
    s := Scene(PAID, charges, map[1 := At7(ToLoad)], [SENT], multiset{7});
    states, ops := Walk(states, ops, s, workers, Load(1));
    s := Scene(PAID, charges, map[1 := At7(ToNotify(PAID))], [SENT], multiset{7});
    states, ops := Walk(states, ops, s, workers, Notify(1, OK));
    Appended([SENT], SENT, 7);
    Appended([], SENT, 7);
  }

  /** Two runs of one message check the inbox before either has written it: two webhooks, though no
      run stops in the gap. */
  lemma OverlapDuplicates() returns (states: seq<State>, ops: seq<Op>)
    ensures IsRun(states, ops) && states[|ops|].stopped == multiset{}
    ensures Acceptances(states[|ops|].posts, 7) == 2
  {
    var workers := {1, 2};
    states, ops := FirstCharges(workers);
    var charges := map[1 := true];
    var s := Scene(PAID, charges, map[1 := At7(ToNotify(PAID)), 2 := At7(ToLoad)], [], multiset{});
    states, ops := Walk(states, ops, s, workers, Notify(1, OK));
    s := Scene(PAID, charges, map[1 := At7(ToRemember), 2 := At7(ToLoad)], [SENT], multiset{});
    states, ops := Walk(states, ops, s, workers, Load(2));
    s := Scene(PAID, charges, map[1 := At7(ToRemember), 2 := At7(ToNotify(PAID))], [SENT], multiset{});
    states, ops := Walk(states, ops, s, workers, Notify(2, OK));
    Appended([SENT], SENT, 7);
    Appended([], SENT, 7);
  }
}
