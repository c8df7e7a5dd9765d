/** What the relay adds when every worker finishes its records within the claim timeout,
    and the two ways in which less than that is not enough. */
module RelayLease {
  import opened Base
  import opened Backoff
  import opened Outbox
  import opened Relay
  import opened RelaySafety

  /** No worker still holds a record whose claim has timed out. */
  ghost predicate Timely(c: Config, s: State) {
    forall w <- s.jobs, snap <- s.jobs[w].batch ::
      snap.claimedAt.Some? && s.now < snap.claimedAt.value + c.claimTimeout
  }

  ghost predicate TimelyRun(c: Config, states: seq<State>, ops: seq<Op>) {
    IsRun(c, states, ops) && forall s <- states :: Timely(c, s)
  }

  ghost predicate Holds(s: State, w: Id, i: nat, id: Id) {
    w in s.jobs && i < |s.jobs[w].batch| && s.jobs[w].batch[i].id == id
  }

  /** No record is held twice, by two workers or by one. */
  ghost predicate Exclusive(s: State) {
    forall w, i, w', i', id :: Holds(s, w, i, id) && Holds(s, w', i', id) ==> w == w' && i == i'
  }

  /** The row a worker holds is as the worker claimed it, unless its own mark took effect
      although the commit raised. */
  ghost predicate Backed(s: State, job: Job, i: nat)
    requires i < |job.batch|
  {
    var snap := job.batch[i];
    snap.id in s.table ==>
      var row := s.table[snap.id];
      && row.retryCount == snap.retryCount
      && if i == 0 && job.stage == ToRelease(true) then row.status.Processed?
         else row.status.Processing? && row.claimedAt == snap.claimedAt
  }

  ghost predicate AllBacked(s: State) {
    forall w, i :: w in s.jobs && 0 <= i < |s.jobs[w].batch| ==> Backed(s, s.jobs[w], i)
  }

  ghost predicate Owned(s: State) {
    Exclusive(s) && AllBacked(s)
  }

  /** A row someone holds cannot be claimed while the holder is in time. */
  lemma HeldIsNotEligible(c: Config, s: State, w: Id, i: nat, id: Id, at: Time)
    requires Owned(s) && Timely(c, s) && Holds(s, w, i, id) && id in s.table && at <= s.now
    ensures !Eligible(s.table[id], at, at - c.claimTimeout)
  {
    assert Backed(s, s.jobs[w], i);
    assert s.jobs[w].batch[i] in s.jobs[w].batch;
  }

  lemma ClaimTakesIds(c: Config, s: State, op: Op)
    requires Inv(c, s) && Enabled(c, s, op) && op.Claim?
    ensures forall i: nat, id :: Holds(Apply(c, s, op), op.worker, i, id) ==> i < |op.ids| && op.ids[i] == id
  {
    forall i | 0 <= i < |op.ids| ensures s.table[op.ids[i]].id == op.ids[i] {
      assert RowOk(c, s, op.ids[i], s.table[op.ids[i]]);
    }
  }

  /** What the others hold they held before, and it is not taken. */
  lemma ClaimLeavesOthers(c: Config, s: State, op: Op, w: Id, i: nat, id: Id)
    requires Owned(s) && Timely(c, s) && Enabled(c, s, op) && op.Claim?
    requires w != op.worker && Holds(Apply(c, s, op), w, i, id)
    ensures Holds(s, w, i, id) && id !in op.ids
  {
    assert Holds(s, w, i, id);
    if id in op.ids {
      HeldIsNotEligible(c, s, w, i, id, op.at);
    }
  }

  lemma ClaimKeepsExclusive(c: Config, s: State, op: Op)
    requires Inv(c, s) && Owned(s) && Timely(c, s) && Enabled(c, s, op) && op.Claim?
    ensures Exclusive(Apply(c, s, op))
  {
    var s' := Apply(c, s, op);
    ClaimTakesIds(c, s, op);
    forall w, i, id | w != op.worker && Holds(s', w, i, id) ensures Holds(s, w, i, id) && id !in op.ids {
      ClaimLeavesOthers(c, s, op, w, i, id);
    }
    forall w, i: nat, w', i': nat, id | Holds(s', w, i, id) && Holds(s', w', i', id) ensures w == w' && i == i' {
      if w == op.worker == w' {
        assert op.ids[i] == id == op.ids[i'];
      }
    }
  }

  lemma ClaimedIsBacked(c: Config, s: State, op: Op, i: nat)
    requires Inv(c, s) && Enabled(c, s, op) && op.Claim? && i < |op.ids|
    ensures Backed(Apply(c, s, op), Apply(c, s, op).jobs[op.worker], i)
  {
    assert op.ids[i] in op.ids;
    assert RowOk(c, s, op.ids[i], s.table[op.ids[i]]);
  }

  lemma ClaimKeepsOwned(c: Config, s: State, op: Op)
    requires ValidConfig(c) && Inv(c, s) && Owned(s) && Timely(c, s) && Enabled(c, s, op) && op.Claim?
    ensures Owned(Apply(c, s, op))
  {
    var s' := Apply(c, s, op);
    ClaimKeepsExclusive(c, s, op);
    forall w, i | w in s'.jobs && 0 <= i < |s'.jobs[w].batch| ensures Backed(s', s'.jobs[w], i) {
      if w != op.worker {
        assert Backed(s, s.jobs[w], i);
        ClaimLeavesOthers(c, s, op, w, i, s'.jobs[w].batch[i].id);
      } else {
        ClaimedIsBacked(c, s, op, i);
      }
    }
  }

  /** A step by which a worker keeps or drops its current record only takes holdings away. */
  lemma WorkKeepsExclusive(c: Config, s: State, op: Op)
    requires Inv(c, s) && Exclusive(s) && Enabled(c, s, op)
    requires op.Publish? || op.Mark? || op.Release?
    ensures Exclusive(Apply(c, s, op))
  {
    var s' := Apply(c, s, op);
    var v := op.worker;
    var drop := if v !in s'.jobs || |s'.jobs[v].batch| < |s.jobs[v].batch| then 1 else 0;
    assert forall w, i: nat, id :: Holds(s', w, i, id) ==> Holds(s, w, if w == v then i + drop else i, id);
  }

  predicate IsWork(op: Op) {
    op.Publish? || op.Mark? || op.Release?
  }

  /** The record a worker is handling. */
  function Current(s: State, w: Id): Id
    requires w in s.jobs && s.jobs[w].batch != []
  {
    s.jobs[w].batch[0].id
  }

  lemma WorkTouchesOneRow(c: Config, s: State, op: Op, id: Id)
    requires Enabled(c, s, op) && IsWork(op) && id != Current(s, op.worker)
    ensures id in Apply(c, s, op).table <==> id in s.table
    ensures id in s.table ==> Apply(c, s, op).table[id] == s.table[id]
  {
  }

  /** Records stay where they are, but for those of a worker who goes on to the next. */
  lemma WorkMovesRecords(c: Config, s: State, op: Op, w: Id, i: nat) returns (k: nat)
    requires Enabled(c, s, op) && IsWork(op)
    requires var s' := Apply(c, s, op); w in s'.jobs && i < |s'.jobs[w].batch|
    ensures w in s.jobs && k < |s.jobs[w].batch| && Apply(c, s, op).jobs[w].batch[i] == s.jobs[w].batch[k]
    ensures w != op.worker ==> Apply(c, s, op).jobs[w] == s.jobs[w] && k == i
    ensures k == i || k == i + 1
    ensures k == i + 1 ==> Apply(c, s, op).jobs[w].stage == ToPublish
  {
    var batch, batch' := s.jobs[op.worker].batch, Apply(c, s, op).jobs[w].batch;
    k := if w == op.worker && |batch'| < |batch| then i + 1 else i;
  }

  lemma HeadStaysBacked(c: Config, s: State, op: Op)
    requires Inv(c, s) && Owned(s) && Enabled(c, s, op) && IsWork(op)
    requires var s' := Apply(c, s, op);
             op.worker in s'.jobs && s'.jobs[op.worker].batch == s.jobs[op.worker].batch
    ensures Backed(Apply(c, s, op), Apply(c, s, op).jobs[op.worker], 0)
  {
    assert Backed(s, s.jobs[op.worker], 0);
  }

  lemma WorkKeepsBacked(c: Config, s: State, op: Op, w: Id, i: nat)
    requires Inv(c, s) && Owned(s) && Enabled(c, s, op) && IsWork(op)
    requires var s' := Apply(c, s, op); w in s'.jobs && i < |s'.jobs[w].batch|
    ensures Backed(Apply(c, s, op), Apply(c, s, op).jobs[w], i)
  {
    var s' := Apply(c, s, op);
    var k := WorkMovesRecords(c, s, op, w, i);
    assert Backed(s, s.jobs[w], k);
    if w == op.worker && k == 0 {
      HeadKept(c, s, op);
      HeadStaysBacked(c, s, op);
    } else {
      assert Holds(s, op.worker, 0, Current(s, op.worker)) && Holds(s, w, k, s.jobs[w].batch[k].id);
      WorkTouchesOneRow(c, s, op, s.jobs[w].batch[k].id);
    }
  }

  lemma HeadKept(c: Config, s: State, op: Op)
    requires Inv(c, s) && Owned(s) && Enabled(c, s, op) && IsWork(op)
    requires var s' := Apply(c, s, op);
             op.worker in s'.jobs && s'.jobs[op.worker].batch != []
             && s'.jobs[op.worker].batch[0] == s.jobs[op.worker].batch[0]
    ensures Apply(c, s, op).jobs[op.worker].batch == s.jobs[op.worker].batch
  {
    var batch := s.jobs[op.worker].batch;
    assert Holds(s, op.worker, 0, batch[0].id);
    if |batch| > 1 {
      assert Holds(s, op.worker, 1, batch[1].id);
    }
  }

  lemma WorkKeepsOwned(c: Config, s: State, op: Op)
    requires Inv(c, s) && Owned(s) && Enabled(c, s, op)
    requires op.Publish? || op.Mark? || op.Release?
    ensures Owned(Apply(c, s, op))
  {
    WorkKeepsExclusive(c, s, op);
    var s' := Apply(c, s, op);
    forall w, i | w in s'.jobs && 0 <= i < |s'.jobs[w].batch| ensures Backed(s', s'.jobs[w], i) {
      WorkKeepsBacked(c, s, op, w, i);
    }
  }

  lemma PassiveKeepsOwned(c: Config, s: State, op: Op)
    requires Inv(c, s) && Owned(s) && Enabled(c, s, op) && (op.Tick? || op.Insert? || op.Crash? || op.Purge?)
    ensures Owned(Apply(c, s, op))
  {
    var s' := Apply(c, s, op);
    assert forall w, i, id :: Holds(s', w, i, id) ==> Holds(s, w, i, id);
    forall w, i | w in s'.jobs && 0 <= i < |s'.jobs[w].batch| ensures Backed(s', s'.jobs[w], i) {
      assert Backed(s, s.jobs[w], i);
      assert SnapshotOk(c, s, s.jobs[w].batch[i]);
    }
  }

  lemma StepKeepsOwned(c: Config, s: State, op: Op)
    requires ValidConfig(c) && Inv(c, s) && Owned(s) && Timely(c, s) && Enabled(c, s, op)
    ensures Owned(Apply(c, s, op))
  {
    if op.Claim? {
      ClaimKeepsOwned(c, s, op);
    } else if IsWork(op) {
      WorkKeepsOwned(c, s, op);
    } else {
      PassiveKeepsOwned(c, s, op);
    }
  }

  lemma StaysOwned(c: Config, states: seq<State>, ops: seq<Op>, k: nat)
    requires ValidConfig(c) && TimelyRun(c, states, ops) && k < |ops| && Owned(states[k])
    ensures Owned(states[k + 1])
  {
    ReachableInv(c, states, ops, k);
    assert IsStep(c, states[k], ops[k], states[k + 1]);
    assert Timely(c, states[k]);
    StepKeepsOwned(c, states[k], ops[k]);
  }

  lemma TimelyOwned(c: Config, states: seq<State>, ops: seq<Op>, k: nat)
    requires ValidConfig(c) && TimelyRun(c, states, ops) && k < |states|
    ensures Inv(c, states[k]) && Owned(states[k])
  {
    ReachableInv(c, states, ops, k);
    for i := 0 to k
      invariant Owned(states[i])
    {
      StaysOwned(c, states, ops, i);
    }
  }

  /** In a timely run a record has one holder at a time. */
  lemma OneHolder(c: Config, states: seq<State>, ops: seq<Op>, k: nat, w: Id, i: nat, w': Id, i': nat, id: Id)
    requires ValidConfig(c) && TimelyRun(c, states, ops) && k < |states|
    requires Holds(states[k], w, i, id) && Holds(states[k], w', i', id)
    ensures w == w' && i == i'
  {
    TimelyOwned(c, states, ops, k);
  }

  /** The step releases the record with this id, after a failed delivery. */
  ghost predicate RecordsFailure(c: Config, s: State, op: Op, id: Id) {
    op.Release? && Enabled(c, s, op) && s.jobs[op.worker].batch[0].id == id
  }

  /** The releasing worker had in fact marked the row: the marking commit raised after taking effect. */
  ghost predicate AfterAmbiguousMark(c: Config, s: State, op: Op, id: Id) {
    RecordsFailure(c, s, op, id) && s.jobs[op.worker].stage == ToRelease(true)
  }

  /** The whole history of a row, step by step, in a timely run. FAILED is final. PROCESSED is left
      exactly when its own publisher releases it after a marking commit that raised after taking
      effect. The retry count goes up by one for each recorded failure and changes in no other way. */
  lemma TimelyRowHistory(c: Config, states: seq<State>, ops: seq<Op>, k: nat, id: Id)
    requires ValidConfig(c) && TimelyRun(c, states, ops) && k < |ops|
    requires id in states[k].table && id in states[k + 1].table
    ensures var row, row' := states[k].table[id], states[k + 1].table[id];
            && (row.status.Failed? ==> row' == row)
            && (row.status.Processed? ==> (row' != row <==> AfterAmbiguousMark(c, states[k], ops[k], id)))
            && row'.retryCount ==
                 row.retryCount + if RecordsFailure(c, states[k], ops[k], id) then 1 else 0
  {
    TimelyOwned(c, states, ops, k);
    var s, op, s' := states[k], ops[k], states[k + 1];
    assert IsStep(c, s, op, s');
    if op.Mark? || op.Release? {
      assert Backed(s, s.jobs[op.worker], 0);
      assert JobOk(c, s, s.jobs[op.worker]);
      assert s.table[id].id == id;
    }
    if RecordsFailure(c, s, op, id) {
      var (status, availableAt) := Verdict(c, Attempts(s, op.worker), op.at, op.draw);
      assert s'.table[id] == Released(s.table[id], status, Attempts(s, op.worker), availableAt);
    }
  }


  ghost predicate NoAmbiguousMark(ops: seq<Op>) {
    forall op <- ops :: op.Mark? ==> !op.commit.CommittedButRaised?
  }

  lemma {:induction false} NobodyMarkedAmbiguously(c: Config, states: seq<State>, ops: seq<Op>, k: nat)
    requires IsRun(c, states, ops) && NoAmbiguousMark(ops) && k < |states|
    ensures forall w <- states[k].jobs :: states[k].jobs[w].stage != ToRelease(true)
  {
    if k > 0 {
      NobodyMarkedAmbiguously(c, states, ops, k - 1);
      assert IsStep(c, states[k - 1], ops[k - 1], states[k]);
      assert ops[k - 1] in ops;
    }
  }

  lemma FinalRowStep(c: Config, states: seq<State>, ops: seq<Op>, k: nat, id: Id)
    requires ValidConfig(c) && TimelyRun(c, states, ops) && NoAmbiguousMark(ops) && k < |ops|
    requires id in states[k].table && !Pending(states[k].table[id])
    ensures if id in states[k + 1].table then states[k + 1].table[id] == states[k].table[id]
            else id in states[k + 1].deleted
  {
    assert IsStep(c, states[k], ops[k], states[k + 1]);
    NobodyMarkedAmbiguously(c, states, ops, k);
    if id in states[k + 1].table {
      TimelyRowHistory(c, states, ops, k, id);
    }
  }

  lemma DeletedStep(c: Config, states: seq<State>, ops: seq<Op>, k: nat, id: Id)
    requires ValidConfig(c) && IsRun(c, states, ops) && k < |ops| && id in states[k].deleted
    ensures id !in states[k + 1].table && id in states[k + 1].deleted
  {
    assert IsStep(c, states[k], ops[k], states[k + 1]);
    ReachableInv(c, states, ops, k);
  }

  /** The row is as it was at the start, or purged. */
  ghost predicate AsBefore(s: State, id: Id, row: Row) {
    if id in s.table then s.table[id] == row else id in s.deleted
  }

  lemma StaysAsBefore(c: Config, states: seq<State>, ops: seq<Op>, k: nat, id: Id, row: Row)
    requires ValidConfig(c) && TimelyRun(c, states, ops) && NoAmbiguousMark(ops) && k < |ops|
    requires !Pending(row) && AsBefore(states[k], id, row)
    ensures AsBefore(states[k + 1], id, row)
  {
    if id in states[k].table {
      FinalRowStep(c, states, ops, k, id);
    } else {
      DeletedStep(c, states, ops, k, id);
    }
  }

  /** So in a timely run without ambiguous marks PROCESSED and FAILED rows never change again;
      all that can happen to them is the purge, from which no row comes back. */
  lemma FinalRowsStay(c: Config, states: seq<State>, ops: seq<Op>, j: nat, k: nat, id: Id)
    requires ValidConfig(c) && TimelyRun(c, states, ops) && NoAmbiguousMark(ops) && j <= k < |states|
    requires id in states[j].table && !Pending(states[j].table[id])
    ensures if id in states[k].table then states[k].table[id] == states[j].table[id] else id in states[k].deleted
  {
    var row := states[j].table[id];
    for i := j to k
      invariant AsBefore(states[i], id, row)
    {
      StaysAsBefore(c, states, ops, i, id, row);
    }
  }

  /** Two workers, three attempts, a ten second lease. */
  const PLAIN := Config(1, 3, 10.0, 100.0, Schedule(1.0, 4.0), false)

  const SNAPSHOT := Claimed(NewRow(7, 1, 0.0), 0.0)

  /** Ends with a step that turns a PROCESSED row back into a NEW one. */
  ghost predicate ReopensRow(states: seq<State>, ops: seq<Op>) {
    && IsRun(PLAIN, states, ops) && |ops| > 0
    && var s, s' := states[|ops| - 1], states[|ops|];
       && 7 in s.table && s.table[7].status.Processed?
       && 7 in s'.table && s'.table[7].status.New?
  }

  lemma Extend(states: seq<State>, ops: seq<Op>, op: Op) returns (next: State)
    requires IsRun(PLAIN, states, ops) && Enabled(PLAIN, states[|ops|], op)
    ensures next == Apply(PLAIN, states[|ops|], op)
    ensures IsRun(PLAIN, states + [next], ops + [op])
  {
    next := Apply(PLAIN, states[|ops|], op);
  }

  /** A worker has claimed row 7 at time 0 and stands at the given stage. */
  lemma ClaimedRun(published: PublishOutcome) returns (states: seq<State>, ops: seq<Op>)
    ensures TimelyRun(PLAIN, states, ops)
    ensures var stage := if published.Confirmed? then ToMark else ToRelease(false);
            states[|ops|] == State(
              0.0, map[7 := SNAPSHOT], map[1 := Job([SNAPSHOT], stage)], map[7 := 1],
              if published.NotAccepted? then {} else {7}, map[])
    ensures forall op <- ops :: !op.Mark?
  {
    ops := [Insert(7, 1, 0.0), Claim(1, [7], 0.0), Publish(1, published)];
    var s1 := Apply(PLAIN, Init(0.0), ops[0]);
    var s2 := Apply(PLAIN, s1, ops[1]);
    assert s2.jobs[1].batch == [SNAPSHOT];
    states := [Init(0.0), s1, s2, Apply(PLAIN, s2, ops[2])];
  }

  /** An ambiguous marking commit makes the worker release, in time, what it has published. */
  lemma AmbiguousMarkReopensRow() returns (states: seq<State>, ops: seq<Op>)
    ensures ReopensRow(states, ops) && TimelyRun(PLAIN, states, ops)
  {
    states, ops := ClaimedRun(Confirmed);
    var mark, release := Mark(1, 0.0, CommittedButRaised), Release(1, 0.0, 0.0);
    var marked := Extend(states, ops, mark);
    var released := Extend(states + [marked], ops + [mark], release);
    states, ops := states + [marked] + [released], ops + [mark] + [release];
  }

  /** Worker 1 failed to publish row 7 and still has to release it; worker 2 has taken it over. */
  lemma StolenRun() returns (states: seq<State>, ops: seq<Op>)
    ensures IsRun(PLAIN, states, ops) && NoAmbiguousMark(ops)
    ensures states[|ops|] == State(
              10.0, map[7 := Claimed(SNAPSHOT, 10.0)],
              map[1 := Job([SNAPSHOT], ToRelease(false)), 2 := Job([Claimed(SNAPSHOT, 10.0)], ToPublish)],
              map[7 := 1], {}, map[])
  {
    states, ops := ClaimedRun(NotAccepted);
    var tick, claim := Tick(10.0), Claim(2, [7], 10.0);
    var late := Extend(states, ops, tick);
    var stolen := Extend(states + [late], ops + [tick], claim);
    assert stolen.jobs[2].batch == [Claimed(SNAPSHOT, 10.0)];
    states, ops := states + [late] + [stolen], ops + [tick] + [claim];
  }

  /** A worker past its lease reopens a row that another worker has published: without timeliness
      TimelyRowHistory fails even when every commit either succeeds or has no effect. */
  lemma LateReleaseReopensRow() returns (states: seq<State>, ops: seq<Op>)
    ensures ReopensRow(states, ops) && NoAmbiguousMark(ops)
  {
    states, ops := StolenRun();
    var publish, mark, release := Publish(2, Confirmed), Mark(2, 10.0, Committed), Release(1, 10.0, 0.0);
    var published := Extend(states, ops, publish);
    var marked := Extend(states + [published], ops + [publish], mark);
    assert marked.jobs == map[1 := Job([SNAPSHOT], ToRelease(false))];
    var released := Extend(states + [published] + [marked], ops + [publish] + [mark], release);
    states, ops := states + [published] + [marked] + [released], ops + [publish] + [mark] + [release];
  }
}
