/** What the relay writes into a row, field by field, and when the row may be taken next: the lease, the
    retry wait and the retention, measured in runs from the clock readings of the steps. */
module RelayTimes {
  import opened Base
  import opened Backoff
  import opened Outbox
  import opened Relay
  import opened RelaySafety

  // ----- what a step writes

  /** A new row has never been tried and waits for nothing. */
  lemma InsertWrites(c: Config, s: State, op: Op)
    requires Enabled(c, s, op) && op.Insert?
    ensures var row := Apply(c, s, op).table[op.id];
            && row.status.New? && row.retryCount == 0 && row.id == op.id && row.paymentId == op.paymentId
            && row.createdAt == op.createdAt
            && row.availableAt.None? && row.claimedAt.None? && row.publishedAt.None?
  {
  }

  /** A claim stamps each row with its own clock reading, changes nothing that outlives the claim, and
      hands the worker exactly the rows it wrote. */
  lemma ClaimWrites(c: Config, s: State, op: Op, i: nat)
    requires Inv(c, s) && Enabled(c, s, op) && op.Claim? && i < |op.ids|
    ensures var s' := Apply(c, s, op);
            && op.ids[i] in s.table && op.ids[i] in s'.table && op.worker in s'.jobs
            && var row, row' := s.table[op.ids[i]], s'.table[op.ids[i]];
               && row'.status.Processing? && row'.claimedAt == Some(op.at) && row'.availableAt.None?
               && (row'.id, row'.eventType, row'.paymentId, row'.createdAt, row'.retryCount, row'.publishedAt)
                  == (row.id, row.eventType, row.paymentId, row.createdAt, row.retryCount, row.publishedAt)
               && |s'.jobs[op.worker].batch| == |op.ids| && s'.jobs[op.worker].batch[i] == row'
  {
    assert op.ids[i] in op.ids;
  }

  /** The record a worker is handling. */
  function Current(s: State, w: Id): Row
    requires w in s.jobs && s.jobs[w].batch != []
  {
    s.jobs[w].batch[0]
  }

  lemma MarkWrites(c: Config, s: State, op: Op)
    requires Enabled(c, s, op) && op.Mark? && Current(s, op.worker).id in s.table
    ensures var id := Current(s, op.worker).id;
            && id in Apply(c, s, op).table
            && var row, row' := s.table[id], Apply(c, s, op).table[id];
               if op.commit.RolledBack? then row' == row
               else
                 && row'.status.Processed? && row'.publishedAt == Some(op.at)
                 && row'.claimedAt.None? && row'.availableAt.None?
                 && (row'.id, row'.eventType, row'.paymentId, row'.createdAt, row'.retryCount)
                    == (row.id, row.eventType, row.paymentId, row.createdAt, row.retryCount)
  {
  }

  /** The wait after the n-th failed attempt: the doubled initial delay up to the cap, or, with jitter,
      between half and all of that. */
  ghost predicate IsWait(c: Config, n: nat, wait: real) {
    n >= 1 &&
    var whole := Doubled(c.retry, n);
    if c.useJitter then whole / 2.0 <= wait <= whole else wait == whole
  }

  lemma RetryDelayIsWait(c: Config, n: nat, draw: real)
    requires ValidSchedule(c.retry) && IsDraw(draw) && n >= 1 && RetryDelay(c, n, draw).Some?
    ensures IsWait(c, n, RetryDelay(c, n, draw).value)
  {
    assert n < OVERFLOW_ATTEMPTS;
    UnjitteredIsDoubled(c.retry, n);
    if c.useJitter {
      JitterRange(c.retry, n, draw);
    }
  }

  /** A release counts the attempt of the snapshot; the last one fails the row, any other makes it NEW
      after the wait. */
  lemma ReleaseWrites(c: Config, s: State, op: Op) returns (wait: real)
    requires ValidConfig(c) && Enabled(c, s, op) && op.Release? && Current(s, op.worker).id in s.table
    ensures var id, attempts := Current(s, op.worker).id, Current(s, op.worker).retryCount + 1;
            && id in Apply(c, s, op).table
            && var row, row' := s.table[id], Apply(c, s, op).table[id];
               && row'.retryCount == attempts && row'.claimedAt.None?
               && (attempts >= c.maxAttempts ==> row'.status.Failed? && row'.availableAt.None?)
               && (attempts < c.maxAttempts ==>
                     row'.status.New? && IsWait(c, attempts, wait) && row'.availableAt == Some(op.at + wait))
               && (row'.id, row'.eventType, row'.paymentId, row'.createdAt, row'.publishedAt)
                  == (row.id, row.eventType, row.paymentId, row.createdAt, row.publishedAt)
  {
    var attempts := Current(s, op.worker).retryCount + 1;
    wait := 0.0;
    if attempts < c.maxAttempts {
      RetryDelayIsWait(c, attempts, op.draw);
      wait := RetryDelay(c, attempts, op.draw).value;
    }
  }

  /** The step is about this row. */
  predicate Touches(s: State, op: Op, id: Id) {
    match op
    case Insert(i, _, _) => i == id
    case Claim(_, ids, _) => id in ids
    case Mark(w, _, _) => w in s.jobs && s.jobs[w].batch != [] && s.jobs[w].batch[0].id == id
    case Release(w, _, _) => w in s.jobs && s.jobs[w].batch != [] && s.jobs[w].batch[0].id == id
    case Purge(ids, _) => id in ids
    case _ => false
  }

  lemma OthersRest(c: Config, s: State, op: Op, id: Id)
    requires Enabled(c, s, op) && id in s.table && !Touches(s, op, id)
    ensures id in Apply(c, s, op).table && Apply(c, s, op).table[id] == s.table[id]
  {
  }

  // ----- when a step is possible

  /** An idle worker can claim a row at t exactly when it is NEW and its retry time, if any, has come, or
      a claim of it is at least the claim timeout old. */
  lemma ClaimableExactly(c: Config, s: State, w: Id, id: Id, t: Time)
    requires w !in s.jobs && id in s.table && t <= s.now && c.batchSize >= 1
    ensures Enabled(c, s, Claim(w, [id], t)) <==>
              var row := s.table[id];
              || (row.status.New? && (row.availableAt.Some? ==> row.availableAt.value <= t))
              || (row.status.Processing? && row.claimedAt.Some? && row.claimedAt.value + c.claimTimeout <= t)
  {
    assert id in [id];
  }

  /** A row can be purged at t exactly when it was published longer ago than the retention period. */
  lemma PurgeableExactly(c: Config, s: State, id: Id, t: Time)
    requires id in s.table && t <= s.now && c.batchSize >= 1
    ensures Enabled(c, s, Op.Purge({id}, t)) <==>
              var row := s.table[id];
              row.status.Processed? && row.publishedAt.Some? && row.publishedAt.value + c.retention < t
  {
    assert id in {id};
  }

  // ----- in runs

  /** Nobody touches the row in the steps from j up to k. */
  ghost predicate Rests(states: seq<State>, ops: seq<Op>, j: nat, k: nat, id: Id)
    requires j <= k <= |ops| < |states|
  {
    forall i :: j <= i < k ==> !Touches(states[i], ops[i], id)
  }

  lemma RestingStep(c: Config, states: seq<State>, ops: seq<Op>, k: nat, id: Id)
    requires IsRun(c, states, ops) && k < |ops| && id in states[k].table && !Touches(states[k], ops[k], id)
    ensures id in states[k + 1].table && states[k + 1].table[id] == states[k].table[id]
  {
    assert IsStep(c, states[k], ops[k], states[k + 1]);
    OthersRest(c, states[k], ops[k], id);
  }

  lemma {:induction false} RestingRow(c: Config, states: seq<State>, ops: seq<Op>, j: nat, k: nat, id: Id)
    requires IsRun(c, states, ops) && j <= k < |states| && id in states[j].table && Rests(states, ops, j, k, id)
    ensures id in states[k].table && states[k].table[id] == states[j].table[id]
  {
    if j < k {
      RestingRow(c, states, ops, j, k - 1, id);
      RestingStep(c, states, ops, k - 1, id);
    }
  }

  /** Nobody marks or releases the row in the steps from j up to k; it may be claimed. */
  ghost predicate Unsettled(states: seq<State>, ops: seq<Op>, j: nat, k: nat, id: Id)
    requires j <= k <= |ops| < |states|
  {
    forall i :: j <= i < k && Touches(states[i], ops[i], id) ==> ops[i].Claim?
  }

  /** The row is under a claim made no earlier than `at`. */
  ghost predicate Leased(s: State, id: Id, at: Time) {
    id in s.table && s.table[id].status.Processing? && s.table[id].claimedAt.Some? && at <= s.table[id].claimedAt.value
  }

  lemma ClaimLeases(c: Config, s: State, op: Op, id: Id)
    requires Inv(c, s) && Enabled(c, s, op) && op.Claim? && id in op.ids
    ensures id in Apply(c, s, op).table && Apply(c, s, op).table[id].claimedAt == Some(op.at)
    ensures Leased(Apply(c, s, op), id, op.at)
  {
    var i :| 0 <= i < |op.ids| && op.ids[i] == id;
    ClaimWrites(c, s, op, i);
  }

  /** A claim of a row under lease comes after the lease. */
  lemma NextClaimWaits(c: Config, s: State, op: Op, id: Id, at: Time)
    requires ValidConfig(c) && Enabled(c, s, op) && op.Claim? && id in op.ids && Leased(s, id, at)
    ensures at + c.claimTimeout <= op.at
  {
  }

  lemma {:induction false} LeaseLasts(c: Config, states: seq<State>, ops: seq<Op>, j: nat, k: nat, id: Id, at: Time)
    requires ValidConfig(c) && IsRun(c, states, ops) && j <= k < |states| && Leased(states[j], id, at)
    requires Unsettled(states, ops, j, k, id)
    ensures Leased(states[k], id, at)
  {
    if j < k {
      LeaseLasts(c, states, ops, j, k - 1, id, at);
      ReachableInv(c, states, ops, k - 1);
      var s, op := states[k - 1], ops[k - 1];
      assert IsStep(c, s, op, states[k]);
      if Touches(s, op, id) {
        NextClaimWaits(c, s, op, id, at);
        ClaimLeases(c, s, op, id);
      } else {
        OthersRest(c, s, op, id);
      }
    }
  }

  /** In every run: after a row was claimed at one clock reading, and until somebody marks or releases
      it, it is claimed again only at a reading at least the claim timeout later. */
  lemma LeaseHolds(c: Config, states: seq<State>, ops: seq<Op>, j: nat, k: nat, id: Id)
    requires ValidConfig(c) && IsRun(c, states, ops) && j < k < |ops|
    requires ops[j].Claim? && id in ops[j].ids && ops[k].Claim? && id in ops[k].ids
    requires Unsettled(states, ops, j + 1, k, id)
    ensures ops[j].at + c.claimTimeout <= ops[k].at
  {
    ReachableInv(c, states, ops, j);
    assert IsStep(c, states[j], ops[j], states[j + 1]) && IsStep(c, states[k], ops[k], states[k + 1]);
    ClaimLeases(c, states[j], ops[j], id);
    LeaseLasts(c, states, ops, j + 1, k, id, ops[j].at);
    NextClaimWaits(c, states[k], ops[k], id, ops[j].at);
  }

  /** And if nobody touches it, an idle worker can claim it again at t exactly from then on. */
  lemma LeaseEnds(c: Config, states: seq<State>, ops: seq<Op>, j: nat, k: nat, id: Id, w: Id, t: Time)
    requires ValidConfig(c) && IsRun(c, states, ops) && j < k < |states| && c.batchSize >= 1
    requires ops[j].Claim? && id in ops[j].ids && Rests(states, ops, j + 1, k, id)
    requires w !in states[k].jobs && t <= states[k].now
    ensures Enabled(c, states[k], Claim(w, [id], t)) <==> ops[j].at + c.claimTimeout <= t
  {
    ReachableInv(c, states, ops, j);
    assert IsStep(c, states[j], ops[j], states[j + 1]);
    ClaimLeases(c, states[j], ops[j], id);
    RestingRow(c, states, ops, j + 1, k, id);
    ClaimableExactly(c, states[k], w, id, t);
  }

  /** In every run: a row released before its last attempt can be claimed again at t exactly when its wait
      is over, if nobody touches it; one released at its last attempt never. */
  lemma RetryWaits(c: Config, states: seq<State>, ops: seq<Op>, j: nat, k: nat, w: Id, t: Time)
    returns (id: Id, attempts: nat, wait: real)
    requires ValidConfig(c) && IsRun(c, states, ops) && j < k < |states| && c.batchSize >= 1
    requires ops[j].Release? && ops[j].worker in states[j].jobs && states[j].jobs[ops[j].worker].batch != []
    requires Current(states[j], ops[j].worker).id in states[j].table
    requires Rests(states, ops, j + 1, k, Current(states[j], ops[j].worker).id)
    requires w !in states[k].jobs && t <= states[k].now
    ensures id == Current(states[j], ops[j].worker).id
    ensures attempts == Current(states[j], ops[j].worker).retryCount + 1
    ensures attempts < c.maxAttempts ==>
              && IsWait(c, attempts, wait)
              && (Enabled(c, states[k], Claim(w, [id], t)) <==> ops[j].at + wait <= t)
    ensures attempts >= c.maxAttempts ==> !Enabled(c, states[k], Claim(w, [id], t))
  {
    id, attempts := Current(states[j], ops[j].worker).id, Current(states[j], ops[j].worker).retryCount + 1;
    assert IsStep(c, states[j], ops[j], states[j + 1]);
    wait := ReleaseWrites(c, states[j], ops[j]);
    RestingRow(c, states, ops, j + 1, k, id);
    ClaimableExactly(c, states[k], w, id, t);
  }

  /** In every run: a row whose mark took effect at one clock reading can be purged at t exactly when the
      retention period has passed since, if nobody touches it. */
  lemma RetentionEnds(c: Config, states: seq<State>, ops: seq<Op>, j: nat, k: nat, t: Time)
    requires ValidConfig(c) && IsRun(c, states, ops) && j < k < |states| && c.batchSize >= 1
    requires ops[j].Mark? && !ops[j].commit.RolledBack?
    requires ops[j].worker in states[j].jobs && states[j].jobs[ops[j].worker].batch != []
    requires Current(states[j], ops[j].worker).id in states[j].table
    requires Rests(states, ops, j + 1, k, Current(states[j], ops[j].worker).id) && t <= states[k].now
    ensures var id := Current(states[j], ops[j].worker).id;
            Enabled(c, states[k], Op.Purge({id}, t)) <==> ops[j].at + c.retention < t
  {
    var id := Current(states[j], ops[j].worker).id;
    assert IsStep(c, states[j], ops[j], states[j + 1]);
    MarkWrites(c, states[j], ops[j]);
    RestingRow(c, states, ops, j + 1, k, id);
    PurgeableExactly(c, states[k], id, t);
  }
}
