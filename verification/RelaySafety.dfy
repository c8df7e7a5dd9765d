/** What every interleaving of the relay keeps, however late its workers are. */
module RelaySafety {
  import opened Base
  import opened Backoff
  import opened Outbox
  import opened Relay

  /** Shape of a row: the columns that may be set in each status, and the retry bound. */
  ghost predicate WellFormed(c: Config, row: Row) {
    && (row.status.Processing? <==> row.claimedAt.Some?)
    && (row.availableAt.Some? ==> row.status.New?)
    && (row.status.New? || row.status.Processing? ==> row.retryCount < c.maxAttempts)
    && (row.status.Failed? ==> row.retryCount == c.maxAttempts)
    && row.retryCount <= c.maxAttempts
    && (row.status.Processed? ==> row.publishedAt.Some?)
  }

  ghost predicate NotAfter(t: Option<Time>, limit: Time) {
    t.Some? ==> t.value <= limit
  }

  ghost predicate RowOk(c: Config, s: State, id: Id, row: Row) {
    && row.id == id
    && id in s.born && row.paymentId == s.born[id]
    && WellFormed(c, row)
    && (row.publishedAt.Some? ==> id in s.accepted)
    && NotAfter(row.claimedAt, s.now) && NotAfter(row.publishedAt, s.now)
    && NotAfter(row.availableAt, s.now + c.retry.cap)
  }

  /** What a worker knows about a record it claimed. */
  ghost predicate SnapshotOk(c: Config, s: State, snap: Row) {
    && snap.retryCount < c.maxAttempts
    && snap.id in s.born && snap.paymentId == s.born[snap.id]
    && snap.status.Processing? && snap.claimedAt.Some? && snap.claimedAt.value <= s.now
  }

  ghost predicate JobOk(c: Config, s: State, job: Job) {
    && job.batch != []
    && (forall snap <- job.batch :: SnapshotOk(c, s, snap))
    && (job.stage == ToMark || job.stage == ToRelease(true) ==> job.batch[0].id in s.accepted)
  }

  ghost predicate DeletedOk(s: State, id: Id, d: Deleted) {
    && id in s.accepted && id in s.born && d.row.id == id
    && Expired(d.row, d.cutoff)
  }

  ghost predicate RowsOk(c: Config, s: State) {
    forall id <- s.table :: RowOk(c, s, id, s.table[id])
  }

  ghost predicate JobsOk(c: Config, s: State) {
    forall w <- s.jobs :: JobOk(c, s, s.jobs[w])
  }

  ghost predicate PurgedOk(s: State) {
    forall id <- s.deleted :: DeletedOk(s, id, s.deleted[id])
  }

  /** Every id ever inserted is in the table or purged, and only such ids are accepted. */
  ghost predicate IdsOk(s: State) {
    && s.born.Keys == s.table.Keys + s.deleted.Keys
    && s.table.Keys !! s.deleted.Keys
    && s.accepted <= s.born.Keys
  }

  ghost predicate Inv(c: Config, s: State) {
    RowsOk(c, s) && JobsOk(c, s) && PurgedOk(s) && IdsOk(s)
  }

  lemma InsertKeepsInv(c: Config, s: State, op: Op)
    requires ValidConfig(c) && Inv(c, s) && Enabled(c, s, op) && op.Insert?
    ensures Inv(c, Apply(c, s, op))
  {
    var s' := Apply(c, s, op);
    assert JobsOk(c, s') by {
      forall w | w in s'.jobs ensures JobOk(c, s', s'.jobs[w]) {
        assert JobOk(c, s, s.jobs[w]);
      }
    }
    assert IdsOk(s') by {
      assert op.id !in s.table.Keys + s.deleted.Keys;
    }
  }

  lemma ClaimKeepsRows(c: Config, s: State, op: Op)
    requires ValidConfig(c) && Inv(c, s) && Enabled(c, s, op) && op.Claim?
    ensures RowsOk(c, Apply(c, s, op))
  {
    var s' := Apply(c, s, op);
    forall id | id in s'.table ensures RowOk(c, s', id, s'.table[id]) {
      assert RowOk(c, s, id, s.table[id]);
    }
  }

  lemma ClaimKeepsJobs(c: Config, s: State, op: Op)
    requires ValidConfig(c) && Inv(c, s) && Enabled(c, s, op) && op.Claim?
    ensures JobsOk(c, Apply(c, s, op))
  {
    var s' := Apply(c, s, op);
    var job := s'.jobs[op.worker];
    assert |job.batch| == |op.ids|;
    forall snap | snap in job.batch ensures SnapshotOk(c, s', snap) {
      var i :| 0 <= i < |job.batch| && job.batch[i] == snap;
      assert RowOk(c, s, op.ids[i], s.table[op.ids[i]]);
    }
  }

  lemma ClaimKeepsInv(c: Config, s: State, op: Op)
    requires ValidConfig(c) && Inv(c, s) && Enabled(c, s, op) && op.Claim?
    ensures Inv(c, Apply(c, s, op))
  {
    ClaimKeepsRows(c, s, op);
    ClaimKeepsJobs(c, s, op);
    assert Apply(c, s, op).table.Keys == s.table.Keys;
  }

  lemma PublishKeepsInv(c: Config, s: State, op: Op)
    requires ValidConfig(c) && Inv(c, s) && Enabled(c, s, op) && op.Publish?
    ensures Inv(c, Apply(c, s, op))
  {
    HeadAndTail(c, s, op.worker);
  }

  lemma MarkKeepsRows(c: Config, s: State, op: Op)
    requires ValidConfig(c) && Inv(c, s) && Enabled(c, s, op) && op.Mark?
    ensures RowsOk(c, Apply(c, s, op)) && IdsOk(Apply(c, s, op))
  {
    HeadAndTail(c, s, op.worker);
    assert JobOk(c, s, s.jobs[op.worker]);
    assert Apply(c, s, op).table.Keys == s.table.Keys;
  }

  lemma MarkKeepsJobs(c: Config, s: State, op: Op)
    requires ValidConfig(c) && Inv(c, s) && Enabled(c, s, op) && op.Mark?
    ensures JobsOk(c, Apply(c, s, op))
  {
    HeadAndTail(c, s, op.worker);
    assert JobOk(c, s, s.jobs[op.worker]);
  }

  lemma MarkKeepsInv(c: Config, s: State, op: Op)
    requires ValidConfig(c) && Inv(c, s) && Enabled(c, s, op) && op.Mark?
    ensures Inv(c, Apply(c, s, op))
  {
    MarkKeepsRows(c, s, op);
    MarkKeepsJobs(c, s, op);
    assert Apply(c, s, op).deleted == s.deleted;
  }

  lemma HeadAndTail(c: Config, s: State, w: Id)
    requires Inv(c, s) && w in s.jobs
    ensures s.jobs[w].batch != [] && SnapshotOk(c, s, s.jobs[w].batch[0])
    ensures forall snap <- s.jobs[w].batch[1..] :: SnapshotOk(c, s, snap)
  {
    assert JobOk(c, s, s.jobs[w]);
    assert s.jobs[w].batch[0] in s.jobs[w].batch;
  }

  lemma ReleasedRowOk(c: Config, s: State, row: Row, attempts: nat, at: Time, draw: real)
    requires ValidConfig(c) && RowOk(c, s, row.id, row)
    requires at <= s.now && IsDraw(draw) && 1 <= attempts <= c.maxAttempts
    requires attempts < c.maxAttempts ==> RetryDelay(c, attempts, draw).Some?
    ensures var (status, availableAt) := Verdict(c, attempts, at, draw);
            RowOk(c, s, row.id, Released(row, status, attempts, availableAt))
  {
    DelayBounded(c.retry, attempts, if c.useJitter then Some(draw) else None);
  }

  lemma ReleaseKeepsInv(c: Config, s: State, op: Op)
    requires ValidConfig(c) && Inv(c, s) && Enabled(c, s, op) && op.Release?
    ensures Inv(c, Apply(c, s, op))
  {
    HeadAndTail(c, s, op.worker);
    var id := s.jobs[op.worker].batch[0].id;
    if id in s.table {
      assert RowOk(c, s, id, s.table[id]);
      ReleasedRowOk(c, s, s.table[id], Attempts(s, op.worker), op.at, op.draw);
    }
  }

  lemma KeysMove(all: set<Id>, kept: set<Id>, gone: set<Id>, moved: set<Id>)
    requires all == kept + gone && kept !! gone && moved <= kept
    ensures all == (kept - moved) + (gone + moved) && (kept - moved) !! (gone + moved)
  {
  }

  lemma PurgeKeepsIds(c: Config, s: State, op: Op)
    requires ValidConfig(c) && Inv(c, s) && Enabled(c, s, op) && op.Purge?
    ensures IdsOk(Apply(c, s, op))
  {
    var s' := Apply(c, s, op);
    KeysMove(s.born.Keys, s.table.Keys, s.deleted.Keys, op.expired);
    assert s'.table.Keys == s.table.Keys - op.expired;
    assert s'.deleted.Keys == s.deleted.Keys + op.expired;
  }

  lemma PurgeKeepsDeleted(c: Config, s: State, op: Op)
    requires ValidConfig(c) && Inv(c, s) && Enabled(c, s, op) && op.Purge?
    ensures PurgedOk(Apply(c, s, op))
  {
    var s' := Apply(c, s, op);
    forall id | id in s'.deleted ensures DeletedOk(s', id, s'.deleted[id]) {
      if id in op.expired {
        assert RowOk(c, s, id, s.table[id]);
      }
    }
  }

  lemma PurgeKeepsInv(c: Config, s: State, op: Op)
    requires ValidConfig(c) && Inv(c, s) && Enabled(c, s, op) && op.Purge?
    ensures Inv(c, Apply(c, s, op))
  {
    PurgeKeepsIds(c, s, op);
    PurgeKeepsDeleted(c, s, op);
    assert forall id <- Apply(c, s, op).table :: id in s.table;
  }

  lemma StepKeepsInv(c: Config, s: State, op: Op)
    requires ValidConfig(c) && Inv(c, s) && Enabled(c, s, op)
    ensures Inv(c, Apply(c, s, op))
  {
    match op
    case Insert(_, _, _) => InsertKeepsInv(c, s, op);
    case Claim(_, _, _) => ClaimKeepsInv(c, s, op);
    case Publish(_, _) => PublishKeepsInv(c, s, op);
    case Mark(_, _, _) => MarkKeepsInv(c, s, op);
    case Release(_, _, _) => ReleaseKeepsInv(c, s, op);
    case Tick(_) =>
    case Crash(_) =>
    case Purge(_, _) => PurgeKeepsInv(c, s, op);
  }

  /** Main invariant, over every run. */
  lemma {:induction false} ReachableInv(c: Config, states: seq<State>, ops: seq<Op>, k: nat)
    requires ValidConfig(c) && IsRun(c, states, ops) && k < |states|
    ensures Inv(c, states[k])
  {
    if k > 0 {
      ReachableInv(c, states, ops, k - 1);
      assert IsStep(c, states[k - 1], ops[k - 1], states[k]);
      StepKeepsInv(c, states[k - 1], ops[k - 1]);
    }
  }

  /** A row once published stays so for the rest of any run, until the purge takes it. */
  ghost predicate PublishedOrGone(s: State, id: Id) {
    if id in s.table then s.table[id].publishedAt.Some? else id in s.deleted
  }

  lemma PublishedStep(c: Config, s: State, op: Op, id: Id)
    requires Inv(c, s) && Enabled(c, s, op) && PublishedOrGone(s, id)
    ensures PublishedOrGone(Apply(c, s, op), id)
  {
  }

  lemma {:induction false} PublishedForever(
    c: Config, states: seq<State>, ops: seq<Op>, j: nat, k: nat, id: Id)
    requires ValidConfig(c) && IsRun(c, states, ops) && j <= k < |states|
    requires PublishedOrGone(states[j], id)
    ensures PublishedOrGone(states[k], id)
  {
    if j < k {
      PublishedForever(c, states, ops, j, k - 1, id);
      ReachableInv(c, states, ops, k - 1);
      assert IsStep(c, states[k - 1], ops[k - 1], states[k]);
      PublishedStep(c, states[k - 1], ops[k - 1], id);
    }
  }

  /** Late workers included: a publication time or a deletion is proof that the broker took the
      message, and the purge only ever took rows that were PROCESSED and past retention. */
  lemma PublishedMeansAccepted(c: Config, states: seq<State>, ops: seq<Op>, k: nat, id: Id)
    requires ValidConfig(c) && IsRun(c, states, ops) && k < |states|
    ensures var s := states[k];
            && (id in s.table && s.table[id].publishedAt.Some? ==> id in s.accepted)
            && (id in s.table && s.table[id].status.Processed? ==>
                  s.table[id].publishedAt.Some? && id in s.accepted)
            && (id in s.deleted ==>
                  && id in s.accepted && s.deleted[id].row.status.Processed?
                  && s.deleted[id].row.publishedAt.Some?
                  && s.deleted[id].row.publishedAt.value < s.deleted[id].cutoff)
            && (id in s.born && id !in s.accepted ==>
                  id in s.table && !s.table[id].status.Processed?)
  {
    ReachableInv(c, states, ops, k);
  }

  /** The purge cutoff really is the retention period before the purge. */
  lemma PurgeRespectsRetention(c: Config, s: State, op: Op, id: Id)
    requires ValidConfig(c) && Inv(c, s) && Enabled(c, s, op)
    requires id in s.table && id !in Apply(c, s, op).table
    ensures op.Purge? && s.table[id].publishedAt.Some? && id in s.accepted
    ensures s.table[id].publishedAt.value + c.retention < s.now
    ensures id in Apply(c, s, op).deleted && Apply(c, s, op).deleted[id].row == s.table[id]
  {
  }

  /** Every row of every reachable state has the shape of its status. */
  lemma RowsStayWellFormed(c: Config, states: seq<State>, ops: seq<Op>, k: nat, id: Id)
    requires ValidConfig(c) && IsRun(c, states, ops) && k < |states| && id in states[k].table
    ensures WellFormed(c, states[k].table[id])
  {
    ReachableInv(c, states, ops, k);
    assert RowOk(c, states[k], id, states[k].table[id]);
  }

  /** No row is stranded: whatever crashed or raised, a row that still has to be published can be
      claimed once the longest wait has passed, and at any later time, if nobody touches it. */
  lemma NoRowIsStranded(c: Config, states: seq<State>, ops: seq<Op>, k: nat, id: Id, t: Time)
    requires ValidConfig(c) && IsRun(c, states, ops) && k < |states|
    requires id in states[k].table && Pending(states[k].table[id])
    requires states[k].now + c.retry.cap <= t && states[k].now + c.claimTimeout <= t
    ensures Eligible(states[k].table[id], t, t - c.claimTimeout)
  {
    ReachableInv(c, states, ops, k);
    assert RowOk(c, states[k], id, states[k].table[id]);
  }

  /** So an idle worker that polls at such a time can take it. */
  lemma StrandedRowCanBeClaimed(c: Config, states: seq<State>, ops: seq<Op>, k: nat, id: Id, w: Id, t: Time)
    requires ValidConfig(c) && IsRun(c, states, ops) && k < |states| && c.batchSize >= 1
    requires id in states[k].table && Pending(states[k].table[id]) && w !in states[k].jobs
    requires states[k].now + c.retry.cap <= t && states[k].now + c.claimTimeout <= t
    ensures Enabled(c, states[k], Tick(t))
    ensures Enabled(c, Apply(c, states[k], Tick(t)), Claim(w, [id], t))
  {
    NoRowIsStranded(c, states, ops, k, id, t);
  }

  /** Only a claim takes a row into PROCESSING, and it waits: a NEW row for its retry time, a row in
      PROCESSING for the end of the previous lease. PROCESSED and FAILED rows are never taken. */
  lemma ClaimWaits(c: Config, s: State, op: Op, id: Id)
    requires Inv(c, s) && Enabled(c, s, op) && id in s.table && id in Apply(c, s, op).table
    requires Apply(c, s, op).table[id].status.Processing? && Apply(c, s, op).table[id] != s.table[id]
    ensures op.Claim? && op.at <= s.now && Apply(c, s, op).table[id].claimedAt == Some(op.at)
    ensures Apply(c, s, op).table[id] ==
              s.table[id].(status := Processing, claimedAt := Some(op.at), availableAt := None)
    ensures s.table[id].status.New? || s.table[id].status.Processing?
    ensures s.table[id].status.New? && s.table[id].availableAt.Some? ==> s.table[id].availableAt.value <= op.at
    ensures s.table[id].status.Processing? ==>
              s.table[id].claimedAt.Some? && s.table[id].claimedAt.value + c.claimTimeout <= op.at
  {
    if op.Claim? {
      assert id in op.ids;
    }
  }
}
