/** The outbox relay as a step machine: any number of publisher workers over one table.

    One committed unit of work is one step. Claimed snapshots survive between steps, a worker may
    crash between any two, `publish` and the marking commit have their ambiguous outcomes, and
    neither marking nor releasing checks who owns the row. Every timestamp written is a clock
    reading taken at some moment before the step that commits it. */
module Relay {
  import opened Base
  import opened Backoff
  import opened Outbox

  datatype Config = Config(
    batchSize: nat,
    maxAttempts: nat,
    claimTimeout: Time,
    retention: Time,
    retry: Schedule,
    useJitter: bool)

  predicate ValidConfig(c: Config) {
    c.maxAttempts >= 1 && 0.0 <= c.claimTimeout && 0.0 <= c.retention && ValidSchedule(c.retry)
  }

  /** Where a worker stands with its current record. `marked` says that the mark took effect
      although its commit raised. */
  datatype Stage = ToPublish | ToMark | ToRelease(marked: bool)

  /** The snapshots a worker still has to handle, the current one first. */
  datatype Job = Job(batch: seq<Row>, stage: Stage)

  datatype Deleted = Deleted(row: Row, cutoff: Time)

  datatype State = State(
    now: Time,
    table: Table,
    jobs: map<Id, Job>,          // busy workers
    born: map<Id, Id>,           // every outbox id ever inserted, with its payment
    accepted: set<Id>,           // outbox ids whose message the broker has taken
    deleted: map<Id, Deleted>)   // rows removed by the purge

  function Init(now: Time): State {
    State(now, map[], map[], map[], {}, map[])
  }

  datatype Op =
    | Tick(to: Time)
    | Insert(id: Id, paymentId: Id, createdAt: Time)
    | Claim(worker: Id, ids: seq<Id>, at: Time)
    | Publish(worker: Id, published: PublishOutcome)
    | Mark(worker: Id, at: Time, commit: CommitOutcome)
    | Release(worker: Id, at: Time, draw: real)
    | Crash(worker: Id)
    | Purge(expired: set<Id>, at: Time)

  predicate Distinct(ids: seq<Id>) {
    forall i, j :: 0 <= i < j < |ids| ==> ids[i] != ids[j]
  }

  function RetryDelay(c: Config, attempts: nat, draw: real): Option<real> {
    DelayFor(c.retry, attempts, if c.useJitter then Some(draw) else None)
  }

  predicate Enabled(c: Config, s: State, op: Op) {
    match op
    case Tick(to) => s.now <= to
    case Insert(id, paymentId, createdAt) => id !in s.born && createdAt <= s.now
    case Claim(w, ids, at) =>
      && w !in s.jobs && at <= s.now
      && 0 < |ids| <= c.batchSize && Distinct(ids)
      && (forall id <- ids :: id in s.table && Eligible(s.table[id], at, at - c.claimTimeout))
    case Publish(w, outcome) => w in s.jobs && s.jobs[w].batch != [] && s.jobs[w].stage.ToPublish?
    case Mark(w, at, outcome) =>
      w in s.jobs && s.jobs[w].batch != [] && s.jobs[w].stage.ToMark? && at <= s.now
    case Release(w, at, draw) =>
      && w in s.jobs && s.jobs[w].batch != [] && s.jobs[w].stage.ToRelease? && at <= s.now && IsDraw(draw)
      // an overflowing delay raises out of the batch, which is a Crash
      && (Attempts(s, w) < c.maxAttempts ==> RetryDelay(c, Attempts(s, w), draw).Some?)
    case Crash(w) => true
    case Purge(ids, at) =>
      && at <= s.now && |ids| <= c.batchSize
      && (forall id <- ids :: id in s.table && Expired(s.table[id], at - c.retention))
  }

  function Attempts(s: State, w: Id): nat
    requires w in s.jobs && s.jobs[w].batch != []
  {
    s.jobs[w].batch[0].retryCount + 1
  }

  /** `_retry_or_fail`: the status and the retry time a failed record is released with. */
  function Verdict(c: Config, attempts: nat, at: Time, draw: real): (Status, Option<Time>)
    requires attempts < c.maxAttempts ==> RetryDelay(c, attempts, draw).Some?
  {
    if attempts >= c.maxAttempts then (Failed, None)
    else (New, Some(at + RetryDelay(c, attempts, draw).value))
  }

  /** The worker goes on with the next record, or becomes idle. */
  function Advance(s: State, w: Id): map<Id, Job>
    requires w in s.jobs && s.jobs[w].batch != []
  {
    var rest := s.jobs[w].batch[1..];
    if rest == [] then s.jobs - {w} else s.jobs[w := Job(rest, ToPublish)]
  }

  function SetStage(s: State, w: Id, stage: Stage): map<Id, Job>
    requires w in s.jobs
  {
    s.jobs[w := Job(s.jobs[w].batch, stage)]
  }

  function Apply(c: Config, s: State, op: Op): State
    requires Enabled(c, s, op)
  {
    match op
    case Tick(to) => s.(now := to)
    case Insert(id, paymentId, createdAt) =>
      s.(table := s.table[id := NewRow(id, paymentId, createdAt)], born := s.born[id := paymentId])
    case Claim(w, ids, at) =>
      // a claim whose commit raises after taking effect is this step and a Crash
      var batch := seq(|ids|, i requires 0 <= i < |ids| => Claimed(s.table[ids[i]], at));
      s.(table := ClaimRows(s.table, (set id | id in ids), at), jobs := s.jobs[w := Job(batch, ToPublish)])
    case Publish(w, outcome) =>
      var id := s.jobs[w].batch[0].id;
      s.(accepted := if outcome.NotAccepted? then s.accepted else s.accepted + {id},
         jobs := SetStage(s, w, if outcome.Confirmed? then ToMark else ToRelease(false)))
    case Mark(w, at, outcome) =>
      var id := s.jobs[w].batch[0].id;
      s.(table := if TookEffect(outcome) then MarkRow(s.table, id, at) else s.table,
         jobs := if outcome.Committed? then Advance(s, w)
                 else SetStage(s, w, ToRelease(outcome.CommittedButRaised?)))
    case Release(w, at, draw) =>
      // a release whose commit raises escapes the loop: this step and a Crash, or just a Crash
      var id := s.jobs[w].batch[0].id;
      var (status, availableAt) := Verdict(c, Attempts(s, w), at, draw);
      s.(table := ReleaseRow(s.table, id, status, Attempts(s, w), availableAt), jobs := Advance(s, w))
    case Crash(w) => s.(jobs := s.jobs - {w})
    case Purge(ids, at) =>
      s.(table := s.table - ids,
         deleted := s.deleted + map id | id in ids :: Deleted(s.table[id], at - c.retention))
  }

  /** A finite run: states[k + 1] comes from states[k] by ops[k]. */
  ghost predicate IsRun(c: Config, states: seq<State>, ops: seq<Op>) {
    && |states| == |ops| + 1
    && states[0] == Init(states[0].now)
    && forall k :: 0 <= k < |ops| ==> IsStep(c, states[k], ops[k], states[k + 1])
  }

  ghost predicate IsStep(c: Config, s: State, op: Op, s': State) {
    Enabled(c, s, op) && s' == Apply(c, s, op)
  }
}
