/** Why a claim may be taken as one step (src/infrastructure/persistence/repositories/outbox_queue.py):
    any number of claim transactions are open at once, each has locked the rows its query returned,
    later queries skip locked rows, and every other statement waits for them. */
module ClaimLocks {
  import opened Base
  import opened Outbox
  import opened OutboxTable
  import PublishMeaning
  import R = Relay

  /** A claim whose query has run and whose commit has not. */
  datatype Open = Open(claimed: seq<Row>, now: Time, staleBefore: Time)

  datatype State = State(table: Table, open: map<Id, Open>)

  datatype Op =
    | Query(tx: Id, now: Time, staleBefore: Time, claimed: seq<Row>)
    | Commit(tx: Id)
    | Abort(tx: Id)
    | Write(id: Id, row: Option<Row>)   // another statement inserts, updates or deletes a row

  function Locked(s: State): set<Id> {
    set tx, row | tx in s.open && row in s.open[tx].claimed :: row.id
  }

  ghost predicate Enabled(limit: nat, s: State, op: Op) {
    match op
    case Query(tx, now, staleBefore, claimed) =>
      tx !in s.open && IsClaim(s.table, limit, now, staleBefore, Locked(s), claimed)
    case Commit(tx) => tx in s.open
    case Abort(tx) => tx in s.open
    case Write(id, row) => id !in Locked(s)
  }

  function Apply(s: State, op: Op): State
    requires (op.Commit? || op.Abort?) ==> op.tx in s.open
  {
    match op
    case Query(tx, now, staleBefore, claimed) => s.(open := s.open[tx := Open(claimed, now, staleBefore)])
    case Commit(tx) =>
      var claim := s.open[tx];
      State(ClaimRows(s.table, IdsOf(claim.claimed), claim.now), s.open - {tx})
    case Abort(tx) => s.(open := s.open - {tx})
    case Write(id, row) => s.(table := if row.Some? then s.table[id := row.value] else s.table - {id})
  }

  ghost predicate IsStep(limit: nat, s: State, op: Op, s': State) {
    Enabled(limit, s, op) && s' == Apply(s, op)
  }

  /** A finite run from a table nobody is claiming from. */
  ghost predicate IsRun(limit: nat, states: seq<State>, ops: seq<Op>) {
    && |states| == |ops| + 1 && states[0].open == map[]
    && forall k :: 0 <= k < |ops| ==> IsStep(limit, states[k], ops[k], states[k + 1])
  }

  ghost predicate Apart(a: seq<Row>, b: seq<Row>) {
    forall row <- a, row' <- b :: row.id != row'.id
  }

  ghost predicate Disjoint(s: State) {
    forall a, b :: a in s.open && b in s.open && a != b ==> Apart(s.open[a].claimed, s.open[b].claimed)
  }

  /** The rows of every open claim are still as its query saw them. */
  ghost predicate Current(limit: nat, s: State) {
    forall tx <- s.open ::
      Takes(s.table, limit, s.open[tx].now, s.open[tx].staleBefore, s.open[tx].claimed)
  }

  lemma LockedRow(s: State, tx: Id, row: Row)
    requires tx in s.open && row in s.open[tx].claimed
    ensures row.id in Locked(s)
  {
  }

  lemma QueryKeepsDisjoint(limit: nat, s: State, op: Op)
    requires Disjoint(s) && Enabled(limit, s, op) && op.Query?
    ensures Disjoint(Apply(s, op))
  {
    forall tx | tx in s.open ensures Apart(s.open[tx].claimed, op.claimed) {
      forall row | row in s.open[tx].claimed ensures row.id in Locked(s) {
        LockedRow(s, tx, row);
      }
    }
  }

  lemma CommitLeavesRow(s: State, op: Op, tx: Id, row: Row)
    requires Disjoint(s) && op.Commit? && op.tx in s.open && tx != op.tx
    requires tx in s.open && row in s.open[tx].claimed && row.id in s.table
    ensures row.id in Apply(s, op).table && Apply(s, op).table[row.id] == s.table[row.id]
  {
    assert Apart(s.open[tx].claimed, s.open[op.tx].claimed);
    assert row.id !in IdsOf(s.open[op.tx].claimed);
  }

  lemma WriteLeavesRow(s: State, op: Op, tx: Id, row: Row)
    requires op.Write? && op.id !in Locked(s)
    requires tx in s.open && row in s.open[tx].claimed && row.id in s.table
    ensures row.id in Apply(s, op).table && Apply(s, op).table[row.id] == s.table[row.id]
  {
    LockedRow(s, tx, row);
  }

  lemma SameRowsTaken(t: Table, t': Table, limit: nat, now: Time, staleBefore: Time, claimed: seq<Row>)
    requires Takes(t, limit, now, staleBefore, claimed)
    requires forall row <- claimed :: row.id in t' && t'[row.id] == t[row.id]
    ensures Takes(t', limit, now, staleBefore, claimed)
  {
  }

  /** A step outside a claim leaves its rows as they are. */
  lemma OthersStayCurrent(limit: nat, s: State, op: Op, tx: Id)
    requires Disjoint(s) && Current(limit, s) && Enabled(limit, s, op) && !op.Query?
    requires tx in s.open && (op.Write? || tx != op.tx)
    ensures Takes(Apply(s, op).table, limit, s.open[tx].now, s.open[tx].staleBefore, s.open[tx].claimed)
  {
    var claim, t' := s.open[tx], Apply(s, op).table;
    forall row | row in claim.claimed ensures row.id in t' && t'[row.id] == s.table[row.id] {
      if op.Commit? {
        CommitLeavesRow(s, op, tx, row);
      } else if op.Write? {
        WriteLeavesRow(s, op, tx, row);
      }
    }
    SameRowsTaken(s.table, t', limit, claim.now, claim.staleBefore, claim.claimed);
  }

  lemma StepKeeps(limit: nat, s: State, op: Op)
    requires Disjoint(s) && Current(limit, s) && Enabled(limit, s, op)
    ensures Disjoint(Apply(s, op)) && Current(limit, Apply(s, op))
  {
    if op.Query? {
      QueryKeepsDisjoint(limit, s, op);
    } else {
      var s' := Apply(s, op);
      forall tx | tx in s'.open
        ensures Takes(s'.table, limit, s'.open[tx].now, s'.open[tx].staleBefore, s'.open[tx].claimed)
      {
        OthersStayCurrent(limit, s, op, tx);
      }
    }
  }

  lemma {:induction false} Reachable(limit: nat, states: seq<State>, ops: seq<Op>, k: nat)
    requires IsRun(limit, states, ops) && k < |states|
    ensures Disjoint(states[k]) && Current(limit, states[k])
  {
    if k > 0 {
      Reachable(limit, states, ops, k - 1);
      assert IsStep(limit, states[k - 1], ops[k - 1], states[k]);
      StepKeeps(limit, states[k - 1], ops[k - 1]);
    }
  }

  /** Claims that are open at the same time share no row, in every interleaving. */
  lemma OverlappingClaimsAreDisjoint(limit: nat, states: seq<State>, ops: seq<Op>, k: nat, a: Id, b: Id)
    requires IsRun(limit, states, ops) && k < |states|
    requires a in states[k].open && b in states[k].open && a != b
    ensures IdsOf(states[k].open[a].claimed) !! IdsOf(states[k].open[b].claimed)
  {
    Reachable(limit, states, ops, k);
    assert Apart(states[k].open[a].claimed, states[k].open[b].claimed);
  }

  /** However long a claim stays open and whatever happens meanwhile, committing it is a claim step of
      the relay machine taken at that moment, with the records its query returned. */
  lemma CommitIsAStep(c: R.Config, states: seq<State>, ops: seq<Op>, k: nat, r: R.State, w: Id)
    requires IsRun(c.batchSize, states, ops) && k < |ops| && ops[k].Commit?
    requires ops[k].tx in states[k].open
    requires var claim := states[k].open[ops[k].tx];
             claim.claimed != [] && claim.now <= r.now && claim.staleBefore == claim.now - c.claimTimeout
    requires r.table == states[k].table && w !in r.jobs
    ensures var claim := states[k].open[ops[k].tx];
            var op := R.Claim(w, PublishMeaning.IdList(claim.claimed), claim.now);
            && R.Enabled(c, r, op)
            && R.Apply(c, r, op) == r.(table := states[k + 1].table, jobs := r.jobs[w := R.Job(claim.claimed, R.ToPublish)])
  {
    Reachable(c.batchSize, states, ops, k);
    assert IsStep(c.batchSize, states[k], ops[k], states[k + 1]);
    var claim := states[k].open[ops[k].tx];
    PublishMeaning.ClaimIsAStep(c, r, w, claim.now, claim.claimed);
  }
}
