/** What a batch run without interference achieves, and that it is a run of the relay machine. */
module PublishMeaning {
  import opened Base
  import opened Backoff
  import opened Outbox
  import opened OutboxTable
  import opened Relay
  import opened PublishOutbox
  import RS = RelaySafety
  import RT = RelayTimes

  /** The fate of a record's row: published; or one more recorded failure, after which it is NEW
      again at a later time or, at the attempt limit, FAILED. */
  ghost predicate Settled(c: Config, record: Row, a: Attempt, row: Row, row': Row) {
    if a.published.Confirmed? && a.mark.Committed? then
      && row'.status.Processed? && row'.publishedAt == Some(a.markAt)
      && row'.claimedAt.None? && row'.availableAt.None? && row'.retryCount == row.retryCount
      && (row'.id, row'.eventType, row'.paymentId, row'.createdAt)
         == (row.id, row.eventType, row.paymentId, row.createdAt)
    else
      && row'.retryCount == record.retryCount + 1
      && row'.claimedAt.None?
      && (record.retryCount + 1 >= c.maxAttempts ==> row'.status.Failed? && row'.availableAt.None?)
      && (record.retryCount + 1 < c.maxAttempts ==>
            && row'.status.New? && row'.availableAt.Some?
            && RT.IsWait(c, record.retryCount + 1, row'.availableAt.value - a.releaseAt)
            && a.releaseAt <= row'.availableAt.value <= a.releaseAt + c.retry.cap)
      && row'.publishedAt == (if a.published.Confirmed? && TookEffect(a.mark) then Some(a.markAt) else row.publishedAt)
      && (row'.id, row'.eventType, row'.paymentId, row'.createdAt)
         == (row.id, row.eventType, row.paymentId, row.createdAt)
  }

  lemma {:induction false} Untouched(c: Config, p: Progress, records: seq<Row>, script: seq<Attempt>, id: Id)
    requires |records| <= |script| && forall record <- records :: record.id != id
    ensures var t' := DeliverAll(c, p, records, script).table;
            (id in t' <==> id in p.table) && (id in t' ==> t'[id] == p.table[id])
    decreases records
  {
    if records != [] && !p.raised {
      assert records[0] in records;
      Untouched(c, DeliverOne(c, p, records[0], script[0]), records[1..], script[1..], id);
    }
  }

  lemma OneSettles(c: Config, p: Progress, record: Row, a: Attempt)
    requires ValidSchedule(c.retry) && IsDraw(a.draw) && record.id in p.table
    requires !DeliverOne(c, p, record, a).raised
    ensures var t' := DeliverOne(c, p, record, a).table;
            record.id in t' && Settled(c, record, a, p.table[record.id], t'[record.id])
  {
    DelayBounded(c.retry, record.retryCount + 1, if c.useJitter then Some(a.draw) else None);
    if RetryDelay(c, record.retryCount + 1, a.draw).Some? {
      RT.RetryDelayIsWait(c, record.retryCount + 1, a.draw);
    }
  }

  /** A batch that returns normally settles every record it claimed and touches nothing else. */
  lemma {:induction false} BatchSettles(
    c: Config, p: Progress, records: seq<Row>, script: seq<Attempt>, i: nat)
    requires ValidSchedule(c.retry) && |records| <= |script| && !p.raised && DistinctIds(records)
    requires forall a <- script :: IsDraw(a.draw)
    requires !DeliverAll(c, p, records, script).raised
    requires i < |records| && records[i].id in p.table
    ensures var t' := DeliverAll(c, p, records, script).table;
            records[i].id in t'
            && Settled(c, records[i], script[i], p.table[records[i].id], t'[records[i].id])
    decreases records
  {
    var q := DeliverOne(c, p, records[0], script[0]);
    assert script[0] in script;
    if i == 0 {
      OneSettles(c, p, records[0], script[0]);
      forall record | record in records[1..] ensures record.id != records[0].id {
      }
      Untouched(c, q, records[1..], script[1..], records[0].id);
    } else {
      assert records[i].id != records[0].id;
      BatchSettles(c, q, records[1..], script[1..], i - 1);
    }
  }

  function DeliveredCount(records: seq<Row>, script: seq<Attempt>): nat
    requires |records| <= |script|
  {
    if records == [] then 0
    else (if script[0].published.Confirmed? && script[0].mark.Committed? then 1 else 0) + DeliveredCount(records[1..], script[1..])
  }

  function AcceptedIds(records: seq<Row>, script: seq<Attempt>): seq<Id>
    requires |records| <= |script|
  {
    if records == [] then []
    else (if script[0].published.NotAccepted? then [] else [records[0].id]) + AcceptedIds(records[1..], script[1..])
  }

  /** Every record is either counted as published or recorded as an error, and the broker has
      received, in claim order, exactly the messages of the accepted publishes. */
  lemma {:induction false} BatchCounts(c: Config, p: Progress, records: seq<Row>, script: seq<Attempt>)
    requires |records| <= |script| && !p.raised
    requires !DeliverAll(c, p, records, script).raised
    ensures var end := DeliverAll(c, p, records, script);
            && end.published == p.published + DeliveredCount(records, script)
            && end.published + end.errors == p.published + p.errors + |records|
            && end.accepted == p.accepted + AcceptedIds(records, script)
    decreases records
  {
    if records != [] {
      var q := DeliverOne(c, p, records[0], script[0]);
      BatchCounts(c, q, records[1..], script[1..]);
    }
  }

  /** The record was not published, and releasing it raised: its delay overflows, or its commit failed. */
  predicate RaisesAt(c: Config, record: Row, a: Attempt) {
    && !(a.published.Confirmed? && a.mark.Committed?)
    && ((record.retryCount + 1 < c.maxAttempts && record.retryCount + 1 >= OVERFLOW_ATTEMPTS) || !a.release.Committed?)
  }

  /** A batch raises exactly when some record does; failed publishes and marks alone never escape. */
  lemma {:induction false} BatchRaises(c: Config, p: Progress, records: seq<Row>, script: seq<Attempt>)
    requires |records| <= |script| && !p.raised
    ensures DeliverAll(c, p, records, script).raised
            <==> exists i :: 0 <= i < |records| && RaisesAt(c, records[i], script[i])
    decreases records
  {
    if records != [] {
      var q := DeliverOne(c, p, records[0], script[0]);
      assert q.raised <==> RaisesAt(c, records[0], script[0]);
      if !q.raised {
        BatchRaises(c, q, records[1..], script[1..]);
        LaterRecord(c, records, script);
      }
    }
  }

  lemma LaterRecord(c: Config, records: seq<Row>, script: seq<Attempt>)
    requires records != [] && |records| <= |script| && !RaisesAt(c, records[0], script[0])
    ensures (exists i :: 0 <= i < |records| && RaisesAt(c, records[i], script[i]))
            <==> exists i :: 0 <= i < |records| - 1 && RaisesAt(c, records[1..][i], script[1..][i])
  {
    if i :| 0 <= i < |records| && RaisesAt(c, records[i], script[i]) {
      assert records[1..][i - 1] == records[i] && script[1..][i - 1] == script[i];
    }
    if i :| 0 <= i < |records| - 1 && RaisesAt(c, records[1..][i], script[1..][i]) {
      assert records[1..][i] == records[i + 1] && script[1..][i] == script[i + 1];
    }
  }

  ghost function Load(t: Table): nat {
    |WithStatus(t, PENDING)| + |WithStatus(t, {Failed})|
  }

  lemma OneMovesLoad(c: Config, t: Table, t': Table, id: Id)
    requires id in t && id in t' && Pending(t[id])
    requires t'.Keys == t.Keys && forall x <- t :: x != id ==> t'[x] == t[x]
    ensures Load(t') == Load(t) - if t'[id].status.Processed? then 1 else 0
  {
    var others := WithStatus(t, PENDING) - {id};
    assert WithStatus(t, PENDING) == others + {id};
    assert WithStatus(t', PENDING) == if Pending(t'[id]) then others + {id} else others;
    var failed := WithStatus(t, {Failed});
    assert WithStatus(t', {Failed}) == if t'[id].status.Failed? then failed + {id} else failed;
  }

  /** Pending rows are conserved: what leaves the pending count has been published or has newly
      failed (the failed count grows by the latter). */
  lemma {:induction false} BatchConservesLoad(c: Config, p: Progress, records: seq<Row>, script: seq<Attempt>)
    requires |records| <= |script| && !p.raised && DistinctIds(records)
    requires !DeliverAll(c, p, records, script).raised
    requires forall record <- records :: record.id in p.table && Pending(p.table[record.id])
    ensures Load(DeliverAll(c, p, records, script).table) + DeliveredCount(records, script) == Load(p.table)
    decreases records
  {
    if records != [] {
      var q := DeliverOne(c, p, records[0], script[0]);
      assert records[0] in records;
      OneMovesLoad(c, p.table, q.table, records[0].id);
      forall record | record in records[1..] ensures record.id in q.table && Pending(q.table[record.id]) {
        var i :| 1 <= i < |records| && records[i] == record;
        assert record in records && record.id != records[0].id;
      }
      BatchConservesLoad(c, q, records[1..], script[1..]);
    }
  }

  /** s' is reached from s by these steps. */
  ghost predicate Leads(c: Config, s: State, ops: seq<Op>, s': State)
    decreases |ops|
  {
    if ops == [] then s == s'
    else Enabled(c, s, ops[0]) && Leads(c, Apply(c, s, ops[0]), ops[1..], s')
  }

  lemma {:induction false} LeadsTransitive(c: Config, s: State, a: seq<Op>, m: State, b: seq<Op>, s': State)
    requires Leads(c, s, a, m) && Leads(c, m, b, s')
    ensures Leads(c, s, a + b, s')
    decreases |a|
  {
    if a == [] {
      assert a + b == b;
    } else {
      assert (a + b)[0] == a[0] && (a + b)[1..] == a[1..] + b;
      LeadsTransitive(c, Apply(c, s, a[0]), a[1..], m, b, s');
    }
  }

  lemma LeadsByOne(c: Config, s: State, op: Op)
    requires Enabled(c, s, op)
    ensures Leads(c, s, [op], Apply(c, s, op))
  {
    assert Leads(c, Apply(c, s, op), [], Apply(c, s, op));
  }

  function IdList(rows: seq<Row>): seq<Id> {
    seq(|rows|, i requires 0 <= i < |rows| => rows[i].id)
  }

  /** A claim by the loop is a claim step of the machine. */
  lemma ClaimIsAStep(c: Config, s: State, w: Id, at: Time, claimed: seq<Row>)
    requires w !in s.jobs && at <= s.now && claimed != []
    requires Takes(s.table, c.batchSize, at, at - c.claimTimeout, claimed)
    ensures Enabled(c, s, Claim(w, IdList(claimed), at))
    ensures Apply(c, s, Claim(w, IdList(claimed), at))
            == s.(table := ClaimRows(s.table, IdsOf(claimed), at), jobs := s.jobs[w := Job(claimed, ToPublish)])
  {
    var ids := IdList(claimed);
    forall i | 0 <= i < |claimed|
      ensures ids[i] in s.table && claimed[i] == Claimed(s.table[ids[i]], at)
              && Eligible(s.table[ids[i]], at, at - c.claimTimeout)
    {
      assert claimed[i] in claimed;
    }
    SameIds(claimed, ids);
    assert Enabled(c, s, Claim(w, ids, at));
    assert Apply(c, s, Claim(w, ids, at)).jobs[w].batch == claimed;
  }

  lemma SameIds(claimed: seq<Row>, ids: seq<Id>)
    requires |ids| == |claimed| && forall i :: 0 <= i < |ids| ==> ids[i] == claimed[i].id
    ensures (set id | id in ids) == IdsOf(claimed)
  {
    forall id ensures id in ids <==> id in IdsOf(claimed) {
      if id in IdsOf(claimed) {
        var i :| 0 <= i < |claimed| && claimed[i].id == id;
        assert ids[i] == id;
      }
      if id in ids {
        var i :| 0 <= i < |ids| && ids[i] == id;
        assert claimed[i] in claimed;
      }
    }
  }

  lemma PurgeRemoves(t: Table, limit: nat, cutoff: Time, purged: nat, t': Table, ids: set<Id>)
    requires IsPurge(t, limit, cutoff, purged, t') && ids == t.Keys - t'.Keys
    ensures |ids| <= limit && (forall id <- ids :: id in t && Expired(t[id], cutoff))
    ensures t - ids == t'
  {
  }

  /** A purge by the loop is a purge step of the machine. */
  lemma PurgeIsAStep(c: Config, s: State, at: Time, purged: nat, t': Table)
    requires at <= s.now && IsPurge(s.table, c.batchSize, at - c.retention, purged, t')
    ensures var op := Op.Purge(s.table.Keys - t'.Keys, at);
            Enabled(c, s, op) && Apply(c, s, op) == s.(table := t', deleted := Apply(c, s, op).deleted)
  {
    var ids := s.table.Keys - t'.Keys;
    PurgeRemoves(s.table, c.batchSize, at - c.retention, purged, t', ids);
    PurgeStep(c, s, at, ids);
  }

  lemma PurgeStep(c: Config, s: State, at: Time, ids: set<Id>)
    requires Enabled(c, s, Op.Purge(ids, at))
    ensures var s' := Apply(c, s, Op.Purge(ids, at)); s' == s.(table := s.table - ids, deleted := s'.deleted)
  {
  }

  /** Where one record leaves the machine. */
  ghost function AfterRecord(c: Config, s: State, w: Id, a: Attempt): State
    requires w in s.jobs && s.jobs[w].batch != []
  {
    var record := s.jobs[w].batch[0];
    var end := DeliverOne(c, Progress(s.table, [], 0, 0, false), record, a);
    s.(table := end.table,
       accepted := if Accepted(a) then s.accepted + {record.id} else s.accepted,
       jobs := if end.raised then s.jobs - {w} else Advance(s, w))
  }

  ghost predicate ClockRead(s: State, a: Attempt) {
    a.markAt <= s.now && a.releaseAt <= s.now && IsDraw(a.draw)
  }

  /** Handling a failed delivery: a release, a release and a crash, or just a crash. */
  lemma FailureLeads(c: Config, s: State, w: Id, a: Attempt) returns (ops: seq<Op>, s': State)
    requires w in s.jobs && s.jobs[w].batch != [] && s.jobs[w].stage.ToRelease? && ClockRead(s, a)
    ensures Leads(c, s, ops, s')
    ensures var record := s.jobs[w].batch[0];
            s' == s.(table := if Overflows(c, record, a) then s.table else AfterRelease(c, s.table, record, a),
                     jobs := if Overflows(c, record, a) || !a.release.Committed? then s.jobs - {w}
                             else Advance(s, w))
  {
    var crash, release := Crash(w), Release(w, a.releaseAt, a.draw);
    if Overflows(c, s.jobs[w].batch[0], a) || a.release.RolledBack? {
      LeadsByOne(c, s, crash);
      return [crash], Apply(c, s, crash);
    }
    LeadsByOne(c, s, release);
    ops, s' := [release], Apply(c, s, release);
    if a.release.CommittedButRaised? {
      LeadsByOne(c, s', crash);
      LeadsTransitive(c, s, ops, s', [crash], Apply(c, s', crash));
      ops, s' := ops + [crash], Apply(c, s', crash);
      assert s'.jobs == s.jobs - {w};
    }
  }

  /** The machine after publishing and, if that was confirmed, marking. */
  ghost function AfterDelivery(s: State, w: Id, a: Attempt): State
    requires w in s.jobs && s.jobs[w].batch != []
  {
    var record := s.jobs[w].batch[0];
    s.(table := AfterMark(s.table, record, a),
       accepted := if Accepted(a) then s.accepted + {record.id} else s.accepted,
       jobs := if Delivered(a) then Advance(s, w)
               else SetStage(s, w, ToRelease(a.published.Confirmed? && a.mark.CommittedButRaised?)))
  }

  lemma DeliveryLeads(c: Config, s: State, w: Id, a: Attempt) returns (ops: seq<Op>)
    requires w in s.jobs && s.jobs[w].batch != [] && s.jobs[w].stage.ToPublish? && ClockRead(s, a)
    ensures Leads(c, s, ops, AfterDelivery(s, w, a))
  {
    var publish, mark := Publish(w, a.published), Mark(w, a.markAt, a.mark);
    LeadsByOne(c, s, publish);
    var m := Apply(c, s, publish);
    if a.published.Confirmed? {
      LeadsByOne(c, m, mark);
      LeadsTransitive(c, s, [publish], m, [mark], Apply(c, m, mark));
      assert Apply(c, m, mark).jobs == AfterDelivery(s, w, a).jobs;
      return [publish] + [mark];
    }
    return [publish];
  }

  lemma RecordLeads(c: Config, s: State, w: Id, a: Attempt) returns (ops: seq<Op>)
    requires w in s.jobs && s.jobs[w].batch != [] && s.jobs[w].stage.ToPublish? && ClockRead(s, a)
    ensures Leads(c, s, ops, AfterRecord(c, s, w, a))
  {
    ops := DeliveryLeads(c, s, w, a);
    var m := AfterDelivery(s, w, a);
    if !Delivered(a) {
      var more, e := FailureLeads(c, m, w, a);
      LeadsTransitive(c, s, ops, m, more, e);
      ops := ops + more;
      assert e.jobs == AfterRecord(c, s, w, a).jobs;
      assert e == AfterRecord(c, s, w, a);
    }
  }

  function SetOf(ids: seq<Id>): set<Id> {
    set id | id in ids
  }

  lemma AcceptedByOne(c: Config, p: Progress, record: Row, a: Attempt)
    ensures SetOf(DeliverOne(c, p, record, a).accepted)
            == SetOf(p.accepted) + if Accepted(a) then {record.id} else {}
  {
  }

  lemma {:induction false} AcceptedGrows(c: Config, p: Progress, records: seq<Row>, script: seq<Attempt>)
    requires |records| <= |script|
    ensures SetOf(p.accepted) <= SetOf(DeliverAll(c, p, records, script).accepted)
    decreases records
  {
    if records != [] && !p.raised {
      AcceptedByOne(c, p, records[0], script[0]);
      AcceptedGrows(c, DeliverOne(c, p, records[0], script[0]), records[1..], script[1..]);
    }
  }

  /** The whole batch is a run of the machine that ends with the table and the accepted messages
      the loop ends with, and with the worker idle. */
  lemma {:induction false} BatchLeads(c: Config, s: State, w: Id, p: Progress, script: seq<Attempt>)
    returns (ops: seq<Op>, s': State)
    requires w in s.jobs && s.jobs[w].batch != [] && s.jobs[w].stage.ToPublish?
    requires |s.jobs[w].batch| <= |script| && forall a <- script :: ClockRead(s, a)
    requires p.table == s.table && !p.raised && SetOf(p.accepted) <= s.accepted
    ensures Leads(c, s, ops, s')
    ensures var end := DeliverAll(c, p, s.jobs[w].batch, script);
            && s'.table == end.table
            && s'.accepted == s.accepted + SetOf(end.accepted)
            && s' == s.(table := s'.table, accepted := s'.accepted, jobs := s.jobs - {w})
    decreases |s.jobs[w].batch|
  {
    var records := s.jobs[w].batch;
    assert script[0] in script;
    ops := RecordLeads(c, s, w, script[0]);
    var m := AfterRecord(c, s, w, script[0]);
    var q := DeliverOne(c, p, records[0], script[0]);
    AcceptedByOne(c, p, records[0], script[0]);
    if q.raised || |records| == 1 {
      assert DeliverAll(c, q, records[1..], script[1..]) == q;
      return ops, m;
    }
    assert forall a <- script[1..] :: a in script;
    var more, e := BatchLeads(c, m, w, q, script[1..]);
    assert e.jobs == s.jobs - {w};
    AcceptedGrows(c, q, records[1..], script[1..]);
    LeadsTransitive(c, s, ops, m, more, e);
    return ops + more, e;
  }

  lemma ClaimLeads(c: Config, s: State, w: Id, world: World, claimed: seq<Row>) returns (ops: seq<Op>, m: State)
    requires w !in s.jobs && world.now <= s.now && claimed != [] && TookEffect(world.claim)
    requires IsClaim(s.table, c.batchSize, world.now, world.now - c.claimTimeout, world.locked, claimed)
    ensures Leads(c, s, ops, m)
    ensures m == s.(table := AfterClaim(s.table, world, claimed), jobs := s.jobs[w := Job(claimed, ToPublish)])
  {
    ClaimIsAStep(c, s, w, world.now, claimed);
    var claim := Claim(w, IdList(claimed), world.now);
    LeadsByOne(c, s, claim);
    return [claim], Apply(c, s, claim);
  }

  /** The clock readings of the poll were taken by now, and the machine agrees with the code about
      the table, the accepted messages and the idle worker. */
  ghost predicate Mirrors(s: State, w: Id, start: Progress, world: World) {
    && w !in s.jobs && s.table == start.table && SetOf(start.accepted) <= s.accepted
    && world.now <= s.now && world.purgeAt <= s.now
    && forall a <- world.script :: ClockRead(s, a)
  }

  /** The machine agrees with what the poll left; nothing else of it but purged rows has changed. */
  ghost predicate Mirrored(s: State, end: Progress, s': State) {
    && s'.table == end.table && s'.accepted == s.accepted + SetOf(end.accepted)
    && s'.jobs == s.jobs && s'.now == s.now && s'.born == s.born
  }

  lemma BusyPollLeads(
    c: Config, s: State, w: Id, start: Progress, world: World, claimed: seq<Row>, end: Progress, purged: nat)
    returns (ops: seq<Op>, s': State)
    requires Mirrors(s, w, start, world) && claimed != [] && Polled(c, start, world, claimed, end, purged)
    ensures Leads(c, s, ops, s') && Mirrored(s, end, s')
  {
    if !TookEffect(world.claim) {
      return [], s;
    }
    var m, more;
    ops, m := ClaimLeads(c, s, w, world, claimed);
    assert m.jobs - {w} == s.jobs;
    if world.claim.Committed? {
      more, s' := BatchLeads(c, m, w, start.(table := m.table), world.script);
    } else {
      var crash := Crash(w);
      LeadsByOne(c, m, crash);
      more, s' := [crash], Apply(c, m, crash);
    }
    LeadsTransitive(c, s, ops, m, more, s');
    ops := ops + more;
  }

  lemma PurgeLeads(c: Config, s: State, at: Time, purged: nat, t': Table) returns (ops: seq<Op>, s': State)
    requires at <= s.now && IsPurge(s.table, c.batchSize, at - c.retention, purged, t')
    ensures Leads(c, s, ops, s') && s' == s.(table := t', deleted := s'.deleted)
  {
    PurgeIsAStep(c, s, at, purged, t');
    var purge := Op.Purge(s.table.Keys - t'.Keys, at);
    LeadsByOne(c, s, purge);
    return [purge], Apply(c, s, purge);
  }

  lemma IdlePoll(c: Config, start: Progress, world: World, end: Progress, purged: nat)
    requires Polled(c, start, world, [], end, purged)
    ensures end == start.(table := end.table, raised := end.raised)
    ensures Purged(c, start.table, world, purged, end.table)
  {
    ClaimNothing(start.table, world.now);
  }

  lemma IdlePollLeads(
    c: Config, s: State, w: Id, start: Progress, world: World, end: Progress, purged: nat)
    returns (ops: seq<Op>, s': State)
    requires Mirrors(s, w, start, world) && end == start.(table := end.table, raised := end.raised)
    requires Purged(c, start.table, world, purged, end.table)
    ensures Leads(c, s, ops, s') && Mirrored(s, end, s')
  {
    assert s.accepted + SetOf(end.accepted) == s.accepted;
    if TookEffect(world.purge) {
      ops, s' := PurgeLeads(c, s, world.purgeAt, purged, end.table);
    } else {
      ops, s' := [], s;
    }
  }

  /** A whole poll, busy or idle, wherever it raised, is a sequence of steps of the relay machine that
      ends with the table and the accepted messages of the code and the worker idle again. */
  lemma PollLeads(
    c: Config, s: State, w: Id, start: Progress, world: World, claimed: seq<Row>, end: Progress, purged: nat)
    returns (ops: seq<Op>, s': State)
    requires Mirrors(s, w, start, world) && Polled(c, start, world, claimed, end, purged)
    ensures Leads(c, s, ops, s') && Mirrored(s, end, s')
  {
    if claimed == [] {
      IdlePoll(c, start, world, end, purged);
      ops, s' := IdlePollLeads(c, s, w, start, world, end, purged);
    } else {
      ops, s' := BusyPollLeads(c, s, w, start, world, claimed, end, purged);
    }
  }

  lemma {:induction false} LeadsExtendsRun(c: Config, states: seq<State>, ops: seq<Op>, more: seq<Op>, s': State)
    returns (states': seq<State>)
    requires IsRun(c, states, ops) && Leads(c, states[|ops|], more, s')
    ensures IsRun(c, states', ops + more) && states <= states' && states'[|ops + more|] == s'
    decreases |more|
  {
    if more == [] {
      assert ops + more == ops;
      return states;
    }
    var next := Apply(c, states[|ops|], more[0]);
    OneMoreStep(c, states, ops, more[0], next);
    states' := LeadsExtendsRun(c, states + [next], ops + [more[0]], more[1..], s');
    assert ops + [more[0]] + more[1..] == ops + more;
  }

  lemma OneMoreStep(c: Config, states: seq<State>, ops: seq<Op>, op: Op, next: State)
    requires IsRun(c, states, ops) && IsStep(c, states[|ops|], op, next)
    ensures IsRun(c, states + [next], ops + [op])
  {
    var states', ops' := states + [next], ops + [op];
    forall k | 0 <= k < |ops'| ensures IsStep(c, states'[k], ops'[k], states'[k + 1]) {
      if k < |ops| {
        assert IsStep(c, states[k], ops[k], states[k + 1]);
      }
    }
  }

  /** Main connection. Whatever the code has done so far as a run of the machine, with any other
      workers in it, the poll continues that run: every result about runs holds of `Publisher.Execute`,
      whose `Polled` is the hypothesis here. */
  lemma PollExtendsRun(
    c: Config, states: seq<State>, ops: seq<Op>, w: Id, start: Progress, world: World, claimed: seq<Row>,
    end: Progress, purged: nat)
    returns (states': seq<State>, ops': seq<Op>)
    requires IsRun(c, states, ops) && Mirrors(states[|ops|], w, start, world)
    requires Polled(c, start, world, claimed, end, purged)
    ensures IsRun(c, states', ops') && states <= states' && ops <= ops'
    ensures Mirrored(states[|ops|], end, states'[|ops'|])
  {
    var more, s' := PollLeads(c, states[|ops|], w, start, world, claimed, end, purged);
    states' := LeadsExtendsRun(c, states, ops, more, s');
    ops' := ops + more;
  }

  /** For one: the rows a poll leaves are well formed, and published only if the broker took them. */
  lemma PollKeepsRows(
    c: Config, states: seq<State>, ops: seq<Op>, w: Id, start: Progress, world: World, claimed: seq<Row>,
    end: Progress, purged: nat, id: Id)
    requires ValidConfig(c) && IsRun(c, states, ops) && Mirrors(states[|ops|], w, start, world)
    requires Polled(c, start, world, claimed, end, purged) && id in end.table
    ensures RS.WellFormed(c, end.table[id])
    ensures end.table[id].publishedAt.Some? ==> id in states[|ops|].accepted || id in end.accepted
  {
    var states', ops' := PollExtendsRun(c, states, ops, w, start, world, claimed, end, purged);
    RS.RowsStayWellFormed(c, states', ops', |ops'|, id);
    RS.PublishedMeansAccepted(c, states', ops', |ops'|, id);
  }

  lemma ClaimKeepsLoad(t: Table, ids: set<Id>, at: Time)
    requires forall id <- ids :: id in t && Pending(t[id])
    ensures Load(ClaimRows(t, ids, at)) == Load(t)
  {
    var t' := ClaimRows(t, ids, at);
    assert WithStatus(t', PENDING) == WithStatus(t, PENDING);
    assert WithStatus(t', {Failed}) == WithStatus(t, {Failed});
  }

  lemma ClaimedRecords(t: Table, limit: nat, now: Time, staleBefore: Time, locked: set<Id>, claimed: seq<Row>)
    requires IsClaim(t, limit, now, staleBefore, locked, claimed)
    ensures var t' := ClaimRows(t, IdsOf(claimed), now);
            && Load(t') == Load(t)
            && forall record <- claimed ::
                 record.id in t && record.id in t' && t'[record.id] == record && Pending(record)
  {
    forall record | record in claimed ensures record.id in IdsOf(claimed) && Pending(t[record.id]) {
      assert record.id in IdsOf(claimed);
    }
    ClaimKeepsLoad(t, IdsOf(claimed), now);
  }

  /** What a poll that returns has done, from the table it found to the table it left: every claimed
      row is settled, no other row is touched, what it returned and the errors it recorded make up the
      batch, the accepted messages went out in claim order, and the pending and failed rows have
      become fewer by exactly the number it returned. */
  lemma PollSettles(
    c: Config, start: Progress, world: World, claimed: seq<Row>, end: Progress, purged: nat, id: Id)
    requires ValidSchedule(c.retry) && forall a <- world.script :: IsDraw(a.draw)
    requires Polled(c, start, world, claimed, end, purged) && claimed != [] && !end.raised
    ensures end.published + end.errors == start.errors + |claimed|
    ensures end.accepted == start.accepted + AcceptedIds(claimed, world.script)
    ensures Load(end.table) + end.published == Load(start.table)
    ensures forall i :: 0 <= i < |claimed| && claimed[i].id == id ==>
              id in end.table && Settled(c, claimed[i], world.script[i], claimed[i], end.table[id])
    ensures id !in IdsOf(claimed) ==>
              (id in end.table <==> id in start.table) && (id in end.table ==> end.table[id] == start.table[id])
  {
    var p := start.(table := AfterClaim(start.table, world, claimed));
    ClaimedRecords(start.table, c.batchSize, world.now, world.now - c.claimTimeout, world.locked, claimed);
    BatchCounts(c, p, claimed, world.script);
    BatchConservesLoad(c, p, claimed, world.script);
    forall i | 0 <= i < |claimed| && claimed[i].id == id
      ensures id in end.table && Settled(c, claimed[i], world.script[i], claimed[i], end.table[id])
    {
      assert claimed[i] in claimed;
      BatchSettles(c, p, claimed, world.script, i);
    }
    if id !in IdsOf(claimed) {
      Untouched(c, p, claimed, world.script, id);
    }
  }
}
