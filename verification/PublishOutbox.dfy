/** One poll of the relay, as the loop of src/application/use_cases/publish_outbox.py, its meaning,
    and the fact that it only takes steps of the relay machine. */
module PublishOutbox {
  import opened Base
  import opened Outbox
  import opened OutboxTable
  import opened Relay

  /** What the broker, the database, the clock and the random generator do for one record. */
  datatype Attempt = Attempt(
    published: PublishOutcome,
    mark: CommitOutcome,
    markAt: Time,
    releaseAt: Time,
    draw: real,
    release: CommitOutcome)

  /** What the world does during one poll. `locked` are rows another transaction is claiming; `claim`
      and `purge` say how those commits go, `script` what happens to each record, and `countable`
      whether the rows can be counted for the gauges. */
  datatype World = World(
    now: Time,
    locked: set<Id>,
    claim: CommitOutcome,
    script: seq<Attempt>,
    purgeAt: Time,
    purge: CommitOutcome,
    countable: bool)

  /** How far a batch got: the table, what the broker accepted, the counters, and whether an
      exception has escaped. */
  datatype Progress = Progress(table: Table, accepted: seq<Id>, published: nat, errors: nat, raised: bool)

  predicate Delivered(a: Attempt) {
    a.published.Confirmed? && a.mark.Committed?
  }

  predicate Accepted(a: Attempt) {
    !a.published.NotAccepted?
  }

  /** The delay of a retry cannot be computed. */
  predicate Overflows(c: Config, record: Row, a: Attempt) {
    record.retryCount + 1 < c.maxAttempts && RetryDelay(c, record.retryCount + 1, a.draw).None?
  }

  function AfterMark(t: Table, record: Row, a: Attempt): Table {
    if a.published.Confirmed? && TookEffect(a.mark) then MarkRow(t, record.id, a.markAt) else t
  }

  function AfterRelease(c: Config, t: Table, record: Row, a: Attempt): Table
    requires !Overflows(c, record, a)
  {
    var (status, availableAt) := Verdict(c, record.retryCount + 1, a.releaseAt, a.draw);
    if TookEffect(a.release) then ReleaseRow(t, record.id, status, record.retryCount + 1, availableAt) else t
  }

  function DeliverOne(c: Config, p: Progress, record: Row, a: Attempt): Progress {
    var accepted := if Accepted(a) then p.accepted + [record.id] else p.accepted;
    var t := AfterMark(p.table, record, a);
    if Delivered(a) then Progress(t, accepted, p.published + 1, p.errors, false)
    else if Overflows(c, record, a) then Progress(t, accepted, p.published, p.errors + 1, true)
    else Progress(AfterRelease(c, t, record, a), accepted, p.published, p.errors + 1, !a.release.Committed?)
  }

  function DeliverAll(c: Config, p: Progress, records: seq<Row>, script: seq<Attempt>): Progress
    requires |records| <= |script|
    decreases records
  {
    if records == [] || p.raised then p
    else DeliverAll(c, DeliverOne(c, p, records[0], script[0]), records[1..], script[1..])
  }

  /** The table after the claiming commit. */
  function AfterClaim(t: Table, world: World, claimed: seq<Row>): Table {
    if claimed == [] || TookEffect(world.claim) then ClaimRows(t, IdsOf(claimed), world.now) else t
  }

  /** What the purge of an idle poll may leave; without effect it leaves the table. */
  ghost predicate Purged(c: Config, before: Table, world: World, purged: nat, after: Table) {
    if TookEffect(world.purge)
    then IsPurge(before, c.batchSize, world.purgeAt - c.retention, purged, after)
    else after == before
  }

  /** What handling the claimed records may leave: an idle poll purges, a busy one delivers. */
  ghost predicate Handled(
    c: Config, start: Progress, world: World, claimed: seq<Row>, end: Progress, purged: nat)
    requires |claimed| <= |world.script|
  {
    if claimed == [] then
      && end == start.(table := end.table, raised := !world.purge.Committed?)
      && Purged(c, start.table, world, purged, end.table)
    else
      end == DeliverAll(c, start, claimed, world.script)
  }

  /** What a whole poll may leave, the gauges aside. */
  ghost predicate Polled(c: Config, start: Progress, world: World, claimed: seq<Row>, end: Progress, purged: nat) {
    && !start.raised && start.published == 0 && |claimed| <= |world.script|
    && IsClaim(start.table, c.batchSize, world.now, world.now - c.claimTimeout, world.locked, claimed)
    && var t := AfterClaim(start.table, world, claimed);
       if claimed != [] && !world.claim.Committed? then end == start.(table := t, raised := true)
       else Handled(c, start.(table := t), world, claimed, end, purged)
  }

  lemma ClaimNothing(t: Table, now: Time)
    ensures ClaimRows(t, {}, now) == t && IdsOf([]) == {}
  {
  }

  class Publisher {
    const config: Config
    const store: Store
    var accepted: seq<Id>     // what the broker has taken, in order
    var errors: nat           // metrics: record_error
    var pendingGauge: nat     // metrics: set_queue_size
    var failedGauge: nat      // metrics: set_failed_count

    constructor (config: Config, store: Store)
      ensures this.config == config && this.store == store && accepted == [] && errors == 0
    {
      this.config := config;
      this.store := store;
      accepted, errors, pendingGauge, failedGauge := [], 0, 0, 0;
    }

    ghost function Now(published: nat, raised: bool): Progress
      reads this`accepted, this`errors, store
      requires store.Valid()
    {
      Progress(store.View(), accepted, published, errors, raised)
    }

    /** `_deliver`: publish, then mark. False means that it raised. */
    method Deliver(record: Row, a: Attempt) returns (ok: bool)
      requires store.Valid()
      modifies this`accepted, store
      ensures store.Valid() && ok == Delivered(a)
      ensures store.View() == AfterMark(old(store.View()), record, a)
      ensures accepted == old(accepted) + if Accepted(a) then [record.id] else []
    {
      if a.published.NotAccepted? {
        return false;
      }
      accepted := accepted + [record.id];
      if a.published.AcceptedButRaised? {
        return false;
      }
      if TookEffect(a.mark) {
        store.MarkProcessed(record.id, a.markAt);
      }
      return a.mark.Committed?;
    }

    /** `_retry_or_fail`. False means that it raised. */
    method RetryOrFail(record: Row, a: Attempt) returns (ok: bool)
      requires store.Valid()
      modifies store
      ensures store.Valid() && ok == (!Overflows(config, record, a) && a.release.Committed?)
      ensures store.View() == if Overflows(config, record, a) then old(store.View())
                              else AfterRelease(config, old(store.View()), record, a)
    {
      var attempts := record.retryCount + 1;
      var status, availableAt := Failed, None;
      if attempts < config.maxAttempts {
        var delay := RetryDelay(config, attempts, a.draw);
        if delay.None? {
          return false;
        }
        status, availableAt := New, Some(a.releaseAt + delay.value);
      }
      assert (status, availableAt) == Verdict(config, attempts, a.releaseAt, a.draw);
      if TookEffect(a.release) {
        store.Release(record.id, status, attempts, availableAt);
      }
      return a.release.Committed?;
    }

    /** The loop of `execute` over the claimed records. */
    method PublishBatch(records: seq<Row>, script: seq<Attempt>) returns (published: nat, raised: bool)
      requires store.Valid() && |script| >= |records|
      modifies this`accepted, this`errors, store
      ensures store.Valid()
      ensures Now(published, raised) == DeliverAll(config, old(Now(0, false)), records, script)
    {
      published, raised := 0, false;
      var i := 0;
      while i < |records| && !raised
        invariant 0 <= i <= |records| && store.Valid()
        invariant DeliverAll(config, Now(published, raised), records[i..], script[i..])
                  == DeliverAll(config, old(Now(0, false)), records, script)
      {
        ghost var before := Now(published, raised);
        var delivered := Deliver(records[i], script[i]);
        if delivered {
          published := published + 1;
        } else {
          errors := errors + 1;
          var released := RetryOrFail(records[i], script[i]);
          raised := !released;
        }
        assert Now(published, raised) == DeliverOne(config, before, records[i], script[i]);
        assert records[i..][1..] == records[i + 1..] && script[i..][1..] == script[i + 1..];
        i := i + 1;
      }
    }

    /** The claiming query and update, before the commit. */
    method Take(world: World) returns (records: seq<Row>)
      requires store.Valid()
      modifies store
      ensures store.Valid()
      ensures IsClaim(old(store.View()), config.batchSize, world.now, world.now - config.claimTimeout, world.locked, records)
      ensures store.View() == ClaimRows(old(store.View()), IdsOf(records), world.now)
    {
      records := store.ClaimBatch(config.batchSize, world.now, world.now - config.claimTimeout, world.locked);
    }

    /** `_claim`: commits only when there is something to claim. False means that it raised. */
    method Claim(world: World) returns (records: seq<Row>, ok: bool)
      requires store.Valid()
      modifies store
      ensures store.Valid() && ok == (records == [] || world.claim.Committed?)
      ensures ClaimedTo(old(store.View()), world, records)
    {
      var before := store.rows;
      records := Take(world);
      if records == [] {
        ClaimNothing(old(store.View()), world.now);
      } else if !TookEffect(world.claim) {
        store.rows := before;
      }
      ok := records == [] || world.claim.Committed?;
    }

    ghost predicate ClaimedTo(before: Table, world: World, records: seq<Row>)
      reads store
      requires store.Valid()
    {
      && IsClaim(before, config.batchSize, world.now, world.now - config.claimTimeout, world.locked, records)
      && store.View() == AfterClaim(before, world, records)
    }

    /** `PurgeProcessedOutbox.execute`. False means that it raised. */
    method Purge(world: World) returns (ok: bool, ghost purged: nat)
      requires store.Valid()
      modifies store
      ensures store.Valid() && ok == world.purge.Committed?
      ensures Purged(config, old(store.View()), world, purged, store.View())
    {
      purged := 0;
      if TookEffect(world.purge) {
        var deleted := store.DeleteProcessedBefore(world.purgeAt - config.retention, config.batchSize);
        purged := deleted;
      }
      return world.purge.Committed?, purged;
    }

    /** `OutboxQueueGauges.refresh`: both counts are read before either gauge is set. False means that
        it raised. */
    method RefreshGauges(countable: bool) returns (ok: bool)
      requires store.Valid()
      modifies this`pendingGauge, this`failedGauge
      ensures ok == countable
      ensures ok ==> GaugesShow(store.View())
      ensures !ok ==> pendingGauge == old(pendingGauge) && failedGauge == old(failedGauge)
    {
      if !countable {
        return false;
      }
      pendingGauge := store.CountPending();
      failedGauge := store.CountFailed();
      return true;
    }

    ghost predicate GaugesShow(t: Table)
      reads this`pendingGauge, this`failedGauge
    {
      pendingGauge == |WithStatus(t, PENDING)| && failedGauge == |WithStatus(t, {Failed})|
    }

    /** The guarded part of `execute`; None means that it raised. */
    method Handle(records: seq<Row>, world: World) returns (result: Option<nat>, ghost end: Progress, ghost purged: nat)
      requires store.Valid() && |records| <= |world.script|
      modifies this`accepted, this`errors, store
      ensures store.Valid() && end == Now(end.published, end.raised)
      ensures Handled(config, old(Now(0, false)), world, records, end, purged)
      ensures result == if end.raised then None else Some(end.published)
    {
      purged := 0;
      if records == [] {
        var ok, deleted := Purge(world);
        return if ok then Some(0) else None, Now(0, !ok), deleted;
      }
      var published, raised := PublishBatch(records, world.script);
      result, end := if raised then None else Some(published), Now(published, raised);
    }

    /** The guarded part and what follows it in any case; a refresh that raises hides the result. */
    method HandleAndRefresh(records: seq<Row>, world: World)
      returns (result: Option<nat>, ghost end: Progress, ghost purged: nat)
      requires store.Valid() && |records| <= |world.script|
      modifies this, store
      ensures store.Valid() && end == Now(end.published, end.raised)
      ensures Handled(config, old(Now(0, false)), world, records, end, purged)
      ensures result == if end.raised || !world.countable then None else Some(end.published)
      ensures if world.countable then GaugesShow(store.View())
              else pendingGauge == old(pendingGauge) && failedGauge == old(failedGauge)
    {
      result, end, purged := Handle(records, world);
      var counted := RefreshGauges(world.countable);
      if !counted {
        result := None;
      }
    }

    /** `execute`; None means that it raised. A claim that raises ends the poll at once; anything later
        still refreshes the gauges. */
    method Execute(world: World)
      returns (result: Option<nat>, ghost claimed: seq<Row>, ghost end: Progress, ghost purged: nat)
      requires store.Valid() && |world.script| >= config.batchSize
      modifies this, store
      ensures store.Valid() && end == Now(end.published, end.raised)
      ensures Polled(config, old(Now(0, false)), world, claimed, end, purged)
      ensures result == if end.raised || !world.countable then None else Some(end.published)
      ensures if (claimed == [] || world.claim.Committed?) && world.countable then GaugesShow(store.View())
              else pendingGauge == old(pendingGauge) && failedGauge == old(failedGauge)
    {
      var records, ok := Claim(world);
      claimed := records;
      if ok {
        result, end, purged := HandleAndRefresh(records, world);
      } else {
        result, end, purged := None, Now(0, true), 0;
      }
    }
  }
}
