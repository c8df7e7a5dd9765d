/** The outbox table as an object, with the claim and purge as the loops of
    tests/application/fakes/memory.py; what they do to the table is what the SQL statements of
    src/infrastructure/persistence/repositories/outbox_queue.py say. */
module OutboxTable {
  import opened Base
  import opened Outbox

  ghost predicate DistinctIds(rows: seq<Row>) {
    forall i, j :: 0 <= i < j < |rows| ==> rows[i].id != rows[j].id
  }

  ghost function TableOf(rows: seq<Row>): Table
    requires DistinctIds(rows)
  {
    map i | 0 <= i < |rows| :: rows[i].id := rows[i]
  }

  function IdsOf(rows: seq<Row>): set<Id> {
    set row | row in rows :: row.id
  }

  ghost predicate ByCreation(rows: seq<Row>) {
    forall i, j :: 0 <= i < j < |rows| ==> rows[i].createdAt <= rows[j].createdAt
  }

  /** Claimed copies of different eligible rows, no more than the limit. */
  ghost predicate Takes(t: Table, limit: nat, now: Time, staleBefore: Time, claimed: seq<Row>) {
    && DistinctIds(claimed) && |claimed| <= limit
    && forall row <- claimed ::
         row.id in t && Eligible(t[row.id], now, staleBefore) && row == Claimed(t[row.id], now)
  }

  /** What a claim may return: claimed copies of eligible unlocked rows, oldest first, and all of
      them unless the limit is reached, in which case no older one was passed over. */
  ghost predicate IsClaim(t: Table, limit: nat, now: Time, staleBefore: Time, locked: set<Id>, claimed: seq<Row>) {
    && Takes(t, limit, now, staleBefore, claimed) && ByCreation(claimed)
    && (forall row <- claimed :: row.id !in locked)
    && (forall id <- t :: Eligible(t[id], now, staleBefore) && id !in locked && id !in IdsOf(claimed) ==>
          && |claimed| == limit
          && forall row <- claimed :: row.createdAt <= t[id].createdAt)
  }

  /** NEW with no retry time or one that has come, or under a claim made at or before `staleBefore`. */
  predicate Due(row: Row, now: Time, staleBefore: Time) {
    || (row.status.New? && (row.availableAt.Some? ==> row.availableAt.value <= now))
    || (row.status.Processing? && row.claimedAt.Some? && row.claimedAt.value <= staleBefore)
  }

  /** The row under a claim made now. */
  predicate Stamped(row: Row, row': Row, now: Time) {
    && row'.status.Processing? && row'.claimedAt == Some(now) && row'.availableAt.None?
    && (row'.id, row'.eventType, row'.paymentId, row'.createdAt, row'.retryCount, row'.publishedAt)
       == (row.id, row.eventType, row.paymentId, row.createdAt, row.retryCount, row.publishedAt)
  }

  /** What a claim means for the row with this id, one by one. */
  ghost predicate TakenOrLeft(
    t: Table, t': Table, limit: nat, now: Time, staleBefore: Time, locked: set<Id>, claimed: seq<Row>, id: Id)
  {
    id in t && id in t' &&
    if id in IdsOf(claimed) then
      Due(t[id], now, staleBefore) && id !in locked && Stamped(t[id], t'[id], now) && t'[id] in claimed
    else
      t'[id] == t[id] && (Due(t[id], now, staleBefore) && id !in locked ==> |claimed| == limit)
  }

  ghost predicate ClaimsEach(
    t: Table, t': Table, limit: nat, now: Time, staleBefore: Time, locked: set<Id>, claimed: seq<Row>)
  {
    t'.Keys == t.Keys && forall id <- t :: TakenOrLeft(t, t', limit, now, staleBefore, locked, claimed, id)
  }

  lemma ClaimSays(t: Table, limit: nat, now: Time, staleBefore: Time, locked: set<Id>, claimed: seq<Row>)
    requires IsClaim(t, limit, now, staleBefore, locked, claimed)
    ensures ClaimsEach(t, ClaimRows(t, IdsOf(claimed), now), limit, now, staleBefore, locked, claimed)
  {
    var t' := ClaimRows(t, IdsOf(claimed), now);
    forall id | id in t ensures TakenOrLeft(t, t', limit, now, staleBefore, locked, claimed, id) {
      if id in IdsOf(claimed) {
        var row :| row in claimed && row.id == id;
        assert t'[id] == row;
      }
    }
  }

  /** Published before the cutoff. */
  predicate PastRetention(row: Row, cutoff: Time) {
    row.status.Processed? && row.publishedAt.Some? && row.publishedAt.value < cutoff
  }

  function ClaimableIds(t: Table, now: Time, staleBefore: Time, locked: set<Id>): set<Id> {
    set id | id in t && Eligible(t[id], now, staleBefore) && id !in locked
  }

  lemma {:induction false} DistinctCount(rows: seq<Row>)
    requires DistinctIds(rows)
    ensures |IdsOf(rows)| == |rows|
  {
    if rows != [] {
      var last := rows[|rows| - 1];
      var init := rows[..|rows| - 1];
      DistinctCount(init);
      assert rows == init + [last];
      assert IdsOf(rows) == IdsOf(init) + {last.id};
    }
  }

  /** A claim takes exactly as many rows as there are, up to the limit. */
  lemma ClaimSize(t: Table, limit: nat, now: Time, staleBefore: Time, locked: set<Id>, claimed: seq<Row>)
    requires IsClaim(t, limit, now, staleBefore, locked, claimed)
    ensures var n := |ClaimableIds(t, now, staleBefore, locked)|;
            |claimed| == if n < limit then n else limit
  {
    DistinctCount(claimed);
    var all := ClaimableIds(t, now, staleBefore, locked);
    assert IdsOf(claimed) <= all;
    SubsetSize(IdsOf(claimed), all);
    if |claimed| < limit {
      assert IdsOf(claimed) == all;
    }
  }

  lemma {:induction false} SubsetSize(a: set<Id>, b: set<Id>)
    requires a <= b
    ensures |a| <= |b|
  {
    assert |b| == |a| + |b - a| by {
      assert b == a + (b - a);
    }
  }

  function InsertByCreation(row: Row, sorted: seq<Row>): seq<Row> {
    if sorted == [] || row.createdAt <= sorted[0].createdAt then [row] + sorted
    else [sorted[0]] + InsertByCreation(row, sorted[1..])
  }

  lemma {:induction false} InsertKeepsRows(row: Row, sorted: seq<Row>)
    ensures multiset(InsertByCreation(row, sorted)) == multiset(sorted) + multiset{row}
  {
    if sorted != [] && row.createdAt > sorted[0].createdAt {
      assert sorted == [sorted[0]] + sorted[1..];
      InsertKeepsRows(row, sorted[1..]);
    }
  }

  lemma {:induction false} InsertKeepsOrder(row: Row, sorted: seq<Row>)
    requires ByCreation(sorted)
    ensures ByCreation(InsertByCreation(row, sorted))
  {
    if sorted != [] && row.createdAt > sorted[0].createdAt {
      InsertKeepsOrder(row, sorted[1..]);
      var tail := InsertByCreation(row, sorted[1..]);
      InsertKeepsRows(row, sorted[1..]);
      forall x | x in tail ensures sorted[0].createdAt <= x.createdAt {
        assert x in multiset(tail);
        assert x == row || x in sorted[1..];
      }
      assert forall i :: 0 <= i < |tail| ==> tail[i] in tail;
    }
  }

  /** `sorted(rows, key=created_at)`, which keeps the order of equal keys. */
  function SortedByCreation(rows: seq<Row>): seq<Row> {
    if rows == [] then [] else InsertByCreation(rows[0], SortedByCreation(rows[1..]))
  }

  lemma {:induction false} SortedIsSorted(rows: seq<Row>)
    ensures ByCreation(SortedByCreation(rows)) && multiset(SortedByCreation(rows)) == multiset(rows)
  {
    if rows != [] {
      assert rows == [rows[0]] + rows[1..];
      SortedIsSorted(rows[1..]);
      InsertKeepsRows(rows[0], SortedByCreation(rows[1..]));
      InsertKeepsOrder(rows[0], SortedByCreation(rows[1..]));
    }
  }

  lemma SameRows(rows: seq<Row>, sorted: seq<Row>)
    requires DistinctIds(rows) && multiset(rows) == multiset(sorted)
    ensures DistinctIds(sorted)
    ensures forall row :: row in sorted <==> row in rows
  {
    forall row ensures row in sorted <==> row in rows {
      assert row in sorted <==> row in multiset(sorted);
      assert row in rows <==> row in multiset(rows);
    }
    forall i, j | 0 <= i < j < |sorted| ensures sorted[i].id != sorted[j].id {
      assert sorted[i] in rows && sorted[j] in rows;
      if sorted[i].id == sorted[j].id {
        var a :| 0 <= a < |rows| && rows[a] == sorted[i];
        TwoCopies(sorted, i, j);
        OneCopy(rows, a);
        assert false;
      }
    }
  }

  lemma TwoCopies(rows: seq<Row>, i: nat, j: nat)
    requires i < j < |rows| && rows[i] == rows[j]
    ensures multiset(rows)[rows[i]] >= 2
  {
    assert rows == rows[..j] + [rows[j]] + rows[j + 1..];
    assert rows[i] in rows[..j];
  }

  lemma OneCopy(rows: seq<Row>, i: nat)
    requires DistinctIds(rows) && i < |rows|
    ensures multiset(rows)[rows[i]] == 1
  {
    assert rows == rows[..i] + [rows[i]] + rows[i + 1..];
    assert rows[i] !in rows[..i] && rows[i] !in rows[i + 1..];
  }

  /** The first `limit` eligible unlocked rows, claimed. */
  function Select(rows: seq<Row>, limit: nat, now: Time, staleBefore: Time, locked: set<Id>): (claimed: seq<Row>)
    ensures |claimed| <= limit
  {
    if rows == [] then []
    else
      var before := Select(rows[..|rows| - 1], limit, now, staleBefore, locked);
      var row := rows[|rows| - 1];
      if |before| < limit && Eligible(row, now, staleBefore) && row.id !in locked
      then before + [Claimed(row, now)] else before
  }

  lemma {:induction false} SelectStopsAtLimit(
    rows: seq<Row>, k: nat, limit: nat, now: Time, staleBefore: Time, locked: set<Id>)
    requires k <= |rows| && |Select(rows[..k], limit, now, staleBefore, locked)| == limit
    ensures Select(rows, limit, now, staleBefore, locked) == Select(rows[..k], limit, now, staleBefore, locked)
    decreases |rows|
  {
    if k == |rows| {
      assert rows[..k] == rows;
    } else {
      assert rows[..|rows| - 1][..k] == rows[..k];
      SelectStopsAtLimit(rows[..|rows| - 1], k, limit, now, staleBefore, locked);
    }
  }

  ghost predicate Claimable(row: Row, now: Time, staleBefore: Time, locked: set<Id>) {
    Eligible(row, now, staleBefore) && row.id !in locked
  }

  /** The row is the claimed copy of a claimable one. */
  ghost predicate ClaimedFrom(rows: seq<Row>, row: Row, now: Time, staleBefore: Time, locked: set<Id>) {
    exists j :: 0 <= j < |rows| && Claimable(rows[j], now, staleBefore, locked) && row == Claimed(rows[j], now)
  }

  lemma OneMoreClaimed(init: seq<Row>, last: Row, row: Row, now: Time, staleBefore: Time, locked: set<Id>)
    requires DistinctIds(init + [last]) && ByCreation(init + [last])
    requires ClaimedFrom(init, row, now, staleBefore, locked)
    ensures ClaimedFrom(init + [last], row, now, staleBefore, locked)
    ensures row.id != last.id && row.createdAt <= last.createdAt
  {
    var rows := init + [last];
    var j :| 0 <= j < |init| && Claimable(init[j], now, staleBefore, locked) && row == Claimed(init[j], now);
    assert rows[j] == init[j] && rows[|init|] == last;
  }

  lemma AddedInOrder(before: seq<Row>, row: Row)
    requires DistinctIds(before) && ByCreation(before)
    requires forall x <- before :: x.id != row.id && x.createdAt <= row.createdAt
    ensures DistinctIds(before + [row]) && ByCreation(before + [row])
  {
    assert forall i :: 0 <= i < |before| ==> before[i] in before;
  }

  lemma {:induction false} SelectTakesClaimable(
    rows: seq<Row>, limit: nat, now: Time, staleBefore: Time, locked: set<Id>)
    requires DistinctIds(rows) && ByCreation(rows)
    ensures forall row <- Select(rows, limit, now, staleBefore, locked) ::
              ClaimedFrom(rows, row, now, staleBefore, locked)
    ensures DistinctIds(Select(rows, limit, now, staleBefore, locked))
    ensures ByCreation(Select(rows, limit, now, staleBefore, locked))
  {
    if rows != [] {
      var init, last := rows[..|rows| - 1], rows[|rows| - 1];
      assert rows == init + [last];
      SelectTakesClaimable(init, limit, now, staleBefore, locked);
      var before := Select(init, limit, now, staleBefore, locked);
      forall row | row in before
        ensures ClaimedFrom(rows, row, now, staleBefore, locked)
        ensures row.id != last.id && row.createdAt <= last.createdAt
      {
        OneMoreClaimed(init, last, row, now, staleBefore, locked);
      }
      if Claimable(last, now, staleBefore, locked) {
        assert rows[|init|] == last;
        assert ClaimedFrom(rows, Claimed(last, now), now, staleBefore, locked);
        AddedInOrder(before, Claimed(last, now));
      }
    }
  }

  /** While there is room, the next claimable row is taken. */
  lemma LastIsTaken(rows: seq<Row>, limit: nat, now: Time, staleBefore: Time, locked: set<Id>)
    requires rows != [] && Claimable(rows[|rows| - 1], now, staleBefore, locked)
    requires |Select(rows[..|rows| - 1], limit, now, staleBefore, locked)| < limit
    ensures rows[|rows| - 1].id in IdsOf(Select(rows, limit, now, staleBefore, locked))
  {
    assert Claimed(rows[|rows| - 1], now) in Select(rows, limit, now, staleBefore, locked);
  }

  lemma {:induction false} SelectLeavesNoneBehind(
    rows: seq<Row>, limit: nat, now: Time, staleBefore: Time, locked: set<Id>, j: nat)
    requires DistinctIds(rows) && ByCreation(rows) && j < |rows| && Claimable(rows[j], now, staleBefore, locked)
    requires rows[j].id !in IdsOf(Select(rows, limit, now, staleBefore, locked))
    ensures var claimed := Select(rows, limit, now, staleBefore, locked);
            |claimed| == limit && forall row <- claimed :: row.createdAt <= rows[j].createdAt
  {
    var init, last := rows[..|rows| - 1], rows[|rows| - 1];
    var before := Select(init, limit, now, staleBefore, locked);
    var claimed := Select(rows, limit, now, staleBefore, locked);
    assert forall row <- before :: row in claimed;
    if j < |init| {
      assert init[j] == rows[j];
      SelectLeavesNoneBehind(init, limit, now, staleBefore, locked, j);
    } else {
      if |before| < limit {
        LastIsTaken(rows, limit, now, staleBefore, locked);
      }
      SelectTakesClaimable(rows, limit, now, staleBefore, locked);
    }
  }

  lemma SelectIsClaim(rows: seq<Row>, limit: nat, now: Time, staleBefore: Time, locked: set<Id>)
    requires DistinctIds(rows)
    ensures IsClaim(TableOf(rows), limit, now, staleBefore, locked,
                    Select(SortedByCreation(rows), limit, now, staleBefore, locked))
  {
    var sorted := SortedByCreation(rows);
    SortedIsSorted(rows);
    SameRows(rows, sorted);
    SelectTakesClaimable(sorted, limit, now, staleBefore, locked);
    var t := TableOf(rows);
    var claimed := Select(sorted, limit, now, staleBefore, locked);
    forall row | row in sorted ensures row.id in t && t[row.id] == row {
      assert row in rows;
    }
    forall id | id in t && Claimable(t[id], now, staleBefore, locked) && id !in IdsOf(claimed)
      ensures |claimed| == limit && forall row <- claimed :: row.createdAt <= t[id].createdAt
    {
      assert t[id].id == id && t[id] in sorted;
      var j :| 0 <= j < |sorted| && sorted[j] == t[id];
      SelectLeavesNoneBehind(sorted, limit, now, staleBefore, locked, j);
    }
  }

  /** The table after the rows with the given ids have been claimed in place. */
  ghost predicate ClaimedInPlace(before: seq<Row>, after: seq<Row>, ids: set<Id>, now: Time) {
    && |after| == |before|
    && forall i :: 0 <= i < |after| ==> after[i] == if before[i].id in ids then Claimed(before[i], now) else before[i]
  }

  ghost predicate IsTable(rows: seq<Row>, t: Table) {
    && (forall i :: 0 <= i < |rows| ==> rows[i].id in t && t[rows[i].id] == rows[i])
    && (forall id <- t :: t[id].id == id && t[id] in rows)
  }

  lemma Lookup(rows: seq<Row>)
    requires DistinctIds(rows)
    ensures IsTable(rows, TableOf(rows))
  {
  }

  lemma RowOf(rows: seq<Row>, t: Table, id: Id) returns (i: nat)
    requires IsTable(rows, t) && id in t
    ensures i < |rows| && rows[i] == t[id] && rows[i].id == id
  {
    assert t[id] in rows;
    i :| 0 <= i < |rows| && rows[i] == t[id];
  }

  lemma ClaimedInPlaceIds(before: seq<Row>, after: seq<Row>, t: Table, t': Table, ids: set<Id>, now: Time, id: Id)
    requires IsTable(before, t) && IsTable(after, t') && ClaimedInPlace(before, after, ids, now) && id in t'
    ensures id in t
  {
    var i := RowOf(after, t', id);
    assert before[i].id == id;
  }

  /** What claiming rows does to the row with this id. */
  ghost predicate ClaimedAt(t: Table, t': Table, ids: set<Id>, now: Time, id: Id) {
    && (id in t <==> id in t')
    && (id in t ==> t'[id] == if id in ids then Claimed(t[id], now) else t[id])
  }

  lemma ClaimedInPlaceRow(
    before: seq<Row>, after: seq<Row>, t: Table, t': Table, ids: set<Id>, now: Time, id: Id)
    requires IsTable(before, t) && IsTable(after, t') && ClaimedInPlace(before, after, ids, now)
    ensures ClaimedAt(t, t', ids, now, id)
  {
    if id in t' {
      ClaimedInPlaceIds(before, after, t, t', ids, now, id);
    }
    if id in t {
      var i := RowOf(before, t, id);
      assert after[i].id == id;
    }
  }

  lemma ClaimedEverywhere(t: Table, t': Table, ids: set<Id>, now: Time)
    requires forall id :: ClaimedAt(t, t', ids, now, id)
    ensures t' == ClaimRows(t, ids, now)
  {
    assert t'.Keys == t.Keys by {
      forall id: Id ensures id in t'.Keys <==> id in t.Keys {
        assert ClaimedAt(t, t', ids, now, id);
      }
    }
    forall id | id in t ensures t'[id] == ClaimRows(t, ids, now)[id] {
      assert ClaimedAt(t, t', ids, now, id);
    }
  }

  lemma ClaimedInPlaceTable(before: seq<Row>, after: seq<Row>, t: Table, t': Table, ids: set<Id>, now: Time)
    requires IsTable(before, t) && IsTable(after, t') && ClaimedInPlace(before, after, ids, now)
    ensures t' == ClaimRows(t, ids, now)
  {
    assert forall id :: ClaimedAt(t, t', ids, now, id) by {
      forall id ensures ClaimedAt(t, t', ids, now, id) {
        ClaimedInPlaceRow(before, after, t, t', ids, now, id);
      }
    }
    ClaimedEverywhere(t, t', ids, now);
  }

  lemma ClaimedInPlaceView(before: seq<Row>, after: seq<Row>, ids: set<Id>, now: Time)
    requires DistinctIds(before) && DistinctIds(after) && ClaimedInPlace(before, after, ids, now)
    ensures TableOf(after) == ClaimRows(TableOf(before), ids, now)
  {
    Lookup(before);
    Lookup(after);
    ClaimedInPlaceTable(before, after, TableOf(before), TableOf(after), ids, now);
  }

  ghost predicate ReplacedIn(before: seq<Row>, after: seq<Row>, updated: Row) {
    && |after| == |before|
    && forall i :: 0 <= i < |after| ==> after[i] == if before[i].id == updated.id then updated else before[i]
  }

  lemma OneMoreId(claimed: seq<Row>, row: Row)
    ensures IdsOf(claimed + [row]) == IdsOf(claimed) + {row.id}
  {
    assert forall x :: x in claimed + [row] <==> x in claimed || x == row;
  }

  /** Claiming the row in place after the rows with these ids. */
  lemma ClaimedThen(first: seq<Row>, before: seq<Row>, after: seq<Row>, ids: set<Id>, row: Row, now: Time)
    requires DistinctIds(first) && ClaimedInPlace(first, before, ids, now) && row in first
    requires ReplacedIn(before, after, Claimed(row, now))
    ensures ClaimedInPlace(first, after, ids + {row.id}, now)
  {
    forall i | 0 <= i < |first| && first[i].id == row.id ensures first[i] == row {
      var j :| 0 <= j < |first| && first[j] == row;
    }
  }

  lemma ClaimOneMore(first: seq<Row>, before: seq<Row>, after: seq<Row>, claimed: seq<Row>, row: Row, now: Time)
    requires DistinctIds(first) && ClaimedInPlace(first, before, IdsOf(claimed), now)
    requires row in SortedByCreation(first) && ReplacedIn(before, after, Claimed(row, now))
    ensures ClaimedInPlace(first, after, IdsOf(claimed + [Claimed(row, now)]), now)
  {
    SortedIsSorted(first);
    SameRows(first, SortedByCreation(first));
    ClaimedThen(first, before, after, IdsOf(claimed), row, now);
    OneMoreId(claimed, Claimed(row, now));
  }

  /** What an update of one row does to the row with this id. */
  ghost predicate ReplacedAt(t: Table, t': Table, updated: Row, id: Id) {
    && (id in t <==> id in t')
    && (id in t ==> t'[id] == if id == updated.id then updated else t[id])
  }

  /** The row at the same place after the update. */
  lemma ReplacedPlace(before: seq<Row>, after: seq<Row>, t': Table, updated: Row, i: nat)
    requires IsTable(after, t') && ReplacedIn(before, after, updated) && i < |before|
    ensures before[i].id in t'
    ensures t'[before[i].id] == if before[i].id == updated.id then updated else before[i]
  {
    assert after[i].id == before[i].id;
  }

  lemma ReplacedRow(before: seq<Row>, after: seq<Row>, t: Table, t': Table, updated: Row, id: Id)
    requires IsTable(before, t) && IsTable(after, t') && ReplacedIn(before, after, updated)
    ensures ReplacedAt(t, t', updated, id)
  {
    if id in t {
      var i := RowOf(before, t, id);
      ReplacedPlace(before, after, t', updated, i);
    }
    if id in t' {
      ReplacedBack(before, after, t, t', updated, id);
    }
  }

  lemma ReplacedBack(before: seq<Row>, after: seq<Row>, t: Table, t': Table, updated: Row, id: Id)
    requires IsTable(before, t) && IsTable(after, t') && ReplacedIn(before, after, updated) && id in t'
    ensures id in t
  {
    var i := RowOf(after, t', id);
    assert before[i].id == id;
  }

  lemma ReplacedEverywhere(t: Table, t': Table, updated: Row)
    requires forall id :: ReplacedAt(t, t', updated, id)
    ensures t' == if updated.id in t then t[updated.id := updated] else t
  {
    forall id: Id ensures (id in t <==> id in t') && (id in t ==> t'[id] == if id == updated.id then updated else t[id]) {
      assert ReplacedAt(t, t', updated, id);
    }
  }

  lemma ReplacedTable(before: seq<Row>, after: seq<Row>, t: Table, t': Table, updated: Row)
    requires IsTable(before, t) && IsTable(after, t') && ReplacedIn(before, after, updated)
    ensures t' == if updated.id in t then t[updated.id := updated] else t
  {
    assert forall id :: ReplacedAt(t, t', updated, id) by {
      forall id ensures ReplacedAt(t, t', updated, id) {
        ReplacedRow(before, after, t, t', updated, id);
      }
    }
    ReplacedEverywhere(t, t', updated);
  }

  lemma ReplacedView(before: seq<Row>, after: seq<Row>, t: Table, t': Table, updated: Row)
    requires DistinctIds(before) && DistinctIds(after) && ReplacedIn(before, after, updated)
    requires t == TableOf(before) && t' == TableOf(after)
    ensures t' == if updated.id in t then t[updated.id := updated] else t
  {
    Lookup(before);
    Lookup(after);
    ReplacedTable(before, after, t, t', updated);
  }

  lemma AbsentRow(rows: seq<Row>, id: Id)
    requires DistinctIds(rows) && forall row <- rows :: row.id != id
    ensures id !in TableOf(rows)
  {
  }

  function WithStatus(t: Table, wanted: set<Status>): set<Id> {
    set id | id in t && t[id].status in wanted
  }

  const PENDING := {New, Processing}

  function CountWithStatus(rows: seq<Row>, wanted: set<Status>): nat {
    if rows == [] then 0
    else CountWithStatus(rows[..|rows| - 1], wanted) + if rows[|rows| - 1].status in wanted then 1 else 0
  }

  function IdsWithStatus(rows: seq<Row>, wanted: set<Status>): set<Id> {
    set row | row in rows && row.status in wanted :: row.id
  }

  lemma IdsOfOneMore(init: seq<Row>, last: Row, wanted: set<Status>)
    ensures IdsWithStatus(init + [last], wanted)
            == IdsWithStatus(init, wanted) + if last.status in wanted then {last.id} else {}
  {
    assert forall row :: row in init + [last] <==> row in init || row == last;
  }

  lemma {:induction false} CountsIds(rows: seq<Row>, wanted: set<Status>)
    requires DistinctIds(rows)
    ensures CountWithStatus(rows, wanted) == |IdsWithStatus(rows, wanted)|
  {
    if rows != [] {
      var init, last := rows[..|rows| - 1], rows[|rows| - 1];
      CountsIds(init, wanted);
      assert rows == init + [last];
      IdsOfOneMore(init, last, wanted);
      assert last.id !in IdsWithStatus(init, wanted);
    }
  }

  /** Counting rows counts the ids of the table. */
  lemma CountIsTableCount(rows: seq<Row>, wanted: set<Status>)
    requires DistinctIds(rows)
    ensures CountWithStatus(rows, wanted) == |WithStatus(TableOf(rows), wanted)|
  {
    CountsIds(rows, wanted);
    Lookup(rows);
    SameIdSet(rows, TableOf(rows), wanted);
  }

  lemma SameIdSet(rows: seq<Row>, t: Table, wanted: set<Status>)
    requires IsTable(rows, t)
    ensures WithStatus(t, wanted) == IdsWithStatus(rows, wanted)
  {
    forall id ensures id in IdsWithStatus(rows, wanted) <==> id in WithStatus(t, wanted) {
      if id in IdsWithStatus(rows, wanted) {
        var row :| row in rows && row.status in wanted && row.id == id;
        assert t[row.id] == row;
      }
    }
  }

  /** What a purge may leave: expired rows removed, as many as there are up to the limit. */
  ghost predicate IsPurge(t: Table, limit: nat, cutoff: Time, deleted: nat, t': Table) {
    && t'.Keys <= t.Keys && (forall id <- t' :: t'[id] == t[id])
    && (forall id <- t.Keys - t'.Keys :: Expired(t[id], cutoff))
    && |t.Keys - t'.Keys| == deleted <= limit
    && (deleted < limit ==> forall id <- t' :: !Expired(t'[id], cutoff))
  }

  /** The rows that go are past retention; with room left, exactly those go. */
  ghost predicate TakesExpired(t: Table, t': Table, limit: nat, cutoff: Time, deleted: nat) {
    && (forall id <- t :: id !in t' ==> PastRetention(t[id], cutoff))
    && (deleted < limit ==> forall id <- t :: id !in t' <==> PastRetention(t[id], cutoff))
  }

  lemma PurgeSays(t: Table, limit: nat, cutoff: Time, deleted: nat, t': Table)
    requires IsPurge(t, limit, cutoff, deleted, t')
    ensures TakesExpired(t, t', limit, cutoff, deleted)
  {
  }

  /** The kept and the removed rows split the table; only expired rows are removed. */
  ghost predicate IsSplit(rows: seq<Row>, kept: seq<Row>, deleted: nat, cutoff: Time, limit: nat) {
    && DistinctIds(kept) && deleted <= limit && |kept| + deleted == |rows|
    && (forall row <- kept :: row in rows)
    && (forall row <- rows :: row in kept || Expired(row, cutoff))
    && (deleted < limit ==> forall row <- kept :: !Expired(row, cutoff))
  }

  lemma SplitOneMore(rows: seq<Row>, k: nat, kept: seq<Row>, deleted: nat, cutoff: Time, limit: nat)
    requires DistinctIds(rows) && k < |rows| && IsSplit(rows[..k], kept, deleted, cutoff, limit)
    ensures if Expired(rows[k], cutoff) && deleted < limit
            then IsSplit(rows[..k + 1], kept, deleted + 1, cutoff, limit)
            else IsSplit(rows[..k + 1], kept + [rows[k]], deleted, cutoff, limit)
  {
    assert rows[..k + 1] == rows[..k] + [rows[k]];
    forall row | row in kept ensures row.id != rows[k].id {
      var j :| 0 <= j < k && rows[..k][j] == row;
      assert rows[j].id != rows[k].id;
    }
    forall row | row in kept ensures row in rows[..k + 1] {
    }
  }

  lemma SplitRow(
    rows: seq<Row>, kept: seq<Row>, deleted: nat, t: Table, t': Table, cutoff: Time, limit: nat, id: Id)
    requires IsTable(rows, t) && IsTable(kept, t') && IsSplit(rows, kept, deleted, cutoff, limit)
    ensures id in t' ==> id in t && t'[id] == t[id] && (deleted < limit ==> !Expired(t'[id], cutoff))
    ensures id in t && id !in t' ==> Expired(t[id], cutoff)
  {
    if id in t' {
      assert t'[id] in rows;
    } else if id in t {
      assert t[id] in rows && t[id] !in kept;
    }
  }

  lemma DifferenceSize(all: set<Id>, part: set<Id>)
    requires part <= all
    ensures |all - part| + |part| == |all|
  {
    assert all == part + (all - part);
  }

  lemma TableSize(rows: seq<Row>, t: Table)
    requires DistinctIds(rows) && IsTable(rows, t)
    ensures |t.Keys| == |rows|
  {
    DistinctCount(rows);
    KeysAreIds(rows, t);
  }

  lemma DeletedCount(rows: seq<Row>, kept: seq<Row>, t: Table, t': Table)
    requires DistinctIds(rows) && DistinctIds(kept) && IsTable(rows, t) && IsTable(kept, t') && t'.Keys <= t.Keys
    ensures |t.Keys - t'.Keys| + |kept| == |rows|
  {
    TableSize(rows, t);
    TableSize(kept, t');
    DifferenceSize(t.Keys, t'.Keys);
  }

  lemma SplitIsPurge(rows: seq<Row>, kept: seq<Row>, deleted: nat, t: Table, t': Table, cutoff: Time, limit: nat)
    requires DistinctIds(rows) && IsTable(rows, t) && IsTable(kept, t')
    requires IsSplit(rows, kept, deleted, cutoff, limit)
    ensures IsPurge(t, limit, cutoff, deleted, t')
  {
    forall id {
      SplitRow(rows, kept, deleted, t, t', cutoff, limit, id);
    }
    DeletedCount(rows, kept, t, t');
  }

  lemma KeysAreIds(rows: seq<Row>, t: Table)
    requires IsTable(rows, t)
    ensures t.Keys == IdsOf(rows)
  {
  }

  class Store {
    var rows: seq<Row>

    ghost predicate Valid()
      reads this
    {
      DistinctIds(rows)
    }

    ghost function View(): Table
      reads this
      requires Valid()
    {
      TableOf(rows)
    }

    constructor (initial: seq<Row>)
      requires DistinctIds(initial)
      ensures Valid() && rows == initial
    {
      rows := initial;
    }

    /** `_replace`: every row with the id of the updated one becomes it. */
    method Replace(updated: Row)
      requires Valid()
      modifies this
      ensures Valid() && ReplacedIn(old(rows), rows, updated)
    {
      var before := rows;
      rows := seq(|before|, i requires 0 <= i < |before| =>
        if before[i].id == updated.id then updated else before[i]);
    }

    /** The loop over the rows in creation order. */
    method ClaimFrom(sorted: seq<Row>, limit: nat, now: Time, staleBefore: Time, locked: set<Id>)
      returns (claimed: seq<Row>)
      requires Valid() && sorted == SortedByCreation(rows)
      modifies this
      ensures Valid() && claimed == Select(sorted, limit, now, staleBefore, locked)
      ensures ClaimedInPlace(old(rows), rows, IdsOf(claimed), now)
    {
      ghost var first := rows;
      claimed := [];
      var k := 0;
      while k < |sorted|
        invariant 0 <= k <= |sorted|
        invariant claimed == Select(sorted[..k], limit, now, staleBefore, locked)
        invariant Valid() && ClaimedInPlace(first, rows, IdsOf(claimed), now)
      {
        if |claimed| >= limit {
          SelectStopsAtLimit(sorted, k, limit, now, staleBefore, locked);
          break;
        }
        var row := sorted[k];
        assert sorted[..k + 1][..k] == sorted[..k];
        if Eligible(row, now, staleBefore) && row.id !in locked {
          ghost var before := rows;
          Replace(Claimed(row, now));
          ClaimOneMore(first, before, rows, claimed, row, now);
          claimed := claimed + [Claimed(row, now)];
        }
        k := k + 1;
      }
      assert sorted[..|sorted|] == sorted;
    }

    /** `claim_batch`. */
    method ClaimBatch(limit: nat, now: Time, staleBefore: Time, locked: set<Id>) returns (claimed: seq<Row>)
      requires Valid()
      modifies this
      ensures Valid()
      ensures IsClaim(old(View()), limit, now, staleBefore, locked, claimed)
      ensures View() == ClaimRows(old(View()), IdsOf(claimed), now)
      ensures ClaimsEach(old(View()), View(), limit, now, staleBefore, locked, claimed)
    {
      ghost var first := rows;
      SelectIsClaim(rows, limit, now, staleBefore, locked);
      claimed := ClaimFrom(SortedByCreation(rows), limit, now, staleBefore, locked);
      ClaimedInPlaceView(first, rows, IdsOf(claimed), now);
      ClaimSays(TableOf(first), limit, now, staleBefore, locked, claimed);
    }

    /** The first row with this id, if any. */
    method Find(id: Id) returns (found: Option<Row>)
      requires Valid()
      ensures found == if id in View() then Some(View()[id]) else None
    {
      Lookup(rows);
      var i := 0;
      while i < |rows|
        invariant 0 <= i <= |rows|
        invariant forall j :: 0 <= j < i ==> rows[j].id != id
      {
        if rows[i].id == id {
          return Some(rows[i]);
        }
        i := i + 1;
      }
      AbsentRow(rows, id);
      return None;
    }

    method MarkProcessed(id: Id, publishedAt: Time)
      requires Valid()
      modifies this
      ensures Valid() && View() == MarkRow(old(View()), id, publishedAt)
      ensures View() == old(View()) || (id in old(View()) && id in View() && View() == old(View())[id := View()[id]])
      ensures id in old(View()) ==>
                && id in View() && View()[id].status.Processed? && View()[id].publishedAt == Some(publishedAt)
                && View()[id].claimedAt.None? && View()[id].availableAt.None?
                && View()[id].retryCount == old(View())[id].retryCount
    {
      Lookup(rows);
      var found := Find(id);
      if found.Some? {
        ghost var before := rows;
        Replace(Marked(found.value, publishedAt));
        ReplacedView(before, rows, TableOf(before), TableOf(rows), Marked(found.value, publishedAt));
      }
    }

    method Release(id: Id, status: Status, retryCount: nat, availableAt: Option<Time>)
      requires Valid()
      modifies this
      ensures Valid() && View() == ReleaseRow(old(View()), id, status, retryCount, availableAt)
      ensures View() == old(View()) || (id in old(View()) && id in View() && View() == old(View())[id := View()[id]])
      ensures id in old(View()) ==>
                && id in View() && View()[id].status == status && View()[id].retryCount == retryCount
                && View()[id].claimedAt.None? && View()[id].availableAt == availableAt
                && View()[id].publishedAt == old(View())[id].publishedAt
    {
      Lookup(rows);
      var found := Find(id);
      if found.Some? {
        ghost var before := rows;
        Replace(Released(found.value, status, retryCount, availableAt));
        ReplacedView(before, rows, TableOf(before), TableOf(rows), Released(found.value, status, retryCount, availableAt));
      }
    }

    method CountPending() returns (n: nat)
      requires Valid()
      ensures n == |WithStatus(View(), PENDING)|
    {
      n := 0;
      for k := 0 to |rows|
        invariant n == CountWithStatus(rows[..k], PENDING)
      {
        assert rows[..k + 1][..k] == rows[..k];
        if rows[k].status == New || rows[k].status == Processing {
          n := n + 1;
        }
      }
      assert rows[..|rows|] == rows;
      CountIsTableCount(rows, PENDING);
    }

    method CountFailed() returns (n: nat)
      requires Valid()
      ensures n == |WithStatus(View(), {Failed})|
    {
      n := 0;
      for k := 0 to |rows|
        invariant n == CountWithStatus(rows[..k], {Failed})
      {
        assert rows[..k + 1][..k] == rows[..k];
        if rows[k].status == Failed {
          n := n + 1;
        }
      }
      assert rows[..|rows|] == rows;
      CountIsTableCount(rows, {Failed});
    }

    method DeleteProcessedBefore(cutoff: Time, limit: nat) returns (deleted: nat)
      requires Valid()
      modifies this
      ensures Valid() && IsPurge(old(View()), limit, cutoff, deleted, View())
      ensures TakesExpired(old(View()), View(), limit, cutoff, deleted)
    {
      Lookup(rows);
      ghost var before := rows;
      var kept := [];
      deleted := 0;
      for k := 0 to |rows|
        invariant rows == before && IsSplit(rows[..k], kept, deleted, cutoff, limit)
      {
        SplitOneMore(rows, k, kept, deleted, cutoff, limit);
        if Expired(rows[k], cutoff) && deleted < limit {
          deleted := deleted + 1;
        } else {
          kept := kept + [rows[k]];
        }
      }
      assert rows[..|rows|] == rows;
      rows := kept;
      PurgeView(before, kept, deleted, cutoff, limit);
      PurgeSays(TableOf(before), limit, cutoff, deleted, View());
    }
  }

  lemma PurgeView(rows: seq<Row>, kept: seq<Row>, deleted: nat, cutoff: Time, limit: nat)
    requires DistinctIds(rows) && IsSplit(rows, kept, deleted, cutoff, limit)
    ensures IsPurge(TableOf(rows), limit, cutoff, deleted, TableOf(kept))
  {
    Lookup(rows);
    Lookup(kept);
    SplitIsPurge(rows, kept, deleted, TableOf(rows), TableOf(kept), cutoff, limit);
  }
}
