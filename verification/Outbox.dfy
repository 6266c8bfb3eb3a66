/** The outbox: delivery state of each event, its store, and the worker that publishes in batches. */
module Outbox {
  import opened Common
  import opened Ranking
  import Ledger

  datatype Error = DuplicateEvent | EventNotFound | NotClaimable | NotPublishable | NotFailable | Invalid

  datatype Status = Pending | InProgress | Published | Failed

  datatype Row = Row(
    event: Ledger.Event, status: Status, attempts: nat, availableAt: int, updatedAt: int,
    lockedAt: Option<int>, lockedBy: Option<string>, publishedAt: Option<int>, lastError: Option<string>)
  {
    function Claim(worker: string, now: int): Result<Row, Error> {
      if worker == "" then Err(Invalid)
      else if !status.Pending? && !status.Failed? then Err(NotClaimable)
      else Ok(this.(status := InProgress, attempts := attempts + 1, lockedAt := Some(now),
                    lockedBy := Some(worker), lastError := None, updatedAt := now))
    }

    function MarkPublished(now: int): Result<Row, Error> {
      if !status.InProgress? then Err(NotPublishable)
      else Ok(this.(status := Published, publishedAt := Some(now), lockedAt := None,
                    lockedBy := None, lastError := None, updatedAt := now))
    }

    function MarkFailed(message: string, nextAvailable: int, now: int): Result<Row, Error> {
      if !status.InProgress? then Err(NotFailable)
      else if message == "" then Err(Invalid)
      else Ok(this.(status := Failed, availableAt := nextAvailable, lockedAt := None, lockedBy := None,
                    publishedAt := None, lastError := Some(message), updatedAt := now))
    }
  }

  function NewRow(e: Ledger.Event): Row {
    Row(e, Pending, 0, e.createdAt, e.createdAt, None, None, None, None)
  }

  ghost predicate Keyed(rows: map<Id, Row>) {
    forall id :: id in rows ==> rows[id].event.id == id
  }

  predicate Ready(r: Row, now: int) {
    r.availableAt <= now && (r.status.Pending? || r.status.Failed?)
  }

  function ReadySet(rows: map<Id, Row>, now: int): set<Id> {
    set id | id in rows && Ready(rows[id], now)
  }

  /** Oldest availability first, then oldest creation, then id. */
  function ReadyRank(rows: map<Id, Row>): Id -> Rank {
    id => if id in rows then Rank(rows[id].availableAt, rows[id].event.createdAt, id) else Rank(0, 0, id)
  }

  ghost function ReadyIds(rows: map<Id, Row>, now: int, limit: nat): (ids: seq<Id>)
    ensures IsLeastIds(ids, ReadySet(rows, now), ReadyRank(rows), limit)
  {
    LeastIds(ReadySet(rows, now), ReadyRank(rows), limit)
  }

  predicate ReadyBefore(a: Row, b: Row) {
    || a.availableAt < b.availableAt
    || (a.availableAt == b.availableAt
        && (a.event.createdAt < b.event.createdAt
            || (a.event.createdAt == b.event.createdAt && IdLess(a.event.id, b.event.id))))
  }

  /** Pending, or failed and due for another attempt. */
  predicate Deliverable(r: Row, now: int) {
    (r.status == Pending || r.status == Failed) && r.availableAt <= now
  }

  /** The k deliverable events available first, in that order; then by creation, then by id. */
  ghost predicate FirstReady(ids: seq<Id>, rows: map<Id, Row>, now: int, k: nat) {
    && |ids| <= k
    && (forall i :: 0 <= i < |ids| ==> ids[i] in rows && Deliverable(rows[ids[i]], now))
    && (forall i, j :: 0 <= i < j < |ids| ==> ReadyBefore(rows[ids[i]], rows[ids[j]]))
    && (forall id :: id in rows && Deliverable(rows[id], now) && id !in ids ==>
          |ids| == k && forall i :: 0 <= i < |ids| ==> ReadyBefore(rows[ids[i]], rows[id]))
  }

  lemma RankedReady(rows: map<Id, Row>, a: Id, b: Id)
    requires Keyed(rows) && a in rows && b in rows && Less(ReadyRank(rows)(a), ReadyRank(rows)(b))
    ensures ReadyBefore(rows[a], rows[b])
  {}

  lemma ReadyExactly(rows: map<Id, Row>, now: int)
    ensures forall id :: id in ReadySet(rows, now) <==> id in rows && Deliverable(rows[id], now)
  {}

  lemma SelectionIsFirstReady(rows: map<Id, Row>, now: int, k: nat)
    requires Keyed(rows)
    ensures FirstReady(ReadyIds(rows, now, k), rows, now, k)
  {
    hide Less, ReadyBefore, ReadyRank, ReadySet, Ready, Deliverable;
    var ids := ReadyIds(rows, now, k);
    ReadyExactly(rows, now);
    SelectionBound(ids, ReadySet(rows, now), ReadyRank(rows), k);
    forall i, j | 0 <= i < j < |ids| ensures ReadyBefore(rows[ids[i]], rows[ids[j]]) {
      RankedReady(rows, ids[i], ids[j]);
    }
    forall i, id | 0 <= i < |ids| && id in rows && Deliverable(rows[id], now) && id !in ids
      ensures ReadyBefore(rows[ids[i]], rows[id])
    {
      assert ids[i] in ids;
      RankedReady(rows, ids[i], id);
    }
  }

  function ClaimedRow(r: Row, worker: string, now: int): Row {
    if r.Claim(worker, now).Ok? then r.Claim(worker, now).value else r
  }

  function ClaimAll(rows: map<Id, Row>, ids: seq<Id>, worker: string, now: int): map<Id, Row> {
    map id | id in rows :: if id in ids then ClaimedRow(rows[id], worker, now) else rows[id]
  }

  /** Each of the events is in progress under the worker, one attempt further; the others are as they were. */
  ghost predicate ClaimsExactly(rows: map<Id, Row>, after: map<Id, Row>, ids: seq<Id>, worker: string, now: int) {
    && after.Keys == rows.Keys
    && (forall id :: id in rows && id !in ids ==> after[id] == rows[id])
    && (forall id :: id in ids ==> id in rows && after[id] == InProgressRow(rows[id], worker, now))
  }

  function InProgressRow(r: Row, worker: string, now: int): Row {
    Row(r.event, InProgress, r.attempts + 1, r.availableAt, now, Some(now), Some(worker), r.publishedAt, None)
  }

  lemma ClaimAllExactly(rows: map<Id, Row>, ids: seq<Id>, worker: string, now: int)
    requires worker != "" || ids == []
    requires forall i :: 0 <= i < |ids| ==> ids[i] in ReadySet(rows, now)
    ensures ClaimsExactly(rows, ClaimAll(rows, ids, worker, now), ids, worker, now)
  {
    forall id | id in ids ensures id in ReadySet(rows, now) {}
  }

  lemma ClaimAllUnfold(rows: map<Id, Row>, ids: seq<Id>, id: Id, worker: string, now: int)
    requires id in rows
    ensures ClaimAll(rows, ids + [id], worker, now)
         == ClaimAll(rows, ids, worker, now)[id := ClaimedRow(rows[id], worker, now)]
  {}

  lemma ClaimNone(rows: map<Id, Row>, worker: string, now: int)
    ensures ClaimAll(rows, [], worker, now) == rows
  {}

  lemma ClaimAllKeyed(rows: map<Id, Row>, ids: seq<Id>, worker: string, now: int)
    requires Keyed(rows)
    ensures Keyed(ClaimAll(rows, ids, worker, now))
  {}

  datatype Stats = Stats(pending: nat, lag: int)

  /** The lag is the age of the event that has been ready longest, or zero when none is. */
  ghost predicate IsStats(rows: map<Id, Row>, now: int, s: Stats) {
    && s.pending == |ReadySet(rows, now)|
    && s.lag >= 0
    && (forall id :: id in ReadySet(rows, now) ==> now - rows[id].availableAt <= s.lag)
    && (if s.pending == 0 then s.lag == 0
        else exists id :: id in ReadySet(rows, now) && s.lag == now - rows[id].availableAt)
  }

  class Store {
    var rows: map<Id, Row>

    constructor ()
      ensures rows == map[]
    {
      rows := map[];
    }

    method CreateEvent(e: Ledger.Event) returns (r: Result<Row, Error>)
      modifies this
      ensures r == if e.id in old(rows) then Err(DuplicateEvent)
              else Ok(Row(e, Pending, 0, e.createdAt, e.createdAt, None, None, None, None))
      ensures rows == if r.Ok? then old(rows)[e.id := r.value] else old(rows)
    {
      if e.id in rows {
        return Err(DuplicateEvent);
      }
      rows := rows[e.id := NewRow(e)];
      return Ok(NewRow(e));
    }

    /** Filter, sort and truncate. */
    method SelectReady(now: int, limit: nat) returns (ids: seq<Id>)
      ensures ids == ReadyIds(rows, now, limit)
      ensures Keyed(rows) ==> FirstReady(ids, rows, now, limit)
    {
      hide FirstReady;
      var table := rows;
      var claimable: seq<Id> := [];
      var unread := table.Keys;
      while unread != {}
        invariant unread <= table.Keys
        invariant forall id :: id in claimable <==> id in table && id !in unread && Ready(table[id], now)
        invariant forall i, j :: 0 <= i < j < |claimable| ==> claimable[i] != claimable[j]
        decreases unread
      {
        var id :| id in unread;
        unread := unread - {id};
        if !(table[id].availableAt > now) && (table[id].status.Pending? || table[id].status.Failed?) {
          claimable := claimable + [id];
        }
      }
      var rank := ReadyRank(table);
      forall i, j | 0 <= i < j < |claimable| ensures rank(claimable[i]) != rank(claimable[j]) {
        assert claimable[i] in claimable && claimable[j] in claimable;
      }
      var sorted := Sort(claimable, rank);
      forall id ensures id in sorted <==> id in ReadySet(table, now) {
        assert id in multiset(sorted) <==> id in multiset(claimable);
      }
      AscendingTruncation(sorted, ReadySet(table, now), rank, limit);
      ids := sorted[..Min(limit, |sorted|)];
      LeastIdsUnique(ids, ReadySet(table, now), rank, limit);
      if Keyed(rows) {
        SelectionIsFirstReady(rows, now, limit);
      }
    }

    /** Claims the selected events one after the other. */
    method ClaimEach(ids: seq<Id>, worker: string, now: int) returns (r: Result<seq<Id>, Error>)
      requires Keyed(rows) && forall i :: 0 <= i < |ids| ==> ids[i] in ReadySet(rows, now)
      requires forall i, j :: 0 <= i < j < |ids| ==> ids[i] != ids[j]
      modifies this
      ensures if worker == "" && ids != [] then r == Err(Invalid) && rows == old(rows)
              else r == Ok(ids) && rows == ClaimAll(old(rows), ids, worker, now)
    {
      hide ClaimAll;
      var table := rows;
      ClaimNone(table, worker, now);
      for i := 0 to |ids|
        invariant i > 0 ==> worker != ""
        invariant rows == ClaimAll(table, ids[..i], worker, now)
      {
        var claimed := table[ids[i]].Claim(worker, now);
        match claimed {
          case Err(e) => return Err(e);
          case Ok(row) => rows := rows[row.event.id := row];
        }
        assert ids[..i + 1] == ids[..i] + [ids[i]];
        ClaimAllUnfold(table, ids[..i], ids[i], worker, now);
      }
      assert ids[..|ids|] == ids;
      return Ok(ids);
    }

    method ClaimPendingEvents(worker: string, limit: int, now: int) returns (r: Result<seq<Id>, Error>)
      requires Keyed(rows)
      modifies this
      ensures Keyed(rows)
      ensures limit <= 0 ==> r == Ok([]) && rows == old(rows)
      ensures limit > 0 ==>
                var ids := ReadyIds(old(rows), now, limit);
                if worker == "" && ids != [] then r == Err(Invalid) && rows == old(rows)
                else r == Ok(ids) && rows == ClaimAll(old(rows), ids, worker, now)
      ensures limit > 0 && r.Ok? ==>
                FirstReady(r.value, old(rows), now, limit) && ClaimsExactly(old(rows), rows, r.value, worker, now)
    {
      hide ClaimAll, FirstReady, ClaimsExactly;
      if limit <= 0 {
        return Ok([]);
      }
      var ids := SelectReady(now, limit);
      DistinctSelection(ids, ReadySet(rows, now), ReadyRank(rows), limit);
      ClaimAllKeyed(rows, ids, worker, now);
      r := ClaimEach(ids, worker, now);
      if r.Ok? {
        ClaimAllExactly(old(rows), ids, worker, now);
      }
    }

    method MarkEventPublished(id: Id, now: int) returns (r: Result<Row, Error>)
      modifies this
      ensures if id !in old(rows) then r == Err(EventNotFound)
              else
                var row := old(rows)[id];
                if row.status != InProgress then r == Err(NotPublishable)
                else r == Ok(Row(row.event, Published, row.attempts, row.availableAt, now, None, None, Some(now), None))
      ensures id in old(rows) ==> r == old(rows)[id].MarkPublished(now)
      ensures rows == if r.Ok? then old(rows)[id := r.value] else old(rows)
    {
      if id !in rows {
        return Err(EventNotFound);
      }
      var published :- rows[id].MarkPublished(now);
      rows := rows[id := published];
      return Ok(published);
    }

    method MarkEventFailed(id: Id, message: string, nextAvailable: int, now: int) returns (r: Result<Row, Error>)
      modifies this
      ensures if id !in old(rows) then r == Err(EventNotFound)
              else
                var row := old(rows)[id];
                if row.status != InProgress then r == Err(NotFailable)
                else if message == "" then r == Err(Invalid)
                else r == Ok(Row(row.event, Failed, row.attempts, nextAvailable, now, None, None, None, Some(message)))
      ensures id in old(rows) ==> r == old(rows)[id].MarkFailed(message, nextAvailable, now)
      ensures rows == if r.Ok? then old(rows)[id := r.value] else old(rows)
    {
      if id !in rows {
        return Err(EventNotFound);
      }
      var failed :- rows[id].MarkFailed(message, nextAvailable, now);
      rows := rows[id := failed];
      return Ok(failed);
    }

    method CollectStats(now: int) returns (s: Stats)
      ensures IsStats(rows, now, s)
    {
      var table := rows;
      var oldest: Option<int> := None;
      var pending := 0;
      var unread := table.Keys;
      ghost var seen: set<Id> := {};
      while unread != {}
        invariant unread <= table.Keys
        invariant seen == set id | id in ReadySet(table, now) && id !in unread
        invariant pending == |seen| && (oldest.None? <==> seen == {})
        invariant forall id :: id in seen ==> oldest.Some? && oldest.value <= table[id].availableAt
        invariant oldest.Some? ==> exists id :: id in seen && oldest.value == table[id].availableAt
        decreases unread
      {
        var id :| id in unread;
        unread := unread - {id};
        if (table[id].status.Pending? || table[id].status.Failed?) && !(table[id].availableAt > now) {
          pending := pending + 1;
          seen := seen + {id};
          if oldest.None? || table[id].availableAt < oldest.value {
            oldest := Some(table[id].availableAt);
          }
        }
      }
      assert seen == ReadySet(table, now);
      var lag := if oldest.Some? then now - oldest.value else 0;
      s := Stats(pending, if lag < 0 then 0 else lag);
    }
  }

  /** The stats taken at the instant of the claim predict its size and its first event. */
  lemma StatsPredictClaim(rows: map<Id, Row>, now: int, limit: nat, s: Stats)
    requires IsStats(rows, now, s)
    ensures var ids := ReadyIds(rows, now, limit);
            && |ids| == Min(limit, s.pending)
            && (limit > 0 && s.pending > 0 ==> ids[0] in rows && rows[ids[0]].availableAt == now - s.lag)
  {
    var ids := ReadyIds(rows, now, limit);
    if limit > 0 && s.pending > 0 {
      var oldest :| oldest in ReadySet(rows, now) && s.lag == now - rows[oldest].availableAt;
      assert ids[0] in ReadySet(rows, now);
      if oldest in ids {
        var i :| 0 <= i < |ids| && ids[i] == oldest;
        assert i == 0 || Less(ReadyRank(rows)(ids[0]), ReadyRank(rows)(oldest));
      } else {
        assert ids[0] in ids;
        assert Less(ReadyRank(rows)(ids[0]), ReadyRank(rows)(oldest));
      }
    }
  }
}
