/** One worker publishing in batches: what a batch claims, how it ends, and how a backlog drains. */
module OutboxWorker {
  import opened Common
  import opened Ranking
  import opened Outbox

  /** What the broker answers; a rejection carries the error's text. */
  datatype Answer = Delivered | Rejected(message: string)

  /** The broker's answer to each claimed event, and the two clock readings taken when marking it. */
  datatype Plan = Plan(publish: Row -> Answer, failedAt: Id -> int, markedAt: Id -> int)

  function Resolve(row: Row, plan: Plan): Result<Row, Error> {
    match plan.publish(row)
    case Delivered => row.MarkPublished(plan.markedAt(row.event.id))
    case Rejected(message) =>
      row.MarkFailed(message, plan.failedAt(row.event.id) + MINUTE, plan.markedAt(row.event.id))
  }

  function ResolvedRow(row: Row, plan: Plan): Row {
    if Resolve(row, plan).Ok? then Resolve(row, plan).value else row
  }

  function ResolveAll(rows: map<Id, Row>, ids: seq<Id>, plan: Plan): map<Id, Row> {
    map id | id in rows :: if id in ids then ResolvedRow(rows[id], plan) else rows[id]
  }

  function DeliveredAmong(rows: map<Id, Row>, ids: seq<Id>, plan: Plan): nat {
    if ids == [] then 0
    else
      var id := ids[|ids| - 1];
      DeliveredAmong(rows, ids[..|ids| - 1], plan) + (if id in rows && plan.publish(rows[id]).Delivered? then 1 else 0)
  }

  /** A rejection without a text cannot be recorded. */
  predicate Recordable(row: Row, plan: Plan) {
    plan.publish(row) != Rejected("")
  }

  /**
    The broker's answer decides how a claimed event ends: published if and only if it was delivered, and
    otherwise failed with the error's text and due again a minute after the failure.
   */
  predicate Ends(claimed: Row, after: Row, plan: Plan) {
    var id, answer := claimed.event.id, plan.publish(claimed);
    && (after.status == Published <==> answer == Delivered)
    && (answer == Delivered ==>
          after == Row(claimed.event, Published, claimed.attempts, claimed.availableAt, plan.markedAt(id), None, None,
                       Some(plan.markedAt(id)), None))
    && (answer.Rejected? ==>
          after == Row(claimed.event, Failed, claimed.attempts, plan.failedAt(id) + 60_000_000_000, plan.markedAt(id),
                       None, None, None, Some(answer.message)))
  }

  /** The first `done` of the events were answered and end so; the others are as they were claimed. */
  ghost predicate EndsFirst(claimed: map<Id, Row>, after: map<Id, Row>, ids: seq<Id>, done: nat, plan: Plan)
    requires done <= |ids|
  {
    && after.Keys == claimed.Keys
    && (forall id :: id in claimed && id !in ids[..done] ==> after[id] == claimed[id])
    && (forall id :: id in ids[..done] ==> id in claimed && Ends(claimed[id], after[id], plan))
  }

  /** The events that end with the status. */
  ghost function WithStatus(rows: map<Id, Row>, ids: seq<Id>, status: Status): set<Id> {
    set id | id in ids && id in rows && rows[id].status == status
  }

  datatype BatchResult = BatchResult(claimed: nat, published: nat, failed: nat)

  lemma ResolveNone(rows: map<Id, Row>, plan: Plan)
    ensures ResolveAll(rows, [], plan) == rows
  {}

  lemma ResolveAllUnfold(rows: map<Id, Row>, ids: seq<Id>, id: Id, plan: Plan)
    requires id in rows
    ensures ResolveAll(rows, ids + [id], plan) == ResolveAll(rows, ids, plan)[id := ResolvedRow(rows[id], plan)]
    ensures DeliveredAmong(rows, ids + [id], plan)
         == DeliveredAmong(rows, ids, plan) + (if plan.publish(rows[id]).Delivered? then 1 else 0)
  {
    assert (ids + [id])[..|ids|] == ids;
  }

  lemma ResolvedEnds(row: Row, plan: Plan)
    requires row.status.InProgress? && Recordable(row, plan)
    ensures Ends(row, ResolvedRow(row, plan), plan)
  {}

  lemma ResolveAllEnds(claimed: map<Id, Row>, ids: seq<Id>, done: nat, plan: Plan)
    requires done <= |ids|
    requires forall i :: 0 <= i < done ==> ids[i] in claimed && claimed[ids[i]].status.InProgress?
    requires forall i :: 0 <= i < done ==> Recordable(claimed[ids[i]], plan)
    ensures EndsFirst(claimed, ResolveAll(claimed, ids[..done], plan), ids, done, plan)
  {
    hide Recordable, ResolvedRow, Ends;
    forall id | id in ids[..done] ensures id in claimed && Ends(claimed[id], ResolvedRow(claimed[id], plan), plan) {
      ResolvedEnds(claimed[id], plan);
    }
  }

  ghost function Delivering(rows: map<Id, Row>, ids: seq<Id>, plan: Plan): set<Id> {
    set id | id in ids && id in rows && plan.publish(rows[id]).Delivered?
  }

  lemma {:induction false} DeliveredSize(rows: map<Id, Row>, ids: seq<Id>, plan: Plan)
    requires forall i, j :: 0 <= i < j < |ids| ==> ids[i] != ids[j]
    ensures |Delivering(rows, ids, plan)| == DeliveredAmong(rows, ids, plan)
    decreases |ids|
  {
    if ids != [] {
      var n := |ids| - 1;
      DeliveredSize(rows, ids[..n], plan);
      assert ids == ids[..n] + [ids[n]];
      if ids[n] in rows && plan.publish(rows[ids[n]]).Delivered? {
        assert Delivering(rows, ids, plan) == Delivering(rows, ids[..n], plan) + {ids[n]};
      } else {
        assert Delivering(rows, ids, plan) == Delivering(rows, ids[..n], plan);
      }
    }
  }

  /** The worker's counts are the numbers of events that ended published and failed. */
  lemma CountsAreStatuses(claimed: map<Id, Row>, after: map<Id, Row>, ids: seq<Id>, done: nat, plan: Plan)
    requires done <= |ids| && EndsFirst(claimed, after, ids, done, plan)
    requires forall i, j :: 0 <= i < j < |ids| ==> ids[i] != ids[j]
    ensures |WithStatus(after, ids[..done], Published)| == DeliveredAmong(claimed, ids[..done], plan)
    ensures |WithStatus(after, ids[..done], Published)| + |WithStatus(after, ids[..done], Failed)| == done
  {
    var taken := ids[..done];
    DeliveredSize(claimed, taken, plan);
    assert WithStatus(after, taken, Published) == Delivering(claimed, taken, plan);
    DistinctSize(taken);
    var all := set id | id in taken;
    assert WithStatus(after, taken, Failed) == all - WithStatus(after, taken, Published);
  }

  lemma AnsweredSoFar(claimed: map<Id, Row>, ids: seq<Id>, done: nat, plan: Plan)
    requires done <= |ids|
    requires forall i :: 0 <= i < |ids| ==> ids[i] in claimed && claimed[ids[i]].status.InProgress?
    requires forall i, j :: 0 <= i < j < |ids| ==> ids[i] != ids[j]
    requires forall i :: 0 <= i < done ==> Recordable(claimed[ids[i]], plan)
    ensures var after := ResolveAll(claimed, ids[..done], plan);
            && EndsFirst(claimed, after, ids, done, plan)
            && |WithStatus(after, ids[..done], Published)| == DeliveredAmong(claimed, ids[..done], plan)
            && |WithStatus(after, ids[..done], Published)| + |WithStatus(after, ids[..done], Failed)| == done
  {
    hide EndsFirst, WithStatus, ResolveAll, Recordable;
    ResolveAllEnds(claimed, ids, done, plan);
    CountsAreStatuses(claimed, ResolveAll(claimed, ids[..done], plan), ids, done, plan);
  }

  lemma ResolveAllKeyed(rows: map<Id, Row>, ids: seq<Id>, plan: Plan)
    requires Keyed(rows)
    ensures Keyed(ResolveAll(rows, ids, plan))
  {}

  lemma ClaimedInProgress(rows: map<Id, Row>, ids: seq<Id>, worker: string, now: int)
    requires worker != "" && forall i :: 0 <= i < |ids| ==> ids[i] in ReadySet(rows, now)
    ensures forall i :: 0 <= i < |ids| ==> ids[i] in ClaimAll(rows, ids, worker, now)
                                           && ClaimAll(rows, ids, worker, now)[ids[i]].status.InProgress?
  {
    forall i | 0 <= i < |ids|
      ensures ids[i] in ClaimAll(rows, ids, worker, now) && ClaimAll(rows, ids, worker, now)[ids[i]].status.InProgress?
    {
      assert ids[i] in ReadySet(rows, now);
    }
  }

  class Worker {
    const store: Store
    const worker: string
    const batchSize: nat

    constructor (store: Store, worker: string, batchSize: int)
      ensures this.store == store
      ensures this.worker == if worker == "" then "outbox-worker" else worker
      ensures this.batchSize == if batchSize <= 0 then 100 else batchSize
    {
      this.store := store;
      this.worker := if worker == "" then "outbox-worker" else worker;
      this.batchSize := if batchSize <= 0 then 100 else batchSize;
    }

    /** Publishes the claimed events in order and records each answer; stops where it cannot record one. */
    method PublishClaimed(claimed: seq<Id>, plan: Plan) returns (r: BatchResult, err: Option<Error>, ghost done: nat)
      requires Keyed(store.rows)
      requires forall i :: 0 <= i < |claimed| ==> claimed[i] in store.rows && store.rows[claimed[i]].status.InProgress?
      requires forall i, j :: 0 <= i < j < |claimed| ==> claimed[i] != claimed[j]
      modifies store
      ensures done <= |claimed| && store.rows == ResolveAll(old(store.rows), claimed[..done], plan)
      ensures r.claimed == |claimed| && r.published == DeliveredAmong(old(store.rows), claimed[..done], plan)
      ensures EndsFirst(old(store.rows), store.rows, claimed, done, plan)
      ensures r.published == |WithStatus(store.rows, claimed[..done], Published)|
      ensures r.failed == |WithStatus(store.rows, claimed[..done], Failed)| && r.published + r.failed == done
      ensures forall i :: 0 <= i < done ==> Recordable(old(store.rows)[claimed[i]], plan)
      ensures if done == |claimed| then err == None
              else err == Some(Invalid) && !Recordable(old(store.rows)[claimed[done]], plan)
    {
      hide ResolveAll, DeliveredAmong, EndsFirst, WithStatus, Ends;
      var events := store.rows;
      ResolveNone(events, plan);
      r, err, done := BatchResult(|claimed|, 0, 0), None, 0;
      assert DeliveredAmong(events, [], plan) == 0 by { DeliveredNone(events, plan); }
      for i := 0 to |claimed|
        invariant done == i && r.claimed == |claimed| && err == None
        invariant store.rows == ResolveAll(events, claimed[..i], plan)
        invariant r.published == DeliveredAmong(events, claimed[..i], plan) && r.published + r.failed == i
        invariant forall j :: 0 <= j < i ==> Recordable(events[claimed[j]], plan)
      {
        var id := claimed[i];
        Untouched(events, claimed[..i], id, plan);
        ResolveAllUnfold(events, claimed[..i], id, plan);
        assert claimed[..i + 1] == claimed[..i] + [id];
        match plan.publish(events[id]) {
          case Rejected(message) =>
            var failed := store.MarkEventFailed(id, message, plan.failedAt(id) + MINUTE, plan.markedAt(id));
            if failed.Err? {
              err := Some(failed.error);
              AnsweredSoFar(events, claimed, i, plan);
              return;
            }
            r := r.(failed := r.failed + 1);
          case Delivered =>
            var published := store.MarkEventPublished(id, plan.markedAt(id));
            r := r.(published := r.published + 1);
        }
        done := i + 1;
      }
      AnsweredSoFar(events, claimed, |claimed|, plan);
    }

    /** Claims the least ready events, up to the batch size, and publishes them. */
    method ProcessBatch(statsAt: int, now: int, plan: Plan)
      returns (r: BatchResult, err: Option<Error>, stats: Stats, ghost done: nat)
      requires Keyed(store.rows) && worker != "" && batchSize > 0
      modifies store
      ensures Keyed(store.rows)
      ensures IsStats(old(store.rows), statsAt, stats)
      ensures var ids := ReadyIds(old(store.rows), now, batchSize);
              var claimed := ClaimAll(old(store.rows), ids, worker, now);
              && done <= |ids| && (forall i :: 0 <= i < |ids| ==> ids[i] in claimed)
              && store.rows == ResolveAll(claimed, ids[..done], plan)
              && FirstReady(ids, old(store.rows), now, batchSize)
              && ClaimsExactly(old(store.rows), claimed, ids, worker, now)
              && EndsFirst(claimed, store.rows, ids, done, plan)
              && r.claimed == |ids| && r.published == |WithStatus(store.rows, ids[..done], Published)|
              && r.failed == |WithStatus(store.rows, ids[..done], Failed)| && r.published + r.failed == done
              && (forall i :: 0 <= i < done ==> Recordable(claimed[ids[i]], plan))
              && (if done == |ids| then err == None else err == Some(Invalid) && !Recordable(claimed[ids[done]], plan))
      ensures Reports(plan) ==> err == None && r.claimed == r.published + r.failed
                                && store.rows == Batch(old(store.rows), batchSize, worker, now, plan)
    {
      hide ResolveAll, DeliveredAmong, ClaimAll, ReadySet, IsStats;
      hide FirstReady, ClaimsExactly, EndsFirst, WithStatus;
      stats := store.CollectStats(statsAt);
      var claimed := store.ClaimPendingEvents(worker, batchSize, now);
      ghost var table, ids := old(store.rows), ReadyIds(old(store.rows), now, batchSize);
      DistinctSelection(ids, ReadySet(table, now), ReadyRank(table), batchSize);
      SelectionIsFirstReady(table, now, batchSize);
      ClaimAllExactly(table, ids, worker, now);
      ClaimedInProgress(table, ids, worker, now);
      r, err, done := BatchResult(0, 0, 0), None, 0;
      match claimed {
        case Err(e) => err := Some(e);
        case Ok(events) =>
          r, err, done := PublishClaimed(events, plan);
          ResolveAllKeyed(ClaimAll(table, ids, worker, now), ids[..done], plan);
          assert ids[..|ids|] == ids;
      }
    }
  }

  lemma DeliveredNone(rows: map<Id, Row>, plan: Plan)
    ensures DeliveredAmong(rows, [], plan) == 0
  {}

  lemma Untouched(rows: map<Id, Row>, ids: seq<Id>, id: Id, plan: Plan)
    requires id in rows && id !in ids
    ensures id in ResolveAll(rows, ids, plan) && ResolveAll(rows, ids, plan)[id] == rows[id]
  {}

  // ----- batch accounting -----

  /** Every error the publisher reports has a text. */
  ghost predicate Reports(plan: Plan) {
    forall row :: Recordable(row, plan)
  }

  /** The table after one whole batch. */
  ghost function Batch(rows: map<Id, Row>, size: nat, worker: string, now: int, plan: Plan): map<Id, Row> {
    var ids := ReadyIds(rows, now, size);
    ResolveAll(ClaimAll(rows, ids, worker, now), ids, plan)
  }

  /**
    Batch accounting: the least ready events are claimed and answered, each ends as the broker's answer
    to its claimed row says, and every other event is untouched.
   */
  lemma BatchAccounting(rows: map<Id, Row>, size: nat, worker: string, now: int, plan: Plan)
    requires worker != "" && Reports(plan) && Keyed(rows)
    ensures var out := Batch(rows, size, worker, now, plan);
            var ids := ReadyIds(rows, now, size);
            && out.Keys == rows.Keys && Keyed(out)
            && FirstReady(ids, rows, now, size) && |ids| == Min(size, |ReadySet(rows, now)|)
            && (forall id :: id in rows && id !in ids ==> out[id] == rows[id])
            && (forall id :: id in ids ==>
                  id in rows && Ends(InProgressRow(rows[id], worker, now), out[id], plan))
            && |WithStatus(out, ids, Published)| + |WithStatus(out, ids, Failed)| == |ids|
  {
    hide IsLeastIds, ReadySet, ReadyIds, FirstReady, ClaimAll, ResolveAll, Ends, WithStatus;
    var ids := ReadyIds(rows, now, size);
    var claimed := ClaimAll(rows, ids, worker, now);
    SelectedReady(rows, now, size);
    SelectionIsFirstReady(rows, now, size);
    ClaimAllExactly(rows, ids, worker, now);
    ClaimedInProgress(rows, ids, worker, now);
    ClaimAllKeyed(rows, ids, worker, now);
    ResolveAllKeyed(claimed, ids, plan);
    assert ids[..|ids|] == ids;
    AnsweredSoFar(claimed, ids, |ids|, plan);
  }

  lemma SelectedReady(rows: map<Id, Row>, now: int, size: nat)
    ensures var ids := ReadyIds(rows, now, size);
            && |ids| == Min(size, |ReadySet(rows, now)|)
            && (forall id :: id in ids ==> id in ReadySet(rows, now))
            && (forall i, j :: 0 <= i < j < |ids| ==> ids[i] != ids[j])
  {
    DistinctSelection(ReadyIds(rows, now, size), ReadySet(rows, now), ReadyRank(rows), size);
  }

  // ----- draining a backlog -----

  /** The clock does not run backwards between the claim and the retries it schedules. */
  ghost predicate NotBefore(plan: Plan, now: int) {
    forall id :: plan.failedAt(id) >= now
  }

  /** A batch takes its events out of the backlog, whatever the broker answers. */
  lemma BatchShrinks(rows: map<Id, Row>, size: nat, worker: string, now: int, plan: Plan)
    requires worker != "" && Reports(plan) && Keyed(rows) && NotBefore(plan, now)
    ensures var left := ReadySet(Batch(rows, size, worker, now, plan), now);
            && left == (set id | id in ReadySet(rows, now) && id !in ReadyIds(rows, now, size))
            && |left| == |ReadySet(rows, now)| - Min(size, |ReadySet(rows, now)|)
  {
    hide Batch, ReadyIds;
    BatchAccounting(rows, size, worker, now, plan);
    SelectedReady(rows, now, size);
    var ids := ReadyIds(rows, now, size);
    Taken(rows, size, now);
  }

  lemma Taken(rows: map<Id, Row>, size: nat, now: int)
    ensures |set id | id in ReadySet(rows, now) && id !in ReadyIds(rows, now, size)|
         == |ReadySet(rows, now)| - Min(size, |ReadySet(rows, now)|)
  {
    TakenSize(ReadySet(rows, now), ReadyIds(rows, now, size), ReadyRank(rows), size);
  }

  ghost function Batches(rows: map<Id, Row>, size: nat, worker: string, now: int, plans: nat -> Plan,
                         runs: nat): map<Id, Row>
    decreases runs
  {
    if runs == 0 then rows
    else Batch(Batches(rows, size, worker, now, plans, runs - 1), size, worker, now, plans(runs - 1))
  }

  ghost predicate Healthy(plans: nat -> Plan, now: int) {
    forall k :: Reports(plans(k)) && NotBefore(plans(k), now)
  }

  lemma {:induction false} BacklogAfter(rows: map<Id, Row>, size: nat, worker: string, now: int, plans: nat -> Plan,
                                        runs: nat)
    requires worker != "" && Healthy(plans, now) && Keyed(rows)
    ensures Keyed(Batches(rows, size, worker, now, plans, runs))
    ensures var n := |ReadySet(rows, now)|;
            |ReadySet(Batches(rows, size, worker, now, plans, runs), now)|
            == if n <= runs * size then 0 else n - runs * size
    decreases runs
  {
    hide Batch, ReadySet, Reports, NotBefore;
    if runs != 0 {
      BacklogAfter(rows, size, worker, now, plans, runs - 1);
      var before := Batches(rows, size, worker, now, plans, runs - 1);
      BatchShrinks(before, size, worker, now, plans(runs - 1));
      BatchAccounting(before, size, worker, now, plans(runs - 1));
      OneMore(runs, size);
    }
  }

  lemma OneMore(runs: nat, size: nat)
    requires runs > 0
    ensures (runs - 1) * size + size == runs * size
  {}

  /** A backlog of n ready events is taken in ceil(n / size) batches, and not in fewer. */
  lemma CeilBatchesDrain(rows: map<Id, Row>, size: nat, worker: string, now: int, plans: nat -> Plan, runs: nat)
    requires size > 0 && worker != "" && Healthy(plans, now) && Keyed(rows)
    ensures ReadySet(Batches(rows, size, worker, now, plans, runs), now) == {} <==>
            runs >= (|ReadySet(rows, now)| + size - 1) / size
  {
    hide ReadySet, Batches, Healthy;
    var n := |ReadySet(rows, now)|;
    var needed := (n + size - 1) / size;
    BacklogAfter(rows, size, worker, now, plans, runs);
    assert n + size - 1 == needed * size + (n + size - 1) % size;
    CeilExact(n, size, runs);
  }

  lemma CeilExact(n: nat, size: nat, runs: nat)
    requires size > 0
    ensures n <= runs * size <==> runs >= (n + size - 1) / size
  {
    var needed := (n + size - 1) / size;
    assert n + size - 1 == needed * size + (n + size - 1) % size;
    if runs >= needed {
      assert runs * size - needed * size == (runs - needed) * size >= 0;
    } else {
      assert needed * size - runs * size == (needed - runs) * size;
      assert (needed - runs) * size >= size by { Multiple(needed - runs, size); }
    }
  }

  lemma Multiple(k: nat, size: nat)
    requires k >= 1
    ensures k * size >= size
  {}

  ghost predicate AlwaysDelivers(plans: nat -> Plan) {
    forall k, row :: plans(k).publish(row).Delivered?
  }

  /** With a publisher that always succeeds, an event that was ready and no longer is has been published. */
  lemma {:induction false} DrainedIsPublished(rows: map<Id, Row>, size: nat, worker: string, now: int,
                                              plans: nat -> Plan, runs: nat, id: Id)
    requires worker != "" && Healthy(plans, now) && AlwaysDelivers(plans) && Keyed(rows) && id in ReadySet(rows, now)
    ensures var out := Batches(rows, size, worker, now, plans, runs);
            id in out && (out[id] == rows[id] || out[id].status.Published?)
    decreases runs
  {
    hide Batch, Healthy;
    if runs != 0 {
      DrainedIsPublished(rows, size, worker, now, plans, runs - 1, id);
      BacklogAfter(rows, size, worker, now, plans, runs - 1);
      var before := Batches(rows, size, worker, now, plans, runs - 1);
      assert Reports(plans(runs - 1)) by { PlanReports(plans, now, runs - 1); }
      BatchAccounting(before, size, worker, now, plans(runs - 1));
      BatchDelivers(before, size, worker, now, plans(runs - 1), id);
    }
  }

  lemma PlanReports(plans: nat -> Plan, now: int, k: nat)
    requires Healthy(plans, now)
    ensures Reports(plans(k))
  {}

  lemma BatchDelivers(rows: map<Id, Row>, size: nat, worker: string, now: int, plan: Plan, id: Id)
    requires worker != "" && (forall row :: plan.publish(row).Delivered?) && id in rows
    ensures var out := Batch(rows, size, worker, now, plan);
            id in out && (out[id] == rows[id] || out[id].status.Published?)
  {
    hide IsLeastIds;
    SelectedReady(rows, now, size);
  }
}
