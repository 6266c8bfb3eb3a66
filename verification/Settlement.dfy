/** Settlement batches and line items, and the settlement transactions as all-or-nothing functions. */
module Settlement {
  import opened Common
  import opened Ranking
  import opened Entities
  import opened Ledger

  datatype BatchStatus = Created | Processing | Completed | BatchFailed

  datatype Batch = Batch(
    id: Id, status: BatchStatus, windowStart: int, windowEnd: int,
    claimedBy: Option<string>, lockedUntil: Option<int>, completedAt: Option<int>, lastError: Option<string>,
    createdAt: int, updatedAt: int)
  {
    predicate IsStale(now: int) {
      status.Processing? && lockedUntil.Some? && lockedUntil.value <= now
    }

    function StartProcessing(worker: string, until: int, now: int): Result<Batch, Error> {
      if worker == "" then Err(Invalid)
      else if !status.Created? && !status.BatchFailed? && !IsStale(now) then Err(InvalidBatchStatus)
      else if until <= now then Err(Invalid)
      else Ok(this.(status := Processing, claimedBy := Some(worker), lockedUntil := Some(until),
                    lastError := None, updatedAt := now))
    }

    function Complete(now: int): Result<Batch, Error> {
      if !status.Processing? then Err(InvalidBatchStatus)
      else Ok(this.(status := Completed, completedAt := Some(now), lockedUntil := None,
                    lastError := None, updatedAt := now))
    }

    function Fail(message: string, now: int): Result<Batch, Error> {
      if !status.Processing? then Err(InvalidBatchStatus)
      else if message == "" then Err(Invalid)
      else Ok(this.(status := BatchFailed, lockedUntil := None, lastError := Some(message), updatedAt := now))
    }
  }

  function NewBatch(id: Id, windowStart: int, windowEnd: int, now: int): Result<Batch, Error> {
    if id == "" then Err(Invalid)
    else if windowEnd <= windowStart then Err(InvalidSettlementWindow)
    else Ok(Batch(id, Created, windowStart, windowEnd, None, None, None, None, now, now))
  }

  datatype LineItem = LineItem(
    id: Id, batchId: Id, merchantId: Id, paymentId: Id, amount: int64, fee: int64, net: int64,
    currency: string, capturedAt: int, createdAt: int)

  function NewLineItem(
    id: Id, batchId: Id, merchantId: Id, paymentId: Id, amount: int64, fee: int64,
    currency: string, capturedAt: int, now: int): Result<LineItem, Error>
  {
    if id == "" || batchId == "" || merchantId == "" || paymentId == "" || amount <= 0
       || fee < 0 || fee > amount || !ValidCurrency(currency)
    then Err(Invalid)
    else Ok(LineItem(id, batchId, merchantId, paymentId, amount, fee, Wrap64(amount - fee), currency, capturedAt, now))
  }

  /** A row returned by the claim or by the listing of claimed payments. */
  datatype Claim = Claim(paymentId: Id, merchantId: Id, amount: int64, currency: string, capturedAt: int, batchId: Id)

  /** The ledger's tables, the payments' settlement_batch_id column, and the settlement tables. */
  datatype Db = Db(ledger: Ledger, batchOf: map<Id, Id>, batches: map<Id, Batch>, items: map<Id, LineItem>)

  /** The ids drawn while settling: the line item's and the event's, by payment. */
  datatype Draws = Draws(item: Id -> Id, event: Id -> Id)

  function CapturedAt(q: Payment): int {
    if q.capturedAt.Some? then q.capturedAt.value else 0
  }

  function ClaimOf(q: Payment, batchId: Id): Claim {
    Claim(q.id, q.merchantId, q.amount, q.currency, CapturedAt(q), batchId)
  }

  // ----- the SQL statements -----

  predicate Claimable(db: Db, id: Id, start: int, end: int) {
    && id in db.ledger.payments && db.ledger.payments[id].status.Captured? && id !in db.batchOf
    && db.ledger.payments[id].capturedAt.Some? && start <= CapturedAt(db.ledger.payments[id]) < end
  }

  function ClaimableSet(db: Db, start: int, end: int): set<Id> {
    set id | id in db.ledger.payments && Claimable(db, id, start, end)
  }

  function CaptureRank(payments: map<Id, Payment>): Id -> Rank {
    id => Rank(if id in payments then CapturedAt(payments[id]) else 0, 0, id)
  }

  function SetClaims(db: Db, batchId: Id, ids: set<Id>, now: int): Db {
    db.(ledger := Touch(db.ledger, ids, now), batchOf := db.batchOf + map id | id in ids :: batchId)
  }

  function ClaimRows(payments: map<Id, Payment>, ids: seq<Id>, batchId: Id): seq<Claim>
    requires forall i :: 0 <= i < |ids| ==> ids[i] in payments
  {
    seq(|ids|, i requires 0 <= i < |ids| => ClaimOf(payments[ids[i]], batchId))
  }

  /** Captured payments already claimed by the batch. */
  function ClaimedSet(db: Db, batchId: Id): set<Id> {
    set id | id in db.ledger.payments && db.ledger.payments[id].status.Captured?
             && id in db.batchOf && db.batchOf[id] == batchId
  }

  ghost function ListClaimed(db: Db, batchId: Id): (ids: seq<Id>)
    ensures IsLeastIds(ids, ClaimedSet(db, batchId), CaptureRank(db.ledger.payments), |ClaimedSet(db, batchId)|)
  {
    LeastIds(ClaimedSet(db, batchId), CaptureRank(db.ledger.payments), |ClaimedSet(db, batchId)|)
  }

  predicate CapturedBefore(a: Payment, b: Payment) {
    && a.capturedAt.Some? && b.capturedAt.Some?
    && (a.capturedAt.value < b.capturedAt.value || (a.capturedAt == b.capturedAt && IdLess(a.id, b.id)))
  }

  /** Captured inside the window, and in no batch. */
  predicate Awaiting(db: Db, id: Id, start: int, end: int) {
    && id in db.ledger.payments && id !in db.batchOf
    && var q := db.ledger.payments[id];
       q.status.Captured? && q.capturedAt.Some? && start <= q.capturedAt.value < end
  }

  /** The k unclaimed payments of the window captured first; of one instant, those with the lesser ids. */
  ghost predicate FirstCaptured(ids: set<Id>, db: Db, start: int, end: int, k: nat) {
    && |ids| <= k
    && (forall id :: id in ids ==> Awaiting(db, id, start, end))
    && (forall id :: Awaiting(db, id, start, end) && id !in ids ==>
          |ids| == k && forall a :: a in ids ==> CapturedBefore(db.ledger.payments[a], db.ledger.payments[id]))
  }

  lemma RankedCaptures(payments: map<Id, Payment>, a: Id, b: Id)
    requires KeyedPayments(payments) && a in payments && b in payments
    requires payments[a].capturedAt.Some? && payments[b].capturedAt.Some?
    requires Less(CaptureRank(payments)(a), CaptureRank(payments)(b))
    ensures CapturedBefore(payments[a], payments[b])
  {}

  lemma ClaimableExactly(db: Db, start: int, end: int)
    ensures forall id :: id in ClaimableSet(db, start, end) <==> Awaiting(db, id, start, end)
  {}

  lemma LeastAreFirstCaptured(db: Db, start: int, end: int, k: nat, ids: seq<Id>)
    requires KeyedPayments(db.ledger.payments)
    requires IsLeastIds(ids, ClaimableSet(db, start, end), CaptureRank(db.ledger.payments), k)
    ensures FirstCaptured(IdSet(ids), db, start, end, k)
  {
    hide ClaimableSet, CapturedBefore, CaptureRank, Less;
    var all, rank := ClaimableSet(db, start, end), CaptureRank(db.ledger.payments);
    ClaimableExactly(db, start, end);
    SelectionBound(ids, all, rank, k);
    DistinctSelection(ids, all, rank, k);
    DistinctSize(ids);
    forall a, id | a in ids && id in all && id !in ids
      ensures CapturedBefore(db.ledger.payments[a], db.ledger.payments[id])
    {
      RankedCaptures(db.ledger.payments, a, id);
    }
  }

  predicate HasItem(db: Db, paymentId: Id) {
    exists i :: i in db.items && db.items[i].paymentId == paymentId
  }

  // ----- the transactions -----

  /** One round of the settlement loop: payment row, line item, event. */
  function SettleOne(db: Db, batchId: Id, c: Claim, now: int, itemId: Id, eventId: Id): Result<Db, Error> {
    if c.paymentId !in db.ledger.payments then Err(PaymentNotFound)
    else
      var _ :- db.ledger.payments[c.paymentId].Settle(now);
      var item :- NewLineItem(itemId, batchId, c.merchantId, c.paymentId, c.amount, 0, c.currency, c.capturedAt, now);
      if item.id in db.items || HasItem(db, c.paymentId) then Err(DuplicateLineItem)
      else
        var ledger :- Settle(db.ledger, c.paymentId, batchId, now, eventId);
        Ok(db.(ledger := ledger, items := db.items[item.id := item]))
  }

  /** The payment, once captured, is settled; a line item repeats its claim, free of fees; an event repeats its row. */
  predicate SettlesClaim(before: Db, after: Db, batchId: Id, c: Claim, now: int, itemId: Id, eventId: Id) {
    && c.paymentId in before.ledger.payments
    && var q := before.ledger.payments[c.paymentId];
       && q.status.Captured? && itemId !in before.items && !HasItem(before, c.paymentId)
       && after.ledger.payments ==
          before.ledger.payments[c.paymentId := q.(status := Settled, settledAt := Some(now), updatedAt := now)]
       && after.items ==
          before.items[itemId := LineItem(itemId, batchId, c.merchantId, c.paymentId, c.amount, 0, c.amount, c.currency,
                                          c.capturedAt, now)]
       && after.ledger.log ==
          before.ledger.log + [Event(eventId, PaymentSettled(c.paymentId, q.merchantId, q.payerId, batchId, q.amount,
                                                             q.currency, now), now)]
       && after == before.(ledger := before.ledger.(payments := after.ledger.payments, log := after.ledger.log),
                           items := after.items)
  }

  lemma SettleOneInFull(db: Db, batchId: Id, c: Claim, now: int, itemId: Id, eventId: Id)
    requires KeyedPayments(db.ledger.payments) && SettleOne(db, batchId, c, now, itemId, eventId).Ok?
    ensures SettlesClaim(db, SettleOne(db, batchId, c, now, itemId, eventId).value, batchId, c, now, itemId, eventId)
  {}

  function SettleList(db: Db, batchId: Id, list: seq<Claim>, now: int, draws: Draws): Result<Db, Error> {
    if list == [] then Ok(db)
    else
      var c := list[|list| - 1];
      var before :- SettleList(db, batchId, list[..|list| - 1], now, draws);
      SettleOne(before, batchId, c, now, draws.item(c.paymentId), draws.event(c.paymentId))
  }

  /** One CreateBatch call; ids are the claimed payments in the order the database returned them. */
  datatype BatchRun = BatchRun(
    batchId: Id, start: int, end: int, limit: nat, worker: string, ttl: int, now: int, ids: seq<Id>, draws: Draws)

  /** A claim may skip rows others have locked, and its rows come back in any order. */
  predicate PossibleClaim(db: Db, run: BatchRun) {
    && |run.ids| <= run.limit
    && (forall i :: 0 <= i < |run.ids| ==> Claimable(db, run.ids[i], run.start, run.end))
    && (forall i, j :: 0 <= i < j < |run.ids| ==> run.ids[i] != run.ids[j])
  }

  function IdSet(ids: seq<Id>): set<Id> {
    set id | id in ids
  }

  /** The batch inserted, started, and its payments claimed. */
  function OpenBatch(db: Db, run: BatchRun): Result<Db, Error> {
    var batch :- NewBatch(run.batchId, run.start, run.end, run.now);
    if run.batchId in db.batches then Err(DuplicateBatch)
    else
      var started :- batch.StartProcessing(run.worker, run.now + run.ttl, run.now);
      Ok(SetClaims(db.(batches := db.batches[run.batchId := started]), run.batchId, IdSet(run.ids), run.now))
  }

  /** Which error opening a batch meets, in the order of its checks, and when it meets none. */
  lemma OpenBatchExactly(db: Db, run: BatchRun)
    ensures var out := OpenBatch(db, run);
            if run.batchId == "" then out == Err(Invalid)
            else if run.end <= run.start then out == Err(InvalidSettlementWindow)
            else if run.batchId in db.batches then out == Err(DuplicateBatch)
            else if run.worker == "" || run.ttl <= 0 then out == Err(Invalid)
            else out.Ok?
  {}

  /** The batch opened and the first k claimed payments settled. */
  function SettlePrefix(db: Db, run: BatchRun, k: nat): Result<Db, Error>
    requires PossibleClaim(db, run) && k <= |run.ids|
  {
    var open :- OpenBatch(db, run);
    SettleList(open, run.batchId, ClaimRows(open.ledger.payments, run.ids[..k], run.batchId), run.now, run.draws)
  }

  function FinishBatch(db: Db, batchId: Id, now: int): Result<Db, Error> {
    if batchId !in db.batches then Err(BatchNotFound)
    else
      var done :- db.batches[batchId].Complete(now);
      Ok(db.(batches := db.batches[batchId := done]))
  }

  function CreateBatch(db: Db, run: BatchRun): Result<Db, Error>
    requires PossibleClaim(db, run)
  {
    var settled :- SettlePrefix(db, run, |run.ids|);
    FinishBatch(settled, run.batchId, run.now)
  }

  // ----- recovery -----

  datatype Recovery = Recovery(limit: int, claimLimit: nat, worker: string, ttl: int, now: int, draws: Draws)

  function StaleSet(batches: map<Id, Batch>, now: int): set<Id> {
    set b | b in batches && batches[b].IsStale(now)
  }

  function StaleRank(batches: map<Id, Batch>): Id -> Rank {
    b => if b in batches && batches[b].lockedUntil.Some?
         then Rank(batches[b].lockedUntil.value, batches[b].createdAt, b) else Rank(0, 0, b)
  }

  predicate StaleBefore(a: Batch, b: Batch) {
    && a.lockedUntil.Some? && b.lockedUntil.Some?
    && (|| a.lockedUntil.value < b.lockedUntil.value
        || (a.lockedUntil == b.lockedUntil
            && (a.createdAt < b.createdAt || (a.createdAt == b.createdAt && IdLess(a.id, b.id)))))
  }

  /** Still processing though its lock has run out. */
  predicate Abandoned(b: Batch, now: int) {
    b.status.Processing? && b.lockedUntil.Some? && b.lockedUntil.value <= now
  }

  /** The k abandoned batches whose locks ran out first, in that order; then by creation, then by id. */
  ghost predicate FirstStale(list: seq<Batch>, batches: map<Id, Batch>, now: int, k: nat) {
    && |list| <= k
    && (forall b :: b in list ==> b.id in batches && batches[b.id] == b && Abandoned(b, now))
    && (forall i, j :: 0 <= i < j < |list| ==> StaleBefore(list[i], list[j]))
    && (forall id :: id in batches && Abandoned(batches[id], now) && batches[id] !in list ==>
          |list| == k && forall b :: b in list ==> StaleBefore(b, batches[id]))
  }

  ghost predicate KeyedBatches(batches: map<Id, Batch>) {
    forall id :: id in batches ==> batches[id].id == id
  }

  lemma RankedStale(batches: map<Id, Batch>, a: Id, b: Id)
    requires KeyedBatches(batches) && a in batches && b in batches
    requires batches[a].lockedUntil.Some? && batches[b].lockedUntil.Some?
    requires Less(StaleRank(batches)(a), StaleRank(batches)(b))
    ensures StaleBefore(batches[a], batches[b])
  {}

  lemma StaleExactly(batches: map<Id, Batch>, now: int)
    ensures forall id :: id in StaleSet(batches, now) <==> id in batches && Abandoned(batches[id], now)
  {}

  lemma StaleInOrder(batches: map<Id, Batch>, now: int, ids: seq<Id>, k: nat)
    requires KeyedBatches(batches) && IsLeastIds(ids, StaleSet(batches, now), StaleRank(batches), k)
    ensures forall i :: 0 <= i < |ids| ==> ids[i] in batches
    ensures forall i, j :: 0 <= i < j < |ids| ==> StaleBefore(batches[ids[i]], batches[ids[j]])
    ensures forall i, id :: 0 <= i < |ids| && id in batches && Abandoned(batches[id], now) && id !in ids
                            ==> StaleBefore(batches[ids[i]], batches[id])
  {
    hide Less, StaleBefore, StaleRank, StaleSet;
    StaleExactly(batches, now);
    forall i, j | 0 <= i < j < |ids| ensures StaleBefore(batches[ids[i]], batches[ids[j]]) {
      RankedStale(batches, ids[i], ids[j]);
    }
    forall i, id | 0 <= i < |ids| && id in batches && Abandoned(batches[id], now) && id !in ids
      ensures StaleBefore(batches[ids[i]], batches[id])
    {
      assert ids[i] in ids;
      RankedStale(batches, ids[i], id);
    }
  }

  lemma SelectionIsFirstStale(batches: map<Id, Batch>, now: int, k: nat)
    requires KeyedBatches(batches)
    ensures FirstStale(BatchRows(batches, StaleIds(batches, now, k)), batches, now, k)
  {
    hide Less, StaleBefore, StaleRank, StaleSet;
    var ids := StaleIds(batches, now, k);
    StaleExactly(batches, now);
    SelectionBound(ids, StaleSet(batches, now), StaleRank(batches), k);
    StaleInOrder(batches, now, ids, k);
    RowsFirstStale(batches, BatchRows(batches, ids), ids, now, k);
  }

  lemma RowsFirstStale(batches: map<Id, Batch>, list: seq<Batch>, ids: seq<Id>, now: int, k: nat)
    requires KeyedBatches(batches) && |list| == |ids| <= k
    requires forall i :: 0 <= i < |ids| ==> ids[i] in batches && list[i] == batches[ids[i]]
    requires forall i :: 0 <= i < |ids| ==> Abandoned(batches[ids[i]], now)
    requires forall i, j :: 0 <= i < j < |ids| ==> StaleBefore(batches[ids[i]], batches[ids[j]])
    requires forall i, id :: 0 <= i < |ids| && id in batches && Abandoned(batches[id], now) && id !in ids
                             ==> StaleBefore(batches[ids[i]], batches[id])
    requires |ids| < k ==> forall id :: id in batches && Abandoned(batches[id], now) ==> id in ids
    ensures FirstStale(list, batches, now, k)
  {
    hide StaleBefore;
    forall id | id in ids ensures id in batches && batches[id] in list {
      var i :| 0 <= i < |ids| && ids[i] == id;
      assert list[i] == batches[id];
    }
  }

  function RecoveryLimit(r: Recovery): nat {
    if r.limit <= 0 then r.claimLimit else r.limit
  }

  ghost function StaleIds(batches: map<Id, Batch>, now: int, limit: nat): (ids: seq<Id>)
    ensures IsLeastIds(ids, StaleSet(batches, now), StaleRank(batches), limit)
  {
    LeastIds(StaleSet(batches, now), StaleRank(batches), limit)
  }

  ghost function Takeover(db: Db, batch: Batch, r: Recovery): Result<Db, Error> {
    var started :- batch.StartProcessing(r.worker, r.now + r.ttl, r.now);
    if batch.id !in db.batches then Err(BatchNotFound)
    else Ok(db.(batches := db.batches[batch.id := started]))
  }

  ghost function RecoverOne(db: Db, batch: Batch, r: Recovery): Result<Db, Error> {
    var taken :- Takeover(db, batch, r);
    var rows := ClaimRows(taken.ledger.payments, ListClaimed(taken, batch.id), batch.id);
    var settled :- SettleList(taken, batch.id, rows, r.now, r.draws);
    FinishBatch(settled, batch.id, r.now)
  }

  ghost function RecoverList(db: Db, list: seq<Batch>, r: Recovery): Result<Db, Error> {
    if list == [] then Ok(db)
    else
      var before :- RecoverList(db, list[..|list| - 1], r);
      RecoverOne(before, list[|list| - 1], r)
  }

  ghost function BatchRows(batches: map<Id, Batch>, ids: seq<Id>): seq<Batch>
    requires forall i :: 0 <= i < |ids| ==> ids[i] in batches
  {
    seq(|ids|, i requires 0 <= i < |ids| => batches[ids[i]])
  }

  ghost function Recover(db: Db, r: Recovery): Result<Db, Error> {
    RecoverList(db, BatchRows(db.batches, StaleIds(db.batches, r.now, RecoveryLimit(r))), r)
  }
}
