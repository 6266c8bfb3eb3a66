/** CreateBatch and RecoverStaleBatches over the tables, always inside a Postgres transaction. */
module SettlementService {
  import opened Common
  import opened Ranking
  import opened Entities
  import opened Ledger
  import opened Stores
  import opened Settlement

  class SettlementStore {
    var batches: map<Id, Batch>
    var items: map<Id, LineItem>
    var batchOf: map<Id, Id>  // the payments' settlement_batch_id column

    constructor ()
      ensures batches == map[] && items == map[] && batchOf == map[]
    {
      batches, items, batchOf := map[], map[], map[];
    }

    method CreateBatch(b: Batch) returns (r: Result<Batch, Error>)
      modifies this`batches
      ensures r == if b.id in old(batches) then Err(DuplicateBatch) else Ok(b)
      ensures batches == if r.Ok? then old(batches)[b.id := b] else old(batches)
    {
      if b.id in batches {
        return Err(DuplicateBatch);
      }
      batches := batches[b.id := b];
      return Ok(b);
    }

    method UpdateBatch(b: Batch) returns (r: Result<Batch, Error>)
      modifies this`batches
      ensures r == if b.id in old(batches) then Ok(b) else Err(BatchNotFound)
      ensures batches == if r.Ok? then old(batches)[b.id := b] else old(batches)
    {
      if b.id !in batches {
        return Err(BatchNotFound);
      }
      batches := batches[b.id := b];
      return Ok(b);
    }

    method CreateLineItem(item: LineItem) returns (r: Result<LineItem, Error>)
      modifies this`items
      ensures r == if item.id in old(items)
                      || (exists i :: i in old(items) && old(items)[i].paymentId == item.paymentId)
                   then Err(DuplicateLineItem) else Ok(item)
      ensures items == if r.Ok? then old(items)[item.id := item] else old(items)
    {
      if item.id in items || exists i :: i in items && items[i].paymentId == item.paymentId {
        return Err(DuplicateLineItem);
      }
      items := items[item.id := item];
      return Ok(item);
    }

    method ListStaleProcessingBatches(now: int, limit: nat) returns (r: seq<Batch>)
      ensures r == BatchRows(batches, StaleIds(batches, now, limit))
      ensures KeyedBatches(batches) ==> FirstStale(r, batches, now, limit)
    {
      hide FirstStale;
      var rows := batches;
      var stale := StaleSet(rows, now);
      var ids := SelectLeast(stale, StaleRank(rows), limit);
      r := seq(|ids|, i requires 0 <= i < |ids| && ids[i] in rows => rows[ids[i]]);
      if KeyedBatches(batches) {
        SelectionIsFirstStale(batches, now, limit);
      }
    }
  }

  /** Filter, ORDER BY, LIMIT over the ids of a table. */
  method SelectLeast(ids: set<Id>, rank: Id -> Rank, k: nat) returns (r: seq<Id>)
    requires Ranks(ids, rank)
    ensures r == LeastIds(ids, rank, k)
  {
    var rows: seq<Id> := [];
    var unread := ids;
    while unread != {}
      invariant unread <= ids
      invariant forall id :: id in rows <==> id in ids && id !in unread
      invariant forall i, j :: 0 <= i < j < |rows| ==> rows[i] != rows[j]
      decreases unread
    {
      var id :| id in unread;
      unread := unread - {id};
      rows := rows + [id];
    }
    forall i, j | 0 <= i < j < |rows| ensures rank(rows[i]) != rank(rows[j]) {
      assert rows[i] in rows && rows[j] in rows;
    }
    var sorted := Sort(rows, rank);
    forall id ensures id in sorted <==> id in ids {
      assert id in multiset(sorted) <==> id in multiset(rows);
    }
    AscendingTruncation(sorted, ids, rank, k);
    r := sorted[..Min(k, |sorted|)];
    LeastIdsUnique(r, ids, rank, k);
  }

  datatype Progress = Progress(items: seq<LineItem>, payments: seq<Payment>)

  /** The line item and the payment a round of the settlement loop returns for a claim. */
  predicate IsReport(item: LineItem, q: Payment, batchId: Id, c: Claim, now: int, itemId: Id) {
    && item ==
       LineItem(itemId, batchId, c.merchantId, c.paymentId, c.amount, 0, c.amount, c.currency, c.capturedAt, now)
    && q.id == c.paymentId && q.status.Settled? && q.settledAt == Some(now)
  }

  ghost predicate IsReportOf(done: Progress, batchId: Id, claimed: seq<Claim>, now: int, draws: Draws) {
    && |done.items| == |done.payments| == |claimed|
    && forall i :: 0 <= i < |claimed| ==>
         IsReport(done.items[i], done.payments[i], batchId, claimed[i], now, draws.item(claimed[i].paymentId))
  }

  /** The batch row a recovery leaves. */
  function CompletedBy(stale: Batch, worker: string, now: int): Batch {
    stale.(status := Completed, claimedBy := Some(worker), lockedUntil := None, completedAt := Some(now),
           lastError := None, updatedAt := now)
  }

  ghost predicate AllCompletedBy(done: seq<(Batch, Progress)>, stale: seq<Batch>, worker: string, now: int) {
    && |done| == |stale|
    && forall i :: 0 <= i < |stale| ==> done[i].0 == CompletedBy(stale[i], worker, now)
  }

  /** A row for each captured payment of the batch, by the instant of its capture and then by id. */
  ghost predicate AreClaims(claimed: seq<Claim>, payments: map<Id, Payment>, batchOf: map<Id, Id>, batchId: Id) {
    && (forall c :: c in claimed ==> IsClaim(c, payments, batchOf, batchId))
    && (forall id :: id in payments && payments[id].status.Captured? && id in batchOf && batchOf[id] == batchId ==>
          exists c :: c in claimed && c.paymentId == id)
    && (forall i, j :: 0 <= i < j < |claimed| ==> ClaimedBefore(claimed[i], claimed[j]))
  }

  predicate ClaimedBefore(a: Claim, b: Claim) {
    a.capturedAt < b.capturedAt || (a.capturedAt == b.capturedAt && IdLess(a.paymentId, b.paymentId))
  }

  /** The row repeats its payment; a missing instant of capture, which no captured payment has, reads as zero. */
  predicate IsClaim(c: Claim, payments: map<Id, Payment>, batchOf: map<Id, Id>, batchId: Id) {
    && c.paymentId in payments && c.paymentId in batchOf && batchOf[c.paymentId] == c.batchId == batchId
    && var q := payments[c.paymentId];
       && q.status.Captured? && c.merchantId == q.merchantId && c.amount == q.amount && c.currency == q.currency
       && c.capturedAt == (if q.capturedAt.Some? then q.capturedAt.value else 0)
  }

  lemma ClaimedRow(db: Db, batchId: Id, id: Id)
    requires KeyedPayments(db.ledger.payments) && id in ClaimedSet(db, batchId)
    ensures IsClaim(ClaimOf(db.ledger.payments[id], batchId), db.ledger.payments, db.batchOf, batchId)
  {}

  lemma RankedClaims(payments: map<Id, Payment>, a: Id, b: Id, batchId: Id)
    requires KeyedPayments(payments) && a in payments && b in payments
    requires Less(CaptureRank(payments)(a), CaptureRank(payments)(b))
    ensures ClaimedBefore(ClaimOf(payments[a], batchId), ClaimOf(payments[b], batchId))
  {}

  lemma RowsAreClaims(db: Db, batchId: Id, ids: seq<Id>, claimed: seq<Claim>)
    requires |claimed| == |ids|
    requires forall i :: 0 <= i < |ids| ==> claimed[i].paymentId == ids[i]
    requires forall i :: 0 <= i < |ids| ==> IsClaim(claimed[i], db.ledger.payments, db.batchOf, batchId)
    requires forall i, j :: 0 <= i < j < |claimed| ==> ClaimedBefore(claimed[i], claimed[j])
    requires forall id :: id in ClaimedSet(db, batchId) ==> id in ids
    ensures AreClaims(claimed, db.ledger.payments, db.batchOf, batchId)
  {
    hide IsClaim, ClaimedBefore;
    var payments, batchOf := db.ledger.payments, db.batchOf;
    forall id | id in payments && payments[id].status.Captured? && id in batchOf && batchOf[id] == batchId
      ensures exists c :: c in claimed && c.paymentId == id
    {
      assert id in ClaimedSet(db, batchId);
      var i :| 0 <= i < |ids| && ids[i] == id;
      assert claimed[i] in claimed && claimed[i].paymentId == id;
    }
  }

  lemma ListedAreClaims(db: Db, batchId: Id)
    requires KeyedPayments(db.ledger.payments)
    ensures AreClaims(ClaimRows(db.ledger.payments, ListClaimed(db, batchId), batchId), db.ledger.payments, db.batchOf,
                      batchId)
  {
    hide Less, CaptureRank, IsClaim, ClaimedBefore, IsLeastIds, AreClaims;
    var ids, payments := ListClaimed(db, batchId), db.ledger.payments;
    FullSelection(ids, ClaimedSet(db, batchId), CaptureRank(payments));
    forall i | 0 <= i < |ids|
      ensures ids[i] in payments && payments[ids[i]].id == ids[i]
      ensures IsClaim(ClaimOf(payments[ids[i]], batchId), payments, db.batchOf, batchId)
    {
      ClaimedRow(db, batchId, ids[i]);
    }
    ListedAscend(db, batchId);
    RowsAreClaims(db, batchId, ids, ClaimRows(payments, ids, batchId));
  }

  lemma ListedAscend(db: Db, batchId: Id)
    requires KeyedPayments(db.ledger.payments)
    ensures var claimed := ClaimRows(db.ledger.payments, ListClaimed(db, batchId), batchId);
            forall i, j :: 0 <= i < j < |claimed| ==> ClaimedBefore(claimed[i], claimed[j])
  {
    hide Less, CaptureRank, ClaimedBefore;
    var ids, payments := ListClaimed(db, batchId), db.ledger.payments;
    forall i, j | 0 <= i < j < |ids|
      ensures ClaimedBefore(ClaimOf(payments[ids[i]], batchId), ClaimOf(payments[ids[j]], batchId))
    {
      assert ids[i] in ClaimedSet(db, batchId) && ids[j] in ClaimedSet(db, batchId);
      RankedClaims(payments, ids[i], ids[j], batchId);
    }
  }

  class Service {
    ghost const payers: PayerStore
    const payments: PaymentStore
    const outbox: EventStore
    const store: SettlementStore
    const worker: string
    const claimLimit: nat
    const lockTTL: int

    constructor (ghost payers: PayerStore, payments: PaymentStore, outbox: EventStore, store: SettlementStore,
                 worker: string, claimLimit: int, lockTTL: int)
      ensures this.payers == payers && this.payments == payments && this.outbox == outbox && this.store == store
      ensures this.worker == (if worker == "" then "settlement-worker" else worker)
      ensures this.claimLimit == if claimLimit <= 0 then 100 else claimLimit
      ensures this.lockTTL == if lockTTL <= 0 then 5 * MINUTE else lockTTL
    {
      this.payers, this.payments, this.outbox, this.store := payers, payments, outbox, store;
      this.worker := if worker == "" then "settlement-worker" else worker;
      this.claimLimit := if claimLimit <= 0 then 100 else claimLimit;
      this.lockTTL := if lockTTL <= 0 then 5 * MINUTE else lockTTL;
    }

    ghost function View(): Db
      reads payers, payments, outbox, store
    {
      Db(Ledger(payers.payers, payments.payments, payments.holds, payments.holdOf, outbox.log, payers.opening),
         store.batchOf, store.batches, store.items)
    }

    method Rollback(savedPayments: map<Id, Payment>, savedLog: seq<Event>, savedBatches: map<Id, Batch>,
                    savedItems: map<Id, LineItem>, savedClaims: map<Id, Id>)
      modifies payments`payments, outbox, store
      ensures View() == old(View()).(ledger := old(View()).ledger.(payments := savedPayments, log := savedLog),
                                     batchOf := savedClaims, batches := savedBatches, items := savedItems)
    {
      payments.payments := savedPayments;
      outbox.log := savedLog;
      store.batches, store.items, store.batchOf := savedBatches, savedItems, savedClaims;
    }

    /** The body of the settlement loop. */
    method SettleRow(batchId: Id, c: Claim, now: int, itemId: Id, eventId: Id)
      returns (r: Result<(LineItem, Payment), Error>)
      requires KeyedPayments(payments.payments)
      modifies payments`payments, outbox, store`items
      ensures SettleOne(old(View()), batchId, c, now, itemId, eventId) == if r.Ok? then Ok(View()) else Err(r.error)
      ensures r.Ok? ==> SettlesClaim(old(View()), View(), batchId, c, now, itemId, eventId)
      ensures r.Ok? ==> IsReport(r.value.0, r.value.1, batchId, c, now, itemId)
      ensures r.Ok? ==> c.paymentId in payments.payments && r.value.1 == payments.payments[c.paymentId]
                        && itemId in store.items && r.value.0 == store.items[itemId]
      ensures KeyedPayments(payments.payments)
    {
      var payment :- payments.GetPayment(c.paymentId);
      var settled :- payment.Settle(now);
      var savedPayment := payments.UpdatePayment(settled);
      match savedPayment { case Err(e) => return Err(e); case Ok(_) => }
      var item :- NewLineItem(itemId, batchId, c.merchantId, c.paymentId, c.amount, 0, c.currency, c.capturedAt, now);
      item :- store.CreateLineItem(item);
      var _ :- outbox.CreateEvent(
        Event(eventId, PaymentSettled(settled.id, settled.merchantId, settled.payerId, batchId, settled.amount,
                                      settled.currency, now), now));
      SettleOneInFull(old(View()), batchId, c, now, itemId, eventId);
      return Ok((item, settled));
    }

    method SettleClaimedPayments(batchId: Id, claimed: seq<Claim>, now: int, draws: Draws)
      returns (r: Result<Progress, Error>)
      requires KeyedPayments(payments.payments)
      modifies payments`payments, outbox, store`items
      ensures SettleList(old(View()), batchId, claimed, now, draws) == if r.Ok? then Ok(View()) else Err(r.error)
      ensures r.Ok? ==> IsReportOf(r.value, batchId, claimed, now, draws)
      ensures KeyedPayments(payments.payments)
    {
      hide SettleOne, SettlesClaim, IsReport;
      var done := Progress([], []);
      for i := 0 to |claimed|
        invariant KeyedPayments(payments.payments)
        invariant SettleList(old(View()), batchId, claimed[..i], now, draws) == Ok(View())
        invariant IsReportOf(done, batchId, claimed[..i], now, draws)
      {
        var row := SettleRow(batchId, claimed[i], now, draws.item(claimed[i].paymentId),
                             draws.event(claimed[i].paymentId));
        SettleListUnfold(old(View()), batchId, claimed[..i], claimed[i], now, draws);
        assert claimed[..i + 1] == claimed[..i] + [claimed[i]];
        if row.Err? {
          FailurePropagates(old(View()), batchId, claimed, i + 1, now, draws);
          return Err(row.error);
        }
        done := Progress(done.items + [row.value.0], done.payments + [row.value.1]);
      }
      assert claimed[..|claimed|] == claimed;
      return Ok(done);
    }

    method SelectClaimable(start: int, end: int) returns (ids: seq<Id>)
      ensures ids == LeastIds(ClaimableSet(View(), start, end), CaptureRank(payments.payments), claimLimit)
    {
      var rows, claims := payments.payments, store.batchOf;
      var claimable := set id | id in rows && rows[id].status.Captured? && id !in claims
                                && rows[id].capturedAt.Some? && start <= rows[id].capturedAt.value < end;
      assert claimable == ClaimableSet(View(), start, end);
      ids := SelectLeast(claimable, CaptureRank(rows), claimLimit);
    }

    method StampClaims(batchId: Id, ids: seq<Id>, now: int) returns (claimed: seq<Claim>)
      requires KeyedPayments(payments.payments)
      requires forall i :: 0 <= i < |ids| ==> ids[i] in payments.payments
      modifies payments`payments, store`batchOf
      ensures View() == SetClaims(old(View()), batchId, IdSet(ids), now)
      ensures (forall i :: 0 <= i < |ids| ==> ids[i] in payments.payments)
              && claimed == ClaimRows(payments.payments, ids, batchId)
      ensures KeyedPayments(payments.payments)
    {
      var rows, claims := payments.payments, store.batchOf;
      var chosen := IdSet(ids);
      var stamped := map id | id in rows :: if id in chosen then rows[id].(updatedAt := now) else rows[id];
      payments.payments := stamped;
      store.batchOf := claims + map id | id in chosen :: batchId;
      claimed := seq(|ids|, i requires 0 <= i < |ids| && ids[i] in stamped => ClaimOf(stamped[ids[i]], batchId));
    }

    /** UPDATE ... SET settlement_batch_id over the selected rows; the returned row order is not specified. */
    method ClaimCapturedPayments(batchId: Id, start: int, end: int, now: int)
      returns (claimed: seq<Claim>, ghost ids: seq<Id>)
      requires KeyedPayments(payments.payments)
      modifies payments`payments, store`batchOf
      ensures IdSet(ids) == IdSet(LeastIds(ClaimableSet(old(View()), start, end),
                                          CaptureRank(old(payments.payments)), claimLimit))
      ensures FirstCaptured(IdSet(ids), old(View()), start, end, claimLimit)
      ensures |ids| <= claimLimit && forall i, j :: 0 <= i < j < |ids| ==> ids[i] != ids[j]
      ensures forall i :: 0 <= i < |ids| ==> Claimable(old(View()), ids[i], start, end)
      ensures View() == SetClaims(old(View()), batchId, IdSet(ids), now)
      ensures (forall i :: 0 <= i < |ids| ==> ids[i] in payments.payments)
              && claimed == ClaimRows(payments.payments, ids, batchId)
      ensures KeyedPayments(payments.payments)
    {
      hide ClaimableSet, Claimable, SetClaims, IsLeastIds, FirstCaptured;
      var picked := SelectClaimable(start, end);
      ids := picked;
      LeastIsPossible(View(), start, end, claimLimit, picked);
      LeastAreFirstCaptured(View(), start, end, claimLimit, picked);
      ClaimableRows(View(), picked, start, end);
      claimed := StampClaims(batchId, picked, now);
    }

    /** Inserts the batch and starts it. */
    method StartBatch(start: int, end: int, now: int, batchId: Id) returns (r: Result<Batch, Error>)
      modifies store`batches
      ensures r.Ok? ==> batchId !in old(store.batches)
                        && r.value == Batch(batchId, Processing, start, end, Some(worker), Some(now + lockTTL), None,
                                            None, now, now)
      ensures r.Ok? ==> store.batches == old(store.batches)[batchId := r.value]
      ensures forall run: BatchRun :: Starts(run, start, end, now, batchId, worker, lockTTL) ==>
                OpenBatch(old(View()), run) ==
                  if r.Ok? then Ok(SetClaims(View(), batchId, IdSet(run.ids), now)) else Err(r.error)
    {
      var batch :- NewBatch(batchId, start, end, now);
      batch :- store.CreateBatch(batch);
      batch :- batch.StartProcessing(worker, now + lockTTL, now);
      var savedBatch := store.UpdateBatch(batch);
      match savedBatch { case Err(e) => return Err(e); case Ok(_) => }
      assert store.batches == old(store.batches)[batchId := batch];
      return Ok(batch);
    }

    method FinishBatch(batch: Batch, now: int) returns (r: Result<Batch, Error>)
      requires batch.id in store.batches && store.batches[batch.id] == batch
      modifies store`batches
      ensures Settlement.FinishBatch(old(View()), batch.id, now) == if r.Ok? then Ok(View()) else Err(r.error)
      ensures r.Ok? ==> batch.id in store.batches && r.value == store.batches[batch.id]
      ensures r.Ok? ==> r.value == batch.(status := Completed, completedAt := Some(now), lockedUntil := None,
                                          lastError := None, updatedAt := now)
    {
      var done :- batch.Complete(now);
      var savedBatch := store.UpdateBatch(done);
      match savedBatch { case Err(e) => return Err(e); case Ok(_) => }
      return Ok(done);
    }

    method CreateBatchInTx(start: int, end: int, now: int, batchId: Id, draws: Draws)
      returns (r: Result<(Batch, Progress), Error>, ghost run: BatchRun)
      requires KeyedPayments(payments.payments)
      modifies payments`payments, outbox, store
      ensures Starts(run, start, end, now, batchId, worker, lockTTL) && run.limit == claimLimit && run.draws == draws
      ensures PossibleClaim(old(View()), run)
      ensures IdSet(run.ids) == IdSet(LeastIds(ClaimableSet(old(View()), start, end),
                                          CaptureRank(old(payments.payments)), claimLimit))
      ensures FirstCaptured(IdSet(run.ids), old(View()), start, end, claimLimit)
      ensures Settlement.CreateBatch(old(View()), run) == if r.Ok? then Ok(View()) else Err(r.error)
      ensures r.Ok? ==>
                batchId in store.batches && r.value.0 == store.batches[batchId] && |r.value.1.items| == |run.ids|
      ensures r.Ok? ==>
                r.value.0 == Batch(batchId, Completed, start, end, Some(worker), None, Some(now), None, now, now)
    {
      hide SettleList, OpenBatch, ClaimableSet, Claimable, SetClaims, IsLeastIds, FirstCaptured;
      hide Settlement.FinishBatch;
      ghost var least := LeastIds(ClaimableSet(View(), start, end), CaptureRank(payments.payments), claimLimit);
      LeastIsPossible(View(), start, end, claimLimit, least);
      LeastAreFirstCaptured(View(), start, end, claimLimit, least);
      run := BatchRun(batchId, start, end, claimLimit, worker, lockTTL, now, least, draws);
      var started :- StartBatch(start, end, now, batchId);
      BatchesDoNotMatter(old(View()), View(), start, end);
      var claimed, ids := ClaimCapturedPayments(batchId, start, end, now);
      run := BatchRun(batchId, start, end, claimLimit, worker, lockTTL, now, ids, draws);
      assert OpenBatch(old(View()), run) == Ok(View());
      assert run.ids[..|run.ids|] == ids;
      var done :- SettleClaimedPayments(batchId, claimed, now, draws);
      var finished := FinishBatch(started, now);
      match finished {
        case Err(e) => return Err(e), run;
        case Ok(batch) => return Ok((batch, done)), run;
      }
    }

    /** Commits the specified batch over the least claimable payments, or leaves no trace. */
    method CreateBatch(start: int, end: int, now: int, batchId: Id, draws: Draws)
      returns (r: Result<(Batch, Progress), Error>, ghost run: BatchRun)
      requires KeyedPayments(payments.payments)
      modifies payments`payments, outbox, store
      ensures Starts(run, start, end, now, batchId, worker, lockTTL) && run.limit == claimLimit && run.draws == draws
      ensures PossibleClaim(old(View()), run)
      ensures IdSet(run.ids) == IdSet(LeastIds(ClaimableSet(old(View()), start, end),
                                          CaptureRank(old(payments.payments)), claimLimit))
      ensures FirstCaptured(IdSet(run.ids), old(View()), start, end, claimLimit)
      ensures r.Ok? ==> batchId in store.batches && r.value.0 == store.batches[batchId]
      ensures r.Ok? ==>
                r.value.0 == Batch(batchId, Completed, start, end, Some(worker), None, Some(now), None, now, now)
      ensures batchId == "" ==> r == Err(Invalid)
      ensures batchId != "" && end <= start ==> r == Err(InvalidSettlementWindow)
      ensures batchId != "" && start < end && batchId in old(store.batches) ==> r == Err(DuplicateBatch)
      ensures r.Ok? ==> Settlement.CreateBatch(old(View()), run) == Ok(View())
      ensures r.Err? ==> Settlement.CreateBatch(old(View()), run) == Err(r.error) && View() == old(View())
    {
      var qs, lg, bs, its, cl := payments.payments, outbox.log, store.batches, store.items, store.batchOf;
      r, run := CreateBatchInTx(start, end, now, batchId, draws);
      OpenBatchExactly(old(View()), run);
      if r.Err? {
        Rollback(qs, lg, bs, its, cl);
      }
    }

    method ListClaimedPayments(batchId: Id) returns (claimed: seq<Claim>)
      requires KeyedPayments(payments.payments)
      ensures claimed == ClaimRows(payments.payments, ListClaimed(View(), batchId), batchId)
      ensures AreClaims(claimed, payments.payments, store.batchOf, batchId)
    {
      hide AreClaims;
      var rows, claims := payments.payments, store.batchOf;
      var mine := set id | id in rows && rows[id].status.Captured? && id in claims && claims[id] == batchId;
      assert mine == ClaimedSet(View(), batchId);
      var ids := SelectLeast(mine, CaptureRank(rows), |mine|);
      claimed := seq(|ids|, i requires 0 <= i < |ids| && ids[i] in rows => ClaimOf(rows[ids[i]], batchId));
      ListedAreClaims(View(), batchId);
    }

    /** The body of the recovery loop. */
    method RecoverBatch(stale: Batch, r: Recovery) returns (out: Result<(Batch, Progress), Error>)
      requires KeyedPayments(payments.payments) && r.worker == worker && r.ttl == lockTTL
      modifies payments`payments, outbox, store
      ensures RecoverOne(old(View()), stale, r) == if out.Ok? then Ok(View()) else Err(out.error)
      ensures out.Ok? ==> out.value.0 == CompletedBy(stale, worker, r.now)
      ensures KeyedPayments(payments.payments)
    {
      hide SettleList;
      var batch :- stale.StartProcessing(worker, r.now + lockTTL, r.now);
      var savedBatch := store.UpdateBatch(batch);
      match savedBatch { case Err(e) => return Err(e); case Ok(_) => }
      assert Takeover(old(View()), stale, r) == Ok(View());
      var claimed := ListClaimedPayments(batch.id);
      var done :- SettleClaimedPayments(batch.id, claimed, r.now, r.draws);
      var finished := FinishBatch(batch, r.now);
      match finished {
        case Err(e) => return Err(e);
        case Ok(complete) => return Ok((complete, done));
      }
    }

    /** The recovery loop. */
    method RecoverEach(stale: seq<Batch>, r: Recovery) returns (out: Result<seq<(Batch, Progress)>, Error>)
      requires KeyedPayments(payments.payments) && r.worker == worker && r.ttl == lockTTL
      modifies payments`payments, outbox, store
      ensures RecoverList(old(View()), stale, r) == if out.Ok? then Ok(View()) else Err(out.error)
      ensures out.Ok? ==> AllCompletedBy(out.value, stale, worker, r.now)
      ensures KeyedPayments(payments.payments)
    {
      hide RecoverOne;
      var done: seq<(Batch, Progress)> := [];
      for i := 0 to |stale|
        invariant KeyedPayments(payments.payments)
        invariant RecoverList(old(View()), stale[..i], r) == Ok(View())
        invariant AllCompletedBy(done, stale[..i], worker, r.now)
      {
        var row := RecoverBatch(stale[i], r);
        RecoverListUnfold(old(View()), stale[..i], stale[i], r);
        assert stale[..i + 1] == stale[..i] + [stale[i]];
        if row.Err? {
          RecoveryFailurePropagates(old(View()), stale, i + 1, r);
          return Err(row.error);
        }
        done := done + [row.value];
      }
      assert stale[..|stale|] == stale;
      return Ok(done);
    }

    /** Recovers the stale batches the query lists, all of them or none. */
    method RecoverStaleBatches(limit: int, now: int, draws: Draws) returns (out: Result<seq<(Batch, Progress)>, Error>)
      requires KeyedPayments(payments.payments)
      modifies payments`payments, outbox, store
      ensures var r := Recovery(limit, claimLimit, worker, lockTTL, now, draws);
              && (out.Ok? ==> Recover(old(View()), r) == Ok(View())
                              && |out.value| == |StaleIds(old(store.batches), now, RecoveryLimit(r))|)
              && (out.Err? ==> Recover(old(View()), r) == Err(out.error) && View() == old(View()))
      ensures out.Ok? && KeyedBatches(old(store.batches)) ==>
                exists stale ::
                  && FirstStale(stale, old(store.batches), now, if limit <= 0 then claimLimit else limit)
                  && AllCompletedBy(out.value, stale, worker, now)
      ensures KeyedPayments(payments.payments)
    {
      hide RecoverList, StaleIds, FirstStale;
      var qs, lg, bs, its, cl := payments.payments, outbox.log, store.batches, store.items, store.batchOf;
      var stale := store.ListStaleProcessingBatches(now, if limit <= 0 then claimLimit else limit);
      out := RecoverEach(stale, Recovery(limit, claimLimit, worker, lockTTL, now, draws));
      if out.Err? {
        Rollback(qs, lg, bs, its, cl);
      }
    }
  }

  lemma RecoverListUnfold(db: Db, list: seq<Batch>, b: Batch, r: Recovery)
    requires RecoverList(db, list, r).Ok?
    ensures RecoverList(db, list + [b], r) == RecoverOne(RecoverList(db, list, r).value, b, r)
  {
    assert (list + [b])[..|list|] == list;
  }

  lemma {:induction false} RecoveryFailurePropagates(db: Db, list: seq<Batch>, i: nat, r: Recovery)
    requires i <= |list| && RecoverList(db, list[..i], r).Err?
    ensures RecoverList(db, list, r) == RecoverList(db, list[..i], r)
    decreases |list| - i
  {
    if i < |list| {
      assert list[..i + 1][..i] == list[..i];
      RecoveryFailurePropagates(db, list, i + 1, r);
    } else {
      assert list[..i] == list;
    }
  }

  predicate Starts(run: BatchRun, start: int, end: int, now: int, batchId: Id, worker: string, ttl: int) {
    && run.batchId == batchId && run.start == start && run.end == end && run.now == now
    && run.worker == worker && run.ttl == ttl
  }

  lemma LeastIsPossible(db: Db, start: int, end: int, limit: nat, ids: seq<Id>)
    requires IsLeastIds(ids, ClaimableSet(db, start, end), CaptureRank(db.ledger.payments), limit)
    ensures |ids| <= limit && (forall i, j :: 0 <= i < j < |ids| ==> ids[i] != ids[j])
    ensures forall i :: 0 <= i < |ids| ==> Claimable(db, ids[i], start, end)
  {
    DistinctSelection(ids, ClaimableSet(db, start, end), CaptureRank(db.ledger.payments), limit);
    forall i | 0 <= i < |ids| ensures Claimable(db, ids[i], start, end) {
      assert ids[i] in ClaimableSet(db, start, end);
    }
  }

  lemma ClaimableRows(db: Db, ids: seq<Id>, start: int, end: int)
    requires forall i :: 0 <= i < |ids| ==> Claimable(db, ids[i], start, end)
    ensures forall i :: 0 <= i < |ids| ==> ids[i] in db.ledger.payments
  {}

  lemma BatchesDoNotMatter(db: Db, out: Db, start: int, end: int)
    requires out == db.(batches := out.batches)
    ensures ClaimableSet(out, start, end) == ClaimableSet(db, start, end)
    ensures forall id :: Claimable(out, id, start, end) <==> Claimable(db, id, start, end)
  {}

  lemma SettleListUnfold(db: Db, batchId: Id, list: seq<Claim>, c: Claim, now: int, draws: Draws)
    requires SettleList(db, batchId, list, now, draws).Ok?
    ensures SettleList(db, batchId, list + [c], now, draws) ==
            SettleOne(SettleList(db, batchId, list, now, draws).value, batchId, c, now,
                      draws.item(c.paymentId), draws.event(c.paymentId))
  {
    assert (list + [c])[..|list|] == list;
  }

  lemma {:induction false} FailurePropagates(db: Db, batchId: Id, list: seq<Claim>, i: nat, now: int, draws: Draws)
    requires i <= |list| && SettleList(db, batchId, list[..i], now, draws).Err?
    ensures SettleList(db, batchId, list, now, draws) == SettleList(db, batchId, list[..i], now, draws)
    decreases |list| - i
  {
    if i < |list| {
      assert list[..i + 1][..i] == list[..i];
      FailurePropagates(db, batchId, list, i + 1, now, draws);
    } else {
      assert list[..i] == list;
    }
  }
}
