/** What every settlement transaction keeps: claims, line items and totals agree with the payments. */
module SettlementInvariant {
  import opened Common
  import opened Sums
  import opened Entities
  import opened Ledger
  import opened LedgerInvariant
  import opened LedgerProofs
  import opened Settlement

  predicate BatchOk(id: Id, b: Batch) {
    && b.id == id && id != "" && b.windowStart < b.windowEnd
    && (b.status.Processing? ==> b.claimedBy.Some? && b.lockedUntil.Some?)
  }

  ghost predicate BatchesOk(batches: map<Id, Batch>) {
    forall b :: b in batches ==> BatchOk(b, batches[b])
  }

  /** A claimed payment was captured inside its batch's window, and no completed batch leaves it unsettled. */
  predicate ClaimFits(q: Payment, b: Batch) {
    && (q.status.Captured? || q.status.Settled?)
    && q.capturedAt.Some? && b.windowStart <= q.capturedAt.value < b.windowEnd
    && (b.status.Completed? ==> q.status.Settled?)
  }

  ghost predicate ClaimsOk(payments: map<Id, Payment>, batchOf: map<Id, Id>, batches: map<Id, Batch>) {
    && (forall p :: p in batchOf ==>
          p in payments && batchOf[p] in batches && ClaimFits(payments[p], batches[batchOf[p]]))
    && (forall p :: p in payments && payments[p].status.Settled? ==> p in batchOf)
  }

  /** A line item repeats its settled payment's terms, in the batch that claimed it. */
  predicate ItemFits(id: Id, item: LineItem, q: Payment, batchId: Id) {
    && item.id == id && q.status.Settled? && item.batchId == batchId
    && item.paymentId == q.id && item.merchantId == q.merchantId && item.currency == q.currency
    && item.amount == q.amount && item.fee == 0 && item.net == q.amount && q.capturedAt == Some(item.capturedAt)
  }

  ghost predicate ItemsOk(payments: map<Id, Payment>, batchOf: map<Id, Id>, items: map<Id, LineItem>) {
    forall i :: i in items ==>
      && items[i].paymentId in payments && items[i].paymentId in batchOf
      && ItemFits(i, items[i], payments[items[i].paymentId], batchOf[items[i].paymentId])
  }

  ghost predicate ItemsUnique(items: map<Id, LineItem>) {
    forall i, j :: i in items && j in items && items[i].paymentId == items[j].paymentId ==> i == j
  }

  predicate ItemFor(items: map<Id, LineItem>, paymentId: Id) {
    exists i :: i in items && items[i].paymentId == paymentId
  }

  ghost predicate ItemsComplete(payments: map<Id, Payment>, items: map<Id, LineItem>) {
    forall p :: p in payments && payments[p].status.Settled? ==> ItemFor(items, p)
  }

  ghost function ItemIn(batchId: Id): (Id, LineItem) -> int {
    (_, item: LineItem) => if item.batchId == batchId then item.net else 0
  }

  ghost function SettledIn(payments: map<Id, Payment>, batchId: Id): (Id, Id) -> int {
    (p: Id, b: Id) => if b == batchId && p in payments && payments[p].status.Settled? then payments[p].amount else 0
  }

  /** A batch's line items add up to its settled payments. */
  ghost predicate TotalsOk(payments: map<Id, Payment>, batchOf: map<Id, Id>, items: map<Id, LineItem>) {
    forall b: Id :: Sum(items, ItemIn(b)) == Sum(batchOf, SettledIn(payments, b))
  }

  ghost predicate SettleInv(db: Db) {
    && BatchesOk(db.batches)
    && ClaimsOk(db.ledger.payments, db.batchOf, db.batches)
    && ItemsOk(db.ledger.payments, db.batchOf, db.items)
    && ItemsUnique(db.items)
    && ItemsComplete(db.ledger.payments, db.items)
    && TotalsOk(db.ledger.payments, db.batchOf, db.items)
  }

  ghost predicate DbInv(db: Db) {
    Inv(db.ledger) && SettleInv(db)
  }

  // ----- ledger transactions -----

  /** What authorize, capture and expire leave alone: captured and settled payments. */
  ghost predicate KeepsCaptured(before: map<Id, Payment>, after: map<Id, Payment>) {
    && (forall p :: p in before && (before[p].status.Captured? || before[p].status.Settled?)
                    ==> p in after && after[p] == before[p])
    && (forall p :: p in after && after[p].status.Settled? ==> p in before && before[p] == after[p])
  }

  lemma LedgerStepKeepsSettleInv(db: Db, m: Ledger)
    requires SettleInv(db) && KeepsCaptured(db.ledger.payments, m.payments)
    ensures SettleInv(db.(ledger := m))
  {
    var before, after := db.ledger.payments, m.payments;
    KeepsTotals(before, after, db.batchOf, db.batches, db.items);
    KeepsClaims(before, after, db.batchOf, db.batches);
    KeepsItems(before, after, db.batchOf, db.items);
  }

  lemma KeepsClaims(before: map<Id, Payment>, after: map<Id, Payment>, batchOf: map<Id, Id>, batches: map<Id, Batch>)
    requires KeepsCaptured(before, after) && ClaimsOk(before, batchOf, batches)
    ensures ClaimsOk(after, batchOf, batches)
  {}

  lemma KeepsItems(before: map<Id, Payment>, after: map<Id, Payment>, batchOf: map<Id, Id>, items: map<Id, LineItem>)
    requires KeepsCaptured(before, after) && ItemsOk(before, batchOf, items) && ItemsComplete(before, items)
    ensures ItemsOk(after, batchOf, items) && ItemsComplete(after, items)
  {}

  lemma KeepsTotals(before: map<Id, Payment>, after: map<Id, Payment>, batchOf: map<Id, Id>, batches: map<Id, Batch>,
                    items: map<Id, LineItem>)
    requires KeepsCaptured(before, after) && ClaimsOk(before, batchOf, batches) && TotalsOk(before, batchOf, items)
    ensures TotalsOk(after, batchOf, items)
  {
    forall b: Id ensures Sum(items, ItemIn(b)) == Sum(batchOf, SettledIn(after, b)) {
      SumSame(batchOf, batchOf, SettledIn(before, b), SettledIn(after, b));
    }
  }

  // ----- claims -----

  lemma WithoutOne<K>(m: map<K, Id>, n: map<K, Id>, k: K)
    requires m.Keys !! n.Keys && k in n
    ensures k in m + n && (m + n)[k] == n[k] && m + n - {k} == m + (n - {k})
  {}

  lemma {:induction false} SumExtend<K>(m: map<K, Id>, n: map<K, Id>, w: (K, Id) -> int)
    requires m.Keys !! n.Keys && forall k :: k in n ==> w(k, n[k]) == 0
    ensures Sum(m + n, w) == Sum(m, w)
    decreases |n|
  {
    hide Sum;
    if k :| k in n {
      WithoutOne(m, n, k);
      SumRemove(m + n, w, k);
      SumExtend(m, n - {k}, w);
    } else {
      assert m + n == m;
    }
  }

  /** Only timestamps of rows differ. */
  ghost predicate Stamped(before: map<Id, Payment>, after: map<Id, Payment>) {
    && after.Keys == before.Keys
    && forall p :: p in before ==> after[p] == before[p].(updatedAt := after[p].updatedAt)
  }

  lemma StampItems(before: map<Id, Payment>, after: map<Id, Payment>, batchOf: map<Id, Id>, more: map<Id, Id>,
                   items: map<Id, LineItem>)
    requires Stamped(before, after) && ItemsOk(before, batchOf, items) && ItemsComplete(before, items)
    requires more.Keys !! batchOf.Keys
    ensures ItemsOk(after, batchOf + more, items) && ItemsComplete(after, items)
  {}

  lemma StampClaims(before: map<Id, Payment>, after: map<Id, Payment>, batchOf: map<Id, Id>, batches: map<Id, Batch>,
                    ids: set<Id>, batch: Batch)
    requires Stamped(before, after) && ClaimsOk(before, batchOf, batches)
    requires batch.id !in batches && batch.status.Processing?
    requires forall p :: p in ids ==> p in before && p !in batchOf && before[p].status.Captured?
                                      && before[p].capturedAt.Some?
                                      && batch.windowStart <= before[p].capturedAt.value < batch.windowEnd
    ensures ClaimsOk(after, batchOf + map p | p in ids :: batch.id, batches[batch.id := batch])
  {}

  lemma StampTotals(before: map<Id, Payment>, after: map<Id, Payment>, batchOf: map<Id, Id>, more: map<Id, Id>,
                    items: map<Id, LineItem>)
    requires Stamped(before, after) && TotalsOk(before, batchOf, items)
    requires more.Keys !! batchOf.Keys && forall p :: p in more ==> p in before && before[p].status.Captured?
    ensures TotalsOk(after, batchOf + more, items)
  {
    forall b: Id ensures Sum(items, ItemIn(b)) == Sum(batchOf + more, SettledIn(after, b)) {
      SumSame(batchOf, batchOf, SettledIn(before, b), SettledIn(after, b));
      SumExtend(batchOf, more, SettledIn(after, b));
    }
  }

  lemma OpenBatchKeepsInv(db: Db, run: BatchRun)
    requires DbInv(db) && PossibleClaim(db, run) && OpenBatch(db, run).Ok?
    ensures DbInv(OpenBatch(db, run).value)
  {
    hide Inv;
    var out := OpenBatch(db, run).value;
    var ids := IdSet(run.ids);
    var more := map p | p in ids :: run.batchId;
    TouchKeepsInv(db.ledger, ids, run.now);
    OpenBatchRows(db, run);
    StampItems(db.ledger.payments, out.ledger.payments, db.batchOf, more, db.items);
    StampTotals(db.ledger.payments, out.ledger.payments, db.batchOf, more, db.items);
    StampClaims(db.ledger.payments, out.ledger.payments, db.batchOf, db.batches, ids, out.batches[run.batchId]);
  }

  lemma OpenBatchRows(db: Db, run: BatchRun)
    requires BatchesOk(db.batches) && PossibleClaim(db, run) && OpenBatch(db, run).Ok?
    ensures var out := OpenBatch(db, run).value;
            && BatchesOk(out.batches) && run.batchId !in db.batches && run.batchId in out.batches
            && out.batches == db.batches[run.batchId := out.batches[run.batchId]]
            && out.batches[run.batchId].status.Processing? && out.batches[run.batchId].id == run.batchId
            && out.batches[run.batchId].windowStart == run.start && out.batches[run.batchId].windowEnd == run.end
            && Stamped(db.ledger.payments, out.ledger.payments)
            && out.batchOf == db.batchOf + (map p | p in IdSet(run.ids) :: run.batchId)
            && out.items == db.items
            && forall p :: p in IdSet(run.ids) ==> Claimable(db, p, run.start, run.end)
  {}

  // ----- settling one payment -----

  lemma SumChangeAt(m: map<Id, Id>, v: (Id, Id) -> int, w: (Id, Id) -> int, k: Id)
    requires k in m && forall j :: j in m && j != k ==> v(j, m[j]) == w(j, m[j])
    ensures Sum(m, w) == Sum(m, v) - v(k, m[k]) + w(k, m[k])
  {
    SumRemove(m, v, k);
    SumRemove(m, w, k);
    SumSame(m - {k}, m - {k}, v, w);
  }

  /** The claimed payment q becomes settled and gets its line item. */
  ghost predicate Settles(db: Db, batchId: Id, q: Payment, item: LineItem, after: Payment) {
    && q.id in db.ledger.payments && db.ledger.payments[q.id] == q && q.status.Captured?
    && q.id in db.batchOf && db.batchOf[q.id] == batchId
    && after == q.(status := Settled, settledAt := after.settledAt, updatedAt := after.updatedAt)
    && ItemFits(item.id, item, after, batchId)
    && item.id !in db.items && !HasItem(db, q.id)
  }

  lemma SettleKeepsClaims(db: Db, batchId: Id, q: Payment, item: LineItem, after: Payment)
    requires Settles(db, batchId, q, item, after) && ClaimsOk(db.ledger.payments, db.batchOf, db.batches)
    ensures ClaimsOk(db.ledger.payments[q.id := after], db.batchOf, db.batches)
  {}

  lemma SettleKeepsItems(db: Db, batchId: Id, q: Payment, item: LineItem, after: Payment)
    requires Settles(db, batchId, q, item, after) && ItemsOk(db.ledger.payments, db.batchOf, db.items)
    ensures ItemsOk(db.ledger.payments[q.id := after], db.batchOf, db.items[item.id := item])
  {}

  lemma SettleKeepsUnique(db: Db, batchId: Id, q: Payment, item: LineItem, after: Payment)
    requires Settles(db, batchId, q, item, after) && ItemsUnique(db.items)
    ensures ItemsUnique(db.items[item.id := item])
  {}

  lemma SettleKeepsComplete(db: Db, batchId: Id, q: Payment, item: LineItem, after: Payment)
    requires Settles(db, batchId, q, item, after) && ItemsComplete(db.ledger.payments, db.items)
    ensures ItemsComplete(db.ledger.payments[q.id := after], db.items[item.id := item])
  {
    var items := db.items[item.id := item];
    forall p | p in db.ledger.payments[q.id := after] && db.ledger.payments[q.id := after][p].status.Settled?
      ensures ItemFor(items, p)
    {
      if p == q.id {
        assert items[item.id].paymentId == p;
      } else {
        var i :| i in db.items && db.items[i].paymentId == p;
        assert items[i].paymentId == p;
      }
    }
  }

  lemma SettleKeepsTotals(db: Db, batchId: Id, q: Payment, item: LineItem, after: Payment)
    requires Settles(db, batchId, q, item, after) && TotalsOk(db.ledger.payments, db.batchOf, db.items)
    ensures TotalsOk(db.ledger.payments[q.id := after], db.batchOf, db.items[item.id := item])
  {
    var payments := db.ledger.payments[q.id := after];
    forall b: Id ensures Sum(db.items[item.id := item], ItemIn(b)) == Sum(db.batchOf, SettledIn(payments, b)) {
      SumInsert(db.items, ItemIn(b), item.id, item);
      SumChangeAt(db.batchOf, SettledIn(db.ledger.payments, b), SettledIn(payments, b), q.id);
    }
  }

  lemma SettleOneSettles(db: Db, batchId: Id, q: Payment, now: int, itemId: Id, eventId: Id)
    requires PaymentsOk(db.ledger.payments)
    requires q.id in db.ledger.payments && db.ledger.payments[q.id] == q
    requires q.id in db.batchOf && db.batchOf[q.id] == batchId
    requires SettleOne(db, batchId, ClaimOf(q, batchId), now, itemId, eventId).Ok?
    ensures var out := SettleOne(db, batchId, ClaimOf(q, batchId), now, itemId, eventId).value;
            && q.id in out.ledger.payments && itemId in out.items
            && out == db.(ledger := out.ledger, items := db.items[itemId := out.items[itemId]])
            && Settle(db.ledger, q.id, batchId, now, eventId) == Ok(out.ledger)
            && out.ledger.payments == db.ledger.payments[q.id := out.ledger.payments[q.id]]
            && out.items[itemId].id == itemId
            && Settles(db, batchId, q, out.items[itemId], out.ledger.payments[q.id])
  {
    assert PaymentOk(q.id, q);
  }

  lemma SettleOneKeepsInv(db: Db, batchId: Id, q: Payment, now: int, itemId: Id, eventId: Id)
    requires DbInv(db)
    requires q.id in db.ledger.payments && db.ledger.payments[q.id] == q
    requires q.id in db.batchOf && db.batchOf[q.id] == batchId
    requires SettleOne(db, batchId, ClaimOf(q, batchId), now, itemId, eventId).Ok?
    ensures DbInv(SettleOne(db, batchId, ClaimOf(q, batchId), now, itemId, eventId).value)
  {
    hide Inv;
    InvRows(db.ledger);
    SettleOneSettles(db, batchId, q, now, itemId, eventId);
    var out := SettleOne(db, batchId, ClaimOf(q, batchId), now, itemId, eventId).value;
    var item, after := out.items[itemId], out.ledger.payments[q.id];
    hide SettleOne, Settle, Settles;
    SettleKeepsInv(db.ledger, q.id, batchId, now, eventId);
    SettleKeepsClaims(db, batchId, q, item, after);
    SettleKeepsItems(db, batchId, q, item, after);
    SettleKeepsUnique(db, batchId, q, item, after);
    SettleKeepsComplete(db, batchId, q, item, after);
    SettleKeepsTotals(db, batchId, q, item, after);
  }

  // ----- batch rows -----

  lemma BatchRowKeepsInv(db: Db, b: Batch)
    requires DbInv(db) && b.id in db.batches && BatchOk(b.id, b)
    requires b.windowStart == db.batches[b.id].windowStart && b.windowEnd == db.batches[b.id].windowEnd
    requires b.status.Completed? ==> ClaimedSet(db, b.id) == {}
    ensures DbInv(db.(batches := db.batches[b.id := b]))
  {
    hide Inv;
    BatchRowClaims(db, b);
  }

  lemma BatchRowClaims(db: Db, b: Batch)
    requires ClaimsOk(db.ledger.payments, db.batchOf, db.batches) && b.id in db.batches
    requires b.windowStart == db.batches[b.id].windowStart && b.windowEnd == db.batches[b.id].windowEnd
    requires b.status.Completed? ==> ClaimedSet(db, b.id) == {}
    ensures ClaimsOk(db.ledger.payments, db.batchOf, db.batches[b.id := b])
  {
    forall p | p in db.batchOf && db.batchOf[p] == b.id
      ensures b.status.Completed? ==> db.ledger.payments[p].status.Settled?
    {
      if b.status.Completed? {
        assert p !in ClaimedSet(db, b.id);
      }
    }
  }
}
