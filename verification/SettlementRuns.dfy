/** Whole settlement transactions: batch creation, interrupted batches, and recovery. */
module SettlementRuns {
  import opened Common
  import opened Ranking
  import opened Entities
  import opened LedgerInvariant
  import opened Settlement
  import opened SettlementInvariant
  import opened SettlementLoop

  // ----- batch creation -----

  lemma OpenedClaims(db: Db, run: BatchRun)
    requires DbInv(db) && PossibleClaim(db, run) && OpenBatch(db, run).Ok?
    ensures var open := OpenBatch(db, run).value;
            && ClaimedSet(open, run.batchId) == IdSet(run.ids)
            && run.batchId in open.batches
            && open.batches[run.batchId].status.Processing?
            && open.batches[run.batchId].lockedUntil == Some(run.now + run.ttl)
            && Settleable(open, run.batchId, run.ids)
  {
    hide Inv;
    OpenBatchRows(db, run);
    NoEarlierClaims(db, run.batchId);
  }

  lemma NoEarlierClaims(db: Db, batchId: Id)
    requires ClaimsOk(db.ledger.payments, db.batchOf, db.batches) && batchId !in db.batches
    ensures forall p :: p in db.batchOf ==> db.batchOf[p] != batchId
  {}

  lemma SettleablePrefix(db: Db, batchId: Id, ids: seq<Id>, k: nat)
    requires Settleable(db, batchId, ids) && k <= |ids|
    ensures Settleable(db, batchId, ids[..k])
  {}

  lemma PrefixIsLoop(db: Db, run: BatchRun, k: nat)
    requires PossibleClaim(db, run) && k <= |run.ids| && OpenBatch(db, run).Ok?
    ensures var open := OpenBatch(db, run).value;
            && (forall i :: 0 <= i < k ==> run.ids[..k][i] in open.ledger.payments)
            && SettlePrefix(db, run, k) == SettleIds(open, run.batchId, run.ids[..k], run.now, run.draws)
  {}

  /** Stopping after any number of whole payments keeps every invariant. */
  lemma SettlePrefixEffect(db: Db, run: BatchRun, k: nat)
    requires DbInv(db) && PossibleClaim(db, run) && k <= |run.ids|
    requires SettlePrefix(db, run, k).Ok?
    ensures OpenBatch(db, run).Ok? && DbInv(OpenBatch(db, run).value)
    ensures DbInv(SettlePrefix(db, run, k).value)
    ensures SettledAll(OpenBatch(db, run).value, SettlePrefix(db, run, k).value, run.ids[..k], run.now, run.draws)
  {
    hide DbInv;
    OpenBatchKeepsInv(db, run);
    OpenedClaims(db, run);
    var open := OpenBatch(db, run).value;
    SettleablePrefix(open, run.batchId, run.ids, k);
    PrefixIsLoop(db, run, k);
    SettleIdsEffect(open, run.batchId, run.ids[..k], run.now, run.draws);
  }

  lemma LoopLeavesNone(db: Db, m: Db, batchId: Id, ids: seq<Id>, now: int, draws: Draws)
    requires SettledAll(db, m, ids, now, draws)
    requires forall p :: p in ClaimedSet(db, batchId) ==> p in ids
    ensures ClaimedSet(m, batchId) == {}
  {
    assert ClaimedSet(m, batchId) <= ClaimedSet(db, batchId);
    forall p | p in ClaimedSet(db, batchId) ensures p !in ClaimedSet(m, batchId) {}
  }

  lemma FinishKeepsInv(db: Db, batchId: Id, now: int)
    requires DbInv(db) && batchId in db.batches && ClaimedSet(db, batchId) == {}
    requires FinishBatch(db, batchId, now).Ok?
    ensures DbInv(FinishBatch(db, batchId, now).value)
  {
    hide Inv;
    assert BatchOk(batchId, db.batches[batchId]);
    BatchRowKeepsInv(db, db.batches[batchId].Complete(now).value);
  }

  /** A committed batch is complete, with all its claims settled, in a good database. */
  lemma CreateBatchEffect(db: Db, run: BatchRun)
    requires DbInv(db) && PossibleClaim(db, run) && CreateBatch(db, run).Ok?
    ensures SettlePrefix(db, run, |run.ids|).Ok? && OpenBatch(db, run).Ok?
    ensures DbInv(CreateBatch(db, run).value)
    ensures FinishBatch(SettlePrefix(db, run, |run.ids|).value, run.batchId, run.now) == CreateBatch(db, run)
    ensures SettledAll(OpenBatch(db, run).value, SettlePrefix(db, run, |run.ids|).value, run.ids, run.now, run.draws)
  {
    hide DbInv;
    var n := |run.ids|;
    assert run.ids[..n] == run.ids;
    SettlePrefixEffect(db, run, n);
    OpenedClaims(db, run);
    var open, m := OpenBatch(db, run).value, SettlePrefix(db, run, n).value;
    assert run.batchId in open.batches && m.batches == open.batches;
    LoopLeavesNone(open, m, run.batchId, run.ids, run.now, run.draws);
    FinishKeepsInv(m, run.batchId, run.now);
  }

  /**
    A committed batch in full: its row, its claims, and its payments, settled at the instant of the run;
    no other batch, claim or payment changes.
   */
  lemma CreateBatchInFull(db: Db, run: BatchRun)
    requires DbInv(db) && PossibleClaim(db, run) && CreateBatch(db, run).Ok?
    ensures var out := CreateBatch(db, run).value;
            && run.batchId !in db.batches
            && out.batches == db.batches[run.batchId := Batch(run.batchId, Completed, run.start, run.end,
                                           Some(run.worker), None, Some(run.now), None, run.now, run.now)]
            && out.batchOf == db.batchOf + (map p | p in IdSet(run.ids) :: run.batchId)
            && out.ledger.payments.Keys == db.ledger.payments.Keys
            && (forall p :: p in db.ledger.payments && p !in run.ids ==>
                  out.ledger.payments[p] == db.ledger.payments[p])
            && (forall p :: p in db.ledger.payments && p in run.ids ==>
                  && db.ledger.payments[p].status.Captured?
                  && out.ledger.payments[p] ==
                     db.ledger.payments[p].(status := Settled, settledAt := Some(run.now), updatedAt := run.now))
  {
    hide DbInv, SettlePrefix;
    CreateBatchEffect(db, run);
    var open, m := OpenBatch(db, run).value, SettlePrefix(db, run, |run.ids|).value;
    assert forall p :: p in IdSet(run.ids) <==> p in run.ids;
    OpenedInFull(db, run);
    assert m.batches == open.batches && m.batchOf == open.batchOf;
    assert CreateBatch(db, run).value.ledger == m.ledger;
  }

  lemma OpenedInFull(db: Db, run: BatchRun)
    requires PossibleClaim(db, run) && OpenBatch(db, run).Ok?
    ensures var open := OpenBatch(db, run).value;
            && run.batchId !in db.batches
            && open.batches == db.batches[run.batchId := Batch(run.batchId, Processing, run.start, run.end,
                                            Some(run.worker), Some(run.now + run.ttl), None, None, run.now, run.now)]
            && open.batchOf == db.batchOf + (map p | p in IdSet(run.ids) :: run.batchId)
            && open.ledger.payments.Keys == db.ledger.payments.Keys
            && forall p :: p in db.ledger.payments ==>
                 open.ledger.payments[p] == if p in IdSet(run.ids) then db.ledger.payments[p].(updatedAt := run.now)
                                            else db.ledger.payments[p]
  {}

  // ----- recovery -----

  /** Every batch the stale query lists can be taken over at the same instant. */
  lemma StaleStarts(b: Batch, worker: string, until: int, now: int)
    requires b.IsStale(now)
    ensures b.StartProcessing(worker, until, now).Ok? <==> worker != "" && until > now
    ensures b.StartProcessing(worker, until, now).Ok? ==>
              var s := b.StartProcessing(worker, until, now).value;
              s == b.(claimedBy := Some(worker), lockedUntil := Some(until), lastError := None, updatedAt := now)
  {}

  /** The captured payments claimed by one of the batches. */
  function RescuedSet(db: Db, batchIds: seq<Id>): set<Id> {
    set p | p in db.ledger.payments && db.ledger.payments[p].status.Captured?
            && p in db.batchOf && db.batchOf[p] in batchIds
  }

  function PaymentsRescued(db: Db, batchIds: seq<Id>, now: int): map<Id, Payment> {
    map p | p in db.ledger.payments :: SettledRow(db.ledger.payments[p], p in RescuedSet(db, batchIds), now)
  }

  /** The row as it was, but for its worker, its status and the instant of its completion. */
  predicate IsCompletion(b: Batch, done: Batch, now: int) {
    done == b.(status := Completed, claimedBy := done.claimedBy, lockedUntil := None, completedAt := Some(now),
               lastError := None, updatedAt := now)
  }

  /** out is db with the batches completed and exactly their captured payments settled. */
  ghost predicate Recovered(db: Db, out: Db, batchIds: seq<Id>, now: int) {
    && out.batchOf == db.batchOf
    && out.batches.Keys == db.batches.Keys
    && (forall b :: b in db.batches && b !in batchIds ==> out.batches[b] == db.batches[b])
    && (forall b :: b in db.batches && b in batchIds ==> IsCompletion(db.batches[b], out.batches[b], now))
    && out.ledger == db.ledger.(payments := out.ledger.payments, log := out.ledger.log)
    && out.ledger.payments == PaymentsRescued(db, batchIds, now)
  }

  lemma TakeoverKeepsInv(db: Db, batch: Batch, r: Recovery)
    requires DbInv(db) && batch.id in db.batches && db.batches[batch.id] == batch && batch.IsStale(r.now)
    requires Takeover(db, batch, r).Ok?
    ensures var t := Takeover(db, batch, r).value;
            && DbInv(t) && t == db.(batches := t.batches) && batch.id in t.batches
            && t.batches == db.batches[batch.id := t.batches[batch.id]]
            && t.batches[batch.id].status.Processing?
            && ClaimedSet(t, batch.id) == ClaimedSet(db, batch.id)
  {
    hide Inv;
    StaleStarts(batch, r.worker, r.now + r.ttl, r.now);
    assert BatchOk(batch.id, batch);
    BatchRowKeepsInv(db, Takeover(db, batch, r).value.batches[batch.id]);
  }

  lemma ListIsSettleable(db: Db, batchId: Id)
    ensures Settleable(db, batchId, ListClaimed(db, batchId))
    ensures forall p :: p in ListClaimed(db, batchId) <==> p in ClaimedSet(db, batchId)
  {
    FullSelection(ListClaimed(db, batchId), ClaimedSet(db, batchId), CaptureRank(db.ledger.payments));
  }

  /** The stages of recovering one batch: taken over, settled, finished. */
  lemma RecoverOneStages(db: Db, batch: Batch, r: Recovery)
    requires DbInv(db) && batch.id in db.batches && db.batches[batch.id] == batch && batch.IsStale(r.now)
    requires Takeover(db, batch, r).Ok?
    ensures var t := Takeover(db, batch, r).value;
            var ids := ListClaimed(t, batch.id);
            && DbInv(t)
            && (forall i :: 0 <= i < |ids| ==> ids[i] in t.ledger.payments)
            && Settleable(t, batch.id, ids)
            && (forall p :: p in ids <==> p in ClaimedSet(db, batch.id))
            && CleanSettle(t, ids, r.now, r.draws, SettleIds(t, batch.id, ids, r.now, r.draws))
            && RecoverOne(db, batch, r) ==
                 match SettleIds(t, batch.id, ids, r.now, r.draws)
                 case Err(e) => Err(e)
                 case Ok(m) => FinishBatch(m, batch.id, r.now)
  {
    hide DbInv, CleanSettle;
    TakeoverKeepsInv(db, batch, r);
    var t := Takeover(db, batch, r).value;
    ListIsSettleable(t, batch.id);
    SettleIdsEffect(t, batch.id, ListClaimed(t, batch.id), r.now, r.draws);
  }

  lemma RecoverOneEffect(db: Db, batch: Batch, r: Recovery)
    requires DbInv(db) && batch.id in db.batches && db.batches[batch.id] == batch && batch.IsStale(r.now)
    requires RecoverOne(db, batch, r).Ok?
    ensures var out := RecoverOne(db, batch, r).value;
            && DbInv(out) && Recovered(db, out, [batch.id], r.now)
            && Drawn(db, out, ListClaimed(Takeover(db, batch, r).value, batch.id), r.draws)
  {
    hide DbInv;
    RecoverOneStages(db, batch, r);
    TakeoverKeepsInv(db, batch, r);
    var t := Takeover(db, batch, r).value;
    var ids := ListClaimed(t, batch.id);
    var m := SettleIds(t, batch.id, ids, r.now, r.draws).value;
    LoopLeavesNone(t, m, batch.id, ids, r.now, r.draws);
    FinishKeepsInv(m, batch.id, r.now);
    RescuesOne(db, batch.id, ids, r.now);
  }

  lemma RescuesOne(db: Db, batchId: Id, ids: seq<Id>, now: int)
    requires forall p :: p in ids <==> p in ClaimedSet(db, batchId)
    ensures PaymentsSettled(db.ledger.payments, ids, now) == PaymentsRescued(db, [batchId], now)
  {}

  lemma RecoveredStep(db: Db, m: Db, out: Db, batchIds: seq<Id>, b: Id, now: int)
    requires Recovered(db, m, batchIds, now) && Recovered(m, out, [b], now)
    requires b in db.batches && b !in batchIds
    ensures Recovered(db, out, batchIds + [b], now)
  {
    RescuedStep(db, m, batchIds, b, now);
    assert out.ledger.payments == PaymentsRescued(db, batchIds + [b], now);
  }

  lemma RescuedStep(db: Db, m: Db, batchIds: seq<Id>, b: Id, now: int)
    requires m.ledger.payments == PaymentsRescued(db, batchIds, now) && m.batchOf == db.batchOf && b !in batchIds
    ensures PaymentsRescued(m, [b], now) == PaymentsRescued(db, batchIds + [b], now)
    ensures RescuedSet(m, [b]) == RescuedSet(db, [b])
  {}

  /** Distinct batches, each stale. */
  ghost predicate Recoverable(db: Db, batchIds: seq<Id>, now: int) {
    && (forall i :: 0 <= i < |batchIds| ==> batchIds[i] in StaleSet(db.batches, now))
    && (forall i, j :: 0 <= i < j < |batchIds| ==> batchIds[i] != batchIds[j])
  }

  ghost function RecoverIds(db: Db, batchIds: seq<Id>, r: Recovery): Result<Db, Error>
    requires forall i :: 0 <= i < |batchIds| ==> batchIds[i] in db.batches
  {
    RecoverList(db, BatchRows(db.batches, batchIds), r)
  }

  lemma RecoverIdsUnfold(db: Db, batchIds: seq<Id>, b: Id, r: Recovery)
    requires (forall i :: 0 <= i < |batchIds| ==> batchIds[i] in db.batches) && b in db.batches
    ensures RecoverIds(db, batchIds + [b], r) ==
            match RecoverIds(db, batchIds, r)
            case Err(e) => Err(e)
            case Ok(m) => RecoverOne(m, db.batches[b], r)
  {
    var rows := BatchRows(db.batches, batchIds + [b]);
    assert rows[..|rows| - 1] == BatchRows(db.batches, batchIds);
  }

  ghost predicate CleanRecover(db: Db, batchIds: seq<Id>, r: Recovery, out: Result<Db, Error>) {
    out.Ok? ==> DbInv(out.value) && Recovered(db, out.value, batchIds, r.now)
  }

  lemma RecoverRound(db: Db, m: Db, batchIds: seq<Id>, b: Id, r: Recovery)
    requires DbInv(db) && DbInv(m) && Recovered(db, m, batchIds, r.now)
    requires b in StaleSet(db.batches, r.now) && b !in batchIds
    ensures CleanRecover(db, batchIds + [b], r, RecoverOne(m, db.batches[b], r))
  {
    hide DbInv;
    BatchIdOk(db, b);
    if RecoverOne(m, db.batches[b], r).Ok? {
      RecoverOneEffect(m, db.batches[b], r);
      RecoveredStep(db, m, RecoverOne(m, db.batches[b], r).value, batchIds, b, r.now);
    }
  }

  lemma BatchIdOk(db: Db, b: Id)
    requires DbInv(db) && b in db.batches
    ensures db.batches[b].id == b
  {
    hide Inv;
    assert BatchOk(b, db.batches[b]);
  }

  lemma RecoverableRows(db: Db, batchIds: seq<Id>, now: int)
    requires Recoverable(db, batchIds, now)
    ensures forall i :: 0 <= i < |batchIds| ==> batchIds[i] in db.batches
  {
    forall i | 0 <= i < |batchIds| ensures batchIds[i] in db.batches {
      assert batchIds[i] in StaleSet(db.batches, now);
    }
  }

  lemma {:induction false} RecoverIdsEffect(db: Db, batchIds: seq<Id>, r: Recovery)
    requires DbInv(db) && Recoverable(db, batchIds, r.now)
    ensures forall i :: 0 <= i < |batchIds| ==> batchIds[i] in db.batches
    ensures CleanRecover(db, batchIds, r, RecoverIds(db, batchIds, r))
    decreases |batchIds|
  {
    hide DbInv;
    RecoverableRows(db, batchIds, r.now);
    if batchIds == [] {
      assert PaymentsRescued(db, [], r.now) == db.ledger.payments;
    } else {
      var n := |batchIds| - 1;
      RecoverIdsEffect(db, batchIds[..n], r);
      RecoverIdsUnfold(db, batchIds[..n], batchIds[n], r);
      assert batchIds == batchIds[..n] + [batchIds[n]];
      var before := RecoverIds(db, batchIds[..n], r);
      if before.Ok? {
        RecoverRound(db, before.value, batchIds[..n], batchIds[n], r);
      }
    }
  }

  lemma StaleIdsRecoverable(db: Db, now: int, limit: nat)
    ensures Recoverable(db, StaleIds(db.batches, now, limit), now)
  {
    DistinctSelection(StaleIds(db.batches, now, limit), StaleSet(db.batches, now), StaleRank(db.batches), limit);
  }

  /** A successful recovery settles exactly the captured payments of the batches it took over. */
  lemma RecoverEffect(db: Db, r: Recovery)
    requires DbInv(db)
    ensures CleanRecover(db, StaleIds(db.batches, r.now, RecoveryLimit(r)), r, Recover(db, r))
  {
    hide DbInv, CleanRecover;
    StaleIdsRecoverable(db, r.now, RecoveryLimit(r));
    RecoverIdsEffect(db, StaleIds(db.batches, r.now, RecoveryLimit(r)), r);
  }
}
