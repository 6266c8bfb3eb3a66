/** A settlement run interrupted between payments and then recovered ends as if it had not been interrupted. */
module CrashRecovery {
  import opened Common
  import opened Ranking
  import opened Entities
  import opened LedgerInvariant
  import opened Settlement
  import opened SettlementInvariant
  import opened SettlementLoop
  import opened SettlementRuns

  // ----- recovery succeeds -----

  function Unrescued(db: Db, batchIds: seq<Id>): set<Id> {
    set p | p in db.batchOf && p !in RescuedSet(db, batchIds)
  }

  lemma RecoverOneSucceeds(db: Db, batch: Batch, r: Recovery)
    requires DbInv(db) && batch.id in db.batches && db.batches[batch.id] == batch && batch.IsStale(r.now)
    requires r.worker != "" && r.ttl > 0 && FreshSettle(db, r.draws, ClaimedSet(db, batch.id))
    ensures RecoverOne(db, batch, r).Ok?
  {
    hide DbInv;
    StaleStarts(batch, r.worker, r.now + r.ttl, r.now);
    RecoverOneStages(db, batch, r);
    TakeoverKeepsInv(db, batch, r);
    var t := Takeover(db, batch, r).value;
    SettleIdsSucceeds(t, batch.id, ListClaimed(t, batch.id), r.now, r.draws);
  }

  lemma UnrescuedStep(db: Db, m: Db, batchIds: seq<Id>, b: Id, now: int, ids: seq<Id>)
    requires Recovered(db, m, batchIds, now) && b !in batchIds
    requires forall p :: p in ids <==> p in ClaimedSet(m, b)
    ensures ClaimedSet(m, b) <= Unrescued(db, batchIds)
    ensures Unrescued(db, batchIds + [b]) == set p | p in Unrescued(db, batchIds) && p !in ids
  {
    RescuedStep(db, m, batchIds, b, now);
    assert ClaimedSet(m, b) == RescuedSet(m, [b]);
    assert RescuedSet(db, batchIds + [b]) == RescuedSet(db, batchIds) + RescuedSet(db, [b]);
  }

  lemma FreshSubset(db: Db, draws: Draws, s: set<Id>, t: set<Id>)
    requires FreshSettle(db, draws, s) && t <= s
    ensures FreshSettle(db, draws, t)
  {}

  lemma RecoverRoundSucceeds(db: Db, m: Db, batchIds: seq<Id>, b: Id, r: Recovery)
    requires DbInv(db) && DbInv(m) && Recovered(db, m, batchIds, r.now)
    requires b in StaleSet(db.batches, r.now) && b !in batchIds
    requires r.worker != "" && r.ttl > 0 && FreshSettle(m, r.draws, Unrescued(db, batchIds))
    ensures RecoverOne(m, db.batches[b], r).Ok?
    ensures FreshSettle(RecoverOne(m, db.batches[b], r).value, r.draws, Unrescued(db, batchIds + [b]))
  {
    hide DbInv, FreshSettle, RecoverOne, RescuedSet, Unrescued;
    BatchIdOk(db, b);
    var batch := db.batches[b];
    assert batch.IsStale(r.now) && m.batches[b] == batch;
    StaleStarts(batch, r.worker, r.now + r.ttl, r.now);
    RecoverOneStages(m, batch, r);
    var ids := ListClaimed(Takeover(m, batch, r).value, b);
    UnrescuedStep(db, m, batchIds, b, r.now, ids);
    FreshSubset(m, r.draws, Unrescued(db, batchIds), ClaimedSet(m, b));
    RecoverOneSucceeds(m, batch, r);
    RecoverOneEffect(m, batch, r);
    LaterFresh(m, RecoverOne(m, batch, r).value, ids, r.draws, Unrescued(db, batchIds));
  }

  lemma RecoverNone(db: Db, r: Recovery)
    ensures RecoverIds(db, [], r) == Ok(db) && Unrescued(db, []) == db.batchOf.Keys
  {
    assert BatchRows(db.batches, []) == [];
  }

  lemma {:induction false} RecoverIdsSucceeds(db: Db, batchIds: seq<Id>, r: Recovery)
    requires DbInv(db) && Recoverable(db, batchIds, r.now)
    requires r.worker != "" && r.ttl > 0 && FreshSettle(db, r.draws, db.batchOf.Keys)
    ensures forall i :: 0 <= i < |batchIds| ==> batchIds[i] in db.batches
    ensures RecoverIds(db, batchIds, r).Ok?
    ensures FreshSettle(RecoverIds(db, batchIds, r).value, r.draws, Unrescued(db, batchIds))
    decreases |batchIds|
  {
    hide DbInv, FreshSettle, RecoverIds, RecoverOne, Unrescued, Recovered, StaleSet;
    RecoverableRows(db, batchIds, r.now);
    if batchIds == [] {
      RecoverNone(db, r);
    } else {
      var n := |batchIds| - 1;
      RecoverIdsSucceeds(db, batchIds[..n], r);
      RecoverIdsEffect(db, batchIds[..n], r);
      RecoverIdsUnfold(db, batchIds[..n], batchIds[n], r);
      assert batchIds == batchIds[..n] + [batchIds[n]];
      RecoverRoundSucceeds(db, RecoverIds(db, batchIds[..n], r).value, batchIds[..n], batchIds[n], r);
    }
  }

  /** With fresh ids a recovery always succeeds, whatever it finds. */
  lemma RecoverSucceeds(db: Db, r: Recovery)
    requires DbInv(db) && r.worker != "" && r.ttl > 0 && FreshSettle(db, r.draws, db.batchOf.Keys)
    ensures Recover(db, r).Ok?
  {
    hide DbInv, FreshSettle;
    StaleIdsRecoverable(db, r.now, RecoveryLimit(r));
    RecoverIdsSucceeds(db, StaleIds(db.batches, r.now, RecoveryLimit(r)), r);
  }

  // ----- the interrupted and the uninterrupted run -----

  predicate IsSettled(db: Db, p: Id) {
    p in db.ledger.payments && db.ledger.payments[p].status.Settled?
  }

  /** A line item without its random id and its timestamp. */
  function Terms(item: LineItem): LineItem {
    item.(id := "", createdAt := 0)
  }

  function ItemTerms(db: Db): set<LineItem> {
    set i | i in db.items :: Terms(db.items[i])
  }

  /** The same settled payments, claims, line items, and settled announcements. */
  ghost predicate SameOutcome(s: Db, t: Db) {
    && (forall p :: IsSettled(s, p) <==> IsSettled(t, p))
    && s.batchOf == t.batchOf
    && ItemTerms(s) == ItemTerms(t)
    && ItemsUnique(s.items) && ItemsUnique(t.items)
    && (forall p :: Count(s.ledger.log, p, Settlement) == Count(t.ledger.log, p, Settlement))
  }

  /** Rows that differ at most in how far settlement has come. */
  predicate SamePayment(q: Payment, r: Payment) {
    r == q.(status := r.status, settledAt := r.settledAt, updatedAt := r.updatedAt)
  }

  ghost predicate SamePayments(s: map<Id, Payment>, t: map<Id, Payment>) {
    s.Keys == t.Keys && forall p :: p in s ==> SamePayment(s[p], t[p])
  }

  lemma ItemsAgree(s: Db, t: Db)
    requires ItemsOk(s.ledger.payments, s.batchOf, s.items)
    requires ItemsOk(t.ledger.payments, t.batchOf, t.items) && ItemsComplete(t.ledger.payments, t.items)
    requires SamePayments(s.ledger.payments, t.ledger.payments) && s.batchOf == t.batchOf
    requires forall p :: IsSettled(s, p) ==> IsSettled(t, p)
    requires PaymentsOk(s.ledger.payments)
    ensures ItemTerms(s) <= ItemTerms(t)
  {
    forall i | i in s.items ensures Terms(s.items[i]) in ItemTerms(t) {
      ItemAgrees(s, t, i);
    }
  }

  lemma ItemAgrees(s: Db, t: Db, i: Id)
    requires ItemsOk(s.ledger.payments, s.batchOf, s.items) && i in s.items
    requires ItemsOk(t.ledger.payments, t.batchOf, t.items) && ItemsComplete(t.ledger.payments, t.items)
    requires SamePayments(s.ledger.payments, t.ledger.payments) && s.batchOf == t.batchOf
    requires forall p :: IsSettled(s, p) ==> IsSettled(t, p)
    requires PaymentsOk(s.ledger.payments)
    ensures Terms(s.items[i]) in ItemTerms(t)
  {
    var p := s.items[i].paymentId;
    assert IsSettled(s, p) && ItemFor(t.items, p) && PaymentOk(p, s.ledger.payments[p]);
    var j :| j in t.items && t.items[j].paymentId == p;
    assert Terms(t.items[j]) == Terms(s.items[i]);
  }

  lemma CountsAgree(s: Db, t: Db)
    requires Logged(s.ledger) && Logged(t.ledger) && forall p :: IsSettled(s, p) <==> IsSettled(t, p)
    ensures forall p :: Count(s.ledger.log, p, Settlement) == Count(t.ledger.log, p, Settlement)
  {
    forall p ensures Count(s.ledger.log, p, Settlement) == Count(t.ledger.log, p, Settlement) {
      assert IsSettled(s, p) <==> IsSettled(t, p);
      assert Expected(s.ledger.payments, p, Settlement) == Expected(t.ledger.payments, p, Settlement);
    }
  }

  lemma InvLogged(db: Db)
    requires DbInv(db)
    ensures Logged(db.ledger)
  {
    hide SettleInv;
  }

  lemma InvItems(db: Db)
    requires DbInv(db)
    ensures ItemsOk(db.ledger.payments, db.batchOf, db.items) && ItemsUnique(db.items)
    ensures ItemsComplete(db.ledger.payments, db.items)
  {
    hide Inv;
  }

  lemma InvPayments(db: Db)
    requires DbInv(db)
    ensures PaymentsOk(db.ledger.payments)
  {
    hide SettleInv;
  }

  /** In good databases the settled payments and the claims determine items and announcements. */
  lemma SettledDetermines(s: Db, t: Db)
    requires DbInv(s) && DbInv(t)
    requires SamePayments(s.ledger.payments, t.ledger.payments) && s.batchOf == t.batchOf
    requires forall p :: IsSettled(s, p) <==> IsSettled(t, p)
    ensures SameOutcome(s, t)
  {
    hide DbInv;
    InvItems(s); InvItems(t);
    InvPayments(s); InvPayments(t);
    ItemsAgree(s, t); ItemsAgree(t, s);
    InvLogged(s); InvLogged(t);
    CountsAgree(s, t);
  }

  lemma CoveringSelection(batches: map<Id, Batch>, now: int, limit: nat)
    requires limit >= |StaleSet(batches, now)|
    ensures forall b :: b in StaleIds(batches, now, limit) <==> b in StaleSet(batches, now)
  {
    FullSelection(StaleIds(batches, now, limit), StaleSet(batches, now), StaleRank(batches));
  }

  /** The two runs up to the recovery: settled a prefix, or all, of the same opened batch. */
  ghost predicate Interrupted(open: Db, crashed: Db, full: Db, run: BatchRun, k: nat) {
    && k <= |run.ids|
    && crashed.ledger.payments == PaymentsSettled(open.ledger.payments, run.ids[..k], run.now)
    && full.ledger.payments == PaymentsSettled(open.ledger.payments, run.ids, run.now)
    && crashed.batchOf == full.batchOf == open.batchOf
    && (forall p :: p in ClaimedSet(open, run.batchId) <==> p in run.ids)
    && run.batchId in open.batches && open.batches[run.batchId].IsStale(run.now + run.ttl)
    && crashed.batches == open.batches
    && run.batchId in full.batches && full.batches[run.batchId].status.Completed?
    && full.batches == open.batches[run.batchId := full.batches[run.batchId]]
  }

  lemma Interruption(db: Db, run: BatchRun, k: nat)
    requires DbInv(db) && PossibleClaim(db, run) && k <= |run.ids|
    requires OpenBatch(db, run).Ok? && FreshSettle(db, run.draws, IdSet(run.ids))
    ensures SettlePrefix(db, run, k).Ok? && DbInv(SettlePrefix(db, run, k).value)
    ensures CreateBatch(db, run).Ok? && DbInv(CreateBatch(db, run).value)
    ensures Interrupted(OpenBatch(db, run).value, SettlePrefix(db, run, k).value, CreateBatch(db, run).value, run, k)
  {
    hide DbInv, FreshSettle, SettlePrefix, OpenBatch, Drawn;
    var n := |run.ids|;
    PrefixSucceeds(db, run, k);
    PrefixSucceeds(db, run, n);
    assert run.ids[..n] == run.ids;
    OpenedClaims(db, run);
    SettlePrefixEffect(db, run, k);
    SettlePrefixEffect(db, run, n);
    FinishesOpened(OpenBatch(db, run).value, SettlePrefix(db, run, n).value, run);
    CreateBatchEffect(db, run);
  }

  lemma FinishesOpened(open: Db, m: Db, run: BatchRun)
    requires run.batchId in open.batches && open.batches[run.batchId].status.Processing? && m.batches == open.batches
    ensures FinishBatch(m, run.batchId, run.now).Ok?
    ensures var full := FinishBatch(m, run.batchId, run.now).value;
            && full == m.(batches := open.batches[run.batchId := full.batches[run.batchId]])
            && run.batchId in full.batches && full.batches[run.batchId].status.Completed?
  {}

  lemma PrefixSucceeds(db: Db, run: BatchRun, k: nat)
    requires DbInv(db) && PossibleClaim(db, run) && k <= |run.ids|
    requires OpenBatch(db, run).Ok? && FreshSettle(db, run.draws, IdSet(run.ids))
    ensures SettlePrefix(db, run, k).Ok?
  {
    hide DbInv;
    OpenBatchKeepsInv(db, run);
    OpenedClaims(db, run);
    var open := OpenBatch(db, run).value;
    SettleablePrefix(open, run.batchId, run.ids, k);
    PrefixIsLoop(db, run, k);
    FreshAfterOpen(db, open, run, k);
    SettleIdsSucceeds(open, run.batchId, run.ids[..k], run.now, run.draws);
  }

  lemma FreshAfterOpen(db: Db, open: Db, run: BatchRun, k: nat)
    requires OpenBatch(db, run) == Ok(open) && k <= |run.ids| && FreshSettle(db, run.draws, IdSet(run.ids))
    ensures FreshSettle(open, run.draws, IdSet(run.ids[..k]))
  {
    assert open.items == db.items && open.ledger.log == db.ledger.log;
  }

  lemma SameSettled(open: Db, crashed: Db, full: Db, run: BatchRun, k: nat, now: int, late: Db, done: Db,
                    lateIds: seq<Id>, doneIds: seq<Id>)
    requires Interrupted(open, crashed, full, run, k) && now >= run.now + run.ttl
    requires Recovered(crashed, late, lateIds, now)
    requires forall b :: b in lateIds <==> b in StaleSet(crashed.batches, now)
    requires Recovered(full, done, doneIds, now) && (forall b :: b in doneIds <==> b in StaleSet(full.batches, now))
    ensures forall p :: IsSettled(late, p) <==> IsSettled(done, p)
    ensures SamePayments(late.ledger.payments, done.ledger.payments)
  {
    assert run.batchId in lateIds && run.batchId !in doneIds;
    forall b | b != run.batchId ensures b in lateIds <==> b in doneIds {}
    forall p | p in open.ledger.payments
      ensures IsSettled(late, p) <==> IsSettled(done, p)
      ensures SamePayment(late.ledger.payments[p], done.ledger.payments[p])
    {
      SameSettledAt(open, crashed, full, run, k, now, late, done, lateIds, doneIds, p);
    }
  }

  lemma SameSettledAt(open: Db, crashed: Db, full: Db, run: BatchRun, k: nat, now: int, late: Db, done: Db,
                      lateIds: seq<Id>, doneIds: seq<Id>, p: Id)
    requires Interrupted(open, crashed, full, run, k) && p in open.ledger.payments
    requires late.ledger.payments == PaymentsRescued(crashed, lateIds, now)
    requires done.ledger.payments == PaymentsRescued(full, doneIds, now)
    requires run.batchId in lateIds && run.batchId !in doneIds
    requires forall b :: b != run.batchId ==> (b in lateIds <==> b in doneIds)
    ensures IsSettled(late, p) <==> IsSettled(done, p)
    ensures SamePayment(late.ledger.payments[p], done.ledger.payments[p])
  {
    assert p in run.ids[..k] ==> p in run.ids;
    assert p in run.ids <==> p in ClaimedSet(open, run.batchId);
  }

  /**
    Crash-and-recover equivalence. Suppose a run opened its batch, settled k of its payments and
    stopped; once its lock has expired, one covering recovery leaves the database with the
    same outcome as the uninterrupted run followed by the same recovery.
   */
  lemma CrashThenRecover(db: Db, run: BatchRun, k: nat, late: Recovery, done: Recovery)
    requires DbInv(db) && PossibleClaim(db, run) && k <= |run.ids|
    requires OpenBatch(db, run).Ok? && FreshSettle(db, run.draws, IdSet(run.ids))
    requires late.now == done.now >= run.now + run.ttl
    requires late.worker != "" && late.ttl > 0 && done.worker != "" && done.ttl > 0
    requires SettlePrefix(db, run, k).Ok? ==>
               var crashed := SettlePrefix(db, run, k).value;
               FreshSettle(crashed, late.draws, crashed.batchOf.Keys)
               && RecoveryLimit(late) >= |StaleSet(crashed.batches, late.now)|
    requires CreateBatch(db, run).Ok? ==>
               var full := CreateBatch(db, run).value;
               FreshSettle(full, done.draws, full.batchOf.Keys)
               && RecoveryLimit(done) >= |StaleSet(full.batches, done.now)|
    ensures SettlePrefix(db, run, k).Ok? && CreateBatch(db, run).Ok?
    ensures Recover(SettlePrefix(db, run, k).value, late).Ok? && Recover(CreateBatch(db, run).value, done).Ok?
    ensures SameOutcome(Recover(SettlePrefix(db, run, k).value, late).value,
                        Recover(CreateBatch(db, run).value, done).value)
  {
    hide DbInv, FreshSettle, Recover, CreateBatch, SettlePrefix, OpenBatch, SameOutcome;
    Interruption(db, run, k);
    var open, crashed, full := OpenBatch(db, run).value, SettlePrefix(db, run, k).value, CreateBatch(db, run).value;
    RecoverSucceeds(crashed, late);
    RecoverSucceeds(full, done);
    RecoverEffect(crashed, late);
    RecoverEffect(full, done);
    CoveringSelection(crashed.batches, late.now, RecoveryLimit(late));
    CoveringSelection(full.batches, done.now, RecoveryLimit(done));
    SameSettled(open, crashed, full, run, k, late.now, Recover(crashed, late).value, Recover(full, done).value,
                StaleIds(crashed.batches, late.now, RecoveryLimit(late)),
                StaleIds(full.batches, done.now, RecoveryLimit(done)));
    SettledDetermines(Recover(crashed, late).value, Recover(full, done).value);
  }

  /** A recovery with nothing stale changes nothing. */
  lemma NothingStale(db: Db, r: Recovery)
    requires StaleSet(db.batches, r.now) == {}
    ensures Recover(db, r) == Ok(db)
  {
    assert StaleIds(db.batches, r.now, RecoveryLimit(r)) == [];
    assert BatchRows(db.batches, StaleIds(db.batches, r.now, RecoveryLimit(r))) == [];
  }

  lemma OnlyStale(open: Db, crashed: Db, full: Db, run: BatchRun, k: nat, now: int)
    requires Interrupted(open, crashed, full, run, k) && now >= run.now + run.ttl && StaleSet(full.batches, now) == {}
    ensures StaleSet(crashed.batches, now) == {run.batchId}
  {
    forall b | b in open.batches && b != run.batchId ensures !open.batches[b].IsStale(now) {
      assert b !in StaleSet(full.batches, now);
    }
  }

  lemma RecoveredNone(db: Db, now: int)
    ensures Recovered(db, db, [], now)
  {
    assert PaymentsRescued(db, [], now) == db.ledger.payments;
  }

  /**
    Where nothing else is stale, one recovery after the crash has the outcome of the uninterrupted run
    itself, as soon as its limit admits a single batch.
   */
  lemma CrashThenRecoverAlone(db: Db, run: BatchRun, k: nat, late: Recovery)
    requires DbInv(db) && PossibleClaim(db, run) && k <= |run.ids|
    requires OpenBatch(db, run).Ok? && FreshSettle(db, run.draws, IdSet(run.ids))
    requires late.now >= run.now + run.ttl && late.worker != "" && late.ttl > 0 && RecoveryLimit(late) >= 1
    requires SettlePrefix(db, run, k).Ok? ==>
               FreshSettle(SettlePrefix(db, run, k).value, late.draws, SettlePrefix(db, run, k).value.batchOf.Keys)
    requires CreateBatch(db, run).Ok? ==> StaleSet(CreateBatch(db, run).value.batches, late.now) == {}
    ensures SettlePrefix(db, run, k).Ok? && CreateBatch(db, run).Ok?
    ensures Recover(SettlePrefix(db, run, k).value, late).Ok?
    ensures SameOutcome(Recover(SettlePrefix(db, run, k).value, late).value, CreateBatch(db, run).value)
  {
    hide DbInv, FreshSettle, Recover, CreateBatch, SettlePrefix, OpenBatch, SameOutcome;
    Interruption(db, run, k);
    var open, crashed, full := OpenBatch(db, run).value, SettlePrefix(db, run, k).value, CreateBatch(db, run).value;
    RecoverSucceeds(crashed, late);
    RecoverEffect(crashed, late);
    OnlyStale(open, crashed, full, run, k, late.now);
    CoveringSelection(crashed.batches, late.now, RecoveryLimit(late));
    RecoveredNone(full, late.now);
    SameSettled(open, crashed, full, run, k, late.now, Recover(crashed, late).value, full,
                StaleIds(crashed.batches, late.now, RecoveryLimit(late)), []);
    SettledDetermines(Recover(crashed, late).value, full);
  }
}
