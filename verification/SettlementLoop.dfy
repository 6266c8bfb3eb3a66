/** The settlement loop: what it changes, that it keeps the invariant, and when it cannot fail. */
module SettlementLoop {
  import opened Common
  import opened Entities
  import opened Ledger
  import opened LedgerInvariant
  import opened Settlement
  import opened SettlementInvariant

  /** Distinct captured payments claimed by the batch. */
  ghost predicate Settleable(db: Db, batchId: Id, ids: seq<Id>) {
    && (forall i :: 0 <= i < |ids| ==> ids[i] in ClaimedSet(db, batchId))
    && (forall i, j :: 0 <= i < j < |ids| ==> ids[i] != ids[j])
  }

  function SettledRow(q: Payment, settled: bool, now: int): Payment {
    if settled then q.(status := Settled, settledAt := Some(now), updatedAt := now) else q
  }

  function PaymentsSettled(payments: map<Id, Payment>, ids: seq<Id>, now: int): map<Id, Payment> {
    map p | p in payments :: SettledRow(payments[p], p in ids, now)
  }

  /** out is db with exactly the payments in ids settled; the new rows carry drawn ids. */
  ghost predicate SettledAll(db: Db, out: Db, ids: seq<Id>, now: int, draws: Draws) {
    && out == db.(ledger := out.ledger, items := out.items)
    && out.ledger == db.ledger.(payments := out.ledger.payments, log := out.ledger.log)
    && out.ledger.payments == PaymentsSettled(db.ledger.payments, ids, now)
    && Drawn(db, out, ids, draws)
  }

  ghost predicate Drawn(db: Db, out: Db, ids: seq<Id>, draws: Draws) {
    && (forall i :: i in out.items ==> i in db.items || exists p :: p in ids && i == draws.item(p))
    && (forall e :: e in out.ledger.log ==> e in db.ledger.log || exists p :: p in ids && e.id == draws.event(p))
  }

  /** The ids drawn for the payments in s are new; all drawn ids differ. */
  ghost predicate FreshSettle(db: Db, draws: Draws, s: set<Id>) {
    && (forall p :: p in s ==> draws.item(p) !in db.items)
    && (forall p :: p in s ==> FreshEvent(db.ledger, draws.event(p)))
    && (forall p :: draws.item(p) != "")
    && (forall p, q :: p != q ==> draws.item(p) != draws.item(q))
    && (forall p, q :: p != q ==> draws.event(p) != draws.event(q))
  }

  lemma SettleableRows(db: Db, batchId: Id, ids: seq<Id>)
    requires Settleable(db, batchId, ids)
    ensures forall i :: 0 <= i < |ids| ==> ids[i] in db.ledger.payments
  {
    forall i | 0 <= i < |ids| ensures ids[i] in db.ledger.payments {
      assert ids[i] in ClaimedSet(db, batchId);
    }
  }

  /** The loop over the claim rows of ids. */
  function SettleIds(db: Db, batchId: Id, ids: seq<Id>, now: int, draws: Draws): Result<Db, Error>
    requires forall i :: 0 <= i < |ids| ==> ids[i] in db.ledger.payments
  {
    SettleList(db, batchId, ClaimRows(db.ledger.payments, ids, batchId), now, draws)
  }

  lemma SettleIdsUnfold(db: Db, batchId: Id, ids: seq<Id>, p: Id, now: int, draws: Draws)
    requires (forall i :: 0 <= i < |ids| ==> ids[i] in db.ledger.payments) && p in db.ledger.payments
    requires KeyedPayments(db.ledger.payments)
    ensures SettleIds(db, batchId, ids + [p], now, draws) ==
            match SettleIds(db, batchId, ids, now, draws)
            case Err(e) => Err(e)
            case Ok(m) => SettleOne(m, batchId, ClaimOf(db.ledger.payments[p], batchId), now, draws.item(p),
                                    draws.event(p))
  {
    var rows := ClaimRows(db.ledger.payments, ids + [p], batchId);
    assert rows[..|rows| - 1] == ClaimRows(db.ledger.payments, ids, batchId);
  }

  /** A finished loop kept the invariant and did exactly its work. */
  ghost predicate CleanSettle(db: Db, ids: seq<Id>, now: int, draws: Draws, out: Result<Db, Error>) {
    out.Ok? ==> DbInv(out.value) && SettledAll(db, out.value, ids, now, draws)
  }

  lemma SettledAllStep(db: Db, m: Db, out: Db, batchId: Id, ids: seq<Id>, p: Id, now: int, draws: Draws)
    requires SettledAll(db, m, ids, now, draws) && PaymentsOk(m.ledger.payments)
    requires p in db.ledger.payments && db.ledger.payments[p].id == p && p !in ids
    requires p in m.batchOf && m.batchOf[p] == batchId
    requires SettleOne(m, batchId, ClaimOf(db.ledger.payments[p], batchId), now, draws.item(p), draws.event(p))
            == Ok(out)
    ensures SettledAll(db, out, ids + [p], now, draws)
  {
    var q := db.ledger.payments[p];
    SettledPayments(db.ledger.payments, ids, p, now);
    DrawnStep(db, m, out, ids, p, draws);
  }

  lemma SettledPayments(payments: map<Id, Payment>, ids: seq<Id>, p: Id, now: int)
    requires p in payments
    ensures PaymentsSettled(payments, ids, now)[p := SettledRow(payments[p], true, now)]
         == PaymentsSettled(payments, ids + [p], now)
  {}

  lemma DrawnStep(db: Db, m: Db, out: Db, ids: seq<Id>, p: Id, draws: Draws)
    requires Drawn(db, m, ids, draws)
    requires forall i :: i in out.items ==> i in m.items || i == draws.item(p)
    requires forall e :: e in out.ledger.log ==> e in m.ledger.log || e.id == draws.event(p)
    ensures Drawn(db, out, ids + [p], draws)
  {
    assert p in ids + [p];
    forall i | i in out.items ensures i in db.items || exists p' :: p' in ids + [p] && i == draws.item(p') {
      if i in m.items && i !in db.items {
        var x :| x in ids && i == draws.item(x);
        assert x in ids + [p];
      }
    }
    forall e | e in out.ledger.log
      ensures e in db.ledger.log || exists p' :: p' in ids + [p] && e.id == draws.event(p')
    {
      if e in m.ledger.log && e !in db.ledger.log {
        var x :| x in ids && e.id == draws.event(x);
        assert x in ids + [p];
      }
    }
  }

  lemma SettleRound(db: Db, m: Db, batchId: Id, ids: seq<Id>, p: Id, now: int, draws: Draws)
    requires DbInv(db) && DbInv(m) && SettledAll(db, m, ids, now, draws)
    requires p in ClaimedSet(db, batchId) && p !in ids
    ensures CleanSettle(db, ids + [p], now, draws,
                        SettleOne(m, batchId, ClaimOf(db.ledger.payments[p], batchId), now, draws.item(p),
                                  draws.event(p)))
  {
    hide Inv, SettleInv;
    InvRows(db.ledger);
    InvRows(m.ledger);
    var q := db.ledger.payments[p];
    assert PaymentOk(p, q) && m.ledger.payments[p] == q;
    var out := SettleOne(m, batchId, ClaimOf(q, batchId), now, draws.item(p), draws.event(p));
    if out.Ok? {
      SettleOneKeepsInv(m, batchId, q, now, draws.item(p), draws.event(p));
      SettledAllStep(db, m, out.value, batchId, ids, p, now, draws);
    }
  }

  lemma {:induction false} SettleIdsEffect(db: Db, batchId: Id, ids: seq<Id>, now: int, draws: Draws)
    requires DbInv(db) && Settleable(db, batchId, ids)
    ensures forall i :: 0 <= i < |ids| ==> ids[i] in db.ledger.payments
    ensures CleanSettle(db, ids, now, draws, SettleIds(db, batchId, ids, now, draws))
    decreases |ids|
  {
    hide DbInv;
    SettleableRows(db, batchId, ids);
    if ids == [] {
      assert PaymentsSettled(db.ledger.payments, ids, now) == db.ledger.payments;
    } else {
      var n := |ids| - 1;
      DbInvKeyed(db);
      SettleIdsEffect(db, batchId, ids[..n], now, draws);
      SettleIdsUnfold(db, batchId, ids[..n], ids[n], now, draws);
      assert ids == ids[..n] + [ids[n]];
      var before := SettleIds(db, batchId, ids[..n], now, draws);
      if before.Ok? {
        SettleRound(db, before.value, batchId, ids[..n], ids[n], now, draws);
      }
    }
  }

  lemma DbInvKeyed(db: Db)
    requires DbInv(db)
    ensures KeyedPayments(db.ledger.payments)
  {
    hide SettleInv;
  }

  // ----- success -----

  lemma SettleOneSucceeds(db: Db, batchId: Id, p: Id, now: int, itemId: Id, eventId: Id)
    requires DbInv(db) && p in ClaimedSet(db, batchId)
    requires itemId != "" && itemId !in db.items && FreshEvent(db.ledger, eventId)
    ensures SettleOne(db, batchId, ClaimOf(db.ledger.payments[p], batchId), now, itemId, eventId).Ok?
  {
    hide Inv, SettleInv;
    InvRows(db.ledger);
    ClaimBatch(db, batchId, p);
    var q := db.ledger.payments[p];
    assert PaymentOk(p, q) && PayerOk(q.payerId, db.ledger.payers[q.payerId]);
  }

  lemma ClaimBatch(db: Db, batchId: Id, p: Id)
    requires SettleInv(db) && p in ClaimedSet(db, batchId)
    ensures batchId != "" && !HasItem(db, p)
  {
    assert BatchOk(batchId, db.batches[batchId]);
  }

  lemma LaterFresh(db: Db, m: Db, ids: seq<Id>, draws: Draws, s: set<Id>)
    requires FreshSettle(db, draws, s) && Drawn(db, m, ids, draws)
    ensures FreshSettle(m, draws, set p | p in s && p !in ids)
  {
    forall p | p in s && p !in ids ensures draws.item(p) !in m.items && FreshEvent(m.ledger, draws.event(p)) {
      assert FreshEvent(db.ledger, draws.event(p));
      DrawApart(ids, draws, p);
    }
  }

  lemma DrawApart(ids: seq<Id>, draws: Draws, p: Id)
    requires p !in ids
    requires forall p, q :: p != q ==> draws.item(p) != draws.item(q)
    requires forall p, q :: p != q ==> draws.event(p) != draws.event(q)
    ensures forall q :: q in ids ==> draws.item(q) != draws.item(p) && draws.event(q) != draws.event(p)
  {}

  lemma {:induction false} SettleIdsSucceeds(db: Db, batchId: Id, ids: seq<Id>, now: int, draws: Draws)
    requires DbInv(db) && Settleable(db, batchId, ids) && FreshSettle(db, draws, IdSet(ids))
    ensures forall i :: 0 <= i < |ids| ==> ids[i] in db.ledger.payments
    ensures SettleIds(db, batchId, ids, now, draws).Ok?
    decreases |ids|
  {
    hide DbInv;
    SettleableRows(db, batchId, ids);
    if ids != [] {
      var n := |ids| - 1;
      DbInvKeyed(db);
      SettleIdsSucceeds(db, batchId, ids[..n], now, draws);
      SettleIdsEffect(db, batchId, ids[..n], now, draws);
      SettleIdsUnfold(db, batchId, ids[..n], ids[n], now, draws);
      assert ids == ids[..n] + [ids[n]];
      var m := SettleIds(db, batchId, ids[..n], now, draws).value;
      LaterFresh(db, m, ids[..n], draws, IdSet(ids));
      StillClaimed(db, m, batchId, ids[..n], ids[n], now, draws);
      SettleOneSucceeds(m, batchId, ids[n], now, draws.item(ids[n]), draws.event(ids[n]));
    }
  }

  lemma StillClaimed(db: Db, m: Db, batchId: Id, ids: seq<Id>, p: Id, now: int, draws: Draws)
    requires SettledAll(db, m, ids, now, draws) && p in ClaimedSet(db, batchId) && p !in ids
    ensures p in ClaimedSet(m, batchId) && m.ledger.payments[p] == db.ledger.payments[p]
  {}
}
