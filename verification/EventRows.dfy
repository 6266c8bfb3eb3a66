/** Every event in the log repeats the row of the payment it announces, as that row stands for ever after. */
module EventRows {
  import opened Common
  import opened Entities
  import opened Ledger
  import opened LedgerInvariant
  import opened Expiry
  import opened Settlement
  import opened SettlementInvariant
  import opened SettlementLoop
  import opened SettlementRuns
  import opened Machine
  import opened Transactions

  /** Field by field, and the event is of the instant it announces. */
  predicate Tells(e: Event, payments: map<Id, Payment>, batchOf: map<Id, Id>) {
    var x := e.payload;
    && x.paymentId in payments
    && var q := payments[x.paymentId];
       && x.merchantId == q.merchantId && x.payerId == q.payerId && x.amount == q.amount && x.currency == q.currency
       && match x {
            case PaymentAuthorized(_, _, _, _, _, holdId, authorizedAt, expiresAt) =>
              && holdId == q.holdId && authorizedAt == q.authorizedAt == e.createdAt && expiresAt == q.expiresAt
            case PaymentCaptured(_, _, _, _, _, holdId, capturedAt) =>
              && holdId == q.holdId && q.capturedAt == Some(capturedAt) && capturedAt == e.createdAt
            case PaymentExpired(_, _, _, _, _, holdId, expiredAt, expiresAt) =>
              && holdId == q.holdId && expiresAt == q.expiresAt
              && q.status == Expired && expiredAt == q.updatedAt == e.createdAt
            case PaymentSettled(_, _, _, batchId, _, _, settledAt) =>
              && x.paymentId in batchOf && batchId == batchOf[x.paymentId]
              && q.settledAt == Some(settledAt) && settledAt == e.createdAt
          }
  }

  ghost predicate Told(log: seq<Event>, payments: map<Id, Payment>, batchOf: map<Id, Id>) {
    forall i :: 0 <= i < |log| ==> Tells(log[i], payments, batchOf)
  }

  ghost predicate DistinctIds(log: seq<Event>) {
    forall i, j :: 0 <= i < j < |log| ==> log[i].id != log[j].id
  }

  /** Sold by an active merchant, and authorized for a quarter of an hour. */
  predicate SoldOk(merchants: map<Id, MerchantStatus>, q: Payment) {
    q.merchantId in merchants && merchants[q.merchantId] == Active && q.expiresAt == q.authorizedAt + 900_000_000_000
  }

  ghost predicate AllSold(merchants: map<Id, MerchantStatus>, payments: map<Id, Payment>) {
    forall p :: p in payments ==> SoldOk(merchants, payments[p])
  }

  ghost predicate Announced(merchants: map<Id, MerchantStatus>, l: Ledger, batchOf: map<Id, Id>) {
    Told(l.log, l.payments, batchOf) && DistinctIds(l.log) && AllSold(merchants, l.payments)
  }

  // ----- rows change only in what no earlier event tells -----

  /** The terms stay, and so do the instants of capture and settlement, and an expired row altogether. */
  predicate KeptRow(q: Payment, r: Payment) {
    && r == q.(status := r.status, capturedAt := r.capturedAt, settledAt := r.settledAt, updatedAt := r.updatedAt)
    && (q.capturedAt.Some? ==> r.capturedAt == q.capturedAt)
    && (q.settledAt.Some? ==> r.settledAt == q.settledAt)
    && (q.status.Expired? ==> r == q)
  }

  ghost predicate RowsKept(before: map<Id, Payment>, after: map<Id, Payment>) {
    forall p :: p in before ==> p in after && KeptRow(before[p], after[p])
  }

  ghost predicate ClaimsKept(before: map<Id, Id>, after: map<Id, Id>) {
    forall p :: p in before ==> p in after && after[p] == before[p]
  }

  lemma StillTells(e: Event, before: map<Id, Payment>, after: map<Id, Payment>, claims: map<Id, Id>,
                   batchOf: map<Id, Id>)
    requires Tells(e, before, claims) && RowsKept(before, after) && ClaimsKept(claims, batchOf)
    ensures Tells(e, after, batchOf)
  {
    assert KeptRow(before[e.payload.paymentId], after[e.payload.paymentId]);
  }

  /** The ledger goes on, and the events so far still tell its rows. */
  ghost predicate GoesOn(merchants: map<Id, MerchantStatus>, l: Ledger, claims: map<Id, Id>, m: Ledger,
                         batchOf: map<Id, Id>) {
    RowsKept(l.payments, m.payments) && ClaimsKept(claims, batchOf) && AllSold(merchants, m.payments)
  }

  lemma SilentStep(merchants: map<Id, MerchantStatus>, l: Ledger, claims: map<Id, Id>, m: Ledger, batchOf: map<Id, Id>)
    requires Announced(merchants, l, claims) && GoesOn(merchants, l, claims, m, batchOf) && m.log == l.log
    ensures Announced(merchants, m, batchOf)
  {
    hide Tells, RowsKept, ClaimsKept;
    forall i | 0 <= i < |m.log| ensures Tells(m.log[i], m.payments, batchOf) {
      StillTells(l.log[i], l.payments, m.payments, claims, batchOf);
    }
  }

  lemma TellingStep(merchants: map<Id, MerchantStatus>, l: Ledger, claims: map<Id, Id>, m: Ledger, batchOf: map<Id, Id>,
                    e: Event)
    requires Announced(merchants, l, claims) && GoesOn(merchants, l, claims, m, batchOf) && m.log == l.log + [e]
    requires FreshEvent(l, e.id) && Tells(e, m.payments, batchOf)
    ensures Announced(merchants, m, batchOf)
  {
    hide Tells, RowsKept, ClaimsKept;
    forall i | 0 <= i < |m.log| ensures Tells(m.log[i], m.payments, batchOf) {
      if i < |l.log| {
        StillTells(l.log[i], l.payments, m.payments, claims, batchOf);
      }
    }
  }

  /** One row changes, and keeps what has been told of it. */
  lemma OneRowGoesOn(merchants: map<Id, MerchantStatus>, l: Ledger, m: Ledger, batchOf: map<Id, Id>, p: Id, r: Payment)
    requires AllSold(merchants, l.payments) && p in l.payments && KeptRow(l.payments[p], r)
    requires m.payments == l.payments[p := r]
    ensures GoesOn(merchants, l, batchOf, m, batchOf)
  {}

  // ----- the ledger's transactions -----

  lemma AuthorizeTells(l: Ledger, merchants: map<Id, MerchantStatus>, batchOf: map<Id, Id>, input: AuthorizeInput,
                       now: int, draw: Draw)
    requires Keyed(l) && Announced(merchants, l, batchOf) && Authorize(l, merchants, input, now, draw).Ok?
    ensures var r := Authorize(l, merchants, input, now, draw).value;
            Announced(merchants, Write(l, r, AuthorizedEvent(draw.eventId, r, now)), batchOf)
  {
    hide Authorize, Tells, Told, DistinctIds, AuthorizeRefusals;
    AuthorizeExactly(l, merchants, input, now, draw);
    var r := Authorize(l, merchants, input, now, draw).value;
    var e := AuthorizedEvent(draw.eventId, r, now);
    assert AuthorizedRows(l, input, now, draw, r);
    AuthorizedTells(l, batchOf, draw.eventId, r, now);
    TellingStep(merchants, l, batchOf, Write(l, r, e), batchOf, e);
  }

  lemma AuthorizedTells(l: Ledger, batchOf: map<Id, Id>, eventId: Id, r: Receipt, now: int)
    requires r.payment.holdId == r.hold.id && r.payment.authorizedAt == now
    ensures Tells(AuthorizedEvent(eventId, r, now), l.payments[r.payment.id := r.payment], batchOf)
  {}

  lemma CaptureTells(l: Ledger, merchants: map<Id, MerchantStatus>, batchOf: map<Id, Id>, paymentId: Id, now: int,
                     eventId: Id)
    requires Inv(l) && Keyed(l) && Announced(merchants, l, batchOf) && Capture(l, paymentId, now, eventId).Ok?
    ensures var r := Capture(l, paymentId, now, eventId).value;
            Announced(merchants, Write(l, r, CapturedEvent(eventId, r, now)), batchOf)
  {
    hide Capture, Inv, Tells, Told, DistinctIds, CaptureRefusals;
    CaptureExactly(l, paymentId, now, eventId);
    var r := Capture(l, paymentId, now, eventId).value;
    var e := CapturedEvent(eventId, r, now);
    InvHolds(l);
    InvRows(l);
    var q := l.payments[paymentId];
    assert PaymentOk(paymentId, q) && CapturedRows(l, paymentId, now, r);
    CapturedTells(l, batchOf, eventId, r, now);
    TellingStep(merchants, l, batchOf, Write(l, r, e), batchOf, e);
  }

  lemma CapturedTells(l: Ledger, batchOf: map<Id, Id>, eventId: Id, r: Receipt, now: int)
    requires r.payment.holdId == r.hold.id && r.payment.capturedAt == Some(now)
    ensures Tells(CapturedEvent(eventId, r, now), l.payments[r.payment.id := r.payment], batchOf)
  {}

  lemma ExpireTells(l: Ledger, merchants: map<Id, MerchantStatus>, batchOf: map<Id, Id>, q: Payment, now: int,
                    eventId: Id)
    requires Inv(l) && Announced(merchants, l, batchOf)
    requires q.id in l.payments && l.payments[q.id] == q && ExpireNext(l, q, now, eventId).Ok?
    ensures Announced(merchants, ExpireNext(l, q, now, eventId).value, batchOf)
  {
    hide Inv, Tells, Told, DistinctIds;
    InvHolds(l);
    InvRows(l);
    assert PaymentOk(q.id, q);
    var r := ExpireOne(l, q, now, eventId).value;
    var e := ExpiredEvent(eventId, r, now);
    assert r.payment == q.(status := Expired, updatedAt := now) && r.hold.id == q.holdId;
    ExpiredTells(l, batchOf, eventId, r, now);
    TellingStep(merchants, l, batchOf, Write(l, r, e), batchOf, e);
  }

  lemma ExpiredTells(l: Ledger, batchOf: map<Id, Id>, eventId: Id, r: Receipt, now: int)
    requires r.payment.holdId == r.hold.id && r.payment.status == Expired && r.payment.updatedAt == now
    ensures Tells(ExpiredEvent(eventId, r, now), l.payments[r.payment.id := r.payment], batchOf)
  {}

  lemma {:induction false} ExpireListTells(l: Ledger, merchants: map<Id, MerchantStatus>, batchOf: map<Id, Id>,
                                           list: seq<Payment>, now: int, draw: Id -> Id)
    requires Inv(l) && Announced(merchants, l, batchOf) && Expirable(l, list) && ExpireList(l, list, now, draw).Ok?
    ensures Announced(merchants, ExpireList(l, list, now, draw).value, batchOf)
    decreases |list|
  {
    hide Inv, Announced, ExpireNext;
    if list != [] {
      var n := |list| - 1;
      ExpirablePrefix(l, list);
      ExpireListTells(l, merchants, batchOf, list[..n], now, draw);
      ExpireListKeepsInv(l, list[..n], now, draw);
      ExpireTells(ExpireList(l, list[..n], now, draw).value, merchants, batchOf, list[n], now, draw(list[n].id));
    }
  }

  lemma LedgerStepTells(l: Ledger, merchants: map<Id, MerchantStatus>, batchOf: map<Id, Id>, a: Action)
    requires Inv(l) && Keyed(l) && Announced(merchants, l, batchOf)
    ensures Announced(merchants, LedgerStep(l, merchants, a), batchOf)
  {
    hide Inv, Announced, Authorize, Capture, ExpireList, Write;
    match a {
      case AddPayer(id, available, currency, now) =>
        if CreatePayer(l, id, available, currency, now).Ok? {
          AddPayerTells(l, merchants, batchOf, CreatePayer(l, id, available, currency, now).value);
        }
      case DoAuthorize(input, now, draw) =>
        if Authorize(l, merchants, input, now, draw).Ok? {
          AuthorizeTells(l, merchants, batchOf, input, now, draw);
        }
      case DoCapture(paymentId, now, eventId) =>
        if Capture(l, paymentId, now, eventId).Ok? {
          CaptureTells(l, merchants, batchOf, paymentId, now, eventId);
        }
      case DoExpire(limit, now, events) =>
        if Expire(l, limit, now, events).Ok? {
          RowsExpirable(l, DueIds(l.payments, now, ExpiryLimit(limit)), now, ExpiryLimit(limit));
          ExpireListTells(l, merchants, batchOf, DueRows(l.payments, now, ExpiryLimit(limit)), now, events);
        }
      case _ =>
    }
  }

  lemma AddPayerTells(l: Ledger, merchants: map<Id, MerchantStatus>, batchOf: map<Id, Id>, m: Ledger)
    requires Announced(merchants, l, batchOf) && m.payments == l.payments && m.log == l.log
    ensures Announced(merchants, m, batchOf)
  {}

  // ----- settlement -----

  ghost predicate DbTold(merchants: map<Id, MerchantStatus>, db: Db) {
    Announced(merchants, db.ledger, db.batchOf)
  }

  lemma SettleOneTells(db: Db, merchants: map<Id, MerchantStatus>, batchId: Id, q: Payment, now: int, itemId: Id,
                       eventId: Id)
    requires DbInv(db) && DbTold(merchants, db)
    requires q.id in db.ledger.payments && db.ledger.payments[q.id] == q
    requires q.id in db.batchOf && db.batchOf[q.id] == batchId
    requires SettleOne(db, batchId, ClaimOf(q, batchId), now, itemId, eventId).Ok?
    ensures DbTold(merchants, SettleOne(db, batchId, ClaimOf(q, batchId), now, itemId, eventId).value)
  {
    hide Inv, SettleInv, Announced, GoesOn, Tells, SettleOne;
    var c := ClaimOf(q, batchId);
    var out := SettleOne(db, batchId, c, now, itemId, eventId).value;
    SettledFresh(db, batchId, c, now, itemId, eventId);
    InvRows(db.ledger);
    assert PaymentOk(q.id, q);
    DbInvKeyed(db);
    SettleOneInFull(db, batchId, c, now, itemId, eventId);
    ClaimTells(db, out, merchants, batchId, q, now, itemId, eventId);
  }

  lemma ClaimTells(db: Db, out: Db, merchants: map<Id, MerchantStatus>, batchId: Id, q: Payment, now: int, itemId: Id,
                   eventId: Id)
    requires DbTold(merchants, db) && SettlesClaim(db, out, batchId, ClaimOf(q, batchId), now, itemId, eventId)
    requires q.id in db.ledger.payments && db.ledger.payments[q.id] == q && PaymentOk(q.id, q)
    requires q.id in db.batchOf && db.batchOf[q.id] == batchId && FreshEvent(db.ledger, eventId)
    ensures DbTold(merchants, out)
  {
    hide Told, DistinctIds, AllSold, GoesOn, Tells;
    var settled := q.(status := Settled, settledAt := Some(now), updatedAt := now);
    var e := Event(eventId, PaymentSettled(q.id, q.merchantId, q.payerId, batchId, q.amount, q.currency, now), now);
    OneRowGoesOn(merchants, db.ledger, out.ledger, db.batchOf, q.id, settled);
    SettledTells(out, e, q, batchId, now);
    TellingStep(merchants, db.ledger, db.batchOf, out.ledger, out.batchOf, e);
  }

  lemma SettledFresh(db: Db, batchId: Id, c: Claim, now: int, itemId: Id, eventId: Id)
    requires SettleOne(db, batchId, c, now, itemId, eventId).Ok?
    ensures FreshEvent(db.ledger, eventId)
  {}

  lemma SettledTells(out: Db, e: Event, q: Payment, batchId: Id, now: int)
    requires q.id in out.ledger.payments
    requires out.ledger.payments[q.id] == q.(status := Settled, settledAt := Some(now), updatedAt := now)
    requires q.id in out.batchOf && out.batchOf[q.id] == batchId
    requires e.payload == PaymentSettled(q.id, q.merchantId, q.payerId, batchId, q.amount, q.currency, now)
    requires e.createdAt == now
    ensures Tells(e, out.ledger.payments, out.batchOf)
  {}

  lemma SettleRoundTells(db: Db, m: Db, merchants: map<Id, MerchantStatus>, batchId: Id, ids: seq<Id>, p: Id, now: int,
                         draws: Draws)
    requires DbInv(db) && DbInv(m) && DbTold(merchants, m) && SettledAll(db, m, ids, now, draws)
    requires p in ClaimedSet(db, batchId) && p !in ids
    requires SettleOne(m, batchId, ClaimOf(db.ledger.payments[p], batchId), now, draws.item(p), draws.event(p)).Ok?
    ensures DbTold(merchants, SettleOne(m, batchId, ClaimOf(db.ledger.payments[p], batchId), now, draws.item(p),
                                        draws.event(p)).value)
  {
    hide Inv, SettleInv, DbTold, SettleOne;
    InvRows(db.ledger);
    assert PaymentOk(p, db.ledger.payments[p]) && m.ledger.payments[p] == db.ledger.payments[p];
    SettleOneTells(m, merchants, batchId, db.ledger.payments[p], now, draws.item(p), draws.event(p));
  }

  lemma {:induction false} SettleIdsTells(db: Db, merchants: map<Id, MerchantStatus>, batchId: Id, ids: seq<Id>,
                                          now: int, draws: Draws)
    requires DbInv(db) && DbTold(merchants, db) && Settleable(db, batchId, ids)
    ensures forall i :: 0 <= i < |ids| ==> ids[i] in db.ledger.payments
    ensures var out := SettleIds(db, batchId, ids, now, draws); out.Ok? ==> DbTold(merchants, out.value)
    decreases |ids|
  {
    hide DbInv, DbTold, SettleOne;
    SettleableRows(db, batchId, ids);
    if ids != [] {
      var n := |ids| - 1;
      DbInvKeyed(db);
      SettleIdsTells(db, merchants, batchId, ids[..n], now, draws);
      SettleIdsEffect(db, batchId, ids[..n], now, draws);
      SettleIdsUnfold(db, batchId, ids[..n], ids[n], now, draws);
      assert ids == ids[..n] + [ids[n]];
      if SettleIds(db, batchId, ids, now, draws).Ok? {
        var before := SettleIds(db, batchId, ids[..n], now, draws).value;
        SettleRoundTells(db, before, merchants, batchId, ids[..n], ids[n], now, draws);
      }
    }
  }

  lemma OpenTells(db: Db, merchants: map<Id, MerchantStatus>, run: BatchRun)
    requires DbTold(merchants, db) && PossibleClaim(db, run) && OpenBatch(db, run).Ok?
    ensures DbTold(merchants, OpenBatch(db, run).value)
  {
    OpenedInFull(db, run);
    OpenedLog(db, run);
    var open := OpenBatch(db, run).value;
    hide OpenBatch, Told, DistinctIds, AllSold, SoldOk, Tells;
    forall p | p in IdSet(run.ids) ensures Claimable(db, p, run.start, run.end) {
      assert exists i :: 0 <= i < |run.ids| && run.ids[i] == p;
    }
    OpenGoesOn(db, open, merchants, run);
    SilentStep(merchants, db.ledger, db.batchOf, open.ledger, open.batchOf);
  }

  lemma OpenGoesOn(db: Db, open: Db, merchants: map<Id, MerchantStatus>, run: BatchRun)
    requires AllSold(merchants, db.ledger.payments)
    requires forall p :: p in IdSet(run.ids) ==> Claimable(db, p, run.start, run.end)
    requires open.batchOf == db.batchOf + (map p | p in IdSet(run.ids) :: run.batchId)
    requires open.ledger.payments.Keys == db.ledger.payments.Keys
    requires forall p :: p in db.ledger.payments ==>
               open.ledger.payments[p] == if p in IdSet(run.ids) then db.ledger.payments[p].(updatedAt := run.now)
                                          else db.ledger.payments[p]
    ensures GoesOn(merchants, db.ledger, db.batchOf, open.ledger, open.batchOf)
  {
    hide IdSet;
  }

  lemma OpenedLog(db: Db, run: BatchRun)
    requires OpenBatch(db, run).Ok?
    ensures OpenBatch(db, run).value.ledger.log == db.ledger.log
  {}

  lemma PrefixTells(db: Db, merchants: map<Id, MerchantStatus>, run: BatchRun, k: nat)
    requires DbInv(db) && DbTold(merchants, db) && PossibleClaim(db, run) && k <= |run.ids|
    requires SettlePrefix(db, run, k).Ok?
    ensures DbTold(merchants, SettlePrefix(db, run, k).value)
  {
    hide DbInv, DbTold, OpenBatch;
    SettlePrefixEffect(db, run, k);
    OpenTells(db, merchants, run);
    OpenedClaims(db, run);
    var open := OpenBatch(db, run).value;
    SettleablePrefix(open, run.batchId, run.ids, k);
    PrefixIsLoop(db, run, k);
    SettleIdsTells(open, merchants, run.batchId, run.ids[..k], run.now, run.draws);
  }

  lemma FinishTells(db: Db, merchants: map<Id, MerchantStatus>, batchId: Id, now: int)
    requires DbTold(merchants, db) && FinishBatch(db, batchId, now).Ok?
    ensures DbTold(merchants, FinishBatch(db, batchId, now).value)
  {}

  lemma RecoverOneTells(db: Db, merchants: map<Id, MerchantStatus>, batch: Batch, r: Recovery)
    requires DbInv(db) && DbTold(merchants, db)
    requires batch.id in db.batches && db.batches[batch.id] == batch && batch.IsStale(r.now)
    requires RecoverOne(db, batch, r).Ok?
    ensures DbTold(merchants, RecoverOne(db, batch, r).value)
  {
    hide DbInv, Told, DistinctIds, AllSold;
    RecoverOneStages(db, batch, r);
    TakeoverKeepsInv(db, batch, r);
    var t := Takeover(db, batch, r).value;
    var ids := ListClaimed(t, batch.id);
    SettleIdsTells(t, merchants, batch.id, ids, r.now, r.draws);
    FinishTells(SettleIds(t, batch.id, ids, r.now, r.draws).value, merchants, batch.id, r.now);
  }

  lemma {:induction false} RecoverIdsTells(db: Db, merchants: map<Id, MerchantStatus>, batchIds: seq<Id>, r: Recovery)
    requires DbInv(db) && DbTold(merchants, db) && Recoverable(db, batchIds, r.now)
    ensures forall i :: 0 <= i < |batchIds| ==> batchIds[i] in db.batches
    ensures var out := RecoverIds(db, batchIds, r); out.Ok? ==> DbTold(merchants, out.value)
    decreases |batchIds|
  {
    hide DbInv, DbTold, RecoverOne;
    RecoverableRows(db, batchIds, r.now);
    if batchIds != [] {
      var n := |batchIds| - 1;
      RecoverIdsTells(db, merchants, batchIds[..n], r);
      RecoverIdsEffect(db, batchIds[..n], r);
      RecoverIdsUnfold(db, batchIds[..n], batchIds[n], r);
      assert batchIds == batchIds[..n] + [batchIds[n]];
      BatchIdOk(db, batchIds[n]);
      if RecoverIds(db, batchIds, r).Ok? {
        RecoverOneTells(RecoverIds(db, batchIds[..n], r).value, merchants, db.batches[batchIds[n]], r);
      }
    } else {
      assert BatchRows(db.batches, batchIds) == [];
    }
  }

  // ----- every step, every run -----

  lemma StepTells(db: Db, merchants: map<Id, MerchantStatus>, a: Action)
    requires DbInv(db) && Keyed(db.ledger) && DbTold(merchants, db)
    ensures DbTold(merchants, Step(db, merchants, a))
  {
    hide Inv, SettleInv, DbTold, SettlePrefix, Recover, FinishBatch;
    match a {
      case DoSettle(run) =>
        if PossibleClaim(db, run) && CreateBatch(db, run).Ok? {
          PrefixTells(db, merchants, run, |run.ids|);
          FinishTells(SettlePrefix(db, run, |run.ids|).value, merchants, run.batchId, run.now);
        }
      case InterruptedSettle(run, k) =>
        if PossibleClaim(db, run) && k <= |run.ids| && SettlePrefix(db, run, k).Ok? {
          PrefixTells(db, merchants, run, k);
        }
      case DoRecover(r) =>
        if Recover(db, r).Ok? {
          RecoverTells(db, merchants, r);
        }
      case _ =>
        LedgerTells(db, merchants, a);
    }
  }

  lemma RecoverTells(db: Db, merchants: map<Id, MerchantStatus>, r: Recovery)
    requires DbInv(db) && DbTold(merchants, db) && Recover(db, r).Ok?
    ensures DbTold(merchants, Recover(db, r).value)
  {
    hide DbInv, DbTold;
    StaleIdsRecoverable(db, r.now, RecoveryLimit(r));
    RecoverIdsTells(db, merchants, StaleIds(db.batches, r.now, RecoveryLimit(r)), r);
  }

  lemma LedgerTells(db: Db, merchants: map<Id, MerchantStatus>, a: Action)
    requires Inv(db.ledger) && Keyed(db.ledger) && DbTold(merchants, db)
    ensures DbTold(merchants, db.(ledger := LedgerStep(db.ledger, merchants, a)))
  {
    hide Inv, Announced, LedgerStep;
    LedgerStepTells(db.ledger, merchants, db.batchOf, a);
  }

  /**
    In every reachable state each event of the log repeats the row of its payment: amount, currency, merchant,
    payer and hold, the instants of authorization, expiry, capture and settlement, and the settled payment's
    batch; and no two events have one id.
   */
  lemma ReachableEvents(merchants: map<Id, MerchantStatus>, actions: seq<Action>)
    ensures var db := Run(merchants, actions);
            && (forall i :: 0 <= i < |db.ledger.log| ==> Tells(db.ledger.log[i], db.ledger.payments, db.batchOf))
            && (forall i, j :: 0 <= i < j < |db.ledger.log| ==> db.ledger.log[i].id != db.ledger.log[j].id)
  {
    hide Run, Tells;
    DbToldAlways(merchants, actions);
  }

  /** In every reachable state each payment was sold by an active merchant, and authorized for 15 minutes. */
  lemma ReachableSold(merchants: map<Id, MerchantStatus>, actions: seq<Action>, p: Id)
    requires p in Run(merchants, actions).ledger.payments
    ensures var q := Run(merchants, actions).ledger.payments[p];
            && q.merchantId in merchants && merchants[q.merchantId] == Active
            && q.expiresAt == q.authorizedAt + 900_000_000_000
  {
    hide Run, Told, DistinctIds;
    DbToldAlways(merchants, actions);
  }

  lemma {:induction false} DbToldAlways(merchants: map<Id, MerchantStatus>, actions: seq<Action>)
    ensures DbTold(merchants, Run(merchants, actions))
    decreases |actions|
  {
    hide Step, DbInv, Announced;
    if actions == [] {
      NothingTold(merchants);
    } else {
      var n := |actions| - 1;
      ReachableInv(merchants, actions[..n]);
      DbToldAlways(merchants, actions[..n]);
      StepTells(Run(merchants, actions[..n]), merchants, actions[n]);
    }
  }

  lemma NothingTold(merchants: map<Id, MerchantStatus>)
    ensures Announced(merchants, EMPTY.ledger, EMPTY.batchOf)
  {}
}
