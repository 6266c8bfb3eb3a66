/** Every change to one of a payer's authorized payments also raises that payer's version. */
module Versions {
  import opened Common
  import opened Entities
  import opened Ledger
  import opened LedgerInvariant
  import opened LedgerProofs
  import opened Expiry
  import opened Settlement
  import opened SettlementInvariant
  import opened SettlementLoop
  import opened SettlementRuns
  import opened Machine

  predicate Readable(l: Ledger, p: Id) {
    && p in l.payments && p in l.holdOf && l.holdOf[p] in l.holds && l.payments[p].payerId in l.payers
  }

  /** The three rows a capture reads. */
  function Reads(l: Ledger, p: Id): Receipt
    requires Readable(l, p)
  {
    Receipt(l.payments[p], l.holds[l.holdOf[p]], l.payers[l.payments[p].payerId])
  }

  predicate SameVersion(l: Ledger, m: Ledger, payer: Id) {
    payer in l.payers && payer in m.payers && m.payers[payer].version == l.payers[payer].version
  }

  /** The payment's row and its hold's row are the same in both ledgers. */
  predicate SameRows(l: Ledger, m: Ledger, q: Id)
    requires Readable(l, q) && Readable(m, q)
  {
    m.payments[q] == l.payments[q] && m.holds[m.holdOf[q]] == l.holds[l.holdOf[q]]
  }

  /**
    An unchanged version vouches for what a capture of q would read; and as long as the payment is
    authorized, neither its row nor its hold's has ever changed.
   */
  predicate Vouches(l: Ledger, m: Ledger, q: Id)
    requires Readable(l, q)
  {
    && Readable(m, q) && m.payments[q].payerId == l.payments[q].payerId && m.holdOf[q] == l.holdOf[q]
    && (l.payments[q].status.Authorized? && SameVersion(l, m, l.payments[q].payerId) ==> Reads(m, q) == Reads(l, q))
    && (m.payments[q].status.Authorized? ==> SameRows(l, m, q))
  }

  /** Versions only grow; an unchanged version vouches for the payer and its authorized payments. */
  ghost predicate Guarded(l: Ledger, m: Ledger) {
    && (forall p :: p in l.payers ==> p in m.payers && m.payers[p].version >= l.payers[p].version)
    && (forall p :: p in l.payers && SameVersion(l, m, p) ==> m.payers[p] == l.payers[p])
    && (forall q :: Readable(l, q) ==> Vouches(l, m, q))
  }

  lemma GuardedTransitive(l: Ledger, m: Ledger, n: Ledger)
    requires Guarded(l, m) && Guarded(m, n)
    ensures Guarded(l, n)
  {
    forall q | Readable(l, q) ensures Vouches(l, n, q) {
      assert Vouches(l, m, q) && Vouches(m, n, q);
    }
  }

  lemma WriteVouches(l: Ledger, r: Receipt, e: Event, q: Id)
    requires Readable(l, q) && q != r.payment.id && l.holdOf[q] != r.hold.id
    requires r.hold.paymentId == r.payment.id
    requires r.payer.id in l.payers && r.payer.version == l.payers[r.payer.id].version + 1
    ensures Vouches(l, Write(l, r, e), q)
  {}

  lemma WriteVouchesOwn(l: Ledger, r: Receipt, e: Event, q: Id)
    requires Readable(l, q) && q == r.payment.id && GoodWrite(l, r) && !r.payment.status.Authorized?
    requires l.holdOf[q] == r.hold.id
    requires r.payer.version == l.payers[r.payer.id].version + 1
    ensures Vouches(l, Write(l, r, e), q)
  {}

  lemma WriteGuarded(l: Ledger, r: Receipt, e: Event)
    requires HoldsOk(l.payments, l.holds) && IndexOk(l.payments, l.holdOf) && PaymentsOk(l.payments)
    requires GoodWrite(l, r) && r.payer.version == l.payers[r.payer.id].version + 1
    requires r.payment.id in l.payments ==> !r.payment.status.Authorized?
    ensures Guarded(l, Write(l, r, e))
  {
    hide HoldsOk, IndexOk, PaymentsOk, PaymentOk, PayerOk;
    forall q | Readable(l, q) ensures Vouches(l, Write(l, r, e), q) {
      if q != r.payment.id {
        OtherHold(l, r, q);
        WriteVouches(l, r, e, q);
      } else {
        OwnHold(l, r);
        WriteVouchesOwn(l, r, e, q);
      }
    }
  }

  lemma OwnHold(l: Ledger, r: Receipt)
    requires IndexOk(l.payments, l.holdOf) && GoodWrite(l, r) && r.payment.id in l.payments
    ensures l.holdOf[r.payment.id] == r.hold.id
  {}

  lemma OtherHold(l: Ledger, r: Receipt, q: Id)
    requires HoldsOk(l.payments, l.holds) && IndexOk(l.payments, l.holdOf) && PaymentsOk(l.payments)
    requires GoodWrite(l, r) && q in l.payments && q != r.payment.id
    ensures l.holdOf[q] != r.hold.id
  {
    assert PaymentOk(q, l.payments[q]) && Paired(l.payments[q], l.holds[l.holdOf[q]]);
    assert l.holds[l.holdOf[q]].paymentId == q;
    if r.hold.id in l.holds {
      var p := r.payment.id;
      assert PaymentOk(p, l.payments[p]) && Paired(l.payments[p], l.holds[r.hold.id]);
      assert l.holds[r.hold.id].paymentId == p;
    }
  }

  lemma AuthorizeGuarded(l: Ledger, merchants: map<Id, MerchantStatus>, input: AuthorizeInput, now: int, draw: Draw)
    requires Inv(l) && Authorize(l, merchants, input, now, draw).Ok?
    ensures var r := Authorize(l, merchants, input, now, draw).value;
            Guarded(l, Write(l, r, AuthorizedEvent(draw.eventId, r, now)))
  {
    hide Inv, Guarded;
    InvRows(l);
    InvHolds(l);
    InvBalanced(l);
    AuthorizeGood(l, merchants, input, now, draw);
    var r := Authorize(l, merchants, input, now, draw).value;
    hide Balanced;
    assert r.payer.version == l.payers[r.payer.id].version + 1;
    WriteGuarded(l, r, AuthorizedEvent(draw.eventId, r, now));
  }

  lemma CaptureGuarded(l: Ledger, p: Id, now: int, eventId: Id)
    requires Inv(l) && Capture(l, p, now, eventId).Ok?
    ensures var r := Capture(l, p, now, eventId).value;
            Guarded(l, Write(l, r, CapturedEvent(eventId, r, now)))
  {
    hide Inv, Guarded, Balanced;
    InvRows(l);
    InvHolds(l);
    InvBalanced(l);
    CaptureGood(l, p, now, eventId);
    var r := Capture(l, p, now, eventId).value;
    assert r.payer.version == l.payers[r.payer.id].version + 1;
    WriteGuarded(l, r, CapturedEvent(eventId, r, now));
  }

  lemma ExpireNextGuarded(l: Ledger, q: Payment, now: int, eventId: Id)
    requires Inv(l) && q.id in l.payments && l.payments[q.id] == q && ExpireNext(l, q, now, eventId).Ok?
    ensures Guarded(l, ExpireNext(l, q, now, eventId).value)
  {
    hide Inv, Guarded, Balanced;
    InvRows(l);
    InvHolds(l);
    InvBalanced(l);
    ExpireGood(l, q, now, eventId);
    var r := ExpireOne(l, q, now, eventId).value;
    assert r.payer.version == l.payers[r.payer.id].version + 1;
    WriteGuarded(l, r, ExpiredEvent(eventId, r, now));
  }

  lemma {:induction false} ExpireListGuarded(l: Ledger, list: seq<Payment>, now: int, draw: Id -> Id)
    requires Inv(l) && Expirable(l, list) && ExpireList(l, list, now, draw).Ok?
    ensures Guarded(l, ExpireList(l, list, now, draw).value)
    decreases |list|
  {
    hide Inv, Guarded, ExpireNext;
    if list == [] {
      GuardedSelf(l);
    } else {
      var n := |list| - 1;
      var q := list[n];
      ExpirablePrefix(l, list);
      ExpireListGuarded(l, list[..n], now, draw);
      ExpireListKeepsInv(l, list[..n], now, draw);
      var m := ExpireList(l, list[..n], now, draw).value;
      ExpireNextGuarded(m, q, now, draw(q.id));
      GuardedTransitive(l, m, ExpireNext(m, q, now, draw(q.id)).value);
    }
  }

  lemma GuardedSelf(l: Ledger)
    ensures Guarded(l, l)
  {}

  /** Transactions that leave payers, holds and authorized payments alone. */
  lemma UntouchedGuarded(l: Ledger, m: Ledger)
    requires m == l.(payments := m.payments, log := m.log) && m.payments.Keys == l.payments.Keys
    requires forall q :: q in l.payments ==> m.payments[q].payerId == l.payments[q].payerId
    requires forall q :: q in l.payments && l.payments[q].status.Authorized? ==> m.payments[q] == l.payments[q]
    requires forall q :: q in l.payments && m.payments[q].status.Authorized? ==> l.payments[q].status.Authorized?
    ensures Guarded(l, m)
  {}

  lemma OpenGuarded(db: Db, run: BatchRun)
    requires PossibleClaim(db, run) && OpenBatch(db, run).Ok?
    ensures Guarded(db.ledger, OpenBatch(db, run).value.ledger)
  {
    hide Guarded;
    var m := OpenBatch(db, run).value.ledger;
    forall p | p in IdSet(run.ids) ensures db.ledger.payments[p].status.Captured? {
      assert Claimable(db, p, run.start, run.end);
    }
    UntouchedGuarded(db.ledger, m);
  }

  lemma SettledGuarded(db: Db, out: Db, batchId: Id, ids: seq<Id>, now: int, draws: Draws)
    requires SettledAll(db, out, ids, now, draws) && forall p :: p in ids ==> p in ClaimedSet(db, batchId)
    ensures Guarded(db.ledger, out.ledger)
  {
    hide Guarded, Drawn;
    UntouchedGuarded(db.ledger, out.ledger);
  }

  lemma PrefixGuarded(db: Db, run: BatchRun, k: nat)
    requires DbInv(db) && PossibleClaim(db, run) && k <= |run.ids| && SettlePrefix(db, run, k).Ok?
    ensures Guarded(db.ledger, SettlePrefix(db, run, k).value.ledger)
  {
    hide DbInv, Guarded, SettledAll;
    SettlePrefixEffect(db, run, k);
    OpenGuarded(db, run);
    OpenedClaims(db, run);
    var open, m := OpenBatch(db, run).value, SettlePrefix(db, run, k).value;
    assert forall p :: p in run.ids[..k] ==> p in run.ids;
    SettledGuarded(open, m, run.batchId, run.ids[..k], run.now, run.draws);
    GuardedTransitive(db.ledger, open.ledger, m.ledger);
  }

  lemma RecoveredGuarded(db: Db, out: Db, batchIds: seq<Id>, now: int)
    requires Recovered(db, out, batchIds, now)
    ensures Guarded(db.ledger, out.ledger)
  {
    hide Guarded;
    UntouchedGuarded(db.ledger, out.ledger);
  }

  /** No transaction changes a payer, or one of its authorized payments or their holds, behind its version. */
  lemma StepGuarded(db: Db, merchants: map<Id, MerchantStatus>, a: Action)
    requires DbInv(db) && Keyed(db.ledger)
    ensures Guarded(db.ledger, Step(db, merchants, a).ledger)
  {
    hide Inv, SettleInv, Guarded;
    GuardedSelf(db.ledger);
    match a {
      case DoSettle(run) =>
        if PossibleClaim(db, run) && CreateBatch(db, run).Ok? {
          CreateBatchEffect(db, run);
          PrefixGuarded(db, run, |run.ids|);
        }
      case InterruptedSettle(run, k) =>
        if PossibleClaim(db, run) && k <= |run.ids| && SettlePrefix(db, run, k).Ok? {
          PrefixGuarded(db, run, k);
        }
      case DoRecover(r) =>
        if Recover(db, r).Ok? {
          RecoverEffect(db, r);
          RecoveredGuarded(db, Recover(db, r).value, StaleIds(db.batches, r.now, RecoveryLimit(r)), r.now);
        }
      case _ =>
        LedgerStepGuarded(db.ledger, merchants, a);
    }
  }

  lemma LedgerStepGuarded(l: Ledger, merchants: map<Id, MerchantStatus>, a: Action)
    requires Inv(l) && Keyed(l)
    ensures Guarded(l, LedgerStep(l, merchants, a))
  {
    hide Inv, Guarded;
    GuardedSelf(l);
    match a {
      case AddPayer(id, available, currency, now) =>
        if CreatePayer(l, id, available, currency, now).Ok? {
          NewPayerGuarded(l, id, available, currency, now);
        }
      case DoAuthorize(input, now, draw) =>
        if Authorize(l, merchants, input, now, draw).Ok? {
          AuthorizeGuarded(l, merchants, input, now, draw);
        }
      case DoCapture(p, now, eventId) =>
        if Capture(l, p, now, eventId).Ok? {
          CaptureGuarded(l, p, now, eventId);
        }
      case DoExpire(limit, now, events) =>
        if Expire(l, limit, now, events).Ok? {
          var ids := DueIds(l.payments, now, ExpiryLimit(limit));
          RowsExpirable(l, ids, now, ExpiryLimit(limit));
          ExpireListGuarded(l, Rows(l.payments, ids), now, events);
        }
      case _ =>
    }
  }

  lemma NewPayerGuarded(l: Ledger, id: Id, available: int64, currency: string, now: int)
    requires CreatePayer(l, id, available, currency, now).Ok?
    ensures Guarded(l, CreatePayer(l, id, available, currency, now).value)
  {}
}
