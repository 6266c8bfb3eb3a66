/** The promises of the ledger and of settlement, for every reachable state. */
module Theorems {
  import opened Common
  import opened Sums
  import opened Entities
  import opened Ledger
  import opened LedgerInvariant
  import opened Settlement
  import opened SettlementInvariant
  import opened Machine

  // ----- money -----

  /** Each payer's opening balance is its available balance, its authorized payments and its spent ones. */
  lemma ReachableConservation(merchants: map<Id, MerchantStatus>, actions: seq<Action>, payer: Id)
    requires payer in Run(merchants, actions).ledger.payers
    ensures var l := Run(merchants, actions).ledger;
            && payer in l.opening
            && l.payers[payer].available >= 0 && l.payers[payer].held >= 0
            && l.payers[payer].held == Sum(l.payments, ReservedBy(payer)) == Sum(l.holds, HeldFor(payer))
            && l.opening[payer] == l.payers[payer].available + Sum(l.payments, ReservedBy(payer))
                                   + Sum(l.payments, SpentBy(payer))
  {
    hide SettleInv;
    ReachableInv(merchants, actions);
    ConservedParts(Run(merchants, actions).ledger, payer);
  }

  lemma ConservedParts(l: Ledger, payer: Id)
    requires Inv(l) && payer in l.payers
    ensures PayerOk(payer, l.payers[payer]) && Conserved(l, payer)
  {
    hide Replayed, Logged;
  }

  /** No addition of Reserve or Release ever leaves the int64 range. */
  lemma ReachableNoWrap(merchants: map<Id, MerchantStatus>, actions: seq<Action>, payer: Id, amount: int64, now: int)
    requires payer in Run(merchants, actions).ledger.payers
    ensures var p := Run(merchants, actions).ledger.payers[payer];
            && (var r := p.Reserve(amount, p.currency, now);
                r.Ok? ==> r.value.available == p.available - amount && r.value.held == p.held + amount)
            && (var r := p.Release(amount, p.currency, now);
                r.Ok? ==> r.value.available == p.available + amount && r.value.held == p.held - amount)
  {
    hide SettleInv;
    ReachableInv(merchants, actions);
    var l := Run(merchants, actions).ledger;
    BalanceBound(l, payer);
  }

  lemma BalanceBound(l: Ledger, payer: Id)
    requires Inv(l) && payer in l.payers
    ensures l.payers[payer].available >= 0 && l.payers[payer].held >= 0
    ensures l.payers[payer].available + l.payers[payer].held <= MAX64
  {
    hide Inv;
    InvRows(l);
    assert PayerOk(payer, l.payers[payer]);
    InvBalanced(l);
    NoOverflow(l, payer);
  }

  /** Posting the events in order from the opening balances gives every balance and every payment status. */
  lemma ReachableReplay(merchants: map<Id, MerchantStatus>, actions: seq<Action>)
    ensures var l := Run(merchants, actions).ledger; Replay(l.opening, l.log) == BookOf(l)
  {
    hide SettleInv, Structural, Balanced, Logged;
    ReachableInv(merchants, actions);
  }

  // ----- holds -----

  /** A hold leaves the held balance at most once, and payment and hold statuses stay paired. */
  lemma ReachableSingleExit(merchants: map<Id, MerchantStatus>, actions: seq<Action>, p: Id)
    ensures var l := Run(merchants, actions).ledger;
            && Count(l.log, p, Exit) <= 1
            && (p in l.payments ==>
                  && l.payments[p].holdId in l.holds && Paired(l.payments[p], l.holds[l.payments[p].holdId])
                  && (Count(l.log, p, Exit) == 0 <==> l.holds[l.payments[p].holdId].status == Held))
  {
    hide SettleInv, Balanced, Replayed;
    ReachableInv(merchants, actions);
    var l := Run(merchants, actions).ledger;
    assert Count(l.log, p, Exit) == Expected(l.payments, p, Exit);
  }

  /** An authorized payment not past its expiry can be captured; capture and expiry exclude each other. */
  lemma CaptureOrExpire(l: Ledger, p: Id, now: int, eventId: Id)
    requires Inv(l) && p in l.payments && FreshEvent(l, eventId)
    ensures Capture(l, p, now, eventId).Ok? <==> l.payments[p].status.Authorized? && now <= l.payments[p].expiresAt
    ensures ExpireOne(l, l.payments[p], now, eventId).Ok? <==> l.payments[p].status.Authorized?
  {
    hide Inv;
    InvHolds(l);
    InvRows(l);
    InvBalanced(l);
    var q := l.payments[p];
    assert PaymentOk(p, q) && Paired(q, l.holds[q.holdId]);
    NoOverflow(l, q.payerId);
  }

  /** The index by payment id finds exactly the hold a scan would find. */
  lemma ReachableHoldIndex(merchants: map<Id, MerchantStatus>, actions: seq<Action>, p: Id)
    ensures var l := Run(merchants, actions).ledger;
            && (p in l.holdOf && l.holdOf[p] in l.holds <==> exists h :: h in l.holds && l.holds[h].paymentId == p)
            && forall h :: h in l.holds && l.holds[h].paymentId == p ==> p in l.holdOf && l.holdOf[p] == h
  {
    hide Inv, SettleInv;
    ReachableInv(merchants, actions);
    var l := Run(merchants, actions).ledger;
    InvHolds(l);
    if p in l.holdOf {
      assert Paired(l.payments[p], l.holds[l.holdOf[p]]) && l.holds[l.holdOf[p]].paymentId == l.payments[p].id;
      InvRows(l);
      assert PaymentOk(p, l.payments[p]);
    }
  }

  // ----- settlement -----

  ghost predicate OneItem(items: map<Id, LineItem>, p: Id) {
    exists i :: IsOnlyItem(items, p, i)
  }

  predicate IsOnlyItem(items: map<Id, LineItem>, p: Id, i: Id) {
    && i in items && items[i].paymentId == p
    && forall j :: j in items && items[j].paymentId == p ==> j == i
  }

  /**
    A payment is settled exactly when it has exactly one line item, otherwise it has none; the
    item sits in the batch that claimed the payment; every payment of a completed batch is settled
    and was captured in the batch's window; and a batch's items total its settled payments.
   */
  lemma ReachableSettlement(merchants: map<Id, MerchantStatus>, actions: seq<Action>)
    ensures var db := Run(merchants, actions);
            var payments := db.ledger.payments;
            && (forall p :: p in payments ==> (payments[p].status.Settled? <==> OneItem(db.items, p)))
            && (forall i :: i in db.items ==>
                  && db.items[i].paymentId in db.batchOf && db.items[i].batchId == db.batchOf[db.items[i].paymentId]
                  && db.items[i].paymentId in payments && db.items[i].net == payments[db.items[i].paymentId].amount
                  && payments[db.items[i].paymentId].status.Settled?)
            && (forall p :: p in db.batchOf ==>
                  p in payments && db.batchOf[p] in db.batches && ClaimFits(payments[p], db.batches[db.batchOf[p]]))
            && (forall b: Id :: Sum(db.items, ItemIn(b)) == Sum(db.batchOf, SettledIn(payments, b)))
  {
    hide Inv;
    ReachableInv(merchants, actions);
    var db := Run(merchants, actions);
    forall p | p in db.ledger.payments ensures db.ledger.payments[p].status.Settled? <==> OneItem(db.items, p) {
      SettledIffOneItem(db, p);
    }
  }

  lemma SettledIffOneItem(db: Db, p: Id)
    requires p in db.ledger.payments && ItemsUnique(db.items)
    requires ItemsOk(db.ledger.payments, db.batchOf, db.items) && ItemsComplete(db.ledger.payments, db.items)
    ensures db.ledger.payments[p].status.Settled? <==> OneItem(db.items, p)
  {
    if db.ledger.payments[p].status.Settled? {
      assert ItemFor(db.items, p);
      var i :| i in db.items && db.items[i].paymentId == p;
      assert IsOnlyItem(db.items, p, i);
    }
  }

  /** Each payment is announced as settled at most once, and exactly if it is settled. */
  lemma ReachableSettledOnce(merchants: map<Id, MerchantStatus>, actions: seq<Action>, p: Id)
    ensures var l := Run(merchants, actions).ledger;
            Count(l.log, p, Settlement) == if p in l.payments && l.payments[p].status.Settled? then 1 else 0
  {
    hide SettleInv, Structural, Balanced, Replayed;
    ReachableInv(merchants, actions);
    var l := Run(merchants, actions).ledger;
    assert Count(l.log, p, Settlement) == Expected(l.payments, p, Settlement);
  }
}
