/**
  The ledger's tables as one value, and its transactions as all-or-nothing
  functions: a failed transaction has no resulting ledger at all.
 */
module Ledger {
  import opened Common
  import opened Entities
  import opened Ranking

  /** What an outbox row tells its consumers. */
  datatype Payload =
    | PaymentAuthorized(paymentId: Id, merchantId: Id, payerId: Id, amount: int64, currency: string,
                        holdId: Id, authorizedAt: int, expiresAt: int)
    | PaymentCaptured(paymentId: Id, merchantId: Id, payerId: Id, amount: int64, currency: string,
                      holdId: Id, capturedAt: int)
    | PaymentExpired(paymentId: Id, merchantId: Id, payerId: Id, amount: int64, currency: string,
                     holdId: Id, expiredAt: int, expiresAt: int)
    | PaymentSettled(paymentId: Id, merchantId: Id, payerId: Id, batchId: Id, amount: int64,
                     currency: string, settledAt: int)

  datatype Event = Event(id: Id, payload: Payload, createdAt: int)

  datatype Ledger = Ledger(
    payers: map<Id, Payer>,
    payments: map<Id, Payment>,
    holds: map<Id, Hold>,
    holdOf: map<Id, Id>,        // hold id by payment id
    log: seq<Event>,            // the outbox rows, in insertion order
    opening: map<Id, int64>)    // bookkeeping only: each payer's balance at creation

  predicate FreshEvent(l: Ledger, id: Id) {
    forall e :: e in l.log ==> e.id != id
  }

  datatype MerchantStatus = Active | Suspended | Closed

  datatype AuthorizeInput = AuthorizeInput(merchantId: Id, payerId: Id, amount: int64, currency: string)

  /** The random ids one authorization draws. */
  datatype Draw = Draw(paymentId: Id, holdId: Id, eventId: Id)

  datatype Receipt = Receipt(payment: Payment, hold: Hold, payer: Payer)

  const HOLD_PERIOD: int := 15 * MINUTE

  /** Writes one row to each table and appends an event. */
  function Write(l: Ledger, r: Receipt, e: Event): Ledger {
    l.(payers := l.payers[r.payer.id := r.payer],
       payments := l.payments[r.payment.id := r.payment],
       holds := l.holds[r.hold.id := r.hold],
       holdOf := l.holdOf[r.hold.paymentId := r.hold.id],
       log := l.log + [e])
  }

  function CreatePayer(l: Ledger, id: Id, available: int64, currency: string, now: int): Result<Ledger, Error> {
    var p :- NewPayer(id, available, currency, now);
    if id in l.payers then Err(DuplicatePayer)
    else Ok(l.(payers := l.payers[id := p], opening := l.opening[id := available]))
  }

  function Authorize(
    l: Ledger, merchants: map<Id, MerchantStatus>, input: AuthorizeInput, now: int, draw: Draw): Result<Receipt, Error>
  {
    if input.merchantId !in merchants then Err(MerchantNotFound)
    else if !merchants[input.merchantId].Active? then Err(MerchantCannotCreatePayments)
    else if input.payerId !in l.payers then Err(PayerNotFound)
    else
      var payer := l.payers[input.payerId];
      if payer.currency != input.currency then Err(PayerCurrencyMismatch)
      else if !payer.CanAuthorize(input.amount, input.currency) then Err(InsufficientAvailableBalance)
      else
        var hold :- NewHold(draw.holdId, draw.paymentId, payer.id, input.amount, input.currency, now);
        var payment :- NewAuthorizedPayment(draw.paymentId, input.merchantId, payer.id, input.amount,
                                            input.currency, hold.id, now, now + HOLD_PERIOD);
        var reserved :- payer.Reserve(input.amount, input.currency, now);
        if draw.paymentId in l.payments then Err(DuplicatePayment)
        else if draw.holdId in l.holds || draw.paymentId in l.holdOf then Err(DuplicateHold)
        else if !FreshEvent(l, draw.eventId) then Err(DuplicateEvent)
        else Ok(Receipt(payment, hold, reserved))
  }

  function AuthorizedEvent(id: Id, r: Receipt, now: int): Event {
    var q := r.payment;
    Event(id, PaymentAuthorized(q.id, q.merchantId, q.payerId, q.amount, q.currency, r.hold.id,
                                q.authorizedAt, q.expiresAt), now)
  }

  function Capture(l: Ledger, paymentId: Id, now: int, eventId: Id): Result<Receipt, Error> {
    if paymentId !in l.payments then Err(PaymentNotFound)
    else
      var payment := l.payments[paymentId];
      if payment.id !in l.holdOf || l.holdOf[payment.id] !in l.holds then Err(HoldNotFound)
      else if payment.payerId !in l.payers then Err(PayerNotFound)
      else CaptureFrom(Receipt(payment, l.holds[l.holdOf[payment.id]], l.payers[payment.payerId]), l, now, eventId)
  }

  /** What capture computes from the three rows it has read. */
  function CaptureRows(read: Receipt, now: int): Result<Receipt, Error> {
    if !read.payment.status.Authorized? then Err(PaymentNotCapturable)
    else if now > read.payment.expiresAt then Err(AuthorizationExpired)
    else
      var payment :- read.payment.Capture(now);
      var hold :- read.hold.Capture(now);
      var payer :- read.payer.CaptureHeld(read.payment.amount, read.payment.currency, now);
      Ok(Receipt(payment, hold, payer))
  }

  function CaptureFrom(read: Receipt, l: Ledger, now: int, eventId: Id): Result<Receipt, Error> {
    var r :- CaptureRows(read, now);
    if !FreshEvent(l, eventId) then Err(DuplicateEvent) else Ok(r)
  }

  function CapturedEvent(id: Id, r: Receipt, now: int): Event {
    var q := r.payment;
    Event(id, PaymentCaptured(q.id, q.merchantId, q.payerId, q.amount, q.currency, r.hold.id, now), now)
  }

  /** One round of the expiry loop, for a payment row read at the start of the run. */
  function ExpireOne(l: Ledger, payment: Payment, now: int, eventId: Id): Result<Receipt, Error> {
    if payment.id !in l.holdOf || l.holdOf[payment.id] !in l.holds then Err(HoldNotFound)
    else if payment.payerId !in l.payers then Err(PayerNotFound)
    else
      var payer :- l.payers[payment.payerId].Release(payment.amount, payment.currency, now);
      var hold :- l.holds[l.holdOf[payment.id]].Release(now);
      var expired :- payment.Expire(now);
      if payment.id !in l.payments then Err(PaymentNotFound)
      else if !FreshEvent(l, eventId) then Err(DuplicateEvent)
      else Ok(Receipt(expired, hold, payer))
  }

  function ExpiredEvent(id: Id, r: Receipt, now: int): Event {
    var q := r.payment;
    Event(id, PaymentExpired(q.id, q.merchantId, q.payerId, q.amount, q.currency, r.hold.id, now, q.expiresAt), now)
  }

  predicate Due(q: Payment, now: int) {
    q.status.Authorized? && q.expiresAt <= now
  }

  function DueRank(q: Payment): Rank {
    Rank(q.expiresAt, 0, q.id)
  }

  function DueSet(payments: map<Id, Payment>, now: int): set<Id> {
    set id | id in payments && Due(payments[id], now)
  }

  function PaymentRank(payments: map<Id, Payment>): Id -> Rank {
    id => if id in payments then DueRank(payments[id]) else Rank(0, 0, id)
  }

  /** Table keys are the rows' own ids. */
  ghost predicate KeyedPayments(payments: map<Id, Payment>) {
    forall id :: id in payments ==> payments[id].id == id
  }

  ghost predicate Keyed(l: Ledger) {
    && (forall id :: id in l.payers ==> l.payers[id].id == id)
    && KeyedPayments(l.payments)
    && (forall id :: id in l.holds ==> l.holds[id].id == id)
  }

  /** The ids an expiry run selects: the limit-least due payments by (ExpiresAt, ID). */
  ghost function DueIds(payments: map<Id, Payment>, now: int, limit: nat): (ids: seq<Id>)
    requires KeyedPayments(payments)
    ensures IsLeastIds(ids, DueSet(payments, now), PaymentRank(payments), limit)
  {
    LeastIds(DueSet(payments, now), PaymentRank(payments), limit)
  }

  function ExpiryLimit(limit: int): nat {
    if limit <= 0 then 100 else limit
  }

  function ExpireNext(l: Ledger, payment: Payment, now: int, eventId: Id): Result<Ledger, Error> {
    var r :- ExpireOne(l, payment, now, eventId);
    Ok(Write(l, r, ExpiredEvent(eventId, r, now)))
  }

  /** An expiry run over the listed payments; draw gives the event id drawn for each payment. */
  ghost function ExpireList(l: Ledger, list: seq<Payment>, now: int, draw: Id -> Id): Result<Ledger, Error> {
    if list == [] then Ok(l)
    else
      var q := list[|list| - 1];
      var before :- ExpireList(l, list[..|list| - 1], now, draw);
      ExpireNext(before, q, now, draw(q.id))
  }

  ghost function Rows(payments: map<Id, Payment>, ids: seq<Id>): seq<Payment>
    requires forall i :: 0 <= i < |ids| ==> ids[i] in payments
  {
    seq(|ids|, i requires 0 <= i < |ids| => payments[ids[i]])
  }

  /** The rows an expiry run selects. */
  ghost function DueRows(payments: map<Id, Payment>, now: int, k: nat): seq<Payment>
    requires KeyedPayments(payments)
  {
    Rows(payments, DueIds(payments, now, k))
  }

  predicate DueBefore(a: Payment, b: Payment) {
    a.expiresAt < b.expiresAt || (a.expiresAt == b.expiresAt && IdLess(a.id, b.id))
  }

  /** The k authorized payments that expired first, in that order; at one instant, the lesser id first. */
  ghost predicate FirstDue(list: seq<Payment>, payments: map<Id, Payment>, now: int, k: nat) {
    && |list| <= k
    && (forall q :: q in list ==>
          q.id in payments && payments[q.id] == q && q.status.Authorized? && q.expiresAt <= now)
    && (forall i, j :: 0 <= i < j < |list| ==> DueBefore(list[i], list[j]))
    && (forall id :: id in payments && payments[id].status.Authorized? && payments[id].expiresAt <= now ==>
          payments[id] in list || (|list| == k && forall q :: q in list ==> DueBefore(q, payments[id])))
  }

  lemma RankedDue(payments: map<Id, Payment>, a: Id, b: Id)
    requires KeyedPayments(payments) && a in payments && b in payments
    requires Less(PaymentRank(payments)(a), PaymentRank(payments)(b))
    ensures DueBefore(payments[a], payments[b])
  {}

  lemma DueInOrder(payments: map<Id, Payment>, ids: seq<Id>, due: set<Id>, k: nat)
    requires KeyedPayments(payments) && due <= payments.Keys
    requires IsLeastIds(ids, due, PaymentRank(payments), k)
    ensures forall i, j :: 0 <= i < j < |ids| ==> DueBefore(payments[ids[i]], payments[ids[j]])
    ensures forall i, id :: 0 <= i < |ids| && id in due && id !in ids ==> DueBefore(payments[ids[i]], payments[id])
  {
    hide Less, DueBefore, PaymentRank;
    forall i, j | 0 <= i < j < |ids| ensures DueBefore(payments[ids[i]], payments[ids[j]]) {
      RankedDue(payments, ids[i], ids[j]);
    }
    forall i, id | 0 <= i < |ids| && id in due && id !in ids ensures DueBefore(payments[ids[i]], payments[id]) {
      assert ids[i] in ids;
      RankedDue(payments, ids[i], id);
    }
  }

  lemma RowsFirstDue(payments: map<Id, Payment>, list: seq<Payment>, ids: seq<Id>, now: int, k: nat)
    requires KeyedPayments(payments)
    requires |list| == |ids| <= k
    requires forall i :: 0 <= i < |ids| ==> ids[i] in payments && list[i] == payments[ids[i]]
    requires forall i :: 0 <= i < |ids| ==> ids[i] in DueSet(payments, now)
    requires forall i, j :: 0 <= i < j < |ids| ==> DueBefore(payments[ids[i]], payments[ids[j]])
    requires forall i, id :: 0 <= i < |ids| && id in DueSet(payments, now) && id !in ids
                             ==> DueBefore(payments[ids[i]], payments[id])
    requires |ids| < k ==> forall id :: id in DueSet(payments, now) ==> id in ids
    ensures FirstDue(list, payments, now, k)
  {
    hide DueBefore;
    forall id | id in DueSet(payments, now)
      ensures payments[id] in list || (|list| == k && forall q :: q in list ==> DueBefore(q, payments[id]))
    {
      if i :| 0 <= i < |ids| && ids[i] == id {
        assert list[i] == payments[id];
      }
    }
  }

  lemma SelectionIsFirstDue(payments: map<Id, Payment>, now: int, k: nat)
    requires KeyedPayments(payments)
    ensures FirstDue(DueRows(payments, now, k), payments, now, k)
    ensures k == |DueSet(payments, now)| ==> FirstDue(DueRows(payments, now, k), payments, now, k + 1)
  {
    hide FirstDue, DueBefore, PaymentRank, Less;
    var ids, due := DueIds(payments, now, k), DueSet(payments, now);
    SelectionBound(ids, due, PaymentRank(payments), k);
    DueInOrder(payments, ids, due, k);
    RowsFirstDue(payments, Rows(payments, ids), ids, now, k);
    if k == |due| {
      FullSelection(ids, due, PaymentRank(payments));
      RowsFirstDue(payments, Rows(payments, ids), ids, now, k + 1);
    }
  }

  ghost function Expire(l: Ledger, limit: int, now: int, draw: Id -> Id): Result<Ledger, Error>
    requires Keyed(l)
  {
    ExpireList(l, DueRows(l.payments, now, ExpiryLimit(limit)), now, draw)
  }

  /** The ledger's part of settling one payment: the row and its event. */
  function Settle(l: Ledger, paymentId: Id, batchId: Id, now: int, eventId: Id): Result<Ledger, Error> {
    if paymentId !in l.payments then Err(PaymentNotFound)
    else
      var q :- l.payments[paymentId].Settle(now);
      if !FreshEvent(l, eventId) then Err(DuplicateEvent)
      else Ok(l.(payments := l.payments[q.id := q],
                 log := l.log + [Event(eventId, PaymentSettled(q.id, q.merchantId, q.payerId, batchId, q.amount,
                                                              q.currency, now), now)]))
  }

  /** A settlement claim stamps the claimed payments. */
  function Touch(l: Ledger, ids: set<Id>, now: int): Ledger {
    l.(payments := map id | id in l.payments ::
                     if id in ids then l.payments[id].(updatedAt := now) else l.payments[id])
  }
}
