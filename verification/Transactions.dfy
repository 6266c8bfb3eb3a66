/** What the answer to an authorization or a capture says, in the fields of the rows before and after. */
module Transactions {
  import opened Common
  import opened Entities
  import opened Ledger

  // ----- authorization -----

  /** Whose payment it is, of how much and until when; its hold; and its payer, with the amount set aside. */
  predicate AuthorizedRows(l: Ledger, input: AuthorizeInput, now: int, draw: Draw, r: Receipt) {
    var q, h, p := r.payment, r.hold, r.payer;
    && q.id == draw.paymentId && q.holdId == draw.holdId
    && q.merchantId == input.merchantId && q.payerId == input.payerId
    && q.amount == input.amount && q.currency == input.currency
    && q.status == Authorized && q.authorizedAt == now && q.expiresAt == now + 900_000_000_000
    && q.capturedAt == None && q.settledAt == None && q.createdAt == now && q.updatedAt == now
    && h.id == draw.holdId && h.paymentId == draw.paymentId && h.payerId == input.payerId
    && h.amount == input.amount && h.currency == input.currency
    && h.status == Held && h.createdAt == now && h.updatedAt == now
    && input.payerId in l.payers
    && var before := l.payers[input.payerId];
       && p.available == before.available - input.amount
       && (before.held + input.amount <= MAX64 ==> p.held == before.held + input.amount)
       && p == before.(available := p.available, held := p.held, version := before.version + 1, updatedAt := now)
  }

  predicate MayAuthorize(l: Ledger, merchants: map<Id, MerchantStatus>, input: AuthorizeInput) {
    && input.merchantId in merchants && merchants[input.merchantId] == Active
    && input.payerId in l.payers && l.payers[input.payerId].currency == input.currency
    && 0 < input.amount <= l.payers[input.payerId].available
  }

  /** No id is empty, and the currency is three capital letters. */
  predicate WellFormed(input: AuthorizeInput, draw: Draw) {
    && draw.paymentId != "" && draw.holdId != "" && input.payerId != "" && input.merchantId != ""
    && |input.currency| == 3 && forall i :: 0 <= i < 3 ==> 'A' <= input.currency[i] <= 'Z'
  }

  /** Random ids do not collide with stored ones. */
  predicate FreshIds(l: Ledger, draw: Draw) {
    && draw.paymentId !in l.payments && draw.holdId !in l.holds && draw.paymentId !in l.holdOf
    && forall e :: e in l.log ==> e.id != draw.eventId
  }

  /** Which refusal an authorization meets, in the order of its checks. */
  predicate AuthorizeRefusals(l: Ledger, merchants: map<Id, MerchantStatus>, input: AuthorizeInput, draw: Draw,
                              r: Result<Receipt, Error>) {
    && (input.merchantId !in merchants ==> r == Err(MerchantNotFound))
    && (input.merchantId in merchants ==>
          && (merchants[input.merchantId] != Active ==> r == Err(MerchantCannotCreatePayments))
          && (merchants[input.merchantId] == Active ==>
                && (input.payerId !in l.payers ==> r == Err(PayerNotFound))
                && (input.payerId in l.payers ==>
                      var p := l.payers[input.payerId];
                      && (p.currency != input.currency ==> r == Err(PayerCurrencyMismatch))
                      && (p.currency == input.currency && !(0 < input.amount <= p.available) ==>
                            r == Err(InsufficientAvailableBalance)))))
    && (MayAuthorize(l, merchants, input) ==>
          && (!WellFormed(input, draw) ==> r == Err(Invalid))
          && (WellFormed(input, draw) ==>
                && (draw.paymentId in l.payments ==> r == Err(DuplicatePayment))
                && (draw.paymentId !in l.payments && (draw.holdId in l.holds || draw.paymentId in l.holdOf) ==>
                      r == Err(DuplicateHold))
                && (draw.paymentId !in l.payments && draw.holdId !in l.holds && draw.paymentId !in l.holdOf
                    && (exists e :: e in l.log && e.id == draw.eventId)
                    ==> r == Err(DuplicateEvent))))
  }

  /** It succeeds exactly so, and then writes exactly these rows. */
  predicate AnswersAuthorize(l: Ledger, merchants: map<Id, MerchantStatus>, input: AuthorizeInput, now: int, draw: Draw,
                             r: Result<Receipt, Error>) {
    && (r.Ok? <==> MayAuthorize(l, merchants, input) && WellFormed(input, draw) && FreshIds(l, draw))
    && (r.Ok? ==> AuthorizedRows(l, input, now, draw, r.value))
    && AuthorizeRefusals(l, merchants, input, draw, r)
  }

  lemma AuthorizeExactly(l: Ledger, merchants: map<Id, MerchantStatus>, input: AuthorizeInput, now: int, draw: Draw)
    requires Keyed(l)
    ensures AnswersAuthorize(l, merchants, input, now, draw, Authorize(l, merchants, input, now, draw))
  {
    CurrencyExactly(input.currency);
    hide ValidCurrency;
  }

  lemma CurrencyExactly(c: string)
    ensures ValidCurrency(c) <==> |c| == 3 && forall i :: 0 <= i < 3 ==> 'A' <= c[i] <= 'Z'
  {}

  // ----- capture -----

  predicate Found(l: Ledger, paymentId: Id) {
    && paymentId in l.payments && paymentId in l.holdOf && l.holdOf[paymentId] in l.holds
    && l.payments[paymentId].payerId in l.payers
  }

  /** The payment and its hold are captured now, and the payer holds that much less. */
  predicate CapturedRows(l: Ledger, paymentId: Id, now: int, r: Receipt)
    requires Found(l, paymentId)
  {
    var q := l.payments[paymentId];
    var h, p := l.holds[l.holdOf[paymentId]], l.payers[q.payerId];
    && r.payment == q.(status := Captured, capturedAt := Some(now), updatedAt := now)
    && r.hold == h.(status := HoldCaptured, updatedAt := now)
    && r.payer.held == p.held - q.amount
    && r.payer == p.(held := r.payer.held, version := p.version + 1, updatedAt := now)
  }

  /** The hold is still held, and the payer holds the amount in the payment's currency. */
  predicate Covered(l: Ledger, paymentId: Id)
    requires Found(l, paymentId)
  {
    var q := l.payments[paymentId];
    && l.holds[l.holdOf[paymentId]].status == Held
    && l.payers[q.payerId].currency == q.currency && 0 < q.amount <= l.payers[q.payerId].held
  }

  /** Which refusal a capture meets, in the order of its checks. */
  predicate CaptureRefusals(l: Ledger, paymentId: Id, now: int, eventId: Id, r: Result<Receipt, Error>) {
    && (paymentId !in l.payments ==> r == Err(PaymentNotFound))
    && (paymentId in l.payments ==>
          && (!(paymentId in l.holdOf && l.holdOf[paymentId] in l.holds) ==> r == Err(HoldNotFound))
          && (paymentId in l.holdOf && l.holdOf[paymentId] in l.holds && l.payments[paymentId].payerId !in l.payers ==>
                r == Err(PayerNotFound)))
    && (Found(l, paymentId) ==>
          var q := l.payments[paymentId];
          && (q.status != Authorized ==> r == Err(PaymentNotCapturable))
          && (q.status == Authorized && now > q.expiresAt ==> r == Err(AuthorizationExpired))
          && (q.status == Authorized && now <= q.expiresAt ==>
                && (!Covered(l, paymentId) ==> r == Err(Invalid))
                && (Covered(l, paymentId) && (exists e :: e in l.log && e.id == eventId) ==> r == Err(DuplicateEvent))))
  }

  predicate AnswersCapture(l: Ledger, paymentId: Id, now: int, eventId: Id, r: Result<Receipt, Error>) {
    && (r.Ok? <==>
          && Found(l, paymentId) && Covered(l, paymentId)
          && l.payments[paymentId].status == Authorized && now <= l.payments[paymentId].expiresAt
          && forall e :: e in l.log ==> e.id != eventId)
    && (r.Ok? ==> CapturedRows(l, paymentId, now, r.value))
    && CaptureRefusals(l, paymentId, now, eventId, r)
  }

  lemma CaptureExactly(l: Ledger, paymentId: Id, now: int, eventId: Id)
    requires Keyed(l)
    ensures AnswersCapture(l, paymentId, now, eventId, Capture(l, paymentId, now, eventId))
  {}

  // ----- one round of the expiry loop -----

  /** The row read is authorized, its hold still held, and its payer holds the amount in its currency. */
  predicate Releasable(q: Payment, h: Hold, p: Payer) {
    q.status == Authorized && h.status == Held && p.currency == q.currency && 0 < q.amount <= p.held
  }

  /** The payment is expired, its hold released, and the amount available to the payer again. */
  predicate ExpiredRows(q: Payment, h: Hold, p: Payer, now: int, r: Receipt) {
    && r.payment == q.(status := Expired, updatedAt := now)
    && r.hold == h.(status := Released, updatedAt := now)
    && r.payer.held == p.held - q.amount
    && (p.available + q.amount <= MAX64 ==> r.payer.available == p.available + q.amount)
    && r.payer == p.(available := r.payer.available, held := r.payer.held, version := p.version + 1, updatedAt := now)
  }

  predicate AnswersExpiry(l: Ledger, q: Payment, now: int, eventId: Id, r: Result<Receipt, Error>) {
    if !(q.id in l.holdOf && l.holdOf[q.id] in l.holds) then r == Err(HoldNotFound)
    else if q.payerId !in l.payers then r == Err(PayerNotFound)
    else
      var h, p := l.holds[l.holdOf[q.id]], l.payers[q.payerId];
      && (!Releasable(q, h, p) ==> r == Err(Invalid))
      && (Releasable(q, h, p) && q.id !in l.payments ==> r == Err(PaymentNotFound))
      && (Releasable(q, h, p) && q.id in l.payments ==>
            if exists e :: e in l.log && e.id == eventId then r == Err(DuplicateEvent)
            else r.Ok? && ExpiredRows(q, h, p, now, r.value))
  }

  lemma ExpireExactly(l: Ledger, q: Payment, now: int, eventId: Id)
    ensures AnswersExpiry(l, q, now, eventId, ExpireOne(l, q, now, eventId))
  {}
}
