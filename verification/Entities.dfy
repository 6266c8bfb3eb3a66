/** Payers, payments and holds, whose transitions return a changed copy or an error. */
module Entities {
  import opened Common

  datatype Error =
    | MerchantNotFound | MerchantCannotCreatePayments
    | PayerNotFound | DuplicatePayer | PayerVersionConflict
    | PayerCurrencyMismatch | InsufficientAvailableBalance
    | PaymentNotFound | DuplicatePayment | PaymentNotCapturable | AuthorizationExpired
    | HoldNotFound | DuplicateHold
    | DuplicateEvent
    | InvalidSettlementWindow | InvalidBatchStatus | DuplicateBatch | BatchNotFound | DuplicateLineItem
    | Invalid  // an unnamed validation error of an entity

  predicate ValidCurrency(c: string) {
    |c| == 3 && 'A' <= c[0] <= 'Z' && 'A' <= c[1] <= 'Z' && 'A' <= c[2] <= 'Z'
  }

  datatype Payer = Payer(
    id: Id, available: int64, held: int64, currency: string,
    version: int, createdAt: int, updatedAt: int)
  {
    predicate CanAuthorize(amount: int64, cur: string) {
      amount > 0 && currency == cur && available >= amount
    }

    function Reserve(amount: int64, cur: string, now: int): Result<Payer, Error> {
      if amount <= 0 || currency != cur || available < amount then Err(Invalid)
      else Ok(this.(available := Wrap64(available - amount), held := Wrap64(held + amount),
                    version := version + 1, updatedAt := now))
    }

    function Release(amount: int64, cur: string, now: int): Result<Payer, Error> {
      if amount <= 0 || currency != cur || held < amount then Err(Invalid)
      else Ok(this.(available := Wrap64(available + amount), held := Wrap64(held - amount),
                    version := version + 1, updatedAt := now))
    }

    function CaptureHeld(amount: int64, cur: string, now: int): Result<Payer, Error> {
      if amount <= 0 || currency != cur || held < amount then Err(Invalid)
      else Ok(this.(held := Wrap64(held - amount), version := version + 1, updatedAt := now))
    }
  }

  function NewPayer(id: Id, available: int64, currency: string, now: int): Result<Payer, Error> {
    if id == "" || available < 0 || !ValidCurrency(currency) then Err(Invalid)
    else Ok(Payer(id, available, 0, currency, 0, now, now))
  }

  /** A release undoes a reservation exactly when the reservation did not overflow the held balance. */
  lemma ReserveThenRelease(p: Payer, amount: int64, cur: string, now: int, later: int)
    requires p.available >= 0 && p.held >= 0 && p.Reserve(amount, cur, now).Ok?
    ensures var reserved := p.Reserve(amount, cur, now).value;
            && (reserved.Release(amount, cur, later).Ok? <==> p.held + amount <= MAX64)
            && (reserved.Release(amount, cur, later).Ok? ==>
                  reserved.Release(amount, cur, later).value == p.(version := p.version + 2, updatedAt := later))
  {
    var reserved := p.Reserve(amount, cur, now).value;
    assert reserved.available == p.available - amount;
    if p.held + amount > MAX64 {
      assert reserved.held == p.held + amount - TWO64;
    }
  }

  datatype HoldStatus = Held | HoldCaptured | Released

  datatype Hold = Hold(
    id: Id, paymentId: Id, payerId: Id, amount: int64, currency: string,
    status: HoldStatus, createdAt: int, updatedAt: int)
  {
    function Capture(now: int): Result<Hold, Error> {
      if !status.Held? then Err(Invalid) else Ok(this.(status := HoldCaptured, updatedAt := now))
    }

    function Release(now: int): Result<Hold, Error> {
      if !status.Held? then Err(Invalid) else Ok(this.(status := Released, updatedAt := now))
    }
  }

  function NewHold(id: Id, paymentId: Id, payerId: Id, amount: int64, currency: string, now: int): Result<Hold, Error> {
    if id == "" || paymentId == "" || payerId == "" || amount <= 0 || !ValidCurrency(currency) then Err(Invalid)
    else Ok(Hold(id, paymentId, payerId, amount, currency, Held, now, now))
  }

  datatype PaymentStatus = Pending | Authorized | Captured | Settled | Expired | Failed

  datatype Payment = Payment(
    id: Id, merchantId: Id, payerId: Id, amount: int64, currency: string,
    status: PaymentStatus, holdId: Id, authorizedAt: int, expiresAt: int,
    capturedAt: Option<int>, settledAt: Option<int>, createdAt: int, updatedAt: int)
  {
    function Capture(now: int): Result<Payment, Error> {
      if !status.Authorized? || now > expiresAt then Err(Invalid)
      else Ok(this.(status := Captured, capturedAt := Some(now), updatedAt := now))
    }

    function Expire(now: int): Result<Payment, Error> {
      if !status.Authorized? then Err(Invalid) else Ok(this.(status := Expired, updatedAt := now))
    }

    function Settle(now: int): Result<Payment, Error> {
      if !status.Captured? then Err(Invalid)
      else Ok(this.(status := Settled, settledAt := Some(now), updatedAt := now))
    }
  }

  function NewAuthorizedPayment(
    id: Id, merchantId: Id, payerId: Id, amount: int64, currency: string,
    holdId: Id, now: int, expiresAt: int): Result<Payment, Error>
  {
    if id == "" || merchantId == "" || payerId == "" || holdId == "" || amount <= 0
       || !ValidCurrency(currency) || expiresAt <= now
    then Err(Invalid)
    else Ok(Payment(id, merchantId, payerId, amount, currency, Authorized, holdId,
                    now, expiresAt, None, None, now, now))
  }
}
