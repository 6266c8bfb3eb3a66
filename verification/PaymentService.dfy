/** AuthorizePayment, CapturePayment and ExpireAuthorizedPayments over the repositories. */
module PaymentService {
  import opened Common
  import opened Entities
  import opened Ledger
  import opened LedgerInvariant
  import opened Expiry
  import opened Stores
  import opened Transactions

  /** Postgres undoes a failed callback's writes; the no-op transactor of memory mode keeps them. */
  datatype Transactor = Noop | Postgres

  datatype ExpireResult = ExpireResult(payments: seq<Payment>, holds: seq<Hold>, payers: seq<Payer>)

  class Service {
    const merchants: map<Id, MerchantStatus>
    const payers: PayerStore
    const payments: PaymentStore
    const outbox: EventStore
    const transactor: Transactor

    constructor (merchants: map<Id, MerchantStatus>, payers: PayerStore, payments: PaymentStore, outbox: EventStore,
                 transactor: Transactor)
      ensures this.merchants == merchants && this.payers == payers && this.payments == payments
      ensures this.outbox == outbox && this.transactor == transactor
    {
      this.merchants, this.payers, this.payments := merchants, payers, payments;
      this.outbox, this.transactor := outbox, transactor;
    }

    ghost function View(): Ledger
      reads payers, payments, outbox
    {
      Ledger(payers.payers, payments.payments, payments.holds, payments.holdOf, outbox.log, payers.opening)
    }

    method Rollback(saved: map<Id, Payer>, savedPayments: map<Id, Payment>, savedHolds: map<Id, Hold>,
                    savedIndex: map<Id, Id>, savedLog: seq<Event>)
      modifies payers`payers, payments, outbox
      ensures View() == Ledger(saved, savedPayments, savedHolds, savedIndex, savedLog, old(payers.opening))
    {
      payers.payers := saved;
      payments.payments, payments.holds, payments.holdOf := savedPayments, savedHolds, savedIndex;
      outbox.log := savedLog;
    }

    /** The callback run inside the transaction: on an error its earlier writes may remain. */
    method AuthorizeInTx(input: AuthorizeInput, now: int, draw: Draw) returns (r: Result<Receipt, Error>)
      requires Keyed(View())
      modifies payers`payers, payments, outbox
      ensures r == Authorize(old(View()), merchants, input, now, draw)
      ensures r.Ok? ==> View() == Write(old(View()), r.value, AuthorizedEvent(draw.eventId, r.value, now))
      ensures r.Err? && FreshIds(old(View()), draw) ==> View() == old(View())
    {
      if input.merchantId !in merchants {
        return Err(MerchantNotFound);
      }
      if !merchants[input.merchantId].Active? {
        return Err(MerchantCannotCreatePayments);
      }
      var payer :- payers.GetPayer(input.payerId);
      if payer.currency != input.currency {
        return Err(PayerCurrencyMismatch);
      }
      if !payer.CanAuthorize(input.amount, input.currency) {
        return Err(InsufficientAvailableBalance);
      }
      var hold :- NewHold(draw.holdId, draw.paymentId, payer.id, input.amount, input.currency, now);
      var payment :- NewAuthorizedPayment(draw.paymentId, input.merchantId, payer.id, input.amount, input.currency,
                                          hold.id, now, now + HOLD_PERIOD);
      var reserved :- payer.Reserve(input.amount, input.currency, now);
      var savedPayer := payers.UpdatePayer(reserved);
      match savedPayer { case Err(e) => return Err(e); case Ok(_) => }
      payment :- payments.CreatePayment(payment);
      hold :- payments.CreateHold(hold);
      var result := Receipt(payment, hold, reserved);
      var _ :- outbox.CreateEvent(AuthorizedEvent(draw.eventId, result, now));
      return Ok(result);
    }

    /** All or nothing: under Postgres always, in memory mode given fresh ids. */
    method AuthorizePayment(input: AuthorizeInput, now: int, draw: Draw) returns (r: Result<Receipt, Error>)
      requires Keyed(View())
      requires transactor.Noop? ==> FreshIds(View(), draw)
      modifies payers`payers, payments, outbox
      ensures r == Authorize(old(View()), merchants, input, now, draw)
      ensures AnswersAuthorize(old(View()), merchants, input, now, draw, r)
      ensures View() == if r.Ok? then Write(old(View()), r.value, AuthorizedEvent(draw.eventId, r.value, now))
                        else old(View())
    {
      var ps, qs, hs, ix, lg := payers.payers, payments.payments, payments.holds, payments.holdOf, outbox.log;
      AuthorizeExactly(View(), merchants, input, now, draw);
      r := AuthorizeInTx(input, now, draw);
      if r.Err? && transactor.Postgres? {
        Rollback(ps, qs, hs, ix, lg);
      }
    }

    method CaptureInTx(paymentId: Id, now: int, eventId: Id) returns (r: Result<Receipt, Error>)
      requires Keyed(View())
      modifies payers`payers, payments, outbox
      ensures r == Capture(old(View()), paymentId, now, eventId)
      ensures r.Ok? ==> View() == Write(old(View()), r.value, CapturedEvent(eventId, r.value, now))
      ensures r.Err? && FreshEvent(old(View()), eventId) ==> View() == old(View())
    {
      var payment :- payments.GetPayment(paymentId);
      var hold :- payments.GetHoldByPaymentID(payment.id);
      var payer :- payers.GetPayer(payment.payerId);
      if payment.status != Authorized {
        return Err(PaymentNotCapturable);
      }
      if now > payment.expiresAt {
        return Err(AuthorizationExpired);
      }
      var captured :- payment.Capture(now);
      var capturedHold :- hold.Capture(now);
      var updated :- payer.CaptureHeld(payment.amount, payment.currency, now);
      var savedPayer := payers.UpdatePayer(updated);
      match savedPayer { case Err(e) => return Err(e); case Ok(_) => }
      var savedHold := payments.UpdateHold(capturedHold);
      match savedHold { case Err(e) => return Err(e); case Ok(_) => }
      var savedPayment := payments.UpdatePayment(captured);
      match savedPayment { case Err(e) => return Err(e); case Ok(_) => }
      var result := Receipt(captured, capturedHold, updated);
      var _ :- outbox.CreateEvent(CapturedEvent(eventId, result, now));
      return Ok(result);
    }

    method CapturePayment(paymentId: Id, now: int, eventId: Id) returns (r: Result<Receipt, Error>)
      requires Keyed(View())
      requires transactor.Noop? ==> FreshEvent(View(), eventId)
      modifies payers`payers, payments, outbox
      ensures r == Capture(old(View()), paymentId, now, eventId)
      ensures AnswersCapture(old(View()), paymentId, now, eventId, r)
      ensures View() == if r.Ok? then Write(old(View()), r.value, CapturedEvent(eventId, r.value, now)) else old(View())
    {
      var ps, qs, hs, ix, lg := payers.payers, payments.payments, payments.holds, payments.holdOf, outbox.log;
      CaptureExactly(View(), paymentId, now, eventId);
      r := CaptureInTx(paymentId, now, eventId);
      if r.Err? && transactor.Postgres? {
        Rollback(ps, qs, hs, ix, lg);
      }
    }

    /** The body of the expiry loop. */
    method ExpireRow(payment: Payment, now: int, eventId: Id) returns (r: Result<Receipt, Error>)
      requires Keyed(View())
      modifies payers`payers, payments, outbox
      ensures r == ExpireOne(old(View()), payment, now, eventId)
      ensures AnswersExpiry(old(View()), payment, now, eventId, r)
      ensures r.Ok? ==> View() == Write(old(View()), r.value, ExpiredEvent(eventId, r.value, now))
      ensures ExpireNext(old(View()), payment, now, eventId) == if r.Ok? then Ok(View()) else Err(r.error)
    {
      ExpireExactly(View(), payment, now, eventId);
      hide AnswersExpiry;
      var hold :- payments.GetHoldByPaymentID(payment.id);
      var payer :- payers.GetPayer(payment.payerId);
      var updated :- payer.Release(payment.amount, payment.currency, now);
      var savedPayer := payers.UpdatePayer(updated);
      match savedPayer { case Err(e) => return Err(e); case Ok(_) => }
      var released :- hold.Release(now);
      var savedHold := payments.UpdateHold(released);
      match savedHold { case Err(e) => return Err(e); case Ok(_) => }
      var expired :- payment.Expire(now);
      expired :- payments.UpdatePayment(expired);
      var result := Receipt(expired, released, updated);
      var _ :- outbox.CreateEvent(ExpiredEvent(eventId, result, now));
      return Ok(result);
    }

    method ExpireRows(list: seq<Payment>, now: int, draw: Id -> Id) returns (r: Result<ExpireResult, Error>)
      requires Keyed(View())
      modifies payers`payers, payments, outbox
      ensures Follows(ExpireList(old(View()), list, now, draw), r, View())
      ensures r.Ok? ==> Reports(old(View()), list, now, draw, r.value)
    {
      hide ExpireOne, ExpireNext, Write, ReportsRound;
      var result := ExpireResult([], [], []);
      for i := 0 to |list|
        invariant Keyed(View())
        invariant ExpireList(old(View()), list[..i], now, draw) == Ok(View())
        invariant Reports(old(View()), list[..i], now, draw, result)
      {
        ghost var before := View();
        var row := ExpireRow(list[i], now, draw(list[i].id));
        ExpireListUnfold(old(View()), list[..i], list[i], now, draw);
        assert list[..i + 1] == list[..i] + [list[i]];
        if row.Err? {
          FailurePropagates(old(View()), list, i + 1, now, draw);
          return Err(row.error);
        }
        WriteKeyed(before, list[i], now, draw(list[i].id));
        ReportsOneMore(old(View()), list[..i], list[i], now, draw, result, before, row.value);
        result := ExpireResult(result.payments + [row.value.payment], result.holds + [row.value.hold],
                               result.payers + [row.value.payer]);
      }
      assert list[..|list|] == list;
      return Ok(result);
    }

    method ExpireInTx(limit: int, now: int, draw: Id -> Id) returns (r: Result<ExpireResult, Error>)
      requires Keyed(View())
      modifies payers`payers, payments, outbox
      ensures Follows(Expire(old(View()), limit, now, draw), r, View())
      ensures r.Ok? ==> ReportsRun(old(View()), limit, now, draw, r.value)
    {
      hide Reports, ExpireList;
      var bound := if limit <= 0 then 100 else limit;
      var list := payments.ListExpiredAuthorizedPayments(now, bound);
      r := ExpireRows(list, now, draw);
    }

    /** Under Postgres a failed run leaves no trace; in memory mode, from a good ledger, no run fails. */
    method ExpireAuthorizedPayments(limit: int, now: int, draw: Id -> Id) returns (r: Result<ExpireResult, Error>)
      requires Keyed(View())
      requires transactor.Noop? ==> Inv(View()) && FreshDraw(View(), draw)
      modifies payers`payers, payments, outbox
      ensures Follows(Expire(old(View()), limit, now, draw), r, View())
      ensures r.Err? ==> View() == old(View())
      ensures Inv(old(View())) && FreshDraw(old(View()), draw) ==> r.Ok? && Inv(View())
      ensures r.Ok? ==> ReportsRun(old(View()), limit, now, draw, r.value)
      ensures r.Ok? ==> ExpiredFirst(r.value.payments, old(payments.payments), limit, now)
    {
      hide Inv, FirstDue;
      var ps, qs, hs, ix, lg := payers.payers, payments.payments, payments.holds, payments.holdOf, outbox.log;
      r := ExpireInTx(limit, now, draw);
      if r.Ok? {
        ReportsExpired(old(View()), limit, now, draw, r.value);
      }
      if Inv(old(View())) && FreshDraw(old(View()), draw) {
        ExpireExact(old(View()), limit, now, draw);
      }
      if r.Err? && transactor.Postgres? {
        Rollback(ps, qs, hs, ix, lg);
      }
    }
  }

  /** The call's result and the new state are those of the specified run. */
  predicate Follows(spec: Result<Ledger, Error>, r: Result<ExpireResult, Error>, after: Ledger) {
    match spec
    case Ok(l) => r.Ok? && after == l
    case Err(e) => r == Err(e)
  }

  /** The i-th result rows are those the i-th round wrote. */
  ghost predicate Reports(l: Ledger, list: seq<Payment>, now: int, draw: Id -> Id, result: ExpireResult) {
    && |result.payments| == |result.holds| == |result.payers| == |list|
    && forall i :: 0 <= i < |list| ==>
         ReportsRound(l, list, i, now, draw, Receipt(result.payments[i], result.holds[i], result.payers[i]))
  }

  ghost predicate ReportsRun(l: Ledger, limit: int, now: int, draw: Id -> Id, result: ExpireResult)
    requires Keyed(l)
  {
    Reports(l, DueRows(l.payments, now, ExpiryLimit(limit)), now, draw, result)
  }

  ghost predicate ReportsRound(l: Ledger, list: seq<Payment>, i: nat, now: int, draw: Id -> Id, row: Receipt)
    requires i < |list|
  {
    var before := ExpireList(l, list[..i], now, draw);
    before.Ok? && ExpireOne(before.value, list[i], now, draw(list[i].id)) == Ok(row)
  }

  /** The payments that were due first, as they were but for a status of expired and its instant. */
  ghost predicate ExpiredFirst(expired: seq<Payment>, payments: map<Id, Payment>, limit: int, now: int) {
    exists list :: FirstDue(list, payments, now, if limit <= 0 then 100 else limit) && ExpiredFrom(expired, list, now)
  }

  ghost predicate ExpiredFrom(expired: seq<Payment>, list: seq<Payment>, now: int) {
    && |expired| == |list|
    && forall i :: 0 <= i < |list| ==> expired[i] == list[i].(status := Expired, updatedAt := now)
  }

  lemma ReportsExpired(l: Ledger, limit: int, now: int, draw: Id -> Id, result: ExpireResult)
    requires Keyed(l) && ReportsRun(l, limit, now, draw, result)
    ensures ExpiredFirst(result.payments, l.payments, limit, now)
  {
    hide FirstDue, ExpireList;
    var list := DueRows(l.payments, now, ExpiryLimit(limit));
    SelectionIsFirstDue(l.payments, now, ExpiryLimit(limit));
    forall i | 0 <= i < |list| ensures result.payments[i] == list[i].(status := Expired, updatedAt := now) {
      assert ReportsRound(l, list, i, now, draw, Receipt(result.payments[i], result.holds[i], result.payers[i]));
    }
    assert ExpiredFrom(result.payments, list, now);
  }

  lemma ReportsOneMore(l: Ledger, list: seq<Payment>, q: Payment, now: int, draw: Id -> Id, result: ExpireResult,
                       before: Ledger, row: Receipt)
    requires Reports(l, list, now, draw, result)
    requires ExpireList(l, list, now, draw) == Ok(before) && ExpireOne(before, q, now, draw(q.id)) == Ok(row)
    ensures Reports(l, list + [q], now, draw,
                    ExpireResult(result.payments + [row.payment], result.holds + [row.hold],
                                 result.payers + [row.payer]))
  {
    var more := ExpireResult(result.payments + [row.payment], result.holds + [row.hold], result.payers + [row.payer]);
    forall i | 0 <= i < |list + [q]|
      ensures ReportsRound(l, list + [q], i, now, draw, Receipt(more.payments[i], more.holds[i], more.payers[i]))
    {
      assert (list + [q])[..i] == list[..i];
      if i < |list| {
        assert ReportsRound(l, list, i, now, draw, Receipt(result.payments[i], result.holds[i], result.payers[i]));
      } else {
        assert list[..i] == list;
      }
    }
  }

  lemma {:induction false} FailurePropagates(l: Ledger, list: seq<Payment>, i: nat, now: int, draw: Id -> Id)
    requires i <= |list| && ExpireList(l, list[..i], now, draw).Err?
    ensures ExpireList(l, list, now, draw) == ExpireList(l, list[..i], now, draw)
    decreases |list| - i
  {
    if i < |list| {
      assert list[..i + 1][..i] == list[..i];
      FailurePropagates(l, list, i + 1, now, draw);
    } else {
      assert list[..i] == list;
    }
  }

  lemma WriteKeyed(l: Ledger, q: Payment, now: int, eventId: Id)
    requires Keyed(l) && ExpireNext(l, q, now, eventId).Ok?
    ensures Keyed(ExpireNext(l, q, now, eventId).value)
  {}
}
