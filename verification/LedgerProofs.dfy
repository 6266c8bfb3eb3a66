/** Each single write of a ledger transaction keeps the ledger invariant. */
module LedgerProofs {
  import opened Common
  import opened Sums
  import opened Entities
  import opened Ledger
  import opened LedgerInvariant

  /** The rows of one write fit together, and fit the rows they replace. */
  predicate GoodWrite(l: Ledger, r: Receipt) {
    var p, q, h := r.payer, r.payment, r.hold;
    && p.id in l.payers && p.currency == l.payers[p.id].currency
    && q.payerId == p.id && q.currency == p.currency
    && PayerOk(p.id, p) && PaymentOk(q.id, q) && Paired(q, h)
    && (q.id in l.payments <==> h.id in l.holds)
    && (q.id in l.payments ==> l.payments[q.id].holdId == h.id && l.payments[q.id].payerId == p.id)
  }

  function OldReserved(l: Ledger, id: Id): int {
    if id in l.payments then Reserved(l.payments[id]) else 0
  }

  function OldSpent(l: Ledger, id: Id): int {
    if id in l.payments then Spent(l.payments[id]) else 0
  }

  /** What leaves held either becomes available or is spent. */
  predicate MovesMoney(l: Ledger, r: Receipt) {
    var p, q := r.payer, r.payment;
    && p.id in l.payers
    && p.held == l.payers[p.id].held + Reserved(q) - OldReserved(l, q.id)
    && p.available + p.held + Spent(q) == l.payers[p.id].available + l.payers[p.id].held + OldSpent(l, q.id)
  }

  lemma WriteHolds(payments: map<Id, Payment>, holds: map<Id, Hold>, q: Payment, h: Hold)
    requires PaymentsOk(payments) && HoldsOk(payments, holds) && Paired(q, h)
    requires q.id in payments <==> h.id in holds
    requires q.id in payments ==> payments[q.id].holdId == h.id
    ensures HoldsOk(payments[q.id := q], holds[h.id := h])
  {
    var ps, hs := payments[q.id := q], holds[h.id := h];
    forall id | id in ps ensures ps[id].holdId in hs && Paired(ps[id], hs[ps[id].holdId]) {
      if id != q.id {
        assert PaymentOk(id, payments[id]) && Paired(payments[id], holds[payments[id].holdId]);
      }
    }
  }

  lemma WriteRows(l: Ledger, r: Receipt, e: Event)
    requires PayersOk(l.payers, l.opening) && PaymentsOk(l.payments) && GoodWrite(l, r)
    ensures PayersOk(Write(l, r, e).payers, l.opening) && PaymentsOk(Write(l, r, e).payments)
  {}

  lemma WriteOwners(l: Ledger, r: Receipt, e: Event)
    requires OwnersOk(l.payments, l.payers) && GoodWrite(l, r)
    ensures OwnersOk(Write(l, r, e).payments, Write(l, r, e).payers)
  {}

  lemma WriteIndex(l: Ledger, r: Receipt, e: Event)
    requires IndexOk(l.payments, l.holdOf) && GoodWrite(l, r)
    ensures IndexOk(Write(l, r, e).payments, Write(l, r, e).holdOf)
  {}

  lemma WriteStructural(l: Ledger, r: Receipt, e: Event)
    requires Structural(l) && GoodWrite(l, r)
    ensures Structural(Write(l, r, e))
  {
    WriteRows(l, r, e);
    WriteOwners(l, r, e);
    WriteHolds(l.payments, l.holds, r.payment, r.hold);
    WriteIndex(l, r, e);
  }

  lemma PutSum<V>(m: map<Id, V>, w: (Id, V) -> int, k: Id, v: V)
    ensures Sum(m[k := v], w) == Sum(m, w) + w(k, v) - (if k in m then w(k, m[k]) else 0)
  {
    if k in m { SumUpdate(m, w, k, v); } else { SumInsert(m, w, k, v); }
  }

  lemma HeldMatches(q: Payment, h: Hold)
    requires Paired(q, h)
    ensures HeldAmount(h) == Reserved(q)
  {}

  lemma WriteConserves(l: Ledger, r: Receipt, e: Event, id: Id)
    requires Conserved(l, id) && GoodWrite(l, r) && MovesMoney(l, r)
    requires r.payment.id in l.payments ==> Paired(l.payments[r.payment.id], l.holds[r.hold.id])
    ensures Conserved(Write(l, r, e), id)
  {
    HeldMatches(r.payment, r.hold);
    if r.payment.id in l.payments {
      HeldMatches(l.payments[r.payment.id], l.holds[r.hold.id]);
    }
    PutSum(l.payments, ReservedBy(id), r.payment.id, r.payment);
    PutSum(l.payments, SpentBy(id), r.payment.id, r.payment);
    PutSum(l.holds, HeldFor(id), r.hold.id, r.hold);
  }

  lemma WriteBalanced(l: Ledger, r: Receipt, e: Event)
    requires HoldsOk(l.payments, l.holds) && Balanced(l)
    requires GoodWrite(l, r) && MovesMoney(l, r)
    ensures Balanced(Write(l, r, e))
  {
    forall id | id in Write(l, r, e).payers ensures Conserved(Write(l, r, e), id) {
      WriteConserves(l, r, e, id);
    }
  }

  lemma PutPayer(payers: map<Id, Payer>, id: Id, p: Payer)
    ensures AvailableOf(payers[id := p]) == AvailableOf(payers)[id := p.available]
    ensures HeldOf(payers[id := p]) == HeldOf(payers)[id := p.held]
  {}

  lemma PutPayment(payments: map<Id, Payment>, id: Id, q: Payment)
    ensures StatusOf(payments[id := q]) == StatusOf(payments)[id := q.status]
  {}

  /** An event whose posting moves the same money as the write describes the write. */
  lemma WriteMatches(l: Ledger, r: Receipt, e: Event, available: int, held: int)
    requires r.payer.id in l.payers
    requires r.payer.available == l.payers[r.payer.id].available + available
    requires r.payer.held == l.payers[r.payer.id].held + held
    requires var b := BookOf(l);
             Post(b, e.payload)
             == Move(b, r.payer.id, available, held).(status := b.status[r.payment.id := r.payment.status])
    ensures Post(BookOf(l), e.payload) == BookOf(Write(l, r, e))
  {
    PutPayer(l.payers, r.payer.id, r.payer);
    PutPayment(l.payments, r.payment.id, r.payment);
  }

  lemma WriteReplayed(l: Ledger, r: Receipt, e: Event)
    requires PayersOk(l.payers, l.opening) && Replayed(l)
    requires r.payer.id in l.payers && e.payload.payerId == r.payer.id
    requires Post(BookOf(l), e.payload) == BookOf(Write(l, r, e))
    ensures Replayed(Write(l, r, e))
  {
    assert (l.log + [e])[..|l.log|] == l.log;
  }

  lemma AppendLogged(l: Ledger, m: Ledger, e: Event)
    requires Logged(l) && m.log == l.log + [e]
    requires forall id: Id, kind: Kind {:trigger Matches(e, id, kind)} ::
               Expected(m.payments, id, kind) == Expected(l.payments, id, kind) + Matches(e, id, kind)
    ensures Logged(m)
  {
    assert m.log[..|l.log|] == l.log;
    forall id: Id, kind: Kind ensures Count(m.log, id, kind) == Expected(m.payments, id, kind) {
      assert Count(m.log, id, kind) == Count(l.log, id, kind) + Matches(e, id, kind);
    }
  }

  /** The event is the one announcement the write's new status calls for. */
  predicate Announces(l: Ledger, r: Receipt, e: Event) {
    var q := r.payment;
    && e.payload.paymentId == q.id
    && match KindOf(e.payload) {
         case Entry => q.id !in l.payments && q.status.Authorized?
         case Exit => q.id in l.payments && l.payments[q.id].status.Authorized?
                      && (q.status.Captured? || q.status.Expired?)
         case Settlement => false
       }
  }

  lemma WriteLogged(l: Ledger, r: Receipt, e: Event)
    requires Logged(l) && Announces(l, r, e)
    ensures Logged(Write(l, r, e))
  {
    AppendLogged(l, Write(l, r, e), e);
  }

  lemma WriteKeepsInv(l: Ledger, r: Receipt, e: Event)
    requires Inv(l) && GoodWrite(l, r) && MovesMoney(l, r) && Announces(l, r, e)
    requires e.payload.payerId == r.payer.id
    requires Post(BookOf(l), e.payload) == BookOf(Write(l, r, e))
    ensures Inv(Write(l, r, e))
  {
    WriteStructural(l, r, e);
    WriteBalanced(l, r, e);
    WriteReplayed(l, r, e);
    WriteLogged(l, r, e);
  }

  // ----- the three transactions -----

  lemma AuthorizeGood(l: Ledger, merchants: map<Id, MerchantStatus>, input: AuthorizeInput, now: int, draw: Draw)
    requires PayersOk(l.payers, l.opening) && PaymentsOk(l.payments) && Balanced(l)
    requires IndexOk(l.payments, l.holdOf)
    requires Authorize(l, merchants, input, now, draw).Ok?
    ensures var r := Authorize(l, merchants, input, now, draw).value;
            GoodWrite(l, r) && MovesMoney(l, r)
  {
    NoOverflow(l, input.payerId);
  }

  lemma AuthorizePosts(l: Ledger, merchants: map<Id, MerchantStatus>, input: AuthorizeInput, now: int, draw: Draw)
    requires Authorize(l, merchants, input, now, draw).Ok?
    requires MovesMoney(l, Authorize(l, merchants, input, now, draw).value)
    ensures var r := Authorize(l, merchants, input, now, draw).value;
            var e := AuthorizedEvent(draw.eventId, r, now);
            Post(BookOf(l), e.payload) == BookOf(Write(l, r, e)) && Announces(l, r, e)
  {
    var r := Authorize(l, merchants, input, now, draw).value;
    WriteMatches(l, r, AuthorizedEvent(draw.eventId, r, now), 0 - input.amount, input.amount);
  }

  lemma AuthorizeKeepsInv(l: Ledger, merchants: map<Id, MerchantStatus>, input: AuthorizeInput, now: int, draw: Draw)
    requires Inv(l)
    requires Authorize(l, merchants, input, now, draw).Ok?
    ensures var r := Authorize(l, merchants, input, now, draw).value;
            Inv(Write(l, r, AuthorizedEvent(draw.eventId, r, now)))
  {
    AuthorizeGood(l, merchants, input, now, draw);
    AuthorizePosts(l, merchants, input, now, draw);
    var r := Authorize(l, merchants, input, now, draw).value;
    WriteKeepsInv(l, r, AuthorizedEvent(draw.eventId, r, now));
  }

  lemma CaptureGood(l: Ledger, paymentId: Id, now: int, eventId: Id)
    requires PayersOk(l.payers, l.opening) && PaymentsOk(l.payments) && Balanced(l)
    requires OwnersOk(l.payments, l.payers) && HoldsOk(l.payments, l.holds) && IndexOk(l.payments, l.holdOf)
    requires Capture(l, paymentId, now, eventId).Ok?
    ensures var r := Capture(l, paymentId, now, eventId).value;
            GoodWrite(l, r) && MovesMoney(l, r)
  {
    NoOverflow(l, l.payments[paymentId].payerId);
  }

  lemma CapturePosts(l: Ledger, paymentId: Id, now: int, eventId: Id)
    requires PaymentsOk(l.payments)
    requires Capture(l, paymentId, now, eventId).Ok?
    requires GoodWrite(l, Capture(l, paymentId, now, eventId).value)
            && MovesMoney(l, Capture(l, paymentId, now, eventId).value)
    ensures var r := Capture(l, paymentId, now, eventId).value;
            var e := CapturedEvent(eventId, r, now);
            Post(BookOf(l), e.payload) == BookOf(Write(l, r, e)) && Announces(l, r, e)
  {
    var r := Capture(l, paymentId, now, eventId).value;
    WriteMatches(l, r, CapturedEvent(eventId, r, now), 0, 0 - r.payment.amount);
  }

  lemma CaptureKeepsInv(l: Ledger, paymentId: Id, now: int, eventId: Id)
    requires Inv(l)
    requires Capture(l, paymentId, now, eventId).Ok?
    ensures var r := Capture(l, paymentId, now, eventId).value;
            Inv(Write(l, r, CapturedEvent(eventId, r, now)))
  {
    CaptureGood(l, paymentId, now, eventId);
    CapturePosts(l, paymentId, now, eventId);
    var r := Capture(l, paymentId, now, eventId).value;
    WriteKeepsInv(l, r, CapturedEvent(eventId, r, now));
  }

  lemma ExpireGood(l: Ledger, payment: Payment, now: int, eventId: Id)
    requires PayersOk(l.payers, l.opening) && PaymentsOk(l.payments) && Balanced(l)
    requires OwnersOk(l.payments, l.payers) && HoldsOk(l.payments, l.holds) && IndexOk(l.payments, l.holdOf)
    requires payment.id in l.payments && l.payments[payment.id] == payment
    requires ExpireOne(l, payment, now, eventId).Ok?
    ensures var r := ExpireOne(l, payment, now, eventId).value;
            GoodWrite(l, r) && MovesMoney(l, r)
  {
    NoOverflow(l, payment.payerId);
  }

  lemma ExpirePosts(l: Ledger, payment: Payment, now: int, eventId: Id)
    requires payment.id in l.payments && l.payments[payment.id] == payment
    requires ExpireOne(l, payment, now, eventId).Ok?
    requires GoodWrite(l, ExpireOne(l, payment, now, eventId).value)
            && MovesMoney(l, ExpireOne(l, payment, now, eventId).value)
    ensures var r := ExpireOne(l, payment, now, eventId).value;
            var e := ExpiredEvent(eventId, r, now);
            Post(BookOf(l), e.payload) == BookOf(Write(l, r, e)) && Announces(l, r, e)
  {
    var r := ExpireOne(l, payment, now, eventId).value;
    WriteMatches(l, r, ExpiredEvent(eventId, r, now), payment.amount, 0 - payment.amount);
  }

  lemma ExpireOneKeepsInv(l: Ledger, payment: Payment, now: int, eventId: Id)
    requires Inv(l) && payment.id in l.payments && l.payments[payment.id] == payment
    requires ExpireOne(l, payment, now, eventId).Ok?
    ensures var r := ExpireOne(l, payment, now, eventId).value;
            Inv(Write(l, r, ExpiredEvent(eventId, r, now)))
  {
    ExpireGood(l, payment, now, eventId);
    ExpirePosts(l, payment, now, eventId);
    var r := ExpireOne(l, payment, now, eventId).value;
    WriteKeepsInv(l, r, ExpiredEvent(eventId, r, now));
  }

  // ----- new payers, and the writes of a settlement -----

  lemma {:induction false} ReplayNewPayer(opening: map<Id, int64>, log: seq<Event>, id: Id, balance: int64)
    requires id !in opening && NamesPayers(log, opening.Keys)
    ensures var b := Replay(opening, log);
            Replay(opening[id := balance], log) == Book(b.available[id := balance], b.held[id := 0], b.status)
    ensures Replay(opening, log).available.Keys == Replay(opening, log).held.Keys == opening.Keys
  {
    if log != [] {
      var e := log[|log| - 1];
      assert e in log && e.payload.payerId in opening;
      ReplayNewPayer(opening, log[..|log| - 1], id, balance);
      var b := Replay(opening, log[..|log| - 1]);
      PostNewPayer(b, e.payload, id, balance);
    }
  }

  lemma PostNewPayer(b: Book, e: Payload, id: Id, balance: int)
    requires e.payerId in b.available && e.payerId in b.held && e.payerId != id
    ensures Post(Book(b.available[id := balance], b.held[id := 0], b.status), e)
         == Book(Post(b, e).available[id := balance], Post(b, e).held[id := 0], Post(b, e).status)
    ensures Post(b, e).available.Keys == b.available.Keys && Post(b, e).held.Keys == b.held.Keys
  {
    PutTwo(b.available, e.payerId, id, balance);
    PutTwo(b.held, e.payerId, id, 0);
  }

  lemma PutTwo(m: map<Id, int>, p: Id, id: Id, balance: int)
    requires p != id
    ensures forall v: int {:trigger m[p := v]} :: m[id := balance][p := v] == m[p := v][id := balance]
  {}

  lemma CreatePayerBalanced(l: Ledger, id: Id, available: int64, currency: string, now: int)
    requires OwnersOk(l.payments, l.payers) && HoldsOk(l.payments, l.holds) && Balanced(l)
    requires CreatePayer(l, id, available, currency, now).Ok?
    ensures Balanced(CreatePayer(l, id, available, currency, now).value)
  {
    var m := CreatePayer(l, id, available, currency, now).value;
    forall k | k in m.payers ensures Conserved(m, k) {
      if k == id {
        forall q | q in l.payments ensures l.payments[q].payerId != id {}
        forall h | h in l.holds ensures l.holds[h].payerId != id {
          assert Paired(l.payments[l.holds[h].paymentId], l.holds[h]);
        }
        ZeroSum(l.payments, ReservedBy(id));
        ZeroSum(l.payments, SpentBy(id));
        ZeroSum(l.holds, HeldFor(id));
      } else {
        assert Conserved(l, k);
      }
    }
  }

  lemma {:induction false} ZeroSum<V>(m: map<Id, V>, w: (Id, V) -> int)
    requires forall k :: k in m ==> w(k, m[k]) == 0
    ensures Sum(m, w) == 0
    decreases |m|
  {
    if k :| k in m {
      SumRemove(m, w, k);
      ZeroSum(m - {k}, w);
    }
  }

  lemma CreatePayerStructural(l: Ledger, id: Id, available: int64, currency: string, now: int)
    requires Structural(l)
    requires CreatePayer(l, id, available, currency, now).Ok?
    ensures Structural(CreatePayer(l, id, available, currency, now).value)
  {
    var m := CreatePayer(l, id, available, currency, now).value;
    assert PayersOk(m.payers, m.opening);
    assert OwnersOk(m.payments, m.payers);
  }

  lemma CreatePayerReplayed(l: Ledger, id: Id, available: int64, currency: string, now: int)
    requires l.opening.Keys == l.payers.Keys && Replayed(l)
    requires CreatePayer(l, id, available, currency, now).Ok?
    ensures Replayed(CreatePayer(l, id, available, currency, now).value)
  {
    ReplayNewPayer(l.opening, l.log, id, available);
    PutPayer(l.payers, id, CreatePayer(l, id, available, currency, now).value.payers[id]);
  }

  lemma CreatePayerKeepsInv(l: Ledger, id: Id, available: int64, currency: string, now: int)
    requires Inv(l)
    requires CreatePayer(l, id, available, currency, now).Ok?
    ensures Inv(CreatePayer(l, id, available, currency, now).value)
  {
    CreatePayerStructural(l, id, available, currency, now);
    CreatePayerBalanced(l, id, available, currency, now);
    CreatePayerReplayed(l, id, available, currency, now);
  }

  /** Changes to a payment that leave its terms, its hold's state and its money alone. */
  predicate SameMoney(q: Payment, r: Payment) {
    && r == q.(status := r.status, capturedAt := r.capturedAt, settledAt := r.settledAt, updatedAt := r.updatedAt)
    && (r.status == q.status || (q.status.Captured? && r.status.Settled?))
    && r.capturedAt == q.capturedAt
    && (r.settledAt.Some? <==> r.status.Settled?)
  }

  ghost predicate OnlyBookkeeping(l: Ledger, m: Ledger) {
    && m == l.(payments := m.payments, log := m.log)
    && m.payments.Keys == l.payments.Keys
    && forall id :: id in l.payments ==> SameMoney(l.payments[id], m.payments[id])
  }

  lemma BookkeepingStructural(l: Ledger, m: Ledger)
    requires Structural(l) && OnlyBookkeeping(l, m)
    ensures Structural(m)
  {
    BookkeepingHolds(l, m);
    BookkeepingRows(l, m);
  }

  lemma BookkeepingRows(l: Ledger, m: Ledger)
    requires PaymentsOk(l.payments) && OnlyBookkeeping(l, m)
    ensures PaymentsOk(m.payments)
  {
    forall id | id in m.payments ensures PaymentOk(id, m.payments[id]) {
      assert PaymentOk(id, l.payments[id]) && SameMoney(l.payments[id], m.payments[id]);
    }
  }

  lemma BookkeepingHolds(l: Ledger, m: Ledger)
    requires HoldsOk(l.payments, l.holds) && OnlyBookkeeping(l, m)
    ensures HoldsOk(m.payments, m.holds)
  {
    forall id | id in m.payments
      ensures m.payments[id].holdId in m.holds && Paired(m.payments[id], m.holds[m.payments[id].holdId])
    {
      assert Paired(l.payments[id], l.holds[l.payments[id].holdId]);
    }
  }

  lemma BookkeepingBalanced(l: Ledger, m: Ledger)
    requires Balanced(l) && OnlyBookkeeping(l, m)
    ensures Balanced(m)
  {
    forall id | id in m.payers ensures Conserved(m, id) {
      assert Conserved(l, id);
      SumSame(l.payments, m.payments, ReservedBy(id), ReservedBy(id));
      SumSame(l.payments, m.payments, SpentBy(id), SpentBy(id));
    }
  }

  lemma SettleKeepsInv(l: Ledger, paymentId: Id, batchId: Id, now: int, eventId: Id)
    requires Inv(l) && Settle(l, paymentId, batchId, now, eventId).Ok?
    ensures Inv(Settle(l, paymentId, batchId, now, eventId).value)
    ensures OnlyBookkeeping(l, Settle(l, paymentId, batchId, now, eventId).value)
  {
    var m := Settle(l, paymentId, batchId, now, eventId).value;
    SettleBookkeeping(l, paymentId, batchId, now, eventId);
    BookkeepingStructural(l, m);
    BookkeepingBalanced(l, m);
    SettleReplayed(l, paymentId, batchId, now, eventId);
    SettleLogged(l, paymentId, batchId, now, eventId);
  }

  lemma SettleLogged(l: Ledger, paymentId: Id, batchId: Id, now: int, eventId: Id)
    requires PaymentsOk(l.payments) && Logged(l) && Settle(l, paymentId, batchId, now, eventId).Ok?
    ensures Logged(Settle(l, paymentId, batchId, now, eventId).value)
  {
    assert PaymentOk(paymentId, l.payments[paymentId]);
    var m := Settle(l, paymentId, batchId, now, eventId).value;
    AppendLogged(l, m, m.log[|l.log|]);
  }

  lemma SettleBookkeeping(l: Ledger, paymentId: Id, batchId: Id, now: int, eventId: Id)
    requires PaymentsOk(l.payments) && Settle(l, paymentId, batchId, now, eventId).Ok?
    ensures OnlyBookkeeping(l, Settle(l, paymentId, batchId, now, eventId).value)
  {
    var m := Settle(l, paymentId, batchId, now, eventId).value;
    forall id | id in l.payments ensures SameMoney(l.payments[id], m.payments[id]) {
      assert PaymentOk(id, l.payments[id]);
    }
  }

  lemma SettleReplayed(l: Ledger, paymentId: Id, batchId: Id, now: int, eventId: Id)
    requires PaymentsOk(l.payments) && OwnersOk(l.payments, l.payers) && l.opening.Keys == l.payers.Keys && Replayed(l)
    requires Settle(l, paymentId, batchId, now, eventId).Ok?
    ensures Replayed(Settle(l, paymentId, batchId, now, eventId).value)
  {
    var m := Settle(l, paymentId, batchId, now, eventId).value;
    assert PaymentOk(paymentId, l.payments[paymentId]);
    assert m.log[..|l.log|] == l.log;
    PutPayment(l.payments, paymentId, m.payments[paymentId]);
  }

  lemma TouchKeepsInv(l: Ledger, ids: set<Id>, now: int)
    requires Inv(l)
    ensures Inv(Touch(l, ids, now)) && OnlyBookkeeping(l, Touch(l, ids, now))
  {
    var m := Touch(l, ids, now);
    TouchBookkeeping(l, ids, now);
    BookkeepingStructural(l, m);
    BookkeepingBalanced(l, m);
    TouchReplayed(l, ids, now);
  }

  lemma TouchReplayed(l: Ledger, ids: set<Id>, now: int)
    requires Replayed(l) && Logged(l)
    ensures Replayed(Touch(l, ids, now)) && Logged(Touch(l, ids, now))
  {
    var m := Touch(l, ids, now);
    forall id: Id, kind: Kind ensures Expected(m.payments, id, kind) == Expected(l.payments, id, kind) {}
    assert StatusOf(Touch(l, ids, now).payments) == StatusOf(l.payments);
  }

  lemma TouchBookkeeping(l: Ledger, ids: set<Id>, now: int)
    requires PaymentsOk(l.payments)
    ensures OnlyBookkeeping(l, Touch(l, ids, now))
  {
    forall id | id in l.payments ensures SameMoney(l.payments[id], Touch(l, ids, now).payments[id]) {
      assert PaymentOk(id, l.payments[id]);
    }
  }
}
