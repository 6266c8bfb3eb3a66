/** The expiry batch: which payments it takes, that it cannot fail, and exactly what it changes. */
module Expiry {
  import opened Common
  import opened Ranking
  import opened Entities
  import opened Ledger
  import opened LedgerInvariant
  import opened LedgerProofs

  /** The event ids drawn for the payments are new and pairwise different. */
  ghost predicate FreshDraw(l: Ledger, draw: Id -> Id) {
    && (forall id :: FreshEvent(l, draw(id)))
    && (forall a, b :: a != b ==> draw(a) != draw(b))
  }

  /** A payer after some of its holds, worth `total` in all, have been released. */
  predicate PayerAfter(p: Payer, after: Payer, total: int, count: nat, now: int) {
    && after.available == p.available + total
    && after.held == p.held - total
    && after.version == p.version + count
    && after == p.(available := after.available, held := after.held, version := after.version,
                   updatedAt := if count == 0 then p.updatedAt else now)
  }

  function PaymentAfter(q: Payment, expired: bool, now: int): Payment {
    if expired then q.(status := Expired, updatedAt := now) else q
  }

  function HoldAfter(h: Hold, released: bool, now: int): Hold {
    if released then h.(status := Released, updatedAt := now) else h
  }

  function TotalOf(list: seq<Payment>, payer: Id): int {
    if list == [] then 0
    else TotalOf(list[..|list| - 1], payer)
         + (if list[|list| - 1].payerId == payer then list[|list| - 1].amount else 0)
  }

  function CountOf(list: seq<Payment>, payer: Id): nat {
    if list == [] then 0
    else CountOf(list[..|list| - 1], payer) + (if list[|list| - 1].payerId == payer then 1 else 0)
  }

  predicate Listed(list: seq<Payment>, id: Id) {
    exists q :: q in list && q.id == id
  }

  function ExpiryEvents(list: seq<Payment>, now: int, draw: Id -> Id): seq<Event> {
    seq(|list|, i requires 0 <= i < |list| =>
      var q := list[i];
      Event(draw(q.id), PaymentExpired(q.id, q.merchantId, q.payerId, q.amount, q.currency, q.holdId, now,
                                       q.expiresAt), now))
  }

  function PaymentsAfter(payments: map<Id, Payment>, list: seq<Payment>, now: int): map<Id, Payment> {
    map id | id in payments :: PaymentAfter(payments[id], Listed(list, id), now)
  }

  function HoldsAfter(holds: map<Id, Hold>, list: seq<Payment>, now: int): map<Id, Hold> {
    map h | h in holds :: HoldAfter(holds[h], Listed(list, holds[h].paymentId), now)
  }

  ghost predicate PayersAfter(payers: map<Id, Payer>, after: map<Id, Payer>, list: seq<Payment>, now: int) {
    && after.Keys == payers.Keys
    && forall p :: p in payers ==> PayerAfter(payers[p], after[p], TotalOf(list, p), CountOf(list, p), now)
  }

  /** m is l with exactly the listed payments expired, their holds released and their payers repaid. */
  ghost predicate Expires(l: Ledger, m: Ledger, list: seq<Payment>, now: int, draw: Id -> Id) {
    && PayersAfter(l.payers, m.payers, list, now)
    && m.payments == PaymentsAfter(l.payments, list, now)
    && m.holds == HoldsAfter(l.holds, list, now)
    && m.holdOf == l.holdOf && m.opening == l.opening
    && m.log == l.log + ExpiryEvents(list, now, draw)
  }

  /** Distinct rows of l, all still authorized. */
  ghost predicate Expirable(l: Ledger, list: seq<Payment>) {
    && (forall q :: q in list ==> q.id in l.payments && l.payments[q.id] == q && q.status.Authorized?)
    && (forall i, j :: 0 <= i < j < |list| ==> list[i].id != list[j].id)
  }

  lemma ExpireOneSucceeds(l: Ledger, q: Payment, now: int, eventId: Id)
    requires Inv(l) && q.id in l.payments && l.payments[q.id] == q && q.status.Authorized?
    requires FreshEvent(l, eventId)
    ensures ExpireOne(l, q, now, eventId).Ok?
    ensures var r := ExpireOne(l, q, now, eventId).value;
            && r.payment == PaymentAfter(q, true, now)
            && q.holdId in l.holds && r.hold == HoldAfter(l.holds[q.holdId], true, now)
            && l.holds[q.holdId].paymentId == q.id && r.hold.id == q.holdId
            && l.holdOf[q.id] == q.holdId
            && q.payerId in l.payers && r.payer.id == q.payerId
            && PayerAfter(l.payers[q.payerId], r.payer, q.amount, 1, now)
  {
    NoOverflow(l, q.payerId);
    assert Paired(q, l.holds[q.holdId]);
    assert PaymentOk(q.id, q);
    assert PayerOk(q.payerId, l.payers[q.payerId]);
  }

  lemma ListedLast(list: seq<Payment>, q: Payment, id: Id)
    ensures Listed(list + [q], id) <==> Listed(list, id) || q.id == id
  {
    if Listed(list, id) {
      var x :| x in list && x.id == id;
      assert x in list + [q];
    }
    assert q in list + [q];
  }

  lemma ExpiresPayers(payers: map<Id, Payer>, after: map<Id, Payer>, list: seq<Payment>, q: Payment, payer: Payer,
                      now: int)
    requires PayersAfter(payers, after, list, now)
    requires q.payerId in payers && PayerAfter(after[q.payerId], payer, q.amount, 1, now)
    ensures PayersAfter(payers, after[q.payerId := payer], list + [q], now)
  {
    assert (list + [q])[..|list|] == list;
  }

  lemma ExpiresPayments(payments: map<Id, Payment>, list: seq<Payment>, q: Payment, now: int)
    requires q.id in payments && payments[q.id] == q
    ensures PaymentsAfter(payments, list, now)[q.id := PaymentAfter(q, true, now)]
            == PaymentsAfter(payments, list + [q], now)
  {
    forall id ensures Listed(list + [q], id) <==> Listed(list, id) || q.id == id {
      ListedLast(list, q, id);
    }
  }

  lemma ExpiresHolds(payments: map<Id, Payment>, holds: map<Id, Hold>, list: seq<Payment>, q: Payment, now: int)
    requires HoldsOk(payments, holds) && q.id in payments && payments[q.id] == q && q.holdId in holds
    requires holds[q.holdId].paymentId == q.id
    ensures HoldsAfter(holds, list, now)[q.holdId := HoldAfter(holds[q.holdId], true, now)]
         == HoldsAfter(holds, list + [q], now)
  {
    forall id ensures Listed(list + [q], id) <==> Listed(list, id) || q.id == id {
      ListedLast(list, q, id);
    }
    forall h | h in holds && h != q.holdId ensures holds[h].paymentId != q.id {}
  }

  /** What one successful round writes. */
  predicate Round(l: Ledger, m: Ledger, q: Payment, r: Receipt, now: int) {
    && q.id in l.payments && l.payments[q.id] == q
    && q.holdId in l.holds && l.holds[q.holdId].paymentId == q.id
    && q.id in l.holdOf && l.holdOf[q.id] == q.holdId
    && q.payerId in l.payers && q.payerId in m.payers
    && r.payment == PaymentAfter(q, true, now)
    && r.hold == HoldAfter(l.holds[q.holdId], true, now) && r.hold.id == q.holdId
    && r.payer.id == q.payerId && PayerAfter(m.payers[q.payerId], r.payer, q.amount, 1, now)
  }

  /** One more round extends the effect by one payment. */
  lemma ExpiresStep(l: Ledger, m: Ledger, list: seq<Payment>, q: Payment, now: int, draw: Id -> Id, r: Receipt)
    requires HoldsOk(l.payments, l.holds) && Expires(l, m, list, now, draw) && Round(l, m, q, r, now)
    ensures Expires(l, Write(m, r, ExpiredEvent(draw(q.id), r, now)), list + [q], now, draw)
  {
    ExpiresPayers(l.payers, m.payers, list, q, r.payer, now);
    ExpiresPayments(l.payments, list, q, now);
    ExpiresHolds(l.payments, l.holds, list, q, now);
    assert l.holdOf[q.id := q.holdId] == l.holdOf;
    ExpiresLog(l, m, list, q, now, draw, r);
  }

  lemma ExpiresLog(l: Ledger, m: Ledger, list: seq<Payment>, q: Payment, now: int, draw: Id -> Id, r: Receipt)
    requires m.log == l.log + ExpiryEvents(list, now, draw)
    requires r.payment == PaymentAfter(q, true, now) && r.hold.id == q.holdId
    ensures m.log + [ExpiredEvent(draw(q.id), r, now)] == l.log + ExpiryEvents(list + [q], now, draw)
  {
    assert ExpiryEvents(list + [q], now, draw) == ExpiryEvents(list, now, draw) + [ExpiredEvent(draw(q.id), r, now)];
  }

  lemma StillFresh(l: Ledger, m: Ledger, list: seq<Payment>, now: int, draw: Id -> Id, id: Id)
    requires FreshDraw(l, draw) && m.log == l.log + ExpiryEvents(list, now, draw) && !Listed(list, id)
    ensures FreshEvent(m, draw(id))
  {
    var evs := ExpiryEvents(list, now, draw);
    forall e | e in m.log ensures e.id != draw(id) {
      if e in evs {
        var i :| 0 <= i < |evs| && evs[i] == e;
        assert list[i] in list && list[i].id != id;
      } else {
        assert FreshEvent(l, draw(id)) && e in l.log;
      }
    }
  }

  lemma Untouched(l: Ledger, m: Ledger, list: seq<Payment>, q: Payment, now: int, draw: Id -> Id)
    requires HoldsOk(l.payments, l.holds) && IndexOk(l.payments, l.holdOf) && Expires(l, m, list, now, draw)
    requires q.id in l.payments && l.payments[q.id] == q && !Listed(list, q.id)
    ensures q.id in m.payments && m.payments[q.id] == q
    ensures q.holdId in l.holds && l.holds[q.holdId].paymentId == q.id && m.holds[q.holdId] == l.holds[q.holdId]
    ensures l.holdOf[q.id] == q.holdId
  {
    assert Paired(q, l.holds[q.holdId]);
  }

  ghost predicate CleanExpiry(l: Ledger, list: seq<Payment>, now: int, draw: Id -> Id, out: Result<Ledger, Error>) {
    out.Ok? && Inv(out.value) && Expires(l, out.value, list, now, draw)
  }

  lemma ExpireRound(l: Ledger, m: Ledger, list: seq<Payment>, q: Payment, now: int, draw: Id -> Id)
    requires Inv(l) && Inv(m) && FreshDraw(l, draw) && Expires(l, m, list, now, draw)
    requires q.id in l.payments && l.payments[q.id] == q && q.status.Authorized? && !Listed(list, q.id)
    ensures CleanExpiry(l, list + [q], now, draw, ExpireNext(m, q, now, draw(q.id)))
  {
    hide Inv;
    InvHolds(l);
    Untouched(l, m, list, q, now, draw);
    StillFresh(l, m, list, now, draw, q.id);
    ExpireOneSucceeds(m, q, now, draw(q.id));
    ExpireOneKeepsInv(m, q, now, draw(q.id));
    ExpiresStep(l, m, list, q, now, draw, ExpireOne(m, q, now, draw(q.id)).value);
  }

  lemma ExpirablePrefix(l: Ledger, list: seq<Payment>)
    requires list != [] && Expirable(l, list)
    ensures var n := |list| - 1;
            Expirable(l, list[..n]) && !Listed(list[..n], list[n].id) && list == list[..n] + [list[n]]
    ensures var q := list[|list| - 1]; q.id in l.payments && l.payments[q.id] == q && q.status.Authorized?
  {
    var n := |list| - 1;
    forall q | q in list[..n] ensures q.id != list[n].id {
      var i :| 0 <= i < n && list[i] == q;
    }
  }

  lemma ExpireListUnfold(l: Ledger, list: seq<Payment>, q: Payment, now: int, draw: Id -> Id)
    requires ExpireList(l, list, now, draw).Ok?
    ensures ExpireList(l, list + [q], now, draw) == ExpireNext(ExpireList(l, list, now, draw).value, q, now, draw(q.id))
  {
    assert (list + [q])[..|list|] == list;
  }

  lemma ExpireListStep(l: Ledger, list: seq<Payment>, q: Payment, now: int, draw: Id -> Id)
    requires Inv(l) && FreshDraw(l, draw)
    requires q.id in l.payments && l.payments[q.id] == q && q.status.Authorized? && !Listed(list, q.id)
    requires CleanExpiry(l, list, now, draw, ExpireList(l, list, now, draw))
    ensures CleanExpiry(l, list + [q], now, draw, ExpireList(l, list + [q], now, draw))
  {
    hide Inv;
    ExpireRound(l, ExpireList(l, list, now, draw).value, list, q, now, draw);
    ExpireListUnfold(l, list, q, now, draw);
  }

  /** From a good ledger the loop never fails, and its effect is exactly Expires. */
  lemma {:induction false} ExpireListEffect(l: Ledger, list: seq<Payment>, now: int, draw: Id -> Id)
    requires Inv(l) && Expirable(l, list) && FreshDraw(l, draw)
    ensures CleanExpiry(l, list, now, draw, ExpireList(l, list, now, draw))
    decreases |list|
  {
    hide Inv;
    if list == [] {
      NothingExpires(l, now, draw);
    } else {
      var n := |list| - 1;
      ExpirablePrefix(l, list);
      ExpireListEffect(l, list[..n], now, draw);
      ExpireListStep(l, list[..n], list[n], now, draw);
    }
  }

  lemma NothingExpires(l: Ledger, now: int, draw: Id -> Id)
    ensures Expires(l, l, [], now, draw)
  {
    assert l.payments == PaymentsAfter(l.payments, [], now);
    assert l.holds == HoldsAfter(l.holds, [], now);
  }

  // ----- the whole batch -----

  lemma RowsExpirable(l: Ledger, ids: seq<Id>, now: int, limit: nat)
    requires Keyed(l) && ids == DueIds(l.payments, now, limit)
    ensures Expirable(l, Rows(l.payments, ids))
    ensures forall id :: Listed(Rows(l.payments, ids), id) <==> id in ids
  {
    var rows := Rows(l.payments, ids);
    DistinctSelection(ids, DueSet(l.payments, now), PaymentRank(l.payments), limit);
    forall id ensures Listed(rows, id) <==> id in ids {
      if id in ids {
        var i :| 0 <= i < |ids| && ids[i] == id;
        assert rows[i] in rows;
      }
    }
  }

  /**
    An expiry run never fails; it expires exactly the first `limit` due payments by
    (ExpiresAt, ID), repays each payer the sum of its own, and changes nothing else.
   */
  lemma ExpireExact(l: Ledger, limit: int, now: int, draw: Id -> Id)
    requires Inv(l) && FreshDraw(l, draw)
    ensures Keyed(l)
    ensures CleanExpiry(l, DueRows(l.payments, now, ExpiryLimit(limit)), now, draw, Expire(l, limit, now, draw))
    ensures forall id :: Listed(DueRows(l.payments, now, ExpiryLimit(limit)), id) <==>
                         id in DueIds(l.payments, now, ExpiryLimit(limit))
    ensures FirstDue(DueRows(l.payments, now, ExpiryLimit(limit)), l.payments, now, if limit <= 0 then 100 else limit)
  {
    hide Inv, FirstDue;
    InvKeyed(l);
    var ids := DueIds(l.payments, now, ExpiryLimit(limit));
    RowsExpirable(l, ids, now, ExpiryLimit(limit));
    ExpireListEffect(l, Rows(l.payments, ids), now, draw);
    SelectionIsFirstDue(l.payments, now, ExpiryLimit(limit));
  }

  lemma DueAfter(l: Ledger, m: Ledger, list: seq<Payment>, now: int, draw: Id -> Id)
    requires Expires(l, m, list, now, draw)
    ensures DueSet(m.payments, now) == set id | id in DueSet(l.payments, now) && !Listed(list, id)
  {}

  /** A run takes min(limit, due) payments off the due set, and adds none. */
  lemma DueShrinks(l: Ledger, limit: int, now: int, draw: Id -> Id)
    requires Inv(l) && FreshDraw(l, draw) && Keyed(l)
    ensures Expire(l, limit, now, draw).Ok? && Inv(Expire(l, limit, now, draw).value)
    ensures |DueSet(Expire(l, limit, now, draw).value.payments, now)|
         == |DueSet(l.payments, now)| - Min(ExpiryLimit(limit), |DueSet(l.payments, now)|)
  {
    hide Inv, Expires, Expire;
    ExpireExact(l, limit, now, draw);
    var ids := DueIds(l.payments, now, ExpiryLimit(limit));
    DueAfter(l, Expire(l, limit, now, draw).value, Rows(l.payments, ids), now, draw);
    TakenSize(DueSet(l.payments, now), ids, PaymentRank(l.payments), ExpiryLimit(limit));
    assert (set id | id in DueSet(l.payments, now) && !Listed(Rows(l.payments, ids), id))
        == (set id | id in DueSet(l.payments, now) && id !in ids);
  }

  /** Event ids for a series of runs: the k-th run draws draws(k, payment). */
  ghost predicate FreshDraws(l: Ledger, draws: (nat, Id) -> Id) {
    && (forall k, id :: FreshEvent(l, draws(k, id)))
    && (forall j: nat, k: nat, a, b :: (j, a) != (k, b) ==> draws(j, a) != draws(k, b))
  }

  ghost function Shift(draws: (nat, Id) -> Id): (nat, Id) -> Id {
    (k: nat, id: Id) => draws(k + 1, id)
  }

  ghost function ExpireRuns(l: Ledger, limit: int, now: int, draws: (nat, Id) -> Id, runs: nat): Result<Ledger, Error>
    decreases runs
  {
    if runs == 0 then Ok(l)
    else if !Keyed(l) then Err(Invalid)
    else
      var m :- Expire(l, limit, now, id => draws(0, id));
      ExpireRuns(m, limit, now, Shift(draws), runs - 1)
  }

  lemma LaterDrawsFresh(l: Ledger, m: Ledger, list: seq<Payment>, now: int, draws: (nat, Id) -> Id)
    requires FreshDraws(l, draws)
    requires m.log == l.log + ExpiryEvents(list, now, id => draws(0, id))
    ensures FreshDraws(m, Shift(draws))
  {
    var draw := (id: Id) => draws(0, id);
    forall k: nat, id ensures FreshEvent(m, Shift(draws)(k, id)) {
      assert FreshEvent(l, draws(k + 1, id));
      forall e | e in ExpiryEvents(list, now, draw) ensures e.id != draws(k + 1, id) {
        var i :| 0 <= i < |list| && e == ExpiryEvents(list, now, draw)[i];
        assert e.id == draws(0, list[i].id);
      }
    }
  }

  /** One run of a series: it cannot fail, keeps the invariant, and leaves later draws fresh. */
  lemma RunOnce(l: Ledger, limit: int, now: int, draws: (nat, Id) -> Id)
    requires Inv(l) && FreshDraws(l, draws) && Keyed(l)
    ensures var out := Expire(l, limit, now, id => draws(0, id));
            && out.Ok? && Inv(out.value) && FreshDraws(out.value, Shift(draws))
            && |DueSet(out.value.payments, now)|
               == |DueSet(l.payments, now)| - Min(ExpiryLimit(limit), |DueSet(l.payments, now)|)
  {
    hide Inv, Expire;
    var draw := (id: Id) => draws(0, id);
    DueShrinks(l, limit, now, draw);
    ExpireExact(l, limit, now, draw);
    var due := DueRows(l.payments, now, ExpiryLimit(limit));
    LaterDrawsFresh(l, Expire(l, limit, now, draw).value, due, now, draws);
  }

  /** At a fixed time, runs totalling at least the number of due payments leave none due. */
  lemma {:induction false} RunsDrain(l: Ledger, limit: int, now: int, draws: (nat, Id) -> Id, runs: nat)
    requires Inv(l) && FreshDraws(l, draws)
    requires runs * ExpiryLimit(limit) >= |DueSet(l.payments, now)|
    ensures var out := ExpireRuns(l, limit, now, draws, runs);
            out.Ok? && Inv(out.value) && DueSet(out.value.payments, now) == {}
    decreases runs
  {
    hide Inv, Expire, Keyed, FreshDraws, DueSet;
    InvKeyed(l);
    if runs != 0 {
      RunOnce(l, limit, now, draws);
      assert (runs - 1) * ExpiryLimit(limit) == runs * ExpiryLimit(limit) - ExpiryLimit(limit);
      RunsDrain(Expire(l, limit, now, id => draws(0, id)).value, limit, now, Shift(draws), runs - 1);
    }
  }

  /** In particular ceil(due / limit) runs suffice. */
  lemma CeilRunsDrain(l: Ledger, limit: int, now: int, draws: (nat, Id) -> Id)
    requires Inv(l) && FreshDraws(l, draws)
    ensures var runs := (|DueSet(l.payments, now)| + ExpiryLimit(limit) - 1) / ExpiryLimit(limit);
            var out := ExpireRuns(l, limit, now, draws, runs);
            out.Ok? && Inv(out.value) && DueSet(out.value.payments, now) == {}
  {
    hide Inv, FreshDraws, DueSet, ExpireRuns;
    var n, k := |DueSet(l.payments, now)|, ExpiryLimit(limit);
    var runs := (n + k - 1) / k;
    assert (n + k - 1) == runs * k + (n + k - 1) % k;
    RunsDrain(l, limit, now, draws, runs);
  }
}
