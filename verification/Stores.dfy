/** The in-memory repositories: maps updated in place, one operation at a time. */
module Stores {
  import opened Common
  import opened Ranking
  import opened Entities
  import opened Ledger

  class PayerStore {
    var payers: map<Id, Payer>
    ghost var opening: map<Id, int64>

    constructor ()
      ensures payers == map[] && opening == map[]
    {
      payers, opening := map[], map[];
    }

    method CreatePayer(p: Payer) returns (r: Result<Payer, Error>)
      modifies this
      ensures r == if p.id in old(payers) then Err(DuplicatePayer) else Ok(p)
      ensures r.Ok? ==> payers == old(payers)[p.id := p] && opening == old(opening)[p.id := p.available]
      ensures r.Err? ==> payers == old(payers) && opening == old(opening)
    {
      if p.id in payers {
        return Err(DuplicatePayer);
      }
      payers := payers[p.id := p];
      opening := opening[p.id := p.available];
      return Ok(p);
    }

    method GetPayer(id: Id) returns (r: Result<Payer, Error>)
      ensures r == if id in payers then Ok(payers[id]) else Err(PayerNotFound)
    {
      if id !in payers {
        return Err(PayerNotFound);
      }
      return Ok(payers[id]);
    }

    /** Compare-and-set on the version: a stale writer is refused. */
    method UpdatePayer(p: Payer) returns (r: Result<Payer, Error>)
      modifies this`payers
      ensures p.id !in old(payers) ==> r == Err(PayerNotFound)
      ensures p.id in old(payers) && p.version != old(payers)[p.id].version + 1 ==> r == Err(PayerVersionConflict)
      ensures p.id in old(payers) && p.version == old(payers)[p.id].version + 1 ==> r == Ok(p)
      ensures payers == if r.Ok? then old(payers)[p.id := p] else old(payers)
    {
      if p.id !in payers {
        return Err(PayerNotFound);
      }
      if p.version != payers[p.id].version + 1 {
        return Err(PayerVersionConflict);
      }
      payers := payers[p.id := p];
      return Ok(p);
    }
  }

  class PaymentStore {
    var payments: map<Id, Payment>
    var holds: map<Id, Hold>
    var holdOf: map<Id, Id>

    constructor ()
      ensures payments == map[] && holds == map[] && holdOf == map[]
    {
      payments, holds, holdOf := map[], map[], map[];
    }

    method CreatePayment(q: Payment) returns (r: Result<Payment, Error>)
      modifies this`payments
      ensures r == if q.id in old(payments) then Err(DuplicatePayment) else Ok(q)
      ensures payments == if r.Ok? then old(payments)[q.id := q] else old(payments)
    {
      if q.id in payments {
        return Err(DuplicatePayment);
      }
      payments := payments[q.id := q];
      return Ok(q);
    }

    method GetPayment(id: Id) returns (r: Result<Payment, Error>)
      ensures r == if id in payments then Ok(payments[id]) else Err(PaymentNotFound)
    {
      if id !in payments {
        return Err(PaymentNotFound);
      }
      return Ok(payments[id]);
    }

    method UpdatePayment(q: Payment) returns (r: Result<Payment, Error>)
      modifies this`payments
      ensures r == if q.id in old(payments) then Ok(q) else Err(PaymentNotFound)
      ensures payments == if r.Ok? then old(payments)[q.id := q] else old(payments)
    {
      if q.id !in payments {
        return Err(PaymentNotFound);
      }
      payments := payments[q.id := q];
      return Ok(q);
    }

    method CreateHold(h: Hold) returns (r: Result<Hold, Error>)
      modifies this`holds, this`holdOf
      ensures r == if h.id in old(holds) || h.paymentId in old(holdOf) then Err(DuplicateHold) else Ok(h)
      ensures holds == if r.Ok? then old(holds)[h.id := h] else old(holds)
      ensures holdOf == if r.Ok? then old(holdOf)[h.paymentId := h.id] else old(holdOf)
    {
      if h.id in holds {
        return Err(DuplicateHold);
      }
      if h.paymentId in holdOf {
        return Err(DuplicateHold);
      }
      holds := holds[h.id := h];
      holdOf := holdOf[h.paymentId := h.id];
      return Ok(h);
    }

    method GetHoldByPaymentID(paymentId: Id) returns (r: Result<Hold, Error>)
      ensures r == if paymentId in holdOf && holdOf[paymentId] in holds then Ok(holds[holdOf[paymentId]])
              else Err(HoldNotFound)
    {
      if paymentId !in holdOf {
        return Err(HoldNotFound);
      }
      var holdId := holdOf[paymentId];
      if holdId !in holds {
        return Err(HoldNotFound);
      }
      return Ok(holds[holdId]);
    }

    method UpdateHold(h: Hold) returns (r: Result<Hold, Error>)
      modifies this`holds, this`holdOf
      ensures r == if h.id in old(holds) then Ok(h) else Err(HoldNotFound)
      ensures holds == if r.Ok? then old(holds)[h.id := h] else old(holds)
      ensures holdOf == if r.Ok? then old(holdOf)[h.paymentId := h.id] else old(holdOf)
    {
      if h.id !in holds {
        return Err(HoldNotFound);
      }
      holds := holds[h.id := h];
      holdOf := holdOf[h.paymentId := h.id];
      return Ok(h);
    }

    /** Filter, sort, truncate: the first due payments by (ExpiresAt, ID), or all without a positive limit. */
    method ListExpiredAuthorizedPayments(now: int, limit: int) returns (r: seq<Payment>)
      requires KeyedPayments(payments)
      ensures r == DueRows(payments, now, if limit > 0 then limit else |DueSet(payments, now)|)
      ensures FirstDue(r, payments, now, if limit > 0 then limit else |r| + 1)
    {
      hide FirstDue, DueRows;
      var results: seq<Payment> := [];
      var unread := payments.Keys;
      while unread != {}
        invariant unread <= payments.Keys
        invariant forall i :: 0 <= i < |results| ==> Filtered(results[i], payments, unread, now)
        invariant forall i, j :: 0 <= i < j < |results| ==> results[i].id != results[j].id
        invariant forall id :: id in payments && id !in unread && Due(payments[id], now) ==> payments[id] in results
        decreases unread
      {
        var id :| id in unread;
        unread := unread - {id};
        if payments[id].status.Authorized? && !(payments[id].expiresAt > now) {
          results := results + [payments[id]];
        }
      }
      forall i, j | 0 <= i < j < |results| ensures DueRank(results[i]) != DueRank(results[j]) {}
      var sorted := Sort(results, DueRank);
      r := if limit > 0 && |sorted| > limit then sorted[..limit] else sorted;
      TruncationIsFirstDue(payments, results, sorted, r, now, limit);
    }
  }

  ghost predicate Filtered(q: Payment, payments: map<Id, Payment>, unread: set<Id>, now: int) {
    q.id in payments && q.id !in unread && payments[q.id] == q && Due(q, now)
  }

  lemma TruncationIsLeast(payments: map<Id, Payment>, results: seq<Payment>, sorted: seq<Payment>, r: seq<Payment>,
                          now: int, limit: nat)
    requires KeyedPayments(payments)
    requires forall i :: 0 <= i < |results| ==> Filtered(results[i], payments, {}, now)
    requires forall i, j :: 0 <= i < j < |results| ==> results[i].id != results[j].id
    requires forall id :: id in payments && Due(payments[id], now) ==> payments[id] in results
    requires multiset(sorted) == multiset(results) && AscendingBy(sorted, DueRank)
    requires r == if |sorted| > limit then sorted[..limit] else sorted
    ensures r == DueRows(payments, now, limit)
  {
    hide IsLeastIds, Less, AscendingBy, DueSet;
    var all := seq(|sorted|, i requires 0 <= i < |sorted| => sorted[i].id);
    SortedRows(payments, results, sorted, now);
    AllDueListed(payments, results, sorted, all, now);
    SortedRanks(payments, sorted, all, now);
    var ids := all[..|r|];
    SelectsLeast(payments, all, ids, now, limit);
    LeastIdsUnique(ids, DueSet(payments, now), PaymentRank(payments), limit);
    RowsOfIds(payments, sorted, ids, now, limit);
  }

  lemma TruncationIsFirstDue(payments: map<Id, Payment>, results: seq<Payment>, sorted: seq<Payment>, r: seq<Payment>,
                             now: int, limit: int)
    requires KeyedPayments(payments)
    requires forall i :: 0 <= i < |results| ==> Filtered(results[i], payments, {}, now)
    requires forall i, j :: 0 <= i < j < |results| ==> results[i].id != results[j].id
    requires forall id :: id in payments && Due(payments[id], now) ==> payments[id] in results
    requires multiset(sorted) == multiset(results) && AscendingBy(sorted, DueRank)
    requires r == if limit > 0 && |sorted| > limit then sorted[..limit] else sorted
    ensures r == DueRows(payments, now, if limit > 0 then limit else |DueSet(payments, now)|)
    ensures FirstDue(r, payments, now, if limit > 0 then limit else |r| + 1)
  {
    hide FirstDue, DueRows, AscendingBy, Filtered, Due, DueSet;
    DueListed(payments, results, sorted, now);
    TruncationIsLeast(payments, results, sorted, r, now, if limit > 0 then limit else |sorted|);
    SelectionIsFirstDue(payments, now, if limit > 0 then limit else |sorted|);
  }

  lemma DueListed(payments: map<Id, Payment>, results: seq<Payment>, sorted: seq<Payment>, now: int)
    requires KeyedPayments(payments)
    requires forall i :: 0 <= i < |results| ==> Filtered(results[i], payments, {}, now)
    requires forall i, j :: 0 <= i < j < |results| ==> results[i].id != results[j].id
    requires forall id :: id in payments && Due(payments[id], now) ==> payments[id] in results
    requires multiset(sorted) == multiset(results) && AscendingBy(sorted, DueRank)
    ensures |sorted| == |DueSet(payments, now)|
  {
    hide Less, AscendingBy;
    var all := seq(|sorted|, i requires 0 <= i < |sorted| => sorted[i].id);
    SortedRows(payments, results, sorted, now);
    AllDueListed(payments, results, sorted, all, now);
    SortedRanks(payments, sorted, all, now);
    RanksListed(all, DueSet(payments, now), PaymentRank(payments));
  }

  lemma SortedRanks(payments: map<Id, Payment>, sorted: seq<Payment>, all: seq<Id>, now: int)
    requires forall i :: 0 <= i < |sorted| ==> Filtered(sorted[i], payments, {}, now)
    requires AscendingBy(sorted, DueRank)
    requires |all| == |sorted| && forall i :: 0 <= i < |all| ==> all[i] == sorted[i].id
    ensures forall i, j :: 0 <= i < j < |all| ==> Less(PaymentRank(payments)(all[i]), PaymentRank(payments)(all[j]))
  {
    hide Less;
    forall i, j | 0 <= i < j < |all| ensures Less(PaymentRank(payments)(all[i]), PaymentRank(payments)(all[j])) {
      assert Filtered(sorted[i], payments, {}, now) && Filtered(sorted[j], payments, {}, now);
    }
  }

  lemma RowsOfIds(payments: map<Id, Payment>, sorted: seq<Payment>, ids: seq<Id>, now: int, limit: nat)
    requires forall i :: 0 <= i < |sorted| ==> Filtered(sorted[i], payments, {}, now)
    requires |ids| == Min(|sorted|, limit) && forall i :: 0 <= i < |ids| ==> ids[i] == sorted[i].id
    ensures (forall i :: 0 <= i < |ids| ==> ids[i] in payments) && sorted[..|ids|] == Rows(payments, ids)
  {
    forall i | 0 <= i < |ids| ensures ids[i] in payments && sorted[i] == payments[ids[i]] {
      assert Filtered(sorted[i], payments, {}, now);
    }
  }

  lemma SortedRows(payments: map<Id, Payment>, results: seq<Payment>, sorted: seq<Payment>, now: int)
    requires forall i :: 0 <= i < |results| ==> Filtered(results[i], payments, {}, now)
    requires multiset(sorted) == multiset(results)
    ensures forall i :: 0 <= i < |sorted| ==> Filtered(sorted[i], payments, {}, now)
  {
    forall i | 0 <= i < |sorted| ensures Filtered(sorted[i], payments, {}, now) {
      assert sorted[i] in multiset(sorted);
      assert sorted[i] in results;
    }
  }

  lemma AllDueListed(payments: map<Id, Payment>, results: seq<Payment>, sorted: seq<Payment>, all: seq<Id>, now: int)
    requires KeyedPayments(payments)
    requires forall i :: 0 <= i < |sorted| ==> Filtered(sorted[i], payments, {}, now)
    requires forall id :: id in payments && Due(payments[id], now) ==> payments[id] in results
    requires multiset(sorted) == multiset(results)
    requires |all| == |sorted| && forall i :: 0 <= i < |all| ==> all[i] == sorted[i].id
    ensures forall id :: id in all <==> id in DueSet(payments, now)
  {
    forall id | id in DueSet(payments, now) ensures id in all {
      assert payments[id] in multiset(results);
      assert payments[id] in multiset(sorted);
      var i :| 0 <= i < |sorted| && sorted[i] == payments[id];
      assert all[i] == id;
    }
  }

  lemma SelectsLeast(payments: map<Id, Payment>, all: seq<Id>, ids: seq<Id>, now: int, limit: nat)
    requires KeyedPayments(payments)
    requires forall id :: id in all <==> id in DueSet(payments, now)
    requires forall i, j :: 0 <= i < j < |all| ==> Less(PaymentRank(payments)(all[i]), PaymentRank(payments)(all[j]))
    requires ids == all[..Min(limit, |all|)]
    ensures IsLeastIds(ids, DueSet(payments, now), PaymentRank(payments), limit)
  {
    AscendingTruncation(all, DueSet(payments, now), PaymentRank(payments), limit);
  }

  /** The outbox as the services use it: an append-only table with unique ids. */
  class EventStore {
    var log: seq<Event>

    constructor ()
      ensures log == []
    {
      log := [];
    }

    method CreateEvent(e: Event) returns (r: Result<Event, Error>)
      modifies this
      ensures r == if exists x :: x in old(log) && x.id == e.id then Err(DuplicateEvent) else Ok(e)
      ensures log == if r.Ok? then old(log) + [e] else old(log)
    {
      if exists x :: x in log && x.id == e.id {
        return Err(DuplicateEvent);
      }
      log := log + [e];
      return Ok(e);
    }
  }
}
