/**
  The whole payment system: every transaction, in any order, from the empty database. The code settles
  a batch in one transaction, so it never commits an InterruptedSettle; the action stands for any
  database in which a batch was left processing, such as recovery is written for.
 */
module Machine {
  import opened Common
  import opened Entities
  import opened Ledger
  import opened LedgerInvariant
  import opened LedgerProofs
  import opened Expiry
  import opened Settlement
  import opened SettlementInvariant
  import opened SettlementRuns

  datatype Action =
    | AddPayer(id: Id, available: int64, currency: string, now: int)
    | DoAuthorize(input: AuthorizeInput, now: int, draw: Draw)
    | DoCapture(paymentId: Id, now: int, eventId: Id)
    | DoExpire(limit: int, now: int, events: Id -> Id)
    | DoSettle(run: BatchRun)
    | InterruptedSettle(run: BatchRun, k: nat)  // hypothetical: stops after k payments, the work so far kept
    | DoRecover(recovery: Recovery)

  const EMPTY: Db := Db(Ledger(map[], map[], map[], map[], [], map[]), map[], map[], map[])

  function Committed<T>(before: T, r: Result<T, Error>): T {
    if r.Ok? then r.value else before
  }

  ghost function LedgerStep(l: Ledger, merchants: map<Id, MerchantStatus>, a: Action): Ledger
    requires Keyed(l)
  {
    match a
    case AddPayer(id, available, currency, now) => Committed(l, CreatePayer(l, id, available, currency, now))
    case DoAuthorize(input, now, draw) =>
      var r := Authorize(l, merchants, input, now, draw);
      if r.Ok? then Write(l, r.value, AuthorizedEvent(draw.eventId, r.value, now)) else l
    case DoCapture(paymentId, now, eventId) =>
      var r := Capture(l, paymentId, now, eventId);
      if r.Ok? then Write(l, r.value, CapturedEvent(eventId, r.value, now)) else l
    case DoExpire(limit, now, events) => Committed(l, Expire(l, limit, now, events))
    case _ => l
  }

  /** A failed transaction is rolled back; a claim the database could not have returned does not happen. */
  ghost function Step(db: Db, merchants: map<Id, MerchantStatus>, a: Action): Db
    requires Keyed(db.ledger)
  {
    match a
    case DoSettle(run) => if PossibleClaim(db, run) then Committed(db, CreateBatch(db, run)) else db
    case InterruptedSettle(run, k) =>
      if PossibleClaim(db, run) && k <= |run.ids| then Committed(db, SettlePrefix(db, run, k)) else db
    case DoRecover(r) => Committed(db, Recover(db, r))
    case _ => db.(ledger := LedgerStep(db.ledger, merchants, a))
  }

  ghost function Run(merchants: map<Id, MerchantStatus>, actions: seq<Action>): Db {
    if actions == [] then EMPTY
    else
      var before := Run(merchants, actions[..|actions| - 1]);
      if Keyed(before.ledger) then Step(before, merchants, actions[|actions| - 1]) else before
  }

  // ----- expiry without any assumption on drawn ids -----

  ghost predicate ExpiredRows(l: Ledger, m: Ledger, list: seq<Payment>) {
    && m.payments.Keys == l.payments.Keys
    && (forall p :: p in l.payments && !Listed(list, p) ==> m.payments[p] == l.payments[p])
    && (forall p :: p in l.payments && Listed(list, p) ==> m.payments[p].status == Expired)
  }

  lemma ExpireNextRows(l: Ledger, m: Ledger, list: seq<Payment>, q: Payment, now: int, eventId: Id)
    requires ExpiredRows(l, m, list) && q.id in l.payments
    requires ExpireNext(m, q, now, eventId).Ok?
    ensures ExpiredRows(l, ExpireNext(m, q, now, eventId).value, list + [q])
  {
    forall p ensures Listed(list + [q], p) <==> Listed(list, p) || q.id == p {
      ListedLast(list, q, p);
    }
  }

  lemma ExpireNextInv(m: Ledger, q: Payment, now: int, eventId: Id)
    requires Inv(m) && q.id in m.payments && m.payments[q.id] == q && ExpireNext(m, q, now, eventId).Ok?
    ensures Inv(ExpireNext(m, q, now, eventId).value)
  {
    hide Inv;
    ExpireOneKeepsInv(m, q, now, eventId);
  }

  lemma {:induction false} ExpireListKeepsInv(l: Ledger, list: seq<Payment>, now: int, draw: Id -> Id)
    requires Inv(l) && Expirable(l, list) && ExpireList(l, list, now, draw).Ok?
    ensures Inv(ExpireList(l, list, now, draw).value)
    ensures ExpiredRows(l, ExpireList(l, list, now, draw).value, list)
    decreases |list|
  {
    hide Inv, ExpireNext;
    if list != [] {
      var n := |list| - 1;
      var q := list[n];
      ExpirablePrefix(l, list);
      ExpireListKeepsInv(l, list[..n], now, draw);
      var m := ExpireList(l, list[..n], now, draw).value;
      ExpireNextInv(m, q, now, draw(q.id));
      ExpireNextRows(l, m, list[..n], q, now, draw(q.id));
    }
  }

  lemma ExpireKeepsInv(l: Ledger, limit: int, now: int, draw: Id -> Id)
    requires Inv(l) && Keyed(l) && Expire(l, limit, now, draw).Ok?
    ensures Inv(Expire(l, limit, now, draw).value)
    ensures KeepsCaptured(l.payments, Expire(l, limit, now, draw).value.payments)
  {
    hide Inv;
    var ids := DueIds(l.payments, now, ExpiryLimit(limit));
    RowsExpirable(l, ids, now, ExpiryLimit(limit));
    ExpireListKeepsInv(l, Rows(l.payments, ids), now, draw);
    ExpiredKeepsCaptured(l, Expire(l, limit, now, draw).value, Rows(l.payments, ids));
  }

  lemma ExpiredKeepsCaptured(l: Ledger, m: Ledger, list: seq<Payment>)
    requires ExpiredRows(l, m, list) && Expirable(l, list)
    ensures KeepsCaptured(l.payments, m.payments)
  {
    forall p | p in l.payments && Listed(list, p) ensures l.payments[p].status.Authorized? {
      var q :| q in list && q.id == p;
    }
  }

  // ----- every step -----

  lemma LedgerStepKeeps(l: Ledger, merchants: map<Id, MerchantStatus>, a: Action)
    requires Inv(l) && Keyed(l)
    ensures Inv(LedgerStep(l, merchants, a))
    ensures KeepsCaptured(l.payments, LedgerStep(l, merchants, a).payments)
  {
    hide Inv;
    match a {
      case AddPayer(id, available, currency, now) => AddPayerKeeps(l, id, available, currency, now);
      case DoAuthorize(input, now, draw) => AuthorizeKeeps(l, merchants, input, now, draw);
      case DoCapture(paymentId, now, eventId) => CaptureKeeps(l, paymentId, now, eventId);
      case DoExpire(limit, now, events) =>
        if Expire(l, limit, now, events).Ok? {
          ExpireKeepsInv(l, limit, now, events);
        }
      case _ =>
    }
  }

  lemma AddPayerKeeps(l: Ledger, id: Id, available: int64, currency: string, now: int)
    requires Inv(l)
    ensures var m := Committed(l, CreatePayer(l, id, available, currency, now));
            Inv(m) && KeepsCaptured(l.payments, m.payments)
  {
    hide Inv;
    if CreatePayer(l, id, available, currency, now).Ok? {
      CreatePayerKeepsInv(l, id, available, currency, now);
    }
  }

  lemma AuthorizeKeeps(l: Ledger, merchants: map<Id, MerchantStatus>, input: AuthorizeInput, now: int, draw: Draw)
    requires Inv(l)
    ensures var r := Authorize(l, merchants, input, now, draw);
            var m := if r.Ok? then Write(l, r.value, AuthorizedEvent(draw.eventId, r.value, now)) else l;
            Inv(m) && KeepsCaptured(l.payments, m.payments)
  {
    hide Inv;
    if Authorize(l, merchants, input, now, draw).Ok? {
      AuthorizeKeepsInv(l, merchants, input, now, draw);
    }
  }

  lemma CaptureKeeps(l: Ledger, paymentId: Id, now: int, eventId: Id)
    requires Inv(l) && Keyed(l)
    ensures var r := Capture(l, paymentId, now, eventId);
            var m := if r.Ok? then Write(l, r.value, CapturedEvent(eventId, r.value, now)) else l;
            Inv(m) && KeepsCaptured(l.payments, m.payments)
  {
    hide Inv;
    if Capture(l, paymentId, now, eventId).Ok? {
      CaptureKeepsInv(l, paymentId, now, eventId);
    }
  }

  lemma StepKeepsInv(db: Db, merchants: map<Id, MerchantStatus>, a: Action)
    requires DbInv(db) && Keyed(db.ledger)
    ensures DbInv(Step(db, merchants, a))
  {
    hide Inv, SettleInv;
    match a {
      case DoSettle(run) =>
        if PossibleClaim(db, run) && CreateBatch(db, run).Ok? {
          CreateBatchEffect(db, run);
        }
      case InterruptedSettle(run, k) =>
        if PossibleClaim(db, run) && k <= |run.ids| && SettlePrefix(db, run, k).Ok? {
          SettlePrefixEffect(db, run, k);
        }
      case DoRecover(r) =>
        RecoverEffect(db, r);
      case _ =>
        LedgerStepKeeps(db.ledger, merchants, a);
        LedgerStepKeepsSettleInv(db, LedgerStep(db.ledger, merchants, a));
    }
  }

  lemma EmptyInv()
    ensures DbInv(EMPTY)
  {
    var l := EMPTY.ledger;
    assert Replay(l.opening, l.log) == BookOf(l);
    assert Logged(l) by {
      forall id: Id, kind: Kind ensures Count(l.log, id, kind) == Expected(l.payments, id, kind) {}
    }
  }

  /** Every reachable state satisfies the invariant, whatever ids were drawn and whatever failed. */
  lemma {:induction false} ReachableInv(merchants: map<Id, MerchantStatus>, actions: seq<Action>)
    ensures DbInv(Run(merchants, actions)) && Keyed(Run(merchants, actions).ledger)
    decreases |actions|
  {
    if actions == [] {
      EmptyInv();
    } else {
      var n := |actions| - 1;
      ReachableInv(merchants, actions[..n]);
      StepKeepsInv(Run(merchants, actions[..n]), merchants, actions[n]);
    }
    DbKeyed(Run(merchants, actions));
  }

  lemma DbKeyed(db: Db)
    requires DbInv(db)
    ensures Keyed(db.ledger)
  {
    hide Inv, SettleInv;
    InvKeyed(db.ledger);
  }
}
