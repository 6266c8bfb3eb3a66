/** A torn commit is never repaired: no serial run of any transactions has its database. */
module TornForever {
  import opened Common
  import opened Entities
  import opened Ledger
  import opened LedgerInvariant
  import opened Settlement
  import opened SettlementInvariant
  import opened Machine
  import opened Concurrency
  import opened TornReads

  // ----- the log only grows -----

  lemma {:induction false} ExpireListGrows(l: Ledger, list: seq<Payment>, now: int, draw: Id -> Id)
    requires ExpireList(l, list, now, draw).Ok?
    ensures l.log <= ExpireList(l, list, now, draw).value.log
    decreases |list|
  {
    if list != [] {
      ExpireListGrows(l, list[..|list| - 1], now, draw);
    }
  }

  lemma SettleOneGrows(db: Db, batchId: Id, c: Claim, now: int, itemId: Id, eventId: Id)
    requires SettleOne(db, batchId, c, now, itemId, eventId).Ok?
    ensures db.ledger.log <= SettleOne(db, batchId, c, now, itemId, eventId).value.ledger.log
  {}

  lemma {:induction false} SettleListGrows(db: Db, batchId: Id, list: seq<Claim>, now: int, draws: Draws)
    requires SettleList(db, batchId, list, now, draws).Ok?
    ensures db.ledger.log <= SettleList(db, batchId, list, now, draws).value.ledger.log
    decreases |list|
  {
    hide SettleOne;
    if list != [] {
      var n := |list| - 1;
      SettleListGrows(db, batchId, list[..n], now, draws);
      var before := SettleList(db, batchId, list[..n], now, draws).value;
      var c := list[n];
      SettleOneGrows(before, batchId, c, now, draws.item(c.paymentId), draws.event(c.paymentId));
    }
  }

  lemma PrefixGrows(db: Db, run: BatchRun, k: nat)
    requires PossibleClaim(db, run) && k <= |run.ids| && SettlePrefix(db, run, k).Ok?
    ensures db.ledger.log <= SettlePrefix(db, run, k).value.ledger.log
  {
    hide SettleList;
    var open := OpenBatch(db, run).value;
    SettleListGrows(open, run.batchId, ClaimRows(open.ledger.payments, run.ids[..k], run.batchId), run.now, run.draws);
  }

  lemma RecoverOneGrows(db: Db, batch: Batch, r: Recovery)
    requires RecoverOne(db, batch, r).Ok?
    ensures db.ledger.log <= RecoverOne(db, batch, r).value.ledger.log
  {
    hide SettleList, ListClaimed;
    var taken := Takeover(db, batch, r).value;
    var rows := ClaimRows(taken.ledger.payments, ListClaimed(taken, batch.id), batch.id);
    SettleListGrows(taken, batch.id, rows, r.now, r.draws);
  }

  lemma {:induction false} RecoverListGrows(db: Db, list: seq<Batch>, r: Recovery)
    requires RecoverList(db, list, r).Ok?
    ensures db.ledger.log <= RecoverList(db, list, r).value.ledger.log
    decreases |list|
  {
    hide RecoverOne;
    if list != [] {
      var n := |list| - 1;
      RecoverListGrows(db, list[..n], r);
      RecoverOneGrows(RecoverList(db, list[..n], r).value, list[n], r);
    }
  }

  lemma RecoverGrows(db: Db, r: Recovery)
    requires Recover(db, r).Ok?
    ensures db.ledger.log <= Recover(db, r).value.ledger.log
  {
    hide RecoverList;
    RecoverListGrows(db, BatchRows(db.batches, StaleIds(db.batches, r.now, RecoveryLimit(r))), r);
  }

  lemma LedgerStepGrows(l: Ledger, merchants: map<Id, MerchantStatus>, a: Action)
    requires Keyed(l)
    ensures l.log <= LedgerStep(l, merchants, a).log
  {
    hide Authorize, Capture, ExpireList;
    if a.DoExpire? && Expire(l, a.limit, a.now, a.events).Ok? {
      ExpireListGrows(l, DueRows(l.payments, a.now, ExpiryLimit(a.limit)), a.now, a.events);
    }
  }

  lemma StepGrows(db: Db, merchants: map<Id, MerchantStatus>, a: Action)
    requires Keyed(db.ledger)
    ensures db.ledger.log <= Step(db, merchants, a).ledger.log
  {
    hide SettlePrefix, LedgerStep, Recover;
    match a {
      case DoSettle(run) =>
        if PossibleClaim(db, run) && CreateBatch(db, run).Ok? {
          PrefixGrows(db, run, |run.ids|);
        }
      case InterruptedSettle(run, k) =>
        if PossibleClaim(db, run) && k <= |run.ids| && SettlePrefix(db, run, k).Ok? {
          PrefixGrows(db, run, k);
        }
      case DoRecover(r) =>
        if Recover(db, r).Ok? {
          RecoverGrows(db, r);
        }
      case _ =>
        LedgerStepGrows(db.ledger, merchants, a);
    }
  }

  lemma NextGrows(s: System, merchants: map<Id, MerchantStatus>, e: Turn)
    requires Keyed(s.db.ledger)
    ensures s.db.ledger.log <= Next(s, merchants, e).db.ledger.log
  {
    hide Step, CommitAuthorize, CommitCapture;
    if e.Whole? {
      StepGrows(s.db, merchants, e.action);
    }
  }

  lemma {:induction false} CountGrows(a: seq<Event>, b: seq<Event>, id: Id, kind: Kind)
    requires a <= b
    ensures Count(a, id, kind) <= Count(b, id, kind)
    decreases |b|
  {
    if |a| < |b| {
      CountGrows(a, b[..|b| - 1], id, kind);
    } else {
      assert a == b;
    }
  }

  // ----- torn commits leave two exits -----

  /** The payment of a torn commit had left the held balance already. */
  lemma TornExitsTwice(s: System, merchants: map<Id, MerchantStatus>, e: Turn)
    requires DbInv(s.db) && Keyed(s.db.ledger) && AllVouched(s, merchants) && Torn(s, e)
    ensures Count(Next(s, merchants, e).db.ledger.log, s.open[e.t].paymentId, Exit) == 2
  {
    hide Structural, Balanced, Replayed, SettleInv;
    var l, tx := s.db.ledger, s.open[e.t];
    assert Vouched(l, merchants, tx);
    assert Count(l.log, tx.paymentId, Exit) == Expected(l.payments, tx.paymentId, Exit);
    CommitAppends(l, tx);
  }

  lemma CommitAppends(l: Ledger, tx: Open)
    requires tx.OpenCapture? && Commits(l, tx) && tx.read.payment.id == tx.paymentId
    ensures Count(CommitTo(l, tx).log, tx.paymentId, Exit) == Count(l.log, tx.paymentId, Exit) + 1
  {
    assert CommitTo(l, tx).log[..|l.log|] == l.log;
  }

  ghost predicate ExitedTwice(log: seq<Event>) {
    exists p :: Count(log, p, Exit) >= 2
  }

  lemma TornExits(s: System, merchants: map<Id, MerchantStatus>, e: Turn)
    requires DbInv(s.db) && Keyed(s.db.ledger) && AllVouched(s, merchants) && Torn(s, e)
    ensures ExitedTwice(Next(s, merchants, e).db.ledger.log)
  {
    hide Next, DbInv, Keyed, AllVouched;
    TornExitsTwice(s, merchants, e);
  }

  lemma StillTwice(a: seq<Event>, b: seq<Event>)
    requires a <= b && ExitedTwice(a)
    ensures ExitedTwice(b)
  {
    var p :| Count(a, p, Exit) >= 2;
    CountGrows(a, b, p, Exit);
  }

  lemma {:induction false} TornIsForever(merchants: map<Id, MerchantStatus>, turns: seq<Turn>)
    requires !Untorn(merchants, turns)
    ensures ExitedTwice(History(merchants, turns).db.ledger.log)
    decreases |turns|
  {
    hide Next, Untorn, Torn, Keyed, DbInv, AllVouched, ExitedTwice;
    if turns == [] {
      NoneTorn(merchants);
    } else {
      var n := |turns| - 1;
      var before := History(merchants, turns[..n]);
      UntornPrefix(merchants, turns, n);
      if Untorn(merchants, turns[..n]) {
        Serializable(merchants, turns[..n]);
        TornExits(before, merchants, turns[n]);
      } else {
        TornIsForever(merchants, turns[..n]);
        if Keyed(before.db.ledger) {
          NextGrows(before, merchants, turns[n]);
          StillTwice(before.db.ledger.log, Next(before, merchants, turns[n]).db.ledger.log);
        }
      }
    }
  }

  /** No run of transactions one at a time announces two exits of one payment. */
  lemma SerialExitsOnce(merchants: map<Id, MerchantStatus>, actions: seq<Action>)
    ensures !ExitedTwice(Run(merchants, actions).ledger.log)
  {
    hide SettleInv, Structural, Balanced, Replayed;
    ReachableInv(merchants, actions);
    var l := Run(merchants, actions).ledger;
    forall p ensures Count(l.log, p, Exit) <= 1 {
      assert Count(l.log, p, Exit) == Expected(l.payments, p, Exit);
    }
  }

  /** Some order of some transactions, run one at a time, gives the database. */
  ghost predicate SomeSerial(merchants: map<Id, MerchantStatus>, db: Db) {
    exists actions :: db == Run(merchants, actions)
  }

  /**
    Serializability in any order: the database an interleaving ends in is that of some serial run, of any
    transactions in any order, if and only if no torn capture has committed.
   */
  lemma SerializableSomehow(merchants: map<Id, MerchantStatus>, turns: seq<Turn>)
    ensures SomeSerial(merchants, History(merchants, turns).db) <==> Untorn(merchants, turns)
  {
    hide History, Untorn, Run, DbInv, AllVouched, ExitedTwice, Serial;
    if Untorn(merchants, turns) {
      Serializable(merchants, turns);
      assert History(merchants, turns).db == Run(merchants, Serial(merchants, turns));
    }
    if SomeSerial(merchants, History(merchants, turns).db) {
      var actions :| History(merchants, turns).db == Run(merchants, actions);
      SerialExitsOnce(merchants, actions);
      if !Untorn(merchants, turns) {
        TornIsForever(merchants, turns);
      }
    }
  }
}
