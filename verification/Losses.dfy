/** A concrete payment that no worker run ever settles. */
module Losses {
  import opened Common
  import opened Ranking
  import opened Ledger
  import opened LedgerInvariant
  import opened Settlement
  import opened SettlementInvariant
  import opened SettlementLoop
  import opened CrashRecovery
  import opened Machine
  import opened Theorems
  import opened Windows
  import opened Coverage
  import opened Scenario

  /** Two payments, authorized and captured at the first instant. */
  const CAPTURED: seq<Action> := [
    Opening(), Paying("p", "h", "e"), Paying("q", "i", "f"), DoCapture("p", 0, "a"), DoCapture("q", 0, "b")]

  /** The worker's run one minute later, with a claim limit of one payment. */
  function LimitedRun(): BatchRun {
    BatchRun("batch", 0, MINUTE, 1, "worker", 1, MINUTE, ["p"], Draws(p => "item " + p, p => "settled " + p))
  }

  lemma LedgerRun(actions: seq<Action>, a: Action, l: Ledger)
    requires Keyed(l) && Run(MERCHANTS, actions) == EMPTY.(ledger := l) && IsLedgerAction(a)
    ensures Run(MERCHANTS, actions + [a]) == EMPTY.(ledger := LedgerStep(l, MERCHANTS, a))
  {
    hide LedgerStep;
    assert (actions + [a])[..|actions|] == actions;
  }

  lemma CapturingWorks(l: Ledger, p: Id, e: Id)
    requires Inv(l) && Keyed(l) && p in l.payments && l.payments[p].status.Authorized? && l.payments[p].expiresAt >= 0
    requires FreshEvent(l, e)
    ensures var m := LedgerStep(l, MERCHANTS, DoCapture(p, 0, e));
            && Keyed(m) && p in m.payments && m.payments == l.payments[p := m.payments[p]]
            && m.payments[p].status.Captured? && m.payments[p].capturedAt == Some(0)
            && (forall x :: x != e && FreshEvent(l, x) ==> FreshEvent(m, x))
  {
    hide Inv;
    CaptureOrExpire(l, p, 0, e);
  }

  /** Both payments captured at 0, and nothing else in the settlement tables. */
  ghost predicate TwoCaptured(l: Ledger) {
    && l.payments.Keys == {"p", "q"}
    && (forall p :: p in l.payments ==> l.payments[p].status.Captured? && l.payments[p].capturedAt == Some(0))
    && (forall x: Id :: FreshEvent(l, "settled " + x))
  }

  lemma PaidBoth(l: Ledger, one: Ledger, two: Ledger)
    requires Keyed(l) && Purse(l, 2, 0) && l.payments == map[] && l.holds == map[] && l.holdOf == map[] && l.log == []
    requires one == LedgerStep(l, MERCHANTS, Paying("p", "h", "e"))
    requires two == LedgerStep(one, MERCHANTS, Paying("q", "i", "f"))
    ensures Keyed(one) && Keyed(two) && two.payments.Keys == {"p", "q"}
    ensures forall p :: p in two.payments ==> two.payments[p].status.Authorized? && two.payments[p].expiresAt >= 0
    ensures forall x :: x !in ["e", "f"] ==> FreshEvent(two, x)
  {
    assert forall x :: FreshEvent(l, x);
    hide LedgerStep, Keyed, FreshEvent, Paying, Purse;
    PayingWorks(l, "p", "h", "e", 2, 0);
    PayingWorks(one, "q", "i", "f", 1, 1);
  }

  lemma CapturedBoth(l: Ledger, one: Ledger, two: Ledger)
    requires Inv(l) && Keyed(l) && l.payments.Keys == {"p", "q"}
    requires forall p :: p in l.payments ==> l.payments[p].status.Authorized? && l.payments[p].expiresAt >= 0
    requires forall x :: x !in ["e", "f"] ==> FreshEvent(l, x)
    requires one == LedgerStep(l, MERCHANTS, DoCapture("p", 0, "a")) && Inv(one) && Keyed(one)
    requires two == LedgerStep(one, MERCHANTS, DoCapture("q", 0, "b"))
    ensures Keyed(two) && TwoCaptured(two)
  {
    hide Inv, LedgerStep, Keyed, FreshEvent;
    CapturingWorks(l, "p", "a");
    CapturingWorks(one, "q", "b");
    forall x: Id ensures FreshEvent(two, "settled " + x) {
      assert ("settled " + x)[0] == 's';
    }
  }

  lemma CapturedRun()
    ensures Run(MERCHANTS, CAPTURED) == EMPTY.(ledger := Run(MERCHANTS, CAPTURED).ledger)
    ensures TwoCaptured(Run(MERCHANTS, CAPTURED).ledger)
    ensures DbInv(Run(MERCHANTS, CAPTURED)) && Keyed(Run(MERCHANTS, CAPTURED).ledger)
  {
    var s := CAPTURED;
    assert s[..0] == [] && s[..1] == s[..0] + [s[0]] && s[..2] == s[..1] + [s[1]] && s[..3] == s[..2] + [s[2]];
    assert s[..4] == s[..3] + [s[3]] && s == s[..4] + [s[4]];
    OpeningWorks();
    assert Run(MERCHANTS, s[..0]) == EMPTY.(ledger := EMPTY.ledger);
    hide Run, LedgerStep, Inv, SettleInv, Keyed, Opening, Paying, Purse, FreshEvent, TwoCaptured;
    var a := LedgerStep(EMPTY.ledger, MERCHANTS, s[0]);
    LedgerRun(s[..0], s[0], EMPTY.ledger);
    var b := LedgerStep(a, MERCHANTS, s[1]);
    var c := LedgerStep(b, MERCHANTS, s[2]);
    PaidBoth(a, b, c);
    LedgerRun(s[..1], s[1], a);
    LedgerRun(s[..2], s[2], b);
    ReachableInv(MERCHANTS, s[..3]);
    var d := LedgerStep(c, MERCHANTS, s[3]);
    LedgerRun(s[..3], s[3], c);
    ReachableInv(MERCHANTS, s[..4]);
    CapturedBoth(c, d, LedgerStep(d, MERCHANTS, s[4]));
    LedgerRun(s[..4], s[4], d);
    ReachableInv(MERCHANTS, s);
  }

  lemma BothClaimable(db: Db)
    requires db == EMPTY.(ledger := db.ledger) && TwoCaptured(db.ledger)
    ensures ClaimableSet(db, 0, MINUTE) == {"p", "q"} && PossibleClaim(db, LimitedRun())
    ensures LeftSet(db, LimitedRun()) == {"q"}
  {
    assert Claimable(db, "p", 0, MINUTE) && Claimable(db, "q", 0, MINUTE);
  }

  lemma LimitedCommits(db: Db)
    requires DbInv(db) && db == EMPTY.(ledger := db.ledger) && TwoCaptured(db.ledger)
    ensures CommittedRun(db, LimitedRun()) && "q" in LeftSet(db, LimitedRun())
    ensures |ClaimableSet(db, 0, MINUTE)| == 2
  {
    hide DbInv;
    BothClaimable(db);
    LeastIsP(db);
    LimitedFresh(db);
    LimitedOpens(db);
    hide ClaimableSet, PossibleClaim, OpenBatch, FreshSettle, CreateBatch, SettlePrefix, LeftSet, CaptureRank;
    hide TwoCaptured;
    Interruption(db, LimitedRun(), 0);
  }

  lemma LeastIsP(db: Db)
    requires ClaimableSet(db, 0, MINUTE) == {"p", "q"} && TwoCaptured(db.ledger)
    ensures LeastIds(ClaimableSet(db, 0, MINUTE), CaptureRank(db.ledger.payments), 1) == ["p"]
  {
    var rank := CaptureRank(db.ledger.payments);
    assert IdLess("p", "q") && Less(rank("p"), rank("q"));
    LeastIdsUnique(["p"], {"p", "q"}, rank, 1);
  }

  lemma LimitedFresh(db: Db)
    requires db == EMPTY.(ledger := db.ledger) && TwoCaptured(db.ledger)
    ensures FreshSettle(db, LimitedRun().draws, IdSet(LimitedRun().ids))
  {
    forall p: Id, q: Id | p != q ensures "item " + p != "item " + q && "settled " + p != "settled " + q {
      assert ("item " + p)[5..] == p && ("item " + q)[5..] == q;
      assert ("settled " + p)[8..] == p && ("settled " + q)[8..] == q;
    }
  }

  lemma LimitedOpens(db: Db)
    requires db == EMPTY.(ledger := db.ledger)
    ensures OpenBatch(db, LimitedRun()).Ok?
  {}

  /**
    The loss. Two payments are captured in slot 0, and the one run started in slot 1 claims one of
    them: no worker run started in any other slot ever settles the other.
   */
  lemma LossExists(more: seq<Action>, startedAt: nat -> int)
    requires NoRunFor(CAPTURED + [DoSettle(LimitedRun())] + more, |CAPTURED| + 1, 1, 0, startedAt)
    ensures SettlesSlot(MERCHANTS, CAPTURED + [DoSettle(LimitedRun())] + more, |CAPTURED|, MINUTE, 1, 0)
    ensures Unclaimed(Run(MERCHANTS, CAPTURED + [DoSettle(LimitedRun())] + more), "q", 0)
  {
    var actions := CAPTURED + [DoSettle(LimitedRun())] + more;
    var n := |CAPTURED|;
    assert actions[..n] == CAPTURED && actions[n] == DoSettle(LimitedRun());
    CapturedRun();
    var db := Run(MERCHANTS, CAPTURED);
    LimitedCommits(db);
    WindowOfSlot(MINUTE, 1, 0);
    EndOfWindow(MINUTE, 1);
    hide Run, DbInv, CommittedRun, LeftSet, NoRunFor, Keyed;
    LeftForever(MERCHANTS, actions, n, MINUTE, 1, 0, startedAt, "q");
    QCapturedAtZero(db);
  }

  lemma QCapturedAtZero(db: Db)
    requires TwoCaptured(db.ledger)
    ensures "q" in db.ledger.payments && CapturedAt(db.ledger.payments["q"]) == 0
  {}
}
