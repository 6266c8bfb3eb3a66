/** Sequential schedules of the worker settle every captured payment of a covered slot exactly once. */
module Coverage {
  import opened Common
  import opened Ranking
  import opened Entities
  import opened Ledger
  import opened LedgerInvariant
  import opened Expiry
  import opened Settlement
  import opened SettlementInvariant
  import opened SettlementLoop
  import opened SettlementRuns
  import opened CrashRecovery
  import opened Machine
  import opened Theorems
  import opened Windows

  function ActionTime(a: Action): int {
    match a
    case DoSettle(run) => run.now
    case InterruptedSettle(run, _) => run.now
    case DoRecover(recovery) => recovery.now
    case _ => a.now
  }

  /** The clock never goes back. */
  ghost predicate Timed(actions: seq<Action>) {
    forall i, j :: 0 <= i < j < |actions| ==> ActionTime(actions[i]) <= ActionTime(actions[j])
  }

  predicate InHand(q: Payment) {
    q.status.Captured? || q.status.Settled?
  }

  /** Payments become captured at the step's own instant and stay so, and claims are never given up. */
  ghost predicate Advances(db: Db, out: Db, now: int) {
    && db.batchOf.Keys <= out.batchOf.Keys
    && CapturesAt(db.ledger.payments, out.ledger.payments, now)
    && Retains(db.ledger.payments, out.ledger.payments)
  }

  ghost predicate Retains(before: map<Id, Payment>, after: map<Id, Payment>) {
    forall p :: p in before && InHand(before[p]) ==>
      p in after && InHand(after[p]) && CapturedAt(after[p]) == CapturedAt(before[p])
  }

  ghost predicate CapturesAt(before: map<Id, Payment>, after: map<Id, Payment>, now: int) {
    forall p :: p in after && InHand(after[p]) ==>
      CapturedAt(after[p]) == now || (p in before && InHand(before[p]) && CapturedAt(before[p]) == CapturedAt(after[p]))
  }

  lemma AdvancesTwice(db: Db, mid: Db, out: Db, now: int)
    requires Advances(db, mid, now) && Advances(mid, out, now)
    ensures Advances(db, out, now)
  {}

  lemma ExpiredCaptures(l: Ledger, m: Ledger, list: seq<Payment>, now: int)
    requires ExpiredRows(l, m, list)
    ensures CapturesAt(l.payments, m.payments, now)
  {}

  lemma KeptRetains(before: map<Id, Payment>, after: map<Id, Payment>)
    requires KeepsCaptured(before, after)
    ensures Retains(before, after)
  {}

  lemma LedgerStepCaptures(l: Ledger, merchants: map<Id, MerchantStatus>, a: Action)
    requires Inv(l) && Keyed(l)
    ensures CapturesAt(l.payments, LedgerStep(l, merchants, a).payments, ActionTime(a))
  {
    hide Inv;
    match a {
      case DoExpire(limit, now, events) =>
        if Expire(l, limit, now, events).Ok? {
          var ids := DueIds(l.payments, now, ExpiryLimit(limit));
          RowsExpirable(l, ids, now, ExpiryLimit(limit));
          ExpireListKeepsInv(l, Rows(l.payments, ids), now, events);
          ExpiredCaptures(l, Expire(l, limit, now, events).value, Rows(l.payments, ids), now);
        }
      case _ =>
    }
  }

  lemma OpenAdvances(db: Db, run: BatchRun)
    requires SettleInv(db) && PossibleClaim(db, run) && OpenBatch(db, run).Ok?
    ensures Advances(db, OpenBatch(db, run).value, run.now)
  {
    OpenBatchRows(db, run);
    var out := OpenBatch(db, run).value;
    hide OpenBatch;
    StampedCaptures(db.ledger.payments, out.ledger.payments, run.now);
  }

  lemma StampedCaptures(before: map<Id, Payment>, after: map<Id, Payment>, now: int)
    requires Stamped(before, after)
    ensures CapturesAt(before, after, now) && Retains(before, after)
  {}

  lemma SettledAdvances(db: Db, out: Db, batchId: Id, ids: seq<Id>, now: int, draws: Draws)
    requires SettledAll(db, out, ids, now, draws) && forall p :: p in ids ==> p in ClaimedSet(db, batchId)
    ensures Advances(db, out, now)
  {
    hide Drawn;
  }

  lemma PrefixAdvances(db: Db, run: BatchRun, k: nat)
    requires DbInv(db) && PossibleClaim(db, run) && k <= |run.ids| && SettlePrefix(db, run, k).Ok?
    ensures Advances(db, SettlePrefix(db, run, k).value, run.now)
  {
    hide Inv, SettleInv, Advances, SettledAll;
    SettlePrefixEffect(db, run, k);
    OpenAdvances(db, run);
    OpenedClaims(db, run);
    var open, m := OpenBatch(db, run).value, SettlePrefix(db, run, k).value;
    assert forall p :: p in run.ids[..k] ==> p in run.ids;
    SettledAdvances(open, m, run.batchId, run.ids[..k], run.now, run.draws);
    AdvancesTwice(db, open, m, run.now);
  }

  lemma RecoveredAdvances(db: Db, out: Db, batchIds: seq<Id>, now: int)
    requires Recovered(db, out, batchIds, now)
    ensures Advances(db, out, now)
  {}

  lemma StepAdvances(db: Db, merchants: map<Id, MerchantStatus>, a: Action)
    requires DbInv(db) && Keyed(db.ledger)
    ensures Advances(db, Step(db, merchants, a), ActionTime(a))
  {
    hide Inv, SettleInv;
    match a {
      case DoSettle(run) =>
        if PossibleClaim(db, run) && CreateBatch(db, run).Ok? {
          CreateBatchEffect(db, run);
          PrefixAdvances(db, run, |run.ids|);
        }
      case InterruptedSettle(run, k) =>
        if PossibleClaim(db, run) && k <= |run.ids| && SettlePrefix(db, run, k).Ok? {
          PrefixAdvances(db, run, k);
        }
      case DoRecover(r) =>
        if Recover(db, r).Ok? {
          RecoverEffect(db, r);
          RecoveredAdvances(db, Recover(db, r).value, StaleIds(db.batches, r.now, RecoveryLimit(r)), r.now);
        }
      case _ =>
        LedgerStepCaptures(db.ledger, merchants, a);
        LedgerStepKeeps(db.ledger, merchants, a);
        KeptRetains(db.ledger.payments, LedgerStep(db.ledger, merchants, a).payments);
    }
  }

  // ----- coverage -----

  /** Every payment captured in the window has been claimed by some batch. */
  ghost predicate AllClaimed(db: Db, w: Window) {
    forall p :: p in db.ledger.payments && InHand(db.ledger.payments[p])
                && w.Contains(CapturedAt(db.ledger.payments[p]))
                ==> p in db.batchOf
  }

  lemma StillAllClaimed(db: Db, out: Db, w: Window, now: int)
    requires AllClaimed(db, w) && Advances(db, out, now) && now >= w.end
    ensures AllClaimed(out, w)
  {}

  /** The run committed, having claimed the least claimable payments up to its limit. */
  ghost predicate CommittedRun(db: Db, run: BatchRun) {
    && PossibleClaim(db, run) && CreateBatch(db, run).Ok?
    && IdSet(run.ids) == IdSet(LeastIds(ClaimableSet(db, run.start, run.end), CaptureRank(db.ledger.payments),
                                        run.limit))
  }

  /** Its claim limit did not cut its claim short. */
  ghost predicate Sufficient(db: Db, run: BatchRun) {
    CommittedRun(db, run) && |ClaimableSet(db, run.start, run.end)| <= run.limit
  }

  lemma SufficientClaimsAll(db: Db, run: BatchRun)
    requires Sufficient(db, run)
    ensures IdSet(run.ids) == ClaimableSet(db, run.start, run.end)
  {
    var all := ClaimableSet(db, run.start, run.end);
    var ids := LeastIds(all, CaptureRank(db.ledger.payments), run.limit);
    FullSelection(ids, all, CaptureRank(db.ledger.payments));
  }

  lemma RunCovers(db: Db, run: BatchRun)
    requires DbInv(db) && Sufficient(db, run)
    ensures AllClaimed(CreateBatch(db, run).value, Window(run.start, run.end))
  {
    hide Inv, CreateBatch, SettlePrefix, Drawn;
    SufficientClaimsAll(db, run);
    CreateBatchEffect(db, run);
    OpenBatchRows(db, run);
    OpenedClaims(db, run);
    var open := OpenBatch(db, run).value;
    InvRows(db.ledger);
    OpenCovers(db, open, run);
    assert forall p :: p in run.ids ==> p in ClaimedSet(open, run.batchId);
    var m := SettlePrefix(db, run, |run.ids|).value;
    SettledCovers(open, m, run);
  }

  lemma OpenCovers(db: Db, open: Db, run: BatchRun)
    requires PaymentsOk(db.ledger.payments) && Stamped(db.ledger.payments, open.ledger.payments)
    requires ClaimsOk(db.ledger.payments, db.batchOf, db.batches)
    requires IdSet(run.ids) == ClaimableSet(db, run.start, run.end)
    requires open.batchOf == db.batchOf + (map p | p in IdSet(run.ids) :: run.batchId)
    ensures AllClaimed(open, Window(run.start, run.end))
  {
    forall p | p in open.ledger.payments && InHand(open.ledger.payments[p])
               && run.start <= CapturedAt(open.ledger.payments[p]) < run.end
      ensures p in open.batchOf
    {
      if p !in db.batchOf {
        assert PaymentOk(p, db.ledger.payments[p]);
        assert Claimable(db, p, run.start, run.end);
        assert p in IdSet(run.ids);
      }
    }
  }

  lemma SettledCovers(open: Db, m: Db, run: BatchRun)
    requires AllClaimed(open, Window(run.start, run.end)) && SettledAll(open, m, run.ids, run.now, run.draws)
    requires forall p :: p in run.ids ==> p in ClaimedSet(open, run.batchId)
    ensures AllClaimed(m, Window(run.start, run.end))
  {
    hide Drawn;
  }

  /** Action i is a worker's run, started in slot k + 1, that settled payments of slot k. */
  ghost predicate SettlesSlot(merchants: map<Id, MerchantStatus>, actions: seq<Action>, i: nat, startedAt: int,
                              minutes: int, k: int) {
    && minutes > 0 && i < |actions| && actions[i].DoSettle?
    && InSlot(startedAt, minutes, k + 1) && startedAt <= actions[i].run.now
    && PreviousFullWindow(startedAt, minutes) == Ok(Window(actions[i].run.start, actions[i].run.end))
    && CommittedRun(Run(merchants, actions[..i]), actions[i].run)
  }

  ghost predicate Covers(merchants: map<Id, MerchantStatus>, actions: seq<Action>, i: nat, startedAt: int,
                         minutes: int, k: int) {
    && SettlesSlot(merchants, actions, i, startedAt, minutes, k)
    && Sufficient(Run(merchants, actions[..i]), actions[i].run)
  }

  lemma {:induction false} CoverageKept(merchants: map<Id, MerchantStatus>, actions: seq<Action>, i: nat,
                                        startedAt: int, minutes: int, k: int)
    requires Timed(actions) && Covers(merchants, actions, i, startedAt, minutes, k)
    ensures AllClaimed(Run(merchants, actions), Window(actions[i].run.start, actions[i].run.end))
    decreases |actions|
  {
    hide DbInv, AllClaimed, Sufficient, CommittedRun, Step, Advances, InSlot;
    var n := |actions| - 1;
    var w := Window(actions[i].run.start, actions[i].run.end);
    ReachableInv(merchants, actions[..n]);
    var before := Run(merchants, actions[..n]);
    if i == n {
      RunIsStep(before, merchants, actions[n].run);
    } else {
      assert actions[..n][..i] == actions[..i];
      CoverageKept(merchants, actions[..n], i, startedAt, minutes, k);
      StepAdvances(before, merchants, actions[n]);
      WindowOfSlot(startedAt, minutes, k);
      StillAllClaimed(before, Step(before, merchants, actions[n]), w, ActionTime(actions[n]));
    }
  }

  lemma RunIsStep(db: Db, merchants: map<Id, MerchantStatus>, run: BatchRun)
    requires DbInv(db) && Keyed(db.ledger) && Sufficient(db, run)
    ensures AllClaimed(Step(db, merchants, DoSettle(run)), Window(run.start, run.end))
  {
    hide DbInv, AllClaimed;
    RunCovers(db, run);
  }

  // ----- without crashes, claimed means settled -----

  ghost predicate AllCompleted(db: Db) {
    forall b :: b in db.batches ==> db.batches[b].status.Completed?
  }

  ghost predicate Uninterrupted(actions: seq<Action>) {
    forall i :: 0 <= i < |actions| ==> !actions[i].InterruptedSettle?
  }

  lemma StepCompletes(db: Db, merchants: map<Id, MerchantStatus>, a: Action)
    requires DbInv(db) && Keyed(db.ledger) && AllCompleted(db) && !a.InterruptedSettle?
    ensures AllCompleted(Step(db, merchants, a))
  {
    hide Inv, SettleInv;
    match a {
      case DoSettle(run) =>
        if PossibleClaim(db, run) && CreateBatch(db, run).Ok? {
          RunCompletes(db, run);
        }
      case DoRecover(r) =>
        assert StaleSet(db.batches, r.now) == {};
        NothingStale(db, r);
      case _ =>
    }
  }

  lemma RunCompletes(db: Db, run: BatchRun)
    requires DbInv(db) && AllCompleted(db) && PossibleClaim(db, run) && CreateBatch(db, run).Ok?
    ensures AllCompleted(CreateBatch(db, run).value)
  {
    hide Inv, CreateBatch, Drawn, PaymentsSettled;
    CreateBatchEffect(db, run);
    OpenBatchRows(db, run);
  }

  lemma {:induction false} QuietRun(merchants: map<Id, MerchantStatus>, actions: seq<Action>)
    requires Uninterrupted(actions)
    ensures AllCompleted(Run(merchants, actions))
    decreases |actions|
  {
    hide DbInv, Step, AllCompleted;
    if actions == [] {
      EmptyCompleted();
    } else {
      var n := |actions| - 1;
      ReachableInv(merchants, actions[..n]);
      QuietRun(merchants, actions[..n]);
      StepCompletes(Run(merchants, actions[..n]), merchants, actions[n]);
    }
  }

  /**
    What the code itself leaves to recover: nothing. A batch is created and completed in one
    transaction, so in every run without the hypothetical interruptions a recovery changes nothing.
   */
  lemma RecoveryIdle(merchants: map<Id, MerchantStatus>, actions: seq<Action>, r: Recovery)
    requires Uninterrupted(actions)
    ensures Recover(Run(merchants, actions), r) == Ok(Run(merchants, actions))
  {
    hide Run, Recover;
    QuietRun(merchants, actions);
    assert StaleSet(Run(merchants, actions).batches, r.now) == {};
    NothingStale(Run(merchants, actions), r);
  }

  lemma EmptyCompleted()
    ensures AllCompleted(EMPTY)
  {}

  /**
    Coverage. Once a worker's run with a sufficient claim limit has settled slot k, every payment
    ever captured in slot k belongs to a batch. If the batch is complete, which it always is
    when no run was interrupted, the payment is settled and was announced as settled exactly once.
   */
  lemma SlotSettledOnce(merchants: map<Id, MerchantStatus>, actions: seq<Action>, i: nat, startedAt: int,
                        minutes: int, k: int, p: Id)
    requires Timed(actions) && Covers(merchants, actions, i, startedAt, minutes, k)
    requires p in Run(merchants, actions).ledger.payments && InHand(Run(merchants, actions).ledger.payments[p])
    requires InSlot(CapturedAt(Run(merchants, actions).ledger.payments[p]), minutes, k)
    ensures var db := Run(merchants, actions);
            && p in db.batchOf && db.batchOf[p] in db.batches
            && (Uninterrupted(actions) ==> db.batches[db.batchOf[p]].status.Completed?)
            && (db.batches[db.batchOf[p]].status.Completed? ==>
                  db.ledger.payments[p].status.Settled? && Count(db.ledger.log, p, Settlement) == 1)
  {
    hide Inv, Run, Step;
    ReachableInv(merchants, actions);
    CoverageKept(merchants, actions, i, startedAt, minutes, k);
    WindowOfSlot(startedAt, minutes, k);
    ReachableSettledOnce(merchants, actions, p);
    var db := Run(merchants, actions);
    assert Window(actions[i].run.start, actions[i].run.end).Contains(CapturedAt(db.ledger.payments[p]));
    assert ClaimFits(db.ledger.payments[p], db.batches[db.batchOf[p]]);
    if Uninterrupted(actions) {
      QuietRun(merchants, actions);
    }
  }

  // ----- payments a slot's runs leave behind -----

  /** Captured at t, and claimed by no batch. */
  predicate Unclaimed(db: Db, p: Id, t: int) {
    && p in db.ledger.payments && db.ledger.payments[p].status.Captured?
    && CapturedAt(db.ledger.payments[p]) == t && p !in db.batchOf
  }

  predicate Settling(a: Action) {
    a.DoSettle? || a.InterruptedSettle?
  }

  /** The action claims nothing captured at t. */
  predicate Misses(a: Action, t: int) {
    Settling(a) ==> !(a.run.start <= t < a.run.end)
  }

  lemma OpenClaimsWindow(db: Db, run: BatchRun, p: Id, t: int)
    requires PossibleClaim(db, run) && OpenBatch(db, run).Ok? && Unclaimed(db, p, t) && !(run.start <= t < run.end)
    ensures p !in OpenBatch(db, run).value.batchOf
  {
    forall i | 0 <= i < |run.ids| ensures run.ids[i] != p {
      assert Claimable(db, run.ids[i], run.start, run.end);
    }
  }

  lemma MissedUnclaimed(db: Db, merchants: map<Id, MerchantStatus>, a: Action, p: Id, t: int)
    requires DbInv(db) && Keyed(db.ledger) && Unclaimed(db, p, t) && Misses(a, t)
    ensures p !in Step(db, merchants, a).batchOf
  {
    hide Inv, SettleInv, PaymentsSettled, PaymentsRescued, Drawn, OpenBatch;
    match a {
      case DoSettle(run) =>
        if PossibleClaim(db, run) && CreateBatch(db, run).Ok? {
          CreateBatchEffect(db, run);
          OpenClaimsWindow(db, run, p, t);
        }
      case InterruptedSettle(run, k) =>
        if PossibleClaim(db, run) && k <= |run.ids| && SettlePrefix(db, run, k).Ok? {
          SettlePrefixEffect(db, run, k);
          OpenClaimsWindow(db, run, p, t);
        }
      case DoRecover(r) =>
        RecoverEffect(db, r);
      case _ =>
    }
  }

  lemma MissedStep(db: Db, merchants: map<Id, MerchantStatus>, a: Action, p: Id, t: int)
    requires DbInv(db) && Keyed(db.ledger) && Unclaimed(db, p, t) && Misses(a, t)
    ensures Unclaimed(Step(db, merchants, a), p, t)
  {
    hide Inv, Step;
    MissedUnclaimed(db, merchants, a, p, t);
    StepAdvances(db, merchants, a);
    StepKeepsInv(db, merchants, a);
    var out := Step(db, merchants, a);
    assert InHand(out.ledger.payments[p]);
    assert ClaimsOk(out.ledger.payments, out.batchOf, out.batches);
  }

  /** The settlements from action i on are worker runs, none of them started in slot k + 1. */
  ghost predicate NoRunFor(actions: seq<Action>, i: nat, minutes: int, k: int, startedAt: nat -> int)
    requires minutes > 0
  {
    forall j :: i <= j < |actions| && Settling(actions[j]) ==>
      && PreviousFullWindow(startedAt(j), minutes) == Ok(Window(actions[j].run.start, actions[j].run.end))
      && !InSlot(startedAt(j), minutes, k + 1)
  }

  lemma OtherSlotMisses(startedAt: int, minutes: int, k: int, t: int)
    requires minutes > 0 && InSlot(t, minutes, k) && !InSlot(startedAt, minutes, k + 1)
    ensures PreviousFullWindow(startedAt, minutes).Ok? && !PreviousFullWindow(startedAt, minutes).value.Contains(t)
  {
    WindowTurn(startedAt, minutes, t);
    SlotOf(startedAt, minutes);
    SlotOf(t, minutes);
    SlotUnique(t, minutes, k, t / (minutes * MINUTE));
  }

  /**
    Loss. A payment captured in slot k that is still unclaimed after the last run started in slot k + 1,
    because the claim limit was too small or the run was rolled back, is settled by no later worker run.
   */
  lemma {:induction false} MissedForever(merchants: map<Id, MerchantStatus>, actions: seq<Action>, i: nat,
                                         minutes: int, k: int, startedAt: nat -> int, p: Id, t: int)
    requires minutes > 0 && i <= |actions| && InSlot(t, minutes, k)
    requires Unclaimed(Run(merchants, actions[..i]), p, t) && NoRunFor(actions, i, minutes, k, startedAt)
    ensures Unclaimed(Run(merchants, actions), p, t)
    decreases |actions|
  {
    hide DbInv, Step, Unclaimed, InSlot, PreviousFullWindow;
    if i == |actions| {
      assert actions[..i] == actions;
    } else {
      var n := |actions| - 1;
      assert actions[..n][..i] == actions[..i];
      ReachableInv(merchants, actions[..n]);
      MissedForever(merchants, actions[..n], i, minutes, k, startedAt, p, t);
      if Settling(actions[n]) {
        OtherSlotMisses(startedAt(n), minutes, k, t);
      }
      MissedStep(Run(merchants, actions[..n]), merchants, actions[n], p, t);
    }
  }

  // ----- the exact condition -----

  /** The claimable payments beyond the run's limit. */
  ghost function LeftSet(db: Db, run: BatchRun): set<Id> {
    set p | p in ClaimableSet(db, run.start, run.end) && p !in run.ids
  }

  lemma LeftSize(db: Db, run: BatchRun)
    requires CommittedRun(db, run)
    ensures var n := |ClaimableSet(db, run.start, run.end)|; |LeftSet(db, run)| == n - Min(run.limit, n)
  {
    var all, rank := ClaimableSet(db, run.start, run.end), CaptureRank(db.ledger.payments);
    var ids := LeastIds(all, rank, run.limit);
    TakenSize(all, ids, rank, run.limit);
    forall p ensures p in ids <==> p in run.ids {
      assert p in IdSet(ids) <==> p in IdSet(run.ids);
    }
    assert LeftSet(db, run) == set p | p in all && p !in ids;
  }

  /** Each of them stays captured and unclaimed. */
  lemma LeftUnclaimed(db: Db, run: BatchRun, p: Id)
    requires DbInv(db) && PossibleClaim(db, run) && CreateBatch(db, run).Ok? && p in LeftSet(db, run)
    ensures Unclaimed(db, p, CapturedAt(db.ledger.payments[p]))
    ensures Unclaimed(CreateBatch(db, run).value, p, CapturedAt(db.ledger.payments[p]))
  {
    hide Inv, CreateBatch, SettlePrefix, Drawn;
    CreateBatchEffect(db, run);
    OpenBatchRows(db, run);
    assert p !in IdSet(run.ids);
    LeftInOpen(db, OpenBatch(db, run).value, run, p);
  }

  lemma LeftInOpen(db: Db, open: Db, run: BatchRun, p: Id)
    requires Stamped(db.ledger.payments, open.ledger.payments) && p in LeftSet(db, run)
    requires open.batchOf == db.batchOf + (map q | q in IdSet(run.ids) :: run.batchId)
    ensures Unclaimed(db, p, CapturedAt(db.ledger.payments[p])) && Unclaimed(open, p, CapturedAt(db.ledger.payments[p]))
  {
    assert Claimable(db, p, run.start, run.end);
  }

  /**
    A committed run leaves no captured payment of its window unclaimed if and only if no more were
    claimable than its limit.
   */
  lemma RunCoversExactly(db: Db, run: BatchRun)
    requires DbInv(db) && CommittedRun(db, run)
    ensures AllClaimed(CreateBatch(db, run).value, Window(run.start, run.end)) <==>
            |ClaimableSet(db, run.start, run.end)| <= run.limit
  {
    hide DbInv, CreateBatch;
    if |ClaimableSet(db, run.start, run.end)| <= run.limit {
      RunCovers(db, run);
    } else {
      LeftSize(db, run);
      var p :| p in LeftSet(db, run);
      LeftUnclaimed(db, run, p);
      assert Claimable(db, p, run.start, run.end);
    }
  }

  lemma LeftForever(merchants: map<Id, MerchantStatus>, actions: seq<Action>, i: nat, started: int, minutes: int,
                    k: int, startedAt: nat -> int, p: Id)
    requires SettlesSlot(merchants, actions, i, started, minutes, k) && NoRunFor(actions, i + 1, minutes, k, startedAt)
    requires p in LeftSet(Run(merchants, actions[..i]), actions[i].run)
    ensures Unclaimed(Run(merchants, actions), p, CapturedAt(Run(merchants, actions[..i]).ledger.payments[p]))
  {
    hide DbInv, CreateBatch, InSlot, PreviousFullWindow, Unclaimed;
    ReachableInv(merchants, actions[..i]);
    var db, run := Run(merchants, actions[..i]), actions[i].run;
    LeftUnclaimed(db, run, p);
    assert Claimable(db, p, run.start, run.end);
    assert actions[..i + 1][..i] == actions[..i];
    CommittedIsStep(db, merchants, run);
    WindowOfSlot(started, minutes, k);
    assert Window(run.start, run.end).Contains(CapturedAt(db.ledger.payments[p]));
    MissedForever(merchants, actions, i + 1, minutes, k, startedAt, p, CapturedAt(db.ledger.payments[p]));
  }

  lemma CommittedIsStep(db: Db, merchants: map<Id, MerchantStatus>, run: BatchRun)
    requires Keyed(db.ledger) && CommittedRun(db, run)
    ensures Step(db, merchants, DoSettle(run)) == CreateBatch(db, run).value
  {}

  /**
    Coverage, exactly. Take the last worker run started in slot k + 1. Every payment ever captured in
    slot k is claimed, for ever, if and only if that run found no more claimable payments than its limit.
   */
  lemma SlotCoveredExactly(merchants: map<Id, MerchantStatus>, actions: seq<Action>, i: nat, started: int, minutes: int,
                           k: int, startedAt: nat -> int)
    requires Timed(actions) && SettlesSlot(merchants, actions, i, started, minutes, k)
    requires NoRunFor(actions, i + 1, minutes, k, startedAt)
    ensures AllClaimed(Run(merchants, actions), Window(actions[i].run.start, actions[i].run.end)) <==>
            |ClaimableSet(Run(merchants, actions[..i]), actions[i].run.start, actions[i].run.end)|
            <= actions[i].run.limit
  {
    hide DbInv, Run, InSlot, PreviousFullWindow, Timed, NoRunFor, CreateBatch;
    var db, run := Run(merchants, actions[..i]), actions[i].run;
    if |ClaimableSet(db, run.start, run.end)| <= run.limit {
      CoverageKept(merchants, actions, i, started, minutes, k);
    } else {
      LeftSize(db, run);
      var p :| p in LeftSet(db, run);
      LeftForever(merchants, actions, i, started, minutes, k, startedAt, p);
      assert Claimable(db, p, run.start, run.end);
    }
  }

  /**
    A capture stamped in slot k that commits after the last run started in slot k + 1 is lost as well;
    this is what a clock that never goes back rules out.
   */
  lemma LateCaptureLost(merchants: map<Id, MerchantStatus>, actions: seq<Action>, i: nat, minutes: int, k: int,
                        startedAt: nat -> int)
    requires minutes > 0 && i < |actions| && actions[i].DoCapture? && InSlot(actions[i].now, minutes, k)
    requires Capture(Run(merchants, actions[..i]).ledger, actions[i].paymentId, actions[i].now, actions[i].eventId).Ok?
    requires NoRunFor(actions, i + 1, minutes, k, startedAt)
    ensures Unclaimed(Run(merchants, actions), actions[i].paymentId, actions[i].now)
  {
    hide DbInv, InSlot, PreviousFullWindow;
    ReachableInv(merchants, actions[..i]);
    assert actions[..i + 1][..i] == actions[..i];
    var a := actions[i];
    CapturedUnclaimed(Run(merchants, actions[..i]), merchants, a.paymentId, a.now, a.eventId);
    MissedForever(merchants, actions, i + 1, minutes, k, startedAt, actions[i].paymentId, actions[i].now);
  }

  lemma CapturedUnclaimed(db: Db, merchants: map<Id, MerchantStatus>, p: Id, now: int, eventId: Id)
    requires DbInv(db) && Keyed(db.ledger) && Capture(db.ledger, p, now, eventId).Ok?
    ensures Unclaimed(Step(db, merchants, DoCapture(p, now, eventId)), p, now)
  {
    hide Inv;
    assert db.ledger.payments[p].status.Authorized?;
    assert p !in db.batchOf;
  }
}
