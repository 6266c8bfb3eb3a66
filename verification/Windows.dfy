/** Settlement windows: which window a worker run settles, and the worker's run itself. */
module Windows {
  import opened Common
  import opened Ranking
  import opened Entities
  import opened Ledger
  import opened Settlement
  import opened Machine
  import opened SettlementService

  /** A half-open span of instants. */
  datatype Window = Window(start: int, end: int) {
    predicate Contains(t: int) {
      start <= t < end
    }
  }

  /** Instants are counted from the zero time, so truncation rounds down to a multiple. */
  function PreviousFullWindow(now: int, minutes: int): Result<Window, Error> {
    if minutes <= 0 then Err(InvalidSettlementWindow)
    else
      var window := minutes * MINUTE;
      var end := now - now % window;
      Ok(Window(end - window, end))
  }

  /** Slot k is the k-th window since the zero time. */
  predicate InSlot(t: int, minutes: int, k: int)
    requires minutes > 0
  {
    k * (minutes * MINUTE) <= t < (k + 1) * (minutes * MINUTE)
  }

  lemma SlotOf(t: int, minutes: int)
    requires minutes > 0
    ensures InSlot(t, minutes, t / (minutes * MINUTE))
  {
    var w := minutes * MINUTE;
    assert t == w * (t / w) + t % w;
  }

  lemma SlotOrder(minutes: int, j: int, k: int)
    requires minutes > 0
    ensures j < k ==> (j + 1) * (minutes * MINUTE) <= k * (minutes * MINUTE)
  {
    var w := minutes * MINUTE;
    if j < k {
      assert k * w - (j + 1) * w == (k - j - 1) * w;
    }
  }

  lemma SlotUnique(t: int, minutes: int, j: int, k: int)
    requires minutes > 0 && InSlot(t, minutes, j) && InSlot(t, minutes, k)
    ensures j == k
  {
    SlotOrder(minutes, j, k);
    SlotOrder(minutes, k, j);
  }

  /** A run in slot k + 1 settles exactly slot k: it ends at or before now, less than one window ago. */
  lemma WindowOfSlot(now: int, minutes: int, k: int)
    requires minutes > 0 && InSlot(now, minutes, k + 1)
    ensures PreviousFullWindow(now, minutes).Ok?
    ensures var w := PreviousFullWindow(now, minutes).value;
            && w.end <= now < w.end + minutes * MINUTE && w.start == w.end - minutes * MINUTE
            && forall t :: w.Contains(t) <==> InSlot(t, minutes, k)
  {
    var w := minutes * MINUTE;
    SlotOf(now, minutes);
    SlotUnique(now, minutes, k + 1, now / w);
    assert now - now % w == w * (k + 1) == (k + 1) * w;
    assert (k + 1) * w - w == k * w;
  }

  /** Every instant has its turn: a run settles it exactly when it comes one slot later. */
  lemma WindowTurn(now: int, minutes: int, t: int)
    requires minutes > 0
    ensures PreviousFullWindow(now, minutes).Ok?
    ensures PreviousFullWindow(now, minutes).value.Contains(t) <==>
            now / (minutes * MINUTE) == t / (minutes * MINUTE) + 1
  {
    hide PreviousFullWindow, InSlot;
    var i, k := now / (minutes * MINUTE) - 1, t / (minutes * MINUTE);
    SlotOf(now, minutes);
    WindowOfSlot(now, minutes, i);
    SlotOf(t, minutes);
    if InSlot(t, minutes, i) {
      SlotUnique(t, minutes, i, k);
    }
  }

  /** Windows of one width tile time: any two are equal or disjoint. */
  lemma WindowsTile(a: int, b: int, minutes: int)
    requires minutes > 0
    ensures PreviousFullWindow(a, minutes).Ok? && PreviousFullWindow(b, minutes).Ok?
    ensures var v, w := PreviousFullWindow(a, minutes).value, PreviousFullWindow(b, minutes).value;
            if a / (minutes * MINUTE) == b / (minutes * MINUTE) then v == w else v.end <= w.start || w.end <= v.start
  {
    EndOfWindow(a, minutes);
    EndOfWindow(b, minutes);
    hide PreviousFullWindow;
    var i, j := a / (minutes * MINUTE), b / (minutes * MINUTE);
    SlotOrder(minutes, i - 1, j - 1);
    SlotOrder(minutes, j - 1, i - 1);
  }

  lemma EndOfWindow(now: int, minutes: int)
    requires minutes > 0
    ensures var i, w := now / (minutes * MINUTE), minutes * MINUTE;
            PreviousFullWindow(now, minutes) == Ok(Window((i - 1) * w, i * w))
  {
    var w := minutes * MINUTE;
    var i := now / w;
    assert now - now % w == i * w;
    assert i * w - w == (i - 1) * w;
  }

  /** One worker process: fix the window, recover stale batches, then settle the window. */
  method RunWorker(service: Service, minutes: int, startedAt: int, recoverAt: int, createAt: int,
                   recoverDraws: Draws, batchId: Id, draws: Draws)
    returns (r: Result<Batch, Error>, ghost recovery: Recovery, ghost run: BatchRun)
    requires KeyedPayments(service.payments.payments)
    modifies service.payments`payments, service.outbox, service.store
    ensures recovery == Recovery(service.claimLimit, service.claimLimit, service.worker, service.lockTTL, recoverAt,
                                 recoverDraws)
    ensures PreviousFullWindow(startedAt, minutes).Err? ==> r.Err? && service.View() == old(service.View())
    ensures minutes <= 0 ==> r == Err(InvalidSettlementWindow)
    ensures PreviousFullWindow(startedAt, minutes).Ok? && Recover(old(service.View()), recovery).Err? ==>
              r.Err? && service.View() == old(service.View())
    ensures PreviousFullWindow(startedAt, minutes).Ok? && Recover(old(service.View()), recovery).Ok? ==>
              var window := PreviousFullWindow(startedAt, minutes).value;
              var recovered := Recover(old(service.View()), recovery).value;
              && Starts(run, window.start, window.end, createAt, batchId, service.worker, service.lockTTL)
              && run.end == startedAt - startedAt % (minutes * 60_000_000_000)
              && run.start == run.end - minutes * 60_000_000_000
              && run.draws == draws && PossibleClaim(recovered, run)
              && FirstCaptured(IdSet(run.ids), recovered, run.start, run.end, service.claimLimit)
              && IdSet(run.ids) == IdSet(LeastIds(ClaimableSet(recovered, window.start, window.end),
                                                  CaptureRank(recovered.ledger.payments), service.claimLimit))
              && service.View() == Committed(recovered, CreateBatch(recovered, run))
              && (r.Ok? ==> r.value == Batch(batchId, Completed, run.start, run.end, Some(service.worker), None,
                                             Some(createAt), None, createAt, createAt))
  {
    recovery := Recovery(service.claimLimit, service.claimLimit, service.worker, service.lockTTL, recoverAt,
                         recoverDraws);
    run := BatchRun(batchId, 0, 0, 0, "", 0, createAt, [], draws);
    var window := PreviousFullWindow(startedAt, minutes);
    match window {
      case Err(e) => return Err(e), recovery, run;
      case Ok(w) =>
        var recovered := service.RecoverStaleBatches(service.claimLimit, recoverAt, recoverDraws);
        if recovered.Err? {
          return Err(recovered.error), recovery, run;
        }
        var created;
        created, run := service.CreateBatch(w.start, w.end, createAt, batchId, draws);
        match created {
          case Err(e) => r := Err(e);
          case Ok(done) => r := Ok(done.0);
        }
    }
  }
}
