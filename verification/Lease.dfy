/** The lease on a batch row: workers own it one at a time, and completion is final. */
module Lease {
  import opened Common
  import opened Entities
  import opened Ledger
  import opened LedgerInvariant
  import opened Settlement
  import opened SettlementInvariant
  import opened SettlementLoop
  import opened SettlementRuns
  import opened Machine

  datatype Op =
    | Start(worker: string, until: int, now: int)
    | Finish(now: int)
    | GiveUp(message: string, now: int)

  function Apply(b: Batch, op: Op): Result<Batch, Error> {
    match op
    case Start(worker, until, now) => b.StartProcessing(worker, until, now)
    case Finish(now) => b.Complete(now)
    case GiveUp(message, now) => b.Fail(message, now)
  }

  /** The stored row after a history of attempts; a failed attempt stores nothing. */
  function After(b: Batch, ops: seq<Op>): Batch {
    if ops == [] then b
    else
      var before := After(b, ops[..|ops| - 1]);
      var r := Apply(before, ops[|ops| - 1]);
      if r.Ok? then r.value else before
  }

  predicate Succeeds(b: Batch, ops: seq<Op>, i: nat) {
    i < |ops| && Apply(After(b, ops[..i]), ops[i]).Ok?
  }

  /** Attempt i made its worker the owner for [ops[i].now, ops[i].until). */
  predicate Takes(b: Batch, ops: seq<Op>, i: nat) {
    Succeeds(b, ops, i) && ops[i].Start?
  }

  predicate Ends(b: Batch, ops: seq<Op>, i: nat) {
    Succeeds(b, ops, i) && !ops[i].Start?
  }

  lemma AfterPrefix(b: Batch, ops: seq<Op>, i: nat)
    requires i < |ops|
    ensures After(b, ops[..i + 1]) ==
            var r := Apply(After(b, ops[..i]), ops[i]); if r.Ok? then r.value else After(b, ops[..i])
  {
    assert ops[..i + 1][..i] == ops[..i];
  }

  /** Until someone completes or fails the batch, its lock never moves back. */
  lemma {:induction false} LockAdvances(b: Batch, ops: seq<Op>, i: nat, j: nat)
    requires Takes(b, ops, i) && i < j <= |ops|
    requires forall m :: i < m < j ==> !Ends(b, ops, m)
    ensures var row := After(b, ops[..j]);
            row.status.Processing? && row.lockedUntil.Some? && row.lockedUntil.value >= ops[i].until
    decreases j
  {
    AfterPrefix(b, ops, j - 1);
    if i < j - 1 {
      LockAdvances(b, ops, i, j - 1);
      assert !Ends(b, ops, j - 1);
    }
  }

  /**
    Lease exclusion: two ownership intervals of one batch do not overlap, unless the batch was
    completed or failed in between. No assumption on the workers' clocks is needed.
   */
  lemma LeaseExclusion(b: Batch, ops: seq<Op>, i: nat, j: nat)
    requires Takes(b, ops, i) && Takes(b, ops, j) && i < j
    ensures ops[i].now < ops[i].until && ops[j].now < ops[j].until
    ensures ops[i].until <= ops[j].now || exists m :: i < m < j && Ends(b, ops, m)
  {
    if forall m :: i < m < j ==> !Ends(b, ops, m) {
      LockAdvances(b, ops, i, j);
    }
  }

  lemma {:induction false} CompletionIsFinal(b: Batch, ops: seq<Op>)
    requires b.status.Completed?
    ensures After(b, ops) == b
    decreases |ops|
  {
    if ops != [] {
      CompletionIsFinal(b, ops[..|ops| - 1]);
    }
  }

  /** A batch can be started exactly when it is new, failed, or processing under an expired lock. */
  lemma StartExactly(b: Batch, worker: string, until: int, now: int)
    ensures var startable := b.status == Created || b.status == BatchFailed ||
                             (b.status == Processing && b.lockedUntil.Some? && b.lockedUntil.value <= now);
            b.StartProcessing(worker, until, now) ==
            if worker == "" then Err(Invalid)
            else if !startable then Err(InvalidBatchStatus)
            else if until <= now then Err(Invalid)
            else Ok(b.(status := Processing, claimedBy := Some(worker), lockedUntil := Some(until), lastError := None,
                       updatedAt := now))
    ensures b.StartProcessing(worker, until, now).Ok? ==>
              forall other: string, at: int, later: int :: now <= at < until ==>
                b.StartProcessing(worker, until, now).value.StartProcessing(other, later, at).Err?
  {}

  // ----- completed rows in the whole system -----

  ghost predicate KeepsCompleted(batches: map<Id, Batch>, after: map<Id, Batch>) {
    forall b :: b in batches && batches[b].status.Completed? ==> b in after && after[b] == batches[b]
  }

  lemma StepKeepsCompleted(db: Db, merchants: map<Id, MerchantStatus>, a: Action)
    requires DbInv(db) && Keyed(db.ledger)
    ensures KeepsCompleted(db.batches, Step(db, merchants, a).batches)
  {
    hide Inv, SettleInv, PaymentsRescued, PaymentsSettled, Drawn;
    match a {
      case DoSettle(run) =>
        if PossibleClaim(db, run) && CreateBatch(db, run).Ok? {
          CreateBatchEffect(db, run);
          NewRowKeepsCompleted(db, run);
        }
      case InterruptedSettle(run, k) =>
        if PossibleClaim(db, run) && k <= |run.ids| && SettlePrefix(db, run, k).Ok? {
          SettlePrefixEffect(db, run, k);
          NewRowKeepsCompleted(db, run);
        }
      case DoRecover(r) =>
        if Recover(db, r).Ok? {
          RecoverEffect(db, r);
          RecoveredKeepsCompleted(db, Recover(db, r).value, StaleIds(db.batches, r.now, RecoveryLimit(r)), r.now);
        }
      case _ =>
    }
  }

  lemma NewRowKeepsCompleted(db: Db, run: BatchRun)
    requires OpenBatch(db, run).Ok?
    ensures run.batchId !in db.batches && KeepsCompleted(db.batches, OpenBatch(db, run).value.batches)
  {}

  lemma RecoveredKeepsCompleted(db: Db, out: Db, batchIds: seq<Id>, now: int)
    requires Recovered(db, out, batchIds, now) && IsStaleList(db, batchIds, now)
    ensures KeepsCompleted(db.batches, out.batches)
  {}

  ghost predicate IsStaleList(db: Db, batchIds: seq<Id>, now: int) {
    forall b :: b in batchIds ==> b in StaleSet(db.batches, now)
  }

  /** In every run of the whole system, a completed batch row never changes again. */
  lemma {:induction false} CompletedForever(merchants: map<Id, MerchantStatus>, actions: seq<Action>, i: nat, b: Id)
    requires i <= |actions|
    requires b in Run(merchants, actions[..i]).batches && Run(merchants, actions[..i]).batches[b].status.Completed?
    ensures b in Run(merchants, actions).batches
    ensures Run(merchants, actions).batches[b] == Run(merchants, actions[..i]).batches[b]
    decreases |actions|
  {
    hide DbInv, Step;
    if i == |actions| {
      assert actions[..i] == actions;
    } else {
      var n := |actions| - 1;
      assert actions[..n][..i] == actions[..i];
      ReachableInv(merchants, actions[..n]);
      CompletedForever(merchants, actions[..n], i, b);
      StepKeepsCompleted(Run(merchants, actions[..n]), merchants, actions[n]);
    }
  }
}
