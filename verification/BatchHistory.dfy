/** What one worker's batch does is a history of the interleaved system: a claim, then a publish and a mark each. */
module BatchHistory {
  import opened Common
  import opened Outbox
  import opened OutboxWorker
  import opened OutboxRuns

  /** The two steps of one claimed event. */
  function Round(w: nat, row: Row, plan: Plan): seq<Step> {
    var id := row.event.id;
    [Publish(w, plan.publish(row)), Mark(w, plan.failedAt(id) + MINUTE, plan.markedAt(id))]
  }

  function Rounds(w: nat, claimed: map<Id, Row>, ids: seq<Id>, plan: Plan): seq<Step>
    requires forall i :: 0 <= i < |ids| ==> ids[i] in claimed
  {
    if ids == [] then []
    else
      var n := |ids| - 1;
      Rounds(w, claimed, ids[..n], plan) + Round(w, claimed[ids[n]], plan)
  }

  /** The batch went through `done` events, and on to the next only if its answer could not be recorded. */
  ghost predicate Stops(claimed: map<Id, Row>, ids: seq<Id>, done: nat, plan: Plan) {
    && done <= |ids| && (forall i :: 0 <= i < |ids| ==> ids[i] in claimed)
    && (forall i :: 0 <= i < done ==> Recordable(claimed[ids[i]], plan))
    && (done < |ids| ==> !Recordable(claimed[ids[done]], plan))
  }

  function BatchSteps(w: nat, worker: string, claimed: map<Id, Row>, ids: seq<Id>, done: nat, now: int, plan: Plan)
    : seq<Step>
    requires done <= |ids| && forall i :: 0 <= i < |ids| ==> ids[i] in claimed
  {
    if ids == [] then []
    else [ClaimSome(w, worker, ids, now)] + Rounds(w, claimed, ids[..Min(done + 1, |ids|)], plan)
  }

  ghost function Continue(s: System, steps: seq<Step>): System {
    if steps == [] then s else Next(Continue(s, steps[..|steps| - 1]), steps[|steps| - 1])
  }

  lemma {:induction false} HistoryContinues(steps: seq<Step>, more: seq<Step>)
    ensures History(steps + more) == Continue(History(steps), more)
    decreases |more|
  {
    hide Next;
    if more == [] {
      assert steps + more == steps;
    } else {
      var n := |more| - 1;
      HistoryContinues(steps, more[..n]);
      assert (steps + more)[..|steps + more| - 1] == steps + more[..n];
    }
  }

  lemma {:induction false} ContinueJoin(s: System, a: seq<Step>, b: seq<Step>)
    ensures Continue(s, a + b) == Continue(Continue(s, a), b)
    decreases |b|
  {
    hide Next;
    if b == [] {
      assert a + b == a;
    } else {
      var n := |b| - 1;
      ContinueJoin(s, a, b[..n]);
      assert (a + b)[..|a + b| - 1] == a + b[..n];
    }
  }

  lemma ContinueOne(s: System, a: Step)
    ensures Continue(s, [a]) == Next(s, a)
  {
    hide Next;
    assert [a][..0] == [];
  }

  lemma ContinueTwo(s: System, a: Step, b: Step)
    ensures Continue(s, [a, b]) == Next(Next(s, a), b)
  {
    hide Next;
    ContinueOne(s, a);
    assert [a, b][..1] == [a];
  }

  predicate DeliversIn(claimed: map<Id, Row>, ids: seq<Id>, plan: Plan, id: Id) {
    id in ids && id in claimed && plan.publish(claimed[id]).Delivered?
  }

  /** Worker w, alone since s, has gone through the first k events of its claim. */
  ghost predicate Through(s: System, t: System, w: nat, claimed: map<Id, Row>, ids: seq<Id>, k: nat, plan: Plan)
    requires k <= |ids|
  {
    && t.rows == ResolveAll(claimed, ids[..k], plan)
    && t.claims == s.claims + multiset(ids)
    && t.flights == (if k == |ids| then s.flights else s.flights[w := Flight(ids[k..], None)])
    && forall id :: t.delivered[id] == s.delivered[id] + (if DeliversIn(claimed, ids[..k], plan, id) then 1 else 0)
  }

  ghost predicate Claimed(claimed: map<Id, Row>, ids: seq<Id>) {
    && Keyed(claimed)
    && (forall i :: 0 <= i < |ids| ==> ids[i] in claimed && claimed[ids[i]].status.InProgress?)
    && (forall i, j :: 0 <= i < j < |ids| ==> ids[i] != ids[j])
  }

  lemma NotYet(ids: seq<Id>, k: nat)
    requires k < |ids| && forall i, j :: 0 <= i < j < |ids| ==> ids[i] != ids[j]
    ensures ids[k] !in ids[..k] && ids[..k + 1] == ids[..k] + [ids[k]] && ids[k..][0] == ids[k]
    ensures ids[k..][1..] == ids[k + 1..]
  {}

  /** After the broker's answer, before the mark. */
  ghost predicate Answered(s: System, t: System, w: nat, claimed: map<Id, Row>, ids: seq<Id>, k: nat, plan: Plan)
    requires k < |ids| && ids[k] in claimed
  {
    && t.rows == ResolveAll(claimed, ids[..k], plan)
    && t.claims == s.claims + multiset(ids)
    && t.flights == s.flights[w := Flight(ids[k..], Some(plan.publish(claimed[ids[k]])))]
    && forall id :: t.delivered[id] == s.delivered[id] + (if DeliversIn(claimed, ids[..k + 1], plan, id) then 1 else 0)
  }

  lemma DeliversNext(claimed: map<Id, Row>, ids: seq<Id>, k: nat, plan: Plan)
    requires k < |ids| && ids[k] in claimed && ids[k] !in ids[..k] && ids[..k + 1] == ids[..k] + [ids[k]]
    ensures forall id :: DeliversIn(claimed, ids[..k + 1], plan, id) <==>
                         DeliversIn(claimed, ids[..k], plan, id)
                         || (id == ids[k] && plan.publish(claimed[id]).Delivered?)
    ensures !DeliversIn(claimed, ids[..k], plan, ids[k])
  {}

  lemma PublishRound(s: System, t: System, w: nat, claimed: map<Id, Row>, ids: seq<Id>, k: nat, plan: Plan)
    requires k < |ids| && Claimed(claimed, ids) && Through(s, t, w, claimed, ids, k, plan)
    ensures Answered(s, Next(t, Publish(w, plan.publish(claimed[ids[k]]))), w, claimed, ids, k, plan)
  {
    hide ResolveAll, DeliversIn;
    NotYet(ids, k);
    DeliversNext(claimed, ids, k, plan);
  }

  /** The interleaved system marks a row as the worker resolves it. */
  lemma MarkedIsResolved(row: Row, plan: Plan)
    requires row.status.InProgress?
    ensures var id := row.event.id;
            var marked := Marked(row, plan.publish(row), plan.failedAt(id) + MINUTE, plan.markedAt(id));
            && (marked.Ok? <==> Recordable(row, plan))
            && (marked.Ok? ==> marked.value == ResolvedRow(row, plan))
  {}

  lemma LandNext(flights: map<nat, Flight>, w: nat, ids: seq<Id>, k: nat, f: Flight)
    requires w !in flights && k < |ids| && f.queue == ids[k..] && f.queue[1..] == ids[k + 1..]
    ensures Land(flights[w := f], w) == if k + 1 == |ids| then flights else flights[w := Flight(ids[k + 1..], None)]
    ensures flights[w := f] - {w} == flights
  {
    assert flights[w := f] - {w} == flights;
  }

  lemma MarkRound(s: System, t: System, w: nat, claimed: map<Id, Row>, ids: seq<Id>, k: nat, plan: Plan)
    requires w !in s.flights && k < |ids| && Claimed(claimed, ids) && Answered(s, t, w, claimed, ids, k, plan)
    ensures var id := ids[k];
            var out := Next(t, Mark(w, plan.failedAt(id) + MINUTE, plan.markedAt(id)));
            if Recordable(claimed[id], plan) then Through(s, out, w, claimed, ids, k + 1, plan)
            else out == t.(flights := s.flights)
  {
    hide ResolveAll, DeliversIn, Marked, Land, Recordable, ResolvedRow;
    NotYet(ids, k);
    Untouched(claimed, ids[..k], ids[k], plan);
    ResolveAllUnfold(claimed, ids[..k], ids[k], plan);
    MarkedIsResolved(claimed[ids[k]], plan);
    LandNext(s.flights, w, ids, k, t.flights[w]);
  }

  /** Through every event that can be recorded, one after the other. */
  lemma {:induction false} RoundsGoThrough(s: System, t: System, w: nat, claimed: map<Id, Row>, ids: seq<Id>, k: nat,
                                           plan: Plan)
    requires w !in s.flights && k <= |ids| && Claimed(claimed, ids) && Through(s, t, w, claimed, ids, 0, plan)
    requires forall i :: 0 <= i < k ==> Recordable(claimed[ids[i]], plan)
    ensures Through(s, Continue(t, Rounds(w, claimed, ids[..k], plan)), w, claimed, ids, k, plan)
    decreases k
  {
    hide Next, Through, Answered, Recordable;
    if k == 0 {
      assert ids[..0] == [];
    } else {
      RoundsGoThrough(s, t, w, claimed, ids, k - 1, plan);
      var u := Continue(t, Rounds(w, claimed, ids[..k - 1], plan));
      OneRound(s, u, w, claimed, ids, k - 1, plan);
      RoundsUnfold(t, w, claimed, ids, k - 1, plan);
    }
  }

  lemma RoundsUnfold(t: System, w: nat, claimed: map<Id, Row>, ids: seq<Id>, k: nat, plan: Plan)
    requires k < |ids| && forall i :: 0 <= i < |ids| ==> ids[i] in claimed
    ensures Continue(t, Rounds(w, claimed, ids[..k + 1], plan))
         == Continue(Continue(t, Rounds(w, claimed, ids[..k], plan)), Round(w, claimed[ids[k]], plan))
  {
    hide Next;
    assert ids[..k + 1][..k] == ids[..k];
    ContinueJoin(t, Rounds(w, claimed, ids[..k], plan), Round(w, claimed[ids[k]], plan));
  }

  lemma OneRound(s: System, t: System, w: nat, claimed: map<Id, Row>, ids: seq<Id>, k: nat, plan: Plan)
    requires w !in s.flights && k < |ids| && Claimed(claimed, ids) && Through(s, t, w, claimed, ids, k, plan)
    ensures var out := Continue(t, Round(w, claimed[ids[k]], plan));
            if Recordable(claimed[ids[k]], plan) then Through(s, out, w, claimed, ids, k + 1, plan)
            else Ended(s, out, claimed, ids, k, plan)
  {
    hide Next, Recordable, ResolveAll;
    var id := ids[k];
    var a, b := Publish(w, plan.publish(claimed[id])), Mark(w, plan.failedAt(id) + MINUTE, plan.markedAt(id));
    PublishRound(s, t, w, claimed, ids, k, plan);
    MarkRound(s, Next(t, a), w, claimed, ids, k, plan);
    ContinueTwo(t, a, b);
    if !Recordable(claimed[id], plan) {
      NotRecorded(claimed, ids, k, plan);
    }
  }

  lemma NotRecorded(claimed: map<Id, Row>, ids: seq<Id>, k: nat, plan: Plan)
    requires k < |ids| && ids[k] in claimed && !Recordable(claimed[ids[k]], plan)
    ensures forall id :: DeliversIn(claimed, ids[..k + 1], plan, id) <==> DeliversIn(claimed, ids[..k], plan, id)
  {
    assert ids[..k + 1] == ids[..k] + [ids[k]];
  }

  /** The batch is over: its events up to `done` are resolved, and it holds none any more. */
  ghost predicate Ended(s: System, t: System, claimed: map<Id, Row>, ids: seq<Id>, done: nat, plan: Plan)
    requires done <= |ids|
  {
    && t.rows == ResolveAll(claimed, ids[..done], plan)
    && t.claims == s.claims + multiset(ids) && t.flights == s.flights
    && forall id :: t.delivered[id] == s.delivered[id] + (if DeliversIn(claimed, ids[..done], plan, id) then 1 else 0)
  }

  lemma ClaimBegins(s: System, w: nat, worker: string, ids: seq<Id>, now: int, plan: Plan)
    requires Claims(s, w, worker, ids, now)
    ensures Through(s, Next(s, ClaimSome(w, worker, ids, now)), w, ClaimAll(s.rows, ids, worker, now), ids, 0, plan)
  {
    assert ids[..0] == [] && ids[0..] == ids;
    ResolveNone(ClaimAll(s.rows, ids, worker, now), plan);
  }

  lemma ThroughAllEnds(s: System, t: System, w: nat, claimed: map<Id, Row>, ids: seq<Id>, plan: Plan)
    requires Through(s, t, w, claimed, ids, |ids|, plan)
    ensures Ended(s, t, claimed, ids, |ids|, plan)
  {}

  lemma RoundsEnd(s: System, t: System, w: nat, claimed: map<Id, Row>, ids: seq<Id>, done: nat, plan: Plan)
    requires w !in s.flights && Claimed(claimed, ids) && Through(s, t, w, claimed, ids, 0, plan)
    requires Stops(claimed, ids, done, plan)
    ensures Ended(s, Continue(t, Rounds(w, claimed, ids[..Min(done + 1, |ids|)], plan)), claimed, ids, done, plan)
  {
    hide Next, Through, Ended, Recordable, Claimed;
    RoundsGoThrough(s, t, w, claimed, ids, done, plan);
    if done < |ids| {
      OneRound(s, Continue(t, Rounds(w, claimed, ids[..done], plan)), w, claimed, ids, done, plan);
      RoundsUnfold(t, w, claimed, ids, done, plan);
    } else {
      ThroughAllEnds(s, Continue(t, Rounds(w, claimed, ids[..done], plan)), w, claimed, ids, plan);
    }
  }

  lemma NothingClaimed(s: System, worker: string, now: int, plan: Plan)
    ensures Ended(s, s, ClaimAll(s.rows, [], worker, now), [], 0, plan)
  {
    ClaimNone(s.rows, worker, now);
    ResolveNone(s.rows, plan);
  }

  lemma ClaimedOk(rows: map<Id, Row>, worker: string, now: int, size: nat)
    requires worker != "" && Keyed(rows)
    ensures var ids := ReadyIds(rows, now, size); Claimed(ClaimAll(rows, ids, worker, now), ids)
    ensures forall id :: id in ReadyIds(rows, now, size) ==> id in ReadySet(rows, now)
  {
    hide ReadySet, ClaimAll;
    var ids := ReadyIds(rows, now, size);
    SelectedReady(rows, now, size);
    ClaimedInProgress(rows, ids, worker, now);
    ClaimAllKeyed(rows, ids, worker, now);
  }

  lemma KeyedHistory(steps: seq<Step>)
    ensures Keyed(History(steps).rows)
  {
    hide History;
    HistoryInv(steps);
    var s := History(steps);
    forall id | id in s.rows ensures s.rows[id].event.id == id {
      assert RowOk(id, s.rows[id], s.claims[id], s.delivered[id]);
    }
  }

  /**
    A worker's batch, begun in any history by an instance that is not yet live, is the continuation of that
    history by BatchSteps: the same table, the same claims, a delivery for each event that ends published,
    and nothing left in flight. What holds of every history therefore holds of every worker's batch.
   */
  lemma BatchIsHistory(steps: seq<Step>, w: nat, worker: string, size: nat, now: int, plan: Plan, done: nat)
    requires w !in History(steps).flights && worker != ""
    requires var rows := History(steps).rows;
             var ids := ReadyIds(rows, now, size);
             Stops(ClaimAll(rows, ids, worker, now), ids, done, plan)
    ensures var s := History(steps);
            var ids := ReadyIds(s.rows, now, size);
            var claimed := ClaimAll(s.rows, ids, worker, now);
            var t := History(steps + BatchSteps(w, worker, claimed, ids, done, now, plan));
            && t.rows == ResolveAll(claimed, ids[..done], plan)
            && t.claims == s.claims + multiset(ids) && t.flights == s.flights
            && forall id ::
                 t.delivered[id] == s.delivered[id] + if DeliversIn(claimed, ids[..done], plan, id) then 1 else 0
  {
    hide History, Next, ClaimAll, ReadyIds, ReadySet, Stops, ResolveAll, Claimed, Through;
    var s := History(steps);
    var ids := ReadyIds(s.rows, now, size);
    var claimed := ClaimAll(s.rows, ids, worker, now);
    KeyedHistory(steps);
    ClaimedOk(s.rows, worker, now, size);
    StopsInBounds(claimed, ids, done, plan);
    HistoryContinues(steps, BatchSteps(w, worker, claimed, ids, done, now, plan));
    if ids == [] {
      NothingClaimed(s, worker, now, plan);
    } else {
      var claim := ClaimSome(w, worker, ids, now);
      DistinctClaim(claimed, ids);
      ClaimBegins(s, w, worker, ids, now, plan);
      RoundsEnd(s, Next(s, claim), w, claimed, ids, done, plan);
      ContinueOne(s, claim);
      ContinueJoin(s, [claim], Rounds(w, claimed, ids[..Min(done + 1, |ids|)], plan));
    }
  }

  lemma StopsInBounds(claimed: map<Id, Row>, ids: seq<Id>, done: nat, plan: Plan)
    requires Stops(claimed, ids, done, plan)
    ensures done <= |ids| && forall i :: 0 <= i < |ids| ==> ids[i] in claimed
  {}

  lemma DistinctClaim(claimed: map<Id, Row>, ids: seq<Id>)
    requires Claimed(claimed, ids)
    ensures forall i, j :: 0 <= i < j < |ids| ==> ids[i] != ids[j]
  {}
}
