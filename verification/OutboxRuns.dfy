/** Any number of outbox workers, interleaved step by step, and crashing at any moment. */
module OutboxRuns {
  import opened Common
  import opened Outbox
  import opened OutboxWorker
  import Ledger
  import SettlementInvariant
  import opened LedgerInvariant
  import opened Machine

  /** A live worker instance's claimed events, and the broker's answer to the first if it has one. */
  datatype Flight = Flight(queue: seq<Id>, answer: Option<Answer>)

  /** The table, the live instances, and two histories: every claim and every successful publish. */
  datatype System = System(rows: map<Id, Row>, flights: map<nat, Flight>, claims: multiset<Id>, delivered: multiset<Id>)

  datatype Step =
    | Create(event: Ledger.Event)
    | ClaimSome(w: nat, worker: string, ids: seq<Id>, now: int)  // any subset: others' locked rows are skipped
    | Publish(w: nat, answer: Answer)
    | Mark(w: nat, next: int, now: int)
    | Crash(w: nat)

  ghost predicate Claims(s: System, w: nat, worker: string, ids: seq<Id>, now: int) {
    && w !in s.flights && worker != "" && ids != []
    && (forall i :: 0 <= i < |ids| ==> ids[i] in ReadySet(s.rows, now))
    && (forall i, j :: 0 <= i < j < |ids| ==> ids[i] != ids[j])
  }

  function Marked(row: Row, answer: Answer, next: int, now: int): Result<Row, Outbox.Error> {
    match answer
    case Delivered => row.MarkPublished(now)
    case Rejected(message) => row.MarkFailed(message, next, now)
  }

  function Land(flights: map<nat, Flight>, w: nat): map<nat, Flight>
    requires w in flights && flights[w].queue != []
  {
    var rest := flights[w].queue[1..];
    if rest == [] then flights - {w} else flights[w := Flight(rest, None)]
  }

  ghost function Next(s: System, step: Step): System {
    match step
    case Create(event) =>
      if event.id in s.rows then s else s.(rows := s.rows[event.id := NewRow(event)])
    case ClaimSome(w, worker, ids, now) =>
      if Claims(s, w, worker, ids, now)
      then s.(rows := ClaimAll(s.rows, ids, worker, now), flights := s.flights[w := Flight(ids, None)],
              claims := s.claims + multiset(ids))
      else s
    case Publish(w, answer) =>
      if w in s.flights && s.flights[w].answer == None && s.flights[w].queue != []
      then s.(flights := s.flights[w := s.flights[w].(answer := Some(answer))],
              delivered := if answer.Delivered? then s.delivered + multiset{s.flights[w].queue[0]} else s.delivered)
      else s
    case Mark(w, next, now) =>
      if w in s.flights && s.flights[w].answer.Some? && s.flights[w].queue != [] && s.flights[w].queue[0] in s.rows then
        var id := s.flights[w].queue[0];
        var r := Marked(s.rows[id], s.flights[w].answer.value, next, now);
        if r.Ok? then s.(rows := s.rows[id := r.value], flights := Land(s.flights, w))
        else s.(flights := s.flights - {w})  // the batch stops with an error
      else s
    case Crash(w) => s.(flights := s.flights - {w})
  }

  const FRESH: System := System(map[], map[], multiset{}, multiset{})

  ghost function History(steps: seq<Step>): System {
    if steps == [] then FRESH else Next(History(steps[..|steps| - 1]), steps[|steps| - 1])
  }

  // ----- the invariant -----

  predicate RowOk(id: Id, row: Row, claims: nat, delivered: nat) {
    && row.event.id == id && row.attempts == claims
    && match row.status {
         case Pending => delivered == 0
         case Failed => delivered == 0
         case InProgress => delivered <= 1
         case Published => delivered == 1
       }
  }

  ghost predicate RowsOk(s: System) {
    && (forall id :: id in s.rows ==> RowOk(id, s.rows[id], s.claims[id], s.delivered[id]))
    && (forall id :: id in s.claims || id in s.delivered ==> id in s.rows)
  }

  /** The events of a flight are in progress; only the first can have been delivered. */
  ghost predicate FlightOk(rows: map<Id, Row>, delivered: multiset<Id>, f: Flight) {
    && f.queue != []
    && (forall i :: 0 <= i < |f.queue| ==> f.queue[i] in rows && rows[f.queue[i]].status.InProgress?)
    && (forall i, j :: 0 <= i < j < |f.queue| ==> f.queue[i] != f.queue[j])
    && delivered[f.queue[0]] == (if f.answer == Some(Delivered) then 1 else 0)
    && (forall i :: 0 < i < |f.queue| ==> delivered[f.queue[i]] == 0)
  }

  ghost predicate Apart(f: Flight, g: Flight) {
    forall id :: id in f.queue ==> id !in g.queue
  }

  ghost predicate FlightsApart(flights: map<nat, Flight>) {
    forall v, w :: v in flights && w in flights && v != w ==> Apart(flights[v], flights[w])
  }

  ghost predicate FlightsOk(s: System) {
    forall w :: w in s.flights ==> FlightOk(s.rows, s.delivered, s.flights[w])
  }

  ghost predicate SysInv(s: System) {
    RowsOk(s) && FlightsOk(s) && FlightsApart(s.flights)
  }

  lemma CreateKeeps(s: System, e: Ledger.Event)
    requires SysInv(s)
    ensures SysInv(Next(s, Create(e)))
  {
    if e.id !in s.rows {
      var out := Next(s, Create(e));
      forall w | w in s.flights ensures FlightOk(out.rows, out.delivered, s.flights[w]) {
        assert FlightOk(s.rows, s.delivered, s.flights[w]);
      }
    }
  }

  lemma {:induction false} DistinctCounts(ids: seq<Id>)
    requires forall i, j :: 0 <= i < j < |ids| ==> ids[i] != ids[j]
    ensures forall id :: multiset(ids)[id] == if id in ids then 1 else 0
  {
    if ids != [] {
      var n := |ids| - 1;
      DistinctCounts(ids[..n]);
      assert ids == ids[..n] + [ids[n]];
    }
  }

  lemma ClaimRows(s: System, w: nat, worker: string, ids: seq<Id>, now: int)
    requires RowsOk(s) && Claims(s, w, worker, ids, now)
    ensures RowsOk(Next(s, ClaimSome(w, worker, ids, now)))
  {
    DistinctCounts(ids);
    forall id | id in ids ensures id in ReadySet(s.rows, now) {}
    var out := Next(s, ClaimSome(w, worker, ids, now));
    forall id | id in out.rows ensures RowOk(id, out.rows[id], out.claims[id], out.delivered[id]) {
      assert RowOk(id, s.rows[id], s.claims[id], s.delivered[id]);
    }
  }

  lemma ClaimedApart(s: System, ids: seq<Id>, now: int, v: nat)
    requires FlightsOk(s) && v in s.flights && forall i :: 0 <= i < |ids| ==> ids[i] in ReadySet(s.rows, now)
    ensures Apart(s.flights[v], Flight(ids, None)) && Apart(Flight(ids, None), s.flights[v])
  {
    assert FlightOk(s.rows, s.delivered, s.flights[v]);
    forall id | id in ids ensures id in s.rows && Ready(s.rows[id], now) {
      assert id in ReadySet(s.rows, now);
    }
  }

  /** Events in flight are not ready, so a claim passes them by. */
  lemma ClaimPasses(s: System, ids: seq<Id>, worker: string, now: int, f: Flight)
    requires FlightOk(s.rows, s.delivered, f) && Apart(f, Flight(ids, None))
    ensures FlightOk(ClaimAll(s.rows, ids, worker, now), s.delivered, f)
  {
    forall i | 0 <= i < |f.queue| ensures f.queue[i] !in ids {}
  }

  lemma ClaimTakes(s: System, w: nat, worker: string, ids: seq<Id>, now: int)
    requires RowsOk(s) && Claims(s, w, worker, ids, now)
    ensures FlightOk(ClaimAll(s.rows, ids, worker, now), s.delivered, Flight(ids, None))
  {
    forall i | 0 <= i < |ids| ensures ids[i] in s.rows && Ready(s.rows[ids[i]], now) && s.delivered[ids[i]] == 0 {
      assert ids[i] in ReadySet(s.rows, now);
      assert RowOk(ids[i], s.rows[ids[i]], s.claims[ids[i]], s.delivered[ids[i]]);
    }
  }

  lemma ClaimFlights(s: System, w: nat, worker: string, ids: seq<Id>, now: int)
    requires SysInv(s) && Claims(s, w, worker, ids, now)
    ensures FlightsOk(Next(s, ClaimSome(w, worker, ids, now)))
    ensures FlightsApart(Next(s, ClaimSome(w, worker, ids, now)).flights)
  {
    hide RowsOk, FlightOk, ClaimAll, Apart;
    var out := Next(s, ClaimSome(w, worker, ids, now));
    forall v | v in s.flights ensures Apart(s.flights[v], Flight(ids, None)) && Apart(Flight(ids, None), s.flights[v]) {
      ClaimedApart(s, ids, now, v);
    }
    ClaimTakes(s, w, worker, ids, now);
    forall v | v in out.flights ensures FlightOk(out.rows, out.delivered, out.flights[v]) {
      if v != w {
        ClaimPasses(s, ids, worker, now, s.flights[v]);
      }
    }
  }

  /** A change to another event's row or history leaves a flight alone. */
  lemma FlightElsewhere(s: System, out: System, f: Flight, id: Id)
    requires FlightOk(s.rows, s.delivered, f) && id !in f.queue
    requires forall x :: x in s.rows && x != id ==> x in out.rows && out.rows[x] == s.rows[x]
    requires forall x :: x != id ==> out.delivered[x] == s.delivered[x]
    ensures FlightOk(out.rows, out.delivered, f)
  {
    forall i | 0 <= i < |f.queue| ensures f.queue[i] != id {}
  }

  lemma FlightAnswered(s: System, f: Flight, answer: Answer)
    requires FlightOk(s.rows, s.delivered, f) && f.answer == None
    ensures FlightOk(s.rows, if answer.Delivered? then s.delivered + multiset{f.queue[0]} else s.delivered,
                     f.(answer := Some(answer)))
  {}

  lemma PublishKeeps(s: System, w: nat, answer: Answer)
    requires SysInv(s)
    ensures SysInv(Next(s, Publish(w, answer)))
  {
    if w in s.flights && s.flights[w].answer == None && s.flights[w].queue != [] {
      PublishRows(s, w, answer);
      PublishFlights(s, w, answer);
      PublishApart(s, w, answer);
    }
  }

  lemma PublishRows(s: System, w: nat, answer: Answer)
    requires RowsOk(s) && FlightsOk(s) && w in s.flights && s.flights[w].answer == None
    ensures RowsOk(Next(s, Publish(w, answer)))
  {
    assert FlightOk(s.rows, s.delivered, s.flights[w]);
    var id := s.flights[w].queue[0];
    assert RowOk(id, s.rows[id], s.claims[id], s.delivered[id]);
  }

  lemma PublishFlights(s: System, w: nat, answer: Answer)
    requires FlightsOk(s) && FlightsApart(s.flights) && w in s.flights && s.flights[w].answer == None
    ensures FlightsOk(Next(s, Publish(w, answer)))
  {
    var out := Next(s, Publish(w, answer));
    assert FlightOk(s.rows, s.delivered, s.flights[w]);
    forall v | v in out.flights ensures FlightOk(out.rows, out.delivered, out.flights[v]) {
      if v == w {
        FlightAnswered(s, s.flights[w], answer);
      } else {
        assert Apart(s.flights[w], s.flights[v]);
        FlightElsewhere(s, out, s.flights[v], s.flights[w].queue[0]);
      }
    }
  }

  lemma PublishApart(s: System, w: nat, answer: Answer)
    requires FlightsApart(s.flights)
    ensures FlightsApart(Next(s, Publish(w, answer)).flights)
  {
    var out := Next(s, Publish(w, answer));
    forall x, y | x in out.flights && y in out.flights && x != y ensures Apart(out.flights[x], out.flights[y]) {
      assert Apart(s.flights[x], s.flights[y]);
    }
  }

  lemma DropKeeps(s: System, w: nat)
    requires SysInv(s)
    ensures SysInv(s.(flights := s.flights - {w}))
  {}

  lemma MarkRows(s: System, w: nat, next: int, now: int)
    requires SysInv(s) && w in s.flights && s.flights[w].answer.Some?
    ensures s.flights[w].queue != [] && s.flights[w].queue[0] in s.rows
    ensures Marked(s.rows[s.flights[w].queue[0]], s.flights[w].answer.value, next, now).Err? <==>
            s.flights[w].answer == Some(Rejected(""))
    ensures RowsOk(Next(s, Mark(w, next, now)))
  {
    assert FlightOk(s.rows, s.delivered, s.flights[w]);
    var id := s.flights[w].queue[0];
    var out := Next(s, Mark(w, next, now));
    forall x | x in out.rows ensures RowOk(x, out.rows[x], out.claims[x], out.delivered[x]) {
      assert RowOk(x, s.rows[x], s.claims[x], s.delivered[x]);
    }
  }

  lemma FlightRest(s: System, f: Flight, row: Row)
    requires FlightOk(s.rows, s.delivered, f) && |f.queue| > 1
    ensures FlightOk(s.rows[f.queue[0] := row], s.delivered, Flight(f.queue[1..], None))
  {}

  lemma LandFlights(s: System, w: nat, row: Row)
    requires FlightsOk(s) && FlightsApart(s.flights) && w in s.flights && s.flights[w].queue != []
    ensures FlightsOk(s.(rows := s.rows[s.flights[w].queue[0] := row], flights := Land(s.flights, w)))
  {
    var id := s.flights[w].queue[0];
    var out := s.(rows := s.rows[id := row], flights := Land(s.flights, w));
    forall v | v in out.flights ensures FlightOk(out.rows, out.delivered, out.flights[v]) {
      assert FlightOk(s.rows, s.delivered, s.flights[v]);
      if v == w {
        FlightRest(s, s.flights[w], row);
      } else {
        assert Apart(s.flights[w], s.flights[v]);
        FlightElsewhere(s, out, s.flights[v], id);
      }
    }
  }

  lemma LandApart(flights: map<nat, Flight>, w: nat)
    requires FlightsApart(flights) && w in flights && flights[w].queue != []
    ensures FlightsApart(Land(flights, w))
  {
    var out := Land(flights, w);
    forall x, y | x in out && y in out && x != y ensures Apart(out[x], out[y]) {
      assert Apart(flights[x], flights[y]);
    }
  }

  lemma MarkKeeps(s: System, w: nat, next: int, now: int)
    requires SysInv(s)
    ensures SysInv(Next(s, Mark(w, next, now)))
  {
    if w in s.flights && s.flights[w].answer.Some? {
      hide RowsOk, FlightsOk, FlightsApart, Land;
      MarkRows(s, w, next, now);
      var id := s.flights[w].queue[0];
      var r := Marked(s.rows[id], s.flights[w].answer.value, next, now);
      if r.Ok? {
        LandFlights(s, w, r.value);
        LandApart(s.flights, w);
      } else {
        DropKeeps(s, w);
      }
    }
  }

  lemma {:induction false} HistoryInv(steps: seq<Step>)
    ensures SysInv(History(steps))
    decreases |steps|
  {
    hide RowsOk, FlightsOk, FlightsApart, Next;
    if steps == [] {
      FreshInv();
    } else {
      var n := |steps| - 1;
      HistoryInv(steps[..n]);
      NextInv(History(steps[..n]), steps[n]);
    }
  }

  lemma FreshInv()
    ensures SysInv(FRESH)
  {}

  lemma NextInv(s: System, step: Step)
    requires SysInv(s)
    ensures SysInv(Next(s, step))
  {
    match step {
      case Create(e) => CreateKeeps(s, e);
      case ClaimSome(w, worker, ids, now) =>
        if Claims(s, w, worker, ids, now) {
          ClaimRows(s, w, worker, ids, now);
          ClaimFlights(s, w, worker, ids, now);
        }
      case Publish(w, answer) => PublishKeeps(s, w, answer);
      case Mark(w, next, now) => MarkKeeps(s, w, next, now);
      case Crash(w) => DropKeeps(s, w);
    }
  }

  // ----- what every history promises -----

  lemma HeldOnce(flights: map<nat, Flight>, id: Id)
    requires FlightsApart(flights)
    ensures forall v, w :: v in flights && w in flights && id in flights[v].queue && id in flights[w].queue ==> v == w
  {}

  /**
    No event is delivered successfully twice; a published event was delivered exactly once; an
    event's attempts count its claims; and no two live workers hold the same event.
   */
  lemma AtMostOncePublish(steps: seq<Step>, id: Id)
    ensures var s := History(steps);
            && s.delivered[id] <= 1
            && (id in s.rows ==> s.rows[id].attempts == s.claims[id])
            && (id in s.rows && s.rows[id].status.Published? ==> s.delivered[id] == 1)
            && (id in s.rows && (s.rows[id].status.Pending? || s.rows[id].status.Failed?) ==> s.delivered[id] == 0)
            && (forall v, w :: v in s.flights && w in s.flights && id in s.flights[v].queue && id in s.flights[w].queue
                               ==> v == w)
            && (forall w :: w in s.flights && id in s.flights[w].queue
                            ==> id in s.rows && s.rows[id].status.InProgress?)
  {
    hide Next, History, FlightsApart;
    HistoryInv(steps);
    var s := History(steps);
    if id in s.rows {
      assert RowOk(id, s.rows[id], s.claims[id], s.delivered[id]);
    }
    HeldOnce(s.flights, id);
  }

  /** A live worker can always record the broker's answer, unless it is an error without a text. */
  lemma MarkSucceeds(steps: seq<Step>, w: nat, next: int, now: int)
    requires var s := History(steps); w in s.flights && s.flights[w].answer.Some?
    ensures var s := History(steps);
            && s.flights[w].queue != [] && s.flights[w].queue[0] in s.rows
            && (Marked(s.rows[s.flights[w].queue[0]], s.flights[w].answer.value, next, now).Ok? <==>
                s.flights[w].answer != Some(Rejected("")))
  {
    hide Next, History, SysInv;
    HistoryInv(steps);
    MarkRows(History(steps), w, next, now);
  }

  /** Neither published events nor events of crashed workers ever change again. */
  ghost predicate Frozen(s: System, id: Id) {
    && id in s.rows
    && (s.rows[id].status.Published? ||
        (s.rows[id].status.InProgress? && forall w :: w in s.flights ==> id !in s.flights[w].queue))
  }

  lemma FrozenStep(s: System, step: Step, id: Id)
    requires SysInv(s) && Frozen(s, id)
    ensures Frozen(Next(s, step), id) && Next(s, step).rows[id] == s.rows[id]
    ensures Next(s, step).delivered[id] == s.delivered[id]
  {
    if id in s.rows && s.rows[id].status.Published? {
      forall w | w in s.flights ensures id !in s.flights[w].queue {
        assert FlightOk(s.rows, s.delivered, s.flights[w]);
      }
    }
    FrozenNext(s, step, id);
  }

  lemma FrozenNext(s: System, step: Step, id: Id)
    requires Frozen(s, id) && forall w :: w in s.flights ==> id !in s.flights[w].queue
    ensures Frozen(Next(s, step), id) && Next(s, step).rows[id] == s.rows[id]
    ensures Next(s, step).delivered[id] == s.delivered[id]
  {
    if step.ClaimSome? && Claims(s, step.w, step.worker, step.ids, step.now) {
      assert id !in step.ids;
    }
  }

  /**
    PUBLISHED is final. So is IN_PROGRESS once the claiming worker is gone: such an event is
    never claimed again, whatever any worker does.
   */
  lemma {:induction false} FrozenForever(steps: seq<Step>, i: nat, id: Id)
    requires i <= |steps| && Frozen(History(steps[..i]), id)
    ensures id in History(steps).rows && History(steps).rows[id] == History(steps[..i]).rows[id]
    ensures Frozen(History(steps), id) && History(steps).delivered[id] == History(steps[..i]).delivered[id]
    decreases |steps|
  {
    hide Next, SysInv, Frozen;
    if i == |steps| {
      assert steps[..i] == steps;
      FrozenKnown(History(steps), id);
    } else {
      var n := |steps| - 1;
      assert steps[..n][..i] == steps[..i];
      HistoryInv(steps[..n]);
      FrozenForever(steps[..n], i, id);
      FrozenStep(History(steps[..n]), steps[n], id);
    }
  }

  lemma FrozenKnown(s: System, id: Id)
    requires Frozen(s, id)
    ensures id in s.rows
  {}

  /** A number no live worker has. */
  lemma {:induction false} FreshWorker(busy: set<nat>) returns (w: nat)
    ensures forall v :: v in busy ==> v < w
  {
    w := 0;
    if v :| v in busy {
      var u := FreshWorker(busy - {v});
      w := if u > v then u else v + 1;
      forall x | x in busy ensures x < w {
        assert x == v || x in busy - {v};
      }
    }
  }

  lemma Unfold(steps: seq<Step>, step: Step)
    ensures History(steps + [step]) == Next(History(steps), step)
  {
    assert (steps + [step])[..|steps|] == steps;
  }

  lemma ClaimAlone(s: System, w: nat, id: Id)
    requires w !in s.flights && id in s.rows && Ready(s.rows[id], s.rows[id].availableAt)
    ensures var claimed := Next(s, ClaimSome(w, "worker", [id], s.rows[id].availableAt));
            w in claimed.flights && claimed.flights[w] == Flight([id], None) && claimed.delivered == s.delivered
  {
    assert id in ReadySet(s.rows, s.rows[id].availableAt);
  }

  /** A ready event is delivered by one claim and one successful publish. */
  lemma DeliverNow(steps: seq<Step>, id: Id) returns (more: seq<Step>)
    requires var s := History(steps); id in s.rows && Ready(s.rows[id], s.rows[id].availableAt) && s.delivered[id] == 0
    ensures History(steps + more).delivered[id] == 1
  {
    var s := History(steps);
    var w := FreshWorker(s.flights.Keys);
    var claim := ClaimSome(w, "worker", [id], s.rows[id].availableAt);
    more := [claim, Publish(w, Delivered)];
    ClaimAlone(s, w, id);
    Unfold(steps, claim);
    Unfold(steps + [claim], Publish(w, Delivered));
    assert steps + more == steps + [claim] + [Publish(w, Delivered)];
    hide History;
  }

  /** Events still undelivered that no live worker holds; a crash leaves its worker's events so. */
  ghost predicate Unheld(s: System, id: Id) {
    id in s.rows && s.delivered[id] == 0 && forall w :: w in s.flights ==> id !in s.flights[w].queue
  }

  ghost predicate CanBeDelivered(steps: seq<Step>, id: Id) {
    exists more :: History(steps + more).delivered[id] == 1
  }

  /**
    Delivery after a crash. An event no live worker holds can still be delivered if and only if
    it is pending or failed: one left in progress by a crash is never delivered, by any continuation.
   */
  lemma DeliverableExactly(steps: seq<Step>, id: Id)
    requires Unheld(History(steps), id)
    ensures CanBeDelivered(steps, id) <==>
            History(steps).rows[id].status.Pending? || History(steps).rows[id].status.Failed?
  {
    hide Next;
    HistoryInv(steps);
    var s := History(steps);
    assert RowOk(id, s.rows[id], s.claims[id], s.delivered[id]);
    if s.rows[id].status.InProgress? {
      forall more: seq<Step> ensures History(steps + more).delivered[id] == 0 {
        assert (steps + more)[..|steps|] == steps;
        FrozenForever(steps + more, |steps|, id);
      }
    } else {
      var more := DeliverNow(steps, id);
      assert CanBeDelivered(steps, id);
    }
  }

  /** The documentation's promise of a retry fails on the first event a crashing worker claims. */
  lemma CrashLosesEvent(e: Ledger.Event)
    ensures var steps := [Create(e), ClaimSome(0, "worker", [e.id], e.createdAt), Crash(0)];
            e.id in History(steps).rows && History(steps).rows[e.id].status.InProgress? && !CanBeDelivered(steps, e.id)
  {
    var a, b, c := Create(e), ClaimSome(0, "worker", [e.id], e.createdAt), Crash(0);
    Unfold([], a);
    Unfold([a], b);
    Unfold([a, b], c);
    assert [] + [a] == [a] && [a] + [b] == [a, b] && [a, b] + [c] == [a, b, c];
    assert e.id in ReadySet(History([a]).rows, e.createdAt);
    assert History([a, b]).rows[e.id].status.InProgress?;
    DeliverableExactly([a, b, c], e.id);
  }

  // ----- order of publication -----

  /** The first event is rejected once, and waits out its minute while the second is delivered. */
  function Overtaking(e: Ledger.Event, f: Ledger.Event, at: int): seq<Step> {
    [Create(e), ClaimSome(0, "worker", [e.id], at), Publish(0, Rejected("unreachable")), Mark(0, at + MINUTE, at),
     Create(f), ClaimSome(0, "worker", [f.id], at), Publish(0, Delivered)]
  }

  lemma EarlierClaimed(e: Ledger.Event, at: int)
    requires e.createdAt <= at
    ensures var two := Next(Next(FRESH, Create(e)), ClaimSome(0, "worker", [e.id], at));
            && two.rows.Keys == {e.id} && two.rows[e.id].status.InProgress? && two.delivered == multiset{}
            && two.flights == map[0 := Flight([e.id], None)]
  {
    assert e.id in ReadySet(map[e.id := NewRow(e)], at);
  }

  lemma ClaimedRetries(s: System, e: Ledger.Event, at: int)
    requires s.rows.Keys == {e.id} && s.rows[e.id].status.InProgress? && s.delivered == multiset{}
    requires s.flights == map[0 := Flight([e.id], None)]
    ensures var four := Next(Next(s, Publish(0, Rejected("unreachable"))), Mark(0, at + MINUTE, at));
            && four.rows.Keys == {e.id} && four.flights == map[] && four.delivered == multiset{}
            && four.rows[e.id].status.Failed? && four.rows[e.id].availableAt == at + MINUTE
  {
    assert [e.id][1..] == [];
  }

  lemma LaterClaimed(s: System, e: Ledger.Event, f: Ledger.Event, at: int)
    requires s.rows.Keys == {e.id} && s.flights == map[] && s.delivered == multiset{}
    requires f.id != e.id && f.createdAt <= at
    ensures var two := Next(Next(s, Create(f)), ClaimSome(0, "worker", [f.id], at));
            && two.rows.Keys == {e.id, f.id} && two.rows[e.id] == s.rows[e.id] && two.delivered == multiset{}
            && two.flights == map[0 := Flight([f.id], None)]
  {
    assert f.id in ReadySet(s.rows[f.id := NewRow(f)], at);
  }

  lemma ClaimedDelivered(s: System, f: Ledger.Event)
    requires s.flights == map[0 := Flight([f.id], None)] && s.delivered == multiset{}
    ensures var three := Next(s, Publish(0, Delivered));
            && three.delivered == multiset{f.id} && three.rows == s.rows
            && three.flights == map[0 := Flight([f.id], Some(Delivered))]
  {}

  /**
    Order of creation is not order of publication: of any two events, the earlier created may be
    delivered later, after a retry.
   */
  lemma OrderNotKept(e: Ledger.Event, f: Ledger.Event, at: int)
    requires e.id != f.id && e.createdAt < f.createdAt <= at
    ensures var steps := Overtaking(e, f, at);
            && History(steps).delivered[f.id] == 1 && History(steps).delivered[e.id] == 0
            && CanBeDelivered(steps, e.id)
  {
    hide History, Next, SysInv;
    var s := Overtaking(e, f, at);
    assert s[..0] == [] && s[..1] == s[..0] + [s[0]] && s[..2] == s[..1] + [s[1]] && s[..3] == s[..2] + [s[2]];
    assert s[..4] == s[..3] + [s[3]] && s[..5] == s[..4] + [s[4]] && s[..6] == s[..5] + [s[5]] && s == s[..6] + [s[6]];
    Unfold(s[..0], s[0]);
    Unfold(s[..1], s[1]);
    Unfold(s[..2], s[2]);
    Unfold(s[..3], s[3]);
    Unfold(s[..4], s[4]);
    Unfold(s[..5], s[5]);
    Unfold(s[..6], s[6]);
    FreshHistory();
    EarlierClaimed(e, at);
    ClaimedRetries(History(s[..2]), e, at);
    LaterClaimed(History(s[..4]), e, f, at);
    ClaimedDelivered(History(s[..6]), f);
    DeliverableExactly(s, e.id);
  }

  lemma FreshHistory()
    ensures History([]) == FRESH
  {}

  // ----- together with the ledger -----

  ghost predicate CreatedFrom(steps: seq<Step>, log: seq<Ledger.Event>) {
    forall i :: 0 <= i < |steps| && steps[i].Create? ==> steps[i].event in log
  }

  ghost predicate RowsFrom(rows: map<Id, Row>, log: seq<Ledger.Event>) {
    forall id :: id in rows ==> rows[id].event in log
  }

  lemma NextRowsFrom(s: System, step: Step, log: seq<Ledger.Event>)
    requires RowsFrom(s.rows, log) && (step.Create? ==> step.event in log)
    ensures RowsFrom(Next(s, step).rows, log)
  {}

  lemma {:induction false} HistoryRowsFrom(steps: seq<Step>, log: seq<Ledger.Event>)
    requires CreatedFrom(steps, log)
    ensures RowsFrom(History(steps).rows, log)
    decreases |steps|
  {
    hide Next;
    if steps != [] {
      var n := |steps| - 1;
      HistoryRowsFrom(steps[..n], log);
      NextRowsFrom(History(steps[..n]), steps[n], log);
    }
  }

  lemma {:induction false} CountOne(log: seq<Ledger.Event>, e: Ledger.Event, id: Id, kind: Kind)
    requires e in log && Matches(e, id, kind) == 1
    ensures Count(log, id, kind) >= 1
  {
    var n := |log| - 1;
    if log[n] != e {
      CountOne(log[..n], e, id, kind);
    }
  }

  lemma {:induction false} CountTwo(log: seq<Ledger.Event>, e: Ledger.Event, f: Ledger.Event, id: Id, kind: Kind)
    requires e in log && f in log && e != f && Matches(e, id, kind) == 1 && Matches(f, id, kind) == 1
    ensures Count(log, id, kind) >= 2
  {
    var n := |log| - 1;
    if log[n] == e {
      CountOne(log[..n], f, id, kind);
    } else if log[n] == f {
      CountOne(log[..n], e, id, kind);
    } else {
      CountTwo(log[..n], e, f, id, kind);
    }
  }

  /**
    Ledger and outbox together: over every run of the ledger and every interleaving of the workers
    on its events, each payment's authorization, exit and settlement are each delivered at most once.
   */
  lemma AnnouncedOnce(merchants: map<Id, Ledger.MerchantStatus>, actions: seq<Action>, steps: seq<Step>, a: Id, b: Id)
    requires CreatedFrom(steps, Run(merchants, actions).ledger.log)
    requires var s := History(steps); a in s.delivered && b in s.delivered
    ensures var s := History(steps); a in s.rows && b in s.rows && s.delivered[a] == 1
    ensures var e, f := History(steps).rows[a].event.payload, History(steps).rows[b].event.payload;
            e.paymentId == f.paymentId && KindOf(e) == KindOf(f) ==> a == b
  {
    hide Run, History, Next;
    HistoryInv(steps);
    var s, l := History(steps), Run(merchants, actions).ledger;
    HistoryRowsFrom(steps, l.log);
    assert RowOk(a, s.rows[a], s.claims[a], s.delivered[a]) && RowOk(b, s.rows[b], s.claims[b], s.delivered[b]);
    var e, f := s.rows[a].event, s.rows[b].event;
    if e.payload.paymentId == f.payload.paymentId && KindOf(e.payload) == KindOf(f.payload) && e != f {
      CountTwo(l.log, e, f, e.payload.paymentId, KindOf(e.payload));
      CountedOnce(merchants, actions, e.payload.paymentId, KindOf(e.payload));
    }
  }

  lemma CountedOnce(merchants: map<Id, Ledger.MerchantStatus>, actions: seq<Action>, p: Id, kind: Kind)
    ensures Count(Run(merchants, actions).ledger.log, p, kind) <= 1
  {
    hide SettlementInvariant.SettleInv, Structural, Balanced, Replayed;
    ReachableInv(merchants, actions);
    var l := Run(merchants, actions).ledger;
    assert Count(l.log, p, kind) == Expected(l.payments, p, kind);
  }
}
