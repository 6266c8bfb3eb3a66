/** What every ledger transaction keeps: structure, conservation of money, and replayability. */
module LedgerInvariant {
  import opened Common
  import opened Sums
  import opened Entities
  import opened Ledger

  // ----- structure -----

  predicate PayerOk(id: Id, p: Payer) {
    p.id == id && id != "" && ValidCurrency(p.currency) && p.available >= 0 && p.held >= 0 && p.version >= 0
  }

  predicate PaymentOk(id: Id, q: Payment) {
    && q.id == id && id != "" && q.merchantId != "" && q.amount > 0 && q.expiresAt > q.authorizedAt
    && (q.capturedAt.Some? <==> q.status.Captured? || q.status.Settled?)
    && (q.settledAt.Some? <==> q.status.Settled?)
  }

  /** Payment and hold statuses move together, and a hold repeats its payment's terms. */
  predicate Paired(q: Payment, h: Hold) {
    && h.id == q.holdId && h.paymentId == q.id && h.payerId == q.payerId
    && h.amount == q.amount && h.currency == q.currency
    && match q.status {
         case Authorized => h.status == Held
         case Captured => h.status == HoldCaptured
         case Settled => h.status == HoldCaptured
         case Expired => h.status == Released
         case Pending => false
         case Failed => false
       }
  }

  ghost predicate PayersOk(payers: map<Id, Payer>, opening: map<Id, int64>) {
    && opening.Keys == payers.Keys
    && forall id :: id in payers ==> PayerOk(id, payers[id])
  }

  ghost predicate PaymentsOk(payments: map<Id, Payment>) {
    forall id :: id in payments ==> PaymentOk(id, payments[id])
  }

  ghost predicate OwnersOk(payments: map<Id, Payment>, payers: map<Id, Payer>) {
    forall id :: id in payments ==>
      payments[id].payerId in payers && payments[id].currency == payers[payments[id].payerId].currency
  }

  /** Each payment has its hold, each hold its payment. */
  ghost predicate HoldsOk(payments: map<Id, Payment>, holds: map<Id, Hold>) {
    && (forall id :: id in payments ==>
          payments[id].holdId in holds && Paired(payments[id], holds[payments[id].holdId]))
    && (forall id :: id in holds ==>
          holds[id].paymentId in payments && payments[holds[id].paymentId].holdId == id)
  }

  ghost predicate IndexOk(payments: map<Id, Payment>, holdOf: map<Id, Id>) {
    && holdOf.Keys == payments.Keys
    && forall id :: id in payments ==> holdOf[id] == payments[id].holdId
  }

  ghost predicate Structural(l: Ledger) {
    && PayersOk(l.payers, l.opening)
    && PaymentsOk(l.payments)
    && OwnersOk(l.payments, l.payers)
    && HoldsOk(l.payments, l.holds)
    && IndexOk(l.payments, l.holdOf)
  }

  // ----- conservation -----

  function Reserved(q: Payment): int {
    if q.status.Authorized? then q.amount else 0
  }

  function Spent(q: Payment): int {
    if q.status.Captured? || q.status.Settled? then q.amount else 0
  }

  function HeldAmount(h: Hold): int {
    if h.status.Held? then h.amount else 0
  }

  ghost function ReservedBy(payer: Id): (Id, Payment) -> int {
    (_, q: Payment) => if q.payerId == payer then Reserved(q) else 0
  }

  ghost function SpentBy(payer: Id): (Id, Payment) -> int {
    (_, q: Payment) => if q.payerId == payer then Spent(q) else 0
  }

  ghost function HeldFor(payer: Id): (Id, Hold) -> int {
    (_, h: Hold) => if h.payerId == payer then HeldAmount(h) else 0
  }

  /** A payer's opening balance is what is available, held, and spent; and held is the sum of its holds. */
  ghost predicate Conserved(l: Ledger, payer: Id) {
    && payer in l.payers && payer in l.opening
    && l.opening[payer] >= 0
    && l.payers[payer].held == Sum(l.payments, ReservedBy(payer))
    && l.payers[payer].held == Sum(l.holds, HeldFor(payer))
    && l.opening[payer] == l.payers[payer].available + l.payers[payer].held + Sum(l.payments, SpentBy(payer))
  }

  ghost predicate Balanced(l: Ledger) {
    forall id :: id in l.payers ==> Conserved(l, id)
  }

  // ----- replay -----

  /** What a consumer of the event stream can know. */
  datatype Book = Book(available: map<Id, int>, held: map<Id, int>, status: map<Id, PaymentStatus>)

  function At(m: map<Id, int>, id: Id): int {
    if id in m then m[id] else 0
  }

  function Move(b: Book, payer: Id, available: int, held: int): Book {
    b.(available := b.available[payer := At(b.available, payer) + available],
       held := b.held[payer := At(b.held, payer) + held])
  }

  /** Posts one event, using nothing but its payload. */
  function Post(b: Book, e: Payload): Book {
    match e
    case PaymentAuthorized(q, _, p, a, _, _, _, _) => Move(b, p, 0 - a, a).(status := b.status[q := Authorized])
    case PaymentCaptured(q, _, p, a, _, _, _) => Move(b, p, 0, 0 - a).(status := b.status[q := Captured])
    case PaymentExpired(q, _, p, a, _, _, _, _) => Move(b, p, a, 0 - a).(status := b.status[q := Expired])
    case PaymentSettled(q, _, _, _, _, _, _) => b.(status := b.status[q := Settled])
  }

  function Replay(opening: map<Id, int64>, log: seq<Event>): Book {
    if log == [] then Book(map id | id in opening :: opening[id], map id | id in opening :: 0, map[])
    else Post(Replay(opening, log[..|log| - 1]), log[|log| - 1].payload)
  }

  function AvailableOf(payers: map<Id, Payer>): map<Id, int> {
    map id | id in payers :: payers[id].available
  }

  function HeldOf(payers: map<Id, Payer>): map<Id, int> {
    map id | id in payers :: payers[id].held
  }

  function StatusOf(payments: map<Id, Payment>): map<Id, PaymentStatus> {
    map id | id in payments :: payments[id].status
  }

  function BookOf(l: Ledger): Book {
    Book(AvailableOf(l.payers), HeldOf(l.payers), StatusOf(l.payments))
  }

  ghost predicate NamesPayers(log: seq<Event>, payers: set<Id>) {
    forall e :: e in log ==> e.payload.payerId in payers
  }

  ghost predicate Replayed(l: Ledger) {
    && NamesPayers(l.log, l.opening.Keys)
    && Replay(l.opening, l.log) == BookOf(l)
  }

  // ----- every transition is announced exactly once -----

  /** A payment enters by authorization, its hold exits by capture or expiry, and it may be settled. */
  datatype Kind = Entry | Exit | Settlement

  function KindOf(e: Payload): Kind {
    match e
    case PaymentAuthorized(_, _, _, _, _, _, _, _) => Entry
    case PaymentCaptured(_, _, _, _, _, _, _) => Exit
    case PaymentExpired(_, _, _, _, _, _, _, _) => Exit
    case PaymentSettled(_, _, _, _, _, _, _) => Settlement
  }

  function Matches(e: Event, id: Id, kind: Kind): nat {
    if e.payload.paymentId == id && KindOf(e.payload) == kind then 1 else 0
  }

  function Count(log: seq<Event>, id: Id, kind: Kind): nat {
    if log == [] then 0
    else Count(log[..|log| - 1], id, kind) + Matches(log[|log| - 1], id, kind)
  }

  function Expected(payments: map<Id, Payment>, id: Id, kind: Kind): nat {
    if id !in payments then 0
    else
      match kind
      case Entry => 1
      case Exit => if payments[id].status.Authorized? then 0 else 1
      case Settlement => if payments[id].status.Settled? then 1 else 0
  }

  ghost predicate Logged(l: Ledger) {
    forall id: Id, kind: Kind :: Count(l.log, id, kind) == Expected(l.payments, id, kind)
  }

  ghost predicate Inv(l: Ledger) {
    Structural(l) && Balanced(l) && Replayed(l) && Logged(l)
  }

  // ----- consequences of the invariant -----

  lemma InvHolds(l: Ledger)
    requires Inv(l)
    ensures HoldsOk(l.payments, l.holds) && IndexOk(l.payments, l.holdOf)
  {}

  lemma InvKeyed(l: Ledger)
    requires Inv(l)
    ensures Keyed(l)
  {
    forall h | h in l.holds ensures l.holds[h].id == h {
      assert Paired(l.payments[l.holds[h].paymentId], l.holds[h]);
    }
  }

  lemma InvRows(l: Ledger)
    requires Inv(l)
    ensures PayersOk(l.payers, l.opening) && PaymentsOk(l.payments) && OwnersOk(l.payments, l.payers)
  {}

  lemma InvBalanced(l: Ledger)
    requires Inv(l)
    ensures Balanced(l)
  {
    hide Structural, Balanced, Replayed, Logged;
  }

  /** No balance ever exceeds the payer's opening balance, so no int64 addition wraps. */
  lemma NoOverflow(l: Ledger, id: Id)
    requires PayersOk(l.payers, l.opening) && PaymentsOk(l.payments) && Balanced(l) && id in l.payers
    ensures 0 <= l.payers[id].available + l.payers[id].held <= l.opening[id] <= MAX64
    ensures forall q :: q in l.payments && l.payments[q].payerId == id && l.payments[q].status.Authorized?
                        ==> l.payments[q].amount <= l.payers[id].held
  {
    assert Conserved(l, id);
    SumNonNegative(l.payments, SpentBy(id));
    SumNonNegative(l.payments, ReservedBy(id));
    forall q | q in l.payments && l.payments[q].payerId == id && l.payments[q].status.Authorized?
      ensures l.payments[q].amount <= l.payers[id].held
    {
      assert ReservedBy(id)(q, l.payments[q]) == l.payments[q].amount;
    }
  }
}
